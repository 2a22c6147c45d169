/**
 * trajectory_t of trajectory_t.hpp/.cpp: a vector of points with the frame of its
 * first point, and the .dat text format of trajectories, partitions and file
 * headers.  A stream is a sequence of tokens: the whitespace and the decimal text
 * of the numbers are not modelled.
 */
module Trajectories {
  import opened Wrappers
  import opened Vectors

  /** unsigned int, the type of the start frame and of the frame counter of write. */
  const UintModulus: int := 0x1_0000_0000
  type uint32 = n: int | 0 <= n < 0x1_0000_0000

  /** The ranges operator>> accepts for int and for size_t. */
  const IntMin: int := -0x8000_0000
  const IntMax: int := 0x7fff_ffff

  /** cv::Point_<double>; its default constructor gives the origin. */
  datatype Point = Point(x: real, y: real)
  const Origin: Point := Point(0.0, 0.0)

  /** x of every point, in order. */
  function XComponents(points: seq<Point>): (r: seq<real>)
    ensures |r| == |points| && forall i :: 0 <= i < |points| ==> r[i] == points[i].x
  {
    seq(|points|, i requires 0 <= i < |points| => points[i].x)
  }

  /** y of every point, in order. */
  function YComponents(points: seq<Point>): (r: seq<real>)
    ensures |r| == |points| && forall i :: 0 <= i < |points| ==> r[i] == points[i].y
  {
    seq(|points|, i requires 0 <= i < |points| => points[i].y)
  }

  class Trajectory {
    var points: seq<Point>
    var startFrame: uint32

    /** trajectory_t(size, start_frame): `size` points at the origin. */
    constructor (size: nat, startFrame: uint32)
      ensures points == seq(size, _ => Origin) && this.startFrame == startFrame
    {
      points := seq(size, _ => Origin);
      this.startFrame := startFrame;
    }

    /** size(): the number of points. */
    function Size(): (r: nat)
      reads this
      ensures r == |points|
    {
      |points|
    }

    /**
     * recreate: resizes the points, keeping the first ones and adding origins, and
     * sets the start frame.
     */
    method Recreate(size: nat, startFrame: uint32)
      modifies this
      ensures points == Resized(old(points), size, Origin) && this.startFrame == startFrame
    {
      points := Resized(points, size, Origin);
      this.startFrame := startFrame;
    }

    /** get_x_components: components becomes the x coordinates, one per point. */
    method GetXComponents(components: RealVector)
      modifies components
      ensures components.data == XComponents(points)
    {
      components.data := Resized(components.data, |points|, 0.0);
      var i := 0;
      while i < |points|
        invariant 0 <= i <= |points| && |components.data| == |points|
        invariant components.data[..i] == XComponents(points)[..i]
      {
        components.data := components.data[i := points[i].x];
        i := i + 1;
      }
    }

    /** get_y_components: components becomes the y coordinates, one per point. */
    method GetYComponents(components: RealVector)
      modifies components
      ensures components.data == YComponents(points)
    {
      components.data := Resized(components.data, |points|, 0.0);
      var i := 0;
      while i < |points|
        invariant 0 <= i <= |points| && |components.data| == |points|
        invariant components.data[..i] == YComponents(points)[..i]
      {
        components.data := components.data[i := points[i].y];
        i := i + 1;
      }
    }
  }

  // ---------------------------------------------------------------------------
  // Token streams

  /** A number in the text: an integer as written by `<<` of an integer, or a decimal. */
  datatype Token = Int(n: int) | Dec(r: real)

  /** `in >> int`: an integer token in the range of int. */
  function ReadInt(tokens: seq<Token>, pos: nat): (r: Option<int>)
    ensures r.Some? <==> pos < |tokens| && tokens[pos].Int? && IntMin <= tokens[pos].n <= IntMax
    ensures r.Some? ==> r.value == tokens[pos].n
  {
    if pos < |tokens| && tokens[pos].Int? && IntMin <= tokens[pos].n <= IntMax then Some(tokens[pos].n) else None
  }

  /**
   * `in >> size_t`: an integer token whose magnitude fits in size_t.  A minus sign is
   * accepted and the magnitude negated in size_t arithmetic, so -n reads as 2^64 - n.
   */
  function ReadSize(tokens: seq<Token>, pos: nat): (r: Option<nat>)
    ensures r.Some? <==> pos < |tokens| && tokens[pos].Int? && -SizeModulus < tokens[pos].n < SizeModulus
    ensures r.Some? && tokens[pos].n >= 0 ==> r.value == tokens[pos].n
    ensures r.Some? && tokens[pos].n < 0 ==> r.value == SizeModulus + tokens[pos].n
  {
    if pos < |tokens| && tokens[pos].Int? && -SizeModulus < tokens[pos].n < SizeModulus
    then Some(if tokens[pos].n >= 0 then tokens[pos].n else SizeModulus + tokens[pos].n)
    else None
  }

  /** `in >> double`: any number token. */
  function ReadReal(tokens: seq<Token>, pos: nat): (r: Option<real>)
    ensures r.Some? <==> pos < |tokens|
    ensures r.Some? ==> r.value == match tokens[pos] case Int(n) => n as real case Dec(d) => d
  {
    if pos >= |tokens| then None
    else match tokens[pos] case Int(n) => Some(n as real) case Dec(d) => Some(d)
  }

  // ---------------------------------------------------------------------------
  // Header

  /** write_dat_header: the video length, then the number of trajectories. */
  function HeaderTokens(videoLength: int, amountOfElements: int): (r: seq<Token>)
    ensures |r| == 2 && r[0] == Int(videoLength) && r[1] == Int(amountOfElements)
  {
    [Int(videoLength), Int(amountOfElements)]
  }

  datatype Header = Header(videoLength: int, amountOfElements: int, next: nat)

  /** read_dat_header: two ints, in the order written. */
  function ParseHeader(tokens: seq<Token>, pos: nat): (r: Option<Header>)
    ensures r.Some? ==> r.value.next == pos + 2 <= |tokens|
  {
    match (ReadInt(tokens, pos), ReadInt(tokens, pos + 1))
    case (Some(v), Some(a)) => Some(Header(v, a, pos + 2))
    case _ => None
  }

  lemma HeaderRoundTrip(videoLength: int, amountOfElements: int, rest: seq<Token>)
    requires IntMin <= videoLength <= IntMax && IntMin <= amountOfElements <= IntMax
    ensures ParseHeader(HeaderTokens(videoLength, amountOfElements) + rest, 0)
            == Some(Header(videoLength, amountOfElements, 2))
  {
    var s := HeaderTokens(videoLength, amountOfElements) + rest;
    assert s[0] == Int(videoLength) && s[1] == Int(amountOfElements);
  }

  // ---------------------------------------------------------------------------
  // Trajectory

  /** lroundf: to the nearest integer, halfway cases away from zero. */
  function Round(x: real): (r: int)
    ensures x - 0.5 <= r as real <= x + 0.5
    ensures x >= 0.0 ==> r >= 0
    ensures x <= 0.0 ==> r <= 0
    ensures x == x.Floor as real ==> r == x.Floor
    ensures x >= 0.0 ==> x - 0.5 < r as real
    ensures x <= 0.0 ==> r as real < x + 0.5
  {
    if x >= 0.0 then (x + 0.5).Floor else -((-x + 0.5).Floor)
  }

  /** The three tokens write emits for a point after the first: x, y, then its frame. */
  function PointTokens(p: Point, frame: uint32): seq<Token>
  {
    [Dec(p.x), Dec(p.y), Int(frame)]
  }

  /** One step of the unsigned int frame counter. */
  lemma NextFrame(a: int)
    ensures (a % UintModulus + 1) % UintModulus == (a + 1) % UintModulus
  {
    var q := a / UintModulus;
    assert a == q * UintModulus + a % UintModulus;
    if a % UintModulus + 1 == UintModulus {
      assert a + 1 == (q + 1) * UintModulus;
    } else {
      assert a + 1 == q * UintModulus + (a % UintModulus + 1);
    }
  }

  /**
   * The lines write emits for the points after the first: point k with frame
   * `frame + k` modulo 2^32.
   */
  function LaterPointsTokens(ps: seq<Point>, frame: int): (r: seq<Token>)
    ensures |r| == 3 * |ps|
  {
    if |ps| == 0 then []
    else LaterPointsTokens(ps[..|ps| - 1], frame) + PointTokens(ps[|ps| - 1], (frame + |ps| - 1) % UintModulus)
  }

  /** The line of point k holds its x, its y and frame `frame + k` modulo 2^32. */
  lemma {:induction false} LaterPointsTokensAt(ps: seq<Point>, frame: int, k: nat)
    requires k < |ps|
    ensures var r := LaterPointsTokens(ps, frame);
      r[3 * k] == Dec(ps[k].x) && r[3 * k + 1] == Dec(ps[k].y) && r[3 * k + 2] == Int((frame + k) % UintModulus)
    decreases |ps|
  {
    if k < |ps| - 1 {
      LaterPointsTokensAt(ps[..|ps| - 1], frame, k);
    }
  }

  /** One more point adds its line at the end. */
  lemma LaterPointsTokensAppend(ps: seq<Point>, p: Point, frame: int)
    ensures LaterPointsTokens(ps + [p], frame)
            == LaterPointsTokens(ps, frame) + PointTokens(p, (frame + |ps|) % UintModulus)
  {
    assert (ps + [p])[..|ps|] == ps;
  }

  /**
   * write(trajectory): label 0 and the size, the first point rounded to integers with
   * the start frame, then every later point with the following frames.
   */
  function TrajectoryTokens(points: seq<Point>, startFrame: uint32): (r: seq<Token>)
    requires |points| > 0
    ensures |r| == 3 * |points| + 2
  {
    [Int(0), Int(|points|), Int(Round(points[0].x)), Int(Round(points[0].y)), Int(startFrame)]
      + LaterPointsTokens(points[1..], startFrame + 1)
  }

  /** One more later point adds its line, with frame start + i modulo 2^32. */
  lemma WriteStep(points: seq<Point>, start: int, i: nat)
    requires 1 <= i < |points|
    ensures LaterPointsTokens(points[1..i + 1], start + 1)
            == LaterPointsTokens(points[1..i], start + 1) + [Dec(points[i].x), Dec(points[i].y), Int((start + i) % UintModulus)]
  {
    assert points[1..i + 1] == points[1..i] + [points[i]];
    LaterPointsTokensAppend(points[1..i], points[i], start + 1);
  }

  /** write(trajectory), with its frame counter that wraps like unsigned int. */
  method Write(tr: Trajectory) returns (tokens: seq<Token>)
    requires tr.Size() > 0
    ensures tokens == TrajectoryTokens(tr.points, tr.startFrame)
  {
    var points, start := tr.points, tr.startFrame;
    var frame: uint32 := start;
    tokens := [Int(0), Int(|points|)];
    tokens := tokens + [Int(Round(points[0].x)), Int(Round(points[0].y)), Int(frame)];
    frame := (frame + 1) % UintModulus;
    ghost var head := tokens;
    var i := 1;
    while i < |points|
      invariant 1 <= i <= |points|
      invariant frame == (start + i) % UintModulus
      invariant tokens == head + LaterPointsTokens(points[1..i], start + 1)
    {
      WriteStep(points, start, i);
      tokens := tokens + [Dec(points[i].x), Dec(points[i].y), Int(frame)];
      NextFrame(start + i);
      frame := (frame + 1) % UintModulus;
      i := i + 1;
    }
    assert points[1..i] == points[1..];
  }

  /** One later point: x and y as doubles, then a frame int that is read and dropped. */
  function ParsePoint(tokens: seq<Token>, pos: nat): Option<Point>
  {
    match (ReadReal(tokens, pos), ReadReal(tokens, pos + 1), ReadInt(tokens, pos + 2))
    case (Some(x), Some(y), Some(_)) => Some(Point(x, y))
    case _ => None
  }

  /** `count` later points from pos on, in order; None if any of them is malformed. */
  function ParsePoints(tokens: seq<Token>, pos: nat, count: nat): (r: Option<seq<Point>>)
    ensures r.Some? ==> |r.value| == count
  {
    if count == 0 then Some([])
    else match (ParsePoints(tokens, pos, count - 1), ParsePoint(tokens, pos + 3 * (count - 1)))
      case (Some(ps), Some(p)) => Some(ps + [p])
      case _ => None
  }

  /** Once a point is malformed, reading further points does not help. */
  lemma {:induction false} ParsePointsFailureSticks(tokens: seq<Token>, pos: nat, count: nat, more: nat)
    requires ParsePoints(tokens, pos, count).None? && count <= more
    ensures ParsePoints(tokens, pos, more).None?
    decreases more
  {
    if count < more {
      ParsePointsFailureSticks(tokens, pos, count, more - 1);
    }
  }

  datatype Parsed = Parsed(points: seq<Point>, startFrame: uint32, next: nat)

  /**
   * read(trajectory) from pos: a label, the size, the first point with the frame that
   * becomes the start frame (cast to unsigned int), then the later points.  A
   * malformed token, or a size of 0 for which read writes past the end of the
   * points, gives None.
   */
  function ParseTrajectory(tokens: seq<Token>, pos: nat): (r: Option<Parsed>)
    ensures r.Some? ==> |r.value.points| >= 1 && r.value.next == pos + 3 * |r.value.points| + 2
  {
    var labelRead, size := ReadInt(tokens, pos), ReadSize(tokens, pos + 1);
    if labelRead.None? || size.None? || size.value == 0 then None
    else
      var x, y, frame := ReadReal(tokens, pos + 2), ReadReal(tokens, pos + 3), ReadInt(tokens, pos + 4);
      var later := ParsePoints(tokens, pos + 5, size.value - 1);
      if x.None? || y.None? || frame.None? || later.None? then None
      else Some(Parsed([Point(x.value, y.value)] + later.value, frame.value % UintModulus, pos + 5 + 3 * (size.value - 1)))
  }

  /**
   * read(trajectory): on a well-formed stream, the points and start frame become the
   * ones read and the position after them is returned; otherwise nothing changes.
   */
  method Read(tr: Trajectory, tokens: seq<Token>, pos: nat) returns (next: Option<nat>)
    modifies tr
    ensures next.Some? <==> ParseTrajectory(tokens, pos).Some?
    ensures next.Some? ==>
              var parsed := ParseTrajectory(tokens, pos).value;
              next.value == parsed.next && tr.points == parsed.points && tr.startFrame == parsed.startFrame
    ensures next.None? ==> tr.points == old(tr.points) && tr.startFrame == old(tr.startFrame)
  {
    var labelRead := ReadInt(tokens, pos);
    var size := ReadSize(tokens, pos + 1);
    if labelRead.None? || size.None? || size.value == 0 {
      return None;
    }
    var x := ReadReal(tokens, pos + 2);
    var y := ReadReal(tokens, pos + 3);
    var frame := ReadInt(tokens, pos + 4);
    if x.None? || y.None? || frame.None? {
      return None;
    }
    var points := [Point(x.value, y.value)];
    assert points[1..] == [];
    var i := 1;
    while i < size.value
      invariant 1 <= i <= size.value
      invariant |points| == i && points[0] == Point(x.value, y.value)
      invariant ParsePoints(tokens, pos + 5, i - 1) == Some(points[1..])
    {
      var p := ParsePoint(tokens, pos + 5 + 3 * (i - 1));
      if p.None? {
        ParsePointsFailureSticks(tokens, pos + 5, i, size.value - 1);
        return None;
      }
      assert (points + [p.value])[1..] == points[1..] + [p.value];
      points := points + [p.value];
      i := i + 1;
    }
    assert points == [Point(x.value, y.value)] + points[1..];
    tr.points := points;
    tr.startFrame := frame.value % UintModulus;
    next := Some(pos + 5 + 3 * (size.value - 1));
  }

  /** Reading back the lines of later points gives those points. */
  lemma {:induction false} LaterPointsRoundTrip(ps: seq<Point>, frame: nat, tokens: seq<Token>, pos: nat, count: nat)
    requires count <= |ps| && frame + |ps| <= IntMax + 1
    requires pos + 3 * |ps| <= |tokens| && tokens[pos..pos + 3 * |ps|] == LaterPointsTokens(ps, frame)
    ensures ParsePoints(tokens, pos, count) == Some(ps[..count])
    decreases count
  {
    if count > 0 {
      LaterPointsRoundTrip(ps, frame, tokens, pos, count - 1);
      var k := count - 1;
      var at := pos + 3 * k;
      var written := LaterPointsTokens(ps, frame);
      LaterPointsTokensAt(ps, frame, k);
      assert tokens[at] == written[3 * k] == Dec(ps[k].x);
      assert tokens[at + 1] == written[3 * k + 1] == Dec(ps[k].y);
      assert tokens[at + 2] == written[3 * k + 2] == Int((frame + k) % UintModulus);
      assert ParsePoint(tokens, at) == Some(ps[k]);
      assert ps[..count] == ps[..k] + [ps[k]];
    }
  }

  /**
   * read(write(tr)): the size and the start frame come back, the first point comes
   * back rounded to integers by lroundf, and the later points exactly, provided
   * every frame written fits an int; the stream is left just after the trajectory.
   */
  lemma TrajectoryRoundTrip(points: seq<Point>, startFrame: uint32, rest: seq<Token>)
    requires 1 <= |points| < SizeModulus && startFrame + |points| <= IntMax + 1
    ensures var written := TrajectoryTokens(points, startFrame);
      ParseTrajectory(written + rest, 0) ==
        Some(Parsed([Point(Round(points[0].x) as real, Round(points[0].y) as real)] + points[1..],
                    startFrame, |written|))
  {
    var tokens := TrajectoryTokens(points, startFrame) + rest;
    WrittenTrajectoryHead(points, startFrame, rest);
    WrittenLaterPointsParse(points, startFrame, rest);
    ParseWrittenTrajectory(tokens, |points|, Round(points[0].x), Round(points[0].y), startFrame, points[1..]);
  }

  /** The first five tokens write emits: label 0, the size, the rounded first point, the start frame. */
  lemma WrittenTrajectoryHead(points: seq<Point>, startFrame: uint32, rest: seq<Token>)
    requires |points| >= 1
    ensures var tokens := TrajectoryTokens(points, startFrame) + rest;
      && tokens[0] == Int(0) && tokens[1] == Int(|points|) && tokens[4] == Int(startFrame)
      && tokens[2] == Int(Round(points[0].x)) && tokens[3] == Int(Round(points[0].y))
  {
    var first := [Int(0), Int(|points|), Int(Round(points[0].x)), Int(Round(points[0].y)), Int(startFrame)];
    var tokens := TrajectoryTokens(points, startFrame) + rest;
    assert tokens == first + (LaterPointsTokens(points[1..], startFrame + 1) + rest);
    assert tokens[..5] == first;
  }

  /** After those five tokens, the later points write emits read back as themselves. */
  lemma WrittenLaterPointsParse(points: seq<Point>, startFrame: uint32, rest: seq<Token>)
    requires 1 <= |points| && startFrame + |points| <= IntMax + 1
    ensures ParsePoints(TrajectoryTokens(points, startFrame) + rest, 5, |points| - 1) == Some(points[1..])
  {
    var later := points[1..];
    var first := [Int(0), Int(|points|), Int(Round(points[0].x)), Int(Round(points[0].y)), Int(startFrame)];
    var lines := LaterPointsTokens(later, startFrame + 1);
    var tokens := TrajectoryTokens(points, startFrame) + rest;
    assert tokens[5..5 + 3 * |later|] == lines by {
      assert tokens == first + (lines + rest);
    }
    LaterPointsRoundTrip(later, startFrame + 1, tokens, 5, |later|);
    assert later[..|later|] == later;
  }

  /**
   * A stream that starts like the output of write (label 0, the size, the first point
   * as integers, the start frame) and continues with size - 1 well-formed later
   * points reads back as exactly those points.
   */
  lemma ParseWrittenTrajectory(tokens: seq<Token>, size: nat, x: int, y: int, startFrame: uint32, later: seq<Point>)
    requires 1 <= size < SizeModulus && startFrame <= IntMax
    requires |tokens| >= 5 && tokens[0] == Int(0) && tokens[1] == Int(size)
    requires tokens[2] == Int(x) && tokens[3] == Int(y) && tokens[4] == Int(startFrame)
    requires ParsePoints(tokens, 5, size - 1) == Some(later)
    ensures ParseTrajectory(tokens, 0) == Some(Parsed([Point(x as real, y as real)] + later, startFrame, 5 + 3 * (size - 1)))
  {
    assert ReadInt(tokens, 0) == Some(0) && ReadSize(tokens, 1) == Some(size);
    assert ReadReal(tokens, 2) == Some(x as real) && ReadReal(tokens, 3) == Some(y as real);
    assert ReadInt(tokens, 4) == Some(startFrame as int) && startFrame % UintModulus == startFrame;
  }

  // ---------------------------------------------------------------------------
  // Partition

  /** write(partition): the number of cut points, then the cut points in order. */
  function PartitionTokens(cuts: seq<nat>): (r: seq<Token>)
    ensures |r| == |cuts| + 1 && r[0] == Int(|cuts|)
    ensures forall i :: 0 <= i < |cuts| ==> r[i + 1] == Int(cuts[i])
  {
    [Int(|cuts|)] + seq(|cuts|, i requires 0 <= i < |cuts| => Int(cuts[i]))
  }

  /** write(partition), one cut point at a time. */
  method WritePartition(cuts: seq<nat>) returns (tokens: seq<Token>)
    ensures tokens == PartitionTokens(cuts)
  {
    tokens := [Int(|cuts|)];
    var i := 0;
    while i < |cuts|
      invariant 0 <= i <= |cuts| && |tokens| == i + 1 && tokens[0] == Int(|cuts|)
      invariant forall p :: 0 <= p < i ==> tokens[p + 1] == Int(cuts[p])
    {
      tokens := tokens + [Int(cuts[i])];
      i := i + 1;
    }
  }

  /** `count` size_t values from pos on; None if any of them is malformed. */
  function ParseCuts(tokens: seq<Token>, pos: nat, count: nat): (r: Option<seq<nat>>)
    ensures r.Some? <==> forall i :: pos <= i < pos + count ==> ReadSize(tokens, i).Some?
    ensures r.Some? ==> |r.value| == count && forall i :: 0 <= i < count ==> ReadSize(tokens, pos + i) == Some(r.value[i])
  {
    if count == 0 then Some([])
    else match (ParseCuts(tokens, pos, count - 1), ReadSize(tokens, pos + count - 1))
      case (Some(cs), Some(c)) => Some(cs + [c])
      case _ => None
  }

  /** read(partition) from pos: a count, then that many cut points. */
  function ParsePartition(tokens: seq<Token>, pos: nat): (r: Option<(seq<nat>, nat)>)
    ensures r.Some? ==> r.value.1 == pos + 1 + |r.value.0|
  {
    match ReadSize(tokens, pos)
    case None => None
    case Some(count) =>
      match ParseCuts(tokens, pos + 1, count)
      case None => None
      case Some(cuts) => Some((cuts, pos + 1 + count))
  }

  /**
   * read(partition): the cut points read are appended to the list, which is not
   * cleared first; a malformed stream gives None.
   */
  method ReadPartition(partition: seq<nat>, tokens: seq<Token>, pos: nat) returns (r: Option<seq<nat>>, next: nat)
    ensures r.Some? <==> ParsePartition(tokens, pos).Some?
    ensures r.Some? ==> r.value == partition + ParsePartition(tokens, pos).value.0
                        && next == ParsePartition(tokens, pos).value.1
  {
    var size := ReadSize(tokens, pos);
    if size.None? {
      return None, pos;
    }
    var cuts := partition;
    assert cuts[|partition|..] == [];
    var i := 0;
    while i < size.value
      invariant 0 <= i <= size.value
      invariant |cuts| == |partition| + i && cuts[..|partition|] == partition
      invariant ParseCuts(tokens, pos + 1, i) == Some(cuts[|partition|..])
    {
      var cut := ReadSize(tokens, pos + 1 + i);
      if cut.None? {
        return None, pos;
      }
      assert (cuts + [cut.value])[|partition|..] == cuts[|partition|..] + [cut.value];
      cuts := cuts + [cut.value];
      i := i + 1;
    }
    assert cuts == partition + cuts[|partition|..];
    return Some(cuts), pos + 1 + size.value;
  }

  /** read(write(pr)) into an empty list gives pr back, and the stream is left just after it. */
  lemma PartitionRoundTrip(cuts: seq<nat>, rest: seq<Token>)
    requires |cuts| < SizeModulus && forall i :: 0 <= i < |cuts| ==> cuts[i] < SizeModulus
    ensures ParsePartition(PartitionTokens(cuts) + rest, 0) == Some((cuts, |cuts| + 1))
  {
    var tokens := PartitionTokens(cuts) + rest;
    assert tokens[0] == Int(|cuts|);
    forall i | 1 <= i < 1 + |cuts|
      ensures ReadSize(tokens, i).Some?
    {
      assert tokens[i] == Int(cuts[i - 1]);
    }
    var parsed := ParseCuts(tokens, 1, |cuts|).value;
    forall i | 0 <= i < |cuts|
      ensures parsed[i] == cuts[i]
    {
      assert tokens[1 + i] == Int(cuts[i]);
    }
    assert parsed == cuts;
    assert ReadSize(tokens, 0) == Some(|cuts|);
  }
}
