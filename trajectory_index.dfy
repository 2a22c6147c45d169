/**
 * The spatiotemporal trajectory index of main.cpp:246-269: a dense
 * width x height x video_length grid of trajectory numbers, every cell -1 at
 * first, into which each trajectory point is stamped, in ascending trajectory
 * order, as a small box around the point at the point's frame.  The cv::Mat
 * storage is a flat array addressed in the same row-major order, x slowest.
 */
module TrajectoryIndex {
  import opened Tracks

  /** The value of a cell no trajectory covers (main.cpp:24). */
  const NotTrajectory: int := -1

  /** How far the box reaches left of and above a point (main.cpp:25). */
  const Indent: int := 1

  /** The grid's extent: frame width, frame height and video length. */
  datatype Dims = Dims(width: nat, height: nat, length: nat)
  {
    predicate Contains(x: int, y: int, t: int)
    {
      0 <= x < width && 0 <= y < height && 0 <= t < length
    }

    function Volume(): nat
    {
      width * height * length
    }

    /** Where cell (x, y, t) lives in the flat storage. */
    function Offset(x: int, y: int, t: int): nat
      requires Contains(x, y, t)
    {
      (x * height + y) * length + t
    }
  }

  lemma MulDistributes(a: int, c: int, b: int)
    ensures (a + c) * b == a * b + c * b
  {
  }

  lemma MulAtLeast(k: int, b: int)
    requires k >= 1 && b >= 0
    ensures k * b >= b
  {
    MulDistributes(1, k - 1, b);
    assert (k - 1) * b >= 0;
  }

  /** A quotient-remainder pair determines the number: a * b + r is injective for 0 <= r < b. */
  lemma MixedRadixInjective(a1: nat, r1: nat, a2: nat, r2: nat, b: nat)
    requires r1 < b && r2 < b && a1 * b + r1 == a2 * b + r2
    ensures a1 == a2 && r1 == r2
  {
    if a1 < a2 {
      MulAtLeast(a2 - a1, b);
      MulDistributes(a1, a2 - a1, b);
    } else if a2 < a1 {
      MulAtLeast(a1 - a2, b);
      MulDistributes(a2, a1 - a2, b);
    }
  }

  /** a * b + r stays below n * b for any n > a. */
  lemma MixedRadixBound(a: nat, r: nat, b: nat, n: nat)
    requires r < b && a < n
    ensures a * b + r < n * b
  {
    MulAtLeast(n - a, b);
    MulDistributes(a, n - a, b);
  }

  /** Distinct cells have distinct offsets. */
  lemma OffsetInjective(d: Dims, x1: int, y1: int, t1: int, x2: int, y2: int, t2: int)
    requires d.Contains(x1, y1, t1) && d.Contains(x2, y2, t2)
    requires d.Offset(x1, y1, t1) == d.Offset(x2, y2, t2)
    ensures x1 == x2 && y1 == y2 && t1 == t2
  {
    MixedRadixInjective(x1 * d.height + y1, t1, x2 * d.height + y2, t2, d.length);
    MixedRadixInjective(x1, y1, x2, y2, d.height);
  }

  /** Every offset addresses the storage. */
  lemma OffsetInRange(d: Dims, x: int, y: int, t: int)
    requires d.Contains(x, y, t)
    ensures d.Offset(x, y, t) < d.Volume()
  {
    MixedRadixBound(x, y, d.height, d.width);
    MixedRadixBound(x * d.height + y, t, d.length, d.width * d.height);
  }

  // ---------------------------------------------------------------------------
  // The stamped box

  /** p1: the box's first column (row), clamped at 0 (main.cpp:258-259). */
  function BoxLow(c: int): int
  {
    if c - Indent < 0 then 0 else c - Indent
  }

  /** p2: the box's last column (row), clamped at extent - 1 (main.cpp:260-261). */
  function BoxHigh(c: int, extent: int): int
  {
    if c + 1 + Indent >= extent - 1 then extent - 1 else c + 1 + Indent
  }

  /** Cell (x, y, t) is in the box stamped for a point at (px, py) in frame pt. */
  predicate InBox(d: Dims, px: int, py: int, pt: int, x: int, y: int, t: int)
  {
    t == pt && BoxLow(px) <= x <= BoxHigh(px, d.width) && BoxLow(py) <= y <= BoxHigh(py, d.height)
  }

  /**
   * The box spans columns max(0, px - 1) .. min(px + 2, width - 1) and rows
   * max(0, py - 1) .. min(py + 2, height - 1) of frame pt and nothing else; it lies
   * inside the frame, and it holds the point's own cell whenever that is in the frame.
   */
  lemma BoxShape(d: Dims, px: int, py: int, pt: int, x: int, y: int, t: int)
    ensures InBox(d, px, py, pt, x, y, t) <==>
              t == pt && 0 <= x && px - 1 <= x && x <= px + 2 && x <= d.width - 1
                      && 0 <= y && py - 1 <= y && y <= py + 2 && y <= d.height - 1
    ensures InBox(d, px, py, pt, x, y, t) ==> 0 <= x < d.width && 0 <= y < d.height
    ensures 0 <= px < d.width && 0 <= py < d.height ==> InBox(d, px, py, pt, px, py, pt)
  {
  }

  /** Some of the first m points of `tr` stamp cell (x, y, t). */
  predicate StampedBy(d: Dims, tr: Track, m: nat, x: int, y: int, t: int)
    requires tr.Valid() && m <= tr.Size()
  {
    m > 0 && (StampedBy(d, tr, m - 1, x, y, t) || InBox(d, tr.x[m - 1], tr.y[m - 1], tr.t[m - 1], x, y, t))
  }

  /** StampedBy is "some point among the first m has the cell in its box". */
  lemma {:induction false} StampedByIff(d: Dims, tr: Track, m: nat, x: int, y: int, t: int)
    requires tr.Valid() && m <= tr.Size()
    ensures StampedBy(d, tr, m, x, y, t) <==> exists k :: 0 <= k < m && InBox(d, tr.x[k], tr.y[k], tr.t[k], x, y, t)
  {
    if m > 0 {
      StampedByIff(d, tr, m - 1, x, y, t);
      if InBox(d, tr.x[m - 1], tr.y[m - 1], tr.t[m - 1], x, y, t) {
        assert exists k :: 0 <= k < m && InBox(d, tr.x[k], tr.y[k], tr.t[k], x, y, t);
      }
    }
  }

  /** A trajectory's footprint covers cell (x, y, t). */
  predicate Covers(d: Dims, tr: Track, x: int, y: int, t: int)
    requires tr.Valid()
  {
    StampedBy(d, tr, tr.Size(), x, y, t)
  }

  predicate AllValid(trs: seq<Track>)
  {
    forall i :: 0 <= i < |trs| ==> trs[i].Valid()
  }

  /** Every frame number of every trajectory is a frame of the grid; main.cpp relies on this without checking it. */
  predicate FramesWithin(trs: seq<Track>, length: nat)
    requires AllValid(trs)
  {
    forall i, k :: 0 <= i < |trs| && 0 <= k < trs[i].Size() ==> 0 <= trs[i].t[k] < length
  }

  /**
   * What cell (x, y, t) holds after the first n trajectories are stamped over a
   * cell that held `background`: the last of them to cover it, else `background`.
   */
  function Owner(d: Dims, trs: seq<Track>, n: nat, x: int, y: int, t: int, background: int): int
    requires AllValid(trs) && n <= |trs|
  {
    if n == 0 then background
    else if Covers(d, trs[n - 1], x, y, t) then n - 1
    else Owner(d, trs, n - 1, x, y, t, background)
  }

  /**
   * Over an empty grid the owner of a cell is -1 exactly when no trajectory covers
   * it, and otherwise the largest index of a trajectory that covers it: last
   * writer wins with the trajectories stamped in ascending order.
   */
  lemma {:induction false} OwnerIsLargestCover(d: Dims, trs: seq<Track>, n: nat, x: int, y: int, t: int)
    requires AllValid(trs) && n <= |trs|
    ensures var r := Owner(d, trs, n, x, y, t, NotTrajectory);
      && (r == NotTrajectory <==> forall i :: 0 <= i < n ==> !Covers(d, trs[i], x, y, t))
      && (r != NotTrajectory ==> 0 <= r < n && Covers(d, trs[r], x, y, t)
                                  && forall i :: r < i < n ==> !Covers(d, trs[i], x, y, t))
  {
    if n > 0 {
      OwnerIsLargestCover(d, trs, n - 1, x, y, t);
    }
  }

  /** Every cell of a grid built over an empty one holds -1 or the number of a trajectory. */
  lemma OwnerIsTrajectoryOrNone(d: Dims, trs: seq<Track>, x: int, y: int, t: int)
    requires AllValid(trs)
    ensures NotTrajectory <= Owner(d, trs, |trs|, x, y, t, NotTrajectory) < |trs|
  {
    OwnerIsLargestCover(d, trs, |trs|, x, y, t);
  }

  // ---------------------------------------------------------------------------
  // The grid

  /** pos_2_trajectory_id: the grid and its storage. */
  class VoxelGrid {
    const dims: Dims
    const cells: array<int>

    ghost predicate Valid()
      reads this
    {
      cells.Length == dims.Volume()
    }

    /** pos_2_trajectory_id.at<int>(x, y, t): the lookup the click handler does (main.cpp:347). */
    function Get(x: int, y: int, t: int): (r: int)
      reads this, cells
      requires Valid() && dims.Contains(x, y, t)
      ensures 0 <= dims.Offset(x, y, t) < cells.Length && r == cells[dims.Offset(x, y, t)]
    {
      OffsetInRange(dims, x, y, t);
      cells[dims.Offset(x, y, t)]
    }

    /** The cv::Mat constructor of main.cpp:248: every cell starts as -1. */
    constructor (dims: Dims)
      ensures Valid() && this.dims == dims && fresh(cells)
      ensures forall x, y, t | dims.Contains(x, y, t) :: Get(x, y, t) == NotTrajectory
    {
      this.dims := dims;
      cells := new int[dims.Volume()](_ => NotTrajectory);
      new;
      forall x, y, t | dims.Contains(x, y, t)
        ensures Get(x, y, t) == NotTrajectory
      {
        OffsetInRange(dims, x, y, t);
      }
    }

    /**
     * Stamps `id` into the box of a point at (px, py) in frame pt (main.cpp:252-267):
     * exactly the cells of the box change, to `id`.
     */
    method StampPoint(px: int, py: int, pt: int, id: int)
      requires Valid() && 0 <= pt < dims.length
      modifies cells
      ensures forall x, y, t | dims.Contains(x, y, t) ::
                Get(x, y, t) == if InBox(dims, px, py, pt, x, y, t) then id else old(Get(x, y, t))
    {
      var x1 := if px - Indent < 0 then 0 else px - Indent;
      var y1 := if py - Indent < 0 then 0 else py - Indent;
      var x2 := if px + 1 + Indent >= dims.width - 1 then dims.width - 1 else px + 1 + Indent;
      var y2 := if py + 1 + Indent >= dims.height - 1 then dims.height - 1 else py + 1 + Indent;
      var y := y1;
      while y <= y2
        invariant y1 <= y && (y <= y2 + 1 || y == y1)
        invariant forall x', y', t' | dims.Contains(x', y', t') ::
                    Get(x', y', t') == if t' == pt && x1 <= x' <= x2 && y1 <= y' < y then id else old(Get(x', y', t'))
      {
        var x := x1;
        while x <= x2
          invariant x1 <= x && (x <= x2 + 1 || x == x1)
          invariant forall x', y', t' | dims.Contains(x', y', t') ::
                      Get(x', y', t') == if t' == pt && x1 <= x' <= x2 && (y1 <= y' < y || (y' == y && x' < x)) then id else old(Get(x', y', t'))
        {
          OffsetInRange(dims, x, y, pt);
          cells[dims.Offset(x, y, pt)] := id;
          forall x', y', t' | dims.Contains(x', y', t') && dims.Offset(x', y', t') == dims.Offset(x, y, pt)
            ensures x' == x && y' == y && t' == pt
          {
            OffsetInjective(dims, x', y', t', x, y, pt);
          }
          x := x + 1;
        }
        y := y + 1;
      }
    }

    /** Stamps every point of one trajectory (main.cpp:250-268): exactly the cells it covers change, to `id`. */
    method StampTrack(tr: Track, id: int)
      requires Valid() && tr.Valid()
      requires forall k :: 0 <= k < tr.Size() ==> 0 <= tr.t[k] < dims.length
      modifies cells
      ensures forall x, y, t | dims.Contains(x, y, t) ::
                Get(x, y, t) == if Covers(dims, tr, x, y, t) then id else old(Get(x, y, t))
    {
      var k := 0;
      while k < tr.Size()
        invariant 0 <= k <= tr.Size()
        invariant forall x, y, t | dims.Contains(x, y, t) ::
                    Get(x, y, t) == if StampedBy(dims, tr, k, x, y, t) then id else old(Get(x, y, t))
      {
        StampPoint(tr.x[k], tr.y[k], tr.t[k], id);
        k := k + 1;
      }
    }

    /**
     * The bulk build of main.cpp:249-269: trajectory i is stamped with i, in
     * ascending order, so each cell ends up holding its Owner.
     */
    method Build(trajectories: seq<Track>)
      requires Valid() && AllValid(trajectories) && FramesWithin(trajectories, dims.length)
      modifies cells
      ensures forall x, y, t | dims.Contains(x, y, t) ::
                Get(x, y, t) == Owner(dims, trajectories, |trajectories|, x, y, t, old(Get(x, y, t)))
    {
      var i := 0;
      while i < |trajectories|
        invariant 0 <= i <= |trajectories|
        invariant forall x, y, t | dims.Contains(x, y, t) ::
                    Get(x, y, t) == Owner(dims, trajectories, i, x, y, t, old(Get(x, y, t)))
      {
        StampTrack(trajectories[i], i);
        i := i + 1;
      }
    }
  }
}
