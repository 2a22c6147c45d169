/**
 * The viewer session of main.cpp: the current frame the key loop moves through
 * (main.cpp:299-331), and the click handler show_graphs (main.cpp:335-469), which
 * looks the clicked pixel up in the trajectory index, picks a colour, gathers the
 * partition points, and for trajectories of at least five samples runs the
 * smoothing -> velocity -> acceleration pipeline.  Windows, drawing and plotting
 * are not modelled; the handler returns what it would show instead.
 */
module Viewer {
  import opened Vectors
  import opened Filters
  import opened Tracks
  import opened TrajectoryIndex

  /** The key code that ends the session: ESC (main.cpp:301). */
  const Escape: int := 27

  /** The number of plot colours, max_colors (main.cpp:275). */
  const ColorCount: nat := 11

  /** Shorter trajectories get no velocity or acceleration plot (main.cpp:388). */
  const MinPlotLength: nat := 5

  /** Window sizes of the smoothing and the derivative templates (main.cpp:394-395). */
  const SmoothingSize: nat := 3
  const DifferenceSize: nat := 3

  datatype MouseEvent = MouseMove | LeftButtonDown | RightButtonDown | OtherEvent

  /** A trajectory axis as the pipeline derives it (main.cpp:397-411). */
  datatype Signals = Signals(smooth: seq<real>, speed: seq<real>, acceleration: seq<real>)

  /** What the plots of one axis show: the derived signals and their values at the cut points. */
  datatype AxisPlot = AxisPlot(signals: Signals, speedAtCuts: seq<real>, accelerationAtCuts: seq<real>)

  /** What a mouse event leads to. */
  datatype ClickOutcome =
    | Ignored                                         // not a left click
    | Missed                                          // the cell holds no trajectory
    | OutOfColors(id: nat)                            // every colour is in use
    | Projected(id: nat, cutsX: seq<int>, cutsY: seq<int>)  // drawn in the xy plot only: too short
    | Plotted(id: nat, cutsX: seq<int>, cutsY: seq<int>, x: AxisPlot, y: AxisPlot)

  /** The trajectory's coordinates as the double vectors the filters read. */
  function AsReals(v: seq<int>): (r: seq<real>)
    ensures |r| == |v| && forall i :: 0 <= i < |v| ==> r[i] == v[i] as real
  {
    seq(|v|, i requires 0 <= i < |v| => v[i] as real)
  }

  /** Every cut point indexes the samples. */
  predicate CutsWithin(cuts: seq<nat>, n: nat)
  {
    forall i :: 0 <= i < |cuts| ==> cuts[i] < n
  }

  /**
   * The vectors of samples at the cut points, filled one by one (main.cpp:373-377,
   * 442-450): entry i is the sample at cut point i.
   */
  method Gather<T>(values: seq<T>, cuts: seq<nat>) returns (r: seq<T>)
    requires CutsWithin(cuts, |values|)
    ensures |r| == |cuts| && forall i :: 0 <= i < |cuts| ==> r[i] == values[cuts[i]]
  {
    r := [];
    var i := 0;
    while i < |cuts|
      invariant 0 <= i <= |cuts| && |r| == i
      invariant forall p :: 0 <= p < i ==> r[p] == values[cuts[p]]
    {
      r := r + [values[cuts[i]]];
      i := i + 1;
    }
  }

  /**
   * The smoothed axis: the correlation with the smoothing template, whose
   * margins are then overwritten with the raw first and last samples.
   */
  function Smoothed(raw: seq<real>, g: seq<real>): (r: seq<real>)
    requires 1 <= |g| <= |raw|
    ensures |r| == |raw|
    ensures r[0] == raw[0] && r[|raw| - 1] == raw[|raw| - 1]
    ensures forall i :: 0 < i < |raw| - 1 && InBand(|raw|, |g|, i) ==> r[i] == Correlation(raw, g, i)
    ensures forall i :: 0 < i < |raw| - 1 && !InBand(|raw|, |g|, i) ==> r[i] == 0.0
  {
    Convolution(raw, g, [])[0 := raw[0]][|raw| - 1 := raw[|raw| - 1]]
  }

  /**
   * The three derived signals: smoothed, then differentiated twice, each into a
   * fresh vector.  All have the trajectory's length; the smoothed signal starts and
   * ends with the raw samples and is the correlation in between; velocity and
   * acceleration are the correlation inside their band and, with a derivative
   * template of at least 3 taps, stay 0 at both ends, which convolve never writes
   * in a fresh vector.
   */
  function DerivedSignals(raw: seq<real>, g: seq<real>, d: seq<real>): (s: Signals)
    requires 1 <= |g| <= |raw| && 1 <= |d| <= |raw|
    ensures |s.smooth| == |raw| && |s.speed| == |raw| && |s.acceleration| == |raw|
    ensures s.smooth[0] == raw[0] && s.smooth[|raw| - 1] == raw[|raw| - 1]
    ensures forall i :: 0 < i < |raw| - 1 && InBand(|raw|, |g|, i) ==> s.smooth[i] == Correlation(raw, g, i)
    ensures forall i :: InBand(|raw|, |d|, i) ==>
              s.speed[i] == Correlation(s.smooth, d, i) && s.acceleration[i] == Correlation(s.speed, d, i)
    ensures |d| >= 3 ==>
              s.speed[0] == 0.0 && s.speed[|raw| - 1] == 0.0 && s.acceleration[0] == 0.0 && s.acceleration[|raw| - 1] == 0.0
  {
    var smooth := Smoothed(raw, g);
    var speed := Convolution(smooth, d, []);
    Signals(smooth, speed, Convolution(speed, d, []))
  }

  /** A linear signal rises by twice its slope across two samples. */
  lemma RampRise(raw: seq<real>, a: real, b: real, p: nat)
    requires p + 2 < |raw| && forall q :: 0 <= q < |raw| ==> raw[q] == a + b * q as real
    ensures raw[p + 2] - raw[p] == b * 2.0
  {
    assert raw[p + 2] == a + b * (p as real + 2.0);
  }

  /**
   * A 3-tap smoothing template whose entries sum to one shifts every inner sample
   * of a linear signal by b * (g[2] - g[0]); the ends keep their raw values.
   */
  lemma SmoothedRamp(raw: seq<real>, g: seq<real>, a: real, b: real)
    requires |g| == 3 && Sum(g) == 1.0 && 3 <= |raw|
    requires forall p :: 0 <= p < |raw| ==> raw[p] == a + b * p as real
    ensures forall p :: 0 < p < |raw| - 1 ==> Smoothed(raw, g)[p] == raw[p] + b * (g[2] - g[0])
  {
    var smooth := Smoothed(raw, g);
    assert Sum(g) == g[0] + g[1] + g[2] by {
      assert g[..2][..1] == g[..1] && g[..1][..0] == [];
      assert Sum(g[..1]) == g[0];
      assert Sum(g[..2]) == g[0] + g[1];
    }
    forall p | 0 < p < |raw| - 1
      ensures smooth[p] == raw[p] + b * (g[2] - g[0])
    {
      assert WindowSum(raw, g, p - 1, 1) == raw[p - 1] * g[0];
      assert WindowSum(raw, g, p - 1, 2) == raw[p - 1] * g[0] + raw[p] * g[1];
      calc {
        smooth[p];
        raw[p - 1] * g[0] + raw[p] * g[1] + raw[p + 1] * g[2];
        (g[0] + g[1] + g[2]) * (a + b * p as real) + b * (g[2] - g[0]);
      }
    }
  }

  /**
   * A symmetric smoothing template whose entries sum to one keeps a linear signal
   * unchanged, so the velocity the pipeline derives is the exact slope at every
   * inner sample.
   */
  lemma RampKeepsItsSlope(raw: seq<real>, g: seq<real>, a: real, b: real)
    requires |g| == 3 && g[0] == g[2] && Sum(g) == 1.0 && 3 <= |raw|
    requires forall p :: 0 <= p < |raw| ==> raw[p] == a + b * p as real
    ensures var s := DerivedSignals(raw, g, DerivativeTable(DifferenceSize).value);
      forall i :: 0 < i < |raw| - 1 ==> s.speed[i] == b
  {
    var d := DerivativeTable(DifferenceSize).value;
    var smooth := Smoothed(raw, g);
    SmoothedRamp(raw, g, a, b);
    assert forall p :: 0 <= p < |raw| ==> smooth[p] == a + b * p as real;
    forall i | 0 < i < |raw| - 1
      ensures DerivedSignals(raw, g, d).speed[i] == b
    {
      CentralDifferenceOfRamp(smooth, i, a, b);
    }
  }

  /**
   * A lopsided 3-tap template (g[0] != g[2]) that sums to one bends the velocity of
   * a linear signal next to each end, where one neighbour is a raw end sample and
   * the other is shifted by b * (g[2] - g[0]); further in, the shifts cancel.
   */
  lemma LopsidedWindowBendsRampAtEnds(raw: seq<real>, g: seq<real>, a: real, b: real)
    requires |g| == 3 && Sum(g) == 1.0 && 4 <= |raw|
    requires forall p :: 0 <= p < |raw| ==> raw[p] == a + b * p as real
    ensures var s := DerivedSignals(raw, g, DerivativeTable(DifferenceSize).value);
      && s.speed[1] == b + b * (g[2] - g[0]) / 2.0
      && s.speed[|raw| - 2] == b - b * (g[2] - g[0]) / 2.0
      && forall i :: 1 < i < |raw| - 2 ==> s.speed[i] == b
  {
    var d := DerivativeTable(DifferenceSize).value;
    var smooth := Smoothed(raw, g);
    SmoothedRamp(raw, g, a, b);
    ShiftedRampSpeed(smooth, a, b, b * (g[2] - g[0]));
    assert DerivedSignals(raw, g, d).smooth == smooth;
  }

  /**
   * The central difference of a linear signal whose inner samples are all shifted
   * by the same amount: the shift shows up, halved, next to each end only.
   */
  lemma ShiftedRampSpeed(smooth: seq<real>, a: real, b: real, shift: real)
    requires 4 <= |smooth|
    requires smooth[0] == a && smooth[|smooth| - 1] == a + b * (|smooth| - 1) as real
    requires forall p :: 0 < p < |smooth| - 1 ==> smooth[p] == a + b * p as real + shift
    ensures var d := DerivativeTable(DifferenceSize).value;
      && Correlation(smooth, d, 1) == b + shift / 2.0
      && Correlation(smooth, d, |smooth| - 2) == b - shift / 2.0
      && forall i :: 1 < i < |smooth| - 2 ==> Correlation(smooth, d, i) == b
  {
    var n := |smooth|;
    CentralDifference(smooth, 1);
    assert smooth[2] - smooth[0] == b * 2.0 + shift;
    CentralDifference(smooth, n - 2);
    assert smooth[n - 1] - smooth[n - 3] == b * 2.0 - shift by {
      assert smooth[n - 1] == a + b * ((n - 3) as real + 2.0);
    }
    forall i | 1 < i < n - 2
      ensures Correlation(smooth, DerivativeTable(DifferenceSize).value, i) == b
    {
      CentralDifference(smooth, i);
      assert smooth[i + 1] == a + b * ((i - 1) as real + 2.0) + shift;
    }
  }

  /** The Gaussian template the viewer builds (3 taps) is symmetric and sums to one, so it keeps ramps. */
  lemma ViewerSmoothingKeepsRampSlope(raw: seq<real>, falloff: nat -> real, a: real, b: real)
    requires IsFalloff(falloff) && 3 <= |raw|
    requires forall p :: 0 <= p < |raw| ==> raw[p] == a + b * p as real
    ensures var s := DerivedSignals(raw, GaussianWeights(SmoothingSize, falloff), DerivativeTable(DifferenceSize).value);
      forall i :: 0 < i < |raw| - 1 ==> s.speed[i] == b
  {
    var g := GaussianWeights(SmoothingSize, falloff);
    var w := RawWeights(SmoothingSize, falloff);
    RawWeightsSymmetric(SmoothingSize, falloff, 0);
    RawWeightsTotalPositive(SmoothingSize, falloff);
    assert g[0] == w[0] / Sum(w) && g[2] == w[2] / Sum(w);
    GaussianSumsToOne(SmoothingSize, falloff);
    RampKeepsItsSlope(raw, g, a, b);
  }

  /**
   * The template the viewer builds as written (3 taps, see GaussianAsWrittenIsLopsided)
   * sums to one but, for a falloff that strictly decreases, weights the right
   * neighbour more, so the velocity plotted for a moving linear trajectory overshoots
   * the slope next to the first sample and undershoots it next to the last one.
   */
  lemma ViewerSmoothingAsWrittenBendsRampSlope(raw: seq<real>, falloff: nat -> real, g: seq<real>, a: real, b: real)
    requires IsFalloff(falloff) && forall d: nat, e: nat :: d < e ==> falloff(d) > falloff(e)
    requires g == GaussianWeightsAsWritten(SmoothingSize, falloff)
    requires 4 <= |raw|
    requires forall p :: 0 <= p < |raw| ==> raw[p] == a + b * p as real
    ensures var s := DerivedSignals(raw, g, DerivativeTable(DifferenceSize).value);
      && g[0] < g[2]
      && s.speed[1] == b + b * (g[2] - g[0]) / 2.0
      && s.speed[|raw| - 2] == b - b * (g[2] - g[0]) / 2.0
  {
    GaussianAsWrittenSumsToOne(SmoothingSize, falloff);
    GaussianWeightsAsWrittenLopsided(falloff);
    LopsidedWindowBendsRampAtEnds(raw, g, a, b);
  }

  /**
   * convolve into a fresh smoothed vector, overwrite its ends with the raw ends,
   * then differentiate twice into fresh vectors (main.cpp:397-411).
   */
  method DeriveAxis(raw: RealVector, gaussian: RealVector, derivative: RealVector)
    returns (smooth: RealVector, speed: RealVector, acceleration: RealVector)
    requires 1 <= |gaussian.data| <= |raw.data| && 1 <= |derivative.data| <= |raw.data|
    ensures fresh(smooth) && fresh(speed) && fresh(acceleration)
    ensures Signals(smooth.data, speed.data, acceleration.data) == DerivedSignals(raw.data, gaussian.data, derivative.data)
  {
    ghost var r, g, d := raw.data, gaussian.data, derivative.data;
    smooth := new RealVector([]);
    var ok := Convolve(raw, gaussian, smooth);
    smooth.data := smooth.data[0 := raw.data[0]];
    smooth.data := smooth.data[|smooth.data| - 1 := raw.data[|raw.data| - 1]];
    assert smooth.data == Smoothed(r, g);
    speed := new RealVector([]);
    ok := Convolve(smooth, derivative, speed);
    assert speed.data == Convolution(smooth.data, d, []);
    acceleration := new RealVector([]);
    ok := Convolve(speed, derivative, acceleration);
    assert acceleration.data == Convolution(speed.data, d, []);
  }

  /** What one axis's plots show for a trajectory axis and its cut points. */
  function AxisPlotOf(values: seq<int>, cuts: seq<nat>, g: seq<real>, d: seq<real>): AxisPlot
    requires 1 <= |g| <= |values| && 1 <= |d| <= |values| && CutsWithin(cuts, |values|)
  {
    var s := DerivedSignals(AsReals(values), g, d);
    AxisPlot(s,
             seq(|cuts|, i requires 0 <= i < |cuts| => s.speed[cuts[i]]),
             seq(|cuts|, i requires 0 <= i < |cuts| => s.acceleration[cuts[i]]))
  }

  /** Derives one axis and picks its velocity and acceleration at the cut points (main.cpp:397-450). */
  method PlotAxis(values: seq<int>, cuts: seq<nat>, gaussian: RealVector, derivative: RealVector)
    returns (plot: AxisPlot)
    requires 1 <= |gaussian.data| <= |values| && 1 <= |derivative.data| <= |values|
    requires CutsWithin(cuts, |values|)
    ensures plot == AxisPlotOf(values, cuts, gaussian.data, derivative.data)
  {
    var raw := new RealVector(AsReals(values));
    var smooth, speed, acceleration := DeriveAxis(raw, gaussian, derivative);
    var speedAtCuts := Gather(speed.data, cuts);
    var accelerationAtCuts := Gather(acceleration.data, cuts);
    plot := AxisPlot(Signals(smooth.data, speed.data, acceleration.data), speedAtCuts, accelerationAtCuts);
  }

  /** The session: the loaded trajectories and partitions, the index, the current frame and the colour counter. */
  class Session {
    const trajectories: seq<Track>
    const partitions: seq<seq<nat>>
    const grid: VoxelGrid
    /** exp(-d^2 / (2 * 3.0^2)), the falloff of the smoothing template (main.cpp:394). */
    const falloff: nat -> real
    var currentFrame: int
    var numDrawnTrajectories: nat

    /**
     * The frame is a frame of the video, the counter never passes the number of
     * colours, each trajectory has its partition with cut points inside it, and
     * every cell of the index is -1 or a trajectory number.
     */
    ghost predicate Valid()
      reads this, grid, grid.cells
    {
      && grid.Valid()
      && 0 <= currentFrame < grid.dims.length
      && numDrawnTrajectories <= ColorCount
      && AllValid(trajectories) && |partitions| == |trajectories|
      && (forall i :: 0 <= i < |trajectories| ==> CutsWithin(partitions[i], trajectories[i].Size()))
      && (forall x, y, t | grid.dims.Contains(x, y, t) :: NotTrajectory <= grid.Get(x, y, t) < |trajectories|)
      && IsFalloff(falloff)
    }

    /** mouse_callback_input_t's constructor: frame 0, no trajectory drawn yet. */
    constructor (trajectories: seq<Track>, partitions: seq<seq<nat>>, grid: VoxelGrid, falloff: nat -> real)
      requires grid.Valid() && grid.dims.length >= 1
      requires AllValid(trajectories) && |partitions| == |trajectories|
      requires forall i :: 0 <= i < |trajectories| ==> CutsWithin(partitions[i], trajectories[i].Size())
      requires forall x, y, t | grid.dims.Contains(x, y, t) :: NotTrajectory <= grid.Get(x, y, t) < |trajectories|
      requires IsFalloff(falloff)
      ensures Valid() && currentFrame == 0 && numDrawnTrajectories == 0
      ensures this.trajectories == trajectories && this.partitions == partitions && this.grid == grid
    {
      this.trajectories := trajectories;
      this.partitions := partitions;
      this.grid := grid;
      this.falloff := falloff;
      currentFrame := 0;
      numDrawnTrajectories := 0;
    }

    /**
     * One pass of the key loop (main.cpp:300-330), on the low byte of the key code:
     * ESC quits; 'f' moves one frame on unless at the last frame; 'b' moves one
     * frame back unless at the first; 'r' resets the colour counter; any other key
     * changes nothing.
     */
    method HandleKey(c: int) returns (quit: bool)
      requires Valid()
      modifies this
      ensures Valid()
      ensures quit <==> c % 256 == Escape
      ensures currentFrame ==
                if !quit && c % 256 == 'f' as int && old(currentFrame) < grid.dims.length - 1 then old(currentFrame) + 1
                else if !quit && c % 256 == 'b' as int && old(currentFrame) > 0 then old(currentFrame) - 1
                else old(currentFrame)
      ensures numDrawnTrajectories == if !quit && c % 256 == 'r' as int then 0 else old(numDrawnTrajectories)
    {
      var key := c % 256;
      if key == Escape {
        return true;
      }
      quit := false;
      if key == 'f' as int {
        if currentFrame < grid.dims.length - 1 {
          currentFrame := currentFrame + 1;
        }
      } else if key == 'b' as int {
        if currentFrame > 0 {
          currentFrame := currentFrame - 1;
        }
      } else if key == 'r' as int {
        numDrawnTrajectories := 0;
      }
    }

    /**
     * show_graphs for a mouse event at pixel (x, y) of the current frame.  Only a
     * left click does anything.  A cell holding -1 selects nothing; with every colour
     * in use nothing is drawn; otherwise the xy projection and its cut points are
     * drawn, and trajectories of five samples or more also get their derived signals
     * plotted, which alone uses up a colour.  The smoothing template is the corrected,
     * symmetric one; ViewerSmoothingAsWrittenBendsRampSlope says how the template as
     * written changes the plotted velocity.
     */
    method Click(event: MouseEvent, x: int, y: int) returns (outcome: ClickOutcome)
      requires Valid()
      requires event == LeftButtonDown ==> 0 <= x < grid.dims.width && 0 <= y < grid.dims.height
      modifies this
      ensures Valid() && currentFrame == old(currentFrame)
      ensures event != LeftButtonDown ==> outcome == Ignored
      ensures event == LeftButtonDown ==>
                var id := grid.Get(x, y, currentFrame);
                && (outcome == Missed <==> id == NotTrajectory)
                && (outcome.OutOfColors? <==> id != NotTrajectory && old(numDrawnTrajectories) >= ColorCount)
                && (outcome.Projected? <==> id != NotTrajectory && old(numDrawnTrajectories) < ColorCount
                                              && trajectories[id].Size() < MinPlotLength)
                && (outcome.Plotted? <==> id != NotTrajectory && old(numDrawnTrajectories) < ColorCount
                                            && trajectories[id].Size() >= MinPlotLength)
      ensures outcome.OutOfColors? || outcome.Projected? || outcome.Plotted? ==>
                outcome.id == grid.Get(x, y, currentFrame)
      ensures outcome.Projected? || outcome.Plotted? ==>
                var tr, cuts := trajectories[outcome.id], partitions[outcome.id];
                && |outcome.cutsX| == |cuts| && |outcome.cutsY| == |cuts|
                && forall i :: 0 <= i < |cuts| ==> outcome.cutsX[i] == tr.x[cuts[i]] && outcome.cutsY[i] == tr.y[cuts[i]]
      ensures outcome.Plotted? ==>
                var tr, cuts := trajectories[outcome.id], partitions[outcome.id];
                var g, d := GaussianWeights(SmoothingSize, falloff), DerivativeTable(DifferenceSize).value;
                outcome.x == AxisPlotOf(tr.x, cuts, g, d) && outcome.y == AxisPlotOf(tr.y, cuts, g, d)
      ensures numDrawnTrajectories == if outcome.Plotted? then old(numDrawnTrajectories) + 1 else old(numDrawnTrajectories)
    {
      if event != LeftButtonDown {
        return Ignored;
      }
      var id := grid.Get(x, y, currentFrame);
      if id == NotTrajectory {
        return Missed;
      }
      var cuts := partitions[id];
      var tr := trajectories[id];
      if numDrawnTrajectories >= ColorCount {
        return OutOfColors(id);
      }
      var cutsX := Gather(tr.x, cuts);
      var cutsY := Gather(tr.y, cuts);
      if tr.Size() < MinPlotLength {
        return Projected(id, cutsX, cutsY);
      }
      var gaussian := new RealVector([]);
      GaussianTemplate(SmoothingSize, falloff, gaussian);
      var derivative := new RealVector([]);
      var ok := DerivativeTemplate(DifferenceSize, derivative);
      var xPlot := PlotAxis(tr.x, cuts, gaussian, derivative);
      var yPlot := PlotAxis(tr.y, cuts, gaussian, derivative);
      numDrawnTrajectories := numDrawnTrajectories + 1;
      outcome := Plotted(id, cutsX, cutsY, xPlot, yPlot);
    }
  }

  /**
   * The setup of main.cpp:246-288: an index of the given extent built over the
   * trajectories, and a session on it at frame 0 with no trajectory drawn.
   */
  method Open(dims: Dims, trajectories: seq<Track>, partitions: seq<seq<nat>>, falloff: nat -> real)
    returns (s: Session)
    requires dims.length >= 1 && AllValid(trajectories) && FramesWithin(trajectories, dims.length)
    requires |partitions| == |trajectories|
    requires forall i :: 0 <= i < |trajectories| ==> CutsWithin(partitions[i], trajectories[i].Size())
    requires IsFalloff(falloff)
    ensures fresh(s) && s.Valid() && s.currentFrame == 0 && s.numDrawnTrajectories == 0
    ensures s.trajectories == trajectories && s.partitions == partitions && s.grid.dims == dims
    ensures forall x, y, t | dims.Contains(x, y, t) ::
              s.grid.Get(x, y, t) == Owner(dims, trajectories, |trajectories|, x, y, t, NotTrajectory)
  {
    var grid := new VoxelGrid(dims);
    grid.Build(trajectories);
    forall x, y, t | dims.Contains(x, y, t)
      ensures NotTrajectory <= grid.Get(x, y, t) < |trajectories|
    {
      OwnerIsTrajectoryOrNone(dims, trajectories, x, y, t);
    }
    s := new Session(trajectories, partitions, grid, falloff);
  }
}
