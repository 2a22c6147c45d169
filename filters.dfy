/**
 * The filter library of filters.cpp: a correlation of a signal with a kernel that
 * writes only the band the kernel fully covers, a Gaussian smoothing template, and
 * the closed table of central-difference templates.  Samples are reals: the model
 * says nothing about floating-point rounding.
 */
module Filters {
  import opened Wrappers
  import opened Vectors

  // ---------------------------------------------------------------------------
  // Sums

  /** Left-to-right total of a sequence, the order in which the source accumulates. */
  function Sum(s: seq<real>): real
  {
    if |s| == 0 then 0.0 else Sum(s[..|s| - 1]) + s[|s| - 1]
  }

  /**
   * f[start] * k[0] + ... + f[start + m - 1] * k[m - 1], accumulated in the order
   * of the inner loop of convolve.
   */
  function WindowSum(f: seq<real>, k: seq<real>, start: nat, m: nat): real
    requires m <= |k| && start + m <= |f|
  {
    if m == 0 then 0.0 else WindowSum(f, k, start, m - 1) + f[start + m - 1] * k[m - 1]
  }

  // ---------------------------------------------------------------------------
  // convolve

  /** l_half: the kernel entries left of its centre. */
  function LeftHalf(kernelSize: nat): nat
  {
    kernelSize / 2
  }

  /** r_half: the kernel entries right of its centre (a non-empty kernel). */
  function RightHalf(kernelSize: nat): nat
    requires kernelSize >= 1
  {
    kernelSize - 1 - kernelSize / 2
  }

  /** Index i of an output of length n is written: l_half <= i < n - r_half. */
  predicate InBand(n: nat, kernelSize: nat, i: int)
    requires kernelSize >= 1
  {
    LeftHalf(kernelSize) <= i < n - RightHalf(kernelSize)
  }

  /**
   * The value written at index i: sum over j of f[i + j - l_half] * k[j].  The
   * kernel is not flipped, so this is a correlation.
   */
  function Correlation(f: seq<real>, k: seq<real>, i: int): real
    requires 1 <= |k| <= |f| && InBand(|f|, |k|, i)
  {
    WindowSum(f, k, i - LeftHalf(|k|), |k|)
  }

  /**
   * The output vector after a successful convolve(f, k, out): resized to |f|, the
   * band holds the correlation, every other index keeps what resize left there.
   */
  function Convolution(f: seq<real>, k: seq<real>, out: seq<real>): (r: seq<real>)
    requires 1 <= |k| <= |f|
    ensures |r| == |f|
  {
    var kept := Resized(out, |f|, 0.0);
    seq(|f|, i requires 0 <= i < |f| => if InBand(|f|, |k|, i) then Correlation(f, k, i) else kept[i])
  }

  /**
   * The kernel convolve reads once `out` has been resized.  It differs from the
   * kernel passed in only when the kernel is the output vector itself.
   */
  function KernelRead(f: seq<real>, kernelIsOut: bool, kernel: seq<real>, out: seq<real>): seq<real>
  {
    if kernelIsOut then Resized(out, |f|, 0.0) else kernel
  }

  /** The inner loop of convolve: the kernel-weighted sum of the samples of f from `start` on. */
  method WeightedSum(f: seq<real>, k: seq<real>, start: nat) returns (sum: real)
    requires start + |k| <= |f|
    ensures sum == WindowSum(f, k, start, |k|)
  {
    sum := 0.0;
    var j := 0;
    while j < |k|
      invariant 0 <= j <= |k|
      invariant sum == WindowSum(f, k, start, j)
    {
      sum := sum + f[start + j] * k[j];
      j := j + 1;
    }
  }

  /**
   * convolve(f, kernel, out).  Refuses (false, `out` untouched) when `out` is `f`,
   * when `f` is shorter than the kernel, and when the kernel it reads is empty (see
   * EmptyKernelOverrunsOutput for what the unguarded code does then).  When `kernel`
   * is `out`, the kernel read is `out` after its resize to |f|, so an empty `out`
   * passed as both is refused only for an empty `f`.  Otherwise `out` becomes the
   * Convolution of `f` with the kernel it reads.
   */
  method Convolve(f: RealVector, kernel: RealVector, out: RealVector) returns (ok: bool)
    modifies out
    ensures ok <==> && f != out && |old(kernel.data)| <= |f.data|
                    && 1 <= |KernelRead(f.data, kernel == out, old(kernel.data), old(out.data))|
    ensures !ok ==> out.data == old(out.data)
    ensures ok ==> out.data == Convolution(f.data, KernelRead(f.data, kernel == out, old(kernel.data), old(out.data)), old(out.data))
  {
    if f == out {
      return false;
    }
    if |f.data| < |kernel.data| {
      return false;
    }
    if |kernel.data| == 0 && (kernel != out || |f.data| == 0) {
      return false;
    }
    assert 1 <= |KernelRead(f.data, kernel == out, kernel.data, out.data)|;
    ghost var original := out.data;
    out.data := Resized(out.data, |f.data|, 0.0);
    ghost var kept := out.data;
    ghost var k := kernel.data;
    ghost var signal := f.data;
    assert k == KernelRead(signal, kernel == out, old(kernel.data), original);
    var lHalf := |kernel.data| / 2;
    var rHalf := |kernel.data| - 1 - lHalf;
    var i := lHalf;
    while i < |f.data| - rHalf
      invariant lHalf <= i <= |signal| - rHalf
      invariant f.data == signal && |out.data| == |signal|
      invariant kernel != out ==> kernel.data == k
      invariant kernel == out ==> |k| == |signal|
      invariant forall p :: 0 <= p < |signal| ==>
                  out.data[p] == if lHalf <= p < i then Correlation(signal, k, p) else kept[p]
    {
      if kernel == out {
        assert out.data == kept;
      }
      var sum := WeightedSum(f.data, kernel.data, i - lHalf);
      out.data := out.data[i := sum];
      i := i + 1;
    }
    ok := true;
    assert out.data == Convolution(signal, k, original);
  }

  /** Every read f[i + j - l_half] of the band stays inside f, because l_half + r_half + 1 == |k|. */
  lemma ReadsStayInSignal(n: nat, kernelSize: nat, i: int, j: nat)
    requires 1 <= kernelSize <= n && InBand(n, kernelSize, i) && j < kernelSize
    ensures LeftHalf(kernelSize) + RightHalf(kernelSize) + 1 == kernelSize
    ensures 0 <= i + j - LeftHalf(kernelSize) < n
  {
  }

  /** The band is never empty: a signal at least as long as the kernel gets at least one written sample. */
  lemma BandNotEmpty(n: nat, kernelSize: nat)
    requires 1 <= kernelSize <= n
    ensures InBand(n, kernelSize, LeftHalf(kernelSize))
  {
  }

  /** A window over a constant signal is that constant times the sum of the window's kernel entries. */
  lemma {:induction false} WindowSumOfConstant(f: seq<real>, k: seq<real>, start: nat, m: nat, c: real)
    requires m <= |k| && start + m <= |f|
    requires forall p :: 0 <= p < |f| ==> f[p] == c
    ensures WindowSum(f, k, start, m) == c * Sum(k[..m])
  {
    if m > 0 {
      WindowSumOfConstant(f, k, start, m - 1, c);
      assert k[..m][..m - 1] == k[..m - 1];
    }
  }

  /** Correlating a constant signal with a kernel whose entries sum to zero gives zero at every written index. */
  lemma ZeroSumKernelFlattensConstant(f: seq<real>, k: seq<real>, i: int, c: real)
    requires 1 <= |k| <= |f| && InBand(|f|, |k|, i)
    requires forall p :: 0 <= p < |f| ==> f[p] == c
    requires Sum(k) == 0.0
    ensures Correlation(f, k, i) == 0.0
  {
    WindowSumOfConstant(f, k, i - LeftHalf(|k|), |k|, c);
    assert k[..|k|] == k;
  }

  // ---------------------------------------------------------------------------
  // The size_t arithmetic of convolve as written

  /** r_half exactly as convolve computes it, in size_t arithmetic. */
  function RightHalfAsWritten(kernelSize: nat): nat
  {
    (kernelSize - 1 - kernelSize / 2) % SizeModulus
  }

  /** The loop bound f.size() - r_half exactly as convolve computes it, in size_t arithmetic. */
  function BandEndAsWritten(n: nat, kernelSize: nat): nat
  {
    (n - RightHalfAsWritten(kernelSize)) % SizeModulus
  }

  /** For every kernel Convolve accepts, the loop bound as written is the band end the model uses. */
  lemma BandEndAsWrittenAgrees(n: nat, kernelSize: nat)
    requires 1 <= kernelSize <= n < SizeModulus
    ensures BandEndAsWritten(n, kernelSize) == n - RightHalf(kernelSize)
  {
  }

  /**
   * An empty kernel passes both guards of convolve as written (0 <= f.size()), and
   * r_half wraps to 2^64 - 1, so the loop runs i up to f.size() inclusive and
   * writes out[f.size()], one past the end of the resized output.
   */
  lemma EmptyKernelOverrunsOutput(n: nat)
    requires n < SizeModulus - 1
    ensures !(n < 0)
    ensures RightHalfAsWritten(0) == SizeModulus - 1
    ensures BandEndAsWritten(n, 0) == n + 1
  {
    assert n - (SizeModulus - 1) + SizeModulus == n + 1;
  }

  // ---------------------------------------------------------------------------
  // gaussian_template

  /** i - centre as gaussian_template computes it: a size_t subtraction that wraps below the centre. */
  function OffsetAsWritten(i: nat, centre: nat): nat
  {
    (i - centre) % SizeModulus
  }

  /** The distance from the centre that a Gaussian weight is meant to depend on. */
  function Distance(i: nat, centre: nat): nat
  {
    if i >= centre then i - centre else centre - i
  }

  /**
   * The raw weights gaussian_template computes as written: falloff(d) stands for
   * exp(-d^2 / (2 sigma^2)), evaluated at the wrapped offset.
   */
  function RawWeightsAsWritten(winSize: nat, falloff: nat -> real): (r: seq<real>)
    ensures |r| == winSize
    ensures winSize >= 1 ==> r[winSize / 2] == falloff(0)
    ensures winSize < SizeModulus ==>
              forall i :: winSize / 2 <= i < winSize ==> r[i] == RawWeights(winSize, falloff)[i]
  {
    var c := winSize / 2;
    assert OffsetAsWritten(c, c) == 0;
    assert winSize < SizeModulus ==> forall i :: c <= i < winSize ==> OffsetAsWritten(i, c) == Distance(i, c);
    seq(winSize, i requires 0 <= i < winSize => falloff(OffsetAsWritten(i, c)))
  }

  /** The raw Gaussian weights with the signed offset the formula intends. */
  function RawWeights(winSize: nat, falloff: nat -> real): (r: seq<real>)
    ensures |r| == winSize
  {
    seq(winSize, i requires 0 <= i < winSize => falloff(Distance(i, winSize / 2)))
  }

  /** Each weight divided by `total`. */
  function Scaled(w: seq<real>, total: real): (r: seq<real>)
    requires total != 0.0
  {
    seq(|w|, i requires 0 <= i < |w| => w[i] / total)
  }

  /** A falloff that is positive at distance 0 (exp(0) == 1) and never negative, as exp is. */
  ghost predicate IsFalloff(falloff: nat -> real)
  {
    falloff(0) > 0.0 && forall d: nat :: falloff(d) >= 0.0
  }

  /** Below the centre, gaussian_template as written evaluates the falloff at 2^64 minus the distance. */
  lemma WrappedOffsetBelowCentre(i: nat, centre: nat)
    requires i < centre < SizeModulus
    ensures OffsetAsWritten(i, centre) == SizeModulus - Distance(i, centre)
  {
    assert i - centre + SizeModulus == SizeModulus - (centre - i);
  }

  /**
   * For a falloff that strictly decreases with distance, as exp(-d^2 / (2 sigma^2))
   * does, the 3-tap template as written weights the left neighbour less than the
   * right one: the smoothing the viewer runs (win_size 3) is lopsided.
   */
  lemma GaussianAsWrittenIsLopsided(falloff: nat -> real)
    requires forall d: nat, e: nat :: d < e ==> falloff(d) > falloff(e)
    ensures RawWeightsAsWritten(3, falloff)[0] < RawWeightsAsWritten(3, falloff)[2]
    ensures RawWeights(3, falloff)[0] == RawWeights(3, falloff)[2]
  {
    WrappedOffsetBelowCentre(0, 1);
    assert OffsetAsWritten(2, 1) == 1;
    assert RawWeights(3, falloff)[0] == falloff(Distance(0, 1)) && Distance(0, 1) == 1;
    assert RawWeights(3, falloff)[2] == falloff(Distance(2, 1)) && Distance(2, 1) == 1;
  }

  /** The intended raw weights are symmetric about the centre when the window size is odd. */
  lemma RawWeightsSymmetric(winSize: nat, falloff: nat -> real, i: nat)
    requires winSize % 2 == 1 && i < winSize
    ensures RawWeights(winSize, falloff)[i] == RawWeights(winSize, falloff)[winSize - 1 - i]
  {
    var c, j := winSize / 2, winSize - 1 - i;
    assert winSize - 1 == 2 * c;
    assert Distance(i, c) == Distance(j, c);
    assert RawWeights(winSize, falloff)[i] == falloff(Distance(i, c));
    assert RawWeights(winSize, falloff)[j] == falloff(Distance(j, c));
  }

  /** The sum of nonnegative entries is nonnegative and at least any one entry. */
  lemma {:induction false} SumAtLeastEntry(s: seq<real>, c: nat)
    requires c < |s| && forall p :: 0 <= p < |s| ==> s[p] >= 0.0
    ensures Sum(s) >= s[c]
  {
    SumNonnegative(s[..|s| - 1]);
    if c < |s| - 1 {
      SumAtLeastEntry(s[..|s| - 1], c);
    }
  }

  lemma {:induction false} SumNonnegative(s: seq<real>)
    requires forall p :: 0 <= p < |s| ==> s[p] >= 0.0
    ensures Sum(s) >= 0.0
  {
    if |s| > 0 {
      SumNonnegative(s[..|s| - 1]);
    }
  }

  /** Scaling every entry scales the total: Sum(w / t) == Sum(w) / t. */
  lemma {:induction false} SumScaled(w: seq<real>, total: real)
    requires total != 0.0
    ensures Sum(Scaled(w, total)) == Sum(w) / total
  {
    if |w| > 0 {
      SumScaled(w[..|w| - 1], total);
      assert Scaled(w, total)[..|w| - 1] == Scaled(w[..|w| - 1], total);
    }
  }

  lemma RawWeightsNonnegative(winSize: nat, falloff: nat -> real)
    requires IsFalloff(falloff)
    ensures forall p :: 0 <= p < winSize ==> RawWeights(winSize, falloff)[p] >= 0.0
  {
    forall p | 0 <= p < winSize
      ensures RawWeights(winSize, falloff)[p] >= 0.0
    {
      assert RawWeights(winSize, falloff)[p] == falloff(Distance(p, winSize / 2));
    }
  }

  /** A non-empty Gaussian window has a positive total: its centre weight is falloff(0). */
  lemma RawWeightsTotalPositive(winSize: nat, falloff: nat -> real)
    requires winSize >= 1 && IsFalloff(falloff)
    ensures Sum(RawWeights(winSize, falloff)) >= falloff(0) > 0.0
  {
    var w := RawWeights(winSize, falloff);
    assert Distance(winSize / 2, winSize / 2) == 0;
    assert w[winSize / 2] == falloff(Distance(winSize / 2, winSize / 2));
    RawWeightsNonnegative(winSize, falloff);
    SumAtLeastEntry(w, winSize / 2);
  }

  /** The template gaussian_template leaves: the raw weights divided by their total. */
  function GaussianWeights(winSize: nat, falloff: nat -> real): (r: seq<real>)
    requires IsFalloff(falloff)
    ensures |r| == winSize
  {
    var w := RawWeights(winSize, falloff);
    if winSize == 0 then [] else RawWeightsTotalPositive(winSize, falloff); Scaled(w, Sum(w))
  }

  /** The normalised template sums to exactly one, whatever the falloff. */
  lemma GaussianSumsToOne(winSize: nat, falloff: nat -> real)
    requires winSize >= 1 && IsFalloff(falloff)
    ensures Sum(GaussianWeights(winSize, falloff)) == 1.0
  {
    var w := RawWeights(winSize, falloff);
    RawWeightsTotalPositive(winSize, falloff);
    SumScaled(w, Sum(w));
    var total := Sum(w);
    assert total > 0.0;
    assert total / total == 1.0;
  }

  /** Every normalised weight lies in [0, 1]. */
  lemma GaussianWeightsInUnitRange(winSize: nat, falloff: nat -> real, i: nat)
    requires i < winSize && IsFalloff(falloff)
    ensures 0.0 <= GaussianWeights(winSize, falloff)[i] <= 1.0
  {
    var w := RawWeights(winSize, falloff);
    RawWeightsTotalPositive(winSize, falloff);
    RawWeightsNonnegative(winSize, falloff);
    SumAtLeastEntry(w, i);
    assert GaussianWeights(winSize, falloff)[i] == w[i] / Sum(w);
    QuotientInUnitRange(w[i], Sum(w));
  }

  /** A share of a positive total is a fraction between 0 and 1. */
  lemma QuotientInUnitRange(part: real, total: real)
    requires 0.0 <= part <= total && total > 0.0
    ensures 0.0 <= part / total <= 1.0
  {
    var q := part / total;
    assert q * total == part >= 0.0;
    assert (1.0 - q) * total == total - part >= 0.0;
  }

  /** The sum of the raw weights as written is positive too: the centre offset is 0 even as written. */
  lemma RawWeightsAsWrittenTotalPositive(winSize: nat, falloff: nat -> real)
    requires winSize >= 1 && IsFalloff(falloff)
    ensures Sum(RawWeightsAsWritten(winSize, falloff)) >= falloff(0) > 0.0
  {
    var w := RawWeightsAsWritten(winSize, falloff);
    forall p | 0 <= p < winSize
      ensures w[p] >= 0.0
    {
      assert w[p] == falloff(OffsetAsWritten(p, winSize / 2));
    }
    SumAtLeastEntry(w, winSize / 2);
  }

  /** The template gaussian_template leaves as written: the raw weights as written divided by their total. */
  function GaussianWeightsAsWritten(winSize: nat, falloff: nat -> real): (r: seq<real>)
    requires IsFalloff(falloff)
    ensures |r| == winSize
  {
    var w := RawWeightsAsWritten(winSize, falloff);
    if winSize == 0 then [] else RawWeightsAsWrittenTotalPositive(winSize, falloff); Scaled(w, Sum(w))
  }

  /** The template as written still sums to exactly one: the normalisation hides the wrapped offsets. */
  lemma GaussianAsWrittenSumsToOne(winSize: nat, falloff: nat -> real)
    requires winSize >= 1 && IsFalloff(falloff)
    ensures Sum(GaussianWeightsAsWritten(winSize, falloff)) == 1.0
  {
    var w := RawWeightsAsWritten(winSize, falloff);
    RawWeightsAsWrittenTotalPositive(winSize, falloff);
    SumScaled(w, Sum(w));
    var total := Sum(w);
    SelfQuotient(total);
  }

  /** A non-zero real divided by itself is one. */
  lemma SelfQuotient(t: real)
    requires t != 0.0
    ensures t / t == 1.0
  {
  }

  /**
   * For a falloff that strictly decreases, the normalised 3-tap template as written
   * weights the left neighbour less than the right one.
   */
  lemma GaussianWeightsAsWrittenLopsided(falloff: nat -> real)
    requires IsFalloff(falloff)
    requires forall d: nat, e: nat :: d < e ==> falloff(d) > falloff(e)
    ensures GaussianWeightsAsWritten(3, falloff)[0] < GaussianWeightsAsWritten(3, falloff)[2]
  {
    var w := RawWeightsAsWritten(3, falloff);
    RawWeightsAsWrittenTotalPositive(3, falloff);
    var total := Sum(w);
    GaussianAsWrittenIsLopsided(falloff);
    assert (w[2] - w[0]) / total > 0.0;
    assert w[2] / total - w[0] / total == (w[2] - w[0]) / total;
  }

  /**
   * gaussian_template(win_size, sigma, temp): resizes `temp` to win_size, fills it
   * with the raw weights while totalling them, then divides each by the total.
   * Uses the intended signed offset (see GaussianAsWrittenIsLopsided).
   */
  method GaussianTemplate(winSize: nat, falloff: nat -> real, temp: RealVector)
    requires IsFalloff(falloff)
    modifies temp
    ensures temp.data == GaussianWeights(winSize, falloff)
  {
    temp.data := Resized(temp.data, winSize, 0.0);
    var sum := FillRawWeights(falloff, temp);
    if winSize == 0 {
      return;
    }
    RawWeightsTotalPositive(winSize, falloff);
    DivideEach(temp, sum);
  }

  /** The first loop of gaussian_template: each raw weight in place, and their running total. */
  method FillRawWeights(falloff: nat -> real, temp: RealVector) returns (sum: real)
    modifies temp
    ensures temp.data == RawWeights(|old(temp.data)|, falloff) && sum == Sum(temp.data)
  {
    var winSize := |temp.data|;
    ghost var w := RawWeights(winSize, falloff);
    var centre := winSize / 2;
    sum := 0.0;
    var i := 0;
    while i < winSize
      invariant 0 <= i <= winSize && |temp.data| == winSize
      invariant temp.data[..i] == w[..i]
      invariant sum == Sum(w[..i])
    {
      var offset := if i >= centre then i - centre else centre - i;
      assert offset == Distance(i, centre) && w[i] == falloff(offset);
      temp.data := temp.data[i := falloff(offset)];
      assert temp.data[..i + 1] == w[..i + 1];
      assert w[..i + 1][..i] == w[..i];
      sum := sum + temp.data[i];
      i := i + 1;
    }
    assert w[..winSize] == w;
  }

  /** The second loop of gaussian_template: every entry divided by the total. */
  method DivideEach(temp: RealVector, total: real)
    requires total != 0.0
    modifies temp
    ensures temp.data == Scaled(old(temp.data), total)
  {
    ghost var w := temp.data;
    var k := 0;
    while k < |temp.data|
      invariant 0 <= k <= |w| && |temp.data| == |w|
      invariant forall p :: 0 <= p < |w| ==> temp.data[p] == if p < k then w[p] / total else w[p]
    {
      temp.data := temp.data[k := temp.data[k] / total];
      k := k + 1;
    }
  }

  // ---------------------------------------------------------------------------
  // derivative_template

  /**
   * The central-difference templates, a closed table for window sizes 2 to 5 with
   * the coefficients exactly as the source writes them.  Each is antisymmetric
   * about its centre and sums to zero.
   */
  function DerivativeTable(winSize: nat): (r: Option<seq<real>>)
    ensures r.Some? <==> 2 <= winSize <= 5
    ensures r.Some? ==> |r.value| == winSize
    ensures r.Some? ==> forall i :: 0 <= i < winSize ==> r.value[i] == -r.value[winSize - 1 - i]
    ensures r.Some? ==> Sum(r.value) == 0.0
  {
    match winSize
    case 2 =>
      var t := [-1.0, 1.0];
      assert t[..1] == [-1.0] && [-1.0][..0] == [];
      Some(t)
    case 3 =>
      var t := [-0.5, 0.0, 0.5];
      assert t[..2] == [-0.5, 0.0] && t[..2][..1] == [-0.5] && [-0.5][..0] == [];
      assert Sum([-0.5]) == -0.5;
      assert Sum([-0.5, 0.0]) == -0.5;
      Some(t)
    case 4 =>
      var t := [0.041666666666666666666666666666667, -1.125, 1.125, -0.041666666666666666666666666666667];
      var c := 0.041666666666666666666666666666667;
      assert t[..3] == [c, -1.125, 1.125] && t[..3][..2] == [c, -1.125];
      assert t[..3][..2][..1] == [c] && [c][..0] == [];
      assert Sum([c]) == c && Sum([c, -1.125]) == c - 1.125;
      assert Sum(t[..3]) == c;
      Some(t)
    case 5 =>
      var t := [0.083333333333, -0.66666666666, 0.0, 0.66666666666, -0.083333333333];
      assert t[..4] == [0.083333333333, -0.66666666666, 0.0, 0.66666666666];
      assert t[..4][..3] == [0.083333333333, -0.66666666666, 0.0];
      assert t[..4][..3][..2] == [0.083333333333, -0.66666666666];
      assert t[..4][..3][..2][..1] == [0.083333333333] && [0.083333333333][..0] == [];
      assert Sum([0.083333333333]) == 0.083333333333;
      assert Sum([0.083333333333, -0.66666666666]) == 0.083333333333 - 0.66666666666;
      assert Sum([0.083333333333, -0.66666666666, 0.0]) == 0.083333333333 - 0.66666666666;
      assert Sum(t[..4]) == 0.083333333333;
      Some(t)
    case _ => None
  }

  /**
   * derivative_template(win_size, temp): true and `temp` set to the table entry for
   * sizes 2 to 5; false and `temp` untouched for any other size.
   */
  method DerivativeTemplate(winSize: nat, temp: RealVector) returns (ok: bool)
    modifies temp
    ensures ok <==> 2 <= winSize <= 5
    ensures ok ==> temp.data == DerivativeTable(winSize).value
    ensures !ok ==> temp.data == old(temp.data)
  {
    match winSize
    case 2 =>
      temp.data := [-1.0, 1.0];
      ok := true;
    case 3 =>
      temp.data := [-0.5, 0.0, 0.5];
      ok := true;
    case 4 =>
      temp.data := [0.041666666666666666666666666666667, -1.125, 1.125, -0.041666666666666666666666666666667];
      ok := true;
    case 5 =>
      temp.data := [0.083333333333, -0.66666666666, 0.0, 0.66666666666, -0.083333333333];
      ok := true;
    case _ =>
      ok := false;
  }

  /** Any derivative template applied to a constant signal gives zero at every written index. */
  lemma DerivativeOfConstantIsZero(f: seq<real>, winSize: nat, i: int, c: real)
    requires 2 <= winSize <= 5 && winSize <= |f|
    requires InBand(|f|, winSize, i)
    requires forall p :: 0 <= p < |f| ==> f[p] == c
    ensures Correlation(f, DerivativeTable(winSize).value, i) == 0.0
  {
    ZeroSumKernelFlattensConstant(f, DerivativeTable(winSize).value, i, c);
  }

  /** The 3-tap template is the central difference: half the change across the two neighbours. */
  lemma CentralDifference(f: seq<real>, i: int)
    requires 3 <= |f| && InBand(|f|, 3, i)
    ensures Correlation(f, DerivativeTable(3).value, i) == (f[i + 1] - f[i - 1]) / 2.0
  {
    var k := DerivativeTable(3).value;
    assert WindowSum(f, k, i - 1, 1) == f[i - 1] * -0.5;
    assert WindowSum(f, k, i - 1, 2) == f[i - 1] * -0.5 + f[i] * 0.0;
    assert WindowSum(f, k, i - 1, 3) == f[i - 1] * -0.5 + f[i] * 0.0 + f[i + 1] * 0.5;
  }

  /** The 3-tap template gives the exact slope of a linear signal at every written index. */
  lemma CentralDifferenceOfRamp(f: seq<real>, i: int, a: real, b: real)
    requires 3 <= |f| && InBand(|f|, 3, i)
    requires forall p :: 0 <= p < |f| ==> f[p] == a + b * p as real
    ensures Correlation(f, DerivativeTable(3).value, i) == b
  {
    CentralDifference(f, i);
    assert f[i + 1] - f[i - 1] == b * 2.0;
  }
}
