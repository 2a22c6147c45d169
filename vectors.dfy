/**
 * std::vector<double> as the filter library and the trajectory container pass it:
 * a growable buffer handed around by reference, so that two parameters may name
 * the same vector.
 */
module Vectors {

  /** size_t arithmetic wraps modulo 2^64. */
  const SizeModulus: int := 0x1_0000_0000_0000_0000

  /**
   * The contents after std::vector::resize(n): the first min(|s|, n) elements are
   * kept and any new slot holds the value-initialised `fill`.
   */
  function Resized<T>(s: seq<T>, n: nat, fill: T): (r: seq<T>)
    ensures |r| == n
    ensures forall i :: 0 <= i < n ==> r[i] == if i < |s| then s[i] else fill
  {
    if n <= |s| then s[..n] else s + seq(n - |s|, _ => fill)
  }

  /** A std::vector<double>; its identity models the address the source compares. */
  class RealVector {
    var data: seq<real>

    constructor (data: seq<real>)
      ensures this.data == data
    {
      this.data := data;
    }
  }
}
