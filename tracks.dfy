/**
 * The trajectory record main.cpp declares for itself (main.cpp:27-47): three
 * parallel vectors of x coordinates, y coordinates and frame numbers, kept the
 * same length.  The coordinates are integers because main.cpp rounds every sample
 * as it loads it (main.cpp:191-192).
 */
module Tracks {
  import opened Vectors

  datatype Track = Track(x: seq<int>, y: seq<int>, t: seq<int>)
  {
    /** The three vectors have one entry per sample. */
    predicate Valid()
    {
      |x| == |t| && |y| == |t|
    }

    /** size() counts the frame vector; in a valid record that is the number of samples. */
    function Size(): (r: nat)
      ensures r == |t|
      ensures Valid() ==> r == |x| && r == |y|
    {
      |t|
    }

    /**
     * resize(n) resizes all three vectors to n: afterwards the record is valid with
     * n samples, the first samples are kept and new ones are zero.
     */
    function Resize(n: nat): (r: Track)
      ensures r.Valid() && r.Size() == n
      ensures forall i :: 0 <= i < n && i < |t| ==> r.t[i] == t[i]
      ensures forall i :: 0 <= i < n && i < |x| ==> r.x[i] == x[i]
      ensures forall i :: 0 <= i < n && i < |y| ==> r.y[i] == y[i]
      ensures forall i :: |t| <= i < n ==> r.t[i] == 0
      ensures forall i :: |x| <= i < n ==> r.x[i] == 0
      ensures forall i :: |y| <= i < n ==> r.y[i] == 0
    {
      Track(Resized(x, n, 0), Resized(y, n, 0), Resized(t, n, 0))
    }
  }

  /** trajectory_t(size): a valid record of `size` zero samples. */
  function NewTrack(size: nat): (r: Track)
    ensures r.Valid() && r.Size() == size
    ensures forall i :: 0 <= i < size ==> r.x[i] == 0 && r.y[i] == 0 && r.t[i] == 0
  {
    Track(seq(size, _ => 0), seq(size, _ => 0), seq(size, _ => 0))
  }
}
