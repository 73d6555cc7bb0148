/** Single-channel frames as row-major integer grids, and the two flips the capture unit applies. */
module Frames {

  /** A frame: a sequence of rows of pixel values. */
  type Frame = seq<seq<int>>

  /** The elements of `s` in reverse order. */
  function Reverse<T>(s: seq<T>): (r: seq<T>)
    ensures |r| == |s|
    ensures forall i :: 0 <= i < |s| ==> r[i] == s[|s| - 1 - i]
  {
    if s == [] then [] else Reverse(s[1..]) + [s[0]]
  }

  /** `cv2.flip(frame, 0)`: flip around the x axis, so the row order is reversed. */
  function FlipAroundXAxis(f: Frame): (r: Frame)
    ensures |r| == |f|
    ensures forall i :: 0 <= i < |f| ==> r[i] == f[|f| - 1 - i]
  {
    Reverse(f)
  }

  /** `cv2.flip(frame, 1)`: flip around the y axis, so every row is reversed. */
  function FlipAroundYAxis(f: Frame): (r: Frame)
    ensures |r| == |f|
    ensures forall i :: 0 <= i < |f| ==> |r[i]| == |f[i]|
    ensures forall i, j :: 0 <= i < |f| && 0 <= j < |f[i]| ==> r[i][j] == f[i][|f[i]| - 1 - j]
  {
    seq(|f|, i requires 0 <= i < |f| => Reverse(f[i]))
  }

  /** The two flips commute, so the order in which they are applied does not matter. */
  lemma FlipsCommute(f: Frame)
    ensures FlipAroundYAxis(FlipAroundXAxis(f)) == FlipAroundXAxis(FlipAroundYAxis(f))
  {
  }
}
