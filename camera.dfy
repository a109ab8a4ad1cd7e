/**
 * The camera parameter record of the stereo runtime: focal lengths, principal
 * point and five distortion coefficients [k1, k2, p1, p2, k3].
 */
module CameraModel {

  /** The fixed five-slot distortion array. */
  type Distortion = d: seq<real> | |d| == 5 witness [0.0, 0.0, 0.0, 0.0, 0.0]

  /** One camera's intrinsics as a value. */
  datatype Intrinsics = Intrinsics(fx: real, fy: real, cx: real, cy: real, disto: Distortion)

  const ZeroDistortion: Distortion := [0.0, 0.0, 0.0, 0.0, 0.0]

  /** A camera before any line has been read: distortion zeroed, the other fields taken as 0. */
  const Unset: Intrinsics := Intrinsics(0.0, 0.0, 0.0, 0.0, ZeroDistortion)

  /** Every distortion slot of an unset camera is 0. */
  lemma UnsetSlotZero(k: nat)
    requires k < 5
    ensures Unset.disto[k] == 0.0
  {
  }

  /** The mutable camera parameter struct that the parser and `cvtTo2K` update in place. */
  class CameraParameters {
    var fx: real
    var fy: real
    var cx: real
    var cy: real
    const disto: array<real>

    ghost predicate Valid()
      reads this
    {
      disto.Length == 5
    }

    /** The value currently held. */
    function Value(): Intrinsics
      reads this, disto
      requires Valid()
    {
      Intrinsics(fx, fy, cx, cy, disto[..])
    }

    /** A fresh record with its distortion array zeroed, as the memset before parsing does. */
    constructor ()
      ensures Valid() && fresh(disto)
      ensures Value() == Unset
    {
      fx, fy, cx, cy := 0.0, 0.0, 0.0, 0.0;
      disto := new real[5](_ => 0.0);
      new;
      assert disto[..] == ZeroDistortion;
    }
  }
}
