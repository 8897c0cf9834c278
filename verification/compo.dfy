/** The COMPO pick-off calibration in hcam_widgets/compo.py: the predicted
    offset of the pick-off pupil from the field-of-view centre, tabulated
    against the arm angle, the sizes of the optics, and the sign-symmetric
    lookup `field_stop_centre`. The cubic interpolants built from the
    tables are parameters; all quantities are exact reals in fixed units
    (degrees for angles, arcminutes for offsets, arcseconds for sizes). */
module Compo {

  /** Arm angles of the calibration table, in degrees. */
  const Theta: seq<real> := [0.0, 5.0, 10.0, 15.0, 20.0, 25.0, 30.0, 35.0, 40.0, 45.0, 50.0, 55.0, 60.0, 65.0]

  /** Predicted X offset at each tabulated angle, in arcminutes. */
  const X: seq<real> := [0.0, 0.476, 0.949, 1.414, 1.868, 2.309, 2.731, 3.133,
                         3.511, 3.863, 4.185, 4.475, 4.731, 4.951]

  /** Predicted Y offset at each tabulated angle, in arcminutes. */
  const Y: seq<real> := [0.0, 0.021, 0.083, 0.186, 0.329, 0.512, 0.732, 0.988,
                         1.278, 1.600, 1.951, 2.329, 2.731, 3.154]

  /** Sizes of the optics in arcseconds, with their size in pixels. */
  const PickoffSize: real := 26.73
  const PickoffPixels: nat := 330
  const MirrorSize: real := 24.3
  const MirrorPixels: nat := 300
  const ShadowX: real := 39.285
  const ShadowXPixels: nat := 485
  const ShadowY: real := 45.36
  const ShadowYPixels: nat := 560

  /** Angle of the injector arm in position, in degrees. */
  const InjectorTheta: real := 13.0

  /** The detector's plate scale, in arcseconds per pixel. */
  const PlateScale: real := 0.081

  /** A sequence is strictly increasing. */
  predicate Increasing(s: seq<real>) {
    forall i :: 0 < i < |s| ==> s[i - 1] < s[i]
  }

  /** The three tables have one entry per angle, the angles run from 0 to 65
      degrees in 5-degree steps, and both offsets are 0 at angle 0 and grow
      with the angle. */
  lemma TablesShape()
    ensures |Theta| == 14 && |X| == |Theta| && |Y| == |Theta|
    ensures forall i :: 0 <= i < |Theta| ==> Theta[i] == 5.0 * i as real
    ensures Increasing(Theta) && Increasing(X) && Increasing(Y)
    ensures X[0] == 0.0 && Y[0] == 0.0
  {
  }

  /** Every size is its pixel count at one plate scale. */
  lemma SizesAgreeWithPlateScale()
    ensures PickoffSize == PlateScale * PickoffPixels as real
    ensures MirrorSize == PlateScale * MirrorPixels as real
    ensures ShadowX == PlateScale * ShadowXPixels as real
    ensures ShadowY == PlateScale * ShadowYPixels as real
  {
  }

  /** `f` is an interpolant of the table: it takes the tabulated value at
      every tabulated angle. */
  predicate Interpolates(f: real -> real, ys: seq<real>)
    requires |ys| == |Theta|
  {
    forall i :: 0 <= i < |Theta| ==> f(Theta[i]) == ys[i]
  }

  /** A field-stop centre, in arcminutes. */
  datatype Offset = Offset(x: real, y: real)

  /** The absolute value of an angle. */
  function Abs(t: real): (a: real)
    ensures a >= 0.0 && (a == t || a == -t)
  {
    if t < 0.0 then -t else t
  }

  /** `field_stop_centre(theta)`: the interpolants are evaluated at the
      angle's magnitude, and the X offset is negated for a negative angle.
      Outside the table the interpolants extrapolate, so every angle has a
      centre. */
  function FieldStopCentre(theta: real, xFunc: real -> real, yFunc: real -> real): (c: Offset)
    ensures c.y == yFunc(Abs(theta))
    ensures c.x == if theta < 0.0 then -xFunc(Abs(theta)) else xFunc(Abs(theta))
  {
    var a := Abs(theta);
    var x := xFunc(a);
    Offset(if theta < 0.0 then -x else x, yFunc(a))
  }

  /** The X offset is odd in the angle and the Y offset even, once the X
      interpolant goes through the table's zero at angle 0. */
  lemma Symmetry(theta: real, xFunc: real -> real, yFunc: real -> real)
    requires Interpolates(xFunc, X)
    ensures FieldStopCentre(-theta, xFunc, yFunc).x == -FieldStopCentre(theta, xFunc, yFunc).x
    ensures FieldStopCentre(-theta, xFunc, yFunc).y == FieldStopCentre(theta, xFunc, yFunc).y
  {
    assert xFunc(Theta[0]) == X[0];
  }

  /** At a tabulated angle, or its negative, the centre is the table's
      entry, with the X sign following the angle's. */
  lemma AtTableAngles(i: nat, xFunc: real -> real, yFunc: real -> real)
    requires i < |Theta|
    requires Interpolates(xFunc, X) && Interpolates(yFunc, Y)
    ensures FieldStopCentre(Theta[i], xFunc, yFunc) == Offset(X[i], Y[i])
    ensures FieldStopCentre(-Theta[i], xFunc, yFunc) == Offset(-X[i], Y[i])
  {
    assert Theta[i] >= 0.0 by {
      TablesShape();
    }
    assert xFunc(Theta[0]) == X[0];
  }

  /** `field_stop_centre` on an array of angles: the scalar rule applied to
      each angle, the X offsets and Y offsets returned as two arrays. */
  method FieldStopCentres(thetas: seq<real>, xFunc: real -> real, yFunc: real -> real)
    returns (xs: seq<real>, ys: seq<real>)
    ensures |xs| == |thetas| && |ys| == |thetas|
    ensures forall i :: 0 <= i < |thetas| ==>
      Offset(xs[i], ys[i]) == FieldStopCentre(thetas[i], xFunc, yFunc)
  {
    xs, ys := [], [];
    var i := 0;
    while i < |thetas|
      invariant 0 <= i <= |thetas|
      invariant |xs| == i && |ys| == i
      invariant forall k :: 0 <= k < i ==> Offset(xs[k], ys[k]) == FieldStopCentre(thetas[k], xFunc, yFunc)
    {
      var a := if thetas[i] < 0.0 then -thetas[i] else thetas[i];
      var x := xFunc(a);
      if thetas[i] < 0.0 {
        x := -x;
      }
      xs := xs + [x];
      ys := ys + [yFunc(a)];
      i := i + 1;
    }
  }
}
