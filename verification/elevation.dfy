/** Ascent and descent: one forward pass over consecutive pairs of the
    altitude series, with no smoothing and no threshold. */
module Elevation {

  /** What a step of `diff` metres adds to the ascent. */
  function Rise(diff: real): real {
    if diff > 0.0 then diff else 0.0
  }

  /** What a step of `diff` metres adds to the descent. */
  function Drop(diff: real): real {
    if diff < 0.0 then -diff else 0.0
  }

  function Abs(x: real): real {
    if x < 0.0 then -x else x
  }

  /** Total ascent of an altitude series: the positive steps, summed over
      consecutive pairs in order; 0.0 when there is no pair. */
  function Ascent(alt: seq<real>): (r: real)
    ensures r >= 0.0
  {
    if |alt| < 2 then 0.0
    else Ascent(alt[..|alt| - 1]) + Rise(alt[|alt| - 1] - alt[|alt| - 2])
  }

  /** Total descent: the magnitudes of the negative steps, summed likewise. */
  function Descent(alt: seq<real>): (r: real)
    ensures r >= 0.0
  {
    if |alt| < 2 then 0.0
    else Descent(alt[..|alt| - 1]) + Drop(alt[|alt| - 1] - alt[|alt| - 2])
  }

  /** Total variation: the sum of the absolute consecutive differences. */
  function Variation(alt: seq<real>): (r: real)
    ensures r >= 0.0
  {
    if |alt| < 2 then 0.0
    else Variation(alt[..|alt| - 1]) + Abs(alt[|alt| - 1] - alt[|alt| - 2])
  }

  /** The pass the `ascent` property makes: a running total over
      `range(len(altitude_data) - 1)`, adding each positive step. */
  method AscentPass(alt: seq<real>) returns (total: real)
    ensures total == Ascent(alt)
    ensures total >= 0.0
  {
    total := 0.0;
    if |alt| == 0 {
      return;  // range(-1) is empty
    }
    var i := 0;
    while i < |alt| - 1
      invariant 0 <= i <= |alt| - 1
      invariant total == Ascent(alt[..i + 1])
    {
      var diff := alt[i + 1] - alt[i];
      assert alt[..i + 2][..i + 1] == alt[..i + 1];
      if diff > 0.0 {
        total := total + diff;
      }
      i := i + 1;
    }
    assert alt[..i + 1] == alt;
  }

  /** The pass the `descent` property makes, adding `abs(diff)` for each
      negative step. */
  method DescentPass(alt: seq<real>) returns (total: real)
    ensures total == Descent(alt)
    ensures total >= 0.0
  {
    total := 0.0;
    if |alt| == 0 {
      return;
    }
    var i := 0;
    while i < |alt| - 1
      invariant 0 <= i <= |alt| - 1
      invariant total == Descent(alt[..i + 1])
    {
      var diff := alt[i + 1] - alt[i];
      assert alt[..i + 2][..i + 1] == alt[..i + 1];
      if diff < 0.0 {
        total := total + Abs(diff);
      }
      i := i + 1;
    }
    assert alt[..i + 1] == alt;
  }

  /** Telescoping: ascent minus descent is the net change from the first
      altitude to the last. */
  lemma {:induction false} NetChange(alt: seq<real>)
    requires |alt| > 0
    ensures Ascent(alt) - Descent(alt) == alt[|alt| - 1] - alt[0]
  {
    if |alt| >= 2 {
      var front := alt[..|alt| - 1];
      NetChange(front);
      assert front[|front| - 1] == alt[|alt| - 2];
      assert front[0] == alt[0];
    }
  }

  /** Ascent plus descent is the sum of the absolute consecutive differences. */
  lemma {:induction false} AscentPlusDescent(alt: seq<real>)
    ensures Ascent(alt) + Descent(alt) == Variation(alt)
  {
    if |alt| >= 2 {
      AscentPlusDescent(alt[..|alt| - 1]);
    }
  }

  /** With fewer than two altitudes there is no step: both totals are 0. */
  lemma NoStepNoClimb(alt: seq<real>)
    requires |alt| < 2
    ensures Ascent(alt) == 0.0 && Descent(alt) == 0.0
  {
  }

  /** The worked example: 100, 105, 95, 110 climbs 5 + 15 and drops 10. */
  lemma Example()
    ensures Ascent([100.0, 105.0, 95.0, 110.0]) == 20.0
    ensures Descent([100.0, 105.0, 95.0, 110.0]) == 10.0
  {
    var a2, a3, a4 := [100.0, 105.0], [100.0, 105.0, 95.0], [100.0, 105.0, 95.0, 110.0];
    assert a4[..3] == a3 && a3[..2] == a2 && a2[..1] == [100.0];
    assert Ascent(a2) == 5.0 && Descent(a2) == 0.0;
    assert Ascent(a3) == 5.0 && Descent(a3) == 10.0;
  }
}
