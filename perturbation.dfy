/**
  The search space of the registration: a rotation-plus-uniform-scale transform
  with a translation offset, and the neighbour move `random_perturbation` that the
  annealing loop uses to propose a candidate.

  Randomness is not drawn here: every uniform draw is passed in as a "unit draw"
  `u` in [0, 1), and `Uniform(lo, hi, u)` maps it onto [lo, hi) the way NumPy's
  `uniform(lo, hi)` does (`lo + (hi - lo) * u`).
 */
module Perturbation {

  /** The four transform parameters; `angle` in radians, `tx`/`ty` in pixels. */
  datatype TransformParams = TransformParams(angle: real, scale: real, tx: real, ty: real)

  /** Half-width of the angle move: five degrees in radians (the shortest decimal of the float64 value of `np.radians(5)`). */
  const MaxAngleStep: real := 0.08726646259971647

  /** Bounds of the multiplicative scale factor. */
  const MinScaleFactor: real := 0.95
  const MaxScaleFactor: real := 1.05

  /** Half-width of each translation move, in pixels. */
  const MaxShift: real := 5.0

  /** What the random source promises of every draw. */
  predicate UnitDraw(u: real) {
    0.0 <= u < 1.0
  }

  /** A uniform draw on [lo, hi) obtained from the unit draw `u`, as `lo + (hi - lo) * u`. */
  function Uniform(lo: real, hi: real, u: real): real {
    lo + (hi - lo) * u
  }

  /**
    `random_perturbation`: a fresh parameter record built from `p` and four draws,
    consumed in the order angle, scale, tx, ty.
   */
  function Perturb(p: TransformParams, u0: real, u1: real, u2: real, u3: real): TransformParams {
    TransformParams(
      p.angle + Uniform(-MaxAngleStep, MaxAngleStep, u0),
      p.scale * Uniform(MinScaleFactor, MaxScaleFactor, u1),
      p.tx + Uniform(-MaxShift, MaxShift, u2),
      p.ty + Uniform(-MaxShift, MaxShift, u3))
  }

  /**
    Each move stays within its half-open range: the angle moves by an amount in
    [-radians(5), radians(5)), the scale by a factor in [0.95, 1.05) (so a
    positive scale stays positive), each translation by an amount in [-5, 5).
   */
  lemma PerturbBounded(p: TransformParams, u0: real, u1: real, u2: real, u3: real)
    requires UnitDraw(u0) && UnitDraw(u1) && UnitDraw(u2) && UnitDraw(u3)
    ensures var q := Perturb(p, u0, u1, u2, u3);
            -MaxAngleStep <= q.angle - p.angle < MaxAngleStep &&
            (p.scale != 0.0 ==> MinScaleFactor <= q.scale / p.scale < MaxScaleFactor) &&
            (0.0 < p.scale ==> 0.0 < q.scale) &&
            -MaxShift <= q.tx - p.tx < MaxShift &&
            -MaxShift <= q.ty - p.ty < MaxShift
  {
    var q := Perturb(p, u0, u1, u2, u3);
    var f := Uniform(MinScaleFactor, MaxScaleFactor, u1);
    assert MinScaleFactor <= f < MaxScaleFactor;
    assert q.scale == p.scale * f;
    if p.scale != 0.0 {
      DivideOutFactor(p.scale, f);
      assert q.scale / p.scale == f;
    }
    if 0.0 < p.scale {
      assert 0.0 < p.scale * f;
    }
  }

  lemma DivideOutFactor(a: real, f: real)
    requires a != 0.0
    ensures (a * f) / a == f
  {
  }
}
