/** The transmission-probability model of script.js (calculateProbability). */
module Physics {

  /** Height V0 of the potential barrier (script.js:3). */
  const BarrierPotential: real := 10.0

  /** Coefficient C of the decay exponent -C * L * sqrt(V0 - E) (script.js:4). */
  const ScalingConstant: real := 0.5

  /** The two host math primitives the formula calls, Math.exp and Math.sqrt.
      They are not computed here: every property below holds for any pair of
      functions, or for any pair that satisfies Valid(), which asks only what
      the real exp and sqrt are known to satisfy. */
  datatype Numerics = Numerics(exp: real -> real, sqrt: real -> real) {

    ghost predicate Valid() {
      && (forall a :: exp(a) > 0.0)
      && (forall a, b :: a <= b ==> exp(a) <= exp(b))
      && (forall a :: 0.0 <= a ==> 0.0 <= sqrt(a))
      && (forall a, b :: 0.0 <= a <= b ==> sqrt(a) <= sqrt(b))
    }
  }

  /** Math.max(0, Math.min(1, t)): the defensive clamp into [0, 1]. */
  function Clamp(t: real): (r: real)
    ensures 0.0 <= r <= 1.0
    ensures 0.0 <= t <= 1.0 ==> r == t
    ensures 0.0 < t ==> 0.0 < r
  {
    var capped := if 1.0 < t then 1.0 else t;
    if capped < 0.0 then 0.0 else capped
  }

  /** The clamp never reorders two values. */
  lemma ClampMonotone(s: real, t: real)
    requires s <= t
    ensures Clamp(s) <= Clamp(t)
  {
  }

  /** The exponent -C * L * sqrt(V0 - E) of the quantum branch. */
  function Exponent(E: real, L: real, m: Numerics): (e: real)
    // A non-negative width never gives a growing exponential.
    ensures m.Valid() && E <= BarrierPotential && 0.0 <= L ==> e <= 0.0
  {
    -ScalingConstant * L * m.sqrt(BarrierPotential - E)
  }

  /** calculateProbability(E, L): classical certainty at or above the barrier,
      otherwise the clamped exponential decay. */
  function Probability(E: real, L: real, m: Numerics): (p: real)
    ensures 0.0 <= p <= 1.0
    ensures BarrierPotential <= E ==> p == 1.0
    ensures m.Valid() && E < BarrierPotential ==> 0.0 < p
  {
    if E >= BarrierPotential then 1.0
    else Clamp(m.exp(Exponent(E, L, m)))
  }

  /** For a fixed energy, a wider barrier never raises the probability. */
  lemma ProbabilityAntitoneInWidth(E: real, L1: real, L2: real, m: Numerics)
    requires m.Valid()
    requires L1 <= L2
    ensures Probability(E, L2, m) <= Probability(E, L1, m)
  {
    if E < BarrierPotential {
      var root := m.sqrt(BarrierPotential - E);
      assert 0.0 <= root;
      assert (L2 - L1) * root >= 0.0;
      assert Exponent(E, L2, m) <= Exponent(E, L1, m);
      ClampMonotone(m.exp(Exponent(E, L2, m)), m.exp(Exponent(E, L1, m)));
    }
  }

  /** For a fixed non-negative width, more energy never lowers the probability. */
  lemma ProbabilityMonotoneInEnergy(E1: real, E2: real, L: real, m: Numerics)
    requires m.Valid()
    requires 0.0 <= L
    requires E1 <= E2
    ensures Probability(E1, L, m) <= Probability(E2, L, m)
  {
    if E2 < BarrierPotential {
      var root1 := m.sqrt(BarrierPotential - E1);
      var root2 := m.sqrt(BarrierPotential - E2);
      assert 0.0 <= root2 <= root1;
      assert L * (root1 - root2) >= 0.0;
      assert Exponent(E1, L, m) <= Exponent(E2, L, m);
      ClampMonotone(m.exp(Exponent(E1, L, m)), m.exp(Exponent(E2, L, m)));
    }
  }
}
