/** The rule-based "AI tutor" of script.js: the feedback selector
    (provideFeedback) and the colour band of the prediction overlay (updateUI). */
module Tutor {
  import opened Wrappers
  import opened Physics

  /** Feedback thresholds of provideFeedback (script.js:62-77). */
  const HighProbability: real := 0.8
  const LowProbability: real := 0.2
  const VeryLowProbability: real := 0.1
  const ThickWidth: real := 7.0
  const LowEnergy: real := 4.0

  /** Band edges of the prediction overlay (script.js:188-190). */
  const RedBelow: real := 0.3
  const YellowBelow: real := 0.7

  /** The display categories: the text-green-400, text-yellow-400 and
      text-red-400 classes of the feedback line, and the three colours of the
      prediction text. */
  datatype Category = Green | Yellow | Red

  /** One advice per branch of provideFeedback; the message text itself is
      presentation and is not modelled. */
  datatype Advice =
    | ClassicalSuccess       // E >= V0
    | HighOddsSuccess        // tunnelled, probability > 0.8
    | LuckyShot              // tunnelled, probability < 0.2
    | TunnelSuccess          // tunnelled otherwise
    | BarrierTooThick        // reflected, L > 7 and probability < 0.1
    | EnergyTooLow           // reflected, E < 4 and probability < 0.1
    | RaiseEnergyLowerWidth  // reflected otherwise

  /** The class name each branch writes to the feedback line. */
  function CategoryOf(a: Advice): (c: Category)
    ensures c == Red <==> a.BarrierTooThick? || a.EnergyTooLow? || a.RaiseEnergyLowerWidth?
    ensures c == Yellow <==> a.LuckyShot?
  {
    match a
    case ClassicalSuccess | HighOddsSuccess | TunnelSuccess => Green
    case LuckyShot => Yellow
    case BarrierTooThick | EnergyTooLow | RaiseEnergyLowerWidth => Red
  }

  /** Ordering of the categories from worst to best odds. */
  function Rank(c: Category): nat
  {
    match c
    case Red => 0
    case Yellow => 1
    case Green => 2
  }

  /** provideFeedback(E, L, didTunnel): the branch chosen for an attempt's outcome. */
  function Feedback(E: real, L: real, didTunnel: bool, m: Numerics): (a: Advice)
    // Below the barrier the category is red exactly for a reflection.
    ensures E < BarrierPotential ==> (CategoryOf(a) == Red <==> !didTunnel)
    // Yellow is reserved for a tunnelling success against odds below 0.2.
    ensures CategoryOf(a) == Yellow <==>
              E < BarrierPotential && didTunnel && Probability(E, L, m) < LowProbability
    ensures E < BarrierPotential && didTunnel && HighProbability < Probability(E, L, m) ==>
              CategoryOf(a) == Green
    // Each success advice is chosen exactly on its own condition; at or above
    // the barrier the classical one, whatever L and the outcome.
    ensures a == ClassicalSuccess <==> BarrierPotential <= E
    ensures a == HighOddsSuccess <==>
              E < BarrierPotential && didTunnel && HighProbability < Probability(E, L, m)
    ensures a == TunnelSuccess <==>
              E < BarrierPotential && didTunnel
              && LowProbability <= Probability(E, L, m) <= HighProbability
    // The thick-barrier advice needs both conditions, and is tried first.
    ensures a == BarrierTooThick <==>
              E < BarrierPotential && !didTunnel && ThickWidth < L
              && Probability(E, L, m) < VeryLowProbability
    ensures a == EnergyTooLow <==>
              E < BarrierPotential && !didTunnel && L <= ThickWidth && E < LowEnergy
              && Probability(E, L, m) < VeryLowProbability
    // Otherwise a reflection gets the generic advice.
    ensures a == RaiseEnergyLowerWidth <==>
              E < BarrierPotential && !didTunnel
              && (VeryLowProbability <= Probability(E, L, m) || (L <= ThickWidth && LowEnergy <= E))
  {
    if E >= BarrierPotential then ClassicalSuccess
    else
      var probability := Probability(E, L, m);
      if didTunnel then
        if probability > HighProbability then HighOddsSuccess
        else if probability < LowProbability then LuckyShot
        else TunnelSuccess
      else
        if L > ThickWidth && probability < VeryLowProbability then BarrierTooThick
        else if E < LowEnergy && probability < VeryLowProbability then EnergyTooLow
        else RaiseEnergyLowerWidth
  }

  /** Once a reflection earns the thick-barrier advice, any wider barrier earns it too. */
  lemma ThickBarrierAdviceStaysForWiderBarriers(E: real, L: real, wider: real, m: Numerics)
    requires m.Valid()
    requires L <= wider
    requires Feedback(E, L, false, m) == BarrierTooThick
    ensures Feedback(E, wider, false, m) == BarrierTooThick
  {
    ProbabilityAntitoneInWidth(E, L, wider, m);
  }

  /** Once a reflection earns the low-energy advice, any lower energy earns it too. */
  lemma LowEnergyAdviceStaysForLowerEnergies(E: real, lower: real, L: real, m: Numerics)
    requires m.Valid()
    requires 0.0 <= L
    requires lower <= E
    requires Feedback(E, L, false, m) == EnergyTooLow
    ensures Feedback(lower, L, false, m) == EnergyTooLow
  {
    ProbabilityMonotoneInEnergy(lower, E, L, m);
  }

  /** The colour of the prediction text in updateUI: hidden at or above the
      barrier (overlay opacity 0), otherwise banded by the probability. */
  function PredictionColour(E: real, L: real, m: Numerics): (c: Option<Category>)
    ensures c == None <==> BarrierPotential <= E
    ensures c == Some(Red) <==> E < BarrierPotential && Probability(E, L, m) < RedBelow
    ensures c == Some(Green) <==> E < BarrierPotential && YellowBelow <= Probability(E, L, m)
  {
    if E < BarrierPotential then
      var probability := Probability(E, L, m);
      if probability < RedBelow then Some(Red)
      else if probability < YellowBelow then Some(Yellow)
      else Some(Green)
    else None
  }

  /** Widening the barrier never moves the prediction to a better colour. */
  lemma PredictionColourAntitoneInWidth(E: real, L: real, wider: real, m: Numerics)
    requires m.Valid()
    requires E < BarrierPotential
    requires L <= wider
    ensures PredictionColour(E, L, m).Some? && PredictionColour(E, wider, m).Some?
    ensures Rank(PredictionColour(E, wider, m).value) <= Rank(PredictionColour(E, L, m).value)
  {
    ProbabilityAntitoneInWidth(E, L, wider, m);
  }

  /** The two displays agree: a success is called lucky only when the
      prediction shown for the same sliders was red. */
  lemma LuckyShotOnlyAfterRedPrediction(E: real, L: real, m: Numerics)
    requires CategoryOf(Feedback(E, L, true, m)) == Yellow
    ensures PredictionColour(E, L, m) == Some(Red)
  {
  }
}
