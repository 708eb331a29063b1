# Quantum Leaper core, modelled in Dafny

The Quantum Leaper is a browser page that shows quantum tunnelling. Two
sliders set the particle energy E and the barrier width L. A closed-form
formula gives the transmission probability T. A button starts one attempt:
a particle rolls to the barrier, one random roll against T decides whether
it tunnels, and a rule-based "tutor" picks the feedback for the outcome.

This project models the logic of `script.js` that has nothing to do with the
DOM or the canvas. It has four modules:

- `Physics` (`physics.dfy`): `calculateProbability`. The host's `Math.exp`
  and `Math.sqrt` are a `Numerics` value of two `real -> real` functions.
  Bounds and the classical branch hold for any such pair. Monotonicity needs
  `Numerics.Valid()`, which assumes only what the real functions satisfy:
  exp is positive and monotone, sqrt is non-negative and monotone on [0, ∞).
- `Tutor` (`tutor.dfy`): the branch `provideFeedback` takes, as an `Advice`
  (one constructor per branch), and its display `Category`
  (`Green`/`Yellow`/`Red` for the `text-green-400`/`text-yellow-400`/`text-red-400`
  classes). Also the colour band of the prediction overlay in `updateUI`.
- `Simulation` (`simulation.dfy`): the particle record and the attempt state
  machine (`Ready`, `Traveling`, `Success`, `Failed`).
  - Pure functions: `Reset` (the click handler's new particle), `Launch`
    (`runTunnelSimulation` with the `Math.random()` value passed in as
    `roll`), `Step` (one `animate` frame without `draw()`), and `Settle` (the
    end state of the frames an attempt runs while the sliders stay put).
  - The class `Driver` holds the script's global state: the particle fields,
    the set of requested animation-frame callbacks that have not run or been
    cancelled, `animationFrameId` (the latest request), `buttonDisabled`, and
    a ghost log of the random rolls. Its methods `Click`,
    `RunTunnelSimulation` and `Animate` update the fields as the source does
    and are proved equal to the pure functions. `RequestFrame` and
    `CancelFrame` stand for `requestAnimationFrame` and `cancelAnimationFrame`.
    `RunAttempt` runs the click followed by the frame loop. It is proved to
    end in `Success` exactly when `roll <= T`, after exactly one random roll, with
    the matching feedback.
- `Wrappers` (`wrappers.dfy`): an `Option` type.

`animate` reads the sliders again on every frame. A slider moved during an
attempt therefore changes the barrier edges and the feedback of the final
frame. `Step` and `Animate` take E and L per frame for this reason. Only
`Settle` and `RunAttempt` hold them fixed.

## Model

| member | source | states |
|---|---|---|
| `Physics.Clamp` | script.js:42 | the result always lies in [0, 1]; a value already in [0, 1] is kept; a positive value stays positive |
| `Physics.Probability` | script.js:29-43 | T is in [0, 1] whatever exp and sqrt return; T is exactly 1.0 for every E >= V0 = 10 (the boundary E = 10 included) and every L; below the barrier T is strictly positive when exp is positive |
| `Physics.ProbabilityAntitoneInWidth` | script.js:36-42 | for a fixed energy, a wider barrier never gives a higher T |
| `Physics.ProbabilityMonotoneInEnergy` | script.js:30-42 | for a fixed non-negative width, more energy never gives a lower T, across the classical boundary too |
| `Physics.Exponent` | script.js:36-39 | for a non-negative width at or below the barrier the exponent -C·L·√(V0−E) is never positive |
| `Tutor.CategoryOf` | script.js:54-82 | the class each branch writes: red exactly for the three reflection advices, yellow exactly for the lucky shot, green for the rest |
| `Tutor.Feedback` | script.js:47-87 | E >= V0 is the classical (green) advice whatever L and the outcome; below V0 the category is red exactly when the particle did not tunnel; yellow exactly for a success with T < 0.2; a success with T > 0.8 is green; each success advice is chosen exactly on its own condition (high odds iff T > 0.8, lucky iff T < 0.2, plain success iff 0.2 <= T <= 0.8); the thick-barrier advice needs both L > 7 and T < 0.1; the low-energy advice needs E < 4 and T < 0.1 and is only reached when the thick-barrier test failed; every other reflection gets the generic advice |
| `Tutor.ThickBarrierAdviceStaysForWiderBarriers` | script.js:74-76 | a reflection that earns the thick-barrier advice earns it for every wider barrier too |
| `Tutor.LowEnergyAdviceStaysForLowerEnergies` | script.js:77-79 | a reflection that earns the low-energy advice earns it for every lower energy too |
| `Tutor.PredictionColour` | script.js:183-197 | the overlay is hidden exactly when E >= V0; otherwise red exactly for T < 0.3, green exactly for T >= 0.7, yellow between |
| `Tutor.PredictionColourAntitoneInWidth` | script.js:177-194 | below the barrier, widening it never moves the prediction to a better colour |
| `Tutor.LuckyShotOnlyAfterRedPrediction` | script.js:65-67 | a success reported in yellow always had a red prediction for the same sliders |
| `Simulation.BarrierLeft` | script.js:130-131 | for a non-negative width the left edge lies at or left of the barrier centre |
| `Simulation.BarrierRight` | script.js:130-132 | for a non-negative width the right edge lies at or right of the centre; it is L·20 pixels right of the left edge, and the two edges are symmetric about the centre |
| `Simulation.Advanced` | script.js:125-128 | the position update moves the particle by its velocity, whether or not vx is 0, and changes nothing else |
| `Simulation.HandsOff` | script.js:153 | the hand-off happens exactly when an untunnelled particle moving right has its front edge at or past the left edge after moving; in a consistent attempt only a particle at full speed (vx = 4) is handed off |
| `Simulation.Reset` | script.js:229 | the reset particle is at x = 50 with vx = 4, not tunnelling, traveling |
| `Simulation.Launch` | script.js:200-219 | the trial leaves the particle tunnelling and traveling in place; it moves right exactly when roll <= T; at E >= V0 every roll in [0, 1) succeeds |
| `Simulation.Step` | script.js:124-166 | a tunnelling particle moving right that reaches the right edge stops with status success and success feedback; one moving left that reaches x <= 50 is snapped to 50 with status failed and reflection feedback; an untunnelled particle moving right that touches the left edge stops and is handed to the trial; feedback is given exactly when the status leaves traveling; every other frame of an attempt in flight only moves the particle by its velocity and gives no feedback; consistent states stay consistent; a finished attempt does not move |
| `Simulation.Settle` | script.js:124-166 | an attempt with fixed sliders always ends, in success or failure; before the trial it succeeds exactly when roll <= T, after it exactly when the particle moves right; a success ends at or beyond the right edge |
| `Simulation.Driver.constructor` | script.js:21-23 | the page starts with the particle ready at x = 50, no frame pending, a null animationFrameId, the button enabled and no random rolls taken |
| `Simulation.Driver.RequestFrame` | script.js:235 | a request gets a fresh id, which becomes animationFrameId and is added to the pending callbacks |
| `Simulation.Driver.CancelFrame` | script.js:228 | cancelling removes the callback animationFrameId names from the pending ones; cancelling null or an already-run frame changes nothing |
| `Simulation.Driver.Click` | script.js:226-236 | from any valid prior state, mid-flight included: the particle is reset, the button is disabled, and exactly one callback is pending, a fresh one, so none requested by the prior attempt survives |
| `Simulation.Driver.RunTunnelSimulation` | script.js:200-219 | the particle becomes `Launch` of the old one; the random roll is logged; frames and button are untouched |
| `Simulation.Driver.Animate` | script.js:124-166 | the new particle and the feedback are `Step` of the old particle; the callback that ran is no longer pending, and exactly one fresh callback is pending while the status is traveling, none otherwise; a random roll is logged exactly when the particle is handed off; the state invariant is kept |
| `Simulation.Driver.RunAttempt` | script.js:124-166 | the click and the frames it schedules end in `Settle(Reset())`: success exactly when roll <= T, at or beyond the right edge; otherwise failure at x = 50; the feedback matches the outcome; no callback is left pending; exactly one random roll is taken |

## Left out

- DOM lookups, slider `parseFloat` reads, the `textContent`/`className`/`style` writes and the `draw()` canvas rendering (script.js:1-19, 91-122, 170-186), including the particle's colour by status: presentation. Slider values are the parameters E and L.
- The message strings and their `toFixed`/`Math.round` formatting (script.js:53-81, 178, 185), and the "Analyzing parameters" text of the click handler: only the chosen branch and its category are modelled.
- The `currentProbability` global and the initial `updateUI()` call (script.js:22, 177, 238): display of values that `Probability` and `PredictionColour` compute.
- The particle's `y` coordinate: it never changes.
- `Math.exp` and `Math.sqrt` (script.js:39-41): passed in as functions. No numeric value such as exp(-0.5) is computed.
- `Math.random` (script.js:205): passed in as `roll`. Only `Launch`'s classical clause uses the fact that a roll lies in [0, 1).
- IEEE double arithmetic: all numbers are `real`. Rounding, NaN and infinities are not modelled.
- `requestAnimationFrame`/`cancelAnimationFrame` (script.js:164, 228, 235): a set of pending callback ids and a counter for fresh ids. The browser's scheduling is not modelled: `Animate` is the pending callback running, so it requires one to be pending.
- The canvas width: `barrierX` is `canvas.width / 2` and comes from the page markup, so it is the constructor's parameter.
- The tunnel button's initial state also comes from the page markup; the constructor takes it to be enabled, which is what lets the first click happen.
- Simulation.Settle: holds E and L fixed for the whole attempt. The source re-reads them every frame, which `Step` and `Animate` model, but the whole-attempt outcome is not stated for sliders that move mid-flight.
- Simulation.Driver.RunAttempt: same restriction as `Settle`; the same `roll` is offered to every frame and only the hand-off frame uses it.
- Physics.ProbabilityMonotoneInEnergy: requires L >= 0, the slider's range; for a negative width the formula would rise as the energy falls.
