/** The attempt driver of script.js: the particle record, the random hand-off
    (runTunnelSimulation), one animation frame (animate, without drawing) and
    the reset done by the tunnel button's click handler. */
module Simulation {
  import opened Wrappers
  import opened Physics
  import opened Tutor

  /** Horizontal start of every attempt (script.js:21, 144-148, 229). */
  const StartX: real := 50.0
  /** Speed of a fresh or tunnelling particle, per frame (script.js:7). */
  const ParticleSpeed: real := 4.0
  /** Radius used for the first contact with the barrier (script.js:5). */
  const ParticleRadius: real := 10.0
  /** Pixels of barrier per unit of width L (script.js:6). */
  const BarrierWidthMultiplier: real := 20.0

  datatype Status = Ready | Traveling | Success | Failed

  /** The particle record minus its constant y coordinate. */
  datatype Particle = Particle(x: real, vx: real, tunneling: bool, status: Status)

  /** What a frame leaves behind: the particle and the feedback it gave, if any. */
  datatype Frame = Frame(particle: Particle, feedback: Option<Advice>)

  /** Left edge of the barrier drawn for width L, centred on barrierX. */
  function BarrierLeft(barrierX: real, L: real): (left: real)
    ensures 0.0 <= L ==> left <= barrierX
  {
    barrierX - L * BarrierWidthMultiplier / 2.0
  }

  /** Right edge of the barrier: L * 20 pixels to the right of the left
      edge, the two edges symmetric about barrierX. */
  function BarrierRight(barrierX: real, L: real): (right: real)
    ensures 0.0 <= L ==> barrierX <= right
    ensures right - BarrierLeft(barrierX, L) == L * BarrierWidthMultiplier
    ensures right + BarrierLeft(barrierX, L) == 2.0 * barrierX
  {
    barrierX + L * BarrierWidthMultiplier / 2.0
  }

  /** The shapes the particle record takes between frames. */
  predicate Consistent(p: Particle)
  {
    match p.status
    case Ready => p == Particle(StartX, 0.0, false, Ready)
    case Traveling => p.vx == ParticleSpeed || (p.tunneling && p.vx == -ParticleSpeed / 2.0)
    case Success => p.vx == 0.0 && !p.tunneling
    case Failed => p == Particle(StartX, 0.0, false, Failed)
  }

  /** The particle as the click handler leaves it, whatever it was before. */
  function Reset(): (p: Particle)
    ensures Consistent(p) && p.status == Traveling
    ensures !p.tunneling && p.vx == ParticleSpeed && p.x == StartX
  {
    Particle(StartX, ParticleSpeed, false, Traveling)
  }

  /** runTunnelSimulation with the Math.random() draw given as `roll`: one
      trial against the probability for the current sliders. */
  function Launch(p: Particle, E: real, L: real, roll: real, m: Numerics): (q: Particle)
    ensures q.x == p.x && q.tunneling && q.status == Traveling && Consistent(q)
    ensures 0.0 < q.vx <==> roll <= Probability(E, L, m)
    // Above the barrier every draw of Math.random(), which lies in [0, 1), succeeds.
    ensures BarrierPotential <= E && roll < 1.0 ==> 0.0 < q.vx
  {
    var T := Probability(E, L, m);
    if roll <= T then p.(vx := ParticleSpeed, tunneling := true, status := Traveling)
    else p.(vx := -ParticleSpeed / 2.0, tunneling := true, status := Traveling)
  }

  /** Where the particle is after the position update at the top of a frame. */
  function Advanced(p: Particle): (q: Particle)
    // The particle moves by its velocity (the guard on vx is immaterial) and nothing else changes.
    ensures q == p.(x := p.x + p.vx)
  {
    if p.vx != 0.0 then p.(x := p.x + p.vx) else p
  }

  /** The frame hands the particle to the random trial: an untunnelled
      particle moving right has touched the barrier. */
  predicate HandsOff(p: Particle, L: real, barrierX: real)
    ensures HandsOff(p, L, barrierX) <==>
              !p.tunneling && 0.0 < p.vx && BarrierLeft(barrierX, L) <= p.x + p.vx + ParticleRadius
    // Only a fresh particle, at full speed, is ever handed to the trial.
    ensures Consistent(p) && p.status == Traveling && HandsOff(p, L, barrierX) ==> p.vx == ParticleSpeed
  {
    !p.tunneling && p.vx > 0.0 && Advanced(p).x + ParticleRadius >= BarrierLeft(barrierX, L)
  }

  /** animate() without the redraw: move, then settle a tunnelling particle
      that has arrived or hand a fresh one to the trial. Sliders are read as
      E and L for this frame; `roll` is what Math.random() returns if the
      trial is run. */
  function Step(p: Particle, E: real, L: real, roll: real, barrierX: real, m: Numerics): (r: Frame)
    // A tunnelling particle moving right that reaches the far edge succeeds.
    ensures p.tunneling && p.vx > 0.0 && p.x + p.vx >= BarrierRight(barrierX, L) ==>
              r.particle == Particle(p.x + p.vx, 0.0, false, Success)
              && r.feedback == Some(Feedback(E, L, true, m))
    // One moving left that is back at the start is snapped there and fails.
    ensures p.tunneling && p.vx < 0.0 && p.x + p.vx <= StartX ==>
              r.particle == Particle(StartX, 0.0, false, Failed)
              && r.feedback == Some(Feedback(E, L, false, m))
    // An untunnelled particle touching the barrier stops and takes the roll.
    ensures HandsOff(p, L, barrierX) ==>
              r.particle == Launch(Advanced(p).(vx := 0.0), E, L, roll, m) && r.feedback == None
    // Any other frame of an attempt in flight only moves the particle by its velocity.
    ensures Consistent(p) && p.status == Traveling && !HandsOff(p, L, barrierX)
            && !(p.tunneling && p.vx > 0.0 && p.x + p.vx >= BarrierRight(barrierX, L))
            && !(p.tunneling && p.vx < 0.0 && p.x + p.vx <= StartX) ==>
              r == Frame(p.(x := p.x + p.vx), None)
    // Feedback is given exactly when the status leaves traveling.
    ensures p.status == Traveling ==>
              (r.feedback.Some? <==> r.particle.status != Traveling)
    ensures Consistent(p) && p.status == Traveling ==> Consistent(r.particle)
    // Nothing moves once the attempt is over.
    ensures Consistent(p) && p.status != Traveling ==> r == Frame(p, None)
  {
    var q := Advanced(p);
    if p.tunneling then
      if q.vx > 0.0 && q.x >= BarrierRight(barrierX, L) then
        Frame(q.(vx := 0.0, tunneling := false, status := Success), Some(Feedback(E, L, true, m)))
      else if q.vx < 0.0 && q.x <= StartX then
        Frame(q.(vx := 0.0, tunneling := false, x := StartX, status := Failed), Some(Feedback(E, L, false, m)))
      else
        Frame(q, None)
    else if q.vx > 0.0 && q.x + ParticleRadius >= BarrierLeft(barrierX, L) then
      Frame(Launch(q.(vx := 0.0), E, L, roll, m), None)
    else
      Frame(q, None)
  }

  /** The whole number of pixels, at least zero, in a distance. */
  function Pixels(d: real): nat
  {
    if d <= 0.0 then 0 else d.Floor
  }

  /** The phases of an attempt, in the order it goes through them: over,
      past the trial, approaching the barrier. */
  function Phase(p: Particle): nat
  {
    if p.status != Traveling then 0 else if p.tunneling then 1 else 2
  }

  /** How far a travelling particle still is from the point where its phase ends. */
  function Distance(p: Particle, L: real, barrierX: real): nat
  {
    if !p.tunneling then Pixels(BarrierLeft(barrierX, L) - ParticleRadius - p.x)
    else if p.vx > 0.0 then Pixels(BarrierRight(barrierX, L) - p.x)
    else Pixels(p.x - StartX)
  }

  /** The particle at the end of the frames an attempt runs while the sliders
      stay at E and L: frames are requested only while it is traveling. */
  function Settle(p: Particle, E: real, L: real, roll: real, barrierX: real, m: Numerics): (r: Particle)
    requires Consistent(p)
    ensures Consistent(r) && r.status != Traveling
    ensures p.status != Traveling ==> r == p
    // An attempt already past the trial ends as the trial decided.
    ensures p.status == Traveling && p.tunneling ==> (r.status == Success <==> 0.0 < p.vx)
    // An attempt before the trial succeeds exactly when the roll is within the probability.
    ensures p.status == Traveling && !p.tunneling ==>
              (r.status == Success <==> roll <= Probability(E, L, m))
    ensures p.status == Traveling ==> (r.status == Success || r.status == Failed)
    ensures r.status == Success && p.status == Traveling ==> r.x >= BarrierRight(barrierX, L)
    decreases Phase(p), Distance(p, L, barrierX)
  {
    if p.status != Traveling then p
    else
      var next := Step(p, E, L, roll, barrierX, m).particle;
      if next.status != Traveling then next
      else Settle(next, E, L, roll, barrierX, m)
  }

  /** The script's global state: the particle, the animation frames requested
      and not yet run or cancelled (with the id of the latest request,
      animationFrameId), and whether the tunnel button is disabled. The canvas
      is fixed, and with it the barrier centre. */
  class Driver {
    const barrierX: real
    var x: real
    var vx: real
    var tunneling: bool
    var status: Status
    /** Ids of the requestAnimationFrame callbacks still waiting to run. */
    var pendingFrames: set<nat>
    /** The id of the latest request; None before the first click. */
    var animationFrameId: Option<nat>
    /** The id the next request receives; ids are never reused. */
    var nextFrameId: nat
    var buttonDisabled: bool
    /** The Math.random() draws taken so far, one per trial. */
    ghost var rolls: seq<real>

    function Current(): Particle
      reads this
    {
      Particle(x, vx, tunneling, status)
    }

    /** While an attempt is in flight exactly one frame is pending, the one
        animationFrameId names, and the button is disabled; otherwise no frame
        is pending and the button is enabled. */
    ghost predicate Valid()
      reads this
    {
      && Consistent(Current())
      && (forall id :: id in pendingFrames ==> id < nextFrameId)
      && (animationFrameId.Some? ==> animationFrameId.value < nextFrameId)
      && (status == Traveling ==>
            animationFrameId.Some? && pendingFrames == {animationFrameId.value})
      && (status != Traveling ==> pendingFrames == {})
      && buttonDisabled == (status == Traveling)
    }

    /** The state of the page once loaded: the particle ready at the start. */
    constructor (canvasWidth: real)
      ensures Valid()
      ensures barrierX == canvasWidth / 2.0
      ensures Current() == Particle(StartX, 0.0, false, Ready)
      ensures pendingFrames == {} && animationFrameId == None
      ensures !buttonDisabled && rolls == []
    {
      barrierX := canvasWidth / 2.0;
      x, vx, tunneling, status := StartX, 0.0, false, Ready;
      pendingFrames, animationFrameId, nextFrameId := {}, None, 0;
      buttonDisabled := false;
      rolls := [];
    }

    /** requestAnimationFrame(animate): a fresh id, now pending. */
    method RequestFrame()
      modifies this`pendingFrames, this`animationFrameId, this`nextFrameId
      ensures animationFrameId == Some(old(nextFrameId))
      ensures pendingFrames == old(pendingFrames) + {old(nextFrameId)}
      ensures nextFrameId == old(nextFrameId) + 1
    {
      pendingFrames := pendingFrames + {nextFrameId};
      animationFrameId := Some(nextFrameId);
      nextFrameId := nextFrameId + 1;
    }

    /** cancelAnimationFrame(animationFrameId): the named callback, if still
        pending, will not run; cancelling null or a finished frame does nothing. */
    method CancelFrame()
      modifies this`pendingFrames
      ensures pendingFrames ==
                if animationFrameId.Some? then old(pendingFrames) - {animationFrameId.value}
                else old(pendingFrames)
    {
      if animationFrameId.Some? {
        pendingFrames := pendingFrames - {animationFrameId.value};
      }
    }

    /** The tunnel button's click handler: cancel the pending frame, reset the
        particle, disable the button and request one new frame. */
    method Click()
      requires Valid()
      modifies this
      ensures Valid()
      ensures Current() == Reset()
      ensures buttonDisabled
      // Exactly one callback is pending, a new one: none of the prior attempt's survives.
      ensures animationFrameId == Some(old(nextFrameId))
      ensures pendingFrames == {old(nextFrameId)}
      ensures pendingFrames !! old(pendingFrames)
      ensures rolls == old(rolls)
    {
      CancelFrame();
      x, vx, tunneling, status := StartX, ParticleSpeed, false, Traveling;
      buttonDisabled := true;
      RequestFrame();
    }

    /** runTunnelSimulation: draw `roll` and set the particle moving. */
    method RunTunnelSimulation(E: real, L: real, roll: real, m: Numerics)
      modifies this`x, this`vx, this`tunneling, this`status, this`rolls
      ensures Current() == Launch(old(Current()), E, L, roll, m)
      ensures rolls == old(rolls) + [roll]
    {
      var T := Probability(E, L, m);
      rolls := rolls + [roll];
      tunneling := true;
      if roll <= T {
        vx := ParticleSpeed;
        status := Traveling;
      } else {
        vx := -ParticleSpeed / 2.0;
        status := Traveling;
      }
    }

    /** The frame callback: the pending frame runs (and stops being pending),
        and requests its successor only while the particle is traveling. */
    method Animate(E: real, L: real, roll: real, m: Numerics) returns (feedback: Option<Advice>)
      requires Valid() && pendingFrames != {}
      modifies this
      ensures Valid()
      ensures Frame(Current(), feedback) == Step(old(Current()), E, L, roll, barrierX, m)
      // The callback that ran is no longer pending; at most its successor is.
      ensures old(animationFrameId).Some? && old(animationFrameId).value !in pendingFrames
      ensures pendingFrames == if status == Traveling then {old(nextFrameId)} else {}
      ensures rolls == old(rolls) + if HandsOff(old(Current()), L, barrierX) then [roll] else []
    {
      pendingFrames := pendingFrames - {animationFrameId.value};
      if vx != 0.0 {
        x := x + vx;
      }
      var barrierLeft := BarrierLeft(barrierX, L);
      var barrierRight := BarrierRight(barrierX, L);
      feedback := None;
      if tunneling {
        if vx > 0.0 && x >= barrierRight {
          vx := 0.0;
          tunneling := false;
          status := Success;
          buttonDisabled := false;
          feedback := Some(Feedback(E, L, true, m));
        } else if vx < 0.0 && x <= StartX {
          vx := 0.0;
          tunneling := false;
          x := StartX;
          status := Failed;
          buttonDisabled := false;
          feedback := Some(Feedback(E, L, false, m));
        }
      } else if vx > 0.0 && x + ParticleRadius >= barrierLeft {
        vx := 0.0;
        RunTunnelSimulation(E, L, roll, m);
      }
      if status == Traveling {
        RequestFrame();
      }
    }

    /** One attempt while the sliders stay at E and L: the click, then the
        frames it requests until none is pending. */
    method RunAttempt(E: real, L: real, roll: real, m: Numerics) returns (feedback: Advice)
      requires Valid()
      modifies this
      ensures Valid()
      ensures Current() == Settle(Reset(), E, L, roll, barrierX, m)
      ensures status == (if roll <= Probability(E, L, m) then Success else Failed)
      ensures feedback == Feedback(E, L, status == Success, m)
      ensures status == Failed ==> x == StartX
      ensures status == Success ==> x >= BarrierRight(barrierX, L)
      ensures pendingFrames == {}
      // Exactly one random trial per attempt.
      ensures rolls == old(rolls) + [roll]
    {
      Click();
      ghost var start := rolls;
      var last: Option<Advice> := None;
      while pendingFrames != {}
        invariant Valid()
        invariant Settle(Current(), E, L, roll, barrierX, m) == Settle(Reset(), E, L, roll, barrierX, m)
        invariant status == Traveling ==> last == None
        invariant status != Traveling ==> last == Some(Feedback(E, L, status == Success, m))
        invariant rolls == start + (if tunneling || status != Traveling then [roll] else [])
        decreases Phase(Current()), Distance(Current(), L, barrierX)
      {
        last := Animate(E, L, roll, m);
      }
      feedback := last.value;
    }
  }
}
