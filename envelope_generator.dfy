/**
  The envelope follower: a four-state machine (Idle, Attack, Hold, Release)
  driven by a dB threshold comparison on the conditioned sidechain, producing
  an envelope in [0, 1] that is curve-shaped on output.

  `Step` is the per-sample transition as a function of the state;
  `EnvelopeGenerator.ProcessSample` updates the object's fields and is proved
  to perform exactly that transition.
 */
module Envelope {
  import opened DSPUtils

  datatype Phase = Idle | Attack | Hold | Release

  /** The mutable state of the follower: phase, raw (unshaped) envelope, hold countdown and the triggered flag. */
  datatype EnvState = EnvState(phase: Phase, envelope: real, holdCounter: int, triggered: bool)

  /** The state after reset. */
  const Initial: EnvState := EnvState(Idle, 0.0, 0, false)

  /** The attack snaps to full scale at this level. */
  const AttackDone: real := 0.999
  /** The release snaps to silence below this level. */
  const ReleaseDone: real := 0.001

  /**
    The state invariant: the envelope lies in [0, 1], the follower is
    triggered exactly when it is not idle, it is silent when idle and at
    full scale while holding.
   */
  ghost predicate Consistent(s: EnvState) {
    && 0.0 <= s.envelope <= 1.0
    && (s.triggered <==> s.phase != Idle)
    && (s.phase == Idle ==> s.envelope == 0.0)
    && (s.phase == Hold ==> s.envelope == 1.0)
  }

  ghost predicate UnitCoefficients(attackCoeff: real, releaseCoeff: real) {
    0.0 <= attackCoeff <= 1.0 && 0.0 <= releaseCoeff <= 1.0
  }

  /** The attack moves the envelope up towards 1 without passing it. */
  lemma AttackStaysInUnit(attackCoeff: real, e: real, next: real)
    requires 0.0 <= attackCoeff <= 1.0 && 0.0 <= e <= 1.0
    requires next == e + attackCoeff * (1.0 - e)
    ensures e <= next <= 1.0
  {
    ProductInUnit(attackCoeff, 1.0 - e);
  }

  /** The release moves the envelope down towards 0 without passing it. */
  lemma ReleaseStaysInUnit(releaseCoeff: real, e: real, next: real)
    requires 0.0 <= releaseCoeff <= 1.0 && 0.0 <= e <= 1.0
    requires next == e - releaseCoeff * e
    ensures 0.0 <= next <= e
  {
    ProductInUnit(releaseCoeff, e);
  }

  /** The trigger test: the rectified level in dB exceeds the threshold. */
  function ShouldTrigger(m: Math, level: real, threshold: real): (b: bool)
    ensures level == 0.0 ==> (b <==> threshold < SilenceDb)
  {
    LinearToDecibels(m, Abs(level)) > threshold
  }

  /** The trigger handling that runs before the per-state update. */
  function Retrigger(s: EnvState, shouldTrigger: bool, holdSamples: int): EnvState {
    if !shouldTrigger then s
    else
      var phase := if s.phase == Idle || s.phase == Release then Attack else s.phase;
      s.(triggered := true, holdCounter := holdSamples, phase := phase)
  }

  /** The per-state update. */
  function Advance(s: EnvState, shouldTrigger: bool, attackCoeff: real, releaseCoeff: real): EnvState {
    match s.phase
    case Idle => s.(envelope := 0.0)
    case Attack =>
      var e := s.envelope + attackCoeff * (1.0 - s.envelope);
      if e >= AttackDone then s.(envelope := 1.0, phase := Hold) else s.(envelope := e)
    case Hold =>
      var c := s.holdCounter - 1;
      s.(envelope := 1.0, holdCounter := c, phase := if c <= 0 && !shouldTrigger then Release else Hold)
    case Release =>
      var e := s.envelope - releaseCoeff * s.envelope;
      if e < ReleaseDone then s.(envelope := 0.0, phase := Idle, triggered := false) else s.(envelope := e)
  }

  /** One sample of the follower: trigger handling, then the per-state update. */
  function Step(s: EnvState, shouldTrigger: bool, attackCoeff: real, releaseCoeff: real, holdSamples: int): (r: EnvState)
    ensures r.phase == Idle ==> r.envelope == 0.0
    ensures r.phase == Hold ==> r.envelope == 1.0
  {
    Advance(Retrigger(s, shouldTrigger, holdSamples), shouldTrigger, attackCoeff, releaseCoeff)
  }

  /** With both coefficients in [0, 1] every sample keeps the state invariant. */
  lemma StepKeepsConsistent(s: EnvState, shouldTrigger: bool, attackCoeff: real, releaseCoeff: real, holdSamples: int)
    requires Consistent(s) && UnitCoefficients(attackCoeff, releaseCoeff)
    ensures Consistent(Step(s, shouldTrigger, attackCoeff, releaseCoeff, holdSamples))
  {
    var t := Retrigger(s, shouldTrigger, holdSamples);
    var r := Advance(t, shouldTrigger, attackCoeff, releaseCoeff);
    assert t.envelope == s.envelope;
    match t.phase
    case Attack =>
      var e := t.envelope + attackCoeff * (1.0 - t.envelope);
      AttackStaysInUnit(attackCoeff, t.envelope, e);
      assert r.envelope == 1.0 || r.envelope == e;
    case Release =>
      var e := t.envelope - releaseCoeff * t.envelope;
      ReleaseStaysInUnit(releaseCoeff, t.envelope, e);
      assert r.envelope == 0.0 || r.envelope == e;
    case _ =>
  }

  /**
    A trigger sets the flag and restarts the hold countdown, and an idle or
    releasing follower starts its attack before the per-state update; only
    a follower that is already holding also counts this sample down.
   */
  lemma TriggerStartsAttack(s: EnvState, attackCoeff: real, releaseCoeff: real, holdSamples: int)
    ensures var r := Step(s, true, attackCoeff, releaseCoeff, holdSamples);
      && r.triggered
      && (r.phase == Attack || r.phase == Hold)
      && r.holdCounter == (if s.phase == Hold then holdSamples - 1 else holdSamples)
      && (s.phase == Idle || s.phase == Release ==>
            var e := s.envelope + attackCoeff * (1.0 - s.envelope);
            if e >= AttackDone then r.phase == Hold && r.envelope == 1.0
            else r.phase == Attack && r.envelope == e)
  {
  }

  /** A trigger while holding keeps the follower holding, with the countdown restarted. */
  lemma HoldRetrigger(s: EnvState, attackCoeff: real, releaseCoeff: real, holdSamples: int)
    requires s.phase == Hold
    ensures Step(s, true, attackCoeff, releaseCoeff, holdSamples)
         == s.(envelope := 1.0, triggered := true, holdCounter := holdSamples - 1)
  {
  }

  /**
    In Attack the envelope never falls and moves to Hold, snapped to 1,
    exactly when it reaches 0.999.
   */
  lemma AttackRises(s: EnvState, shouldTrigger: bool, attackCoeff: real, releaseCoeff: real, holdSamples: int)
    requires 0.0 <= s.envelope <= 1.0 && 0.0 <= attackCoeff <= 1.0
    requires s.phase == Attack || (shouldTrigger && (s.phase == Idle || s.phase == Release))
    ensures var r := Step(s, shouldTrigger, attackCoeff, releaseCoeff, holdSamples);
      var e := s.envelope + attackCoeff * (1.0 - s.envelope);
      && s.envelope <= r.envelope <= 1.0
      && (r.phase == Hold <==> e >= AttackDone)
      && (r.phase == Hold ==> r.envelope == 1.0)
      && (r.phase != Hold ==> r.phase == Attack && r.envelope == e)
  {
    ProductInUnit(attackCoeff, 1.0 - s.envelope);
  }

  /**
    In Release (with no trigger) the envelope never rises and moves to Idle,
    snapped to 0 with the flag cleared, exactly when it falls below 0.001.
   */
  lemma ReleaseFalls(s: EnvState, attackCoeff: real, releaseCoeff: real, holdSamples: int)
    requires 0.0 <= s.envelope <= 1.0 && 0.0 <= releaseCoeff <= 1.0
    requires s.phase == Release
    ensures var r := Step(s, false, attackCoeff, releaseCoeff, holdSamples);
      var e := s.envelope - releaseCoeff * s.envelope;
      && 0.0 <= r.envelope <= s.envelope
      && (r.phase == Idle <==> e < ReleaseDone)
      && (r.phase == Idle ==> r.envelope == 0.0 && !r.triggered)
      && (r.phase != Idle ==> r.phase == Release && r.envelope == e)
  {
    ProductInUnit(releaseCoeff, s.envelope);
  }

  /**
    Hold is left only for Release, and only when the decremented countdown
    is at most 0 and this sample did not trigger.
   */
  lemma HoldExit(s: EnvState, shouldTrigger: bool, attackCoeff: real, releaseCoeff: real, holdSamples: int)
    requires s.phase == Hold
    ensures var r := Step(s, shouldTrigger, attackCoeff, releaseCoeff, holdSamples);
      && (r.phase == Hold || r.phase == Release)
      && (r.phase == Release <==> !shouldTrigger && s.holdCounter - 1 <= 0)
      && r.envelope == 1.0
  {
  }

  /** The follower after n samples below threshold. */
  function Quiet(s: EnvState, n: nat, attackCoeff: real, releaseCoeff: real, holdSamples: int): EnvState
    decreases n
  {
    if n == 0 then s else Step(Quiet(s, n - 1, attackCoeff, releaseCoeff, holdSamples), false, attackCoeff, releaseCoeff, holdSamples)
  }

  /** Below threshold, a holding follower stays at full scale while its countdown runs: n < holdCounter samples later it is still holding. */
  lemma {:induction false} HoldLasts(s: EnvState, n: nat, attackCoeff: real, releaseCoeff: real, holdSamples: int)
    requires s.phase == Hold && s.envelope == 1.0 && n < s.holdCounter
    ensures Quiet(s, n, attackCoeff, releaseCoeff, holdSamples) == s.(holdCounter := s.holdCounter - n)
  {
    if n > 0 {
      HoldLasts(s, n - 1, attackCoeff, releaseCoeff, holdSamples);
    }
  }

  /** ... and on the sample that runs the countdown out it enters Release, still at full scale. */
  lemma HoldEnds(s: EnvState, attackCoeff: real, releaseCoeff: real, holdSamples: int)
    requires s.phase == Hold && s.envelope == 1.0 && 1 <= s.holdCounter
    ensures Quiet(s, s.holdCounter, attackCoeff, releaseCoeff, holdSamples) == s.(holdCounter := 0, phase := Release)
  {
    HoldLasts(s, s.holdCounter - 1, attackCoeff, releaseCoeff, holdSamples);
  }

  /**
    Below threshold, a releasing (or idle) follower only decays: it stays in
    Release or Idle, its envelope never rises, and it is untriggered once idle.
   */
  lemma {:induction false} ReleaseDecays(s: EnvState, n: nat, attackCoeff: real, releaseCoeff: real, holdSamples: int)
    requires Consistent(s) && UnitCoefficients(attackCoeff, releaseCoeff)
    requires s.phase == Release || s.phase == Idle
    ensures var r := Quiet(s, n, attackCoeff, releaseCoeff, holdSamples);
      && Consistent(r)
      && (r.phase == Release || r.phase == Idle)
      && r.envelope <= s.envelope
  {
    if n > 0 {
      ReleaseDecays(s, n - 1, attackCoeff, releaseCoeff, holdSamples);
      var p := Quiet(s, n - 1, attackCoeff, releaseCoeff, holdSamples);
      if p.phase == Release {
        ReleaseFalls(p, attackCoeff, releaseCoeff, holdSamples);
      }
    }
  }

  /** Quiet samples can be counted from the front as well as from the back. */
  lemma {:induction false} QuietFirst(s: EnvState, n: nat, attackCoeff: real, releaseCoeff: real, holdSamples: int)
    requires 0 < n
    ensures Quiet(s, n, attackCoeff, releaseCoeff, holdSamples)
         == Quiet(Step(s, false, attackCoeff, releaseCoeff, holdSamples), n - 1, attackCoeff, releaseCoeff, holdSamples)
  {
    if 1 < n {
      QuietFirst(s, n - 1, attackCoeff, releaseCoeff, holdSamples);
    }
  }

  /** The follower after n samples above threshold. */
  function Loud(s: EnvState, n: nat, attackCoeff: real, releaseCoeff: real, holdSamples: int): EnvState
    decreases n
  {
    if n == 0 then s else Step(Loud(s, n - 1, attackCoeff, releaseCoeff, holdSamples), true, attackCoeff, releaseCoeff, holdSamples)
  }

  /** Loud samples can be counted from the front as well as from the back. */
  lemma {:induction false} LoudFirst(s: EnvState, n: nat, attackCoeff: real, releaseCoeff: real, holdSamples: int)
    requires 0 < n
    ensures Loud(s, n, attackCoeff, releaseCoeff, holdSamples)
         == Loud(Step(s, true, attackCoeff, releaseCoeff, holdSamples), n - 1, attackCoeff, releaseCoeff, holdSamples)
  {
    if 1 < n {
      LoudFirst(s, n - 1, attackCoeff, releaseCoeff, holdSamples);
    }
  }

  /**
    One step of a one-pole approach keeps a harmonic bound on the distance
    x still to go: if x·(1 + t) ≤ 1, then (x − c·x)·(1 + t + c) ≤ 1.
   */
  lemma HarmonicStep(x: real, c: real, t: real)
    requires 0.0 <= x && 0.0 <= c <= 1.0 && 0.0 <= t && x * (1.0 + t) <= 1.0
    ensures (x - c * x) * (1.0 + t + c) <= 1.0
  {
    NonNegativeProduct(c, t + c);
    NonNegativeProduct(x, c * (t + c));
    assert (x - c * x) * (1.0 + t + c) == x * (1.0 + t) - x * (c * (t + c));
  }

  /** A distance of at least `floor`, scaled by a factor above 1/`floor`, exceeds 1. */
  lemma AboveBound(x: real, floor: real, t: real)
    ensures 0.0 < floor && 1.0 < floor * (1.0 + t) && floor <= x ==> 1.0 < x * (1.0 + t)
  {
    if 0.0 < floor && 1.0 < floor * (1.0 + t) && floor <= x {
      assert 0.0 < 1.0 + t by {
        if 1.0 + t <= 0.0 {
          NonNegativeProduct(floor, -(1.0 + t));
        }
      }
      NonNegativeProduct(x - floor, 1.0 + t);
    }
  }

  /** n samples of a coefficient, counted one at a time. */
  lemma CountOneMore(n: nat, c: real)
    requires 0 < n
    ensures (n - 1) as real * c + c == n as real * c
  {
  }

  /**
    The release bound: a releasing follower is not yet below 0.001 and its
    envelope is at most 1 / (1 + t).
   */
  ghost predicate Releasing(s: EnvState, t: real) {
    s.phase == Release ==> ReleaseDone <= s.envelope && s.envelope * (1.0 + t) <= 1.0
  }

  /**
    One quiet sample keeps the release bound, raised by releaseCoeff, and a
    follower still releasing has t below 1000.
   */
  lemma ReleaseStep(s: EnvState, t: real, attackCoeff: real, releaseCoeff: real, holdSamples: int)
    requires Consistent(s) && UnitCoefficients(attackCoeff, releaseCoeff) && (s.phase == Release || s.phase == Idle)
    requires 0.0 <= t && Releasing(s, t)
    ensures var next := Step(s, false, attackCoeff, releaseCoeff, holdSamples);
      && Consistent(next) && (next.phase == Release || next.phase == Idle)
      && Releasing(next, t + releaseCoeff)
      && (s.phase == Release ==> 1000.0 > t)
  {
    StepKeepsConsistent(s, false, attackCoeff, releaseCoeff, holdSamples);
    AboveBound(s.envelope, ReleaseDone, t);
    if s.phase == Release {
      ReleaseFalls(s, attackCoeff, releaseCoeff, holdSamples);
      HarmonicStep(s.envelope, releaseCoeff, t);
    }
  }

  /**
    A quiet follower that is releasing within the bound for t, or idle, is
    idle once t + n·releaseCoeff reaches 1000.
   */
  lemma {:induction false} ReleaseEndsWithin(s: EnvState, n: nat, t: real, attackCoeff: real, releaseCoeff: real, holdSamples: int)
    requires Consistent(s) && UnitCoefficients(attackCoeff, releaseCoeff) && (s.phase == Release || s.phase == Idle)
    requires 0.0 <= t && 1000.0 <= t + n as real * releaseCoeff && Releasing(s, t)
    ensures var r := Quiet(s, n, attackCoeff, releaseCoeff, holdSamples);
      Consistent(r) && r.phase == Idle
    decreases n
  {
    ReleaseStep(s, t, attackCoeff, releaseCoeff, holdSamples);
    if 0 < n {
      QuietFirst(s, n, attackCoeff, releaseCoeff, holdSamples);
      CountOneMore(n, releaseCoeff);
      ReleaseEndsWithin(Step(s, false, attackCoeff, releaseCoeff, holdSamples), n - 1, t + releaseCoeff, attackCoeff, releaseCoeff, holdSamples);
    }
  }

  /**
    Below threshold a releasing follower does reach Idle: after any n
    samples with n·releaseCoeff ≥ 1000 it is idle, silent and untriggered.
   */
  lemma ReleaseReachesIdle(s: EnvState, n: nat, attackCoeff: real, releaseCoeff: real, holdSamples: int)
    requires Consistent(s) && UnitCoefficients(attackCoeff, releaseCoeff) && s.phase == Release
    requires 1000.0 <= n as real * releaseCoeff
    ensures var r := Quiet(s, n, attackCoeff, releaseCoeff, holdSamples);
      r.phase == Idle && r.envelope == 0.0 && !r.triggered
  {
    if ReleaseDone <= s.envelope {
      ReleaseEndsWithin(s, n, 0.0, attackCoeff, releaseCoeff, holdSamples);
    } else {
      // An envelope already below 0.001 goes idle on the first sample.
      var next := Step(s, false, attackCoeff, releaseCoeff, holdSamples);
      QuietFirst(s, n, attackCoeff, releaseCoeff, holdSamples);
      ReleaseFalls(s, attackCoeff, releaseCoeff, holdSamples);
      StepKeepsConsistent(s, false, attackCoeff, releaseCoeff, holdSamples);
      NonNegativeProduct((n - 1) as real, releaseCoeff);
      ReleaseEndsWithin(next, n - 1, 1000.0, attackCoeff, releaseCoeff, holdSamples);
    }
  }

  /**
    The attack bound: a follower that is not holding is short of 0.999 and
    its distance to full scale is at most 1 / (1 + t).
   */
  ghost predicate Attacking(s: EnvState, t: real) {
    s.phase != Hold ==> s.envelope < AttackDone && (1.0 - s.envelope) * (1.0 + t) <= 1.0
  }

  /**
    One loud sample keeps the attack bound, raised by attackCoeff, and a
    follower still short of Hold has t below 1000.
   */
  lemma AttackStep(s: EnvState, t: real, attackCoeff: real, releaseCoeff: real, holdSamples: int)
    requires Consistent(s) && UnitCoefficients(attackCoeff, releaseCoeff)
    requires 0.0 <= t && Attacking(s, t)
    ensures var next := Step(s, true, attackCoeff, releaseCoeff, holdSamples);
      && Consistent(next)
      && Attacking(next, t + attackCoeff)
      && (s.phase == Hold ==> next.phase == Hold)
      && (s.phase != Hold ==> 1000.0 > t)
  {
    StepKeepsConsistent(s, true, attackCoeff, releaseCoeff, holdSamples);
    AboveBound(1.0 - s.envelope, 1.0 - AttackDone, t);
    if s.phase != Hold {
      AttackRises(s, true, attackCoeff, releaseCoeff, holdSamples);
      var e := s.envelope + attackCoeff * (1.0 - s.envelope);
      assert 1.0 - e == (1.0 - s.envelope) - attackCoeff * (1.0 - s.envelope);
      HarmonicStep(1.0 - s.envelope, attackCoeff, t);
    }
  }

  /**
    A loud follower within the attack bound for t is holding once
    t + n·attackCoeff reaches 1000.
   */
  lemma {:induction false} AttackEndsWithin(s: EnvState, n: nat, t: real, attackCoeff: real, releaseCoeff: real, holdSamples: int)
    requires Consistent(s) && UnitCoefficients(attackCoeff, releaseCoeff)
    requires 0.0 <= t && 1000.0 <= t + n as real * attackCoeff && Attacking(s, t)
    ensures var r := Loud(s, n, attackCoeff, releaseCoeff, holdSamples);
      Consistent(r) && r.phase == Hold
    decreases n
  {
    AttackStep(s, t, attackCoeff, releaseCoeff, holdSamples);
    if 0 < n {
      var next := Step(s, true, attackCoeff, releaseCoeff, holdSamples);
      CountOneMore(n, attackCoeff);
      AttackEndsWithin(next, n - 1, t + attackCoeff, attackCoeff, releaseCoeff, holdSamples);
      LoudFirst(s, n, attackCoeff, releaseCoeff, holdSamples);
    }
  }

  /**
    Above threshold the follower does reach Hold: after any n samples with
    n·attackCoeff ≥ 1000 it is holding at full scale, triggered.
   */
  lemma AttackReachesHold(s: EnvState, n: nat, attackCoeff: real, releaseCoeff: real, holdSamples: int)
    requires Consistent(s) && UnitCoefficients(attackCoeff, releaseCoeff)
    requires 1000.0 <= n as real * attackCoeff
    ensures var r := Loud(s, n, attackCoeff, releaseCoeff, holdSamples);
      r.phase == Hold && r.envelope == 1.0 && r.triggered
  {
    if s.phase == Hold || s.envelope < AttackDone {
      AttackEndsWithin(s, n, 0.0, attackCoeff, releaseCoeff, holdSamples);
    } else {
      // An envelope already at 0.999 reaches Hold on the first sample.
      var next := Step(s, true, attackCoeff, releaseCoeff, holdSamples);
      LoudFirst(s, n, attackCoeff, releaseCoeff, holdSamples);
      AttackRises(s, true, attackCoeff, releaseCoeff, holdSamples);
      StepKeepsConsistent(s, true, attackCoeff, releaseCoeff, holdSamples);
      NonNegativeProduct((n - 1) as real, attackCoeff);
      AttackEndsWithin(next, n - 1, 1000.0, attackCoeff, releaseCoeff, holdSamples);
    }
  }

  /**
    The envelope follower object: parameters, derived coefficients and the
    state machine's fields, updated in place once per sample.
   */
  class EnvelopeGenerator {
    const math: Math

    // Parameters
    var threshold: real
    var attackMs: real
    var holdMs: real
    var releaseMs: real
    var curveShape: CurveShape

    // Derived coefficients
    var attackCoeff: real
    var releaseCoeff: real
    var holdSamples: int

    // State
    var currentState: Phase
    var currentEnvelope: real
    var holdCounter: int
    var triggered: bool

    // Runtime
    var currentSampleRate: real
    var currentBlockSize: int

    ghost predicate Valid()
      reads this`currentSampleRate, this`attackCoeff, this`releaseCoeff,
        this`currentState, this`currentEnvelope, this`holdCounter, this`triggered
    {
      && 0.0 < currentSampleRate
      && UnitCoefficients(attackCoeff, releaseCoeff)
      && Consistent(State())
    }

    ghost function State(): EnvState
      reads this`currentState, this`currentEnvelope, this`holdCounter, this`triggered
    {
      EnvState(currentState, currentEnvelope, holdCounter, triggered)
    }

    /** The derived coefficients are those of the current times and sample rate. */
    ghost predicate CoefficientsFresh()
      reads this`currentSampleRate, this`attackMs, this`releaseMs, this`holdMs,
        this`attackCoeff, this`releaseCoeff, this`holdSamples
    {
      && 0.0 < currentSampleRate
      && attackCoeff == CalculateCoefficient(math, currentSampleRate, attackMs)
      && releaseCoeff == CalculateCoefficient(math, currentSampleRate, releaseMs)
      && holdSamples == MsToSamples(holdMs, currentSampleRate)
    }

    constructor (math: Math)
      requires math.Sound()
      ensures Valid() && this.math == math
      ensures threshold == -20.0 && attackMs == 10.0 && holdMs == 50.0 && releaseMs == 200.0
      ensures curveShape == Linear
      ensures attackCoeff == 0.0 && releaseCoeff == 0.0 && holdSamples == 0
      ensures State() == Initial
      ensures currentSampleRate == 44100.0 && currentBlockSize == 512
    {
      this.math := math;
      threshold, attackMs, holdMs, releaseMs := -20.0, 10.0, 50.0, 200.0;
      curveShape := Linear;
      attackCoeff, releaseCoeff, holdSamples := 0.0, 0.0, 0;
      currentState, currentEnvelope, holdCounter, triggered := Idle, 0.0, 0, false;
      currentSampleRate, currentBlockSize := 44100.0, 512;
    }

    method Prepare(sampleRate: real, samplesPerBlock: int)
      requires Valid() && math.Sound() && 0.0 < sampleRate
      modifies this`currentSampleRate, this`currentBlockSize, this`attackCoeff, this`releaseCoeff, this`holdSamples,
        this`currentEnvelope, this`holdCounter, this`currentState, this`triggered
      ensures Valid()
      ensures currentSampleRate == sampleRate && currentBlockSize == samplesPerBlock
      ensures CoefficientsFresh()
      ensures State() == Initial
    {
      currentSampleRate := sampleRate;
      currentBlockSize := samplesPerBlock;
      UpdateCoefficients();
      Reset();
    }

    method Reset()
      requires Valid()
      modifies this`currentEnvelope, this`holdCounter, this`currentState, this`triggered
      ensures Valid() && State() == Initial
    {
      currentEnvelope := 0.0;
      holdCounter := 0;
      currentState := Idle;
      triggered := false;
    }

    /** Advance the state machine by one sample and return the curve-shaped envelope. */
    method ProcessSample(triggerLevel: real) returns (shaped: real)
      requires Valid()
      modifies this`currentState, this`currentEnvelope, this`holdCounter, this`triggered
      ensures Valid()
      ensures State() == Step(old(State()), ShouldTrigger(math, triggerLevel, threshold), attackCoeff, releaseCoeff, holdSamples)
      ensures shaped == ApplyCurveShape(math, currentEnvelope, curveShape)
    {
      var inputDb := LinearToDecibels(math, Abs(triggerLevel));
      var shouldTrigger := inputDb > threshold;
      HandleTrigger(shouldTrigger);
      RunStateMachine(shouldTrigger);
      StepKeepsConsistent(old(State()), shouldTrigger, attackCoeff, releaseCoeff, holdSamples);
      shaped := ApplyCurveShape(math, currentEnvelope, curveShape);
    }

    /** The first half of a sample: a trigger sets the flag, restarts the hold countdown and starts an attack. */
    method HandleTrigger(shouldTrigger: bool)
      modifies this`currentState, this`holdCounter, this`triggered
      ensures State() == Retrigger(old(State()), shouldTrigger, holdSamples)
    {
      if shouldTrigger {
        triggered := true;
        holdCounter := holdSamples;
        if currentState == Idle || currentState == Release {
          currentState := Attack;
        } else if currentState == Hold {
          // Re-trigger hold
          holdCounter := holdSamples;
        }
      }
    }

    /** The second half of a sample: the per-state update of the envelope. */
    method RunStateMachine(shouldTrigger: bool)
      modifies this`currentState, this`currentEnvelope, this`holdCounter, this`triggered
      ensures State() == Advance(old(State()), shouldTrigger, attackCoeff, releaseCoeff)
    {
      match currentState {
        case Idle =>
          currentEnvelope := 0.0;
        case Attack =>
          currentEnvelope := currentEnvelope + attackCoeff * (1.0 - currentEnvelope);
          if currentEnvelope >= AttackDone {
            currentEnvelope := 1.0;
            currentState := Hold;
          }
        case Hold =>
          currentEnvelope := 1.0;
          holdCounter := holdCounter - 1;
          if holdCounter <= 0 && !shouldTrigger {
            currentState := Release;
          }
        case Release =>
          currentEnvelope := currentEnvelope - releaseCoeff * currentEnvelope;
          if currentEnvelope < ReleaseDone {
            currentEnvelope := 0.0;
            currentState := Idle;
            triggered := false;
          }
      }
    }

    method SetThreshold(thresholdDb: real)
      modifies this`threshold
      ensures threshold == thresholdDb
    {
      threshold := thresholdDb;
    }

    method SetAttack(ms: real)
      requires Valid() && math.Sound()
      modifies this`attackMs, this`attackCoeff, this`releaseCoeff, this`holdSamples
      ensures Valid() && attackMs == ms
      ensures CoefficientsFresh()
    {
      attackMs := ms;
      UpdateCoefficients();
    }

    method SetHold(ms: real)
      requires Valid() && math.Sound()
      modifies this`holdMs, this`attackCoeff, this`releaseCoeff, this`holdSamples
      ensures Valid() && holdMs == ms
      ensures CoefficientsFresh()
    {
      holdMs := ms;
      UpdateCoefficients();
    }

    method SetRelease(ms: real)
      requires Valid() && math.Sound()
      modifies this`releaseMs, this`attackCoeff, this`releaseCoeff, this`holdSamples
      ensures Valid() && releaseMs == ms
      ensures CoefficientsFresh()
    {
      releaseMs := ms;
      UpdateCoefficients();
    }

    method SetCurveShape(shape: CurveShape)
      modifies this`curveShape
      ensures curveShape == shape
    {
      curveShape := shape;
    }

    /** Recompute the one-pole coefficients and the hold length in samples; both coefficients stay in [0, 1]. */
    method UpdateCoefficients()
      requires math.Sound() && 0.0 < currentSampleRate
      modifies this`attackCoeff, this`releaseCoeff, this`holdSamples
      ensures UnitCoefficients(attackCoeff, releaseCoeff)
      ensures CoefficientsFresh()
    {
      attackCoeff := CalculateCoefficient(math, currentSampleRate, attackMs);
      releaseCoeff := CalculateCoefficient(math, currentSampleRate, releaseMs);
      holdSamples := MsToSamples(holdMs, currentSampleRate);
      CoefficientInUnit(math, currentSampleRate, attackMs);
      CoefficientInUnit(math, currentSampleRate, releaseMs);
    }

    /** The raw envelope, always in [0, 1]. */
    function GetCurrentEnvelope(): (e: real)
      reads this
      requires Valid()
      ensures 0.0 <= e <= 1.0
      ensures currentState == Idle ==> e == 0.0
      ensures currentState == Hold ==> e == 1.0
    {
      currentEnvelope
    }

    /** The triggered flag, which is set exactly when the follower is not idle. */
    function IsTriggered(): (t: bool)
      reads this
      requires Valid()
      ensures t <==> currentState != Idle
    {
      triggered
    }
  }
}
