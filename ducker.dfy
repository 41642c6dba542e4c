/**
  The look-ahead ducker: per sample, the sidechain is summed to mono,
  filtered and followed by the envelope generator; the envelope sets a gain
  between 1 and a floor; the gain is latched per channel at zero crossings;
  the main signal goes through a circular delay line; the delayed (dry)
  signal is blended with its ducked (wet) copy; and the peak gain reduction
  of the block is metered.

  The pure part states one sample (`Tick`) and one block (`Run`) as
  functions of the parameters and the state; the `Ducker` class does the
  same work in place and is proved to agree with them.
 */
module Ducking {
  import opened DSPUtils
  import opened Envelope
  import opened Sidechain

  /** The longest look-ahead the delay lines are sized for, as a fraction of a second. */
  const MaxDelaySeconds: real := 0.02

  /** A main sample whose magnitude is below this counts as a zero crossing. */
  const ZeroEpsilon: real := 0.001

  // ---------------------------------------------------------------------
  // Gain

  /** The ducked level: the duck amount, but never below the range floor (both as gains). */
  function DuckedGain(m: Math, duckAmountDb: real, rangeDb: real): (g: real)
    ensures DecibelsToLinear(m, duckAmountDb) <= g && DecibelsToLinear(m, rangeDb) <= g
    ensures g == DecibelsToLinear(m, duckAmountDb) || g == DecibelsToLinear(m, rangeDb)
  {
    Max(DecibelsToLinear(m, duckAmountDb), DecibelsToLinear(m, rangeDb))
  }

  /** The ducked level is a positive gain, and no gain above 1 for a non-positive duck amount and range. */
  lemma DuckedGainBounds(m: Math, duckAmountDb: real, rangeDb: real)
    requires m.Sound()
    ensures 0.0 < DuckedGain(m, duckAmountDb, rangeDb)
    ensures duckAmountDb <= 0.0 && rangeDb <= 0.0 ==> DuckedGain(m, duckAmountDb, rangeDb) <= 1.0
  {
    DecibelsToLinearBounds(m, duckAmountDb);
    DecibelsToLinearBounds(m, rangeDb);
  }

  /**
    The gain for an envelope value: 1 when the envelope is 0, the ducked
    level when it is 1, and in between otherwise.
   */
  function TargetGain(envelope: real, duckedGain: real): (g: real)
    ensures envelope == 0.0 ==> g == 1.0
    ensures envelope == 1.0 ==> g == duckedGain
    ensures 0.0 <= envelope <= 1.0 && 0.0 <= duckedGain <= 1.0 ==> duckedGain <= g <= 1.0
  {
    var g := 1.0 - envelope * (1.0 - duckedGain);
    assert 0.0 <= envelope <= 1.0 && 0.0 <= duckedGain <= 1.0 ==> duckedGain <= g <= 1.0 by {
      if 0.0 <= envelope <= 1.0 && 0.0 <= duckedGain <= 1.0 {
        GainBetween(envelope, duckedGain, g);
      }
    }
    g
  }

  lemma GainBetween(envelope: real, duckedGain: real, g: real)
    requires 0.0 <= envelope <= 1.0 && 0.0 <= duckedGain <= 1.0
    requires g == 1.0 - envelope * (1.0 - duckedGain)
    ensures duckedGain <= g <= 1.0
  {
    var k := 1.0 - duckedGain;
    ProductInUnit(envelope, k);
    assert 0.0 <= envelope * k <= k;
  }

  // ---------------------------------------------------------------------
  // Mixing

  /** The sidechain's two channels summed to mono. */
  function SumToMono(left: real, right: real): (r: real)
    ensures left <= right ==> left <= r <= right
    ensures right <= left ==> right <= r <= left
    ensures left == right ==> r == left
  {
    (left + right) * 0.5
  }

  /** The wet share of the output for a mix percentage. */
  function WetMix(mixPercent: real): (w: real)
    ensures mixPercent == 0.0 ==> w == 0.0
    ensures mixPercent == 100.0 ==> w == 1.0
    ensures 0.0 <= mixPercent <= 100.0 ==> 0.0 <= w <= 1.0
  {
    mixPercent / 100.0
  }

  /** Parallel ducking: the dry sample weighted by 1 - wetMix plus its ducked copy weighted by wetMix. */
  function Mixed(dry: real, pendingGain: real, wetMix: real): (r: real)
    ensures wetMix == 0.0 ==> r == dry
    ensures wetMix == 1.0 ==> r == dry * pendingGain
  {
    dry * (1.0 - wetMix) + (dry * pendingGain) * wetMix
  }

  /**
    The mix law: the blend is the dry sample under the one gain
    1 - wetMix·(1 - pendingGain), which lies between the pending gain and 1,
    so the output never exceeds the dry sample when the mix and the gain
    lie in [0, 1].
   */
  lemma MixIsBlendedGain(dry: real, pendingGain: real, wetMix: real)
    ensures Mixed(dry, pendingGain, wetMix) == dry * (1.0 - wetMix * (1.0 - pendingGain))
    ensures 0.0 <= wetMix <= 1.0 && 0.0 <= pendingGain <= 1.0 ==>
      pendingGain <= 1.0 - wetMix * (1.0 - pendingGain) <= 1.0 && Abs(Mixed(dry, pendingGain, wetMix)) <= Abs(dry)
  {
    var blended := 1.0 - wetMix * (1.0 - pendingGain);
    assert dry * (1.0 - wetMix) + (dry * pendingGain) * wetMix == dry * blended;
    if 0.0 <= wetMix <= 1.0 && 0.0 <= pendingGain <= 1.0 {
      GainBetween(wetMix, pendingGain, blended);
      ScaledMagnitude(dry, blended);
    }
  }

  /** The blend as `process` writes it, with the dry share computed once per block, is the mix law. */
  lemma BlendIsMixed(dry: real, pendingGain: real, wetMix: real, dryMix: real, wet: real, out: real)
    requires dryMix == 1.0 - wetMix && wet == dry * pendingGain && out == dry * dryMix + wet * wetMix
    ensures out == Mixed(dry, pendingGain, wetMix)
  {
  }

  lemma ScaledMagnitude(x: real, k: real)
    requires 0.0 <= k <= 1.0
    ensures Abs(x * k) <= Abs(x)
  {
    var a := Abs(x);
    ScaleMonotone(a, k, 1.0);
    NonNegativeProduct(a, k);
    AbsOfProduct(x, k, a * k);
  }

  /** With a non-negative factor, the magnitude of a product is the product of the magnitudes. */
  lemma AbsOfProduct(x: real, k: real, ak: real)
    requires 0.0 <= k && ak == Abs(x) * k
    ensures Abs(x * k) == ak
  {
    if x < 0.0 {
      assert ak == -(x * k);
      NonNegativeProduct(-x, k);
    } else {
      NonNegativeProduct(x, k);
    }
  }

  // ---------------------------------------------------------------------
  // Zero-crossing gate

  /** One channel's zero-crossing state: the previous sample and the gain latched for it. */
  datatype Gate = Gate(last: real, pending: real)

  /** `(last >= 0 && current < 0) || (last <= 0 && current > 0)`. */
  predicate ZeroCrossed(last: real, current: real) {
    (last >= 0.0 && current < 0.0) || (last <= 0.0 && current > 0.0)
  }

  /** A zero crossing is a non-zero sample whose sign differs from the previous sample's, or follows a zero. */
  lemma ZeroCrossedIsSignChange(last: real, current: real)
    ensures ZeroCrossed(last, current) <==> current != 0.0 && last * current <= 0.0
  {
    SignOfProduct(last, current);
  }

  lemma SignOfProduct(a: real, b: real)
    ensures 0.0 < a && 0.0 < b ==> 0.0 < a * b
    ensures a < 0.0 && b < 0.0 ==> 0.0 < a * b
    ensures 0.0 <= a && b <= 0.0 ==> a * b <= 0.0
    ensures a <= 0.0 && 0.0 <= b ==> a * b <= 0.0
  {
    if 0.0 < a && 0.0 < b { PositiveProduct(a, b); }
    if a < 0.0 && b < 0.0 { PositiveProduct(-a, -b); }
    if 0.0 <= a && b <= 0.0 { NonNegativeProduct(a, -b); }
    if a <= 0.0 && 0.0 <= b { NonNegativeProduct(-a, b); }
  }

  /** The gate with zero-crossing on: remember the current sample, and take the new gain at a crossing or near zero. */
  function Latch(g: Gate, current: real, gain: real): (r: Gate)
    ensures r.last == current
    ensures r.pending == gain || r.pending == g.pending
  {
    if ZeroCrossed(g.last, current) || Abs(current) < ZeroEpsilon then Gate(current, gain) else Gate(current, g.pending)
  }

  /**
    The gate takes the new gain exactly when the signal changes sign (or
    leaves or touches zero) or is within ZeroEpsilon of zero; otherwise it
    keeps its gain.
   */
  lemma LatchOnlyNearZero(g: Gate, current: real, gain: real)
    ensures g.last * current <= 0.0 || Abs(current) < ZeroEpsilon ==> Latch(g, current, gain).pending == gain
    ensures 0.0 < g.last * current && ZeroEpsilon <= Abs(current) ==> Latch(g, current, gain).pending == g.pending
  {
    ZeroCrossedIsSignChange(g.last, current);
  }

  // ---------------------------------------------------------------------
  // Delay line

  /** The size of the delay lines for a sample rate: `static_cast<int>(0.02 * sampleRate) + 1`. */
  function MaxDelaySamples(sampleRate: real): (n: int)
    ensures 0.0 <= sampleRate ==> 1 <= n
  {
    Trunc(MaxDelaySeconds * sampleRate) + 1
  }

  /** A look-ahead of at most 20 ms always fits the delay lines sized for the same rate. */
  lemma LookAheadFits(lookAheadMs: real, sampleRate: real)
    requires 0.0 <= lookAheadMs <= 20.0 && 0.0 <= sampleRate
    ensures 0 <= MsToSamples(lookAheadMs, sampleRate) < MaxDelaySamples(sampleRate)
  {
    ScaleMonotone(sampleRate, lookAheadMs * 0.001, MaxDelaySeconds);
    assert lookAheadMs * 0.001 * sampleRate <= MaxDelaySeconds * sampleRate;
    TruncMonotone(lookAheadMs * 0.001 * sampleRate, MaxDelaySeconds * sampleRate);
  }

  /** The slot `delay` places behind `writePos` on a ring of `size` slots. */
  function ReadPosition(writePos: int, delay: int, size: int): (r: int)
    requires 0 <= writePos < size && 0 <= delay <= size
    ensures 0 <= r < size
    ensures r + delay == writePos || r + delay == writePos + size
  {
    var readPos := writePos - delay;
    if readPos < 0 then readPos + size else readPos
  }

  /** The write position after one sample: `(writePos + 1) % size`, one slot on around the ring. */
  function NextPosition(writePos: int, size: int): (r: int)
    requires 0 <= writePos < size
    ensures 0 <= r < size
    ensures r == if writePos + 1 < size then writePos + 1 else 0
  {
    assert writePos + 1 < size ==> (writePos + 1) / size == 0;
    assert writePos + 1 == size ==> (writePos + 1) / size == 1;
    (writePos + 1) % size
  }

  /** n samples of silence. */
  function Zeros(n: nat): (z: seq<real>)
    ensures |z| == n && forall i :: 0 <= i < n ==> z[i] == 0.0
  {
    if n == 0 then [] else Zeros(n - 1) + [0.0]
  }

  /** `std::vector::resize(n, 0)`: keep the first n samples, pad with zeros. */
  function Resize(line: seq<real>, n: nat): (r: seq<real>)
    ensures |r| == n
    ensures forall i :: 0 <= i < n && i < |line| ==> r[i] == line[i]
    ensures forall i :: |line| <= i < n ==> r[i] == 0.0
  {
    if n <= |line| then line[..n] else line + Zeros(n - |line|)
  }

  /** The main sample written `k` samples ago by a line that has seen `history` since it was cleared; silence before that. */
  function Delayed(history: seq<real>, k: nat): (r: real)
    ensures k == 0 && 0 < |history| ==> r == history[|history| - 1]
    ensures |history| <= k ==> r == 0.0
  {
    if k < |history| then history[|history| - 1 - k] else 0.0
  }

  /** The ring holds the last |line| samples of `history`, newest just behind the write position. */
  ghost predicate Holds(line: seq<real>, writePos: int, history: seq<real>) {
    && 0 <= writePos < |line|
    && forall k :: 0 <= k < |line| ==> line[ReadPosition(writePos, k + 1, |line|)] == Delayed(history, k)
  }

  /** A cleared line holds the empty history. */
  lemma ClearedHolds(n: nat)
    requires 0 < n
    ensures Holds(Zeros(n), 0, [])
  {
  }

  /** One slot on, `k + 1` behind is where `k` behind was. */
  lemma NextReadsBack(writePos: int, k: int, size: int)
    requires 0 <= writePos < size && 0 <= k < size
    ensures ReadPosition(NextPosition(writePos, size), k + 1, size) == ReadPosition(writePos, k, size)
  {
  }

  /**
    The delay property: after writing `x` at the write position, the slot
    `delay` places behind it holds the sample written `delay` samples
    before `x` (so `x` itself for no delay), or silence before the clear.
   */
  lemma ReadAfterWrite(line: seq<real>, writePos: int, history: seq<real>, x: real, delay: int)
    requires Holds(line, writePos, history) && 0 <= delay < |line|
    ensures line[writePos := x][ReadPosition(writePos, delay, |line|)] == Delayed(history + [x], delay)
  {
    if delay != 0 {
      var k := delay - 1;
      assert line[ReadPosition(writePos, k + 1, |line|)] == Delayed(history, k);
      if k < |history| {
        assert (history + [x])[|history| - delay] == history[|history| - 1 - k];
      }
    }
  }

  /** Writing a sample and stepping the write position keeps the ring in step with the history. */
  lemma WriteKeepsHolds(line: seq<real>, writePos: int, history: seq<real>, x: real)
    requires Holds(line, writePos, history)
    ensures Holds(line[writePos := x], NextPosition(writePos, |line|), history + [x])
  {
    var n := |line|;
    forall k | 0 <= k < n
      ensures line[writePos := x][ReadPosition(NextPosition(writePos, n), k + 1, n)] == Delayed(history + [x], k)
    {
      NextReadsBack(writePos, k, n);
      ReadAfterWrite(line, writePos, history, x, k);
    }
  }

  // ---------------------------------------------------------------------
  // Metering

  /** The block's peak gain reduction in dB, folded sample by sample from 0 with `max`. */
  function PeakReduction(m: Math, gains: seq<real>): (r: real)
    ensures 0.0 <= r
  {
    if |gains| == 0 then 0.0
    else Max(PeakReduction(m, gains[..|gains| - 1]), -LinearToDecibels(m, gains[|gains| - 1]))
  }

  /** The fold is the largest `-linearToDecibels(gain)` of the block, or 0 when no sample reduces the gain. */
  lemma {:induction false} PeakReductionIsPeak(m: Math, gains: seq<real>)
    ensures forall i :: 0 <= i < |gains| ==> -LinearToDecibels(m, gains[i]) <= PeakReduction(m, gains)
    ensures PeakReduction(m, gains) == 0.0
      || exists i :: 0 <= i < |gains| && PeakReduction(m, gains) == -LinearToDecibels(m, gains[i])
  {
    if |gains| != 0 {
      var prefix, last := gains[..|gains| - 1], gains[|gains| - 1];
      PeakReductionIsPeak(m, prefix);
      assert forall i :: 0 <= i < |prefix| ==> prefix[i] == gains[i];
      if PeakReduction(m, gains) != 0.0 && PeakReduction(m, gains) != -LinearToDecibels(m, last) {
        var j :| 0 <= j < |prefix| && PeakReduction(m, prefix) == -LinearToDecibels(m, prefix[j]);
        assert PeakReduction(m, gains) == -LinearToDecibels(m, gains[j]);
      }
    }
  }

  lemma PeakReductionAppend(m: Math, gains: seq<real>, gain: real)
    ensures PeakReduction(m, gains + [gain]) == Max(PeakReduction(m, gains), -LinearToDecibels(m, gain))
  {
    assert (gains + [gain])[..|gains|] == gains;
  }

  // ---------------------------------------------------------------------
  // One sample and one block

  /** Everything `process` reads but does not change: the parameters and the sub-modules' settings. */
  datatype Params = Params(
    filter: FilterSettings,
    threshold: real, attackCoeff: real, releaseCoeff: real, holdSamples: int, shape: CurveShape,
    duckAmount: real, range: real, mix: real,
    listen: bool, zeroCrossing: bool, lookAhead: int)

  /** Everything `process` changes, besides the buffer: the sidechain's left histories and level, the envelope, the gates, the last gain and the delay lines. */
  datatype DuckState = DuckState(
    sidechain: ChannelState, level: real, envelope: EnvState,
    gateL: Gate, gateR: Gate, targetGain: real,
    lineL: seq<real>, lineR: seq<real>, writePos: int)

  /** The state `reset` leaves, for delay lines of n slots. */
  function Cleared(n: nat): DuckState {
    DuckState(SilentChannel, 0.0, Initial, Gate(0.0, 1.0), Gate(0.0, 1.0), 1.0, Zeros(n), Zeros(n), 0)
  }

  /** The delay lines have the same non-zero size, and the write position and the look-ahead fit them. */
  predicate Ready(p: Params, s: DuckState) {
    && 0 < |s.lineL| && |s.lineR| == |s.lineL|
    && 0 <= s.writePos < |s.lineL|
    && 0 <= p.lookAhead < |s.lineL|
  }

  /** The sidechain stage of one sample: filtered sidechain, new filter and envelope state, and the gain. */
  datatype Detection = Detection(filtered: real, sidechain: ChannelState, envelope: EnvState, gain: real)

  function Detect(m: Math, p: Params, sidechain: ChannelState, envelope: EnvState, scInput: real): Detection {
    var f := FilterStep(p.filter, sidechain, scInput);
    var e := Step(envelope, ShouldTrigger(m, f.out, p.threshold), p.attackCoeff, p.releaseCoeff, p.holdSamples);
    Detection(f.out, f.state, e, TargetGain(ApplyCurveShape(m, e.envelope, p.shape), DuckedGain(m, p.duckAmount, p.range)))
  }

  /**
    The gain floor: with a consistent envelope, coefficients in [0, 1] and
    non-positive duck amount and range, the gain lies between the ducked
    level and 1, and the envelope stays consistent.
   */
  lemma DetectGainFloor(m: Math, p: Params, sidechain: ChannelState, envelope: EnvState, scInput: real)
    requires m.Sound() && Consistent(envelope) && UnitCoefficients(p.attackCoeff, p.releaseCoeff)
    requires p.duckAmount <= 0.0 && p.range <= 0.0
    ensures var d := Detect(m, p, sidechain, envelope, scInput);
      Consistent(d.envelope) && DuckedGain(m, p.duckAmount, p.range) <= d.gain <= 1.0
  {
    var f := FilterStep(p.filter, sidechain, scInput);
    var e := Step(envelope, ShouldTrigger(m, f.out, p.threshold), p.attackCoeff, p.releaseCoeff, p.holdSamples);
    StepKeepsConsistent(envelope, ShouldTrigger(m, f.out, p.threshold), p.attackCoeff, p.releaseCoeff, p.holdSamples);
    CurveShapeInUnit(m, e.envelope, p.shape);
    DuckedGainBounds(m, p.duckAmount, p.range);
  }

  /** What one sample produces: the two outputs, the two dry samples, the gain and the new state. */
  datatype Tock = Tock(outL: real, outR: real, dryL: real, dryR: real, gain: real, state: DuckState)

  /**
    The main-signal stage of one sample, given its sidechain stage `d`: the
    gates, the delay lines, the mix and the listen override. A mono main
    buffer (`stereo` false) leaves the right delay line alone, uses the
    left dry sample for the right, and with zero-crossing on leaves the
    right gate alone.
   */
  function MainPath(p: Params, s: DuckState, d: Detection, stereo: bool, xL: real, xR: real): (t: Tock)
    requires Ready(p, s)
    ensures Ready(p, t.state) && |t.state.lineL| == |s.lineL|
  {
    var gateL := if p.zeroCrossing then Latch(s.gateL, xL, d.gain) else s.gateL.(pending := d.gain);
    var gateR := if !p.zeroCrossing then s.gateR.(pending := d.gain) else if stereo then Latch(s.gateR, xR, d.gain) else s.gateR;
    var lineL := s.lineL[s.writePos := xL];
    var lineR := if stereo then s.lineR[s.writePos := xR] else s.lineR;
    var readPos := ReadPosition(s.writePos, p.lookAhead, |s.lineL|);
    var dryL := lineL[readPos];
    var dryR := if stereo then lineR[readPos] else dryL;
    var wetMix := WetMix(p.mix);
    var outL := if p.listen then d.filtered else Mixed(dryL, gateL.pending, wetMix);
    var outR := if p.listen then d.filtered else Mixed(dryR, gateR.pending, wetMix);
    Tock(outL, outR, dryL, dryR, d.gain,
      DuckState(d.sidechain, Abs(d.filtered), d.envelope, gateL, gateR, d.gain, lineL, lineR, NextPosition(s.writePos, |s.lineL|)))
  }

  /** One sample of `process`: the sidechain stage, then the main-signal stage. */
  function Tick(m: Math, p: Params, s: DuckState, stereo: bool, xL: real, xR: real, scInput: real): (t: Tock)
    requires Ready(p, s)
    ensures Ready(p, t.state) && |t.state.lineL| == |s.lineL|
  {
    MainPath(p, s, Detect(m, p, s.sidechain, s.envelope, scInput), stereo, xL, xR)
  }

  /** The buffers one call of `process` sees; a mono buffer repeats its one channel. */
  datatype Inputs = Inputs(mainL: seq<real>, mainR: seq<real>, stereo: bool, scL: seq<real>, scR: seq<real>, scStereo: bool)

  predicate Fits(input: Inputs, n: nat) {
    n <= |input.mainL| && n <= |input.mainR| && n <= |input.scL| && n <= |input.scR|
  }

  function SidechainSample(input: Inputs, i: nat): real
    requires i < |input.scL| && i < |input.scR|
  {
    if input.scStereo then SumToMono(input.scL[i], input.scR[i]) else input.scL[i]
  }

  /** The sidechain stage over a block: one detection per sample, and the sidechain and envelope state after the last. */
  datatype Detections = Detections(each: seq<Detection>, sidechain: ChannelState, envelope: EnvState)

  /** The sidechain stage of the first n samples; it reads the sidechain buffer alone, never the main one. */
  function DetectAll(m: Math, p: Params, sidechain: ChannelState, envelope: EnvState, input: Inputs, n: nat): (r: Detections)
    requires n <= |input.scL| && n <= |input.scR|
    ensures |r.each| == n
    ensures 0 < n ==> r.sidechain == r.each[n - 1].sidechain && r.envelope == r.each[n - 1].envelope
  {
    if n == 0 then Detections([], sidechain, envelope)
    else
      var r := DetectAll(m, p, sidechain, envelope, input, n - 1);
      var d := Detect(m, p, r.sidechain, r.envelope, SidechainSample(input, n - 1));
      Detections(r.each + [d], d.sidechain, d.envelope)
  }

  /** What a block produces: per sample the outputs, dry samples and gains, and the final state. */
  datatype Block = Block(outL: seq<real>, outR: seq<real>, dryL: seq<real>, dryR: seq<real>, gains: seq<real>, state: DuckState)

  /** The main-signal stage of the first n samples, given each sample's sidechain stage. */
  function MainRun(p: Params, s: DuckState, each: seq<Detection>, input: Inputs, n: nat): (b: Block)
    requires Ready(p, s) && Fits(input, n) && n <= |each|
    ensures Ready(p, b.state) && |b.state.lineL| == |s.lineL|
    ensures |b.outL| == n && |b.outR| == n && |b.dryL| == n && |b.dryR| == n && |b.gains| == n
    ensures 0 < n ==> b.state.sidechain == each[n - 1].sidechain && b.state.envelope == each[n - 1].envelope
  {
    if n == 0 then Block([], [], [], [], [], s)
    else
      var b := MainRun(p, s, each, input, n - 1);
      var t := MainPath(p, b.state, each[n - 1], input.stereo, input.mainL[n - 1], input.mainR[n - 1]);
      Block(b.outL + [t.outL], b.outR + [t.outR], b.dryL + [t.dryL], b.dryR + [t.dryR], b.gains + [t.gain], t.state)
  }

  /** The first n samples of `process`: the sidechain stage over the block, then the main-signal stage. */
  function Run(m: Math, p: Params, s: DuckState, input: Inputs, n: nat): (b: Block)
    requires Ready(p, s) && Fits(input, n)
    ensures Ready(p, b.state) && |b.state.lineL| == |s.lineL|
    ensures |b.outL| == n && |b.outR| == n && |b.dryL| == n && |b.dryR| == n && |b.gains| == n
  {
    MainRun(p, s, DetectAll(m, p, s.sidechain, s.envelope, input, n).each, input, n)
  }

  /** The main-signal stage only looks at the detections of the samples it has run. */
  lemma {:induction false} MainRunPrefix(p: Params, s: DuckState, each: seq<Detection>, other: seq<Detection>, input: Inputs, n: nat)
    requires Ready(p, s) && Fits(input, n) && n <= |each| && n <= |other| && each[..n] == other[..n]
    ensures MainRun(p, s, each, input, n) == MainRun(p, s, other, input, n)
  {
    if n != 0 {
      assert each[..n - 1] == each[..n][..n - 1] && other[..n - 1] == other[..n][..n - 1];
      assert each[n - 1] == each[..n][n - 1] && other[n - 1] == other[..n][n - 1];
      MainRunPrefix(p, s, each, other, input, n - 1);
    }
  }

  /** Run is one Tick after another: sample n continues from the state after the first n samples. */
  lemma RunStep(m: Math, p: Params, s: DuckState, input: Inputs, n: nat, t: Tock)
    requires Ready(p, s) && Fits(input, n + 1)
    requires t == Tick(m, p, Run(m, p, s, input, n).state, input.stereo, input.mainL[n], input.mainR[n], SidechainSample(input, n))
    ensures var b := Run(m, p, s, input, n);
      Run(m, p, s, input, n + 1) == Block(b.outL + [t.outL], b.outR + [t.outR], b.dryL + [t.dryL], b.dryR + [t.dryR], b.gains + [t.gain], t.state)
  {
    var before := DetectAll(m, p, s.sidechain, s.envelope, input, n);
    var after := DetectAll(m, p, s.sidechain, s.envelope, input, n + 1);
    assert after.each[..n] == before.each;
    assert before.each[..n] == before.each;
    MainRunPrefix(p, s, after.each, before.each, input, n);
    var b := MainRun(p, s, before.each, input, n);
    assert b.state.sidechain == before.sidechain && b.state.envelope == before.envelope;
  }

  // ---------------------------------------------------------------------
  // Properties of a sample and a block

  /** With zero-crossing off both gates take the sample's gain; with it on they latch, and a mono buffer's right gate is left alone. */
  lemma Gates(p: Params, s: DuckState, d: Detection, stereo: bool, xL: real, xR: real)
    requires Ready(p, s)
    ensures var t := MainPath(p, s, d, stereo, xL, xR);
      && t.gain == d.gain
      && (!p.zeroCrossing ==> t.state.gateL.pending == d.gain && t.state.gateR.pending == d.gain)
      && (p.zeroCrossing ==> t.state.gateL == Latch(s.gateL, xL, d.gain))
      && (p.zeroCrossing && stereo ==> t.state.gateR == Latch(s.gateR, xR, d.gain))
      && (p.zeroCrossing && !stereo ==> t.state.gateR == s.gateR)
  {
  }

  /** A mono buffer never writes the right delay line, and its right dry sample is the left one. */
  lemma MonoMain(p: Params, s: DuckState, d: Detection, xL: real, xR: real)
    requires Ready(p, s)
    ensures var t := MainPath(p, s, d, false, xL, xR);
      t.state.lineR == s.lineR && t.dryR == t.dryL
  {
  }

  /** Outside listen mode each output is its dry sample under the mix law with its latched gain. */
  lemma MixLaw(p: Params, s: DuckState, d: Detection, stereo: bool, xL: real, xR: real)
    requires Ready(p, s) && !p.listen
    ensures var t := MainPath(p, s, d, stereo, xL, xR);
      && t.outL == Mixed(t.dryL, t.state.gateL.pending, WetMix(p.mix))
      && t.outR == Mixed(t.dryR, t.state.gateR.pending, WetMix(p.mix))
      && (p.mix == 0.0 ==> t.outL == t.dryL && t.outR == t.dryR)
      && (p.mix == 100.0 ==> t.outL == t.dryL * t.state.gateL.pending && t.outR == t.dryR * t.state.gateR.pending)
  {
  }

  /**
    Sidechain listen: both outputs are the filtered sidechain, while the
    state advances exactly as it would without listening.
   */
  lemma Listen(p: Params, s: DuckState, d: Detection, stereo: bool, xL: real, xR: real)
    requires Ready(p, s) && p.listen
    ensures var t := MainPath(p, s, d, stereo, xL, xR);
      && t.outL == d.filtered && t.outR == d.filtered
      && t.state == MainPath(p.(listen := false), s, d, stereo, xL, xR).state
  {
  }

  /** The delay property for one sample, on each written line. */
  lemma MainPathDelays(p: Params, s: DuckState, d: Detection, stereo: bool, xL: real, xR: real,
                       historyL: seq<real>, historyR: seq<real>)
    requires Ready(p, s) && Holds(s.lineL, s.writePos, historyL)
    requires stereo ==> Holds(s.lineR, s.writePos, historyR)
    ensures var t := MainPath(p, s, d, stereo, xL, xR);
      && t.dryL == Delayed(historyL + [xL], p.lookAhead)
      && Holds(t.state.lineL, t.state.writePos, historyL + [xL])
      && (stereo ==> t.dryR == Delayed(historyR + [xR], p.lookAhead))
      && (stereo ==> Holds(t.state.lineR, t.state.writePos, historyR + [xR]))
  {
    ReadAfterWrite(s.lineL, s.writePos, historyL, xL, p.lookAhead);
    WriteKeepsHolds(s.lineL, s.writePos, historyL, xL);
    if stereo {
      ReadAfterWrite(s.lineR, s.writePos, historyR, xR, p.lookAhead);
      WriteKeepsHolds(s.lineR, s.writePos, historyR, xR);
    }
  }

  /** `history + xs[..n]` grows by one sample at a time. */
  lemma ExtendHistory(history: seq<real>, xs: seq<real>, n: nat)
    requires 0 < n <= |xs|
    ensures history + xs[..n - 1] + [xs[n - 1]] == history + xs[..n]
  {
    assert xs[..n - 1] + [xs[n - 1]] == xs[..n];
  }

  /**
    The delay property for a block: after n samples the lines hold the
    history grown by the block's first n main samples, and the last dry
    sample is the main input `lookAhead` samples before it, counting the
    samples the lines saw before the block.
   */
  lemma {:induction false} MainRunDelays(p: Params, s: DuckState, each: seq<Detection>, input: Inputs, n: nat,
                                         historyL: seq<real>, historyR: seq<real>)
    requires Ready(p, s) && Fits(input, n) && n <= |each|
    requires Holds(s.lineL, s.writePos, historyL)
    requires input.stereo ==> Holds(s.lineR, s.writePos, historyR)
    ensures var b := MainRun(p, s, each, input, n);
      && Holds(b.state.lineL, b.state.writePos, historyL + input.mainL[..n])
      && (input.stereo ==> Holds(b.state.lineR, b.state.writePos, historyR + input.mainR[..n]))
      && (0 < n ==> b.dryL[n - 1] == Delayed(historyL + input.mainL[..n], p.lookAhead))
      && (0 < n && input.stereo ==> b.dryR[n - 1] == Delayed(historyR + input.mainR[..n], p.lookAhead))
  {
    if n == 0 {
      assert historyL + input.mainL[..0] == historyL;
      assert historyR + input.mainR[..0] == historyR;
    } else {
      MainRunDelays(p, s, each, input, n - 1, historyL, historyR);
      var b := MainRun(p, s, each, input, n - 1);
      MainPathDelays(p, b.state, each[n - 1], input.stereo, input.mainL[n - 1], input.mainR[n - 1],
        historyL + input.mainL[..n - 1], historyR + input.mainR[..n - 1]);
      ExtendHistory(historyL, input.mainL, n);
      ExtendHistory(historyR, input.mainR, n);
    }
  }

  /** The dry samples of a block, from lines holding the given histories. */
  lemma RunDry(m: Math, p: Params, s: DuckState, input: Inputs, n: nat, historyL: seq<real>, historyR: seq<real>)
    requires Ready(p, s) && Fits(input, n) && 0 < n
    requires Holds(s.lineL, s.writePos, historyL)
    requires input.stereo ==> Holds(s.lineR, s.writePos, historyR)
    ensures Run(m, p, s, input, n).dryL[n - 1] == Delayed(historyL + input.mainL[..n], p.lookAhead)
    ensures input.stereo ==> Run(m, p, s, input, n).dryR[n - 1] == Delayed(historyR + input.mainR[..n], p.lookAhead)
  {
    MainRunDry(p, s, DetectAll(m, p, s.sidechain, s.envelope, input, n).each, input, n, historyL, historyR);
  }

  /** The dry samples of MainRunDelays alone. */
  lemma MainRunDry(p: Params, s: DuckState, each: seq<Detection>, input: Inputs, n: nat,
                   historyL: seq<real>, historyR: seq<real>)
    requires Ready(p, s) && Fits(input, n) && n <= |each| && 0 < n
    requires Holds(s.lineL, s.writePos, historyL)
    requires input.stereo ==> Holds(s.lineR, s.writePos, historyR)
    ensures MainRun(p, s, each, input, n).dryL[n - 1] == Delayed(historyL + input.mainL[..n], p.lookAhead)
    ensures input.stereo ==> MainRun(p, s, each, input, n).dryR[n - 1] == Delayed(historyR + input.mainR[..n], p.lookAhead)
  {
    MainRunDelays(p, s, each, input, n, historyL, historyR);
  }

  /** Looking k back into the first n samples of a signal, which a cleared line has seen. */
  lemma DelayedPrefix(x: seq<real>, n: nat, k: nat)
    requires 0 < n <= |x|
    ensures [] + x[..n] == x[..n]
    ensures Delayed(x[..n], k) == if k < n then x[n - 1 - k] else 0.0
  {
  }

  /**
    After a clear, the dry sample of the n-th sample is main input
    n - 1 - lookAhead, or silence when fewer than lookAhead + 1 samples have
    arrived; with no look-ahead it is the current input.
   */
  lemma DryAfterReset(m: Math, p: Params, s: DuckState, input: Inputs, n: nat)
    requires s == Cleared(|s.lineL|) && Ready(p, s) && Fits(input, n) && 0 < n
    ensures Run(m, p, s, input, n).dryL[n - 1] == if p.lookAhead < n then input.mainL[n - 1 - p.lookAhead] else 0.0
    ensures input.stereo ==>
      Run(m, p, s, input, n).dryR[n - 1] == if p.lookAhead < n then input.mainR[n - 1 - p.lookAhead] else 0.0
  {
    ClearedHolds(|s.lineL|);
    RunDry(m, p, s, input, n, [], []);
    DelayedPrefix(input.mainL, n, p.lookAhead);
    if input.stereo {
      DelayedPrefix(input.mainR, n, p.lookAhead);
    }
  }

  // ---------------------------------------------------------------------
  // The ducker object

  /** The buffers one call of `process` is given, as the pure model sees them; a missing right channel repeats the left one. */
  ghost function Snapshot(mainL: array<real>, mainR: array?<real>, scL: array<real>, scR: array?<real>): (input: Inputs)
    reads mainL, mainR, scL, scR
    ensures input.stereo <==> mainR != null
    ensures input.scStereo <==> scR != null
  {
    Inputs(mainL[..], if mainR != null then mainR[..] else mainL[..], mainR != null,
      scL[..], if scR != null then scR[..] else scL[..], scR != null)
  }

  /**
    The bookkeeping of an in-place pass of `process` after i samples, on
    values: the written part of each written channel holds the block
    model's outputs so far and the rest the inputs, the state is the
    model's and `peak` is the model's peak reduction so far.
   */
  ghost predicate BlockProgress(m: Math, p: Params, s0: DuckState, input: Inputs, i: int,
                                curL: seq<real>, curR: seq<real>, state: DuckState, peak: real)
  {
    && Ready(p, s0) && 0 <= i <= |curL| && Fits(input, |curL|)
    && Tracks(curL, input.mainL, Run(m, p, s0, input, i).outL, i)
    && (input.stereo ==> |curR| == |curL| && Tracks(curR, input.mainR, Run(m, p, s0, input, i).outR, i))
    && state == Run(m, p, s0, input, i).state
    && peak == PeakReduction(m, Run(m, p, s0, input, i).gains)
  }

  /** The samples a pass has not reached yet still hold their inputs. */
  lemma UnreadInputs(m: Math, p: Params, s0: DuckState, input: Inputs, i: int,
                     curL: seq<real>, curR: seq<real>, state: DuckState, peak: real)
    requires BlockProgress(m, p, s0, input, i, curL, curR, state, peak) && i < |curL|
    ensures curL[i] == input.mainL[i]
    ensures input.stereo ==> curR[i] == input.mainR[i]
  {
    TracksStep(curL, input.mainL, Run(m, p, s0, input, i).outL, i, 0.0);
    if input.stereo {
      TracksStep(curR, input.mainR, Run(m, p, s0, input, i).outR, i, 0.0);
    }
  }

  /** Writing one Tick's outputs back at i and folding its gain into the peak advances the pass by one sample. */
  lemma BlockProgressStep(m: Math, p: Params, s0: DuckState, input: Inputs, i: int,
                          curL: seq<real>, curR: seq<real>, state: DuckState, peak: real, t: Tock)
    requires BlockProgress(m, p, s0, input, i, curL, curR, state, peak) && i < |curL|
    requires t == Tick(m, p, state, input.stereo, input.mainL[i], input.mainR[i], SidechainSample(input, i))
    ensures BlockProgress(m, p, s0, input, i + 1, curL[i := t.outL], if input.stereo then curR[i := t.outR] else curR,
      t.state, Max(peak, -LinearToDecibels(m, t.gain)))
  {
    var b := Run(m, p, s0, input, i);
    RunStep(m, p, s0, input, i, t);
    TracksStep(curL, input.mainL, b.outL, i, t.outL);
    if input.stereo {
      TracksStep(curR, input.mainR, b.outR, i, t.outR);
    }
    PeakReductionAppend(m, b.gains, t.gain);
  }

  /** Before the first sample, the pass holds the inputs untouched, the starting state and no reduction. */
  lemma BlockProgressStart(m: Math, p: Params, s0: DuckState, input: Inputs, curL: seq<real>, curR: seq<real>)
    requires Ready(p, s0) && Fits(input, |curL|) && curL == input.mainL
    requires input.stereo ==> curR == input.mainR && |curR| == |curL|
    ensures BlockProgress(m, p, s0, input, 0, curL, curR, s0, 0.0)
  {
    assert curL[0..] == curL;
    assert curR[0..] == curR;
  }

  /** A finished pass holds the whole block's outputs. */
  lemma BlockProgressDone(m: Math, p: Params, s0: DuckState, input: Inputs,
                          curL: seq<real>, curR: seq<real>, state: DuckState, peak: real)
    requires BlockProgress(m, p, s0, input, |curL|, curL, curR, state, peak)
    ensures curL == Run(m, p, s0, input, |curL|).outL
    ensures input.stereo ==> curR == Run(m, p, s0, input, |curL|).outR
  {
    assert curL == curL[..|curL|];
    if input.stereo {
      assert curR == curR[..|curL|];
    }
  }

  class Ducker {
    // DSP modules
    const envelopeGenerator: EnvelopeGenerator
    const sidechainProcessor: SidechainProcessor

    /** The ducker computes its levels with the maths its envelope generator was built with. */
    const math: Math := envelopeGenerator.math

    // Parameters
    var threshold: real
    var duckAmount: real
    var attackMs: real
    var holdMs: real
    var releaseMs: real
    var range: real
    var lookAheadMs: real
    var mix: real
    var curveShape: CurveShape

    // State
    var currentGainReduction: real
    var bypassed: bool
    var sidechainListen: bool
    var zeroCrossingEnabled: bool

    // Look-ahead delay lines
    var delayLineL: seq<real>
    var delayLineR: seq<real>
    var delayWritePos: int
    var lookAheadSamples: int

    // Zero-crossing state
    var lastSampleL: real
    var lastSampleR: real
    var pendingGainL: real
    var pendingGainR: real
    var targetGain: real

    // Runtime
    var currentSampleRate: real
    var currentBlockSize: int

    /** The object invariant: valid modules, consistent delay lines and a non-negative meter. */
    ghost predicate Valid()
      reads this`delayLineL, this`delayLineR, this`delayWritePos, this`currentGainReduction,
        envelopeGenerator`currentSampleRate, envelopeGenerator`attackCoeff, envelopeGenerator`releaseCoeff,
        envelopeGenerator`currentState, envelopeGenerator`currentEnvelope, envelopeGenerator`holdCounter,
        envelopeGenerator`triggered, sidechainProcessor`filteredLevel
    {
      envelopeGenerator.Valid() && sidechainProcessor.Valid() && LinesValid() && 0.0 <= currentGainReduction
    }

    /** The sidechain processor was built with the same maths. */
    ghost predicate Wired() {
      sidechainProcessor.math == math
    }

    /**
      The modules run at the ducker's sample rate, and the envelope
      parameters the ducker keeps agree with the envelope generator's.
     */
    ghost predicate Mirrors()
      reads this`threshold, this`attackMs, this`holdMs, this`releaseMs, this`curveShape, this`currentSampleRate,
        envelopeGenerator`threshold, envelopeGenerator`attackMs, envelopeGenerator`holdMs, envelopeGenerator`releaseMs,
        envelopeGenerator`curveShape, envelopeGenerator`currentSampleRate, sidechainProcessor`currentSampleRate
    {
      && envelopeGenerator.currentSampleRate == currentSampleRate && sidechainProcessor.currentSampleRate == currentSampleRate
      && envelopeGenerator.threshold == threshold && envelopeGenerator.attackMs == attackMs
      && envelopeGenerator.holdMs == holdMs && envelopeGenerator.releaseMs == releaseMs
      && envelopeGenerator.curveShape == curveShape
    }

    /** Both delay lines have one size, with the write position inside it once they are non-empty. */
    ghost predicate LinesValid()
      reads this`delayLineL, this`delayLineR, this`delayWritePos
    {
      && |delayLineR| == |delayLineL|
      && 0 <= delayWritePos && (0 < |delayLineL| ==> delayWritePos < |delayLineL|)
    }

    /** After `prepare`: the delay lines are sized for the current sample rate. */
    ghost predicate Prepared()
      reads this`delayLineL, this`currentSampleRate
    {
      |delayLineL| == MaxDelaySamples(currentSampleRate)
    }

    /** The look-ahead in samples is that of the current look-ahead time and sample rate. */
    ghost predicate LookAheadFresh()
      reads this`lookAheadSamples, this`lookAheadMs, this`currentSampleRate
    {
      lookAheadSamples == MsToSamples(lookAheadMs, currentSampleRate)
    }

    /** What `process` reads and does not change. */
    ghost function Parameters(): Params
      reads sidechainProcessor`highPassEnabled, sidechainProcessor`lowPassEnabled, sidechainProcessor`hpCoeffs,
        sidechainProcessor`lpCoeffs, envelopeGenerator`threshold, envelopeGenerator`attackCoeff,
        envelopeGenerator`releaseCoeff, envelopeGenerator`holdSamples, envelopeGenerator`curveShape,
        this`duckAmount, this`range, this`mix, this`sidechainListen, this`zeroCrossingEnabled, this`lookAheadSamples
    {
      Params(sidechainProcessor.Settings(),
        envelopeGenerator.threshold, envelopeGenerator.attackCoeff, envelopeGenerator.releaseCoeff,
        envelopeGenerator.holdSamples, envelopeGenerator.curveShape,
        duckAmount, range, mix, sidechainListen, zeroCrossingEnabled, lookAheadSamples)
    }

    /** What `process` changes, besides the buffer and the meter. */
    ghost function State(): DuckState
      reads sidechainProcessor`hpL, sidechainProcessor`lpL, sidechainProcessor`filteredLevel,
        envelopeGenerator`currentState, envelopeGenerator`currentEnvelope, envelopeGenerator`holdCounter,
        envelopeGenerator`triggered, this`lastSampleL, this`pendingGainL, this`lastSampleR, this`pendingGainR,
        this`targetGain, this`delayLineL, this`delayLineR, this`delayWritePos
    {
      DuckState(sidechainProcessor.Left(), sidechainProcessor.filteredLevel, envelopeGenerator.State(),
        Gate(lastSampleL, pendingGainL), Gate(lastSampleR, pendingGainR), targetGain,
        delayLineL, delayLineR, delayWritePos)
    }

    constructor (m: Math)
      requires m.Sound()
      ensures Valid() && Mirrors() && Wired() && math == m
      ensures fresh(envelopeGenerator) && fresh(sidechainProcessor)
      ensures threshold == -20.0 && duckAmount == -20.0 && attackMs == 10.0 && holdMs == 50.0 && releaseMs == 200.0
      ensures range == -40.0 && lookAheadMs == 5.0 && mix == 100.0 && curveShape == Linear
      ensures currentGainReduction == 0.0 && !bypassed && !sidechainListen && !zeroCrossingEnabled
      ensures delayLineL == [] && delayLineR == [] && delayWritePos == 0 && lookAheadSamples == 0
      ensures lastSampleL == 0.0 && lastSampleR == 0.0 && pendingGainL == 1.0 && pendingGainR == 1.0 && targetGain == 1.0
      ensures currentSampleRate == 44100.0 && currentBlockSize == 512
    {
      envelopeGenerator := new EnvelopeGenerator(m);
      sidechainProcessor := new SidechainProcessor(m);
      threshold, duckAmount, attackMs, holdMs, releaseMs := -20.0, -20.0, 10.0, 50.0, 200.0;
      range, lookAheadMs, mix, curveShape := -40.0, 5.0, 100.0, Linear;
      currentGainReduction := 0.0;
      bypassed, sidechainListen, zeroCrossingEnabled := false, false, false;
      delayLineL, delayLineR, delayWritePos, lookAheadSamples := [], [], 0, 0;
      lastSampleL, lastSampleR, pendingGainL, pendingGainR, targetGain := 0.0, 0.0, 1.0, 1.0, 1.0;
      currentSampleRate, currentBlockSize := 44100.0, 512;
    }

    /** Prepare both modules for the rate, size the delay lines for 20 ms, refresh the look-ahead and reset. */
    method Prepare(sampleRate: real, samplesPerBlock: int)
      requires Valid() && Mirrors() && Wired() && math.Sound() && 0.0 < sampleRate
      modifies this`currentSampleRate, this`currentBlockSize, this`delayLineL, this`delayLineR, this`lookAheadSamples,
        this`delayWritePos, this`currentGainReduction, this`lastSampleL, this`lastSampleR, this`pendingGainL,
        this`pendingGainR, this`targetGain,
        envelopeGenerator`currentSampleRate, envelopeGenerator`currentBlockSize, envelopeGenerator`attackCoeff,
        envelopeGenerator`releaseCoeff, envelopeGenerator`holdSamples, envelopeGenerator`currentEnvelope,
        envelopeGenerator`holdCounter, envelopeGenerator`currentState, envelopeGenerator`triggered,
        sidechainProcessor`currentSampleRate, sidechainProcessor`currentBlockSize, sidechainProcessor`hpCoeffs,
        sidechainProcessor`lpCoeffs, sidechainProcessor`hpL, sidechainProcessor`hpR, sidechainProcessor`lpL,
        sidechainProcessor`lpR, sidechainProcessor`filteredLevel
      ensures Valid() && Mirrors() && Prepared() && LookAheadFresh()
      ensures currentSampleRate == sampleRate && currentBlockSize == samplesPerBlock
      ensures envelopeGenerator.CoefficientsFresh() && sidechainProcessor.CoeffsFresh()
      ensures State() == Cleared(MaxDelaySamples(sampleRate)) && currentGainReduction == 0.0
      ensures sidechainProcessor.Right() == SilentChannel
    {
      PrepareModules(sampleRate, samplesPerBlock);
      PrepareLines();
    }

    /** The second half of `prepare`: size the delay lines, refresh the look-ahead and reset. */
    method PrepareLines()
      requires envelopeGenerator.Valid() && Mirrors() && 0.0 < currentSampleRate
      requires envelopeGenerator.CoefficientsFresh() && sidechainProcessor.CoeffsFresh()
      modifies this`delayLineL, this`delayLineR, this`lookAheadSamples,
        this`delayWritePos, this`currentGainReduction, this`lastSampleL, this`lastSampleR, this`pendingGainL,
        this`pendingGainR, this`targetGain,
        envelopeGenerator`currentEnvelope, envelopeGenerator`holdCounter, envelopeGenerator`currentState,
        envelopeGenerator`triggered,
        sidechainProcessor`hpL, sidechainProcessor`hpR, sidechainProcessor`lpL, sidechainProcessor`lpR,
        sidechainProcessor`filteredLevel
      ensures Valid() && Mirrors() && Prepared() && LookAheadFresh()
      ensures envelopeGenerator.CoefficientsFresh() && sidechainProcessor.CoeffsFresh()
      ensures State() == Cleared(MaxDelaySamples(currentSampleRate)) && currentGainReduction == 0.0
      ensures sidechainProcessor.Right() == SilentChannel
    {
      SizeDelayLines();
      UpdateLookAhead();
      Reset();
    }

    /** The first half of `prepare`: take the rate and block size, and prepare both modules for them. */
    method PrepareModules(sampleRate: real, samplesPerBlock: int)
      requires envelopeGenerator.Valid() && Mirrors() && Wired() && math.Sound() && 0.0 < sampleRate
      modifies this`currentSampleRate, this`currentBlockSize,
        envelopeGenerator`currentSampleRate, envelopeGenerator`currentBlockSize, envelopeGenerator`attackCoeff,
        envelopeGenerator`releaseCoeff, envelopeGenerator`holdSamples, envelopeGenerator`currentEnvelope,
        envelopeGenerator`holdCounter, envelopeGenerator`currentState, envelopeGenerator`triggered,
        sidechainProcessor`currentSampleRate, sidechainProcessor`currentBlockSize, sidechainProcessor`hpCoeffs,
        sidechainProcessor`lpCoeffs, sidechainProcessor`hpL, sidechainProcessor`hpR, sidechainProcessor`lpL,
        sidechainProcessor`lpR, sidechainProcessor`filteredLevel
      ensures envelopeGenerator.Valid() && Mirrors()
      ensures currentSampleRate == sampleRate && currentBlockSize == samplesPerBlock
      ensures envelopeGenerator.CoefficientsFresh() && sidechainProcessor.CoeffsFresh()
    {
      currentSampleRate := sampleRate;
      currentBlockSize := samplesPerBlock;

      // Prepare sub-modules
      envelopeGenerator.Prepare(sampleRate, samplesPerBlock);
      sidechainProcessor.Prepare(sampleRate, samplesPerBlock);
    }

    /** Size both delay lines for 20 ms at the current rate, keeping what fits and padding with silence. */
    method SizeDelayLines()
      requires 0.0 <= currentSampleRate
      modifies this`delayLineL, this`delayLineR
      ensures delayLineL == Resize(old(delayLineL), MaxDelaySamples(currentSampleRate))
      ensures delayLineR == Resize(old(delayLineR), MaxDelaySamples(currentSampleRate))
      ensures Prepared() && |delayLineR| == |delayLineL|
    {
      var maxDelaySamples := MaxDelaySamples(currentSampleRate);
      delayLineL := Resize(delayLineL, maxDelaySamples);
      delayLineR := Resize(delayLineR, maxDelaySamples);
    }

    /** Reset both modules, zero-fill the delay lines and return to unity gain; the line size does not change. */
    method Reset()
      requires envelopeGenerator.Valid() && |delayLineR| == |delayLineL|
      modifies this`delayLineL, this`delayLineR, this`delayWritePos, this`currentGainReduction, this`lastSampleL,
        this`lastSampleR, this`pendingGainL, this`pendingGainR, this`targetGain,
        envelopeGenerator`currentEnvelope, envelopeGenerator`holdCounter, envelopeGenerator`currentState,
        envelopeGenerator`triggered,
        sidechainProcessor`hpL, sidechainProcessor`hpR, sidechainProcessor`lpL, sidechainProcessor`lpR,
        sidechainProcessor`filteredLevel
      ensures Valid() && |delayLineL| == |old(delayLineL)|
      ensures State() == Cleared(|old(delayLineL)|) && currentGainReduction == 0.0
      ensures sidechainProcessor.Right() == SilentChannel
    {
      envelopeGenerator.Reset();
      sidechainProcessor.Reset();

      delayLineL := Zeros(|delayLineL|);
      delayLineR := Zeros(|delayLineR|);
      delayWritePos := 0;

      currentGainReduction := 0.0;
      lastSampleL, lastSampleR := 0.0, 0.0;
      pendingGainL, pendingGainR := 1.0, 1.0;
      targetGain := 1.0;
    }

    /**
      Duck a block in place. Bypassed, nothing changes. Otherwise the buffer
      and the state are those of the pure block model run over the buffers
      as they were, and the meter reads the block's peak gain reduction.
     */
    method Process(mainL: array<real>, mainR: array?<real>, scL: array<real>, scR: array?<real>)
      requires Valid()
      requires !bypassed ==> 0 <= lookAheadSamples < |delayLineL|
      requires mainR != null ==> mainR.Length == mainL.Length && mainR != mainL
      requires mainL.Length <= scL.Length && (scR != null ==> mainL.Length <= scR.Length)
      requires mainL != scL && mainL != scR && (mainR != null ==> mainR != scL && mainR != scR)
      modifies mainL, mainR, this`currentGainReduction, this`delayLineL, this`delayLineR, this`delayWritePos, this`lastSampleL, this`lastSampleR,
        this`pendingGainL, this`pendingGainR, this`targetGain,
        envelopeGenerator`currentState, envelopeGenerator`currentEnvelope, envelopeGenerator`holdCounter,
        envelopeGenerator`triggered, sidechainProcessor`hpL, sidechainProcessor`lpL, sidechainProcessor`filteredLevel
      ensures Valid()
      ensures bypassed ==>
        && mainL[..] == old(mainL[..]) && (mainR != null ==> mainR[..] == old(mainR[..]))
        && State() == old(State()) && currentGainReduction == old(currentGainReduction)
      ensures !bypassed ==>
        var b := Run(math, Parameters(), old(State()), old(Snapshot(mainL, mainR, scL, scR)), mainL.Length);
        && mainL[..] == b.outL && (mainR != null ==> mainR[..] == b.outR)
        && State() == b.state && currentGainReduction == PeakReduction(math, b.gains)
    {
      if bypassed {
        return;
      }
      ghost var p, s0 := Parameters(), State();
      ghost var input := Snapshot(mainL, mainR, scL, scR);
      var maxGainReduction := DuckBlock(mainL, mainR, scL, scR, p, s0, input);
      currentGainReduction := maxGainReduction;
      assert Parameters() == p;
    }

    /** The loop of `process`, for a block that is not bypassed: every sample in turn, tracking the peak reduction. */
    method DuckBlock(mainL: array<real>, mainR: array?<real>, scL: array<real>, scR: array?<real>,
                     ghost p: Params, ghost s0: DuckState, ghost input: Inputs)
      returns (maxGainReduction: real)
      requires Valid() && Parameters() == p && State() == s0 && input == Snapshot(mainL, mainR, scL, scR)
      requires 0 <= lookAheadSamples < |delayLineL|
      requires mainR != null ==> mainR.Length == mainL.Length && mainR != mainL
      requires mainL.Length <= scL.Length && (scR != null ==> mainL.Length <= scR.Length)
      requires mainL != scL && mainL != scR && (mainR != null ==> mainR != scL && mainR != scR)
      modifies mainL, mainR, this`delayLineL, this`delayLineR, this`delayWritePos, this`lastSampleL, this`lastSampleR,
        this`pendingGainL, this`pendingGainR, this`targetGain,
        envelopeGenerator`currentState, envelopeGenerator`currentEnvelope, envelopeGenerator`holdCounter,
        envelopeGenerator`triggered, sidechainProcessor`hpL, sidechainProcessor`lpL, sidechainProcessor`filteredLevel
      ensures Valid() && Parameters() == p
      ensures var b := Run(math, p, s0, input, mainL.Length);
        && mainL[..] == b.outL && (mainR != null ==> mainR[..] == b.outR)
        && State() == b.state && maxGainReduction == PeakReduction(math, b.gains)
    {
      maxGainReduction := 0.0;

      // Mix coefficients
      var wetMix := mix / 100.0;
      var dryMix := 1.0 - wetMix;

      FixedAtStart(mainL, mainR, scL, scR, wetMix, dryMix, p, input);
      BlockProgressStart(math, p, s0, input, mainL[..], if mainR != null then mainR[..] else []);
      var i := 0;
      while i < mainL.Length
        invariant Valid()
        invariant Fixed(mainL, mainR, scL, scR, wetMix, dryMix, p, input)
        invariant BlockProgress(math, p, s0, input, i, mainL[..], if mainR != null then mainR[..] else [], State(), maxGainReduction)
      {
        maxGainReduction := AdvanceFrame(mainL, mainR, scL, scR, i, wetMix, dryMix, maxGainReduction, p, s0, input);
        i := i + 1;
      }
      BlockProgressDone(math, p, s0, input, mainL[..], if mainR != null then mainR[..] else [], State(), maxGainReduction);
    }

    /**
      What stays put while `process` runs: the parameters are those it
      started with, and the buffers are the ones it was given, the sidechain
      ones still holding their inputs.
     */
    ghost predicate Fixed(mainL: array<real>, mainR: array?<real>, scL: array<real>, scR: array?<real>,
                          wetMix: real, dryMix: real, p: Params, input: Inputs)
      reads sidechainProcessor`highPassEnabled, sidechainProcessor`lowPassEnabled, sidechainProcessor`hpCoeffs,
        sidechainProcessor`lpCoeffs, envelopeGenerator`threshold, envelopeGenerator`attackCoeff,
        envelopeGenerator`releaseCoeff, envelopeGenerator`holdSamples, envelopeGenerator`curveShape,
        this`duckAmount, this`range, this`mix, this`sidechainListen, this`zeroCrossingEnabled, this`lookAheadSamples,
        scL, scR
    {
      && Parameters() == p
      && wetMix == WetMix(mix) && dryMix == 1.0 - wetMix
      && input.stereo == (mainR != null) && input.scStereo == (scR != null)
      && (mainR != null ==> mainR.Length == mainL.Length && mainR != mainL)
      && (mainR == null ==> input.mainR == input.mainL)
      && mainL != scL && mainL != scR && (mainR != null ==> mainR != scL && mainR != scR)
      && scL[..] == input.scL && (scR != null ==> scR[..] == input.scR)
    }

    /** One pass of `process`'s loop, as the block function sees it: the pass reaches one sample further. */
    method AdvanceFrame(mainL: array<real>, mainR: array?<real>, scL: array<real>, scR: array?<real>, i: int,
                        wetMix: real, dryMix: real, peak: real, ghost p: Params, ghost s0: DuckState, ghost input: Inputs)
      returns (newPeak: real)
      requires Valid() && Fixed(mainL, mainR, scL, scR, wetMix, dryMix, p, input) && i < mainL.Length
      requires BlockProgress(math, p, s0, input, i, mainL[..], if mainR != null then mainR[..] else [], State(), peak)
      modifies mainL, mainR, this`delayLineL, this`delayLineR, this`delayWritePos, this`lastSampleL, this`lastSampleR,
        this`pendingGainL, this`pendingGainR, this`targetGain,
        envelopeGenerator`currentState, envelopeGenerator`currentEnvelope, envelopeGenerator`holdCounter,
        envelopeGenerator`triggered, sidechainProcessor`hpL, sidechainProcessor`lpL, sidechainProcessor`filteredLevel
      ensures Valid() && Fixed(mainL, mainR, scL, scR, wetMix, dryMix, p, input)
      ensures BlockProgress(math, p, s0, input, i + 1, mainL[..], if mainR != null then mainR[..] else [], State(), newPeak)
    {
      ghost var curL, curR := mainL[..], if mainR != null then mainR[..] else [];
      ghost var state := State();
      UnreadInputs(math, p, s0, input, i, curL, curR, state, peak);
      ghost var t;
      newPeak, t := ProcessFrame(mainL, mainR, scL, scR, i, wetMix, dryMix, peak, p, input);
      BlockProgressStep(math, p, s0, input, i, curL, curR, state, peak, t);
    }

    /** The buffers `process` was given and the parameters it read are what stays put. */
    lemma FixedAtStart(mainL: array<real>, mainR: array?<real>, scL: array<real>, scR: array?<real>,
                       wetMix: real, dryMix: real, p: Params, input: Inputs)
      requires Parameters() == p && wetMix == mix / 100.0 && dryMix == 1.0 - wetMix
      requires input == Snapshot(mainL, mainR, scL, scR)
      requires mainR != null ==> mainR.Length == mainL.Length && mainR != mainL
      requires mainL != scL && mainL != scR && (mainR != null ==> mainR != scL && mainR != scR)
      ensures Fixed(mainL, mainR, scL, scR, wetMix, dryMix, p, input)
    {
    }

    /** The body of `process`'s loop: read sample i, run it through the ducker and write it back. */
    method ProcessFrame(mainL: array<real>, mainR: array?<real>, scL: array<real>, scR: array?<real>, i: int,
                        wetMix: real, dryMix: real, peak: real, ghost p: Params, ghost input: Inputs)
      returns (newPeak: real, ghost t: Tock)
      requires Valid() && Fixed(mainL, mainR, scL, scR, wetMix, dryMix, p, input)
      requires 0 <= i < mainL.Length && Fits(input, mainL.Length) && Ready(p, State())
      requires mainL[i] == input.mainL[i] && (mainR != null ==> mainR[i] == input.mainR[i])
      modifies mainL, mainR, this`delayLineL, this`delayLineR, this`delayWritePos, this`lastSampleL, this`lastSampleR,
        this`pendingGainL, this`pendingGainR, this`targetGain,
        envelopeGenerator`currentState, envelopeGenerator`currentEnvelope, envelopeGenerator`holdCounter,
        envelopeGenerator`triggered, sidechainProcessor`hpL, sidechainProcessor`lpL, sidechainProcessor`filteredLevel
      ensures Valid() && Fixed(mainL, mainR, scL, scR, wetMix, dryMix, p, input)
      ensures t == Tick(math, p, old(State()), input.stereo, input.mainL[i], input.mainR[i], SidechainSample(input, i))
      ensures State() == t.state
      ensures mainL[..] == old(mainL[..])[i := t.outL]
      ensures mainR != null ==> mainR[..] == old(mainR[..])[i := t.outR]
      ensures newPeak == Max(peak, -LinearToDecibels(math, t.gain))
    {
      // Sum the sidechain to mono
      var scInput := scL[i];
      if scR != null {
        scInput := SumToMono(scInput, scR[i]);
      }
      var xL := mainL[i];
      var xR := if mainR != null then mainR[i] else xL;
      assert scInput == SidechainSample(input, i) && xL == input.mainL[i] && xR == input.mainR[i];

      var outL, outR, gain;
      outL, outR, gain, t := TickFrame(xL, xR, mainR != null, scInput, wetMix, dryMix, p);
      WriteBack(mainL, mainR, i, outL, outR);

      // Track gain reduction for metering
      newPeak := Max(peak, -LinearToDecibels(math, gain));
    }

    /** Write one frame's outputs back into the main buffer; a missing right channel is not written. */
    method WriteBack(mainL: array<real>, mainR: array?<real>, i: int, outL: real, outR: real)
      requires Valid() && 0 <= i < mainL.Length && (mainR != null ==> i < mainR.Length && mainR != mainL)
      modifies mainL, mainR
      ensures Valid()
      ensures mainL[..] == old(mainL[..])[i := outL]
      ensures mainR != null ==> mainR[..] == old(mainR[..])[i := outR]
    {
      mainL[i] := outL;
      if mainR != null {
        mainR[i] := outR;
      }
    }

    /** One sample of `process` on the object's state: the sidechain stage, then the main-signal stage. */
    method TickFrame(xL: real, xR: real, stereo: bool, scInput: real, wetMix: real, dryMix: real, ghost p: Params)
      returns (outL: real, outR: real, gain: real, ghost t: Tock)
      requires Valid() && Parameters() == p && Ready(p, State())
      requires wetMix == WetMix(mix) && dryMix == 1.0 - wetMix
      modifies this`delayLineL, this`delayLineR, this`delayWritePos, this`lastSampleL, this`lastSampleR,
        this`pendingGainL, this`pendingGainR, this`targetGain,
        envelopeGenerator`currentState, envelopeGenerator`currentEnvelope, envelopeGenerator`holdCounter,
        envelopeGenerator`triggered, sidechainProcessor`hpL, sidechainProcessor`lpL, sidechainProcessor`filteredLevel
      ensures Valid()
      ensures Parameters() == p
      ensures t == Tick(math, p, old(State()), stereo, xL, xR, scInput)
      ensures outL == t.outL && outR == t.outR && gain == t.gain && State() == t.state
    {
      ghost var before := State();
      ghost var d := Detect(math, p, before.sidechain, before.envelope, scInput);
      var filteredSC;
      filteredSC, gain := DetectGain(scInput);
      outL, outR := MainFrame(xL, xR, stereo, filteredSC, gain, wetMix, dryMix, p, before, d);
      t := MainPath(p, before, d, stereo, xL, xR);
    }

    /** The sidechain stage of one sample: filter, envelope, and the gain between 1 and the ducked level. */
    method DetectGain(scInput: real) returns (filteredSC: real, gain: real)
      requires Valid()
      modifies sidechainProcessor`hpL, sidechainProcessor`lpL, sidechainProcessor`filteredLevel,
        envelopeGenerator`currentState, envelopeGenerator`currentEnvelope, envelopeGenerator`holdCounter,
        envelopeGenerator`triggered
      ensures Valid()
      ensures var d := Detect(math, Parameters(), old(sidechainProcessor.Left()), old(envelopeGenerator.State()), scInput);
        && filteredSC == d.filtered && gain == d.gain
        && sidechainProcessor.Left() == d.sidechain && sidechainProcessor.filteredLevel == Abs(filteredSC)
        && envelopeGenerator.State() == d.envelope
    {
      filteredSC := sidechainProcessor.ProcessSample(scInput);
      var envelope := envelopeGenerator.ProcessSample(filteredSC);

      // The ducked level, floored at the range
      var duckLinear := DecibelsToLinear(math, duckAmount);
      var rangeLinear := DecibelsToLinear(math, range);
      var duckedGain := Max(duckLinear, rangeLinear);
      gain := TargetGain(envelope, duckedGain);
    }

    /** The main-signal fields hold those of `s`. */
    ghost predicate MainStateIs(s: DuckState)
      reads this`lastSampleL, this`pendingGainL, this`lastSampleR, this`pendingGainR, this`targetGain,
        this`delayLineL, this`delayLineR, this`delayWritePos
    {
      && Gate(lastSampleL, pendingGainL) == s.gateL && Gate(lastSampleR, pendingGainR) == s.gateR
      && targetGain == s.targetGain
      && delayLineL == s.lineL && delayLineR == s.lineR && delayWritePos == s.writePos
    }

    /**
      The main-signal stage of one sample of `process`, once the gain is
      known: the zero-crossing gates, the delay-line write and read, the
      mix, the listen override and the next write position.
     */
    method MainFrame(xL: real, xR: real, stereo: bool, filteredSC: real, gain: real, wetMix: real, dryMix: real,
                     ghost p: Params, ghost before: DuckState, ghost d: Detection) returns (outL: real, outR: real)
      requires Parameters() == p && Ready(p, before) && MainStateIs(before)
      requires wetMix == WetMix(mix) && dryMix == 1.0 - wetMix
      requires d.filtered == filteredSC && d.gain == gain
      modifies this`delayLineL, this`delayLineR, this`delayWritePos, this`lastSampleL, this`lastSampleR,
        this`pendingGainL, this`pendingGainR, this`targetGain
      ensures var t := MainPath(p, before, d, stereo, xL, xR);
        outL == t.outL && outR == t.outR && MainStateIs(t.state)
    {
      targetGain := gain;
      UpdateGates(xL, xR, stereo, gain);
      var dryL, dryR := WriteAndRead(xL, xR, stereo);

      // Parallel ducking
      var wetL := dryL * pendingGainL;
      var wetR := dryR * pendingGainR;
      outL := dryL * dryMix + wetL * wetMix;
      outR := dryR * dryMix + wetR * wetMix;
      BlendIsMixed(dryL, pendingGainL, wetMix, dryMix, wetL, outL);
      BlendIsMixed(dryR, pendingGainR, wetMix, dryMix, wetR, outR);

      // Sidechain listen replaces the output
      if sidechainListen {
        outL, outR := filteredSC, filteredSC;
      }

      delayWritePos := (delayWritePos + 1) % |delayLineL|;
    }

    /** The zero-crossing gates: with the option off both take the gain; on, each latches it only near a crossing. */
    method UpdateGates(xL: real, xR: real, stereo: bool, gain: real)
      modifies this`lastSampleL, this`lastSampleR, this`pendingGainL, this`pendingGainR
      ensures Gate(lastSampleL, pendingGainL) ==
        if zeroCrossingEnabled then Latch(old(Gate(lastSampleL, pendingGainL)), xL, gain)
        else old(Gate(lastSampleL, pendingGainL)).(pending := gain)
      ensures Gate(lastSampleR, pendingGainR) ==
        if !zeroCrossingEnabled then old(Gate(lastSampleR, pendingGainR)).(pending := gain)
        else if stereo then Latch(old(Gate(lastSampleR, pendingGainR)), xR, gain)
        else old(Gate(lastSampleR, pendingGainR))
    {
      if zeroCrossingEnabled {
        // Left channel
        if ZeroCrossed(lastSampleL, xL) || Abs(xL) < ZeroEpsilon {
          pendingGainL := gain;
        }
        lastSampleL := xL;

        // Right channel
        if stereo {
          if ZeroCrossed(lastSampleR, xR) || Abs(xR) < ZeroEpsilon {
            pendingGainR := gain;
          }
          lastSampleR := xR;
        }
      } else {
        pendingGainL, pendingGainR := gain, gain;
      }
    }

    /** Write the current samples at the write position, then read the dry samples `lookAheadSamples` behind it. */
    method WriteAndRead(xL: real, xR: real, stereo: bool) returns (dryL: real, dryR: real)
      requires |delayLineR| == |delayLineL| && 0 <= delayWritePos < |delayLineL| && 0 <= lookAheadSamples < |delayLineL|
      modifies this`delayLineL, this`delayLineR
      ensures delayLineL == old(delayLineL)[delayWritePos := xL]
      ensures delayLineR == if stereo then old(delayLineR)[delayWritePos := xR] else old(delayLineR)
      ensures var readPos := ReadPosition(delayWritePos, lookAheadSamples, |delayLineL|);
        dryL == delayLineL[readPos] && dryR == if stereo then delayLineR[readPos] else dryL
    {
      delayLineL := delayLineL[delayWritePos := xL];
      if stereo {
        delayLineR := delayLineR[delayWritePos := xR];
      }

      var readPos := delayWritePos - lookAheadSamples;
      if readPos < 0 {
        readPos := readPos + |delayLineL|;
      }

      dryL := delayLineL[readPos];
      dryR := if stereo then delayLineR[readPos] else dryL;
    }

    /** The gain one sidechain sample gives one main sample, on the left channel's filter histories. */
    method ProcessSample(input: real, sidechainInput: real) returns (output: real)
      requires Valid()
      modifies sidechainProcessor`hpL, sidechainProcessor`lpL, sidechainProcessor`filteredLevel,
        envelopeGenerator`currentState, envelopeGenerator`currentEnvelope, envelopeGenerator`holdCounter,
        envelopeGenerator`triggered
      ensures Valid()
      ensures var d := Detect(math, Parameters(), old(sidechainProcessor.Left()), old(envelopeGenerator.State()), sidechainInput);
        && output == input * d.gain
        && sidechainProcessor.Left() == d.sidechain && sidechainProcessor.filteredLevel == Abs(d.filtered)
        && envelopeGenerator.State() == d.envelope
    {
      var filteredSC, gain := DetectGain(sidechainInput);
      output := input * gain;
    }

    // Parameter setters

    method SetThreshold(thresholdDb: real)
      requires Mirrors()
      modifies this`threshold, envelopeGenerator`threshold
      ensures Mirrors() && threshold == thresholdDb && envelopeGenerator.threshold == thresholdDb
    {
      threshold := thresholdDb;
      envelopeGenerator.SetThreshold(thresholdDb);
    }

    method SetDuckAmount(amountDb: real)
      modifies this`duckAmount
      ensures duckAmount == amountDb
    {
      duckAmount := amountDb;
    }

    method SetAttack(ms: real)
      requires Valid() && Mirrors() && math.Sound()
      modifies this`attackMs, envelopeGenerator`attackMs, envelopeGenerator`attackCoeff,
        envelopeGenerator`releaseCoeff, envelopeGenerator`holdSamples
      ensures Valid() && Mirrors() && attackMs == ms && envelopeGenerator.CoefficientsFresh()
    {
      attackMs := ms;
      envelopeGenerator.SetAttack(ms);
    }

    method SetHold(ms: real)
      requires Valid() && Mirrors() && math.Sound()
      modifies this`holdMs, envelopeGenerator`holdMs, envelopeGenerator`attackCoeff,
        envelopeGenerator`releaseCoeff, envelopeGenerator`holdSamples
      ensures Valid() && Mirrors() && holdMs == ms && envelopeGenerator.CoefficientsFresh()
    {
      holdMs := ms;
      envelopeGenerator.SetHold(ms);
    }

    method SetRelease(ms: real)
      requires Valid() && Mirrors() && math.Sound()
      modifies this`releaseMs, envelopeGenerator`releaseMs, envelopeGenerator`attackCoeff,
        envelopeGenerator`releaseCoeff, envelopeGenerator`holdSamples
      ensures Valid() && Mirrors() && releaseMs == ms && envelopeGenerator.CoefficientsFresh()
    {
      releaseMs := ms;
      envelopeGenerator.SetRelease(ms);
    }

    method SetRange(rangeDb: real)
      modifies this`range
      ensures range == rangeDb
    {
      range := rangeDb;
    }

    method SetLookAhead(ms: real)
      modifies this`lookAheadMs, this`lookAheadSamples
      ensures lookAheadMs == ms && LookAheadFresh()
    {
      lookAheadMs := ms;
      UpdateLookAhead();
    }

    /** Any index is accepted; one outside the four named shapes leaves the envelope unshaped. */
    method SetCurveShape(shapeIndex: int)
      requires Mirrors()
      modifies this`curveShape, envelopeGenerator`curveShape
      ensures Mirrors() && curveShape == shapeIndex as CurveShape
      ensures !IsNamedShape(curveShape) ==> forall e :: ApplyCurveShape(math, e, envelopeGenerator.curveShape) == e
    {
      curveShape := shapeIndex as CurveShape;
      envelopeGenerator.SetCurveShape(curveShape);
    }

    method SetMix(mixPercent: real)
      modifies this`mix
      ensures mix == mixPercent
    {
      mix := mixPercent;
    }

    method SetBypass(shouldBypass: bool)
      modifies this`bypassed
      ensures bypassed == shouldBypass
    {
      bypassed := shouldBypass;
    }

    // Sidechain filter setters

    method SetSidechainHPF(freq: real)
      requires Valid() && Mirrors() && Wired() && math.Sound()
      modifies sidechainProcessor`highPassFreq, sidechainProcessor`hpCoeffs, sidechainProcessor`lpCoeffs
      ensures Valid() && sidechainProcessor.highPassFreq == freq && sidechainProcessor.CoeffsFresh()
    {
      sidechainProcessor.SetHighPassFreq(freq);
    }

    method SetSidechainLPF(freq: real)
      requires Valid() && Mirrors() && Wired() && math.Sound()
      modifies sidechainProcessor`lowPassFreq, sidechainProcessor`hpCoeffs, sidechainProcessor`lpCoeffs
      ensures Valid() && sidechainProcessor.lowPassFreq == freq && sidechainProcessor.CoeffsFresh()
    {
      sidechainProcessor.SetLowPassFreq(freq);
    }

    method SetSidechainHPFEnabled(enabled: bool)
      modifies sidechainProcessor`highPassEnabled
      ensures sidechainProcessor.highPassEnabled == enabled
    {
      sidechainProcessor.SetHighPassEnabled(enabled);
    }

    method SetSidechainLPFEnabled(enabled: bool)
      modifies sidechainProcessor`lowPassEnabled
      ensures sidechainProcessor.lowPassEnabled == enabled
    {
      sidechainProcessor.SetLowPassEnabled(enabled);
    }

    method SetSidechainListen(listen: bool)
      modifies this`sidechainListen
      ensures sidechainListen == listen
    {
      sidechainListen := listen;
    }

    method SetZeroCrossingEnabled(enabled: bool)
      modifies this`zeroCrossingEnabled
      ensures zeroCrossingEnabled == enabled
    {
      zeroCrossingEnabled := enabled;
    }

    /** `static_cast<int>(lookAheadMs * 0.001 * sampleRate)`. */
    method UpdateLookAhead()
      modifies this`lookAheadSamples
      ensures LookAheadFresh()
    {
      lookAheadSamples := MsToSamples(lookAheadMs, currentSampleRate);
    }

    // Getters for metering

    function GetGainReduction(): (gr: real)
      reads this, envelopeGenerator, sidechainProcessor
      requires Valid()
      ensures 0.0 <= gr
    {
      currentGainReduction
    }

    function GetEnvelopeValue(): (e: real)
      reads envelopeGenerator
      requires envelopeGenerator.Valid()
      ensures 0.0 <= e <= 1.0
    {
      envelopeGenerator.GetCurrentEnvelope()
    }

    function IsTriggered(): (t: bool)
      reads envelopeGenerator
      requires envelopeGenerator.Valid()
      ensures t <==> envelopeGenerator.currentState != Idle
    {
      envelopeGenerator.IsTriggered()
    }

    function IsSidechainListening(): bool
      reads this
    {
      sidechainListen
    }

    /** The latency the ducker reports is its look-ahead in samples. */
    function GetLatencyInSamples(): (n: int)
      reads this
      ensures LookAheadFresh() ==> n == MsToSamples(lookAheadMs, currentSampleRate)
    {
      lookAheadSamples
    }
  }
}
