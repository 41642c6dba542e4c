/**
  The sidechain conditioner: an optional high-pass biquad followed by an
  optional low-pass biquad, both direct form I, with separate histories for
  the left and the right channel.

  `FilterStep` is one sample through the cascade on one channel and
  `RunChannel` a run of samples; `SidechainProcessor` keeps the histories in
  fields and is proved to update them exactly as these functions say.
 */
module Sidechain {
  import opened DSPUtils

  /** What one direct-form-I biquad remembers: its last two inputs and its last two outputs. */
  datatype History = History(x1: real, x2: real, y1: real, y2: real)

  const Silent: History := History(0.0, 0.0, 0.0, 0.0)

  /** y = b0·x + b1·x1 + b2·x2 − a1·y1 − a2·y2 */
  function BiquadOutput(c: BiquadCoeffs, h: History, x: real): real {
    c.b0 * x + c.b1 * h.x1 + c.b2 * h.x2 - c.a1 * h.y1 - c.a2 * h.y2
  }

  /** The result of one biquad sample: the output and the shifted history. */
  datatype Filtered = Filtered(out: real, history: History)

  /** One biquad sample: compute the output, then shift x2 <- x1, x1 <- x, y2 <- y1, y1 <- y. */
  function Biquad(c: BiquadCoeffs, h: History, x: real): (r: Filtered)
    ensures r.history.x1 == x && r.history.x2 == h.x1
    ensures r.history.y1 == r.out && r.history.y2 == h.y1
  {
    var y := BiquadOutput(c, h, x);
    Filtered(y, History(x, h.x1, y, h.y1))
  }

  /** The default coefficients pass every sample through unchanged, whatever the history. */
  lemma IdentityPassesThrough(h: History, x: real)
    ensures Biquad(IdentityCoeffs, h, x).out == x
  {
  }

  /** Both biquads' histories for one channel. */
  datatype ChannelState = ChannelState(hp: History, lp: History)

  const SilentChannel: ChannelState := ChannelState(Silent, Silent)

  /** The enable flags and the coefficients of the two filters. */
  datatype FilterSettings = FilterSettings(hpOn: bool, lpOn: bool, hp: BiquadCoeffs, lp: BiquadCoeffs)

  datatype ChannelOut = ChannelOut(out: real, state: ChannelState)

  /** One sample through the cascade on one channel: the high-pass filter if enabled, then the low-pass filter if enabled. */
  function FilterStep(f: FilterSettings, ch: ChannelState, x: real): ChannelOut {
    var hpOut := if f.hpOn then Biquad(f.hp, ch.hp, x) else Filtered(x, ch.hp);
    var lpOut := if f.lpOn then Biquad(f.lp, ch.lp, hpOut.out) else Filtered(hpOut.out, ch.lp);
    ChannelOut(lpOut.out, ChannelState(hpOut.history, lpOut.history))
  }

  /**
    What one cascade step does: a disabled filter keeps its history, both
    disabled pass the sample through, an enabled high-pass shifts its history,
    the low-pass is fed the high-pass output, and the last enabled filter
    gives the result.
   */
  lemma CascadeOrder(f: FilterSettings, ch: ChannelState, x: real)
    ensures var r := FilterStep(f, ch, x);
      && (!f.hpOn ==> r.state.hp == ch.hp)
      && (!f.lpOn ==> r.state.lp == ch.lp)
      && (!f.hpOn && !f.lpOn ==> r.out == x)
      && (f.hpOn ==> r.state.hp == History(x, ch.hp.x1, BiquadOutput(f.hp, ch.hp, x), ch.hp.y1))
      && (f.hpOn && f.lpOn ==> r.state.lp.x1 == r.state.hp.y1)
      && (!f.hpOn && f.lpOn ==> r.state.lp.x1 == x)
      && (f.lpOn ==> r.out == r.state.lp.y1)
      && (f.hpOn && !f.lpOn ==> r.out == r.state.hp.y1)
  {
  }

  /** The outputs of a run of samples and the channel state it ends in. */
  datatype ChannelRun = ChannelRun(outs: seq<real>, state: ChannelState)

  /** A run of samples through the cascade on one channel, one output per input. */
  function RunChannel(f: FilterSettings, ch: ChannelState, xs: seq<real>): (r: ChannelRun)
    ensures |r.outs| == |xs|
    decreases |xs|
  {
    if xs == [] then ChannelRun([], ch)
    else
      var prev := RunChannel(f, ch, xs[..|xs| - 1]);
      var s := FilterStep(f, prev.state, xs[|xs| - 1]);
      ChannelRun(prev.outs + [s.out], s.state)
  }

  /** Running one more sample extends the outputs by that sample's output. */
  lemma RunChannelAppend(f: FilterSettings, ch: ChannelState, xs: seq<real>, x: real)
    ensures var prev := RunChannel(f, ch, xs);
      var s := FilterStep(f, prev.state, x);
      RunChannel(f, ch, xs + [x]) == ChannelRun(prev.outs + [s.out], s.state)
  {
    assert (xs + [x])[..|xs|] == xs;
  }

  /** The same, for the prefixes of one input sequence. */
  lemma RunChannelPrefix(f: FilterSettings, ch: ChannelState, xs: seq<real>, i: int)
    requires 0 <= i < |xs|
    ensures var prev := RunChannel(f, ch, xs[..i]);
      var s := FilterStep(f, prev.state, xs[i]);
      RunChannel(f, ch, xs[..i + 1]) == ChannelRun(prev.outs + [s.out], s.state)
  {
    assert xs[..i + 1][..i] == xs[..i];
  }

  /** With both filters off a run passes its input through and changes no history. */
  lemma {:induction false} BypassedRunIsIdentity(f: FilterSettings, ch: ChannelState, xs: seq<real>)
    requires !f.hpOn && !f.lpOn
    ensures RunChannel(f, ch, xs) == ChannelRun(xs, ch)
    decreases |xs|
  {
    if xs != [] {
      BypassedRunIsIdentity(f, ch, xs[..|xs| - 1]);
      assert xs[..|xs| - 1] + [xs[|xs| - 1]] == xs;
    }
  }

  /** The history a biquad reaches after a long constant input v with constant output w. */
  function SteadyHistory(v: real, w: real): History {
    History(v, v, w, w)
  }

  /** A low-pass with unity DC gain settles: at steady state a constant input comes out unchanged. */
  lemma LowPassPassesDC(c: BiquadCoeffs, v: real)
    requires c.b0 + c.b1 + c.b2 == 1.0 + c.a1 + c.a2
    ensures Biquad(c, SteadyHistory(v, v), v) == Filtered(v, SteadyHistory(v, v))
  {
    calc {
      BiquadOutput(c, SteadyHistory(v, v), v);
      (c.b0 + c.b1 + c.b2) * v - (c.a1 + c.a2) * v;
      (1.0 + c.a1 + c.a2) * v - (c.a1 + c.a2) * v;
      v;
    }
  }

  /** A high-pass whose taps sum to 0 blocks DC: at steady state a constant input gives silence. */
  lemma HighPassBlocksDC(c: BiquadCoeffs, v: real)
    requires c.b0 + c.b1 + c.b2 == 0.0
    ensures Biquad(c, SteadyHistory(v, 0.0), v) == Filtered(0.0, SteadyHistory(v, 0.0))
  {
    calc {
      BiquadOutput(c, SteadyHistory(v, 0.0), v);
      (c.b0 + c.b1 + c.b2) * v;
      0.0;
    }
  }

  /** The designed filters have these DC properties for every rate and cut-off. */
  lemma DesignedFiltersAtDC(m: Math, sampleRate: real, hpFreq: real, lpFreq: real, v: real)
    requires m.Sound() && sampleRate != 0.0
    ensures 1.0 + Alpha(m, sampleRate, hpFreq, ButterworthQ) != 0.0
      && Biquad(CalcHighPass(m, sampleRate, hpFreq), SteadyHistory(v, 0.0), v).out == 0.0
    ensures 1.0 + Alpha(m, sampleRate, lpFreq, ButterworthQ) != 0.0
      && Biquad(CalcLowPass(m, sampleRate, lpFreq), SteadyHistory(v, v), v).out == v
  {
    ButterworthNormaliserPositive(m, sampleRate, hpFreq);
    ButterworthNormaliserPositive(m, sampleRate, lpFreq);
    HighPassBlocksDC(CalcHighPass(m, sampleRate, hpFreq), v);
    LowPassPassesDC(CalcLowPass(m, sampleRate, lpFreq), v);
  }

  /** A constant input held on a low-pass-only channel at steady state keeps coming out unchanged, forever. */
  lemma {:induction false} LowPassHoldsDC(f: FilterSettings, hp: History, v: real, xs: seq<real>)
    requires !f.hpOn && f.lpOn && f.lp.b0 + f.lp.b1 + f.lp.b2 == 1.0 + f.lp.a1 + f.lp.a2
    requires forall i :: 0 <= i < |xs| ==> xs[i] == v
    ensures RunChannel(f, ChannelState(hp, SteadyHistory(v, v)), xs) == ChannelRun(xs, ChannelState(hp, SteadyHistory(v, v)))
    decreases |xs|
  {
    if xs != [] {
      var ch, ys := ChannelState(hp, SteadyHistory(v, v)), xs[..|xs| - 1];
      LowPassHoldsDC(f, hp, v, ys);
      LowPassPassesDC(f.lp, v);
      assert FilterStep(f, ch, v) == ChannelOut(v, ch);
      assert ys + [v] == xs;
      RunChannelAppend(f, ch, ys, v);
    }
  }

  /** A constant input held on a high-pass-only channel at steady state keeps being silenced, forever. */
  lemma {:induction false} HighPassHoldsSilence(f: FilterSettings, lp: History, v: real, xs: seq<real>)
    requires f.hpOn && !f.lpOn && f.hp.b0 + f.hp.b1 + f.hp.b2 == 0.0
    requires forall i :: 0 <= i < |xs| ==> xs[i] == v
    ensures var r := RunChannel(f, ChannelState(SteadyHistory(v, 0.0), lp), xs);
      && r.state == ChannelState(SteadyHistory(v, 0.0), lp)
      && forall i :: 0 <= i < |xs| ==> r.outs[i] == 0.0
    decreases |xs|
  {
    if xs != [] {
      var ch, ys := ChannelState(SteadyHistory(v, 0.0), lp), xs[..|xs| - 1];
      HighPassHoldsSilence(f, lp, v, ys);
      HighPassBlocksDC(f.hp, v);
      assert FilterStep(f, ch, v) == ChannelOut(0.0, ch);
      assert ys + [v] == xs;
      RunChannelAppend(f, ch, ys, v);
    }
  }

  /**
    Buffer bookkeeping for an in-place pass: the first i entries of cur hold
    the outputs so far and the rest still hold the inputs.
   */
  ghost predicate Tracks(cur: seq<real>, inputs: seq<real>, outs: seq<real>, i: int) {
    && 0 <= i <= |cur| && |inputs| == |cur| && |outs| == i
    && cur[..i] == outs && cur[i..] == inputs[i..]
  }

  lemma TracksStep(cur: seq<real>, inputs: seq<real>, outs: seq<real>, i: int, out: real)
    requires Tracks(cur, inputs, outs, i) && i < |cur|
    ensures cur[i] == inputs[i]
    ensures Tracks(cur[i := out], inputs, outs + [out], i + 1)
    ensures i + 1 == |cur| ==> cur[i := out] == outs + [out]
  {
    assert cur[i..][0] == inputs[i..][0];
    assert cur[i := out][..i + 1] == outs + [out];
    assert cur[i := out][i + 1..] == cur[i + 1..];
    assert cur[i + 1..] == cur[i..][1..];
  }

  class SidechainProcessor {
    const math: Math

    // Filter parameters
    var highPassFreq: real
    var lowPassFreq: real
    var highPassEnabled: bool
    var lowPassEnabled: bool

    var hpCoeffs: BiquadCoeffs
    var lpCoeffs: BiquadCoeffs

    // Filter histories, per filter and channel
    var hpL: History
    var hpR: History
    var lpL: History
    var lpR: History

    var filteredLevel: real

    // Runtime
    var currentSampleRate: real
    var currentBlockSize: int

    /** The meter level is a magnitude. */
    ghost predicate Valid()
      reads this`filteredLevel
    {
      0.0 <= filteredLevel
    }

    function Settings(): FilterSettings
      reads this`highPassEnabled, this`lowPassEnabled, this`hpCoeffs, this`lpCoeffs
    {
      FilterSettings(highPassEnabled, lowPassEnabled, hpCoeffs, lpCoeffs)
    }

    ghost function Left(): ChannelState
      reads this`hpL, this`lpL
    {
      ChannelState(hpL, lpL)
    }

    ghost function Right(): ChannelState
      reads this`hpR, this`lpR
    {
      ChannelState(hpR, lpR)
    }

    /** Both filters designed for the current rate and cut-offs, at the Butterworth Q. */
    ghost predicate CoeffsFresh()
      reads this`currentSampleRate, this`highPassFreq, this`lowPassFreq, this`hpCoeffs, this`lpCoeffs
    {
      && currentSampleRate != 0.0
      && 1.0 + Alpha(math, currentSampleRate, highPassFreq, ButterworthQ) != 0.0
      && 1.0 + Alpha(math, currentSampleRate, lowPassFreq, ButterworthQ) != 0.0
      && hpCoeffs == CalcHighPass(math, currentSampleRate, highPassFreq)
      && lpCoeffs == CalcLowPass(math, currentSampleRate, lowPassFreq)
    }

    constructor (math: Math)
      ensures Valid() && this.math == math
      ensures highPassFreq == 20.0 && lowPassFreq == 20000.0
      ensures !highPassEnabled && !lowPassEnabled
      ensures hpCoeffs == IdentityCoeffs && lpCoeffs == IdentityCoeffs
      ensures Left() == SilentChannel && Right() == SilentChannel && filteredLevel == 0.0
      ensures currentSampleRate == 44100.0 && currentBlockSize == 512
    {
      this.math := math;
      highPassFreq, lowPassFreq := 20.0, 20000.0;
      highPassEnabled, lowPassEnabled := false, false;
      hpCoeffs, lpCoeffs := IdentityCoeffs, IdentityCoeffs;
      hpL, hpR, lpL, lpR := Silent, Silent, Silent, Silent;
      filteredLevel := 0.0;
      currentSampleRate, currentBlockSize := 44100.0, 512;
    }

    method Prepare(sampleRate: real, samplesPerBlock: int)
      requires math.Sound() && sampleRate != 0.0
      modifies this`currentSampleRate, this`currentBlockSize, this`hpCoeffs, this`lpCoeffs,
        this`hpL, this`hpR, this`lpL, this`lpR, this`filteredLevel
      ensures Valid() && CoeffsFresh()
      ensures currentSampleRate == sampleRate && currentBlockSize == samplesPerBlock
      ensures Left() == SilentChannel && Right() == SilentChannel && filteredLevel == 0.0
    {
      currentSampleRate := sampleRate;
      currentBlockSize := samplesPerBlock;
      UpdateFilters();
      Reset();
    }

    /** Zero all sixteen history values and the level. */
    method Reset()
      modifies this`hpL, this`hpR, this`lpL, this`lpR, this`filteredLevel
      ensures Valid()
      ensures Left() == SilentChannel && Right() == SilentChannel && filteredLevel == 0.0
    {
      // HPF state
      hpL := Silent;
      hpR := Silent;
      // LPF state
      lpL := Silent;
      lpR := Silent;
      filteredLevel := 0.0;
    }

    /**
      Filter one sample on the left channel's histories and record its
      magnitude; the right channel's histories are not touched.
     */
    method ProcessSample(input: real) returns (output: real)
      modifies this`hpL, this`lpL, this`filteredLevel
      ensures Valid()
      ensures var r := FilterStep(Settings(), old(Left()), input); output == r.out && Left() == r.state
      ensures filteredLevel == Abs(output)
    {
      output := input;

      // Apply high-pass filter
      if highPassEnabled {
        var y := BiquadOutput(hpCoeffs, hpL, output);
        hpL := History(output, hpL.x1, y, hpL.y1);
        output := y;
      }

      // Apply low-pass filter
      if lowPassEnabled {
        var y := BiquadOutput(lpCoeffs, lpL, output);
        lpL := History(output, lpL.x1, y, lpL.y1);
        output := y;
      }

      filteredLevel := Abs(output);
    }

    /**
      Filter a buffer in place: each channel runs through the cascade on its
      own histories. A buffer without a right channel feeds the left input to
      the right histories and writes only the left channel.
     */
    method ProcessBuffer(left: array<real>, right: array?<real>)
      requires right != null ==> right.Length == left.Length && right != left
      modifies left, right, this`hpL, this`hpR, this`lpL, this`lpR
      ensures var run := RunChannel(Settings(), old(Left()), old(left[..]));
        left[..] == run.outs && Left() == run.state
      ensures var run := RunChannel(Settings(), old(Right()), if right != null then old(right[..]) else old(left[..]));
        Right() == run.state && (right != null ==> right[..] == run.outs)
    {
      ghost var f, l0, r0 := Settings(), Left(), Right();
      ghost var inL := left[..];
      ghost var inR := if right != null then right[..] else left[..];
      assert inL[..0] == [] && inR[..0] == [];
      var i := 0;
      while i < left.Length
        invariant Progress(left, right, f, l0, r0, inL, inR, i)
      {
        ProcessBufferSample(left, right, i, f, l0, r0, inL, inR);
        i := i + 1;
      }
      assert inL[..i] == inL && inR[..i] == inR;
    }

    /**
      How far an in-place pass over a buffer has got after i samples: each
      channel's histories, and the written part of each written channel, are
      those of the cascade run over that channel's first i inputs.
     */
    ghost predicate Progress(left: array<real>, right: array?<real>, f: FilterSettings, l0: ChannelState, r0: ChannelState,
                             inL: seq<real>, inR: seq<real>, i: int)
      reads this`highPassEnabled, this`lowPassEnabled, this`hpCoeffs, this`lpCoeffs,
        this`hpL, this`hpR, this`lpL, this`lpR, left, right
    {
      && Settings() == f
      && 0 <= i <= left.Length && |inL| == |inR| == left.Length
      && (right != null ==> right.Length == left.Length && right != left)
      && (right == null ==> inR == inL)
      && Tracks(left[..], inL, RunChannel(f, l0, inL[..i]).outs, i)
      && (right != null ==> Tracks(right[..], inR, RunChannel(f, r0, inR[..i]).outs, i))
      && Left() == RunChannel(f, l0, inL[..i]).state
      && Right() == RunChannel(f, r0, inR[..i]).state
    }

    /** The body of ProcessBuffer's loop: read sample i of each channel, filter it and write it back. */
    method ProcessBufferSample(left: array<real>, right: array?<real>, i: int, ghost f: FilterSettings,
                               ghost l0: ChannelState, ghost r0: ChannelState, ghost inL: seq<real>, ghost inR: seq<real>)
      requires Progress(left, right, f, l0, r0, inL, inR, i) && i < left.Length
      modifies left, right, this`hpL, this`hpR, this`lpL, this`lpR
      ensures Progress(left, right, f, l0, r0, inL, inR, i + 1)
    {
      var inputL := left[i];
      var inputR := if right != null then right[i] else inputL;
      TracksStep(left[..], inL, RunChannel(f, l0, inL[..i]).outs, i, inputL);
      if right != null {
        TracksStep(right[..], inR, RunChannel(f, r0, inR[..i]).outs, i, inputR);
      }
      var outputL, outputR := FilterFrame(inputL, inputR);
      RunChannelPrefix(f, l0, inL, i);
      RunChannelPrefix(f, r0, inR, i);
      TracksStep(left[..], inL, RunChannel(f, l0, inL[..i]).outs, i, outputL);
      if right != null {
        TracksStep(right[..], inR, RunChannel(f, r0, inR[..i]).outs, i, outputR);
      }
      left[i] := outputL;
      if right != null {
        right[i] := outputR;
      }
    }

    /** One sample of ProcessBuffer: both channels through the cascade, each on its own histories. */
    method FilterFrame(inputL: real, inputR: real) returns (outputL: real, outputR: real)
      modifies this`hpL, this`hpR, this`lpL, this`lpR
      ensures var r := FilterStep(Settings(), old(Left()), inputL); outputL == r.out && Left() == r.state
      ensures var r := FilterStep(Settings(), old(Right()), inputR); outputR == r.out && Right() == r.state
    {
      outputL := inputL;
      outputR := inputR;

      // Apply high-pass filter
      if highPassEnabled {
        // Left channel
        var yL := BiquadOutput(hpCoeffs, hpL, outputL);
        hpL := History(outputL, hpL.x1, yL, hpL.y1);
        outputL := yL;

        // Right channel
        var yR := BiquadOutput(hpCoeffs, hpR, outputR);
        hpR := History(outputR, hpR.x1, yR, hpR.y1);
        outputR := yR;
      }

      // Apply low-pass filter
      if lowPassEnabled {
        // Left channel
        var yL := BiquadOutput(lpCoeffs, lpL, outputL);
        lpL := History(outputL, lpL.x1, yL, lpL.y1);
        outputL := yL;

        // Right channel
        var yR := BiquadOutput(lpCoeffs, lpR, outputR);
        lpR := History(outputR, lpR.x1, yR, lpR.y1);
        outputR := yR;
      }
    }

    /** A new cut-off redesigns both filters; no history changes. */
    method SetHighPassFreq(freq: real)
      requires math.Sound() && currentSampleRate != 0.0
      modifies this`highPassFreq, this`hpCoeffs, this`lpCoeffs
      ensures highPassFreq == freq && CoeffsFresh()
    {
      highPassFreq := freq;
      UpdateFilters();
    }

    method SetLowPassFreq(freq: real)
      requires math.Sound() && currentSampleRate != 0.0
      modifies this`lowPassFreq, this`hpCoeffs, this`lpCoeffs
      ensures lowPassFreq == freq && CoeffsFresh()
    {
      lowPassFreq := freq;
      UpdateFilters();
    }

    method SetHighPassEnabled(enabled: bool)
      modifies this`highPassEnabled
      ensures highPassEnabled == enabled
    {
      highPassEnabled := enabled;
    }

    method SetLowPassEnabled(enabled: bool)
      modifies this`lowPassEnabled
      ensures lowPassEnabled == enabled
    {
      lowPassEnabled := enabled;
    }

    /** Redesign both filters at Q = 0.707; the design is defined for every non-zero rate. */
    method UpdateFilters()
      requires math.Sound() && currentSampleRate != 0.0
      modifies this`hpCoeffs, this`lpCoeffs
      ensures CoeffsFresh()
    {
      ButterworthNormaliserPositive(math, currentSampleRate, highPassFreq);
      ButterworthNormaliserPositive(math, currentSampleRate, lowPassFreq);
      hpCoeffs := CalcHighPass(math, currentSampleRate, highPassFreq, 0.707);
      lpCoeffs := CalcLowPass(math, currentSampleRate, lowPassFreq, 0.707);
    }

    /** The magnitude of the last sample through ProcessSample. */
    function GetFilteredLevel(): (level: real)
      reads this`filteredLevel
      requires Valid()
      ensures 0.0 <= level
    {
      filteredLevel
    }
  }
}
