/**
  Block-level consequences of the ducker model: a sample of a block is
  settled once it has run, so the delay property after a clear reaches
  every sample of a `process` block, not just the last one; and the
  latency the ducker reports fits its delay lines.
 */
module DuckingBlocks {
  import opened DSPUtils
  import opened Ducking

  /** A longer run of one block only appends: the first n samples' records are those of the run of n samples. */
  lemma RunGrows(m: Math, p: Params, s: DuckState, input: Inputs, n: nat)
    requires Ready(p, s) && Fits(input, n + 1)
    ensures var a, b := Run(m, p, s, input, n), Run(m, p, s, input, n + 1);
      && b.outL[..n] == a.outL && b.outR[..n] == a.outR
      && b.dryL[..n] == a.dryL && b.dryR[..n] == a.dryR && b.gains[..n] == a.gains
  {
    var t := Tick(m, p, Run(m, p, s, input, n).state, input.stereo, input.mainL[n], input.mainR[n], SidechainSample(input, n));
    RunStep(m, p, s, input, n, t);
  }

  /** Sample i of a block is settled once it has run: every longer run keeps its outputs, dry samples and gain. */
  lemma {:induction false} RunPrefix(m: Math, p: Params, s: DuckState, input: Inputs, n: nat, i: nat)
    requires Ready(p, s) && Fits(input, n) && i < n
    ensures var a, b := Run(m, p, s, input, i + 1), Run(m, p, s, input, n);
      && b.outL[i] == a.outL[i] && b.outR[i] == a.outR[i]
      && b.dryL[i] == a.dryL[i] && b.dryR[i] == a.dryR[i] && b.gains[i] == a.gains[i]
    decreases n
  {
    if i + 1 < n {
      RunPrefix(m, p, s, input, n - 1, i);
      RunGrows(m, p, s, input, n - 1);
      var c, b := Run(m, p, s, input, n - 1), Run(m, p, s, input, n);
      assert b.outL[i] == b.outL[..n - 1][i] && b.outR[i] == b.outR[..n - 1][i];
      assert b.dryL[i] == b.dryL[..n - 1][i] && b.dryR[i] == b.dryR[..n - 1][i];
      assert b.gains[i] == b.gains[..n - 1][i];
    }
  }

  /**
    The delay property for every sample of a block after a clear: dry
    sample i is main input i - lookAhead, or silence when fewer than
    lookAhead + 1 samples have arrived.
   */
  lemma DryAfterResetAt(m: Math, p: Params, s: DuckState, input: Inputs, n: nat, i: nat)
    requires s == Cleared(|s.lineL|) && Ready(p, s) && Fits(input, n) && i < n
    ensures Run(m, p, s, input, n).dryL[i] == if p.lookAhead <= i then input.mainL[i - p.lookAhead] else 0.0
    ensures input.stereo ==>
      Run(m, p, s, input, n).dryR[i] == if p.lookAhead <= i then input.mainR[i - p.lookAhead] else 0.0
  {
    RunPrefix(m, p, s, input, n, i);
    DryAfterReset(m, p, s, input, i + 1);
  }

  /**
    Once prepared, a look-ahead of at most 20 ms gives a latency that fits
    the delay lines, so `process` can run.
   */
  lemma LatencyFits(d: Ducker)
    requires d.LookAheadFresh() && d.Prepared() && 0.0 <= d.lookAheadMs <= 20.0 && 0.0 <= d.currentSampleRate
    ensures 0 <= d.GetLatencyInSamples() < |d.delayLineL|
  {
    LookAheadFits(d.lookAheadMs, d.currentSampleRate);
  }
}
