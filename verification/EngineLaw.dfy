/**
  What one tick of the engine does (engine/src/lib.rs:587-637), in the terms of the statistics last
  submitted, the configured latency, the session and the links: when it learns, which limits it
  compares which figure with, where the target goes and what is applied.
 */
module EngineLaw {
  import opened Words
  import opened Abr
  import opened Engine
  import Runs = EngineRuns
  import Law = AbrLaw
  import Base = AbrBaselines
  import AbrRuns

  /** The latency a sample is judged against: the reported one, else the configured one. */
  function Latency(e: State): U32 {
    if e.stats.latencyMs > 0 then e.stats.latencyMs else if e.latencyMs > 0 then e.latencyMs else 1
  }

  predicate Up(e: State) {
    e.session == SESSION_CONNECTED && exists i :: 0 <= i < |e.links| && e.links[i].enabled && e.links[i].connected
  }

  /** The statistics in hand are usable, at most 200 ms old, and newer than the last ones used. */
  predicate Usable(e: State, nowMs: U64) {
    && nowMs <= e.stats.sampledAtMs + 200 && e.stats.rttMs > 0
    && (e.abr.lastSampleMs.Some? ==> e.stats.sampledAtMs > e.abr.lastSampleMs.value)
  }

  /** A tick learns exactly when the session and a link are up and the statistics are usable. */
  lemma LearnsExactly(e: State, nowMs: U64)
    ensures Runs.Learns(e, Tick(nowMs)) <==> Up(e) && Usable(e, nowMs)
    ensures Law.Evidence(e.abr, SampleOf(e, nowMs)) <==> Up(e) && Usable(e, nowMs)
    ensures SampleOf(e, nowMs).allLinksDown <==> !Up(e)
  {
  }

  /** A tick passes on the depth, RTT, send rate and latency of those statistics, and the current bitrate. */
  lemma PassesOn(e: State, nowMs: U64)
    ensures var s := SampleOf(e, nowMs);
            && s.srt.sendBufferPackets == e.stats.sendBufferPackets && s.srt.rttMs == e.stats.rttMs
            && s.srt.sendRateBps == e.stats.sendRateBps && s.srt.latencyMs == Latency(e)
            && s.srt.sampledAtMs == e.stats.sampledAtMs
            && s.nowMs == nowMs && s.currentVideoBps == e.currentVideoBps && s.audioBps == e.audioBps
  {
  }

  /** After a tick that learns, the controller remembers the submitted depth and RTT, and its averages moved to them. */
  lemma LearnsSubmitted(e: State, nowMs: U64)
    requires Up(e) && Usable(e, nowMs)
    ensures var l, m, t := e.abr.learned, Step(e, Tick(nowMs)).abr.learned, e.stats;
            var depth, rate, rise := t.sendBufferPackets as real, t.sendRateBps as real / 1024.0,
                                     t.rttMs as real - l.previousRttMs as real;
            && m.previousSendBuffer == t.sendBufferPackets && m.previousRttMs == t.rttMs
            && m.throughput - rate == 0.97 * (l.throughput - rate)
            && m.sendBufferAverage - depth == 0.99 * (l.sendBufferAverage - depth)
            && m.rttAverageDelta - rise == 0.8 * (l.rttAverageDelta - rise)
  {
    var s := SampleOf(e, nowMs);
    LearnsExactly(e, nowMs);
    PassesOn(e, nowMs);
    Law.EvidenceIsProcessed(e.abr, s);
    Base.ThroughputStep(e.abr.learned, s.srt);
    Base.DepthStep(e.abr.learned, s.srt);
    Base.DeltaStep(e.abr.learned, s.srt);
    hide Measured, Next, SampleOf;
  }

  /** Over whole runs: the figures learned are those of the call that last submitted any. */
  lemma LearnsLastSubmitted(e: State, ops: seq<Op>, n: nat) returns (i: nat)
    requires e.stats == NO_STATS && n < |ops| && ops[n].Tick?
    requires Up(At(e, ops, n)) && Usable(At(e, ops, n), ops[n].nowMs)
    ensures i < n && Runs.InHandSince(ops, i, n)
    ensures var l, m, t := At(e, ops, n).abr.learned, At(e, ops, n + 1).abr.learned, ops[i].stats;
            && m.previousSendBuffer == t.sendBufferPackets && m.previousRttMs == t.rttMs
            && m.throughput - t.sendRateBps as real / 1024.0 == 0.97 * (l.throughput - t.sendRateBps as real / 1024.0)
            && At(e, ops, n + 1).abr.lastSampleMs == Some(t.sampledAtMs)
  {
    hide Step;
    var b := At(e, ops, n);
    LearnsExactly(b, ops[n].nowMs);
    Runs.LearnsOnlyRecent(e, ops, n);
    LearnsSubmitted(b, ops[n].nowMs);
    Runs.LastSampleStep(b, ops[n]);
    i :| i < n && Runs.InHandSince(ops, i, n) && b.stats == ops[i].stats;
  }

  // Where the target goes

  /** The branch the submitted figures call for; the RTT limits are a third and a fifth of the latency. */
  function Called(e: State, nowMs: U64): ControlState {
    var t, c, l := e.stats, e.abr, Step(e, Tick(nowMs)).abr.learned;
    if c.internalBps > c.config.minBps
       && (t.rttMs >= Latency(e) / 3
           || t.sendBufferPackets > ToU32((l.sendBufferAverage + l.sendBufferJitter) * 4.0)) then SevereCongestion
    else if nowMs > c.nextDecreaseMs
            && (t.rttMs > Latency(e) / 5
                || t.sendBufferPackets > ToU32(Law.HeavyDepth(l, Latency(e)))) then HeavyCongestion
    else if nowMs > c.nextDecreaseMs
            && (t.rttMs > ToU32(l.rttAverage + RealMax(l.rttJitter * 4.0, l.rttAverage * 0.15))
                || t.sendBufferPackets > ToU32(RealMax(50.0, l.sendBufferAverage + l.sendBufferJitter * 2.5)))
    then LightCongestion
    else if nowMs > c.nextIncreaseMs
            && t.rttMs < ToU32(l.rttMinimum + RealMax(1.0, l.rttJitter * 2.0)) && l.rttAverageDelta < 0.01
    then Increasing
    else Hold
  }

  lemma CalledAlike(e: State, nowMs: U64)
    ensures Called(e, nowMs) == Law.Called(e.abr, SampleOf(e, nowMs))
  {
    PassesOn(e, nowMs);
    hide ToU32, Law.HeavyDepth, Next, SampleOf, Latency;
  }

  /** The new target of every tick, from the figures submitted. */
  lemma TickMoves(e: State, nowMs: U64)
    requires AbrRuns.WithinLimits(e.abr)
    ensures var b, c := e.abr.internalBps, e.abr;
            Step(e, Tick(nowMs)).abr.internalBps ==
            if !Up(e) then c.config.minBps
            else if !Usable(e, nowMs) then b
            else match Called(e, nowMs)
              case SevereCongestion => c.config.minBps
              case HeavyCongestion => Law.Within(c, b - 100_000 - b / 10)
              case LightCongestion => Law.Within(c, b - 100_000)
              case Increasing => Law.Within(c, b + 30_000 + b / 30)
              case _ => b
  {
    var s := SampleOf(e, nowMs);
    LearnsExactly(e, nowMs);
    if Up(e) && Usable(e, nowMs) {
      CalledAlike(e, nowMs);
      Law.MovesBy(e.abr, s);
    } else {
      Law.HoldsWithoutEvidence(e.abr, s);
    }
    hide Next, Called, Law.Called, SampleOf, Up, Usable;
  }

  /** The bitrate every tick applies: the target in whole 100 kb/s, or the current one within the limits. */
  lemma TickApplies(e: State, nowMs: U64)
    ensures var f := Step(e, Tick(nowMs)); var b := f.abr.internalBps;
            f.currentVideoBps ==
            Law.Within(e.abr, if !Up(e) || Usable(e, nowMs) then b - b % 100_000 else e.currentVideoBps)
  {
    LearnsExactly(e, nowMs);
    PassesOn(e, nowMs);
    Law.AppliesWholeSteps(e.abr, SampleOf(e, nowMs));
    hide Next, Applied, SampleOf, Up, Usable;
  }

  /** What a tick publishes: target and audio as budget, whether the bitrate changed, and the alarms. */
  lemma TickPublishes(e: State, nowMs: U64)
    ensures var d, f := Runs.Published(e, nowMs), Step(e, Tick(nowMs));
            var called := Called(e, nowMs);
            var learns := Up(e) && Usable(e, nowMs);
            && d.appliedBps == f.currentVideoBps
            && d.mediaBudgetBps == (if f.abr.internalBps + e.audioBps > U64_MAX then U64_MAX
                                    else f.abr.internalBps + e.audioBps)
            && (d.changed <==> f.currentVideoBps != Law.Within(e.abr, e.currentVideoBps))
            && (d.emergency <==> !Up(e) || (learns && called == SevereCongestion))
            && (d.stressed <==> !Up(e) || (learns && called != Increasing && called != Hold))
  {
    LearnsExactly(e, nowMs);
    PassesOn(e, nowMs);
    CalledAlike(e, nowMs);
    Law.Publishes(e.abr, SampleOf(e, nowMs));
    hide Next, Applied, SampleOf, Up, Usable, Called, DecisionFor;
    hide Law.SevereNow, Law.HeavyNow, Law.LightNow, Law.ClearNow;
  }

  /** The published ratio is the retransmitted share in thousandths, rounded down, and at most 1000. */
  lemma RetransmitShare(t: TransportStats)
    ensures var r, sent := RetransmitPermille(t), if t.sentUniqueBytes == 0 then 1 else t.sentUniqueBytes;
            && r <= 1000 && r * sent <= t.retransmittedBytes * 1000
            && (r < 1000 ==> t.retransmittedBytes * 1000 < (r + 1) * sent)
  {
    var sent := if t.sentUniqueBytes == 0 then 1 else t.sentUniqueBytes;
    var product := t.retransmittedBytes * 1000;
    var q := product / sent;
    assert q * sent <= product < (q + 1) * sent;
    if q > 1000 {
      AbrRuns.Scale(sent, 1000, q);
      assert sent * 1000 <= sent * q;
    }
  }

  /** Whether the last start or stop among the first `n` calls was a start. */
  predicate Started(e: State, ops: seq<Op>, n: nat)
    requires n <= |ops|
  {
    if n == 0 then e.running
    else if ops[n - 1].Start? then true
    else if ops[n - 1].Stop? then false
    else Started(e, ops, n - 1)
  }

  /** The engine is running exactly since its last start, if it has not been stopped after it. */
  lemma {:induction false} RunsSinceStart(e: State, ops: seq<Op>, n: nat)
    requires n <= |ops|
    ensures At(e, ops, n).running <==> Started(e, ops, n)
  {
    hide Next, Applied;
    if n > 0 { RunsSinceStart(e, ops, n - 1); }
  }
}
