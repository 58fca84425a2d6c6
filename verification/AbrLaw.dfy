/**
  The control law of engine/src/abr.rs in the terms of one sample and the baselines it leaves: which
  evidence takes which branch, by how much the target moves, and what is published. Nothing here
  refers to the branch functions of the controller; the lemmas tie them to these conditions.
 */
module AbrLaw {
  import opened Words
  import opened Abr
  import opened AbrRuns

  /** A usable sample, newer than the last one processed, with links up. */
  predicate Evidence(c: Controller, s: Sample) {
    && !s.allLinksDown && s.srt.ready && s.srt.rttMs > 0 && s.srt.latencyMs > 0
    && (c.lastSampleMs == None || s.srt.sampledAtMs > c.lastSampleMs.value)
  }

  lemma EvidenceIsProcessed(c: Controller, s: Sample)
    ensures Evidence(c, s) <==> Processes(c, Tick(s))
    ensures Evidence(c, s) ==>
              && Next(c, s).learned == Measured(c.learned, s.srt)
              && Next(c, s).lastSampleMs == Some(s.srt.sampledAtMs)
  {
  }

  // Evidence for each branch; `l` are the baselines with the sample included

  predicate SevereNow(c: Controller, l: Learned, s: Sample) {
    && c.internalBps > c.config.minBps
    && (s.srt.rttMs >= s.srt.latencyMs / 3
        || s.srt.sendBufferPackets > ToU32((l.sendBufferAverage + l.sendBufferJitter) * 4.0))
  }

  /** Half a latency window of packets at the learned throughput. */
  function HalfWindow(l: Learned, latencyMs: U32): real {
    (l.throughput / 8.0) * (latencyMs / 2) as real / 1316.0
  }

  /** The queue depth above which congestion is heavy. */
  function HeavyDepth(l: Learned, latencyMs: U32): real {
    var triple := l.sendBufferJitter * 3.0;
    var spread := if triple > l.sendBufferAverage then triple else l.sendBufferAverage;
    var depth := if l.sendBufferAverage + spread > 50.0 then l.sendBufferAverage + spread else 50.0;
    var window := HalfWindow(l, latencyMs);
    if depth < window then depth else window
  }

  predicate HeavyNow(c: Controller, l: Learned, s: Sample) {
    && s.nowMs > c.nextDecreaseMs
    && (s.srt.rttMs > s.srt.latencyMs / 5 || s.srt.sendBufferPackets > ToU32(HeavyDepth(l, s.srt.latencyMs)))
  }

  predicate LightNow(c: Controller, l: Learned, s: Sample) {
    && s.nowMs > c.nextDecreaseMs
    && (s.srt.rttMs > ToU32(l.rttAverage + RealMax(l.rttJitter * 4.0, l.rttAverage * 0.15))
        || s.srt.sendBufferPackets > ToU32(RealMax(50.0, l.sendBufferAverage + l.sendBufferJitter * 2.5)))
  }

  predicate ClearNow(c: Controller, l: Learned, s: Sample) {
    && s.nowMs > c.nextIncreaseMs
    && s.srt.rttMs < ToU32(l.rttMinimum + RealMax(1.0, l.rttJitter * 2.0))
    && l.rttAverageDelta < 0.01
  }

  /** The branch the evidence calls for, most serious first. */
  function Called(c: Controller, s: Sample): ControlState {
    var l := Next(c, s).learned;
    if SevereNow(c, l, s) then SevereCongestion
    else if HeavyNow(c, l, s) then HeavyCongestion
    else if LightNow(c, l, s) then LightCongestion
    else if ClearNow(c, l, s) then Increasing
    else Hold
  }

  lemma HeavyThreshold(l: Learned, latencyMs: U32)
    ensures QueueHeavy(l, latencyMs) == ToU32(HeavyDepth(l, latencyMs))
  {
    TimesIsProduct(l.throughput / 8.0, latencyMs / 2);
    assert Times(l.throughput / 8.0, latencyMs / 2) / 1316.0 == HalfWindow(l, latencyMs);
    hide ToU32, Times, HalfWindow;
  }

  lemma VerdictCalled(m: Controller, s: Sample)
    requires m.thresholds == ThresholdsFor(m.learned, s.srt)
    ensures Verdict(m, s) == if SevereNow(m, m.learned, s) then SevereCongestion
                             else if HeavyNow(m, m.learned, s) then HeavyCongestion
                             else if LightNow(m, m.learned, s) then LightCongestion
                             else if ClearNow(m, m.learned, s) then Increasing
                             else Hold
  {
    hide ToU32, QueueHeavy, HeavyDepth;
    HeavyThreshold(m.learned, s.srt.latencyMs);
  }

  /** On every piece of new evidence the controller takes the branch it calls for. */
  lemma TakesCalled(c: Controller, s: Sample)
    requires Evidence(c, s)
    ensures Next(c, s).controlState == Called(c, s)
  {
    hide Measured, ThresholdsFor, Verdict, ToU32, HeavyDepth;
    EvidenceIsProcessed(c, s);
    VerdictCalled(Observed(c, s.srt), s);
  }

  function Within(c: Controller, bps: int): int {
    if bps < c.config.minBps then c.config.minBps else if bps > c.config.maxBps then c.config.maxBps else bps
  }

  lemma Amounts(m: Controller, v: ControlState, nowMs: U64)
    requires WithinLimits(m)
    ensures var b := m.internalBps;
            Controlled(m, v, nowMs).internalBps ==
            match v
            case SevereCongestion => m.config.minBps
            case HeavyCongestion => Within(m, b - 100_000 - b / 10)
            case LightCongestion => Within(m, b - 100_000)
            case Increasing => Within(m, b + 30_000 + b / 30)
            case _ => b
  {
  }

  /** By how much the target moves: to the floor, by a tenth and 100 kb/s, by 100 kb/s, up by a thirtieth and 30. */
  lemma MovesBy(c: Controller, s: Sample)
    requires Evidence(c, s) && WithinLimits(c)
    ensures var b := c.internalBps;
            Next(c, s).internalBps ==
            match Called(c, s)
            case SevereCongestion => c.config.minBps
            case HeavyCongestion => Within(c, b - 100_000 - b / 10)
            case LightCongestion => Within(c, b - 100_000)
            case Increasing => Within(c, b + 30_000 + b / 30)
            case _ => b
  {
    TakesCalled(c, s);
    hide Called, Measured, ThresholdsFor, Controlled;
    var m := Observed(c, s.srt);
    Amounts(m, Verdict(m, s), s.nowMs);
    VerdictIsState(m, Verdict(m, s), s.nowMs);
    hide Verdict;
  }

  lemma VerdictIsState(m: Controller, v: ControlState, nowMs: U64)
    ensures Controlled(m, v, nowMs).controlState == v
  {
  }

  /** A tick without new evidence leaves the target, unless every link is down: then it goes to the floor. */
  lemma HoldsWithoutEvidence(c: Controller, s: Sample)
    requires !Evidence(c, s)
    ensures Next(c, s) == c.(internalBps := if s.allLinksDown then c.config.minBps else c.internalBps,
                             controlState := Next(c, s).controlState)
  {
  }

  /** The target rises exactly on new evidence of a clear path, with the increase timer past and room to rise. */
  lemma RisesExactly(c: Controller, s: Sample)
    requires WithinLimits(c)
    ensures var l := Next(c, s).learned;
            Next(c, s).internalBps > c.internalBps <==>
              && Evidence(c, s) && c.internalBps < c.config.maxBps
              && !SevereNow(c, l, s) && !HeavyNow(c, l, s) && !LightNow(c, l, s) && ClearNow(c, l, s)
  {
    hide SevereNow, HeavyNow, LightNow, ClearNow, Next;
    if Evidence(c, s) { MovesBy(c, s); } else { HoldsWithoutEvidence(c, s); }
  }

  /** It falls exactly with all links down, or on new evidence of congestion, when above the floor. */
  lemma FallsExactly(c: Controller, s: Sample)
    requires WithinLimits(c)
    ensures var l := Next(c, s).learned;
            Next(c, s).internalBps < c.internalBps <==>
              && c.internalBps > c.config.minBps
              && (s.allLinksDown
                  || (Evidence(c, s) && (SevereNow(c, l, s) || HeavyNow(c, l, s) || LightNow(c, l, s))))
  {
    hide SevereNow, HeavyNow, LightNow, ClearNow, Next;
    if Evidence(c, s) { MovesBy(c, s); } else { HoldsWithoutEvidence(c, s); }
  }

  // What a tick applies and publishes

  /** The applied bitrate is the target cut to whole 100 kb/s; without evidence the current one is held. */
  lemma AppliesWholeSteps(c: Controller, s: Sample)
    ensures var b := Next(c, s).internalBps;
            Applied(c, s) == Within(c, if s.allLinksDown || Evidence(c, s) then b - b % 100_000 else s.currentVideoBps)
  {
    hide Next;
    EvidenceIsProcessed(c, s);
  }

  lemma Publishes(c: Controller, s: Sample)
    ensures var d := DecisionFor(c, s);
            var l := Next(c, s).learned;
            && d.appliedBps == Applied(c, s)
            && d.mediaBudgetBps == (if Next(c, s).internalBps + s.audioBps > U64_MAX then U64_MAX
                                    else Next(c, s).internalBps + s.audioBps)
            && (d.changed <==> d.appliedBps != Within(c, s.currentVideoBps))
            && (d.emergency <==> s.allLinksDown || (Evidence(c, s) && SevereNow(c, l, s)))
            && (d.stressed <==>
                  s.allLinksDown
                  || (Evidence(c, s) && (SevereNow(c, l, s) || HeavyNow(c, l, s) || LightNow(c, l, s))))
            && d.thresholds == Next(c, s).thresholds
  {
    hide SevereNow, HeavyNow, LightNow, ClearNow, Next, Applied;
    EvidenceIsProcessed(c, s);
    if Evidence(c, s) { TakesCalled(c, s); }
  }

  /** The published label: the branch taken, the outage, a wait for usable statistics, or the last one kept. */
  lemma PublishesState(c: Controller, s: Sample)
    ensures DecisionFor(c, s).controlState ==
            if s.allLinksDown then Disconnected
            else if Evidence(c, s) then Called(c, s)
            else if s.srt.ready && s.srt.rttMs > 0 && s.srt.latencyMs > 0 then c.controlState
            else Waiting
  {
    if Evidence(c, s) { TakesCalled(c, s); }
    hide Called, Applied;
  }

  /** The limits a configuration turns into: at least 100 kb/s on top, nothing above that top, start in between. */
  lemma NormalizedLimits(limits: Limits)
    ensures var n := Normalized(limits);
            && n.maxBps == (if limits.maxBps >= 100_000 then limits.maxBps else 100_000)
            && n.minBps == (if limits.minBps <= n.maxBps then limits.minBps else n.maxBps)
            && n.startBps == (if limits.startBps < n.minBps then n.minBps
                              else if limits.startBps > n.maxBps then n.maxBps else limits.startBps)
            && Normalized(n) == n
  {
  }

  /** A first sample with a short queue and a short RTT, half a second into the session, raises the target. */
  lemma FirstTickRaises(limits: Limits, s: Sample)
    requires limits == Limits(500_000, 6_000_000, 20_000_000) && s.nowMs == 1000 && !s.allLinksDown
    requires s.srt.ready && s.srt.rttMs == 10 && s.srt.latencyMs == 2000
    requires s.srt.sendBufferPackets == 10 && s.srt.sendRateBps == 8_000_000
    ensures Next(NewController(limits), s).internalBps == 6_230_000
  {
    var c := NewController(limits);
    EvidenceIsProcessed(c, s);
    MovesBy(c, s);
    var l := Measured(c.learned, s.srt);
    assert l.throughput == 234.375 && l.sendBufferAverage == 0.1 && l.sendBufferJitter == 10.0;
    assert HalfWindow(l, 2000) == 234.375 / 8.0 * 1000.0 / 1316.0;
    assert HeavyDepth(l, 2000) > 22.0;
  }

  // Decreases over whole runs

  function Drops(c: Controller, ops: seq<Op>, n: nat): nat
    requires n <= |ops|
  {
    if n == 0 then 0 else Drops(c, ops, n - 1) + if Decreasing(MoveAt(c, ops, n - 1)) then 1 else 0
  }

  lemma StepDrop(c: Controller, op: Op)
    requires WithinLimits(c) && op.Tick?
    ensures var m, d := MoveOf(c, op), Apply(c, op);
            && (m.Heavy? || m.Light? ==> 10 * (d.internalBps + 1_000_000) >= 9 * (c.internalBps + 1_000_000))
            && (Decreasing(m) ==> d.internalBps <= Within(c, c.internalBps - 100_000))
            && (m.Raise? || m.Steady? ==> d.internalBps >= c.internalBps)
            && (!m.Raise? ==> d.internalBps <= c.internalBps)
  {
    if Processes(c, op) {
      var m := Observed(c, op.sample.srt);
      Amounts(m, Verdict(m, op.sample), op.sample.nowMs);
      hide Controlled, Measured, ThresholdsFor;
    }
  }

  lemma CompoundTenth(p: nat, q: nat, first: nat, before: nat, after: nat)
    requires p * before >= q * first && 10 * after >= 9 * before
    ensures (10 * p) * after >= (9 * q) * first
  {
    Scale(p, 9 * before, 10 * after);
    assert p * (9 * before) == 9 * (p * before);
    assert (10 * p) * after == p * (10 * after);
    assert (9 * q) * first == 9 * (q * first);
  }

  /** Without severe drops and outages, k decreases leave at least (9/10)^k of the shifted target. */
  lemma {:induction false} DropEnvelope(c: Controller, ops: seq<Op>, n: nat)
    requires WithinLimits(c) && n <= |ops| && forall i :: 0 <= i < n ==> ops[i].Tick?
    ensures (forall i :: 0 <= i < n ==> !MoveAt(c, ops, i).Severe? && !MoveAt(c, ops, i).Outage?) ==>
              var k := Drops(c, ops, n);
              Pow(10, k) * (At(c, ops, n).internalBps + 1_000_000) >= Pow(9, k) * (c.internalBps + 1_000_000)
  {
    hide Apply, MoveOf;
    if n > 0 && forall i :: 0 <= i < n ==> !MoveAt(c, ops, i).Severe? && !MoveAt(c, ops, i).Outage? {
      DropEnvelope(c, ops, n - 1);
      LimitsKept(c, ops, n - 1);
      var k, b := Drops(c, ops, n - 1), At(c, ops, n - 1);
      StepDrop(b, ops[n - 1]);
      TimerStep(b, ops[n - 1]);
      var first, before := c.internalBps + 1_000_000, b.internalBps + 1_000_000;
      var after := At(c, ops, n).internalBps + 1_000_000;
      assert !MoveAt(c, ops, n - 1).Severe? && !MoveAt(c, ops, n - 1).Outage?;
      if Decreasing(MoveAt(c, ops, n - 1)) {
        CompoundTenth(Pow(10, k), Pow(9, k), first, before, after);
      } else {
        Scale(Pow(10, k), before, after);
      }
    }
  }

  /** Without raises, k decreases of any kind take off at least 100 kb/s each, down to the floor. */
  lemma {:induction false} DropsFast(c: Controller, ops: seq<Op>, n: nat)
    requires WithinLimits(c) && n <= |ops| && forall i :: 0 <= i < n ==> ops[i].Tick?
    ensures (forall i :: 0 <= i < n ==> !MoveAt(c, ops, i).Raise?) ==>
              At(c, ops, n).internalBps <= Within(c, c.internalBps - 100_000 * Drops(c, ops, n))
    ensures At(c, ops, n).config == c.config
  {
    hide Apply, MoveOf;
    if n > 0 {
      DropsFast(c, ops, n - 1);
      LimitsKept(c, ops, n - 1);
      StepDrop(At(c, ops, n - 1), ops[n - 1]);
      TickKeepsConfig(At(c, ops, n - 1), ops[n - 1]);
    }
  }

  lemma TickKeepsConfig(c: Controller, op: Op)
    requires WithinLimits(c) && op.Tick?
    ensures Apply(c, op).config == c.config
  {
    NextKeepsConfig(c, op.sample);
  }
}
