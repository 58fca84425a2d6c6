/**
  The adaptive bitrate controller (engine/src/abr.rs). The value-level functions say
  what one call computes; the class updates its fields the way the source does and is
  proved against them.
 */
module Abr {
  import opened Words

  const INCREASE_MIN_BPS: U64 := 30_000
  const INCREASE_INTERVAL_MS: U64 := 500
  const INCREASE_SCALE: U64 := 30
  const DECREASE_MIN_BPS: U64 := 100_000
  const DECREASE_INTERVAL_MS: U64 := 200
  const DECREASE_FAST_INTERVAL_MS: U64 := 250
  const DECREASE_SCALE: U64 := 10
  const ROUNDING_BPS: U64 := 100_000

  /** Limits as configured, before normalization. */
  datatype Limits = Limits(minBps: U64, startBps: U64, maxBps: U64)

  /** Limits the controller works with. */
  type Config = c: Limits | c.minBps <= c.maxBps && ROUNDING_BPS <= c.maxBps
    witness Limits(0, 0, ROUNDING_BPS)

  datatype LinkCapacity = LinkCapacity(
    enabled: bool, payloadEligible: bool, capacityReady: bool, targetBps: U64, deliveredBps: U64)

  datatype SrtCapacity = SrtCapacity(
    ready: bool, sampledAtMs: U64, bandwidthBps: U64, sendRateBps: U64, sendBufferMs: U32,
    sendBufferPackets: U32, rttMs: U32, latencyMs: U32, retransmitPermille: U32, droppedBytes: U64)

  datatype Sample = Sample(
    links: seq<LinkCapacity>, audioBps: U64, currentVideoBps: U64, nowMs: U64,
    capacityReady: bool, allLinksDown: bool, srt: SrtCapacity)

  /** The published name of the branch the controller last took. */
  datatype ControlState =
    | Disconnected | Waiting | Hold | Increasing
    | LightCongestion | HeavyCongestion | SevereCongestion

  /** Baselines learned from the processed samples. */
  datatype Learned = Learned(
    sendBufferAverage: real, sendBufferJitter: real, previousSendBuffer: U32,
    rttAverage: real, rttAverageDelta: real, previousRttMs: U32,
    rttMinimum: real, rttJitter: real, throughput: real)

  datatype Thresholds = Thresholds(
    queueLight: U32, queueHeavy: U32, queueSevere: U32, rttIncreaseBelowMs: U32, rttDecreaseAboveMs: U32)

  datatype Controller = Controller(
    config: Config, internalBps: U64, lastSampleMs: Option<U64>, learned: Learned,
    nextIncreaseMs: U64, nextDecreaseMs: U64, controlState: ControlState, thresholds: Thresholds)

  datatype Decision = Decision(
    mediaBudgetBps: U64, appliedBps: U64, changed: bool, emergency: bool, stressed: bool,
    controlState: ControlState, thresholds: Thresholds)

  const UNLEARNED := Learned(0.0, 0.0, 0, 0.0, 0.0, 300, 200.0, 0.0, 0.0)
  const NO_THRESHOLDS := Thresholds(0, 0, 0, 0, 0)

  function Normalized(c: Limits): Config {
    var maxBps := Max(c.maxBps, ROUNDING_BPS);
    var minBps := Min(c.minBps, maxBps);
    Limits(minBps, Clamp(c.startBps, minBps, maxBps), maxBps)
  }

  function NewController(limits: Limits): Controller {
    var config := Normalized(limits);
    Controller(config, config.startBps, None, UNLEARNED, 0, 0, Waiting, NO_THRESHOLDS)
  }

  function InLimits(c: Controller, bps: U64): U64 {
    Clamp(bps, c.config.minBps, c.config.maxBps)
  }

  function RoundedBps(bps: U64): U64 {
    bps / ROUNDING_BPS * ROUNDING_BPS
  }

  /** The source's saturating float conversion, on reals. */
  function ToU32(value: real): U32 {
    if value <= 0.0 then 0
    else if value >= U32_MAX as real then U32_MAX
    else value.Floor
  }

  function WithMaxBps(c: Controller, maxBps: U64): Controller {
    var m := Max(Max(maxBps, c.config.minBps), ROUNDING_BPS);
    c.(config := c.config.(maxBps := m), internalBps := Min(c.internalBps, m))
  }

  function WithCurrentBps(c: Controller, currentBps: U64): Controller {
    c.(internalBps := InLimits(c, currentBps))
  }

  function ResetForBitrate(c: Controller, currentBps: U64): Controller {
    Controller(c.config, InLimits(c, currentBps), None, UNLEARNED, 0, 0, Waiting, NO_THRESHOLDS)
  }

  /** The baselines after one more processed sample. */
  function Measured(l: Learned, srt: SrtCapacity): Learned {
    var depth := srt.sendBufferPackets as real;
    var rtt := srt.rttMs as real;
    var rttDelta := rtt - l.previousRttMs as real;
    var averageDelta := l.rttAverageDelta * 0.8 + rttDelta * 0.2;
    var drifted := l.rttMinimum * 1.001;
    Learned(
      l.sendBufferAverage * 0.99 + depth * 0.01,
      RealMax(l.sendBufferJitter * 0.99, depth - l.previousSendBuffer as real),
      srt.sendBufferPackets,
      if l.rttAverage == 0.0 then rtt else l.rttAverage * 0.99 + rtt * 0.01,
      averageDelta,
      srt.rttMs,
      if srt.rttMs != 100 && rtt < drifted && averageDelta < 1.0 then rtt else drifted,
      RealMax(l.rttJitter * 0.99, rttDelta),
      l.throughput * 0.97 + srt.sendRateBps as real / 1024.0 * 0.03)
  }

  /** A real multiplied by a natural number (see TimesIsProduct). */
  function Times(x: real, n: nat): real {
    if n == 0 then 0.0 else Times(x, n - 1) + x
  }

  lemma {:induction false} TimesIsProduct(x: real, n: nat)
    ensures Times(x, n) == x * n as real
  {
    if n > 0 { TimesIsProduct(x, n - 1); }
  }

  function QueueSevere(l: Learned): U32 {
    ToU32((l.sendBufferAverage + l.sendBufferJitter) * 4.0)
  }

  function QueueHeavy(l: Learned, latencyMs: U32): U32 {
    var depth := RealMax(50.0, l.sendBufferAverage + RealMax(l.sendBufferJitter * 3.0, l.sendBufferAverage));
    var halfLatencyPackets := Times(l.throughput / 8.0, latencyMs / 2) / 1316.0;
    ToU32(RealMin(depth, halfLatencyPackets))
  }

  function QueueLight(l: Learned): U32 {
    ToU32(RealMax(50.0, l.sendBufferAverage + l.sendBufferJitter * 2.5))
  }

  function RttDecreaseAbove(l: Learned): U32 {
    ToU32(l.rttAverage + RealMax(l.rttJitter * 4.0, l.rttAverage * 0.15))
  }

  function RttIncreaseBelow(l: Learned): U32 {
    ToU32(l.rttMinimum + RealMax(1.0, l.rttJitter * 2.0))
  }

  function ThresholdsFor(l: Learned, srt: SrtCapacity): Thresholds {
    Thresholds(QueueLight(l), QueueHeavy(l, srt.latencyMs), QueueSevere(l), RttIncreaseBelow(l), RttDecreaseAbove(l))
  }

  /** A sample that carries new congestion evidence: usable, and newer than the last one used. */
  predicate Fresh(c: Controller, srt: SrtCapacity) {
    && srt.ready && srt.rttMs != 0 && srt.latencyMs != 0
    && (c.lastSampleMs.Some? ==> c.lastSampleMs.value < srt.sampledAtMs)
  }

  function Observed(c: Controller, srt: SrtCapacity): Controller {
    var learned := Measured(c.learned, srt);
    c.(lastSampleMs := Some(srt.sampledAtMs), learned := learned, thresholds := ThresholdsFor(learned, srt))
  }

  predicate SevereByRtt(srt: SrtCapacity) { srt.rttMs >= srt.latencyMs / 3 }
  predicate SevereByDepth(m: Controller, srt: SrtCapacity) { srt.sendBufferPackets > m.thresholds.queueSevere }
  predicate HeavyEvidence(m: Controller, srt: SrtCapacity) {
    srt.rttMs > srt.latencyMs / 5 || srt.sendBufferPackets > m.thresholds.queueHeavy
  }
  predicate LightByRtt(m: Controller, srt: SrtCapacity) { srt.rttMs > m.thresholds.rttDecreaseAboveMs }
  predicate LightByDepth(m: Controller, srt: SrtCapacity) { srt.sendBufferPackets > m.thresholds.queueLight }
  predicate MayIncrease(m: Controller, srt: SrtCapacity) {
    srt.rttMs < m.thresholds.rttIncreaseBelowMs && m.learned.rttAverageDelta < 0.01
  }

  /** The branch the control law takes once a fresh sample has been observed. */
  function Verdict(m: Controller, s: Sample): ControlState {
    if m.internalBps > m.config.minBps && (SevereByRtt(s.srt) || SevereByDepth(m, s.srt)) then SevereCongestion
    else if s.nowMs > m.nextDecreaseMs && HeavyEvidence(m, s.srt) then HeavyCongestion
    else if s.nowMs > m.nextDecreaseMs && (LightByRtt(m, s.srt) || LightByDepth(m, s.srt)) then LightCongestion
    else if s.nowMs > m.nextIncreaseMs && MayIncrease(m, s.srt) then Increasing
    else Hold
  }

  function HeavyStep(bps: U64): U64 { SaturatingAdd(DECREASE_MIN_BPS, bps / DECREASE_SCALE) }
  function RaiseStep(bps: U64): U64 { SaturatingAdd(INCREASE_MIN_BPS, bps / INCREASE_SCALE) }

  /** The controller after the branch `v` was taken at time `nowMs`. */
  function Controlled(m: Controller, v: ControlState, nowMs: U64): Controller {
    var b := m.internalBps;
    var moved := match v {
      case SevereCongestion =>
        m.(internalBps := m.config.minBps, nextDecreaseMs := SaturatingAdd(nowMs, DECREASE_INTERVAL_MS))
      case HeavyCongestion =>
        m.(internalBps := SaturatingSub(b, HeavyStep(b)),
           nextDecreaseMs := SaturatingAdd(nowMs, DECREASE_FAST_INTERVAL_MS))
      case LightCongestion =>
        m.(internalBps := SaturatingSub(b, DECREASE_MIN_BPS),
           nextDecreaseMs := SaturatingAdd(nowMs, DECREASE_INTERVAL_MS))
      case Increasing =>
        m.(internalBps := SaturatingAdd(b, RaiseStep(b)),
           nextIncreaseMs := SaturatingAdd(nowMs, INCREASE_INTERVAL_MS))
      case _ => m
    };
    moved.(internalBps := InLimits(m, moved.internalBps), controlState := v)
  }

  /** The controller after one tick. */
  function Next(c: Controller, s: Sample): Controller {
    if s.allLinksDown then
      c.(internalBps := c.config.minBps, controlState := Disconnected)
    else if !Fresh(c, s.srt) then
      if s.srt.ready && s.srt.rttMs != 0 && s.srt.latencyMs != 0 then c else c.(controlState := Waiting)
    else
      var m := Observed(c, s.srt);
      Controlled(m, Verdict(m, s), s.nowMs)
  }

  /** The video bitrate one tick applies. */
  function Applied(c: Controller, s: Sample): U64 {
    if !s.allLinksDown && !Fresh(c, s.srt) then InLimits(c, s.currentVideoBps)
    else InLimits(c, RoundedBps(Next(c, s).internalBps))
  }

  predicate Congested(state: ControlState) {
    state.SevereCongestion? || state.HeavyCongestion? || state.LightCongestion?
  }

  function DecisionFor(c: Controller, s: Sample): Decision {
    var next := Next(c, s);
    var applied := Applied(c, s);
    var acted := !s.allLinksDown && Fresh(c, s.srt);
    Decision(
      SaturatingAdd(next.internalBps, s.audioBps), applied, applied != InLimits(c, s.currentVideoBps),
      s.allLinksDown || (acted && next.controlState == SevereCongestion),
      s.allLinksDown || (acted && Congested(next.controlState)),
      next.controlState, next.thresholds)
  }

  class AbrController {
    var config: Config
    var internalBps: U64
    var lastSampleMs: Option<U64>
    var learned: Learned
    var nextIncreaseMs: U64
    var nextDecreaseMs: U64
    var controlState: ControlState
    var thresholds: Thresholds

    ghost function View(): Controller
      reads this
    {
      Controller(config, internalBps, lastSampleMs, learned, nextIncreaseMs, nextDecreaseMs, controlState, thresholds)
    }

    constructor (limits: Limits)
      ensures View() == NewController(limits)
    {
      var normalized := Normalized(limits);
      config := normalized;
      internalBps := normalized.startBps;
      lastSampleMs := None;
      learned := UNLEARNED;
      nextIncreaseMs, nextDecreaseMs := 0, 0;
      controlState := Waiting;
      thresholds := NO_THRESHOLDS;
    }

    method SetMaxBps(maxBps: U64) returns (m: U64)
      modifies this
      ensures View() == WithMaxBps(old(View()), maxBps)
      ensures m == config.maxBps
    {
      m := Max(Max(maxBps, config.minBps), ROUNDING_BPS);
      config := config.(maxBps := m);
      internalBps := Min(internalBps, m);
    }

    method SetCurrentBps(currentBps: U64) returns (b: U64)
      modifies this`internalBps
      ensures View() == WithCurrentBps(old(View()), currentBps)
      ensures b == internalBps
    {
      b := Clamp(currentBps, config.minBps, config.maxBps);
      internalBps := b;
    }

    method Reset(currentBps: U64)
      modifies this
      ensures View() == ResetForBitrate(old(View()), currentBps)
    {
      internalBps := Clamp(currentBps, config.minBps, config.maxBps);
      lastSampleMs := None;
      learned := UNLEARNED;
      nextIncreaseMs := 0;
      nextDecreaseMs := 0;
      controlState := Waiting;
      thresholds := NO_THRESHOLDS;
    }

    method UpdateMeasurements(srt: SrtCapacity)
      modifies this`learned
      ensures learned == Measured(old(learned), srt)
    {
      var sendBuffer := srt.sendBufferPackets as real;
      learned := learned.(sendBufferAverage := learned.sendBufferAverage * 0.99 + sendBuffer * 0.01);
      learned := learned.(sendBufferJitter := learned.sendBufferJitter * 0.99);
      var bufferDelta := sendBuffer - learned.previousSendBuffer as real;
      if bufferDelta > learned.sendBufferJitter {
        learned := learned.(sendBufferJitter := bufferDelta);
      }
      learned := learned.(previousSendBuffer := srt.sendBufferPackets);

      var rtt := srt.rttMs as real;
      if learned.rttAverage == 0.0 {
        learned := learned.(rttAverage := rtt);
      } else {
        learned := learned.(rttAverage := learned.rttAverage * 0.99 + rtt * 0.01);
      }
      var rttDelta := rtt - learned.previousRttMs as real;
      learned := learned.(rttAverageDelta := learned.rttAverageDelta * 0.8 + rttDelta * 0.2);
      learned := learned.(previousRttMs := srt.rttMs);

      learned := learned.(rttMinimum := learned.rttMinimum * 1.001);
      if srt.rttMs != 100 && rtt < learned.rttMinimum && learned.rttAverageDelta < 1.0 {
        learned := learned.(rttMinimum := rtt);
      }
      learned := learned.(rttJitter := learned.rttJitter * 0.99);
      if rttDelta > learned.rttJitter {
        learned := learned.(rttJitter := rttDelta);
      }
      learned := learned.(throughput := learned.throughput * 0.97 + srt.sendRateBps as real / 1024.0 * 0.03);
    }

    method UpdateThresholds(srt: SrtCapacity)
      modifies this`thresholds
      ensures thresholds == ThresholdsFor(learned, srt)
    {
      thresholds := thresholds.(queueSevere := QueueSevere(learned));
      thresholds := thresholds.(queueHeavy := QueueHeavy(learned, srt.latencyMs));
      thresholds := thresholds.(queueLight := QueueLight(learned));
      thresholds := thresholds.(rttDecreaseAboveMs := RttDecreaseAbove(learned));
      thresholds := thresholds.(rttIncreaseBelowMs := RttIncreaseBelow(learned));
    }

    method Observe(srt: SrtCapacity)
      modifies this`lastSampleMs, this`learned, this`thresholds
      ensures View() == Observed(old(View()), srt)
    {
      lastSampleMs := Some(srt.sampledAtMs);
      UpdateMeasurements(srt);
      UpdateThresholds(srt);
    }

    /** The control law proper: branches, guards and writes in the source's order. */
    method Control(s: Sample) returns (emergency: bool, stressed: bool)
      modifies this`internalBps, this`nextIncreaseMs, this`nextDecreaseMs, this`controlState
      ensures View() == Controlled(old(View()), Verdict(old(View()), s), s.nowMs)
      ensures emergency <==> controlState == SevereCongestion
      ensures stressed <==> Congested(controlState)
    {
      var severe := s.srt.rttMs >= s.srt.latencyMs / 3 || s.srt.sendBufferPackets > thresholds.queueSevere;
      var heavy := s.srt.rttMs > s.srt.latencyMs / 5 || s.srt.sendBufferPackets > thresholds.queueHeavy;
      var light := s.srt.rttMs > thresholds.rttDecreaseAboveMs || s.srt.sendBufferPackets > thresholds.queueLight;
      var mayIncrease := s.srt.rttMs < thresholds.rttIncreaseBelowMs && learned.rttAverageDelta < 0.01;
      emergency, stressed := false, false;
      if internalBps > config.minBps && severe {
        internalBps := config.minBps;
        nextDecreaseMs := SaturatingAdd(s.nowMs, DECREASE_INTERVAL_MS);
        controlState := SevereCongestion;
        emergency, stressed := true, true;
      } else if s.nowMs > nextDecreaseMs && heavy {
        var decrease := SaturatingAdd(DECREASE_MIN_BPS, internalBps / DECREASE_SCALE);
        internalBps := SaturatingSub(internalBps, decrease);
        nextDecreaseMs := SaturatingAdd(s.nowMs, DECREASE_FAST_INTERVAL_MS);
        controlState := HeavyCongestion;
        stressed := true;
      } else if s.nowMs > nextDecreaseMs && light {
        internalBps := SaturatingSub(internalBps, DECREASE_MIN_BPS);
        nextDecreaseMs := SaturatingAdd(s.nowMs, DECREASE_INTERVAL_MS);
        controlState := LightCongestion;
        stressed := true;
      } else if s.nowMs > nextIncreaseMs && mayIncrease {
        var increase := SaturatingAdd(INCREASE_MIN_BPS, internalBps / INCREASE_SCALE);
        internalBps := SaturatingAdd(internalBps, increase);
        nextIncreaseMs := SaturatingAdd(s.nowMs, INCREASE_INTERVAL_MS);
        controlState := Increasing;
      } else {
        controlState := Hold;
      }
      internalBps := Clamp(internalBps, config.minBps, config.maxBps);
    }

    /** One control tick. */
    method Decide(s: Sample) returns (d: Decision)
      modifies this
      ensures View() == Next(old(View()), s)
      ensures d == DecisionFor(old(View()), s)
    {
      var current := Clamp(s.currentVideoBps, config.minBps, config.maxBps);
      if s.allLinksDown {
        internalBps := config.minBps;
        controlState := Disconnected;
        var applied := Clamp(RoundedBps(internalBps), config.minBps, config.maxBps);
        return Publish(s, current, applied, true, true);
      }
      if !s.srt.ready || s.srt.rttMs == 0 || s.srt.latencyMs == 0
         || lastSampleMs == Some(s.srt.sampledAtMs)
         || (lastSampleMs.Some? && s.srt.sampledAtMs < lastSampleMs.value) {
        if !s.srt.ready || s.srt.rttMs == 0 || s.srt.latencyMs == 0 {
          controlState := Waiting;
        }
        return Publish(s, current, current, false, false);
      }
      Observe(s.srt);
      var emergency, stressed := Control(s);
      var applied := Clamp(RoundedBps(internalBps), config.minBps, config.maxBps);
      d := Publish(s, current, applied, emergency, stressed);
    }

    function Publish(s: Sample, current: U64, applied: U64, emergency: bool, stressed: bool): Decision
      reads this
    {
      Decision(SaturatingAdd(internalBps, s.audioBps), applied, applied != current, emergency, stressed,
               controlState, thresholds)
    }
  }
}
