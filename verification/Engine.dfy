/**
  The engine around the controller (engine/src/lib.rs): session state, the last submitted
  transport sample, the applied bitrate and the feedback path between them.
 */
module Engine {
  import opened Words
  import opened Abr

  const SESSION_IDLE: U32 := 0
  const SESSION_CONNECTED: U32 := 2
  const SESSION_RECONNECTING: U32 := 3
  const SESSION_STOPPED: U32 := 5
  const STATS_MAX_AGE_MS: U64 := 200

  datatype Link = Link(
    id: U64, enabled: bool, connected: bool, payloadEligible: bool, capacityReady: bool,
    targetBps: U64, deliveredBps: U64, qualityPercent: Byte)

  datatype TransportStats = TransportStats(
    sampledAtMs: U64, bandwidthBps: U64, sendRateBps: U64, sentUniqueBytes: U64, retransmittedBytes: U64,
    droppedBytes: U64, sendBufferMs: U32, sendBufferPackets: U32, rttMs: U32, latencyMs: U32)

  const NO_STATS := TransportStats(0, 0, 0, 0, 0, 0, 0, 0, 0, 0)

  datatype State = State(
    links: seq<Link>, running: bool, abr: Controller, currentVideoBps: U64, audioBps: U64,
    session: U32, stats: TransportStats, latencyMs: U32)

  function Created(limits: Limits, links: seq<Link>, audioBps: U64, latencyMs: U32): State {
    var abr := NewController(limits);
    State(links, false, abr, abr.config.startBps, audioBps, SESSION_IDLE, NO_STATS, latencyMs)
  }

  function RetransmitPermille(t: TransportStats): U32 {
    if t.retransmittedBytes == 0 then 0
    else
      var ratio := t.retransmittedBytes * 1000 / Max(t.sentUniqueBytes, 1);
      if ratio <= 1000 then ratio else 1000
  }

  predicate SomeLinkUp(links: seq<Link>) {
    exists i :: 0 <= i < |links| && links[i].enabled && links[i].connected
  }

  predicate LinksDown(e: State) {
    e.session != SESSION_CONNECTED || !SomeLinkUp(e.links)
  }

  function CapacityOf(link: Link): LinkCapacity {
    LinkCapacity(link.enabled, link.payloadEligible, link.capacityReady, link.targetBps, link.deliveredBps)
  }

  predicate SomeCapacityReady(links: seq<Link>) {
    exists i :: 0 <= i < |links| && links[i].enabled && links[i].payloadEligible && links[i].capacityReady
  }

  function SrtOf(e: State, nowMs: U64): SrtCapacity {
    var t := e.stats;
    SrtCapacity(
      e.session == SESSION_CONNECTED && SaturatingSub(nowMs, t.sampledAtMs) <= STATS_MAX_AGE_MS,
      t.sampledAtMs, t.bandwidthBps, t.sendRateBps, t.sendBufferMs, t.sendBufferPackets, t.rttMs,
      if t.latencyMs > 0 then t.latencyMs else if e.latencyMs > 0 then e.latencyMs else 1,
      RetransmitPermille(t), t.droppedBytes)
  }

  /** The controller input one tick builds. */
  function SampleOf(e: State, nowMs: U64): Sample {
    Sample(seq(|e.links|, i requires 0 <= i < |e.links| => CapacityOf(e.links[i])), e.audioBps,
           e.currentVideoBps, nowMs, SomeCapacityReady(e.links), LinksDown(e), SrtOf(e, nowMs))
  }

  /** Calls of the engine interface. `SyncLinks` stands for every call that rewrites link records. */
  datatype Op =
    | Start | Stop | SetSession(state: U32) | SubmitStats(stats: TransportStats)
    | SetAudio(bps: U64) | SetVideo(bps: U64) | SetMax(bps: U64) | SyncLinks(links: seq<Link>) | Tick(nowMs: U64)

  function Step(e: State, op: Op): State {
    match op
    case Start =>
      e.(session := SESSION_IDLE, stats := NO_STATS, running := true,
         abr := ResetForBitrate(e.abr, e.currentVideoBps))
    case Stop => e.(running := false, session := SESSION_STOPPED, stats := NO_STATS)
    case SetSession(s) =>
      if s > SESSION_STOPPED then e
      else e.(session := s,
              stats := if s != SESSION_CONNECTED then NO_STATS else e.stats,
              abr := if s != e.session then ResetForBitrate(e.abr, e.currentVideoBps) else e.abr)
    case SubmitStats(t) => e.(stats := t)
    case SetAudio(b) => e.(audioBps := b)
    case SetVideo(b) => e.(currentVideoBps := Max(b, 1), abr := WithCurrentBps(e.abr, b))
    case SetMax(b) => if b == 0 then e else e.(abr := WithMaxBps(e.abr, b))
    case SyncLinks(links) => e.(links := links)
    case Tick(now) =>
      var s := SampleOf(e, now);
      e.(abr := Next(e.abr, s), currentVideoBps := Applied(e.abr, s))
  }

  /** The engine after the first `n` calls. */
  function At(e: State, ops: seq<Op>, n: nat): State
    requires n <= |ops|
  {
    if n == 0 then e else Step(At(e, ops, n - 1), ops[n - 1])
  }

  class EngineCore {
    var links: seq<Link>
    var running: bool
    const abr: AbrController
    var currentVideoBps: U64
    var audioBps: U64
    var session: U32
    var stats: TransportStats
    const latencyMs: U32

    ghost function View(): State
      reads this, abr
    {
      State(links, running, abr.View(), currentVideoBps, audioBps, session, stats, latencyMs)
    }

    constructor (limits: Limits, links: seq<Link>, audioBps: U64, latencyMs: U32)
      ensures View() == Created(limits, links, audioBps, latencyMs)
      ensures fresh(abr)
    {
      var controller := new AbrController(limits);
      this.abr := controller;
      this.links := links;
      running := false;
      currentVideoBps := controller.config.startBps;
      this.audioBps := audioBps;
      session := SESSION_IDLE;
      stats := NO_STATS;
      this.latencyMs := latencyMs;
    }

    method StartEngine()
      modifies this, abr
      ensures View() == Step(old(View()), Start)
    {
      session := SESSION_IDLE;
      stats := NO_STATS;
      abr.Reset(currentVideoBps);
      running := true;
    }

    method StopEngine()
      modifies this
      ensures View() == Step(old(View()), Stop)
    {
      running := false;
      session := SESSION_STOPPED;
      stats := NO_STATS;
    }

    method SetSessionState(state: U32) returns (rc: int)
      modifies this, abr
      ensures View() == Step(old(View()), SetSession(state))
      ensures rc == if state > SESSION_STOPPED then -1 else 0
    {
      if state > SESSION_STOPPED {
        return -1;
      }
      var previous := session;
      session := state;
      if state != SESSION_CONNECTED {
        stats := NO_STATS;
      }
      if previous != state {
        abr.Reset(currentVideoBps);
      }
      rc := 0;
    }

    method SetVideoBitrate(bps: U64)
      modifies this`currentVideoBps, abr
      ensures View() == Step(old(View()), SetVideo(bps))
    {
      currentVideoBps := Max(bps, 1);
      var _ := abr.SetCurrentBps(bps);
    }

    method SetMaxVideoBitrate(bps: U64) returns (rc: int)
      modifies abr
      ensures View() == Step(old(View()), SetMax(bps))
      ensures rc == if bps == 0 then -1 else 0
    {
      if bps == 0 {
        return -1;
      }
      var _ := abr.SetMaxBps(bps);
      rc := 0;
    }

    method AnyLinkUp() returns (up: bool)
      ensures up == SomeLinkUp(links)
    {
      up := false;
      for i := 0 to |links|
        invariant up <==> exists k :: 0 <= k < i && links[k].enabled && links[k].connected
      {
        up := up || (links[i].enabled && links[i].connected);
      }
    }

    /** One tick of the control loop; the applied rate becomes the next tick's feedback. */
    method ApplyAbr(nowMs: U64) returns (d: Decision)
      modifies this`currentVideoBps, abr
      ensures View() == Step(old(View()), Tick(nowMs))
      ensures d == DecisionFor(old(View()).abr, SampleOf(old(View()), nowMs))
    {
      ghost var before := View();
      var up := AnyLinkUp();
      var capacities := seq(|links|, i requires 0 <= i < |links| reads this => CapacityOf(links[i]));
      var ready := exists i ::
        0 <= i < |links| && links[i].enabled && links[i].payloadEligible && links[i].capacityReady;
      var latency := if stats.latencyMs > 0 then stats.latencyMs else if latencyMs > 0 then latencyMs else 1;
      var srt := SrtCapacity(
        session == SESSION_CONNECTED && SaturatingSub(nowMs, stats.sampledAtMs) <= STATS_MAX_AGE_MS,
        stats.sampledAtMs, stats.bandwidthBps, stats.sendRateBps, stats.sendBufferMs, stats.sendBufferPackets,
        stats.rttMs, latency, RetransmitPermille(stats), stats.droppedBytes);
      var sample := Sample(capacities, audioBps, currentVideoBps, nowMs, ready,
                           session != SESSION_CONNECTED || !up, srt);
      assert sample == SampleOf(before, nowMs);
      d := abr.Decide(sample);
      currentVideoBps := d.appliedBps;
    }
  }
}
