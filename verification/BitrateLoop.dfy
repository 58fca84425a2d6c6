/**
  The control loop between engine and encoder: the ABR worker takes a rate from the engine and
  writes it later, while ceilings and mode switches reach both sides. One act is one section under
  the output's bitrate mutex or one call of the engine.
 */
module BitrateLoop {
  import opened Words
  import opened Abr
  import Core = Engine
  import Runs = EngineRuns
  import Out = EncoderBitrate

  datatype Loop = Loop(out: Out.State, engine: Core.State)

  /** `Call` is any other call of the engine, such as the rate it is told after a switch or a new ceiling. */
  datatype Act =
    | Output(e: Out.Event)
    | WorkerTick(nowMs: U64)
    | Call(op: Core.Op)
    | Ceiling(maxKbps: Out.Int32, a: Out.Access)
    | Update(config: Out.Event, links: seq<Core.Link>, audioBps: U64, latencyMs: U32)

  /** The engine an output creates for its settings (plugin/srtla-output.cpp:313-331). */
  function EngineFor(r: Out.Rates, links: seq<Core.Link>, audioBps: U64, latencyMs: U32): Core.State
    requires Out.Configured(r)
  {
    Core.Created(Limits(r.minKbps * 1000, r.maxKbps * 1000, r.maxKbps * 1000), links, audioBps, latencyMs)
  }

  ghost predicate Init(l: Loop) {
    && Out.Init(l.out)
    && exists links, audioBps, latencyMs :: l.engine == EngineFor(l.out.rates, links, audioBps, latencyMs)
  }

  predicate Enabled(l: Loop, act: Act) {
    match act
    case Output(e) => !e.Compute? && !e.SetMax? && !e.Configure? && Out.Enabled(l.out, e)
    case WorkerTick(_) => l.out.abrAlive && l.out.computed.None?
    case Call(op) => !op.SetMax? && !op.Tick?
    case Ceiling(_, _) => Out.Configured(l.out.rates)
    case Update(config, _, _, _) => config.Configure? && Out.Enabled(l.out, config)
  }

  function Apply(l: Loop, act: Act): Loop
    requires Enabled(l, act)
  {
    match act
    case Output(e) => l.(out := Out.Apply(l.out, e))
    case WorkerTick(now) =>
      var engine := Core.Step(l.engine, Core.Tick(now));
      var bps := engine.currentVideoBps;
      Loop(if bps > 0 then Out.Apply(l.out, Out.Compute(bps)) else l.out, engine)
    case Call(op) => l.(engine := Core.Step(l.engine, op))
    case Ceiling(max, a) =>
      if Out.CapRefusal(l.out.rates, a) != 0 then l
      else
        var out := Out.Apply(l.out, Out.SetMax(max, a, true));
        Loop(out, Core.Step(l.engine, Core.SetMax(out.rates.maxKbps * 1000)))
    case Update(config, links, audioBps, latencyMs) =>
      var out := Out.Apply(l.out, config);
      Loop(out, EngineFor(out.rates, links, audioBps, latencyMs))
  }

  ghost predicate Behavior(ls: seq<Loop>, acts: seq<Act>) {
    && |ls| == |acts| + 1 && Init(ls[0])
    && forall i :: 0 <= i < |acts| ==> Enabled(ls[i], acts[i]) && ls[i + 1] == Apply(ls[i], acts[i])
  }

  /** Output and engine have the same limits. */
  predicate Agreed(l: Loop) {
    && Out.Flow(l.out)
    && l.engine.abr.config.minBps == l.out.rates.minKbps * 1000
    && l.engine.abr.config.maxBps == l.out.rates.maxKbps * 1000
  }

  lemma EngineKeepsLimits(e: Core.State, op: Core.Op)
    ensures Core.Step(e, op).abr.config.minBps == e.abr.config.minBps
    ensures !op.SetMax? ==> Core.Step(e, op).abr.config.maxBps == e.abr.config.maxBps
    ensures op.SetMax? && op.bps >= ROUNDING_BPS && op.bps >= e.abr.config.minBps ==>
              Core.Step(e, op).abr.config.maxBps == op.bps
  {
    if op.Tick? {
      hide Next, Applied;
      Runs.AppliedWithinLimits(e, op.nowMs);
    }
  }

  lemma RatesKept(s: Out.State, e: Out.Event)
    requires Out.Enabled(s, e) && !e.SetMax? && !e.Configure?
    ensures Out.Apply(s, e).rates.minKbps == s.rates.minKbps && Out.Apply(s, e).rates.maxKbps == s.rates.maxKbps
  {
  }

  lemma AgreedCeiling(l: Loop, max: Out.Int32, a: Out.Access)
    requires Agreed(l)
    ensures Agreed(Apply(l, Ceiling(max, a)))
  {
    hide Core.Step;
    if Out.CapRefusal(l.out.rates, a) == 0 {
      var out := Out.Apply(l.out, Out.SetMax(max, a, true));
      Out.FlowStep(l.out, Out.SetMax(max, a, true));
      EngineKeepsLimits(l.engine, Core.SetMax(out.rates.maxKbps * 1000));
    }
  }

  lemma AgreedStep(l: Loop, act: Act)
    requires Agreed(l) && Enabled(l, act)
    ensures Agreed(Apply(l, act))
  {
    hide Core.Step, Out.Apply, Out.Enabled;
    match act
    case Output(e) =>
      Out.FlowStep(l.out, e);
      RatesKept(l.out, e);
    case WorkerTick(now) =>
      EngineKeepsLimits(l.engine, Core.Tick(now));
      TickOutput(l, now);
    case Call(op) =>
      EngineKeepsLimits(l.engine, op);
    case Ceiling(max, a) =>
      AgreedCeiling(l, max, a);
    case Update(config, links, audioBps, latencyMs) =>
      Out.FlowStep(l.out, config);
  }

  /** What a tick hands the worker is within the ceiling of that tick. */
  lemma TickOutput(l: Loop, nowMs: U64)
    requires Agreed(l) && Enabled(l, WorkerTick(nowMs))
    ensures var m := Apply(l, WorkerTick(nowMs)); var bps := m.engine.currentVideoBps;
            && l.out.rates.minKbps * 1000 <= bps <= l.out.rates.maxKbps * 1000
            && m.out == l.out.(computed := Some(bps)) && Out.Flow(m.out)
  {
    hide Core.Step;
    Runs.AppliedWithinLimits(l.engine, nowMs);
  }

  lemma {:induction false} AgreedRun(ls: seq<Loop>, acts: seq<Act>, n: nat)
    requires Behavior(ls, acts) && n <= |acts|
    ensures Agreed(ls[n])
  {
    if n > 0 {
      hide Apply, Enabled, Agreed;
      AgreedRun(ls, acts, n - 1);
      AgreedStep(ls[n - 1], acts[n - 1]);
    }
  }

  /** No end of the stream, no switch to manual mode, no ceiling below a rate on its way to the encoder. */
  predicate Timely(l: Loop, act: Act) {
    && Out.Configured(l.out.rates)
    && match act
       case Output(e) => !e.Halt? && Out.KeepsCeiling(l.out, e)
       case Ceiling(max, a) => Out.KeepsCeiling(l.out, Out.SetMax(max, a, true))
       case _ => true
  }

  lemma TimelyStep(l: Loop, act: Act)
    requires Agreed(l) && Enabled(l, act) && Out.UnderCeiling(l.out)
    ensures Out.UnderCeiling(Apply(l, act).out) <==> Timely(l, act)
  {
    hide Core.Step, Out.Apply;
    match act
    case Output(e) =>
      if e.Halt? { HaltEnds(l.out); } else { Out.CeilingStep(l.out, e); }
    case WorkerTick(now) =>
      TickOutput(l, now);
    case Call(op) =>
    case Ceiling(max, a) =>
      Out.CeilingStep(l.out, Out.SetMax(max, a, true));
    case Update(config, links, audioBps, latencyMs) =>
  }

  lemma HaltEnds(s: Out.State)
    requires Out.Enabled(s, Out.Halt)
    ensures !Out.UnderCeiling(Out.Apply(s, Out.Halt))
  {
  }

  /**
    While an automatic stream is live the encoder stays at or below the ceiling, wherever that is moved
    to, as long as no ceiling lands between an engine tick and the encoder write it led to.
   */
  lemma {:induction false} CeilingRun(ls: seq<Loop>, acts: seq<Act>, i: nat, n: nat)
    requires Behavior(ls, acts) && i <= n <= |acts| && Out.UnderCeiling(ls[i].out)
    requires forall k :: i <= k < n ==> Timely(ls[k], acts[k])
    ensures Out.UnderCeiling(ls[n].out)
  {
    hide Apply, Enabled, Agreed, Timely, Out.UnderCeiling;
    if n > i {
      CeilingRun(ls, acts, i, n - 1);
      AgreedRun(ls, acts, n - 1);
      TimelyStep(ls[n - 1], acts[n - 1]);
    }
  }

  /** The output's event behind an act, if it is one that can bring a stream under its ceiling. */
  function OutputEvent(act: Act): Option<Out.Event> {
    match act
    case Output(e) => Some(e)
    case Ceiling(max, a) => Some(Out.SetMax(max, a, true))
    case _ => None
  }

  predicate Gains(l: Loop, act: Act) {
    var e := OutputEvent(act);
    && e.Some? && Out.Enabled(l.out, e.value)
    && (if l.out.phase.Live? && l.out.rates.auto then Out.RegainsCeiling(l.out, e.value)
        else Out.EntersCeiling(l.out, e.value))
  }

  lemma GainStep(l: Loop, act: Act)
    requires Agreed(l) && Enabled(l, act) && !Out.UnderCeiling(l.out)
    ensures Out.UnderCeiling(Apply(l, act).out) <==> Gains(l, act)
  {
    hide Core.Step, Out.Apply, Out.RegainsCeiling, Out.EntersCeiling;
    var live := l.out.phase.Live? && l.out.rates.auto;
    match act
    case Output(e) =>
      if live { Out.CeilingRecovery(l.out, e); } else { Out.CeilingEntry(l.out, e); }
    case WorkerTick(now) =>
      TickOutput(l, now);
    case Call(op) =>
    case Ceiling(max, a) =>
      var e := Out.SetMax(max, a, true);
      if live { Out.CeilingRecovery(l.out, e); } else { Out.CeilingEntry(l.out, e); }
      if Out.CapRefusal(l.out.rates, a) != 0 { RefusedKeeps(l.out, e); }
    case Update(config, links, audioBps, latencyMs) =>
      Out.CeilingEntry(l.out, config);
      ConfigureDoesNotEnter(l.out, config);
  }

  lemma RefusedKeeps(s: Out.State, e: Out.Event)
    requires Out.Enabled(s, e) && e.SetMax? && Out.CapRefusal(s.rates, e.a) != 0
    ensures Out.Apply(s, e) == s
  {
  }

  lemma ConfigureDoesNotEnter(s: Out.State, e: Out.Event)
    requires e.Configure?
    ensures !Out.EntersCeiling(s, e)
  {
  }

  /** Kept from the last gain on: every act since was timely. */
  ghost predicate Held(ls: seq<Loop>, acts: seq<Act>, n: nat)
    requires Behavior(ls, acts) && n <= |acts|
  {
    if n == 0 then false
    else if Held(ls, acts, n - 1) then Timely(ls[n - 1], acts[n - 1])
    else Gains(ls[n - 1], acts[n - 1])
  }

  /**
    Over every run from creation: a stream is live, automatic and under its ceiling exactly if some act
    brought it there and every act since has been timely.
   */
  lemma {:induction false} CeilingExactly(ls: seq<Loop>, acts: seq<Act>, n: nat)
    requires Behavior(ls, acts) && n <= |acts|
    ensures Out.UnderCeiling(ls[n].out) <==> Held(ls, acts, n)
  {
    if n > 0 {
      hide Apply, Enabled, Agreed, Timely, Gains, Out.UnderCeiling;
      CeilingExactly(ls, acts, n - 1);
      AgreedRun(ls, acts, n - 1);
      if Held(ls, acts, n - 1) {
        TimelyStep(ls[n - 1], acts[n - 1]);
      } else {
        GainStep(ls[n - 1], acts[n - 1]);
      }
    }
  }

  /** However far above it the encoder is, the next tick and its write bring it back under the ceiling. */
  lemma NextTickRepairs(l: Loop, nowMs: U64, a: Out.Access)
    requires Agreed(l) && l.out.phase.Live? && l.out.rates.auto && l.out.abrAlive && l.out.computed.None?
    requires a.Readable? && a.dynamic
    ensures var ticked := Apply(l, WorkerTick(nowMs));
            Enabled(ticked, Output(Out.AbrWrite(a))) && Out.UnderCeiling(Apply(ticked, Output(Out.AbrWrite(a))).out)
  {
    hide Core.Step;
    TickOutput(l, nowMs);
  }
}
