/**
  What the control loop guarantees over whole runs of engine calls: the coupling between the
  controller's target and the applied bitrate, insensitivity to repeated samples and to
  telemetry, what a session transition forgets, and which samples may be learned from.
 */
module EngineRuns {
  import opened Words
  import opened Abr
  import opened Engine

  // Feedback coupling

  /** The internal target stays within the limits, at most one rounding step above the applied bitrate. */
  predicate Coupled(e: State) {
    var c := InLimits(e.abr, e.currentVideoBps);
    && e.abr.config.minBps <= e.abr.internalBps <= e.abr.config.maxBps
    && c <= e.abr.internalBps < c + ROUNDING_BPS
  }

  /** What a caller can check: no zero bitrate onto a zero floor, no raised ceiling above a bitrate it had cut off. */
  predicate KeepsCoupling(e: State, op: Op) {
    && (op.SetVideo? ==> op.bps != 0 || e.abr.config.minBps != 0)
    && (op.SetMax? ==> op.bps <= e.abr.config.maxBps || e.currentVideoBps <= e.abr.config.maxBps)
  }

  lemma CoupledTick(c: Controller, s: Sample)
    requires var b := InLimits(c, s.currentVideoBps);
             c.config.minBps <= c.internalBps <= c.config.maxBps && b <= c.internalBps < b + ROUNDING_BPS
    ensures var n := Next(c, s); var b := Applied(c, s);
            && n.config == c.config && c.config.minBps <= n.internalBps <= c.config.maxBps
            && c.config.minBps <= b <= c.config.maxBps
            && b <= n.internalBps < b + ROUNDING_BPS
  {
    RoundingGap(Next(c, s).internalBps);
  }

  lemma RoundingGap(b: U64)
    ensures RoundedBps(b) <= b < RoundedBps(b) + ROUNDING_BPS
  {
  }

  /** Coupling survives a call exactly when the caller's condition holds. */
  lemma CouplingStep(e: State, op: Op)
    requires Coupled(e)
    ensures Coupled(Step(e, op)) <==> KeepsCoupling(e, op)
  {
    if op.Tick? {
      hide Next, Applied;
      CoupledTick(e.abr, SampleOf(e, op.nowMs));
    }
  }

  /** An engine starts out coupled. */
  lemma CreatedCoupled(limits: Limits, links: seq<Link>, audioBps: U64, latencyMs: U32)
    ensures Coupled(Created(limits, links, audioBps, latencyMs))
  {
  }

  lemma {:induction false} CouplingRun(e: State, ops: seq<Op>, n: nat)
    requires Coupled(e) && n <= |ops|
    requires forall i :: 0 <= i < n ==> KeepsCoupling(At(e, ops, i), ops[i])
    ensures Coupled(At(e, ops, n))
  {
    hide Step, Coupled, KeepsCoupling;
    if n > 0 {
      CouplingRun(e, ops, n - 1);
      CouplingStep(At(e, ops, n - 1), ops[n - 1]);
    }
  }

  /** A raised ceiling really does break it: 3 Mb/s applied under a 2 Mb/s ceiling that is then lifted. */
  lemma RaisedCeilingDecouples() returns (e: State, op: Op)
    ensures Coupled(e) && !KeepsCoupling(e, op) && !Coupled(Step(e, op))
  {
    e := Step(Created(Limits(500_000, 2_000_000, 2_000_000), [], 0, 2000), SetVideo(3_000_000));
    op := SetMax(4_000_000);
  }

  /** Whatever happened before, the rate a tick applies lies within the limits. */
  lemma AppliedWithinLimits(e: State, nowMs: U64)
    ensures var f := Step(e, Tick(nowMs));
            f.abr.config == e.abr.config && e.abr.config.minBps <= f.currentVideoBps <= e.abr.config.maxBps
  {
  }

  // Repeated and unusable samples

  predicate Idle(e: State, op: Op) {
    op.Tick? && !LinksDown(e) && !Fresh(e.abr, SrtOf(e, op.nowMs))
  }

  /** Equal up to the control label, with bitrates the limits do not tell apart. */
  predicate Similar(e: State, f: State) {
    && f == e.(abr := e.abr.(controlState := f.abr.controlState), currentVideoBps := f.currentVideoBps)
    && InLimits(e.abr, e.currentVideoBps) == InLimits(f.abr, f.currentVideoBps)
  }

  lemma IdleChangesNothing(e: State, op: Op)
    requires Idle(e, op)
    ensures Similar(e, Step(e, op))
  {
  }

  lemma NextIgnoresLabel(c: Controller, d: Controller, s: Sample, t: Sample)
    requires d == c.(controlState := d.controlState)
    requires t == s.(currentVideoBps := t.currentVideoBps)
    requires InLimits(c, s.currentVideoBps) == InLimits(c, t.currentVideoBps)
    ensures Next(d, t) == Next(c, s).(controlState := Next(d, t).controlState)
    ensures Applied(d, t) == Applied(c, s)
  {
    if !s.allLinksDown && Fresh(c, s.srt) {
      VerdictIgnoresLabel(Observed(c, s.srt), Observed(d, t.srt), s, t);
    }
  }

  lemma VerdictIgnoresLabel(m: Controller, n: Controller, s: Sample, t: Sample)
    requires n == m.(controlState := n.controlState)
    requires t == s.(currentVideoBps := t.currentVideoBps)
    ensures Verdict(n, t) == Verdict(m, s)
    ensures Controlled(n, Verdict(n, t), t.nowMs) == Controlled(m, Verdict(m, s), s.nowMs)
  {
  }

  /** A ceiling raised over an applied bitrate that the old one had cut off. */
  predicate Uncovers(e: State, op: Op) {
    op.SetMax? && op.bps > e.abr.config.maxBps && e.currentVideoBps > e.abr.config.maxBps
  }

  /** Similar, and `full` is inside each limit that `thin` is inside of. */
  predicate Shadows(thin: State, full: State) {
    && Similar(thin, full)
    && (thin.currentVideoBps <= thin.abr.config.maxBps ==> full.currentVideoBps <= full.abr.config.maxBps)
    && (thin.currentVideoBps >= thin.abr.config.minBps ==> full.currentVideoBps >= full.abr.config.minBps)
  }

  lemma IdleKeepsShadow(thin: State, full: State, op: Op)
    requires Shadows(thin, full) && Idle(full, op)
    ensures Shadows(thin, Step(full, op))
  {
    hide Step;
    IdleChangesNothing(full, op);
    AppliedWithinLimits(full, op.nowMs);
  }

  lemma StepKeepsShadow(thin: State, full: State, op: Op)
    requires Shadows(thin, full) && !Uncovers(thin, op)
    ensures Shadows(Step(thin, op), Step(full, op))
    ensures op.Tick? ==> Step(thin, op).currentVideoBps == Step(full, op).currentVideoBps
  {
    if op.Tick? {
      hide Next, Applied;
      NextIgnoresLabel(thin.abr, full.abr, SampleOf(thin, op.nowMs), SampleOf(full, op.nowMs));
      AppliedWithinLimits(thin, op.nowMs);
    }
  }

  /** The run with every tick that found nothing new deleted. */
  function Kept(e: State, ops: seq<Op>, n: nat): seq<Op>
    requires n <= |ops|
  {
    if n == 0 then []
    else if Idle(At(e, ops, n - 1), ops[n - 1]) then Kept(e, ops, n - 1)
    else Kept(e, ops, n - 1) + [ops[n - 1]]
  }

  /** Where the run without idle ticks stands when the full one has made `n` calls. */
  function Thinned(e: State, ops: seq<Op>, n: nat): State
    requires n <= |ops|
  {
    At(e, Kept(e, ops, n), |Kept(e, ops, n)|)
  }

  lemma {:induction false} AtPrefix(e: State, ops: seq<Op>, more: seq<Op>, n: nat)
    requires n <= |ops|
    ensures At(e, ops + more, n) == At(e, ops, n)
  {
    hide Step;
    if n > 0 { AtPrefix(e, ops, more, n - 1); }
  }

  lemma ThinnedStep(e: State, ops: seq<Op>, n: nat)
    requires n < |ops|
    ensures Thinned(e, ops, n + 1) ==
            if Idle(At(e, ops, n), ops[n]) then Thinned(e, ops, n) else Step(Thinned(e, ops, n), ops[n])
  {
    hide Step, Idle;
    AtPrefix(e, Kept(e, ops, n), [ops[n]], |Kept(e, ops, n)|);
  }

  /**
    Deleting all duplicate, older, stale or unusable samples leaves bitrate, timers and learned state
    unchanged, over every run whose kept half never has its ceiling raised over a rate above it.
   */
  lemma {:induction false} Stuttering(e: State, ops: seq<Op>, n: nat)
    requires n <= |ops|
    requires forall i :: 0 <= i < n ==> !Uncovers(Thinned(e, ops, i), ops[i])
    ensures Shadows(Thinned(e, ops, n), At(e, ops, n))
  {
    hide Step, Idle, Thinned, Shadows, Uncovers;
    if n == 0 {
      StartsInShadow(e, ops);
    } else {
      Stuttering(e, ops, n - 1);
      ThinnedStep(e, ops, n - 1);
      var thin, full := Thinned(e, ops, n - 1), At(e, ops, n - 1);
      if Idle(full, ops[n - 1]) {
        IdleKeepsShadow(thin, full, ops[n - 1]);
      } else {
        StepKeepsShadow(thin, full, ops[n - 1]);
      }
    }
  }

  lemma StartsInShadow(e: State, ops: seq<Op>)
    ensures Thinned(e, ops, 0) == e == At(e, ops, 0) && Shadows(e, e)
  {
  }

  /** Every tick that is kept applies the same bitrate in both runs. */
  lemma StutteringApplies(e: State, ops: seq<Op>, n: nat)
    requires n < |ops|
    requires forall i :: 0 <= i < n ==> !Uncovers(Thinned(e, ops, i), ops[i])
    ensures ops[n].Tick? && !Idle(At(e, ops, n), ops[n]) ==>
              Thinned(e, ops, n + 1).currentVideoBps == At(e, ops, n + 1).currentVideoBps
  {
    hide Step, Idle, Thinned, Shadows;
    Stuttering(e, ops, n);
    ThinnedStep(e, ops, n);
    if ops[n].Tick? { StepKeepsShadow(Thinned(e, ops, n), At(e, ops, n), ops[n]); }
  }

  /** An idle tick has brought a rate outside the limits inside, and nothing has set the rate since. */
  predicate Trimmed(e: State, ops: seq<Op>, n: nat)
    requires n <= |ops|
  {
    if n == 0 then false
    else
      var b, op := At(e, ops, n - 1), ops[n - 1];
      if Idle(b, op) then Trimmed(e, ops, n - 1) || !InRange(b)
      else !op.Tick? && !op.SetVideo? && Trimmed(e, ops, n - 1)
  }

  /** The current bitrate, too, survives the deletion: exactly unless an idle tick trimmed it last. */
  lemma {:induction false} StutteringExact(e: State, ops: seq<Op>, n: nat)
    requires n <= |ops|
    requires forall i :: 0 <= i < n ==> !Uncovers(Thinned(e, ops, i), ops[i])
    ensures Thinned(e, ops, n).currentVideoBps == At(e, ops, n).currentVideoBps <==> !Trimmed(e, ops, n)
  {
    hide Step, Idle, Thinned, Uncovers, Shadows;
    if n == 0 {
      StartsInShadow(e, ops);
    } else {
      StutteringExact(e, ops, n - 1);
      Stuttering(e, ops, n - 1);
      ThinnedStep(e, ops, n - 1);
      var thin, full, op := Thinned(e, ops, n - 1), At(e, ops, n - 1), ops[n - 1];
      if Idle(full, op) {
        IdleTrims(thin, full, op);
      } else {
        StepKeepsShadow(thin, full, op);
        RateStep(thin, op);
        RateStep(full, op);
      }
    }
  }

  lemma IdleTrims(thin: State, full: State, op: Op)
    requires Shadows(thin, full) && Idle(full, op)
    ensures thin.currentVideoBps == Step(full, op).currentVideoBps <==>
              thin.currentVideoBps == full.currentVideoBps && InRange(full)
  {
    assert Step(full, op).currentVideoBps == InLimits(full.abr, full.currentVideoBps);
  }

  lemma RateStep(e: State, op: Op)
    ensures op.SetVideo? ==> Step(e, op).currentVideoBps == Max(op.bps, 1)
    ensures !op.SetVideo? && !op.Tick? ==> Step(e, op).currentVideoBps == e.currentVideoBps
  {
  }

  /** It happens without any ceiling call: 3 Mb/s set under a 2 Mb/s ceiling, trimmed by the next idle tick. */
  lemma IdleTickTrims() returns (start: State, ops: seq<Op>)
    ensures start == Created(Limits(500_000, 2_000_000, 2_000_000), start.links, 0, 2000)
    ensures |ops| == 3 && ops[..2] == [SetVideo(3_000_000), SetSession(SESSION_CONNECTED)] && ops[2].Tick?
    ensures forall i :: 0 <= i < 3 ==> !Uncovers(Thinned(start, ops, i), ops[i])
    ensures At(start, ops, 3).currentVideoBps == 2_000_000 && Trimmed(start, ops, 3)
  {
    var up := Link(1, true, true, false, false, 0, 0, 0);
    start := Created(Limits(500_000, 2_000_000, 2_000_000), [up], 0, 2000);
    ops := [SetVideo(3_000_000), SetSession(SESSION_CONNECTED), Tick(0)];
    var one, two := At(start, ops, 1), At(start, ops, 2);
    assert one == Step(At(start, ops, 0), ops[0]) && two == Step(one, ops[1]);
    assert two.links[0].enabled && two.links[0].connected && two.stats == NO_STATS;
    assert Idle(two, ops[2]) && !InRange(two);
    assert At(start, ops, 3) == Step(two, ops[2]);
  }

  predicate InRange(e: State) {
    e.abr.config.minBps <= e.currentVideoBps <= e.abr.config.maxBps
  }

  /** The condition is exact: an idle tick shows under a raised ceiling just when the rate was above the old one. */
  lemma StutterShows(e: State, nowMs: U64, bps: U64)
    requires Idle(e, Tick(nowMs)) && bps > e.abr.config.maxBps
    ensures Similar(Step(e, SetMax(bps)), Step(Step(e, Tick(nowMs)), SetMax(bps))) <==> !Uncovers(e, SetMax(bps))
  {
    var f := Step(e, Tick(nowMs));
    assert f.currentVideoBps == InLimits(e.abr, e.currentVideoBps) && f.abr.config == e.abr.config;
  }

  /** Such a state is reached by ordinary calls: 3 Mb/s set under a 2 Mb/s ceiling, on a connected session. */
  lemma RaisedCeilingShowsStutter() returns (start: State, ops: seq<Op>)
    ensures start == Created(Limits(500_000, 2_000_000, 2_000_000), start.links, 0, 2000)
    ensures |ops| == 4 && ops[..2] == [SetVideo(3_000_000), SetSession(SESSION_CONNECTED)]
    ensures Idle(At(start, ops, 2), ops[2])
    ensures !Similar(Step(At(start, ops, 2), ops[3]), At(start, ops, 4))
  {
    var up := Link(1, true, true, false, false, 0, 0, 0);
    start := Created(Limits(500_000, 2_000_000, 2_000_000), [up], 0, 2000);
    ops := [SetVideo(3_000_000), SetSession(SESSION_CONNECTED), Tick(0), SetMax(4_000_000)];
    var one, two := At(start, ops, 1), At(start, ops, 2);
    assert one == Step(At(start, ops, 0), ops[0]) && two == Step(one, ops[1]);
    assert two.links[0].enabled && two.links[0].connected && two.stats == NO_STATS;
    assert At(start, ops, 3) == Step(two, ops[2]) && At(start, ops, 4) == Step(At(start, ops, 3), ops[3]);
    StutterShows(two, 0, 4_000_000);
  }

  // Telemetry does not steer

  function ErasedLink(link: Link): Link {
    link.(payloadEligible := false, capacityReady := false, targetBps := 0, deliveredBps := 0, qualityPercent := 0)
  }

  function ErasedLinks(links: seq<Link>): seq<Link> {
    seq(|links|, i requires 0 <= i < |links| => ErasedLink(links[i]))
  }

  function ErasedStats(t: TransportStats): TransportStats {
    t.(bandwidthBps := 0, sentUniqueBytes := 0, retransmittedBytes := 0, droppedBytes := 0, sendBufferMs := 0)
  }

  /** The engine with bandwidth estimate, link figures, retransmission, drops and audio rate blanked. */
  function Erased(e: State): State {
    e.(links := ErasedLinks(e.links), stats := ErasedStats(e.stats), audioBps := 0)
  }

  function ErasedOp(op: Op): Op {
    match op
    case SubmitStats(t) => SubmitStats(ErasedStats(t))
    case SyncLinks(links) => SyncLinks(ErasedLinks(links))
    case SetAudio(b) => SetAudio(0)
    case _ => op
  }

  predicate SameControlInput(s: Sample, t: Sample) {
    && s.currentVideoBps == t.currentVideoBps && s.nowMs == t.nowMs && s.allLinksDown == t.allLinksDown
    && s.srt == t.srt.(bandwidthBps := s.srt.bandwidthBps, sendBufferMs := s.srt.sendBufferMs,
                       retransmitPermille := s.srt.retransmitPermille, droppedBytes := s.srt.droppedBytes)
  }

  lemma NextIgnoresTelemetry(c: Controller, s: Sample, t: Sample)
    requires SameControlInput(s, t)
    ensures Next(c, s) == Next(c, t) && Applied(c, s) == Applied(c, t)
  {
    assert Measured(c.learned, s.srt) == Measured(c.learned, t.srt);
    assert ThresholdsFor(Measured(c.learned, s.srt), s.srt) == ThresholdsFor(Measured(c.learned, t.srt), t.srt);
    assert Verdict(Observed(c, s.srt), s) == Verdict(Observed(c, t.srt), t);
  }

  lemma ErasedKeepsLinkUp(links: seq<Link>)
    ensures SomeLinkUp(links) <==> SomeLinkUp(ErasedLinks(links))
  {
    if SomeLinkUp(links) {
      var i :| 0 <= i < |links| && links[i].enabled && links[i].connected;
      assert ErasedLinks(links)[i].enabled && ErasedLinks(links)[i].connected;
    }
    if SomeLinkUp(ErasedLinks(links)) {
      var i :| 0 <= i < |links| && ErasedLinks(links)[i].enabled && ErasedLinks(links)[i].connected;
      assert links[i].enabled && links[i].connected;
    }
  }

  lemma StepIgnoresTelemetry(e: State, f: State, op: Op, op': Op)
    requires Erased(e) == Erased(f) && ErasedOp(op) == ErasedOp(op')
    ensures Erased(Step(e, op)) == Erased(Step(f, op'))
  {
    if op.Tick? {
      hide Next, Applied;
      ErasedKeepsLinkUp(e.links);
      ErasedKeepsLinkUp(f.links);
      assert SameControlInput(SampleOf(e, op.nowMs), SampleOf(f, op.nowMs));
      NextIgnoresTelemetry(e.abr, SampleOf(e, op.nowMs), SampleOf(f, op.nowMs));
    }
  }

  /** Two runs that differ only in telemetry have the same controller and apply the same bitrates throughout. */
  lemma {:induction false} TelemetryDoesNotSteer(e: State, f: State, ops: seq<Op>, ops': seq<Op>, n: nat)
    requires n <= |ops| && n <= |ops'|
    requires Erased(e) == Erased(f)
    requires forall i :: 0 <= i < n ==> ErasedOp(ops[i]) == ErasedOp(ops'[i])
    ensures Erased(At(e, ops, n)) == Erased(At(f, ops', n))
    ensures At(e, ops, n).abr == At(f, ops', n).abr && At(e, ops, n).currentVideoBps == At(f, ops', n).currentVideoBps
  {
    hide Step;
    if n > 0 {
      TelemetryDoesNotSteer(e, f, ops, ops', n - 1);
      StepIgnoresTelemetry(At(e, ops, n - 1), At(f, ops', n - 1), ops[n - 1], ops'[n - 1]);
    }
  }

  // A session transition forgets

  function Rebuilt(e: State): State {
    e.(abr := NewController(Limits(e.abr.config.minBps, e.currentVideoBps, e.abr.config.maxBps)))
  }

  /** Equal but for the configured start bitrate, which nothing reads again. */
  predicate Twins(e: State, f: State) {
    f == e.(abr := e.abr.(config := e.abr.config.(startBps := f.abr.config.startBps)))
  }

  lemma NextTwins(c: Controller, d: Controller, s: Sample)
    requires d == c.(config := c.config.(startBps := d.config.startBps))
    ensures Next(d, s) == Next(c, s).(config := d.config) && Applied(d, s) == Applied(c, s)
    ensures Next(c, s).config == c.config
  {
    if !s.allLinksDown && Fresh(c, s.srt) {
      assert Verdict(Observed(d, s.srt), s) == Verdict(Observed(c, s.srt), s);
    }
  }

  lemma StepTwins(e: State, f: State, op: Op)
    requires Twins(e, f)
    ensures Twins(Step(e, op), Step(f, op))
  {
    if op.Tick? {
      hide Next, Applied;
      assert SampleOf(e, op.nowMs) == SampleOf(f, op.nowMs);
      NextTwins(e.abr, f.abr, SampleOf(e, op.nowMs));
    }
  }

  /** The decision a tick publishes. */
  function Published(e: State, nowMs: U64): Decision {
    DecisionFor(e.abr, SampleOf(e, nowMs))
  }

  lemma TwinsPublish(e: State, f: State, nowMs: U64)
    requires Twins(e, f)
    ensures Published(e, nowMs) == Published(f, nowMs)
  {
    hide Next, Applied;
    assert SampleOf(e, nowMs) == SampleOf(f, nowMs);
    NextTwins(e.abr, f.abr, SampleOf(e, nowMs));
  }

  /** A start, or a report that changes the session state. */
  predicate ResetsController(e: State, op: Op) {
    op.Start? || (op.SetSession? && op.state <= SESSION_STOPPED && op.state != e.session)
  }

  lemma ResetMakesTwin(e: State, op: Op)
    requires ResetsController(e, op)
    ensures Twins(Step(e, op), Rebuilt(Step(e, op)))
  {
  }

  lemma {:induction false} TwinsRun(e: State, f: State, ops: seq<Op>, n: nat)
    requires Twins(e, f) && n <= |ops|
    ensures Twins(At(e, ops, n), At(f, ops, n))
  {
    hide Step, Twins;
    if n > 0 {
      TwinsRun(e, f, ops, n - 1);
      StepTwins(At(e, ops, n - 1), At(f, ops, n - 1), ops[n - 1]);
    }
  }

  /** After such a call the engine decides, for ever, like one with a newly built controller. */
  lemma TransitionForgets(e: State, op: Op, ops: seq<Op>, n: nat)
    requires ResetsController(e, op) && n <= |ops|
    ensures var f := Step(e, op);
            && Twins(At(f, ops, n), At(Rebuilt(f), ops, n))
            && (n < |ops| && ops[n].Tick? ==>
                  Published(At(f, ops, n), ops[n].nowMs) == Published(At(Rebuilt(f), ops, n), ops[n].nowMs))
  {
    hide Step, Published, Rebuilt, Twins, At;
    var f := Step(e, op);
    ResetMakesTwin(e, op);
    TwinsRun(f, Rebuilt(f), ops, n);
    if n < |ops| && ops[n].Tick? {
      TwinsPublish(At(f, ops, n), At(Rebuilt(f), ops, n), ops[n].nowMs);
    }
  }

  // A stop changes the session and leaves the controller as it is

  predicate SameLimits(c: Controller, d: Controller) {
    c.config.minBps == d.config.minBps && c.config.maxBps == d.config.maxBps
  }

  /** Equal but for the controllers, which share their limits, while the session is still stopped. */
  predicate Parted(e: State, f: State) {
    f == e.(abr := f.abr) && SameLimits(e.abr, f.abr) && e.session == SESSION_STOPPED
  }

  /** The call takes a stopped session elsewhere. */
  predicate Revives(op: Op) {
    op.Start? || (op.SetSession? && op.state < SESSION_STOPPED)
  }

  predicate Revived(ops: seq<Op>, n: nat)
    requires n <= |ops|
  {
    exists k :: 0 <= k < n && Revives(ops[k])
  }

  lemma PartedStep(e: State, f: State, op: Op)
    requires Parted(e, f)
    ensures Revives(op) ==> Twins(Step(e, op), Step(f, op))
    ensures !Revives(op) ==>
              && Parted(Step(e, op), Step(f, op))
              && Step(e, op).abr.thresholds == e.abr.thresholds && Step(f, op).abr.thresholds == f.abr.thresholds
  {
    if op.Tick? {
      assert LinksDown(e) && LinksDown(f);
    }
  }

  lemma PartedPublish(e: State, f: State, nowMs: U64)
    requires Parted(e, f)
    ensures Published(e, nowMs) == Published(f, nowMs) <==> e.abr.thresholds == f.abr.thresholds
  {
    assert LinksDown(e) && LinksDown(f);
  }

  lemma StopParts(e: State)
    ensures var f := Step(e, Stop);
            && Parted(f, Rebuilt(f))
            && f.abr.thresholds == e.abr.thresholds && Rebuilt(f).abr.thresholds == NO_THRESHOLDS
  {
  }

  lemma {:induction false} StopRun(e: State, ops: seq<Op>, n: nat)
    requires n <= |ops|
    ensures var f := Step(e, Stop); var a, b := At(f, ops, n), At(Rebuilt(f), ops, n);
            && (Revived(ops, n) ==> Twins(a, b))
            && (!Revived(ops, n) ==>
                  && Parted(a, b)
                  && a.abr.thresholds == e.abr.thresholds && b.abr.thresholds == NO_THRESHOLDS)
  {
    hide Step, Parted, Twins, Rebuilt, Revives;
    var f := Step(e, Stop);
    if n == 0 {
      StopParts(e);
    } else {
      StopRun(e, ops, n - 1);
      var a, b := At(f, ops, n - 1), At(Rebuilt(f), ops, n - 1);
      assert Revived(ops, n) <==> Revived(ops, n - 1) || Revives(ops[n - 1]);
      if Revived(ops, n - 1) {
        StepTwins(a, b, ops[n - 1]);
      } else {
        PartedStep(a, b, ops[n - 1]);
      }
    }
  }

  /**
    After a stop every further run applies the bitrates of a newly built controller. It also publishes the
    same decisions, exactly if no thresholds were in force at the stop or the session has been revived since.
   */
  lemma StopForgets(e: State, ops: seq<Op>, n: nat)
    requires n <= |ops|
    ensures var f := Step(e, Stop); var a, b := At(f, ops, n), At(Rebuilt(f), ops, n);
            && a.currentVideoBps == b.currentVideoBps
            && (n < |ops| && ops[n].Tick? ==>
                  (Published(a, ops[n].nowMs) == Published(b, ops[n].nowMs)
                   <==> e.abr.thresholds == NO_THRESHOLDS || Revived(ops, n)))
  {
    hide Step, Published;
    StopRun(e, ops, n);
    var f := Step(e, Stop);
    var a, b := At(f, ops, n), At(Rebuilt(f), ops, n);
    if n < |ops| && ops[n].Tick? {
      if Revived(ops, n) {
        TwinsPublish(a, b, ops[n].nowMs);
      } else {
        PartedPublish(a, b, ops[n].nowMs);
      }
    }
  }

  // Which samples are learned from

  predicate Learns(e: State, op: Op) {
    op.Tick? && !LinksDown(e) && Fresh(e.abr, SrtOf(e, op.nowMs))
  }

  /** The call puts the session outside Connected, or restarts or stops the engine. */
  predicate LeavesConnected(op: Op) {
    op.Start? || op.Stop? || (op.SetSession? && op.state <= SESSION_STOPPED && op.state != SESSION_CONNECTED)
  }

  /** The stats in hand are blank, or were submitted at `i` and never overwritten or cleared since. */
  predicate InHandSince(ops: seq<Op>, i: nat, n: nat)
    requires i < n <= |ops|
  {
    ops[i].SubmitStats? && forall k :: i < k < n ==> !LeavesConnected(ops[k]) && !ops[k].SubmitStats?
  }

  lemma {:induction false} StatsOrigin(e: State, ops: seq<Op>, n: nat)
    requires e.stats == NO_STATS && n <= |ops|
    ensures At(e, ops, n).stats == NO_STATS
            || exists i: nat :: i < n && InHandSince(ops, i, n) && At(e, ops, n).stats == ops[i].stats
  {
    hide Step, LeavesConnected;
    if n > 0 {
      StatsOrigin(e, ops, n - 1);
      var b, op := At(e, ops, n - 1), ops[n - 1];
      StatsStep(b, op);
      if op.SubmitStats? {
        assert InHandSince(ops, n - 1, n);
      } else if !LeavesConnected(op) && b.stats != NO_STATS {
        var i: nat :| i < n - 1 && InHandSince(ops, i, n - 1) && b.stats == ops[i].stats;
        assert InHandSince(ops, i, n);
      }
    }
  }

  /** Thresholds are in force from the first sample learned, so a stop soon after start already shows. */
  lemma LearningSetsThresholds(e: State, op: Op)
    requires Learns(e, op)
    ensures Step(e, op).abr.thresholds.queueLight >= 50
  {
    var l := Measured(e.abr.learned, SrtOf(e, op.nowMs));
    assert RealMax(50.0, l.sendBufferAverage + l.sendBufferJitter * 2.5) >= 50.0;
    assert QueueLight(l) >= 50;
  }

  lemma StatsStep(e: State, op: Op)
    ensures Step(e, op).stats ==
            if LeavesConnected(op) then NO_STATS else if op.SubmitStats? then op.stats else e.stats
  {
  }

  /** A sample that is learned from was submitted since the session last left Connected, and is recent. */
  lemma LearnsOnlyRecent(e: State, ops: seq<Op>, n: nat)
    requires e.stats == NO_STATS && n < |ops|
    ensures Learns(At(e, ops, n), ops[n]) ==>
              && At(e, ops, n).session == SESSION_CONNECTED
              && ops[n].nowMs <= At(e, ops, n).stats.sampledAtMs + STATS_MAX_AGE_MS
              && exists i: nat :: i < n && InHandSince(ops, i, n) && At(e, ops, n).stats == ops[i].stats
  {
    hide Step;
    StatsOrigin(e, ops, n);
  }

  lemma LastSampleStep(e: State, op: Op)
    ensures Learns(e, op) ==>
              && (e.abr.lastSampleMs.Some? ==> e.abr.lastSampleMs.value < e.stats.sampledAtMs)
              && Step(e, op).abr.lastSampleMs == Some(e.stats.sampledAtMs)
    ensures !Learns(e, op) && !ResetsController(e, op) ==> Step(e, op).abr.lastSampleMs == e.abr.lastSampleMs
  {
  }

  lemma {:induction false} LastSampleGrows(e: State, ops: seq<Op>, i: nat, n: nat)
    requires i < n <= |ops| && Learns(At(e, ops, i), ops[i])
    requires forall k :: i < k < n ==> !ResetsController(At(e, ops, k), ops[k])
    ensures At(e, ops, n).abr.lastSampleMs.Some?
    ensures At(e, ops, n).abr.lastSampleMs.value >= At(e, ops, i).stats.sampledAtMs
  {
    hide Step, Learns;
    LastSampleStep(At(e, ops, n - 1), ops[n - 1]);
    if n > i + 1 {
      LastSampleGrows(e, ops, i, n - 1);
    }
  }

  /** Between resets, the samples learned from have strictly increasing timestamps. */
  lemma LearnsForward(e: State, ops: seq<Op>, i: nat, n: nat)
    requires i < n < |ops|
    requires forall k :: i < k < n ==> !ResetsController(At(e, ops, k), ops[k])
    ensures Learns(At(e, ops, i), ops[i]) && Learns(At(e, ops, n), ops[n]) ==>
              At(e, ops, i).stats.sampledAtMs < At(e, ops, n).stats.sampledAtMs
  {
    hide Step, Learns;
    if Learns(At(e, ops, i), ops[i]) {
      LastSampleGrows(e, ops, i, n);
      LastSampleStep(At(e, ops, n), ops[n]);
    }
  }
}
