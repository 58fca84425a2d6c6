/**
  Session, ABR worker and engine together: the worker reads statistics from the published socket and
  submits them in a later step, while the connector reports to the engine. From which connection is
  a sample the engine learns from?
 */
module SampleOrigin {
  import opened Words
  import Core = Engine
  import Runs = EngineRuns
  import Srt = SrtSession

  /** Statistics read from a socket and not yet submitted. */
  datatype Taken = Taken(stats: Core.TransportStats, from: Srt.Handle)

  /** Where the engine's sample comes from; `late` if that connection was over when it was submitted. */
  datatype Origin = Origin(from: Srt.Handle, late: bool)

  /** `origin`, `up` and `over` are history that no code reads. */
  datatype State = State(
    session: Srt.State,
    engine: Core.State,
    held: Option<Taken>,
    origin: Option<Origin>,
    up: Option<Srt.Handle>,   // the socket last announced, with nothing else reported since
    over: set<Srt.Handle>)    // the sockets that existed at the last report other than Connected

  datatype Act =
    | Session(e: Srt.Event)
    | Sample(stats: Core.TransportStats)
    | Submit
    | Call(op: Core.Op)

  function Code(st: Srt.Status): U32 {
    match st
    case Idle => 0
    case Connecting => 1
    case Connected => 2
    case Reconnecting => 3
    case Fatal => 4
    case Stopped => 5
  }

  /** What an event of the session reports to the engine. */
  function Reports(s: Srt.State, e: Srt.Event): seq<Srt.Status>
    requires Srt.Enabled(s, e)
  {
    if e.Start? then [Srt.Connecting]
    else if e.SpawnFailed? then [Srt.Connecting, Srt.Fatal]
    else if Srt.Reported(s, e).Some? then [Srt.Reported(s, e).value]
    else []
  }

  function Told(engine: Core.State, reports: seq<Srt.Status>): Core.State
    decreases |reports|
  {
    if reports == [] then engine
    else Told(Core.Step(engine, Core.SetSession(Code(reports[0]))), reports[1..])
  }

  ghost predicate Init(x: State) {
    && Srt.Init(x.session) && x.engine.session == Core.SESSION_IDLE && x.engine.stats == Core.NO_STATS
    && x.held == None && x.origin == None && x.up == None && x.over == {}
  }

  predicate Enabled(x: State, act: Act) {
    match act
    case Session(e) => !e.Use? && Srt.Enabled(x.session, e)
    case Sample(_) => x.held.None? && Srt.Enabled(x.session, Srt.Use)
    case Submit => x.held.Some?
    case Call(op) => !op.SetSession? && !op.SubmitStats?
  }

  function Apply(x: State, act: Act): State
    requires Enabled(x, act)
  {
    match act
    case Session(e) =>
      var reports := Reports(x.session, e);
      var y := x.(session := Srt.Apply(x.session, e), engine := Told(x.engine, reports));
      if reports == [] then y
      else if e.Announce? then y.(up := Some(x.session.point.h))
      else y.(up := None, origin := None, over := x.session.created)
    case Sample(stats) => x.(held := Some(Taken(stats, x.session.shared.socket.value)))
    case Submit =>
      var t := x.held.value;
      x.(held := None, engine := Core.Step(x.engine, Core.SubmitStats(t.stats)),
         origin := Some(Origin(t.from, t.from in x.over)))
    case Call(op) =>
      var y := x.(engine := Core.Step(x.engine, op));
      if op.Start? || op.Stop? then y.(up := None, origin := None) else y
  }

  ghost predicate Behavior(xs: seq<State>, acts: seq<Act>) {
    && |xs| == |acts| + 1 && Init(xs[0])
    && forall i :: 0 <= i < |acts| ==> Enabled(xs[i], acts[i]) && xs[i + 1] == Apply(xs[i], acts[i])
  }

  /** The act reports something other than Connected. */
  predicate Ends(x: State, act: Act) {
    act.Session? && Enabled(x, act) && Reports(x.session, act.e) != [] && !act.e.Announce?
  }

  // At most one connection is not over

  /** Which sockets are over, by where the connector stands. */
  predicate Rotation(s: Srt.State, over: set<Srt.Handle>) {
    && over <= s.created
    && (forall g, h :: g in s.created && h in s.created && g !in over && h !in over ==> g == h)
    && (s.point.Resolving? || s.point.Creating? ==> s.created == over)
    && (s.point.LoopTop? ==> s.created == over || s.stop)
    && (s.point.ClosingOwn? ==> s.point.exit || s.created == over || s.stop)
    && (Srt.Local(s.point).Some? && !s.point.ClosingOwn? ==> Srt.Local(s.point).value !in over)
  }

  lemma RotationStep(s: Srt.State, e: Srt.Event, over: set<Srt.Handle>)
    requires Srt.Sockets(s) && Rotation(s, over) && Srt.Enabled(s, e)
    ensures var reports := Reports(s, e);
            Rotation(Srt.Apply(s, e), if reports == [] || e.Announce? then over else s.created)
  {
    SocketsFacts(s);
    hide Srt.Sockets, Srt.CloseOwn, Srt.CloseCurrent;
  }

  lemma SocketsFacts(s: Srt.State)
    requires Srt.Sockets(s)
    ensures Srt.Local(s.point).Some? ==> Srt.Local(s.point).value in s.created
    ensures s.stopper.Clearing? || s.stopper.Stating? ==> s.point.Unstarted?
  {
  }

  // What the engine is told

  lemma ToldOne(engine: Core.State, st: Srt.Status)
    ensures Told(engine, [st]) == Core.Step(engine, Core.SetSession(Code(st)))
  {
    assert [st][1..] == [];
  }

  lemma ToldTwo(engine: Core.State, a: Srt.Status, b: Srt.Status)
    ensures Told(engine, [a, b]) ==
            Core.Step(Core.Step(engine, Core.SetSession(Code(a))), Core.SetSession(Code(b)))
  {
    assert [a, b][1..] == [b];
    ToldOne(Core.Step(engine, Core.SetSession(Code(a))), b);
  }

  /** Connected leaves the sample in hand; every other report clears it. */
  lemma ToldEffect(s: Srt.State, e: Srt.Event, engine: Core.State)
    requires Srt.Enabled(s, e)
    ensures var reports := Reports(s, e); var told := Told(engine, reports);
            && (reports == [] ==> told == engine)
            && (e.Announce? ==> reports != [] && told.session == Core.SESSION_CONNECTED && told.stats == engine.stats)
            && (reports != [] && !e.Announce? ==>
                  told.session != Core.SESSION_CONNECTED && told.stats == Core.NO_STATS)
  {
    var reports := Reports(s, e);
    if |reports| == 1 {
      ToldOne(engine, reports[0]);
      assert reports[0].Connected? <==> e.Announce?;
    } else if |reports| == 2 {
      ToldTwo(engine, reports[0], reports[1]);
    }
  }

  // Every reachable state

  predicate Traced(x: State) {
    && (x.engine.session == Core.SESSION_CONNECTED ==>
          x.up.Some? && x.up.value in x.session.created && x.up.value !in x.over)
    && (x.held.Some? ==> x.held.value.from in x.session.created)
    && (x.origin.Some? ==> x.origin.value.from in x.session.created
                           && (x.origin.value.late <==> x.origin.value.from in x.over))
    && (x.origin.None? ==> x.engine.stats == Core.NO_STATS)
  }

  predicate Inv(x: State) {
    Srt.Sockets(x.session) && Rotation(x.session, x.over) && Traced(x)
  }

  lemma CreatedGrows(s: Srt.State, e: Srt.Event)
    requires Srt.Enabled(s, e)
    ensures s.created <= Srt.Apply(s, e).created
  {
    hide Srt.CloseOwn, Srt.CloseCurrent, Srt.Retry;
  }

  lemma AnnouncedIsLive(s: Srt.State, over: set<Srt.Handle>)
    requires Srt.Sockets(s) && Rotation(s, over) && Srt.Enabled(s, Srt.Announce)
    ensures s.point.h in s.created && s.point.h !in over
  {
  }

  lemma TracedSession(x: State, e: Srt.Event)
    requires Inv(x) && Enabled(x, Session(e))
    ensures Traced(Apply(x, Session(e)))
  {
    ToldEffect(x.session, e, x.engine);
    CreatedGrows(x.session, e);
    if e.Announce? { AnnouncedIsLive(x.session, x.over); }
    hide Told, Reports, Srt.Apply, Srt.Enabled, Rotation, Srt.Sockets;
  }

  lemma EngineStep(e: Core.State, op: Core.Op)
    requires !op.SetSession? && !op.SubmitStats?
    ensures op.Start? || op.Stop? ==>
              Core.Step(e, op).session != Core.SESSION_CONNECTED && Core.Step(e, op).stats == Core.NO_STATS
    ensures !op.Start? && !op.Stop? ==>
              Core.Step(e, op).session == e.session && Core.Step(e, op).stats == e.stats
  {
  }

  lemma InvStep(x: State, act: Act)
    requires Inv(x) && Enabled(x, act)
    ensures Inv(Apply(x, act))
  {
    match act
    case Session(e) =>
      Srt.SocketsStep(x.session, e);
      RotationStep(x.session, e, x.over);
      TracedSession(x, e);
      hide Told, Reports, Srt.Apply, Srt.Enabled, Rotation, Srt.Sockets, Traced;
    case Sample(_) =>
    case Submit =>
    case Call(op) =>
      EngineStep(x.engine, op);
      hide Core.Step;
  }

  lemma {:induction false} Reachable(xs: seq<State>, acts: seq<Act>, n: nat)
    requires Behavior(xs, acts) && n <= |acts|
    ensures Inv(xs[n])
  {
    if n > 0 {
      hide Inv, Apply, Enabled;
      Reachable(xs, acts, n - 1);
      InvStep(xs[n - 1], acts[n - 1]);
    }
  }

  // Where a sample was read and submitted

  /** Statistics held before act `n` were read by act `t`, from the socket published then. */
  ghost predicate ReadAt(xs: seq<State>, acts: seq<Act>, t: nat, sample: Taken)
    requires |xs| == |acts| + 1
  {
    t < |acts| && acts[t] == Sample(sample.stats) && xs[t].session.shared.socket == Some(sample.from)
  }

  lemma {:induction false} HeldWasRead(xs: seq<State>, acts: seq<Act>, n: nat) returns (t: nat)
    requires Behavior(xs, acts) && n <= |acts| && xs[n].held.Some?
    ensures t < n && ReadAt(xs, acts, t, xs[n].held.value)
  {
    HeldStep(xs[n - 1], acts[n - 1]);
    hide Apply, Enabled;
    if acts[n - 1].Sample? {
      t := n - 1;
    } else {
      t := HeldWasRead(xs, acts, n - 1);
    }
  }

  lemma HeldStep(x: State, act: Act)
    requires Enabled(x, act)
    ensures Apply(x, act).held.Some? ==>
              if act.Sample? then
                x.session.shared.socket.Some?
                && Apply(x, act).held.value == Taken(act.stats, x.session.shared.socket.value)
              else x.held == Apply(x, act).held
  {
    hide Told, Reports, Srt.Apply, Core.Step;
  }

  lemma OriginStep(x: State, act: Act)
    requires Enabled(x, act)
    ensures var y := Apply(x, act);
            y.origin.Some? ==>
              if act.Submit? then
                && x.held.Some? && y.engine.stats == x.held.value.stats
                && y.origin.value == Origin(x.held.value.from, x.held.value.from in x.over)
              else y.origin == x.origin && y.engine.stats == x.engine.stats
  {
    match act
    case Session(e) =>
      ToldEffect(x.session, e, x.engine);
      hide Told, Reports, Srt.Apply, Core.Step;
    case Sample(_) =>
    case Submit =>
    case Call(op) =>
      EngineStep(x.engine, op);
      hide Core.Step;
  }

  lemma {:induction false} OriginWasSubmitted(xs: seq<State>, acts: seq<Act>, n: nat) returns (i: nat)
    requires Behavior(xs, acts) && n <= |acts| && xs[n].origin.Some?
    ensures i < n && acts[i].Submit? && xs[i].held.Some? && xs[i].held.value.stats == xs[n].engine.stats
    ensures xs[n].origin.value == Origin(xs[i].held.value.from, xs[i].held.value.from in xs[i].over)
  {
    OriginStep(xs[n - 1], acts[n - 1]);
    hide Apply, Enabled;
    if acts[n - 1].Submit? {
      i := n - 1;
    } else {
      i := OriginWasSubmitted(xs, acts, n - 1);
    }
  }

  lemma OverStep(x: State, act: Act)
    requires Enabled(x, act)
    ensures Apply(x, act).over == if Ends(x, act) then x.session.created else x.over
    ensures x.session.created <= Apply(x, act).session.created
  {
    if act.Session? { CreatedGrows(x.session, act.e); }
    hide Told, Srt.Apply, Core.Step;
  }

  /** A socket that exists is over later exactly if it was over before or an end was reported in between. */
  lemma {:induction false} OverSince(xs: seq<State>, acts: seq<Act>, t: nat, i: nat, h: Srt.Handle)
    requires Behavior(xs, acts) && t <= i <= |acts| && h in xs[t].session.created
    ensures h in xs[i].session.created
    ensures h in xs[i].over <==> h in xs[t].over || exists k :: t <= k < i && Ends(xs[k], acts[k])
  {
    hide Apply, Enabled, Ends;
    if i > t {
      OverSince(xs, acts, t, i - 1, h);
      Reachable(xs, acts, i - 1);
      OverStep(xs[i - 1], acts[i - 1]);
      OverGrows(xs[i - 1]);
    }
  }

  lemma OverGrows(x: State)
    requires Inv(x)
    ensures x.over <= x.session.created
  {
  }

  lemma LearnedNeedsSample(e: Core.State, op: Core.Op)
    requires Runs.Learns(e, op)
    ensures e.stats != Core.NO_STATS && e.session == Core.SESSION_CONNECTED
  {
  }

  /**
    In every interleaving, a sample the engine learns from was read at some `t` and submitted at some
    later `i`. It is from the connection now up exactly if the socket it was read from was not already
    given up at `t` and no end of a connection was reported between `t` and `i`.
   */
  lemma LearnsFromCurrent(xs: seq<State>, acts: seq<Act>, n: nat) returns (t: nat, i: nat, from: Srt.Handle)
    requires Behavior(xs, acts) && n < |acts| && acts[n].Call?
    requires Runs.Learns(xs[n].engine, acts[n].op)
    ensures t < i < n && acts[i].Submit? && ReadAt(xs, acts, t, Taken(xs[n].engine.stats, from))
    ensures xs[n].up.Some?
    ensures from == xs[n].up.value <==>
              from !in xs[t].over && !exists k :: t <= k < i && Ends(xs[k], acts[k])
  {
    hide Apply, Enabled, Ends, Runs.Learns;
    Reachable(xs, acts, n);
    LearnedNeedsSample(xs[n].engine, acts[n].op);
    OriginFits(xs[n]);
    i := OriginWasSubmitted(xs, acts, n);
    t := HeldWasRead(xs, acts, i);
    from := xs[i].held.value.from;
    Reachable(xs, acts, t);
    PublishedExists(xs[t]);
    OverSince(xs, acts, t, i, from);
  }

  lemma PublishedExists(x: State)
    requires Inv(x)
    ensures x.session.shared.socket.Some? ==> x.session.shared.socket.value in x.session.created
  {
  }

  lemma OriginFits(x: State)
    requires Inv(x) && x.engine.session == Core.SESSION_CONNECTED && x.engine.stats != Core.NO_STATS
    ensures x.up.Some? && x.origin.Some?
    ensures x.origin.value.from == x.up.value <==> !x.origin.value.late
  {
  }

  // The other case happens

  /** `n` acts can lead from `x` to `y`. */
  ghost predicate ReachesIn(x: State, y: State, n: nat)
    decreases n
  {
    if n == 0 then x == y
    else exists z, act :: ReachesIn(x, z, n - 1) && Enabled(z, act) && y == Apply(z, act)
  }

  ghost predicate Reaches(x: State, y: State) {
    exists n: nat :: ReachesIn(x, y, n)
  }

  lemma ReachesSelf(x: State)
    ensures Reaches(x, x)
  {
    assert ReachesIn(x, x, 0);
  }

  lemma ReachesOn(x: State, y: State, act: Act)
    requires Reaches(x, y) && Enabled(y, act)
    ensures Reaches(x, Apply(y, act))
  {
    hide Enabled, Apply;
    var n: nat :| ReachesIn(x, y, n);
    assert ReachesIn(x, Apply(y, act), n + 1);
  }

  /** A step of the connector that reports nothing. */
  lemma Moves(x: State, y: State, e: Srt.Event)
    requires Reaches(x, y) && !e.Use? && Srt.Enabled(y.session, e) && Reports(y.session, e) == []
    ensures Reaches(x, y.(session := Srt.Apply(y.session, e)))
  {
    hide Reaches, Srt.Apply, Srt.Enabled, Reports;
    assert Enabled(y, Session(e));
    ReachesOn(x, y, Session(e));
    assert Apply(y, Session(e)) == y.(session := Srt.Apply(y.session, e));
  }

  /** A step of the connector that reports one status. */
  lemma Tells(x: State, y: State, e: Srt.Event, st: Srt.Status) returns (z: State)
    requires Reaches(x, y) && !e.Use? && Srt.Enabled(y.session, e) && Reports(y.session, e) == [st]
    ensures Reaches(x, z) && z.held == y.held && z.session == Srt.Apply(y.session, e)
    ensures z.engine == Core.Step(y.engine, Core.SetSession(Code(st)))
    ensures z.over == if e.Announce? then y.over else y.session.created
    ensures e.Announce? ==> z.up == Some(y.session.point.h)
  {
    hide Reaches, Srt.Apply, Srt.Enabled, Reports, Core.Step, Told;
    assert Enabled(y, Session(e));
    ToldOne(y.engine, st);
    ReachesOn(x, y, Session(e));
    z := Apply(y, Session(e));
  }

  /** Nothing was told to the engine, and the worker did nothing. */
  predicate Beside(x: State, y: State) {
    y.held == x.held && y.over == x.over && y.engine == x.engine && !y.session.stop
  }

  /** The connector notices that the connection is gone. */
  lemma Breaks(x: State, y: State) returns (z: State)
    requires Reaches(x, y) && y.session.point.Monitoring? && !y.session.stop
    ensures Reaches(x, z) && Beside(y, z) && z.session.point.Reporting?
    ensures z.session.created == y.session.created
  {
    hide Reaches;
    Moves(x, y, Srt.EndMonitor);
    var a := y.(session := Srt.Apply(y.session, Srt.EndMonitor));
    Moves(x, a, Srt.Unmark);
    var b := a.(session := Srt.Apply(a.session, Srt.Unmark));
    Moves(x, b, Srt.Decide);
    z := b.(session := Srt.Apply(b.session, Srt.Decide));
  }

  /** It tries a new socket. */
  lemma Retries(x: State, y: State, g: Srt.Handle) returns (z: State)
    requires Reaches(x, y) && y.session.point.LoopTop? && !y.session.stop && g !in y.session.created
    ensures Reaches(x, z) && Beside(y, z) && z.session.point == Srt.CheckingStop(g)
  {
    hide Reaches;
    Moves(x, y, Srt.EnterLoop);
    var a := y.(session := Srt.Apply(y.session, Srt.EnterLoop));
    Moves(x, a, Srt.Resolve(true));
    var b := a.(session := Srt.Apply(a.session, Srt.Resolve(true)));
    Moves(x, b, Srt.Create(g));
    var c := b.(session := Srt.Apply(b.session, Srt.Create(g)));
    Moves(x, c, Srt.Publish);
    z := c.(session := Srt.Apply(c.session, Srt.Publish));
  }

  /** And connects it. */
  lemma Connects(x: State, y: State) returns (z: State)
    requires Reaches(x, y) && y.session.point.CheckingStop? && !y.session.stop
    ensures Reaches(x, z) && Beside(y, z) && z.session.point == Srt.Announcing(y.session.point.h)
  {
    hide Reaches;
    Moves(x, y, Srt.CheckStop);
    var a := y.(session := Srt.Apply(y.session, Srt.CheckStop));
    Moves(x, a, Srt.Configure(true));
    var b := a.(session := Srt.Apply(a.session, Srt.Configure(true)));
    Moves(x, b, Srt.Attempt(true));
    var c := b.(session := Srt.Apply(b.session, Srt.Attempt(true)));
    Moves(x, c, Srt.Mark);
    z := c.(session := Srt.Apply(c.session, Srt.Mark));
  }

  /** The loss is reported and the socket closed. */
  lemma Loses(x: State, y: State) returns (z: State)
    requires Reaches(x, y) && y.session.point.Reporting? && !y.session.stop
    ensures Reaches(x, z) && z.session.point.LoopTop? && !z.session.stop
    ensures z.held == y.held && z.over == z.session.created == y.session.created
    ensures z.engine == Core.Step(y.engine, Core.SetSession(Core.SESSION_RECONNECTING))
  {
    hide Reaches, Core.Step;
    var told := Tells(x, y, Srt.Report, Srt.Reconnecting);
    Moves(x, told, Srt.CloseSocket);
    z := told.(session := Srt.Apply(told.session, Srt.CloseSocket));
  }

  lemma Announces(x: State, y: State) returns (z: State)
    requires Reaches(x, y) && y.session.point.Announcing?
    ensures Reaches(x, z) && z.held == y.held && z.over == y.over && z.up == Some(y.session.point.h)
    ensures z.engine == Core.Step(y.engine, Core.SetSession(Core.SESSION_CONNECTED))
  {
    hide Reaches, Core.Step;
    z := Tells(x, y, Srt.Announce, Srt.Connected);
  }

  /** From a broken connection to the next one, the worker still holding what it read before. */
  lemma Reconnects(x: State, g: Srt.Handle) returns (z: State)
    requires x.session.point.Monitoring? && !x.session.stop && g !in x.session.created
    ensures Reaches(x, z) && z.held == x.held && z.up == Some(g) && z.over == x.session.created
    ensures z.engine == Core.Step(Core.Step(x.engine, Core.SetSession(Core.SESSION_RECONNECTING)),
                                  Core.SetSession(Core.SESSION_CONNECTED))
  {
    ReachesSelf(x);
    hide Reaches, Core.Step, Srt.Apply, Srt.Enabled, Reports;
    var broken := Breaks(x, x);
    var lost := Loses(x, broken);
    var retrying := Retries(x, lost, g);
    var connected := Connects(x, retrying);
    z := Announces(x, connected);
  }

  lemma SubmitsHeld(x: State, y: State) returns (z: State)
    requires Reaches(x, y) && y.held.Some?
    ensures Reaches(x, z) && z.up == y.up
    ensures z.engine == Core.Step(y.engine, Core.SubmitStats(y.held.value.stats))
    ensures z.origin == Some(Origin(y.held.value.from, y.held.value.from in y.over))
  {
    hide Core.Step;
    ReachesOn(x, y, Submit);
    z := Apply(y, Submit);
  }

  lemma NewSessionLearns(e: Core.State, stats: Core.TransportStats)
    requires Core.SomeLinkUp(e.links) && stats.rttMs != 0
    ensures var f := Core.Step(Core.Step(e, Core.SetSession(Core.SESSION_RECONNECTING)),
                               Core.SetSession(Core.SESSION_CONNECTED));
            Runs.Learns(Core.Step(f, Core.SubmitStats(stats)), Core.Tick(stats.sampledAtMs))
  {
  }

  /**
    Whenever the worker holds usable statistics of an established connection and a link is up, the
    connection can be lost and regained so that the first tick of the new one learns them, at age zero.
   */
  lemma OldFiguresLearned(x: State, g: Srt.Handle) returns (z: State)
    requires Inv(x) && x.session.point.Monitoring? && !x.session.stop && g !in x.session.created
    requires x.held.Some? && x.held.value.stats.rttMs != 0 && Core.SomeLinkUp(x.engine.links)
    ensures Reaches(x, z) && z.up == Some(g) && z.engine.stats == x.held.value.stats
    ensures Runs.Learns(z.engine, Core.Tick(z.engine.stats.sampledAtMs))
    ensures z.origin == Some(Origin(x.held.value.from, true)) && x.held.value.from != g
  {
    HeldExists(x);
    hide Reaches, Inv;
    var connected := Reconnects(x, g);
    NewSessionLearns(x.engine, x.held.value.stats);
    z := SubmitsHeld(x, connected);
    hide Runs.Learns;
  }

  /** A worker that saw `connected` in time can still read a socket whose loss has just been reported. */
  lemma GivenUpStillRead(x: State, stats: Core.TransportStats)
    requires Inv(x) && x.session.point.Reporting? && x.session.shared.socket.Some? && x.held.None?
    ensures var y := Apply(x, Session(Srt.Report));
            Enabled(y, Sample(stats)) && Apply(y, Sample(stats)).held.value.from in y.over
  {
    hide Told;
  }

  lemma HeldExists(x: State)
    requires Inv(x) && x.held.Some?
    ensures x.held.value.from in x.session.created
  {
  }
}
