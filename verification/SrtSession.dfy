/**
  The SRT session of plugin/srt-session.cpp: a connector thread, `stop`, the send path and the
  statistics path share one socket handle under a claim-then-close protocol. One event is one
  lock-protected section, one atomic flag access or one status report.
 */
module SrtSession {
  import opened Words

  type Handle = nat

  /** What `socket_mutex` protects, with the log of handles passed to srt_close. */
  datatype Shared = Shared(socket: Option<Handle>, closed: seq<Handle>)

  /** Close `h` if it is still the current socket (close_socket). */
  function CloseOwn(sh: Shared, h: Handle): Shared {
    if sh.socket == Some(h) then Shared(None, sh.closed + [h]) else sh
  }

  /** Close whatever socket is current (close_current_socket). */
  function CloseCurrent(sh: Shared): Shared {
    if sh.socket.Some? then Shared(None, sh.closed + [sh.socket.value]) else sh
  }

  class Session {
    var socket: Option<Handle>
    var closed: seq<Handle>

    ghost function View(): Shared
      reads this
    {
      Shared(socket, closed)
    }

    constructor ()
      ensures View() == Shared(None, [])
    {
      socket, closed := None, [];
    }

    method CloseSocket(h: Handle)
      modifies this
      ensures View() == CloseOwn(old(View()), h)
    {
      if socket != Some(h) {
        return;
      }
      socket := None;
      closed := closed + [h];
    }

    method CloseCurrentSocket()
      modifies this
      ensures View() == CloseCurrent(old(View()))
    {
      var current := socket;
      if current == None {
        return;
      }
      socket := None;
      closed := closed + [current.value];
    }
  }

  datatype Status = Idle | Connecting | Connected | Reconnecting | Fatal | Stopped

  /** Program points of the connector thread; `h` is its local socket. */
  datatype Point =
    | Unstarted | LoopTop | Resolving | Creating
    | Publishing(h: Handle) | CheckingStop(h: Handle) | Configuring(h: Handle) | Attempting(h: Handle)
    | Marking(h: Handle) | Announcing(h: Handle) | Monitoring(h: Handle) | Unmarking(h: Handle)
    | Deciding(h: Handle) | Reporting(h: Handle) | ClosingOwn(h: Handle, exit: bool)
    | Finished

  /** Program points of the owner calling stop(). */
  datatype Stopper = Quiet | Claiming | Joining | Clearing | Stating

  datatype State = State(
    shared: Shared, created: set<Handle>, stop: bool, connected: bool, point: Point, everConnected: bool,
    stopper: Stopper,
    trace: seq<Status>)  // statuses reported since the last start

  datatype Event =
    | Start | StartRejected | SpawnFailed
    | EnterLoop | Resolve(ok: bool) | Create(h: Handle) | CreateFailed | Publish | CheckStop | Configure(ok: bool)
    | Attempt(ok: bool) | Mark | Announce | EndMonitor | Unmark | Decide | Report | CloseSocket
    | BeginStop | Claim | Join | ClearConnected | ReportStopped
    | Use

  predicate Init(s: State) {
    s == State(Shared(None, []), {}, false, false, Unstarted, false, Quiet, [])
  }

  predicate Enabled(s: State, e: Event) {
    match e
    // start() refuses while the thread is joinable, and its owner does not overlap it with stop().
    case Start => s.point.Unstarted? && s.stopper.Quiet?
    case StartRejected => s.point.Unstarted? && s.stopper.Quiet?
    case SpawnFailed => s.point.Unstarted? && s.stopper.Quiet?
    case EnterLoop => s.point.LoopTop?
    case Resolve(_) => s.point.Resolving?
    case Create(h) => s.point.Creating? && h !in s.created
    case CreateFailed => s.point.Creating?
    case Publish => s.point.Publishing?
    case CheckStop => s.point.CheckingStop?
    case Configure(_) => s.point.Configuring?
    case Attempt(_) => s.point.Attempting?
    case Mark => s.point.Marking?
    case Announce => s.point.Announcing?
    case EndMonitor => s.point.Monitoring?
    case Unmark => s.point.Unmarking?
    case Decide => s.point.Deciding?
    case Report => s.point.Reporting?
    case CloseSocket => s.point.ClosingOwn?
    case BeginStop => s.stopper.Quiet?
    case Claim => s.stopper.Claiming?
    case Join => s.stopper.Joining? && (s.point.Finished? || s.point.Unstarted?)
    case ClearConnected => s.stopper.Clearing?
    case ReportStopped => s.stopper.Stating?
    // A send or a statistics query: some may come while `connected` is already cleared.
    case Use => s.shared.socket.Some?
  }

  /** The status a failed attempt reports. */
  function Retry(s: State): Status {
    if s.everConnected then Reconnecting else Connecting
  }

  function Apply(s: State, e: Event): State
    requires Enabled(s, e)
  {
    match e
    case Start => s.(stop := false, point := LoopTop, everConnected := false, trace := [Connecting])
    case StartRejected => s.(trace := s.trace + [Fatal])
    case SpawnFailed => s.(stop := true, connected := false, everConnected := false, trace := [Connecting, Fatal])
    case EnterLoop => s.(point := if s.stop then Finished else Resolving)
    case Resolve(ok) =>
      if ok then s.(point := Creating)
      else s.(point := LoopTop, trace := if s.everConnected then s.trace + [Reconnecting] else s.trace)
    case Create(h) => s.(point := Publishing(h), created := s.created + {h})
    case CreateFailed => s.(point := Finished, trace := s.trace + [Fatal])
    case Publish => s.(point := CheckingStop(s.point.h), shared := s.shared.(socket := Some(s.point.h)))
    case CheckStop => s.(point := if s.stop then ClosingOwn(s.point.h, true) else Configuring(s.point.h))
    case Configure(ok) =>
      if ok then s.(point := Attempting(s.point.h))
      else s.(point := ClosingOwn(s.point.h, true), trace := s.trace + [Fatal])
    case Attempt(ok) =>
      if ok then s.(point := Marking(s.point.h))
      else s.(point := ClosingOwn(s.point.h, false), trace := s.trace + [Retry(s)])
    case Mark => s.(point := Announcing(s.point.h), connected := true, everConnected := true)
    case Announce => s.(point := Monitoring(s.point.h), trace := s.trace + [Connected])
    case EndMonitor => s.(point := Unmarking(s.point.h))
    case Unmark => s.(point := Deciding(s.point.h), connected := false)
    case Decide => s.(point := if s.stop then ClosingOwn(s.point.h, false) else Reporting(s.point.h))
    case Report => s.(point := ClosingOwn(s.point.h, false), trace := s.trace + [Reconnecting])
    case CloseSocket =>
      s.(point := if s.point.exit then Finished else LoopTop, shared := CloseOwn(s.shared, s.point.h))
    case BeginStop => s.(stop := true, stopper := Claiming)
    case Claim => s.(stopper := Joining, shared := CloseCurrent(s.shared))
    case Join => s.(stopper := Clearing, point := Unstarted)
    case ClearConnected => s.(stopper := Stating, connected := false)
    case ReportStopped => s.(stopper := Quiet, trace := s.trace + [Stopped])
    case Use => s
  }

  ghost predicate Next(s: State, t: State) {
    exists e :: Enabled(s, e) && t == Apply(s, e)
  }

  ghost predicate Behavior(ss: seq<State>) {
    && |ss| > 0 && Init(ss[0])
    && forall i :: 0 <= i < |ss| - 1 ==> Next(ss[i], ss[i + 1])
  }

  // Sockets

  function Local(p: Point): Option<Handle> {
    match p
    case Unstarted => None
    case LoopTop => None
    case Resolving => None
    case Creating => None
    case Finished => None
    case _ => Some(p.h)
  }

  predicate NoRepeats(s: seq<Handle>) {
    forall i, j :: 0 <= i < j < |s| ==> s[i] != s[j]
  }

  predicate Sockets(s: State) {
    && NoRepeats(s.shared.closed)
    && (forall i :: 0 <= i < |s.shared.closed| ==> s.shared.closed[i] in s.created)
    // Only the connector's own socket can be open.
    && (forall h :: h in s.created ==> h in s.shared.closed || Local(s.point) == Some(h))
    && (Local(s.point).Some? ==> Local(s.point).value in s.created)
    // The published socket is the connector's own and not yet closed.
    && (s.shared.socket.Some? ==>
          s.shared.socket == Local(s.point) && !s.point.Publishing? && s.shared.socket.value !in s.shared.closed)
    && (s.point.Publishing? ==> s.point.h !in s.shared.closed)
    // A socket that is no longer published has been claimed by whoever closed it.
    && (Local(s.point).Some? && !s.point.Publishing? && s.shared.socket.None? ==>
          Local(s.point).value in s.shared.closed)
    && (s.stopper.Clearing? || s.stopper.Stating? ==> s.point.Unstarted?)
  }

  lemma CloseOnce(closed: seq<Handle>, h: Handle)
    requires NoRepeats(closed) && h !in closed
    ensures NoRepeats(closed + [h]) && forall g :: g in closed + [h] <==> g in closed || g == h
  {
  }

  /** Claiming the published socket and closing it, with the connector keeping or dropping its local handle. */
  lemma SocketsClose(s: State, t: State)
    requires Sockets(s) && s.shared.socket.Some?
    requires t.shared == Shared(None, s.shared.closed + [s.shared.socket.value]) && t.created == s.created
    requires Local(t.point) == Local(s.point) || Local(t.point) == None
    requires !t.point.Publishing? && (t.stopper.Clearing? || t.stopper.Stating? ==> t.point.Unstarted?)
    ensures Sockets(t)
  {
    CloseOnce(s.shared.closed, s.shared.socket.value);
  }

  lemma SocketsKept(s: State, t: State)
    requires Sockets(s) && t.shared == s.shared && t.created == s.created
    requires if Local(t.point) == Local(s.point) then t.point.Publishing? == s.point.Publishing?
             else Local(t.point) == None && s.shared.socket.None? && !s.point.Publishing?
    requires t.stopper.Clearing? || t.stopper.Stating? ==> t.point.Unstarted?
    ensures Sockets(t)
  {
  }

  lemma SocketsStep(s: State, e: Event)
    requires Sockets(s) && Enabled(s, e)
    ensures Sockets(Apply(s, e))
  {
    var t := Apply(s, e);
    if (e.CloseSocket? && s.shared.socket == Some(s.point.h)) || (e.Claim? && s.shared.socket.Some?) {
      SocketsClose(s, t);
    } else if !e.Create? && !e.Publish? {
      SocketsKept(s, t);
    }
  }

  // Status trace

  /** Some Connected has no Reconnecting after it yet. */
  predicate Up(trace: seq<Status>) {
    exists i :: 0 <= i < |trace| && trace[i].Connected? && forall k :: i < k < |trace| ==> !trace[k].Reconnecting?
  }

  /** A Reconnecting separates any two Connected, and no Connecting follows a Connected. */
  predicate Alternates(trace: seq<Status>) {
    forall i, j :: 0 <= i < j < |trace| && trace[i].Connected? ==>
      && !trace[j].Connecting?
      && (trace[j].Connected? ==> exists k :: i < k < j && trace[k].Reconnecting?)
  }

  lemma AlternatesAppend(trace: seq<Status>, st: Status)
    requires Alternates(trace)
    requires st.Connected? ==> !Up(trace)
    requires st.Connecting? ==> Connected !in trace
    ensures Alternates(trace + [st])
  {
    var next := trace + [st];
    forall i, j | 0 <= i < j < |next| && next[i].Connected?
      ensures !next[j].Connecting?
      ensures next[j].Connected? ==> exists k :: i < k < j && next[k].Reconnecting?
    {
      assert next[i] == trace[i];
      if j < |trace| {
        assert next[j] == trace[j];
        if trace[j].Connected? {
          var k :| i < k < j && trace[k].Reconnecting?;
          assert next[k].Reconnecting?;
        }
      } else if st.Connected? {
        var k :| i < k < |trace| && trace[k].Reconnecting?;
        assert next[k].Reconnecting?;
      }
    }
  }

  lemma UpAppend(trace: seq<Status>, st: Status)
    ensures st.Reconnecting? ==> !Up(trace + [st])
    ensures !st.Connected? && Up(trace + [st]) ==> Up(trace)
  {
    var next := trace + [st];
    if !st.Connected? && Up(next) {
      var i :| 0 <= i < |next| && next[i].Connected? && forall k :: i < k < |next| ==> !next[k].Reconnecting?;
      assert trace[i].Connected?;
      forall k | i < k < |trace| ensures !trace[k].Reconnecting? { assert next[k] == trace[k]; }
    }
    if st.Reconnecting? { assert next[|trace|].Reconnecting?; }
  }

  /** If the link is up after `before` and a later Connected follows, a Reconnecting lies between. */
  lemma ReconnectedSince(before: seq<Status>, after: seq<Status>, p: nat) returns (q: nat)
    requires Up(before) && before <= after && Alternates(after)
    requires |before| <= p < |after| && after[p].Connected?
    ensures |before| <= q < p && after[q].Reconnecting?
  {
    var i :| 0 <= i < |before| && before[i].Connected? && forall k :: i < k < |before| ==> !before[k].Reconnecting?;
    assert forall k :: 0 <= k < |before| ==> before[k] == after[k];
    q :| i < q < p && after[q].Reconnecting?;
  }

  predicate WatchingLink(p: Point) {
    p.Monitoring? || p.Unmarking? || p.Deciding? || p.Reporting?
  }

  predicate Winding(p: Point) {
    p.ClosingOwn? || p.LoopTop? || p.Finished? || p.Unstarted?
  }

  predicate Traced(s: State) {
    && Alternates(s.trace)
    && (Connected in s.trace || s.point.Announcing? ==> s.everConnected)
    && (Up(s.trace) ==> WatchingLink(s.point) || (s.stop && Winding(s.point)))
    && (!s.stopper.Quiet? ==> s.stop)
  }

  lemma FreshTraces()
    ensures Alternates([Connecting]) && !Up([Connecting])
    ensures Alternates([Connecting, Fatal]) && !Up([Connecting, Fatal])
  {
  }

  /** The status an event reports, if any. */
  function Reported(s: State, e: Event): Option<Status>
    requires Enabled(s, e)
  {
    match e
    case StartRejected => Some(Fatal)
    case Resolve(ok) => if !ok && s.everConnected then Some(Reconnecting) else None
    case CreateFailed => Some(Fatal)
    case Configure(ok) => if ok then None else Some(Fatal)
    case Attempt(ok) => if ok then None else Some(Retry(s))
    case Announce => Some(Connected)
    case Report => Some(Reconnecting)
    case ReportStopped => Some(Stopped)
    case _ => None
  }

  lemma TraceStep(s: State, e: Event)
    requires Enabled(s, e) && !e.Start? && !e.SpawnFailed?
    ensures Apply(s, e).trace == if Reported(s, e).Some? then s.trace + [Reported(s, e).value] else s.trace
  {
  }

  lemma TracedStep(s: State, e: Event)
    requires Traced(s) && Enabled(s, e)
    ensures Traced(Apply(s, e))
  {
    FreshTraces();
    hide Alternates, Up;
    if !e.Start? && !e.SpawnFailed? {
      TraceStep(s, e);
      if Reported(s, e).Some? {
        AlternatesAppend(s.trace, Reported(s, e).value);
        UpAppend(s.trace, Reported(s, e).value);
      }
    }
  }

  predicate Inv(s: State) {
    Sockets(s) && Traced(s)
  }

  lemma InvStep(s: State, t: State)
    requires Inv(s) && Next(s, t)
    ensures Inv(t)
  {
    hide Sockets, Traced, Apply;
    var e :| Enabled(s, e) && t == Apply(s, e);
    SocketsStep(s, e);
    TracedStep(s, e);
  }

  lemma {:induction false} Reachable(ss: seq<State>, n: nat)
    requires Behavior(ss) && n < |ss|
    ensures Inv(ss[n])
  {
    if n == 0 {
      assert Alternates([]) && !Up([]);
    } else {
      hide Inv;
      Reachable(ss, n - 1);
      assert Next(ss[n - 1], ss[n - 1 + 1]);
      InvStep(ss[n - 1], ss[n]);
    }
  }

  function Open(s: State): set<Handle> {
    set h | h in s.created && h !in s.shared.closed
  }

  /**
    In every interleaving each socket is closed at most once, at most one is open, the send and
    statistics paths only touch an open one, and when no connector thread is left to join (in
    particular once stop() has joined it) every socket ever created has been closed exactly once.
   */
  lemma ClosedExactlyOnce(ss: seq<State>, n: nat)
    requires Behavior(ss) && n < |ss|
    ensures var s := ss[n];
            && NoRepeats(s.shared.closed)
            && (forall h :: h in s.shared.closed ==> h in s.created)
            && (forall g, h :: g in Open(s) && h in Open(s) ==> g == h)
            && (Enabled(s, Use) ==> s.shared.socket.value in Open(s))
            && (s.point.Unstarted? || s.point.Finished? ==> Open(s) == {})
            && (s.stopper.Clearing? || s.stopper.Stating? ==> Open(s) == {})
  {
    Reachable(ss, n);
  }

  /** Within one connector run: Reconnecting between any two Connected, never Connecting after Connected. */
  lemma StatusesAlternate(ss: seq<State>, n: nat, i: nat, j: nat)
    requires Behavior(ss) && n < |ss| && i < j < |ss[n].trace| && ss[n].trace[i].Connected?
    ensures !ss[n].trace[j].Connecting?
    ensures ss[n].trace[j].Connected? ==> exists k :: i < k < j && ss[n].trace[k].Reconnecting?
  {
    Reachable(ss, n);
  }

  // Termination

  /** How many steps the connector has left at most once it is told to stop. */
  function StepsLeft(p: Point): nat {
    match p
    case Unstarted => 0
    case Finished => 0
    case LoopTop => 1
    case ClosingOwn(_, _) => 2
    case Reporting(_) => 3
    case Deciding(_) => 4
    case Unmarking(_) => 5
    case Monitoring(_) => 6
    case Announcing(_) => 7
    case Marking(_) => 8
    case Attempting(_) => 9
    case Configuring(_) => 10
    case CheckingStop(_) => 11
    case Publishing(_) => 12
    case Creating => 13
    case Resolving => 14
  }

  /** Events of the owner and of the send and statistics paths. */
  predicate OfOthers(e: Event) {
    || e.Start? || e.StartRejected? || e.SpawnFailed? || e.BeginStop? || e.Claim? || e.Join?
    || e.ClearConnected? || e.ReportStopped? || e.Use?
  }

  /** Once told to stop, every step of the connector brings it nearer its end, and nobody else's takes it away. */
  lemma StopsSoon(s: State, e: Event)
    requires s.stop && Enabled(s, e) && !e.Start?
    ensures var t := Apply(s, e);
            && t.stop && StepsLeft(t.point) <= StepsLeft(s.point)
            && (!OfOthers(e) ==> StepsLeft(t.point) < StepsLeft(s.point))
  {
    hide CloseOwn, CloseCurrent, Retry;
  }

  /** Until its end it always has a step to make, so that stop() can join it. */
  lemma CanStep(s: State) returns (e: Event)
    requires StepsLeft(s.point) > 0
    ensures !OfOthers(e) && Enabled(s, e)
  {
    match s.point
    case LoopTop => e := EnterLoop;
    case ClosingOwn(_, _) => e := CloseSocket;
    case Reporting(_) => e := Report;
    case Deciding(_) => e := Decide;
    case Unmarking(_) => e := Unmark;
    case Monitoring(_) => e := EndMonitor;
    case Announcing(_) => e := Announce;
    case Marking(_) => e := Mark;
    case Attempting(_) => e := Attempt(false);
    case Configuring(_) => e := Configure(false);
    case CheckingStop(_) => e := CheckStop;
    case Publishing(_) => e := Publish;
    case Creating => e := CreateFailed;
    case Resolving => e := Resolve(false);
  }

  lemma JoinsWhenDone(s: State)
    requires s.stopper.Joining?
    ensures Enabled(s, Join) <==> StepsLeft(s.point) == 0
  {
  }

  /** The connector has no configured socket yet, or none any more. */
  predicate Uncommitted(p: Point) {
    || p.Unstarted? || p.LoopTop? || p.Resolving? || p.Creating? || p.Publishing? || p.CheckingStop?
    || p.ClosingOwn? || p.Finished?
  }

  /** Told to stop by then, it never connects, nor reports Connected. */
  lemma StopsBeforeConnecting(s: State, e: Event)
    requires s.stop && Uncommitted(s.point) && Enabled(s, e) && !e.Start?
    ensures Uncommitted(Apply(s, e).point) && !e.Announce?
  {
    hide CloseOwn, CloseCurrent, Retry;
  }

  // The flag that admits senders

  predicate Established(p: Point) {
    p.Announcing? || p.Monitoring? || p.Unmarking?
  }

  lemma ConnectedStep(s: State, e: Event)
    requires Sockets(s) && (s.connected <==> Established(s.point)) && Enabled(s, e)
    ensures Apply(s, e).connected <==> Established(Apply(s, e).point)
  {
    StopperWaits(s);
    hide Sockets, CloseOwn, CloseCurrent, Retry;
  }

  lemma StopperWaits(s: State)
    requires Sockets(s)
    ensures s.stopper.Clearing? || s.stopper.Stating? ==> s.point.Unstarted?
  {
  }

  /** In every interleaving senders are admitted exactly from the handshake to the end of its monitoring. */
  lemma {:induction false} ConnectedExactly(ss: seq<State>, n: nat)
    requires Behavior(ss) && n < |ss|
    ensures ss[n].connected <==> Established(ss[n].point)
  {
    hide Sockets, Inv, Apply, Enabled;
    if n > 0 {
      ConnectedExactly(ss, n - 1);
      Reachable(ss, n - 1);
      InvSockets(ss[n - 1]);
      assert Next(ss[n - 1], ss[n - 1 + 1]);
      var e :| Enabled(ss[n - 1], e) && ss[n] == Apply(ss[n - 1], e);
      ConnectedStep(ss[n - 1], e);
    }
  }

  lemma InvSockets(s: State)
    requires Inv(s)
    ensures Sockets(s)
  {
  }
}
