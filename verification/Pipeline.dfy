/**
  The live media pipeline as a transition system: encoder callback, send worker, session callback
  and the start/stop sequence interleave freely. One event is one lock-protected section or one
  atomic flag access; a send happens between the worker's pop and its result.
 */
module Pipeline {
  import opened Words
  import opened MediaQueue

  /** Where the start/stop sequence stands (plugin/srtla-output.cpp:871-974). */
  datatype Phase =
    | Off         // no session
    | Connecting  // session started, queue not yet prepared
    | Ready       // queue prepared, not yet running
    | Live        // running
    | Halting     // running cleared, capture not yet ended
    | Draining    // capture ended
    | Joining     // worker told to stop
    | Closing     // worker joined
    | Closed      // session destroyed

  datatype State = State(
    q: Queue,
    phase: Phase,
    running: bool,
    captureOpen: bool,
    pending: Option<Datagram>,   // offered and past the running check, not yet at the lock
    workerAlive: bool,
    inFlight: Option<Datagram>,  // popped, send outcome unknown
    arrivals: seq<Datagram>,     // everything offered since the queue was prepared
    refused: bool,               // some offer found the output not running
    sent: seq<Datagram>)         // everything successfully sent since then

  datatype Event =
    | StartSession | AbandonStart | PrepareQueue | Launch | SpawnWorker | OpenCapture
    | Halt | CloseCapture | SignalWorker | JoinWorker | CloseSession | FinishStop | FinishFailedStart
    | Offer(bytes: Payload, keyframe: bool, pts90k: int) | Lock
    | Pop | SendOk | SendFail | WorkerExit
    | Reconnect

  predicate Init(s: State) {
    s == State(EMPTY, Off, false, false, None, false, None, [], false, [])
  }

  predicate Enabled(s: State, e: Event) {
    match e
    case StartSession => s.phase.Off?
    case AbandonStart => s.phase.Connecting? || s.phase.Ready?
    case PrepareQueue => s.phase.Connecting?
    case Launch => s.phase.Ready?
    case SpawnWorker => s.phase.Live? && !s.workerAlive && !s.captureOpen
    case OpenCapture => s.phase.Live? && s.workerAlive && !s.captureOpen
    case Halt => s.phase.Live? || s.phase.Off?
    // Ending the capture waits for a callback that is under way.
    case CloseCapture => s.phase.Halting? && s.pending.None?
    case SignalWorker => s.phase.Draining?
    case JoinWorker => s.phase.Joining? && !s.workerAlive
    case CloseSession => s.phase.Closing?
    case FinishStop => s.phase.Closed?
    case FinishFailedStart => s.phase.Closed?
    case Offer(bytes, _, _) => s.captureOpen && s.pending.None? && bytes != []
    case Lock => s.pending.Some?
    case Pop => s.workerAlive && s.inFlight.None? && s.q.items != []
    case SendOk => s.inFlight.Some?
    case SendFail => s.inFlight.Some?
    case WorkerExit => s.workerAlive && s.inFlight.None? && s.q.items == [] && s.q.workerStop
    case Reconnect => !s.phase.Off? && !s.phase.Closed?
  }

  function Apply(s: State, e: Event): State
    requires Enabled(s, e)
  {
    match e
    case StartSession => s.(phase := Connecting)
    case AbandonStart => s.(phase := Off)
    case PrepareQueue =>
      s.(phase := Ready, q := Prepared(s.q), arrivals := [], refused := false, sent := [])
    case Launch => s.(phase := Live, running := true)
    case SpawnWorker => s.(workerAlive := true, q := s.q.(workerStop := false))
    case OpenCapture => s.(captureOpen := true)
    case Halt => s.(phase := Halting, running := false)
    case CloseCapture => s.(phase := Draining, captureOpen := false)
    case SignalWorker => s.(phase := Joining, q := StopSignalled(s.q))
    case JoinWorker => s.(phase := Closing)
    case CloseSession => s.(phase := Closed)
    case FinishStop => s.(phase := Off, q := Cleared(s.q))
    case FinishFailedStart => s.(phase := Off)
    case Offer(bytes, keyframe, pts) =>
      var d := Datagram(bytes, keyframe, pts, |s.arrivals|);
      if s.running then s.(arrivals := s.arrivals + [d], pending := Some(d))
      else s.(arrivals := s.arrivals + [d], refused := true)
    case Lock => s.(pending := None, q := Enqueued(s.q, s.pending.value))
    case Pop => s.(inFlight := Some(s.q.items[0]), q := Popped(s.q))
    case SendOk => s.(inFlight := None, sent := s.sent + [s.inFlight.value])
    case SendFail =>
      if s.q.workerStop then s.(inFlight := None, workerAlive := false)
      else s.(inFlight := None, q := Flushed(s.q))
    case WorkerExit => s.(workerAlive := false)
    case Reconnect => s.(q := Flushed(s.q))
  }

  ghost predicate Next(s: State, t: State) {
    exists e :: Enabled(s, e) && t == Apply(s, e)
  }

  /** Any finite interleaving, over any number of starts and stops. */
  ghost predicate Behavior(ss: seq<State>) {
    && |ss| > 0 && Init(ss[0])
    && forall i :: 0 <= i < |ss| - 1 ==> Next(ss[i], ss[i + 1])
  }

  // The start/stop sequence

  predicate Control(s: State) {
    && (s.running <==> s.phase.Live?)
    && (s.captureOpen ==> s.phase.Live? || s.phase.Halting?)
    && (s.workerAlive ==> s.phase.Live? || s.phase.Halting? || s.phase.Draining? || s.phase.Joining?)
    && (s.workerAlive && s.q.workerStop ==> s.phase.Joining?)
    && (s.phase.Joining? ==> s.q.workerStop)
    && (s.inFlight.Some? ==> s.workerAlive)
    && (s.pending.Some? ==> s.captureOpen && !s.refused)
    && (s.refused ==> !s.running && !s.phase.Ready?)
    && (!(s.phase.Live? || s.phase.Halting? || s.phase.Draining?) ==> s.q.items == [] && s.q.bytes == 0)
  }

  lemma ControlStep(s: State, e: Event)
    requires Control(s) && Enabled(s, e)
    ensures Control(Apply(s, e))
  {
  }

  // Byte accounting

  function TotalBytes(items: seq<Datagram>): nat {
    if items == [] then 0 else |items[0].bytes| + TotalBytes(items[1..])
  }

  lemma {:induction false} TotalBytesAppend(items: seq<Datagram>, d: Datagram)
    ensures TotalBytes(items + [d]) == TotalBytes(items) + |d.bytes|
  {
    if items != [] {
      assert (items + [d])[1..] == items[1..] + [d];
      TotalBytesAppend(items[1..], d);
    } else {
      assert items + [d] == [d];
    }
  }

  /** The counter is the exact size of the queue and within the limit, so popping never wraps it. */
  predicate Accounted(q: Queue) {
    && q.bytes == TotalBytes(q.items)
    && q.bytes <= MAX_QUEUE_BYTES
    && (q.items != [] ==> |q.items[0].bytes| <= q.bytes)
  }

  lemma AccountedEnqueue(q: Queue, d: Datagram)
    requires Accounted(q)
    ensures Accounted(Enqueued(q, d))
  {
    var base := if q.dropUntilKeyframe then [] else q.items;
    TotalBytesAppend(base, d);
    NoWrap(TotalBytes(base), |d.bytes|);
    hide WrapAdd;
    assert (base + [d])[0] == if base == [] then d else base[0];
  }

  lemma NoWrap(a: U64, b: U64)
    requires a + b <= U64_MAX
    ensures WrapAdd(a, b) == a + b
  {
  }

  lemma AccountedPop(q: Queue)
    requires Accounted(q) && q.items != []
    ensures Accounted(Popped(q)) && Popped(q).bytes == q.bytes - |q.items[0].bytes|
  {
  }

  lemma AccountedStep(s: State, e: Event)
    requires Control(s) && Accounted(s.q) && Enabled(s, e)
    ensures Accounted(Apply(s, e).q)
  {
    hide Enqueued, Popped;
    match e
    case Lock => AccountedEnqueue(s.q, s.pending.value);
    case Pop => AccountedPop(s.q);
    case _ =>
  }

  // Order

  function Flight(s: State): seq<Datagram> {
    if s.inFlight.Some? then [s.inFlight.value] else []
  }

  /** Everything sent, being sent or still queued, in order. */
  function Line(s: State): seq<Datagram> {
    s.sent + Flight(s) + s.q.items
  }

  /** How many arrivals have been through the lock or been refused. */
  function Processed(s: State): nat {
    if s.pending.Some? && s.arrivals != [] then |s.arrivals| - 1 else |s.arrivals|
  }

  function LastArrival(line: seq<Datagram>, p: nat): int
    requires p <= |line|
  {
    if p == 0 then -1 else line[p - 1].arrival
  }

  /** Entry `p` is a genuine arrival, later than the one before it, and either the very next one or a keyframe. */
  predicate Follows(line: seq<Datagram>, p: nat, arrivals: seq<Datagram>)
    requires p < |line|
  {
    var d, last := line[p], LastArrival(line, p);
    && d.arrival < |arrivals| && arrivals[d.arrival] == d
    && last < d.arrival
    && (d.arrival == last + 1 || d.keyframe)
  }

  predicate InSequence(line: seq<Datagram>, arrivals: seq<Datagram>) {
    forall p :: 0 <= p < |line| ==> Follows(line, p, arrivals)
  }

  /** The encoder may still get a datagram accepted in this start. */
  predicate MayAccept(s: State) {
    s.phase.Ready? || s.phase.Live? || s.captureOpen
  }

  predicate Ordered(s: State) {
    && (s.pending.Some? ==> s.arrivals != [] && s.pending.value == s.arrivals[|s.arrivals| - 1])
    && (forall i :: 0 <= i < |s.arrivals| ==> s.arrivals[i].arrival == i)
    && InSequence(Line(s), s.arrivals)
    && LastArrival(Line(s), |Line(s)|) < Processed(s)
    && (MayAccept(s) && !s.refused && !s.q.dropUntilKeyframe ==>
          LastArrival(Line(s), |Line(s)|) + 1 == Processed(s))
  }

  lemma SequencePrefix(line: seq<Datagram>, more: seq<Datagram>, arrivals: seq<Datagram>)
    requires InSequence(line + more, arrivals)
    ensures InSequence(line, arrivals)
  {
    forall p | 0 <= p < |line|
      ensures Follows(line, p, arrivals)
    {
      assert Follows(line + more, p, arrivals);
    }
  }

  lemma SequenceExtend(line: seq<Datagram>, d: Datagram, arrivals: seq<Datagram>)
    requires InSequence(line, arrivals)
    requires d.arrival < |arrivals| && arrivals[d.arrival] == d && LastArrival(line, |line|) < d.arrival
    requires d.arrival == LastArrival(line, |line|) + 1 || d.keyframe
    ensures InSequence(line + [d], arrivals)
  {
    forall p | 0 <= p < |line + [d]|
      ensures Follows(line + [d], p, arrivals)
    {
      assert p < |line| ==> Follows(line, p, arrivals);
    }
  }

  lemma SequenceGrows(line: seq<Datagram>, arrivals: seq<Datagram>, d: Datagram)
    requires InSequence(line, arrivals)
    ensures InSequence(line, arrivals + [d])
  {
    forall p | 0 <= p < |line|
      ensures Follows(line, p, arrivals + [d])
    {
      assert Follows(line, p, arrivals);
    }
  }

  lemma {:induction false} SequenceBelow(line: seq<Datagram>, arrivals: seq<Datagram>, k: nat, n: nat)
    requires InSequence(line, arrivals) && k <= n <= |line|
    ensures LastArrival(line, k) <= LastArrival(line, n)
  {
    if k < n {
      assert Follows(line, n - 1, arrivals);
      SequenceBelow(line, arrivals, k, n - 1);
    }
  }

  /** Discarding the tail of the line keeps the order and the bound on the last arrival. */
  lemma CutKeepsOrder(s: State, line: seq<Datagram>)
    requires Ordered(s) && line <= Line(s)
    ensures InSequence(line, s.arrivals) && LastArrival(line, |line|) < Processed(s)
  {
    assert Line(s) == line + Line(s)[|line|..];
    SequencePrefix(line, Line(s)[|line|..], s.arrivals);
    SequenceBelow(Line(s), s.arrivals, |line|, |Line(s)|);
  }

  /** Offering a datagram keeps or empties the queue, and appends it unless the queue then drops. */
  lemma EnqueueOutcome(q: Queue, d: Datagram)
    ensures var base := if q.dropUntilKeyframe && d.keyframe then [] else q.items;
            Enqueued(q, d).items == if Enqueued(q, d).dropUntilKeyframe then base else base + [d]
    ensures q.dropUntilKeyframe && !Enqueued(q, d).dropUntilKeyframe ==> d.keyframe
  {
  }

  /** The line without what a keyframe clears from the queue before it is let in. */
  function KeptLine(s: State, d: Datagram): seq<Datagram> {
    if s.q.dropUntilKeyframe && d.keyframe then s.sent + Flight(s) else Line(s)
  }

  lemma LineLock(s: State)
    requires s.pending.Some?
    ensures var t, d, kept := Apply(s, Lock), s.pending.value, KeptLine(s, s.pending.value);
            && s.sent <= kept <= Line(s)
            && Line(t) == (if t.q.dropUntilKeyframe then kept else kept + [d])
            && (s.q.dropUntilKeyframe && !t.q.dropUntilKeyframe ==> d.keyframe)
            && (!s.q.dropUntilKeyframe ==> kept == Line(s))
  {
    hide Enqueued;
    var t, d := Apply(s, Lock), s.pending.value;
    EnqueueOutcome(s.q, d);
    if !t.q.dropUntilKeyframe {
      assert Line(t) == KeptLine(s, d) + [d];
    }
  }

  /** Events that discard from the line. */
  predicate Cuts(e: Event) {
    e.SendFail? || e.Reconnect? || e.SignalWorker? || e.FinishStop?
  }

  lemma LineCut(s: State, e: Event)
    requires Control(s) && Enabled(s, e) && Cuts(e)
    ensures var t := Apply(s, e);
            Line(t) <= Line(s) && t.sent == s.sent && (t.q.dropUntilKeyframe || !MayAccept(t))
  {
    var t := Apply(s, e);
    assert t.q.items == [];
    assert Line(t) == s.sent + Flight(t) <= Line(s);
  }

  lemma LineKept(s: State, e: Event)
    requires Control(s) && Enabled(s, e) && !e.Lock? && !e.PrepareQueue? && !Cuts(e)
    ensures var t := Apply(s, e);
            Line(t) == Line(s) && s.sent <= t.sent && t.q.dropUntilKeyframe == s.q.dropUntilKeyframe
  {
    var t := Apply(s, e);
    if e.Pop? || e.SendOk? {
      assert Line(t) == Line(s);
    } else {
      assert t.sent == s.sent && t.inFlight == s.inFlight && t.q.items == s.q.items;
    }
  }

  /** Apart from the lock and a new start, an event keeps the line or cuts it and stops accepting. */
  lemma LineStep(s: State, e: Event)
    requires Control(s) && Enabled(s, e) && !e.Lock? && !e.PrepareQueue?
    ensures var t := Apply(s, e);
            && s.sent <= t.sent && Processed(s) <= Processed(t)
            && (MayAccept(t) ==> MayAccept(s))
            && (!Cuts(e) ==> Line(t) == Line(s) && t.q.dropUntilKeyframe == s.q.dropUntilKeyframe)
            && (Cuts(e) ==> Line(t) <= Line(s) && (t.q.dropUntilKeyframe || !MayAccept(t)))
  {
    hide Line, Popped, Flushed, StopSignalled, Cleared;
    if Cuts(e) { LineCut(s, e); } else { LineKept(s, e); }
  }

  lemma LockCounts(s: State)
    requires Control(s) && Ordered(s) && s.pending.Some?
    ensures s.pending.value.arrival == Processed(s) == |s.arrivals| - 1 && s.arrivals[Processed(s)] == s.pending.value
    ensures Processed(Apply(s, Lock)) == Processed(s) + 1 && Apply(s, Lock).sent == s.sent
    ensures MayAccept(s) && !s.refused
  {
  }

  lemma OrderedLock(s: State)
    requires Control(s) && Ordered(s) && s.pending.Some?
    ensures Ordered(Apply(s, Lock))
  {
    hide Control, Enqueued, InSequence, Line, KeptLine, Processed;
    var t, d := Apply(s, Lock), s.pending.value;
    LockCounts(s);
    LineLock(s);
    CutKeepsOrder(s, KeptLine(s, d));
    if !t.q.dropUntilKeyframe {
      SequenceExtend(KeptLine(s, d), d, s.arrivals);
    }
  }

  /** A step that keeps the line, the arrivals and what is pending keeps the order. */
  lemma OrderedSame(s: State, t: State)
    requires Ordered(s) && Line(t) == Line(s)
    requires t.arrivals == s.arrivals && t.pending == s.pending
    requires t.refused == s.refused && t.q.dropUntilKeyframe == s.q.dropUntilKeyframe
    requires MayAccept(t) ==> MayAccept(s)
    ensures Ordered(t)
  {
  }

  /** So does one that cuts the line short, once the queue drops until a keyframe or the capture is over. */
  lemma OrderedCut(s: State, t: State)
    requires Ordered(s) && Line(t) <= Line(s)
    requires t.arrivals == s.arrivals && t.pending == s.pending
    requires t.q.dropUntilKeyframe || !MayAccept(t)
    ensures Ordered(t)
  {
    CutKeepsOrder(s, Line(t));
  }

  lemma OrderedOffer(s: State, e: Event)
    requires Control(s) && Ordered(s) && Enabled(s, e) && e.Offer?
    ensures Ordered(Apply(s, e))
  {
    var t := Apply(s, e);
    SequenceGrows(Line(s), s.arrivals, t.arrivals[|s.arrivals|]);
    assert Line(t) == Line(s);
  }

  lemma OrderedStep(s: State, e: Event)
    requires Control(s) && Ordered(s) && Enabled(s, e)
    ensures Ordered(Apply(s, e))
  {
    hide Ordered, Enqueued;
    var t := Apply(s, e);
    if e.Lock? {
      OrderedLock(s);
    } else if e.Offer? {
      OrderedOffer(s, e);
    } else if e.PrepareQueue? {
      OrderedAfresh(s);
    } else {
      LineStep(s, e);
      hide Line, MayAccept;
      if Cuts(e) { OrderedCut(s, t); } else { OrderedSame(s, t); }
    }
  }

  lemma OrderedAfresh(s: State)
    requires Control(s) && Enabled(s, PrepareQueue)
    ensures Ordered(Apply(s, PrepareQueue))
  {
    assert Line(Apply(s, PrepareQueue)) == [];
  }

  // Timestamps

  predicate NonDecreasing(arrivals: seq<Datagram>) {
    forall i, j :: 0 <= i < j < |arrivals| ==> arrivals[i].pts90k <= arrivals[j].pts90k
  }

  /** With non-decreasing timestamps the queue never spans more than two seconds. */
  predicate Spanned(s: State) {
    NonDecreasing(s.arrivals) ==>
      forall i, j :: 0 <= i < j < |s.q.items| ==>
        0 <= s.q.items[j].pts90k - s.q.items[i].pts90k <= MAX_QUEUE_DURATION
  }

  lemma QueuedAreArrivals(s: State, k: nat)
    requires Ordered(s) && k < |s.q.items|
    ensures s.q.items[k].arrival < Processed(s) && s.arrivals[s.q.items[k].arrival] == s.q.items[k]
  {
    var p := |s.sent + Flight(s)| + k;
    assert Line(s)[p] == s.q.items[k];
    assert Follows(Line(s), p, s.arrivals);
    SequenceBelow(Line(s), s.arrivals, p + 1, |Line(s)|);
  }

  lemma SpannedLock(s: State)
    requires Control(s) && Ordered(s) && Spanned(s) && s.pending.Some?
    ensures Spanned(Apply(s, Lock))
  {
    if NonDecreasing(s.arrivals) {
      forall k | 0 <= k < |s.q.items|
        ensures s.q.items[k].pts90k <= s.pending.value.pts90k
      {
        QueuedAreArrivals(s, k);
      }
    }
  }

  lemma SpannedStep(s: State, e: Event)
    requires Control(s) && Ordered(s) && Spanned(s) && Enabled(s, e)
    ensures Spanned(Apply(s, e))
  {
    hide Enqueued, Ordered;
    var t := Apply(s, e);
    if e.Lock? {
      SpannedLock(s);
    } else if e.Offer? {
      if NonDecreasing(t.arrivals) {
        PrefixNonDecreasing(s.arrivals, t.arrivals);
      }
    }
  }

  lemma PrefixNonDecreasing(a: seq<Datagram>, b: seq<Datagram>)
    requires a <= b && NonDecreasing(b)
    ensures NonDecreasing(a)
  {
    forall i, j | 0 <= i < j < |a|
      ensures a[i].pts90k <= a[j].pts90k
    {
      assert a[i] == b[i] && a[j] == b[j];
    }
  }

  // Every reachable state

  predicate Inv(s: State) {
    Control(s) && Accounted(s.q) && Ordered(s) && Spanned(s)
  }

  lemma InvStep(s: State, t: State)
    requires Inv(s) && Next(s, t)
    ensures Inv(t)
  {
    hide Control, Accounted, Ordered, Spanned, Apply;
    var e :| Enabled(s, e) && t == Apply(s, e);
    ControlStep(s, e);
    AccountedStep(s, e);
    OrderedStep(s, e);
    SpannedStep(s, e);
  }

  lemma {:induction false} Reachable(ss: seq<State>, n: nat)
    requires Behavior(ss) && n < |ss|
    ensures Inv(ss[n])
  {
    hide Next;
    if n > 0 {
      hide Inv;
      Reachable(ss, n - 1);
      assert Next(ss[n - 1], ss[n - 1 + 1]);
      InvStep(ss[n - 1], ss[n]);
    }
  }

  /**
    In every interleaving, what was sent is a duplicate-free subsequence of what arrived, in order,
    and resumes only at keyframes: a sent datagram that does not directly continue the previous
    one (or the very first arrival) carries the keyframe flag.
   */
  lemma SentInOrder(ss: seq<State>, n: nat, i: nat, j: nat)
    requires Behavior(ss) && n < |ss| && i < |ss[n].sent|
    ensures var sent, arrivals := ss[n].sent, ss[n].arrivals;
            && sent[i].arrival < |arrivals| && arrivals[sent[i].arrival] == sent[i]
            && (i < j < |sent| ==> sent[i].arrival < sent[j].arrival)
            && (sent[i].arrival == LastArrival(sent, i) + 1 || sent[i].keyframe)
  {
    Reachable(ss, n);
    var s := ss[n];
    CutKeepsOrder(s, s.sent);
    assert Follows(s.sent, i, s.arrivals);
    if i < j < |s.sent| {
      assert Follows(s.sent, j, s.arrivals);
      SequenceBelow(s.sent, s.arrivals, i + 1, j);
    }
  }

  /** In every interleaving the byte counter is exact and bounded, and the queue spans at most two seconds. */
  lemma QueueBounded(ss: seq<State>, n: nat)
    requires Behavior(ss) && n < |ss|
    ensures ss[n].q.bytes == TotalBytes(ss[n].q.items) <= MAX_QUEUE_BYTES
    ensures Enabled(ss[n], Pop) ==> Popped(ss[n].q).bytes == ss[n].q.bytes - |ss[n].q.items[0].bytes|
    ensures ss[n].phase.Connecting? ==> Prepared(ss[n].q).bytes == 0
    ensures NonDecreasing(ss[n].arrivals) ==>
              forall i, j :: 0 <= i < j < |ss[n].q.items| ==>
                ss[n].q.items[j].pts90k - ss[n].q.items[i].pts90k <= MAX_QUEUE_DURATION
  {
    Reachable(ss, n);
  }

  // After a reconnect

  /** A step that does not begin another start, or a step of some other component. */
  ghost predicate NextInStart(s: State, t: State) {
    s == t || exists e :: Enabled(s, e) && !e.PrepareQueue? && t == Apply(s, e)
  }

  ghost predicate RunInStart(ss: seq<State>) {
    |ss| > 0 && forall i :: 0 <= i < |ss| - 1 ==> NextInStart(ss[i], ss[i + 1])
  }

  /** Within a start the invariant is kept, and counters and log only grow. */
  lemma InStartStep(s: State, t: State)
    requires Inv(s) && NextInStart(s, t)
    ensures Inv(t) && s.sent <= t.sent && Processed(s) <= Processed(t)
  {
    hide Apply, Control, Accounted, Ordered, Spanned, Processed, Line;
    if s != t {
      var e :| Enabled(s, e) && !e.PrepareQueue? && t == Apply(s, e);
      assert Next(s, t);
      InvStep(s, t);
      if e.Lock? {
        assert s.pending.Some?;
        LockCounts(s);
      } else {
        LineStep(s, e);
      }
    }
  }

  /** What was sent, is being sent or is queued beyond the first `m` sent. */
  function Beyond(m: nat, s: State): seq<Datagram>
    requires m <= |s.sent|
  {
    Line(s)[m..]
  }

  /** `tail` without a leading datagram that arrived before number `w`. */
  function Renewed(tail: seq<Datagram>, w: nat): seq<Datagram> {
    if tail != [] && tail[0].arrival < w then tail[1..] else tail
  }

  /** At most the head of `tail` is older than `w`, and then it is `stale`; what follows starts at a keyframe. */
  predicate Restarts(tail: seq<Datagram>, w: nat, stale: Option<Datagram>) {
    && (tail != [] && tail[0].arrival < w ==> stale == Some(tail[0]))
    && (forall k :: 0 < k < |tail| ==> w <= tail[k].arrival)
    && (Renewed(tail, w) != [] ==> Renewed(tail, w)[0].keyframe)
  }

  lemma RestartsCut(tail: seq<Datagram>, cut: seq<Datagram>, w: nat, stale: Option<Datagram>)
    requires Restarts(tail, w, stale) && cut <= tail
    ensures Restarts(cut, w, stale)
  {
    assert forall k :: 0 <= k < |cut| ==> cut[k] == tail[k];
  }

  lemma RestartsExtend(tail: seq<Datagram>, d: Datagram, w: nat, stale: Option<Datagram>)
    requires Restarts(tail, w, stale) && w <= d.arrival
    requires d.keyframe || Renewed(tail, w) != []
    ensures Restarts(tail + [d], w, stale) && Renewed(tail + [d], w) != []
  {
    assert Renewed(tail + [d], w) == Renewed(tail, w) + [d];
  }

  /** Relative to a flush that found `m` sent, `w` processed and `stale` in flight. */
  predicate Resuming(m: nat, w: nat, stale: Option<Datagram>, s: State) {
    && m <= |s.sent| && w <= Processed(s)
    && Restarts(Beyond(m, s), w, stale)
    && (MayAccept(s) && !s.q.dropUntilKeyframe ==> Renewed(Beyond(m, s), w) != [])
  }

  lemma TailLock(before: seq<Datagram>, kept: seq<Datagram>, d: Datagram, m: nat, w: nat, stale: Option<Datagram>)
    requires m <= |kept| && kept <= before && Restarts(before[m..], w, stale)
    ensures Restarts(kept[m..], w, stale)
    ensures w <= d.arrival && (d.keyframe || (kept == before && Renewed(before[m..], w) != [])) ==>
              Restarts((kept + [d])[m..], w, stale) && Renewed((kept + [d])[m..], w) != []
  {
    RestartsCut(before[m..], kept[m..], w, stale);
    assert (kept + [d])[m..] == kept[m..] + [d];
    if w <= d.arrival && (d.keyframe || (kept == before && Renewed(before[m..], w) != [])) {
      RestartsExtend(kept[m..], d, w, stale);
    }
  }

  lemma ResumingLock(m: nat, w: nat, stale: Option<Datagram>, s: State)
    requires Control(s) && Ordered(s) && Resuming(m, w, stale, s) && s.pending.Some?
    ensures Resuming(m, w, stale, Apply(s, Lock))
  {
    hide Enqueued, Restarts, Renewed, Control, Ordered, Processed, Line, KeptLine, MayAccept;
    LockCounts(s);
    LineLock(s);
    TailLock(Line(s), KeptLine(s, s.pending.value), s.pending.value, m, w, stale);
  }

  lemma ResumingStep(m: nat, w: nat, stale: Option<Datagram>, s: State, e: Event)
    requires Control(s) && Ordered(s) && Resuming(m, w, stale, s) && Enabled(s, e) && !e.PrepareQueue?
    ensures Resuming(m, w, stale, Apply(s, e)) && s.sent <= Apply(s, e).sent
  {
    if e.Lock? {
      ResumingLock(m, w, stale, s);
    } else {
      hide Apply, Enabled, Restarts, Renewed, Control, Ordered, Processed, Line, MayAccept;
      LineStep(s, e);
      if Cuts(e) {
        RestartsCut(Beyond(m, s), Beyond(m, Apply(s, e)), w, stale);
      }
    }
  }

  lemma {:induction false} ResumingRun(ss: seq<State>, n: nat)
    requires RunInStart(ss) && n < |ss| && Inv(ss[0]) && ss[0].q == Flushed(ss[0].q)
    ensures Inv(ss[n]) && ss[0].sent <= ss[n].sent
    ensures Resuming(|ss[0].sent|, Processed(ss[0]), ss[0].inFlight, ss[n])
  {
    var b := ss[0];
    if n == 0 {
      assert Beyond(|b.sent|, b) == Flight(b);
      if b.inFlight.Some? { InFlightProcessed(b); }
    } else {
      ResumingRun(ss, n - 1);
      var s := ss[n - 1];
      assert NextInStart(s, ss[n - 1 + 1]);
      if s != ss[n] {
        var e :| Enabled(s, e) && !e.PrepareQueue? && ss[n] == Apply(s, e);
        hide Resuming, Control, Accounted, Spanned, Ordered, Apply;
        assert Next(s, ss[n]);
        InvStep(s, ss[n]);
        ResumingStep(|b.sent|, Processed(b), b.inFlight, s, e);
      }
    }
  }

  lemma InFlightProcessed(s: State)
    requires Ordered(s) && s.inFlight.Some?
    ensures s.inFlight.value.arrival < Processed(s)
  {
    CutKeepsOrder(s, s.sent + Flight(s));
  }

  /**
    Of everything accepted before a reconnect flush, at most the one datagram the worker had already
    popped is sent afterwards, and what follows it resumes at a keyframe.
   */
  lemma ReconnectDiscardsStale(ss: seq<State>, n: nat, k: nat)
    requires RunInStart(ss) && n < |ss| && Inv(ss[0]) && ss[0].q == Flushed(ss[0].q)
    ensures ss[0].sent <= ss[n].sent
    ensures var later := ss[n].sent[|ss[0].sent|..]; var w := Processed(ss[0]);
            && (k < |later| && later[k].arrival < w ==> k == 0 && ss[0].inFlight == Some(later[0]))
            && (0 < |later| && w <= later[0].arrival ==> later[0].keyframe)
            && (1 < |later| && later[0].arrival < w ==> later[1].keyframe)
  {
    ResumingRun(ss, n);
    var m := |ss[0].sent|;
    var tail, later := Beyond(m, ss[n]), ss[n].sent[m..];
    assert forall i :: 0 <= i < |later| ==> tail[i] == later[i];
    if 1 < |later| && later[0].arrival < Processed(ss[0]) {
      assert Renewed(tail, Processed(ss[0]))[0] == later[1];
    }
  }
}
