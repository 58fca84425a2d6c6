/**
  What gets into the queue of plugin/srtla-output.cpp: exactly the datagrams that fit, so that a
  start without a flush, a failed send or a stop loses none of them.
 */
module Delivery {
  import opened Words
  import opened MediaQueue
  import opened Pipeline

  /** Within 8 MiB together with what is queued, and within two seconds of the head. */
  predicate Fits(items: seq<Datagram>, d: Datagram) {
    && TotalBytes(items) + |d.bytes| <= 8 * 1024 * 1024
    && (items != [] ==> d.pts90k - items[0].pts90k <= 180_000)
  }

  /** A queue that is not dropping takes a datagram exactly if it fits; otherwise it stays and a drop begins. */
  lemma TakesWhatFits(q: Queue, d: Datagram)
    requires Accounted(q) && !q.dropUntilKeyframe
    ensures var r := Enqueued(q, d);
            && (Fits(q.items, d) ==> r.items == q.items + [d] && !r.dropUntilKeyframe)
            && (!Fits(q.items, d) ==> r.items == q.items && r.dropUntilKeyframe)
            && r.bytes == TotalBytes(r.items) && r.workerStop == q.workerStop
  {
    NoWrap(q.bytes, |d.bytes|);
    AccountedEnqueue(q, d);
    hide WrapAdd;
  }

  /** A dropping queue ignores all but a keyframe, for which it is emptied, and which ends the drop if it fits. */
  lemma TakesKeyframe(q: Queue, d: Datagram)
    requires Accounted(q) && q.dropUntilKeyframe
    ensures var r := Enqueued(q, d);
            && (!d.keyframe ==> r == q)
            && (d.keyframe && Fits([], d) ==> r.items == [d] && !r.dropUntilKeyframe)
            && (d.keyframe && !Fits([], d) ==> r.items == [] && r.dropUntilKeyframe)
            && r.bytes == TotalBytes(r.items) && r.workerStop == q.workerStop
  {
    NoWrap(0, |d.bytes|);
    AccountedEnqueue(q, d);
    hide WrapAdd;
  }

  // Runs

  ghost predicate Run(ss: seq<State>, es: seq<Event>) {
    && |ss| == |es| + 1
    && forall i :: 0 <= i < |es| ==> Enabled(ss[i], es[i]) && ss[i + 1] == Apply(ss[i], es[i])
  }

  /** No flush, failed send, stop or new start. */
  predicate Calm(e: Event) {
    !Cuts(e) && !e.Halt? && !e.PrepareQueue?
  }

  predicate Stopping(p: Phase) {
    p.Halting? || p.Draining? || p.Joining? || p.Closing? || p.Closed?
  }

  /** Everything that went through the lock is in the line. */
  predicate Complete(s: State) {
    |Line(s)| == Processed(s)
  }

  lemma {:induction false} LateArrival(line: seq<Datagram>, arrivals: seq<Datagram>, p: nat)
    requires InSequence(line, arrivals) && p <= |line|
    ensures LastArrival(line, p) >= p - 1
  {
    if p > 0 {
      LateArrival(line, arrivals, p - 1);
      assert Follows(line, p - 1, arrivals);
    }
  }

  /** The line never has more than that; when it has as much, it is the arrivals themselves. */
  lemma CompleteIsEverything(s: State)
    requires Ordered(s)
    ensures |Line(s)| <= Processed(s) <= |s.arrivals|
    ensures Complete(s) <==> Line(s) == s.arrivals[..Processed(s)]
  {
    var line := Line(s);
    LateArrival(line, s.arrivals, |line|);
    if Complete(s) {
      forall p | 0 <= p < |line|
        ensures line[p] == s.arrivals[p]
      {
        LateArrival(line, s.arrivals, p);
        SequenceBelow(line, s.arrivals, p + 1, |line|);
        BelowLast(line, s.arrivals, p);
        assert Follows(line, p, s.arrivals);
      }
    }
  }

  /** In a line whose last arrival is as early as can be, every arrival is. */
  lemma {:induction false} BelowLast(line: seq<Datagram>, arrivals: seq<Datagram>, p: nat)
    requires InSequence(line, arrivals) && p < |line| && LastArrival(line, |line|) <= |line| - 1
    ensures line[p].arrival == p
    decreases |line| - p
  {
    assert Follows(line, p, arrivals);
    LateArrival(line, arrivals, p + 1);
    if p + 1 < |line| {
      BelowLast(line, arrivals, p + 1);
      assert Follows(line, p + 1, arrivals);
    }
  }

  lemma LockCompletes(s: State)
    requires Control(s) && Accounted(s.q) && Ordered(s) && s.pending.Some?
    ensures var t := Apply(s, Lock);
            && (Complete(s) && !s.q.dropUntilKeyframe ==>
                  (Complete(t) <==> Fits(s.q.items, s.pending.value))
                  && (Complete(t) ==> !t.q.dropUntilKeyframe))
            && (|Line(s)| < Processed(s) ==> |Line(t)| < Processed(t))
  {
    LockCounts(s);
    LineLock(s);
    if !s.q.dropUntilKeyframe { TakesWhatFits(s.q, s.pending.value); }
    hide Enqueued, Fits, Line, KeptLine, Processed, Ordered, Control, Accounted;
  }

  lemma CalmCompletes(s: State, e: Event)
    requires Control(s) && Enabled(s, e) && Calm(e) && !e.Lock? && !Stopping(s.phase)
    ensures var t := Apply(s, e);
            Line(t) == Line(s) && Processed(t) == Processed(s) && t.q.dropUntilKeyframe == s.q.dropUntilKeyframe
  {
    LineKept(s, e);
    hide Line;
  }

  lemma CalmPhase(s: State, e: Event)
    requires Control(s) && Enabled(s, e) && Calm(e) && !Stopping(s.phase)
    ensures !Stopping(Apply(s, e).phase)
  {
  }

  /** Every lock between `i` and `n` found a datagram that fits. */
  ghost predicate AllFit(ss: seq<State>, es: seq<Event>, i: nat, n: nat)
    requires Run(ss, es) && i <= n <= |es|
  {
    forall k :: i <= k < n && es[k].Lock? ==> ss[k].pending.Some? && Fits(ss[k].q.items, ss[k].pending.value)
  }

  lemma {:induction false} RunKeepsInv(ss: seq<State>, es: seq<Event>, n: nat)
    requires Run(ss, es) && n <= |es| && Inv(ss[0])
    ensures Inv(ss[n])
  {
    hide Inv, Apply, Enabled;
    if n > 0 {
      RunKeepsInv(ss, es, n - 1);
      assert ss[n - 1 + 1] == Apply(ss[n - 1], es[n - 1]);
      assert Next(ss[n - 1], ss[n]);
      InvStep(ss[n - 1], ss[n]);
    }
  }

  lemma CompleteStep(s: State, e: Event)
    requires Inv(s) && Enabled(s, e) && Calm(e) && !Stopping(s.phase)
    requires Complete(s) ==> !s.q.dropUntilKeyframe
    ensures var t := Apply(s, e);
            && !Stopping(t.phase) && (Complete(t) ==> !t.q.dropUntilKeyframe)
            && (Complete(t) <==> Complete(s) && (e.Lock? ==> Fits(s.q.items, s.pending.value)))
  {
    CalmPhase(s, e);
    CompleteIsEverything(s);
    if e.Lock? {
      LockCompletes(s);
    } else {
      CalmCompletes(s, e);
    }
    hide Apply, Line, Processed, Fits;
  }

  lemma {:induction false} CompleteRun(ss: seq<State>, es: seq<Event>, i: nat, n: nat)
    requires Run(ss, es) && i <= n <= |es| && Inv(ss[0]) && Complete(ss[i])
    requires !Stopping(ss[i].phase) && !ss[i].q.dropUntilKeyframe
    requires forall k :: i <= k < n ==> Calm(es[k])
    ensures !Stopping(ss[n].phase) && (Complete(ss[n]) ==> !ss[n].q.dropUntilKeyframe)
    ensures Complete(ss[n]) <==> AllFit(ss, es, i, n)
  {
    hide Inv, Apply, Enabled, Complete, Fits, Stopping, Calm;
    if n > i {
      CompleteRun(ss, es, i, n - 1);
      RunKeepsInv(ss, es, n - 1);
      assert ss[n - 1 + 1] == Apply(ss[n - 1], es[n - 1]);
      CompleteStep(ss[n - 1], es[n - 1]);
      LockNeedsPending(ss[n - 1], es[n - 1]);
      assert AllFit(ss, es, i, n) <==>
        AllFit(ss, es, i, n - 1)
        && (es[n - 1].Lock? ==> Fits(ss[n - 1].q.items, ss[n - 1].pending.value));
    }
  }

  lemma LockNeedsPending(s: State, e: Event)
    requires Enabled(s, e)
    ensures e.Lock? ==> s.pending.Some?
  {
  }

  /**
    From the queue's preparation on, as long as there is no flush, failed send or stop, what was sent,
    is in flight or queued is everything that arrived, exactly if every datagram that arrived did fit.
   */
  lemma NothingLost(ss: seq<State>, es: seq<Event>, i: nat, n: nat)
    requires Run(ss, es) && i < n <= |es| && Inv(ss[0]) && es[i].PrepareQueue?
    requires forall k :: i < k < n ==> Calm(es[k])
    ensures Line(ss[n]) == ss[n].arrivals[..Processed(ss[n])] <==> AllFit(ss, es, i + 1, n)
  {
    hide Apply, Enabled, Fits, Stopping, Calm, Complete, Line, Processed, Inv;
    RunKeepsInv(ss, es, i);
    RunKeepsInv(ss, es, n);
    PreparedComplete(ss[i]);
    InvOrders(ss[n]);
    CompleteIsEverything(ss[n]);
    CompleteRun(ss, es, i + 1, n);
  }

  lemma InvOrders(s: State)
    requires Inv(s)
    ensures Ordered(s)
  {
  }

  /** A prepared queue is empty, counts nothing and takes anything that fits. */
  lemma PreparedComplete(s: State)
    requires Inv(s) && Enabled(s, PrepareQueue)
    ensures var t := Apply(s, PrepareQueue);
            t.q == EMPTY && Complete(t) && !Stopping(t.phase)
  {
  }

  // The way through

  /** A start can be carried through to a live stream. */
  lemma GoesLive(s: State) returns (t: State)
    requires Init(s)
    ensures exists ss, es :: Run(ss, es) && |es| == 5 && ss[0] == s && ss[5] == t
    ensures t.running && t.captureOpen && t.workerAlive && t.q == EMPTY && t.pending.None? && t.inFlight.None?
  {
    var a := Apply(s, StartSession);
    var b := Apply(a, PrepareQueue);
    var c := Apply(b, Launch);
    var d := Apply(c, SpawnWorker);
    t := Apply(d, OpenCapture);
    assert Run([s, a, b, c, d, t], [StartSession, PrepareQueue, Launch, SpawnWorker, OpenCapture]);
  }

  lemma Queues(s: State, d: Datagram)
    requires Inv(s) && s.running && s.captureOpen && s.pending.None? && d.arrival == |s.arrivals|
    requires s.q.items == [] && !s.q.dropUntilKeyframe && 0 < |d.bytes| <= 8 * 1024 * 1024
    ensures var e := Offer(d.bytes, d.keyframe, d.pts90k);
            && Enabled(s, e) && Enabled(Apply(s, e), Lock)
            && Apply(Apply(s, e), Lock) == s.(arrivals := s.arrivals + [d], q := s.q.(items := [d], bytes := |d.bytes|))
  {
    TakesWhatFits(s.q, d);
    assert TotalBytes([d]) == |d.bytes| + TotalBytes([d][1..]);
    hide TotalBytes;
  }

  /** And there a datagram that fits is sent when nothing is queued before it. */
  lemma Delivers(s: State, d: Datagram)
    requires Inv(s) && s.running && s.captureOpen && s.workerAlive && s.pending.None? && s.inFlight.None?
    requires s.q.items == [] && !s.q.dropUntilKeyframe && d.arrival == |s.arrivals| && 0 < |d.bytes| <= 8 * 1024 * 1024
    ensures Enabled(s, Offer(d.bytes, d.keyframe, d.pts90k))
    ensures var offered := Apply(s, Offer(d.bytes, d.keyframe, d.pts90k));
            && Enabled(offered, Lock) && Enabled(Apply(offered, Lock), Pop)
            && Enabled(Apply(Apply(offered, Lock), Pop), SendOk)
            && Apply(Apply(Apply(offered, Lock), Pop), SendOk).sent == s.sent + [d]
  {
    Queues(s, d);
    hide Enqueued, Inv;
  }

  /** Once told to stop, the worker finds nothing to pop: its send over, it can only leave, and then it is joined. */
  lemma WorkerLeaves(s: State)
    requires Inv(s) && s.phase.Joining?
    ensures !Enabled(s, Pop) && !Enabled(s, Lock)
    ensures s.inFlight.Some? ==> Enabled(s, SendOk) && Enabled(s, SendFail)
    ensures s.inFlight.Some? ==> Apply(s, SendOk).inFlight.None? && !Apply(s, SendFail).workerAlive
    ensures s.workerAlive && s.inFlight.None? ==> Enabled(s, WorkerExit) && !Apply(s, WorkerExit).workerAlive
    ensures !s.workerAlive ==> Enabled(s, JoinWorker)
  {
  }
}
