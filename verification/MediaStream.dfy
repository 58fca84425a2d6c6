/**
  The packetizer feeding the pipeline: every datagram the sink emits is offered to the queue, in
  order, with the keyframe flag the sink gave it. When can a stream resume after a flush?
 */
module MediaStream {
  import Ts = Packetizer
  import Media = MediaQueue
  import Pipe = Pipeline

  /** `fed` counts the emitted datagrams that have been offered. */
  datatype Stream = Stream(sink: Ts.Sink, pipe: Pipe.State, fed: nat)

  datatype Act = Mux(op: Ts.Op) | Feed | Run(e: Pipe.Event)

  predicate Offered(d: Ts.Emitted, e: Pipe.Event) {
    e.Offer? && e.bytes == d.bytes && e.keyframe == d.keyframe && e.pts90k == d.pts90k
  }

  /** One act within a start: the muxer, the encoder callback's offer, or any other event of the pipeline. */
  ghost predicate Next(x: Stream, act: Act, y: Stream) {
    match act
    case Mux(op) => y == x.(sink := Ts.Step(x.sink, op))
    case Feed =>
      && x.fed < |x.sink.output|
      && exists e :: && Offered(x.sink.output[x.fed], e) && Pipe.Enabled(x.pipe, e)
                     && y == x.(pipe := Pipe.Apply(x.pipe, e), fed := x.fed + 1)
    case Run(e) => !e.Offer? && !e.PrepareQueue? && Pipe.Enabled(x.pipe, e) && y == x.(pipe := Pipe.Apply(x.pipe, e))
  }

  ghost predicate Behavior(xs: seq<Stream>, acts: seq<Act>) {
    |xs| == |acts| + 1 && forall i :: 0 <= i < |acts| ==> Next(xs[i], acts[i], xs[i + 1])
  }

  /** Nothing queued, nothing flagged on its way to the lock, and dropping until a keyframe. */
  predicate Starved(x: Stream) {
    PipeStarved(x.pipe) && !Ts.FlaggedBeyond(x.sink.output, x.fed)
  }

  lemma MuxStarves(x: Stream, op: Ts.Op)
    requires Starved(x) && x.fed <= |x.sink.output| && !Ts.Completes(x.sink, op)
    ensures Starved(x.(sink := Ts.Step(x.sink, op))) && |x.sink.output| <= |Ts.Step(x.sink, op).output|
  {
    hide Ts.Step, Ts.Completes, Ts.FlaggedBeyond;
    Ts.StepFlags(x.sink, op);
    Ts.FlagsJoin(x.sink.output, Ts.Step(x.sink, op).output, x.fed);
  }

  predicate PipeStarved(s: Pipe.State) {
    s.q.dropUntilKeyframe && s.q.items == [] && (s.pending.Some? ==> !s.pending.value.keyframe)
  }

  /** In the pipeline alone, no event but an offer brings in anything, and an unflagged one stays out. */
  lemma PipeStarves(s: Pipe.State, e: Pipe.Event)
    requires Pipe.Enabled(s, e) && !e.PrepareQueue? && (e.Offer? ==> !e.keyframe) && PipeStarved(s)
    ensures PipeStarved(Pipe.Apply(s, e))
  {
    if e.Lock? {
      assert Media.Enqueued(s.q, s.pending.value) == s.q;
    }
    hide Media.Enqueued;
  }

  lemma NothingJoins(s: Pipe.State, e: Pipe.Event)
    requires Pipe.Enabled(s, e) && !e.PrepareQueue? && PipeStarved(s)
    ensures var t := Pipe.Apply(s, e); t.sent + Pipe.Flight(t) <= s.sent + Pipe.Flight(s)
  {
    hide Media.Enqueued, Media.Popped, Media.Flushed, Media.StopSignalled, Media.Cleared;
    var t := Pipe.Apply(s, e);
    if e.SendOk? {
      assert t.sent + Pipe.Flight(t) == s.sent + Pipe.Flight(s);
    } else if !e.SendFail? {
      assert t.sent == s.sent && t.inFlight == s.inFlight;
    }
  }

  lemma StarvedStep(x: Stream, act: Act, y: Stream)
    requires Starved(x) && x.fed <= |x.sink.output| && Next(x, act, y)
    requires act.Mux? ==> !Ts.Completes(x.sink, act.op)
    ensures Starved(y) && y.fed <= |y.sink.output|
    ensures y.pipe.sent + Pipe.Flight(y.pipe) <= x.pipe.sent + Pipe.Flight(x.pipe)
  {
    hide Pipe.Apply, Pipe.Enabled, Ts.Step, Ts.Completes;
    match act
    case Mux(op) => MuxStarves(x, op);
    case Feed =>
      var e :| && Offered(x.sink.output[x.fed], e) && Pipe.Enabled(x.pipe, e)
               && y == x.(pipe := Pipe.Apply(x.pipe, e), fed := x.fed + 1);
      assert !x.sink.output[x.fed].keyframe;
      PipeStarves(x.pipe, e);
      NothingJoins(x.pipe, e);
    case Run(e) =>
      PipeStarves(x.pipe, e);
      NothingJoins(x.pipe, e);
  }

  /**
    After a flush a stream does not resume, in any interleaving, before the sink completes a datagram
    while writing a keyframe: until then nothing is queued, and nothing but what was in flight is sent.
    Keyframes too small to complete one never end the drop.
   */
  lemma {:induction false} SmallKeyframesNeverResume(xs: seq<Stream>, acts: seq<Act>, n: nat)
    requires Behavior(xs, acts) && n <= |acts| && Starved(xs[0]) && xs[0].fed <= |xs[0].sink.output|
    requires forall k :: 0 <= k < n && acts[k].Mux? ==> !Ts.Completes(xs[k].sink, acts[k].op)
    ensures Starved(xs[n]) && xs[n].fed <= |xs[n].sink.output|
    ensures xs[n].pipe.sent + Pipe.Flight(xs[n].pipe) <= xs[0].pipe.sent + Pipe.Flight(xs[0].pipe)
  {
    hide Next, Starved, Ts.Completes;
    if n > 0 {
      SmallKeyframesNeverResume(xs, acts, n - 1);
      assert Next(xs[n - 1], acts[n - 1], xs[n - 1 + 1]);
      StarvedStep(xs[n - 1], acts[n - 1], xs[n]);
    }
  }

  /** At the lock the drop ends exactly for a flagged datagram that fits the empty queue, which is then its head. */
  lemma FlagEndsDrop(s: Pipe.State)
    requires s.pending.Some? && s.q.dropUntilKeyframe
    ensures var d, q := s.pending.value, Pipe.Apply(s, Pipe.Lock).q;
            && (!q.dropUntilKeyframe <==> d.keyframe && |d.bytes| <= Media.MAX_QUEUE_BYTES)
            && (!q.dropUntilKeyframe ==> q.items == [d])
  {
  }

  /** A reconnect starves a stream whose earlier datagrams have all been offered and passed the lock. */
  lemma ReconnectStarves(x: Stream)
    requires Pipe.Enabled(x.pipe, Pipe.Reconnect) && x.pipe.pending.None? && x.fed == |x.sink.output|
    ensures Starved(x.(pipe := Pipe.Apply(x.pipe, Pipe.Reconnect)))
  {
  }
}
