/**
  The pending-byte packetizer of plugin/mpegts-avformat-sink.cpp: muxed bytes are cut into
  1316-byte datagrams, and a flush emits the rest. What libavformat hands over, and when, is arbitrary.
 */
module Packetizer {
  import opened Words

  const DATAGRAM_SIZE: nat := 1316
  const TS_PACKET_SIZE: nat := 188

  datatype Emitted = Emitted(bytes: seq<Byte>, keyframe: bool, pts90k: int)

  /** The full datagrams in `s`. */
  function Chunks(s: seq<Byte>): seq<seq<Byte>>
    decreases |s|
  {
    if |s| < DATAGRAM_SIZE then [] else [s[..DATAGRAM_SIZE]] + Chunks(s[DATAGRAM_SIZE..])
  }

  /** What is left after the full datagrams. */
  function Rest(s: seq<Byte>): seq<Byte>
    decreases |s|
  {
    if |s| < DATAGRAM_SIZE then s else Rest(s[DATAGRAM_SIZE..])
  }

  function Tagged(chunks: seq<seq<Byte>>, keyframe: bool, pts: int): seq<Emitted> {
    seq(|chunks|, i requires 0 <= i < |chunks| => Emitted(chunks[i], keyframe, pts))
  }

  datatype Sink = Sink(pending: seq<Byte>, keyframe: bool, pts90k: int, output: seq<Emitted>)

  function Full(s: Sink): Sink {
    s.(pending := Rest(s.pending), output := s.output + Tagged(Chunks(s.pending), s.keyframe, s.pts90k))
  }

  function Flushed(s: Sink): Sink {
    var t := Full(s);
    if t.pending == [] then t
    else t.(pending := [], output := t.output + [Emitted(t.pending, t.keyframe, t.pts90k)])
  }

  lemma ChunkStep(s: seq<Byte>)
    requires |s| >= DATAGRAM_SIZE
    ensures Chunks(s) == [s[..DATAGRAM_SIZE]] + Chunks(s[DATAGRAM_SIZE..]) && Rest(s) == Rest(s[DATAGRAM_SIZE..])
  {
  }

  lemma ChunkEnd(s: seq<Byte>)
    requires |s| < DATAGRAM_SIZE
    ensures Chunks(s) == [] && Rest(s) == s
  {
  }

  class TsSink {
    var pending: seq<Byte>
    var currentKeyframe: bool
    var currentPts90k: int
    var output: seq<Emitted>  // handed to the callback

    ghost function View(): Sink
      reads this
    {
      Sink(pending, currentKeyframe, currentPts90k, output)
    }

    constructor ()
      ensures View() == Sink([], false, 0, [])
    {
      pending, currentKeyframe, currentPts90k, output := [], false, 0, [];
    }

    method EmitDatagrams(flushPartial: bool)
      modifies this`pending, this`output
      ensures View() == if flushPartial then Flushed(old(View())) else Full(old(View()))
    {
      hide Chunks, Rest;
      ghost var done: seq<seq<Byte>> := [];
      while |pending| >= DATAGRAM_SIZE
        invariant output == old(output) + Tagged(done, currentKeyframe, currentPts90k)
        invariant done + Chunks(pending) == Chunks(old(pending))
        invariant Rest(pending) == Rest(old(pending))
        decreases |pending|
      {
        ChunkStep(pending);
        var datagram := pending[..DATAGRAM_SIZE];
        pending := pending[DATAGRAM_SIZE..];
        output := output + [Emitted(datagram, currentKeyframe, currentPts90k)];
        done := done + [datagram];
      }
      ChunkEnd(pending);
      assert done == Chunks(old(pending));
      if flushPartial && pending != [] {
        var datagram := pending;
        pending := [];
        output := output + [Emitted(datagram, currentKeyframe, currentPts90k)];
      }
    }

    method WriteCallback(buffer: seq<Byte>)
      modifies this`pending, this`output
      ensures View() == Step(old(View()), Write(buffer))
    {
      pending := pending + buffer;
      EmitDatagrams(false);
    }

    method Reset()
      modifies this`pending, this`currentKeyframe, this`currentPts90k
      ensures View() == Step(old(View()), Restart)
    {
      pending := [];
      currentKeyframe := false;
      currentPts90k := 0;
    }
  }

  /** What happens to the sink: a packet begins or ends, muxed bytes arrive, a flush, a reset. */
  datatype Op = Begin(keyframe: bool, pts90k: int) | Write(buffer: seq<Byte>) | End | Flush | Restart

  function Step(s: Sink, op: Op): Sink {
    match op
    case Begin(k, p) => s.(keyframe := k, pts90k := p)
    case Write(b) => Full(s.(pending := s.pending + b))
    case End => s.(keyframe := false)
    case Flush => Flushed(s)
    case Restart => s.(pending := [], keyframe := false, pts90k := 0)
  }

  function At(s: Sink, ops: seq<Op>, n: nat): Sink
    requires n <= |ops|
  {
    if n == 0 then s else Step(At(s, ops, n - 1), ops[n - 1])
  }

  /** The bytes written by operations `k` to `n`. */
  function Written(ops: seq<Op>, k: nat, n: nat): seq<Byte>
    requires k <= n <= |ops|
  {
    if n == k then [] else Written(ops, k, n - 1) + if ops[n - 1].Write? then ops[n - 1].buffer else []
  }

  function Payloads(ds: seq<Emitted>): seq<seq<Byte>> {
    seq(|ds|, i requires 0 <= i < |ds| => ds[i].bytes)
  }

  function Flat(chunks: seq<seq<Byte>>): seq<Byte> {
    if chunks == [] then [] else chunks[0] + Flat(chunks[1..])
  }

  // Cutting a stream

  /** Cutting is insensitive to how the bytes were delivered. */
  lemma {:induction false} ChunksOfConcat(a: seq<Byte>, b: seq<Byte>)
    ensures Chunks(a + b) == Chunks(a) + Chunks(Rest(a) + b) && Rest(a + b) == Rest(Rest(a) + b)
    decreases |a|
  {
    if |a| >= DATAGRAM_SIZE {
      assert (a + b)[..DATAGRAM_SIZE] == a[..DATAGRAM_SIZE];
      assert (a + b)[DATAGRAM_SIZE..] == a[DATAGRAM_SIZE..] + b;
      ChunksOfConcat(a[DATAGRAM_SIZE..], b);
    }
  }

  lemma {:induction false} ChunkSizes(s: seq<Byte>)
    ensures |Rest(s)| == |s| % DATAGRAM_SIZE && |Chunks(s)| == |s| / DATAGRAM_SIZE
    ensures forall i :: 0 <= i < |Chunks(s)| ==> |Chunks(s)[i]| == DATAGRAM_SIZE
    decreases |s|
  {
    if |s| >= DATAGRAM_SIZE { ChunkSizes(s[DATAGRAM_SIZE..]); }
  }

  lemma {:induction false} ChunksConserve(s: seq<Byte>)
    ensures Flat(Chunks(s)) + Rest(s) == s
    decreases |s|
  {
    if |s| >= DATAGRAM_SIZE {
      var tail := s[DATAGRAM_SIZE..];
      ChunksConserve(tail);
      assert Chunks(s)[1..] == Chunks(tail);
      assert s[..DATAGRAM_SIZE] + Flat(Chunks(tail)) + Rest(tail) == s[..DATAGRAM_SIZE] + tail == s;
    }
  }

  lemma {:induction false} FlatConcat(a: seq<seq<Byte>>, b: seq<seq<Byte>>)
    ensures Flat(a + b) == Flat(a) + Flat(b)
  {
    if a == [] {
      assert a + b == b;
    } else {
      assert (a + b)[1..] == a[1..] + b;
      FlatConcat(a[1..], b);
    }
  }

  // Runs

  lemma StepOutput(s: Sink, op: Op)
    ensures s.output <= Step(s, op).output
    ensures op.Begin? || op.End? || op.Restart? ==> Step(s, op).output == s.output
    ensures op.Begin? || op.End? ==> Step(s, op).pending == s.pending
  {
  }

  /** Operations `k` to `n` neither flush nor reset. */
  predicate Unbroken(ops: seq<Op>, k: nat, n: nat)
    requires k <= n <= |ops|
  {
    forall m :: k <= m < n ==> !ops[m].Flush? && !ops[m].Restart?
  }

  /**
    Between flushes the datagrams are exactly the 1316-byte pieces of what was pending and everything
    written, however libavformat split it, and what is pending is the remainder.
   */
  lemma {:induction false} CutsTheStream(s: Sink, ops: seq<Op>, k: nat, n: nat)
    requires k <= n <= |ops| && Unbroken(ops, k, n) && |At(s, ops, k).pending| < DATAGRAM_SIZE
    ensures var before, after := At(s, ops, k).output, At(s, ops, n).output;
            var stream := At(s, ops, k).pending + Written(ops, k, n);
            && before <= after && Payloads(after[|before|..]) == Chunks(stream)
            && At(s, ops, n).pending == Rest(stream) && |At(s, ops, n).pending| < DATAGRAM_SIZE
    decreases n
  {
    var first := At(s, ops, k).pending;
    ChunkSizes(first + Written(ops, k, n));
    if n > k {
      CutsTheStream(s, ops, k, n - 1);
      hide Chunks, Rest, Full;
      var b, op := At(s, ops, n - 1), ops[n - 1];
      var w := Written(ops, k, n - 1);
      StepOutput(b, op);
      if op.Write? {
        ChunksOfConcat(first + w, op.buffer);
        Assoc(first, w, op.buffer);
        WriteEmits(b, op.buffer, |At(s, ops, k).output|);
      } else {
        assert Written(ops, k, n) == w;
      }
    } else {
      assert first + [] == first;
      ChunkEnd(first);
    }
  }

  /** Fewer than 1316 bytes are pending after every operation. */
  lemma {:induction false} PendingSmall(s: Sink, ops: seq<Op>, n: nat)
    requires n <= |ops| && |s.pending| < DATAGRAM_SIZE
    ensures |At(s, ops, n).pending| < DATAGRAM_SIZE
  {
    hide Chunks, Rest;
    if n > 0 {
      PendingSmall(s, ops, n - 1);
      var b, op := At(s, ops, n - 1), ops[n - 1];
      ChunkSizes(b.pending + if op.Write? then op.buffer else []);
    }
  }

  lemma WriteEmits(s: Sink, buffer: seq<Byte>, m: nat)
    requires m <= |s.output|
    ensures var t := Step(s, Write(buffer));
            && s.output <= t.output && t.pending == Rest(s.pending + buffer)
            && Payloads(t.output[m..]) == Payloads(s.output[m..]) + Chunks(s.pending + buffer)
  {
    hide Chunks, Rest;
  }

  /** Until a reset no byte is lost, duplicated or reordered. */
  lemma {:induction false} Conserves(s: Sink, ops: seq<Op>, k: nat, n: nat)
    requires k <= n <= |ops|
    requires forall m :: k <= m < n ==> !ops[m].Restart?
    ensures var before, after := At(s, ops, k).output, At(s, ops, n).output;
            && before <= after
            && Flat(Payloads(after[|before|..])) + At(s, ops, n).pending
               == At(s, ops, k).pending + Written(ops, k, n)
    decreases n
  {
    if n > k {
      Conserves(s, ops, k, n - 1);
      hide Flat, Full, Flushed;
      var b, op := At(s, ops, n - 1), ops[n - 1];
      StepOutput(b, op);
      var m := |At(s, ops, k).output|;
      if op.Write? {
        WriteConserves(b, op.buffer, m);
        Assoc(At(s, ops, k).pending, Written(ops, k, n - 1), op.buffer);
      } else if op.Flush? {
        FlushConserves(b, m);
      }
    }
  }

  /** After a reset nothing written before it is emitted any more. */
  lemma ConservesSinceReset(s: Sink, ops: seq<Op>, k: nat, n: nat)
    requires k < n <= |ops| && ops[k].Restart? && forall m :: k < m < n ==> !ops[m].Restart?
    ensures var before, after := At(s, ops, k).output, At(s, ops, n).output;
            before <= after && Flat(Payloads(after[|before|..])) + At(s, ops, n).pending == Written(ops, k + 1, n)
  {
    ResetForgets(At(s, ops, k));
    hide Step, Flat;
    Conserves(s, ops, k + 1, n);
  }

  lemma ResetForgets(s: Sink)
    ensures var t := Step(s, Restart); t.pending == [] && t.output == s.output && !t.keyframe && t.pts90k == 0
  {
  }

  lemma WriteConserves(s: Sink, buffer: seq<Byte>, m: nat)
    requires m <= |s.output|
    ensures var t := Step(s, Write(buffer));
            Flat(Payloads(t.output[m..])) + t.pending == Flat(Payloads(s.output[m..])) + s.pending + buffer
  {
    hide Chunks, Rest, Full, Flat;
    WriteEmits(s, buffer, m);
    ChunksConserve(s.pending + buffer);
    FlatConcat(Payloads(s.output[m..]), Chunks(s.pending + buffer));
    Assoc(Flat(Payloads(s.output[m..])), Flat(Chunks(s.pending + buffer)), Rest(s.pending + buffer));
    Assoc(Flat(Payloads(s.output[m..])), s.pending, buffer);
  }

  lemma Assoc(a: seq<Byte>, b: seq<Byte>, c: seq<Byte>)
    ensures a + b + c == a + (b + c)
  {
  }

  /** A flush leaves nothing pending and emits at most one short datagram after the full ones. */
  lemma FlushEmits(s: Sink, m: nat)
    requires m <= |s.output|
    ensures var t := Flushed(s); var rest := Rest(s.pending);
            && t.pending == []
            && Payloads(t.output[m..])
               == Payloads(s.output[m..]) + Chunks(s.pending) + (if rest == [] then [] else [rest])
  {
    hide Chunks, Rest;
    var t := Full(s);
    assert Payloads(t.output[m..]) == Payloads(s.output[m..]) + Chunks(s.pending);
    if t.pending != [] {
      assert Payloads(Flushed(s).output[m..]) == Payloads(t.output[m..]) + [t.pending];
    }
  }

  lemma FlushConserves(s: Sink, m: nat)
    requires m <= |s.output|
    ensures Flat(Payloads(Flushed(s).output[m..])) + Flushed(s).pending == Flat(Payloads(s.output[m..])) + s.pending
  {
    hide Chunks, Rest, Flushed, Flat;
    FlushEmits(s, m);
    var first, rest := Payloads(s.output[m..]), Rest(s.pending);
    var last: seq<seq<Byte>> := if rest == [] then [] else [rest];
    FlatLast(rest);
    FlatConcat(first + Chunks(s.pending), last);
    FlatConcat(first, Chunks(s.pending));
    ChunksConserve(s.pending);
    Assoc(Flat(first), Flat(Chunks(s.pending)), rest);
  }

  lemma FlatLast(rest: seq<Byte>)
    ensures Flat(if rest == [] then [] else [rest]) == rest
  {
    if rest != [] {
      assert [rest][1..] == [];
      assert Flat([rest][1..]) == [];
    }
  }

  predicate AllWhole(chunks: seq<seq<Byte>>) {
    forall i :: 0 <= i < |chunks| ==> |chunks[i]| % TS_PACKET_SIZE == 0
  }

  lemma WholeChunks(w: seq<Byte>)
    ensures AllWhole(Chunks(w) + (if Rest(w) == [] then [] else [Rest(w)])) <==> |w| % TS_PACKET_SIZE == 0
  {
    hide Chunks, Rest;
    ChunkSizes(w);
    SevenPackets(|w|);
    assert forall i :: 0 <= i < |Chunks(w)| ==> |Chunks(w)[i]| % TS_PACKET_SIZE == 0;
    if Rest(w) != [] {
      assert (Chunks(w) + [Rest(w)])[|Chunks(w)|] == Rest(w);
    }
  }

  lemma SevenPackets(x: nat)
    ensures DATAGRAM_SIZE % TS_PACKET_SIZE == 0
    ensures x % TS_PACKET_SIZE == x % DATAGRAM_SIZE % TS_PACKET_SIZE
  {
    var q, r := x / 1316, x % 1316;
    assert x == 188 * (7 * q) + r;
  }

  /**
    The datagrams of a stretch that ends in a flush are whole transport packets exactly when the
    stretch as a whole, with what was pending before it, is.
   */
  lemma WholePackets(s: Sink, ops: seq<Op>, k: nat, n: nat)
    requires k <= n < |ops| && Unbroken(ops, k, n) && |At(s, ops, k).pending| < DATAGRAM_SIZE && ops[n].Flush?
    ensures At(s, ops, n + 1).pending == []
    ensures var before, after := At(s, ops, k).output, At(s, ops, n + 1).output;
            var stream := At(s, ops, k).pending + Written(ops, k, n);
            before <= after && (AllWhole(Payloads(after[|before|..])) <==> |stream| % TS_PACKET_SIZE == 0)
  {
    CutsTheStream(s, ops, k, n);
    var b, m, w := At(s, ops, n), |At(s, ops, k).output|, At(s, ops, k).pending + Written(ops, k, n);
    StepOutput(b, Flush);
    FlushEmits(b, m);
    ChunkEnd(b.pending);
    hide Chunks, Rest, Flushed;
    WholeChunks(w);
    assert Payloads(Flushed(b).output[m..]) == Chunks(w) + (if Rest(w) == [] then [] else [Rest(w)]);
  }

  // The keyframe flag

  /** The operation emits a datagram while a keyframe is being written. */
  predicate Completes(s: Sink, op: Op) {
    && s.keyframe
    && ((op.Write? && |s.pending| + |op.buffer| >= DATAGRAM_SIZE) || (op.Flush? && s.pending != []))
  }

  /** Among the datagrams emitted after the first `m` one carries the flag. */
  predicate FlaggedBeyond(output: seq<Emitted>, m: nat) {
    exists i :: m <= i < |output| && output[i].keyframe
  }

  lemma StepFlags(s: Sink, op: Op)
    ensures s.output <= Step(s, op).output
    ensures FlaggedBeyond(Step(s, op).output, |s.output|) <==> Completes(s, op)
    ensures !s.keyframe && !op.Begin? ==> !Step(s, op).keyframe
  {
    hide Chunks, Rest;
    ChunkSizes(if op.Write? then s.pending + op.buffer else s.pending);
    var out := Step(s, op).output;
    if Completes(s, op) {
      assert out[|s.output|].keyframe;
    }
  }

  /** Over any run, a flagged datagram is emitted exactly by an operation that completes one for a keyframe. */
  lemma {:induction false} FlagsExactly(s: Sink, ops: seq<Op>, k: nat, n: nat)
    requires k <= n <= |ops|
    ensures At(s, ops, k).output <= At(s, ops, n).output
    ensures FlaggedBeyond(At(s, ops, n).output, |At(s, ops, k).output|) <==>
              exists m :: k <= m < n && Completes(At(s, ops, m), ops[m])
    decreases n
  {
    hide Step, Completes;
    if n > k {
      FlagsExactly(s, ops, k, n - 1);
      var b, m := At(s, ops, n - 1), |At(s, ops, k).output|;
      StepFlags(b, ops[n - 1]);
      FlagsJoin(b.output, At(s, ops, n).output, m);
      assert Completes(At(s, ops, n - 1), ops[n - 1]) <==> FlaggedBeyond(At(s, ops, n).output, |b.output|);
    }
  }

  lemma FlagsJoin(some: seq<Emitted>, all: seq<Emitted>, m: nat)
    requires some <= all && m <= |some|
    ensures FlaggedBeyond(all, m) <==> FlaggedBeyond(some, m) || FlaggedBeyond(all, |some|)
  {
    assert forall i :: 0 <= i < |some| ==> some[i] == all[i];
  }

  // The stamp of a datagram

  /** The timestamp of the last packet begun since the last reset, or zero after it. */
  function StampAt(s: Sink, ops: seq<Op>, n: nat): int
    requires n <= |ops|
  {
    if n == 0 then s.pts90k
    else match ops[n - 1]
      case Begin(_, pts) => pts
      case Restart => 0
      case _ => StampAt(s, ops, n - 1)
  }

  /** A packet that is a keyframe has begun and neither ended nor been followed by another, nor a reset. */
  predicate InKeyframe(s: Sink, ops: seq<Op>, n: nat)
    requires n <= |ops|
  {
    if n == 0 then s.keyframe
    else match ops[n - 1]
      case Begin(keyframe, _) => keyframe
      case End => false
      case Restart => false
      case _ => InKeyframe(s, ops, n - 1)
  }

  lemma StepTags(s: Sink, op: Op)
    ensures s.output <= Step(s, op).output
    ensures forall i :: |s.output| <= i < |Step(s, op).output| ==>
              Step(s, op).output[i].pts90k == s.pts90k && Step(s, op).output[i].keyframe == s.keyframe
  {
    hide Chunks, Rest;
  }

  lemma {:induction false} TagsAt(s: Sink, ops: seq<Op>, n: nat)
    requires n <= |ops|
    ensures At(s, ops, n).pts90k == StampAt(s, ops, n) && At(s, ops, n).keyframe == InKeyframe(s, ops, n)
  {
    hide Chunks, Rest;
    if n > 0 { TagsAt(s, ops, n - 1); }
  }

  /** Every datagram of a run carries the stamp and the flag of the packet being written when it was emitted. */
  lemma {:induction false} StampedExactly(s: Sink, ops: seq<Op>, n: nat, i: nat) returns (m: nat)
    requires n <= |ops| && |s.output| <= i < |At(s, ops, n).output|
    ensures m < n && |At(s, ops, m).output| <= i < |At(s, ops, m + 1).output|
    ensures At(s, ops, n).output[i].pts90k == StampAt(s, ops, m)
    ensures At(s, ops, n).output[i].keyframe == InKeyframe(s, ops, m)
  {
    hide Step;
    var b := At(s, ops, n - 1);
    StepTags(b, ops[n - 1]);
    if i < |b.output| {
      m := StampedExactly(s, ops, n - 1, i);
    } else {
      TagsAt(s, ops, n - 1);
      m := n - 1;
    }
  }

  /** From operation `k` to `n` the muxer only hands over bytes. */
  predicate OnlyWrites(ops: seq<Op>, k: nat, n: nat)
    requires k <= n <= |ops|
  {
    forall m :: k <= m < n ==> ops[m].Write?
  }

  lemma {:induction false} WritesKeepFlag(s: Sink, ops: seq<Op>, k: nat, n: nat)
    requires k <= n <= |ops| && OnlyWrites(ops, k, n)
    ensures At(s, ops, n).keyframe == At(s, ops, k).keyframe
    decreases n
  {
    if n > k { WritesKeepFlag(s, ops, k, n - 1); }
  }

  lemma {:induction false} WritesComplete(s: Sink, ops: seq<Op>, k: nat, n: nat)
    requires k <= n <= |ops| && OnlyWrites(ops, k, n)
    requires At(s, ops, k).keyframe && |At(s, ops, k).pending| < DATAGRAM_SIZE
    ensures (exists m :: k <= m < n && Completes(At(s, ops, m), ops[m])) <==>
              |At(s, ops, k).pending| + |Written(ops, k, n)| >= DATAGRAM_SIZE
    decreases n
  {
    hide Step, Chunks, Rest;
    if n > k {
      WritesComplete(s, ops, k, n - 1);
      WritesKeepFlag(s, ops, k, n - 1);
      CutsTheStream(s, ops, k, n - 1);
      ChunkEndLength(At(s, ops, k).pending + Written(ops, k, n - 1));
      assert ops[n - 1].Write?;
    }
  }

  lemma ChunkEndLength(s: seq<Byte>)
    ensures |s| < DATAGRAM_SIZE ==> |Rest(s)| == |s|
  {
  }

  /**
    The flag reaches the queue only on datagrams completed while the keyframe is being written: a
    keyframe yields a flagged datagram exactly when the bytes pending before it and those the muxer
    hands over before the write returns make up 1316; the rest leaves unflagged with the flush.
   */
  lemma KeyframeFlagged(s: Sink, ops: seq<Op>, k: nat, n: nat, p: nat)
    requires k <= n < p < |ops| && |At(s, ops, k).pending| < DATAGRAM_SIZE && At(s, ops, k).keyframe
    requires OnlyWrites(ops, k, n) && ops[n].End? && OnlyWrites(ops, n + 1, p) && ops[p].Flush?
    ensures At(s, ops, k).output <= At(s, ops, p + 1).output
    ensures FlaggedBeyond(At(s, ops, p + 1).output, |At(s, ops, k).output|) <==>
              |At(s, ops, k).pending| + |Written(ops, k, n)| >= DATAGRAM_SIZE
  {
    hide Step, At, Completes, FlaggedBeyond;
    FlagsExactly(s, ops, k, p + 1);
    WritesComplete(s, ops, k, n);
    forall m | n <= m <= p ensures !Completes(At(s, ops, m), ops[m]) { UnflaggedAfterEnd(s, ops, n, p, m); }
  }

  lemma UnflaggedAfterEnd(s: Sink, ops: seq<Op>, n: nat, p: nat, m: nat)
    requires n < p < |ops| && n <= m <= p && ops[n].End? && OnlyWrites(ops, n + 1, p)
    ensures !Completes(At(s, ops, m), ops[m])
  {
    if m > n {
      assert !At(s, ops, n + 1).keyframe;
      hide Step;
      WritesKeepFlag(s, ops, n + 1, m);
    }
  }
}
