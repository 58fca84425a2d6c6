/**
  The bounded, keyframe-aware datagram queue of plugin/srtla-output.cpp. The functions say what
  each lock-protected section does; the class runs those sections on its own fields.
 */
module MediaQueue {
  import opened Words

  const MAX_QUEUE_BYTES: U64 := 8 * 1024 * 1024
  const MAX_QUEUE_DURATION: int := 2 * 90_000

  /** A byte vector, whose size the standard library bounds by 2^63 - 1. */
  type Payload = s: seq<Byte> | |s| < 0x8000_0000_0000_0000

  /** A muxed datagram. `arrival` numbers the datagrams offered since the start; no code reads it. */
  datatype Datagram = Datagram(bytes: Payload, keyframe: bool, pts90k: int, arrival: nat)

  /** What `queue_mutex` protects. */
  datatype Queue = Queue(items: seq<Datagram>, bytes: U64, dropUntilKeyframe: bool, workerStop: bool)

  const EMPTY := Queue([], 0, false, false)

  function Cleared(q: Queue): Queue {
    q.(items := [], bytes := 0)
  }

  function Enqueued(q: Queue, d: Datagram): Queue {
    if q.dropUntilKeyframe && !d.keyframe then q
    else
      var base := if q.dropUntilKeyframe then Cleared(q).(dropUntilKeyframe := false) else q;
      var duration := if base.items == [] then 0 else d.pts90k - base.items[0].pts90k;
      if WrapAdd(base.bytes, |d.bytes|) > MAX_QUEUE_BYTES || duration > MAX_QUEUE_DURATION then
        base.(dropUntilKeyframe := true)
      else
        base.(items := base.items + [d], bytes := WrapAdd(base.bytes, |d.bytes|))
  }

  function Popped(q: Queue): Queue
    requires q.items != []
  {
    q.(items := q.items[1..], bytes := WrapSub(q.bytes, |q.items[0].bytes|))
  }

  /** The queue after a reconnect notice, and after a failed send. */
  function Flushed(q: Queue): Queue {
    Cleared(q).(dropUntilKeyframe := true)
  }

  function StopSignalled(q: Queue): Queue {
    Cleared(q).(workerStop := true)
  }

  /** The queue as a start prepares it: the byte counter is left as it was. */
  function Prepared(q: Queue): Queue {
    q.(items := [], dropUntilKeyframe := false, workerStop := false)
  }

  class SrtlaOutput {
    var running: bool
    var queue: seq<Datagram>
    var queueBytes: U64
    var dropUntilKeyframe: bool
    var workerStop: bool

    ghost function View(): Queue
      reads this
    {
      Queue(queue, queueBytes, dropUntilKeyframe, workerStop)
    }

    constructor ()
      ensures View() == EMPTY && !running
    {
      running := false;
      queue, queueBytes := [], 0;
      dropUntilKeyframe, workerStop := false, false;
    }

    method EnqueueDatagram(d: Datagram)
      modifies this
      ensures running == old(running)
      ensures View() == if !running || d.bytes == [] then old(View()) else Enqueued(old(View()), d)
    {
      if !running || d.bytes == [] {
        return;
      }
      if dropUntilKeyframe && !d.keyframe {
        return;
      }
      if d.keyframe && dropUntilKeyframe {
        queue := [];
        queueBytes := 0;
        dropUntilKeyframe := false;
      }
      var duration := if queue == [] then 0 else d.pts90k - queue[0].pts90k;
      if WrapAdd(queueBytes, |d.bytes|) > MAX_QUEUE_BYTES || duration > MAX_QUEUE_DURATION {
        dropUntilKeyframe := true;
        return;
      }
      queueBytes := WrapAdd(queueBytes, |d.bytes|);
      queue := queue + [d];
    }

    /** The worker's locked wait: none when it may return, otherwise the item to send. */
    method TakeNext() returns (item: Option<Datagram>)
      requires workerStop || queue != []
      modifies this
      ensures running == old(running)
      ensures old(queue) == [] ==> item == None && View() == old(View())
      ensures old(queue) != [] ==> item == Some(old(queue)[0]) && View() == Popped(old(View()))
    {
      if queue == [] && workerStop {
        return None;
      }
      item := Some(queue[0]);
      queueBytes := WrapSub(queueBytes, |queue[0].bytes|);
      queue := queue[1..];
    }

    method SendFailed() returns (exit: bool)
      modifies this
      ensures running == old(running) && exit == old(workerStop)
      ensures View() == if exit then old(View()) else Flushed(old(View()))
    {
      if workerStop {
        return true;
      }
      queue := [];
      queueBytes := 0;
      dropUntilKeyframe := true;
      exit := false;
    }

    method OnReconnecting()
      modifies this
      ensures running == old(running) && View() == Flushed(old(View()))
    {
      queue := [];
      queueBytes := 0;
      dropUntilKeyframe := true;
    }

    method SignalStop()
      modifies this
      ensures running == old(running) && View() == StopSignalled(old(View()))
    {
      workerStop := true;
      queue := [];
      queueBytes := 0;
    }

    method PrepareQueue()
      modifies this
      ensures running == old(running) && View() == Prepared(old(View()))
    {
      queue := [];
      dropUntilKeyframe := false;
      workerStop := false;
    }
  }
}
