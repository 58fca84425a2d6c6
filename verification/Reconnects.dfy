/**
  The session and the media pipeline together: a Reconnecting status runs the pipeline's flush
  before the connector goes on; everything else interleaves freely.
 */
module Reconnects {
  import opened Words
  import Media = MediaQueue
  import Pipe = Pipeline
  import Srt = SrtSession

  datatype Both = Both(session: Srt.State, pipe: Pipe.State)

  ghost predicate SessionStep(x: Both, y: Both, e: Srt.Event) {
    && Srt.Enabled(x.session, e) && !e.Start? && !e.SpawnFailed? && y.session == Srt.Apply(x.session, e)
    && if Srt.Reported(x.session, e) == Some(Srt.Reconnecting) then
         Pipe.Enabled(x.pipe, Pipe.Reconnect) && y.pipe == Pipe.Apply(x.pipe, Pipe.Reconnect)
       else
         y.pipe == x.pipe
  }

  ghost predicate PipeStep(x: Both, y: Both, e: Pipe.Event) {
    && !e.Reconnect? && !e.PrepareQueue? && Pipe.Enabled(x.pipe, e)
    && y == x.(pipe := Pipe.Apply(x.pipe, e))
  }

  ghost predicate Next(x: Both, y: Both) {
    (exists e :: SessionStep(x, y, e)) || (exists e :: PipeStep(x, y, e))
  }

  /** Any interleaving within one start and one connector run. */
  ghost predicate Run(xs: seq<Both>) {
    |xs| > 0 && forall i :: 0 <= i < |xs| - 1 ==> Next(xs[i], xs[i + 1])
  }

  lemma StepEffects(x: Both, y: Both)
    requires Next(x, y)
    ensures Pipe.NextInStart(x.pipe, y.pipe)
    ensures x.session == y.session || Srt.Next(x.session, y.session)
    ensures y.session.trace == x.session.trace || exists st :: y.session.trace == x.session.trace + [st]
    ensures y.session.trace == x.session.trace + [Srt.Reconnecting] ==> y.pipe.q == Media.Flushed(y.pipe.q)
  {
    hide Srt.Apply, Srt.Enabled;
    if e :| SessionStep(x, y, e) {
      Srt.TraceStep(x.session, e);
      if Srt.Reported(x.session, e) == Some(Srt.Reconnecting) {
        assert Pipe.Enabled(x.pipe, Pipe.Reconnect) && y.pipe == Pipe.Apply(x.pipe, Pipe.Reconnect);
      } else if Srt.Reported(x.session, e).Some? {
        assert y.session.trace[|x.session.trace|] == Srt.Reported(x.session, e).value;
      }
    }
  }

  lemma {:induction false} TraceGrows(xs: seq<Both>, m: nat)
    requires Run(xs) && m < |xs|
    ensures xs[0].session.trace <= xs[m].session.trace
  {
    hide Next, Pipe.NextInStart, Srt.Next, Media.Flushed;
    if m > 0 {
      TraceGrows(xs, m - 1);
      assert Next(xs[m - 1], xs[m - 1 + 1]);
      StepEffects(xs[m - 1], xs[m]);
    }
  }

  /** Every Reconnecting in the trace was reported by a step that flushed the queue. */
  lemma {:induction false} FlushBehind(xs: seq<Both>, m: nat, p: nat) returns (k: nat)
    requires Run(xs) && m < |xs|
    requires |xs[0].session.trace| <= p < |xs[m].session.trace| && xs[m].session.trace[p].Reconnecting?
    ensures 0 < k <= m && xs[k].pipe.q == Media.Flushed(xs[k].pipe.q)
  {
    hide Next, Media.Flushed;
    assert Next(xs[m - 1], xs[m - 1 + 1]);
    StepEffects(xs[m - 1], xs[m]);
    var before := xs[m - 1].session.trace;
    if p < |before| {
      k := FlushBehind(xs, m - 1, p);
    } else {
      assert xs[m].session.trace == before + [Srt.Reconnecting];
      k := m;
    }
  }

  lemma {:induction false} InvariantsHold(xs: seq<Both>, m: nat)
    requires Run(xs) && m < |xs| && Srt.Inv(xs[0].session) && Pipe.Inv(xs[0].pipe)
    ensures Srt.Inv(xs[m].session) && Pipe.Inv(xs[m].pipe)
    ensures Pipe.Processed(xs[0].pipe) <= Pipe.Processed(xs[m].pipe)
  {
    if m > 0 {
      InvariantsHold(xs, m - 1);
      var x, y := xs[m - 1], xs[m];
      assert Next(x, xs[m - 1 + 1]);
      StepEffects(x, y);
      hide Srt.Inv, Pipe.Inv;
      if x.session != y.session { Srt.InvStep(x.session, y.session); }
      if x.pipe != y.pipe { Pipe.InStartStep(x.pipe, y.pipe); }
    }
  }

  /** A link that is up and connects again has been through a flush in between. */
  lemma FlushBetween(xs: seq<Both>, j: nat, p: nat) returns (k: nat)
    requires Run(xs) && j < |xs| && Srt.Inv(xs[0].session) && Pipe.Inv(xs[0].pipe)
    requires Srt.Up(xs[0].session.trace)
    requires |xs[0].session.trace| <= p < |xs[j].session.trace| && xs[j].session.trace[p].Connected?
    ensures 0 < k <= j && xs[k].pipe.q == Media.Flushed(xs[k].pipe.q)
  {
    hide Run, Srt.Up, Srt.Alternates, Srt.Sockets, Pipe.Inv;
    InvariantsHold(xs, j);
    TraceGrows(xs, j);
    var q := Srt.ReconnectedSince(xs[0].session.trace, xs[j].session.trace, p);
    k := FlushBehind(xs, j, q);
  }

  /**
    Once the link that was up has been lost and regained, at most one datagram accepted while it
    was up can still be sent: every later one but the first arrived after that.
   */
  lemma StaleAcrossReconnect(xs: seq<Both>, j: nat, n: nat, p: nat, b: nat)
    requires Run(xs) && j <= n < |xs| && Srt.Inv(xs[0].session) && Pipe.Inv(xs[0].pipe)
    requires Srt.Up(xs[0].session.trace)
    requires |xs[0].session.trace| <= p < |xs[j].session.trace| && xs[j].session.trace[p].Connected?
    ensures xs[j].pipe.sent <= xs[n].pipe.sent
    ensures |xs[j].pipe.sent| < b < |xs[n].pipe.sent| ==>
              Pipe.Processed(xs[0].pipe) <= xs[n].pipe.sent[b].arrival
  {
    hide *;
    SentSuffix(xs, j, n);
    var k := FlushBetween(xs, j, p);
    InvariantsHold(xs, k);
    SentSuffix(xs, k, j);
    if |xs[j].pipe.sent| < b < |xs[n].pipe.sent| {
      var pipes := seq(n + 1 - k, m requires 0 <= m < n + 1 - k => xs[k + m].pipe);
      PipeRun(xs, k, n, pipes);
      var m := |pipes[0].sent|;
      Pipe.ReconnectDiscardsStale(pipes, n - k, b - m);
      assert xs[n].pipe.sent[m..][b - m] == xs[n].pipe.sent[b];
    }
  }

  lemma PipeRun(xs: seq<Both>, k: nat, n: nat, pipes: seq<Pipe.State>)
    requires Run(xs) && k <= n < |xs| && |pipes| == n + 1 - k
    requires forall m :: 0 <= m < |pipes| ==> pipes[m] == xs[k + m].pipe
    ensures Pipe.RunInStart(pipes)
  {
    forall i | 0 <= i < |pipes| - 1
      ensures Pipe.NextInStart(pipes[i], pipes[i + 1])
    {
      assert Next(xs[k + i], xs[k + i + 1]);
      StepEffects(xs[k + i], xs[k + i + 1]);
    }
  }

  lemma {:induction false} SentSuffix(xs: seq<Both>, j: nat, n: nat)
    requires Run(xs) && j <= n < |xs| && Pipe.Inv(xs[0].pipe) && Srt.Inv(xs[0].session)
    ensures xs[j].pipe.sent <= xs[n].pipe.sent
  {
    hide Next, Pipe.Inv, Srt.Inv, Pipe.NextInStart;
    if j < n {
      SentSuffix(xs, j, n - 1);
      InvariantsHold(xs, n - 1);
      assert Next(xs[n - 1], xs[n - 1 + 1]);
      StepEffects(xs[n - 1], xs[n]);
      Pipe.InStartStep(xs[n - 1].pipe, xs[n].pipe);
    }
  }
}
