/**
  What the controller's baselines are over whole runs of engine/src/abr.rs: averages that approach
  the samples geometrically and never leave their range, jitters that remember the largest recent
  rise, and a minimum that is replaced or drifts.
 */
module AbrBaselines {
  import opened Words
  import opened Abr
  import opened AbrRuns

  /** `d` after `k` factors of `rate`. */
  function Decayed(rate: real, d: real, k: nat): real {
    if k == 0 then d else rate * Decayed(rate, d, k - 1)
  }

  lemma DecayStep(rate: real, d: real, k: nat)
    ensures Decayed(rate, d, 0) == d && Decayed(rate, d, k + 1) == rate * Decayed(rate, d, k)
  {
  }

  function RateOf(srt: SrtCapacity): real {
    srt.sendRateBps as real / 1024.0
  }

  // One sample

  // Each average moves towards the sample by its own factor

  lemma ThroughputStep(l: Learned, srt: SrtCapacity)
    ensures Measured(l, srt).throughput - RateOf(srt) == 0.97 * (l.throughput - RateOf(srt))
  {
  }

  lemma DepthStep(l: Learned, srt: SrtCapacity)
    ensures var depth := srt.sendBufferPackets as real;
            Measured(l, srt).sendBufferAverage - depth == 0.99 * (l.sendBufferAverage - depth)
    ensures Measured(l, srt).previousSendBuffer == srt.sendBufferPackets
  {
  }

  /** The first RTT is taken whole. */
  lemma RttStep(l: Learned, srt: SrtCapacity)
    ensures var rtt, average := srt.rttMs as real, Measured(l, srt).rttAverage;
            if l.rttAverage == 0.0 then average == rtt else average - rtt == 0.99 * (l.rttAverage - rtt)
  {
  }

  lemma DeltaStep(l: Learned, srt: SrtCapacity)
    ensures var rise := srt.rttMs as real - l.previousRttMs as real;
            Measured(l, srt).rttAverageDelta - rise == 0.8 * (l.rttAverageDelta - rise)
    ensures Measured(l, srt).previousRttMs == srt.rttMs
  {
  }

  /** Each jitter is the rise since the last sample, or what is left of the jitter before if that is more. */
  lemma JitterStep(l: Learned, srt: SrtCapacity)
    ensures var m := Measured(l, srt);
            var rise := srt.sendBufferPackets as real - l.previousSendBuffer as real;
            var rttRise := srt.rttMs as real - l.previousRttMs as real;
            && m.sendBufferJitter >= rise && m.sendBufferJitter >= 0.99 * l.sendBufferJitter
            && (m.sendBufferJitter == rise || m.sendBufferJitter == 0.99 * l.sendBufferJitter)
            && m.rttJitter >= rttRise && m.rttJitter >= 0.99 * l.rttJitter
            && (m.rttJitter == rttRise || m.rttJitter == 0.99 * l.rttJitter)
  {
  }

  /**
    The minimum is replaced exactly by a smaller RTT, other than 100 ms, that does not come with a
    rise of the averaged delta to a millisecond or more; otherwise it drifts up by a thousandth.
   */
  lemma MinimumStep(l: Learned, srt: SrtCapacity)
    ensures var m := Measured(l, srt);
            var rtt, drifted := srt.rttMs as real, 1.001 * l.rttMinimum;
            m.rttMinimum == if srt.rttMs != 100 && rtt < drifted && m.rttAverageDelta < 1.0 then rtt else drifted
  {
  }

  /** The baselines after the first sample of a session. */
  lemma FirstSample(srt: SrtCapacity)
    ensures var m := Measured(UNLEARNED, srt);
            var depth, rtt := srt.sendBufferPackets as real, srt.rttMs as real;
            && m.throughput == 0.03 * RateOf(srt) && m.sendBufferAverage == 0.01 * depth && m.sendBufferJitter == depth
            && m.rttAverage == rtt && m.rttAverageDelta == 0.2 * (rtt - 300.0)
            && m.rttJitter == (if rtt > 300.0 then rtt - 300.0 else 0.0)
            && m.rttMinimum == (if rtt <= 200.0 && srt.rttMs != 100 then rtt else 200.2)
  {
  }

  // Runs

  /** How many of the first `n` operations processed a sample. */
  function Count(c: Controller, ops: seq<Op>, n: nat): nat
    requires n <= |ops|
  {
    if n == 0 then 0 else Count(c, ops, n - 1) + if Processes(At(c, ops, n - 1), ops[n - 1]) then 1 else 0
  }

  /** The sample operation `i` processes. */
  function Sampled(ops: seq<Op>, i: nat): SrtCapacity
    requires i < |ops| && ops[i].Tick?
  {
    ops[i].sample.srt
  }

  lemma StartOf(c: Controller, ops: seq<Op>)
    ensures At(c, ops, 0) == c && Count(c, ops, 0) == 0
  {
  }

  /** Only a processed sample changes the baselines between resets. */
  lemma LearnedAt(c: Controller, ops: seq<Op>, n: nat)
    requires NoRestart(ops) && n < |ops|
    ensures Processes(At(c, ops, n), ops[n]) ==> ops[n].Tick? && Sampled(ops, n).rttMs > 0
    ensures At(c, ops, n + 1).learned ==
            if Processes(At(c, ops, n), ops[n]) then Measured(At(c, ops, n).learned, Sampled(ops, n))
            else At(c, ops, n).learned
    ensures Count(c, ops, n + 1) == Count(c, ops, n) + if Processes(At(c, ops, n), ops[n]) then 1 else 0
  {
    hide Apply;
    LearnedStep(At(c, ops, n), ops[n]);
    assert !ops[n].Restart?;
  }

  /** After k samples of one send rate, 0.97^k of the throughput's distance to it is left. */
  lemma {:induction false} ThroughputSettles(c: Controller, ops: seq<Op>, n: nat, x: real)
    requires NoRestart(ops) && n <= |ops|
    requires forall i :: 0 <= i < n && Processes(At(c, ops, i), ops[i]) ==> RateOf(Sampled(ops, i)) == x
    ensures At(c, ops, n).learned.throughput - x == Decayed(0.97, c.learned.throughput - x, Count(c, ops, n))
  {
    hide Apply, Processes, Measured, Sampled, At, Count, Decayed;
    StartOf(c, ops);
    DecayStep(0.97, c.learned.throughput - x, Count(c, ops, if n > 0 then n - 1 else n));
    if n > 0 {
      ThroughputSettles(c, ops, n - 1, x);
      LearnedAt(c, ops, n - 1);
      if Processes(At(c, ops, n - 1), ops[n - 1]) {
        ThroughputStep(At(c, ops, n - 1).learned, Sampled(ops, n - 1));
      }
    }
  }

  /** After k samples of one queue depth, 0.99^k of the average's distance to it is left. */
  lemma {:induction false} DepthSettles(c: Controller, ops: seq<Op>, n: nat, x: real)
    requires NoRestart(ops) && n <= |ops|
    requires forall i :: 0 <= i < n && Processes(At(c, ops, i), ops[i]) ==>
                           Sampled(ops, i).sendBufferPackets as real == x
    ensures At(c, ops, n).learned.sendBufferAverage - x ==
            Decayed(0.99, c.learned.sendBufferAverage - x, Count(c, ops, n))
  {
    hide Apply, Processes, Measured, Sampled, At, Count, Decayed;
    StartOf(c, ops);
    DecayStep(0.99, c.learned.sendBufferAverage - x, Count(c, ops, if n > 0 then n - 1 else n));
    if n > 0 {
      DepthSettles(c, ops, n - 1, x);
      LearnedAt(c, ops, n - 1);
      if Processes(At(c, ops, n - 1), ops[n - 1]) {
        DepthStep(At(c, ops, n - 1).learned, Sampled(ops, n - 1));
      }
    }
  }

  /** The first RTT is taken whole; after that the distance to a steady RTT shrinks by 0.99 per sample. */
  lemma {:induction false} RttSettles(c: Controller, ops: seq<Op>, n: nat, x: real)
    requires NoRestart(ops) && n <= |ops| && c.learned.rttAverage >= 0.0
    requires forall i :: 0 <= i < n && Processes(At(c, ops, i), ops[i]) ==> Sampled(ops, i).rttMs as real == x
    ensures var k, a := Count(c, ops, n), At(c, ops, n).learned.rttAverage;
            && (k > 0 ==> a > 0.0)
            && (c.learned.rttAverage == 0.0 ==> a == if k == 0 then 0.0 else x)
            && (c.learned.rttAverage > 0.0 ==> a > 0.0 && a - x == Decayed(0.99, c.learned.rttAverage - x, k))
  {
    hide Apply, Processes, Measured, Sampled, At, Count, Decayed;
    StartOf(c, ops);
    DecayStep(0.99, c.learned.rttAverage - x, Count(c, ops, if n > 0 then n - 1 else n));
    if n > 0 {
      RttSettles(c, ops, n - 1, x);
      LearnedAt(c, ops, n - 1);
      if Processes(At(c, ops, n - 1), ops[n - 1]) {
        RttStep(At(c, ops, n - 1).learned, Sampled(ops, n - 1));
      }
    }
  }

  /** With a steady RTT the averaged delta dies out by 0.8 per sample, after the step to that RTT. */
  lemma {:induction false} DeltaDiesOut(c: Controller, ops: seq<Op>, n: nat, x: real)
    requires NoRestart(ops) && n <= |ops|
    requires forall i :: 0 <= i < n && Processes(At(c, ops, i), ops[i]) ==> Sampled(ops, i).rttMs as real == x
    ensures var k, l := Count(c, ops, n), At(c, ops, n).learned;
            var step := 0.8 * c.learned.rttAverageDelta + 0.2 * (x - c.learned.previousRttMs as real);
            && l.rttAverageDelta == (if k == 0 then c.learned.rttAverageDelta else Decayed(0.8, step, k - 1))
            && l.previousRttMs as real == (if k == 0 then c.learned.previousRttMs as real else x)
  {
    hide Apply, Processes, Measured, Sampled, At, Count, Decayed;
    StartOf(c, ops);
    var step := 0.8 * c.learned.rttAverageDelta + 0.2 * (x - c.learned.previousRttMs as real);
    DecayStep(0.8, step, 0);
    if n > 0 {
      var k := Count(c, ops, n - 1);
      if k > 0 { DecayStep(0.8, step, k - 1); }
      DeltaDiesOut(c, ops, n - 1, x);
      LearnedAt(c, ops, n - 1);
      if Processes(At(c, ops, n - 1), ops[n - 1]) {
        DeltaStep(At(c, ops, n - 1).learned, Sampled(ops, n - 1));
      }
    }
  }

  /** The throughput never leaves the range of the processed send rates and its start. */
  lemma {:induction false} ThroughputStaysBetween(c: Controller, ops: seq<Op>, n: nat, low: real, high: real)
    requires NoRestart(ops) && n <= |ops| && low <= c.learned.throughput <= high
    requires forall i :: 0 <= i < n && Processes(At(c, ops, i), ops[i]) ==> low <= RateOf(Sampled(ops, i)) <= high
    ensures low <= At(c, ops, n).learned.throughput <= high
  {
    hide Apply, Processes, Measured, Sampled, At, Count;
    StartOf(c, ops);
    if n > 0 {
      ThroughputStaysBetween(c, ops, n - 1, low, high);
      LearnedAt(c, ops, n - 1);
      if Processes(At(c, ops, n - 1), ops[n - 1]) {
        ThroughputStep(At(c, ops, n - 1).learned, Sampled(ops, n - 1));
      }
    }
  }

  /** Nor does the depth average leave the range of the processed depths and its start. */
  lemma {:induction false} DepthStaysBetween(c: Controller, ops: seq<Op>, n: nat, low: real, high: real)
    requires NoRestart(ops) && n <= |ops| && low <= c.learned.sendBufferAverage <= high
    requires forall i :: 0 <= i < n && Processes(At(c, ops, i), ops[i]) ==>
                           low <= Sampled(ops, i).sendBufferPackets as real <= high
    ensures low <= At(c, ops, n).learned.sendBufferAverage <= high
  {
    hide Apply, Processes, Measured, Sampled, At, Count;
    StartOf(c, ops);
    if n > 0 {
      DepthStaysBetween(c, ops, n - 1, low, high);
      LearnedAt(c, ops, n - 1);
      if Processes(At(c, ops, n - 1), ops[n - 1]) {
        DepthStep(At(c, ops, n - 1).learned, Sampled(ops, n - 1));
      }
    }
  }

  /** Once taken, the RTT average stays in the range of the processed RTTs. */
  lemma {:induction false} RttStaysBetween(c: Controller, ops: seq<Op>, n: nat, low: real, high: real)
    requires NoRestart(ops) && n <= |ops| && 0.0 < low
    requires c.learned.rttAverage == 0.0 || low <= c.learned.rttAverage <= high
    requires forall i :: 0 <= i < n && Processes(At(c, ops, i), ops[i]) ==>
                           low <= Sampled(ops, i).rttMs as real <= high
    ensures low <= At(c, ops, n).learned.rttAverage <= high
            || (At(c, ops, n).learned.rttAverage == 0.0 && Count(c, ops, n) == 0)
  {
    hide Apply, Processes, Measured, Sampled, At, Count;
    StartOf(c, ops);
    if n > 0 {
      RttStaysBetween(c, ops, n - 1, low, high);
      LearnedAt(c, ops, n - 1);
      if Processes(At(c, ops, n - 1), ops[n - 1]) {
        RttStep(At(c, ops, n - 1).learned, Sampled(ops, n - 1));
      }
    }
  }

  /** How far the depth sampled at `i` is above the one before, and the RTT likewise. */
  function Rise(c: Controller, ops: seq<Op>, i: nat): real
    requires i < |ops|
  {
    if ops[i].Tick? then Sampled(ops, i).sendBufferPackets as real - At(c, ops, i).learned.previousSendBuffer as real
    else 0.0
  }

  function RttRise(c: Controller, ops: seq<Op>, i: nat): real
    requires i < |ops|
  {
    if ops[i].Tick? then Sampled(ops, i).rttMs as real - At(c, ops, i).learned.previousRttMs as real else 0.0
  }

  /** A rise of the queue is remembered: k samples later the jitter is still at least 0.99^k of it. */
  lemma {:induction false} JitterRemembers(c: Controller, ops: seq<Op>, i: nat, n: nat)
    requires NoRestart(ops) && i < n <= |ops|
    ensures Count(c, ops, n) >= Count(c, ops, i + 1)
    ensures Processes(At(c, ops, i), ops[i]) ==>
              var k := Count(c, ops, n) - Count(c, ops, i + 1);
              && At(c, ops, n).learned.sendBufferJitter >= Decayed(0.99, Rise(c, ops, i), k)
              && At(c, ops, n).learned.rttJitter >= Decayed(0.99, RttRise(c, ops, i), k)
  {
    hide Apply, Processes, Measured, Sampled, At, Count, Decayed;
    LearnedAt(c, ops, n - 1);
    if Processes(At(c, ops, n - 1), ops[n - 1]) {
      JitterStep(At(c, ops, n - 1).learned, Sampled(ops, n - 1));
    }
    if n == i + 1 {
      DecayStep(0.99, Rise(c, ops, i), 0);
      DecayStep(0.99, RttRise(c, ops, i), 0);
    } else {
      JitterRemembers(c, ops, i, n - 1);
      var k := Count(c, ops, n - 1) - Count(c, ops, i + 1);
      DecayStep(0.99, Rise(c, ops, i), k);
      DecayStep(0.99, RttRise(c, ops, i), k);
    }
  }

  /** And nothing else is: no jitter exceeds every rise since the start, nor what it was then. */
  lemma {:induction false} JitterBounded(c: Controller, ops: seq<Op>, n: nat, high: real)
    requires NoRestart(ops) && n <= |ops| && 0.0 <= high && c.learned.sendBufferJitter <= high
    requires forall i :: 0 <= i < n && Processes(At(c, ops, i), ops[i]) ==> Rise(c, ops, i) <= high
    ensures At(c, ops, n).learned.sendBufferJitter <= high
  {
    hide Apply, Processes, Measured, Sampled, At, Count;
    StartOf(c, ops);
    if n > 0 {
      JitterBounded(c, ops, n - 1, high);
      LearnedAt(c, ops, n - 1);
      if Processes(At(c, ops, n - 1), ops[n - 1]) {
        JitterStep(At(c, ops, n - 1).learned, Sampled(ops, n - 1));
      }
    }
  }

  /** The minimum is never above its start drifted by 1.001 per sample, nor below it and every RTT. */
  lemma {:induction false} MinimumRange(c: Controller, ops: seq<Op>, n: nat, low: real)
    requires NoRestart(ops) && n <= |ops| && 0.0 <= low <= c.learned.rttMinimum
    requires forall i :: 0 <= i < n && Processes(At(c, ops, i), ops[i]) ==> low <= Sampled(ops, i).rttMs as real
    ensures low <= At(c, ops, n).learned.rttMinimum <= Decayed(1.001, c.learned.rttMinimum, Count(c, ops, n))
  {
    hide Apply, Processes, Measured, Sampled, At, Count, Decayed;
    StartOf(c, ops);
    DecayStep(1.001, c.learned.rttMinimum, Count(c, ops, if n > 0 then n - 1 else n));
    if n > 0 {
      MinimumRange(c, ops, n - 1, low);
      LearnedAt(c, ops, n - 1);
      if Processes(At(c, ops, n - 1), ops[n - 1]) {
        MinimumStep(At(c, ops, n - 1).learned, Sampled(ops, n - 1));
      }
    }
  }
}
