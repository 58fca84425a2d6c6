/**
  What the bitrate controller guarantees over whole runs: growth envelopes, rate limits and
  the masking of lone spikes. A run is any sequence of control ticks and external changes.
 */
module AbrRuns {
  import opened Words
  import opened Abr

  datatype Op = Tick(sample: Sample) | SetMax(maxBps: U64) | SetCurrent(bps: U64) | Restart(bps: U64)

  function Apply(c: Controller, op: Op): Controller {
    match op
    case Tick(s) => Next(c, s)
    case SetMax(m) => WithMaxBps(c, m)
    case SetCurrent(b) => WithCurrentBps(c, b)
    case Restart(b) => ResetForBitrate(c, b)
  }

  /** The controller after the first `n` operations. */
  function At(c: Controller, ops: seq<Op>, n: nat): Controller
    requires n <= |ops|
  {
    if n == 0 then c else Apply(At(c, ops, n - 1), ops[n - 1])
  }

  /** What one operation does to the bitrate, read off the state it finds. */
  datatype Move = Raise | Severe | Heavy | Light | Steady | Outage | External

  function MoveOf(c: Controller, op: Op): Move {
    if !op.Tick? then External
    else if op.sample.allLinksDown then Outage
    else if !Fresh(c, op.sample.srt) then Steady
    else match Verdict(Observed(c, op.sample.srt), op.sample)
      case SevereCongestion => Severe
      case HeavyCongestion => Heavy
      case LightCongestion => Light
      case Increasing => Raise
      case _ => Steady
  }

  function MoveAt(c: Controller, ops: seq<Op>, i: nat): Move
    requires i < |ops|
  {
    MoveOf(At(c, ops, i), ops[i])
  }

  predicate WithinLimits(c: Controller) {
    c.config.minBps <= c.internalBps <= c.config.maxBps
  }

  lemma NewWithinLimits(limits: Limits)
    ensures WithinLimits(NewController(limits)) && NewController(limits).learned == UNLEARNED
  {
  }

  lemma {:induction false} LimitsKept(c: Controller, ops: seq<Op>, n: nat)
    requires WithinLimits(c) && n <= |ops|
    ensures WithinLimits(At(c, ops, n))
    ensures At(c, ops, n).config.minBps == c.config.minBps
  {
    if n > 0 {
      LimitsKept(c, ops, n - 1);
      var b := At(c, ops, n - 1);
      if ops[n - 1].Tick? {
        NextKeepsConfig(b, ops[n - 1].sample);
      }
    }
  }

  lemma NextKeepsConfig(c: Controller, s: Sample)
    requires WithinLimits(c)
    ensures WithinLimits(Next(c, s)) && Next(c, s).config == c.config
  {
  }

  // Growth

  function Pow(b: nat, e: nat): nat {
    if e == 0 then 1 else b * Pow(b, e - 1)
  }

  function Raises(c: Controller, ops: seq<Op>, n: nat): nat
    requires n <= |ops|
  {
    if n == 0 then 0 else Raises(c, ops, n - 1) + if MoveAt(c, ops, n - 1).Raise? then 1 else 0
  }

  /** No operation of the run sets the bitrate from outside. */
  predicate Undisturbed(ops: seq<Op>) {
    forall i :: 0 <= i < |ops| ==> ops[i].Tick? || ops[i].SetMax?
  }

  /** One operation: only a raise lifts the target, and by at most a thirtieth plus 30 kb/s. */
  lemma StepGrowth(c: Controller, op: Op)
    requires WithinLimits(c) && (op.Tick? || op.SetMax?)
    ensures MoveOf(c, op).Raise? ==> 30 * (Apply(c, op).internalBps + 900_000) <= 31 * (c.internalBps + 900_000)
    ensures !MoveOf(c, op).Raise? ==> Apply(c, op).internalBps <= c.internalBps
  {
    if op.Tick? && !op.sample.allLinksDown && Fresh(c, op.sample.srt) {
      var m := Observed(c, op.sample.srt);
      ControlledGrowth(m, Verdict(m, op.sample), op.sample.nowMs);
    }
  }

  lemma ControlledGrowth(m: Controller, v: ControlState, now: U64)
    requires WithinLimits(m)
    ensures v.Increasing? ==> 30 * (Controlled(m, v, now).internalBps + 900_000) <= 31 * (m.internalBps + 900_000)
    ensures !v.Increasing? ==> Controlled(m, v, now).internalBps <= m.internalBps
  {
  }

  /** However decreases are interleaved, `k` raises multiply the shifted target by at most (31/30)^k. */
  lemma {:induction false} GrowthEnvelope(c: Controller, ops: seq<Op>, n: nat)
    requires WithinLimits(c) && Undisturbed(ops) && n <= |ops|
    ensures var k := Raises(c, ops, n);
            Pow(30, k) * (At(c, ops, n).internalBps + 900_000) <= Pow(31, k) * (c.internalBps + 900_000)
  {
    hide Apply, MoveOf;
    if n > 0 {
      GrowthEnvelope(c, ops, n - 1);
      LimitsKept(c, ops, n - 1);
      var k := Raises(c, ops, n - 1);
      var b := At(c, ops, n - 1);
      StepGrowth(b, ops[n - 1]);
      var first, before, after := c.internalBps + 900_000, b.internalBps + 900_000, At(c, ops, n).internalBps + 900_000;
      if MoveAt(c, ops, n - 1).Raise? {
        Compound(Pow(30, k), Pow(31, k), first, before, after);
      } else {
        Scale(Pow(30, k), after, before);
      }
    }
  }

  lemma Compound(p: nat, q: nat, first: nat, before: nat, after: nat)
    requires p * before <= q * first && 30 * after <= 31 * before
    ensures (30 * p) * after <= (31 * q) * first
  {
    Scale(p, 30 * after, 31 * before);
    assert p * (31 * before) == 31 * (p * before);
    assert (30 * p) * after == p * (30 * after);
    assert (31 * q) * first == 31 * (q * first);
  }

  lemma CompoundBelow(p: nat, q: nat, first: nat, before: nat, after: nat)
    requires p * before >= q * first && 30 * after >= 31 * before
    ensures (30 * p) * after >= (31 * q) * first
  {
    Scale(p, 31 * before, 30 * after);
    assert p * (31 * before) == 31 * (p * before);
    assert (30 * p) * after == p * (30 * after);
    assert (31 * q) * first == 31 * (q * first);
  }

  lemma Scale(f: nat, a: int, b: int)
    requires a <= b
    ensures f * a <= f * b
  {
  }

  /** A run in which the target only ever rises, and every raise fits below the ceiling. */
  predicate ClimbsFreely(c: Controller, ops: seq<Op>, n: nat)
    requires n <= |ops|
  {
    forall i :: 0 <= i < n ==>
      && ops[i].Tick?
      && (MoveAt(c, ops, i).Steady? || MoveAt(c, ops, i).Raise?)
      && (MoveAt(c, ops, i).Raise? ==>
            At(c, ops, i).internalBps + RaiseStep(At(c, ops, i).internalBps) <= c.config.maxBps)
  }

  lemma FreeStep(c: Controller, op: Op)
    requires WithinLimits(c) && op.Tick?
    ensures Apply(c, op).config == c.config
    ensures MoveOf(c, op).Raise? && c.internalBps + RaiseStep(c.internalBps) <= c.config.maxBps ==>
              30 * (Apply(c, op).internalBps + 899_971) >= 31 * (c.internalBps + 899_971)
    ensures MoveOf(c, op).Steady? ==> Apply(c, op).internalBps == c.internalBps
  {
    if !op.sample.allLinksDown && Fresh(c, op.sample.srt) {
      var m := Observed(c, op.sample.srt);
      FreeControl(m, Verdict(m, op.sample), op.sample.nowMs);
    }
  }

  lemma FreeControl(m: Controller, v: ControlState, now: U64)
    requires WithinLimits(m)
    ensures v.Increasing? && m.internalBps + RaiseStep(m.internalBps) <= m.config.maxBps ==>
              30 * (Controlled(m, v, now).internalBps + 899_971) >= 31 * (m.internalBps + 899_971)
    ensures v.Hold? ==> Controlled(m, v, now).internalBps == m.internalBps
  {
  }

  /** The matching lower bound: `k` uncapped raises multiply the shifted target by at least (31/30)^k. */
  lemma {:induction false} ClimbRate(c: Controller, ops: seq<Op>, n: nat)
    requires WithinLimits(c) && n <= |ops| && ClimbsFreely(c, ops, n)
    ensures WithinLimits(At(c, ops, n)) && At(c, ops, n).config == c.config
    ensures var k := Raises(c, ops, n);
            Pow(30, k) * (At(c, ops, n).internalBps + 899_971) >= Pow(31, k) * (c.internalBps + 899_971)
  {
    hide Apply, MoveOf;
    if n > 0 {
      assert ClimbsFreely(c, ops, n - 1);
      ClimbRate(c, ops, n - 1);
      LimitsKept(c, ops, n);
      var k := Raises(c, ops, n - 1);
      var b := At(c, ops, n - 1);
      FreeStep(b, ops[n - 1]);
      var first, before, after := c.internalBps + 899_971, b.internalBps + 899_971, At(c, ops, n).internalBps + 899_971;
      if MoveAt(c, ops, n - 1).Raise? {
        CompoundBelow(Pow(30, k), Pow(31, k), first, before, after);
      }
    }
  }

  lemma {:induction false} Bernoulli(k: nat)
    ensures 30 * Pow(31, k) >= Pow(30, k) * (30 + k)
  {
    if k > 0 {
      Bernoulli(k - 1);
      var p, q := Pow(31, k - 1), Pow(30, k - 1);
      assert 30 * Pow(31, k) == 31 * (30 * p);
      assert Pow(30, k) * (30 + k) == q * (30 * (30 + k));
      assert 31 * (q * (29 + k)) == q * (31 * (29 + k));
      Scale(q, 30 * (30 + k), 31 * (29 + k));
    }
  }

  lemma {:induction false} PowPositive(b: nat, e: nat)
    requires b > 0
    ensures Pow(b, e) > 0
  {
    if e > 0 { PowPositive(b, e - 1); }
  }

  lemma Cancel(f: nat, a: int, b: int)
    requires f > 0 && f * a <= f * b
    ensures a <= b
  {
    if a > b {
      Scale(f, b + 1, a);
      assert false;
    }
  }

  lemma ClimbArithmetic(f: nat, g: nat, k: nat, start: nat, end: nat, top: nat)
    requires f > 0 && f * (30 + k) <= 30 * g && g * start <= f * end && end <= top
    ensures k * start <= 30 * (top - start)
  {
    var a, b, c := (30 + k) * start, 30 * top, g * start;
    assert f * a <= f * b by {
      assert f * a <= 30 * c by {
        Scale(start, f * (30 + k), 30 * g);
        Reorder(f, 30 + k, start);
        Reorder(30, g, start);
      }
      assert 30 * c <= f * b by {
        Scale(f, end, top);
        Reorder(30, f, top);
      }
    }
    Cancel(f, a, b);
    assert a == 30 * start + k * start;
  }

  lemma Reorder(a: nat, b: nat, c: nat)
    ensures a * (b * c) == b * (a * c) == c * (a * b)
  {
  }

  /** Hence only boundedly many raises fit below the ceiling. */
  lemma RaisesBounded(c: Controller, ops: seq<Op>, n: nat)
    requires WithinLimits(c) && n <= |ops| && ClimbsFreely(c, ops, n)
    ensures Raises(c, ops, n) * (c.internalBps + 899_971) <= 30 * (c.config.maxBps - c.internalBps)
  {
    hide At, Raises;
    ClimbRate(c, ops, n);
    var k := Raises(c, ops, n);
    Bernoulli(k);
    PowPositive(30, k);
    ClimbArithmetic(Pow(30, k), Pow(31, k), k, c.internalBps + 899_971,
                    At(c, ops, n).internalBps + 899_971, c.config.maxBps + 899_971);
  }

  // Rate limits

  predicate NoRestart(ops: seq<Op>) {
    forall i :: 0 <= i < |ops| ==> !ops[i].Restart?
  }

  function TimeOf(op: Op): U64
    requires op.Tick?
  {
    op.sample.nowMs
  }

  predicate Decreasing(m: Move) { m.Severe? || m.Heavy? || m.Light? }

  /** What one operation does to the two rate-limit timers, and what it needs of them. */
  lemma TimerStep(c: Controller, op: Op)
    requires !op.Restart?
    ensures var m := MoveOf(c, op); var d := Apply(c, op);
            && (m.External? <==> !op.Tick?)
            && (m.Raise? ==> TimeOf(op) > c.nextIncreaseMs
                             && d.nextIncreaseMs == SaturatingAdd(TimeOf(op), INCREASE_INTERVAL_MS))
            && (!m.Raise? ==> d.nextIncreaseMs == c.nextIncreaseMs)
            && (m.Heavy? || m.Light? ==> TimeOf(op) > c.nextDecreaseMs)
            && (m.Heavy? ==> d.nextDecreaseMs == SaturatingAdd(TimeOf(op), DECREASE_FAST_INTERVAL_MS))
            && (m.Severe? || m.Light? ==> d.nextDecreaseMs == SaturatingAdd(TimeOf(op), DECREASE_INTERVAL_MS))
            && (!Decreasing(m) ==> d.nextDecreaseMs == c.nextDecreaseMs)
  {
  }

  /** Raises `i` and `j` are more than half a second apart for every raise from one to the other. */
  lemma {:induction false} RaisesSpaced(c: Controller, ops: seq<Op>, i: nat, j: nat)
    requires NoRestart(ops) && i < j < |ops|
    ensures MoveAt(c, ops, i).Raise? && MoveAt(c, ops, j).Raise? ==>
              TimeOf(ops[j]) - TimeOf(ops[i]) >= 501 * (Raises(c, ops, j) - Raises(c, ops, i))
  {
    hide Apply, MoveOf;
    if MoveAt(c, ops, i).Raise? && MoveAt(c, ops, j).Raise? {
      RaiseHorizon(c, ops, i, j);
      TimerStep(At(c, ops, j), ops[j]);
    }
  }

  /** The increase timer, `r` raises after the one at `i`, is still at least 501 r - 1 ms past it. */
  lemma {:induction false} RaiseHorizon(c: Controller, ops: seq<Op>, i: nat, n: nat)
    requires NoRestart(ops) && i < n < |ops|
    requires MoveAt(c, ops, i).Raise?
    ensures Raises(c, ops, n) >= Raises(c, ops, i) + 1
    ensures var horizon := TimeOf(ops[i]) + 501 * (Raises(c, ops, n) - Raises(c, ops, i)) - 1;
            At(c, ops, n).nextIncreaseMs >= horizon || At(c, ops, n).nextIncreaseMs == U64_MAX
  {
    hide Apply, MoveOf;
    var b := At(c, ops, n - 1);
    TimerStep(b, ops[n - 1]);
    if n > i + 1 {
      RaiseHorizon(c, ops, i, n - 1);
      assert Raises(c, ops, n) == Raises(c, ops, n - 1) + if MoveOf(b, ops[n - 1]).Raise? then 1 else 0;
    } else {
      assert Raises(c, ops, n) == Raises(c, ops, i) + 1;
    }
  }

  /** Tick times never run backwards. */
  predicate Chronological(ops: seq<Op>) {
    forall i, j :: 0 <= i < j < |ops| && ops[i].Tick? && ops[j].Tick? ==> TimeOf(ops[i]) <= TimeOf(ops[j])
  }

  /** Every heavy or light step comes more than 200 ms after any earlier decrease. */
  lemma DecreasesSpaced(c: Controller, ops: seq<Op>, i: nat, j: nat)
    requires NoRestart(ops) && Chronological(ops) && i < j < |ops|
    ensures Decreasing(MoveAt(c, ops, i)) && (MoveAt(c, ops, j).Heavy? || MoveAt(c, ops, j).Light?) ==>
              TimeOf(ops[j]) > TimeOf(ops[i]) + 200
  {
    hide Apply, MoveOf;
    if Decreasing(MoveAt(c, ops, i)) {
      DecreaseHorizon(c, ops, i, j);
      TimerStep(At(c, ops, j), ops[j]);
    }
  }

  lemma {:induction false} DecreaseHorizon(c: Controller, ops: seq<Op>, i: nat, n: nat)
    requires NoRestart(ops) && Chronological(ops) && i < n < |ops|
    ensures Decreasing(MoveAt(c, ops, i)) ==>
              ops[i].Tick? && At(c, ops, n).nextDecreaseMs >= SaturatingAdd(TimeOf(ops[i]), 200)
  {
    hide Apply, MoveOf;
    TimerStep(At(c, ops, i), ops[i]);
    TimerStep(At(c, ops, n - 1), ops[n - 1]);
    if n > i + 1 {
      DecreaseHorizon(c, ops, i, n - 1);
    }
  }

  /** After a heavy step the gap is 250 ms, unless a severe drop falls between. */
  lemma HeavySpaced(c: Controller, ops: seq<Op>, i: nat, j: nat)
    requires NoRestart(ops) && Chronological(ops) && i < j < |ops|
    ensures MoveAt(c, ops, i).Heavy? && (MoveAt(c, ops, j).Heavy? || MoveAt(c, ops, j).Light?) ==>
              TimeOf(ops[j]) > TimeOf(ops[i]) + 250 || exists k :: i < k < j && MoveAt(c, ops, k).Severe?
  {
    hide Apply, MoveOf;
    if MoveAt(c, ops, i).Heavy? && forall k :: i < k < j ==> !MoveAt(c, ops, k).Severe? {
      HeavyHorizon(c, ops, i, j);
      TimerStep(At(c, ops, j), ops[j]);
    }
  }

  lemma {:induction false} HeavyHorizon(c: Controller, ops: seq<Op>, i: nat, n: nat)
    requires NoRestart(ops) && Chronological(ops) && i < n < |ops|
    requires MoveAt(c, ops, i).Heavy?
    requires forall k :: i < k < n ==> !MoveAt(c, ops, k).Severe?
    ensures At(c, ops, n).nextDecreaseMs >= SaturatingAdd(TimeOf(ops[i]), 250)
  {
    hide Apply, MoveOf;
    TimerStep(At(c, ops, i), ops[i]);
    TimerStep(At(c, ops, n - 1), ops[n - 1]);
    if n > i + 1 {
      HeavyHorizon(c, ops, i, n - 1);
      assert !MoveAt(c, ops, n - 1).Severe?;
    }
  }

  predicate Lifts(c: Controller, ops: seq<Op>, k: nat)
    requires k < |ops|
  {
    MoveAt(c, ops, k).Raise? || ops[k].SetCurrent? || ops[k].Restart?
  }

  /** Two severe drops always have a raise or an outside bitrate change between them. */
  lemma {:induction false} SevereNeedsLift(c: Controller, ops: seq<Op>, i: nat, j: nat)
    requires WithinLimits(c) && i < j < |ops|
    ensures MoveAt(c, ops, i).Severe? && MoveAt(c, ops, j).Severe? ==> exists k :: i < k < j && Lifts(c, ops, k)
  {
    hide Apply, MoveOf;
    if MoveAt(c, ops, i).Severe? && forall k :: i < k < j ==> !Lifts(c, ops, k) {
      StaysOnFloor(c, ops, i, j);
      SevereLeavesHeight(At(c, ops, j), ops[j]);
    }
  }

  lemma SevereLeavesHeight(c: Controller, op: Op)
    ensures MoveOf(c, op).Severe? ==> c.internalBps > c.config.minBps && Apply(c, op).internalBps == c.config.minBps
  {
  }

  lemma {:induction false} StaysOnFloor(c: Controller, ops: seq<Op>, i: nat, n: nat)
    requires WithinLimits(c) && i < n <= |ops|
    ensures MoveAt(c, ops, i).Severe? && (forall k :: i < k < n ==> !Lifts(c, ops, k)) ==>
              At(c, ops, n).internalBps == At(c, ops, n).config.minBps
  {
    hide Apply, MoveOf;
    SevereLeavesHeight(At(c, ops, i), ops[i]);
    LimitsKept(c, ops, n);
    LimitsKept(c, ops, n - 1);
    if n > i + 1 {
      StaysOnFloor(c, ops, i, n - 1);
      if !Lifts(c, ops, n - 1) { StepGrowth(At(c, ops, n - 1), ops[n - 1]); }
    }
  }

  // Masking of lone spikes

  /** The averages and jitters the masking argument rests on stay non-negative. */
  predicate Sane(l: Learned) {
    l.sendBufferAverage >= 0.0 && l.sendBufferJitter >= 0.0 && l.rttAverage >= 0.0 && l.rttJitter >= 0.0
  }

  lemma MeasuredSane(l: Learned, srt: SrtCapacity)
    requires Sane(l)
    ensures Sane(Measured(l, srt))
  {
  }

  /** Below saturation an integer sample exceeds a truncated threshold exactly when it exceeds the real one. */
  lemma Truncation(x: U32, v: real)
    ensures v >= 0.0 && x > ToU32(v) ==> x as real > v
    ensures v < U32_MAX as real && x as real > v && v >= 0.0 ==> x > ToU32(v)
    ensures v <= 0.0 ==> ToU32(v) == 0
  {
  }

  lemma DepthMask(l: Learned, srt: SrtCapacity)
    requires Sane(l)
    requires srt.sendBufferPackets > QueueSevere(Measured(l, srt))
    ensures l.previousSendBuffer as real > 0.76 * srt.sendBufferPackets as real
  {
    var m := Measured(l, srt);
    MeasuredSane(l, srt);
    Truncation(srt.sendBufferPackets, (m.sendBufferAverage + m.sendBufferJitter) * 4.0);
  }

  lemma RttMask(l: Learned, srt: SrtCapacity)
    requires Sane(l)
    requires srt.rttMs > RttDecreaseAbove(Measured(l, srt))
    ensures 4.0 * l.previousRttMs as real > 3.0 * srt.rttMs as real + Measured(l, srt).rttAverage
    ensures l.previousRttMs as real > Measured(l, srt).rttAverage
  {
    var m := Measured(l, srt);
    MeasuredSane(l, srt);
    Truncation(srt.rttMs, m.rttAverage + RealMax(m.rttJitter * 4.0, m.rttAverage * 0.15));
  }

  predicate Processes(c: Controller, op: Op) {
    op.Tick? && !op.sample.allLinksDown && Fresh(c, op.sample.srt)
  }

  /** Operation `i` processed a sample, and none was processed and no reset happened from there to `n`. */
  predicate LastProcessed(c: Controller, ops: seq<Op>, i: nat, n: nat)
    requires i < n <= |ops|
  {
    && Processes(At(c, ops, i), ops[i])
    && forall k :: i < k < n ==> !Processes(At(c, ops, k), ops[k]) && !ops[k].Restart?
  }

  predicate Begins(ops: seq<Op>, r: nat)
    requires r <= |ops|
  {
    r == 0 || ops[r - 1].Restart?
  }

  /** No sample processed since the run began, or since the last reset in it. */
  predicate NoneProcessed(c: Controller, ops: seq<Op>, n: nat)
    requires n <= |ops|
  {
    exists r: nat :: r <= n && Begins(ops, r) && forall k :: r <= k < n ==> !Processes(At(c, ops, k), ops[k])
  }

  lemma {:induction false} LearnedSane(c: Controller, ops: seq<Op>, n: nat)
    requires n <= |ops| && Sane(c.learned)
    ensures Sane(At(c, ops, n).learned)
  {
    if n > 0 {
      LearnedSane(c, ops, n - 1);
      LearnedStep(At(c, ops, n - 1), ops[n - 1]);
      if Processes(At(c, ops, n - 1), ops[n - 1]) {
        MeasuredSane(At(c, ops, n - 1).learned, ops[n - 1].sample.srt);
      }
    }
  }

  lemma LearnedStep(c: Controller, op: Op)
    ensures Processes(c, op) ==> Apply(c, op).learned == Measured(c.learned, op.sample.srt)
    ensures op.Restart? ==> Apply(c, op).learned == UNLEARNED
    ensures !Processes(c, op) && !op.Restart? ==> Apply(c, op).learned == c.learned
  {
  }

  lemma {:induction false} RemembersLast(c: Controller, ops: seq<Op>, i: nat, n: nat)
    requires i < n <= |ops| && LastProcessed(c, ops, i, n)
    ensures At(c, ops, n).learned.previousSendBuffer == ops[i].sample.srt.sendBufferPackets
    ensures At(c, ops, n).learned.previousRttMs == ops[i].sample.srt.rttMs
  {
    hide Apply;
    LearnedStep(At(c, ops, n - 1), ops[n - 1]);
    if n > i + 1 {
      RemembersLast(c, ops, i, n - 1);
    }
  }

  lemma {:induction false} UntouchedSince(c: Controller, ops: seq<Op>, r: nat, n: nat)
    requires r <= n <= |ops|
    requires if r == 0 then c.learned == UNLEARNED else ops[r - 1].Restart?
    requires forall k :: r <= k < n ==> !Processes(At(c, ops, k), ops[k])
    ensures At(c, ops, n).learned == UNLEARNED
  {
    if n > 0 {
      LearnedStep(At(c, ops, n - 1), ops[n - 1]);
      if n > r { UntouchedSince(c, ops, r, n - 1); }
    }
  }

  /** Queue depth alone is severe only if the previously processed depth was already above 76 % of it. */
  lemma SevereDepthNeedsTwo(c: Controller, ops: seq<Op>, i: nat, n: nat)
    requires Sane(c.learned) && i < n < |ops| && LastProcessed(c, ops, i, n)
    ensures Processes(At(c, ops, n), ops[n])
            && SevereByDepth(Observed(At(c, ops, n), ops[n].sample.srt), ops[n].sample.srt) ==>
              ops[i].sample.srt.sendBufferPackets as real > 0.76 * ops[n].sample.srt.sendBufferPackets as real
  {
    hide At;
    LearnedSane(c, ops, n);
    RemembersLast(c, ops, i, n);
    if Processes(At(c, ops, n), ops[n])
       && SevereByDepth(Observed(At(c, ops, n), ops[n].sample.srt), ops[n].sample.srt) {
      DepthMask(At(c, ops, n).learned, ops[n].sample.srt);
    }
  }

  /** A lone RTT spike is never light congestion: the RTT before it was already above the new average. */
  lemma LightRttNeedsTwo(c: Controller, ops: seq<Op>, i: nat, n: nat)
    requires Sane(c.learned) && i < n < |ops| && LastProcessed(c, ops, i, n)
    ensures Processes(At(c, ops, n), ops[n])
            && LightByRtt(Observed(At(c, ops, n), ops[n].sample.srt), ops[n].sample.srt) ==>
              var average := Measured(At(c, ops, n).learned, ops[n].sample.srt).rttAverage;
              var previous := ops[i].sample.srt.rttMs as real;
              previous > (3.0 * ops[n].sample.srt.rttMs as real + average) / 4.0 && previous > average
  {
    hide At;
    LearnedSane(c, ops, n);
    RemembersLast(c, ops, i, n);
    if Processes(At(c, ops, n), ops[n])
       && LightByRtt(Observed(At(c, ops, n), ops[n].sample.srt), ops[n].sample.srt) {
      RttMask(At(c, ops, n).learned, ops[n].sample.srt);
    }
  }

  /** The first sample after a start or a reset is neither severe by depth nor light by RTT. */
  lemma FirstSampleMasked(c: Controller, ops: seq<Op>, n: nat)
    requires c.learned == UNLEARNED && n < |ops| && NoneProcessed(c, ops, n)
    requires ops[n].Tick?
    ensures var m := Observed(At(c, ops, n), ops[n].sample.srt);
            !SevereByDepth(m, ops[n].sample.srt) && !LightByRtt(m, ops[n].sample.srt)
  {
    hide Apply, MoveOf;
    var r: nat :| r <= n && Begins(ops, r) && forall k :: r <= k < n ==> !Processes(At(c, ops, k), ops[k]);
    UntouchedSince(c, ops, r, n);
    var srt := ops[n].sample.srt;
    if SevereByDepth(Observed(At(c, ops, n), srt), srt) {
      DepthMask(UNLEARNED, srt);
    }
    var m := Measured(UNLEARNED, srt);
    if srt.rttMs > RttDecreaseAbove(m) {
      Truncation(srt.rttMs, m.rttAverage + RealMax(m.rttJitter * 4.0, m.rttAverage * 0.15));
    }
  }
}
