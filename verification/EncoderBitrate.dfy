/**
  The output's hold on a shared encoder's bitrate (plugin/srtla-output.cpp): a start saves and
  overrides it, the ABR worker and live control calls rewrite it, and every way out puts it back.
  The functions say what each section under `bitrate_mutex` does, the class runs those sections
  on its own fields, and a transition system interleaves them.
 */
module EncoderBitrate {
  import opened Words

  const MIN_VIDEO_KBPS := 500
  const MAX_MANUAL_KBPS := 100_000
  const ABSOLUTE_MAX_KBPS := 30_000

  type Int32 = x: int | -0x8000_0000 <= x < 0x8000_0000
  type Int64 = x: int | -0x8000_0000_0000_0000 <= x < 0x8000_0000_0000_0000

  predicate FitsInt32(x: int) {
    -0x8000_0000 <= x < 0x8000_0000
  }

  /** A cast to a 32-bit int keeps the low 32 bits. */
  function ToInt32(x: int): (r: Int32)
    ensures r == x <==> FitsInt32(x)
  {
    (x + 0x8000_0000) % 0x1_0000_0000 - 0x8000_0000
  }

  function Bounded(x: int, low: Int32, high: Int32): (r: Int32)
    requires low <= high
    ensures low <= r <= high && (low <= x <= high ==> r == x)
    ensures (x <= low ==> r == low) && (x >= high ==> r == high)
  {
    if x < low then low else if x > high then high else x
  }

  /** What one call finds when it asks for the video encoder and then for its settings. */
  datatype Access = Absent | Unreadable(dynamic: bool) | Readable(dynamic: bool)

  predicate Dynamic(a: Access) {
    !a.Absent? && a.dynamic
  }

  /** The encoder's bitrate setting and the output's fields about it. */
  datatype Rates = Rates(
    encoderKbps: Int64,
    overridden: bool,
    originalKbps: Int32,
    auto: bool,
    manualKbps: Int32,
    minKbps: Int32,
    maxKbps: Int32,
    running: bool)

  predicate Configured(r: Rates) {
    MIN_VIDEO_KBPS <= r.minKbps <= r.maxKbps <= ABSOLUTE_MAX_KBPS
  }

  function Restored(r: Rates, a: Access): Rates {
    if !r.overridden then r
    else r.(overridden := false, encoderKbps := if a.Readable? then r.originalKbps else r.encoderKbps)
  }

  function Overrode(r: Rates, a: Access): Rates {
    if !a.Readable? then r
    else r.(overridden := true,
            originalKbps := if r.overridden then r.originalKbps else ToInt32(r.encoderKbps),
            encoderKbps := if r.auto then r.encoderKbps else r.manualKbps)
  }

  /** Automatic mode is given up for an encoder whose bitrate cannot change while it runs. */
  function FellBack(r: Rates, a: Access): Rates {
    if !a.Absent? && !a.dynamic then r.(auto := false) else r
  }

  function StartWritten(r: Rates, activeKbps: Int32, a: Access): Rates {
    if a.Readable? then r.(encoderKbps := activeKbps) else r
  }

  function AbrWritten(r: Rates, appliedBps: U64, a: Access): Rates {
    var target := ToInt32(appliedBps / 1000);
    if r.auto && a.Readable? && a.dynamic && target > 0 then r.(encoderKbps := target) else r
  }

  /** Why a control call is refused, or zero. */
  function ControlRefusal(r: Rates, a: Access): int {
    if r.running && !Dynamic(a) then -2 else if a.Unreadable? then -3 else 0
  }

  function Controlled(r: Rates, automatic: bool, manualKbps: Int32, a: Access): Rates {
    var manual := Bounded(manualKbps, MIN_VIDEO_KBPS, MAX_MANUAL_KBPS);
    if ControlRefusal(r, a) != 0 then r
    else r.(auto := automatic, manualKbps := manual,
            encoderKbps := if a.Absent? || automatic then r.encoderKbps else manual)
  }

  function CapRefusal(r: Rates, a: Access): int {
    if r.running && r.auto then (if !Dynamic(a) then -2 else if a.Unreadable? then -3 else 0) else 0
  }

  function Capped(r: Rates, maxKbps: Int32, a: Access, engineTakes: bool): Rates
    requires Configured(r)
  {
    var maximum := Bounded(maxKbps, r.minKbps, ABSOLUTE_MAX_KBPS);
    if CapRefusal(r, a) != 0 || !engineTakes then r
    else if !(r.running && r.auto) then r.(maxKbps := maximum)
    else
      var active := ToInt32(r.encoderKbps);
      r.(maxKbps := maximum, encoderKbps := if active <= 0 || active > maximum then maximum else active)
  }

  /** The codes: -2 for a running output without a dynamic encoder, -3 for unreadable settings that are needed. */
  lemma RefusalCodes(r: Rates, a: Access)
    ensures var fixed := a.Absent? || !a.dynamic;
            && (ControlRefusal(r, a) == -2 <==> r.running && fixed)
            && (ControlRefusal(r, a) == -3 <==> a.Unreadable? && !(r.running && fixed))
            && (ControlRefusal(r, a) == 0 <==> (a.Absent? && !r.running) || (a.Readable? && (r.running ==> a.dynamic)))
            && (CapRefusal(r, a) == -2 <==> r.running && r.auto && fixed)
            && (CapRefusal(r, a) == -3 <==> r.running && r.auto && a.Unreadable? && a.dynamic)
            && (CapRefusal(r, a) == 0 <==> !(r.running && r.auto) || (a.Readable? && a.dynamic))
  {
  }

  /** An accepted switch is remembered: the mode, and the manual rate within 500 and 100000, for later starts. */
  lemma SwitchRemembered(r: Rates, automatic: bool, manualKbps: Int32, a: Access)
    requires (a.Absent? && !r.running) || (a.Readable? && (r.running ==> a.dynamic))
    ensures var u := Controlled(r, automatic, manualKbps, a);
            && u.auto == automatic
            && u.manualKbps == (if manualKbps < 500 then 500 else if manualKbps > 100_000 then 100_000 else manualKbps)
            && u == r.(auto := u.auto, manualKbps := u.manualKbps, encoderKbps := u.encoderKbps)
  {
  }

  /** So is an accepted ceiling, within the configured minimum and 30000; a live automatic encoder is cut to it. */
  lemma CeilingRemembered(r: Rates, maxKbps: Int32, a: Access)
    requires Configured(r) && (r.running && r.auto ==> a.Readable? && a.dynamic)
    ensures var u := Capped(r, maxKbps, a, true);
            && u.maxKbps == (if maxKbps < r.minKbps then r.minKbps else if maxKbps > 30_000 then 30_000 else maxKbps)
            && u == r.(maxKbps := u.maxKbps, encoderKbps := u.encoderKbps)
            && (!(r.running && r.auto) ==> u.encoderKbps == r.encoderKbps)
            && (r.running && r.auto && 0 < r.encoderKbps <= u.maxKbps ==> u.encoderKbps == r.encoderKbps)
            && (r.running && r.auto && u.maxKbps < r.encoderKbps < 0x8000_0000 ==> u.encoderKbps == u.maxKbps)
  {
  }

  /** The original is saved once: until it is put back, overriding again does not touch it. */
  lemma SavedOnce(r: Rates, a: Access)
    ensures r.overridden ==> Overrode(r, a).overridden && Overrode(r, a).originalKbps == r.originalKbps
    ensures !r.overridden && a.Readable? ==> Overrode(r, a).originalKbps == ToInt32(r.encoderKbps)
    ensures Overrode(r, a).overridden <==> r.overridden || a.Readable?
  {
  }

  class OutputBitrate {
    var encoderKbps: Int64
    var overridden: bool
    var originalKbps: Int32
    var auto: bool
    var manualKbps: Int32
    var minKbps: Int32
    var maxKbps: Int32
    var running: bool

    ghost function View(): Rates
      reads this
    {
      Rates(encoderKbps, overridden, originalKbps, auto, manualKbps, minKbps, maxKbps, running)
    }

    constructor (encoderKbps: Int64, auto: bool, manualKbps: Int32, minKbps: Int32, maxKbps: Int32)
      ensures View() == Rates(encoderKbps, false, 0, auto, manualKbps, minKbps, maxKbps, false)
    {
      this.encoderKbps, overridden, originalKbps := encoderKbps, false, 0;
      this.auto, this.manualKbps := auto, manualKbps;
      this.minKbps, this.maxKbps, running := minKbps, maxKbps, false;
    }

    method RestoreSharedBitrate(a: Access)
      modifies this
      ensures View() == Restored(old(View()), a)
    {
      if !overridden {
        return;
      }
      if a.Readable? {
        encoderKbps := originalKbps;
      }
      overridden := false;
    }

    method ApplyManualBitrate(a: Access)
      modifies this
      ensures View() == Overrode(old(View()), a)
    {
      if a.Readable? {
        if !overridden {
          originalKbps := ToInt32(encoderKbps);
        }
        if !auto {
          encoderKbps := manualKbps;
        }
        overridden := true;
      }
    }

    method GiveUpAutomatic(a: Access)
      modifies this`auto
      ensures View() == if old(auto) then FellBack(old(View()), a) else old(View())
    {
      if auto && !a.Absent? && !a.dynamic {
        auto := false;
      }
    }

    method WriteFirstBitrate(activeKbps: Int32, a: Access)
      modifies this`encoderKbps
      ensures View() == StartWritten(old(View()), activeKbps, a)
    {
      if a.Readable? && encoderKbps != activeKbps {
        encoderKbps := activeKbps;
      }
    }

    method WriteAbrBitrate(appliedBps: U64, a: Access)
      modifies this`encoderKbps
      ensures View() == AbrWritten(old(View()), appliedBps, a)
    {
      if !auto || !Dynamic(a) {
        return;
      }
      if a.Readable? {
        var targetKbps := ToInt32(appliedBps / 1000);
        if targetKbps > 0 && encoderKbps != targetKbps {
          encoderKbps := targetKbps;
        }
      }
    }

    /**
      Switches between automatic and manual mode. `engineBps` is the rate handed to the engine,
      which answers `engineCode`.
     */
    method SetBitrateControl(automatic: bool, manualKbps: Int32, a: Access, engineCode: int)
        returns (rc: int, engineBps: Option<U64>)
      modifies this
      ensures View() == Controlled(old(View()), automatic, manualKbps, a)
      ensures ControlRefusal(old(View()), a) != 0 ==> rc == ControlRefusal(old(View()), a) && engineBps == None
      ensures ControlRefusal(old(View()), a) == 0 ==>
                var active := if a.Readable? then ToInt32(encoderKbps) else this.manualKbps;
                rc == engineCode && engineBps == Some((if active > 1 then active else 1) * 1000)
    {
      var manual := Bounded(manualKbps, MIN_VIDEO_KBPS, MAX_MANUAL_KBPS);
      if running && !Dynamic(a) {
        return -2, None;
      }
      var active: Int32 := manual;
      if !a.Absent? {
        if a.Unreadable? {
          return -3, None;
        }
        if automatic {
          active := ToInt32(encoderKbps);
        } else if encoderKbps != manual {
          encoderKbps := manual;
        }
      }
      this.manualKbps := manual;
      auto := automatic;
      return engineCode, Some((if active > 1 then active else 1) * 1000);
    }

    /**
      Moves the automatic ceiling; a live automatic stream above it is cut down to it at once,
      and the engine is told the rate the encoder now has.
     */
    method SetMaxBitrate(maxKbps: Int32, a: Access, ceilingCode: int, videoCode: int)
        returns (rc: int, engineBps: Option<U64>)
      requires Configured(View())
      modifies this
      ensures Configured(View()) && View() == Capped(old(View()), maxKbps, a, ceilingCode == 0)
      ensures CapRefusal(old(View()), a) != 0 ==> rc == CapRefusal(old(View()), a)
      ensures CapRefusal(old(View()), a) == 0 && ceilingCode != 0 ==> rc == ceilingCode
      ensures CapRefusal(old(View()), a) == 0 && ceilingCode == 0 ==> rc == if running && auto then videoCode else 0
      ensures engineBps.Some? <==> CapRefusal(old(View()), a) == 0 && ceilingCode == 0 && running && auto
      ensures engineBps.Some? ==> 0 < encoderKbps <= this.maxKbps && engineBps.value == encoderKbps * 1000
    {
      var maximum := Bounded(maxKbps, minKbps, ABSOLUTE_MAX_KBPS);
      var live := running && auto;
      var active: Int32 := maximum;
      if live {
        if !Dynamic(a) {
          return -2, None;
        }
        if a.Unreadable? {
          return -3, None;
        }
        active := ToInt32(encoderKbps);
        if active <= 0 {
          active := maximum;
        }
      }
      if ceilingCode != 0 {
        return ceilingCode, None;
      }
      this.maxKbps := maximum;
      if live {
        if active > maximum {
          active := maximum;
        }
        if encoderKbps != active {
          encoderKbps := active;
        }
        return videoCode, Some(active * 1000);
      }
      return 0, None;
    }
  }

  // Interleavings

  /** Where the start or stop in progress stands (plugin/srtla-output.cpp:785-974). */
  datatype Phase =
    | Idle
    | Starting                                  // nothing about the bitrate done yet
    | Adjusted                                  // automatic mode checked against the encoder
    | Taken                                     // original saved
    | Picked(activeKbps: Int32)                 // first rate picked
    | Committed(activeKbps: Int32, write: bool) // about to write it, or not
    | Primed                                    // first rate written
    | Live
    | Halting                                   // running cleared, ABR worker not yet joined
    | Leaving                                   // only the restore remains

  /** `computed` is an ABR rate the worker has from the engine and not yet written. */
  datatype State = State(rates: Rates, phase: Phase, abrAlive: bool, computed: Option<U64>)

  datatype Event =
    | Begin | GiveUp | CheckCaps(a: Access) | Take(a: Access) | Choose | Commit | FirstWrite(a: Access)
    | FailPrimed | Launch | SpawnAbr | Halt | AbrExit | JoinAbr | Restore(a: Access)
    | Compute(bps: U64) | AbrWrite(a: Access)
    | SetControl(automatic: bool, manualKbps: Int32, a: Access)
    | SetMax(maxKbps: Int32, a: Access, engineTakes: bool)
    | Configure(auto: bool, manualKbps: Int32, minKbps: Int32, maxKbps: Int32)

  predicate Init(s: State) {
    && !s.rates.overridden && !s.rates.running && Configured(s.rates)
    && s.phase.Idle? && !s.abrAlive && s.computed.None?
  }

  predicate Enabled(s: State, e: Event) {
    match e
    case Begin => s.phase.Idle?
    case GiveUp => s.phase.Starting?
    case CheckCaps(_) => s.phase.Starting?
    case Take(_) => s.phase.Adjusted?
    case Choose => s.phase.Taken?
    case Commit => s.phase.Picked?
    case FirstWrite(_) => s.phase.Committed?
    case FailPrimed => s.phase.Primed?
    case Launch => s.phase.Primed?
    case SpawnAbr => s.phase.Live? && !s.abrAlive
    case Halt => s.phase.Live? || s.phase.Idle?
    case AbrExit => s.phase.Halting? && s.abrAlive && s.computed.None?
    case JoinAbr => s.phase.Halting? && !s.abrAlive
    case Restore(_) => s.phase.Leaving?
    case Compute(bps) => s.abrAlive && s.computed.None? && bps > 0
    case AbrWrite(_) => s.computed.Some?
    case SetControl(_, _, _) => true
    case SetMax(_, _, _) => Configured(s.rates)
    case Configure(_, manual, min, max) =>
      !s.rates.running && MIN_VIDEO_KBPS <= manual <= MAX_MANUAL_KBPS
      && MIN_VIDEO_KBPS <= min <= max <= ABSOLUTE_MAX_KBPS
  }

  function Apply(s: State, e: Event): State
    requires Enabled(s, e)
  {
    match e
    case Begin => s.(phase := Starting, rates := s.rates.(running := false))
    case GiveUp => s.(phase := Idle)
    case CheckCaps(a) => s.(phase := Adjusted, rates := if s.rates.auto then FellBack(s.rates, a) else s.rates)
    case Take(a) => s.(phase := Taken, rates := Overrode(s.rates, a))
    case Choose => s.(phase := Picked(if s.rates.auto then s.rates.maxKbps else s.rates.manualKbps))
    case Commit => s.(phase := Committed(s.phase.activeKbps, s.rates.auto))
    case FirstWrite(a) =>
      s.(phase := Primed,
         rates := if s.phase.write then StartWritten(s.rates, s.phase.activeKbps, a) else s.rates)
    case FailPrimed => s.(phase := Leaving)
    case Launch => s.(phase := Live, rates := s.rates.(running := true))
    case SpawnAbr => s.(abrAlive := true)
    case Halt => s.(phase := Halting, rates := s.rates.(running := false))
    case AbrExit => s.(abrAlive := false)
    case JoinAbr => s.(phase := Leaving)
    case Restore(a) => s.(phase := Idle, rates := Restored(s.rates, a))
    case Compute(bps) => s.(computed := Some(bps))
    case AbrWrite(a) => s.(computed := None, rates := AbrWritten(s.rates, s.computed.value, a))
    case SetControl(automatic, manual, a) => s.(rates := Controlled(s.rates, automatic, manual, a))
    case SetMax(max, a, takes) => s.(rates := Capped(s.rates, max, a, takes))
    case Configure(auto, manual, min, max) =>
      s.(rates := s.rates.(auto := auto, manualKbps := manual, minKbps := min, maxKbps := max))
  }

  ghost predicate Behavior(ss: seq<State>, es: seq<Event>) {
    && |ss| == |es| + 1 && Init(ss[0])
    && forall i :: 0 <= i < |es| ==> Enabled(ss[i], es[i]) && ss[i + 1] == Apply(ss[i], es[i])
  }

  /** In these phases the output has touched the encoder, or is about to. */
  predicate Holding(p: Phase) {
    p.Taken? || p.Picked? || p.Committed? || p.Primed? || p.Live?
  }

  /** The encoder's settings can be read when the original is saved and when it is put back. */
  predicate Legible(e: Event) {
    e.Take? || e.Restore? ==> e.a.Readable?
  }

  /** A mode switch that writes a manual rate to the encoder while no original is saved. */
  predicate Rehomes(s: State, e: Event) {
    e.SetControl? && !e.automatic && !e.a.Absent? && ControlRefusal(s.rates, e.a) == 0 && !s.rates.overridden
  }

  /** The rate the last such switch between `i` and `n` wrote, or the one the encoder had at `i`. */
  ghost function Chosen(ss: seq<State>, es: seq<Event>, i: nat, n: nat): int
    requires i <= n <= |es| && |ss| == |es| + 1
  {
    if n == i then ss[i].rates.encoderKbps
    else if Rehomes(ss[n - 1], es[n - 1]) then Bounded(es[n - 1].manualKbps, MIN_VIDEO_KBPS, MAX_MANUAL_KBPS)
    else Chosen(ss, es, i, n - 1)
  }

  ghost predicate Saves(es: seq<Event>, i: nat, n: nat)
    requires i <= n <= |es|
  {
    exists k :: i <= k < n && es[k].Take?
  }

  /** That rate as it comes through the 32-bit field, if it went through it. */
  ghost function Home(ss: seq<State>, es: seq<Event>, i: nat, n: nat): int
    requires i <= n <= |es| && |ss| == |es| + 1
  {
    if Saves(es, i, n) then ToInt32(Chosen(ss, es, i, n)) else Chosen(ss, es, i, n)
  }

  /** What every reachable state keeps about the control flow, whatever the reads returned. */
  predicate Flow(s: State) {
    && (s.phase.Idle? || s.phase.Starting? || s.phase.Adjusted? ==> !s.rates.overridden)
    && (s.rates.running <==> s.phase.Live?)
    && (s.computed.Some? ==> s.abrAlive)
    && (s.abrAlive ==> s.phase.Live? || s.phase.Halting?)
    && Configured(s.rates)
  }

  /** `home` is safe: either it is saved, or the encoder still has it. */
  predicate Safe(s: State, home: int) {
    && (if s.rates.overridden then s.rates.originalKbps == home else s.rates.encoderKbps == home)
    && (Holding(s.phase) || s.abrAlive ==> s.rates.overridden)
  }

  lemma FlowStep(s: State, e: Event)
    requires Flow(s) && Enabled(s, e)
    ensures Flow(Apply(s, e))
  {
  }

  lemma {:induction false} FlowRun(ss: seq<State>, es: seq<Event>, n: nat)
    requires Behavior(ss, es) && n <= |es|
    ensures Flow(ss[n])
  {
    if n > 0 {
      FlowRun(ss, es, n - 1);
      FlowStep(ss[n - 1], es[n - 1]);
    }
  }

  lemma SafeStep(s: State, e: Event, home: int)
    requires Flow(s) && Safe(s, home) && Enabled(s, e) && Legible(e)
    ensures Safe(Apply(s, e), if e.Take? then ToInt32(home)
                              else if Rehomes(s, e) then Bounded(e.manualKbps, MIN_VIDEO_KBPS, MAX_MANUAL_KBPS)
                              else home)
  {
  }

  lemma {:induction false} ChosenFits(ss: seq<State>, es: seq<Event>, i: nat, n: nat)
    requires i <= n <= |es| && |ss| == |es| + 1
    ensures Chosen(ss, es, i, n) == ss[i].rates.encoderKbps || FitsInt32(Chosen(ss, es, i, n))
  {
    if n > i { ChosenFits(ss, es, i, n - 1); }
  }

  lemma HomeStep(ss: seq<State>, es: seq<Event>, i: nat, n: nat)
    requires i < n <= |es| && |ss| == |es| + 1
    ensures Home(ss, es, i, n) ==
            if es[n - 1].Take? then ToInt32(Home(ss, es, i, n - 1))
            else if Rehomes(ss[n - 1], es[n - 1]) then Bounded(es[n - 1].manualKbps, MIN_VIDEO_KBPS, MAX_MANUAL_KBPS)
            else Home(ss, es, i, n - 1)
  {
    assert Saves(es, i, n) <==> Saves(es, i, n - 1) || es[n - 1].Take?;
  }

  lemma {:induction false} SafeRun(ss: seq<State>, es: seq<Event>, i: nat, n: nat)
    requires Behavior(ss, es) && i <= n <= |es| && ss[i].phase.Idle?
    requires forall k :: i <= k < n ==> Legible(es[k])
    ensures Safe(ss[n], Home(ss, es, i, n))
  {
    hide Apply, Enabled, Home;
    FlowRun(ss, es, if n > i then n - 1 else n);
    if n > i {
      SafeRun(ss, es, i, n - 1);
      HomeStep(ss, es, i, n);
      SafeStep(ss[n - 1], es[n - 1], Home(ss, es, i, n - 1));
    } else {
      HomeStart(ss, es, i);
    }
  }

  lemma HomeStart(ss: seq<State>, es: seq<Event>, i: nat)
    requires i <= |es| && |ss| == |es| + 1
    ensures Home(ss, es, i, i) == ss[i].rates.encoderKbps
  {
  }

  /**
    From any idle moment to any later one, over any number of starts, failed starts and stops and
    whatever the ABR worker and the control calls wrote meanwhile, the encoder ends at the rate the
    last manual switch outside a save chose, or at the rate it had.
   */
  lemma NeverDrifts(ss: seq<State>, es: seq<Event>, i: nat, n: nat)
    requires Behavior(ss, es) && i <= n <= |es| && ss[i].phase.Idle? && ss[n].phase.Idle?
    requires forall k :: i <= k < n ==> Legible(es[k])
    ensures ss[n].rates.encoderKbps ==
            if Saves(es, i, n) then ToInt32(Chosen(ss, es, i, n)) else Chosen(ss, es, i, n)
  {
    hide Apply, Enabled;
    SafeRun(ss, es, i, n);
    FlowRun(ss, es, n);
  }

  /**
    So the encoder is back at the bitrate it had exactly when no manual switch outside a save chose
    another one, and the value fits the 32-bit field it is saved in or was never saved.
   */
  lemma RestoredExactly(ss: seq<State>, es: seq<Event>, i: nat, n: nat)
    requires Behavior(ss, es) && i <= n <= |es| && ss[i].phase.Idle? && ss[n].phase.Idle?
    requires forall k :: i <= k < n ==> Legible(es[k])
    ensures ss[n].rates.encoderKbps == ss[i].rates.encoderKbps <==>
              && Chosen(ss, es, i, n) == ss[i].rates.encoderKbps
              && (FitsInt32(ss[i].rates.encoderKbps) || !Saves(es, i, n))
  {
    hide Apply, Enabled, Saves, Chosen;
    NeverDrifts(ss, es, i, n);
    ChosenFits(ss, es, i, n);
  }

  // Rounds in which the settings could not be read

  /** The rate an event writes to the encoder, the restore apart. */
  function Writes(s: State, e: Event): Option<Int64>
    requires Enabled(s, e)
  {
    match e
    case Take(a) => if a.Readable? && !s.rates.auto then Some(s.rates.manualKbps) else None
    case FirstWrite(a) => if a.Readable? && s.phase.write then Some(s.phase.activeKbps) else None
    case AbrWrite(a) =>
      var target := ToInt32(s.computed.value / 1000);
      if s.rates.auto && a.Readable? && a.dynamic && target > 0 then Some(target) else None
    case SetControl(automatic, manual, a) =>
      if a.Readable? && !automatic && (s.rates.running ==> a.dynamic)
      then Some(Bounded(manual, MIN_VIDEO_KBPS, MAX_MANUAL_KBPS)) else None
    case SetMax(max, a, takes) =>
      if s.rates.running && s.rates.auto && a.Readable? && a.dynamic && takes then
        var maximum, active := Bounded(max, s.rates.minKbps, ABSOLUTE_MAX_KBPS), ToInt32(s.rates.encoderKbps);
        Some(if 0 < active <= maximum then active else maximum)
      else None
    case _ => None
  }

  lemma WriteStep(s: State, e: Event)
    requires Enabled(s, e)
    ensures Apply(s, e).rates.encoderKbps ==
            if e.Restore? && e.a.Readable? && s.rates.overridden then s.rates.originalKbps
            else if Writes(s, e).Some? then Writes(s, e).value
            else s.rates.encoderKbps
  {
  }

  /** The last rate written between `i` and `n`, or the one the encoder had at `i`. */
  ghost function LastRate(ss: seq<State>, es: seq<Event>, i: nat, n: nat): int
    requires Behavior(ss, es) && i <= n <= |es|
  {
    if n == i then ss[i].rates.encoderKbps
    else if Writes(ss[n - 1], es[n - 1]).Some? then Writes(ss[n - 1], es[n - 1]).value
    else LastRate(ss, es, i, n - 1)
  }

  /** From one idle moment to the next. */
  ghost predicate Round(ss: seq<State>, es: seq<Event>, i: nat, j: nat) {
    && Behavior(ss, es) && i < j <= |es| && ss[i].phase.Idle? && ss[j].phase.Idle?
    && (forall k :: i < k < j ==> !ss[k].phase.Idle?)
  }

  /** Some save between `i` and `n` found no settings. */
  ghost predicate Missed(es: seq<Event>, i: nat, n: nat)
    requires i <= n <= |es|
  {
    exists k :: i <= k < n && es[k].Take? && !es[k].a.Readable?
  }

  lemma MissStep(s: State, e: Event, missed: bool)
    requires Flow(s) && Enabled(s, e) && !Apply(s, e).phase.Idle?
    requires missed ==> !s.rates.overridden && !s.phase.Idle? && !s.phase.Starting? && !s.phase.Adjusted?
    ensures var t := Apply(s, e);
            missed || (e.Take? && !e.a.Readable?) ==>
              !t.rates.overridden && !t.phase.Idle? && !t.phase.Starting? && !t.phase.Adjusted?
  {
  }

  lemma {:induction false} MissRun(ss: seq<State>, es: seq<Event>, i: nat, j: nat, n: nat)
    requires Round(ss, es, i, j) && i <= n < j
    ensures var s := ss[n];
            Missed(es, i, n) ==> !s.rates.overridden && !s.phase.Idle? && !s.phase.Starting? && !s.phase.Adjusted?
  {
    hide Apply, Enabled;
    if n > i {
      MissRun(ss, es, i, j, n - 1);
      FlowRun(ss, es, n - 1);
      assert ss[n - 1 + 1] == Apply(ss[n - 1], es[n - 1]);
      MissStep(ss[n - 1], es[n - 1], Missed(es, i, n - 1));
      assert Missed(es, i, n) <==> Missed(es, i, n - 1) || (es[n - 1].Take? && !es[n - 1].a.Readable?);
    }
  }

  lemma RestoreGoesIdle(s: State, e: Event)
    requires Enabled(s, e) && e.Restore?
    ensures Apply(s, e).phase.Idle?
  {
  }

  lemma {:induction false} LastRateRun(ss: seq<State>, es: seq<Event>, i: nat, j: nat, n: nat)
    requires Round(ss, es, i, j) && i <= n < j
    ensures ss[n].rates.encoderKbps == LastRate(ss, es, i, n)
  {
    hide Apply, Enabled, Writes;
    if n > i {
      LastRateRun(ss, es, i, j, n - 1);
      assert ss[n - 1 + 1] == Apply(ss[n - 1], es[n - 1]);
      WriteStep(ss[n - 1], es[n - 1]);
      if es[n - 1].Restore? { RestoreGoesIdle(ss[n - 1], es[n - 1]); }
    }
  }

  /**
    A round whose save or restore found no settings ends at the last rate written in it, so it restores
    the bitrate exactly if that is the one it began with.
   */
  lemma UnreadableNotRestored(ss: seq<State>, es: seq<Event>, i: nat, j: nat)
    requires Round(ss, es, i, j)
    requires exists k :: i <= k < j && !Legible(es[k])
    ensures ss[j].rates.encoderKbps == LastRate(ss, es, i, j)
  {
    hide Apply, Enabled, Writes;
    var k :| i <= k < j && !Legible(es[k]);
    LastRateRun(ss, es, i, j, j - 1);
    MissRun(ss, es, i, j, j - 1);
    assert ss[j - 1 + 1] == Apply(ss[j - 1], es[j - 1]);
    WriteStep(ss[j - 1], es[j - 1]);
    if k < j - 1 {
      assert ss[k + 1] == Apply(ss[k], es[k]);
      if es[k].Restore? { RestoreGoesIdle(ss[k], es[k]); }
      assert Missed(es, i, j - 1);
    }
  }

  // The automatic ceiling

  /** The first rate of an undisturbed start is the ceiling in automatic mode, else the manual rate. */
  lemma FirstRate(s: State, save: Access, write: Access)
    requires s.phase.Adjusted? && save.Readable? && write.Readable?
    ensures var taken := Apply(s, Take(save));
            var committed := Apply(Apply(taken, Choose), Commit);
            Apply(committed, FirstWrite(write)).rates.encoderKbps ==
            if s.rates.auto then s.rates.maxKbps else s.rates.manualKbps
  {
    var picked := Apply(Apply(s, Take(save)), Choose);
    assert picked.phase == Picked(if s.rates.auto then s.rates.maxKbps else s.rates.manualKbps);
  }

  /** A live automatic stream under its ceiling, with no rate above it on the way to the encoder. */
  predicate UnderCeiling(s: State) {
    && s.phase.Live? && s.rates.auto
    && s.rates.encoderKbps <= s.rates.maxKbps
    && (s.computed.Some? ==> s.computed.value <= s.rates.maxKbps * 1000)
  }

  /** Everything but an engine rate above the ceiling, a switch to manual mode and an untimely ceiling. */
  predicate KeepsCeiling(s: State, e: Event)
    requires Configured(s.rates)
  {
    match e
    case Compute(bps) => bps <= s.rates.maxKbps * 1000
    case SetControl(automatic, _, a) => automatic || ControlRefusal(s.rates, a) != 0
    case SetMax(max, a, takes) =>
      CapRefusal(s.rates, a) == 0 && takes && s.computed.Some? ==>
        s.computed.value <= Bounded(max, s.rates.minKbps, ABSOLUTE_MAX_KBPS) * 1000
    case _ => true
  }

  lemma CeilingStep(s: State, e: Event)
    requires Flow(s) && UnderCeiling(s) && Enabled(s, e) && !e.Halt?
    ensures UnderCeiling(Apply(s, e)) <==> KeepsCeiling(s, e)
  {
  }

  /** A launch in automatic mode, or a switch of a live stream to it, with no rate above the ceiling. */
  predicate EntersCeiling(s: State, e: Event) {
    && s.rates.encoderKbps <= s.rates.maxKbps
    && (s.computed.Some? ==> s.computed.value <= s.rates.maxKbps * 1000)
    && ((e.Launch? && s.rates.auto)
        || (s.phase.Live? && e.SetControl? && e.automatic && ControlRefusal(s.rates, e.a) == 0))
  }

  /** That is exactly how a stream that is not live and automatic comes under its ceiling. */
  lemma CeilingEntry(s: State, e: Event)
    requires Flow(s) && Enabled(s, e) && !(s.phase.Live? && s.rates.auto)
    ensures UnderCeiling(Apply(s, e)) <==> EntersCeiling(s, e)
  {
  }

  /** A write of the worker, or a new ceiling, that leaves no rate above the ceiling. */
  predicate RegainsCeiling(s: State, e: Event)
    requires Enabled(s, e)
  {
    if e.AbrWrite? then
      (if Writes(s, e).Some? then Writes(s, e).value else s.rates.encoderKbps) <= s.rates.maxKbps
    else
      e.SetMax? && CapRefusal(s.rates, e.a) == 0 && e.engineTakes
      && (s.computed.Some? ==>
            s.computed.value <= Bounded(e.maxKbps, s.rates.minKbps, ABSOLUTE_MAX_KBPS) * 1000)
  }

  /** That is exactly how a live automatic stream above its ceiling comes back. */
  lemma CeilingRecovery(s: State, e: Event)
    requires Flow(s) && Enabled(s, e) && s.phase.Live? && s.rates.auto && !UnderCeiling(s)
    ensures UnderCeiling(Apply(s, e)) <==> RegainsCeiling(s, e)
  {
  }

  /** An automatic start without calls in between launches at the ceiling, whatever the encoder had. */
  lemma StartsUnderCeiling(s: State, save: Access, write: Access)
    requires Flow(s) && s.phase.Adjusted? && s.rates.auto && save.Readable? && write.Readable?
    ensures var committed := Apply(Apply(Apply(s, Take(save)), Choose), Commit);
            var live := Apply(Apply(committed, FirstWrite(write)), Launch);
            UnderCeiling(live) && live.rates.encoderKbps == live.rates.maxKbps
  {
    FirstRate(s, save, write);
  }

  /** A ceiling lowered between the choice of the first rate and its write is overrun by the launch. */
  lemma LaunchTopsCeiling(s: State, maxKbps: Int32, a: Access, write: Access)
    requires Flow(s) && s.phase.Picked? && s.rates.auto && write.Readable?
    ensures var lowered := Apply(s, SetMax(maxKbps, a, true));
            var live := Apply(Apply(Apply(lowered, Commit), FirstWrite(write)), Launch);
            && live.rates.encoderKbps == s.phase.activeKbps
            && live.rates.maxKbps == Bounded(maxKbps, s.rates.minKbps, ABSOLUTE_MAX_KBPS)
            && (UnderCeiling(live) <==> s.phase.activeKbps <= live.rates.maxKbps)
  {
  }

  /** The untimely case: the worker's rate, computed under the former ceiling, is written over the new one. */
  lemma StaleRateTopsCeiling(s: State, bps: U64, maxKbps: Int32, a: Access)
    requires Flow(s) && UnderCeiling(s) && s.abrAlive && s.computed.None? && a.Readable? && a.dynamic
    requires s.rates.minKbps <= maxKbps && (maxKbps + 1) * 1000 <= bps <= s.rates.maxKbps * 1000
    ensures var lowered := Apply(Apply(s, Compute(bps)), SetMax(maxKbps, a, true));
            && lowered.rates.encoderKbps <= lowered.rates.maxKbps == maxKbps
            && Apply(lowered, AbrWrite(a)).rates.encoderKbps == bps / 1000 > maxKbps
  {
  }

  // Both happen, from every idle state

  /** A start that fails after it has written its first rate. */
  function FailedStart(caps: Access, save: Access, write: Access, back: Access): seq<Event> {
    [Begin, CheckCaps(caps), Take(save), Choose, Commit, FirstWrite(write), FailPrimed, Restore(back)]
  }

  function FailedStates(s: State, caps: Access, save: Access, write: Access, back: Access): seq<State>
    requires s.phase.Idle? && !s.rates.running
  {
    var begun := s.(phase := Starting);
    var checked := Apply(begun, CheckCaps(caps));
    var taken := Apply(checked, Take(save));
    var picked := Apply(taken, Choose);
    var committed := Apply(picked, Commit);
    var primed := Apply(committed, FirstWrite(write));
    var leaving := primed.(phase := Leaving);
    [s, begun, checked, taken, picked, committed, primed, leaving, Apply(leaving, Restore(back))]
  }

  /** The last rate such a start writes. */
  function LastWritten(r: Rates, caps: Access, save: Access, write: Access): Int64 {
    if r.auto && (caps.Absent? || caps.dynamic) then (if write.Readable? then r.maxKbps else r.encoderKbps)
    else if save.Readable? then r.manualKbps else r.encoderKbps
  }

  lemma FailedStartRuns(s: State, caps: Access, save: Access, write: Access, back: Access)
    requires Init(s)
    ensures Behavior(FailedStates(s, caps, save, write, back), FailedStart(caps, save, write, back))
  {
    hide Overrode, FellBack, StartWritten, Restored, Configured;
  }

  /** Without readable settings at both the save and the restore, a failed start leaves the last rate it wrote. */
  lemma FailedStartEnds(s: State, caps: Access, save: Access, write: Access, back: Access)
    requires Init(s)
    ensures var ss, es := FailedStates(s, caps, save, write, back), FailedStart(caps, save, write, back);
            var last := LastWritten(s.rates, caps, save, write);
            && Behavior(ss, es) && ss[0] == s && ss[8].phase.Idle?
            && ss[8].rates.encoderKbps ==
               (if save.Readable? && back.Readable? then ToInt32(s.rates.encoderKbps) else last)
            && (ss[8].rates.encoderKbps == s.rates.encoderKbps <==>
                  if save.Readable? && back.Readable? then FitsInt32(s.rates.encoderKbps)
                  else last == s.rates.encoderKbps)
  {
    FailedStartRuns(s, caps, save, write, back);
  }

  /** A manual switch before the original is saved outlives the start. */
  lemma EarlySwitchStays(s: State, kbps: Int32, a: Access)
    requires Init(s) && a.Readable?
    ensures var begun := Apply(s, Begin);
            var switched := Apply(begun, SetControl(false, kbps, a));
            var ss, es := [s, begun, switched, switched.(phase := Idle)], [Begin, SetControl(false, kbps, a), GiveUp];
            && Behavior(ss, es)
            && ss[3].rates.encoderKbps == Bounded(kbps, MIN_VIDEO_KBPS, MAX_MANUAL_KBPS)
            && (ss[3].rates.encoderKbps == s.rates.encoderKbps <==>
                  s.rates.encoderKbps == Bounded(kbps, MIN_VIDEO_KBPS, MAX_MANUAL_KBPS))
  {
  }
}
