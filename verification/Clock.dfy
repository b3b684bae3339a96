/** The master clock: beam counters, DRAM refresh, timer IRQ, the NMI edge and the two HDMA schedules.
    Console.Core runs these one clock at a time; here they are values. */
module Clock {
  import opened Options

  datatype Fault =
    | SecondInit | SecondScanline | SchedulerMask                       // the scheduler
    | EnabledMask | HdmaConfig | HdmaNotReady                             // HDMA
    | DmaMask | SecondDma | DmaDirection | DmaMode                        // manual DMA
    | VramMapping | BusRead | BusWrite | DmaRegisterAccess                // the bus
    | EmulationMode | NestedInterrupt | ReturnWithoutFrame                // the CPU

  /** The beam position and the refresh of the current line. */
  datatype Beam = Beam(clock: int, h: int, v: int, field: int, frames: int,
                       refreshDone: bool, refreshH: int, refreshes: int, initH: int)

  datatype Irq = Irq(hold: int, line: bool, transition: bool, events: int)

  /** `raises` counts the edges raised; the program does not keep it. */
  datatype Nmi = Nmi(flag: bool, counter: int, pending: bool, polls: int, raises: int)

  /** What the proofs remember of HDMA, and the program does not keep: the clock of the last request, the transfers
      raised and taken since the frame's initialisation was raised, and whether HDMA has been enabled at each of
      these events and the guest has left the channel's pointer alone. */
  datatype Pace = Pace(since: int, due: int, taken: int, whole: bool)

  /** The pending HDMA events, the start-delay latch they share with manual DMA, and the machine's failure. */
  datatype Arbiter = Arbiter(initPending: bool, transferPending: bool, startDelay: bool, fault: Option<Fault>,
                             pace: Pace)

  /** What the guest has written that the clock looks at. */
  datatype Timers = Timers(nmiEnable: bool, hirq: bool, virq: bool, autoJoypad: bool,
                           htime: int, vtime: int, overscan: bool, hdmaen: int)

  datatype Timing = Timing(beam: Beam, irq: Irq, nmi: Nmi, arb: Arbiter)

  const LINES := 262
  const TRANSFER_H := 1104
  const REFRESH_CLOCKS := 40

  function Period(field: int, v: int): int {
    if field == 1 && v == 240 then 1360 else 1364
  }

  function VBlank(r: Timers): int {
    if r.overscan then 240 else 225
  }

  // ----- one raw master clock -----

  function TickBeam(b: Beam): Beam {
    var c := b.clock + 1;
    if b.h + 1 < Period(b.field, b.v) then b.(clock := c, h := b.h + 1)
    else
      var w := b.(clock := c, h := 0, v := b.v + 1, refreshDone := false, refreshH := 538 - c % 8);
      if b.v + 1 < LINES then w
      else w.(v := 0, field := 1 - b.field, frames := b.frames + 1, initH := 12 + c % 8)
  }

  function LatchIrq(i: Irq): Irq {
    if i.line then i else Irq(4, true, true, i.events + 1)
  }

  /** `b` is the beam after the clock; a line has just begun exactly when its counter is zero. */
  function TickIrq(i: Irq, b: Beam, r: Timers): Irq {
    var held := if i.hold > 0 then i.(hold := i.hold - 1) else i;
    var vertical := if b.h == 0 && r.virq && !r.hirq && b.v == r.vtime then LatchIrq(held) else held;
    if r.hirq && b.h == (r.htime + 1) * 4 && (!r.virq || b.v == r.vtime) then LatchIrq(vertical) else vertical
  }

  function TickNmi(n: Nmi, b: Beam, r: Timers): Nmi {
    if b.v == VBlank(r) && b.h == 2 then n.(flag := true, polls := if r.autoJoypad then n.polls + 1 else n.polls)
    else if b.v == VBlank(r) && b.h == 6 then
      (if r.nmiEnable then n.(counter := 1, raises := n.raises + 1) else n)
    else if b.v == 0 && b.h == 2 then n.(flag := false)
    else n
  }

  function ScheduleInit(a: Arbiter, now: int, r: Timers): Arbiter {
    if a.fault.Some? then a
    else if a.initPending then a.(fault := Some(SecondInit))
    else a.(initPending := true, startDelay := true, pace := Pace(now, 0, 0, r.hdmaen == 4))
  }

  function ScheduleScanline(a: Arbiter, now: int, r: Timers): Arbiter {
    if a.fault.Some? then a
    else if r.hdmaen == 0 then a.(pace := a.pace.(whole := false))
    else if r.hdmaen != 4 then a.(fault := Some(SchedulerMask))
    else if a.transferPending then a.(fault := Some(SecondScanline))
    else a.(transferPending := true, startDelay := true, pace := a.pace.(since := now, due := a.pace.due + 1))
  }

  function TickArbiter(a: Arbiter, b: Beam, r: Timers): Arbiter {
    var i := if b.v == 0 && b.h == b.initH then ScheduleInit(a, b.clock, r) else a;
    if b.v < VBlank(r) && b.h == TRANSFER_H then ScheduleScanline(i, b.clock, r) else i
  }

  function Tick(t: Timing, r: Timers): Timing {
    var b := TickBeam(t.beam);
    Timing(b, TickIrq(t.irq, b, r), TickNmi(t.nmi, b, r), TickArbiter(t.arb, b, r))
  }

  function Ticks(t: Timing, r: Timers, n: nat): Timing
    decreases n, t
  {
    if n == 0 then t else Ticks(Tick(t, r), r, n - 1)
  }

  // ----- clocks with the refresh stall -----

  predicate RefreshDue(b: Beam) {
    !b.refreshDone && b.h == b.refreshH
  }

  function Refreshing(b: Beam): Beam {
    b.(refreshDone := true, refreshes := b.refreshes + 1)
  }

  function Settle(t: Timing, r: Timers): Timing {
    if RefreshDue(t.beam) then Ticks(t.(beam := Refreshing(t.beam)), r, REFRESH_CLOCKS) else t
  }

  function Advance(t: Timing, r: Timers, n: nat): Timing
    decreases n
  {
    if n == 0 then t else Advance(Settle(Tick(t, r), r), r, n - 1)
  }

  // ----- the beam in closed form -----

  /** The master clock at which the beam is at dot `h` of line `v` of frame `f`. */
  function ClockAt(f: int, v: int, h: int): int {
    714732 * (f / 2) + 357368 * (f % 2) + 1364 * v - (if f % 2 == 1 && v > 240 then 4 else 0) + h
  }

  predicate OnScreen(f: int, v: int, h: int) {
    f >= 0 && 0 <= v < LINES && 0 <= h < Period(f % 2, v)
  }

  /** What holds after every raw clock since the timing was switched on. */
  predicate BeamOk(b: Beam) {
    && OnScreen(b.frames, b.v, b.h) && b.field == b.frames % 2
    && b.clock == ClockAt(b.frames, b.v, b.h)
    && b.refreshH == 538 - (b.clock - b.h) % 8
    && b.initH == (if b.frames == 0 then 0 else 12 + ClockAt(b.frames, 0, 0) % 8)
    && b.refreshes == LINES * b.frames + b.v + (if b.refreshDone then 1 else 0)
    && (if b.refreshDone then b.refreshH <= b.h else b.h <= b.refreshH)
  }

  /** What holds between two calls of the clock: no refresh is due. */
  predicate Settled(b: Beam) {
    BeamOk(b) && !RefreshDue(b)
  }

  const START := Beam(0, 0, 0, 0, 0, false, 538, 0, 0)

  lemma StartSettled()
    ensures Settled(START)
  {
  }

  lemma TickBeamOk(b: Beam)
    requires Settled(b)
    ensures BeamOk(TickBeam(b)) && TickBeam(b).clock == b.clock + 1 && TickBeam(b).refreshes == b.refreshes
  {
    if b.h + 1 >= Period(b.field, b.v) && b.v + 1 >= LINES {
      NextFrame(b.frames);
    }
  }

  lemma NextFrame(f: int)
    requires f >= 0
    ensures ClockAt(f + 1, 0, 0) == ClockAt(f, 261, 1363) + 1
    ensures (f + 1) % 2 == 1 - f % 2
  {
  }

  lemma {:induction false} RefreshTicks(t: Timing, r: Timers, n: nat)
    requires Settled(t.beam) && t.beam.refreshDone && t.beam.h + n < 1360
    ensures Ticks(t, r, n).beam == t.beam.(clock := t.beam.clock + n, h := t.beam.h + n)
    ensures BeamOk(Ticks(t, r, n).beam)
    decreases n
  {
    if n > 0 {
      TickBeamOk(t.beam);
      RefreshTicks(Tick(t, r), r, n - 1);
    }
  }

  /** The refresh starts at clock 2 modulo 8 and stalls the machine for exactly forty clocks of one line. */
  lemma SettleOk(t: Timing, r: Timers)
    requires BeamOk(t.beam)
    ensures Settled(Settle(t, r).beam)
    ensures Settle(t, r).beam.clock
            == t.beam.clock + REFRESH_CLOCKS * (Settle(t, r).beam.refreshes - t.beam.refreshes)
    ensures RefreshDue(t.beam) ==> t.beam.clock % 8 == 2 && 531 <= t.beam.h <= 538
    ensures RefreshDue(t.beam)
            ==> Settle(t, r).beam == Refreshing(t.beam).(clock := t.beam.clock + 40, h := t.beam.h + 40)
  {
    if RefreshDue(t.beam) {
      RefreshPhase(t.beam);
      RefreshTicks(t.(beam := Refreshing(t.beam)), r, REFRESH_CLOCKS);
    }
  }

  lemma RefreshPhase(b: Beam)
    requires BeamOk(b) && RefreshDue(b)
    ensures Settled(Refreshing(b)) && b.clock % 8 == 2 && 531 <= b.h <= 538
  {
    PhaseSum(b.clock - b.h, b.h);
  }

  lemma PhaseSum(start: int, h: int)
    requires h == 538 - start % 8
    ensures (start + h) % 8 == 2 && 531 <= h <= 538
  {
  }

  /** Advancing by `n` costs exactly `n` clocks and forty for each refresh met. */
  lemma {:induction false} AdvanceLedger(t: Timing, r: Timers, n: nat)
    requires Settled(t.beam)
    ensures Settled(Advance(t, r, n).beam)
    ensures Advance(t, r, n).beam.refreshes >= t.beam.refreshes
    ensures Advance(t, r, n).beam.clock
            == t.beam.clock + n + REFRESH_CLOCKS * (Advance(t, r, n).beam.refreshes - t.beam.refreshes)
    decreases n
  {
    if n > 0 {
      TickBeamOk(t.beam);
      SettleOk(Tick(t, r), r);
      AdvanceLedger(Settle(Tick(t, r), r), r, n - 1);
    }
  }

  /** The beam position belonging to a clock. */
  function Locate(clock: int): (int, int, int)
    requires clock >= 0
  {
    var within := clock % 714732;
    if within < 357368 then (clock / 714732 * 2, within / 1364, within % 1364)
    else
      var odd := if within - 357368 < 240 * 1364 + 1360 then within - 357368 else within - 357368 + 4;
      (clock / 714732 * 2 + 1, odd / 1364, odd % 1364)
  }

  /** Every clock is exactly one place on the screen, and every place is visited at exactly one clock. */
  lemma ClockIsPosition(clock: int, f: int, v: int, h: int)
    requires clock >= 0
    ensures var (g, w, k) := Locate(clock); OnScreen(g, w, k)
    ensures OnScreen(f, v, h) && ClockAt(f, v, h) == clock <==> (f, v, h) == Locate(clock)
  {
    LocateOk(clock);
    if OnScreen(f, v, h) && ClockAt(f, v, h) == clock {
      ClockAtLocates(f, v, h);
    }
  }

  lemma LocateOk(clock: int)
    requires clock >= 0
    ensures var (g, w, k) := Locate(clock); OnScreen(g, w, k) && ClockAt(g, w, k) == clock
  {
    var pair, within := clock / 714732, clock % 714732;
    assert clock == 714732 * pair + within;
    var (g, w, k) := Locate(clock);
    assert g == 2 * pair || g == 2 * pair + 1;
    assert g / 2 == pair;
  }

  lemma ClockAtLocates(f: int, v: int, h: int)
    requires OnScreen(f, v, h)
    ensures ClockAt(f, v, h) >= 0 && Locate(ClockAt(f, v, h)) == (f, v, h)
  {
    var inside := 357368 * (f % 2) + 1364 * v - (if f % 2 == 1 && v > 240 then 4 else 0) + h;
    assert 0 <= inside < 714732;
    assert ClockAt(f, v, h) == 714732 * (f / 2) + inside;
    DivMod(f / 2, inside);
    assert f == f / 2 * 2 + f % 2;
    LineDivMod(v, h);
  }

  lemma DivMod(q: int, r: int)
    requires 0 <= r < 714732
    ensures (714732 * q + r) / 714732 == q && (714732 * q + r) % 714732 == r
  {
  }

  lemma LineDivMod(v: int, h: int)
    requires 0 <= h < 1364
    ensures (1364 * v + h) / 1364 == v && (1364 * v + h) % 1364 == h
  {
  }
}
