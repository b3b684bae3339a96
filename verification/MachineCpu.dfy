/** The processor's side: bus accesses with their timing, the stack, interrupt entry and return, and the runs of
    the machine.  An instruction is any sequence of cycles, reads, writes and register changes. */
module MachineCpu {
  import opened Options
  import opened Clock
  import opened MachineBus
  import opened MachineDma
  import HdmaTable
  import PpuPorts

  // ----- accesses -----

  /** The speed of the bus region an address lies in. */
  function BusSpeed(fast: bool, a: int): (speed: int)
    ensures CpuSpeed(speed)
  {
    var bank, local := Bank(a), Local(a);
    if 0x40 <= bank <= 0x7F then 8
    else if bank >= 0xC0 then (if fast then 6 else 8)
    else if local < 0x2000 then 8
    else if local < 0x4000 then 6
    else if local < 0x4200 then 12
    else if local < 0x6000 then 6
    else if local < 0x8000 then 8
    else if fast && bank >= 0x80 then 6
    else 8
  }

  /** A data access's cycle. */
  function Touch(s: State, a: int): State {
    var u := Cycle(s, BusSpeed(s.fast, a));
    if Failed(u) then u
    else
      u.(k := u.k.(data := u.k.data + 1,
                   tally := u.k.tally.(dataClocks := u.k.tally.dataClocks + BusSpeed(s.fast, a))))
  }

  /** A code access's cycle. */
  function FetchCode(s: State, a: int): State {
    var u := Cycle(s, BusSpeed(s.fast, a));
    if Failed(u) then u
    else
      u.(k := u.k.(code := u.k.code + 1,
                   tally := u.k.tally.(codeClocks := u.k.tally.codeClocks + BusSpeed(s.fast, a))))
  }

  function Idle(s: State): State {
    var u := Cycle(s, 6);
    if Failed(u) then u else u.(k := u.k.(idle := u.k.idle + 1))
  }

  /** The internal cycles of one instruction. */
  function Idles(s: State, n: nat): State {
    if n == 0 then s
    else
      var u := Idles(s, n - 1);
      if Failed(u) then u else Idle(u)
  }

  function Load(s: State, a: int): Got {
    var u := Touch(s, a);
    if Failed(u) then Got(u, 0) else Read(u, a)
  }

  function Store(s: State, a: int, value: int): State {
    var u := Touch(s, a);
    if Failed(u) then u else Write(u, a, value)
  }

  // ----- the stack -----

  function Down(e: bool, s: int): int {
    if e then 0x100 + (s - 1) % 0x100 else (s - 1) % 0x10000
  }

  function Up(e: bool, s: int): int {
    if e then 0x100 + (s + 1) % 0x100 else (s + 1) % 0x10000
  }

  function Push(s: State, value: int): State {
    if Failed(s) then s
    else
      var u := Store(s, s.cpu.s, value);
      if Failed(u) then u else u.(cpu := u.cpu.(s := Down(u.cpu.e, u.cpu.s)))
  }

  function Pull(s: State): Got {
    if Failed(s) then Got(s, 0)
    else
      var u := s.(cpu := s.cpu.(s := Up(s.cpu.e, s.cpu.s)));
      Load(u, u.cpu.s)
  }

  // ----- interrupts -----

  /** The interrupt-disable flag set and the decimal flag cleared. */
  function Masked(p: int): int {
    p + (if p / 4 % 2 == 0 then 4 else 0) - (if p / 8 % 2 == 1 then 8 else 0)
  }

  /** The four pushes of an interrupt frame. */
  function PushFrame(s: State): State {
    Push(Push(Push(Push(s, s.cpu.pbr % 0x100), s.cpu.pc / 0x100 % 0x100), s.cpu.pc % 0x100), s.cpu.p % 0x100)
  }

  /** The two wasted cycles, the frame, and the vector. */
  function EnterAt(s: State, vector: int): State {
    var wasted := Touch(s, s.cpu.pbr * 0x10000 + s.cpu.pc);
    if Failed(wasted) then wasted
    else
      var framed := PushFrame(Idle(wasted));
      if Failed(framed) then framed
      else
        var low := Load(framed.(cpu := framed.cpu.(p := Masked(s.cpu.p))), vector);
        if Failed(low.s) then low.s
        else
          var high := Load(low.s, vector + 1);
          if Failed(high.s) then high.s
          else high.s.(cpu := high.s.cpu.(pbr := 0, pc := low.value + high.value * 0x100))
  }

  function EnterIrq(s: State): State {
    if s.cpu.e then Fail(s, EmulationMode)
    else if s.k.irqDepth != 0 then Fail(s, NestedInterrupt)
    else
      var u := EnterAt(s, 0xFFEE);
      if Failed(u) then u
      else
        u.(k := u.k.(irqDepth := 1, irqAccepts := u.k.irqAccepts + 1), t := u.t.(irq := u.t.irq.(transition := false)))
  }

  function EnterNmi(s: State): State {
    if s.cpu.e then Fail(s, EmulationMode)
    else if s.k.nmiDepth != 0 || s.k.irqDepth != 0 then Fail(s, NestedInterrupt)
    else
      var u := EnterAt(s, 0xFFEA);
      if Failed(u) then u
      else
        u.(k := u.k.(nmiDepth := 1, nmiAccepts := u.k.nmiAccepts + 1), t := u.t.(nmi := u.t.nmi.(pending := false)))
  }

  /** Restoring P narrows the index registers when it says so. */
  function Restored(c: Cpu, p: int, pc: int, pbr: int): Cpu {
    var narrow := p / 0x10 % 2 == 1;
    c.(p := p, pc := pc, pbr := pbr, x := if narrow then c.x % 0x100 else c.x,
       y := if narrow then c.y % 0x100 else c.y)
  }

  function LeaveInterrupt(k: Counts): Counts {
    if k.irqDepth != 0 then k.(irqDepth := k.irqDepth - 1, irqReturns := k.irqReturns + 1)
    else k.(nmiDepth := k.nmiDepth - 1, nmiReturns := k.nmiReturns + 1)
  }

  function ReturnFromInterrupt(s: State): State {
    if s.cpu.e then Fail(s, EmulationMode)
    else if (s.k.irqDepth != 0) == (s.k.nmiDepth != 0) then Fail(s, ReturnWithoutFrame)
    else
      var p := Pull(s);
      var low := Pull(p.s);
      var high := Pull(low.s);
      var bank := Pull(high.s);
      if Failed(bank.s) then bank.s
      else
        bank.s.(cpu := Restored(bank.s.cpu, p.value, low.value + high.value * 0x100, bank.value),
                k := LeaveInterrupt(bank.s.k))
  }

  predicate Idling(k: Counts) {
    k.nmiDepth == 0 && k.irqDepth == 0
  }

  /** Between two instructions: NMI first, then an unmasked IRQ, never inside a handler. */
  function Accept(s: State): State {
    if s.t.nmi.pending && s.r.nmiEnable && Idling(s.k) then EnterNmi(s)
    else if s.t.irq.line && s.cpu.p / 4 % 2 == 0 && Idling(s.k) then EnterIrq(s)
    else s
  }

  // ----- runs -----

  datatype Action =
    | CodeFetch(a: int) | InternalCycle | DataCycle(a: int)
    | DataLoad(a: int) | DataStore(a: int, value: int)
    | Registers(cpu: Cpu)
    | AcceptInterrupt | InterruptReturn

  function Act(s: State, x: Action): State {
    if Failed(s) then s
    else
      match x
      case CodeFetch(a) => FetchCode(s, a)
      case InternalCycle => Idle(s)
      case DataCycle(a) => Touch(s, a)
      case DataLoad(a) => Load(s, a).s
      case DataStore(a, value) => Store(s, a, value % 0x100)
      case Registers(cpu) => s.(cpu := cpu)
      case AcceptInterrupt => Accept(s)
      case InterruptReturn => ReturnFromInterrupt(s)
  }

  /** The machine after the first `n` actions. */
  function After(s: State, actions: seq<Action>, n: nat): State
    requires n <= |actions|
  {
    if n == 0 then s else Act(After(s, actions, n - 1), actions[n - 1])
  }

  /** The machine after reset, with its clock switched on. */
  function Boot(sram: seq<int>, rom: seq<int>, port: (int, int) -> int): State {
    var none := Channel(0, 0, 0, 0, 0, 0);
    State(Timing(START, Irq(0, false, false, 0), Nmi(false, 0, false, 0, 0),
                 Arbiter(false, false, false, None, Pace(0, 0, 0, false))),
          Timers(false, false, false, false, 0, 0, false, 0), false,
          Dma(0, none, none, none, none, HdmaTable.Cursor(0, 0, false, false, false, 0)),
          PpuPorts.Ppu(PpuPorts.Oam(0, 0, 0, false, seq(544, _ => 0)),
                       PpuPorts.Vram(0, 0, 0, false, seq(65536, _ => 0)),
                       PpuPorts.Cgram(0, false, 0, seq(512, _ => 0)),
                       PpuPorts.Scroll(0, 0, seq(4, _ => 0), seq(4, _ => 0))),
          Memory(seq(0x20000, _ => 0), sram, rom), Cpu(true, 0x34, 0x1FF, 0x804A, 0, 0, 0),
          Counts(0, 0, 0, 0, 0, 0, 0, 0, 0, Tally(0, 0, 0, 0, 0, 0)), port)
  }
}
