/** Which interrupt is taken, what its entry and return cost in accesses, and how the stack pointer moves. */
module InterruptLaws {
  import opened Options
  import opened Clock
  import opened ClockEvents
  import opened MachineBus
  import opened MachineDma
  import opened HdmaService
  import opened MachineCycle
  import opened MachineCpu
  import opened MachineRuns
  import opened MachineInterrupts
  import PpuPorts
  import RomMapping

  /** The word the image shows at an address of the top page of bank 0. */
  function Vector(rom: seq<int>, at: nat): int
    requires |rom| == RomMapping.ROM_SIZE && at < 0xFFFF
  {
    rom[at] % 0x100 + rom[at + 1] % 0x100 * 0x100
  }

  /** The registers after an accepted interrupt: its own vector, in bank 0, with IRQ disabled. */
  predicate Entered(s: State, u: State, vector: nat)
    requires |s.m.rom| == RomMapping.ROM_SIZE && vector < 0xFFFF
  {
    u.cpu.pbr == 0 && u.cpu.pc == Vector(s.m.rom, vector) && u.cpu.p / 4 % 2 == 1
  }

  /** Between two instructions: a latched and enabled NMI is taken first, then an unmasked IRQ, and neither inside a
      handler; otherwise nothing at all happens. */
  lemma AcceptChoice(s: State)
    requires Good(s) && Native(s.cpu) && InWram(s.m, s.cpu.s) && |s.m.rom| == RomMapping.ROM_SIZE
    ensures var u := Accept(s);
            var idle := s.k.nmiDepth == 0 && s.k.irqDepth == 0;
            var takesNmi := idle && s.t.nmi.pending && s.r.nmiEnable;
            var takesIrq := idle && !takesNmi && s.t.irq.line && s.cpu.p / 4 % 2 == 0;
            !Failed(u) ==>
            && (takesNmi ==> Entered(s, u, 0xFFEA) && u.k.nmiAccepts == s.k.nmiAccepts + 1
                             && u.k.irqAccepts == s.k.irqAccepts && u.k.nmiDepth == 1 && u.k.irqDepth == 0)
            && (takesIrq ==> Entered(s, u, 0xFFEE) && u.k.irqAccepts == s.k.irqAccepts + 1
                             && u.k.nmiAccepts == s.k.nmiAccepts && u.k.irqDepth == 1 && u.k.nmiDepth == 0)
            && (!takesNmi && !takesIrq ==> u == s)
  {
    hide EnterAt, Good, Masked, FrameAt;
    if Failed(Accept(s)) {
      return;
    }
    HandlersEntered(s);
    EntryFrame(s, 0xFFEA);
    EntryFrame(s, 0xFFEE);
    MaskedFlags(s.cpu.p);
  }

  /** An edge that a cycle's own clocks raise is not latched by that cycle. */
  lemma FreshEdgeWaits(s: State, speed: int)
    requires CpuSpeed(speed) && s.d.mask == 0 && !HdmaPending(s) && s.t.nmi.counter == 0
    ensures Cycle(s, speed).t.nmi.pending == s.t.nmi.pending
  {
    hide Advance;
    if !Failed(s) {
      AdvanceKeepsEdge(Sampled(s, speed).t, s.r, speed);
    }
  }

  // ----- accesses -----

  /** The accesses the processor has made, other than `data` and `idle` more. */
  predicate Accessed(s: State, u: State, data: int, idle: int) {
    u.k.code == s.k.code && u.k.data == s.k.data + data && u.k.idle == s.k.idle + idle
  }

  lemma TouchAccess(s: State, a: int)
    requires Good(s)
    ensures !Failed(Touch(s, a)) ==> Accessed(s, Touch(s, a), 1, 0)
    ensures !Failed(Idle(s)) ==> Accessed(s, Idle(s), 0, 1)
  {
    hide Cycle, Inv, Balanced, Arbitrate, Settled, BusSpeed;
    GoodRuns(s);
    CycleOk(s, BusSpeed(s.fast, a));
    CycleOk(s, 6);
  }

  lemma ReadAccess(s: State, a: int)
    ensures Read(s, a).s.k == s.k
  {
    hide Read;
    ReadOnly(s, a);
  }

  lemma LoadAccess(s: State, a: int)
    requires Good(s)
    ensures !Failed(Load(s, a).s) ==> Accessed(s, Load(s, a).s, 1, 0) && Good(Load(s, a).s)
  {
    hide Touch, Read, Good;
    TouchAccess(s, a);
    LoadKeeps(s, a);
    ReadAccess(Touch(s, a), a);
    LoadRuns(s, a);
  }

  lemma WramAccess(s: State, a: int, value: int)
    requires Good(s) && 0 <= a < 0x2000
    ensures !Failed(Store(s, a, value)) ==> Accessed(s, Store(s, a, value), 1, 0)
  {
    hide Touch, Good, Bank, Local;
    TouchAccess(s, a);
    StackByte(a);
  }

  lemma PushAccess(s: State, value: int)
    requires Good(s) && !s.cpu.e && 0 <= s.cpu.s < 0x2000
    ensures !Failed(Push(s, value)) ==> Accessed(s, Push(s, value), 1, 0) && Good(Push(s, value)) && !Failed(s)
  {
    hide Store, Good, Down;
    GoodRuns(s);
    WramAccess(s, s.cpu.s, value);
    if !Failed(Push(s, value)) {
      PushStores(s, value);
    }
  }

  lemma PullAccess(s: State)
    requires Good(s)
    ensures !Failed(Pull(s).s) ==> Accessed(s, Pull(s).s, 1, 0) && Good(Pull(s).s)
  {
    hide Load, Good, Up;
    GoodRuns(s);
    var u := s.(cpu := s.cpu.(s := Up(s.cpu.e, s.cpu.s)));
    SteadySelf(s);
    CpuSteady(s, s, u.cpu);
    CpuRuns(s, u.cpu);
    SteadyGood(s, u);
    LoadAccess(u, u.cpu.s);
  }

  lemma FrameAccess(s: State)
    requires Good(s) && Native(s.cpu) && InWram(s.m, s.cpu.s)
    ensures !Failed(PushFrame(s)) ==> Accessed(s, PushFrame(s), 4, 0)
  {
    hide Push, Good, SameInterrupts, PpuPorts.Put;
    if Failed(PushFrame(s)) {
      return;
    }
    var c := s.cpu;
    FrameBytes(c);
    StackSteps(c.s);
    var one := Push(s, c.pbr % 0x100);
    var two := Push(one, c.pc / 0x100 % 0x100);
    var three := Push(two, c.pc % 0x100);
    PushFails(two, three, c.pc % 0x100, c.p % 0x100);
    PushFails(one, two, c.pc / 0x100 % 0x100, c.pc % 0x100);
    PushFails(s, one, c.pbr % 0x100, c.pc / 0x100 % 0x100);
    PushStores(s, c.pbr);
    PushStores(one, c.pc / 0x100);
    PushStores(two, c.pc % 0x100);
    PushAccess(s, c.pbr);
    PushAccess(one, c.pc / 0x100);
    PushAccess(two, c.pc % 0x100);
    PushAccess(three, c.p);
  }

  /** An entry makes seven data accesses (the wasted one, four pushes, two of the vector) and one internal cycle. */
  lemma EntryAccess(s: State, vector: int)
    requires Good(s) && Native(s.cpu) && InWram(s.m, s.cpu.s)
    ensures !Failed(EnterAt(s, vector)) ==> Accessed(s, EnterAt(s, vector), 7, 1)
  {
    hide Touch, Idle, PushFrame, Load, Masked, Good, FrameAt, InWram;
    if Failed(EnterAt(s, vector)) {
      return;
    }
    var at := s.cpu.pbr * 0x10000 + s.cpu.pc;
    TouchKeeps(s, at);
    TouchAccess(s, at);
    var wasted := Touch(s, at);
    TouchKeeps(wasted, at);
    TouchAccess(wasted, at);
    FramePasses(Idle(wasted));
    FrameStored(Idle(wasted));
    FrameAccess(Idle(wasted));
    var framed := PushFrame(Idle(wasted));
    var masked := framed.(cpu := framed.cpu.(p := Masked(s.cpu.p)));
    SteadySelf(framed);
    CpuSteady(framed, framed, masked.cpu);
    CpuRuns(framed, masked.cpu);
    SteadyGood(framed, masked);
    LoadAccess(masked, vector);
    LoadAccess(Load(masked, vector).s, vector + 1);
  }

  /** A return makes four, and narrows the index registers exactly when the restored P says so. */
  lemma ReturnAccess(s: State)
    requires Good(s)
    ensures var u := ReturnFromInterrupt(s);
            !Failed(u) ==>
            && Accessed(s, u, 4, 0)
            && (u.cpu.p / 0x10 % 2 == 1 ==> u.cpu.x == s.cpu.x % 0x100 && u.cpu.y == s.cpu.y % 0x100)
            && (u.cpu.p / 0x10 % 2 == 0 ==> u.cpu.x == s.cpu.x && u.cpu.y == s.cpu.y)
  {
    hide Pull, Good;
    if Failed(ReturnFromInterrupt(s)) {
      return;
    }
    var p := Pull(s);
    var low := Pull(p.s);
    var high := Pull(low.s);
    PullFails(p.s);
    PullFails(low.s);
    PullFails(high.s);
    PullAccess(s);
    PullAccess(p.s);
    PullAccess(low.s);
    PullAccess(high.s);
    PullKeepsIndex(s);
    PullKeepsIndex(p.s);
    PullKeepsIndex(low.s);
    PullKeepsIndex(high.s);
  }

  lemma PullKeepsIndex(s: State)
    requires Good(s)
    ensures !Failed(Pull(s).s) ==> Pull(s).s.cpu.x == s.cpu.x && Pull(s).s.cpu.y == s.cpu.y
  {
    hide Load, Good, Up;
    GoodRuns(s);
    var u := s.(cpu := s.cpu.(s := Up(s.cpu.e, s.cpu.s)));
    SteadySelf(s);
    CpuSteady(s, s, u.cpu);
    CpuRuns(s, u.cpu);
    SteadyGood(s, u);
    LoadKeeps(u, u.cpu.s);
  }

  // ----- the stack pointer -----

  /** A pull undoes the step of a push; in native mode the pointer runs through bank 0, in emulation mode through
      page 1. */
  lemma StackWalk(e: bool, s: int)
    requires if e then 0x100 <= s < 0x200 else 0 <= s < 0x10000
    ensures Up(e, Down(e, s)) == s && Down(e, Up(e, s)) == s
    ensures e ==> 0x100 <= Down(e, s) < 0x200 && Down(e, s) == (if s == 0x100 then 0x1FF else s - 1)
    ensures !e ==> 0 <= Down(e, s) < 0x10000 && Down(e, s) == (if s == 0 then 0xFFFF else s - 1)
  {
  }
}
