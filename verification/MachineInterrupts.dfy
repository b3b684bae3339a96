/** Interrupt entry and return: the frame on the stack, and the round trip through any handler. */
module MachineInterrupts {
  import opened Options
  import opened Clock
  import opened ClockEvents
  import opened MachineBus
  import opened MachineDma
  import opened HdmaService
  import opened HdmaSchedule
  import opened MachineCycle
  import opened MachineCpu
  import opened MachineRuns
  import HdmaFrame
  import PpuPorts
  import RomChecksum
  import RomMapping

  /** A native-mode processor whose registers are in range. */
  predicate Native(c: Cpu) {
    !c.e && 0 <= c.pbr < 0x100 && 0 <= c.p < 0x100 && 0 <= c.pc < 0x10000
  }

  /** A four-byte frame with its last byte at `top` lies in the work RAM that bank 0 shows. */
  predicate InWram(m: Memory, top: int) {
    |m.wram| == 0x20000 && 3 <= top < 0x2000
  }

  /** The frame of a processor state: bank, PC high, PC low, P, downwards. */
  predicate FrameAt(m: Memory, top: int, c: Cpu)
    requires InWram(m, top)
  {
    && m.wram[top] == c.pbr && m.wram[top - 1] == c.pc / 0x100 && m.wram[top - 2] == c.pc % 0x100
    && m.wram[top - 3] == c.p
  }

  // ----- what one access does -----

  lemma TouchKeeps(s: State, a: int)
    requires Good(s)
    ensures var u := Touch(s, a); !Failed(u) ==> Good(u) && u.m == s.m && u.cpu == s.cpu && SameInterrupts(s.k, u.k)
    ensures var u := Idle(s); !Failed(u) ==> Good(u) && u.m == s.m && u.cpu == s.cpu && SameInterrupts(s.k, u.k)
  {
    hide Cycle, Inv, Balanced, Arbitrate, Settled, BusSpeed;
    GoodRuns(s);
    CycleOk(s, BusSpeed(s.fast, a));
    CycleOk(s, 6);
    TouchSteady(s, a);
  }

  lemma LoadKeeps(s: State, a: int)
    requires Good(s)
    ensures var g := Load(s, a);
            !Failed(g.s) ==> Good(g.s) && g.s.m == s.m && g.s.cpu == s.cpu && SameInterrupts(s.k, g.s.k)
  {
    hide Touch, Read, Good;
    TouchKeeps(s, a);
    LoadSteady(s, a);
    var u := Touch(s, a);
    ReadOnly(u, a);
  }

  lemma StackByte(a: int)
    requires 0 <= a < 0x2000
    ensures WramOffset(a) == Some(a)
  {
  }

  lemma PushStores(s: State, value: int)
    requires Good(s) && !s.cpu.e && 0 <= s.cpu.s < 0x2000
    ensures var u := Push(s, value);
            !Failed(u) ==>
            && Good(u) && u.m == s.m.(wram := PpuPorts.Put(s.m.wram, s.cpu.s, value))
            && u.cpu == s.cpu.(s := (s.cpu.s - 1) % 0x10000) && SameInterrupts(s.k, u.k)
  {
    hide Touch, Good, PpuPorts.Put, Bank, Local, SameInterrupts;
    if Failed(Push(s, value)) {
      return;
    }
    GoodRuns(s);
    TouchKeeps(s, s.cpu.s);
    StackByte(s.cpu.s);
    SteadySelf(s);
    PushSteady(s, s, value);
  }

  /** A pull from the work RAM of bank 0 reads the byte above the stack pointer. */
  lemma PullReads(s: State, at: int)
    requires Good(s) && !s.cpu.e && 0 <= at < 0x2000 && s.cpu.s == (at - 1) % 0x10000 && |s.m.wram| == 0x20000
    ensures var g := Pull(s);
            !Failed(g.s) ==>
            && Good(g.s) && g.s.m == s.m && g.s.cpu == s.cpu.(s := at) && SameInterrupts(s.k, g.s.k)
            && g.value == s.m.wram[at] % 0x100
  {
    hide Touch, Good, WramOffset;
    if Failed(Pull(s).s) {
      return;
    }
    GoodRuns(s);
    UpFrom(at);
    var u := s.(cpu := s.cpu.(s := at));
    SteadySelf(s);
    CpuSteady(s, s, u.cpu);
    CpuRuns(s, u.cpu);
    SteadyGood(s, u);
    TouchKeeps(u, at);
    StackByte(at);
  }

  lemma UpFrom(at: int)
    requires 0 <= at < 0x2000
    ensures Up(false, (at - 1) % 0x10000) == at
  {
  }

  // ----- entry -----

  /** Four pushes build the frame; DMA, HDMA and refresh inside any of them do not disturb it. */
  lemma FrameStored(s: State)
    requires Good(s) && Native(s.cpu) && InWram(s.m, s.cpu.s)
    ensures var u := PushFrame(s);
            !Failed(u) ==>
            && Good(u) && InWram(u.m, s.cpu.s) && FrameAt(u.m, s.cpu.s, s.cpu) && SameInterrupts(s.k, u.k)
            && u.cpu == s.cpu.(s := (s.cpu.s - 4) % 0x10000)
            && (forall k :: 0 <= k < 0x20000 && !(s.cpu.s - 3 <= k <= s.cpu.s) ==> u.m.wram[k] == s.m.wram[k])
            && u.m == s.m.(wram := u.m.wram)
  {
    hide Push, Good, SameInterrupts, PpuPorts.Put;
    if Failed(PushFrame(s)) {
      return;
    }
    var c := s.cpu;
    FrameBytes(c);
    StackSteps(c.s);
    FourPuts(s.m.wram, c.s, c);
    var one := Push(s, c.pbr % 0x100);
    var two := Push(one, c.pc / 0x100 % 0x100);
    var three := Push(two, c.pc % 0x100);
    PushFails(two, three, c.pc % 0x100, c.p % 0x100);
    PushFails(one, two, c.pc / 0x100 % 0x100, c.pc % 0x100);
    PushFails(s, one, c.pbr % 0x100, c.pc / 0x100 % 0x100);
    PushStores(s, c.pbr);
    PushStores(one, c.pc / 0x100);
    PushStores(two, c.pc % 0x100);
    PushStores(three, c.p);
    SameAll(s.k, one.k, two.k, three.k, PushFrame(s).k);
  }

  lemma FrameBytes(c: Cpu)
    requires Native(c)
    ensures c.pbr % 0x100 == c.pbr && c.pc / 0x100 % 0x100 == c.pc / 0x100 && c.p % 0x100 == c.p
  {
  }

  lemma FourPuts(w: seq<int>, top: int, c: Cpu)
    requires |w| == 0x20000 && 3 <= top < 0x2000
    ensures var r := PpuPorts.Put(PpuPorts.Put(PpuPorts.Put(PpuPorts.Put(
                       w, top, c.pbr), top - 1, c.pc / 0x100), top - 2, c.pc % 0x100), top - 3, c.p);
            && |r| == 0x20000 && r[top] == c.pbr && r[top - 1] == c.pc / 0x100 && r[top - 2] == c.pc % 0x100
            && r[top - 3] == c.p
            && forall k :: 0 <= k < 0x20000 && !(top - 3 <= k <= top) ==> r[k] == w[k]
  {
  }

  lemma SameAll(a: Counts, b: Counts, c: Counts, d: Counts, e: Counts)
    requires SameInterrupts(a, b) && SameInterrupts(b, c) && SameInterrupts(c, d) && SameInterrupts(d, e)
    ensures SameInterrupts(a, e)
  {
  }

  /** A push after a failed one does nothing. */
  lemma PushFails(s: State, u: State, value: int, next: int)
    requires u == Push(s, value)
    ensures Failed(u) ==> Push(u, next) == u
  {
  }

  lemma EntryFrame(s: State, vector: int)
    requires Good(s) && Native(s.cpu) && InWram(s.m, s.cpu.s)
    ensures var u := EnterAt(s, vector);
            !Failed(u) ==>
            && Good(u) && InWram(u.m, s.cpu.s) && FrameAt(u.m, s.cpu.s, s.cpu) && SameInterrupts(s.k, u.k)
            && u.cpu.s == (s.cpu.s - 4) % 0x10000 && !u.cpu.e && u.cpu.p == Masked(s.cpu.p) && u.cpu.pbr == 0
  {
    hide Touch, Idle, PushFrame, Load, Good, Masked, FrameAt, InWram;
    if Failed(EnterAt(s, vector)) {
      return;
    }
    var at := s.cpu.pbr * 0x10000 + s.cpu.pc;
    TouchKeeps(s, at);
    var wasted := Touch(s, at);
    TouchKeeps(wasted, at);
    var idle := Idle(wasted);
    FramePasses(idle);
    FrameStored(idle);
    var framed := PushFrame(idle);
    var masked := framed.(cpu := framed.cpu.(p := Masked(s.cpu.p)));
    SteadySelf(framed);
    CpuSteady(framed, framed, masked.cpu);
    CpuRuns(framed, masked.cpu);
    SteadyGood(framed, masked);
    LoadKeeps(masked, vector);
    var low := Load(masked, vector);
    LoadKeeps(low.s, vector + 1);
    var high := Load(low.s, vector + 1);
    EnterAtSteady(s, vector);
  }

  lemma FramePasses(s: State)
    ensures Failed(s) ==> Failed(PushFrame(s))
  {
  }

  /** Entry sets the interrupt-disable flag, clears the decimal flag and keeps the rest of P. */
  lemma MaskedFlags(p: int)
    requires 0 <= p < 0x100
    ensures 0 <= Masked(p) < 0x100 && Masked(p) / 4 % 2 == 1 && Masked(p) / 8 % 2 == 0
    ensures Masked(p) % 4 == p % 4 && Masked(p) / 0x10 == p / 0x10
  {
    var high, low := p / 0x10, p % 4;
    assert p == 0x10 * high + 8 * (p / 8 % 2) + 4 * (p / 4 % 2) + low by {
      FlagDigits(p);
    }
    assert Masked(p) == 0x10 * high + 4 + low;
    FlagValues(high, low);
  }

  lemma FlagDigits(p: int)
    ensures p == 0x10 * (p / 0x10) + 8 * (p / 8 % 2) + 4 * (p / 4 % 2) + p % 4
  {
    assert p / 8 == (p / 4) / 2 && p / 0x10 == (p / 8) / 2;
  }

  lemma FlagValues(high: int, low: int)
    requires 0 <= high < 0x10 && 0 <= low < 4
    ensures var q := 0x10 * high + 4 + low;
            q < 0x100 && q / 4 % 2 == 1 && q / 8 % 2 == 0 && q % 4 == low && q / 0x10 == high
  {
    var q := 0x10 * high + 4 + low;
    assert q / 4 == 4 * high + 1 && q / 8 == 2 * high;
  }

  // ----- where an interrupt goes -----

  /** A little-endian word of the image, at an offset in it. */
  function ImageWord(rom: seq<int>, at: nat): int
    requires at + 1 < |rom|
  {
    rom[at] % 0x100 + rom[at + 1] % 0x100 * 0x100
  }

  lemma VectorByte(s: State, a: int)
    requires 0xFFE0 <= a < 0x10000 && a < |s.m.rom|
    ensures Read(s, a) == Got(s, s.m.rom[a] % 0x100)
  {
    assert Bank(a) == 0 && Local(a) == a;
    assert RomChecksum.CpuToLinear(0, a) == Some(a);
    assert RomMapping.MirrorOf(a, RomMapping.ROM_SIZE) == a;
  }

  lemma VectorLoad(s: State, a: int)
    requires Good(s) && 0xFFE0 <= a < 0x10000 && a < |s.m.rom|
    ensures var g := Load(s, a);
            !Failed(g.s) ==> g.value == s.m.rom[a] % 0x100 && g.s.m == s.m && Good(g.s)
  {
    hide Touch, Read, Good;
    TouchKeeps(s, a);
    if !Failed(Load(s, a).s) {
      LoadKeeps(s, a);
      LoadRuns(s, a);
      VectorByte(Touch(s, a), a);
    }
  }

  lemma LoadRuns(s: State, a: int)
    ensures !Failed(Load(s, a).s) ==> !Failed(Touch(s, a))
  {
    hide Touch, Read;
  }

  lemma EntryGoes(s: State, vector: int)
    requires Good(s) && Native(s.cpu) && InWram(s.m, s.cpu.s) && 0xFFE0 <= vector < 0xFFFF && vector + 1 < |s.m.rom|
    ensures var u := EnterAt(s, vector);
            !Failed(u) ==> u.cpu.pbr == 0 && u.cpu.pc == ImageWord(s.m.rom, vector)
  {
    hide Touch, Idle, PushFrame, Load, Masked, Good, FrameAt, InWram, ImageWord;
    if Failed(EnterAt(s, vector)) {
      return;
    }
    var at := s.cpu.pbr * 0x10000 + s.cpu.pc;
    TouchKeeps(s, at);
    var wasted := Touch(s, at);
    TouchKeeps(wasted, at);
    FramePasses(Idle(wasted));
    FrameStored(Idle(wasted));
    var framed := PushFrame(Idle(wasted));
    var masked := framed.(cpu := framed.cpu.(p := Masked(s.cpu.p)));
    SteadySelf(framed);
    CpuSteady(framed, framed, masked.cpu);
    CpuRuns(framed, masked.cpu);
    SteadyGood(framed, masked);
    VectorLoad(masked, vector);
    VectorLoad(Load(masked, vector).s, vector + 1);
    WordBytes(s.m.rom, vector);
  }

  lemma WordBytes(rom: seq<int>, at: nat)
    requires at + 1 < |rom|
    ensures ImageWord(rom, at) == rom[at] % 0x100 + rom[at + 1] % 0x100 * 0x100
  {
  }

  /** An NMI runs the handler the image names at $FFEA, an IRQ the one at $FFEE, both in bank 0. */
  lemma HandlersEntered(s: State)
    requires Good(s) && Native(s.cpu) && InWram(s.m, s.cpu.s) && |s.m.rom| == RomMapping.ROM_SIZE
    ensures !Failed(EnterNmi(s)) ==>
              EnterNmi(s).cpu.pbr == 0
              && EnterNmi(s).cpu.pc == s.m.rom[0xFFEA] % 0x100 + s.m.rom[0xFFEB] % 0x100 * 0x100
    ensures !Failed(EnterIrq(s)) ==>
              EnterIrq(s).cpu.pbr == 0
              && EnterIrq(s).cpu.pc == s.m.rom[0xFFEE] % 0x100 + s.m.rom[0xFFEF] % 0x100 * 0x100
  {
    hide EnterAt, Good, ImageWord;
    EntryGoes(s, 0xFFEA);
    EntryGoes(s, 0xFFEE);
    WordBytes(s.m.rom, 0xFFEA);
    WordBytes(s.m.rom, 0xFFEE);
  }

  // ----- return -----

  lemma ReturnReads(s: State, top: int, c: Cpu)
    requires Good(s) && !s.cpu.e && Native(c) && InWram(s.m, top) && FrameAt(s.m, top, c)
    requires s.cpu.s == (top - 4) % 0x10000
    ensures var w := ReturnFromInterrupt(s).cpu;
            !Failed(ReturnFromInterrupt(s)) ==> w.pbr == c.pbr && w.pc == c.pc && w.p == c.p && w.s == top && !w.e
  {
    hide Pull, Good, LeaveInterrupt;
    if Failed(ReturnFromInterrupt(s)) {
      return;
    }
    var p := Pull(s);
    var low := Pull(p.s);
    var high := Pull(low.s);
    var bank := Pull(high.s);
    PullFails(p.s);
    PullFails(low.s);
    PullFails(high.s);
    StackSteps(top);
    PullReads(s, top - 3);
    PullReads(p.s, top - 2);
    PullReads(low.s, top - 1);
    PullReads(high.s, top);
  }

  lemma PullFails(s: State)
    ensures Failed(s) ==> Failed(Pull(s).s)
  {
    hide Load;
  }

  lemma StackSteps(top: int)
    requires 3 <= top < 0x2000
    ensures (top - 4) % 0x10000 == (top - 3 - 1) % 0x10000
    ensures (top - 3) % 0x10000 == top - 3 && (top - 2) % 0x10000 == top - 2 && (top - 1) % 0x10000 == top - 1
  {
  }

  /** The handler has left the frame, the stack pointer and the mode as it found them. */
  predicate FrameIntact(u: State, v: State, top: int) {
    && Good(v) && InWram(u.m, top) && InWram(v.m, top) && !v.cpu.e && v.cpu.s == u.cpu.s
    && v.m.wram[top] == u.m.wram[top] && v.m.wram[top - 1] == u.m.wram[top - 1]
    && v.m.wram[top - 2] == u.m.wram[top - 2] && v.m.wram[top - 3] == u.m.wram[top - 3]
  }

  predicate SameContext(c: Cpu, d: Cpu) {
    c.pbr == d.pbr && c.pc == d.pc && c.p == d.p && c.s == d.s && c.e == d.e
  }

  /** Entry, any handler at all, and RTI: the interrupted program gets its bank, PC, P and S back. */
  lemma NmiRoundTrip(s: State, v: State)
    requires Good(s) && Native(s.cpu) && InWram(s.m, s.cpu.s)
    ensures !Failed(EnterNmi(s)) && |s.m.rom| == RomMapping.ROM_SIZE
            ==> EnterNmi(s).cpu.pbr == 0
                && EnterNmi(s).cpu.pc == s.m.rom[0xFFEA] % 0x100 + s.m.rom[0xFFEB] % 0x100 * 0x100
    ensures !Failed(EnterNmi(s))
            ==> InWram(EnterNmi(s).m, s.cpu.s) && EnterNmi(s).k.nmiDepth == 1 && !EnterNmi(s).t.nmi.pending
    ensures !Failed(EnterNmi(s)) && !Failed(ReturnFromInterrupt(v)) && FrameIntact(EnterNmi(s), v, s.cpu.s)
            ==> SameContext(s.cpu, ReturnFromInterrupt(v).cpu)
  {
    hide EnterAt, ReturnFromInterrupt, Good;
    if |s.m.rom| == RomMapping.ROM_SIZE {
      HandlersEntered(s);
    }
    if !Failed(EnterNmi(s)) {
      EntryFrame(s, 0xFFEA);
      if !Failed(ReturnFromInterrupt(v)) && FrameIntact(EnterNmi(s), v, s.cpu.s) {
        ReturnReads(v, s.cpu.s, s.cpu);
      }
    }
  }

  lemma IrqRoundTrip(s: State, v: State)
    requires Good(s) && Native(s.cpu) && InWram(s.m, s.cpu.s)
    ensures !Failed(EnterIrq(s)) && |s.m.rom| == RomMapping.ROM_SIZE
            ==> EnterIrq(s).cpu.pbr == 0
                && EnterIrq(s).cpu.pc == s.m.rom[0xFFEE] % 0x100 + s.m.rom[0xFFEF] % 0x100 * 0x100
    ensures !Failed(EnterIrq(s))
            ==> InWram(EnterIrq(s).m, s.cpu.s) && EnterIrq(s).k.irqDepth == 1 && !EnterIrq(s).t.irq.transition
    ensures !Failed(EnterIrq(s)) && !Failed(ReturnFromInterrupt(v)) && FrameIntact(EnterIrq(s), v, s.cpu.s)
            ==> SameContext(s.cpu, ReturnFromInterrupt(v).cpu)
  {
    hide EnterAt, ReturnFromInterrupt, Good;
    if |s.m.rom| == RomMapping.ROM_SIZE {
      HandlersEntered(s);
    }
    if !Failed(EnterIrq(s)) {
      EntryFrame(s, 0xFFEE);
      if !Failed(ReturnFromInterrupt(v)) && FrameIntact(EnterIrq(s), v, s.cpu.s) {
        ReturnReads(v, s.cpu.s, s.cpu);
      }
    }
  }

  /** The shortest handler: entry and RTI with nothing in between give back the context and the depths. */
  lemma EntryThenReturn(s: State)
    requires Good(s) && Native(s.cpu) && InWram(s.m, s.cpu.s) && Idling(s.k)
    ensures var w := ReturnFromInterrupt(EnterNmi(s));
            !Failed(EnterNmi(s)) && !Failed(w)
            ==> && SameContext(s.cpu, w.cpu) && Idling(w.k)
                && w.k.nmiAccepts == s.k.nmiAccepts + 1 && w.k.nmiReturns == s.k.nmiReturns + 1
    ensures var w := ReturnFromInterrupt(EnterIrq(s));
            !Failed(EnterIrq(s)) && !Failed(w)
            ==> && SameContext(s.cpu, w.cpu) && Idling(w.k)
                && w.k.irqAccepts == s.k.irqAccepts + 1 && w.k.irqReturns == s.k.irqReturns + 1
  {
    hide Good, EnterNmi, EnterIrq, ReturnFromInterrupt;
    NmiThenReturn(s);
    IrqThenReturn(s);
  }

  lemma NmiThenReturn(s: State)
    requires Good(s) && Native(s.cpu) && InWram(s.m, s.cpu.s) && Idling(s.k)
    ensures var w := ReturnFromInterrupt(EnterNmi(s));
            !Failed(EnterNmi(s)) && !Failed(w)
            ==> && SameContext(s.cpu, w.cpu) && Idling(w.k)
                && w.k.nmiAccepts == s.k.nmiAccepts + 1 && w.k.nmiReturns == s.k.nmiReturns + 1
  {
    hide EnterAt, Good, Pull, Restored;
    if Failed(EnterNmi(s)) || Failed(ReturnFromInterrupt(EnterNmi(s))) {
      return;
    }
    EntryFrame(s, 0xFFEA);
    NmiProgress(s);
    var u := EnterNmi(s);
    FourPulls(u);
    NmiRoundTrip(s, u);
  }

  lemma IrqThenReturn(s: State)
    requires Good(s) && Native(s.cpu) && InWram(s.m, s.cpu.s) && Idling(s.k)
    ensures var w := ReturnFromInterrupt(EnterIrq(s));
            !Failed(EnterIrq(s)) && !Failed(w)
            ==> && SameContext(s.cpu, w.cpu) && Idling(w.k)
                && w.k.irqAccepts == s.k.irqAccepts + 1 && w.k.irqReturns == s.k.irqReturns + 1
  {
    hide EnterAt, Good, Pull, Restored;
    if Failed(EnterIrq(s)) || Failed(ReturnFromInterrupt(EnterIrq(s))) {
      return;
    }
    EntryFrame(s, 0xFFEE);
    IrqProgress(s);
    var u := EnterIrq(s);
    FourPulls(u);
    IrqRoundTrip(s, u);
  }

  lemma FourPulls(s: State)
    requires Good(s)
    ensures var u := Pull(Pull(Pull(Pull(s).s).s).s).s; !Failed(u) ==> SameInterrupts(s.k, u.k)
  {
    hide Pull, Good;
    SteadySelf(s);
    PullSteady(s, s);
    PullSteady(s, Pull(s).s);
    PullSteady(s, Pull(Pull(s).s).s);
    PullSteady(s, Pull(Pull(Pull(s).s).s).s);
  }

  // ----- entries and returns that cannot fail -----

  /** No manual transfer is armed, and no HDMA service can fail: it is off, or it follows a plain table. */
  ghost predicate Quiet(s: State) {
    Good(s) && s.d.mask == 0 && Safe(s)
  }

  lemma ArbitrateCompletes(s: State, speed: int)
    requires CpuSpeed(speed) && Inv(s) && s.d.mask == 0 && Safe(s)
    ensures var a := Arbitrate(s, speed); !Failed(a.s) && a.s.d.mask == 0 && Safe(a.s)
  {
    hide Waiting, Settled, Granted, Ledger, ServeHdma, Safe, Sound;
    ArbitrateOk(s, speed);
    InvRuns(s);
    if HdmaPending(s) {
      if s.t.arb.startDelay {
        SafeKept(s, ClearDelay(s));
      } else {
        LimitRange(s);
        WaitingWeaken(s.t, Limit(s), 56);
        ServeCompletes(s, speed, false);
      }
    }
  }

  lemma CycleCompletes(s: State, speed: int)
    requires CpuSpeed(speed) && Quiet(s)
    ensures var u := Cycle(s, speed); !Failed(u) && u.d.mask == 0 && Safe(u)
  {
    hide Inv, Balanced, Advance, Settled, Granted, Sample, Ledger, Arbitrate, Safe;
    GoodRuns(s);
    ArbitrateOk(s, speed);
    ArbitrateCompletes(s, speed);
    var a := Arbitrate(s, speed);
    SampledGranted(a.s, a.ran, Sampled(s, speed).k);
    GrantedWaits(Sampled(s, speed), speed);
    SafeKept(a.s, Cycle(s, speed));
  }

  lemma TouchCompletes(s: State, a: int)
    requires Quiet(s)
    ensures !Failed(Touch(s, a)) && Quiet(Touch(s, a)) && !Failed(Idle(s)) && Quiet(Idle(s))
  {
    hide Cycle, Good, BusSpeed, Safe;
    CycleCompletes(s, BusSpeed(s.fast, a));
    CycleCompletes(s, 6);
    TouchKeeps(s, a);
    SafeKept(Cycle(s, BusSpeed(s.fast, a)), Touch(s, a));
    SafeKept(Cycle(s, 6), Idle(s));
  }

  lemma PushCompletes(s: State, value: int)
    requires Quiet(s) && !s.cpu.e && 0 <= s.cpu.s < 0x2000
    ensures !Failed(Push(s, value)) && Quiet(Push(s, value))
  {
    hide Touch, Good, PpuPorts.Put, Safe, Bank, Local;
    GoodRuns(s);
    TouchCompletes(s, s.cpu.s);
    TouchKeeps(s, s.cpu.s);
    StackByte(s.cpu.s);
    PushStores(s, value);
    SafeKept(Touch(s, s.cpu.s), Push(s, value));
  }

  lemma FrameCompletes(s: State)
    requires Quiet(s) && Native(s.cpu) && InWram(s.m, s.cpu.s)
    ensures !Failed(PushFrame(s)) && Quiet(PushFrame(s))
  {
    hide Push, Quiet, Good, SameInterrupts, PpuPorts.Put;
    var c := s.cpu;
    FrameBytes(c);
    StackSteps(c.s);
    var one := Push(s, c.pbr);
    var two := Push(one, c.pc / 0x100);
    var three := Push(two, c.pc % 0x100);
    QuietGood(s);
    PushCompletes(s, c.pbr);
    PushStores(s, c.pbr);
    QuietGood(one);
    PushCompletes(one, c.pc / 0x100);
    PushStores(one, c.pc / 0x100);
    QuietGood(two);
    PushCompletes(two, c.pc % 0x100);
    PushStores(two, c.pc % 0x100);
    PushCompletes(three, c.p);
  }

  lemma QuietGood(s: State)
    requires Quiet(s)
    ensures Good(s) && !Failed(s)
  {
  }

  lemma VectorRead(s: State, a: int)
    requires 0xFFE0 <= a < 0x10000
    ensures Read(s, a).s == s
  {
    hide Cartridge;
    HdmaFrame.PlainRead(s, a) by {
      VectorPlain(s.m, a);
    }
  }

  lemma VectorPlain(m: Memory, a: int)
    requires 0xFFE0 <= a < 0x10000
    ensures HdmaFrame.Plain(m, a).Some?
  {
  }

  lemma LoadCompletes(s: State, a: int)
    requires Quiet(s) && 0xFFE0 <= a < 0x10000
    ensures !Failed(Load(s, a).s) && Quiet(Load(s, a).s)
  {
    hide Touch, Read, Good, Safe;
    TouchCompletes(s, a);
    VectorRead(Touch(s, a), a);
  }

  lemma EnterAtCompletes(s: State, vector: int)
    requires Quiet(s) && Native(s.cpu) && InWram(s.m, s.cpu.s) && 0xFFE0 <= vector < 0xFFFF
    ensures !Failed(EnterAt(s, vector)) && Quiet(EnterAt(s, vector))
  {
    hide Touch, Idle, PushFrame, Load, Masked, Good, FrameAt, InWram, SameInterrupts, Safe;
    var at := s.cpu.pbr * 0x10000 + s.cpu.pc;
    TouchCompletes(s, at);
    TouchKeeps(s, at);
    var wasted := Touch(s, at);
    TouchCompletes(wasted, at);
    TouchKeeps(wasted, at);
    FrameCompletes(Idle(wasted));
    FrameStored(Idle(wasted));
    var framed := PushFrame(Idle(wasted));
    var masked := framed.(cpu := framed.cpu.(p := Masked(s.cpu.p)));
    CpuQuiet(framed, masked.cpu);
    LoadCompletes(masked, vector);
    var low := Load(masked, vector);
    LoadCompletes(low.s, vector + 1);
    var high := Load(low.s, vector + 1);
    CpuQuiet(high.s, high.s.cpu.(pbr := 0, pc := low.value + high.value * 0x100));
  }

  lemma CpuQuiet(s: State, cpu: Cpu)
    requires Quiet(s)
    ensures Quiet(s.(cpu := cpu)) && !Failed(s.(cpu := cpu))
  {
    hide Waiting, Settled, Safe;
    SafeKept(s, s.(cpu := cpu));
  }

  lemma PullCompletes(s: State, at: int)
    requires Quiet(s) && !s.cpu.e && 0 <= at < 0x2000 && s.cpu.s == (at - 1) % 0x10000
    ensures !Failed(Pull(s).s) && Quiet(Pull(s).s) && Pull(s).s.cpu == s.cpu.(s := at)
  {
    hide Touch, Good, WramOffset, Safe;
    GoodRuns(s);
    UpFrom(at);
    var u := s.(cpu := s.cpu.(s := at));
    CpuQuiet(s, u.cpu);
    TouchCompletes(u, at);
    TouchKeeps(u, at);
    StackByte(at);
  }

  lemma ReturnCompletes(s: State, top: int)
    requires Quiet(s) && !s.cpu.e && 3 <= top < 0x2000 && s.cpu.s == (top - 4) % 0x10000
    requires (s.k.irqDepth != 0) != (s.k.nmiDepth != 0)
    ensures !Failed(ReturnFromInterrupt(s))
  {
    hide Pull, Quiet, LeaveInterrupt, Restored;
    StackSteps(top);
    var p := Pull(s);
    var low := Pull(p.s);
    var high := Pull(low.s);
    PullCompletes(s, top - 3);
    PullCompletes(p.s, top - 2);
    PullCompletes(low.s, top - 1);
    PullCompletes(high.s, top);
  }

  /** With no manual transfer armed, and HDMA off or following a plain table, entry and return in native mode
      complete, so the round trips hold without a proviso. */
  lemma InterruptCompletes(s: State)
    requires Quiet(s) && Native(s.cpu) && InWram(s.m, s.cpu.s) && Idling(s.k)
    ensures !Failed(EnterNmi(s)) && !Failed(ReturnFromInterrupt(EnterNmi(s)))
    ensures !Failed(EnterIrq(s)) && !Failed(ReturnFromInterrupt(EnterIrq(s)))
  {
    hide EnterAt, Good, ReturnFromInterrupt, FrameAt, InWram, Masked, Safe;
    EnterAtCompletes(s, 0xFFEA);
    EnterAtCompletes(s, 0xFFEE);
    EntryFrame(s, 0xFFEA);
    EntryFrame(s, 0xFFEE);
    TopOf(s);
    DepthQuiet(EnterAt(s, 0xFFEA), EnterNmi(s));
    DepthQuiet(EnterAt(s, 0xFFEE), EnterIrq(s));
    ReturnCompletes(EnterNmi(s), s.cpu.s);
    ReturnCompletes(EnterIrq(s), s.cpu.s);
  }

  lemma TopOf(s: State)
    requires InWram(s.m, s.cpu.s)
    ensures 3 <= s.cpu.s < 0x2000
  {
  }

  /** Counting the entry and clearing the request changes nothing that the invariants see. */
  lemma DepthQuiet(s: State, u: State)
    requires Quiet(s) && u.d == s.d && u.r == s.r && u.t.beam == s.t.beam && u.t.arb == s.t.arb
    requires u.k.tally == s.k.tally && u.k.idle == s.k.idle && u.m == s.m && u.p == s.p
    ensures Quiet(u)
  {
    hide Settled, Safe;
    SafeKept(s, u);
  }
}
