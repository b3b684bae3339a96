/** Every run of the machine: requests are served in time, every clock is accounted for, no NMI edge is lost and
    interrupts never nest. */
module MachineRuns {
  import opened Options
  import opened Clock
  import opened ClockEvents
  import opened MachineBus
  import opened MachineDma
  import opened HdmaService
  import opened HdmaSchedule
  import opened MachineCycle
  import opened MachineCpu
  import HdmaFrame
  import HdmaTable
  import PpuPorts
  import RomChecksum

  /** The speeds of the code and data cycles, six for an internal one, the transfers' clocks, and forty for every
      refresh. */
  function Accounted(s: State): int {
    s.k.tally.codeClocks + s.k.tally.dataClocks + 6 * s.k.idle + s.k.tally.dmaClocks
    + REFRESH_CLOCKS * s.t.beam.refreshes
  }

  predicate Balanced(s: State) {
    s.t.beam.clock == Accounted(s)
  }

  /** At most one interrupt is being handled, and the depths count entries without returns. */
  predicate DepthsOk(k: Counts) {
    && k.irqDepth == k.irqAccepts - k.irqReturns && k.nmiDepth == k.nmiAccepts - k.nmiReturns
    && k.irqDepth >= 0 && k.nmiDepth >= 0 && k.irqDepth + k.nmiDepth <= 1
  }

  predicate Good(s: State) {
    Inv(s) && Balanced(s)
  }

  predicate SameInterrupts(k: Counts, q: Counts) {
    && k.irqDepth == q.irqDepth && k.irqAccepts == q.irqAccepts && k.irqReturns == q.irqReturns
    && k.nmiDepth == q.nmiDepth && k.nmiAccepts == q.nmiAccepts && k.nmiReturns == q.nmiReturns
  }

  /** How the edge detector moves while no $4200 write raises an edge anew: an edge about to be sampled stays so
      until a cycle is free of transfers, which latches it; and an edge raised meanwhile is one of these. */
  ghost predicate EdgeStep(s: State, u: State) {
    var (k, q) := (s.k.tally, u.k.tally);
    && q.rearmed >= k.rearmed && q.free >= k.free && q.latched >= k.latched && u.t.nmi.raises >= s.t.nmi.raises
    && (q.rearmed == k.rearmed && s.t.nmi.counter == 1 ==>
          if q.free == k.free then u.t.nmi.counter == 1 && q.latched == k.latched else q.latched > k.latched)
    && (q.rearmed == k.rearmed && u.t.nmi.raises > s.t.nmi.raises ==>
          u.t.nmi.counter == 1 || q.latched > k.latched)
  }

  lemma EdgeStepChain(s: State, u: State, w: State)
    requires EdgeStep(s, u) && EdgeStep(u, w)
    ensures EdgeStep(s, w)
  {
  }

  /** A step that enters and leaves no interrupt. */
  ghost predicate Steady(s: State, u: State) {
    if Failed(u) then !SchedulerFault(u)
    else
      && Good(u) && SameInterrupts(s.k, u.k) && (EdgeHeld(s.t.nmi) ==> EdgeHeld(u.t.nmi)) && EdgeStep(s, u)
      && Follow(s, u)
  }

  lemma SteadyChain(s: State, u: State, w: State)
    requires Steady(s, u) && !Failed(u) && Steady(u, w)
    ensures Steady(s, w)
  {
    hide Good, EdgeHeld, EdgeStep;
    if !Failed(w) {
      EdgeStepChain(s, u, w);
    }
  }

  lemma GoodRuns(s: State)
    requires Good(s)
    ensures !Failed(s) && Settled(s.t.beam) && Inv(s)
  {
  }

  // ----- one cycle -----

  lemma SampleHolds(n: Nmi, lock: bool)
    ensures EdgeHeld(n) ==> EdgeHeld(Sample(n, lock))
    ensures n.counter == 1 ==> if lock then Sample(n, lock).counter == 1 else Sample(n, lock).pending
  {
  }

  /** A raised edge survives the cycle, and is latched by it unless a transfer ran. */
  lemma CycleEdge(s: State, speed: int)
    requires CpuSpeed(speed) && Inv(s)
    ensures var u := Cycle(s, speed);
            !Failed(u) ==>
            && (EdgeHeld(s.t.nmi) ==> EdgeHeld(u.t.nmi))
            && (s.t.nmi.counter == 1 ==> if Arbitrate(s, speed).ran then u.t.nmi.counter == 1 else u.t.nmi.pending)
            && (u.k.tally.latched != s.k.tally.latched ==> u.t.nmi.pending && u.k.tally.free == s.k.tally.free + 1)
  {
    hide Arbitrate, Advance, Sample, Inv, Ledger;
    if Failed(Cycle(s, speed)) {
      return;
    }
    ArbitrateOk(s, speed);
    var a := Arbitrate(s, speed);
    SampleHolds(a.s.t.nmi, a.ran);
    AdvanceKeepsEdge(Sampled(s, speed).t, Sampled(s, speed).r, speed);
  }

  lemma CycleSteps(s: State, speed: int)
    requires CpuSpeed(speed) && Inv(s)
    ensures !Failed(Cycle(s, speed)) ==> EdgeStep(s, Cycle(s, speed))
  {
    hide Arbitrate, Advance, Inv, Ledger;
    if Failed(Cycle(s, speed)) {
      return;
    }
    ArbitrateOk(s, speed);
    AdvanceKeepsEdge(Sampled(s, speed).t, Sampled(s, speed).r, speed);
  }

  // ----- the elementary actions -----

  /** A cycle whose own clocks are still to be entered in the ledger. */
  ghost predicate Unentered(s: State, u: State, speed: int) {
    if Failed(u) then !SchedulerFault(u)
    else
      && Inv(u) && u.t.beam.clock == Accounted(u) + speed && u.k == s.k.(tally := u.k.tally)
      && (EdgeHeld(s.t.nmi) ==> EdgeHeld(u.t.nmi)) && EdgeStep(s, u) && Follow(s, u)
  }

  lemma CycleSteady(s: State, speed: int)
    requires CpuSpeed(speed) && Good(s)
    ensures Unentered(s, Cycle(s, speed), speed)
  {
    hide Cycle, Arbitrate, Inv, Settled, EdgeHeld, EdgeStep;
    CycleOk(s, speed);
    if !Failed(Cycle(s, speed)) {
      CycleEdge(s, speed);
      CycleSteps(s, speed);
    }
  }

  lemma CountSteady(s: State, u: State, k: Counts, speed: int)
    requires Unentered(s, u, speed) && !Failed(u)
    requires SameInterrupts(u.k, k)
    requires k.tally == u.k.tally.(codeClocks := k.tally.codeClocks, dataClocks := k.tally.dataClocks)
    requires k.tally.codeClocks + k.tally.dataClocks + 6 * k.idle
             == u.k.tally.codeClocks + u.k.tally.dataClocks + 6 * u.k.idle + speed
    ensures Steady(s, u.(k := k))
  {
    hide Settled, EdgeHeld, Waiting;
  }

  lemma TouchSteady(s: State, a: int)
    requires Good(s)
    ensures Steady(s, Touch(s, a)) && Steady(s, FetchCode(s, a)) && Steady(s, Idle(s))
  {
    hide Cycle, Steady, BusSpeed, Failed, Inv, EdgeStep, EdgeHeld;
    var speed := BusSpeed(s.fast, a);
    var u := Cycle(s, speed);
    CycleSteady(s, speed);
    CycleSteady(s, 6);
    if Failed(u) {
      UnenteredFails(s, u, speed);
    } else {
      CountSteady(s, u, Touch(s, a).k, speed);
      CountSteady(s, u, FetchCode(s, a).k, speed);
    }
    if Failed(Cycle(s, 6)) {
      UnenteredFails(s, Cycle(s, 6), 6);
    } else {
      CountSteady(s, Cycle(s, 6), Idle(s).k, 6);
    }
  }

  lemma UnenteredFails(s: State, u: State, speed: int)
    requires Unentered(s, u, speed) && Failed(u)
    ensures Steady(s, u)
  {
  }

  /** A bus access without its timing: nothing the run depends on but what the guest asked for. */
  lemma ReadSteady(s: State, a: int)
    requires Good(s)
    ensures Steady(s, Read(s, a).s)
  {
    hide Read, Near, Settled;
    ReadOnly(s, a);
  }

  lemma LoadSteady(s: State, a: int)
    requires Good(s)
    ensures Steady(s, Load(s, a).s)
  {
    hide Read, Touch, Steady, Good, Failed;
    TouchSteady(s, a);
    var u := Touch(s, a);
    if !Failed(u) {
      SteadyGood(s, u);
      ReadSteady(u, a);
      SteadyChain(s, u, Read(u, a).s);
    }
  }

  lemma SteadyGood(s: State, u: State)
    requires Steady(s, u) && !Failed(u)
    ensures Good(u)
  {
  }

  // ----- guest writes -----

  /** Settings that the beam and the pending requests do not depend on. */
  lemma SettingsSteady(s: State, r: Timers, irq: Irq, nmi: Nmi, fast: bool, rearmed: int)
    requires Good(s) && (r.hdmaen == 0 || r.hdmaen == 4)
    requires (rearmed == s.k.tally.rearmed && nmi == s.t.nmi)
             || (rearmed > s.k.tally.rearmed && nmi == s.t.nmi.(counter := 2))
    ensures Steady(s, s.(r := r, t := s.t.(irq := irq, nmi := nmi), fast := fast,
                         k := s.k.(tally := s.k.tally.(rearmed := rearmed))))
  {
    hide Settled;
  }

  lemma SettingsSound(s: State)
    requires Good(s)
    ensures s.r.hdmaen == 0 || s.r.hdmaen == 4
  {
  }

  lemma EnableSteady(s: State, value: int)
    requires Good(s)
    ensures Steady(s, WriteInterruptEnable(s, value))
  {
    hide Good, Steady;
    SettingsSound(s);
    var u := WriteInterruptEnable(s, value);
    SettingsSteady(s, u.r, u.t.irq, u.t.nmi, s.fast, u.k.tally.rearmed);
  }

  lemma HdmaEnableSteady(s: State, value: int)
    requires Good(s)
    ensures Steady(s, WriteHdmaEnable(s, value))
  {
    hide Good, Proved;
    SettingsSound(s);
    var u := WriteHdmaEnable(s, value);
    if value == 0 || (value == 4 && Proved(s.d)) {
      SettingsSteady(s, u.r, s.t.irq, s.t.nmi, s.fast, s.k.tally.rearmed);
    }
  }

  /** Arming a manual transfer may delay a pending request, once. */
  lemma DmaEnableSteady(s: State, value: int)
    requires Good(s)
    ensures Steady(s, WriteDmaEnable(s, value))
  {
    hide Settled;
    var u := WriteDmaEnable(s, value);
    WaitingWeaken(s.t, Limit(s), Limit(u));
  }

  lemma ControlSteady(s: State, local: int, value: int)
    requires Good(s) && 0x4200 <= local <= 0x420D
    ensures Steady(s, WriteControl(s, local, value))
  {
    hide Good, Steady, WriteInterruptEnable, WriteHdmaEnable, WriteDmaEnable;
    SettingsSound(s);
    EnableSteady(s, value);
    HdmaEnableSteady(s, value);
    DmaEnableSteady(s, value);
    if local != 0x4200 && local != 0x420B && local != 0x420C {
      var u := WriteControl(s, local, value);
      SettingsSteady(s, u.r, s.t.irq, s.t.nmi, u.fast, s.k.tally.rearmed);
    }
  }

  lemma RegisterSteady(s: State, d: Dma)
    requires Good(s) && d.mask == s.d.mask
    ensures d.hdma == s.d.hdma ==> Steady(s, s.(d := d))
    ensures Steady(s, s.(d := d, t := Disturbed(s.t)))
  {
    hide Settled;
  }

  lemma MemorySteady(s: State, m: Memory)
    requires Good(s) && m.rom == s.m.rom
    ensures Steady(s, s.(m := m)) && Steady(s, Fail(s, BusWrite)) && Steady(s, Fail(s, DmaRegisterAccess))
  {
    hide Waiting, Settled;
  }

  lemma PpuSteady(s: State, local: int, value: int)
    requires Good(s)
    ensures Steady(s, WritePpu(s, local, value))
  {
    hide Waiting, Settled, PpuPorts.Write, PpuPorts.Refused;
    PpuPorts.WriteSized(s.p, local, value);
  }

  lemma WriteSteady(s: State, a: int, value: int)
    requires Good(s)
    ensures Steady(s, Write(s, a, value))
  {
    hide Good, Steady, WritePpu, WriteControl, WriteDmaRegister, DmaRegisters, Bank, Local, RomChecksum.LowBank,
         WramOffset, RomChecksum.SramOffset, RomChecksum.CpuToLinear, Fail;
    var local := Local(a);
    MemorySteady(s, s.m);
    if WramOffset(a).Some? {
      MemorySteady(s, Write(s, a, value).m);
    } else if RomChecksum.SramOffset(Bank(a), local).Some? {
      MemorySteady(s, Write(s, a, value).m);
    } else if RomChecksum.CpuToLinear(Bank(a), local).Some? {
    } else if 0x2100 <= local <= 0x2133 {
      PpuSteady(s, local, value);
    } else if 0x4200 <= local <= 0x420D {
      ControlSteady(s, local, value);
    } else if WriteDmaRegister(s.d, local, value).Some? {
      DmaRegisterKeeps(s.d, local, value);
      RegisterSteady(s, WriteDmaRegister(s.d, local, value).value);
    }
  }

  lemma StoreSteady(s: State, a: int, value: int)
    requires Good(s)
    ensures Steady(s, Store(s, a, value))
  {
    hide Write, Touch, Steady, Good, Failed;
    TouchSteady(s, a);
    var u := Touch(s, a);
    if !Failed(u) {
      SteadyGood(s, u);
      WriteSteady(u, a, value);
      SteadyChain(s, u, Write(u, a, value));
    }
  }

  lemma CpuSteady(s: State, u: State, cpu: Cpu)
    requires Steady(s, u) && !Failed(u)
    ensures Steady(s, u.(cpu := cpu))
  {
    hide Waiting, Settled, EdgeHeld;
  }

  // ----- the stack and interrupts -----

  lemma SteadySelf(s: State)
    requires Good(s)
    ensures Steady(s, s)
  {
  }

  lemma PushSteady(s: State, u: State, value: int)
    requires Steady(s, u)
    ensures Steady(s, Push(u, value))
  {
    hide Store, Steady, Good, Down, Failed;
    if !Failed(u) {
      SteadyGood(s, u);
      StoreSteady(u, u.cpu.s, value);
      var w := Store(u, u.cpu.s, value);
      SteadyChain(s, u, w);
      if !Failed(w) {
        CpuSteady(s, w, w.cpu.(s := Down(w.cpu.e, w.cpu.s)));
      }
    }
  }

  lemma PullSteady(s: State, u: State)
    requires Steady(s, u)
    ensures Steady(s, Pull(u).s)
  {
    hide Load, Steady, Good, Up, Failed;
    if !Failed(u) {
      SteadyGood(s, u);
      var w := u.(cpu := u.cpu.(s := Up(u.cpu.e, u.cpu.s)));
      CpuSteady(s, u, w.cpu);
      CpuRuns(u, w.cpu);
      SteadyGood(s, w);
      LoadSteady(w, w.cpu.s);
      SteadyChain(s, w, Load(w, w.cpu.s).s);
    }
  }

  lemma CpuRuns(s: State, cpu: Cpu)
    ensures Failed(s.(cpu := cpu)) == Failed(s)
  {
  }

  lemma FrameSteady(s: State, u: State)
    requires Steady(s, u)
    ensures Steady(s, PushFrame(u))
  {
    hide Push, Steady;
    var one := Push(u, u.cpu.pbr % 0x100);
    var two := Push(one, u.cpu.pc / 0x100 % 0x100);
    var three := Push(two, u.cpu.pc % 0x100);
    PushSteady(s, u, u.cpu.pbr % 0x100);
    PushSteady(s, one, u.cpu.pc / 0x100 % 0x100);
    PushSteady(s, two, u.cpu.pc % 0x100);
    PushSteady(s, three, u.cpu.p % 0x100);
  }

  lemma VectorSteady(s: State, u: State, a: int)
    requires Steady(s, u) && !Failed(u)
    ensures Steady(s, Load(u, a).s)
  {
    hide Load, Steady, Good;
    SteadyGood(s, u);
    LoadSteady(u, a);
    SteadyChain(s, u, Load(u, a).s);
  }

  lemma EnterAtSteady(s: State, vector: int)
    requires Good(s)
    ensures Steady(s, EnterAt(s, vector))
  {
    hide Load, Touch, Idle, PushFrame, Steady, Good, Masked, Failed;
    var at := s.cpu.pbr * 0x10000 + s.cpu.pc;
    TouchSteady(s, at);
    var wasted := Touch(s, at);
    if !Failed(wasted) {
      SteadyGood(s, wasted);
      TouchSteady(wasted, 0);
      SteadyChain(s, wasted, Idle(wasted));
      FrameSteady(s, Idle(wasted));
      var framed := PushFrame(Idle(wasted));
      if !Failed(framed) {
        var masked := framed.(cpu := framed.cpu.(p := Masked(s.cpu.p)));
        CpuSteady(s, framed, masked.cpu);
        CpuRuns(framed, masked.cpu);
        VectorSteady(s, masked, vector);
        var low := Load(masked, vector);
        if !Failed(low.s) {
          VectorSteady(s, low.s, vector + 1);
          var high := Load(low.s, vector + 1);
          if !Failed(high.s) {
            CpuSteady(s, high.s, high.s.cpu.(pbr := 0, pc := low.value + high.value * 0x100));
          }
        }
      }
    }
  }

  /** A step that may enter or leave an interrupt. */
  ghost predicate Progress(s: State, u: State) {
    if Failed(u) then !SchedulerFault(u)
    else
      && Good(u) && (DepthsOk(s.k) ==> DepthsOk(u.k)) && u.k.nmiAccepts >= s.k.nmiAccepts
      && (EdgeHeld(s.t.nmi) && u.k.nmiAccepts == s.k.nmiAccepts ==> EdgeHeld(u.t.nmi)) && EdgeStep(s, u)
      && Follow(s, u)
  }

  lemma SteadyProgress(s: State, u: State)
    requires Steady(s, u)
    ensures Progress(s, u)
  {
    hide Good, EdgeHeld;
  }

  lemma FaultProgress(s: State, f: Fault)
    requires f == EmulationMode || f == NestedInterrupt || f == ReturnWithoutFrame
    ensures Progress(s, Fail(s, f)) && Failed(Fail(s, f))
  {
  }

  lemma NmiProgress(s: State)
    requires Good(s)
    ensures Progress(s, EnterNmi(s))
  {
    hide EnterAt, Near, Settled;
    FaultProgress(s, EmulationMode);
    FaultProgress(s, NestedInterrupt);
    EnterAtSteady(s, 0xFFEA);
  }

  lemma IrqProgress(s: State)
    requires Good(s) && Idling(s.k)
    ensures Progress(s, EnterIrq(s))
  {
    hide EnterAt, Near, Settled, EdgeHeld;
    FaultProgress(s, EmulationMode);
    FaultProgress(s, NestedInterrupt);
    EnterAtSteady(s, 0xFFEE);
  }

  lemma LeaveProgress(s: State, u: State, cpu: Cpu)
    requires Steady(s, u) && !Failed(u) && (s.k.irqDepth != 0) != (s.k.nmiDepth != 0)
    ensures Progress(s, u.(cpu := cpu, k := LeaveInterrupt(u.k)))
  {
    hide Waiting, Settled, EdgeHeld;
  }

  lemma ReturnProgress(s: State)
    requires Good(s)
    ensures Progress(s, ReturnFromInterrupt(s))
  {
    hide Pull, Steady, Good, Failed, LeaveInterrupt, Restored, Progress, Fail;
    FaultProgress(s, EmulationMode);
    FaultProgress(s, ReturnWithoutFrame);
    SteadySelf(s);
    var p := Pull(s);
    var low := Pull(p.s);
    var high := Pull(low.s);
    var bank := Pull(high.s);
    PullSteady(s, s);
    PullSteady(s, p.s);
    PullSteady(s, low.s);
    PullSteady(s, high.s);
    if Failed(bank.s) {
      SteadyProgress(s, bank.s);
    } else if !s.cpu.e && (s.k.irqDepth != 0) != (s.k.nmiDepth != 0) {
      LeaveProgress(s, bank.s, Restored(bank.s.cpu, p.value, low.value + high.value * 0x100, bank.value));
    }
  }

  // ----- runs -----

  lemma ActProgress(s: State, x: Action)
    requires Good(s)
    ensures Progress(s, Act(s, x))
  {
    hide Touch, FetchCode, Idle, Load, Store, EnterNmi, EnterIrq, ReturnFromInterrupt, Good, Steady, Progress;
    GoodRuns(s);
    SteadySelf(s);
    SteadyProgress(s, s);
    match x
    case CodeFetch(a) => TouchSteady(s, a); SteadyProgress(s, FetchCode(s, a));
    case InternalCycle => TouchSteady(s, 0); SteadyProgress(s, Idle(s));
    case DataCycle(a) => TouchSteady(s, a); SteadyProgress(s, Touch(s, a));
    case DataLoad(a) => LoadSteady(s, a); SteadyProgress(s, Load(s, a).s);
    case DataStore(a, value) => StoreSteady(s, a, value % 0x100); SteadyProgress(s, Store(s, a, value % 0x100));
    case Registers(cpu) => CpuSteady(s, s, cpu); SteadyProgress(s, s.(cpu := cpu));
    case AcceptInterrupt =>
      NmiProgress(s);
      if Idling(s.k) {
        IrqProgress(s);
      }
    case InterruptReturn => ReturnProgress(s);
  }

  lemma BootGood(sram: seq<int>, rom: seq<int>, port: (int, int) -> int)
    ensures Good(Boot(sram, rom, port)) && DepthsOk(Boot(sram, rom, port).k)
  {
    StartSettled();
  }

  /** What every run keeps, from any state that has it. */
  lemma {:induction false} RunFrom(start: State, actions: seq<Action>, n: nat)
    requires Good(start) && DepthsOk(start.k) && n <= |actions|
    ensures var s := After(start, actions, n);
            if Failed(s) then !SchedulerFault(s) else Good(s) && DepthsOk(s.k)
  {
    hide Act, Good, Failed, SchedulerFault, DepthsOk;
    if n == 0 {
      GoodRuns(start);
    } else {
      RunFrom(start, actions, n - 1);
      var s := After(start, actions, n - 1);
      if Failed(s) {
        ActFails(s, actions[n - 1]);
      } else {
        ActProgress(s, actions[n - 1]);
      }
    }
  }

  /** What holds in every reachable state that has not failed; and no run fails in the HDMA scheduler. */
  lemma EveryRun(sram: seq<int>, rom: seq<int>, port: (int, int) -> int, actions: seq<Action>, n: nat)
    requires n <= |actions|
    ensures var s := After(Boot(sram, rom, port), actions, n);
            if Failed(s) then !SchedulerFault(s) else Good(s) && DepthsOk(s.k)
  {
    hide Act, Good, Boot, Failed, SchedulerFault, DepthsOk;
    BootGood(sram, rom, port);
    RunFrom(Boot(sram, rom, port), actions, n);
  }

  lemma ActFails(s: State, x: Action)
    requires Failed(s)
    ensures Act(s, x) == s
  {
  }

  /** No scheduled HDMA event ever finds the previous one still waiting: a pending initialisation was raised on
      this line 0, a pending transfer on this visible line, at most 56 clocks ago. */
  lemma RequestsServedInTime(sram: seq<int>, rom: seq<int>, port: (int, int) -> int, actions: seq<Action>, n: nat)
    requires n <= |actions|
    ensures var s := After(Boot(sram, rom, port), actions, n); !SchedulerFault(s)
    ensures var s := After(Boot(sram, rom, port), actions, n);
            !Failed(s) && s.t.arb.initPending ==>
            && s.t.beam.frames > 0 && s.t.beam.v == 0 && s.t.beam.initH <= s.t.beam.h <= s.t.beam.initH + 56
            && s.t.arb.pace.since == ClockAt(s.t.beam.frames, 0, s.t.beam.initH)
    ensures var s := After(Boot(sram, rom, port), actions, n);
            !Failed(s) && s.t.arb.transferPending ==>
            && s.t.beam.v < 240 && TRANSFER_H <= s.t.beam.h <= TRANSFER_H + 56
            && s.t.arb.pace.since == ClockAt(s.t.beam.frames, s.t.beam.v, TRANSFER_H)
    ensures var s := After(Boot(sram, rom, port), actions, n);
            !Failed(s) && Pending(s.t.arb) ==> 0 <= s.t.beam.clock - s.t.arb.pace.since <= 56
  {
    hide After, Boot, Balanced, Waiting;
    EveryRun(sram, rom, port, actions, n);
    var s := After(Boot(sram, rom, port), actions, n);
    if !Failed(s) {
      LimitRange(s);
      WaitingWeaken(s.t, Limit(s), 56);
      Deadline(s);
    }
  }

  lemma Deadline(s: State)
    requires Settled(s.t.beam) && Waiting(s.t, 56)
    ensures s.t.arb.initPending ==>
            && s.t.beam.frames > 0 && s.t.beam.v == 0 && s.t.beam.initH <= s.t.beam.h <= s.t.beam.initH + 56
            && s.t.arb.pace.since == ClockAt(s.t.beam.frames, 0, s.t.beam.initH)
    ensures s.t.arb.transferPending ==>
            && s.t.beam.v < 240 && TRANSFER_H <= s.t.beam.h <= TRANSFER_H + 56
            && s.t.arb.pace.since == ClockAt(s.t.beam.frames, s.t.beam.v, TRANSFER_H)
    ensures Pending(s.t.arb) ==> 0 <= s.t.beam.clock - s.t.arb.pace.since <= 56
  {
  }

  /** The same with the age carried along the run: one request, known by the clock at which it was raised, is
      never pending at two moments more than 56 clocks apart. */
  lemma RequestAge(sram: seq<int>, rom: seq<int>, port: (int, int) -> int, actions: seq<Action>, m: nat, n: nat)
    requires m <= n <= |actions|
    ensures var (s, u) := (After(Boot(sram, rom, port), actions, m), After(Boot(sram, rom, port), actions, n));
            !Failed(u) && Pending(s.t.arb) && Pending(u.t.arb) && s.t.arb.pace.since == u.t.arb.pace.since
            ==> u.t.beam.clock - s.t.beam.clock <= 56
  {
    hide After, Boot, ClockAt;
    NoLostNmi(sram, rom, port, actions, m, n);
    RequestsServedInTime(sram, rom, port, actions, m);
    RequestsServedInTime(sram, rom, port, actions, n);
  }

  /** The whole-run ledger: where every master clock went, and one refresh for every line. */
  lemma ClockLedger(sram: seq<int>, rom: seq<int>, port: (int, int) -> int, actions: seq<Action>, n: nat)
    requires n <= |actions|
    ensures var s := After(Boot(sram, rom, port), actions, n);
            !Failed(s)
            ==> && s.t.beam.clock == s.k.tally.codeClocks + s.k.tally.dataClocks + 6 * s.k.idle + s.k.tally.dmaClocks
                                     + 40 * s.t.beam.refreshes
                && s.t.beam.refreshes == 262 * s.t.beam.frames + s.t.beam.v + (if s.t.beam.refreshDone then 1 else 0)
                && s.t.beam.clock == ClockAt(s.t.beam.frames, s.t.beam.v, s.t.beam.h)
                && OnScreen(s.t.beam.frames, s.t.beam.v, s.t.beam.h) && s.t.beam.field == s.t.beam.frames % 2
  {
    hide After, Boot, ClockAt, OnScreen;
    EveryRun(sram, rom, port, actions, n);
  }

  /** Interrupts never nest, and the depths are the entries without returns. */
  lemma InterruptsNeverNest(sram: seq<int>, rom: seq<int>, port: (int, int) -> int, actions: seq<Action>, n: nat)
    requires n <= |actions|
    ensures var s := After(Boot(sram, rom, port), actions, n);
            !Failed(s)
            ==> && s.k.irqDepth == s.k.irqAccepts - s.k.irqReturns && s.k.nmiDepth == s.k.nmiAccepts - s.k.nmiReturns
                && 0 <= s.k.irqDepth && 0 <= s.k.nmiDepth && s.k.irqDepth + s.k.nmiDepth <= 1
  {
    hide After, Boot, Good;
    EveryRun(sram, rom, port, actions, n);
  }

  /** Once raised, an NMI edge is held until an NMI is accepted, whatever happens in between. */
  lemma {:induction false} NoLostNmi(sram: seq<int>, rom: seq<int>, port: (int, int) -> int, actions: seq<Action>,
                                     m: nat, n: nat)
    requires m <= n <= |actions|
    ensures var (s, u) := (After(Boot(sram, rom, port), actions, m), After(Boot(sram, rom, port), actions, n));
            !Failed(u)
            ==> !Failed(s) && u.k.nmiAccepts >= s.k.nmiAccepts
                && (EdgeHeld(s.t.nmi) && u.k.nmiAccepts == s.k.nmiAccepts ==> EdgeHeld(u.t.nmi))
    decreases n
  {
    hide Act, Good, Boot, EdgeHeld;
    if m < n {
      NoLostNmi(sram, rom, port, actions, m, n - 1);
      var s := After(Boot(sram, rom, port), actions, n - 1);
      EveryRun(sram, rom, port, actions, n - 1);
      if Failed(s) {
        ActFails(s, actions[n - 1]);
      } else {
        ActProgress(s, actions[n - 1]);
      }
    }
  }

  lemma EdgeStepSelf(s: State)
    ensures EdgeStep(s, s)
  {
  }

  lemma {:induction false} EdgeSteps(sram: seq<int>, rom: seq<int>, port: (int, int) -> int, actions: seq<Action>,
                                     m: nat, n: nat)
    requires m <= n <= |actions|
    ensures var (s, u) := (After(Boot(sram, rom, port), actions, m), After(Boot(sram, rom, port), actions, n));
            !Failed(u) ==> EdgeStep(s, u)
    decreases n
  {
    hide Act, Good, Boot, EdgeHeld, EdgeStep;
    var s := After(Boot(sram, rom, port), actions, m);
    if m < n {
      EdgeSteps(sram, rom, port, actions, m, n - 1);
      var u := After(Boot(sram, rom, port), actions, n - 1);
      EveryRun(sram, rom, port, actions, n - 1);
      if Failed(u) {
        ActFails(u, actions[n - 1]);
      } else if !Failed(Act(u, actions[n - 1])) {
        ActProgress(u, actions[n - 1]);
        EdgeStepChain(s, u, Act(u, actions[n - 1]));
      }
    } else {
      EdgeStepSelf(s);
    }
  }

  lemma BootFollows(sram: seq<int>, rom: seq<int>, port: (int, int) -> int)
    ensures Follows(Boot(sram, rom, port)) && Boot(sram, rom, port).m.rom == rom
    ensures |Boot(sram, rom, port).p.scroll.bgH| == 4
  {
  }

  lemma {:induction false} PlaceKept(sram: seq<int>, rom: seq<int>, port: (int, int) -> int, actions: seq<Action>,
                                     n: nat)
    requires n <= |actions|
    ensures var s := After(Boot(sram, rom, port), actions, n);
            !Failed(s) ==> Follows(s) && s.m.rom == rom && |s.p.scroll.bgH| == 4
  {
    hide Act, Good, Boot, EdgeHeld, EdgeStep, Follows;
    if n == 0 {
      BootFollows(sram, rom, port);
    } else {
      PlaceKept(sram, rom, port, actions, n - 1);
      EveryRun(sram, rom, port, actions, n - 1);
      var s := After(Boot(sram, rom, port), actions, n - 1);
      if Failed(s) {
        ActFails(s, actions[n - 1]);
      } else {
        ActProgress(s, actions[n - 1]);
      }
    }
  }

  /** In an undisturbed frame a line has been served for each line begun but a pending one, and the cursor stands
      where the table puts the next line to be served. */
  ghost predicate InTurn(s: State) {
    InFrame(s.t.beam) && s.t.arb.pace.whole ==>
      && s.t.arb.pace.taken == LinesBegun(s.t.beam) - (if s.t.arb.transferPending then 1 else 0)
      && (s.t.arb.transferPending ==> s.t.arb.pace.taken == s.t.beam.v)
      && (!s.t.arb.initPending ==>
            && s.t.arb.pace.taken >= 0
            && s.d.hdma == HdmaTable.AfterLines(HdmaFrame.Rom(s.m.rom), HdmaFrame.TABLE, s.t.arb.pace.taken))
  }

  lemma TurnOf(s: State)
    requires Good(s) && Follows(s)
    ensures InTurn(s)
  {
    hide HdmaTable.AfterLines, HdmaFrame.Rom, Settled;
  }

  /** HDMA keeps step with the beam in every run. */
  lemma LineInTurn(sram: seq<int>, rom: seq<int>, port: (int, int) -> int, actions: seq<Action>, n: nat)
    requires n <= |actions|
    ensures var s := After(Boot(sram, rom, port), actions, n); !Failed(s) ==> InTurn(s) && s.m.rom == rom
  {
    hide After, Boot, Good, Follows, InTurn;
    EveryRun(sram, rom, port, actions, n);
    PlaceKept(sram, rom, port, actions, n);
    var s := After(Boot(sram, rom, port), actions, n);
    if !Failed(s) {
      TurnOf(s);
    }
  }

  /** Between two moments of a run without a $4200 write that raises an edge anew: an edge about to be sampled
      waits for exactly the first cycle that grants no transfer, and is latched by it; an edge raised at dot 6 of
      the NMI line in between is about to be sampled or has been latched. */
  lemma EdgeLatched(sram: seq<int>, rom: seq<int>, port: (int, int) -> int, actions: seq<Action>, m: nat, n: nat)
    requires m <= n <= |actions|
    ensures var (s, u) := (After(Boot(sram, rom, port), actions, m), After(Boot(sram, rom, port), actions, n));
            var (k, q) := (s.k.tally, u.k.tally);
            !Failed(u) && q.rearmed == k.rearmed
            ==> && (s.t.nmi.counter == 1 && q.free == k.free ==> u.t.nmi.counter == 1 && q.latched == k.latched)
                && (s.t.nmi.counter == 1 && q.free > k.free ==> q.latched > k.latched)
                && (u.t.nmi.raises > s.t.nmi.raises ==> u.t.nmi.counter == 1 || q.latched > k.latched)
  {
    hide After, Boot, Failed;
    EdgeSteps(sram, rom, port, actions, m, n);
  }
}
