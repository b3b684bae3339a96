/** The machine as the program keeps it: fields updated in place, one master clock at a time.  Each method is
    proved equal to the function of the same step, and the transfers and cycles to what was proved of those. */
module Console {
  import opened Options
  import opened Clock
  import opened MachineBus
  import opened MachineDma
  import opened MachineCpu
  import ClockEvents
  import MachineCycle
  import HdmaTable
  import HdmaService
  import MachineRuns
  import PpuPorts
  import RomChecksum

  class Core {
    // the scheduler
    var clock: int
    var h: int
    var v: int
    var field: int
    var frames: int
    var refreshDone: bool
    var refreshH: int
    var refreshes: int
    var initH: int
    var irq: Irq
    var nmi: Nmi
    var initPending: bool
    var transferPending: bool
    var startDelay: bool
    var fault: Option<Fault>
    ghost var pace: Pace
    // registers the guest writes
    var timers: Timers
    var fastRom: bool
    // DMA
    var dmaMask: int
    var dma0: Channel
    var dma1: Channel
    var dma2: Channel
    var dma7: Channel
    var hdma: HdmaTable.Cursor
    // the rest of the machine
    const ppu: PpuPorts.Chip
    const rom: seq<int>
    const port: (int, int) -> int
    var wram: seq<int>
    var sram: seq<int>
    var cpu: Cpu
    var counts: Counts

    ghost function BeamOf(): Beam
      reads this
    {
      Beam(clock, h, v, field, frames, refreshDone, refreshH, refreshes, initH)
    }

    ghost function TimingOf(): Timing
      reads this
    {
      Timing(BeamOf(), irq, nmi, Arbiter(initPending, transferPending, startDelay, fault, pace))
    }

    ghost function DmaOf(): Dma
      reads this
    {
      Dma(dmaMask, dma0, dma1, dma2, dma7, hdma)
    }

    /** The state these fields stand for. */
    ghost function St(): State
      reads this, ppu
    {
      State(TimingOf(), timers, fastRom, DmaOf(), ppu.Value(), Memory(wram, sram, rom), cpu, counts, port)
    }

    ghost predicate Valid()
      reads this, ppu
    {
      ppu.Valid() && h >= 0
    }

    constructor Reset(sram: seq<int>, rom: seq<int>, port: (int, int) -> int)
      ensures Valid() && fresh(ppu) && St() == Boot(sram, rom, port)
    {
      clock, h, v, field, frames := 0, 0, 0, 0, 0;
      refreshDone, refreshH, refreshes, initH := false, 538, 0, 0;
      irq, nmi := Irq(0, false, false, 0), Nmi(false, 0, false, 0, 0);
      pace := Pace(0, 0, 0, false);
      initPending, transferPending, startDelay, fault := false, false, false, None;
      timers, fastRom := Timers(false, false, false, false, 0, 0, false, 0), false;
      dmaMask, hdma := 0, HdmaTable.Cursor(0, 0, false, false, false, 0);
      dma0, dma1, dma2, dma7 := Channel(0, 0, 0, 0, 0, 0), Channel(0, 0, 0, 0, 0, 0), Channel(0, 0, 0, 0, 0, 0),
                                Channel(0, 0, 0, 0, 0, 0);
      this.rom, this.port, this.sram := rom, port, sram;
      wram := seq(0x20000, _ => 0);
      cpu := Cpu(true, 0x34, 0x1FF, 0x804A, 0, 0, 0);
      counts := Counts(0, 0, 0, 0, 0, 0, 0, 0, 0, Tally(0, 0, 0, 0, 0, 0));
      ppu := new PpuPorts.Chip.Reset();
    }

    // ----- the scheduler -----

    method LatchTimerIrq()
      modifies this`irq
      ensures irq == LatchIrq(old(irq))
    {
      if irq.line { return; }
      irq := Irq(4, true, true, irq.events + 1);
    }

    method ScheduleHdmaInit()
      modifies this`initPending, this`startDelay, this`fault, this`pace
      ensures TimingOf().arb == ScheduleInit(old(TimingOf().arb), clock, timers)
    {
      if fault.Some? { return; }
      if initPending {
        fault := Some(SecondInit);
      } else {
        initPending, startDelay := true, true;
        pace := Pace(clock, 0, 0, timers.hdmaen == 4);
      }
    }

    method ScheduleHdmaScanline()
      modifies this`transferPending, this`startDelay, this`fault, this`pace
      ensures TimingOf().arb == ScheduleScanline(old(TimingOf().arb), clock, timers)
    {
      if fault.Some? { return; }
      if timers.hdmaen == 0 {
        pace := pace.(whole := false);
        return;
      }
      if timers.hdmaen != 4 {
        fault := Some(SchedulerMask);
        return;
      }
      if transferPending {
        fault := Some(SecondScanline);
        return;
      }
      transferPending, startDelay := true, true;
      pace := pace.(since := clock, due := pace.due + 1);
    }

    /** The start of a line, and of a frame after the last one.  `clock` has already moved on. */
    method BeginLine()
      modifies this`h, this`v, this`field, this`frames, this`refreshDone, this`refreshH, this`initH
      ensures h == 0 && refreshDone == false && refreshH == 538 - clock % 8
      ensures if old(v) + 1 < LINES then v == old(v) + 1 && field == old(field) && frames == old(frames)
                                         && initH == old(initH)
              else v == 0 && field == 1 - old(field) && frames == old(frames) + 1 && initH == 12 + clock % 8
    {
      h := 0;
      v := v + 1;
      refreshDone := false;
      refreshH := 538 - clock % 8;
      if v >= LINES {
        v := 0;
        field := 1 - field;
        frames := frames + 1;
        initH := 12 + clock % 8;
      }
    }

    method StepBeam() returns (wrapped: bool)
      requires h >= 0
      modifies this`clock, this`h, this`v, this`field, this`frames, this`refreshDone, this`refreshH, this`initH
      ensures BeamOf() == TickBeam(old(BeamOf())) && h >= 0 && wrapped == (h == 0)
    {
      var period := Period(field, v);
      clock := clock + 1;
      h := h + 1;
      wrapped := h >= period;
      if wrapped { BeginLine(); }
    }

    /** The hold time, and the two matches that latch the timer's line. */
    method StepIrq(wrapped: bool)
      requires wrapped == (h == 0)
      modifies this`irq
      ensures irq == TickIrq(old(irq), BeamOf(), timers)
    {
      if irq.hold > 0 { irq := irq.(hold := irq.hold - 1); }
      if wrapped && timers.virq && !timers.hirq && v == timers.vtime { LatchTimerIrq(); }
      if timers.hirq && h == (timers.htime + 1) * 4 && (!timers.virq || v == timers.vtime) { LatchTimerIrq(); }
    }

    method ScheduleEvents()
      modifies this`initPending, this`transferPending, this`startDelay, this`fault, this`nmi, this`pace
      ensures TimingOf().arb == TickArbiter(old(TimingOf().arb), BeamOf(), timers)
      ensures nmi == TickNmi(old(nmi), BeamOf(), timers)
    {
      var line := VBlank(timers);
      if v == 0 && h == initH { ScheduleHdmaInit(); }
      if v < line && h == TRANSFER_H { ScheduleHdmaScanline(); }
      if v == line && h == 2 {
        nmi := nmi.(flag := true, polls := if timers.autoJoypad then nmi.polls + 1 else nmi.polls);
      } else if v == line && h == 6 {
        if timers.nmiEnable { nmi := nmi.(counter := 1, raises := nmi.raises + 1); }
      } else if v == 0 && h == 2 {
        nmi := nmi.(flag := false);
      }
    }

    /** One master clock. */
    method RawMaster()
      requires h >= 0
      modifies this`irq, this`clock, this`h, this`v, this`field, this`frames, this`refreshDone, this`refreshH,
               this`initH, this`initPending, this`transferPending, this`startDelay, this`fault, this`nmi, this`pace
      ensures TimingOf() == Tick(old(TimingOf()), timers) && h >= 0
    {
      hide TickBeam, TickIrq, TickNmi, TickArbiter;
      var wrapped := StepBeam();
      StepIrq(wrapped);
      ScheduleEvents();
    }

    method RefreshStall()
      requires h >= 0
      modifies this`irq, this`clock, this`h, this`v, this`field, this`frames, this`refreshDone, this`refreshH,
               this`initH, this`initPending, this`transferPending, this`startDelay, this`fault, this`nmi, this`pace
      ensures TimingOf() == Ticks(old(TimingOf()), timers, REFRESH_CLOCKS) && h >= 0
    {
      var left := REFRESH_CLOCKS;
      while left > 0
        invariant 0 <= left && h >= 0
        invariant Ticks(TimingOf(), timers, left) == Ticks(old(TimingOf()), timers, REFRESH_CLOCKS)
      {
        RawMaster();
        left := left - 1;
      }
    }

    /** One clock, and the refresh if its dot has come. */
    method MasterClock()
      requires h >= 0
      modifies this`irq, this`clock, this`h, this`v, this`field, this`frames, this`refreshDone, this`refreshH,
               this`initH, this`initPending, this`transferPending, this`startDelay, this`fault, this`nmi, this`pace,
               this`refreshes
      ensures TimingOf() == Settle(Tick(old(TimingOf()), timers), timers) && h >= 0
    {
      hide Tick, Ticks;
      RawMaster();
      if !refreshDone && h == refreshH {
        ghost var due := TimingOf();
        refreshDone, refreshes := true, refreshes + 1;
        assert TimingOf() == due.(beam := Refreshing(due.beam));
        RefreshStall();
      }
    }

    /** Master clocks with the DRAM refresh of every line they cross. */
    method AdvanceMaster(n: nat)
      requires Valid()
      modifies this`irq, this`clock, this`h, this`v, this`field, this`frames, this`refreshDone, this`refreshH,
               this`initH, this`initPending, this`transferPending, this`startDelay, this`fault, this`nmi, this`pace,
               this`refreshes
      ensures Valid() && St() == Wait(old(St()), n)
    {
      hide Advance;
      MasterClocks(n);
    }

    method MasterClocks(n: nat)
      requires h >= 0
      modifies this`irq, this`clock, this`h, this`v, this`field, this`frames, this`refreshDone, this`refreshH,
               this`initH, this`initPending, this`transferPending, this`startDelay, this`fault, this`nmi, this`pace,
               this`refreshes
      ensures h >= 0 && TimingOf() == Advance(old(TimingOf()), timers, n)
    {
      hide Tick, Settle;
      var left := n;
      while left > 0
        invariant 0 <= left && h >= 0
        invariant Advance(TimingOf(), timers, left) == Advance(old(TimingOf()), timers, n)
      {
        MasterClock();
        left := left - 1;
      }
    }

    // ----- the bus -----

    method FailFrontier(f: Fault)
      modifies this`fault
      ensures St() == Fail(old(St()), f)
    {
      fault := Some(f);
    }

    method ReadStatus(local: int) returns (value: int)
      requires 0x4210 <= local <= 0x4212
      modifies this`nmi, this`irq
      ensures Got(St(), value) == if local == 0x4210 then ReadNmiFlag(old(St()))
                                  else if local == 0x4211 then ReadTimeUp(old(St()))
                                  else Got(old(St()), if h <= 2 || h >= 1096 then 0x40 else 0)
    {
      if local == 0x4210 {
        value := if nmi.flag then 0x80 else 0;
        if nmi.flag && (v != VBlank(timers) || h >= 6) { nmi := nmi.(flag := false); }
      } else if local == 0x4211 {
        value := if irq.line then 0x80 else 0;
        if irq.line && irq.hold == 0 { irq := irq.(line := false, transition := false); }
      } else {
        value := if h <= 2 || h >= 1096 then 0x40 else 0;
      }
    }

    /** Save RAM, then the mapped and mirrored image. */
    method CartridgeRead(a: int) returns (byte: Option<int>)
      ensures byte == Cartridge(Memory(wram, sram, rom), a)
    {
      hide PpuPorts.At, RomChecksum.SramOffset, RomChecksum.CpuToLinear;
      var save := RomChecksum.SramOffset(Bank(a), Local(a));
      if save.Some? { return Some(PpuPorts.At(sram, save.value)); }
      var offset := RomChecksum.HiRomOffset(Bank(a), Local(a));
      byte := if offset.Some? then Some(PpuPorts.At(rom, offset.value)) else None;
    }

    method ReadDmaPort(local: int) returns (value: Option<int>)
      ensures value == DmaRegister(Dma(dmaMask, dma0, dma1, dma2, dma7, hdma), local)
    {
      var ch := if local >= 0x4370 then dma7 else if local >= 0x4320 then dma2 else if local >= 0x4310 then dma1
                else dma0;
      var register, second := local % 0x10, 0x4320 <= local < 0x4370;
      var size := if second then hdma.pointer else ch.size;
      if register == 0 { return Some(ch.dmap); }
      if register == 1 { return Some(ch.bbad); }
      if register == 2 { return Some(ch.source); }
      if register == 3 { return Some(ch.source / 0x100); }
      if register == 4 { return Some(ch.bank); }
      if register == 5 { return Some(size); }
      if register == 6 { return Some(size / 0x100); }
      if register == 7 { return if second then Some(ch.indirectBank) else None; }
      if register == 8 { return Some(hdma.table); }
      if register == 9 { return Some(hdma.table / 0x100); }
      value := if register == 10 then Some(hdma.counter) else None;
    }

    method BusRead8(a: int) returns (value: int)
      requires Valid()
      modifies this`nmi, this`irq, this`fault
      ensures Valid() && Got(St(), value) == Read(old(St()), a)
    {
      hide Cartridge, DmaRegister, DmaRegisters, OutsideRead, PpuPorts.At;
      var low, local, offset := RomChecksum.LowBank(Bank(a)), Local(a), WramOffset(a);
      value := 0;
      if offset.Some? {
        value := PpuPorts.At(wram, offset.value) % 0x100;
      } else if low && OutsideRead(local) {
        value := port(local, clock) % 0x100;
      } else if low && 0x4210 <= local <= 0x4212 {
        value := ReadStatus(local);
      } else if low && DmaRegisters(local, 6) {
        var register := ReadDmaPort(local);
        if register.Some? { value := register.value % 0x100; } else { FailFrontier(DmaRegisterAccess); }
      } else {
        var byte := CartridgeRead(a);
        if byte.Some? { value := byte.value % 0x100; } else { FailFrontier(BusRead); }
      }
    }

    method SetEnables(value: int)
      modifies this`timers
      ensures timers == Enabling(old(timers), value)
    {
      timers := timers.(nmiEnable := value / 128 % 2 == 1);
      timers := timers.(autoJoypad := value % 2 == 1);
      timers := timers.(hirq := value / 16 % 2 == 1);
      timers := timers.(virq := value / 32 % 2 == 1);
    }

    method SetInterruptControl(value: int)
      modifies this`timers, this`nmi, this`irq, this`counts
      ensures timers == Enabling(old(timers), value)
      ensures var again := old(nmi).flag && timers.nmiEnable && !old(timers).nmiEnable;
              && nmi == (if again then old(nmi).(counter := 2) else old(nmi))
              && counts == old(counts).(tally := old(counts).tally.(rearmed :=
                             old(counts).tally.rearmed + if again then 1 else 0))
      ensures irq == if !timers.hirq && !timers.virq then old(irq).(line := false, transition := false, hold := 0)
                     else old(irq)
    {
      hide Enabling;
      var before := timers.nmiEnable;
      SetEnables(value);
      if nmi.flag && timers.nmiEnable && !before {
        nmi := nmi.(counter := 2);
        counts := counts.(tally := counts.tally.(rearmed := counts.tally.rearmed + 1));
      }
      if !timers.hirq && !timers.virq { irq := irq.(line := false, transition := false, hold := 0); }
    }

    method WriteInterruptControl(value: int)
      modifies this`timers, this`nmi, this`irq, this`counts
      ensures St() == WriteInterruptEnable(old(St()), value)
    {
      hide PpuPorts.Chip.Value, Enabling, WriteInterruptEnable;
      InterruptParts(St(), value);
      SetInterruptControl(value);
    }

    static lemma InterruptParts(s: State, value: int)
      ensures var r := Enabling(s.r, value);
              var again := s.t.nmi.flag && r.nmiEnable && !s.r.nmiEnable;
              var nmi := if again then s.t.nmi.(counter := 2) else s.t.nmi;
              var irq := if !r.hirq && !r.virq then s.t.irq.(line := false, transition := false, hold := 0)
                         else s.t.irq;
              var tally := s.k.tally.(rearmed := s.k.tally.rearmed + if again then 1 else 0);
              WriteInterruptEnable(s, value)
              == State(Timing(s.t.beam, irq, nmi, s.t.arb), r, s.fast, s.d, s.p, s.m, s.cpu, s.k.(tally := tally),
                       s.port)
    {
    }

    method WriteDmaControl(local: int, value: int)
      requires local == 0x420B || local == 0x420C
      modifies this`timers, this`dmaMask, this`startDelay, this`fault
      ensures St() == if local == 0x420B then WriteDmaEnable(old(St()), value) else WriteHdmaEnable(old(St()), value)
    {
      hide PpuPorts.Chip.Value, Proved;
      if local == 0x420C {
        if value != 0 && value != 4 {
          FailFrontier(EnabledMask);
        } else if value == 4 && !Proved(Dma(dmaMask, dma0, dma1, dma2, dma7, hdma)) {
          FailFrontier(HdmaConfig);
        } else {
          timers := timers.(hdmaen := value);
        }
      } else if value != 0 {
        if value != 1 && value != 2 && value != 0x80 {
          FailFrontier(DmaMask);
        } else if dmaMask != 0 {
          FailFrontier(SecondDma);
        } else {
          dmaMask, startDelay := value, true;
        }
      }
    }

    method SetMatchPosition(local: int, value: int)
      requires 0x4207 <= local <= 0x420A
      modifies this`timers
      ensures timers == MatchPositions(old(timers), local, value)
    {
      if local == 0x4207 {
        timers := timers.(htime := timers.htime / 0x100 % 2 * 0x100 + value);
      } else if local == 0x4208 {
        timers := timers.(htime := timers.htime % 0x100 + value % 2 * 0x100);
      } else if local == 0x4209 {
        timers := timers.(vtime := timers.vtime / 0x100 % 2 * 0x100 + value);
      } else {
        timers := timers.(vtime := timers.vtime % 0x100 + value % 2 * 0x100);
      }
    }

    method WriteControlRegister(local: int, value: int)
      requires 0x4200 <= local <= 0x420D
      modifies this`timers, this`nmi, this`irq, this`counts, this`dmaMask, this`startDelay, this`fault, this`fastRom
      ensures St() == WriteControl(old(St()), local, value)
    {
      hide WriteInterruptEnable, WriteDmaEnable, WriteHdmaEnable, MatchPositions, PpuPorts.Chip.Value;
      if local == 0x4200 {
        WriteInterruptControl(value);
      } else if 0x4207 <= local <= 0x420A {
        SetMatchPosition(local, value);
      } else if local == 0x420B || local == 0x420C {
        WriteDmaControl(local, value);
      } else if local == 0x420D {
        fastRom := value % 2 == 1;
      }
    }

    method WritePicture(local: int, value: int)
      requires Valid() && 0x2100 <= local <= 0x2133 && 0 <= value < 0x100
      modifies ppu, this`timers, this`fault
      ensures Valid() && St() == WritePpu(old(St()), local, value)
    {
      hide PpuPorts.Write, PpuPorts.Refused, PpuPorts.Chip.Value, PpuPorts.Sized;
      var ok := ppu.WriteRegister(local, value);
      if !ok {
        FailFrontier(VramMapping);
      } else if local == 0x2133 {
        timers := timers.(overscan := value / 4 % 2 == 1);
      }
    }

    method StoreChannel(index: int, ch: Channel)
      modifies this`dma0, this`dma1, this`dma2, this`dma7
      ensures DmaOf() == SetChannel(old(DmaOf()), index, ch)
    {
      if index == 7 {
        dma7 := ch;
      } else if index == 2 {
        dma2 := ch;
      } else if index == 1 {
        dma1 := ch;
      } else {
        dma0 := ch;
      }
    }

    /** The two size registers; those of channel 2 are the live HDMA pointer. */
    method StoreSize(index: int, ch: Channel, high: bool, value: int)
      requires ch == GetChannel(DmaOf(), index)
      modifies this`dma0, this`dma1, this`dma2, this`dma7, this`hdma, this`pace
      ensures var size := if index == 2 then old(hdma).pointer else ch.size;
              DmaOf() == SetSize(old(DmaOf()), index, if high then HighByte(size, value) else LowByte(size, value))
      ensures pace == if index == 2 then old(pace).(whole := false) else old(pace)
    {
      var size := if index == 2 then hdma.pointer else ch.size;
      size := if high then size % 0x100 + value * 0x100 else size / 0x100 * 0x100 + value;
      if index == 2 {
        hdma := hdma.(pointer := size);
        pace := pace.(whole := false);
      } else {
        StoreChannel(index, ch.(size := size));
      }
    }

    method WriteDmaChannel(local: int, value: int) returns (ok: bool)
      modifies this`dma0, this`dma1, this`dma2, this`dma7, this`hdma, this`pace
      ensures ok == WriteDmaRegister(old(DmaOf()), local, value).Some?
      ensures DmaOf() == if ok then WriteDmaRegister(old(DmaOf()), local, value).value else old(DmaOf())
      ensures pace == if ok && IsPointer(local) then old(pace).(whole := false) else old(pace)
    {
      hide SetChannel, GetChannel;
      var index, register := ChannelOf(local), local % 0x10;
      var ch := GetChannel(Dma(dmaMask, dma0, dma1, dma2, dma7, hdma), index);
      ok := true;
      if register == 0 {
        StoreChannel(index, ch.(dmap := value));
      } else if register == 1 {
        StoreChannel(index, ch.(bbad := value));
      } else if register == 2 {
        StoreChannel(index, ch.(source := ch.source / 0x100 * 0x100 + value));
      } else if register == 3 {
        StoreChannel(index, ch.(source := ch.source % 0x100 + value * 0x100));
      } else if register == 4 {
        StoreChannel(index, ch.(bank := value));
      } else if register == 5 || register == 6 {
        StoreSize(index, ch, register == 6, value);
      } else if register == 7 && index == 2 {
        StoreChannel(index, ch.(indirectBank := value));
      } else {
        ok := false;
      }
    }

    method WriteDmaPort(local: int, value: int)
      modifies this`dma0, this`dma1, this`dma2, this`dma7, this`hdma, this`fault, this`pace
      ensures St() == match WriteDmaRegister(old(St()).d, local, value)
                      case Some(d) => old(St()).(d := d, t := if IsPointer(local) then Disturbed(old(St()).t)
                                                              else old(St()).t)
                      case None => Fail(old(St()), DmaRegisterAccess)
    {
      hide PpuPorts.Chip.Value, WriteDmaRegister, IsPointer;
      var ok := WriteDmaChannel(local, value);
      if !ok {
        FailFrontier(DmaRegisterAccess);
      } else {
        assert TimingOf() == if IsPointer(local) then Disturbed(old(TimingOf())) else old(TimingOf());
        assert St() == old(St()).(d := DmaOf(), t := TimingOf());
      }
    }

    method BusWrite8(a: int, value: int)
      requires Valid() && 0 <= value < 0x100
      modifies this, ppu
      ensures Valid() && St() == Write(old(St()), a, value)
    {
      hide PpuPorts.Put, PpuPorts.Chip.Value, PpuPorts.Sized, WriteControl, WritePpu, WriteDmaRegister, DmaRegisters,
           RomChecksum.SramOffset, RomChecksum.CpuToLinear;
      var low, local, offset := RomChecksum.LowBank(Bank(a)), Local(a), WramOffset(a);
      var save := RomChecksum.SramOffset(Bank(a), local);
      if offset.Some? {
        wram := PpuPorts.Put(wram, offset.value, value);
      } else if save.Some? {
        sram := PpuPorts.Put(sram, save.value, value);
      } else if RomChecksum.CpuToLinear(Bank(a), local).Some? {
        // a ROM write is counted and ignored
      } else if low && (local == 0x4016 || 0x2140 <= local <= 0x2143) {
        // devices outside this model
      } else if low && 0x2100 <= local <= 0x2133 {
        WritePicture(local, value);
      } else if low && 0x4200 <= local <= 0x420D {
        WriteControlRegister(local, value);
      } else if low && DmaRegisters(local, 7) {
        WriteDmaPort(local, value);
      } else {
        FailFrontier(BusWrite);
      }
    }

    // ----- HDMA -----

    method TableRead(a: int) returns (value: int)
      requires Valid()
      modifies this
      ensures Valid() && Got(St(), value) == Fetch(old(St()), a)
    {
      hide Read, Advance, PpuPorts.Chip.Value, PpuPorts.Sized;
      value := BusRead8(a);
      if fault.None? { AdvanceMaster(8); }
    }

    /** One byte from the A bus to the B bus. */
    method CarryByte(source: int, target: int)
      requires Valid()
      modifies this, ppu
      ensures Valid() && St() == Carry(old(St()), source, target)
    {
      hide Read, Write, PpuPorts.Chip.Value, PpuPorts.Sized;
      var value := BusRead8(source);
      ReadByte(old(St()), source);
      if fault.None? { BusWrite8(target, value); }
    }

    lemma ReadByte(s: State, a: int)
      ensures 0 <= Read(s, a).value < 0x100
    {
      hide Cartridge, DmaRegister, DmaRegisters, OutsideRead, WramOffset, PpuPorts.At, Bank, Local;
    }

    method BeginTransfer(nested: bool) returns (clocks: int)
      requires Valid()
      modifies this
      ensures Valid() && Ran(St(), clocks) == Begin(old(St()), nested)
    {
      hide Advance, PpuPorts.Chip.Value, PpuPorts.Sized;
      clocks := 0;
      if !nested {
        clocks := 8 - clock % 8;
        AdvanceMaster(clocks);
      }
    }

    method PayOverhead(spent: int) returns (clocks: int)
      requires Valid()
      modifies this
      ensures Valid() && Ran(St(), clocks) == Overhead(Ran(old(St()), spent))
    {
      hide Advance, PpuPorts.Chip.Value, PpuPorts.Sized;
      clocks := spent + 8;
      AdvanceMaster(8);
    }

    method FinishTransfer(speed: int, nested: bool, spent: int) returns (clocks: int)
      requires Valid() && CpuSpeed(speed)
      modifies this
      ensures Valid() && Ran(St(), clocks) == Finish(Ran(old(St()), spent), speed, nested)
    {
      hide Advance, PpuPorts.Chip.Value, PpuPorts.Sized;
      clocks := spent;
      if fault.Some? || nested { return; }
      var sync := speed - spent % speed;
      AdvanceMaster(sync);
      clocks := spent + sync;
    }

    /** The rest of a descriptor whose first byte is `first`. */
    method ReadDescriptor(first: int, table: int, spent: int) returns (clocks: int)
      requires Valid()
      modifies this
      ensures Valid() && Ran(St(), clocks) == Descriptor(Ran(old(St()), spent), first, table)
    {
      hide Fetch, PpuPorts.Chip.Value, PpuPorts.Sized, HdmaTable.Next;
      clocks := spent;
      if fault.Some? { return; }
      var at := HdmaTable.Next(table);
      var low := TableRead(dma2.bank * 0x10000 + at);
      if fault.Some? { return; }
      at := HdmaTable.Next(at);
      clocks := spent + 8;
      if first == 0 {
        hdma := HdmaTable.Cursor(at, 0, true, true, true, low * 0x100);
      } else {
        var high := TableRead(dma2.bank * 0x10000 + at);
        if fault.Some? { return; }
        hdma := HdmaTable.Cursor(HdmaTable.Next(at), first, true, false, true, low + high * 0x100);
        clocks := spent + 16;
      }
    }

    method InitHdma(speed: int, nested: bool) returns (clocks: int)
      requires Valid() && CpuSpeed(speed)
      modifies this
      ensures Valid() && Ran(St(), clocks) == HdmaInit(old(St()), speed, nested)
    {
      hide Fetch, Descriptor, Begin, Overhead, Finish, PpuPorts.Chip.Value, PpuPorts.Sized;
      hdma := hdma.(finished := false, transfer := false, ready := false);
      clocks := 0;
      if timers.hdmaen / 4 % 2 != 1 { return; }
      if timers.hdmaen != 4 || !Proved(Dma(dmaMask, dma0, dma1, dma2, dma7, hdma)) {
        FailFrontier(HdmaConfig);
        return;
      }
      var table := dma2.source;
      clocks := BeginTransfer(nested);
      clocks := PayOverhead(clocks);
      if fault.Some? { return; }
      var first := TableRead(dma2.bank * 0x10000 + dma2.source);
      clocks := ReadDescriptor(first, table, clocks + 8);
      clocks := FinishTransfer(speed, nested, clocks);
    }

    method CopyThroughPointer(spent: int) returns (clocks: int)
      requires Valid()
      modifies this, ppu
      ensures Valid() && Ran(St(), clocks) == CopyIndirect(Ran(old(St()), spent))
    {
      hide Carry, Advance, PpuPorts.Chip.Value, PpuPorts.Sized;
      clocks := spent;
      if fault.Some? { return; }
      CarryByte(dma2.indirectBank * 0x10000 + hdma.pointer, 0x2100 + dma2.bbad);
      if fault.Some? { return; }
      AdvanceMaster(8);
      hdma := hdma.(pointer := (hdma.pointer + 1) % 0x10000);
      clocks := spent + 8;
    }

    method StepLine(spent: int) returns (clocks: int)
      requires Valid()
      modifies this
      ensures Valid() && Ran(St(), clocks) == NextLine(Ran(old(St()), spent))
    {
      hide Fetch, Descriptor, PpuPorts.Chip.Value, PpuPorts.Sized;
      clocks := spent;
      if fault.Some? { return; }
      var table := hdma.table;
      var counter := (hdma.counter - 1) % 0x100;
      hdma := hdma.(counter := counter, transfer := counter >= 0x80);
      var first := TableRead(dma2.bank * 0x10000 + table);
      if fault.Some? { return; }
      clocks := spent + 8;
      if counter % 0x80 == 0 { clocks := ReadDescriptor(first, table, clocks); }
    }

    method ScanlineHdma(speed: int, nested: bool) returns (clocks: int)
      requires Valid() && CpuSpeed(speed)
      modifies this, ppu
      ensures Valid() && Ran(St(), clocks) == HdmaScanline(old(St()), speed, nested)
    {
      hide CopyIndirect, NextLine, Begin, Overhead, Finish, Proved, PpuPorts.Chip.Value, PpuPorts.Sized;
      clocks := 0;
      if timers.hdmaen / 4 % 2 != 1 { return; }
      if timers.hdmaen != 4 || !Proved(Dma(dmaMask, dma0, dma1, dma2, dma7, hdma)) {
        FailFrontier(HdmaConfig);
        return;
      }
      if !hdma.ready {
        FailFrontier(HdmaNotReady);
        return;
      }
      if hdma.finished { return; }
      var transfer := hdma.transfer;
      clocks := BeginTransfer(nested);
      clocks := PayOverhead(clocks);
      if transfer {
        for n := 0 to 2
          invariant Valid()
          invariant transfer == old(hdma.transfer)
          invariant var begun := Overhead(Begin(old(St()), nested));
                    Ran(St(), clocks) == if n == 0 then begun else if n == 1 then CopyIndirect(begun)
                                         else CopyIndirect(CopyIndirect(begun))
        {
          clocks := CopyThroughPointer(clocks);
        }
      }
      clocks := StepLine(clocks);
      clocks := FinishTransfer(speed, nested, clocks);
    }

    method TakeRequest() returns (transfer: bool)
      modifies this`transferPending, this`initPending, this`pace
      ensures St() == Taken(old(St())) && transfer == old(transferPending)
    {
      hide PpuPorts.Chip.Value;
      transfer := transferPending;
      pace := pace.(whole := pace.whole && timers.hdmaen == 4);
      if transfer {
        transferPending := false;
        pace := pace.(taken := pace.taken + 1);
      } else {
        initPending := false;
      }
      assert TimingOf() == Taken(old(St())).t;
    }

    /** Serves the pending transfer, or else the pending initialisation. */
    method ServePending(speed: int, nested: bool) returns (ran: bool, clocks: int)
      requires Valid() && CpuSpeed(speed)
      modifies this, ppu
      ensures Valid() && Arbitrated(St(), ran, clocks) == ServeHdma(old(St()), speed, nested)
    {
      hide HdmaInit, HdmaScanline, PpuPorts.Chip.Value, PpuPorts.Sized, Taken;
      ran, clocks := false, 0;
      TakenTimers(St());
      var transfer := TakeRequest();
      if timers.hdmaen != 0 {
        ran := true;
        if transfer { clocks := ScanlineHdma(speed, nested); } else { clocks := InitHdma(speed, nested); }
      } else if !transfer {
        hdma := hdma.(finished := false, transfer := false, ready := false);
      }
    }

    lemma TakenTimers(s: State)
      ensures Taken(s).r == s.r
    {
    }

    method ProcessNestedHdma(speed: int, spent: int) returns (clocks: int)
      requires Valid() && CpuSpeed(speed)
      modifies this, ppu
      ensures Valid() && Ran(St(), clocks) == Checkpoint(Ran(old(St()), spent), speed)
    {
      hide ServeHdma, PpuPorts.Chip.Value, PpuPorts.Sized;
      clocks := spent;
      if fault.Some? { return; }
      if startDelay {
        startDelay := false;
        return;
      }
      if !initPending && !transferPending { return; }
      var ran, more := ServePending(speed, true);
      clocks := spent + more;
    }

    // ----- manual DMA -----

    lemma SourceStep(ch: Channel, n: int)
      ensures SourceAt(ch, n + 1)
              == if ch.dmap / 8 % 2 == 1 then SourceAt(ch, n)
                 else if ch.dmap / 16 % 2 == 1 then (SourceAt(ch, n) - 1) % 0x10000
                 else (SourceAt(ch, n) + 1) % 0x10000
    {
      WrapBy(ch.source - n, -1);
      WrapBy(ch.source + n, 1);
    }

    lemma StartsAtSource(ch: Channel)
      ensures SourceAt(ch, 0) == ch.source % 0x10000
    {
    }

    lemma WrapBy(x: int, d: int)
      ensures (x % 0x10000 + d) % 0x10000 == (x + d) % 0x10000
    {
      assert x + d == 0x10000 * (x / 0x10000) + (x % 0x10000 + d);
    }

    lemma {:induction false} MovedStuck(r: Ran, ch: Channel, n: nat, m: nat, speed: int)
      requires CpuSpeed(speed) && n <= m && Failed(Moved(r, ch, n, speed).s)
      ensures Moved(r, ch, m, speed) == Moved(r, ch, n, speed)
      decreases m
    {
      hide Carry, Checkpoint, Overhead;
      if n < m {
        MovedStuck(r, ch, n, m - 1, speed);
      }
    }

    /** One byte at a known source address: the move, its clocks and the checkpoint. */
    method MoveOne(ch: Channel, source: int, n: nat, speed: int, spent: int) returns (clocks: int)
      requires Valid() && CpuSpeed(speed) && source == SourceAt(ch, n)
      modifies this, ppu
      ensures Valid() && Ran(St(), clocks) == MoveByte(Ran(old(St()), spent), ch, n, speed)
    {
      hide Carry, Checkpoint, Advance, PpuPorts.Chip.Value, PpuPorts.Sized, SourceAt;
      clocks := spent;
      if fault.Some? { return; }
      CarryByte(ch.bank * 0x10000 + source, 0x2100 + (ch.bbad + Offset(ch.dmap % 8, n)) % 0x100);
      if fault.Some? { return; }
      clocks := PayOverhead(clocks);
      clocks := ProcessNestedHdma(speed, clocks);
    }

    method MoveBytes(ch: Channel, count: nat, speed: int, spent: int) returns (source: int, clocks: int)
      requires Valid() && CpuSpeed(speed)
      modifies this, ppu
      ensures Valid() && Ran(St(), clocks) == Moved(Ran(old(St()), spent), ch, count, speed)
      ensures fault.None? ==> source == SourceAt(ch, count)
    {
      hide MoveByte, PpuPorts.Chip.Value, PpuPorts.Sized, SourceAt;
      ghost var start := Ran(St(), spent);
      source, clocks := ch.source % 0x10000, spent;
      StartsAtSource(ch);
      var fixed, decrement := ch.dmap / 8 % 2 == 1, ch.dmap / 16 % 2 == 1;
      for n := 0 to count
        invariant Valid() && Ran(St(), clocks) == Moved(start, ch, n, speed)
        invariant source == SourceAt(ch, n)
      {
        clocks := MoveOne(ch, source, n, speed, clocks);
        if fault.Some? {
          MovedStuck(start, ch, n + 1, count, speed);
          return;
        }
        SourceStep(ch, n);
        if !fixed { source := (source + if decrement then -1 else 1) % 0x10000; }
      }
    }

    method StoreProgress(index: int, source: int)
      requires index == 0 || index == 1 || index == 7
      modifies this`dma0, this`dma1, this`dma7
      ensures St() == var s := old(St());
                      s.(d := SetChannel(s.d, index, GetChannel(s.d, index).(source := source, size := 0)))
    {
      hide PpuPorts.Chip.Value;
      if index == 0 {
        dma0 := dma0.(source := source, size := 0);
      } else if index == 1 {
        dma1 := dma1.(source := source, size := 0);
      } else {
        dma7 := dma7.(source := source, size := 0);
      }
    }

    method ChannelRun(index: int, speed: int, spent: int) returns (clocks: int)
      requires Valid() && CpuSpeed(speed) && (index == 0 || index == 1 || index == 7)
      modifies this, ppu
      ensures Valid() && Ran(St(), clocks) == RunChannel(Ran(old(St()), spent), index, speed)
    {
      hide Moved, SourceAt, SetChannel, PpuPorts.Chip.Value, PpuPorts.Sized;
      clocks := spent;
      if fault.Some? { return; }
      var ch := if index == 0 then dma0 else if index == 1 then dma1 else dma7;
      if ch.dmap / 128 % 2 == 1 {
        FailFrontier(DmaDirection);
        return;
      }
      if !ModeReached(index, ch.dmap % 8) {
        FailFrontier(DmaMode);
        return;
      }
      var count := if Remaining(ch) < 0 then 0 else Remaining(ch);
      var source: int;
      source, clocks := MoveBytes(ch, count, speed, clocks);
      if fault.Some? { return; }
      StoreProgress(index, source);
    }

    method StartDma(speed: int) returns (clocks: int)
      requires Valid() && CpuSpeed(speed)
      modifies this, ppu
      ensures Valid() && Ran(St(), clocks) == Startup(old(St()), speed)
    {
      hide Begin, Overhead, Checkpoint, PpuPorts.Chip.Value, PpuPorts.Sized;
      clocks := BeginTransfer(false);
      clocks := PayOverhead(clocks);
      clocks := ProcessNestedHdma(speed, clocks);
      if fault.Some? { return; }
      clocks := PayOverhead(clocks);
      clocks := ProcessNestedHdma(speed, clocks);
    }

    method ExecutePending(speed: int) returns (clocks: int)
      requires Valid() && CpuSpeed(speed)
      modifies this, ppu
      ensures Valid() && Ran(St(), clocks) == RunDma(old(St()), speed)
      ensures HdmaService.Ready(old(St())) && !ClockEvents.Pending(old(St()).t.arb) && !old(startDelay)
              ==> MachineCycle.DmaDone(old(St()), Ran(St(), clocks), speed)
    {
      hide Startup, RunChannel, Finish, PpuPorts.Chip.Value, PpuPorts.Sized, HdmaService.Ready, MachineCycle.DmaDone;
      if HdmaService.Ready(St()) && !ClockEvents.Pending(St().t.arb) && !startDelay {
        MachineCycle.RunDmaOk(St(), speed);
      }
      var mask := dmaMask;
      dmaMask := 0;
      clocks := 0;
      if mask != 1 && mask != 2 && mask != 0x80 {
        FailFrontier(DmaMask);
        return;
      }
      clocks := StartDma(speed);
      clocks := ChannelRun(if mask == 1 then 0 else if mask == 2 then 1 else 7, speed, clocks);
      clocks := FinishTransfer(speed, false, clocks);
    }

    // ----- the CPU cycle -----

    method ProcessCpuCycle(speed: int) returns (ran: bool, clocks: int)
      requires Valid() && CpuSpeed(speed)
      modifies this, ppu
      ensures Valid() && Arbitrated(St(), ran, clocks) == Arbitrate(old(St()), speed)
      ensures MachineCycle.Inv(old(St()))
              ==> MachineCycle.ArbitrationOk(old(St()), Arbitrated(St(), ran, clocks), speed)
    {
      hide ServeHdma, RunDma, PpuPorts.Chip.Value, PpuPorts.Sized, MachineCycle.Inv, MachineCycle.ArbitrationOk;
      if MachineCycle.Inv(St()) {
        MachineCycle.ArbitrateOk(St(), speed);
      }
      ran, clocks := false, 0;
      if fault.Some? || (dmaMask == 0 && !initPending && !transferPending) { return; }
      if startDelay {
        startDelay := false;
      } else if transferPending || initPending {
        ran, clocks := ServePending(speed, false);
      } else {
        clocks := ExecutePending(speed);
        ran := true;
      }
    }

    method SampleInterrupts(lock: bool)
      modifies this`nmi
      ensures nmi == Sample(old(nmi), lock)
    {
      if nmi.counter > 0 {
        nmi := nmi.(counter := nmi.counter - 1);
        if nmi.counter == 0 {
          if !lock {
            nmi := nmi.(pending := true);
          } else {
            nmi := nmi.(counter := 1, pending := false);
          }
        }
      }
    }

    /** One CPU cycle. */
    method RunCycle(speed: int)
      requires Valid() && CpuSpeed(speed)
      modifies this, ppu
      ensures Valid() && St() == Cycle(old(St()), speed)
      ensures MachineCycle.Inv(old(St()))
              ==> MachineCycle.CycleDone(old(St()), St(), speed)
    {
      hide Arbitrate, Advance, Sample, PpuPorts.Chip.Value, PpuPorts.Sized, MachineCycle.Inv, MachineCycle.CycleDone,
           MachineCycle.ArbitrationOk;
      if MachineCycle.Inv(St()) {
        MachineCycle.CycleOk(St(), speed);
      }
      var ran, clocks := ProcessCpuCycle(speed);
      if fault.Some? { return; }
      var edge := nmi;
      SampleInterrupts(ran);
      counts := Counted(counts, edge, ran, clocks);
      AdvanceMaster(speed);
    }

    // ----- the processor -----

    method DataAccess(a: int)
      requires Valid()
      modifies this, ppu
      ensures Valid() && St() == Touch(old(St()), a)
    {
      hide Cycle, PpuPorts.Chip.Value, PpuPorts.Sized;
      var speed := BusSpeed(fastRom, a);
      RunCycle(speed);
      if fault.Some? { return; }
      counts := counts.(data := counts.data + 1,
                        tally := counts.tally.(dataClocks := counts.tally.dataClocks + speed));
    }

    method CodeAccess(a: int)
      requires Valid()
      modifies this, ppu
      ensures Valid() && St() == FetchCode(old(St()), a)
    {
      hide Cycle, PpuPorts.Chip.Value, PpuPorts.Sized;
      var speed := BusSpeed(fastRom, a);
      RunCycle(speed);
      if fault.Some? { return; }
      counts := counts.(code := counts.code + 1,
                        tally := counts.tally.(codeClocks := counts.tally.codeClocks + speed));
    }

    method InternalCycles(count: nat)
      requires Valid()
      modifies this, ppu
      ensures Valid() && St() == Idles(old(St()), count)
    {
      hide Cycle, PpuPorts.Chip.Value, PpuPorts.Sized;
      for n := 0 to count
        invariant Valid() && St() == Idles(old(St()), n)
      {
        if fault.Some? {
          IdlesStuck(old(St()), n, count);
          return;
        }
        RunCycle(6);
        if fault.None? { counts := counts.(idle := counts.idle + 1); }
      }
    }

    static lemma {:induction false} IdlesStuck(s: State, n: nat, m: nat)
      requires n <= m && Failed(Idles(s, n))
      ensures Idles(s, m) == Idles(s, n)
      decreases m
    {
      hide Idle;
      if n < m {
        IdlesStuck(s, n, m - 1);
      }
    }

    method Read8(a: int) returns (value: int)
      requires Valid()
      modifies this, ppu
      ensures Valid() && Got(St(), value) == Load(old(St()), a)
    {
      hide Touch, Read, PpuPorts.Chip.Value, PpuPorts.Sized;
      value := 0;
      DataAccess(a);
      if fault.None? { value := BusRead8(a); }
    }

    method Write8(a: int, value: int)
      requires Valid() && 0 <= value < 0x100
      modifies this, ppu
      ensures Valid() && St() == Store(old(St()), a, value)
    {
      hide Touch, Write, PpuPorts.Chip.Value, PpuPorts.Sized;
      DataAccess(a);
      if fault.None? { BusWrite8(a, value); }
    }

    method Push8(value: int)
      requires Valid() && 0 <= value < 0x100
      modifies this, ppu
      ensures Valid() && St() == Push(old(St()), value)
    {
      hide Store, PpuPorts.Chip.Value, PpuPorts.Sized;
      if fault.Some? { return; }
      Write8(cpu.s, value);
      if fault.Some? { return; }
      cpu := cpu.(s := if cpu.e then 0x100 + (cpu.s - 1) % 0x100 else (cpu.s - 1) % 0x10000);
    }

    method Pull8() returns (value: int)
      requires Valid()
      modifies this, ppu
      ensures Valid() && Got(St(), value) == Pull(old(St()))
    {
      hide Load, PpuPorts.Chip.Value, PpuPorts.Sized;
      value := 0;
      if fault.Some? { return; }
      cpu := cpu.(s := if cpu.e then 0x100 + (cpu.s + 1) % 0x100 else (cpu.s + 1) % 0x10000);
      value := Read8(cpu.s);
    }

    method PushInterruptFrame()
      requires Valid()
      modifies this, ppu
      ensures Valid() && St() == PushFrame(old(St()))
    {
      hide Push, PpuPorts.Chip.Value, PpuPorts.Sized;
      var interrupted := cpu;
      Push8(interrupted.pbr % 0x100);
      Push8(interrupted.pc / 0x100 % 0x100);
      Push8(interrupted.pc % 0x100);
      Push8(interrupted.p % 0x100);
    }

    method EnterInterrupt(vector: int)
      requires Valid()
      modifies this, ppu
      ensures Valid() && St() == EnterAt(old(St()), vector)
    {
      hide Touch, Idle, PushFrame, Load, Masked, PpuPorts.Chip.Value, PpuPorts.Sized;
      var oldP := cpu.p;
      DataAccess(cpu.pbr * 0x10000 + cpu.pc);
      if fault.Some? { return; }
      InternalCycles(1);
      PushInterruptFrame();
      if fault.Some? { return; }
      cpu := cpu.(p := Masked(oldP));
      var low := Read8(vector);
      if fault.Some? { return; }
      var high := Read8(vector + 1);
      if fault.Some? { return; }
      cpu := cpu.(pbr := 0, pc := low + high * 0x100);
    }

    method IrqEnterNative()
      requires Valid()
      modifies this, ppu
      ensures Valid() && St() == EnterIrq(old(St()))
    {
      hide EnterAt, PpuPorts.Chip.Value, PpuPorts.Sized;
      if cpu.e {
        FailFrontier(EmulationMode);
        return;
      }
      if counts.irqDepth != 0 {
        FailFrontier(NestedInterrupt);
        return;
      }
      EnterInterrupt(0xFFEE);
      if fault.Some? { return; }
      counts := counts.(irqDepth := 1, irqAccepts := counts.irqAccepts + 1);
      irq := irq.(transition := false);
    }

    method NmiEnterNative()
      requires Valid()
      modifies this, ppu
      ensures Valid() && St() == EnterNmi(old(St()))
    {
      hide EnterAt, PpuPorts.Chip.Value, PpuPorts.Sized;
      if cpu.e {
        FailFrontier(EmulationMode);
        return;
      }
      if counts.nmiDepth != 0 || counts.irqDepth != 0 {
        FailFrontier(NestedInterrupt);
        return;
      }
      EnterInterrupt(0xFFEA);
      if fault.Some? { return; }
      counts := counts.(nmiDepth := 1, nmiAccepts := counts.nmiAccepts + 1);
      nmi := nmi.(pending := false);
    }

    method RtiNative()
      requires Valid()
      modifies this, ppu
      ensures Valid() && St() == ReturnFromInterrupt(old(St()))
    {
      hide Pull, Restored, LeaveInterrupt, PpuPorts.Chip.Value, PpuPorts.Sized;
      if cpu.e {
        FailFrontier(EmulationMode);
        return;
      }
      if (counts.irqDepth != 0) == (counts.nmiDepth != 0) {
        FailFrontier(ReturnWithoutFrame);
        return;
      }
      var p := Pull8();
      var low := Pull8();
      var high := Pull8();
      var bank := Pull8();
      if fault.Some? { return; }
      LeaveHandler(p, low + high * 0x100, bank);
    }

    method LeaveHandler(p: int, pc: int, pbr: int)
      modifies this`cpu, this`counts
      ensures St() == old(St()).(cpu := Restored(old(cpu), p, pc, pbr), k := LeaveInterrupt(old(counts)))
    {
      hide Restored, LeaveInterrupt, PpuPorts.Chip.Value;
      RestoreContext(p, pc, pbr);
      LeaveDepth();
    }

    method RestoreContext(p: int, pc: int, pbr: int)
      modifies this`cpu
      ensures cpu == Restored(old(cpu), p, pc, pbr)
    {
      cpu := cpu.(p := p);
      if p / 0x10 % 2 == 1 { cpu := cpu.(x := cpu.x % 0x100, y := cpu.y % 0x100); }
      cpu := cpu.(pc := pc, pbr := pbr);
    }

    method LeaveDepth()
      modifies this`counts
      ensures counts == LeaveInterrupt(old(counts))
    {
      if counts.irqDepth != 0 {
        counts := counts.(irqDepth := counts.irqDepth - 1, irqReturns := counts.irqReturns + 1);
      } else {
        counts := counts.(nmiDepth := counts.nmiDepth - 1, nmiReturns := counts.nmiReturns + 1);
      }
    }

    method AcceptSampledInterrupt()
      requires Valid()
      modifies this, ppu
      ensures Valid() && St() == Accept(old(St()))
    {
      hide EnterNmi, EnterIrq, PpuPorts.Chip.Value, PpuPorts.Sized;
      if nmi.pending && timers.nmiEnable && counts.nmiDepth == 0 && counts.irqDepth == 0 {
        NmiEnterNative();
      } else if irq.line && cpu.p / 4 % 2 == 0 && counts.nmiDepth == 0 && counts.irqDepth == 0 {
        IrqEnterNative();
      }
    }

    /** One thing an instruction does. */
    method Perform(x: Action)
      requires Valid()
      modifies this, ppu
      ensures Valid() && St() == Act(old(St()), x)
    {
      hide Touch, FetchCode, Idle, Load, Store, Accept, ReturnFromInterrupt, PpuPorts.Chip.Value, PpuPorts.Sized;
      if fault.Some? { return; }
      match x
      case CodeFetch(a) => CodeAccess(a);
      case InternalCycle => InternalCycles(1);
      case DataCycle(a) => DataAccess(a);
      case DataLoad(a) => var unused := Read8(a);
      case DataStore(a, value) => Write8(a, value % 0x100);
      case Registers(c) => cpu := c;
      case AcceptInterrupt => AcceptSampledInterrupt();
      case InterruptReturn => RtiNative();
    }

    static lemma {:induction false} AfterMore(s: State, actions: seq<Action>, x: Action, n: nat)
      requires n <= |actions|
      ensures After(s, actions + [x], n) == After(s, actions, n)
    {
      hide Act;
      if n > 0 {
        AfterMore(s, actions, x, n - 1);
      }
    }

    /** The actions of the first `n` instructions, an interrupt accepted after each. */
    static function Script(instructions: seq<seq<Action>>, n: nat): seq<Action>
      requires n <= |instructions|
    {
      if n == 0 then [] else Script(instructions, n - 1) + instructions[n - 1] + [AcceptInterrupt]
    }

    static function AfterInstructions(s: State, instructions: seq<seq<Action>>, n: nat): State
      requires n <= |instructions|
    {
      After(s, Script(instructions, n), |Script(instructions, n)|)
    }

    static predicate StopsAt(s: State, stopFrame: Option<int>) {
      !Failed(s) && stopFrame.Some? && s.t.beam.frames >= stopFrame.value
    }

    /** The run loop: instruction by instruction, an interrupt accepted after each, until the budget, a failure or the
        first instruction at whose end the frame is reached.  What it does is a run in the sense of `After`, so
        everything proved of runs holds of it. */
    method RunStatic(instructions: seq<seq<Action>>, budget: nat, stopFrame: Option<int>)
      returns (done: nat, stopped: bool)
      requires Valid()
      modifies this, ppu
      ensures Valid() && done <= |instructions| && done <= budget
      ensures St() == AfterInstructions(old(St()), instructions, done)
      ensures stopped <==> done > 0 && StopsAt(St(), stopFrame)
      ensures forall j :: 0 < j < done ==>
                var s := AfterInstructions(old(St()), instructions, j); !Failed(s) && !StopsAt(s, stopFrame)
      ensures fault.None? && !stopped ==> done == |instructions| || done == budget
      ensures MachineRuns.Good(old(St())) && MachineRuns.DepthsOk(old(counts))
              ==> if fault.Some? then !HdmaService.SchedulerFault(St())
                  else MachineRuns.Good(St()) && MachineRuns.DepthsOk(counts)
    {
      hide Act, MachineRuns.Good, PpuPorts.Chip.Value, PpuPorts.Sized;
      ghost var start := St();
      done, stopped := 0, false;
      while done < |instructions| && done < budget && fault.None? && !stopped
        invariant done <= |instructions| && done <= budget
        invariant Valid() && St() == AfterInstructions(start, instructions, done)
        invariant stopped <==> done > 0 && StopsAt(St(), stopFrame)
        invariant forall j :: 0 < j < done ==>
                    var s := AfterInstructions(start, instructions, j); !Failed(s) && !StopsAt(s, stopFrame)
        decreases |instructions| - done
      {
        RunInstruction(instructions[done], start, Script(instructions, done));
        done := done + 1;
        stopped := fault.None? && stopFrame.Some? && frames >= stopFrame.value;
      }
      if MachineRuns.Good(start) && MachineRuns.DepthsOk(start.k) {
        MachineRuns.RunFrom(start, Script(instructions, done), |Script(instructions, done)|);
      }
    }

    /** One instruction and the interrupt accepted after it. */
    method RunInstruction(instruction: seq<Action>, ghost start: State, ghost before: seq<Action>)
      requires Valid() && St() == After(start, before, |before|)
      modifies this, ppu
      ensures Valid()
      ensures var all := before + instruction + [AcceptInterrupt]; St() == After(start, all, |all|)
    {
      hide Act, PpuPorts.Chip.Value, PpuPorts.Sized;
      ghost var trace := before;
      for k := 0 to |instruction|
        invariant Valid() && trace == before + instruction[..k] && St() == After(start, trace, |trace|)
      {
        AfterMore(start, trace, instruction[k], |trace|);
        Perform(instruction[k]);
        trace := trace + [instruction[k]];
      }
      assert instruction[..|instruction|] == instruction;
      AfterMore(start, trace, AcceptInterrupt, |trace|);
      Perform(AcceptInterrupt);
    }
  }
}
