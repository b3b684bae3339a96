/** The whole machine as a value, and its bus: work RAM, save RAM, ROM, the picture unit, $4200-$420D,
    $4210-$4212 and the DMA registers. */
module MachineBus {
  import opened Options
  import opened Clock
  import HdmaTable
  import PpuPorts
  import RomChecksum
  import RomMapping

  datatype Channel = Channel(dmap: int, bbad: int, source: int, bank: int, size: int, indirectBank: int)

  /** The four reached channels.  Channel 2's size register is the HDMA cursor's pointer, as in the hardware. */
  datatype Dma = Dma(mask: int, ch0: Channel, ch1: Channel, ch2: Channel, ch7: Channel, hdma: HdmaTable.Cursor)

  /** What the proofs count and the program does not: the speeds of all code and all data cycles, the clock counters
      of all transfers, the cycles that granted no transfer, the NMI edges latched, and the $4200 writes that raised
      an edge anew. */
  datatype Tally = Tally(codeClocks: int, dataClocks: int, dmaClocks: int, free: int, latched: int, rearmed: int)

  /** Cycle and interrupt counts. */
  datatype Counts = Counts(code: int, data: int, idle: int, irqDepth: int, irqAccepts: int, irqReturns: int,
                           nmiDepth: int, nmiAccepts: int, nmiReturns: int, tally: Tally)

  datatype Memory = Memory(wram: seq<int>, sram: seq<int>, rom: seq<int>)

  datatype Cpu = Cpu(e: bool, p: int, s: int, pc: int, pbr: int, x: int, y: int)

  /** `port` is what the devices outside the model answer: a byte for a local address and a clock. */
  datatype State = State(t: Timing, r: Timers, fast: bool, d: Dma, p: PpuPorts.Ppu, m: Memory, cpu: Cpu, k: Counts,
                         port: (int, int) -> int)

  /** A value read from the bus, and the machine after the read. */
  datatype Got = Got(s: State, value: int)

  function Fail(s: State, f: Fault): State {
    s.(t := s.t.(arb := s.t.arb.(fault := Some(f))))
  }

  predicate Failed(s: State) {
    s.t.arb.fault.Some?
  }

  /** `n` master clocks, with the refresh stall. */
  function Wait(s: State, n: nat): State {
    s.(t := Advance(s.t, s.r, n))
  }

  // ----- address decoding -----

  function Bank(a: int): (b: int)
    ensures 0 <= b < 0x100
  {
    a / 0x10000 % 0x100
  }

  function Local(a: int): (l: int)
    ensures 0 <= l < 0x10000
  {
    a % 0x10000
  }

  function WramOffset(a: int): Option<int> {
    if Bank(a) == 0x7E then Some(Local(a))
    else if Bank(a) == 0x7F then Some(0x10000 + Local(a))
    else if RomChecksum.LowBank(Bank(a)) && Local(a) < 0x2000 then Some(Local(a))
    else None
  }

  predicate DmaRegisters(local: int, last: int) {
    || 0x4300 <= local <= 0x4300 + last || 0x4310 <= local <= 0x4310 + last
    || 0x4320 <= local <= (if last == 6 then 0x432A else 0x4327) || 0x4370 <= local <= 0x4370 + last
  }

  function ChannelOf(local: int): int {
    if local >= 0x4370 then 7 else if local >= 0x4320 then 2 else if local >= 0x4310 then 1 else 0
  }

  function GetChannel(d: Dma, c: int): Channel {
    if c == 7 then d.ch7 else if c == 2 then d.ch2 else if c == 1 then d.ch1 else d.ch0
  }

  function SetChannel(d: Dma, c: int, ch: Channel): Dma {
    if c == 7 then d.(ch7 := ch) else if c == 2 then d.(ch2 := ch) else if c == 1 then d.(ch1 := ch)
    else d.(ch0 := ch)
  }

  /** $43x0-$43xA.  The size register of channel 2 is the live indirect pointer. */
  function DmaRegister(d: Dma, local: int): Option<int> {
    var ch := GetChannel(d, ChannelOf(local));
    var size := if ChannelOf(local) == 2 then d.hdma.pointer else ch.size;
    match local % 0x10
    case 0 => Some(ch.dmap)
    case 1 => Some(ch.bbad)
    case 2 => Some(ch.source)
    case 3 => Some(ch.source / 0x100)
    case 4 => Some(ch.bank)
    case 5 => Some(size)
    case 6 => Some(size / 0x100)
    case 7 => if ChannelOf(local) == 2 then Some(ch.indirectBank) else None
    case 8 => Some(d.hdma.table)
    case 9 => Some(d.hdma.table / 0x100)
    case 10 => Some(d.hdma.counter)
    case _ => None
  }

  function LowByte(word: int, value: int): int {
    word / 0x100 * 0x100 + value
  }

  function HighByte(word: int, value: int): int {
    word % 0x100 + value * 0x100
  }

  function SetSize(d: Dma, c: int, size: int): Dma {
    if c == 2 then d.(hdma := d.hdma.(pointer := size))
    else SetChannel(d, c, GetChannel(d, c).(size := size))
  }

  function WriteDmaRegister(d: Dma, local: int, value: int): Option<Dma> {
    var c := ChannelOf(local);
    var ch := GetChannel(d, c);
    var size := if c == 2 then d.hdma.pointer else ch.size;
    match local % 0x10
    case 0 => Some(SetChannel(d, c, ch.(dmap := value)))
    case 1 => Some(SetChannel(d, c, ch.(bbad := value)))
    case 2 => Some(SetChannel(d, c, ch.(source := LowByte(ch.source, value))))
    case 3 => Some(SetChannel(d, c, ch.(source := HighByte(ch.source, value))))
    case 4 => Some(SetChannel(d, c, ch.(bank := value)))
    case 5 => Some(SetSize(d, c, LowByte(size, value)))
    case 6 => Some(SetSize(d, c, HighByte(size, value)))
    case 7 => if c == 2 then Some(SetChannel(d, c, ch.(indirectBank := value))) else None
    case _ => None
  }

  /** $4325 and $4326 are the live pointer of the HDMA channel. */
  predicate IsPointer(local: int) {
    ChannelOf(local) == 2 && (local % 0x10 == 5 || local % 0x10 == 6)
  }

  /** No register write changes the enable mask, and only one to the pointer moves the cursor. */
  lemma DmaRegisterKeeps(d: Dma, local: int, value: int)
    ensures WriteDmaRegister(d, local, value).Some? ==>
              && WriteDmaRegister(d, local, value).value.mask == d.mask
              && (IsPointer(local) || WriteDmaRegister(d, local, value).value.hdma == d.hdma)
  {
  }

  // ----- reads -----

  predicate OutsideRead(local: int) {
    || 0x2134 <= local <= 0x2136 || 0x2140 <= local <= 0x2143 || local == 0x4016 || local == 0x4017
    || 0x4214 <= local <= 0x421F
  }

  /** Save RAM and ROM; `None` where the cartridge does not answer. */
  function Cartridge(m: Memory, a: int): Option<int> {
    var save := RomChecksum.SramOffset(Bank(a), Local(a));
    var linear := RomChecksum.CpuToLinear(Bank(a), Local(a));
    if save.Some? then Some(PpuPorts.At(m.sram, save.value))
    else if linear.Some? then Some(PpuPorts.At(m.rom, RomMapping.MirrorOf(linear.value, RomMapping.ROM_SIZE)))
    else None
  }

  /** $4210: reading clears the flag, except early on the NMI line. */
  function ReadNmiFlag(s: State): Got {
    var stays := s.t.beam.v == VBlank(s.r) && s.t.beam.h < 6;
    Got(if s.t.nmi.flag && !stays then s.(t := s.t.(nmi := s.t.nmi.(flag := false))) else s,
        if s.t.nmi.flag then 0x80 else 0)
  }

  /** $4211: reading releases the line once its hold time is over. */
  function ReadTimeUp(s: State): Got {
    var i := s.t.irq;
    Got(if i.line && i.hold == 0 then s.(t := s.t.(irq := i.(line := false, transition := false))) else s,
        if i.line then 0x80 else 0)
  }

  /** One bus read, without the CPU's timing.  A failure is recorded in the state; the value is then unused. */
  function Read(s: State, a: int): Got {
    var low := RomChecksum.LowBank(Bank(a));
    var local := Local(a);
    if WramOffset(a).Some? then Got(s, PpuPorts.At(s.m.wram, WramOffset(a).value) % 0x100)
    else if low && OutsideRead(local) then Got(s, s.port(local, s.t.beam.clock) % 0x100)
    else if low && local == 0x4210 then ReadNmiFlag(s)
    else if low && local == 0x4211 then ReadTimeUp(s)
    else if low && local == 0x4212 then Got(s, if s.t.beam.h <= 2 || s.t.beam.h >= 1096 then 0x40 else 0)
    else if low && DmaRegisters(local, 6) then
      match DmaRegister(s.d, local)
      case Some(v) => Got(s, v % 0x100)
      case None => Got(Fail(s, DmaRegisterAccess), 0)
    else
      match Cartridge(s.m, a)
      case Some(v) => Got(s, v % 0x100)
      case None => Got(Fail(s, BusRead), 0)
  }

  // ----- writes -----

  /** The one HDMA configuration the machine supports. */
  predicate Proved(d: Dma) {
    d.ch2.dmap == 0x42 && d.ch2.bbad == 0x0D && d.ch2.source == 0x4AE3 && d.ch2.bank == 0xC1 && d.ch2.indirectBank == 0
  }

  function Enabling(r: Timers, value: int): Timers {
    r.(nmiEnable := value / 128 % 2 == 1, autoJoypad := value % 2 == 1,
       hirq := value / 16 % 2 == 1, virq := value / 32 % 2 == 1)
  }

  /** $4200: enabling NMI while its flag is up raises a two-sample edge; disabling both timers drops the IRQ. */
  function WriteInterruptEnable(s: State, value: int): State {
    var r := Enabling(s.r, value);
    var again := s.t.nmi.flag && r.nmiEnable && !s.r.nmiEnable;
    var irq := if !r.hirq && !r.virq then s.t.irq.(line := false, transition := false, hold := 0) else s.t.irq;
    s.(r := r, t := s.t.(nmi := if again then s.t.nmi.(counter := 2) else s.t.nmi, irq := irq),
       k := s.k.(tally := s.k.tally.(rearmed := s.k.tally.rearmed + if again then 1 else 0)))
  }

  /** $420B: one transfer at a time, on one of three channels, started after the next cycle. */
  function WriteDmaEnable(s: State, value: int): State {
    if value == 0 then s
    else if value != 1 && value != 2 && value != 0x80 then Fail(s, DmaMask)
    else if s.d.mask != 0 then Fail(s, SecondDma)
    else s.(d := s.d.(mask := value), t := s.t.(arb := s.t.arb.(startDelay := true)))
  }

  /** $420C. */
  function WriteHdmaEnable(s: State, value: int): State {
    if value != 0 && value != 4 then Fail(s, EnabledMask)
    else if value == 4 && !Proved(s.d) then Fail(s, HdmaConfig)
    else s.(r := s.r.(hdmaen := value))
  }

  /** $4207-$420A: the two nine-bit match positions. */
  function MatchPositions(r: Timers, local: int, value: int): Timers {
    if local == 0x4207 then r.(htime := r.htime / 0x100 % 2 * 0x100 + value)
    else if local == 0x4208 then r.(htime := r.htime % 0x100 + value % 2 * 0x100)
    else if local == 0x4209 then r.(vtime := r.vtime / 0x100 % 2 * 0x100 + value)
    else r.(vtime := r.vtime % 0x100 + value % 2 * 0x100)
  }

  function WriteControl(s: State, local: int, value: int): State {
    if local == 0x4200 then WriteInterruptEnable(s, value)
    else if 0x4207 <= local <= 0x420A then s.(r := MatchPositions(s.r, local, value))
    else if local == 0x420B then WriteDmaEnable(s, value)
    else if local == 0x420C then WriteHdmaEnable(s, value)
    else if local == 0x420D then s.(fast := value % 2 == 1)
    else s
  }

  function WritePpu(s: State, local: int, value: int): State {
    if PpuPorts.Refused(s.p, local) then Fail(s, VramMapping)
    else
      s.(p := PpuPorts.Write(s.p, local, value),
         r := if local == 0x2133 then s.r.(overscan := value / 4 % 2 == 1) else s.r)
  }

  function WriteWram(s: State, offset: int, value: int): State {
    s.(m := s.m.(wram := PpuPorts.Put(s.m.wram, offset, value)))
  }

  function Disturbed(t: Timing): Timing {
    t.(arb := t.arb.(pace := t.arb.pace.(whole := false)))
  }

  function Write(s: State, a: int, value: int): State {
    var low := RomChecksum.LowBank(Bank(a));
    var local := Local(a);
    var save := RomChecksum.SramOffset(Bank(a), local);
    if WramOffset(a).Some? then WriteWram(s, WramOffset(a).value, value)
    else if save.Some? then s.(m := s.m.(sram := PpuPorts.Put(s.m.sram, save.value, value)))
    else if RomChecksum.CpuToLinear(Bank(a), local).Some? then s
    else if low && (local == 0x4016 || 0x2140 <= local <= 0x2143) then s
    else if low && 0x2100 <= local <= 0x2133 then WritePpu(s, local, value)
    else if low && 0x4200 <= local <= 0x420D then WriteControl(s, local, value)
    else if low && DmaRegisters(local, 7) then
      match WriteDmaRegister(s.d, local, value)
      case Some(d) => s.(d := d, t := if IsPointer(local) then Disturbed(s.t) else s.t)
      case None => Fail(s, DmaRegisterAccess)
    else Fail(s, BusWrite)
  }
}
