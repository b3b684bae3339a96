/** Laws of the bus and its registers: what a program that sets them up gets. */
module BusLaws {
  import opened Options
  import opened Clock
  import opened MachineBus
  import opened MachineDma
  import opened MachineCpu
  import PpuPorts
  import RomChecksum
  import RomMapping

  // ----- work RAM -----

  /** The 128 KiB of banks $7E and $7F, and the first 8 KiB again at the bottom of the low banks; nowhere else. */
  lemma WramExact(a: nat, k: nat)
    requires a < 0x100_0000 && k < 0x2_0000
    ensures WramOffset(0x7E_0000 + k) == Some(k)
    ensures WramOffset(a).Some?
            <==> 0x7E_0000 <= a < 0x80_0000
                 || (a % 0x10000 < 0x2000 && (a < 0x40_0000 || 0x80_0000 <= a < 0xC0_0000))
    ensures a % 0x10000 < 0x2000 && (a < 0x40_0000 || 0x80_0000 <= a < 0xC0_0000)
            ==> WramOffset(a) == WramOffset(0x7E_0000 + a % 0x10000)
  {
    assert Bank(0x7E_0000 + k) == 0x7E + k / 0x10000 && Local(0x7E_0000 + k) == k % 0x10000;
    assert Bank(a) == a / 0x10000;
  }

  /** A byte written to work RAM is read back, and no other byte of memory changes. */
  lemma WramWritten(s: State, a: nat, value: int)
    requires a < 0x100_0000 && WramOffset(a).Some? && |s.m.wram| == 0x2_0000 && 0 <= value < 0x100
    ensures var u := Write(s, a, value);
            var k := WramOffset(a).value;
            && 0 <= k < 0x2_0000 && u == s.(m := s.m.(wram := s.m.wram[k := value]))
            && Read(u, a) == Got(u, value)
  {
  }

  /** A byte written to save RAM is read back from every mirror, and no other byte of memory changes. */
  lemma SaveWritten(s: State, a: nat, b: nat, value: int)
    requires a < 0x100_0000 && b < 0x100_0000 && |s.m.sram| == RomMapping.SRAM_SIZE && 0 <= value < 0x100
    requires RomChecksum.SramOffset(Bank(a), Local(a)).Some?
    requires RomChecksum.SramOffset(Bank(b), Local(b)) == RomChecksum.SramOffset(Bank(a), Local(a))
    ensures var u := Write(s, a, value);
            var k := RomChecksum.SramOffset(Bank(a), Local(a)).value;
            && k < RomMapping.SRAM_SIZE && u == s.(m := s.m.(sram := s.m.sram[k := value]))
            && Read(u, b) == Got(u, value)
  {
    hide Read, Write, RomChecksum.SramOffset;
    SaveAccess(s, a, value);
    SaveAccess(Write(s, a, value), b, 0);
  }

  lemma SaveAccess(s: State, a: nat, value: int)
    requires a < 0x100_0000 && RomChecksum.SramOffset(Bank(a), Local(a)).Some? && |s.m.sram| == RomMapping.SRAM_SIZE
    ensures var k := RomChecksum.SramOffset(Bank(a), Local(a)).value;
            && k < RomMapping.SRAM_SIZE && Write(s, a, value) == s.(m := s.m.(sram := s.m.sram[k := value]))
            && Read(s, a) == Got(s, s.m.sram[k] % 0x100)
  {
    hide RomChecksum.CpuToLinear, WriteControl, WriteDmaRegister, DmaRegister, PpuPorts.Write, WritePpu;
    SavePage(a);
  }

  lemma SavePage(a: nat)
    requires RomChecksum.SramOffset(Bank(a), Local(a)).Some?
    ensures 0x6000 <= Local(a) < 0x8000 && WramOffset(a).None?
  {
  }

  /** A write to ROM changes nothing. */
  lemma RomIgnored(s: State, a: nat, value: int)
    requires a < 0x100_0000 && RomChecksum.CpuToLinear(Bank(a), Local(a)).Some?
    ensures Write(s, a, value) == s
  {
    hide WriteControl, WriteDmaRegister;
  }

  // ----- bus speeds -----

  /** Twelve clocks for the serial controller page, six for the other I/O pages and for fast ROM, eight for the rest. */
  lemma SpeedExact(fast: bool, a: nat)
    requires a < 0x100_0000
    ensures var bank, local := a / 0x10000, a % 0x10000;
            var low := bank % 0x80 < 0x40;
            && (BusSpeed(fast, a) == 12 <==> low && 0x4000 <= local < 0x4200)
            && (BusSpeed(fast, a) == 6
                <==> (low && 0x2000 <= local < 0x6000 && !(0x4000 <= local < 0x4200))
                     || (fast && bank >= 0x80 && (!low || local >= 0x8000)))
  {
    assert Bank(a) == a / 0x10000;
  }

  // ----- where a write goes -----

  lemma LowAddress(a: int)
    requires 0x2100 <= a < 0x4300
    ensures Bank(a) == 0 && Local(a) == a && WramOffset(a).None?
    ensures RomChecksum.SramOffset(0, a).None? && RomChecksum.CpuToLinear(0, a).None?
  {
  }

  lemma ControlRouted(s: State, a: int, value: int)
    requires 0x4200 <= a <= 0x420D
    ensures Write(s, a, value) == WriteControl(s, a, value)
  {
    hide WriteControl, WritePpu, WriteDmaRegister, RomChecksum.SramOffset, RomChecksum.CpuToLinear, WramOffset, Bank,
         Local;
    LowAddress(a);
  }

  /** The registers of the low banks, each at its own address. */
  lemma WriteRouted(s: State, a: int, value: int)
    ensures Write(s, 0x4200, value) == WriteInterruptEnable(s, value)
    ensures Write(s, 0x420B, value) == WriteDmaEnable(s, value)
    ensures Write(s, 0x420C, value) == WriteHdmaEnable(s, value)
    ensures Write(s, 0x420D, value) == s.(fast := value % 2 == 1)
    ensures 0x4207 <= a <= 0x420A ==> Write(s, a, value) == s.(r := MatchPositions(s.r, a, value))
    ensures 0x2100 <= a <= 0x2133 ==> Write(s, a, value) == WritePpu(s, a, value)
  {
    hide Write, WriteInterruptEnable, WriteDmaEnable, WriteHdmaEnable, MatchPositions, WritePpu;
    ControlRouted(s, 0x4200, value);
    ControlRouted(s, 0x420B, value);
    ControlRouted(s, 0x420C, value);
    ControlRouted(s, 0x420D, value);
    if 0x4207 <= a <= 0x420A {
      ControlRouted(s, a, value);
    }
    if 0x2100 <= a <= 0x2133 {
      PortRouted(s, a, value);
    }
  }

  lemma PortRouted(s: State, a: int, value: int)
    requires 0x2100 <= a <= 0x2133
    ensures Write(s, a, value) == WritePpu(s, a, value)
  {
    hide WriteControl, WritePpu, WriteDmaRegister, RomChecksum.SramOffset, RomChecksum.CpuToLinear, WramOffset, Bank,
         Local;
    LowAddress(a);
  }

  /** $4212 bit 6: the first three and the last 268 dots of a line of 1364. */
  lemma BlankBit(s: State)
    ensures Read(s, 0x4212) == Got(s, if 3 <= s.t.beam.h < 1364 - 268 then 0 else 0x40)
  {
    assert Bank(0x4212) == 0 && Local(0x4212) == 0x4212;
  }

  // ----- DMA registers -----

  function Written(d: Option<Dma>, local: int, value: int): Option<Dma> {
    if d.None? then None else WriteDmaRegister(d.value, local, value)
  }

  /** Seven writes set a channel up: mode, target, source word, bank and size word, low bytes first. */
  lemma ChannelSetUp(d: Dma, c: int, dmap: int, bbad: int, source: int, bank: int, size: int)
    requires (c == 0 || c == 1 || c == 7) && 0 <= source < 0x10000 && 0 <= size < 0x10000
    ensures var at := 0x4300 + 0x10 * c;
            Written(Written(Written(Written(Written(Written(Written(Some(d), at, dmap), at + 1, bbad),
            at + 2, source % 0x100), at + 3, source / 0x100), at + 4, bank), at + 5, size % 0x100),
            at + 6, size / 0x100)
            == Some(SetChannel(d, c, Channel(dmap, bbad, source, bank, size, GetChannel(d, c).indirectBank)))
  {
    hide WriteDmaRegister, SetChannel, GetChannel, LowByte, HighByte;
    var ch := GetChannel(d, c);
    BytesJoin(ch.source, source);
    BytesJoin(ch.size, size);
    SetRegister(d, c, ch, dmap, bbad, bank);
    var one := ch.(dmap := dmap);
    SetRegister(d, c, one, dmap, bbad, bank);
    var two := one.(bbad := bbad);
    SetWord(d, c, two, source % 0x100, source / 0x100);
    SetWord(d, c, two.(source := LowByte(ch.source, source % 0x100)), source % 0x100, source / 0x100);
    var four := two.(source := source);
    SetRegister(d, c, four, dmap, bbad, bank);
    var five := four.(bank := bank);
    SetWord(d, c, five, size % 0x100, size / 0x100);
    SetWord(d, c, five.(size := LowByte(ch.size, size % 0x100)), size % 0x100, size / 0x100);
    SameChannel(d, c);
  }

  lemma SameChannel(d: Dma, c: int)
    requires c == 0 || c == 1 || c == 7
    ensures SetChannel(d, c, GetChannel(d, c)) == d
  {
  }

  /** One write to a channel that holds `ch`. */
  lemma SetRegister(d: Dma, c: int, ch: Channel, dmap: int, bbad: int, bank: int)
    requires c == 0 || c == 1 || c == 7
    ensures var u := SetChannel(d, c, ch);
            var at := 0x4300 + 0x10 * c;
            && WriteDmaRegister(u, at, dmap) == Some(SetChannel(d, c, ch.(dmap := dmap)))
            && WriteDmaRegister(u, at + 1, bbad) == Some(SetChannel(d, c, ch.(bbad := bbad)))
            && WriteDmaRegister(u, at + 4, bank) == Some(SetChannel(d, c, ch.(bank := bank)))
  {
    if c == 0 {
    } else if c == 1 {
    } else {
    }
  }

  lemma SetWord(d: Dma, c: int, ch: Channel, low: int, high: int)
    requires c == 0 || c == 1 || c == 7
    ensures var u := SetChannel(d, c, ch);
            var at := 0x4300 + 0x10 * c;
            && WriteDmaRegister(u, at + 2, low) == Some(SetChannel(d, c, ch.(source := LowByte(ch.source, low))))
            && WriteDmaRegister(u, at + 3, high) == Some(SetChannel(d, c, ch.(source := HighByte(ch.source, high))))
            && WriteDmaRegister(u, at + 5, low) == Some(SetChannel(d, c, ch.(size := LowByte(ch.size, low))))
            && WriteDmaRegister(u, at + 6, high) == Some(SetChannel(d, c, ch.(size := HighByte(ch.size, high))))
  {
    hide LowByte, HighByte;
    if c == 0 {
    } else if c == 1 {
    } else {
    }
  }

  lemma BytesJoin(before: int, word: int)
    requires 0 <= word < 0x10000
    ensures HighByte(LowByte(before, word % 0x100), word / 0x100) == word
  {
  }

  /** The readable registers: seven of each of the channels 0, 1, 2 and 7, and four more of channel 2. */
  lemma RegisterWindow(c: int, k: int)
    requires 0 <= c < 8 && 0 <= k < 0x10
    ensures DmaRegisters(0x4300 + 0x10 * c + k, 6)
            <==> (k <= 6 && (c <= 2 || c == 7)) || (k <= 10 && c == 2)
    ensures DmaRegisters(0x4300 + 0x10 * c + k, 7) <==> k <= 7 && (c <= 2 || c == 7)
  {
  }

  /** What is written to a register of a channel is read back from it. */
  lemma RegisterReadBack(d: Dma, c: int, k: int, value: int)
    requires (c == 0 || c == 1 || c == 2 || c == 7) && 0 <= k <= 6 && 0 <= value < 0x100
    ensures var at := 0x4300 + 0x10 * c + k;
            var u := WriteDmaRegister(d, at, value);
            u.Some? && DmaRegister(u.value, at).Some? && DmaRegister(u.value, at).value % 0x100 == value
  {
    hide LowByte, HighByte;
    BytesApart(value);
    var at := 0x4300 + 0x10 * c + k;
    assert at % 0x10 == k;
    if c == 0 {
      assert ChannelOf(at) == 0;
    } else if c == 1 {
      assert ChannelOf(at) == 1;
    } else if c == 2 {
      assert ChannelOf(at) == 2;
    } else {
      assert ChannelOf(at) == 7;
    }
  }

  lemma BytesApart(value: int)
    requires 0 <= value < 0x100
    ensures forall word :: LowByte(word, value) % 0x100 == value
    ensures forall word :: HighByte(word, value) / 0x100 % 0x100 == value
  {
  }

  /** HDMA is accepted on exactly the one configuration: indirect words to $210D from the table at C1:4AE3. */
  lemma HdmaAccepted(s: State)
    requires !Failed(s) && 0 <= s.d.ch2.source < 0x10000
    ensures !Failed(WriteHdmaEnable(s, 4))
            <==> && DmaRegister(s.d, 0x4320) == Some(0x42) && DmaRegister(s.d, 0x4321) == Some(0x0D)
                 && DmaRegister(s.d, 0x4322).value % 0x100 == 0xE3 && DmaRegister(s.d, 0x4323) == Some(0x4A)
                 && DmaRegister(s.d, 0x4324) == Some(0xC1) && DmaRegister(s.d, 0x4327) == Some(0)
    ensures !Failed(WriteHdmaEnable(s, 4)) ==> WriteHdmaEnable(s, 4) == s.(r := s.r.(hdmaen := 4))
    ensures WriteHdmaEnable(s, 0) == s.(r := s.r.(hdmaen := 0))
  {
    var word := s.d.ch2.source;
    assert word == word / 0x100 * 0x100 + word % 0x100;
  }

  /** The bit of $420B that starts a channel is the channel's number. */
  lemma EnableBit(mask: int)
    requires mask == 1 || mask == 2 || mask == 0x80
    ensures PendingChannel(mask) >= 0 && RomMapping.Pow2(PendingChannel(mask)) == mask
  {
    assert RomMapping.Pow2(0) == 1 && RomMapping.Pow2(1) == 2 && RomMapping.Pow2(3) == 8;
    assert RomMapping.Pow2(5) == 32 && RomMapping.Pow2(7) == 128;
  }

  /** A write to $420B starts nothing in the next cycle, and the transfer in the one after, unless HDMA goes first. */
  lemma DmaStartsLater(s: State, value: int, speed: int)
    requires CpuSpeed(speed) && !Failed(s) && s.d.mask == 0 && (value == 1 || value == 2 || value == 0x80)
    ensures var armed := WriteDmaEnable(s, value);
            var next := Arbitrate(armed, speed);
            && next == Arbitrated(ClearDelay(armed), false, 0)
            && (!HdmaPending(s) ==> Arbitrate(next.s, speed)
                                    == Arbitrated(RunDma(next.s, speed).s, true, RunDma(next.s, speed).clocks))
  {
    hide RunDma, ServeHdma;
  }

  /** A cycle reports the interrupt lock exactly when it grants a transfer: HDMA that is due and on, or else a manual
      transfer, and never in the cycle of the start delay. */
  lemma LockExactly(s: State, speed: int)
    requires CpuSpeed(speed)
    ensures Arbitrate(s, speed).ran
            <==> && !Failed(s) && !s.t.arb.startDelay
                 && (if HdmaPending(s) then s.r.hdmaen != 0 else s.d.mask != 0)
  {
    hide HdmaScanline, HdmaInit, RunDma;
  }

  /** A checkpoint of a manual transfer first uses up a start delay, which costs nothing. */
  lemma DelayAtCheckpoint(r: Ran, speed: int)
    requires CpuSpeed(speed) && !Failed(r.s) && r.s.t.arb.startDelay
    ensures Checkpoint(r, speed) == Ran(ClearDelay(r.s), r.clocks)
  {
  }

  /** A second write while one is waiting is refused, and so is any mask but the three. */
  lemma DmaRefused(s: State, value: int)
    requires !Failed(s)
    ensures Failed(WriteDmaEnable(s, value))
            <==> value != 0 && (s.d.mask != 0 || !(value == 1 || value == 2 || value == 0x80))
  {
  }

  // ----- timer and interrupt registers -----

  /** $4200: bit 7 is NMI, bit 5 the vertical and bit 4 the horizontal match, bit 0 the joypad poll. */
  lemma EnableBits(r: Timers, nmi: nat, vertical: nat, horizontal: nat, poll: nat, rest: nat)
    requires nmi < 2 && vertical < 2 && horizontal < 2 && poll < 2 && rest < 8
    ensures var u := Enabling(r, 0x80 * nmi + 0x20 * vertical + 0x10 * horizontal + 2 * rest + poll);
            u == r.(nmiEnable := nmi == 1, virq := vertical == 1, hirq := horizontal == 1, autoJoypad := poll == 1)
  {
    var value := 0x80 * nmi + 0x20 * vertical + 0x10 * horizontal + 2 * rest + poll;
    assert value / 128 == nmi && value / 32 == 4 * nmi + vertical && value / 16 == 8 * nmi + 2 * vertical + horizontal;
  }

  /** $4207 and $4208 set the nine-bit dot, $4209 and $420A the nine-bit line, low byte first. */
  lemma MatchSetUp(r: Timers, position: nat)
    requires position < 0x200
    ensures MatchPositions(MatchPositions(r, 0x4207, position % 0x100), 0x4208, position / 0x100)
            == r.(htime := position)
    ensures MatchPositions(MatchPositions(r, 0x4209, position % 0x100), 0x420A, position / 0x100)
            == r.(vtime := position)
  {
  }

  /** Enabling NMI while its flag is up raises an edge that is latched by the second free cycle, not the first; no
      other write to $4200 touches the edge. */
  lemma EnableRaises(s: State, value: nat)
    requires value < 0x100
    ensures var n := WriteInterruptEnable(s, value).t.nmi;
            if s.t.nmi.flag && !s.r.nmiEnable && value >= 0x80
            then n == s.t.nmi.(counter := 2) && Sample(n, false).pending == n.pending
                 && Sample(Sample(n, false), false).pending
            else n == s.t.nmi
  {
    assert value / 128 % 2 == 1 <==> value >= 0x80;
  }

  /** $4210: the flag is read once and then gone, except in the first dots of the NMI line. */
  lemma FlagReadOnce(s: State)
    ensures var once := ReadNmiFlag(s);
            var twice := ReadNmiFlag(once.s);
            && once.value == (if s.t.nmi.flag then 0x80 else 0)
            && (s.t.beam.v == (if s.r.overscan then 240 else 225) && s.t.beam.h < 6 ==> twice.value == once.value)
            && (!(s.t.beam.v == (if s.r.overscan then 240 else 225) && s.t.beam.h < 6) ==> twice.value == 0)
  {
  }

  /** $4211: the line is released by a read, but not while it is held. */
  lemma LineReadOnce(s: State)
    ensures var once := ReadTimeUp(s);
            && once.value == (if s.t.irq.line then 0x80 else 0)
            && ReadTimeUp(once.s).value == (if s.t.irq.line && s.t.irq.hold != 0 then 0x80 else 0)
  {
  }

  /** A read happens at the end of its cycle: a device is asked at the clock the access leaves. */
  lemma ReadAtEnd(s: State, a: nat)
    requires 0x2140 <= a <= 0x2143
    ensures var g := Load(s, a); !Failed(g.s) ==> g.value == g.s.port(a, g.s.t.beam.clock) % 0x100
  {
    hide Touch;
    assert Bank(a) == 0 && Local(a) == a;
  }

  // ----- the picture unit's ports -----

  /** $2115 with $80: words step by one, on the high byte, without remapping, which is what `VramDma` asks for; the
      address is the word written to $2116 and $2117. */
  lemma VramSetUp(p: PpuPorts.Ppu, address: nat)
    requires address < 0x10000
    ensures var u := PpuPorts.Write(PpuPorts.Write(PpuPorts.Write(p, 0x2115, 0x80), 0x2116, address % 0x100),
                                    0x2117, address / 0x100);
            u == p.(vram := PpuPorts.Vram(address, 1, 0, true, p.vram.mem))
  {
  }

  /** $2115 in general: bit 7 chooses the byte that steps, bits 0 and 1 the step, bits 2 and 3 the remapping. */
  lemma VramSteps(v: PpuPorts.Vram, high: nat, mapping: nat, step: nat)
    requires high < 2 && mapping < 4 && step < 4
    ensures var u := PpuPorts.VramControl(v, 0x80 * high + 4 * mapping + step);
            && u.onHigh == (high == 1) && u.mapping == mapping && u.address == v.address && u.mem == v.mem
            && u.increment == [1, 32, 128, 128][step]
  {
    assert (0x80 * high + 4 * mapping + step) / 4 == 0x20 * high + mapping;
    assert (0x80 * high + 4 * mapping + step) / 128 == high;
  }

  /** A data byte lands in its half of the addressed word, and the address moves with the chosen half only. */
  lemma VramByte(v: PpuPorts.Vram, byte: nat, value: int)
    requires byte < 2 && 0 <= v.address < 0x8000 && |v.mem| == 65536
    ensures var u := PpuPorts.VramData(v, byte, value);
            && u.mem == v.mem[2 * v.address + byte := value]
            && (u.address == v.address || u.address == (v.address + v.increment) % 0x10000)
            && (v.onHigh == (byte == 0) ==> u.address == v.address)
            && (v.onHigh == (byte == 1) ==> u.address == (v.address + v.increment) % 0x10000)
  {
  }

  /** $2102 and $2103 name a word of the sprite table, and writing starts at its first byte. */
  lemma OamSetUp(p: PpuPorts.Ppu, word: nat, rotate: nat)
    requires word < 0x200 && rotate < 2
    ensures var u := PpuPorts.Write(PpuPorts.Write(p, 0x2102, word % 0x100), 0x2103, 0x80 * rotate + word / 0x100);
            u == p.(oam := p.oam.(ram := word, internal := 2 * word, rotation := rotate == 1))
  {
    assert (0x80 * rotate + word / 0x100) % 2 == word / 0x100;
  }

  /** $2121 names a colour, and the next byte is its low one. */
  lemma CgramSetUp(p: PpuPorts.Ppu, colour: nat)
    ensures PpuPorts.Write(p, 0x2121, colour) == p.(cgram := p.cgram.(address := colour, second := false))
  {
  }

  /** The eight scroll registers: horizontal and vertical in turn, layer by layer; two writes leave the word written,
      modulo 1024, and the other seven values alone. */
  lemma ScrollSetUp(p: PpuPorts.Ppu, layer: nat, word: nat)
    requires layer < 4 && word < 0x10000 && |p.scroll.bgH| == 4 && |p.scroll.bgV| == 4
    ensures var h := 0x210D + 2 * layer;
            var u := PpuPorts.Write(PpuPorts.Write(p, h, word % 0x100), h, word / 0x100);
            u.scroll.bgH == p.scroll.bgH[layer := word % 0x400] && u.scroll.bgV == p.scroll.bgV
    ensures var v := 0x210E + 2 * layer;
            var u := PpuPorts.Write(PpuPorts.Write(p, v, word % 0x100), v, word / 0x100);
            u.scroll.bgV == p.scroll.bgV[layer := word % 0x400] && u.scroll.bgH == p.scroll.bgH
  {
    ScrollRoute(p, layer, word % 0x100);
    ScrollRoute(PpuPorts.Write(p, 0x210D + 2 * layer, word % 0x100), layer, word / 0x100);
    ScrollRoute(PpuPorts.Write(p, 0x210E + 2 * layer, word % 0x100), layer, word / 0x100);
    LatchBits(word % 0x100);
    assert word / 0x100 * 256 + word % 0x100 == word;
  }

  lemma ScrollRoute(p: PpuPorts.Ppu, layer: nat, value: int)
    requires layer < 4
    ensures PpuPorts.Write(p, 0x210D + 2 * layer, value).scroll == PpuPorts.ScrollH(p.scroll, layer, value)
    ensures PpuPorts.Write(p, 0x210E + 2 * layer, value).scroll == PpuPorts.ScrollV(p.scroll, layer, value)
  {
  }

  lemma LatchBits(low: nat)
    requires low < 0x100
    ensures low / 8 * 8 + low % 8 == low
  {
  }

  /** A data write under address remapping is refused, and nothing else is. */
  lemma RefusedExactly(s: State, local: nat, value: int)
    requires 0x2100 <= local <= 0x2133 && !Failed(s)
    ensures Failed(WritePpu(s, local, value)) <==> (local == 0x2118 || local == 0x2119) && s.p.vram.mapping != 0
    ensures local == 0x2133 ==> WritePpu(s, local, value).r.overscan == (value / 4 % 2 == 1)
    ensures local != 0x2133 ==> WritePpu(s, local, value).r == s.r
  {
    hide PpuPorts.Write;
  }
}
