/** The machine's HDMA services carry out the table: frame by frame, line by line, word by word. */
module HdmaFrame {
  import opened Options
  import opened Clock
  import opened MachineBus
  import opened MachineDma
  import opened HdmaTable
  import HdmaService
  import PpuPorts
  import RomChecksum
  import RomMapping

  const TABLE := 0x4AE3

  /** The table's bytes: bank $C1 of the cartridge. */
  function Rom(image: seq<int>): (rom: int -> int)
    ensures forall a :: rom(a) == PpuPorts.At(image, 0x10000 + a % 0x10000) % 0x100
  {
    (a: int) => PpuPorts.At(image, 0x10000 + a % 0x10000) % 0x100
  }

  /** A byte of plain memory: reading it has no side effect. */
  function Plain(m: Memory, a: int): Option<int> {
    if WramOffset(a).Some? then Some(PpuPorts.At(m.wram, WramOffset(a).value) % 0x100)
    else if 0x8000 <= Local(a) && Cartridge(m, a).Some? then Some(Cartridge(m, a).value % 0x100)
    else None
  }

  lemma PlainRead(s: State, a: int)
    requires Plain(s.m, a).Some?
    ensures Read(s, a) == Got(s, Plain(s.m, a).value)
  {
    hide Cartridge, Bank;
  }

  lemma TableRead(s: State, a: int)
    requires 0 <= a < 0x10000
    ensures Read(s, 0xC1 * 0x10000 + a) == Got(s, Rom(s.m.rom)(a))
  {
    var at := 0xC1 * 0x10000 + a;
    assert Bank(at) == 0xC1 && Local(at) == a;
    assert RomChecksum.CpuToLinear(0xC1, a) == Some(0x10000 + a);
  }

  lemma RomBytes(image: seq<int>)
    ensures Bytes(Rom(image))
  {
  }

  lemma TableFetch(s: State, a: int)
    requires s.d.ch2.bank == 0xC1 && 0 <= a < 0x10000
    ensures !Failed(s) ==> Fetch(s, TableAddress(s, a)) == Got(Wait(s, 8), Rom(s.m.rom)(a))
  {
    hide Read, Wait;
    TableRead(s, a);
  }

  /** Nothing but the cursor and the clock has changed. */
  predicate SameSource(s: State, u: State) {
    u.d == s.d.(hdma := u.d.hdma) && u.m == s.m && u.p == s.p
  }

  /** Reading the rest of a descriptor loads it. */
  lemma DescriptorLoads(r: Ran, table: int)
    requires r.s.d.ch2.bank == 0xC1 && 0 <= table < 0x10000
    ensures var q := Descriptor(r, Rom(r.s.m.rom)(table), table);
            !Failed(q.s) ==> q.s.d.hdma == Load(Rom(r.s.m.rom), table) && SameSource(r.s, q.s)
  {
    hide Fetch, Read, Advance, TableAddress, Rom;
    if Failed(Descriptor(r, Rom(r.s.m.rom)(table), table).s) {
      return;
    }
    DescriptorRuns(r, Rom(r.s.m.rom)(table), table);
    var low := Fetch(r.s, TableAddress(r.s, Next(table)));
    TableFetch(r.s, Next(table));
    if Rom(r.s.m.rom)(table) != 0 {
      TableFetch(low.s, Next(Next(table)));
    }
  }

  lemma DescriptorRuns(r: Ran, first: int, table: int)
    ensures !Failed(Descriptor(r, first, table).s)
            ==> !Failed(r.s) && !Failed(Fetch(r.s, TableAddress(r.s, Next(table))).s)
  {
    hide Fetch, TableAddress;
  }

  /** The bookkeeping of a line advances the cursor as the table machine does. */
  lemma NextLineLoads(r: Ran, before: Cursor)
    requires r.s.d.ch2.bank == 0xC1 && 0 <= before.table < 0x10000 && !Failed(NextLine(r).s)
    requires r.s.d.hdma == before.(pointer := if before.transfer then (before.pointer + 2) % 0x10000
                                              else before.pointer)
    ensures NextLine(r).s.d.hdma == Line(Rom(r.s.m.rom), before) && SameSource(r.s, NextLine(r).s)
  {
    hide Fetch, Descriptor, Advance, TableAddress, Rom, Load;
    var c := r.s.d.hdma;
    var counter := (c.counter - 1) % 0x100;
    NextLineRuns(r);
    var counted := WithCursor(r.s, c.(counter := counter, transfer := counter >= 0x80));
    TableFetch(counted, c.table);
    var first := Fetch(counted, TableAddress(counted, c.table));
    if counter % 0x80 == 0 {
      DescriptorLoads(Ran(first.s, r.clocks + 8), c.table);
    }
  }

  lemma NextLineRuns(r: Ran)
    requires !Failed(NextLine(r).s)
    ensures !Failed(r.s)
  {
    hide Fetch, Descriptor;
  }

  // ----- the frame -----

  /** The configuration a service needs. */
  predicate Armed(s: State) {
    s.r.hdmaen == 4 && Proved(s.d)
  }

  lemma BeginKeeps(s: State, nested: bool)
    ensures var r := Overhead(Begin(s, nested)); r.s.d == s.d && r.s.m == s.m && r.s.p == s.p && r.s.port == s.port
  {
  }

  lemma FinishKeeps(r: Ran, speed: int, nested: bool)
    requires CpuSpeed(speed)
    ensures var q := Finish(r, speed, nested);
            q.s.d == r.s.d && q.s.m == r.s.m && q.s.p == r.s.p && (!Failed(q.s) ==> !Failed(r.s))
  {
    hide Advance;
  }

  /** The frame's initialisation puts the cursor before line 0. */
  lemma InitLoads(s: State, speed: int, nested: bool)
    requires CpuSpeed(speed) && Armed(s)
    ensures var u := HdmaInit(s, speed, nested).s;
            !Failed(u) ==> u.d.hdma == AfterLines(Rom(s.m.rom), TABLE, 0) && u.m == s.m
  {
    hide Begin, Overhead, Fetch, Descriptor, Finish, Rom, Load, TableAddress;
    if Failed(HdmaInit(s, speed, nested).s) {
      return;
    }
    var cleared := ClearCursor(s);
    var begun := Overhead(Begin(cleared, nested));
    BeginKeeps(cleared, nested);
    TableFetch(begun.s, TABLE);
    var first := Fetch(begun.s, TableAddress(begun.s, TABLE));
    var q := Descriptor(Ran(first.s, begun.clocks + 8), first.value, TABLE);
    FinishKeeps(q, speed, nested);
    if !Failed(begun.s) {
      DescriptorLoads(Ran(first.s, begun.clocks + 8), TABLE);
    }
  }

  /** One copy through the pointer from plain memory. */
  lemma CopyLands(r: Ran, value: int)
    requires Proved(r.s.d) && 0 <= r.s.d.hdma.pointer < 0x10000 && Plain(r.s.m, r.s.d.hdma.pointer) == Some(value)
    ensures var q := CopyIndirect(r);
            !Failed(q.s) ==>
            && q.s.d == r.s.d.(hdma := r.s.d.hdma.(pointer := Next(r.s.d.hdma.pointer))) && q.s.m == r.s.m
            && q.s.p == r.s.p.(scroll := PpuPorts.ScrollH(r.s.p.scroll, 0, value))
  {
    hide Read, Write, Advance, Plain, PpuPorts.ScrollH;
    if Failed(CopyIndirect(r).s) {
      return;
    }
    var a := r.s.d.hdma.pointer;
    PlainRead(r.s, a);
    assert r.s.d.ch2.indirectBank * 0x10000 + a == a && 0x2100 + r.s.d.ch2.bbad == 0x210D;
    HdmaService.ScrollDecode(r.s, value);
  }

  lemma PlainByte(m: Memory, a: int, value: int)
    requires Plain(m, a) == Some(value)
    ensures 0 <= value < 0x100
  {
    hide Cartridge, WramOffset, Local;
  }

  lemma CopyRuns(r: Ran)
    requires !Failed(CopyIndirect(r).s)
    ensures !Failed(r.s)
  {
    hide Read, Write, Advance;
  }

  /** Both bytes: the scroll register holds the word, whatever the latches held before. */
  lemma CopiesLand(r: Ran, a: int, low: int, high: int)
    requires Proved(r.s.d) && r.s.d.hdma.pointer == a && 0 <= a < 0x10000 && |r.s.p.scroll.bgH| == 4
    requires Plain(r.s.m, a) == Some(low) && Plain(r.s.m, Next(a)) == Some(high)
    ensures var q := CopyIndirect(CopyIndirect(r));
            !Failed(q.s) ==>
            && q.s.d == r.s.d.(hdma := r.s.d.hdma.(pointer := Next(Next(a)))) && q.s.m == r.s.m
            && q.s.p == r.s.p.(scroll := q.s.p.scroll)
            && q.s.p.scroll.bgH == r.s.p.scroll.bgH[0 := (high * 256 + low) % 0x400]
  {
    hide CopyIndirect, Plain, Failed, PpuPorts.ScrollH, Next;
    if Failed(CopyIndirect(CopyIndirect(r)).s) {
      return;
    }
    NextInRange(a);
    var one := CopyIndirect(r);
    CopyRuns(one);
    CopyLands(r, low);
    CopyLands(one, high);
    PlainByte(r.s.m, a, low);
    PlainByte(r.s.m, Next(a), high);
    PpuPorts.ScrollWord(r.s.p.scroll, low, high);
  }

  lemma NextInRange(a: int)
    ensures 0 <= Next(a) < 0x10000
  {
  }

  lemma PointerInRange(rom: int -> int, n: nat)
    requires Bytes(rom)
    ensures var c := AfterLines(rom, TABLE, n); c.transfer ==> 0 <= c.pointer < 0x10000
    ensures 0 <= AfterLines(rom, TABLE, n).table < 0x10000
  {
  }

  /** The machine before line `n` of a frame: armed, its cursor where the table machine is. */
  ghost predicate BeforeLine(s: State, n: nat) {
    Armed(s) && s.d.hdma == AfterLines(Rom(s.m.rom), TABLE, n) && |s.p.scroll.bgH| == 4
  }

  /** Where line `n` transfers from, both bytes come from plain memory. */
  ghost predicate PlainWord(m: Memory, a: int) {
    Plain(m, a).Some? && Plain(m, Next(a)).Some?
  }

  function WordAt(m: Memory, a: int): int
    requires PlainWord(m, a)
  {
    Plain(m, Next(a)).value * 256 + Plain(m, a).value
  }

  /** A line's service moves the cursor to the next line, and leaves the horizontal scroll of layer 1 at the word
      the table points to, modulo 1024, exactly on the lines on which the table transfers. */
  lemma LineService(s: State, speed: int, nested: bool, n: nat)
    requires CpuSpeed(speed) && BeforeLine(s, n)
    requires var w := Transfers(Rom(s.m.rom), TABLE, n); w.Some? ==> PlainWord(s.m, w.value)
    ensures var u := HdmaScanline(s, speed, nested).s;
            !Failed(u) ==>
            && u.m == s.m && u.d == s.d.(hdma := AfterLines(Rom(s.m.rom), TABLE, n + 1))
            && u.p == s.p.(scroll := u.p.scroll)
            && match Transfers(Rom(s.m.rom), TABLE, n)
               case None => u.p == s.p
               case Some(a) => u.p.scroll.bgH == s.p.scroll.bgH[0 := WordAt(s.m, a) % 0x400]
  {
    hide Begin, Overhead, CopyIndirect, NextLine, Finish, Rom, Load, Line, Plain, Failed, Transfers, Ended;
    if Failed(HdmaScanline(s, speed, nested).s) {
      return;
    }
    RomBytes(s.m.rom);
    TableRefined(Rom(s.m.rom), TABLE, n);
    PointerInRange(Rom(s.m.rom), n);
    var c := s.d.hdma;
    if !c.finished {
      var begun := Overhead(Begin(s, nested));
      BeginKeeps(s, nested);
      var copied := if c.transfer then CopyIndirect(CopyIndirect(begun)) else begun;
      var q := NextLine(copied);
      FinishKeeps(q, speed, nested);
      NextLineRuns(copied);
      if c.transfer {
        var a := c.pointer;
        CopiesLand(begun, a, Plain(s.m, a).value, Plain(s.m, Next(a)).value);
        Thirds(a);
      }
      NextLineLoads(copied, c);
    }
  }

  /** Between two services the guest may do anything but touch the channel. */
  ghost predicate Untouched(u: State, s: State) {
    Armed(s) && s.d.hdma == u.d.hdma && s.m.rom == u.m.rom && |s.p.scroll.bgH| == 4
  }

  /** One frame: an initialisation, then one service a line, each at whatever speed and inside whatever manual
      transfer, the guest leaving the channel alone and the table pointing at plain memory.  That the beam drives
      the machine through such frames is `MachineRuns.LineInTurn`. */
  ghost predicate FrameRun(start: State, speed: int, inside: bool, lines: seq<State>, speeds: seq<int>,
                           nested: seq<bool>, n: nat)
    requires CpuSpeed(speed)
  {
    && |lines| == |speeds| == |nested| && n < |lines|
    && (forall i :: 0 <= i < |lines| ==> CpuSpeed(speeds[i]))
    && Armed(start) && !Failed(HdmaInit(start, speed, inside).s)
    && Untouched(HdmaInit(start, speed, inside).s, lines[0])
    && (forall i :: 0 <= i < n ==>
          && !Failed(HdmaScanline(lines[i], speeds[i], nested[i]).s)
          && Untouched(HdmaScanline(lines[i], speeds[i], nested[i]).s, lines[i + 1]))
    && (forall i :: 0 <= i < n ==>
          var w := WordOnLine(start, i); w.Some? ==> PlainWord(lines[i].m, w.value))
  }

  /** Every line of a frame finds the cursor where the table puts it, so `LineService` speaks of it. */
  lemma {:induction false} FrameFollowsTable(start: State, speed: int, inside: bool, lines: seq<State>,
                                             speeds: seq<int>, nested: seq<bool>, n: nat)
    requires CpuSpeed(speed) && n < |lines|
    ensures FrameRun(start, speed, inside, lines, speeds, nested, n)
            ==> BeforeLine(lines[n], n) && lines[n].m.rom == start.m.rom
  {
    hide HdmaInit, HdmaScanline, Plain, Rom, Failed, Transfers;
    if FrameRun(start, speed, inside, lines, speeds, nested, n) {
      if n == 0 {
        InitLoads(start, speed, inside);
      } else {
        FrameFollowsTable(start, speed, inside, lines, speeds, nested, n - 1);
        LineService(lines[n - 1], speeds[n - 1], nested[n - 1], n - 1);
      }
    }
  }

  /** The address the table transfers from on a line. */
  ghost function WordOnLine(s: State, n: nat): Option<int> {
    RomBytes(s.m.rom);
    Transfers(Rom(s.m.rom), TABLE, n)
  }

  // ----- services that cannot fail -----

  lemma FetchRuns(s: State, a: int, k: int)
    requires HdmaService.Begun(s, k) && k + 8 <= 250 && s.d.ch2.bank == 0xC1 && 0 <= a < 0x10000
    ensures var g := Fetch(s, TableAddress(s, a));
            && !Failed(g.s) && HdmaService.Begun(g.s, k + 8) && g.value == Rom(s.m.rom)(a)
            && g.s.d == s.d && g.s.m == s.m
  {
    hide Fetch, HdmaService.Served, HdmaService.Begun, Rom, TableAddress;
    HdmaService.BegunRuns(s, k);
    TableFetch(s, a);
    HdmaService.WaitServed(s, 8, k);
    HdmaService.ServedBegun(s, Wait(s, 8), 8, k);
  }

  lemma DescriptorCompletes(r: Ran, table: int, k: int)
    requires HdmaService.Begun(r.s, k) && k + 16 <= 250 && r.s.d.ch2.bank == 0xC1
    ensures !Failed(Descriptor(r, Rom(r.s.m.rom)(table), table).s)
  {
    hide Fetch, HdmaService.Begun, Rom, TableAddress, Failed;
    HdmaService.BegunRuns(r.s, k);
    NextInRange(table);
    NextInRange(Next(table));
    FetchRuns(r.s, Next(table), k);
    var low := Fetch(r.s, TableAddress(r.s, Next(table)));
    FetchRuns(low.s, Next(Next(table)), k + 8);
    Stores(low.s, Fetch(low.s, TableAddress(low.s, Next(Next(table)))).s);
  }

  lemma Stores(s: State, u: State)
    ensures forall c :: Failed(WithCursor(s, c)) == Failed(s) && Failed(WithCursor(u, c)) == Failed(u)
  {
  }

  lemma CopyCompletes(r: Ran, k: int)
    requires HdmaService.Begun(r.s, k) && k + 8 <= 250 && Proved(r.s.d)
    requires 0 <= r.s.d.hdma.pointer < 0x10000 && Plain(r.s.m, r.s.d.hdma.pointer).Some?
    ensures !Failed(CopyIndirect(r).s)
  {
    hide Read, Write, Advance, Plain, PpuPorts.ScrollH, HdmaService.Served, HdmaService.Begun;
    HdmaService.BegunRuns(r.s, k);
    var a := r.s.d.hdma.pointer;
    PlainRead(r.s, a);
    var value := Plain(r.s.m, a).value;
    assert r.s.d.ch2.indirectBank * 0x10000 + a == a && 0x2100 + r.s.d.ch2.bbad == 0x210D;
    HdmaService.ScrollDecode(r.s, value);
    var moved := Write(r.s, 0x210D, value);
    HdmaService.ScrollWriteServed(r.s, value, k);
    HdmaService.ServedBegun(r.s, moved, 0, k);
    HdmaService.WaitServed(moved, 8, k);
  }

  lemma NextLineCompletes(r: Ran, k: int)
    requires HdmaService.Begun(r.s, k) && k + 24 <= 250 && r.s.d.ch2.bank == 0xC1 && 0 <= r.s.d.hdma.table < 0x10000
    ensures !Failed(NextLine(r).s)
  {
    hide Fetch, Descriptor, HdmaService.Begun, HdmaService.Served, Rom, TableAddress, Failed;
    HdmaService.BegunRuns(r.s, k);
    var c := r.s.d.hdma;
    var counter := (c.counter - 1) % 0x100;
    var next := c.(counter := counter, transfer := counter >= 0x80);
    var counted := WithCursor(r.s, next);
    HdmaService.CursorServed(r.s, next, k);
    HdmaService.CursorRuns(r.s, next);
    HdmaService.ServedBegun(r.s, counted, 0, k);
    FetchRuns(counted, c.table, k);
    var first := Fetch(counted, TableAddress(counted, c.table));
    DescriptorCompletes(Ran(first.s, r.clocks + 8), c.table, k + 8);
  }

  lemma FinishCompletes(s: State, r: Ran, speed: int, nested: bool, k: int)
    requires CpuSpeed(speed) && HdmaService.Begun(s, k) && HdmaService.Served(s, r.s, r.clocks, k) && !Failed(r.s)
    requires 0 <= r.clocks && k + r.clocks + 12 <= 250
    ensures !Failed(Finish(r, speed, nested).s)
  {
    hide HdmaService.Served, HdmaService.Begun, Advance, Failed;
    HdmaService.ServedBegun(s, r.s, r.clocks, k);
    HdmaService.WaitServed(r.s, ToCpu(r.clocks, speed), k + r.clocks);
  }

  /** A line of a frame is always served, so `LineService` then holds without a proviso. */
  lemma LineCompletes(s: State, speed: int, nested: bool, n: nat, k: int)
    requires CpuSpeed(speed) && BeforeLine(s, n) && HdmaService.Begun(s, k) && k + 80 <= 250
    requires var w := WordOnLine(s, n); w.Some? ==> PlainWord(s.m, w.value)
    ensures !Failed(HdmaScanline(s, speed, nested).s)
  {
    hide Begin, Overhead, CopyIndirect, NextLine, Finish, Rom, Load, Line, Plain, Transfers, Ended, Failed,
         HdmaService.Served, HdmaService.Begun, Proved;
    RomBytes(s.m.rom);
    TableRefined(Rom(s.m.rom), TABLE, n);
    PointerInRange(Rom(s.m.rom), n);
    HdmaService.BegunRuns(s, k);
    var c := s.d.hdma;
    if !c.finished {
      var begun := Overhead(Begin(s, nested));
      HdmaService.BeginServed(s, nested, k);
      HdmaService.ServedBegun(s, begun.s, begun.clocks, k);
      BeginKeeps(s, nested);
      var copied := if c.transfer then CopyIndirect(CopyIndirect(begun)) else begun;
      if c.transfer {
        CopiesComplete(begun, c.pointer, k + begun.clocks);
        HdmaService.CopiesServed(begun, s, k);
        HdmaService.ServedBegun(s, copied.s, copied.clocks, k);
      }
      ProvedBank(begun.s);
      NextLineCompletes(copied, k + copied.clocks);
      HdmaService.NextLineServed(copied, k + copied.clocks);
      HdmaService.RanAfter(s, copied, NextLine(copied), 8, 24, k);
      FinishCompletes(s, NextLine(copied), speed, nested, k);
    }
  }

  lemma ProvedBank(s: State)
    requires Proved(s.d)
    ensures s.d.ch2.bank == 0xC1
  {
  }

  lemma CopiesComplete(r: Ran, a: int, k: int)
    requires HdmaService.Begun(r.s, k) && k + 16 <= 250 && Proved(r.s.d) && r.s.d.hdma.pointer == a
    requires 0 <= a < 0x10000 && PlainWord(r.s.m, a)
    ensures !Failed(CopyIndirect(CopyIndirect(r)).s)
    ensures var u := CopyIndirect(CopyIndirect(r)).s;
            u.d == r.s.d.(hdma := r.s.d.hdma.(pointer := Next(Next(a)))) && u.m == r.s.m
  {
    hide CopyIndirect, Plain, Failed, HdmaService.Served, HdmaService.Begun, Next, PpuPorts.ScrollH;
    NextInRange(a);
    var one := CopyIndirect(r);
    CopyCompletes(r, k);
    CopyLands(r, Plain(r.s.m, a).value);
    HdmaService.CopyIndirectServed(r, k);
    HdmaService.ServedBegun(r.s, one.s, one.clocks - r.clocks, k);
    CopyCompletes(one, k + 8);
    CopyLands(one, Plain(r.s.m, Next(a)).value);
  }

  /** The frame's initialisation always completes. */
  lemma InitCompletes(s: State, speed: int, nested: bool, k: int)
    requires CpuSpeed(speed) && Armed(s) && HdmaService.Begun(s, k) && k + 80 <= 250
    ensures !Failed(HdmaInit(s, speed, nested).s)
  {
    hide Begin, Overhead, Fetch, Descriptor, Finish, Rom, Failed, WithCursor, TableAddress, HdmaService.Served,
         HdmaService.Begun;
    var cleared := ClearCursor(s);
    var c := s.d.hdma.(finished := false, transfer := false, ready := false);
    HdmaService.CursorServed(s, c, k);
    HdmaService.CursorRuns(s, c);
    HdmaService.BegunRuns(s, k);
    HdmaService.ServedBegun(s, cleared, 0, k);
    CursorKeeps(s, c);
    var begun := Overhead(Begin(cleared, nested));
    HdmaService.BeginServed(cleared, nested, k);
    HdmaService.ServedBegun(cleared, begun.s, begun.clocks, k);
    FetchRuns(begun.s, TABLE, k + begun.clocks);
    var first := Fetch(begun.s, TableAddress(begun.s, TABLE));
    HdmaService.FetchServed(begun.s, TableAddress(begun.s, TABLE), k + begun.clocks);
    HdmaService.ServedAdds(cleared, begun.s, first.s, begun.clocks, 8, k);
    var read := Ran(first.s, begun.clocks + 8);
    var q := Descriptor(read, first.value, TABLE);
    DescriptorCompletes(read, TABLE, k + read.clocks);
    HdmaService.DescriptorServed(read, first.value, TABLE, k + read.clocks);
    HdmaService.RanAfter(cleared, read, q, 8, 16, k);
    FinishCompletes(cleared, q, speed, nested, k);
  }

  lemma CursorKeeps(s: State, c: Cursor)
    ensures WithCursor(s, c).d.ch2 == s.d.ch2 && WithCursor(s, c).m == s.m
  {
  }
}
