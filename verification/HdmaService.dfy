/** What one HDMA service does to the rest of the machine: its exact cost in clocks, what it leaves alone, and
    that no event is raised or lost while it runs. */
module HdmaService {
  import opened Options
  import opened Clock
  import opened ClockEvents
  import opened MachineBus
  import opened MachineDma
  import PpuPorts
  import RomChecksum

  /** A live machine whose scheduler is sound. */
  predicate Ready(s: State) {
    Sound(s.t, s.r)
  }

  /** The failures this model shows to be unreachable. */
  predicate SchedulerFault(s: State) {
    s.t.arb.fault == Some(SecondInit) || s.t.arb.fault == Some(SecondScanline) || s.t.arb.fault == Some(SchedulerMask)
  }

  /** Every channel register but the HDMA cursor. */
  predicate SameChannels(d: Dma, e: Dma) {
    d.mask == e.mask && d.ch0 == e.ch0 && d.ch1 == e.ch1 && d.ch2 == e.ch2 && d.ch7 == e.ch7
  }

  /** Every timer register but the overscan setting, which a transfer to $2133 may change. */
  predicate SameTimers(r: Timers, q: Timers) {
    && r.nmiEnable == q.nmiEnable && r.hirq == q.hirq && r.virq == q.virq && r.autoJoypad == q.autoJoypad
    && r.htime == q.htime && r.vtime == q.vtime && r.hdmaen == q.hdmaen
  }

  /** What no transfer of either kind touches: memory, the processor, the timer registers and the NMI edge. */
  ghost predicate CpuKept(s: State, u: State) {
    && |u.p.scroll.bgH| == |s.p.scroll.bgH|
    && u.m == s.m && u.cpu == s.cpu && u.k == s.k && u.fast == s.fast && u.port == s.port
    && SameTimers(s.r, u.r) && EdgeKept(s.t.nmi, u.t.nmi)
  }

  ghost predicate Kept(s: State, u: State) {
    CpuKept(s, u) && SameChannels(s.d, u.d)
  }

  /** What HDMA leaves alone besides: all of the picture unit but its scroll registers. */
  predicate ScrollOnly(s: State, u: State) {
    u.p.oam == s.p.oam && u.p.vram == s.p.vram && u.p.cgram == s.p.cgram && u.r == s.r
  }

  /** `n` clocks have passed, and forty more for every refresh. */
  predicate Ledger(s: State, u: State, n: int) {
    && Settled(u.t.beam) && u.t.beam.refreshes >= s.t.beam.refreshes
    && u.t.beam.clock == s.t.beam.clock + n + REFRESH_CLOCKS * (u.t.beam.refreshes - s.t.beam.refreshes)
  }

  ghost predicate Spent(s: State, u: State, n: int) {
    Ledger(s, u, n) && Kept(s, u)
  }

  lemma SpentAdds(s: State, u: State, w: State, n: int, m: int)
    requires Spent(s, u, n) && Spent(u, w, m)
    ensures Spent(s, w, n + m)
  {
    hide Settled;
  }

  /** The beam `n` clocks later on the same line. */
  function Later(b: Beam, n: int): Beam {
    b.(clock := b.clock + n, h := b.h + n)
  }

  /** A piece of HDMA service of `n` clocks, begun at most `k` clocks after an event. */
  ghost predicate Served(s: State, u: State, n: int, k: int) {
    if Failed(u) then !SchedulerFault(u)
    else
      && Ready(u) && Spent(s, u, n) && ScrollOnly(s, u) && u.t.arb == s.t.arb && Near(u.t.beam, k + n)
      && u.t.beam == Later(s.t.beam, n)
  }

  ghost predicate Begun(s: State, k: int) {
    Ready(s) && Near(s.t.beam, k) && 0 <= k
  }

  lemma ServedAdds(s: State, u: State, w: State, n: int, m: int, k: int)
    requires Served(s, u, n, k) && !Failed(u) && Served(u, w, m, k + n)
    ensures Served(s, w, n + m, k)
  {
    hide Near, Sound;
    if !Failed(w) {
      SpentAdds(s, u, w, n, m);
      assert k + n + m == k + (n + m);
    }
  }

  lemma SameServed(s: State, k: int)
    requires Begun(s, k)
    ensures Served(s, s, 0, k)
  {
  }

  // ----- the elementary pieces -----

  lemma WaitSpent(s: State, n: nat)
    requires Settled(s.t.beam)
    ensures Spent(s, Wait(s, n), n) && ScrollOnly(s, Wait(s, n))
  {
    AdvanceLedger(s.t, s.r, n);
    AdvanceKeepsEdge(s.t, s.r, n);
  }

  lemma WaitServed(s: State, n: nat, k: int)
    requires Begun(s, k) && k + n <= 250
    ensures Served(s, Wait(s, n), n, k) && !Failed(Wait(s, n))
  {
    hide Advance, Near, Settled, EdgeKept;
    WaitSpent(s, n);
    NearSound(s.t, s.r, n, k);
    NearAdvance(s.t, s.r, n, k);
  }

  /** A read changes at most the NMI flag or the timer's line, or fails. */
  ghost predicate ReadEffect(s: State, u: State) {
    || u == s
    || u == s.(t := s.t.(nmi := s.t.nmi.(flag := false)))
    || u == s.(t := s.t.(irq := s.t.irq.(line := false, transition := false)))
    || u == Fail(s, BusRead) || u == Fail(s, DmaRegisterAccess)
  }

  lemma ReadOnly(s: State, a: int)
    ensures ReadEffect(s, Read(s, a).s)
  {
    hide Bank, Local, RomChecksum.LowBank, Cartridge, DmaRegister, DmaRegisters, WramOffset, OutsideRead, VBlank,
         PpuPorts.At;
  }

  lemma ReadServed(s: State, a: int, k: int)
    requires Begun(s, k)
    ensures Served(s, Read(s, a).s, 0, k)
    ensures Read(s, a).s.p == s.p && Read(s, a).s.d == s.d
  {
    hide Near, Settled, Read;
    ReadOnly(s, a);
  }

  lemma ServedBegun(s: State, u: State, n: int, k: int)
    requires Begun(s, k) && Served(s, u, n, k) && !Failed(u) && n >= 0
    ensures Begun(u, k + n)
  {
  }

  lemma FetchServed(s: State, a: int, k: int)
    requires Begun(s, k) && k + 8 <= 250
    ensures Served(s, Fetch(s, a).s, 8, k)
    ensures Fetch(s, a).s.d == s.d
  {
    hide Read, Served, Begun;
    ReadServed(s, a, k);
    var g := Read(s, a);
    if !Failed(g.s) {
      ServedBegun(s, g.s, 0, k);
      WaitServed(g.s, 8, k);
      ServedAdds(s, g.s, Wait(g.s, 8), 0, 8, k);
    } else {
      FailedServed(s, g.s, 0, 8, k);
    }
  }

  lemma FailedServed(s: State, u: State, n: int, m: int, k: int)
    requires Served(s, u, n, k) && Failed(u)
    ensures Served(s, u, m, k)
  {
  }

  lemma CursorServed(s: State, c: HdmaTable.Cursor, k: int)
    requires Begun(s, k)
    ensures Served(s, WithCursor(s, c), 0, k)
  {
    hide Near, Settled;
  }

  /** Any piece followed by storing the cursor. */
  lemma ThenCursor(s: State, u: State, c: HdmaTable.Cursor, n: int, k: int)
    requires Begun(s, k) && n >= 0 && Served(s, u, n, k) && !Failed(u)
    ensures Served(s, WithCursor(u, c), n, k)
  {
    hide Served, Begun;
    ServedBegun(s, u, n, k);
    CursorServed(u, c, k + n);
    ServedAdds(s, u, WithCursor(u, c), n, 0, k);
  }

  /** A piece of service whose clocks are counted. */
  ghost predicate RanServed(r: Ran, q: Ran, least: int, most: int, k: int) {
    && Served(r.s, q.s, q.clocks - r.clocks, k)
    && (!Failed(q.s) ==> least <= q.clocks - r.clocks <= most && (q.clocks - r.clocks) % 8 == 0)
  }

  lemma BegunRuns(s: State, k: int)
    requires Begun(s, k)
    ensures !Failed(s) && 0 <= k && Settled(s.t.beam)
  {
  }

  lemma DescriptorServed(r: Ran, first: int, table: int, k: int)
    requires Begun(r.s, k) && k + 16 <= 250
    ensures RanServed(r, Descriptor(r, first, table), 8, 16, k)
  {
    hide Fetch, WithCursor, Served, Begun, TableAddress, HdmaTable.Next, Failed;
    BegunRuns(r.s, k);
    var at := TableAddress(r.s, HdmaTable.Next(table));
    var low := Fetch(r.s, at);
    FetchServed(r.s, at, k);
    if Failed(low.s) {
      FailedServed(r.s, low.s, 8, 0, k);
    } else if first == 0 {
      ThenCursor(r.s, low.s, HdmaTable.Cursor(HdmaTable.Next(HdmaTable.Next(table)), 0, true, true, true,
                                              low.value * 0x100), 8, k);
    } else {
      ServedBegun(r.s, low.s, 8, k);
      var next := TableAddress(low.s, HdmaTable.Next(HdmaTable.Next(table)));
      var high := Fetch(low.s, next);
      FetchServed(low.s, next, k + 8);
      ServedAdds(r.s, low.s, high.s, 8, 8, k);
      if Failed(high.s) {
        FailedServed(r.s, high.s, 16, 8, k);
      } else {
        ThenCursor(r.s, high.s, HdmaTable.Cursor(HdmaTable.Next(HdmaTable.Next(HdmaTable.Next(table))), first, true,
                                                 false, true, low.value + high.value * 0x100), 16, k);
      }
    }
  }

  // ----- the transfer -----

  lemma ScrollDecode(s: State, value: int)
    ensures Write(s, 0x210D, value) == s.(p := s.p.(scroll := PpuPorts.ScrollH(s.p.scroll, 0, value)))
  {
    hide PpuPorts.ScrollH, Bank, Local, RomChecksum.SramOffset, RomChecksum.CpuToLinear;
    ScrollAddress();
  }

  lemma ScrollAddress()
    ensures Bank(0x210D) == 0 && Local(0x210D) == 0x210D
    ensures RomChecksum.SramOffset(0, 0x210D).None? && RomChecksum.CpuToLinear(0, 0x210D).None?
  {
  }

  /** A write to a horizontal scroll register touches nothing but the scroll registers. */
  lemma ScrollWriteServed(s: State, value: int, k: int)
    requires Begun(s, k)
    ensures Served(s, Write(s, 0x210D, value), 0, k)
    ensures Write(s, 0x210D, value).d == s.d
    ensures Write(s, 0x210D, value).p.scroll == PpuPorts.ScrollH(s.p.scroll, 0, value)
  {
    hide Near, Settled, Write, PpuPorts.ScrollH;
    ScrollDecode(s, value);
    PpuPorts.ScrollSized(s.p.scroll, value);
  }

  lemma CopyIndirectServed(r: Ran, k: int)
    requires Begun(r.s, k) && k + 8 <= 250 && Proved(r.s.d)
    ensures RanServed(r, CopyIndirect(r), 8, 8, k)
  {
    hide Read, Write, WithCursor, Served, Begun, Failed, Advance;
    BegunRuns(r.s, k);
    var d := r.s.d;
    var g := Read(r.s, d.ch2.indirectBank * 0x10000 + d.hdma.pointer);
    ReadServed(r.s, d.ch2.indirectBank * 0x10000 + d.hdma.pointer, k);
    if Failed(g.s) {
      return;
    }
    ServedBegun(r.s, g.s, 0, k);
    var moved := Write(g.s, 0x210D, g.value);
    ScrollWriteServed(g.s, g.value, k);
    ServedAdds(r.s, g.s, moved, 0, 0, k);
    if !Failed(moved) {
      ServedBegun(r.s, moved, 0, k);
      WaitServed(moved, 8, k);
      var w := Wait(moved, 8);
      ServedAdds(r.s, moved, w, 0, 8, k);
      ThenCursor(r.s, w, w.d.hdma.(pointer := (w.d.hdma.pointer + 1) % 0x10000), 8, k);
    }
  }

  lemma NextLineServed(r: Ran, k: int)
    requires Begun(r.s, k) && k + 24 <= 250
    ensures RanServed(r, NextLine(r), 8, 24, k)
  {
    hide Fetch, Descriptor, WithCursor, Served, Begun, Failed, TableAddress;
    BegunRuns(r.s, k);
    var c := r.s.d.hdma;
    var counter := (c.counter - 1) % 0x100;
    var next := c.(counter := counter, transfer := counter >= 0x80);
    var counted := WithCursor(r.s, next);
    CursorServed(r.s, next, k);
    CursorRuns(r.s, next);
    ServedBegun(r.s, counted, 0, k);
    var at := TableAddress(counted, c.table);
    var first := Fetch(counted, at);
    FetchServed(counted, at, k);
    ServedAdds(r.s, counted, first.s, 0, 8, k);
    if Failed(first.s) {
      FailedServed(r.s, first.s, 8, 0, k);
    } else if counter % 0x80 == 0 {
      ServedBegun(r.s, first.s, 8, k);
      var read := Ran(first.s, r.clocks + 8);
      DescriptorServed(read, first.value, c.table, k + 8);
      var q := Descriptor(read, first.value, c.table);
      ServedAdds(r.s, first.s, q.s, 8, q.clocks - read.clocks, k);
    }
  }

  lemma CursorRuns(s: State, c: HdmaTable.Cursor)
    ensures Failed(WithCursor(s, c)) == Failed(s)
  {
  }

  // ----- whole services -----

  /** The cost of a service: eights inside a manual transfer, whole CPU cycles outside. */
  predicate Exact(clocks: int, speed: int, nested: bool)
    requires CpuSpeed(speed)
  {
    if nested then clocks % 8 == 0 else clocks % speed == 0
  }

  lemma ToCpuExact(clocks: int, speed: int)
    requires CpuSpeed(speed)
    ensures (clocks + ToCpu(clocks, speed)) % speed == 0
  {
    if speed == 6 { RoundUp6(clocks); } else if speed == 8 { RoundUp8(clocks); } else { RoundUp12(clocks); }
  }

  lemma RoundUp6(n: int)
    ensures (n + (6 - n % 6)) % 6 == 0
  {
    assert n + (6 - n % 6) == 6 * (n / 6 + 1);
  }

  lemma RoundUp8(n: int)
    ensures (n + (8 - n % 8)) % 8 == 0
  {
    assert n + (8 - n % 8) == 8 * (n / 8 + 1);
  }

  lemma RoundUp12(n: int)
    ensures (n + (12 - n % 12)) % 12 == 0
  {
    assert n + (12 - n % 12) == 12 * (n / 12 + 1);
  }

  lemma BeginServed(s: State, nested: bool, k: int)
    requires Begun(s, k) && k + 16 <= 250
    ensures var r := Overhead(Begin(s, nested));
            Served(s, r.s, r.clocks, k) && !Failed(r.s) && 8 <= r.clocks <= 16 && (nested ==> r.clocks == 8)
            && r.s.d == s.d
  {
    hide Served, Begun, Failed, Advance;
    var b := Begin(s, nested);
    if nested {
      WaitServed(s, 8, k);
    } else {
      WaitServed(s, ToBoundary(s), k);
      ServedBegun(s, b.s, ToBoundary(s), k);
      WaitServed(b.s, 8, k + ToBoundary(s));
      ServedAdds(s, b.s, Wait(b.s, 8), ToBoundary(s), 8, k);
    }
  }

  lemma FinishServed(s: State, r: Ran, speed: int, nested: bool, k: int)
    requires CpuSpeed(speed) && Begun(s, k) && Served(s, r.s, r.clocks, k)
    requires !Failed(r.s) ==> 0 <= r.clocks && k + r.clocks + 12 <= 250 && (nested ==> r.clocks % 8 == 0)
    ensures var q := Finish(r, speed, nested);
            Served(s, q.s, q.clocks, k)
            && (Failed(r.s) ==> q == r)
            && (!Failed(q.s) ==> Exact(q.clocks, speed, nested) && r.clocks <= q.clocks <= r.clocks + 12)
  {
    hide Served, Begun, Failed, Advance;
    if !Failed(r.s) && !nested {
      var n := ToCpu(r.clocks, speed);
      ServedBegun(s, r.s, r.clocks, k);
      WaitServed(r.s, n, k + r.clocks);
      ServedAdds(s, r.s, Wait(r.s, n), r.clocks, n, k);
      ToCpuExact(r.clocks, speed);
    }
  }

  lemma KeepsProved(s: State, u: State, n: int, k: int)
    requires Served(s, u, n, k) && !Failed(u)
    ensures Proved(u.d) == Proved(s.d)
  {
  }

  lemma RanAfter(s: State, r: Ran, q: Ran, least: int, most: int, k: int)
    requires Served(s, r.s, r.clocks, k) && !Failed(r.s) && RanServed(r, q, least, most, k + r.clocks)
    ensures Served(s, q.s, q.clocks, k)
    ensures !Failed(q.s) ==> r.clocks + least <= q.clocks <= r.clocks + most && (q.clocks - r.clocks) % 8 == 0
  {
    hide Served;
    ServedAdds(s, r.s, q.s, r.clocks, q.clocks - r.clocks, k);
  }

  /** A service of at most `most` clocks, whole CPU cycles or whole eights. */
  ghost predicate ServiceOk(s: State, q: Ran, speed: int, nested: bool, most: int, k: int)
    requires CpuSpeed(speed)
  {
    Served(s, q.s, q.clocks, k) && (!Failed(q.s) ==> 0 <= q.clocks <= most && Exact(q.clocks, speed, nested))
  }

  lemma FaultServed(s: State, n: int, k: int)
    ensures Served(s, Fail(s, HdmaConfig), n, k) && Served(s, Fail(s, HdmaNotReady), n, k)
  {
  }

  lemma CopiesServed(r: Ran, s: State, k: int)
    requires Begun(s, k) && Served(s, r.s, r.clocks, k) && !Failed(r.s) && 0 <= r.clocks && k + r.clocks + 16 <= 250
    requires Proved(r.s.d)
    ensures var q := CopyIndirect(CopyIndirect(r));
            Served(s, q.s, q.clocks, k)
            && (!Failed(q.s) ==> r.clocks <= q.clocks <= r.clocks + 16 && (q.clocks - r.clocks) % 8 == 0)
  {
    hide Served, Begun, CopyIndirect, Proved;
    ServedBegun(s, r.s, r.clocks, k);
    CopyIndirectServed(r, k + r.clocks);
    var one := CopyIndirect(r);
    RanAfter(s, r, one, 8, 8, k);
    if Failed(one.s) {
      CopyFailed(one);
    } else {
      KeepsProved(r.s, one.s, one.clocks - r.clocks, k + r.clocks);
      ServedBegun(s, one.s, one.clocks, k);
      CopyIndirectServed(one, k + one.clocks);
      RanAfter(s, one, CopyIndirect(one), 8, 8, k);
    }
  }

  lemma CopyFailed(r: Ran)
    requires Failed(r.s)
    ensures CopyIndirect(r) == r && NextLine(r) == r
  {
  }

  lemma ScanlineServed(s: State, speed: int, nested: bool, k: int)
    requires CpuSpeed(speed) && Begun(s, k) && k + 80 <= 250
    ensures ServiceOk(s, HdmaScanline(s, speed, nested), speed, nested, 68, k)
  {
    hide Served, Begun, Begin, Overhead, CopyIndirect, NextLine, Finish, Proved, Failed;
    SameServed(s, k);
    FaultServed(s, 0, k);
    FaultFails(s);
    if Enabled(s) && s.r.hdmaen == 4 && Proved(s.d) && s.d.hdma.ready && !s.d.hdma.finished {
      var begun := Overhead(Begin(s, nested));
      BeginServed(s, nested, k);
      var copied := if s.d.hdma.transfer then CopyIndirect(CopyIndirect(begun)) else begun;
      KeepsProved(s, begun.s, begun.clocks, k);
      CopiesServed(begun, s, k);
      var q := NextLine(copied);
      if Failed(copied.s) {
        CopyFailed(copied);
      } else {
        ServedBegun(s, copied.s, copied.clocks, k);
        NextLineServed(copied, k + copied.clocks);
        RanAfter(s, copied, q, 8, 24, k);
      }
      FinishServed(s, q, speed, nested, k);
    }
  }

  lemma FaultFails(s: State)
    ensures Failed(Fail(s, HdmaConfig)) && Failed(Fail(s, HdmaNotReady))
  {
  }

  lemma InitServed(s: State, speed: int, nested: bool, k: int)
    requires CpuSpeed(speed) && Begun(s, k) && k + 80 <= 250
    ensures ServiceOk(s, HdmaInit(s, speed, nested), speed, nested, 68, k)
  {
    hide Served, Begun, Begin, Overhead, Fetch, Descriptor, Finish, Proved, Failed, WithCursor, TableAddress;
    var cleared := ClearCursor(s);
    var c := s.d.hdma.(finished := false, transfer := false, ready := false);
    CursorServed(s, c, k);
    CursorRuns(s, c);
    BegunRuns(s, k);
    ServedBegun(s, cleared, 0, k);
    FaultServed(cleared, 0, k);
    FaultFails(cleared);
    if Enabled(s) && (s.r.hdmaen != 4 || !Proved(s.d)) {
      FailedAfter(s, cleared, Fail(cleared, HdmaConfig), 0, k);
    } else if Enabled(s) {
      var begun := Overhead(Begin(cleared, nested));
      BeginServed(cleared, nested, k);
      ServedAdds(s, cleared, begun.s, 0, begun.clocks, k);
      ServedBegun(s, begun.s, begun.clocks, k);
      var at := TableAddress(begun.s, begun.s.d.ch2.source);
      var first := Fetch(begun.s, at);
      FetchServed(begun.s, at, k + begun.clocks);
      ServedAdds(s, begun.s, first.s, begun.clocks, 8, k);
      var read := Ran(first.s, begun.clocks + 8);
      var q := Descriptor(read, first.value, s.d.ch2.source);
      if Failed(first.s) {
        DescriptorFails(read, first.value, s.d.ch2.source);
      } else {
        ServedBegun(s, first.s, read.clocks, k);
        DescriptorServed(read, first.value, s.d.ch2.source, k + read.clocks);
        RanAfter(s, read, q, 8, 16, k);
      }
      FinishServed(s, q, speed, nested, k);
    }
  }

  lemma DescriptorFails(r: Ran, first: int, table: int)
    requires Failed(r.s)
    ensures Descriptor(r, first, table) == r
  {
  }

  lemma FailedAfter(s: State, u: State, w: State, n: int, k: int)
    requires Failed(w) && Served(u, w, n, k)
    ensures Served(s, w, n, k)
  {
  }
}
