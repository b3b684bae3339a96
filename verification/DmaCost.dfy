/** What a transfer costs to the clock, and what it leaves of its channel. */
module DmaCost {
  import opened Options
  import opened Clock
  import opened ClockEvents
  import opened MachineBus
  import opened MachineDma
  import opened HdmaTable
  import opened HdmaService
  import opened HdmaFrame
  import opened DmaTransfer
  import opened MachineCycle
  import DmaUpload
  import DmaCopies
  import HdmaSchedule

  /** Clocks rounded up to the next whole number of CPU cycles; a whole number gets one more. */
  function Rounded(clocks: int, speed: int): int
    requires CpuSpeed(speed)
  {
    (clocks / speed + 1) * speed
  }

  lemma FinishRounds(r: Ran, speed: int, nested: bool)
    requires CpuSpeed(speed)
    ensures var q := Finish(r, speed, nested);
            !Failed(q.s) ==> q.clocks == if nested then r.clocks else Rounded(r.clocks, speed)
  {
    hide Advance;
    if speed == 6 {
      assert r.clocks + (6 - r.clocks % 6) == (r.clocks / 6 + 1) * 6;
    } else if speed == 8 {
      assert r.clocks + (8 - r.clocks % 8) == (r.clocks / 8 + 1) * 8;
    } else {
      assert r.clocks + (12 - r.clocks % 12) == (r.clocks / 12 + 1) * 12;
    }
  }

  // ----- manual transfers with HDMA off -----

  lemma FreeCheckpoint(r: Ran, speed: int)
    requires CpuSpeed(speed) && r.s.r.hdmaen == 0
    ensures Checkpoint(r, speed).clocks == r.clocks && Checkpoint(r, speed).s.r == r.s.r
  {
    hide HdmaScanline, HdmaInit;
  }

  lemma ByteCost(r: Ran, ch: Channel, n: int, speed: int)
    requires CpuSpeed(speed) && PastCheckpoint(r.s) && r.s.r.hdmaen == 0
    ensures var q := MoveByte(r, ch, n, speed); !Failed(q.s) ==> q.clocks == r.clocks + 8 && q.s.r.hdmaen == 0
  {
    hide Checkpoint, Offset, SourceAt, Advance, Read, Write, Near, Settled;
    MoveByteOk(r, ch, n, speed);
    var b := (ch.bbad + Offset(ch.dmap % 8, n)) % 0x100;
    CarryOk(r.s, ch.bank * 0x10000 + SourceAt(ch, n), b);
    var moved := Carry(r.s, ch.bank * 0x10000 + SourceAt(ch, n), 0x2100 + b);
    if !Failed(moved) {
      FreeCheckpoint(Overhead(Ran(moved, r.clocks)), speed);
    }
  }

  lemma {:induction false} BytesCost(r: Ran, ch: Channel, n: nat, speed: int)
    requires CpuSpeed(speed) && PastCheckpoint(r.s) && r.s.r.hdmaen == 0
    ensures var q := Moved(r, ch, n, speed); !Failed(q.s) ==> q.clocks == r.clocks + 8 * n && q.s.r.hdmaen == 0
  {
    hide MoveByte, PastCheckpoint, Moved, Failed;
    if n == 0 {
      DmaUpload.MovedNothing(r, ch, speed);
    } else if !Failed(Moved(r, ch, n, speed).s) {
      DmaUpload.MovedBefore(r, ch, n, speed);
      BytesCost(r, ch, n - 1, speed);
      ByteCost(Moved(r, ch, n - 1, speed), ch, n - 1, speed);
    }
  }

  lemma StartupCost(s: State, speed: int)
    requires CpuSpeed(speed) && s.r.hdmaen == 0
    ensures var q := Startup(s, speed);
            !Failed(q.s) ==> q.clocks == 8 - s.t.beam.clock % 8 + 16 && q.s.r.hdmaen == 0
  {
    hide Checkpoint, Advance;
    var one := Overhead(Begin(s, false));
    FreeCheckpoint(one, speed);
    FreeCheckpoint(Overhead(Checkpoint(one, speed)), speed);
  }

  /** With HDMA off a transfer of `n` bytes takes the clocks to the next multiple of eight, sixteen, and eight a byte,
      rounded up to the cycles of the interrupted speed. */
  lemma TransferCost(s: State, ch: Channel, speed: int)
    requires CpuSpeed(speed) && DmaCopies.Starting(s, ch) && s.r.hdmaen == 0 && ch.size >= 0
    ensures var q := RunDma(s, speed);
            var n := if ch.size == 0 then 0x10000 else ch.size;
            !Failed(q.s) ==> q.clocks == Rounded(8 - s.t.beam.clock % 8 + 16 + 8 * n, speed)
  {
    hide Startup, Moved, Near, Settled, Advance, PastCheckpoint, Finish, Rounded;
    DmaCopies.StartingRuns(s, ch);
    var taken := DmaUpload.Disarmed(s);
    TakenKept(s);
    var index := PendingChannel(s.d.mask);
    var up := Startup(taken, speed);
    StartupOk(taken, speed);
    StartupCost(taken, speed);
    var run := RunChannel(up, index, speed);
    FinishRounds(run, speed, false);
    DmaUpload.EndShape(run, speed);
    if Failed(up.s) {
      RunFailed(up, index, speed);
    } else {
      assert GetChannel(up.s.d, index) == ch;
      BytesCost(up, ch, Remaining(ch), speed);
    }
  }

  /** The source after `n` bytes, for each way of walking it. */
  predicate WalkedTo(ch: Channel, n: int, source: int) {
    && (ch.dmap / 8 % 4 == 0 ==> source == (ch.source + n) % 0x10000)
    && (ch.dmap / 8 % 4 == 2 ==> source == (ch.source - n) % 0x10000)
    && (ch.dmap / 8 % 2 == 1 ==> source == ch.source % 0x10000)
  }

  /** A transfer leaves its channel behind the last byte with nothing left to move, and the other channels alone. */
  lemma ChannelLeft(s: State, ch: Channel, speed: int)
    requires CpuSpeed(speed) && DmaCopies.Starting(s, ch) && ch.size >= 0
    ensures var d := RunDma(s, speed).s.d;
            var left := if s.d.mask == 1 then d.ch0 else if s.d.mask == 2 then d.ch1 else d.ch7;
            !Failed(RunDma(s, speed).s) ==>
            && left == ch.(source := left.source, size := 0)
            && WalkedTo(ch, if ch.size == 0 then 0x10000 else ch.size, left.source)
            && d.mask == 0 && d.ch2 == s.d.ch2
            && (s.d.mask != 1 ==> d.ch0 == s.d.ch0) && (s.d.mask != 2 ==> d.ch1 == s.d.ch1)
            && (s.d.mask != 0x80 ==> d.ch7 == s.d.ch7)
  {
    hide Startup, Moved, Near, Settled, Advance, PastCheckpoint, Ledger, CpuKept, SourceAt, WalkedTo;
    DmaCopies.StartingRuns(s, ch);
    var taken := DmaUpload.Disarmed(s);
    TakenKept(s);
    var index := PendingChannel(s.d.mask);
    var up := Startup(taken, speed);
    StartupOk(taken, speed);
    var run := RunChannel(up, index, speed);
    DmaUpload.EndShape(run, speed);
    if Failed(up.s) {
      RunFailed(up, index, speed);
    } else {
      assert GetChannel(up.s.d, index) == ch;
      var n := Remaining(ch);
      MovedOk(up, ch, n, speed);
      DmaCopies.DmapBits(ch.dmap);
      WalkedBy(ch, n);
    }
  }

  lemma WalkedBy(ch: Channel, n: int)
    ensures WalkedTo(ch, n, SourceAt(ch, n))
  {
    DmaCopies.DmapBits(ch.dmap);
  }

  /** A transfer to the A bus is refused, and so is every mode but 0, 1 and 2 on the first two channels and 1 on the
      last. */
  lemma ModesRefused(r: Ran, index: int, speed: int)
    requires CpuSpeed(speed) && !Failed(r.s) && (index == 0 || index == 1 || index == 7)
    requires 0 <= GetChannel(r.s.d, index).dmap < 0x100
    ensures var dmap := GetChannel(r.s.d, index).dmap;
            && (dmap >= 0x80 ==> RunChannel(r, index, speed) == Ran(Fail(r.s, DmaDirection), r.clocks))
            && (dmap < 0x80 && (if index == 7 then dmap % 8 != 1 else dmap % 8 > 2) ==>
                  RunChannel(r, index, speed) == Ran(Fail(r.s, DmaMode), r.clocks))
  {
    hide Moved;
  }

  // ----- HDMA -----

  /** A descriptor costs its second byte, and its third unless it ends the table. */
  lemma DescriptorCost(r: Ran, first: int, table: int)
    ensures var q := Descriptor(r, first, table);
            !Failed(q.s) ==> q.clocks == r.clocks + if first == 0 then 8 else 16
  {
    hide Fetch, TableAddress, Next;
  }

  lemma CopyCost(r: Ran)
    ensures var q := CopyIndirect(r); !Failed(q.s) ==> q.clocks == r.clocks + 8 && !Failed(r.s)
  {
    hide Read, Write, Advance;
  }

  lemma LineCost(r: Ran)
    requires r.s.d.ch2.bank == 0xC1 && 0 <= r.s.d.hdma.table < 0x10000
    ensures var q := NextLine(r);
            var c := r.s.d.hdma;
            !Failed(q.s) ==> q.clocks == r.clocks + if (c.counter - 1) % 0x80 != 0 then 8
                                                    else if Rom(r.s.m.rom)(c.table) == 0 then 16 else 24
  {
    hide Fetch, Descriptor, TableAddress, Rom, Advance;
    if Failed(NextLine(r).s) {
      return;
    }
    NextLineRuns(r);
    var c := r.s.d.hdma;
    var counter := (c.counter - 1) % 0x100;
    var counted := WithCursor(r.s, c.(counter := counter, transfer := counter >= 0x80));
    TableFetch(counted, c.table);
    var first := Fetch(counted, TableAddress(counted, c.table));
    DescriptorCost(Ran(first.s, r.clocks + 8), first.value, c.table);
    HalfCounter(c.counter - 1);
  }

  lemma HalfCounter(n: int)
    ensures n % 0x100 % 0x80 == n % 0x80
  {
  }

  /** A line costs eight clocks, sixteen more if it transfers, eight for the counter, and the next descriptor where
      this one ends; outside a manual transfer, also the clocks to a multiple of eight and the rounding. */
  lemma ScanlineCost(s: State, speed: int, nested: bool)
    requires CpuSpeed(speed) && Armed(s) && s.d.hdma.ready && !s.d.hdma.finished && 0 <= s.d.hdma.table < 0x10000
    ensures var q := HdmaScanline(s, speed, nested);
            var c := s.d.hdma;
            var raw := (if nested then 0 else 8 - s.t.beam.clock % 8) + 8 + (if c.transfer then 16 else 0)
                       + if (c.counter - 1) % 0x80 != 0 then 8 else if Rom(s.m.rom)(c.table) == 0 then 16 else 24;
            !Failed(q.s) ==> q.clocks == if nested then raw else Rounded(raw, speed)
  {
    hide Begin, Overhead, CopyIndirect, NextLine, Finish, Rom, Rounded, Failed;
    if Failed(HdmaScanline(s, speed, nested).s) {
      return;
    }
    var begun := Overhead(Begin(s, nested));
    BeginCost(s, nested);
    BeginKeeps(s, nested);
    var c := s.d.hdma;
    var copied := if c.transfer then CopyIndirect(CopyIndirect(begun)) else begun;
    FinishRounds(NextLine(copied), speed, nested);
    FinishKeeps(NextLine(copied), speed, nested);
    NextLineRuns(copied);
    ProvedBank(s);
    if c.transfer {
      CopyCost(CopyIndirect(begun));
      CopyCost(begun);
      CopyKeeps(begun);
      CopyKeeps(CopyIndirect(begun));
    }
    LineCost(copied);
  }

  lemma BeginCost(s: State, nested: bool)
    ensures Overhead(Begin(s, nested)).clocks == (if nested then 0 else 8 - s.t.beam.clock % 8) + 8
  {
    hide Advance;
  }

  lemma CopyKeeps(r: Ran)
    requires Proved(r.s.d)
    ensures var q := CopyIndirect(r);
            !Failed(q.s) ==> q.s.d == r.s.d.(hdma := r.s.d.hdma.(pointer := q.s.d.hdma.pointer)) && q.s.m == r.s.m
  {
    hide CopyIndirect;
    HdmaSchedule.CopyMoves(r);
  }

  /** The initialisation costs eight clocks and the first descriptor. */
  lemma InitCost(s: State, speed: int, nested: bool)
    requires CpuSpeed(speed) && Armed(s)
    ensures var q := HdmaInit(s, speed, nested);
            var raw := (if nested then 0 else 8 - s.t.beam.clock % 8) + 8
                       + if Rom(s.m.rom)(TABLE) == 0 then 16 else 24;
            !Failed(q.s) ==> q.clocks == if nested then raw else Rounded(raw, speed)
  {
    hide Begin, Overhead, Fetch, Descriptor, Finish, Rom, Rounded, TableAddress, Failed;
    if Failed(HdmaInit(s, speed, nested).s) {
      return;
    }
    var cleared := ClearCursor(s);
    var begun := Overhead(Begin(cleared, nested));
    BeginCost(cleared, nested);
    BeginKeeps(cleared, nested);
    TableFetch(begun.s, TABLE);
    var first := Fetch(begun.s, TableAddress(begun.s, TABLE));
    var read := Ran(first.s, begun.clocks + 8);
    DescriptorCost(read, first.value, TABLE);
    FinishRounds(Descriptor(read, first.value, TABLE), speed, nested);
    FinishKeeps(Descriptor(read, first.value, TABLE), speed, nested);
  }
}
