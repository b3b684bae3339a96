/** The schedule drives the table: in an undisturbed frame each line's service finds the cursor where the table
    puts that line. */
module HdmaSchedule {
  import opened Options
  import opened Clock
  import opened ClockEvents
  import opened MachineBus
  import opened MachineDma
  import opened HdmaTable
  import opened HdmaService
  import opened HdmaFrame
  import PpuPorts
  import RomChecksum

  /** In an undisturbed frame whose initialisation has been served, the cursor is where the table machine is after
      the lines that have been served. */
  ghost predicate Follows(s: State) {
    InFrame(s.t.beam) && s.t.arb.pace.whole && !s.t.arb.initPending ==>
      s.t.arb.pace.taken >= 0 && s.d.hdma == AfterLines(Rom(s.m.rom), TABLE, s.t.arb.pace.taken)
  }

  /** A step that leaves the cartridge alone, keeps the scroll registers, and does not lose the place. */
  ghost predicate Follow(s: State, u: State) {
    u.m.rom == s.m.rom && |u.p.scroll.bgH| == |s.p.scroll.bgH| && (Follows(s) ==> Follows(u))
  }

  lemma SameCursorFollows(s: State, u: State)
    requires PaceKept(s.t, u.t) && u.d.hdma == s.d.hdma && u.m.rom == s.m.rom && u.p == s.p
    ensures Follow(s, u)
  {
    hide InFrame, AfterLines, Rom;
  }

  lemma WaitFollows(s: State, n: nat)
    requires Settled(s.t.beam) && !Failed(Wait(s, n))
    ensures Follow(s, Wait(s, n))
  {
    hide Advance, InFrame, Settled;
    PaceAdvance(s.t, s.r, n);
    SameCursorFollows(s, Wait(s, n));
  }

  // ----- the cursor moves on, whatever the pointer points at -----

  lemma CopyMoves(r: Ran)
    requires Proved(r.s.d)
    ensures var q := CopyIndirect(r);
            !Failed(q.s) ==> q.s.d == r.s.d.(hdma := r.s.d.hdma.(pointer := Next(r.s.d.hdma.pointer))) && q.s.m == r.s.m
  {
    hide Read, Write, Advance, PpuPorts.ScrollH;
    if Failed(CopyIndirect(r).s) {
      return;
    }
    var a := r.s.d.ch2.indirectBank * 0x10000 + r.s.d.hdma.pointer;
    ReadOnly(r.s, a);
    ScrollDecode(Read(r.s, a).s, Read(r.s, a).value);
  }

  lemma CopiesMove(r: Ran)
    requires Proved(r.s.d)
    ensures var q := CopyIndirect(CopyIndirect(r));
            !Failed(q.s) ==>
            && q.s.d == r.s.d.(hdma := r.s.d.hdma.(pointer := (r.s.d.hdma.pointer + 2) % 0x10000)) && q.s.m == r.s.m
  {
    hide CopyIndirect;
    if Failed(CopyIndirect(CopyIndirect(r)).s) {
      return;
    }
    CopyRuns(CopyIndirect(r));
    CopyMoves(r);
    CopyMoves(CopyIndirect(r));
    WrapAdd(r.s.d.hdma.pointer, 1, 1);
  }

  lemma LineAdvances(s: State, speed: int, nested: bool, n: nat)
    requires CpuSpeed(speed) && s.r.hdmaen == 4 && s.d.hdma == AfterLines(Rom(s.m.rom), TABLE, n)
    ensures var u := HdmaScanline(s, speed, nested).s;
            !Failed(u) ==> u.m == s.m && u.d.hdma == AfterLines(Rom(s.m.rom), TABLE, n + 1)
  {
    hide Begin, Overhead, CopyIndirect, NextLine, Finish, Rom, Load, Line, Failed, Transfers, Ended, Proved;
    if Failed(HdmaScanline(s, speed, nested).s) {
      return;
    }
    RomBytes(s.m.rom);
    TableRefined(Rom(s.m.rom), TABLE, n);
    PointerInRange(Rom(s.m.rom), n);
    var c := s.d.hdma;
    FaultFails(s);
    if !c.finished {
      ProvedBank(s);
      var begun := Overhead(Begin(s, nested));
      BeginKeeps(s, nested);
      var copied := if c.transfer then CopyIndirect(CopyIndirect(begun)) else begun;
      FinishKeeps(NextLine(copied), speed, nested);
      NextLineRuns(copied);
      CopiesMove(begun);
      NextLineLoads(copied, c);
    }
  }

  // ----- a service keeps the place -----

  /** A pending request lies near its event. */
  lemma WaitingBegun(s: State, k: int)
    requires Ready(s) && Pending(s.t.arb) && Waiting(s.t, k) && 0 <= k
    ensures Begun(s, k)
  {
    hide Settled;
  }

  lemma TakenBegun(s: State, k: int)
    requires Begun(s, k) && HdmaPending(s)
    ensures Begun(Taken(s), k) && !Pending(Taken(s).t.arb)
    ensures Spent(s, Taken(s), 0) && ScrollOnly(s, Taken(s))
    ensures Taken(s).t.arb.startDelay == s.t.arb.startDelay
  {
    hide Near, Settled;
  }

  lemma TakenPaced(s: State)
    requires Ready(s) && Waiting(s.t, 56) && HdmaPending(s)
    ensures Taken(s).d == s.d && Taken(s).m == s.m && Taken(s).r == s.r
    ensures !Pending(Taken(s).t.arb)
    ensures InFrame(s.t.beam) && Taken(s).t.arb.pace.whole ==>
              && s.t.arb.pace.whole && s.r.hdmaen == 4
              && Taken(s).t.arb.pace.taken == (if s.t.arb.transferPending then s.t.arb.pace.taken + 1 else 0)
  {
    InitDotOf(s.t.beam);
  }

  lemma LaterInFrame(s: State, n: int)
    requires Settled(s.t.beam) && Waiting(s.t, 56) && Pending(s.t.arb) && n >= 0
    ensures InFrame(Later(s.t.beam, n)) == InFrame(s.t.beam)
  {
  }

  /** The service of a pending request, as `DmaTransfer.ServeOk` shows it to end. */
  lemma ServeFollows(s: State, speed: int, nested: bool, n: int)
    requires CpuSpeed(speed) && Ready(s) && Waiting(s.t, 56) && HdmaPending(s) && n >= 0
    requires var u := ServeHdma(s, speed, nested).s;
             !Failed(u) ==>
               && u.t.arb == Taken(s).t.arb && u.t.beam == Later(s.t.beam, n) && u.m == s.m
               && |u.p.scroll.bgH| == |s.p.scroll.bgH|
    ensures var u := ServeHdma(s, speed, nested).s; !Failed(u) ==> Follow(s, u)
  {
    hide HdmaScanline, HdmaInit, Taken, Waiting, Settled, InFrame, AfterLines, Proved, Rom, WithCursor;
    var u := ServeHdma(s, speed, nested).s;
    TakenPaced(s);
    LaterInFrame(s, n);
    if !Failed(u) && InFrame(u.t.beam) && u.t.arb.pace.whole && Follows(s) {
      if s.t.arb.transferPending {
        LineAdvances(Taken(s), speed, nested, s.t.arb.pace.taken);
      } else {
        InitRuns(Taken(s), speed, nested);
        InitLoads(Taken(s), speed, nested);
      }
    }
  }

  lemma InitRuns(s: State, speed: int, nested: bool)
    requires CpuSpeed(speed) && s.r.hdmaen == 4
    ensures !Failed(HdmaInit(s, speed, nested).s) ==> Armed(s)
  {
    hide Begin, Overhead, Finish, Fetch, Descriptor, Proved;
    FaultFails(ClearCursor(s));
  }

  /** The service of line `v` in an undisturbed frame is its `v`-th, and does what the table says of line `v`. */
  lemma LineServed(s: State, speed: int, nested: bool)
    requires CpuSpeed(speed) && Ready(s) && Waiting(s.t, 56) && Follows(s)
    requires s.t.arb.transferPending && s.t.arb.pace.whole && s.t.beam.frames > 0 && s.t.beam.v < 225
    requires s.r.hdmaen == 4 && |s.p.scroll.bgH| == 4
    requires var w := WordOnLine(s, s.t.beam.v); w.Some? ==> PlainWord(s.m, w.value)
    ensures s.t.arb.pace.taken == s.t.beam.v
    ensures Proved(s.d) ==> !Failed(ServeHdma(s, speed, nested).s)
    ensures var u := ServeHdma(s, speed, nested).s;
            !Failed(u) ==>
            && u.t.arb.pace.taken == s.t.beam.v + 1 && !u.t.arb.transferPending && u.m == s.m
            && u.d.hdma == AfterLines(Rom(s.m.rom), TABLE, s.t.beam.v + 1)
            && match WordOnLine(s, s.t.beam.v)
               case None => u.p == s.p
               case Some(a) => u.p.scroll.bgH == s.p.scroll.bgH[0 := WordAt(s.m, a) % 0x400]
  {
    hide HdmaScanline, Settled, AfterLines, Proved, Rom, Plain, Transfers;
    var n := s.t.beam.v;
    LineTurn(s);
    RomBytes(s.m.rom);
    var u := Taken(s);
    WaitingBegun(s, 56);
    TakenBegun(s, 56);
    if Proved(s.d) {
      LineCompletes(u, speed, nested, n, 56);
    }
    if !Failed(HdmaScanline(u, speed, nested).s) {
      LineConfigured(u, speed, nested);
      LineService(u, speed, nested, n);
      ScanlineServed(u, speed, nested, 56);
    }
  }

  lemma LineTurn(s: State)
    requires Ready(s) && Waiting(s.t, 56)
    requires s.t.arb.transferPending && s.t.arb.pace.whole && s.t.beam.frames > 0 && s.t.beam.v < 225
    ensures InFrame(s.t.beam) && s.t.arb.pace.taken == s.t.beam.v && !s.t.arb.initPending && s.t.beam.v >= 0
  {
    InitDotOf(s.t.beam);
  }

  lemma LineConfigured(s: State, speed: int, nested: bool)
    requires CpuSpeed(speed) && s.r.hdmaen == 4
    ensures !Failed(HdmaScanline(s, speed, nested).s) ==> Armed(s)
  {
    hide Begin, Overhead, Finish, CopyIndirect, NextLine, Proved;
    FaultFails(s);
  }

  // ----- services that cannot fail -----

  /** Wherever the table transfers from, the word lies in plain memory. */
  ghost predicate PlainTable(m: Memory) {
    forall n: nat :: WordIn(m.rom, n).Some? ==> PlainWord(m, WordIn(m.rom, n).value)
  }

  ghost function WordIn(image: seq<int>, n: nat): Option<int> {
    RomBytes(image);
    Transfers(Rom(image), TABLE, n)
  }

  /** HDMA is on, its table is plain, and the cursor is somewhere in it. */
  ghost predicate OnTable(s: State) {
    && Armed(s) && |s.p.scroll.bgH| == 4 && PlainTable(s.m)
    && exists n: nat :: s.d.hdma == AfterLines(Rom(s.m.rom), TABLE, n)
  }

  /** No service can fail: HDMA is off, or it follows a plain table. */
  ghost predicate Safe(s: State) {
    s.r.hdmaen == 0 || OnTable(s)
  }

  /** Whether a byte is plain depends on its address only. */
  lemma PlainByAddress(m: Memory, q: Memory, a: int)
    ensures Plain(m, a).Some? == Plain(q, a).Some?
  {
    hide PpuPorts.At;
  }

  lemma PlainTableKept(m: Memory, q: Memory)
    requires m.rom == q.rom && PlainTable(m)
    ensures PlainTable(q)
  {
    hide Plain, WordIn;
    forall n: nat | WordIn(q.rom, n).Some?
      ensures PlainWord(q, WordIn(q.rom, n).value)
    {
      var a := WordIn(m.rom, n).value;
      assert PlainWord(m, a);
      PlainByAddress(m, q, a);
      PlainByAddress(m, q, Next(a));
    }
  }

  lemma SafeKept(s: State, u: State)
    requires Safe(s) && u.r.hdmaen == s.r.hdmaen && u.d.ch2 == s.d.ch2 && u.d.hdma == s.d.hdma
    requires u.m.rom == s.m.rom && |u.p.scroll.bgH| == |s.p.scroll.bgH|
    ensures Safe(u)
  {
    hide PlainTable, Rom, AfterLines;
    if s.r.hdmaen != 0 {
      PlainTableKept(s.m, u.m);
    }
  }

  lemma SafeScanline(s: State, speed: int, nested: bool)
    requires CpuSpeed(speed) && Begun(s, 56) && OnTable(s)
    ensures var u := HdmaScanline(s, speed, nested).s;
            && !Failed(u) && u.m == s.m && exists n: nat :: u.d.hdma == AfterLines(Rom(s.m.rom), TABLE, n)
  {
    hide Begun, HdmaScanline, AfterLines, Proved, Rom, Plain, Transfers;
    var n: nat :| s.d.hdma == AfterLines(Rom(s.m.rom), TABLE, n);
    assert WordIn(s.m.rom, n) == WordOnLine(s, n);
    LineCompletes(s, speed, nested, n, 56);
    LineAdvances(s, speed, nested, n);
  }

  lemma SafeInit(s: State, speed: int, nested: bool)
    requires CpuSpeed(speed) && Begun(s, 56) && Armed(s)
    ensures var u := HdmaInit(s, speed, nested).s;
            && !Failed(u) && u.m == s.m && exists n: nat :: u.d.hdma == AfterLines(Rom(s.m.rom), TABLE, n)
  {
    hide Begun, HdmaInit, AfterLines, Proved, Rom;
    InitCompletes(s, speed, nested, 56);
    InitLoads(s, speed, nested);
  }

  /** The service of a pending request completes, and is safe to repeat. */
  lemma ServeCompletes(s: State, speed: int, nested: bool)
    requires CpuSpeed(speed) && Ready(s) && Waiting(s.t, 56) && HdmaPending(s) && Safe(s)
    ensures var u := ServeHdma(s, speed, nested).s; !Failed(u) && Safe(u)
  {
    hide Begun, HdmaScanline, HdmaInit, AfterLines, Proved, Rom, PlainTable, Settled, Waiting, Served;
    WaitingBegun(s, 56);
    TakenBegun(s, 56);
    var u := Taken(s);
    if s.r.hdmaen != 0 {
      PlainTableKept(s.m, u.m);
      if s.t.arb.transferPending {
        SafeScanline(u, speed, nested);
        ScanlineServed(u, speed, nested, 56);
        ServedTable(s, u, HdmaScanline(u, speed, nested).s, HdmaScanline(u, speed, nested).clocks);
      } else {
        SafeInit(u, speed, nested);
        InitServed(u, speed, nested, 56);
        ServedTable(s, u, HdmaInit(u, speed, nested).s, HdmaInit(u, speed, nested).clocks);
      }
    }
  }

  lemma ServedTable(s: State, t: State, u: State, n: int)
    requires OnTable(s) && t.d == s.d && t.m == s.m && t.r == s.r && t.p == s.p && Served(t, u, n, 56) && !Failed(u)
    requires u.m == s.m && exists k: nat :: u.d.hdma == AfterLines(Rom(s.m.rom), TABLE, k)
    ensures OnTable(u)
  {
    hide AfterLines, Rom, PlainTable, Near, Settled;
  }
}
