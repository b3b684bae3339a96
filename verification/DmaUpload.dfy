/** Uploads to the picture unit: a manual transfer is a block copy, whatever HDMA runs between its bytes. */
module DmaUpload {
  import opened Options
  import opened Clock
  import opened ClockEvents
  import opened MachineBus
  import opened MachineDma
  import opened HdmaService
  import opened HdmaSchedule
  import opened DmaTransfer
  import opened MachineCycle
  import opened PpuPorts
  import HdmaFrame

  function SourceAddress(ch: Channel, n: int): int {
    ch.bank * 0x10000 + SourceAt(ch, n)
  }

  /** The bytes a transfer reads, in order. */
  function SourceBytes(m: Memory, ch: Channel, n: nat): (b: seq<int>)
    ensures |b| == n
  {
    seq(n, i requires 0 <= i < n => SourceByte(m, ch, i))
  }

  function SourceByte(m: Memory, ch: Channel, i: int): int {
    match HdmaFrame.Plain(m, SourceAddress(ch, i))
    case Some(v) => v
    case None => 0
  }

  /** Every byte comes from work RAM, save RAM or ROM. */
  ghost predicate PlainSource(m: Memory, ch: Channel, n: int) {
    forall i :: 0 <= i < n ==> HdmaFrame.Plain(m, SourceAddress(ch, i)).Some?
  }

  function Target(ch: Channel, n: int): int {
    0x2100 + (ch.bbad + Offset(ch.dmap % 8, n)) % 0x100
  }

  /** The three memories, and not the scroll registers. */
  predicate SamePorts(p: Ppu, q: Ppu) {
    p.oam == q.oam && p.vram == q.vram && p.cgram == q.cgram
  }

  /** One byte lands as if it had been written to its register, for all that HDMA does after it. */
  lemma ByteLands(r: Ran, ch: Channel, n: int, speed: int)
    requires CpuSpeed(speed) && PastCheckpoint(r.s) && Target(ch, n) <= 0x2133 && !Refused(r.s.p, Target(ch, n))
    requires HdmaFrame.Plain(r.s.m, SourceAddress(ch, n)).Some?
    ensures var u := MoveByte(r, ch, n, speed).s;
            !Failed(u) ==> SamePorts(PpuPorts.Write(r.s.p, Target(ch, n), SourceByte(r.s.m, ch, n)), u.p)
  {
    hide MachineBus.Read, MachineBus.Write, PpuPorts.Write, Refused, Checkpoint, Advance, Offset, SourceAt,
         HdmaFrame.Plain, Near, Settled;
    var a := SourceAddress(ch, n);
    var b := (ch.bbad + Offset(ch.dmap % 8, n)) % 0x100;
    HdmaFrame.PlainRead(r.s, a);
    var value := SourceByte(r.s.m, ch, n);
    PortWrite(r.s, b, value);
    var moved := Carry(r.s, a, 0x2100 + b);
    CarryOk(r.s, a, b);
    if !Failed(moved) {
      OverheadOk(Ran(moved, r.clocks));
      CheckpointOk(Overhead(Ran(moved, r.clocks)), speed);
    }
  }

  lemma MovedBefore(r: Ran, ch: Channel, n: nat, speed: int)
    requires CpuSpeed(speed) && PastCheckpoint(r.s) && n > 0
    ensures var q := Moved(r, ch, n - 1, speed);
            !Failed(Moved(r, ch, n, speed).s) ==>
            && !Failed(q.s) && PastCheckpoint(q.s) && q.s.m == r.s.m
            && Moved(r, ch, n, speed) == MoveByte(q, ch, n - 1, speed)
  {
    hide MoveByte, PastCheckpoint, Failed, Ledger;
    var q := Moved(r, ch, n - 1, speed);
    MovedOk(r, ch, n - 1, speed);
    if Failed(q.s) {
      MoveFailed(q, ch, n - 1, speed);
    }
  }

  // ----- sprites -----

  predicate ToOam(ch: Channel) {
    ch.bbad == 0x04 && ch.dmap % 8 == 0
  }

  lemma {:induction false} OamMoved(r: Ran, ch: Channel, bytes: seq<int>, n: nat, speed: int)
    requires CpuSpeed(speed) && PastCheckpoint(r.s) && ToOam(ch) && n <= |bytes|
    requires forall i :: 0 <= i < n ==> HdmaFrame.Plain(r.s.m, SourceAddress(ch, i)) == Some(bytes[i])
    ensures !Failed(Moved(r, ch, n, speed).s)
            ==> Moved(r, ch, n, speed).s.p.oam == FillOam(r.s.p.oam, bytes, n)
  {
    hide Moved, MoveByte, PastCheckpoint, OamData, HdmaFrame.Plain, SourceAddress, Failed;
    if n == 0 {
      MovedNothing(r, ch, speed);
    } else if !Failed(Moved(r, ch, n, speed).s) {
      MovedBefore(r, ch, n, speed);
      OamMoved(r, ch, bytes, n - 1, speed);
      ByteLands(Moved(r, ch, n - 1, speed), ch, n - 1, speed);
    }
  }

  lemma MovedNothing(r: Ran, ch: Channel, speed: int)
    requires CpuSpeed(speed)
    ensures Moved(r, ch, 0, speed) == r
  {
  }

  // ----- colours -----

  predicate ToCgram(ch: Channel) {
    ch.bbad == 0x22 && (ch.dmap % 8 == 0 || ch.dmap % 8 == 2)
  }

  lemma {:induction false} CgramMoved(r: Ran, ch: Channel, bytes: seq<int>, n: nat, speed: int)
    requires CpuSpeed(speed) && PastCheckpoint(r.s) && ToCgram(ch) && n <= |bytes|
    requires forall i :: 0 <= i < n ==> HdmaFrame.Plain(r.s.m, SourceAddress(ch, i)) == Some(bytes[i])
    ensures !Failed(Moved(r, ch, n, speed).s)
            ==> Moved(r, ch, n, speed).s.p.cgram == FillCgram(r.s.p.cgram, bytes, n)
  {
    hide Moved, MoveByte, PastCheckpoint, CgramData, HdmaFrame.Plain, SourceAddress, Failed;
    if n == 0 {
      MovedNothing(r, ch, speed);
    } else if !Failed(Moved(r, ch, n, speed).s) {
      MovedBefore(r, ch, n, speed);
      CgramMoved(r, ch, bytes, n - 1, speed);
      ByteLands(Moved(r, ch, n - 1, speed), ch, n - 1, speed);
    }
  }

  // ----- tiles -----

  predicate ToVram(ch: Channel) {
    ch.bbad == 0x18 && ch.dmap % 8 == 1
  }

  lemma {:induction false} FillKeepsMapping(v: Vram, bytes: seq<int>, n: nat)
    requires n <= |bytes|
    ensures FillVram(v, bytes, n).mapping == v.mapping
  {
    if n > 0 {
      FillKeepsMapping(v, bytes, n - 1);
    }
  }

  lemma {:induction false} VramMoved(r: Ran, ch: Channel, bytes: seq<int>, n: nat, speed: int)
    requires CpuSpeed(speed) && PastCheckpoint(r.s) && ToVram(ch) && n <= |bytes| && r.s.p.vram.mapping == 0
    requires forall i :: 0 <= i < n ==> HdmaFrame.Plain(r.s.m, SourceAddress(ch, i)) == Some(bytes[i])
    ensures !Failed(Moved(r, ch, n, speed).s)
            ==> Moved(r, ch, n, speed).s.p.vram == FillVram(r.s.p.vram, bytes, n)
  {
    hide Moved, MoveByte, PastCheckpoint, VramData, HdmaFrame.Plain, SourceAddress, Failed;
    if n == 0 {
      MovedNothing(r, ch, speed);
    } else if !Failed(Moved(r, ch, n, speed).s) {
      MovedBefore(r, ch, n, speed);
      VramMoved(r, ch, bytes, n - 1, speed);
      FillKeepsMapping(r.s.p.vram, bytes, n - 1);
      ByteLands(Moved(r, ch, n - 1, speed), ch, n - 1, speed);
    }
  }

  // ----- whole transfers -----

  /** A machine whose next CPU cycle runs a manual transfer. */
  predicate Starts(s: State) {
    && Ready(s) && !Pending(s.t.arb) && !s.t.arb.startDelay && (s.d.mask == 1 || s.d.mask == 2 || s.d.mask == 0x80)
  }

  function Running(s: State): Channel {
    GetChannel(s.d, PendingChannel(s.d.mask))
  }

  function Disarmed(s: State): State {
    s.(d := s.d.(mask := 0))
  }

  /** The bytes of a whole transfer move between a startup and an end that leave the three memories alone. */
  lemma TransferShape(s: State, speed: int)
    requires CpuSpeed(speed) && Starts(s) && Running(s).size >= 0
    ensures var up := Startup(Disarmed(s), speed);
            var end := Moved(up, Running(s), Remaining(Running(s)), speed);
            !Failed(RunDma(s, speed).s) ==>
            && !Failed(up.s) && PastCheckpoint(up.s) && up.s.m == s.m && SamePorts(s.p, up.s.p) && !Failed(end.s)
            && SamePorts(end.s.p, RunDma(s, speed).s.p) && RunDma(s, speed).s.m == s.m
  {
    hide Near, Settled, Advance, Startup, RunChannel, EdgeKept, PastCheckpoint, Moved;
    var taken := Disarmed(s);
    TakenKept(s);
    var index := PendingChannel(s.d.mask);
    StartupOk(taken, speed);
    RunDmaOk(s, speed);
    var up := Startup(taken, speed);
    var run := RunChannel(up, index, speed);
    if Failed(up.s) {
      RunFailed(up, index, speed);
    } else {
      assert GetChannel(up.s.d, index) == Running(s);
      ChannelShape(up, index, speed);
      EndShape(run, speed);
    }
  }

  /** Every byte of every manual transfer moves at a master clock that is a multiple of eight. */
  lemma BytesOnBoundary(s: State, speed: int, n: nat)
    requires CpuSpeed(speed) && Starts(s)
    ensures var up := Startup(Disarmed(s), speed);
            var q := Moved(up, Running(s), n, speed);
            !Failed(up.s) && !Failed(q.s) ==> q.s.t.beam.clock % 8 == 0
  {
    hide Near, Settled, Advance, Startup, PastCheckpoint, Moved;
    TakenKept(s);
    StartupOk(Disarmed(s), speed);
    if !Failed(Startup(Disarmed(s), speed).s) {
      BytesAligned(Startup(Disarmed(s), speed), Running(s), n, speed);
    }
  }

  lemma ChannelShape(r: Ran, index: int, speed: int)
    requires CpuSpeed(speed) && PastCheckpoint(r.s) && GetChannel(r.s.d, index).size >= 0
    ensures var ch := GetChannel(r.s.d, index);
            var end := Moved(r, ch, Remaining(ch), speed);
            var q := RunChannel(r, index, speed);
            !Failed(q.s) ==> !Failed(end.s) && q.s.p == end.s.p
  {
    hide Moved, SourceAt, SetChannel;
  }

  lemma EndShape(r: Ran, speed: int)
    requires CpuSpeed(speed)
    ensures Failed(r.s) ==> Finish(r, speed, false) == r
    ensures Finish(r, speed, false).s.p == r.s.p
  {
    hide Advance;
  }

  lemma SourcePlain(m: Memory, ch: Channel, n: nat)
    requires PlainSource(m, ch, n)
    ensures forall i :: 0 <= i < n
                        ==> HdmaFrame.Plain(m, SourceAddress(ch, i)) == Some(SourceBytes(m, ch, n)[i])
  {
    hide HdmaFrame.Plain, SourceAddress;
  }

  /** 544 bytes to $2104 from address zero: the sprite table is the source, and memory is untouched. */
  lemma OamDma(s: State, speed: int)
    requires CpuSpeed(speed) && Starts(s)
    requires ToOam(Running(s)) && Running(s).size == 544 && PlainSource(s.m, Running(s), 544)
    requires s.p.oam.internal == 0 && |s.p.oam.mem| == 544
    ensures var u := RunDma(s, speed).s;
            !Failed(u) ==> u.p.oam.mem == SourceBytes(s.m, Running(s), 544) && u.m == s.m
  {
    hide RunDma, Startup, Moved, PastCheckpoint, HdmaFrame.Plain, SourceAddress, FillOam, Starts, Failed, GetChannel;
    if !Failed(RunDma(s, speed).s) {
      TransferShape(s, speed);
      var ch := Running(s);
      var up := Startup(Disarmed(s), speed);
      SourcePlain(s.m, ch, 544);
      OamMoved(up, ch, SourceBytes(s.m, ch, 544), 544, speed);
      OamUpload(s.p.oam, SourceBytes(s.m, ch, 544));
    }
  }

  /** 512 bytes to $2122: every colour is its source word with the top bit cleared, from any start entry. */
  lemma CgramDma(s: State, speed: int, j: nat)
    requires CpuSpeed(speed) && Starts(s) && j < 256
    requires ToCgram(Running(s)) && Running(s).size == 512 && PlainSource(s.m, Running(s), 512)
    requires !s.p.cgram.second && 0 <= s.p.cgram.address < 0x100 && |s.p.cgram.mem| == 512
    ensures var u := RunDma(s, speed).s;
            var b := SourceBytes(s.m, Running(s), 512);
            !Failed(u) ==> Word(u.p.cgram.mem, Entry(s.p.cgram, j)) == (b[2 * j], b[2 * j + 1] % 0x80) && u.m == s.m
  {
    hide RunDma, Startup, Moved, PastCheckpoint, HdmaFrame.Plain, SourceAddress, FillCgram, Starts, Failed, GetChannel,
         Word, Entry;
    if !Failed(RunDma(s, speed).s) {
      TransferShape(s, speed);
      var ch := Running(s);
      var up := Startup(Disarmed(s), speed);
      SourcePlain(s.m, ch, 512);
      CgramMoved(up, ch, SourceBytes(s.m, ch, 512), 512, speed);
      CgramWord(s.p.cgram, SourceBytes(s.m, ch, 512), 256, j);
    }
  }

  /** 2k bytes to $2118/$2119 with VMAIN $80: k consecutive words of video memory, wrapping, are the source. */
  lemma VramDma(s: State, speed: int, k: nat, j: nat)
    requires CpuSpeed(speed) && Starts(s) && Running(s).size >= 0
    requires ToVram(Running(s)) && Remaining(Running(s)) == 2 * k && j < k <= 0x8000
    requires PlainSource(s.m, Running(s), 2 * k)
    requires var v := s.p.vram; v.onHigh && v.increment == 1 && v.mapping == 0 && 0 <= v.address < 0x10000
    requires |s.p.vram.mem| == 65536
    ensures var u := RunDma(s, speed).s;
            var b := SourceBytes(s.m, Running(s), 2 * k);
            !Failed(u) ==> Word(u.p.vram.mem, WordOf(s.p.vram, j)) == (b[2 * j], b[2 * j + 1]) && u.m == s.m
  {
    hide RunDma, Startup, Moved, PastCheckpoint, HdmaFrame.Plain, SourceAddress, FillVram, Starts, Failed, GetChannel,
         Word, WordOf;
    if !Failed(RunDma(s, speed).s) {
      TransferShape(s, speed);
      var ch := Running(s);
      var up := Startup(Disarmed(s), speed);
      SourcePlain(s.m, ch, 2 * k);
      VramMoved(up, ch, SourceBytes(s.m, ch, 2 * k), 2 * k, speed);
      VramWord(s.p.vram, SourceBytes(s.m, ch, 2 * k), k, j);
    }
  }

  // ----- uploads that cannot fail -----

  predicate Upload(ch: Channel) {
    ToOam(ch) || ToCgram(ch) || ToVram(ch)
  }

  lemma UploadTarget(ch: Channel, n: nat)
    requires Upload(ch)
    ensures Target(ch, n) == 0x2104 || Target(ch, n) == 0x2122 || Target(ch, n) == 0x2118 || Target(ch, n) == 0x2119
  {
  }

  lemma UploadKeepsMapping(p: Ppu, local: int, value: int)
    requires local == 0x2104 || local == 0x2122 || local == 0x2118 || local == 0x2119
    ensures PpuPorts.Write(p, local, value).vram.mapping == p.vram.mapping
  {
    hide Put, OamData, CgramData;
  }

  lemma UploadCarries(s: State, source: int, target: int, value: int)
    requires Ready(s) && HdmaFrame.Plain(s.m, source) == Some(value) && s.p.vram.mapping == 0
    requires target == 0x2104 || target == 0x2122 || target == 0x2118 || target == 0x2119
    ensures !Failed(Carry(s, source, target))
  {
    hide MachineBus.Read, PpuPorts.Write, HdmaFrame.Plain, WriteControl, WriteDmaRegister;
    HdmaFrame.PlainRead(s, source);
    CartridgeSilent(target - 0x2100);
    assert Bank(target) == 0 && Local(target) == target;
  }

  /** Between safe HDMA, a plain source and no address remapping nothing is left that could fail. */
  lemma {:induction false} UploadRuns(r: Ran, ch: Channel, n: nat, speed: int)
    requires CpuSpeed(speed) && PastCheckpoint(r.s) && Safe(r.s) && Upload(ch) && r.s.p.vram.mapping == 0
    requires forall i :: 0 <= i < n ==> HdmaFrame.Plain(r.s.m, SourceAddress(ch, i)).Some?
    ensures var q := Moved(r, ch, n, speed);
            && !Failed(q.s) && PastCheckpoint(q.s) && Safe(q.s) && q.s.p.vram.mapping == 0 && q.s.m == r.s.m
  {
    hide MoveByte, PastCheckpoint, HdmaFrame.Plain, Moved, Failed, Ledger, PpuPorts.Write, Upload, SourceByte, Safe;
    MovedNothing(r, ch, speed);
    PastSettled(r.s);
    if n > 0 {
      UploadRuns(r, ch, n - 1, speed);
      var q := Moved(r, ch, n - 1, speed);
      UploadByteRuns(q, ch, n - 1, speed);
      MovedMore(r, ch, n, speed);
    }
  }

  lemma MovedMore(r: Ran, ch: Channel, n: nat, speed: int)
    requires CpuSpeed(speed) && n > 0
    ensures Moved(r, ch, n, speed) == MoveByte(Moved(r, ch, n - 1, speed), ch, n - 1, speed)
  {
    hide MoveByte;
  }

  lemma UploadByteRuns(r: Ran, ch: Channel, n: nat, speed: int)
    requires CpuSpeed(speed) && PastCheckpoint(r.s) && Safe(r.s) && Upload(ch) && r.s.p.vram.mapping == 0
    requires HdmaFrame.Plain(r.s.m, SourceAddress(ch, n)).Some?
    ensures var q := MoveByte(r, ch, n, speed);
            && !Failed(q.s) && PastCheckpoint(q.s) && Safe(q.s) && q.s.p.vram.mapping == 0 && q.s.m == r.s.m
  {
    hide MachineBus.Read, MachineBus.Write, PpuPorts.Write, Checkpoint, Advance, Offset, SourceAt, HdmaFrame.Plain,
         Near, Settled, Upload, SourceByte, Safe;
    var a, local := SourceAddress(ch, n), Target(ch, n);
    var value := HdmaFrame.Plain(r.s.m, a).value;
    UploadTarget(ch, n);
    UploadCarries(r.s, a, local, value);
    CarryOk(r.s, a, local - 0x2100);
    var moved := Ran(Carry(r.s, a, local), r.clocks);
    OverheadOk(moved);
    SafeKept(r.s, Overhead(moved).s);
    SafeCheckpoint(Overhead(moved), speed);
    MoveByteOk(r, ch, n, speed);
    ByteLands(r, ch, n, speed);
    UploadKeepsMapping(r.s.p, local, SourceByte(r.s.m, ch, n));
  }

  lemma StartupRuns(s: State, speed: int)
    requires CpuSpeed(speed) && Ready(s) && !Pending(s.t.arb) && !s.t.arb.startDelay && Safe(s)
    ensures !Failed(Startup(s, speed).s) && Safe(Startup(s, speed).s)
  {
    hide Near, Sound, Paid, Advance, Checkpoint, Safe;
    var b := Begin(s, false);
    WaitAgain(s, ToBoundary(s), 0);
    WaitingWeaken(b.s.t, ToBoundary(s), 8);
    WaitAgain(b.s, 8, 8);
    var o := Overhead(b);
    WaitingWeaken(o.s.t, 8, 16);
    WaitingWeaken(o.s.t, 16, 24);
    SafeKept(s, o.s);
    SafeCheckpoint(o, speed);
    CheckpointOk(o, speed);
    var one := Checkpoint(o, speed);
    OverheadOk(one);
    SafeKept(one.s, Overhead(one).s);
    SafeCheckpoint(Overhead(one), speed);
  }

  /** An upload from plain memory always completes, with HDMA off or following a plain table, so `OamDma`, `CgramDma`
      and `VramDma` then hold without a proviso. */
  lemma UploadCompletes(s: State, speed: int)
    requires CpuSpeed(speed) && Starts(s) && Safe(s) && s.p.vram.mapping == 0
    requires var ch := Running(s);
             && Upload(ch) && ch.size >= 0 && ch.dmap < 0x80 && ch.dmap >= 0
             && ModeReached(PendingChannel(s.d.mask), ch.dmap % 8) && PlainSource(s.m, ch, Remaining(ch))
    ensures !Failed(RunDma(s, speed).s)
  {
    hide Near, Settled, Advance, Startup, EdgeKept, PastCheckpoint, Moved, HdmaFrame.Plain, SourceAddress, Upload,
         Safe;
    var taken := Disarmed(s);
    TakenKept(s);
    SafeKept(s, taken);
    StartupRuns(taken, speed);
    StartupOk(taken, speed);
    var up := Startup(taken, speed);
    var ch := Running(s);
    assert GetChannel(up.s.d, PendingChannel(s.d.mask)) == ch;
    UploadRuns(up, ch, Remaining(ch), speed);
    var run := RunChannel(up, PendingChannel(s.d.mask), speed);
    RunChannelOk(up, PendingChannel(s.d.mask), speed);
    FinishRuns(run, speed);
  }

  lemma FinishRuns(r: Ran, speed: int)
    requires CpuSpeed(speed) && PastCheckpoint(r.s)
    ensures !Failed(Finish(r, speed, false).s)
  {
    hide Near, Sound, Advance, Wait;
    PastSettled(r.s);
    WaitAgain(r.s, ToCpu(r.clocks, speed), 16);
  }
}
