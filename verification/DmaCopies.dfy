/** Block copies said in addresses: which byte of memory ends up where, for each way a channel walks its source. */
module DmaCopies {
  import opened Options
  import opened Clock
  import opened ClockEvents
  import opened MachineBus
  import opened MachineDma
  import opened HdmaService
  import opened HdmaSchedule
  import opened DmaTransfer
  import opened MachineCycle
  import opened DmaUpload
  import HdmaFrame
  import PpuPorts

  // ----- the channel and its walk -----

  /** The channel a write of `mask` to $420B starts. */
  predicate Starting(s: State, ch: Channel) {
    && Starts(s)
    && (s.d.mask == 1 ==> ch == s.d.ch0) && (s.d.mask == 2 ==> ch == s.d.ch1) && (s.d.mask == 0x80 ==> ch == s.d.ch7)
  }

  lemma StartingRuns(s: State, ch: Channel)
    requires Starting(s, ch)
    ensures Running(s) == ch
  {
  }

  /** `value` is the plain byte at distance `k` from the start of the source: upwards with bits 3 and 4 of DMAP clear,
      downwards with bit 4 alone, at the start itself with bit 3.  The bank never changes. */
  ghost predicate ByteFrom(m: Memory, ch: Channel, k: nat, value: int) {
    && (ch.dmap / 8 % 4 == 0 ==> HdmaFrame.Plain(m, ch.bank * 0x10000 + (ch.source + k) % 0x10000) == Some(value))
    && (ch.dmap / 8 % 4 == 2 ==> HdmaFrame.Plain(m, ch.bank * 0x10000 + (ch.source - k) % 0x10000) == Some(value))
    && (ch.dmap / 8 % 2 == 1 ==> HdmaFrame.Plain(m, ch.bank * 0x10000 + ch.source % 0x10000) == Some(value))
  }

  lemma DmapBits(dmap: int)
    ensures dmap / 8 % 4 == 0 <==> dmap / 8 % 2 == 0 && dmap / 16 % 2 == 0
    ensures dmap / 8 % 4 == 2 <==> dmap / 8 % 2 == 0 && dmap / 16 % 2 == 1
  {
    assert dmap / 16 == dmap / 8 / 2;
    BitPair(dmap / 8);
  }

  lemma BitPair(x: int)
    ensures x % 4 == x % 2 + 2 * (x / 2 % 2)
  {
  }

  lemma SourceAt0(m: Memory, ch: Channel, n: nat, k: nat)
    requires PlainSource(m, ch, n) && k < n
    ensures ByteFrom(m, ch, k, SourceBytes(m, ch, n)[k])
  {
    hide HdmaFrame.Plain;
    DmapBits(ch.dmap);
    SourcePlain(m, ch, n);
  }

  const OFFSETS: seq<seq<int>> := [[0, 0, 0, 0], [0, 1, 0, 1], [0, 0, 0, 0], [0, 0, 1, 1],
                                   [0, 1, 2, 3], [0, 1, 0, 1], [0, 0, 0, 0], [0, 0, 1, 1]]

  /** The eight patterns in which a transfer spreads its bytes over neighbouring registers. */
  lemma OffsetsListed(mode: nat, n: nat)
    requires mode < 8
    ensures Offset(mode, n) == OFFSETS[mode][n % 4]
  {
    assert n % 2 == n % 4 % 2;
    assert OFFSETS[mode] == [Offset(mode, 0), Offset(mode, 1), Offset(mode, 2), Offset(mode, 3)];
  }

  // ----- the three copies -----

  /** 544 bytes to $2104 from address zero: byte `k` of the sprite table is byte `k` of the source. */
  lemma OamCopy(s: State, ch: Channel, speed: int, k: nat)
    requires CpuSpeed(speed) && Starting(s, ch) && k < 544
    requires ch.bbad == 0x04 && ch.dmap % 8 == 0 && ch.size == 544 && PlainSource(s.m, ch, 544)
    requires s.p.oam.internal == 0 && |s.p.oam.mem| == 544
    ensures var u := RunDma(s, speed).s;
            !Failed(u) ==> |u.p.oam.mem| == 544 && ByteFrom(s.m, ch, k, u.p.oam.mem[k])
  {
    hide RunDma, Starts, ByteFrom, PlainSource, SourceByte, Failed;
    StartingRuns(s, ch);
    if !Failed(RunDma(s, speed).s) {
      OamDma(s, speed);
      SourceAt0(s.m, ch, 544, k);
    }
  }

  /** 512 bytes to $2122: colour `address + j` is pair `j` of the source without its top bit. */
  lemma CgramCopy(s: State, ch: Channel, speed: int, j: nat)
    requires CpuSpeed(speed) && Starting(s, ch) && j < 256
    requires ch.bbad == 0x22 && (ch.dmap % 8 == 0 || ch.dmap % 8 == 2) && ch.size == 512 && PlainSource(s.m, ch, 512)
    requires !s.p.cgram.second && 0 <= s.p.cgram.address < 0x100 && |s.p.cgram.mem| == 512
    ensures var u := RunDma(s, speed).s;
            var at := 2 * ((s.p.cgram.address + j) % 0x100);
            !Failed(u) ==>
            && |u.p.cgram.mem| == 512 && ByteFrom(s.m, ch, 2 * j, u.p.cgram.mem[at])
            && exists high :: ByteFrom(s.m, ch, 2 * j + 1, high) && u.p.cgram.mem[at + 1] == high % 0x80
  {
    hide RunDma, Starts, ByteFrom, PlainSource, SourceByte, Failed, SourceBytes;
    StartingRuns(s, ch);
    if !Failed(RunDma(s, speed).s) {
      CgramDma(s, speed, j);
      CgramLength(s, speed);
      SourceAt0(s.m, ch, 512, 2 * j);
      SourceAt0(s.m, ch, 512, 2 * j + 1);
    }
  }

  lemma CgramLength(s: State, speed: int)
    requires CpuSpeed(speed) && Starts(s) && ToCgram(Running(s)) && Running(s).size == 512
    requires PlainSource(s.m, Running(s), 512) && |s.p.cgram.mem| == 512
    ensures !Failed(RunDma(s, speed).s) ==> |RunDma(s, speed).s.p.cgram.mem| == 512
  {
    hide RunDma, Startup, Moved, PastCheckpoint, HdmaFrame.Plain, SourceAddress, PpuPorts.FillCgram, Starts, Failed,
         GetChannel;
    if !Failed(RunDma(s, speed).s) {
      TransferShape(s, speed);
      var ch := Running(s);
      SourcePlain(s.m, ch, 512);
      CgramMoved(Startup(Disarmed(s), speed), ch, SourceBytes(s.m, ch, 512), 512, speed);
      FillCgramLength(s.p.cgram, SourceBytes(s.m, ch, 512), 512);
    }
  }

  lemma {:induction false} FillCgramLength(c: PpuPorts.Cgram, bytes: seq<int>, n: nat)
    requires n <= |bytes|
    ensures |PpuPorts.FillCgram(c, bytes, n).mem| == |c.mem|
  {
    if n > 0 { FillCgramLength(c, bytes, n - 1); }
  }

  /** 2k bytes to $2118 and $2119 with VMAIN $80: word `address + j` of video memory is pair `j` of the source. */
  lemma VramCopy(s: State, ch: Channel, speed: int, k: nat, j: nat)
    requires CpuSpeed(speed) && Starting(s, ch) && j < k <= 0x8000
    requires ch.bbad == 0x18 && ch.dmap % 8 == 1 && 0 <= ch.size < 0x10000
    requires 2 * k == (if ch.size == 0 then 0x10000 else ch.size) && PlainSource(s.m, ch, 2 * k)
    requires var v := s.p.vram; v.onHigh && v.increment == 1 && v.mapping == 0 && 0 <= v.address < 0x10000
    requires |s.p.vram.mem| == 65536
    ensures var u := RunDma(s, speed).s;
            var at := 2 * ((s.p.vram.address + j) % 0x8000);
            !Failed(u) ==>
            && |u.p.vram.mem| == 65536 && ByteFrom(s.m, ch, 2 * j, u.p.vram.mem[at])
            && ByteFrom(s.m, ch, 2 * j + 1, u.p.vram.mem[at + 1])
  {
    hide RunDma, Starts, ByteFrom, PlainSource, SourceByte, Failed, SourceBytes;
    StartingRuns(s, ch);
    if !Failed(RunDma(s, speed).s) {
      VramDma(s, speed, k, j);
      VramLength(s, speed, k);
      SourceAt0(s.m, ch, 2 * k, 2 * j);
      SourceAt0(s.m, ch, 2 * k, 2 * j + 1);
    }
  }

  lemma VramLength(s: State, speed: int, k: nat)
    requires CpuSpeed(speed) && Starts(s) && ToVram(Running(s)) && Running(s).size >= 0
    requires Remaining(Running(s)) == 2 * k && PlainSource(s.m, Running(s), 2 * k)
    requires |s.p.vram.mem| == 65536 && s.p.vram.mapping == 0
    ensures !Failed(RunDma(s, speed).s) ==> |RunDma(s, speed).s.p.vram.mem| == 65536
  {
    hide RunDma, Startup, Moved, PastCheckpoint, HdmaFrame.Plain, SourceAddress, PpuPorts.FillVram, Starts, Failed,
         GetChannel;
    if !Failed(RunDma(s, speed).s) {
      TransferShape(s, speed);
      var ch := Running(s);
      SourcePlain(s.m, ch, 2 * k);
      VramMoved(Startup(Disarmed(s), speed), ch, SourceBytes(s.m, ch, 2 * k), 2 * k, speed);
      FillVramLength(s.p.vram, SourceBytes(s.m, ch, 2 * k), 2 * k);
    }
  }

  lemma {:induction false} FillVramLength(v: PpuPorts.Vram, bytes: seq<int>, n: nat)
    requires n <= |bytes|
    ensures |PpuPorts.FillVram(v, bytes, n).mem| == |v.mem|
  {
    if n > 0 { FillVramLength(v, bytes, n - 1); }
  }
}
