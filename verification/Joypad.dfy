/** Controller ports: host bit order, latching, serial reads and the automatic poll.
    A register is the sequence of its bits, least significant first. */
module Joypad {
  type Word = w: seq<bool> | |w| == 16 witness seq(16, _ => false)
  type Packet = w: seq<bool> | |w| == 32 witness seq(32, _ => false)

  const ZERO: Word := seq(16, _ => false)

  function Reverse(w: Word): Word {
    seq(16, k requires 0 <= k < 16 => w[15 - k])
  }

  /** `(w << 1) | bit` and, for the 32-bit mouse packet, `(p << 1) | 1`. */
  function ShiftIn(w: seq<bool>, bit: bool): seq<bool>
    requires w != []
  {
    [bit] + w[..|w| - 1]
  }

  /** The low `n` bits of a number. */
  function BitsOf(value: nat, n: nat): (b: seq<bool>)
    ensures |b| == n
  {
    if n == 0 then [] else [value % 2 == 1] + BitsOf(value / 2, n - 1)
  }

  method SnesMaskToSerial(mask: Word) returns (serial: Word)
    ensures serial == Reverse(mask)
  {
    serial := ZERO;
    for bit := 0 to 16
      invariant forall k :: 0 <= k < 16 ==> serial[k] == (k > 15 - bit && mask[15 - k])
    {
      serial := serial[15 - bit := serial[15 - bit] || mask[bit]];
    }
  }

  datatype Mouse = Mouse(sensitivity: nat, left: bool, right: bool, dx: int, dy: int,
                         leftFlag: bool, upFlag: bool, packet: Packet)

  datatype Port = Port(isMouse: bool, live: Word, latched: Word, shift: nat, mouse: Mouse)

  const SPEED_LUT: seq<seq<nat>> := [[0, 1, 2, 3, 8, 10, 12, 21], [0, 1, 4, 9, 12, 20, 24, 28]]

  function ScaledAxis(sensitivity: nat, raw: int): (v: nat)
    ensures v < 128
  {
    var size := if raw < 0 then -raw else raw;
    var m := if size > 127 then 127 else size;
    if sensitivity == 0 then m
    else
      var row := SPEED_LUT[(sensitivity - 1) % 2];
      assert SPEED_LUT[0] == [0, 1, 2, 3, 8, 10, 12, 21] && SPEED_LUT[1] == [0, 1, 4, 9, 12, 20, 24, 28];
      row[if m > 7 then 7 else m]
  }

  /** The mouse's 32-bit packet: bytes 1 (zero), 2, 3 and 4 from the top bit down. */
  function Refresh(m: Mouse): Mouse {
    var lf := if m.dx != 0 then m.dx < 0 else m.leftFlag;
    var uf := if m.dy != 0 then m.dy < 0 else m.upFlag;
    var byte2 := [true, false, false, false] + BitsOf(m.sensitivity, 2) + [m.left, m.right];
    var byte3 := BitsOf(ScaledAxis(m.sensitivity, m.dy), 7) + [uf];
    var byte4 := BitsOf(ScaledAxis(m.sensitivity, m.dx), 7) + [lf];
    m.(leftFlag := lf, upFlag := uf, packet := byte4 + byte3 + byte2 + BitsOf(0, 8))
  }

  function Latch(p: Port): Port {
    if p.isMouse then p.(shift := 0, mouse := Refresh(p.mouse)) else p.(shift := 0, latched := p.live)
  }

  /** The next bit the automatic poll sees, and the port after it. */
  function AutoBit(p: Port): (bool, Port) {
    var next := if p.shift < 0xFF then p.shift + 1 else p.shift;
    if p.isMouse then
      (p.mouse.packet[31], p.(shift := next, mouse := p.mouse.(packet := ShiftIn(p.mouse.packet, true))))
    else (if p.shift < 16 then p.latched[p.shift] else true, p.(shift := next))
  }

  class Ports {
    var port: seq<Port>
    var strobe: bool
    var autoData: seq<Word>
    var busy: bool
    var autoEnabled: bool
    var polls: nat

    ghost predicate Valid()
      reads this
    {
      |port| == 2 && |autoData| == 4 && !busy
    }

    method SetInput(c: nat, serial: Word)
      requires Valid() && c < 2
      modifies this`port
      ensures Valid() && port == old(port)[c := old(port)[c].(isMouse := false, live := serial)]
    {
      port := port[c := port[c].(isMouse := false, live := serial)];
    }

    method LatchAll()
      requires |port| == 2
      modifies this`port
      ensures port == [Latch(old(port)[0]), Latch(old(port)[1])]
    {
      for c := 0 to 2
        invariant |port| == 2
        invariant forall k :: 0 <= k < 2 ==> port[k] == if k < c then Latch(old(port)[k]) else old(port)[k]
      {
        port := port[c := Latch(port[c])];
      }
    }

    /** One manual read of $4016 or $4017.  A strobed mouse read steps the sensitivity, and its bit is zero. */
    method SerialRead(c: nat) returns (bit: bool)
      requires Valid() && c < 2
      modifies this`port
      ensures Valid() && port[1 - c] == old(port)[1 - c]
      ensures var p := old(port)[c];
              !p.isMouse ==>
                && bit == (if strobe then p.live[0] else if p.shift < 16 then p.latched[p.shift] else true)
                && port[c] == if strobe || p.shift >= 0xFF then p else p.(shift := p.shift + 1)
      ensures var p := old(port)[c];
              p.isMouse && !strobe ==> (bit, port[c]) == AutoBit(p)
      ensures var p := old(port)[c];
              var next := p.(mouse := Refresh(p.mouse.(sensitivity := (p.mouse.sensitivity + 1) % 3)));
              p.isMouse && strobe ==> !bit && (bit, port[c]) == AutoBit(next)
    {
      hide Refresh;
      var p := port[c];
      if p.isMouse {
        if strobe {
          p := p.(mouse := Refresh(p.mouse.(sensitivity := (p.mouse.sensitivity + 1) % 3)));
          FirstBitZero(port[c].mouse.(sensitivity := (port[c].mouse.sensitivity + 1) % 3));
        }
        bit := p.mouse.packet[31];
        p := p.(mouse := p.mouse.(packet := ShiftIn(p.mouse.packet, true)),
                shift := if p.shift < 0xFF then p.shift + 1 else p.shift);
      } else if strobe {
        bit := p.live[0];
      } else {
        bit := if p.shift < 16 then p.latched[p.shift] else true;
        if p.shift < 0xFF { p := p.(shift := p.shift + 1); }
      }
      port := port[c := p];
    }

    /** One bit of each controller is shifted into its slot. */
    method PollBit(ghost start: seq<Port>, ghost n: nat)
      requires |start| == 2 && |port| == 2 && |autoData| == 4 && n < 16
      requires PartlyPolled(start[0], autoData[0], port[0], n) && PartlyPolled(start[1], autoData[1], port[1], n)
      modifies this`port, this`autoData
      ensures |port| == 2 && |autoData| == 4 && autoData[2..] == old(autoData)[2..]
      ensures PartlyPolled(start[0], autoData[0], port[0], n + 1)
      ensures PartlyPolled(start[1], autoData[1], port[1], n + 1)
    {
      for c := 0 to 2
        invariant |port| == 2 && |autoData| == 4 && autoData[2..] == old(autoData)[2..]
        invariant PartlyPolled(start[0], autoData[0], port[0], if 0 < c then n + 1 else n)
        invariant PartlyPolled(start[1], autoData[1], port[1], if 1 < c then n + 1 else n)
      {
        PollStep(start[c], autoData[c], port[c], n);
        var bit := AutoBit(port[c]);
        port := port[c := bit.1];
        autoData := autoData[c := ShiftIn(autoData[c], bit.0)];
      }
    }

    method PollSixteen(ghost start: seq<Port>)
      requires start == port && |port| == 2 && autoData == [ZERO, ZERO, ZERO, ZERO]
      requires port[0].shift == 0 && port[1].shift == 0
      modifies this`port, this`autoData
      ensures |port| == 2 && |autoData| == 4 && autoData[2..] == [ZERO, ZERO]
      ensures Polled(start[0], autoData[0], port[0]) && Polled(start[1], autoData[1], port[1])
    {
      for bit := 0 to 16
        invariant |port| == 2 && |autoData| == 4 && autoData[2..] == [ZERO, ZERO]
        invariant PartlyPolled(start[0], autoData[0], port[0], bit)
        invariant PartlyPolled(start[1], autoData[1], port[1], bit)
      {
        PollBit(start, bit);
      }
      PollDone(start[0], autoData[0], port[0]);
      PollDone(start[1], autoData[1], port[1]);
    }

    /** The poll at the start of vertical blank. */
    method AutoPoll() returns (ran: bool)
      requires Valid()
      modifies this`port, this`autoData, this`busy, this`polls
      ensures Valid() && ran == autoEnabled
      ensures !ran ==> port == old(port) && autoData == old(autoData) && polls == old(polls)
      ensures ran ==> polls == old(polls) + 1 && autoData[2..] == [ZERO, ZERO]
                      && Polled(Latch(old(port)[0]), autoData[0], port[0])
                      && Polled(Latch(old(port)[1]), autoData[1], port[1])
    {
      if !autoEnabled { return false; }
      busy := true;
      autoData := [ZERO, ZERO, ZERO, ZERO];
      LatchAll();
      PollSixteen(port);
      busy := false;
      polls := polls + 1;
      ran := true;
    }

    /** $4218 to $421F: the two bytes of each slot. */
    function AutoRegister(local: nat): seq<bool>
      requires Valid() && 0x4218 <= local <= 0x421F
      reads this
    {
      var data := autoData[(local - 0x4218) / 2];
      if local % 2 == 1 then data[8..] else data[..8]
    }

    method InputAndPoll(c: nat, serial: Word)
      requires Valid() && c < 2 && autoEnabled
      modifies this
      ensures Valid() && autoData[c] == Reverse(serial)
    {
      SetInput(c, serial);
      var _ := AutoPoll();
    }

    /** The host's frame: convert the mask, set the port, poll, and let the game read the registers. */
    method FrameInput(c: nat, mask: Word) returns (low: seq<bool>, high: seq<bool>)
      requires Valid() && c < 2 && autoEnabled
      modifies this
      ensures low == mask[..8] && high == mask[8..]
    {
      var serial := SnesMaskToSerial(mask);
      ReverseTwice(mask);
      InputAndPoll(c, serial);
      low := AutoRegister(0x4218 + 2 * c);
      high := AutoRegister(0x4219 + 2 * c);
    }
  }

  /** A sequence of bits as a number, the first bit lowest. */
  function Number(b: seq<bool>): nat {
    if b == [] then 0 else (if b[0] then 1 else 0) + 2 * Number(b[1..])
  }

  lemma {:induction false} NumberOfBits(value: nat, n: nat)
    ensures value < Weight(n) ==> Number(BitsOf(value, n)) == value
  {
    if n > 0 {
      NumberOfBits(value / 2, n - 1);
      assert BitsOf(value, n)[1..] == BitsOf(value / 2, n - 1);
    }
  }

  function Weight(n: nat): nat {
    if n == 0 then 1 else 2 * Weight(n - 1)
  }

  lemma {:induction false} NumberJoins(a: seq<bool>, b: seq<bool>)
    ensures Number(a + b) == Number(a) + Weight(|a|) * Number(b)
  {
    if a == [] {
      assert a + b == b;
    } else {
      NumberJoins(a[1..], b);
      assert (a + b)[1..] == a[1..] + b;
      Distributes(Weight(|a| - 1), Number(b));
    }
  }

  lemma Distributes(w: nat, x: nat)
    ensures 2 * (w * x) == (2 * w) * x
  {
  }

  /** A movement of at most 127 steps, scaled by the sensitivity: the same both ways, none for none, and never more
      for less. */
  lemma ScaledMovement(sensitivity: nat, raw: int, more: int)
    ensures ScaledAxis(sensitivity, raw) == ScaledAxis(sensitivity, -raw) && ScaledAxis(sensitivity, 0) == 0
    ensures 0 <= raw <= more ==> ScaledAxis(sensitivity, raw) <= ScaledAxis(sensitivity, more)
    ensures sensitivity == 0 && 0 <= raw <= 127 ==> ScaledAxis(sensitivity, raw) == raw
  {
    assert SPEED_LUT[0] == [0, 1, 2, 3, 8, 10, 12, 21] && SPEED_LUT[1] == [0, 1, 4, 9, 12, 20, 24, 28];
  }

  /** The 32 bits of a mouse as a number: a zero byte; the buttons, the sensitivity and the signature 1; the vertical
      movement and its direction; the horizontal one and its direction. */
  lemma PacketValue(m: Mouse)
    requires m.sensitivity < 4
    ensures var r := Refresh(m);
            var up, left := (if m.dy != 0 then m.dy < 0 else m.upFlag), (if m.dx != 0 then m.dx < 0 else m.leftFlag);
            && r.upFlag == up && r.leftFlag == left
            && Number(r.packet)
               == 0x1_0000 * (1 + 0x10 * m.sensitivity + (if m.left then 0x40 else 0) + (if m.right then 0x80 else 0))
                  + 0x100 * (ScaledAxis(m.sensitivity, m.dy) + (if up then 0x80 else 0))
                  + (ScaledAxis(m.sensitivity, m.dx) + (if left then 0x80 else 0))
  {
    hide ScaledAxis;
    var r := Refresh(m);
    var byte2 := [true, false, false, false] + BitsOf(m.sensitivity, 2) + [m.left, m.right];
    var byte3 := BitsOf(ScaledAxis(m.sensitivity, m.dy), 7) + [r.upFlag];
    var byte4 := BitsOf(ScaledAxis(m.sensitivity, m.dx), 7) + [r.leftFlag];
    AxisByte(ScaledAxis(m.sensitivity, m.dy), r.upFlag);
    AxisByte(ScaledAxis(m.sensitivity, m.dx), r.leftFlag);
    ButtonByte(m.sensitivity, m.left, m.right);
    WeightOfBytes();
    NumberJoins(byte4 + byte3 + byte2, BitsOf(0, 8));
    NumberJoins(byte4 + byte3, byte2);
    NumberJoins(byte4, byte3);
    NoBits(8);
  }

  lemma WeightOfBytes()
    ensures Weight(7) == 0x80 && Weight(8) == 0x100 && Weight(16) == 0x1_0000 && Weight(24) == 0x100_0000
  {
    assert Weight(4) == 16 && Weight(12) == 0x1000 && Weight(20) == 0x10_0000;
  }

  lemma {:induction false} NoBits(n: nat)
    ensures Number(BitsOf(0, n)) == 0
  {
    if n > 0 {
      NoBits(n - 1);
      assert BitsOf(0, n)[1..] == BitsOf(0, n - 1);
    }
  }

  lemma AxisByte(value: nat, sign: bool)
    requires value < 128
    ensures Number(BitsOf(value, 7) + [sign]) == value + if sign then 0x80 else 0
  {
    WeightOfBytes();
    NumberOfBits(value, 7);
    NumberJoins(BitsOf(value, 7), [sign]);
    assert Number([sign]) == if sign then 1 else 0;
  }

  lemma ButtonByte(sensitivity: nat, left: bool, right: bool)
    requires sensitivity < 4
    ensures Number([true, false, false, false] + BitsOf(sensitivity, 2) + [left, right])
            == 1 + 0x10 * sensitivity + (if left then 0x40 else 0) + (if right then 0x80 else 0)
  {
    var low := [true, false, false, false];
    assert low[1..] == [false, false, false] && low[1..][1..] == [false, false] && low[1..][1..][1..] == [false];
    assert Number(low) == 1;
    NumberOfBits(sensitivity, 2);
    assert Weight(2) == 4 && Weight(4) == 16 && Weight(6) == 64;
    NumberJoins(low, BitsOf(sensitivity, 2));
    NumberJoins(low + BitsOf(sensitivity, 2), [left, right]);
    assert [left, right][1..] == [right];
    assert Number([left, right]) == (if left then 1 else 0) + (if right then 2 else 0);
  }

  /** The first byte of a fresh packet is zero. */
  lemma FirstBitZero(m: Mouse)
    ensures !Refresh(m).packet[31]
  {
  }

  lemma ReverseTwice(w: Word)
    ensures Reverse(Reverse(w)) == w
  {
  }

  /** After `n` of the sixteen bits: the word read so far, and the port as it then stands. */
  ghost predicate PartlyPolled(start: Port, data: Word, now: Port, n: nat) {
    && n <= 16
    && now.isMouse == start.isMouse && now.live == start.live && now.latched == start.latched
    && now.shift == n
    && if start.isMouse then
         && (forall k :: 0 <= k < 16 ==> data[k] == (k < n && start.mouse.packet[32 - n + k]))
         && now.mouse == start.mouse.(packet := seq(n, _ => true) + start.mouse.packet[..32 - n])
       else
         && now.mouse == start.mouse
         && forall k :: 0 <= k < 16 ==> data[k] == (k < n && start.latched[n - 1 - k])
  }

  /** A joypad's slot holds its latched word in register order; a mouse's slot holds the top half of its
      packet, and the bottom half stays queued for manual reads. */
  ghost predicate Polled(start: Port, data: Word, now: Port) {
    if start.isMouse then
      data == start.mouse.packet[16..] && now.mouse.packet == seq(16, _ => true) + start.mouse.packet[..16]
    else data == Reverse(start.latched) && now.latched == start.latched
  }

  lemma PollStep(start: Port, data: Word, now: Port, n: nat)
    requires n < 16 && PartlyPolled(start, data, now, n)
    ensures PartlyPolled(start, ShiftIn(data, AutoBit(now).0), AutoBit(now).1, n + 1)
  {
    if start.isMouse {
      var packet := start.mouse.packet;
      assert now.mouse.packet[31] == packet[31 - n];
      assert ShiftIn(now.mouse.packet, true) == seq(n + 1, _ => true) + packet[..31 - n];
    }
  }

  lemma PollDone(start: Port, data: Word, now: Port)
    requires PartlyPolled(start, data, now, 16)
    ensures Polled(start, data, now)
  {
    if start.isMouse {
      assert data == start.mouse.packet[16..];
    } else {
      assert data == Reverse(start.latched);
    }
  }
}
