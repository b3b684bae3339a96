/** The picture unit's memory ports and scroll latches: $2102-$2104, $210D-$2119, $2121, $2122. */
module PpuPorts {
  /** A store and a load that behave like a fixed-size array at any index inside it. */
  function Put(m: seq<int>, k: int, value: int): (r: seq<int>)
    ensures |r| == |m|
  {
    if 0 <= k < |m| then m[k := value] else m
  }

  function At(m: seq<int>, k: int): int {
    if 0 <= k < |m| then m[k] else 0
  }

  /** Memory read as little-endian pairs. */
  function Word(m: seq<int>, w: int): (int, int) {
    (At(m, 2 * w), At(m, 2 * w + 1))
  }

  function PutWord(m: seq<int>, w: int, low: int, high: int): (r: seq<int>)
    ensures |r| == |m|
  {
    Put(Put(m, 2 * w, low), 2 * w + 1, high)
  }

  lemma PairStored(m: seq<int>, w: int, low: int, high: int)
    requires 0 <= w && 2 * w + 1 < |m|
    ensures var r := PutWord(m, w, low, high);
            |r| == |m| && Word(r, w) == (low, high) && forall i: int :: i != w ==> Word(r, i) == Word(m, i)
  {
  }

  datatype Oam = Oam(ram: int, internal: int, buffer: int, rotation: bool, mem: seq<int>)

  datatype Vram = Vram(address: int, increment: int, mapping: int, onHigh: bool, mem: seq<int>)

  datatype Cgram = Cgram(address: int, second: bool, low: int, mem: seq<int>)

  datatype Scroll = Scroll(hv: int, h: int, bgH: seq<int>, bgV: seq<int>)

  datatype Ppu = Ppu(oam: Oam, vram: Vram, cgram: Cgram, scroll: Scroll)

  predicate Sized(p: Ppu) {
    |p.oam.mem| == 544 && |p.vram.mem| == 65536 && |p.cgram.mem| == 512 && |p.scroll.bgH| == 4 && |p.scroll.bgV| == 4
  }

  // ----- one register write -----

  function OamAddress(o: Oam, ram: int): Oam {
    o.(ram := ram, internal := ram * 2)
  }

  /** $2104: the low table takes bytes in pairs, the high table one at a time with 32-byte mirrors. */
  function OamData(o: Oam, value: int): Oam {
    var a := o.internal;
    var next := o.(internal := (a + 1) % 0x400);
    if a < 512 then
      if a % 2 == 0 then next.(buffer := value)
      else next.(mem := Put(Put(o.mem, a - 1, o.buffer), a, value))
    else
      next.(buffer := if a % 2 == 0 then value else o.buffer, mem := Put(o.mem, 0x200 + a % 0x20, value))
  }

  function ScrollH(s: Scroll, layer: int, value: int): Scroll {
    s.(bgH := Put(s.bgH, layer, (value * 256 + s.hv / 8 * 8 + s.h % 8) % 0x400), hv := value, h := value)
  }

  function ScrollV(s: Scroll, layer: int, value: int): Scroll {
    s.(bgV := Put(s.bgV, layer, (value * 256 + s.hv) % 0x400), hv := value)
  }

  function VramControl(v: Vram, value: int): Vram {
    v.(increment := if value % 4 == 0 then 1 else if value % 4 == 1 then 32 else 128,
       mapping := value / 4 % 4, onHigh := value / 128 % 2 == 1)
  }

  /** $2118 (byte 0) and $2119 (byte 1). */
  function VramData(v: Vram, byte: int, value: int): Vram {
    var moves := if byte == 0 then !v.onHigh else v.onHigh;
    v.(mem := Put(v.mem, (v.address * 2 + byte) % 0x10000, value),
       address := if moves then (v.address + v.increment) % 0x10000 else v.address)
  }

  function CgramData(c: Cgram, value: int): Cgram {
    if !c.second then c.(low := value, second := true)
    else c.(mem := Put(Put(c.mem, c.address * 2, c.low), c.address * 2 + 1, value % 0x80),
            address := (c.address + 1) % 0x100, second := false)
  }

  predicate Refused(p: Ppu, local: int) {
    (local == 0x2118 || local == 0x2119) && p.vram.mapping != 0
  }

  function WriteOam(o: Oam, local: int, value: int): Oam {
    if local == 0x2102 then OamAddress(o, o.ram / 0x100 % 2 * 0x100 + value)
    else if local == 0x2103 then OamAddress(o, o.ram % 0x100 + value % 2 * 0x100).(rotation := value / 128 % 2 == 1)
    else if local == 0x2104 then OamData(o, value)
    else o
  }

  function WriteScroll(s: Scroll, local: int, value: int): Scroll {
    if local < 0x210D || local > 0x2114 then s
    else if local % 2 == 1 then ScrollH(s, (local - 0x210D) / 2, value)
    else ScrollV(s, (local - 0x210E) / 2, value)
  }

  function WriteVram(v: Vram, local: int, value: int): Vram {
    if local == 0x2115 then VramControl(v, value)
    else if local == 0x2116 then v.(address := v.address / 0x100 * 0x100 + value)
    else if local == 0x2117 then v.(address := v.address % 0x100 + value * 0x100)
    else if local == 0x2118 || local == 0x2119 then VramData(v, local - 0x2118, value)
    else v
  }

  function WriteCgram(c: Cgram, local: int, value: int): Cgram {
    if local == 0x2121 then c.(address := value, second := false)
    else if local == 0x2122 then CgramData(c, value)
    else c
  }

  /** A write to $2100-$2133 that is not refused. */
  function Write(p: Ppu, local: int, value: int): Ppu {
    Ppu(WriteOam(p.oam, local, value), WriteVram(p.vram, local, value), WriteCgram(p.cgram, local, value),
        WriteScroll(p.scroll, local, value))
  }

  lemma ScrollSized(s: Scroll, value: int)
    ensures |ScrollH(s, 0, value).bgH| == |s.bgH|
  {
  }

  lemma WriteSized(p: Ppu, local: int, value: int)
    ensures |Write(p, local, value).scroll.bgH| == |p.scroll.bgH|
  {
    hide WriteOam, WriteVram, WriteCgram;
  }

  // ----- runs of data writes: the port after the first `n` bytes of a stream -----

  function FillOam(o: Oam, bytes: seq<int>, n: nat): Oam
    requires n <= |bytes|
  {
    if n == 0 then o else OamData(FillOam(o, bytes, n - 1), bytes[n - 1])
  }

  function FillCgram(c: Cgram, bytes: seq<int>, n: nat): Cgram
    requires n <= |bytes|
  {
    if n == 0 then c else CgramData(FillCgram(c, bytes, n - 1), bytes[n - 1])
  }

  /** The bytes go to $2118 and $2119 in turn. */
  function FillVram(v: Vram, bytes: seq<int>, n: nat): Vram
    requires n <= |bytes|
  {
    if n == 0 then v else VramData(FillVram(v, bytes, n - 1), (n - 1) % 2, bytes[n - 1])
  }

  lemma {:induction false} OamCursor(o: Oam, bytes: seq<int>, n: nat)
    requires o.internal == 0 && |o.mem| == 544 && n <= |bytes| && n <= 544
    ensures var f := FillOam(o, bytes, n);
            f.internal == n && |f.mem| == 544 && (n % 2 == 1 ==> f.buffer == bytes[n - 1])
  {
    hide Put;
    if n > 0 {
      OamCursor(o, bytes, n - 1);
    }
  }

  lemma OamDataAt(o: Oam, value: int, k: int)
    requires 0 <= o.internal < 544 && |o.mem| == 544
    ensures var a := o.internal;
            var m := At(o.mem, k);
            At(OamData(o, value).mem, k)
            == if k == a && (a >= 512 || a % 2 == 1) then value
               else if k == a - 1 && a < 512 && a % 2 == 1 then o.buffer else m
  {
  }

  lemma {:induction false} OamByte(o: Oam, bytes: seq<int>, n: nat, k: nat)
    requires o.internal == 0 && |o.mem| == 544 && n <= |bytes| && n <= 544
    requires k < (if n < 512 then n / 2 * 2 else n)
    ensures At(FillOam(o, bytes, n).mem, k) == bytes[k]
  {
    hide OamData, Put, At;
    OamCursor(o, bytes, n - 1);
    OamDataAt(FillOam(o, bytes, n - 1), bytes[n - 1], k);
    if k < (if n - 1 < 512 then (n - 1) / 2 * 2 else n - 1) {
      OamByte(o, bytes, n - 1, k);
    }
  }

  /** A full table written from address zero is the source, byte for byte. */
  lemma OamUpload(o: Oam, bytes: seq<int>)
    requires o.internal == 0 && |o.mem| == 544 && |bytes| == 544
    ensures FillOam(o, bytes, 544).mem == bytes
  {
    OamCursor(o, bytes, 544);
    var mem := FillOam(o, bytes, 544).mem;
    forall k | 0 <= k < 544
      ensures mem[k] == bytes[k]
    {
      OamByte(o, bytes, 544, k);
      assert At(mem, k) == mem[k];
    }
  }

  /** The palette entry the j-th word goes to. */
  function Entry(c: Cgram, j: int): int {
    (c.address + j) % 0x100
  }

  lemma EntriesDiffer(a: int, i: int, j: int)
    requires 0 <= i < j < i + 0x100
    ensures (a + i) % 0x100 != (a + j) % 0x100
  {
  }

  lemma CgramPair(c: Cgram, bytes: seq<int>, n: nat)
    requires n + 2 <= |bytes| && !FillCgram(c, bytes, n).second
    ensures var f := FillCgram(c, bytes, n);
            FillCgram(c, bytes, n + 2)
            == Cgram((f.address + 1) % 0x100, false, bytes[n],
                     PutWord(f.mem, f.address, bytes[n], bytes[n + 1] % 0x80))
  {
    hide Put;
    var half := CgramData(FillCgram(c, bytes, n), bytes[n]);
    assert FillCgram(c, bytes, n + 1) == half;
    assert FillCgram(c, bytes, n + 2) == CgramData(half, bytes[n + 1]);
  }

  lemma {:induction false} CgramCursor(c: Cgram, bytes: seq<int>, k: nat)
    requires !c.second && 0 <= c.address < 0x100 && |c.mem| == 512 && 2 * k <= |bytes|
    ensures var f := FillCgram(c, bytes, 2 * k); !f.second && f.address == Entry(c, k) && |f.mem| == 512
  {
    hide CgramData, PutWord;
    if k > 0 {
      CgramCursor(c, bytes, k - 1);
      CgramPair(c, bytes, 2 * (k - 1));
    }
  }

  lemma {:induction false} CgramWord(c: Cgram, bytes: seq<int>, k: nat, j: nat)
    requires !c.second && 0 <= c.address < 0x100 && |c.mem| == 512 && 2 * k <= |bytes| && j < k <= 0x100
    ensures Word(FillCgram(c, bytes, 2 * k).mem, Entry(c, j)) == (bytes[2 * j], bytes[2 * j + 1] % 0x80)
  {
    hide FillCgram, CgramData, Word, PutWord;
    var n := 2 * (k - 1);
    CgramCursor(c, bytes, k - 1);
    CgramPair(c, bytes, n);
    PairStored(FillCgram(c, bytes, n).mem, Entry(c, k - 1), bytes[n], bytes[n + 1] % 0x80);
    if j < k - 1 {
      CgramWord(c, bytes, k - 1, j);
      EntriesDiffer(c.address, j, k - 1);
    }
  }

  function WordOf(v: Vram, j: int): int {
    (v.address + j) % 0x8000
  }

  lemma WordsDiffer(a: int, i: int, j: int)
    requires 0 <= i < j < i + 0x8000
    ensures (a + i) % 0x8000 != (a + j) % 0x8000
  {
  }

  lemma Physical(address: int, byte: int)
    requires 0 <= byte < 2
    ensures (address * 2 + byte) % 0x10000 == 2 * (address % 0x8000) + byte
  {
  }

  lemma VramPair(v: Vram, bytes: seq<int>, k: nat)
    requires 2 * k + 2 <= |bytes| && FillVram(v, bytes, 2 * k).onHigh
    ensures var f := FillVram(v, bytes, 2 * k);
            FillVram(v, bytes, 2 * (k + 1))
            == f.(mem := PutWord(f.mem, f.address % 0x8000, bytes[2 * k], bytes[2 * k + 1]),
                  address := (f.address + f.increment) % 0x10000)
  {
    hide Put;
    var f := FillVram(v, bytes, 2 * k);
    Physical(f.address, 0);
    Physical(f.address, 1);
    assert FillVram(v, bytes, 2 * k + 1) == VramData(f, 0, bytes[2 * k]);
    assert FillVram(v, bytes, 2 * k + 2) == VramData(VramData(f, 0, bytes[2 * k]), 1, bytes[2 * k + 1]);
  }

  lemma NextWord(a: int, j: int)
    ensures ((a + j) % 0x10000) % 0x8000 == (a + j) % 0x8000
    ensures ((a + j) % 0x10000 + 1) % 0x10000 == (a + (j + 1)) % 0x10000
  {
    WrapHalf(a + j);
    WrapStep(a + j);
    assert a + (j + 1) == a + j + 1;
  }

  lemma WrapHalf(x: int)
    ensures (x % 0x10000) % 0x8000 == x % 0x8000
  {
    assert x == 0x8000 * (2 * (x / 0x10000)) + x % 0x10000;
  }

  lemma WrapStep(x: int)
    ensures (x % 0x10000 + 1) % 0x10000 == (x + 1) % 0x10000
  {
    var q, r := x / 0x10000, x % 0x10000;
    if r == 0xFFFF {
      assert x + 1 == 0x10000 * (q + 1);
    } else {
      assert x + 1 == 0x10000 * q + (r + 1);
    }
  }

  lemma {:induction false} VramCursor(v: Vram, bytes: seq<int>, k: nat)
    requires v.onHigh && v.increment == 1 && 0 <= v.address < 0x10000 && |v.mem| == 65536 && 2 * k <= |bytes|
    ensures var f := FillVram(v, bytes, 2 * k);
            f.onHigh && f.increment == 1 && f.address == (v.address + k) % 0x10000 && |f.mem| == 65536
  {
    hide VramData, Put, PutWord;
    if k > 0 {
      VramCursor(v, bytes, k - 1);
      VramPair(v, bytes, k - 1);
      NextWord(v.address, k - 1);
    }
  }

  /** With VMAIN $80, words written to $2118/$2119 fill consecutive words of video memory, wrapping at 64 KiB. */
  lemma {:induction false} VramWord(v: Vram, bytes: seq<int>, k: nat, j: nat)
    requires v.onHigh && v.increment == 1 && 0 <= v.address < 0x10000 && |v.mem| == 65536
    requires 2 * k <= |bytes| && j < k <= 0x8000
    ensures Word(FillVram(v, bytes, 2 * k).mem, WordOf(v, j)) == (bytes[2 * j], bytes[2 * j + 1])
  {
    hide FillVram, VramData, Word, PutWord;
    var n := 2 * (k - 1);
    VramCursor(v, bytes, k - 1);
    VramPair(v, bytes, k - 1);
    NextWord(v.address, k - 1);
    PairStored(FillVram(v, bytes, n).mem, WordOf(v, k - 1), bytes[n], bytes[n + 1]);
    if j < k - 1 {
      VramWord(v, bytes, k - 1, j);
      WordsDiffer(v.address, j, k - 1);
    }
  }

  /** Two writes to a horizontal scroll register leave exactly the word written, modulo 1024. */
  lemma ScrollWord(s: Scroll, low: int, high: int)
    requires |s.bgH| == 4 && 0 <= low < 0x100 && 0 <= high < 0x100
    ensures ScrollH(ScrollH(s, 0, low), 0, high).bgH == s.bgH[0 := (high * 256 + low) % 0x400]
  {
    assert low / 8 * 8 + low % 8 == low;
  }

  // ----- the chip -----

  class Chip {
    var oamRam: int
    var oamInternal: int
    var oamBuffer: int
    var oamRotation: bool
    var oam: seq<int>
    var vramAddress: int
    var vramIncrement: int
    var vramMapping: int
    var vramOnHigh: bool
    var vram: seq<int>
    var cgramAddress: int
    var cgramSecond: bool
    var cgramLow: int
    var cgram: seq<int>
    var hvLatch: int
    var hLatch: int
    var bgH: seq<int>
    var bgV: seq<int>

    ghost function Value(): Ppu
      reads this
    {
      Ppu(Oam(oamRam, oamInternal, oamBuffer, oamRotation, oam),
          Vram(vramAddress, vramIncrement, vramMapping, vramOnHigh, vram),
          Cgram(cgramAddress, cgramSecond, cgramLow, cgram),
          Scroll(hvLatch, hLatch, bgH, bgV))
    }

    constructor Reset()
      ensures Valid()
      ensures Value() == Ppu(Oam(0, 0, 0, false, seq(544, _ => 0)), Vram(0, 0, 0, false, seq(65536, _ => 0)),
                             Cgram(0, false, 0, seq(512, _ => 0)), Scroll(0, 0, seq(4, _ => 0), seq(4, _ => 0)))
    {
      oamRam, oamInternal, oamBuffer, oamRotation, oam := 0, 0, 0, false, seq(544, _ => 0);
      vramAddress, vramIncrement, vramMapping, vramOnHigh, vram := 0, 0, 0, false, seq(65536, _ => 0);
      cgramAddress, cgramSecond, cgramLow, cgram := 0, false, 0, seq(512, _ => 0);
      hvLatch, hLatch, bgH, bgV := 0, 0, seq(4, _ => 0), seq(4, _ => 0);
    }

    method WriteOamData(value: int)
      requires Sized(Value()) && 0 <= oamInternal < 0x400
      modifies this`oamBuffer, this`oam, this`oamInternal
      ensures Value() == old(Value()).(oam := OamData(old(Value()).oam, value))
    {
      var a := oamInternal;
      if a < 512 {
        if a % 2 == 0 {
          oamBuffer := value;
        } else {
          oam := oam[a - 1 := oamBuffer];
          oam := oam[a := value];
        }
      } else {
        if a % 2 == 0 { oamBuffer := value; }
        oam := oam[0x200 + a % 0x20 := value];
      }
      oamInternal := (a + 1) % 0x400;
    }

    method WriteScrollRegister(local: int, value: int)
      requires Sized(Value()) && 0x210D <= local <= 0x2114
      modifies this`bgH, this`bgV, this`hvLatch, this`hLatch
      ensures Value() == old(Value()).(scroll := WriteScroll(old(Value()).scroll, local, value))
    {
      if local % 2 == 1 {
        bgH := bgH[(local - 0x210D) / 2 := (value * 256 + hvLatch / 8 * 8 + hLatch % 8) % 0x400];
        hvLatch, hLatch := value, value;
      } else {
        bgV := bgV[(local - 0x210E) / 2 := (value * 256 + hvLatch) % 0x400];
        hvLatch := value;
      }
    }

    method WriteVramData(byte: int, value: int)
      requires Sized(Value()) && 0 <= byte < 2
      modifies this`vram, this`vramAddress
      ensures Value() == old(Value()).(vram := VramData(old(Value()).vram, byte, value))
    {
      vram := vram[(vramAddress * 2 + byte) % 0x10000 := value];
      if (byte == 0 && !vramOnHigh) || (byte == 1 && vramOnHigh) {
        vramAddress := (vramAddress + vramIncrement) % 0x10000;
      }
    }

    method WriteCgramData(value: int)
      requires Sized(Value()) && 0 <= cgramAddress < 0x100
      modifies this`cgram, this`cgramAddress, this`cgramSecond, this`cgramLow
      ensures Value() == old(Value()).(cgram := CgramData(old(Value()).cgram, value))
    {
      if !cgramSecond {
        cgramLow, cgramSecond := value, true;
      } else {
        cgram := cgram[cgramAddress * 2 := cgramLow];
        cgram := cgram[cgramAddress * 2 + 1 := value % 0x80];
        cgramAddress, cgramSecond := (cgramAddress + 1) % 0x100, false;
      }
    }

    ghost predicate Valid()
      reads this
    {
      Sized(Value()) && 0 <= oamInternal < 0x400 && 0 <= cgramAddress < 0x100
    }

    method SetOamAddress(ram: int)
      modifies this`oamRam, this`oamInternal
      ensures Value() == old(Value()).(oam := OamAddress(old(Value()).oam, ram))
    {
      oamRam := ram;
      oamInternal := ram * 2;
    }

    method WriteOamRegister(local: int, value: int)
      requires Valid() && 0x2102 <= local <= 0x2104 && 0 <= value < 0x100
      modifies this`oamRam, this`oamInternal, this`oamRotation, this`oamBuffer, this`oam
      ensures Valid() && Value() == old(Value()).(oam := WriteOam(old(Value()).oam, local, value))
    {
      if local == 0x2102 {
        SetOamAddress(oamRam / 0x100 % 2 * 0x100 + value);
      } else if local == 0x2103 {
        SetOamAddress(oamRam % 0x100 + value % 2 * 0x100);
        oamRotation := value / 128 % 2 == 1;
      } else {
        WriteOamData(value);
      }
    }

    method WriteVramRegister(local: int, value: int)
      requires Valid() && 0x2115 <= local <= 0x2119
      modifies this`vramIncrement, this`vramMapping, this`vramOnHigh, this`vramAddress, this`vram
      ensures Valid() && Value() == old(Value()).(vram := WriteVram(old(Value()).vram, local, value))
    {
      if local == 0x2115 {
        vramIncrement := if value % 4 == 0 then 1 else if value % 4 == 1 then 32 else 128;
        vramMapping, vramOnHigh := value / 4 % 4, value / 128 % 2 == 1;
      } else if local == 0x2116 {
        vramAddress := vramAddress / 0x100 * 0x100 + value;
      } else if local == 0x2117 {
        vramAddress := vramAddress % 0x100 + value * 0x100;
      } else {
        WriteVramData(local - 0x2118, value);
      }
    }

    method WriteCgramRegister(local: int, value: int)
      requires Valid() && 0x2121 <= local <= 0x2122 && 0 <= value < 0x100
      modifies this`cgramAddress, this`cgramSecond, this`cgramLow, this`cgram
      ensures Valid() && Value() == old(Value()).(cgram := WriteCgram(old(Value()).cgram, local, value))
    {
      if local == 0x2121 {
        cgramAddress, cgramSecond := value, false;
      } else {
        WriteCgramData(value);
      }
    }

    /** A write to $2100-$2133; false is the failure of a video-memory write under address remapping. */
    method WriteRegister(local: int, value: int) returns (ok: bool)
      requires Valid() && 0x2100 <= local <= 0x2133 && 0 <= value < 0x100
      modifies this
      ensures Valid() && ok == !Refused(old(Value()), local)
      ensures Value() == if ok then Write(old(Value()), local, value) else old(Value())
    {
      ok := true;
      if 0x2102 <= local <= 0x2104 {
        WriteOamRegister(local, value);
      } else if 0x210D <= local <= 0x2114 {
        WriteScrollRegister(local, value);
      } else if 0x2115 <= local <= 0x2119 {
        if local >= 0x2118 && vramMapping != 0 { return false; }
        WriteVramRegister(local, value);
      } else if 0x2121 <= local <= 0x2122 {
        WriteCgramRegister(local, value);
      }
    }
  }
}
