/** The header checksum over a mirrored image, and the HiROM bank map in its C and Python forms. */
module RomChecksum {
  import opened Options
  import opened RomMapping

  function Sum(s: seq<int>): int {
    if s == [] then 0 else Sum(s[..|s| - 1]) + s[|s| - 1]
  }

  /** The bytes read through an address map at the addresses below `n`, added up. */
  function MappedSum(data: seq<int>, at: int -> int, n: nat): int
    requires forall a :: 0 <= at(a) < |data|
  {
    if n == 0 then 0 else MappedSum(data, at, n - 1) + data[at(n - 1)]
  }

  function MirrorMap(size: nat): (at: int -> int)
    requires size > 0
    ensures forall a :: 0 <= at(a) < size
  {
    (a: int) => if a < 0 then 0 else MirrorOf(a, size)
  }

  /** The bytes the bus shows at the addresses below `n`, added up. */
  function BusSum(data: seq<int>, n: nat): int
    requires data != []
  {
    MappedSum(data, MirrorMap(|data|), n)
  }

  /** The total the script folds to sixteen bits. */
  function ScriptTotal(data: seq<int>): int
    requires data != []
  {
    var power := TopPower(|data|);
    if power == |data| then Sum(data)
    else Sum(data[..power]) + (power / (|data| - power)) * Sum(data[power..])
  }

  function MirroredChecksum(data: seq<int>): int
    requires data != []
  {
    ScriptTotal(data) % 0x10000
  }

  /** The address space the image is mirrored into: the image itself, or the next power of two. */
  function BusSize(size: nat): nat
    requires size > 0
  {
    if TopPower(size) == size then size else 2 * TopPower(size)
  }

  /** The part above the power of two fits a whole number of times below it. */
  predicate TailDivides(size: nat)
    requires size > 0
  {
    var power := TopPower(size);
    power == size || power % (size - power) == 0
  }

  // ----- sums -----

  lemma {:induction false} MappedImage(data: seq<int>, at: int -> int, n: nat)
    requires n <= |data|
    requires forall a :: 0 <= at(a) < |data|
    requires forall a: nat :: a < n ==> at(a) == a
    ensures MappedSum(data, at, n) == Sum(data[..n])
  {
    if n > 0 {
      MappedImage(data, at, n - 1);
      assert data[..n][..n - 1] == data[..n - 1];
    }
  }

  lemma BusSumImage(data: seq<int>, n: nat)
    requires data != [] && n <= |data|
    ensures BusSum(data, n) == Sum(data[..n])
  {
    var at := MirrorMap(|data|);
    forall a: nat | a < n ensures at(a) == a {
    }
    MappedImage(data, at, n);
  }

  /** From `base` on, the map shows the image above `offset` as `inner` does from zero. */
  lemma {:induction false} MappedShift(data: seq<int>, at: int -> int, base: nat,
                                       offset: nat, inner: int -> int, n: nat)
    requires offset <= |data|
    requires forall a :: 0 <= at(a) < |data|
    requires forall a :: 0 <= inner(a) < |data| - offset
    requires forall a: nat :: a < n ==> at(base + a) == offset + inner(a)
    ensures MappedSum(data, at, base + n) == MappedSum(data, at, base) + MappedSum(data[offset..], inner, n)
  {
    if n > 0 {
      MappedShift(data, at, base, offset, inner, n - 1);
      assert at(base + (n - 1)) == offset + inner(n - 1);
    }
  }

  /** A divisor of a power of two is a power of two. */
  lemma {:induction false} DivisorIsPow2(d: nat, q: nat, k: nat) returns (j: nat)
    requires d * q == Pow2(k)
    ensures j <= k && d == Pow2(j)
    decreases k, q
  {
    j := 0;
    if d != 1 {
      if k == 0 {
        MulGrows(d, q);
        assert false;
      } else if d % 2 == 0 {
        HalfProduct(d / 2, q, d, d * q);
        var i := DivisorIsPow2(d / 2, q, k - 1);
        j := i + 1;
      } else {
        assert d * q == 2 * Pow2(k - 1);
        OddTimesOdd(d, q);
        HalfProduct(q / 2, d, q, d * q);
        j := DivisorIsPow2(d, q / 2, k - 1);
      }
    }
  }

  lemma HalfProduct(half: nat, other: nat, whole: nat, product: nat)
    requires whole == 2 * half && product == whole * other
    ensures product == 2 * (half * other) && product == 2 * (other * half)
  {
  }

  lemma MulGrows(d: nat, q: nat)
    requires d >= 2 && q >= 1
    ensures d * q >= 2
  {
  }

  lemma OddTimesOdd(d: nat, q: nat)
    requires d % 2 == 1 && (d * q) % 2 == 0
    ensures q % 2 == 0
  {
    assert d * q == 2 * (d / 2 * q) + q;
  }

  lemma TailMap(k: nat, rest: nat)
    requires rest > 0
    ensures forall a: nat :: a < Pow2(k) ==> MirrorMap(Pow2(k) + rest)(Pow2(k) + a) == Pow2(k) + MirrorMap(rest)(a)
  {
    hide MirrorOf, Pow2;
    forall a: nat | a < Pow2(k)
      ensures MirrorMap(Pow2(k) + rest)(Pow2(k) + a) == Pow2(k) + MirrorMap(rest)(a)
    {
      MirrorTail(Pow2(k) + a, k, rest);
    }
  }

  /** Above the power of two the bus total is the total of the tail as an image of its own. */
  lemma TailSum(data: seq<int>, k: nat, rest: nat)
    requires rest > 0 && |data| == Pow2(k) + rest
    ensures BusSum(data, Pow2(k) + Pow2(k)) == Sum(data[..Pow2(k)]) + BusSum(data[Pow2(k)..], Pow2(k))
  {
    hide MirrorOf, Pow2, MirrorMap, Sum;
    TailMap(k, rest);
    MappedShift(data, MirrorMap(|data|), Pow2(k), Pow2(k), MirrorMap(rest), Pow2(k));
    BusSumImage(data, Pow2(k));
  }

  lemma {:induction false} RepeatFrom(data: seq<int>, k: nat, n: nat)
    requires 0 < |data| <= Pow2(k) && n <= Pow2(k)
    ensures BusSum(data, Pow2(k) + n) == BusSum(data, Pow2(k)) + BusSum(data, n)
  {
    hide MirrorOf, Pow2;
    if n > 0 {
      RepeatFrom(data, k, n - 1);
      MirrorAgain(Pow2(k) + n - 1, k, |data|);
    }
  }

  /** An image repeats with every power of two that covers it. */
  lemma RepeatSum(data: seq<int>, k: nat)
    requires 0 < |data| <= Pow2(k)
    ensures BusSum(data, Pow2(k) + Pow2(k)) == 2 * BusSum(data, Pow2(k))
  {
    RepeatFrom(data, k, Pow2(k));
  }

  function Doubled(x: int, i: nat): int {
    if i == 0 then x else 2 * Doubled(x, i - 1)
  }

  lemma {:induction false} DoubledIsProduct(x: int, i: nat)
    ensures Doubled(x, i) == Pow2(i) * x
  {
    if i > 0 {
      DoubledIsProduct(x, i - 1);
      assert Pow2(i) * x == 2 * (Pow2(i - 1) * x);
    }
  }

  lemma {:induction false} DoubledSum(data: seq<int>, j: nat, i: nat)
    requires |data| == Pow2(j)
    ensures BusSum(data, Pow2(j + i)) == Doubled(Sum(data), i)
  {
    if i == 0 {
      BusSumImage(data, |data|);
      assert data[..|data|] == data;
    } else {
      DoubledSum(data, j, i - 1);
      Pow2Monotone(j, j + i - 1);
      RepeatSum(data, j + i - 1);
    }
  }

  lemma ExactQuotient(k: nat, rest: nat) returns (j: nat)
    requires rest > 0 && Pow2(k) % rest == 0
    ensures j <= k && rest == Pow2(j) && Pow2(k) / rest == Pow2(k - j)
  {
    var q := Pow2(k) / rest;
    assert rest * q == Pow2(k);
    j := DivisorIsPow2(rest, q, k);
    Pow2Adds(k - j, j);
    DivUnique(Pow2(k), rest, Pow2(k - j), 0);
  }

  /** When the tail divides the power, the script's total is the sum of every byte the bus shows. */
  lemma TotalIsBusSum(data: seq<int>)
    requires data != [] && TailDivides(|data|)
    ensures ScriptTotal(data) == BusSum(data, BusSize(|data|))
  {
    if TopPower(|data|) == |data| {
      BusSumImage(data, |data|);
      assert data[..|data|] == data;
    } else {
      var k := TopPowerExponent(|data|);
      var rest := |data| - Pow2(k);
      var j := ExactQuotient(k, rest);
      TailSum(data, k, rest);
      DoubledSum(data[Pow2(k)..], j, k - j);
      DoubledIsProduct(Sum(data[Pow2(k)..]), k - j);
    }
  }

  function Ones(n: nat): seq<int> {
    seq(n, _ => 1)
  }

  lemma {:induction false} SumOnes(n: nat)
    ensures Sum(Ones(n)) == n
  {
    if n > 0 {
      SumOnes(n - 1);
      assert Ones(n)[..n - 1] == Ones(n - 1);
    }
  }

  lemma {:induction false} MappedOnes(size: nat, at: int -> int, n: nat)
    requires forall a :: 0 <= at(a) < size
    ensures MappedSum(Ones(size), at, n) == n
  {
    if n > 0 { MappedOnes(size, at, n - 1); }
  }

  lemma OnesDiffer(size: nat)
    requires size > 0 && !TailDivides(size)
    ensures |Ones(size)| == size && ScriptTotal(Ones(size)) < BusSum(Ones(size), BusSize(size))
  {
    var power := TopPower(size);
    var rest := size - power;
    MappedOnes(size, MirrorMap(size), BusSize(size));
    SumOnes(power);
    SumOnes(rest);
    assert Ones(size)[..power] == Ones(power) && Ones(size)[power..] == Ones(rest);
    DivModLaw(power, rest);
  }

  lemma DivModLaw(x: nat, m: nat)
    requires m > 0
    ensures x == x / m * m + x % m
  {
  }

  /** The script's total agrees with the mirrored bus for every image of a size exactly when the tail
      divides the power: a tail that is itself mirrored (3 bytes above 4, say) is not counted right. */
  lemma ChecksumExact(size: nat)
    requires size > 0
    ensures TailDivides(size)
            <==> forall data: seq<int> :: |data| == size ==> ScriptTotal(data) == BusSum(data, BusSize(size))
  {
    if TailDivides(size) {
      forall data: seq<int> | |data| == size ensures ScriptTotal(data) == BusSum(data, BusSize(size)) {
        TotalIsBusSum(data);
      }
    } else {
      OnesDiffer(size);
    }
  }

  lemma ChecksumOfMirror(data: seq<int>)
    requires data != [] && TailDivides(|data|)
    ensures MirroredChecksum(data) == BusSum(data, BusSize(|data|)) % 0x10000
  {
    TotalIsBusSum(data);
  }

  // ----- the HiROM bank map -----

  /** The banks that show the I/O page and the upper halves of the image. */
  predicate LowBank(bank: int) {
    bank <= 0x3F || 0x80 <= bank <= 0xBF
  }

  /** The linear address of the Python map. */
  function CpuToLinear(bank: nat, address: nat): Option<nat>
    requires bank < 0x100 && address < 0x10000
  {
    if bank == 0x7E || bank == 0x7F then None
    else if LowBank(bank) then
      if address < 0x8000 then None else Some((bank % 0x40) * 0x10000 + address)
    else if 0x40 <= bank <= 0x7D || bank >= 0xC0 then Some((bank % 0x40) * 0x10000 + address)
    else None
  }

  /** The C map: fails, or gives the offset in the exact image. */
  method HiRomOffset(bank: nat, address: nat) returns (offset: Option<nat>)
    requires bank < 0x100 && address < 0x10000
    ensures offset == match CpuToLinear(bank, address)
                      case None => None
                      case Some(linear) => Some(MirrorOf(linear, ROM_SIZE))
    ensures offset.Some? <==> bank != 0x7E && bank != 0x7F && (address >= 0x8000 || bank % 0x80 >= 0x40)
    ensures offset.Some? ==> offset.value == MirrorOf(bank % 0x40 * 0x10000 + address, ROM_SIZE) < ROM_SIZE
  {
    var linear: nat;
    if bank == 0x7E || bank == 0x7F { return None; }
    if LowBank(bank) {
      if address < 0x8000 { return None; }
      linear := (bank % 0x40) * 0x10000 + address;
    } else {
      linear := (bank % 0x40) * 0x10000 + address;
    }
    var at := MirrorAddress(linear, ROM_SIZE);
    offset := Some(at);
  }

  function SramOffset(bank: nat, address: nat): Option<nat>
    requires bank < 0x100 && address < 0x10000
  {
    if !(0x20 <= bank <= 0x3F || 0xA0 <= bank <= 0xBF) then None
    else if address < 0x6000 || address > 0x7FFF then None
    else Some((bank % 4) * 0x2000 + address % 0x2000)
  }

  /** Every save-RAM byte has exactly one address in each group of four banks, and never a ROM one. */
  lemma SramAperture(group: nat, offset: nat)
    requires (0x08 <= group <= 0x0F || 0x28 <= group <= 0x2F) && offset < SRAM_SIZE
    ensures SramOffset(4 * group + offset / 0x2000, 0x6000 + offset % 0x2000) == Some(offset)
    ensures forall bank, address | bank / 4 == group && 0 <= address < 0x10000 ::
              SramOffset(bank, address) == Some(offset)
              ==> bank == 4 * group + offset / 0x2000 && address == 0x6000 + offset % 0x2000
    ensures CpuToLinear(4 * group + offset / 0x2000, 0x6000 + offset % 0x2000) == None
  {
  }
}
