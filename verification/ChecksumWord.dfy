/** The header checksum itself: the script's total and the bus total modulo 65536. */
module ChecksumWord {
  import opened RomMapping
  import opened RomChecksum

  predicate Bytes(data: seq<int>) {
    forall i :: 0 <= i < |data| ==> 0 <= data[i] < 0x100
  }

  /** Both totals lose the tail in the modulus: the script's factor and the bus's repetitions are multiples
      of 65536. */
  predicate WrapsAway(size: nat)
    requires size > 0
  {
    var power := TopPower(size);
    power < size && power >= 0x20000 * TopPower(size - power) && power / (size - power) % 0x10000 == 0
  }

  ghost predicate ChecksumAgrees(size: nat)
    requires size > 0
  {
    forall data: seq<int> :: |data| == size && Bytes(data)
                             ==> MirroredChecksum(data) == BusSum(data, BusSize(size)) % 0x10000
  }

  // ----- the bus total of a tail -----

  /** An image below one power of two is shown a power of two of times below a larger one. */
  lemma {:induction false} DoubledBus(data: seq<int>, j: nat, i: nat)
    requires 0 < |data| <= Pow2(j)
    ensures BusSum(data, Pow2(j + i)) == Pow2(i) * BusSum(data, Pow2(j))
  {
    hide BusSum;
    if i > 0 {
      DoubledBus(data, j, i - 1);
      Pow2Monotone(j, j + i - 1);
      RepeatSum(data, j + i - 1);
      assert Pow2(j + i) == Pow2(j + i - 1) + Pow2(j + i - 1);
      Twice(Pow2(i - 1), BusSum(data, Pow2(j)));
    }
  }

  lemma Twice(x: int, y: int)
    ensures 2 * (x * y) == (2 * x) * y
  {
  }

  /** One byte of one among zeros. */
  function Unit(n: nat, at: nat): (u: seq<int>)
    ensures |u| == n
  {
    seq(n, i => if i == at then 1 else 0)
  }

  lemma {:induction false} SumUnit(n: nat, at: nat)
    ensures Sum(Unit(n, at)) == if at < n then 1 else 0
  {
    if n > 0 {
      SumUnit(n - 1, at);
      assert Unit(n, at)[..n - 1] == Unit(n - 1, at);
    }
  }

  lemma {:induction false} MappedZeros(size: nat, far: nat, at: int -> int, n: nat)
    requires size <= far && forall a :: 0 <= at(a) < size
    ensures MappedSum(Unit(size, far), at, n) == 0
  {
    if n > 0 { MappedZeros(size, far, at, n - 1); }
  }

  /** The first byte of an image of no power of two is shown once in each mirror. */
  lemma FirstByte(r: nat, j: nat)
    requires Pow2(j) < r < 2 * Pow2(j)
    ensures BusSum(Unit(r, 0), Pow2(j + 1)) == 1
  {
    hide MirrorMap, Sum;
    var p := Pow2(j);
    var u := Unit(r, 0);
    TailSum(u, j, r - p);
    assert u[..p] == Unit(p, 0) && u[p..] == Unit(r - p, r);
    SumUnit(p, 0);
    MappedZeros(r - p, r, MirrorMap(r - p), p);
  }

  /** The last byte of any image is shown a power of two of times, at least once for each mirror of the largest
      power of two in the image. */
  lemma {:induction false} LastByte(r: nat, j: nat, k: nat) returns (e: nat)
    requires Pow2(j) <= r < 2 * Pow2(j) && r <= Pow2(k)
    ensures j <= k <= j + e && BusSum(Unit(r, r - 1), Pow2(k)) == Pow2(e)
    decreases r
  {
    hide BusSum, MirrorMap, Sum;
    var u := Unit(r, r - 1);
    ExponentAbove(j, k, r);
    if r == Pow2(j) {
      BusSumImage(u, r);
      assert u[..r] == u;
      SumUnit(r, r - 1);
      DoubledBus(u, j, k - j);
      e := k - j;
    } else {
      StrictlyAbove(j, k, r);
      var p := Pow2(j);
      var i := TopPowerExponent(r - p);
      var rest := LastByte(r - p, i, j);
      StrictlyAbove(i, j, r - p);
      TailSum(u, j, r - p);
      assert u[..p] == Unit(p, r) && u[p..] == Unit(r - p, r - p - 1);
      SumUnit(p, r);
      DoubledBus(u, j + 1, k - j - 1);
      Pow2Adds(k - j - 1, rest);
      e := k - j - 1 + rest;
    }
  }

  lemma StrictlyAbove(j: nat, k: nat, r: nat)
    requires Pow2(j) <= r <= Pow2(k) && (r < Pow2(k) || Pow2(j) < r)
    ensures j < k
  {
    if k <= j {
      Pow2Monotone(k, j);
      assert false;
    }
  }

  // ----- powers of two modulo 65536 -----

  lemma WordIsPow2()
    ensures Pow2(16) == 0x10000 && Pow2(17) == 0x20000
  {
    assert Pow2(4) == 16;
    Pow2Adds(4, 4);
    Pow2Adds(8, 8);
  }

  lemma HighPower(a: nat, x: int)
    requires a >= 16
    ensures (Pow2(a) * x) % 0x10000 == 0
  {
    WordIsPow2();
    Pow2Adds(16, a - 16);
    MultipleIsZero(0x10000, Pow2(a - 16), x);
  }

  lemma MultipleIsZero(m: nat, y: int, x: int)
    requires m > 0
    ensures (m * y * x) % m == 0
  {
    assert m * y * x == (y * x) * m + 0;
    DivUnique(m * y * x, m, y * x, 0);
  }

  lemma SameWord(x: int, y: int) returns (q: int)
    requires x % 0x10000 == y % 0x10000
    ensures y - x == q * 0x10000
  {
    q := y / 0x10000 - x / 0x10000;
  }

  /** Two different powers of two agree modulo 65536 only if both are multiples of it. */
  lemma PowersAgree(a: nat, e: nat)
    requires a < e && Pow2(a) % 0x10000 == Pow2(e) % 0x10000
    ensures a >= 16
  {
    hide Pow2;
    if a < 16 {
      var q := SameWord(Pow2(a), Pow2(e));
      var m, n := 16 - a, e - a;
      WordIsPow2();
      Pow2Adds(a, m);
      Pow2Adds(a, n);
      assert a + m == 16 && a + n == e;
      GapCancels(Pow2(a), Pow2(n), q, Pow2(m));
      EvenMultiple(q, m);
      EvenMultiple(1, n);
      OddFollows(q * Pow2(m));
      assert false;
    }
  }

  lemma OddFollows(y: int)
    requires y % 2 == 0
    ensures (y + 1) % 2 == 1
  {
  }

  lemma GapCancels(p: int, x: int, q: int, y: int)
    requires p > 0 && p * x - p == q * (p * y)
    ensures x - 1 == q * y
  {
    assert p * (x - 1) == p * x - p;
    assert p * (q * y) == q * (p * y);
    Cancel(p, x - 1, q * y);
  }

  lemma Cancel(d: int, x: int, y: int)
    requires d > 0 && d * x == d * y
    ensures x == y
  {
    assert d * (x - y) == 0;
    if x - y > 0 { MulAtLeast(x - y, d); }
    if y - x > 0 { MulAtLeast(y - x, d); }
  }

  lemma EvenMultiple(q: int, n: nat)
    requires n > 0
    ensures (q * Pow2(n)) % 2 == 0 && (q == 1 ==> Pow2(n) % 2 == 0)
  {
    assert q * Pow2(n) == 2 * (q * Pow2(n - 1));
  }

  // ----- the exact condition -----

  /** The script's checksum is the sixteen-bit bus total of every image of a size exactly when the tail divides the
      power, or when both totals lose the tail in the modulus. */
  lemma WordExact(size: nat)
    requires size > 0
    ensures TailDivides(size) || WrapsAway(size) <==> ChecksumAgrees(size)
  {
    hide Bytes, WrapsAway, TailDivides;
    if TailDivides(size) {
      forall data: seq<int> | |data| == size
        ensures MirroredChecksum(data) == BusSum(data, BusSize(size)) % 0x10000
      {
        ChecksumOfMirror(data);
      }
    } else if WrapsAway(size) {
      forall data: seq<int> | |data| == size
        ensures MirroredChecksum(data) == BusSum(data, BusSize(size)) % 0x10000
      {
        TailLost(data);
      }
    } else if ChecksumAgrees(size) {
      UnitsDisagree(size);
    }
  }

  /** A size whose tail does not divide the power, by the exponents of the power and of the tail's own power. */
  lemma Exponents(size: nat) returns (k: nat, j: nat)
    requires size > 0 && !TailDivides(size)
    ensures TopPower(size) == Pow2(k) && Pow2(k) < size && BusSize(size) == Pow2(k) + Pow2(k)
    ensures TopPower(size - Pow2(k)) == Pow2(j) && Pow2(j) < size - Pow2(k) && j < k
  {
    k := TopPowerExponent(size);
    j := TopPowerExponent(size - Pow2(k));
    StrictlyAbove(j, k, size - Pow2(k));
    if Pow2(j) == size - Pow2(k) {
      Pow2Adds(k - j, j);
      DivUnique(Pow2(k), Pow2(j), Pow2(k - j), 0);
    }
  }

  lemma WrapsAt(size: nat, k: nat, j: nat)
    requires size > Pow2(k) == TopPower(size) && TopPower(size - Pow2(k)) == Pow2(j) && j < k
    ensures WrapsAway(size) <==> k - j - 1 >= 16 && Pow2(k) / (size - Pow2(k)) % 0x10000 == 0
  {
    hide Pow2, TopPower;
    PowersApart(k, j);
  }

  lemma PowersApart(k: nat, j: nat)
    ensures Pow2(k) >= 0x20000 * Pow2(j) <==> k >= j + 17
  {
    hide Pow2;
    WordIsPow2();
    Pow2Adds(17, j);
    if k >= 17 + j {
      Pow2Monotone(17 + j, k);
    } else {
      Pow2Monotone(k + 1, 17 + j);
      Pow2Adds(1, k);
      PowerOfOne();
    }
  }

  lemma PowerOfOne()
    ensures Pow2(1) == 2
  {
  }

  lemma ScriptParts(data: seq<int>, k: nat)
    requires data != [] && TopPower(|data|) == Pow2(k) < |data|
    ensures ScriptTotal(data)
            == Sum(data[..Pow2(k)]) + (Pow2(k) / (|data| - Pow2(k))) * Sum(data[Pow2(k)..])
  {
    hide Sum, Pow2;
  }

  /** Where the tail is lost, the bus gives the sum of the head. */
  lemma BusTailLost(data: seq<int>, k: nat, j: nat, rest: nat)
    requires |data| == Pow2(k) + rest && rest > 0 && TopPower(rest) == Pow2(j) && j < k && k - j - 1 >= 16
    ensures BusSum(data, Pow2(k) + Pow2(k)) % 0x10000 == Sum(data[..Pow2(k)]) % 0x10000
  {
    hide BusSum, Sum, Pow2;
    var tail := data[Pow2(k)..];
    TailSum(data, k, rest);
    Above(j, rest);
    DoubledBus(tail, j + 1, k - j - 1);
    HighPower(k - j - 1, BusSum(tail, Pow2(j + 1)));
    Dropped(Sum(data[..Pow2(k)]), BusSum(tail, Pow2(k)));
  }

  /** And so does the script. */
  lemma ScriptTailLost(data: seq<int>, factor: int, head: int, tail: int)
    requires data != [] && ScriptTotal(data) == head + factor * tail && factor % 0x10000 == 0
    ensures MirroredChecksum(data) == head % 0x10000
  {
    hide ScriptTotal;
    FactorLost(factor, tail);
    Dropped(head, factor * tail);
  }

  lemma TailLost(data: seq<int>)
    requires data != [] && !TailDivides(|data|) && WrapsAway(|data|)
    ensures MirroredChecksum(data) == BusSum(data, BusSize(|data|)) % 0x10000
  {
    hide BusSum, Sum, TailDivides, WrapsAway, Pow2, ScriptTotal, MirroredChecksum;
    var k, j := Exponents(|data|);
    var rest := |data| - Pow2(k);
    WrapsAt(|data|, k, j);
    ScriptParts(data, k);
    ScriptTailLost(data, Pow2(k) / rest, Sum(data[..Pow2(k)]), Sum(data[Pow2(k)..]));
    BusTailLost(data, k, j, rest);
  }

  lemma Above(j: nat, rest: nat)
    requires rest > 0 && TopPower(rest) == Pow2(j)
    ensures rest <= Pow2(j + 1) && Pow2(j + 1) == 2 * Pow2(j)
  {
  }

  lemma FactorLost(factor: int, x: int)
    requires factor % 0x10000 == 0
    ensures (factor * x) % 0x10000 == 0
  {
    var q := factor / 0x10000;
    assert factor * x == (q * x) * 0x10000 + 0;
    DivUnique(factor * x, 0x10000, q * x, 0);
  }

  lemma Dropped(x: int, y: int)
    requires y % 0x10000 == 0
    ensures (x + y) % 0x10000 == x % 0x10000
  {
    ModMultiple(x, y / 0x10000, 0x10000);
  }

  /** The images that are zero but for the first or the last byte of the tail. */
  lemma UnitsDisagree(size: nat)
    requires size > 0 && !TailDivides(size) && ChecksumAgrees(size)
    ensures WrapsAway(size)
  {
    hide BusSum, Sum, TailDivides, WrapsAway, Pow2, Unit, ChecksumAgrees;
    var k, j := Exponents(size);
    var rest := size - Pow2(k);
    var factor := Pow2(k) / rest;
    UnitTotals(size, k, rest, 0);
    UnitTotals(size, k, rest, rest - 1);
    Above(j, rest);
    FirstByte(rest, j);
    DoubledBus(Unit(rest, 0), j + 1, k - j - 1);
    var e := LastByte(rest, j, k);
    assert Pow2(k - j - 1) % 0x10000 == factor % 0x10000 == Pow2(e) % 0x10000;
    PowersAgree(k - j - 1, e);
    HighPower(k - j - 1, 1);
    WrapsAt(size, k, j);
  }

  lemma UnitTotals(size: nat, k: nat, rest: nat, at: nat)
    requires rest > 0 && size == Pow2(k) + rest && TopPower(size) == Pow2(k) && at < rest && ChecksumAgrees(size)
    ensures (Pow2(k) / rest) % 0x10000 == BusSum(Unit(rest, at), Pow2(k)) % 0x10000
  {
    hide BusSum, Sum, Pow2, MirrorMap;
    var p := Pow2(k);
    var u := Unit(size, p + at);
    assert Bytes(u);
    assert u[..p] == Unit(p, p + at) && u[p..] == Unit(rest, at);
    SumUnit(p, p + at);
    SumUnit(rest, at);
    TailSum(u, k, rest);
    assert MirroredChecksum(u) == BusSum(u, BusSize(size)) % 0x10000;
  }

  /** Below eight gigabytes nothing is lost in the modulus, so there the tail must divide the power. */
  lemma SmallImages(size: nat)
    requires 0 < size < 0x2_0000_0000
    ensures TailDivides(size) <==> ChecksumAgrees(size)
  {
    hide ChecksumAgrees, TopPower;
    WordExact(size);
    if WrapsAway(size) && !TailDivides(size) {
      var power, rest := TopPower(size), size - TopPower(size);
      var k := TopPowerExponent(size);
      WordIsPow2();
      ExponentFrom(17, k);
      HighPower(k, 1);
      NoSmallWrap(power, rest);
      LargeTail(rest);
    }
  }

  lemma ExponentFrom(n: nat, k: nat)
    requires Pow2(n) < 2 * Pow2(k)
    ensures n <= k && Pow2(n) <= Pow2(k)
  {
    if k < n {
      Pow2Monotone(k + 1, n);
      assert false;
    }
    Pow2Monotone(n, k);
  }

  /** A quotient that is a multiple of 65536 leaves a remainder that is one too. */
  lemma NoSmallWrap(power: nat, rest: nat)
    requires rest > 0
    ensures power % 0x10000 == 0 && power / rest % 0x10000 == 0 && power % rest != 0 ==> rest > 0x10000
  {
    if power % 0x10000 != 0 || power / rest % 0x10000 != 0 || power % rest == 0 {
      return;
    }
    var p, q, s := power / 0x10000, power / rest / 0x10000, power % rest;
    DivModLaw(power, rest);
    assert power == p * 0x10000 && power / rest == q * 0x10000;
    WordTimes(q, rest);
    assert s == (p - q * rest) * 0x10000;
    PositiveWord(p - q * rest);
  }

  lemma WordTimes(q: int, rest: int)
    ensures q * 0x10000 * rest == (q * rest) * 0x10000
  {
  }

  lemma PositiveWord(n: int)
    requires n * 0x10000 > 0
    ensures n * 0x10000 >= 0x10000
  {
  }

  lemma LargeTail(rest: nat)
    requires rest > 0x10000
    ensures TopPower(rest) >= 0x10000
  {
    WordIsPow2();
    var k := TopPowerExponent(rest);
    ExponentFrom(16, k);
  }

  /** The second case does occur, far above any cartridge: 2^51 + 2^17 + 1 bytes. */
  lemma LargeWrap()
    ensures WrapsAway(0x8_0000_0002_0001) && !TailDivides(0x8_0000_0002_0001)
  {
    WordIsPow2();
    Pow2Adds(17, 17);
    Pow2Adds(34, 17);
    TopPowerUnique(0x8_0000_0002_0001, 51);
    TopPowerUnique(0x2_0001, 17);
    DivUnique(0x8_0000_0000_0000, 0x2_0001, 0x3_FFFE_0000, 0x2_0000);
  }
}
