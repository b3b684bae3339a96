/** Cartridge address mirroring for images of any size. */
module RomMapping {
  const ROM_SIZE: nat := 1572864
  const SRAM_SIZE: nat := 32768

  function Pow2(n: nat): (p: nat)
    ensures p > 0
  {
    if n == 0 then 1 else 2 * Pow2(n - 1)
  }

  /** The largest power of two not above `a`. */
  function TopPower(a: nat): (p: nat)
    requires a > 0
    ensures 0 < p <= a < 2 * p
  {
    if a == 1 then 1 else 2 * TopPower(a / 2)
  }

  /** An address above the image drops its top bit; the part of the image above a power of two is mirrored
      inside itself. */
  function MirrorOf(address: nat, size: nat): (r: nat)
    requires size > 0
    ensures r < size
    ensures address < size ==> r == address
    decreases address
  {
    if address < size then address
    else
      var top := TopPower(address);
      if size > top then top + MirrorOf(address - top, size - top) else MirrorOf(address - top, size)
  }

  lemma {:induction false} TopPowerUnique(a: nat, k: nat)
    requires Pow2(k) <= a < 2 * Pow2(k)
    ensures TopPower(a) == Pow2(k)
  {
    if k > 0 { TopPowerUnique(a / 2, k - 1); }
  }

  lemma {:induction false} TopPowerExponent(a: nat) returns (k: nat)
    requires a > 0
    ensures TopPower(a) == Pow2(k)
  {
    k := 0;
    if a > 1 {
      var j := TopPowerExponent(a / 2);
      k := j + 1;
    }
  }

  lemma MulAtLeast(d: int, m: int)
    requires d > 0 && m > 0
    ensures d * m >= m
  {
  }

  lemma DivUnique(x: int, m: int, q: int, r: int)
    requires m > 0 && 0 <= r < m && x == q * m + r
    ensures x / m == q && x % m == r
  {
    var d := x / m - q;
    assert d * m == r - x % m;
    if d > 0 { MulAtLeast(d, m); }
    if d < 0 { MulAtLeast(-d, m); }
  }

  lemma TopBit(a: nat, mask: nat)
    requires mask > 0 && a < 2 * mask
    ensures (a / mask) % 2 == if a < mask then 0 else 1
  {
    if a < mask { DivUnique(a, mask, 0, a); } else { DivUnique(a, mask, 1, a - mask); }
  }

  /** `address & mask` for a single-bit mask at or above the address's top bit. */
  method BitSet(a: nat, mask: nat) returns (b: bool)
    requires mask > 0 && a < 2 * mask
    ensures b <==> a >= mask
  {
    TopBit(a, mask);
    b := (a / mask) % 2 != 0;
  }

  /** The first loop of the C function: the highest bit of `largest`. */
  method HighestBit(largest: nat) returns (mask: nat, ghost k: nat)
    ensures mask == Pow2(k) && largest < 2 * mask
  {
    mask, k := 1, 0;
    while mask <= largest / 2
      invariant mask == Pow2(k)
      decreases largest - mask
    {
      mask, k := mask * 2, k + 1;
    }
  }

  /** The inner loop: shift the mask down to the top bit of the address. */
  method SeekBit(a: nat, start: nat, ghost j: nat) returns (mask: nat, ghost k: nat)
    requires 0 < a < 2 * start && start == Pow2(j)
    ensures mask == Pow2(k) && mask <= a < 2 * mask && mask <= start
  {
    mask, k := start, j;
    var found := BitSet(a, mask);
    while mask != 0 && !found
      invariant 0 < mask <= start && mask == Pow2(k) && a < 2 * mask
      invariant found <==> a >= mask
      decreases mask
    {
      mask, k := mask / 2, k - 1;
      found := BitSet(a, mask);
    }
  }

  lemma MirrorStep(a: nat, size: nat, mask: nat, k: nat)
    requires size > 0 && a >= size && mask == Pow2(k) && mask <= a < 2 * mask
    ensures size > mask ==> MirrorOf(a, size) == mask + MirrorOf(a - mask, size - mask)
    ensures size <= mask ==> MirrorOf(a, size) == MirrorOf(a - mask, size)
  {
    TopPowerUnique(a, k);
  }

  /** One turn of the outer loop. */
  method DropBit(a: nat, s: nat, base: nat, start: nat, ghost j: nat)
    returns (a': nat, s': nat, base': nat, mask: nat, ghost k: nat)
    requires a >= s > 0 && a < 2 * start && start == Pow2(j)
    ensures a' < a && s' > 0 && base' + s' == base + s
    ensures base' + MirrorOf(a', s') == base + MirrorOf(a, s)
    ensures if mask == 0 then a' == 0 else mask == Pow2(k) && a' < 2 * mask
  {
    a', s', base' := a, s, base;
    mask, k := SeekBit(a, start, j);
    MirrorStep(a, s, mask, k);
    a' := a' - mask;
    if s' > mask {
      s' := s' - mask;
      base' := base' + mask;
    }
    mask, k := mask / 2, if k == 0 then 0 else k - 1;
  }

  /** The C function, bit by bit as written.  An address at or above the size has a bit left, so the
      fallback for an empty mask is never taken. */
  method MirrorAddress(address: nat, size: nat) returns (r: nat)
    requires size > 0
    ensures r == MirrorOf(address, size) && r < size
  {
    var a: nat, s: nat, base: nat := address, size, 0;
    var mask, k := HighestBit(if address > size - 1 then address else size - 1);
    while a >= s
      invariant s > 0 && base + s == size && base + MirrorOf(a, s) == MirrorOf(address, size)
      invariant if mask == 0 then a == 0 else mask == Pow2(k) && a < 2 * mask
      decreases a
    {
      a, s, base, mask, k := DropBit(a, s, base, mask, k);
    }
    r := base + a;
  }

  // ----- what mirroring means -----

  /** Between a power of two and its double, an image of size power + rest mirrors only its tail. */
  lemma MirrorTail(address: nat, k: nat, rest: nat)
    requires 0 < rest && Pow2(k) <= address < 2 * Pow2(k)
    ensures MirrorOf(address, Pow2(k) + rest) == Pow2(k) + MirrorOf(address - Pow2(k), rest)
  {
    TopPowerUnique(address, k);
  }

  /** Above a power of two that covers the image, the image starts again. */
  lemma MirrorAgain(address: nat, k: nat, size: nat)
    requires 0 < size <= Pow2(k) <= address < 2 * Pow2(k)
    ensures MirrorOf(address, size) == MirrorOf(address - Pow2(k), size)
  {
    TopPowerUnique(address, k);
  }

  lemma {:induction false} Pow2Monotone(m: nat, n: nat)
    requires m <= n
    ensures Pow2(m) <= Pow2(n)
    decreases n - m
  {
    if m < n { Pow2Monotone(m + 1, n); }
  }

  lemma {:induction false} Pow2Adds(a: nat, b: nat)
    ensures Pow2(a + b) == Pow2(a) * Pow2(b)
  {
    if a > 0 { Pow2Adds(a - 1, b); }
  }

  lemma ModMultiple(x: int, q: int, m: int)
    requires m > 0
    ensures (x + q * m) % m == x % m
  {
    var d := x / m;
    assert x == d * m + x % m;
    assert x + q * m == (d + q) * m + x % m;
    DivUnique(x + q * m, m, d + q, x % m);
  }

  lemma ModDrop(address: nat, k: nat, j: nat)
    requires k <= j && Pow2(j) <= address
    ensures (address - Pow2(j)) % Pow2(k) == address % Pow2(k)
  {
    Pow2Adds(j - k, k);
    ModMultiple(address - Pow2(j), Pow2(j - k), Pow2(k));
  }

  lemma ExponentAbove(k: nat, j: nat, address: nat)
    requires Pow2(k) <= address < 2 * Pow2(j)
    ensures k <= j && Pow2(k) <= Pow2(j)
  {
    if j < k {
      Pow2Monotone(j + 1, k);
      assert false;
    }
    Pow2Monotone(k, j);
  }

  /** The bus repeats with any power-of-two period that covers the image. */
  lemma {:induction false} MirrorPeriodic(address: nat, size: nat, k: nat)
    requires 0 < size <= Pow2(k)
    ensures MirrorOf(address, size) == MirrorOf(address % Pow2(k), size)
    decreases address
  {
    if address < Pow2(k) {
      DivUnique(address, Pow2(k), 0, address);
    } else {
      var j := TopPowerExponent(address);
      ExponentAbove(k, j, address);
      MirrorAgain(address, j, size);
      MirrorPeriodic(address - Pow2(j), size, k);
      ModDrop(address, k, j);
    }
  }

  /** A power-of-two image simply repeats. */
  lemma MirrorPow2(address: nat, k: nat)
    ensures MirrorOf(address, Pow2(k)) == address % Pow2(k)
  {
    MirrorPeriodic(address, Pow2(k), k);
  }
}
