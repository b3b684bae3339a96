/** Channel 2's HDMA table: the line-by-line cursor, and what a table means as a whole. */
module HdmaTable {
  import opened Options
  import opened Clock

  /** The live registers of the channel: `pointer` is the indirect address, `counter` the line counter with its
      repeat bit. */
  datatype Cursor = Cursor(table: int, counter: int, transfer: bool, finished: bool, ready: bool, pointer: int)

  function Next(a: int): int {
    (a + 1) % 0x10000
  }

  ghost predicate Bytes(rom: int -> int) {
    forall a :: 0 <= rom(a) < 0x100
  }

  // ----- the cursor -----

  /** The frame's first descriptor.  A table that ends at once still loads one byte, as a high byte. */
  function Load(rom: int -> int, source: int): Cursor {
    var low := rom(Next(source));
    if rom(source) == 0 then Cursor(Next(Next(source)), 0, true, true, true, low * 0x100)
    else
      var high := rom(Next(Next(source)));
      Cursor(Next(Next(Next(source))), rom(source), true, false, true, low + high * 0x100)
  }

  /** One line of a live channel: the counter, the speculative read, and perhaps the next descriptor. */
  function Line(rom: int -> int, c: Cursor): Cursor {
    var counter := (c.counter - 1) % 0x100;
    if counter % 0x80 != 0 then
      c.(counter := counter, transfer := counter >= 0x80,
         pointer := if c.transfer then (c.pointer + 2) % 0x10000 else c.pointer)
    else
      Load(rom, c.table)
  }

  /** The cursor before line `n` of a frame. */
  function AfterLines(rom: int -> int, source: int, n: nat): Cursor {
    if n == 0 then Load(rom, source)
    else
      var c := AfterLines(rom, source, n - 1);
      if c.finished then c else Line(rom, c)
  }

  // ----- the meaning of a table -----

  /** How many lines a descriptor lasts. */
  function Lasts(c: int): int {
    if c % 0x80 == 0 then 0x80 else c % 0x80
  }

  function Third(a: int): int {
    (a + 3) % 0x10000
  }

  function PointerAt(rom: int -> int, a: int): int {
    rom(Next(a)) + rom(Next(Next(a))) * 0x100
  }

  /** The indirect address a table transfers from on a line, if it transfers at all. */
  ghost function Transfers(rom: int -> int, a: int, line: int): Option<int>
    requires Bytes(rom)
    decreases line
  {
    var c := rom(a);
    if c == 0 || line < 0 then None
    else if line >= Lasts(c) then Transfers(rom, Third(a), line - Lasts(c))
    else if c > 0x80 then Some((PointerAt(rom, a) + 2 * line) % 0x10000)
    else if line == 0 then Some(PointerAt(rom, a) % 0x10000)
    else None
  }

  /** The table has ended before a line. */
  ghost predicate Ended(rom: int -> int, a: int, line: int)
    requires Bytes(rom)
    decreases line
  {
    var c := rom(a);
    c == 0 || (line >= Lasts(c) && Ended(rom, Third(a), line - Lasts(c)))
  }

  // ----- the two agree -----

  /** The cursor stands on line `j` of the descriptor at `a`. */
  ghost predicate Stands(rom: int -> int, c: Cursor, a: int, j: int)
    requires Bytes(rom)
  {
    var first := rom(a);
    && c.ready && !c.finished && first != 0 && 0 <= j < Lasts(first)
    && c.table == Third(a) && c.counter == first - j
    && c.transfer == (j == 0 || first > 0x80)
    && (c.transfer ==> c.pointer == (PointerAt(rom, a) + 2 * j) % 0x10000)
  }

  /** The k-th descriptor, and the line it starts on. */
  function EntryAt(a: int, k: nat): int {
    if k == 0 then a else Third(EntryAt(a, k - 1))
  }

  function Starts(rom: int -> int, a: int, k: nat): int {
    if k == 0 then 0 else Starts(rom, a, k - 1) + Lasts(rom(EntryAt(a, k - 1)))
  }

  predicate Live(rom: int -> int, a: int, k: nat) {
    k == 0 || (Live(rom, a, k - 1) && rom(EntryAt(a, k - 1)) != 0)
  }

  /** What a table means from its k-th descriptor on. */
  lemma {:induction false} Skip(rom: int -> int, a: int, k: nat, j: int)
    requires Bytes(rom) && Live(rom, a, k) && j >= 0
    ensures Transfers(rom, a, Starts(rom, a, k) + j) == Transfers(rom, EntryAt(a, k), j)
    ensures Ended(rom, a, Starts(rom, a, k) + j) == Ended(rom, EntryAt(a, k), j)
    decreases k
  {
    if k > 0 {
      var last := EntryAt(a, k - 1);
      Skip(rom, a, k - 1, Lasts(rom(last)) + j);
    }
  }

  lemma Thirds(a: int)
    ensures Next(Next(Next(a))) == Third(a) && Next(Next(a)) == (a + 2) % 0x10000
  {
    WrapAdd(a, 1, 1);
    WrapAdd(a, 2, 1);
  }

  lemma WrapAdd(a: int, m: int, n: int)
    ensures ((a + m) % 0x10000 + n) % 0x10000 == (a + m + n) % 0x10000
  {
    assert a + m + n == 0x10000 * ((a + m) / 0x10000) + ((a + m) % 0x10000 + n);
  }

  lemma LoadStands(rom: int -> int, a: int)
    requires Bytes(rom)
    ensures rom(a) != 0 ==> Stands(rom, Load(rom, a), a, 0)
    ensures Load(rom, a).finished == (rom(a) == 0)
  {
    hide Next, Third;
    Thirds(a);
  }

  lemma LineStands(rom: int -> int, c: Cursor, a: int, j: int)
    requires Bytes(rom) && Stands(rom, c, a, j)
    ensures j + 1 < Lasts(rom(a)) ==> Stands(rom, Line(rom, c), a, j + 1)
    ensures j + 1 == Lasts(rom(a)) ==> Line(rom, c) == Load(rom, Third(a))
  {
    hide Load, Third;
    var first := rom(a);
    assert c.counter == first - j && (first - j - 1) % 0x100 == first - j - 1;
    if j + 1 < Lasts(first) {
      assert (first - j - 1) % 0x80 != 0;
      if c.transfer {
        WrapAdd(PointerAt(rom, a), 2 * j, 2);
      }
    }
  }

  /** Where the cursor stands in the table before any line. */
  lemma {:induction false} Locate(rom: int -> int, source: int, n: nat) returns (k: nat, j: int)
    requires Bytes(rom)
    ensures Live(rom, source, k) && j >= 0 && n == Starts(rom, source, k) + j
    ensures var c := AfterLines(rom, source, n);
            if c.finished then rom(EntryAt(source, k)) == 0 else Stands(rom, c, EntryAt(source, k), j)
  {
    if n == 0 {
      k, j := 0, 0;
      LoadStands(rom, source);
    } else {
      k, j := Locate(rom, source, n - 1);
      var c := AfterLines(rom, source, n - 1);
      var a := EntryAt(source, k);
      j := j + 1;
      if !c.finished {
        LineStands(rom, c, a, j - 1);
        if j == Lasts(rom(a)) {
          k, j := k + 1, 0;
          LoadStands(rom, Third(a));
        }
      }
    }
  }

  /** The line-by-line machine is the table: it transfers exactly on the lines the table says, from the pointers
      the table says, and stops exactly where the table stops. */
  lemma TableRefined(rom: int -> int, source: int, n: nat)
    requires Bytes(rom)
    ensures var c := AfterLines(rom, source, n);
            && c.ready && c.finished == Ended(rom, source, n)
            && (Transfers(rom, source, n).Some? <==> !c.finished && c.transfer)
            && (!c.finished && c.transfer ==> Transfers(rom, source, n) == Some(c.pointer))
  {
    var k, j := Locate(rom, source, n);
    Skip(rom, source, k, j);
    StaysReady(rom, source, n);
  }

  lemma {:induction false} StaysReady(rom: int -> int, source: int, n: nat)
    ensures AfterLines(rom, source, n).ready
  {
    if n > 0 {
      StaysReady(rom, source, n - 1);
    }
  }

  /** A descriptor that repeats transfers on each of its lines, another only on its first. */
  lemma DescriptorLines(rom: int -> int, a: int, line: int)
    requires Bytes(rom) && rom(a) != 0 && 0 <= line < Lasts(rom(a))
    ensures Transfers(rom, a, line).Some? <==> rom(a) > 0x80 || line == 0
    ensures rom(a) == 0x80 ==> Lasts(rom(a)) == 128
  {
  }
}
