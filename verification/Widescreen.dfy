/** The wide-screen cursor: extension beyond the native screen, and the rebase of the nine camera words. */
module Widescreen {
  /** A controller word as the set of its pressed bits. */
  type Pad = set<int>

  const B: int := 0
  const Y: int := 1
  const SELECT: int := 2
  const UP: int := 4
  const DOWN: int := 5
  const LEFT: int := 6
  const RIGHT: int := 7
  const A: int := 8
  const X: int := 9
  const L: int := 10
  const R: int := 11

  const DIRECTIONS: Pad := {LEFT, RIGHT, UP, DOWN}

  /** What the game shows while one input word is taken: whether the map has the cursor, and where it is. */
  datatype View = View(focus: bool, x: int, y: int)

  /** C division: toward zero. */
  function Div16(a: int): (q: int)
    ensures 0 <= a ==> 16 * q <= a < 16 * q + 16
    ensures a <= 0 ==> 16 * q - 16 < a <= 16 * q
  {
    if a < 0 then -((-a) / 16) else a / 16
  }

  function Delta(n: nat, tilesX: int, tilesY: int): int {
    if n == 0 || n == 5 || n == 7 then tilesX
    else if n == 1 || n == 6 || n == 8 then tilesY
    else tilesX + 80 * tilesY
  }

  /** Nine 16-bit words moved by the same number of tiles. */
  function Moved(words: seq<int>, tilesX: int, tilesY: int): (r: seq<int>)
    requires |words| == 9
    ensures |r| == 9
  {
    seq(9, n requires 0 <= n < 9 => (words[n] + Delta(n, tilesX, tilesY)) % 0x10000)
  }

  /** A word has moved by a number of tiles, as sixteen-bit words move. */
  predicate MovedBy(before: int, after: int, tiles: int) {
    0 <= after < 0x10000 && (after - before - tiles) % 0x10000 == 0
  }

  /** The nine words are three places, each a column and a row, and three addresses in a map of 80 tiles a row: all
      of them follow the same step. */
  lemma MovedTogether(words: seq<int>, tilesX: int, tilesY: int)
    requires |words| == 9
    ensures var r := Moved(words, tilesX, tilesY);
            && (forall column :: column in [0, 5, 7] ==> MovedBy(words[column], r[column], tilesX))
            && (forall row :: row in [1, 6, 8] ==> MovedBy(words[row], r[row], tilesY))
            && (forall address :: address in [2, 3, 4] ==> MovedBy(words[address], r[address], tilesX + 80 * tilesY))
  {
    forall n | 0 <= n < 9
      ensures MovedBy(words[n], Moved(words, tilesX, tilesY)[n], Delta(n, tilesX, tilesY))
    {
      WrapMoves(words[n], Delta(n, tilesX, tilesY));
    }
  }

  lemma WrapMoves(word: int, d: int)
    ensures MovedBy(word, (word + d) % 0x10000, d)
  {
    assert (word + d) % 0x10000 - word - d == -0x10000 * ((word + d) / 0x10000);
  }

  predicate Words(words: seq<int>) {
    |words| == 9 && forall n :: 0 <= n < 9 ==> 0 <= words[n] < 0x10000
  }

  lemma ModAdd(a: int, b: int)
    ensures (a % 0x10000 + b) % 0x10000 == (a + b) % 0x10000
  {
  }

  lemma MovedTwice(words: seq<int>, x: int, y: int, x': int, y': int)
    requires |words| == 9
    ensures Moved(Moved(words, x, y), x', y') == Moved(words, x + x', y + y')
  {
    forall n | 0 <= n < 9 ensures Moved(Moved(words, x, y), x', y')[n] == Moved(words, x + x', y + y')[n] {
      ModAdd(words[n] + Delta(n, x, y), Delta(n, x', y'));
    }
  }

  lemma MovedNowhere(words: seq<int>)
    requires Words(words)
    ensures Moved(words, 0, 0) == words
  {
  }

  /** A horizontal step: out by the step up to 64 pixels once the cursor is at the native edge, and back no further
      than the native screen. */
  predicate StepsX(edge: Pad, x: int, step: int, before: int, after: int) {
    && (LEFT !in edge && RIGHT !in edge ==> after == before)
    && (LEFT in edge && before == 0 && x > 36 && RIGHT !in edge ==> after == 0)
    && (LEFT in edge && (before < 0 || (before == 0 && x <= 36)) ==>
          after == if before - step < -64 then -64 else before - step)
    && (RIGHT in edge && LEFT !in edge && (before > 0 || (before == 0 && x >= 212)) ==>
          after == if before + step > 64 then 64 else before + step)
    && (RIGHT in edge && LEFT !in edge && before < 0 ==> after == if before + step > 0 then 0 else before + step)
    && (LEFT in edge && RIGHT !in edge && before > 0 ==> after == if before - step < 0 then 0 else before - step)
  }

  /** The extended cursor's row lies on the 40-row world. */
  predicate OnWorld(row: int, y: int, extension: int) {
    0 <= row + Div16(y - 19) + Div16(extension) < 40
  }

  /** The row lies on the world exactly when the pixel 19 below the top of the cursor's box does, the world being 640
      pixels high; above that line the cursor counts as on it. */
  lemma OnWorldExact(row: int, y: int, extension: int)
    requires extension % 16 == 0 && y > 3
    ensures OnWorld(row, y, extension)
            <==> 0 <= 16 * row + (if y < 19 then 0 else y - 19) + extension < 640
  {
    assert Div16(extension) * 16 == extension;
  }

  /** A vertical step: one row out, only onto the world, or back. */
  predicate StepsY(edge: Pad, y: int, row: int, before: int, after: int) {
    && (UP !in edge && DOWN !in edge ==> after == before)
    && (after != 0 && after != before ==> before == 0 && OnWorld(row, y, after))
    && (UP in edge && DOWN !in edge ==>
          after == if before > 0 then 0 else if before == 0 && y <= 19 && OnWorld(row, y, -16) then -16 else before)
    && (DOWN in edge && UP !in edge ==>
          after == if before < 0 then 0 else if before == 0 && y >= 195 && OnWorld(row, y, 16) then 16 else before)
  }

  class Cursor {
    var words: seq<int>       // the nine camera words in work RAM
    var saved: seq<int>
    var extX: int
    var extY: int
    var previous: Pad
    var consumed: Pad
    var rebased: bool
    var clearAfter: bool
    var enabled: bool

    // the ledger: what the words were, and the tiles committed since
    ghost var origin: seq<int>
    ghost var paidX: int
    ghost var paidY: int

    /** The words are the original ones plus the committed tiles, plus the present extension only while rebased. */
    ghost predicate Ledger()
      reads this
    {
      && Words(origin) && |words| == 9 && |saved| == 9
      && -64 <= extX <= 64 && extX % 16 == 0
      && (extY == -16 || extY == 0 || extY == 16)
      && (rebased ==> enabled && saved == Moved(origin, paidX, paidY) && (extX != 0 || extY != 0))
      && words == if rebased then Moved(origin, paidX + Div16(extX), paidY + Div16(extY))
                  else Moved(origin, paidX, paidY)
    }

    constructor (start: seq<int>)
      requires Words(start)
      ensures Ledger() && words == start == origin && paidX == paidY == 0 && !enabled
    {
      words, saved, extX, extY, previous, consumed := start, start, 0, 0, {}, {};
      rebased, clearAfter, enabled := false, false, false;
      origin, paidX, paidY := start, 0, 0;
      MovedNowhere(start);
    }

    method Restore()
      requires Ledger()
      modifies this`words, this`rebased
      ensures Ledger() && !rebased && words == Moved(origin, paidX, paidY)
    {
      if !rebased { return; }
      words := saved;
      rebased := false;
    }

    method Apply()
      requires Ledger() && !rebased && enabled && (extX != 0 || extY != 0)
      modifies this`words, this`saved, this`rebased
      ensures Ledger() && rebased
    {
      var tilesX, tilesY := Div16(extX), Div16(extY);
      saved := words;
      MovedTwice(origin, paidX, paidY, tilesX, tilesY);
      words := MoveWords(tilesX, tilesY);
      rebased := true;
    }

    method MoveWords(tilesX: int, tilesY: int) returns (moved: seq<int>)
      requires |words| == 9
      ensures moved == Moved(words, tilesX, tilesY)
    {
      moved := words;
      for n := 0 to 9
        invariant |moved| == 9
        invariant forall k :: 0 <= k < 9 ==>
                    moved[k] == if k < n then (words[k] + Delta(k, tilesX, tilesY)) % 0x10000 else words[k]
      {
        moved := moved[n := (words[n] + Delta(n, tilesX, tilesY)) % 0x10000];
      }
    }

    method Commit()
      requires Ledger() && !rebased && (extX != 0 || extY != 0)
      modifies this`words, this`extX, this`extY, this`clearAfter, this`paidX, this`paidY
      ensures Ledger() && extX == 0 && extY == 0
      ensures paidX == old(paidX) + Div16(old(extX)) && paidY == old(paidY) + Div16(old(extY))
    {
      var tilesX, tilesY := Div16(extX), Div16(extY);
      MovedTwice(origin, paidX, paidY, tilesX, tilesY);
      words := MoveWords(tilesX, tilesY);
      paidX, paidY := paidX + tilesX, paidY + tilesY;
      extX, extY := 0, 0;
      clearAfter := false;
    }

    /** Horizontal steps; the extension stops at 64 pixels and snaps back at the native edge. */
    method StepX(edge: Pad, x: int, step: int)
      requires Ledger() && !rebased && (step == 16 || step == 32)
      modifies this`extX, this`consumed
      ensures Ledger()
      ensures old(consumed) <= consumed <= old(consumed) + edge * {LEFT, RIGHT}
      ensures extX != old(extX) ==> (LEFT in edge && LEFT in consumed) || (RIGHT in edge && RIGHT in consumed)
      ensures StepsX(edge, x, step, old(extX), extX)
      ensures LEFT !in edge && RIGHT !in edge ==> consumed == old(consumed)
      ensures LEFT in edge && old(extX) == 0 && x > 36 && RIGHT !in edge ==> consumed == old(consumed)
      ensures LEFT in edge && (old(extX) != 0 || x <= 36) && RIGHT !in edge ==> LEFT in consumed
      ensures RIGHT in edge && (old(extX) != 0 || x >= 212) && LEFT !in edge ==> RIGHT in consumed
    {
      if LEFT in edge && extX <= 0 && (extX < 0 || x <= 36) {
        if extX > -64 {
          extX := extX - step;
          if extX < -64 { extX := -64; }
        }
        consumed := consumed + {LEFT};
      } else if RIGHT in edge && extX < 0 {
        extX := extX + step;
        if extX > 0 { extX := 0; }
        consumed := consumed + {RIGHT};
      } else if RIGHT in edge && extX >= 0 && (extX > 0 || x >= 212) {
        if extX < 64 {
          extX := extX + step;
          if extX > 64 { extX := 64; }
        }
        consumed := consumed + {RIGHT};
      } else if LEFT in edge && extX > 0 {
        extX := extX - step;
        if extX < 0 { extX := 0; }
        consumed := consumed + {LEFT};
      }
    }

    /** Vertical steps: one row up or down, only onto the 40-row world. */
    method StepY(edge: Pad, y: int)
      requires Ledger() && !rebased
      modifies this`extY, this`consumed
      ensures Ledger()
      ensures old(consumed) <= consumed <= old(consumed) + edge * {UP, DOWN}
      ensures extY != old(extY) ==> (UP in edge && UP in consumed) || (DOWN in edge && DOWN in consumed)
      ensures StepsY(edge, y, words[8], old(extY), extY)
      ensures UP !in edge && DOWN !in edge ==> consumed == old(consumed)
    {
      if UP in edge && extY <= 0 && (extY < 0 || y <= 19) {
        if extY == 0 && OnWorld(words[8], y, -16) { extY := -16; }
        consumed := consumed + {UP};
      } else if DOWN in edge && extY < 0 {
        extY := 0;
        consumed := consumed + {DOWN};
      } else if DOWN in edge && extY >= 0 && (extY > 0 || y >= 195) {
        if extY == 0 && OnWorld(words[8], y, 16) { extY := 16; }
        consumed := consumed + {DOWN};
      } else if UP in edge && extY > 0 {
        extY := 0;
        consumed := consumed + {UP};
      }
    }

    method Forget()
      requires Ledger() && !rebased
      modifies this`extX, this`extY
      ensures Ledger() && extX == 0 && extY == 0
    {
      extX, extY := 0, 0;
    }

    /** The buttons that act on an extended cursor. */
    method Act(input: Pad)
      requires Ledger() && !rebased && enabled
      modifies this`words, this`saved, this`rebased, this`extX, this`extY, this`clearAfter, this`paidX, this`paidY
      ensures Ledger()
      ensures rebased <==> (old(extX) != 0 || old(extY) != 0) && (A in input || B in input)
                           && Y !in input && SELECT !in input
      ensures Y !in input && SELECT !in input ==> paidX == old(paidX) && paidY == old(paidY)
                                                   && extX == old(extX) && extY == old(extY)
      ensures Y in input || SELECT in input ==>
                (extX == 0 && extY == 0
                 && paidX == old(paidX) + Div16(old(extX)) && paidY == old(paidY) + Div16(old(extY)))
    {
      if (extX != 0 || extY != 0) && (A in input || B in input || Y in input || SELECT in input) {
        if Y in input || SELECT in input {
          Commit();
        } else {
          Apply();
          clearAfter := true;
        }
      }
    }

    /** The directions are consumed by the extended cursor, first held ones and then new edges. */
    method StepCursor(view: View, input: Pad)
      requires Ledger() && !rebased
      modifies this`extX, this`extY, this`consumed
      ensures Ledger() && consumed <= DIRECTIONS
      ensures var held := old(consumed) * input * DIRECTIONS;
              held <= consumed <= held + (input - old(previous)) * DIRECTIONS
              && (L in input || R in input || A in input ==> consumed == held)
      ensures extX != old(extX) ==> LEFT in consumed || RIGHT in consumed
      ensures extY != old(extY) ==> UP in consumed || DOWN in consumed
      ensures if L in input || R in input || A in input then extX == old(extX) && extY == old(extY)
              else StepsX(input - previous, view.x, if X in input then 32 else 16, old(extX), extX)
                   && StepsY(input - previous, view.y, words[8], old(extY), extY)
    {
      hide StepsX, StepsY;
      var edge := input - previous;
      consumed := consumed * input * DIRECTIONS;
      if L !in input && R !in input && A !in input {
        StepX(edge, view.x, if X in input then 32 else 16);
        StepY(edge, view.y);
      }
    }

    /** One controller word passes through the connector. */
    method ConnectInput(view: View, input: Pad) returns (output: Pad)
      requires Ledger() && enabled
      modifies this
      ensures Ledger() && enabled && origin == old(origin) && previous == input
      ensures output == if view.focus then input - consumed else input
      ensures consumed <= DIRECTIONS
      ensures var held := old(consumed) * input * DIRECTIONS;
              if view.focus then held <= consumed <= held + (input - old(previous)) * DIRECTIONS else consumed == {}
      ensures rebased ==> view.focus && (A in input || B in input) && Y !in input && SELECT !in input
      ensures Y !in input && SELECT !in input ==> paidX == old(paidX) && paidY == old(paidY)
      ensures !view.focus ==> extX == 0 && extY == 0
      ensures view.focus && Y !in input && SELECT !in input ==>
                var (x, y) := if input == {} && old(clearAfter) then (0, 0) else (old(extX), old(extY));
                if L in input || R in input || A in input then extX == x && extY == y
                else StepsX(input - old(previous), view.x, if X in input then 32 else 16, x, extX)
                     && StepsY(input - old(previous), view.y, Moved(origin, old(paidX), old(paidY))[8], y, extY)
    {
      hide StepsX, StepsY, Moved;
      output := input;
      Restore();
      if input == {} && clearAfter {
        Forget();
        clearAfter := false;
      }
      if !view.focus {
        Forget();
        consumed := {};
        clearAfter := false;
      } else {
        StepCursor(view, input);
        output := input - consumed;
        Act(input);
      }
      previous := input;
    }

    /** The saved live toggle: switching off passes an empty word through first, which undoes any rebase. */
    method SetEnabled(on: bool, view: View)
      requires Ledger()
      modifies this
      ensures Ledger() && enabled == on && origin == old(origin)
      ensures paidX == old(paidX) && paidY == old(paidY)
      ensures !on ==> !rebased && words == Moved(origin, paidX, paidY)
    {
      if !on && enabled {
        var _ := ConnectInput(view, {});
      }
      enabled := on;
      if !enabled {
        Forget();
        previous, consumed := {}, {};
        rebased, clearAfter := false, false;
      }
    }

    /** Any sequence of toggles and input words. */
    method Session(steps: seq<Step>)
      requires Ledger()
      modifies this
      ensures Ledger() && origin == old(origin)
      ensures (forall k :: 0 <= k < |steps| ==> !steps[k].Commits()) ==> paidX == old(paidX) && paidY == old(paidY)
      ensures (forall k :: 0 <= k < |steps| ==> !steps[k].Commits()) && !rebased
              ==> words == Moved(origin, old(paidX), old(paidY))
    {
      for n := 0 to |steps|
        invariant Ledger() && origin == old(origin)
        invariant (forall k :: 0 <= k < n ==> !steps[k].Commits()) ==> paidX == old(paidX) && paidY == old(paidY)
      {
        match steps[n]
        case Toggle(on, view) => SetEnabled(on, view);
        case Input(view, pad) =>
          if enabled { var _ := ConnectInput(view, pad); }
      }
    }
  }

  datatype Step = Toggle(on: bool, view: View) | Input(view: View, pad: Pad) {
    predicate Commits() {
      Input? && (Y in pad || SELECT in pad)
    }
  }
}
