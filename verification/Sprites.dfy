/** One line of sprites: scan order, the 32-sprite and 34-tile limits, and front-to-back painting. */
module Sprites {
  import opened Options

  /** The picture memory a line is drawn from. */
  datatype Picture = Picture(oam: seq<int>, vram: seq<int>, mode: nat, rotate: bool, oamAddress: nat,
                             oamBase: nat, reg1: nat)

  predicate Sound(p: Picture) {
    && |p.oam| == 544 && |p.vram| == 65536
    && (forall k :: 0 <= k < 544 ==> 0 <= p.oam[k] < 256)
    && (forall k :: 0 <= k < 65536 ==> 0 <= p.vram[k] < 256)
    && p.mode < 8
  }

  datatype Sprite = Sprite(x: int, y: nat, tile: nat, attr: nat, width: nat, height: nat)

  const SMALL_W: seq<nat> := [8, 8, 8, 16, 16, 32, 16, 16]
  const LARGE_W: seq<nat> := [16, 32, 64, 32, 64, 64, 32, 32]
  const SMALL_H: seq<nat> := [8, 8, 8, 16, 16, 32, 32, 32]
  const LARGE_H: seq<nat> := [16, 32, 64, 32, 64, 64, 64, 32]

  function Width(mode: nat, large: bool): (w: nat)
    requires mode < 8
  {
    if large then LARGE_W[mode] else SMALL_W[mode]
  }

  function Height(mode: nat, large: bool): (h: nat)
    requires mode < 8
  {
    if large then LARGE_H[mode] else SMALL_H[mode]
  }

  const POW2: seq<nat> := [1, 2, 4, 8, 16, 32, 64, 128]

  function Bit(v: int, k: nat): nat
    requires k < 8 && v >= 0
  {
    (v / POW2[k]) % 2
  }

  function SpriteAt(p: Picture, index: nat): Sprite
    requires Sound(p) && index < 128
  {
    var high := p.oam[0x200 + index / 4];
    var large := Bit(high, index % 4 * 2 + 1) == 1;
    Sprite(if Bit(high, index % 4 * 2) == 1 then p.oam[index * 4] - 256 else p.oam[index * 4],
           p.oam[index * 4 + 1], p.oam[index * 4 + 2], p.oam[index * 4 + 3],
           Width(p.mode, large), Height(p.mode, large))
  }

  function LineOf(y: nat, s: Sprite): nat {
    (y + 256 - (s.y + 1) % 256) % 256
  }

  predicate Visible(y: nat, s: Sprite) {
    (s.x == -256 || (s.x + s.width > 0 && s.x <= 255)) && LineOf(y, s) < s.height
  }

  /** One eight-pixel column of one sprite, as it falls on the line. */
  datatype Tile = Tile(sprite: Sprite, column: nat)

  function First(p: Picture): nat {
    if p.rotate then p.oamAddress / 2 % 128 else 0
  }

  /** The sprite the scan meets at turn `k`. */
  function Scanned(p: Picture, k: nat): Sprite
    requires Sound(p)
  {
    SpriteAt(p, (First(p) + k) % 128)
  }

  // ----- which tiles are admitted -----

  /** The sprites on the line among the first `k` scanned, in scan order. */
  function OnLine(p: Picture, y: nat, k: nat): (s: seq<Sprite>)
    requires Sound(p)
    ensures |s| <= k
  {
    if k == 0 then []
    else if Visible(y, Scanned(p, k - 1)) then OnLine(p, y, k - 1) + [Scanned(p, k - 1)]
    else OnLine(p, y, k - 1)
  }

  function Take<T>(s: seq<T>, n: nat): seq<T> {
    if |s| <= n then s else s[..n]
  }

  function Columns(s: Sprite, n: nat): (t: seq<Tile>)
    ensures |t| == n
  {
    seq(n, c requires 0 <= c < n => Tile(s, c))
  }

  function TilesOf(sprites: seq<Sprite>): seq<Tile> {
    if sprites == [] then []
    else TilesOf(sprites[..|sprites| - 1])
         + Columns(sprites[|sprites| - 1], sprites[|sprites| - 1].width / 8)
  }

  /** The first 34 tile columns of the first 32 sprites on the line. */
  function Admitted(p: Picture, y: nat): seq<Tile>
    requires Sound(p)
  {
    Take(TilesOf(Take(OnLine(p, y, 128), 32)), 34)
  }

  // ----- what a tile shows -----

  function TileColor(vram: seq<int>, planes: nat, base: nat, bit: nat): (c: nat)
    requires |vram| == 65536 && bit < 8 && planes <= 8
    requires forall k :: 0 <= k < 65536 ==> 0 <= vram[k] < 256
  {
    if planes == 0 then 0
    else TileColor(vram, planes - 1, base, bit)
         + Bit(vram[(base + (planes - 1) / 2 * 16 + (planes - 1) % 2) % 65536], bit) * POW2[planes - 1]
  }

  method TilePixel(vram: seq<int>, bpp: nat, chrBase: nat, tile: nat, row: nat, col: nat) returns (color: nat)
    requires |vram| == 65536 && bpp <= 8
    requires forall k :: 0 <= k < 65536 ==> 0 <= vram[k] < 256
    ensures color == TileColor(vram, bpp, chrBase + tile * (bpp * 8) + row % 8 * 2, 7 - col % 8)
  {
    var base := chrBase + tile * (bpp * 8) + row % 8 * 2;
    var bit := 7 - col % 8;
    color := 0;
    for plane := 0 to bpp
      invariant color == TileColor(vram, plane, base, bit)
    {
      var address := base + plane / 2 * 16 + plane % 2;
      color := color + Bit(vram[address % 65536], bit) * POW2[plane];
    }
  }

  function SourceY(y: nat, s: Sprite): int {
    if Bit(s.attr, 7) == 1 then s.height - 1 - LineOf(y, s) else LineOf(y, s)
  }

  function TileIndex(y: nat, t: Tile): nat
    requires Visible(y, t.sprite) && t.column < t.sprite.width / 8
  {
    var columns := t.sprite.width / 8;
    var across := if Bit(t.sprite.attr, 6) == 1 then columns - 1 - t.column else t.column;
    (t.sprite.tile / 16 + SourceY(y, t.sprite) / 8) % 16 * 16 + (t.sprite.tile + across) % 16
  }

  function ChrBase(p: Picture, s: Sprite): nat {
    p.oamBase * 2 + if s.attr % 2 == 1 then (p.reg1 / 8 % 4 + 1) * 8192 else 0
  }

  predicate Fits(y: nat, t: Tile) {
    Visible(y, t.sprite) && t.column < t.sprite.width / 8
  }

  function Left(t: Tile): int {
    t.sprite.x + t.column * 8
  }

  /** The colour a tile puts at a screen column: 0 where it does not reach or is transparent. */
  function ColorAt(p: Picture, y: nat, t: Tile, x: int): nat
    requires Sound(p) && Fits(y, t)
  {
    if !(Left(t) <= x < Left(t) + 8) then 0
    else
      var px := x - Left(t);
      var sx := if Bit(t.sprite.attr, 6) == 1 then 7 - px else px;
      TileColor(p.vram, 4, ChrBase(p, t.sprite) + TileIndex(y, t) * 32 + SourceY(y, t.sprite) % 8 % 8 * 2, 7 - sx % 8)
  }

  /** The frontmost tile of a list that is opaque at `x`. */
  function Front(p: Picture, y: nat, tiles: seq<Tile>, x: int): Option<Tile>
    requires Sound(p) && forall k :: 0 <= k < |tiles| ==> Fits(y, tiles[k])
  {
    if tiles == [] then None
    else
      var before := Front(p, y, tiles[..|tiles| - 1], x);
      if before.Some? then before
      else if ColorAt(p, y, tiles[|tiles| - 1], x) != 0 then Some(tiles[|tiles| - 1])
      else None
  }

  function PaletteOf(p: Picture, y: nat, front: Option<Tile>, x: int): nat
    requires Sound(p) && (front.Some? ==> Fits(y, front.value))
  {
    match front
    case None => 0
    case Some(t) => 128 + t.sprite.attr / 2 % 8 * 16 + ColorAt(p, y, t, x)
  }

  function PriorityOf(front: Option<Tile>): nat {
    match front
    case None => 0
    case Some(t) => t.sprite.attr / 16 % 4
  }

  ghost predicate AllFit(y: nat, tiles: seq<Tile>) {
    forall k :: 0 <= k < |tiles| ==> Fits(y, tiles[k])
  }

  lemma {:induction false} FrontFits(p: Picture, y: nat, tiles: seq<Tile>, x: int)
    requires Sound(p) && AllFit(y, tiles)
    ensures Front(p, y, tiles, x).Some? ==> Fits(y, Front(p, y, tiles, x).value)
  {
    if tiles != [] { FrontFits(p, y, tiles[..|tiles| - 1], x); }
  }

  /** Front is the first opaque tile: some tile is opaque and none before it is, or none is at all. */
  lemma {:induction false} FrontIsFirst(p: Picture, y: nat, tiles: seq<Tile>, x: int)
    requires Sound(p) && AllFit(y, tiles)
    ensures match Front(p, y, tiles, x)
            case None => forall k :: 0 <= k < |tiles| ==> ColorAt(p, y, tiles[k], x) == 0
            case Some(t) => exists k :: 0 <= k < |tiles| && tiles[k] == t && ColorAt(p, y, t, x) != 0
                                        && forall j :: 0 <= j < k ==> ColorAt(p, y, tiles[j], x) == 0
  {
    if tiles != [] {
      var fewer := tiles[..|tiles| - 1];
      FrontIsFirst(p, y, fewer, x);
      match Front(p, y, fewer, x)
      case None =>
        assert forall j :: 0 <= j < |fewer| ==> ColorAt(p, y, tiles[j], x) == ColorAt(p, y, fewer[j], x);
      case Some(t) =>
        var k :| 0 <= k < |fewer| && fewer[k] == t && ColorAt(p, y, t, x) != 0
                 && forall j :: 0 <= j < k ==> ColorAt(p, y, fewer[j], x) == 0;
        assert tiles[k] == t && forall j :: 0 <= j < k ==> tiles[j] == fewer[j];
    }
  }

  // ----- painting -----

  /** The two line buffers show a list of tiles, front to back. */
  ghost predicate Shown(p: Picture, y: nat, tiles: seq<Tile>, palettes: seq<int>, priorities: seq<int>) {
    && Sound(p) && AllFit(y, tiles) && |palettes| == 256 && |priorities| == 256
    && forall x :: 0 <= x < 256 ==> ShownAt(p, y, tiles, x, palettes[x], priorities[x])
  }

  ghost predicate ShownAt(p: Picture, y: nat, tiles: seq<Tile>, x: int, palette: int, priority: int)
    requires Sound(p) && AllFit(y, tiles)
  {
    FrontFits(p, y, tiles, x);
    var front := Front(p, y, tiles, x);
    palette == PaletteOf(p, y, front, x) && priority == PriorityOf(front)
  }

  /** One more tile behind the others changes a column only where nothing is opaque yet. */
  lemma PaintBehind(p: Picture, y: nat, tiles: seq<Tile>, t: Tile, x: int, palette: int, priority: int)
    requires Sound(p) && AllFit(y, tiles) && Fits(y, t) && ShownAt(p, y, tiles, x, palette, priority)
    ensures AllFit(y, tiles + [t])
    ensures palette != 0 || ColorAt(p, y, t, x) == 0 ==> ShownAt(p, y, tiles + [t], x, palette, priority)
    ensures palette == 0 && ColorAt(p, y, t, x) != 0 ==>
              ShownAt(p, y, tiles + [t], x, 128 + t.sprite.attr / 2 % 8 * 16 + ColorAt(p, y, t, x),
                      t.sprite.attr / 16 % 4)
  {
    assert (tiles + [t])[..|tiles|] == tiles;
  }

  /** The pixel of a tile at an offset 0 to 7 from its left edge. */
  method PixelOf(p: Picture, y: nat, t: Tile, px: nat) returns (color: nat)
    requires Sound(p) && Fits(y, t) && px < 8
    ensures color == ColorAt(p, y, t, Left(t) + px)
  {
    var s := t.sprite;
    var sourceX := if Bit(s.attr, 6) == 1 then 7 - px else px;
    color := TilePixel(p.vram, 4, ChrBase(p, s), TileIndex(y, t), SourceY(y, s) % 8, sourceX);
  }

  lemma ShownBeside(p: Picture, y: nat, t: Tile, palettes: seq<int>, priorities: seq<int>, tiles: seq<Tile>)
    requires Fits(y, t) && Shown(p, y, tiles, palettes, priorities)
    ensures AllFit(y, tiles + [t])
    ensures forall x :: 0 <= x < 256 && !(Left(t) <= x < Left(t) + 8) ==>
              ShownAt(p, y, tiles + [t], x, palettes[x], priorities[x])
  {
    forall x | 0 <= x < 256 && !(Left(t) <= x < Left(t) + 8)
      ensures ShownAt(p, y, tiles + [t], x, palettes[x], priorities[x])
    {
      PaintBehind(p, y, tiles, t, x, palettes[x], priorities[x]);
    }
  }

  /** One pixel of a tile, where the line still shows nothing in front. */
  method PaintPixel(p: Picture, y: nat, t: Tile, px: nat, palettes: array<int>, priorities: array<int>,
                    ghost tiles: seq<Tile>)
    requires palettes != priorities && palettes.Length == 256 && priorities.Length == 256
    requires Sound(p) && Fits(y, t) && AllFit(y, tiles) && px < 8 && 0 <= Left(t) + px <= 255
    requires ShownAt(p, y, tiles, Left(t) + px, palettes[Left(t) + px], priorities[Left(t) + px])
    modifies palettes, priorities
    ensures ShownAt(p, y, tiles + [t], Left(t) + px, palettes[Left(t) + px], priorities[Left(t) + px])
    ensures forall x :: 0 <= x < 256 && x != Left(t) + px
                        ==> palettes[x] == old(palettes[x]) && priorities[x] == old(priorities[x])
  {
    var screenX := Left(t) + px;
    PaintBehind(p, y, tiles, t, screenX, palettes[screenX], priorities[screenX]);
    if palettes[screenX] == 0 {
      var color := PixelOf(p, y, t, px);
      if color != 0 {
        palettes[screenX] := 128 + t.sprite.attr / 2 % 8 * 16 + color;
        priorities[screenX] := t.sprite.attr / 16 % 4;
      }
    }
  }

  method PaintTile(p: Picture, y: nat, t: Tile, palettes: array<int>, priorities: array<int>, ghost tiles: seq<Tile>)
    requires palettes != priorities && Fits(y, t) && Shown(p, y, tiles, palettes[..], priorities[..])
    modifies palettes, priorities
    ensures Shown(p, y, tiles + [t], palettes[..], priorities[..])
  {
    ShownBeside(p, y, t, palettes[..], priorities[..], tiles);
    for px := 0 to 8
      invariant palettes.Length == 256 && priorities.Length == 256
      invariant forall x :: 0 <= x < 256 && Left(t) + px <= x < Left(t) + 8 ==>
                  ShownAt(p, y, tiles, x, palettes[x], priorities[x])
      invariant forall x :: 0 <= x < 256 && !(Left(t) + px <= x < Left(t) + 8) ==>
                  ShownAt(p, y, tiles + [t], x, palettes[x], priorities[x])
    {
      var screenX := Left(t) + px;
      if 0 <= screenX <= 255 {
        PaintPixel(p, y, t, px, palettes, priorities, tiles);
      }
    }
  }

  // ----- the scan -----

  lemma {:induction false} OnLineGrows(p: Picture, y: nat, j: nat, k: nat)
    requires Sound(p) && j <= k
    ensures OnLine(p, y, j) <= OnLine(p, y, k)
    decreases k - j
  {
    if j < k {
      OnLineStep(p, y, j + 1);
      OnLineGrows(p, y, j + 1, k);
      PrefixChain(OnLine(p, y, j), OnLine(p, y, j + 1), OnLine(p, y, k));
    }
  }

  lemma OnLineStep(p: Picture, y: nat, k: nat)
    requires Sound(p) && k > 0
    ensures OnLine(p, y, k - 1) <= OnLine(p, y, k)
  {
    ghost var last := Scanned(p, k - 1);
    assert OnLine(p, y, k) == OnLine(p, y, k - 1) + if Visible(y, last) then [last] else [];
  }

  lemma PrefixChain<T>(a: seq<T>, b: seq<T>, c: seq<T>)
    requires a <= b <= c
    ensures a <= c
  {
  }

  lemma {:induction false} TilesGrow(a: seq<Sprite>, b: seq<Sprite>)
    requires a <= b
    ensures TilesOf(a) <= TilesOf(b)
    decreases |b|
  {
    if |a| < |b| {
      TilesGrow(a, b[..|b| - 1]);
    } else {
      assert a == b;
    }
  }

  /** The sprites met so far, and the tiles of theirs that were admitted. */
  ghost predicate ScanState(p: Picture, y: nat, k: nat, visible: nat, tiles: nat, shown: seq<Tile>) {
    && Sound(p)
    && visible == |OnLine(p, y, k)| <= 32
    && shown == Take(TilesOf(OnLine(p, y, k)), 34)
    && tiles == |shown|
  }

  /** Stopping the scan at either limit loses nothing that would have been admitted. */
  lemma ScanComplete(p: Picture, y: nat, k: nat, visible: nat, tiles: nat, shown: seq<Tile>)
    requires k <= 128 && ScanState(p, y, k, visible, tiles, shown)
    requires k == 128 || visible == 32 || tiles == 34
    ensures shown == Admitted(p, y)
  {
    OnLineGrows(p, y, k, 128);
    var all := Take(OnLine(p, y, 128), 32);
    assert OnLine(p, y, k) <= all;
    TilesGrow(OnLine(p, y, k), all);
    if |OnLine(p, y, k)| == 32 {
      assert OnLine(p, y, k) == all;
    }
  }

  lemma ColumnsGrow(before: seq<Tile>, s: Sprite, n: nat)
    ensures before + Columns(s, n) + [Tile(s, n)] == before + Columns(s, n + 1)
    ensures before + Columns(s, 0) == before
  {
  }

  lemma ColumnsTaken(before: seq<Tile>, s: Sprite, n: nat, all: nat)
    requires n <= all && |before| + n <= 34 && (n == all || |before| + n == 34)
    ensures before + Columns(s, n) == Take(before + Columns(s, all), 34)
  {
  }

  /** One admitted sprite, column by column until the tile limit. */
  method PaintSprite(p: Picture, y: nat, s: Sprite, palettes: array<int>, priorities: array<int>,
                     tileCount: nat, ghost before: seq<Tile>)
    returns (count: nat, ghost after: seq<Tile>)
    requires palettes != priorities && Visible(y, s)
    requires tileCount == |before| < 34 && Shown(p, y, before, palettes[..], priorities[..])
    modifies palettes, priorities
    ensures after == Take(before + Columns(s, s.width / 8), 34) && count == |after|
    ensures Shown(p, y, after, palettes[..], priorities[..])
  {
    count, after := tileCount, before;
    var column := 0;
    ColumnsGrow(before, s, 0);
    while column < s.width / 8 && count < 34
      invariant 0 <= column <= s.width / 8 && count == |before| + column <= 34
      invariant after == before + Columns(s, column)
      invariant Shown(p, y, after, palettes[..], priorities[..])
    {
      PaintTile(p, y, Tile(s, column), palettes, priorities, after);
      ColumnsGrow(before, s, column);
      after := after + [Tile(s, column)];
      column := column + 1;
      count := count + 1;
    }
    ColumnsTaken(before, s, column, s.width / 8);
  }

  lemma ScanVisible(p: Picture, y: nat, k: nat, visible: nat, tiles: nat, shown: seq<Tile>)
    requires ScanState(p, y, k, visible, tiles, shown) && visible < 32 && tiles < 34 && Visible(y, Scanned(p, k))
    ensures var s := Scanned(p, k);
            var after := Take(shown + Columns(s, s.width / 8), 34);
            ScanState(p, y, k + 1, visible + 1, |after|, after)
  {
    var on := OnLine(p, y, k);
    var s := Scanned(p, k);
    assert OnLine(p, y, k + 1) == on + [s];
    assert (on + [s])[..|on|] == on;
    assert shown == TilesOf(on);
  }

  method Clear(buffer: array<int>)
    modifies buffer
    ensures forall x :: 0 <= x < buffer.Length ==> buffer[x] == 0
  {
    for x := 0 to buffer.Length
      invariant forall k :: 0 <= k < x ==> buffer[k] == 0
    {
      buffer[x] := 0;
    }
  }

  lemma NothingShown(p: Picture, y: nat, palettes: seq<int>, priorities: seq<int>)
    requires Sound(p) && |palettes| == 256 && |priorities| == 256
    requires forall x :: 0 <= x < 256 ==> palettes[x] == 0 && priorities[x] == 0
    ensures Shown(p, y, [], palettes, priorities) && ScanState(p, y, 0, 0, 0, [])
  {
  }

  /** One turn of the scan. */
  method ScanSprite(p: Picture, y: nat, k: nat, palettes: array<int>, priorities: array<int>,
                    visible: nat, tiles: nat, ghost shown: seq<Tile>)
    returns (visible': nat, tiles': nat, ghost shown': seq<Tile>)
    requires palettes != priorities && k < 128 && visible < 32 && tiles < 34
    requires ScanState(p, y, k, visible, tiles, shown) && Shown(p, y, shown, palettes[..], priorities[..])
    modifies palettes, priorities
    ensures ScanState(p, y, k + 1, visible', tiles', shown') && Shown(p, y, shown', palettes[..], priorities[..])
  {
    visible', tiles', shown' := visible, tiles, shown;
    var s := SpriteAt(p, (First(p) + k) % 128);
    if Visible(y, s) {
      visible' := visible + 1;
      ScanVisible(p, y, k, visible, tiles, shown);
      tiles', shown' := PaintSprite(p, y, s, palettes, priorities, tiles, shown);
    }
  }

  /** The line buffers after the whole scan show exactly the admitted tiles. */
  method SpriteLine(p: Picture, y: nat, palettes: array<int>, priorities: array<int>)
    requires Sound(p) && palettes != priorities && palettes.Length == 256 && priorities.Length == 256
    modifies palettes, priorities
    ensures Shown(p, y, Admitted(p, y), palettes[..], priorities[..])
  {
    Clear(palettes);
    Clear(priorities);
    NothingShown(p, y, palettes[..], priorities[..]);
    var scanned, visible, tiles := 0, 0, 0;
    ghost var shown: seq<Tile> := [];
    while scanned < 128 && visible < 32 && tiles < 34
      invariant 0 <= scanned <= 128 && ScanState(p, y, scanned, visible, tiles, shown)
      invariant Shown(p, y, shown, palettes[..], priorities[..])
      decreases 128 - scanned
    {
      visible, tiles, shown := ScanSprite(p, y, scanned, palettes, priorities, visible, tiles, shown);
      scanned := scanned + 1;
    }
    ScanComplete(p, y, scanned, visible, tiles, shown);
  }

  /** Read pixel by pixel: a column is zero exactly when every admitted tile is transparent there, and
      otherwise it is the colour of the first opaque admitted tile in rotated scan order. */
  lemma LinePixel(p: Picture, y: nat, palettes: seq<int>, priorities: seq<int>, x: int)
    requires Sound(p) && Shown(p, y, Admitted(p, y), palettes, priorities) && 0 <= x < 256
    ensures palettes[x] == 0 <==> forall k :: 0 <= k < |Admitted(p, y)| ==> ColorAt(p, y, Admitted(p, y)[k], x) == 0
    ensures palettes[x] != 0 ==> exists k ::
              && 0 <= k < |Admitted(p, y)|
              && (forall j :: 0 <= j < k ==> ColorAt(p, y, Admitted(p, y)[j], x) == 0)
              && ColorAt(p, y, Admitted(p, y)[k], x) != 0
              && palettes[x] == 128 + Admitted(p, y)[k].sprite.attr / 2 % 8 * 16 + ColorAt(p, y, Admitted(p, y)[k], x)
              && priorities[x] == Admitted(p, y)[k].sprite.attr / 16 % 4
  {
    FrontIsFirst(p, y, Admitted(p, y), x);
  }
}
