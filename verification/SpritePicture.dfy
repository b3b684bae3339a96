/** What a line of sprites looks like: each sprite is a picture read off the bit planes, flipped as a whole and put
    at its place on the screen. */
module SpritePicture {
  import opened Options
  import opened RomMapping
  import opened Sprites
  import RomChecksum

  // ----- a sprite as a picture -----

  /** One bit plane of an eight-pixel row, from the left. */
  function Plane(p: Picture, a: int, column: nat): nat
    requires Sound(p)
  {
    p.vram[a % 65536] / Pow2(7 - column % 8) % 2
  }

  /** The row of eight pixels that holds a pixel: characters lie in a 16 by 16 grid that wraps, 32 bytes each. */
  function RowBytes(p: Picture, s: Sprite, row: nat, column: nat): int {
    var across, down := (s.tile % 16 + column / 8) % 16, (s.tile / 16 + row / 8) % 16;
    var table := 2 * p.oamBase + if s.attr % 2 == 1 then 0x2000 * (1 + p.reg1 / 8 % 4) else 0;
    table + 32 * (16 * down + across) + 2 * (row % 8)
  }

  /** A pixel of the unflipped picture: planes 0 and 1 side by side, planes 2 and 3 sixteen bytes on. */
  function PicturePixel(p: Picture, s: Sprite, row: nat, column: nat): nat
    requires Sound(p)
  {
    var a := RowBytes(p, s, row, column);
    Plane(p, a, column) + 2 * Plane(p, a + 1, column) + 4 * Plane(p, a + 16, column) + 8 * Plane(p, a + 17, column)
  }

  function FlippedRow(s: Sprite, row: nat): nat
    requires row < s.height
  {
    if s.attr / 128 % 2 == 1 then s.height - 1 - row else row
  }

  function FlippedColumn(s: Sprite, column: nat): nat
    requires column < s.width
  {
    if s.attr / 64 % 2 == 1 then s.width - 1 - column else column
  }

  /** A pixel of the picture after its flips, bit 7 of the attributes top to bottom and bit 6 left to right. */
  function FlippedPixel(p: Picture, s: Sprite, row: nat, column: nat): nat
    requires Sound(p) && row < s.height && column < s.width
  {
    PicturePixel(p, s, FlippedRow(s, row), FlippedColumn(s, column))
  }

  // ----- its place on the screen -----

  /** The top row of a sprite is one line below its Y, and lines wrap at 256. */
  predicate RowOnLine(s: Sprite, y: nat, row: nat) {
    row < s.height && y == (s.y + 1 + row) % 256
  }

  predicate ColumnOnScreen(s: Sprite, column: nat) {
    column < s.width && 0 <= s.x + column < 256
  }

  /** A sprite is on a line exactly when one of its rows is, and one of its columns is on the screen, or its X is
      -256. */
  lemma VisibleExactly(y: nat, s: Sprite)
    requires y < 256 && s.height <= 256 && s.width > 0
    ensures Visible(y, s) <==>
              && (exists row: nat :: RowOnLine(s, y, row))
              && (s.x == -256 || exists column: nat :: ColumnOnScreen(s, column))
  {
    RowExists(y, s);
    ColumnExists(s);
  }

  lemma RowExists(y: nat, s: Sprite)
    requires y < 256 && s.height <= 256
    ensures (exists row: nat :: RowOnLine(s, y, row)) <==> LineOf(y, s) < s.height
  {
    if LineOf(y, s) < s.height {
      LineIsRow(y, s, LineOf(y, s));
      assert RowOnLine(s, y, LineOf(y, s));
    }
    if row: nat :| RowOnLine(s, y, row) {
      LineIsRow(y, s, row);
    }
  }

  lemma ColumnExists(s: Sprite)
    requires s.width > 0
    ensures (exists column: nat :: ColumnOnScreen(s, column)) <==> s.x + s.width > 0 && s.x <= 255
  {
    if s.x + s.width > 0 && s.x <= 255 {
      assert ColumnOnScreen(s, if s.x >= 0 then 0 else -s.x);
    }
  }

  lemma WrapOnce(x: int, n: int)
    ensures (x + n) % 256 == (x % 256 + n) % 256
  {
    assert x + n == 256 * (x / 256) + (x % 256 + n);
  }

  lemma DistanceWraps(d: int, n: int, y: int)
    requires 0 <= d < 256 && 0 <= n < 256 && 0 <= y < 256
    ensures y == (d + n) % 256 <==> (y + 256 - d) % 256 == n
  {
    assert (d + n) % 256 == if d + n < 256 then d + n else d + n - 256;
    assert (y + 256 - d) % 256 == if y < d then y + 256 - d else y - d;
  }

  lemma LineIsRow(y: nat, s: Sprite, row: nat)
    requires y < 256 && row < 256
    ensures y == (s.y + 1 + row) % 256 <==> LineOf(y, s) == row
  {
    var d := (s.y + 1) % 256;
    WrapOnce(s.y + 1, row);
    DistanceWraps(d, row, y);
  }

  lemma PowerTable(k: nat)
    requires k < 8
    ensures POW2[k] == Pow2(k)
  {
    assert Pow2(0) == 1 && Pow2(1) == 2 && Pow2(2) == 4 && Pow2(3) == 8;
    assert Pow2(4) == 16 && Pow2(5) == 32 && Pow2(6) == 64 && Pow2(7) == 128;
  }

  lemma FourPlanes(p: Picture, base: nat, column: nat)
    requires Sound(p)
    ensures TileColor(p.vram, 4, base, 7 - column % 8)
            == Plane(p, base, column) + 2 * Plane(p, base + 1, column) + 4 * Plane(p, base + 16, column)
               + 8 * Plane(p, base + 17, column)
  {
    hide Pow2;
    PowerTable(7 - column % 8);
    var bit := 7 - column % 8;
    assert TileColor(p.vram, 1, base, bit) == Plane(p, base, column);
    assert TileColor(p.vram, 2, base, bit) == Plane(p, base, column) + 2 * Plane(p, base + 1, column);
    assert TileColor(p.vram, 3, base, bit)
        == Plane(p, base, column) + 2 * Plane(p, base + 1, column) + 4 * Plane(p, base + 16, column);
  }

  lemma ColumnSplit(s: Sprite, t: Tile, px: nat)
    requires s.width % 8 == 0 && t.column < s.width / 8 && px < 8
    ensures var column := 8 * t.column + px;
            && column < s.width && column / 8 == t.column && column % 8 == px
            && (s.width - 1 - column) / 8 == s.width / 8 - 1 - t.column && (s.width - 1 - column) % 8 == 7 - px
  {
    assert s.width - 1 - (8 * t.column + px) == 8 * (s.width / 8 - 1 - t.column) + (7 - px);
  }

  lemma GridColumn(tile: nat, across: nat)
    ensures (tile % 16 + across) % 16 == (tile + across) % 16
  {
  }

  lemma RowOfTile(p: Picture, y: nat, t: Tile, row: nat, px: nat)
    requires Fits(y, t) && t.sprite.width % 8 == 0 && row < t.sprite.height && LineOf(y, t.sprite) == row && px < 8
    requires 8 * t.column + px < t.sprite.width
    ensures ChrBase(p, t.sprite) + TileIndex(y, t) * 32 + SourceY(y, t.sprite) % 8 % 8 * 2
            == RowBytes(p, t.sprite, FlippedRow(t.sprite, row), FlippedColumn(t.sprite, 8 * t.column + px))
  {
    var s := t.sprite;
    ColumnSplit(s, t, px);
    GridColumn(s.tile, if s.attr / 64 % 2 == 1 then s.width / 8 - 1 - t.column else t.column);
  }

  /** A tile shows its eight columns of the flipped picture, row by row from the sprite's top. */
  lemma TileShows(p: Picture, y: nat, t: Tile, x: int, row: nat)
    requires Sound(p) && Fits(y, t) && y < 256 && t.sprite.height <= 256 && t.sprite.width % 8 == 0
    requires RowOnLine(t.sprite, y, row) && Left(t) <= x < Left(t) + 8
    ensures x - t.sprite.x < t.sprite.width
    ensures ColorAt(p, y, t, x) == FlippedPixel(p, t.sprite, row, x - t.sprite.x)
  {
    hide TileColor, Plane, Pow2, TileIndex, RowBytes, ChrBase, SourceY, Visible, LineOf;
    var s, px := t.sprite, x - Left(t);
    LineIsRow(y, s, row);
    ColumnSplit(s, t, px);
    RowOfTile(p, y, t, row, px);
    var column := FlippedColumn(s, x - s.x);
    FourPlanes(p, RowBytes(p, s, FlippedRow(s, row), column), column);
  }

  // ----- the attribute table -----

  /** The two high bits of a sprite. */
  function HighBits(p: Picture, index: nat): nat
    requires Sound(p) && index < 128
  {
    p.oam[512 + index / 4] / Pow2(2 * (index % 4)) % 4
  }

  /** Four bytes and two bits: X has nine bits and a sign, then Y, the first character, the attributes, and the
      size. */
  lemma SpriteDecoded(p: Picture, index: nat)
    requires Sound(p) && index < 128
    ensures var s := SpriteAt(p, index);
            && -256 <= s.x < 256 && (s.x - p.oam[4 * index]) % 256 == 0 && (s.x < 0 <==> HighBits(p, index) % 2 == 1)
            && s.y == p.oam[4 * index + 1] && s.tile == p.oam[4 * index + 2] && s.attr == p.oam[4 * index + 3]
            && s.width == (if HighBits(p, index) / 2 == 1 then LARGE_W[p.mode] else SMALL_W[p.mode])
            && s.height == (if HighBits(p, index) / 2 == 1 then LARGE_H[p.mode] else SMALL_H[p.mode])
  {
    hide Pow2;
    PowerTable(index % 4 * 2);
    PowerTable(index % 4 * 2 + 1);
    var k := index % 4 * 2;
    var high := p.oam[512 + index / 4];
    Pow2Adds(1, k);
    PowerTable(1);
    NextBit(high, Pow2(k));
  }

  lemma NextBit(v: nat, m: nat)
    requires m > 0
    ensures v / (2 * m) % 2 == v / m % 4 / 2 && v / m % 4 % 2 == v / m % 2
  {
    Halves(v, m);
    var q := v / m;
    assert q % 4 == q % 2 + 2 * (q / 2 % 2);
  }

  lemma Halves(v: nat, m: nat)
    requires m > 0
    ensures v / (2 * m) == v / m / 2
  {
    var q, r := v / m, v % m;
    RomChecksum.DivModLaw(v, m);
    assert v == (q / 2) * (2 * m) + (q % 2 * m + r);
    assert q % 2 * m + r < 2 * m;
    DivUnique(v, 2 * m, q / 2, q % 2 * m + r);
  }

  /** The eight pairs of sizes: square in the first six modes, and twice as high as wide in the last two but for the
      large ones of mode 7. */
  lemma SizePairs(mode: nat)
    requires mode < 8
    ensures mode < 6 ==> Width(mode, false) == Height(mode, false) && Width(mode, true) == Height(mode, true)
    ensures Width(mode, false) == (if mode < 3 then 8 else if mode == 5 then 32 else 16)
    ensures Width(mode, true) == (if mode == 0 then 16 else if mode == 2 || mode == 4 || mode == 5 then 64 else 32)
    ensures mode >= 6 ==> Height(mode, false) == 2 * Width(mode, false)
    ensures mode >= 6 ==> Height(mode, true) == if mode == 6 then 2 * Width(mode, true) else Width(mode, true)
  {
  }

  /** Every size is a multiple of eight pixels and at most 64. */
  lemma SizesListed(p: Picture, index: nat)
    requires Sound(p) && index < 128
    ensures var s := SpriteAt(p, index); s.width % 8 == 0 && 8 <= s.width <= 64 && 8 <= s.height <= 64
  {
    assert forall m :: 0 <= m < 8 ==> LARGE_W[m] % 8 == 0 && SMALL_W[m] % 8 == 0;
  }

  /** With rotation the scan starts at the sprite whose words the address register points at. */
  lemma ScanStart(p: Picture)
    ensures p.rotate ==> 2 * First(p) <= p.oamAddress % 256 < 2 * First(p) + 2
    ensures !p.rotate ==> First(p) == 0
  {
  }

  // ----- the line -----

  /** The pixel a tile puts at a screen column: that of the flipped picture of its sprite. */
  function Drawn(p: Picture, y: nat, t: Tile, x: int): nat
    requires Sound(p)
  {
    var s, row := t.sprite, (y - t.sprite.y - 1) % 256;
    if 0 <= x - s.x - 8 * t.column < 8 && row < s.height && 0 <= x - s.x < s.width
    then FlippedPixel(p, s, row, x - s.x) else 0
  }

  lemma RowIsLine(y: nat, s: Sprite)
    ensures (y - s.y - 1) % 256 == LineOf(y, s)
  {
    var d := (s.y + 1) % 256;
    assert s.y + 1 == 256 * ((s.y + 1) / 256) + d;
    assert y - s.y - 1 == y + 256 - d - 256 * ((s.y + 1) / 256 + 1);
  }

  lemma FitsRow(y: nat, t: Tile)
    requires Fits(y, t)
    ensures LineOf(y, t.sprite) < t.sprite.height && t.column < t.sprite.width / 8
  {
  }

  lemma ColorOutside(p: Picture, y: nat, t: Tile, x: int)
    requires Sound(p) && Fits(y, t) && !(Left(t) <= x < Left(t) + 8)
    ensures ColorAt(p, y, t, x) == 0
  {
  }

  lemma DrawnIsColor(p: Picture, y: nat, t: Tile, x: int)
    requires Sound(p) && Fits(y, t) && y < 256 && t.sprite.height <= 256 && t.sprite.width % 8 == 0
    ensures ColorAt(p, y, t, x) == Drawn(p, y, t, x)
  {
    hide FlippedPixel, ColorAt, LineOf, Fits, Sound;
    var row := (y - t.sprite.y - 1) % 256;
    FitsRow(y, t);
    RowIsLine(y, t.sprite);
    LineIsRow(y, t.sprite, row);
    if Left(t) <= x < Left(t) + 8 {
      TileShows(p, y, t, x, row);
    } else {
      ColorOutside(p, y, t, x);
    }
  }

  /** Every admitted tile is a column of a sprite of the table that is on the line. */
  lemma {:induction false} AdmittedSprites(p: Picture, y: nat, k: nat, n: nat)
    requires Sound(p)
    ensures n < |OnLine(p, y, k)| ==>
              exists i: nat :: i < k && OnLine(p, y, k)[n] == Scanned(p, i) && Visible(y, Scanned(p, i))
  {
    hide SpriteAt, Visible;
    if n >= |OnLine(p, y, k)| {
      return;
    }
    if n < |OnLine(p, y, k - 1)| {
      AdmittedSprites(p, y, k - 1, n);
      var i: nat :| i < k - 1 && OnLine(p, y, k - 1)[n] == Scanned(p, i) && Visible(y, Scanned(p, i));
      assert OnLine(p, y, k)[n] == Scanned(p, i);
    } else {
      assert OnLine(p, y, k)[n] == Scanned(p, k - 1);
    }
  }

  lemma {:induction false} TileSprite(sprites: seq<Sprite>, n: nat)
    requires n < |TilesOf(sprites)|
    ensures exists i: nat :: i < |sprites| && TilesOf(sprites)[n].sprite == sprites[i]
                             && TilesOf(sprites)[n].column < sprites[i].width / 8
  {
    var last := |sprites| - 1;
    if n < |TilesOf(sprites[..last])| {
      TileSprite(sprites[..last], n);
      var i: nat :| i < last && TilesOf(sprites[..last])[n].sprite == sprites[..last][i]
                    && TilesOf(sprites[..last])[n].column < sprites[..last][i].width / 8;
      assert sprites[i] == sprites[..last][i];
    } else {
      assert TilesOf(sprites)[n] == Columns(sprites[last], sprites[last].width / 8)[n - |TilesOf(sprites[..last])|];
    }
  }

  lemma AdmittedFits(p: Picture, y: nat, n: nat)
    requires Sound(p) && n < |Admitted(p, y)|
    ensures Fits(y, Admitted(p, y)[n])
    ensures Admitted(p, y)[n].sprite.width % 8 == 0 && Admitted(p, y)[n].sprite.height <= 256
  {
    hide OnLine, TilesOf, SpriteAt, Visible;
    var on := Take(OnLine(p, y, 128), 32);
    TileSprite(on, n);
    assert Admitted(p, y)[n] == TilesOf(on)[n];
    var i: nat :| i < |on| && TilesOf(on)[n].sprite == on[i] && TilesOf(on)[n].column < on[i].width / 8;
    assert on[i] == OnLine(p, y, 128)[i];
    AdmittedSprites(p, y, 128, i);
    var j: nat :| j < 128 && OnLine(p, y, 128)[i] == Scanned(p, j) && Visible(y, Scanned(p, j));
    SizesListed(p, (First(p) + j) % 128);
  }

  /** Within the limits every column of every sprite on the line is admitted. */
  lemma AllAdmitted(p: Picture, y: nat, i: nat, column: nat)
    requires Sound(p) && i < 128
    ensures && Visible(y, Scanned(p, i)) && column < Scanned(p, i).width / 8
            && |OnLine(p, y, 128)| <= 32 && |TilesOf(OnLine(p, y, 128))| <= 34
            ==> Tile(Scanned(p, i), column) in Admitted(p, y)
  {
    hide OnLine, TilesOf, SpriteAt, Visible;
    if Visible(y, Scanned(p, i)) && column < Scanned(p, i).width / 8 {
      OnLineHas(p, y, i, 128);
      TilesHave(OnLine(p, y, 128), Scanned(p, i), column);
    }
  }

  lemma {:induction false} OnLineHas(p: Picture, y: nat, i: nat, k: nat)
    requires Sound(p) && i < k && Visible(y, Scanned(p, i))
    ensures Scanned(p, i) in OnLine(p, y, k)
  {
    if i + 1 < k {
      OnLineHas(p, y, i, k - 1);
    }
  }

  lemma {:induction false} TilesHave(sprites: seq<Sprite>, s: Sprite, column: nat)
    requires s in sprites && column < s.width / 8
    ensures Tile(s, column) in TilesOf(sprites)
  {
    var last := |sprites| - 1;
    if sprites[last] == s {
      assert Columns(s, s.width / 8)[column] == Tile(s, column);
    } else {
      assert s in sprites[..last];
      TilesHave(sprites[..last], s, column);
    }
  }

  /** The whole line in pictures: a column is zero exactly when every admitted tile draws nothing there, and otherwise
      it is the palette and pixel of the first one that does. */
  lemma LineOfPictures(p: Picture, y: nat, palettes: seq<int>, priorities: seq<int>, x: int)
    requires Sound(p) && Shown(p, y, Admitted(p, y), palettes, priorities) && 0 <= x < 256 && y < 256
    ensures palettes[x] == 0 <==> forall k :: 0 <= k < |Admitted(p, y)| ==> Drawn(p, y, Admitted(p, y)[k], x) == 0
    ensures palettes[x] != 0 ==> exists k ::
              && 0 <= k < |Admitted(p, y)| && Drawn(p, y, Admitted(p, y)[k], x) != 0
              && (forall j :: 0 <= j < k ==> Drawn(p, y, Admitted(p, y)[j], x) == 0)
              && palettes[x] == 128 + Admitted(p, y)[k].sprite.attr / 2 % 8 * 16 + Drawn(p, y, Admitted(p, y)[k], x)
              && priorities[x] == Admitted(p, y)[k].sprite.attr / 16 % 4
  {
    hide Drawn, ColorAt, Front, OnLine, TilesOf;
    forall k | 0 <= k < |Admitted(p, y)|
      ensures Fits(y, Admitted(p, y)[k]) && ColorAt(p, y, Admitted(p, y)[k], x) == Drawn(p, y, Admitted(p, y)[k], x)
    {
      AdmittedFits(p, y, k);
      DrawnIsColor(p, y, Admitted(p, y)[k], x);
    }
    LinePixel(p, y, palettes, priorities, x);
  }
}
