/**
 * The ILI9341 display driver seen from the bus: every `_write_cmd` is a
 * `Cmd` record and every `_write_data` a `Data` record, appended to the log
 * `Display.bus` in the order the driver issues them. Chip-select and D/C pin
 * toggling, the SPI peripheral itself and the bring-up delays are not part of
 * this model.
 */
module Ili9341 {
  import opened Bits
  import opened Sequences
  import opened Optional

  /** One transaction on the display bus. */
  datatype BusRecord = Cmd(op: byte) | Data(bytes: seq<byte>)

  // Commands of the ILI9341 command set that the driver sends.
  const SWRESET: byte := 0x01
  const SLPOUT: byte := 0x11
  const INVON: byte := 0x21
  const DISPON: byte := 0x29
  const CASET: byte := 0x2A
  const RASET: byte := 0x2B
  const RAMWR: byte := 0x2C
  const MADCTL: byte := 0x36
  const COLMOD: byte := 0x3A

  /** Interface pixel format 16 bits per pixel (RGB565). */
  const COLOR_MODE_RGB565: byte := 0x55

  /**
   * Glyph size in pixels. Products and quotients below write these values
   * (and the chunk sizes 512 and 256) out as literals, which keeps the
   * arithmetic linear for the solver.
   */
  const FONT_WIDTH := 5
  const FONT_HEIGHT := 8

  /** `fill_rect` streams colour data in blocks of at most this many bytes. */
  const CHUNK_SIZE := 512
  const PIXELS_PER_CHUNK := CHUNK_SIZE / 2

  // Memory access control flags.
  const MADCTL_MY: nat := 0x80
  const MADCTL_MX: nat := 0x40
  const MADCTL_MV: nat := 0x20
  const MADCTL_ML: nat := 0x10
  const MADCTL_BGR: nat := 0x08
  const MADCTL_MH: nat := 0x04

  datatype Orientation = Portrait | Landscape | PortraitInv | LandscapeInv

  /** The ORIENTATIONS table: the MADCTL byte of each orientation. */
  function Madctl(o: Orientation): byte
  {
    match o
    case Portrait => 0x48
    case Landscape => 0x28
    case PortraitInv => 0x88
    case LandscapeInv => 0xA8
  }

  /** Each entry is the bitwise OR of the flags the table names for it. */
  lemma MadctlValue(o: Orientation)
    ensures Madctl(o) == match o
      case Portrait => BitOr(MADCTL_MX, MADCTL_BGR)
      case Landscape => BitOr(MADCTL_MV, MADCTL_BGR)
      case PortraitInv => BitOr(MADCTL_MY, MADCTL_BGR)
      case LandscapeInv => BitOr(BitOr(MADCTL_MV, MADCTL_MY), MADCTL_BGR)
  {
    assert Pow2(4) == 16 && Pow2(5) == 32 && Pow2(6) == 64 && Pow2(7) == 128;
    match o
    case Portrait =>
      assert Shl(1, 6) == MADCTL_MX;
      OrDisjoint(1, MADCTL_BGR, 6);
    case Landscape =>
      assert Shl(1, 5) == MADCTL_MV;
      OrDisjoint(1, MADCTL_BGR, 5);
    case PortraitInv =>
      assert Shl(1, 7) == MADCTL_MY;
      OrDisjoint(1, MADCTL_BGR, 7);
    case LandscapeInv =>
      assert Shl(1, 7) == MADCTL_MY && Shl(0xA, 4) == 0xA0;
      BitOrCommutes(MADCTL_MV, MADCTL_MY);
      OrDisjoint(1, MADCTL_MV, 7);
      OrDisjoint(0xA, MADCTL_BGR, 4);
  }

  /**
   * Every orientation selects the BGR filter; exactly the two landscape ones
   * exchange rows and columns, and exactly the two inverted ones reverse the
   * row order.
   */
  lemma MadctlFlags(o: Orientation)
    ensures BitSet(Madctl(o), 3)
    ensures BitSet(Madctl(o), 5) <==> o == Landscape || o == LandscapeInv
    ensures BitSet(Madctl(o), 7) <==> o == PortraitInv || o == LandscapeInv
    ensures BitSet(Madctl(o), 6) <==> o == Portrait
  {
    assert Pow2(3) == 8 && Pow2(5) == 32 && Pow2(6) == 64 && Pow2(7) == 128;
    var m := Madctl(o);
    match o
    case Portrait =>
      assert m / 8 == 9 && m / 32 == 2 && m / 64 == 1 && m / 128 == 0;
    case Landscape =>
      assert m / 8 == 5 && m / 32 == 1 && m / 64 == 0 && m / 128 == 0;
    case PortraitInv =>
      assert m / 8 == 17 && m / 32 == 4 && m / 64 == 2 && m / 128 == 1;
    case LandscapeInv =>
      assert m / 8 == 21 && m / 32 == 5 && m / 64 == 2 && m / 128 == 1;
  }

  /** Big-endian 16-bit value of two bytes. */
  function Unpack16(b: seq<byte>): int
    requires |b| == 2
  {
    b[0] as int * 256 + b[1] as int
  }

  /** `ustruct.pack(">H", v)`: most significant byte first; only the low 16 bits of `v` are kept. */
  function Pack16(v: int): (r: seq<byte>)
    ensures |r| == 2 && Unpack16(r) == v % 0x1_0000
  {
    [(v % 0x1_0000) / 256, v % 256]
  }

  /** Packing a decoded pair gives the pair back. */
  lemma Pack16Unpack16(b: seq<byte>)
    requires |b| == 2
    ensures Pack16(Unpack16(b)) == b
  {
  }

  /** The records of `set_window(x, y, w, h)`. */
  function WindowRecords(x: int, y: int, w: int, h: int): seq<BusRecord>
  {
    [Cmd(CASET), Data(Pack16(x) + Pack16(x + w - 1)),
     Cmd(RASET), Data(Pack16(y) + Pack16(y + h - 1)),
     Cmd(RAMWR)]
  }

  /**
   * For coordinates that fit in 16 bits, the window is: column range
   * `x .. x+w-1`, then row range `y .. y+h-1`, each big-endian, then RAMWR.
   */
  lemma WindowLayout(x: int, y: int, w: int, h: int)
    requires 0 <= x && 0 <= x + w - 1 < 0x1_0000
    requires 0 <= y && 0 <= y + h - 1 < 0x1_0000
    requires x < 0x1_0000 && y < 0x1_0000
    ensures var r := WindowRecords(x, y, w, h);
      |r| == 5 && r[0] == Cmd(CASET) && r[2] == Cmd(RASET) && r[4] == Cmd(RAMWR) &&
      r[1].Data? && |r[1].bytes| == 4 &&
      Unpack16(r[1].bytes[..2]) == x && Unpack16(r[1].bytes[2..]) == x + w - 1 &&
      r[3].Data? && |r[3].bytes| == 4 &&
      Unpack16(r[3].bytes[..2]) == y && Unpack16(r[3].bytes[2..]) == y + h - 1
  {
    var r := WindowRecords(x, y, w, h);
    assert r[1].bytes[..2] == Pack16(x) && r[1].bytes[2..] == Pack16(x + w - 1);
    assert r[3].bytes[..2] == Pack16(y) && r[3].bytes[2..] == Pack16(y + h - 1);
  }

  /** The records of `pixel(x, y, color)`. */
  function PixelRecords(x: int, y: int, color: int): seq<BusRecord>
  {
    WindowRecords(x, y, 1, 1) + [Data(Pack16(color))]
  }

  /**
   * `pixel_count // pixels_per_chunk` and `pixel_count % pixels_per_chunk`
   * (Python's floor division): the number of full chunks and the pixels left.
   */
  function ChunkSplit(pixelCount: int): (r: (int, int))
    ensures r.0 * 256 + r.1 == pixelCount
    ensures 0 <= r.1 < PIXELS_PER_CHUNK
  {
    (pixelCount / 256, pixelCount % 256)
  }

  /** The data records `fill_rect` streams after the window: the full chunks, then the remainder if any. */
  function ChunkStream(colorBytes: seq<byte>, fullChunks: int, remaining: int): seq<BusRecord>
  {
    Repeat([Data(Repeat(colorBytes, PIXELS_PER_CHUNK))], fullChunks)
    + (if remaining != 0 then [Data(Repeat(colorBytes, remaining))] else [])
  }

  /** The records of `fill_rect(x, y, w, h, color)`. */
  function FillRectRecords(x: int, y: int, w: int, h: int, color: int): seq<BusRecord>
  {
    var (fullChunks, remaining) := ChunkSplit(w * h);
    WindowRecords(x, y, w, h) + ChunkStream(Pack16(color), fullChunks, remaining)
  }

  /** Total number of data bytes in a stretch of records. */
  function DataBytes(rs: seq<BusRecord>): nat
  {
    if rs == [] then 0
    else DataBytes(rs[..|rs| - 1]) + (match rs[|rs| - 1] case Cmd(_) => 0 case Data(b) => |b|)
  }

  lemma {:induction false} DataBytesAppend(a: seq<BusRecord>, b: seq<BusRecord>)
    ensures DataBytes(a + b) == DataBytes(a) + DataBytes(b)
  {
    if b == [] {
      assert a + b == a;
    } else {
      assert (a + b)[..|a + b| - 1] == a + b[..|b| - 1];
      assert (a + b)[|a + b| - 1] == b[|b| - 1];
      DataBytesAppend(a, b[..|b| - 1]);
    }
  }

  lemma {:induction false} DataBytesRepeat(d: seq<byte>, n: int)
    ensures DataBytes(Repeat([Data(d)], n)) == Max0(n) * |d|
    decreases Max0(n)
  {
    if n > 0 {
      var r := Repeat([Data(d)], n);
      RepeatSnoc([Data(d)], n);
      assert r[..|r| - 1] == Repeat([Data(d)], n - 1);
      DataBytesRepeat(d, n - 1);
    }
  }

  /**
   * After the window, `fill_rect` writes only data records; each is non-empty,
   * at most one chunk long and a repetition of the big-endian colour; there is
   * one record per full chunk and a trailing record exactly when pixels remain.
   */
  lemma FillRectShape(x: int, y: int, w: int, h: int, color: int)
    requires w * h >= 0
    ensures var r := FillRectRecords(x, y, w, h, color);
      var (fullChunks, remaining) := ChunkSplit(w * h);
      r[..5] == WindowRecords(x, y, w, h) &&
      |r| == 5 + fullChunks + (if remaining != 0 then 1 else 0) &&
      forall j :: 5 <= j < |r| ==>
        r[j].Data? && 0 < |r[j].bytes| <= CHUNK_SIZE &&
        forall i :: 0 <= i < |r[j].bytes| ==> r[j].bytes[i] == Pack16(color)[i % 2]
  {
    var (fullChunks, remaining) := ChunkSplit(w * h);
    ChunkStreamShape(Pack16(color), fullChunks, remaining);
  }

  lemma ChunkStreamShape(colorBytes: seq<byte>, fullChunks: int, remaining: int)
    requires |colorBytes| == 2 && fullChunks >= 0 && 0 <= remaining < PIXELS_PER_CHUNK
    ensures var r := ChunkStream(colorBytes, fullChunks, remaining);
      |r| == fullChunks + (if remaining != 0 then 1 else 0) &&
      forall j :: 0 <= j < |r| ==>
        r[j].Data? && 0 < |r[j].bytes| <= CHUNK_SIZE &&
        forall i :: 0 <= i < |r[j].bytes| ==> r[j].bytes[i] == colorBytes[i % 2]
  {
    var r := ChunkStream(colorBytes, fullChunks, remaining);
    var chunk := Data(Repeat(colorBytes, PIXELS_PER_CHUNK));
    forall j | 0 <= j < |r|
      ensures r[j].Data? && 0 < |r[j].bytes| <= CHUNK_SIZE
      ensures forall i :: 0 <= i < |r[j].bytes| ==> r[j].bytes[i] == colorBytes[i % 2]
    {
      var n := if j < fullChunks then PIXELS_PER_CHUNK else remaining;
      if j < fullChunks {
        RepeatAt([chunk], fullChunks, j);
      }
      assert r[j] == Data(Repeat(colorBytes, n));
      forall i | 0 <= i < 2 * n ensures Repeat(colorBytes, n)[i] == colorBytes[i % 2] {
        RepeatAt(colorBytes, n, i);
      }
    }
  }

  /** For a rectangle of non-negative size, `fill_rect` streams exactly `2*w*h` bytes of colour after the window. */
  lemma FillRectDataBytes(x: int, y: int, w: int, h: int, color: int)
    requires w >= 0 && h >= 0
    ensures var r := FillRectRecords(x, y, w, h, color);
      |r| >= 5 && DataBytes(r[5..]) == 2 * (w * h)
  {
    var pixelCount := w * h;
    assert pixelCount >= 0;
    var split := ChunkSplit(pixelCount);
    var stream := ChunkStream(Pack16(color), split.0, split.1);
    assert FillRectRecords(x, y, w, h, color)[5..] == stream;
    ChunkStreamBytes(Pack16(color), split.0, split.1);
    assert split.0 * 512 + 2 * split.1 == 2 * pixelCount;
  }

  lemma ChunkStreamBytes(colorBytes: seq<byte>, fullChunks: int, remaining: int)
    requires |colorBytes| == 2 && fullChunks >= 0 && remaining >= 0
    ensures DataBytes(ChunkStream(colorBytes, fullChunks, remaining)) == fullChunks * 512 + 2 * remaining
  {
    var chunkData := Repeat(colorBytes, PIXELS_PER_CHUNK);
    var chunks := Repeat([Data(chunkData)], fullChunks);
    var tail := if remaining != 0 then [Data(Repeat(colorBytes, remaining))] else [];
    DataBytesAppend(chunks, tail);
    DataBytesRepeat(chunkData, fullChunks);
    assert DataBytes(tail) == 2 * remaining by {
      if remaining != 0 {
        assert tail[..0] == [];
      }
    }
  }

  /** `pixel` writes exactly what a one-by-one `fill_rect` writes. */
  lemma PixelIsUnitFillRect(x: int, y: int, color: int)
    ensures PixelRecords(x, y, color) == FillRectRecords(x, y, 1, 1, color)
  {
    var c := Pack16(color);
    RepeatSnoc(c, 1);
    RepeatNone(c, 0);
    assert [] + c == c;
    RepeatNone([Data(Repeat(c, PIXELS_PER_CHUNK))], 0);
    assert ChunkSplit(1 * 1) == (0, 1);
    assert ChunkStream(c, 0, 1) == [Data(c)];
  }

  /** The built-in 5x8 font: five column bytes per glyph, ASCII 32 onwards. */
  const DEFAULT_FONT: seq<byte> := [
    0x00, 0x00, 0x00, 0x00, 0x00, 0x00, 0x00, 0x5F, 0x00, 0x00, 0x00, 0x07, 0x00, 0x07, 0x00,
    0x14, 0x7F, 0x14, 0x7F, 0x14, 0x24, 0x2A, 0x7F, 0x2A, 0x12, 0x23, 0x13, 0x08, 0x64, 0x62,
    0x36, 0x49, 0x55, 0x22, 0x50, 0x00, 0x05, 0x03, 0x00, 0x00, 0x00, 0x1C, 0x22, 0x41, 0x00,
    0x00, 0x41, 0x22, 0x1C, 0x00, 0x08, 0x2A, 0x1C, 0x2A, 0x08, 0x08, 0x08, 0x3E, 0x08, 0x08,
    0x00, 0x50, 0x30, 0x00, 0x00, 0x08, 0x08, 0x08, 0x08, 0x08, 0x00, 0x60, 0x60, 0x00, 0x00,
    0x20, 0x10, 0x08, 0x04, 0x02, 0x3E, 0x51, 0x49, 0x45, 0x3E, 0x00, 0x42, 0x7F, 0x40, 0x00,
    0x42, 0x61, 0x51, 0x49, 0x46, 0x21, 0x41, 0x45, 0x4B, 0x31, 0x18, 0x14, 0x12, 0x7F, 0x10,
    0x27, 0x45, 0x45, 0x45, 0x39, 0x3C, 0x4A, 0x49, 0x49, 0x30, 0x01, 0x71, 0x09, 0x05, 0x03,
    0x36, 0x49, 0x49, 0x49, 0x36, 0x06, 0x49, 0x49, 0x29, 0x1E, 0x00, 0x36, 0x36, 0x00, 0x00,
    0x00, 0x56, 0x36, 0x00, 0x00, 0x00, 0x08, 0x14, 0x22, 0x41, 0x14, 0x14, 0x14, 0x14, 0x14,
    0x41, 0x22, 0x14, 0x08, 0x00, 0x02, 0x01, 0x51, 0x09, 0x06, 0x32, 0x49, 0x79, 0x41, 0x3E,
    0x7E, 0x11, 0x11, 0x11, 0x7E, 0x7F, 0x49, 0x49, 0x49, 0x36, 0x3E, 0x41, 0x41, 0x41, 0x22,
    0x7F, 0x41, 0x41, 0x22, 0x1C, 0x7F, 0x49, 0x49, 0x49, 0x41, 0x7F, 0x09, 0x09, 0x01, 0x01,
    0x3E, 0x41, 0x41, 0x51, 0x32, 0x7F, 0x08, 0x08, 0x08, 0x7F, 0x00, 0x41, 0x7F, 0x41, 0x00,
    0x20, 0x40, 0x41, 0x3F, 0x01, 0x7F, 0x08, 0x14, 0x22, 0x41, 0x7F, 0x40, 0x40, 0x40, 0x40,
    0x7F, 0x02, 0x04, 0x02, 0x7F, 0x7F, 0x04, 0x08, 0x10, 0x7F, 0x3E, 0x41, 0x41, 0x41, 0x3E,
    0x7F, 0x09, 0x09, 0x09, 0x06, 0x3E, 0x41, 0x51, 0x21, 0x5E, 0x7F, 0x09, 0x19, 0x29, 0x46,
    0x46, 0x49, 0x49, 0x49, 0x31, 0x01, 0x01, 0x7F, 0x01, 0x01, 0x3F, 0x40, 0x40, 0x40, 0x3F,
    0x1F, 0x20, 0x40, 0x20, 0x1F, 0x7F, 0x20, 0x18, 0x20, 0x7F, 0x63, 0x14, 0x08, 0x14, 0x63,
    0x07, 0x08, 0x70, 0x08, 0x07, 0x61, 0x51, 0x49, 0x45, 0x43, 0x00, 0x7F, 0x41, 0x41, 0x00,
    0x02, 0x04, 0x08, 0x10, 0x20, 0x00, 0x41, 0x41, 0x7F, 0x00, 0x04, 0x02, 0x01, 0x02, 0x04,
    0x40, 0x40, 0x40, 0x40, 0x40, 0x00, 0x01, 0x02, 0x04, 0x00, 0x20, 0x54, 0x54, 0x54, 0x78,
    0x7F, 0x48, 0x44, 0x44, 0x38, 0x38, 0x44, 0x44, 0x44, 0x20, 0x38, 0x44, 0x44, 0x48, 0x7F,
    0x38, 0x54, 0x54, 0x54, 0x18, 0x08, 0x7E, 0x09, 0x01, 0x02, 0x08, 0x14, 0x54, 0x54, 0x3C,
    0x7F, 0x08, 0x04, 0x04, 0x78, 0x00, 0x44, 0x7D, 0x40, 0x00, 0x20, 0x40, 0x44, 0x3D, 0x00,
    0x00, 0x7F, 0x10, 0x28, 0x44, 0x00, 0x41, 0x7F, 0x40, 0x00, 0x7C, 0x04, 0x18, 0x04, 0x78,
    0x7C, 0x08, 0x04, 0x04, 0x78, 0x38, 0x44, 0x44, 0x44, 0x38, 0x7C, 0x14, 0x14, 0x14, 0x08,
    0x08, 0x14, 0x14, 0x18, 0x7C, 0x7C, 0x08, 0x04, 0x04, 0x08, 0x48, 0x54, 0x54, 0x54, 0x20,
    0x04, 0x3F, 0x44, 0x40, 0x20, 0x3C, 0x40, 0x40, 0x20, 0x7C, 0x1C, 0x20, 0x40, 0x20, 0x1C,
    0x3C, 0x40, 0x30, 0x40, 0x3C, 0x44, 0x28, 0x10, 0x28, 0x44, 0x0C, 0x50, 0x50, 0x50, 0x3C,
    0x44, 0x64, 0x54, 0x4C, 0x44, 0x00, 0x08, 0x36, 0x41, 0x00, 0x00, 0x00, 0x7F, 0x00, 0x00,
    0x00, 0x41, 0x36, 0x08, 0x00, 0x08, 0x08, 0x2A, 0x1C, 0x08, 0x08, 0x1C, 0x2A, 0x08, 0x08
  ]

  /** `ord(char)`, with codes outside 32..126 replaced by the space. */
  function GlyphCode(ch: char): (code: int)
    ensures 32 <= code <= 126
    ensures 32 <= ch as int <= 126 ==> code == ch as int
    ensures !(32 <= ch as int <= 126) ==> code == 32
  {
    var code := ch as int;
    if code < 32 || code > 126 then 32 else code
  }

  /** Size of the font table: 96 glyphs of five bytes (the last one, code 127, is never selected). */
  const FONT_TABLE_SIZE := 480

  lemma DefaultFontSize()
    ensures |DEFAULT_FONT| == FONT_TABLE_SIZE
  {
  }

  /** `start_index`: the glyph's five bytes lie inside the font table. */
  function GlyphStart(ch: char): (i: nat)
    ensures i % 5 == 0 && i + 5 <= FONT_TABLE_SIZE
  {
    (GlyphCode(ch) - 32) * 5
  }

  /** Column `col` of the glyph (`font_data[col_idx]`) in the font table `font`. */
  function GlyphColumn(font: seq<byte>, ch: char, col: int): byte
    requires |font| == FONT_TABLE_SIZE && 0 <= col < FONT_WIDTH
  {
    font[GlyphStart(ch) + col]
  }

  /** `(byte >> (7 - row_idx)) & 0x01`: row `row` of a column is lit iff bit `7 - row` is set. */
  function PixelOn(column: byte, row: int): (on: bool)
    requires 0 <= row < FONT_HEIGHT
    ensures on <==> BitSet(column, 7 - row)
  {
    AndOne(Shr(column, 7 - row));
    BitAnd(Shr(column, 7 - row), 1) == 1
  }

  /** A drawing operation of `draw_char`: a `pixel` call or a `fill_rect` of a square block. */
  datatype DrawOp = PixelOp(px: int, py: int, color: int) | BlockOp(left: int, top: int, size: int, color: int)

  /** The operation drawn for column `col`, row `row` of the glyph of `ch`. */
  function CharOp(font: seq<byte>, x: int, y: int, ch: char, fg: int, bg: int, scale: int, col: int, row: int): DrawOp
    requires |font| == FONT_TABLE_SIZE && 0 <= col < FONT_WIDTH && 0 <= row < FONT_HEIGHT
  {
    var color := if PixelOn(GlyphColumn(font, ch, col), row) then fg else bg;
    if scale == 1 then PixelOp(x + col, y + row, color)
    else BlockOp(x + col * scale, y + row * scale, scale, color)
  }

  /** The operations of `draw_char`, column by column and row by row within a column. */
  function DrawCharOps(font: seq<byte>, x: int, y: int, ch: char, fg: int, bg: int, scale: int): (ops: seq<DrawOp>)
    requires |font| == FONT_TABLE_SIZE
    ensures |ops| == 40
  {
    seq(40, i requires 0 <= i < 40 =>
      CharOp(font, x, y, ch, fg, bg, scale, i / 8, i % 8))
  }

  /**
   * Operation `col*8 + row` paints the foreground colour exactly when bit
   * `7 - row` of glyph column `col` is set, and the background otherwise; at
   * scale 1 it is the pixel `(x+col, y+row)`, otherwise the `scale`-sized block
   * at `(x + col*scale, y + row*scale)`.
   */
  lemma DrawCharOpAt(font: seq<byte>, x: int, y: int, ch: char, fg: int, bg: int, scale: int, col: int, row: int)
    requires |font| == FONT_TABLE_SIZE && 0 <= col < FONT_WIDTH && 0 <= row < FONT_HEIGHT
    ensures var op := DrawCharOps(font, x, y, ch, fg, bg, scale)[col * 8 + row];
      op.color == (if BitSet(GlyphColumn(font, ch, col), 7 - row) then fg else bg) &&
      (scale == 1 ==> op == PixelOp(x + col, y + row, op.color)) &&
      (scale != 1 ==> op == BlockOp(x + col * scale, y + row * scale, scale, op.color))
  {
    var i := col * 8 + row;
    assert i / 8 == col && i % 8 == row;
  }

  /** The point `(px, py)` lies in the area painted by `op`. */
  predicate Covers(op: DrawOp, px: int, py: int)
  {
    match op
    case PixelOp(ox, oy, _) => px == ox && py == oy
    case BlockOp(left, top, size, _) => left <= px < left + size && top <= py < top + size
  }

  /** Along one axis, `p` lies in block `c` of size `s` starting at `origin`. */
  predicate InBlock(origin: int, s: int, c: int, p: int)
  {
    origin + c * s <= p < origin + c * s + s
  }

  /** Dividing out a positive factor: `a*s < b*s + s` means `a <= b`. */
  lemma MulCancel(a: int, b: int, s: int)
    requires s > 0
    ensures a * s < b * s + s ==> a <= b
  {
    if a > b {
      MulNonNeg(a - b - 1, s);
      assert (a - b - 1) * s == a * s - b * s - s;
    }
  }

  lemma BlockUnique(origin: int, s: int, c1: int, c2: int, p: int)
    requires s > 0 && InBlock(origin, s, c1, p) && InBlock(origin, s, c2, p)
    ensures c1 == c2
  {
    MulCancel(c1, c2, s);
    MulCancel(c2, c1, s);
  }

  lemma BlockOfPoint(origin: int, s: int, count: nat, p: int) returns (c: int)
    requires s > 0 && origin <= p < origin + count * s
    ensures 0 <= c < count && InBlock(origin, s, c, p)
  {
    c := (p - origin) / s;
    var m := (p - origin) % s;
    assert p - origin == c * s + m && 0 <= m < s;
    MulCancel(-1, c - 1, s);
    MulCancel(c, count - 1, s);
  }

  lemma BlockInside(origin: int, s: int, count: nat, c: int, p: int)
    requires s > 0 && 0 <= c < count && InBlock(origin, s, c, p)
    ensures origin <= p < origin + count * s
  {
    MulCancel(count, c, s);
    MulCancel(0, c, s);
  }

  /**
   * Above scale 1, the 40 blocks of `draw_char` tile its `5*scale` by
   * `8*scale` box: a point is covered by some block iff it lies in the box,
   * and never by two.
   */
  lemma BlocksTileGlyphBox(font: seq<byte>, x: int, y: int, ch: char, fg: int, bg: int, scale: int, px: int, py: int)
    requires |font| == FONT_TABLE_SIZE && scale > 1
    ensures var ops := DrawCharOps(font, x, y, ch, fg, bg, scale);
      ((x <= px < x + 5 * scale && y <= py < y + 8 * scale) <==>
       (exists i :: 0 <= i < |ops| && Covers(ops[i], px, py))) &&
      (forall i, j :: 0 <= i < |ops| && 0 <= j < |ops| && Covers(ops[i], px, py) && Covers(ops[j], px, py) ==> i == j)
  {
    var ops := DrawCharOps(font, x, y, ch, fg, bg, scale);
    forall i | 0 <= i < |ops|
      ensures Covers(ops[i], px, py) <==>
        InBlock(x, scale, i / 8, px) && InBlock(y, scale, i % 8, py)
    {
      DrawCharOpAt(font, x, y, ch, fg, bg, scale, i / 8, i % 8);
      assert (i / 8) * 8 + i % 8 == i;
    }
    forall i, j | 0 <= i < |ops| && 0 <= j < |ops| && Covers(ops[i], px, py) && Covers(ops[j], px, py)
      ensures i == j
    {
      BlockUnique(x, scale, i / 8, j / 8, px);
      BlockUnique(y, scale, i % 8, j % 8, py);
    }
    if x <= px < x + 5 * scale && y <= py < y + 8 * scale {
      var c := BlockOfPoint(x, scale, FONT_WIDTH, px);
      var r := BlockOfPoint(y, scale, FONT_HEIGHT, py);
      var i := c * 8 + r;
      assert i / 8 == c && i % 8 == r;
      assert Covers(ops[i], px, py);
    }
    if exists i :: 0 <= i < |ops| && Covers(ops[i], px, py) {
      var i :| 0 <= i < |ops| && Covers(ops[i], px, py);
      BlockInside(x, scale, FONT_WIDTH, i / 8, px);
      BlockInside(y, scale, FONT_HEIGHT, i % 8, py);
    }
  }

  /** The records one drawing operation puts on the bus. */
  function RenderOp(op: DrawOp): seq<BusRecord>
  {
    match op
    case PixelOp(px, py, color) => PixelRecords(px, py, color)
    case BlockOp(left, top, size, color) => FillRectRecords(left, top, size, size, color)
  }

  /** The records of a sequence of drawing operations, in order. */
  function Render(ops: seq<DrawOp>): seq<BusRecord>
  {
    if ops == [] then [] else Render(ops[..|ops| - 1]) + RenderOp(ops[|ops| - 1])
  }

  /** Rendering one more operation appends its records. */
  lemma RenderStep(ops: seq<DrawOp>, k: int)
    requires 0 <= k < |ops|
    ensures Render(ops[..k + 1]) == Render(ops[..k]) + RenderOp(ops[k])
  {
    assert ops[..k + 1][..k] == ops[..k];
  }

  /** The colours and spacing `text` draws with once its keyword defaults are resolved. */
  datatype TextStyle = TextStyle(fg: int, bg: int, scale: int, spacing: int, lineSpacing: int)

  /** The drawing position of `text`. */
  datatype Cursor = Cursor(cx: int, cy: int)

  /** The cursor after one character: a newline moves it down, anything else right. */
  function Advance(c: Cursor, ch: char, st: TextStyle): Cursor
  {
    if ch == '\n' then Cursor(c.cx, c.cy + 8 * st.scale + st.lineSpacing)
    else Cursor(c.cx + 5 * st.scale + st.spacing, c.cy)
  }

  /** Where `text` has moved its cursor after the characters of `s`. */
  function TextCursor(s: string, x: int, y: int, st: TextStyle): Cursor
  {
    if s == [] then Cursor(x, y)
    else Advance(TextCursor(s[..|s| - 1], x, y, st), s[|s| - 1], st)
  }

  /** The records of `text(s, x, y, ...)`: one glyph per character other than a newline, at the cursor. */
  function TextRecords(font: seq<byte>, s: string, x: int, y: int, st: TextStyle): seq<BusRecord>
    requires |font| == FONT_TABLE_SIZE
  {
    if s == [] then []
    else
      var c := TextCursor(s[..|s| - 1], x, y, st);
      TextRecords(font, s[..|s| - 1], x, y, st) +
      (if s[|s| - 1] == '\n' then [] else Render(DrawCharOps(font, c.cx, c.cy, s[|s| - 1], st.fg, st.bg, st.scale)))
  }

  /** One more character of `text`: its cursor move and its records. */
  lemma TextStep(font: seq<byte>, s: string, i: int, x: int, y: int, st: TextStyle, cx: int, cy: int)
    requires |font| == FONT_TABLE_SIZE && 0 <= i < |s|
    requires TextCursor(s[..i], x, y, st) == Cursor(cx, cy)
    ensures TextCursor(s[..i + 1], x, y, st) == Advance(Cursor(cx, cy), s[i], st)
    ensures TextRecords(font, s[..i + 1], x, y, st) == TextRecords(font, s[..i], x, y, st) +
        (if s[i] == '\n' then [] else Render(DrawCharOps(font, cx, cy, s[i], st.fg, st.bg, st.scale)))
  {
    assert s[..i + 1][..i] == s[..i];
  }

  function Newlines(s: string): nat
  {
    if s == [] then 0 else Newlines(s[..|s| - 1]) + (if s[|s| - 1] == '\n' then 1 else 0)
  }

  /**
   * After `s`, the cursor has moved right by `5*scale + spacing` for every
   * character that is not a newline and down by `8*scale + line_spacing` for
   * every newline; a newline does not bring `x` back to the start column.
   */
  lemma {:induction false} TextCursorClosedForm(s: string, x: int, y: int, st: TextStyle)
    ensures Newlines(s) <= |s|
    ensures TextCursor(s, x, y, st) ==
      Cursor(x + (|s| - Newlines(s)) * (5 * st.scale + st.spacing),
             y + Newlines(s) * (8 * st.scale + st.lineSpacing))
  {
    if s != [] {
      var p := s[..|s| - 1];
      TextCursorClosedForm(p, x, y, st);
      var dx := 5 * st.scale + st.spacing;
      var dy := 8 * st.scale + st.lineSpacing;
      if s[|s| - 1] == '\n' {
        MulSucc(Newlines(p), dy);
      } else {
        MulSucc(|p| - Newlines(p), dx);
      }
    }
  }

  /** The display: the log of bus records and the driver's runtime configuration. */
  class Display {
    var bus: seq<BusRecord>
    const width: int
    const height: int
    const orientation: Orientation
    const charSpacing: int
    const lineSpacing: int
    const fgColor: int
    const bgColor: int
    const scale: int
    const colorMode: byte
    /** The class attribute `DEFAULT_FONT`. */
    const font: seq<byte>

    /** The command sequence of `_init_display` before the screen is cleared. */
    static function InitRecords(o: Orientation, mode: byte): seq<BusRecord>
    {
      [Cmd(SWRESET), Cmd(SLPOUT),
       Cmd(MADCTL), Data([Madctl(o)]),
       Cmd(COLMOD), Data([mode]),
       Cmd(INVON), Cmd(DISPON)]
    }

    /** `ILI9341(spi, dc, cs, WIDTH, HEIGHT)`: default configuration, bring-up, then a black screen. */
    constructor (width: int, height: int)
      ensures this.width == width && this.height == height
      ensures orientation == LandscapeInv && charSpacing == 1 && lineSpacing == 1
      ensures fgColor == 0xFFFF && bgColor == 0x0000 && scale == 1 && colorMode == COLOR_MODE_RGB565
      ensures font == DEFAULT_FONT
      ensures bus == InitRecords(orientation, colorMode) + FillRectRecords(0, 0, width, height, 0)
    {
      this.width := width;
      this.height := height;
      orientation := LandscapeInv;
      charSpacing := 1;
      lineSpacing := 1;
      fgColor := 0xFFFF;
      bgColor := 0x0000;
      scale := 1;
      colorMode := COLOR_MODE_RGB565;
      font := DEFAULT_FONT;
      bus := [];
      new;
      InitDisplay();
    }

    /** `_init_display`: the bring-up sequence, then a black screen. */
    method InitDisplay()
      modifies this`bus
      ensures bus == old(bus) + InitRecords(orientation, colorMode) + FillRectRecords(0, 0, width, height, 0)
    {
      SendInitCommands();
      Fill(0);
      SeqAssoc(old(bus), InitRecords(orientation, colorMode), FillRectRecords(0, 0, width, height, 0));
    }

    /** The command part of `_init_display`: reset, wake, orientation, pixel format, inversion, display on. */
    method SendInitCommands()
      modifies this`bus
      ensures bus == old(bus) + InitRecords(orientation, colorMode)
    {
      WriteCmd(SWRESET);
      WriteCmd(SLPOUT);
      WriteCmd(MADCTL);
      WriteData([Madctl(orientation)]);
      WriteCmd(COLMOD);
      WriteData([colorMode]);
      WriteCmd(INVON);
      WriteCmd(DISPON);
    }

    /** `_write_cmd`: one command byte. */
    method WriteCmd(cmd: byte)
      modifies this`bus
      ensures bus == old(bus) + [Cmd(cmd)]
    {
      bus := bus + [Cmd(cmd)];
    }

    /** `_write_data`: one block of data bytes. */
    method WriteData(data: seq<byte>)
      modifies this`bus
      ensures bus == old(bus) + [Data(data)]
    {
      bus := bus + [Data(data)];
    }

    method SetWindow(x: int, y: int, w: int, h: int)
      modifies this`bus
      ensures bus == old(bus) + WindowRecords(x, y, w, h)
    {
      WriteCmd(CASET);
      WriteData(Pack16(x) + Pack16(x + w - 1));
      WriteCmd(RASET);
      WriteData(Pack16(y) + Pack16(y + h - 1));
      WriteCmd(RAMWR);
    }

    method Fill(color: int)
      modifies this`bus
      ensures bus == old(bus) + FillRectRecords(0, 0, width, height, color)
    {
      FillRect(0, 0, width, height, color);
    }

    method Pixel(x: int, y: int, color: int)
      modifies this`bus
      ensures bus == old(bus) + PixelRecords(x, y, color)
    {
      SetWindow(x, y, 1, 1);
      WriteData(Pack16(color));
    }

    method FillRect(x: int, y: int, w: int, h: int, color: int)
      modifies this`bus
      ensures bus == old(bus) + FillRectRecords(x, y, w, h, color)
    {
      SetWindow(x, y, w, h);
      var colorBytes := Pack16(color);
      var pixelCount := w * h;
      var fullChunks := pixelCount / 256;
      var remaining := pixelCount % 256;
      var chunkData := Repeat(colorBytes, PIXELS_PER_CHUNK);
      RepeatNone([Data(chunkData)], 0);
      var i := 0;
      while i < fullChunks
        invariant 0 <= i <= Max0(fullChunks)
        invariant bus == old(bus) + WindowRecords(x, y, w, h) + Repeat([Data(chunkData)], i)
      {
        WriteData(chunkData);
        RepeatSnoc([Data(chunkData)], i + 1);
        i := i + 1;
      }
      if fullChunks <= 0 {
        RepeatNone([Data(chunkData)], fullChunks);
      }
      if remaining != 0 {
        WriteData(Repeat(colorBytes, remaining));
      }
    }

    /**
     * The body of the inner loop of `draw_char`: the pixel or block for row
     * `rowIdx` of glyph column `b`.
     */
    method DrawCell(x: int, y: int, ch: char, fg: int, bg: int, s: int, colIdx: int, rowIdx: int, b: byte)
      requires |font| == FONT_TABLE_SIZE && 0 <= colIdx < FONT_WIDTH && 0 <= rowIdx < FONT_HEIGHT
      requires b == GlyphColumn(font, ch, colIdx)
      modifies this`bus
      ensures bus == old(bus) + RenderOp(CharOp(font, x, y, ch, fg, bg, s, colIdx, rowIdx))
    {
      var pixelOn := PixelOn(b, rowIdx);
      var color := if pixelOn then fg else bg;
      ghost var op := CharOp(font, x, y, ch, fg, bg, s, colIdx, rowIdx);
      if s == 1 {
        assert op == PixelOp(x + colIdx, y + rowIdx, color);
        Pixel(x + colIdx, y + rowIdx, color);
      } else {
        var left, top := x + colIdx * s, y + rowIdx * s;
        assert op == BlockOp(left, top, s, color);
        FillRect(left, top, s, s, color);
      }
    }

    /** The bus holds `prefix` followed by the records of the first `j` operations of `ops`. */
    ghost predicate Drawn(prefix: seq<BusRecord>, ops: seq<DrawOp>, j: int)
      reads this
      requires 0 <= j <= |ops|
    {
      bus == prefix + Render(ops[..j])
    }

    /**
     * The inner loop of `draw_char` for glyph column `colIdx` (byte `b`): it
     * appends the eight operations of that column after the earlier ones.
     */
    method DrawColumn(x: int, y: int, ch: char, fg: int, bg: int, s: int, colIdx: int, b: byte,
                      ghost prefix: seq<BusRecord>)
      requires |font| == FONT_TABLE_SIZE && 0 <= colIdx < FONT_WIDTH
      requires b == GlyphColumn(font, ch, colIdx)
      requires Drawn(prefix, DrawCharOps(font, x, y, ch, fg, bg, s), colIdx * 8)
      modifies this`bus
      ensures Drawn(prefix, DrawCharOps(font, x, y, ch, fg, bg, s), colIdx * 8 + 8)
    {
      var rowIdx := 0;
      while rowIdx < FONT_HEIGHT
        invariant 0 <= rowIdx <= FONT_HEIGHT
        invariant Drawn(prefix, DrawCharOps(font, x, y, ch, fg, bg, s), colIdx * 8 + rowIdx)
      {
        DrawNextCell(x, y, ch, fg, bg, s, colIdx, rowIdx, b, prefix);
        rowIdx := rowIdx + 1;
      }
    }

    /** `DrawCell` as the next of the operations of `draw_char`, after the `colIdx * 8 + rowIdx` before it. */
    method DrawNextCell(x: int, y: int, ch: char, fg: int, bg: int, s: int, colIdx: int, rowIdx: int, b: byte,
                        ghost prefix: seq<BusRecord>)
      requires |font| == FONT_TABLE_SIZE && 0 <= colIdx < FONT_WIDTH && 0 <= rowIdx < FONT_HEIGHT
      requires b == GlyphColumn(font, ch, colIdx)
      requires Drawn(prefix, DrawCharOps(font, x, y, ch, fg, bg, s), colIdx * 8 + rowIdx)
      modifies this`bus
      ensures Drawn(prefix, DrawCharOps(font, x, y, ch, fg, bg, s), colIdx * 8 + rowIdx + 1)
    {
      ghost var ops := DrawCharOps(font, x, y, ch, fg, bg, s);
      ghost var k := colIdx * 8 + rowIdx;
      assert k / 8 == colIdx && k % 8 == rowIdx;
      RenderStep(ops, k);
      SeqAssoc(prefix, Render(ops[..k]), RenderOp(ops[k]));
      DrawCell(x, y, ch, fg, bg, s, colIdx, rowIdx, b);
    }

    /** `draw_char`: draws the glyph and returns the size of its box. */
    method DrawChar(x: int, y: int, ch: char, fgColor: Option<int>, bgColor: Option<int>, scaleArg: Option<int>)
      returns (charWidth: int, charHeight: int)
      requires |font| == FONT_TABLE_SIZE
      modifies this`bus
      ensures var s := scaleArg.GetOr(scale);
        bus == old(bus) + Render(DrawCharOps(font, x, y, ch, fgColor.GetOr(this.fgColor), bgColor.GetOr(this.bgColor), s)) &&
        charWidth == 5 * s && charHeight == 8 * s
    {
      var fg := fgColor.GetOr(this.fgColor);
      var bg := bgColor.GetOr(this.bgColor);
      var s := scaleArg.GetOr(scale);
      var startIndex := GlyphStart(ch);
      var fontData := font[startIndex..startIndex + 5];
      ghost var ops := DrawCharOps(font, x, y, ch, fg, bg, s);
      charWidth := 5 * s;
      charHeight := 8 * s;
      TakeAllNone(ops);
      var colIdx := 0;
      while colIdx < FONT_WIDTH
        invariant 0 <= colIdx <= FONT_WIDTH
        invariant Drawn(old(bus), ops, colIdx * 8)
      {
        DrawColumn(x, y, ch, fg, bg, s, colIdx, fontData[colIdx], old(bus));
        colIdx := colIdx + 1;
      }
    }

    /** `text`: draws `s` from `(x, y)`; a newline moves one line down. */
    method Text(s: string, x: int, y: int, fgColor: Option<int>, bgColor: Option<int>,
                scaleArg: Option<int>, spacing: Option<int>)
      requires |font| == FONT_TABLE_SIZE
      modifies this`bus
      ensures bus == old(bus) + TextRecords(font, s, x, y,
        TextStyle(fgColor.GetOr(this.fgColor), bgColor.GetOr(this.bgColor), scaleArg.GetOr(scale),
                  spacing.GetOr(charSpacing), lineSpacing))
    {
      var st := TextStyle(fgColor.GetOr(this.fgColor), bgColor.GetOr(this.bgColor), scaleArg.GetOr(scale),
                          spacing.GetOr(charSpacing), lineSpacing);
      var cx, cy := x, y;
      var i := 0;
      while i < |s|
        invariant 0 <= i <= |s|
        invariant TextCursor(s[..i], x, y, st) == Cursor(cx, cy)
        invariant bus == old(bus) + TextRecords(font, s[..i], x, y, st)
      {
        TextStep(font, s, i, x, y, st, cx, cy);
        ghost var piece := if s[i] == '\n' then [] else Render(DrawCharOps(font, cx, cy, s[i], st.fg, st.bg, st.scale));
        SeqAssoc(old(bus), TextRecords(font, s[..i], x, y, st), piece);
        cx, cy := TextChar(s[i], cx, cy, st);
        i := i + 1;
      }
      assert s[..|s|] == s;
    }

    /** One character of `text`: a newline moves the cursor down; anything else is drawn and moves it right. */
    method TextChar(ch: char, cx: int, cy: int, st: TextStyle) returns (nx: int, ny: int)
      requires |font| == FONT_TABLE_SIZE
      modifies this`bus
      ensures Cursor(nx, ny) == Advance(Cursor(cx, cy), ch, st)
      ensures bus == old(bus) + (if ch == '\n' then [] else Render(DrawCharOps(font, cx, cy, ch, st.fg, st.bg, st.scale)))
    {
      nx, ny := cx, cy;
      if ch == '\n' {
        ny := cy + 8 * st.scale + st.lineSpacing;
      } else {
        var width, height := DrawChar(cx, cy, ch, Some(st.fg), Some(st.bg), Some(st.scale));
        nx := cx + width + st.spacing;
      }
    }
  }
}
