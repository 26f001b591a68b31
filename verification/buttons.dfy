/**
 * The screen layout of the touch interface in main.py: the ten touch zones
 * and their first-match classification, the eight push buttons that
 * `montar_botoes` draws on the ILI9341 display, and the easter-egg colour
 * generator `RainbowColors`.
 */
module Buttons {
  import opened Optional
  import opened Bits
  import opened Sequences
  import opened Ili9341

  /** The ten touch zones: the eight arm-pose buttons and the two gripper buttons. */
  datatype Zone = D1 | D2 | D3 | D4 | U1 | U2 | U3 | U4 | Close | Open

  /** The half-open pixel rectangle `[left, right) x [top, bottom)`. */
  datatype Rect = Rect(left: int, top: int, right: int, bottom: int)

  predicate InRect(r: Rect, px: int, py: int)
  {
    r.left <= px < r.right && r.top <= py < r.bottom
  }

  /** Where each zone lies on the 320 x 240 screen. */
  function ZoneRect(z: Zone): Rect
  {
    match z
    case D1 => Rect(0, 0, 80, 80)
    case D2 => Rect(80, 0, 160, 80)
    case D3 => Rect(160, 0, 240, 80)
    case D4 => Rect(240, 0, 320, 80)
    case U1 => Rect(0, 80, 80, 160)
    case U2 => Rect(80, 80, 160, 160)
    case U3 => Rect(160, 80, 240, 160)
    case U4 => Rect(240, 80, 320, 160)
    case Close => Rect(0, 160, 160, 240)
    case Open => Rect(160, 160, 320, 240)
  }

  predicate InZone(z: Zone, px: int, py: int)
  {
    InRect(ZoneRect(z), px, py)
  }

  /** The order in which the zones are tested, and released. */
  function ZoneIndex(z: Zone): (i: nat)
    ensures i < 10
    ensures i < 8 <==> z != Close && z != Open
  {
    match z
    case D1 => 0 case D2 => 1 case D3 => 2 case D4 => 3
    case U1 => 4 case U2 => 5 case U3 => 6 case U4 => 7
    case Close => 8 case Open => 9
  }

  /** Different zones have different indices. */
  lemma ZoneIndexInjective(a: Zone, b: Zone)
    ensures ZoneIndex(a) == ZoneIndex(b) <==> a == b
  {
  }

  /** The eight arm-pose buttons, which send a command as soon as they are released. */
  predicate Momentary(z: Zone)
  {
    ZoneIndex(z) < 8
  }

  /**
   * The `if`/`elif` chain of a touch-start tick: the first zone, in the order
   * D1..D4, U1..U4, close, open, whose flag is clear and which contains the
   * touched pixel.
   */
  function Classify(flags: set<Zone>, px: int, py: int): Option<Zone>
  {
    if D1 !in flags && 0 <= px < 80 && 0 <= py < 80 then Some(D1)
    else if D2 !in flags && 80 <= px < 160 && 0 <= py < 80 then Some(D2)
    else if D3 !in flags && 160 <= px < 240 && 0 <= py < 80 then Some(D3)
    else if D4 !in flags && 240 <= px < 320 && 0 <= py < 80 then Some(D4)
    else if U1 !in flags && 0 <= px < 80 && 80 <= py < 160 then Some(U1)
    else if U2 !in flags && 80 <= px < 160 && 80 <= py < 160 then Some(U2)
    else if U3 !in flags && 160 <= px < 240 && 80 <= py < 160 then Some(U3)
    else if U4 !in flags && 240 <= px < 320 && 80 <= py < 160 then Some(U4)
    else if Close !in flags && 0 <= px < 160 && 160 <= py < 240 then Some(Close)
    else if Open !in flags && 160 <= px < 320 && 160 <= py < 240 then Some(Open)
    else None
  }

  /** No pixel lies in two zones. */
  lemma ZonesDisjoint(a: Zone, b: Zone, px: int, py: int)
    requires InZone(a, px, py) && InZone(b, px, py)
    ensures a == b
  {
  }

  /**
   * Because the zones are disjoint, the first match is the only match: the
   * chain picks a zone exactly when the pixel lies in it and its flag is clear.
   */
  lemma ClassifyIsZoneLookup(flags: set<Zone>, px: int, py: int, z: Zone)
    ensures Classify(flags, px, py) == Some(z) <==> z !in flags && InZone(z, px, py)
    ensures Classify(flags, px, py).None? <==> forall w: Zone :: !(w !in flags && InZone(w, px, py))
  {
    var c := Classify(flags, px, py);
    if c.Some? {
      assert InZone(c.value, px, py);
      if z !in flags && InZone(z, px, py) {
        ZonesDisjoint(z, c.value, px, py);
      }
    } else {
      forall w: Zone ensures !(w !in flags && InZone(w, px, py)) {
        match w
        case D1 => case D2 => case D3 => case D4 =>
        case U1 => case U2 => case U3 => case U4 =>
        case Close => case Open =>
      }
    }
  }

  /** The border pixel 80 belongs to the second button; 320 and 240, a clamped 1.0, hit no zone. */
  lemma ClassifyEdges(flags: set<Zone>, px: int, py: int)
    ensures Classify({}, 80, 0) == Some(D2)
    ensures Classify(flags, 320, py) == None && Classify(flags, px, 240) == None
  {
  }

  /** The name each zone is drawn and reported with. */
  function ZoneLabel(z: Zone): string
  {
    match z
    case D1 => "D1" case D2 => "D2" case D3 => "D3" case D4 => "D4"
    case U1 => "U1" case U2 => "U2" case U3 => "U3" case U4 => "U4"
    case Close => "Fechar" case Open => "Abrir"
  }

  // ---------------------------------------------------------------------------
  // montar_botoes

  /** Side of a button cell: `320 // 4` and `240 // 3`, both 80 (written out where it multiplies). */
  const CELL := 80

  /** The label offset inside a cell, `largura_quadrado // 2 - 15`. */
  const LABEL_OFFSET := 25

  lemma LabelOffsetValue()
    ensures LABEL_OFFSET == CELL / 2 - 15
  {
  }

  /** One drawn button: its label, top-left corner, outer and inner colours. */
  datatype Button = Button(caption: string, left: int, top: int, cor: int, comp: int)

  /** The button in row `linha`, column `coluna` of the layout drawn with colours `cor1`, `cor2`. */
  function ButtonAt(linha: int, coluna: int, cor1: int, cor2: int): Button
    requires 0 <= coluna < 4
  {
    var even := (linha + coluna) % 2 == 0;
    Button([if linha == 0 then 'D' else 'U', ('1' as int + coluna) as char],
           coluna * 80, linha * 80,
           if even then cor1 else cor2, if even then cor2 else cor1)
  }

  /** The `i`th button drawn, counting row by row. */
  function ButtonAtIndex(i: int, cor1: int, cor2: int): Button
    requires 0 <= i < 8
  {
    if i < 4 then ButtonAt(0, i, cor1, cor2) else ButtonAt(1, i - 4, cor1, cor2)
  }

  /** The zone a button answers to. */
  function ButtonZone(linha: int, coluna: int): Zone
    requires 0 <= linha < 2 && 0 <= coluna < 4
  {
    [D1, D2, D3, D4, U1, U2, U3, U4][linha * 4 + coluna]
  }

  /**
   * Each button is drawn exactly over the touch zone that sends its command,
   * carries that zone's label, and the colours alternate like a checkerboard.
   */
  lemma ButtonsMatchZones(linha: int, coluna: int, cor1: int, cor2: int)
    requires 0 <= linha < 2 && 0 <= coluna < 4
    ensures var b := ButtonAt(linha, coluna, cor1, cor2);
      var z := ButtonZone(linha, coluna);
      Momentary(z) && ZoneIndex(z) == linha * 4 + coluna &&
      ZoneRect(z) == Rect(b.left, b.top, b.left + CELL, b.top + CELL) &&
      b.caption == ZoneLabel(z) &&
      ({b.cor, b.comp} == {cor1, cor2}) &&
      (coluna < 3 ==> ButtonAt(linha, coluna + 1, cor1, cor2).cor == b.comp) &&
      (linha < 1 ==> ButtonAt(linha + 1, coluna, cor1, cor2).cor == b.comp)
  {
    var b := ButtonAt(linha, coluna, cor1, cor2);
    if linha == 0 {
      if coluna == 0 { assert b.caption == "D1"; }
      else if coluna == 1 { assert b.caption == "D2"; }
      else if coluna == 2 { assert b.caption == "D3"; }
      else { assert b.caption == "D4"; }
    } else {
      if coluna == 0 { assert b.caption == "U1"; }
      else if coluna == 1 { assert b.caption == "U2"; }
      else if coluna == 2 { assert b.caption == "U3"; }
      else { assert b.caption == "U4"; }
    }
  }

  /**
   * The records of one cell drawn at `(x, y)`: the outer square in `cor`, the
   * inner square inset by 5 in `comp`, then the label at scale 3, offset
   * `LABEL_OFFSET` from the corner.
   */
  function CellRecords(font: seq<byte>, s: string, x: int, y: int, cor: int, comp: int, spacing: int, lineSpacing: int): seq<BusRecord>
    requires |font| == FONT_TABLE_SIZE
  {
    FillRectRecords(x, y, CELL, CELL, cor) +
    FillRectRecords(x + 5, y + 5, CELL - 10, CELL - 10, comp) +
    TextRecords(font, s, x + LABEL_OFFSET, y + LABEL_OFFSET, TextStyle(cor, comp, 3, spacing, lineSpacing))
  }

  /** The records a button produces. */
  function ButtonRecords(font: seq<byte>, b: Button, spacing: int, lineSpacing: int): seq<BusRecord>
    requires |font| == FONT_TABLE_SIZE
  {
    CellRecords(font, b.caption, b.left, b.top, b.cor, b.comp, spacing, lineSpacing)
  }

  /** The concatenation of a sequence of record stretches. */
  function Flatten(parts: seq<seq<BusRecord>>): seq<BusRecord>
  {
    if parts == [] then [] else Flatten(parts[..|parts| - 1]) + parts[|parts| - 1]
  }

  lemma FlattenStep(parts: seq<seq<BusRecord>>, k: int)
    requires 0 <= k < |parts|
    ensures Flatten(parts[..k + 1]) == Flatten(parts[..k]) + parts[k]
  {
    assert parts[..k + 1][..k] == parts[..k];
  }

  /** The records of the eight buttons, row by row and left to right. */
  function LayoutParts(font: seq<byte>, cor1: int, cor2: int, spacing: int, lineSpacing: int): (ps: seq<seq<BusRecord>>)
    requires |font| == FONT_TABLE_SIZE
    ensures |ps| == 8
  {
    seq(8, i requires 0 <= i < 8 => ButtonRecords(font, ButtonAtIndex(i, cor1, cor2), spacing, lineSpacing))
  }

  /** One cell of `montar_botoes`. */
  method DrawButton(display: Display, s: string, x: int, y: int, cor: int, comp: int)
    requires |display.font| == FONT_TABLE_SIZE
    modifies display`bus
    ensures display.bus == old(display.bus) +
      CellRecords(display.font, s, x, y, cor, comp, display.charSpacing, display.lineSpacing)
  {
    ghost var b0 := display.bus;
    var largura, altura := CELL, CELL;
    display.FillRect(x, y, largura, altura, cor);
    ghost var a := display.bus[|b0|..];
    display.FillRect(x + 5, y + 5, largura - 10, altura - 10, comp);
    ghost var b := display.bus[|b0| + |a|..];
    LabelOffsetValue();
    display.Text(s, x + LABEL_OFFSET, y + LABEL_OFFSET, Some(cor), Some(comp), Some(3), None);
    SeqAssoc(b0, a, b);
    SeqAssoc(b0, a + b, display.bus[|b0| + |a| + |b|..]);
  }

  /** The `i`th stretch of the layout is the button in row `linha`, column `coluna`. */
  lemma LayoutPartAt(font: seq<byte>, cor1: int, cor2: int, spacing: int, lineSpacing: int, linha: int, coluna: int)
    requires |font| == FONT_TABLE_SIZE && 0 <= linha < 2 && 0 <= coluna < 4
    ensures LayoutParts(font, cor1, cor2, spacing, lineSpacing)[linha * 4 + coluna] ==
      ButtonRecords(font, ButtonAt(linha, coluna, cor1, cor2), spacing, lineSpacing)
  {
    var i := linha * 4 + coluna;
    assert ButtonAtIndex(i, cor1, cor2) == ButtonAt(linha, coluna, cor1, cor2);
  }

  /** The label built from the row letter and the column digit. */
  lemma CaptionAt(linha: int, coluna: int, cor1: int, cor2: int)
    requires 0 <= linha < 2 && 0 <= coluna < 4
    ensures [if linha == 0 then 'D' else 'U'] + [('1' as int + coluna) as char] == ButtonAt(linha, coluna, cor1, cor2).caption
  {
  }

  /** One cell of the layout: position `coluna * 80, linha * 80`, colours by the parity of `linha + coluna`. */
  method DrawLayoutCell(display: Display, s: string, linha: int, coluna: int, cor1: int, cor2: int)
    requires |display.font| == FONT_TABLE_SIZE && 0 <= linha < 2 && 0 <= coluna < 4
    requires s == ButtonAt(linha, coluna, cor1, cor2).caption
    modifies display`bus
    ensures display.bus == old(display.bus) +
      ButtonRecords(display.font, ButtonAt(linha, coluna, cor1, cor2), display.charSpacing, display.lineSpacing)
  {
    var x := coluna * 80;
    var y := linha * 80;
    var cor, comp := cor2, cor1;
    if (linha + coluna) % 2 == 0 {
      cor, comp := cor1, cor2;
    }
    DrawButton(display, s, x, y, cor, comp);
  }

  /** The inner loop of `montar_botoes`: the four cells of row `linha`. */
  method MountRow(display: Display, s: string, linha: int, cor1: int, cor2: int, ghost prefix: seq<BusRecord>)
    requires |display.font| == FONT_TABLE_SIZE && 0 <= linha < 2
    requires s == [if linha == 0 then 'D' else 'U']
    requires display.bus == prefix + Flatten(LayoutParts(display.font, cor1, cor2, display.charSpacing, display.lineSpacing)[..linha * 4])
    modifies display`bus
    ensures display.bus == prefix + Flatten(LayoutParts(display.font, cor1, cor2, display.charSpacing, display.lineSpacing)[..linha * 4 + 4])
  {
    ghost var parts := LayoutParts(display.font, cor1, cor2, display.charSpacing, display.lineSpacing);
    var name := s;
    var k := '1';
    var coluna := 0;
    while coluna < 4
      invariant 0 <= coluna <= 4
      invariant name == s
      invariant k == ('1' as int + coluna) as char
      invariant display.bus == prefix + Flatten(parts[..linha * 4 + coluna])
    {
      name := name + [k];
      k := (k as int + 1) as char;
      CaptionAt(linha, coluna, cor1, cor2);
      LayoutPartAt(display.font, cor1, cor2, display.charSpacing, display.lineSpacing, linha, coluna);
      FlattenStep(parts, linha * 4 + coluna);
      DrawLayoutCell(display, name, linha, coluna, cor1, cor2);
      SeqAssoc(prefix, Flatten(parts[..linha * 4 + coluna]), parts[linha * 4 + coluna]);
      name := name[..|name| - 1];
      coluna := coluna + 1;
    }
  }

  /** The outer loop of `montar_botoes`: row "D", then row "U". */
  method MountRows(display: Display, cor1: int, cor2: int)
    requires |display.font| == FONT_TABLE_SIZE
    modifies display`bus
    ensures display.bus == old(display.bus) +
      Flatten(LayoutParts(display.font, cor1, cor2, display.charSpacing, display.lineSpacing))
  {
    ghost var parts := LayoutParts(display.font, cor1, cor2, display.charSpacing, display.lineSpacing);
    TakeAllNone(parts);
    var s := "D";
    var linha := 0;
    while linha < 2
      invariant 0 <= linha <= 2
      invariant linha < 2 ==> s == [if linha == 0 then 'D' else 'U']
      invariant display.bus == old(display.bus) + Flatten(parts[..linha * 4])
    {
      MountRow(display, s, linha, cor1, cor2, old(display.bus));
      s := "U";
      linha := linha + 1;
    }
  }

  /**
   * `montar_botoes(cor1, cor2, display, fill)`: optionally clears the screen
   * with `cor2`, then draws the two rows of four buttons, building each
   * label from the row letter and the column digit.
   */
  method MountButtons(display: Display, cor1: int, cor2: int, fill: bool)
    requires |display.font| == FONT_TABLE_SIZE
    modifies display`bus
    ensures display.bus == old(display.bus) +
      (if fill then FillRectRecords(0, 0, display.width, display.height, cor2) else []) +
      Flatten(LayoutParts(display.font, cor1, cor2, display.charSpacing, display.lineSpacing))
  {
    ghost var cleared := if fill then FillRectRecords(0, 0, display.width, display.height, cor2) else [];
    if fill {
      display.Fill(cor2);
    }
    assert display.bus == old(display.bus) + cleared;
    ghost var start := display.bus;
    MountRows(display, cor1, cor2);
    SeqAssoc(old(display.bus), cleared, display.bus[|start|..]);
  }

  // ---------------------------------------------------------------------------
  // RainbowColors

  /** One step of `RainbowColors.next`: back to 0 after 0xFFFF, otherwise up by 0xA. */
  function NextColor(c: int): int
  {
    if c == 0xFFFF then 0 else c + 0xA
  }

  /** The colour after `m` calls of `next` from `c`. */
  function NextColors(c: int, m: nat): int
  {
    if m == 0 then c else NextColor(NextColors(c, m - 1))
  }

  /**
   * The colour stays a non-negative multiple of 0xA, which 0xFFFF is not:
   * the reset branch is never taken and the `m`th colour is `10 * m`, with
   * no wrap at 16 bits.
   */
  lemma {:induction false} RainbowNeverResets(m: nat)
    ensures NextColors(0, m) == 10 * m
    ensures NextColors(0, m) % 10 == 0 && NextColors(0, m) != 0xFFFF
  {
    if m > 0 {
      RainbowNeverResets(m - 1);
      assert NextColors(0, m - 1) != 0xFFFF;
    }
  }

  /**
   * The colour is never wrapped, so it leaves 16 bits after 6554 steps; the
   * display then keeps only its low 16 bits when it packs the colour.
   */
  lemma RainbowOutgrowsSixteenBits()
    ensures NextColors(0, 6554) == 65540 && NextColors(0, 6554) > 0xFFFF
    ensures Pack16(NextColors(0, 6554)) == Pack16(4)
  {
    RainbowNeverResets(6554);
  }

  /** The easter-egg colour generator. */
  class RainbowColors {
    var color: int

    constructor ()
      ensures color == 0
    {
      color := 0x0000;
    }

    /** `next`: advance the colour and return it. */
    method Next() returns (c: int)
      modifies this
      ensures color == NextColor(old(color)) && c == color
    {
      if color == 0xFFFF {
        color := 0x0000;
      } else {
        color := color + 0xA;
      }
      c := color;
    }
  }
}
