/** `buffer_printer::to_string`: the hex dump of a buffer.

Text is a sequence of Unicode code points; the program builds the same text in UTF-8.
*/
module HexDump {
  import opened Basics
  import opened Numerals

  const BAR: char := '\U{2503}'
  const EMPTY_SET: char := '\U{2205}'
  const DOT: char := '\U{00B7}'
  const ROW: nat := 32
  const AREA: nat := 72

  function Min(x: nat, y: nat): nat { if x < y then x else y }

  function Header(n: nat): string {
    "Buffer[" + Print(n, 10) + "/0x" + Print(n, 16) + " bytes]:"
  }

  /** `{:02x}` of a byte. */
  function Hex(c: Byte): string {
    [DIGITS[c / 16], DIGITS[c % 16]]
  }

  /** The `j`-th place of the hex area of the row that starts at `i`. */
  function Cell(b: seq<Byte>, i: nat, j: nat): string {
    (if j % 4 == 0 then " " else "") + (if i + j >= |b| then "  " else Hex(b[i + j]))
  }

  function Area(b: seq<Byte>, i: nat, j: nat): string {
    if j == 0 then [] else Area(b, i, j - 1) + Cell(b, i, j - 1)
  }

  function Glyph(c: Byte): char {
    if c == 0 then EMPTY_SET else if c < 0x20 || c > 0x7e then DOT else c as char
  }

  function Glyphs(b: seq<Byte>): string {
    seq(|b|, k requires 0 <= k < |b| => Glyph(b[k]))
  }

  function Frame(glyphs: string): string {
    "  " + [BAR] + glyphs + [BAR]
  }

  function Line(b: seq<Byte>, i: nat): string
    requires i < |b|
  {
    Padded(i, 16, 4) + (" " + (Area(b, i, ROW) + Frame(Glyphs(b[i..Min(|b|, i + ROW)]))))
  }

  function Rows(b: seq<Byte>, i: nat): string
    decreases |b| - i
  {
    if i >= |b| then [] else "\n" + Line(b, i) + Rows(b, i + ROW)
  }

  function Dump(b: seq<Byte>): string {
    Header(|b|) + Rows(b, 0)
  }

  // ---------------------------------------------------------------------------------------------
  // The program

  method ToString(b: seq<Byte>) returns (out: string)
    ensures out == Dump(b)
  {
    out := Header(|b|);
    var i := 0;
    while i < |b|
      invariant out + Rows(b, i) == Dump(b)
      decreases |b| - i
    {
      ghost var before := out;
      var stop := Min(|b|, i + ROW);
      var area := HexArea(b, i, stop);
      var glyphs := GlyphArea(b, i, stop);
      var line := Padded(i, 16, 4) + (" " + (area + Frame(glyphs)));
      out := out + ("\n" + line);
      Reassociate(before, "\n" + line, Rows(b, i + ROW));
      i := i + ROW;
    }
    assert out + [] == out;
  }

  /** The first inner loop. */
  method HexArea(b: seq<Byte>, i: nat, stop: nat) returns (out: string)
    requires i < |b| && stop == Min(|b|, i + ROW)
    ensures out == Area(b, i, ROW)
  {
    out := "";
    var j := 0;
    while j < ROW
      invariant j <= ROW && out == Area(b, i, j)
    {
      ghost var before := out;
      AppendCell(before, b, i, j);
      var k := i + j;
      if j % 4 == 0 {
        out := out + " ";
      }
      if k >= stop {
        out := out + "  ";
      } else {
        out := out + Hex(b[k]);
      }
      j := j + 1;
    }
  }

  /** One turn: two appends. */
  lemma AppendCell(out: string, b: seq<Byte>, i: nat, j: nat)
    ensures var blank := if j % 4 == 0 then out + " " else out;
      blank + (if i + j >= |b| then "  " else Hex(b[i + j])) == out + Cell(b, i, j)
  {
    var blank := if j % 4 == 0 then " " else "";
    Reassociate(out, blank, if i + j >= |b| then "  " else Hex(b[i + j]));
    assert out + "" == out;
  }

  /** The second inner loop. */
  method GlyphArea(b: seq<Byte>, i: nat, stop: nat) returns (out: string)
    requires i <= stop <= |b|
    ensures out == Glyphs(b[i..stop])
  {
    out := "";
    var j := i;
    while j < stop
      invariant i <= j <= stop && out == Glyphs(b[i..j])
    {
      out := out + [Glyph(b[j])];
      j := j + 1;
      assert b[i..j] == b[i..j - 1] + [b[j - 1]];
    }
  }

  // ---------------------------------------------------------------------------------------------
  // A decoder that sees only the text

  /** The place of the `j`-th byte in the hex area. */
  function Place(j: nat): nat {
    2 * j + j / 4 + 1
  }

  function DecodeArea(area: string, j: nat): seq<int>
    requires |area| == AREA
    decreases ROW - j
  {
    if j >= ROW || area[Place(j)] == ' ' then []
    else [Digit(area[Place(j)]) * 16 + Digit(area[Place(j) + 1])] + DecodeArea(area, j + 1)
  }

  function DecodeRows(t: string): seq<int>
    decreases |t|, 2
  {
    if t == [] then [] else DecodeLine(t[1..])
  }

  /** Behind the line break: skip the offset and the blank after it. */
  function DecodeLine(line: string): seq<int>
    decreases |line|, 1
  {
    var offset := Span(line, 16);
    if |line| <= offset then [] else DecodeBody(line[offset + 1..])
  }

  /** The hex area, then as many glyphs as there are bytes, in their frame. */
  function DecodeBody(body: string): seq<int>
    decreases |body|, 0
  {
    if |body| < AREA then []
    else
      var bytes := DecodeArea(body[..AREA], 0);
      var tail := body[AREA..];
      if |tail| < |bytes| + 4 then bytes else bytes + DecodeRows(tail[|bytes| + 4..])
  }

  function SkipHeader(t: string): string {
    if t == [] || t[0] == '\n' then t else SkipHeader(t[1..])
  }

  function Decode(t: string): seq<int> {
    DecodeRows(SkipHeader(t))
  }

  // ---------------------------------------------------------------------------------------------
  // Layout

  lemma HexIsPadded(c: Byte)
    ensures Padded(c, 16, 2) == Hex(c)
  {
    if c < 16 {
      assert Print(c, 16) == [DIGITS[c]];
      assert Zeros(1) == ['0'] + Zeros(0);
    } else {
      assert Print(c / 16, 16) == [DIGITS[c / 16]];
      assert Print(c, 16) == Hex(c);
    }
  }

  lemma BytePrinted(c: Byte)
    ensures var p := Hex(c);
      0 <= Digit(p[0]) && 0 <= Digit(p[1]) && Digit(p[0]) * 16 + Digit(p[1]) == c
  {
    DigitOf(c / 16);
    DigitOf(c % 16);
  }

  lemma CellSize(b: seq<Byte>, i: nat, j: nat)
    ensures |Cell(b, i, j)| == 2 + if j % 4 == 0 then 1 else 0
    ensures '\n' !in Cell(b, i, j)
  {
    if i + j < |b| {
      BytePrinted(b[i + j]);
    }
  }

  lemma {:induction false} AreaLength(b: seq<Byte>, i: nat, j: nat)
    ensures |Area(b, i, j)| == 2 * j + (j + 3) / 4
  {
    if j > 0 {
      AreaLength(b, i, j - 1);
      CellSize(b, i, j - 1);
      Quarters(j - 1);
    }
  }

  lemma Quarters(j: nat)
    ensures (j + 4) / 4 == (j + 3) / 4 + if j % 4 == 0 then 1 else 0
  {
  }

  lemma {:induction false} AreaIsOneLine(b: seq<Byte>, i: nat, j: nat)
    ensures '\n' !in Area(b, i, j)
  {
    if j > 0 {
      AreaIsOneLine(b, i, j - 1);
      CellSize(b, i, j - 1);
    }
  }

  lemma {:induction false} AreaGrows(b: seq<Byte>, i: nat, j: nat, k: nat)
    requires j <= k
    ensures Area(b, i, j) <= Area(b, i, k)
  {
    if j < k {
      AreaGrows(b, i, j, k - 1);
    }
  }

  lemma {:induction false} DecodeAreaGives(b: seq<Byte>, i: nat, j: nat, area: string, stop: nat)
    requires i < |b| && j <= ROW && i + j <= stop && stop == Min(|b|, i + ROW)
    requires AreaReads(area, b, i)
    ensures DecodeArea(area, j) == b[i + j..stop]
    decreases ROW - j
  {
    if j < ROW {
      assert PlaceReads(area, b, i, j);
      if i + j < |b| {
        DecodeAreaGives(b, i, j + 1, area, stop);
        FrontOf(b, i + j, stop);
      }
    }
  }

  lemma FrontOf(b: seq<Byte>, k: nat, stop: nat)
    requires k < stop <= |b|
    ensures b[k..stop] == [b[k]] + b[k + 1..stop]
  {
  }

  lemma Dropped(x: string, y: string)
    ensures (x + y)[|x|..] == y && (x + y)[..|x|] == x
  {
  }

  lemma DecodeLineOf(off: string, body: string)
    requires Numeral(off, 16)
    ensures DecodeLine(off + (" " + body)) == DecodeBody(body)
  {
    SpanOf(off, " " + body, 16);
    assert off + (" " + body) == (off + " ") + body;
    Dropped(off + " ", body);
  }

  lemma DecodeBodyOf(area: string, bytes: seq<int>, frame: string, rest: string)
    requires |area| == AREA && DecodeArea(area, 0) == bytes && |frame| == |bytes| + 4
    ensures DecodeBody(area + (frame + rest)) == bytes + DecodeRows(rest)
  {
  }

  /** The decoder on a text that starts with a row. */
  lemma DecodeOneRow(off: string, area: string, bytes: seq<int>, frame: string, rest: string)
    requires Numeral(off, 16) && |area| == AREA && DecodeArea(area, 0) == bytes && |frame| == |bytes| + 4
    ensures DecodeRows("\n" + (off + (" " + (area + frame))) + rest) == bytes + DecodeRows(rest)
  {
    var line := off + (" " + (area + (frame + rest)));
    Regroup(off, area, frame, rest);
    Dropped("\n", line);
    DecodeLineOf(off, area + (frame + rest));
    DecodeBodyOf(area, bytes, frame, rest);
  }

  lemma Regroup(off: string, area: string, frame: string, rest: string)
    ensures "\n" + (off + (" " + (area + frame))) + rest == "\n" + (off + (" " + (area + (frame + rest))))
  {
  }

  lemma DecodeRowsStep(b: seq<Byte>, i: nat)
    requires i < |b|
    ensures DecodeRows(Rows(b, i)) == b[i..Min(|b|, i + ROW)] + DecodeRows(Rows(b, i + ROW))
  {
    var stop := Min(|b|, i + ROW);
    var off, area, glyphs := Padded(i, 16, 4), Area(b, i, ROW), Glyphs(b[i..stop]);
    PaddedIsNumeral(i, 16, 4);
    AreaIsReadable(b, i);
    DecodeAreaGives(b, i, 0, area, stop);
    DecodeOneRow(off, area, b[i..stop], Frame(glyphs), Rows(b, i + ROW));
  }

  lemma {:induction false} DecodeRowsGives(b: seq<Byte>, i: nat)
    ensures DecodeRows(Rows(b, i)) == if i >= |b| then [] else b[i..]
    decreases |b| - i
  {
    if i < |b| {
      DecodeRowsStep(b, i);
      DecodeRowsGives(b, i + ROW);
      assert i + ROW < |b| ==> b[i..] == b[i..i + ROW] + b[i + ROW..];
    }
  }

  lemma {:induction false} SkipHeaderOf(x: string, y: string)
    requires '\n' !in x
    requires y == [] || y[0] == '\n'
    ensures SkipHeader(x + y) == y
  {
    if x == [] {
      assert x + y == y;
    } else {
      assert (x + y)[1..] == x[1..] + y;
      SkipHeaderOf(x[1..], y);
    }
  }

  lemma NumeralIsOneLine(s: string, base: nat)
    requires Numeral(s, base)
    ensures '\n' !in s
  {
  }

  lemma HeaderIsOneLine(n: nat)
    ensures '\n' !in Header(n)
  {
    PrintIsNumeral(n, 10);
    PrintIsNumeral(n, 16);
    NumeralIsOneLine(Print(n, 10), 10);
    NumeralIsOneLine(Print(n, 16), 16);
  }

  // ---------------------------------------------------------------------------------------------
  // The theorems

  /** The dump is invertible, for every buffer. */
  lemma DumpIsInvertible(b: seq<Byte>)
    ensures Decode(Dump(b)) == b
  {
    HeaderIsOneLine(|b|);
    SkipHeaderOf(Header(|b|), Rows(b, 0));
    DecodeRowsGives(b, 0);
  }

  /** So two buffers that print alike are equal. */
  lemma DumpIsInjective(b: seq<Byte>, c: seq<Byte>)
    requires Dump(b) == Dump(c)
    ensures b == c
  {
    DumpIsInvertible(b);
    DumpIsInvertible(c);
  }

  function Lines(t: string): nat {
    if t == [] then 0 else (if t[0] == '\n' then 1 else 0) + Lines(t[1..])
  }

  lemma {:induction false} LinesConcat(x: string, y: string)
    ensures Lines(x + y) == Lines(x) + Lines(y)
  {
    if x == [] {
      assert x + y == y;
    } else {
      assert (x + y)[1..] == x[1..] + y;
      LinesConcat(x[1..], y);
    }
  }

  lemma {:induction false} NoLines(x: string)
    requires '\n' !in x
    ensures Lines(x) == 0
  {
    if x != [] {
      NoLines(x[1..]);
    }
  }

  /** One row reads as it should, and it is one line. */
  lemma RowLayout(b: seq<Byte>, i: nat)
    requires i < |b|
    ensures RowReads(Line(b, i), b, i)
    ensures '\n' !in Line(b, i)
  {
    LineReads(b, i);
    LineIsOneLine(b, i);
  }

  /** There are as many rows as it takes. */
  lemma {:induction false} RowCount(b: seq<Byte>, i: nat)
    ensures Lines(Rows(b, i)) == if i >= |b| then 0 else (|b| - i + ROW - 1) / ROW
    decreases |b| - i
  {
    if i < |b| {
      RowLayout(b, i);
      LinesConcat("\n" + Line(b, i), Rows(b, i + ROW));
      LinesConcat("\n", Line(b, i));
      NoLines(Line(b, i));
      assert Lines("\n") == 1;
      RowCount(b, i + ROW);
    }
  }

  /** What stands between the bars for one byte. */
  predicate Shown(g: char, c: Byte) {
    && (0x20 <= c <= 0x7e ==> g == c as char)
    && (c == 0 ==> g == '\U{2205}')
    && (0 < c < 0x20 || c > 0x7e ==> g == '\U{00B7}')
  }

  /** One row, as a text: a numeral of at least four digits, a blank, 72 characters of hex area, a frame. */
  ghost predicate RowReads(t: string, b: seq<Byte>, i: nat)
    requires i < |b|
  {
    var n := Span(t, 16);
    var body := t[n..];
    && n >= 4 && Value(t[..n], 16) == i && (n > 4 ==> t[0] != '0')
    && |body| >= 73 && body[0] == ' ' && AreaReads(body[1..73], b, i)
    && FrameReads(body[73..], b[i..Min(|b|, i + 32)])
  }

  /** Two blanks, and one glyph for each byte between two bars. */
  ghost predicate FrameReads(frame: string, bytes: seq<Byte>) {
    && |frame| == |bytes| + 4
    && frame[..3] == [' ', ' ', '\U{2503}'] && frame[|bytes| + 3] == '\U{2503}'
    && forall j :: 0 <= j < |bytes| ==> Shown(frame[3 + j], bytes[j])
  }

  /** Eight groups of a blank and four places; a place holds the two digits of its byte, or two blanks. */
  ghost predicate AreaReads(area: string, b: seq<Byte>, i: nat) {
    |area| == 72 && forall j: nat | j < 32 :: PlaceReads(area, b, i, j)
  }

  ghost predicate PlaceReads(area: string, b: seq<Byte>, i: nat, j: nat)
    requires |area| == 72 && j < 32
  {
    var p := 2 * j + j / 4 + 1;
    && (j % 4 == 0 ==> area[p - 1] == ' ')
    && (i + j >= |b| ==> area[p] == ' ' && area[p + 1] == ' ')
    && (i + j < |b| ==>
          0 <= Digit(area[p]) < 16 && 0 <= Digit(area[p + 1]) < 16 &&
          Digit(area[p]) * 16 + Digit(area[p + 1]) == b[i + j])
  }

  lemma LineReads(b: seq<Byte>, i: nat)
    requires i < |b|
    ensures RowReads(Line(b, i), b, i)
  {
    var bytes := b[i..Min(|b|, i + ROW)];
    var off, area, frame := Padded(i, 16, 4), Area(b, i, ROW), Frame(Glyphs(bytes));
    PaddedIsNumeral(i, 16, 4);
    PaddedIsMinimal(i, 16, 4);
    SpanOf(off, " " + (area + frame), 16);
    Dropped(off, " " + (area + frame));
    AreaIsReadable(b, i);
    FrameIsReadable(bytes);
    BodyParts(area, frame);
    assert off[0] == Line(b, i)[0];
  }

  lemma BodyParts(area: string, frame: string)
    requires |area| == 72
    ensures var body := " " + (area + frame);
      body[0] == ' ' && body[1..73] == area && body[73..] == frame
  {
    Dropped(" ", area + frame);
    Dropped(area, frame);
  }

  lemma FrameIsReadable(bytes: seq<Byte>)
    ensures FrameReads(Frame(Glyphs(bytes)), bytes)
  {
    var frame := Frame(Glyphs(bytes));
    assert frame[..3] == [' ', ' ', BAR];
    forall j | 0 <= j < |bytes|
      ensures Shown(frame[3 + j], bytes[j])
    {
      assert frame[3 + j] == Glyphs(bytes)[j];
    }
  }

  lemma AreaIsReadable(b: seq<Byte>, i: nat)
    ensures AreaReads(Area(b, i, ROW), b, i)
  {
    AreaLength(b, i, ROW);
    forall j: nat | j < ROW
      ensures PlaceReads(Area(b, i, ROW), b, i, j)
    {
      AreaAt(b, i, j);
    }
  }

  lemma AreaAt(b: seq<Byte>, i: nat, j: nat)
    requires j < ROW
    ensures |Area(b, i, ROW)| == AREA && PlaceReads(Area(b, i, ROW), b, i, j)
  {
    AreaLength(b, i, ROW);
    AreaLength(b, i, j);
    AreaGrows(b, i, j + 1, ROW);
    CellReads(b, i, j);
    CellStands(Area(b, i, j), Cell(b, i, j), Area(b, i, ROW), b, i, j);
  }

  lemma CellStands(before: string, cell: string, area: string, b: seq<Byte>, i: nat, j: nat)
    requires j < ROW && |before| == 2 * j + (j + 3) / 4 && before + cell <= area && |area| == AREA
    requires CellIs(cell, b, i, j)
    ensures PlaceReads(area, b, i, j)
  {
    var s := if j % 4 == 0 then 1 else 0;
    assert Place(j) == |before| + s;
    assert forall k :: 0 <= k < |cell| ==> area[|before| + k] == (before + cell)[|before| + k] == cell[k];
  }

  ghost predicate CellIs(c: string, b: seq<Byte>, i: nat, j: nat) {
    var s := if j % 4 == 0 then 1 else 0;
    && |c| == s + 2
    && (s == 1 ==> c[0] == ' ')
    && (i + j >= |b| ==> c[s] == ' ' && c[s + 1] == ' ')
    && (i + j < |b| ==> 0 <= Digit(c[s]) < 16 && 0 <= Digit(c[s + 1]) < 16)
    && (i + j < |b| ==> Digit(c[s]) * 16 + Digit(c[s + 1]) == b[i + j])
  }

  lemma CellReads(b: seq<Byte>, i: nat, j: nat)
    ensures CellIs(Cell(b, i, j), b, i, j)
  {
    if i + j < |b| {
      BytePrinted(b[i + j]);
    }
  }

  lemma LineIsOneLine(b: seq<Byte>, i: nat)
    requires i < |b|
    ensures '\n' !in Line(b, i)
  {
    PaddedIsNumeral(i, 16, 4);
    NumeralIsOneLine(Padded(i, 16, 4), 16);
    AreaIsOneLine(b, i, ROW);
    var glyphs := Glyphs(b[i..Min(|b|, i + ROW)]);
    assert '\n' !in glyphs;
    assert '\n' !in Frame(glyphs);
  }

  /** The header, as a text: the length in decimal and in hexadecimal, without leading zeros. */
  ghost predicate HeaderReads(t: string, n: nat) {
    && |t| >= 7 && t[..7] == "Buffer["
    && var d := Span(t[7..], 10);
      && NumeralReads(t[7..][..d], n, 10)
      && HexPartReads(t[7..][d..], n)
  }

  ghost predicate HexPartReads(t: string, n: nat) {
    && |t| >= 3 && t[..3] == "/0x"
    && var x := Span(t[3..], 16);
      && NumeralReads(t[3..][..x], n, 16)
      && t[3..][x..] == " bytes]:"
  }

  ghost predicate NumeralReads(t: string, n: nat, base: nat) {
    t != [] && Value(t, base) == n && (|t| > 1 ==> t[0] != '0')
  }

  lemma HeaderIsReadable(n: nat)
    ensures HeaderReads(Header(n), n)
  {
    var dec, hex := Print(n, 10), Print(n, 16);
    var rest := "/0x" + (hex + " bytes]:");
    HeaderParts(dec, hex);
    PrintIsNumeral(n, 10);
    PrintIsMinimal(n, 10);
    SpanOf(dec, rest, 10);
    Dropped("Buffer[", dec + rest);
    Dropped(dec, rest);
    HexPartIsReadable(n);
  }

  lemma HexPartIsReadable(n: nat)
    ensures HexPartReads("/0x" + (Print(n, 16) + " bytes]:"), n)
  {
    PrintIsNumeral(n, 16);
    PrintIsMinimal(n, 16);
    SpanOf(Print(n, 16), " bytes]:", 16);
    Dropped("/0x", Print(n, 16) + " bytes]:");
    Dropped(Print(n, 16), " bytes]:");
  }

  lemma HeaderParts(dec: string, hex: string)
    ensures "Buffer[" + dec + "/0x" + hex + " bytes]:" == "Buffer[" + (dec + ("/0x" + (hex + " bytes]:")))
  {
    Reassociate("Buffer[" + dec + "/0x", hex, " bytes]:");
    Reassociate("Buffer[" + dec, "/0x", hex + " bytes]:");
    Reassociate("Buffer[", dec, "/0x" + (hex + " bytes]:"));
  }

  /** A text cut at its line breaks. */
  function Split(t: string): (ls: seq<string>)
    ensures |ls| >= 1
  {
    if t == [] then [[]]
    else
      var rest := Split(t[1..]);
      if t[0] == '\n' then [[]] + rest else [[t[0]] + rest[0]] + rest[1..]
  }

  lemma {:induction false} SplitOf(x: string, y: string)
    requires '\n' !in x && (y == [] || y[0] == '\n')
    ensures Split(x + y) == [x] + if y == [] then [] else Split(y[1..])
  {
    if x == [] {
      assert x + y == y;
    } else {
      assert (x + y)[1..] == x[1..] + y;
      SplitOf(x[1..], y);
      assert [x[0]] + x[1..] == x;
    }
  }

  function LineCount(b: seq<Byte>, i: nat): nat {
    if i >= |b| then 0 else (|b| - i + 31) / 32
  }

  function LinesFrom(b: seq<Byte>, i: nat): seq<string> {
    seq(LineCount(b, i), r requires 0 <= r < LineCount(b, i) => Line(b, i + 32 * r))
  }

  lemma LinesFromStep(b: seq<Byte>, i: nat)
    requires i < |b|
    ensures LinesFrom(b, i) == [Line(b, i)] + LinesFrom(b, i + ROW)
  {
    assert LineCount(b, i) == 1 + LineCount(b, i + ROW);
    forall r | 0 < r < LineCount(b, i)
      ensures LinesFrom(b, i)[r] == LinesFrom(b, i + ROW)[r - 1]
    {
      assert i + 32 * r == i + ROW + 32 * (r - 1);
    }
  }

  lemma {:induction false} SplitRows(b: seq<Byte>, i: nat)
    requires i < |b|
    ensures Rows(b, i) != [] && Rows(b, i)[0] == '\n' && Split(Rows(b, i)[1..]) == LinesFrom(b, i)
    decreases |b| - i
  {
    LineIsOneLine(b, i);
    Reassociate("\n", Line(b, i), Rows(b, i + ROW));
    Dropped("\n", Line(b, i) + Rows(b, i + ROW));
    if i + ROW < |b| {
      SplitRows(b, i + ROW);
    }
    SplitOf(Line(b, i), Rows(b, i + ROW));
    LinesFromStep(b, i);
    assert i + ROW >= |b| ==> LinesFrom(b, i + ROW) == [];
  }

  lemma RowAt(b: seq<Byte>, header: seq<string>, r: nat)
    requires |header| == 1 && 32 * r < |b|
    ensures r < |LinesFrom(b, 0)| && RowReads((header + LinesFrom(b, 0))[r + 1], b, 32 * r)
  {
    LineReads(b, 32 * r);
    assert (header + LinesFrom(b, 0))[r + 1] == LinesFrom(b, 0)[r];
  }

  lemma SplitDump(b: seq<Byte>)
    ensures Split(Dump(b)) == [Header(|b|)] + LinesFrom(b, 0)
  {
    HeaderIsOneLine(|b|);
    if b != [] {
      SplitRows(b, 0);
    }
    SplitOf(Header(|b|), Rows(b, 0));
  }

  /** The whole text: a header that gives the length, then as many rows as 32 bytes to a row take, and behind the `r`-th
  line break the row that starts at byte 32 r. */
  lemma DumpReads(b: seq<Byte>)
    ensures var ls := Split(Dump(b));
      && |ls| == 1 + (|b| + 31) / 32
      && HeaderReads(ls[0], |b|)
      && forall r: nat | r < |ls| - 1 :: RowReads(ls[r + 1], b, 32 * r)
  {
    SplitDump(b);
    HeaderIsReadable(|b|);
    forall r: nat | r < (|b| + 31) / 32
      ensures RowReads(([Header(|b|)] + LinesFrom(b, 0))[r + 1], b, 32 * r)
    {
      RowAt(b, [Header(|b|)], r);
    }
  }
}
