/**
 Printing an extracted table as a GFM table (`htmlToCellText` from its whitespace step on, `tableToMarkdown`).

 A reader of GFM tables (section 4.10 of the GitHub Flavored Markdown Spec) splits rows at line breaks and
 cells at pipes that no backslash directly precedes, trims each cell and unescapes its pipes. The main
 result is that this reader gives back every cell text, whatever pipes and backslashes it holds.
 */
module GfmTable {
  import H = HtmlTables
  import opened Whitespace

  // ---------- cell text ----------

  function Escape(s: string): string {
    if s == "" then ""
    else (if s[0] == '|' then "\\|" else [s[0]]) + Escape(s[1..])
  }

  /** The text of a cell, from the tag-free text `s` of its markup. */
  function CellText(s: string): string {
    Escape(Collapse(s))
  }

  // ---------- printing ----------

  datatype MdRow = MdRow(cells: seq<string>, header: bool)

  function Join(parts: seq<string>, sep: string): string {
    if parts == [] then "" else if |parts| == 1 then parts[0] else parts[0] + sep + Join(parts[1..], sep)
  }

  function Line(cells: seq<string>): string {
    "| " + Join(cells, " | ") + " |"
  }

  function Copies(s: string, n: nat): seq<string> {
    seq(n, _ => s)
  }

  function Pad(cells: seq<string>, width: nat): seq<string> {
    if |cells| < width then cells + Copies("", width - |cells|) else cells
  }

  function Width(rows: seq<MdRow>): nat {
    if rows == [] then 0
    else var w := Width(rows[1..]); if |rows[0].cells| > w then |rows[0].cells| else w
  }

  /** The grid of cells the table shows: a header (blank unless the first row is one), dashes, the body. */
  function Grid(rows: seq<MdRow>): seq<seq<string>>
    requires rows != []
  {
    var w := Width(rows);
    [if rows[0].header then Pad(rows[0].cells, w) else Copies("", w), Copies("---", w)]
    + PadRows(if rows[0].header then rows[1..] else rows, w)
  }

  function PadRows(rows: seq<MdRow>, width: nat): seq<seq<string>> {
    if rows == [] then [] else [Pad(rows[0].cells, width)] + PadRows(rows[1..], width)
  }

  function LinesOf(grid: seq<seq<string>>): seq<string> {
    if grid == [] then [] else [Line(grid[0])] + LinesOf(grid[1..])
  }

  function PrintGrid(grid: seq<seq<string>>): string {
    Join(LinesOf(grid), "\n")
  }

  function Render(rows: seq<MdRow>): string {
    if rows == [] then "" else PrintGrid(Grid(rows))
  }

  /** The rows `tableToMarkdown` collects: the top-level rows with at least one cell. */
  function MdRows(rows: seq<seq<H.Token>>, strip: seq<H.Token> -> string): seq<MdRow> {
    if rows == [] then []
    else
      var cells := H.CellsOf(rows[0]);
      (if cells == [] then [] else [RowOf(cells, strip)]) + MdRows(rows[1..], strip)
  }

  /** A row is a header row when every cell is a th. */
  function RowOf(cells: seq<H.CellSpan>, strip: seq<H.Token> -> string): MdRow {
    MdRow(seq(|cells|, k requires 0 <= k < |cells| => CellText(strip(cells[k].tokens))), CountTh(cells) == |cells|)
  }

  function CountTh(cells: seq<H.CellSpan>): nat {
    if cells == [] then 0 else (if cells[0].th then 1 else 0) + CountTh(cells[1..])
  }

  lemma {:induction false} CountThIs(cells: seq<H.CellSpan>)
    ensures CountTh(cells) <= |cells|
    ensures CountTh(cells) == |cells| <==> forall k :: 0 <= k < |cells| ==> cells[k].th
  {
    if cells != [] {
      CountThIs(cells[1..]);
      assert forall k :: 1 <= k < |cells| ==> cells[k] == cells[1..][k - 1];
    }
  }

  method CollectRows(table: seq<H.Token>, strip: seq<H.Token> -> string) returns (rows: seq<MdRow>)
    ensures rows == MdRows(H.RowsOf(table), strip)
  {
    var spans := H.TopLevelRows(table);
    rows := [];
    for i := 0 to |spans|
      invariant rows + MdRows(spans[i..], strip) == MdRows(spans, strip)
    {
      ghost var done, later := rows, MdRows(spans[i + 1..], strip);
      assert spans[i..][0] == spans[i] && spans[i..][1..] == spans[i + 1..];
      var cellSpans := H.TopLevelCells(spans[i]);
      if |cellSpans| > 0 {
        var row := RowOf(cellSpans, strip);
        rows := rows + [row];
        assert rows + later == done + ([row] + later);
      } else {
        assert [] + later == later;
      }
    }
  }

  method PadCells(cells: seq<string>, width: nat) returns (copy: seq<string>)
    ensures copy == Pad(cells, width)
  {
    copy := cells;
    while |copy| < width
      invariant |cells| <= |copy| && (|copy| <= width || copy == cells)
      invariant copy == cells + Copies("", |copy| - |cells|)
    {
      copy := copy + [""];
    }
  }

  lemma {:induction false} LinesOfTwo(a: seq<string>, b: seq<string>, rest: seq<seq<string>>)
    ensures LinesOf([a, b] + rest) == [Line(a), Line(b)] + LinesOf(rest)
  {
    assert ([a, b] + rest)[1..] == [b] + rest && ([b] + rest)[1..] == rest;
  }

  method BodyLines(rows: seq<MdRow>, bodyStart: nat, width: nat) returns (lines: seq<string>)
    requires bodyStart <= |rows|
    ensures lines == LinesOf(PadRows(rows[bodyStart..], width))
  {
    lines := [];
    for i := bodyStart to |rows|
      invariant lines + LinesOf(PadRows(rows[i..], width)) == LinesOf(PadRows(rows[bodyStart..], width))
    {
      assert rows[i..][0] == rows[i] && rows[i..][1..] == rows[i + 1..];
      var cells := PadCells(rows[i].cells, width);
      ghost var later := PadRows(rows[i + 1..], width);
      assert ([cells] + later)[1..] == later;
      assert lines + ([Line(cells)] + LinesOf(later)) == lines + [Line(cells)] + LinesOf(later);
      lines := lines + [Line(cells)];
    }
    assert rows[|rows|..] == [] && lines + [] == lines;
  }

  method TableToMarkdown(table: seq<H.Token>, strip: seq<H.Token> -> string) returns (md: string)
    ensures md == Render(MdRows(H.RowsOf(table), strip))
    ensures var rs := CellRows(H.RowsOf(table));
            ReadsAs(md, rs, strip) && AreNonEmpty(rs, EachCells(H.RowsOf(table)))
  {
    var rows := CollectRows(table, strip);
    StreamReadsBack(table, strip);
    if |rows| == 0 {
      return "";
    }
    var width := Width(rows);
    var bodyStart := 0;
    var headerCells := Copies("", width);
    if rows[0].header {
      headerCells := PadCells(rows[0].cells, width);
      bodyStart := 1;
    }
    var dashes := Copies("---", width);
    var body := BodyLines(rows, bodyStart, width);
    assert rows[0..] == rows;
    LinesOfTwo(headerCells, dashes, PadRows(rows[bodyStart..], width));
    md := Join([Line(headerCells), Line(dashes)] + body, "\n");
  }

  // ---------- a reader of GFM tables ----------

  function SplitLines(s: string): (lines: seq<string>)
    ensures lines != []
  {
    if s == "" then [""]
    else
      var rest := SplitLines(s[1..]);
      if s[0] == '\n' then [""] + rest else [[s[0]] + rest[0]] + rest[1..]
  }

  /** Splits at every pipe that is not directly preceded by a backslash; `acc` is the piece read so far. */
  function Pieces(s: string, acc: string, afterBackslash: bool): seq<string> {
    if s == "" then [acc]
    else if s[0] == '|' && !afterBackslash then [acc] + Pieces(s[1..], "", false)
    else Pieces(s[1..], acc + [s[0]], s[0] == '\\')
  }

  function Unescape(s: string): string {
    if s == "" then ""
    else if |s| >= 2 && s[0] == '\\' && s[1] == '|' then "|" + Unescape(s[2..])
    else [s[0]] + Unescape(s[1..])
  }

  /** A row's cells: what stands between its outer pipes, trimmed and unescaped. */
  function ReadLine(line: string): seq<string> {
    var ps := Pieces(line, "", false);
    if |ps| < 2 then [] else seq(|ps| - 2, k requires 0 <= k < |ps| - 2 => Unescape(Trim(ps[k + 1])))
  }

  function ReadTable(md: string): seq<seq<string>> {
    ReadLines(SplitLines(md))
  }

  function ReadLines(lines: seq<string>): seq<seq<string>> {
    if lines == [] then [] else [ReadLine(lines[0])] + ReadLines(lines[1..])
  }

  // ---------- the reader undoes the printer ----------

  lemma {:induction false} UnescapeEscape(c: string)
    ensures Unescape(Escape(c)) == c
  {
    if c != "" {
      UnescapeEscape(c[1..]);
      var rest := Escape(c[1..]);
      if c[0] == '|' {
        assert Escape(c)[2..] == rest;
      } else {
        assert Escape(c)[1..] == rest;
        assert rest != "" ==> rest[0] != '|';
      }
      assert c == [c[0]] + c[1..];
    }
  }

  lemma {:induction false} OrdinaryStep(ch: char, s: string, acc: string, after: bool)
    requires ch != '|' || after
    ensures Pieces([ch] + s, acc, after) == Pieces(s, acc + [ch], ch == '\\')
  {
    assert ([ch] + s)[1..] == s;
  }

  lemma {:induction false} EscapedPipe(s: string, acc: string, after: bool)
    ensures Pieces("\\|" + s, acc, after) == Pieces(s, acc + "\\|", false)
  {
    assert "\\|" + s == "\\" + ("|" + s);
    OrdinaryStep('\\', "|" + s, acc, after);
    OrdinaryStep('|', s, acc + "\\", true);
    assert acc + "\\" + "|" == acc + "\\|";
  }

  /** Inside escaped text no pipe splits. */
  lemma {:induction false} EscapedStaysWhole(c: string, rest: string, acc: string, after: bool)
    ensures Pieces(Escape(c) + (" " + rest), acc, after) == Pieces(rest, acc + (Escape(c) + " "), false)
  {
    var tail := " " + rest;
    if c == "" {
      assert Escape(c) + tail == tail && Escape(c) + " " == " ";
      OrdinaryStep(' ', rest, acc, after);
    } else {
      var e := Escape(c[1..]);
      if c[0] == '|' {
        assert Escape(c) + tail == "\\|" + (e + tail);
        EscapedPipe(e + tail, acc, after);
        EscapedStaysWhole(c[1..], rest, acc + "\\|", false);
        assert acc + "\\|" + (e + " ") == acc + (Escape(c) + " ");
      } else {
        assert Escape(c) + tail == [c[0]] + (e + tail);
        OrdinaryStep(c[0], e + tail, acc, after);
        EscapedStaysWhole(c[1..], rest, acc + [c[0]], c[0] == '\\');
        assert acc + [c[0]] + (e + " ") == acc + (Escape(c) + " ");
      }
    }
  }

  function Segments(cells: seq<string>): string {
    if cells == [] then "" else " " + (cells[0] + (" " + ("|" + Segments(cells[1..]))))
  }

  lemma {:induction false} LineIsSegments(cells: seq<string>)
    requires cells != []
    ensures " " + Join(cells, " | ") + " |" == Segments(cells)
  {
    if |cells| == 1 {
      assert Segments(cells[1..]) == "";
      assert Segments(cells) == " " + (cells[0] + (" " + ("|" + "")));
    } else {
      LineIsSegments(cells[1..]);
      assert " " + (cells[0] + " | " + Join(cells[1..], " | ")) + " |"
          == " " + (cells[0] + (" " + ("|" + (" " + Join(cells[1..], " | ") + " |"))));
    }
  }

  function EscapeAll(cells: seq<string>): seq<string> {
    seq(|cells|, k requires 0 <= k < |cells| => Escape(cells[k]))
  }

  function Spaced(cells: seq<string>): seq<string> {
    seq(|cells|, k requires 0 <= k < |cells| => " " + (Escape(cells[k]) + " "))
  }

  lemma {:induction false} OnePiece(c: string, rest: string)
    ensures Pieces(" " + (Escape(c) + (" " + ("|" + rest))), "", false)
         == [" " + (Escape(c) + " ")] + Pieces(rest, "", false)
  {
    OrdinaryStep(' ', Escape(c) + (" " + ("|" + rest)), "", false);
    assert "" + " " == " ";
    EscapedStaysWhole(c, "|" + rest, " ", false);
    assert ("|" + rest)[1..] == rest;
  }

  lemma {:induction false} SegmentPieces(cells: seq<string>)
    ensures Pieces(Segments(EscapeAll(cells)), "", false) == Spaced(cells) + [""]
  {
    if cells == [] {
      assert EscapeAll(cells) == [];
    } else {
      SegmentPieces(cells[1..]);
      assert EscapeAll(cells)[1..] == EscapeAll(cells[1..]);
      OnePiece(cells[0], Segments(EscapeAll(cells[1..])));
      assert Spaced(cells) == [" " + (Escape(cells[0]) + " ")] + Spaced(cells[1..]);
    }
  }

  lemma {:induction false} EscapeKeepsClean(c: string)
    requires Clean(c)
    ensures Clean(Escape(c))
  {
    EscapeEnds(c);
    EscapeHasNoBreaks(c);
  }

  lemma {:induction false} EscapeHasNoBreaks(c: string)
    requires '\n' !in c
    ensures '\n' !in Escape(c)
  {
    if c != "" {
      EscapeHasNoBreaks(c[1..]);
    }
  }

  lemma {:induction false} EscapeEnds(c: string)
    ensures c != "" ==> Escape(c) != "" && Escape(c)[0] == (if c[0] == '|' then '\\' else c[0])
    ensures c != "" ==> Escape(c)[|Escape(c)| - 1] == c[|c| - 1]
  {
    if c != "" {
      EscapeEnds(c[1..]);
    }
  }

  lemma {:induction false} TrimSpaced(x: string)
    requires Clean(x)
    ensures Trim(" " + (x + " ")) == x
  {
    var s := " " + (x + " ");
    assert s[1..] == x + " ";
    if x == "" {
      assert x + " " == " ";
      assert " "[1..] == "";
      assert TrimLeft(" ") == TrimLeft("") == "";
    } else {
      var y := x + " ";
      assert TrimLeft(s) == TrimLeft(y) == y;
      assert y[|y| - 1] == ' ' && y[..|y| - 1] == x;
      assert TrimRight(y) == TrimRight(x) == x;
    }
  }

  lemma {:induction false} CellReadsBack(c: string)
    requires Clean(c)
    ensures Unescape(Trim(" " + (Escape(c) + " "))) == c && '\n' !in Escape(c)
  {
    EscapeKeepsClean(c);
    TrimSpaced(Escape(c));
    UnescapeEscape(c);
  }

  lemma {:induction false} LineIsBarred(es: seq<string>)
    requires es != []
    ensures Line(es) == "|" + Segments(es)
  {
    LineIsSegments(es);
    assert "| " == "|" + " ";
  }

  lemma {:induction false} LinePieces(cells: seq<string>)
    requires cells != []
    ensures Pieces(Line(EscapeAll(cells)), "", false) == [""] + (Spaced(cells) + [""])
  {
    var segs := Segments(EscapeAll(cells));
    LineIsBarred(EscapeAll(cells));
    assert ("|" + segs)[1..] == segs;
    SegmentPieces(cells);
  }

  /** One printed row reads back as its cells. */
  lemma {:induction false} LineRoundTrip(cells: seq<string>)
    requires cells != [] && forall k :: 0 <= k < |cells| ==> Clean(cells[k])
    ensures ReadLine(Line(EscapeAll(cells))) == cells
    ensures '\n' !in Line(EscapeAll(cells))
  {
    LinePieces(cells);
    PiecesReadBack(Pieces(Line(EscapeAll(cells)), "", false), cells);
    LineHasNoBreaks(cells);
  }

  lemma {:induction false} PiecesReadBack(ps: seq<string>, cells: seq<string>)
    requires ps == [""] + (Spaced(cells) + [""]) && forall k :: 0 <= k < |cells| ==> Clean(cells[k])
    ensures seq(|ps| - 2, k requires 0 <= k < |ps| - 2 => Unescape(Trim(ps[k + 1]))) == cells
  {
    forall k | 0 <= k < |cells| ensures Unescape(Trim(ps[k + 1])) == cells[k] {
      CellReadsBack(cells[k]);
      assert ps[k + 1] == Spaced(cells)[k];
    }
  }

  lemma {:induction false} LineHasNoBreaks(cells: seq<string>)
    requires cells != [] && forall k :: 0 <= k < |cells| ==> Clean(cells[k])
    ensures '\n' !in Line(EscapeAll(cells))
  {
    LineIsBarred(EscapeAll(cells));
    forall k | 0 <= k < |cells| ensures '\n' !in Escape(cells[k]) {
      CellReadsBack(cells[k]);
    }
    SegmentsHaveNoBreaks(EscapeAll(cells));
  }

  lemma {:induction false} SegmentsHaveNoBreaks(es: seq<string>)
    requires forall k :: 0 <= k < |es| ==> '\n' !in es[k]
    ensures '\n' !in Segments(es)
  {
    if es != [] {
      SegmentsHaveNoBreaks(es[1..]);
    }
  }

  lemma {:induction false} LineThenRest(line: string, rest: string)
    requires '\n' !in line
    ensures SplitLines(line) == [line]
    ensures SplitLines(line + "\n" + rest) == [line] + SplitLines(rest)
  {
    if line == "" {
      assert line + "\n" + rest == "\n" + rest && ("\n" + rest)[1..] == rest;
    } else {
      LineThenRest(line[1..], rest);
      assert (line + "\n" + rest)[1..] == line[1..] + "\n" + rest;
      assert line == [line[0]] + line[1..];
    }
  }

  lemma {:induction false} LinesRoundTrip(lines: seq<string>)
    requires lines != [] && forall k :: 0 <= k < |lines| ==> '\n' !in lines[k]
    ensures SplitLines(Join(lines, "\n")) == lines
  {
    if |lines| == 1 {
      LineThenRest(lines[0], "");
    } else {
      LinesRoundTrip(lines[1..]);
      LineThenRest(lines[0], Join(lines[1..], "\n"));
    }
  }

  function EscapeRows(grid: seq<seq<string>>): seq<seq<string>> {
    if grid == [] then [] else [EscapeAll(grid[0])] + EscapeRows(grid[1..])
  }

  predicate CleanRow(cells: seq<string>) {
    cells != [] && forall m :: 0 <= m < |cells| ==> Clean(cells[m])
  }

  lemma {:induction false} GridLinesReadBack(grid: seq<seq<string>>)
    requires forall k :: 0 <= k < |grid| ==> CleanRow(grid[k])
    ensures ReadLines(LinesOf(EscapeRows(grid))) == grid
    ensures |LinesOf(EscapeRows(grid))| == |grid|
    ensures forall k :: 0 <= k < |LinesOf(EscapeRows(grid))| ==> '\n' !in LinesOf(EscapeRows(grid))[k]
  {
    if grid != [] {
      GridLinesReadBack(grid[1..]);
      LineRoundTrip(grid[0]);
      assert EscapeRows(grid)[1..] == EscapeRows(grid[1..]);
      assert LinesOf(EscapeRows(grid))[1..] == LinesOf(EscapeRows(grid[1..]));
    }
  }

  /** A grid of clean texts, printed escaped, reads back unchanged. */
  lemma {:induction false} GridRoundTrip(grid: seq<seq<string>>)
    requires grid != [] && forall k :: 0 <= k < |grid| ==> CleanRow(grid[k])
    ensures ReadTable(PrintGrid(EscapeRows(grid))) == grid
  {
    GridLinesReadBack(grid);
    LinesRoundTrip(LinesOf(EscapeRows(grid)));
  }

  // ---------- rows of texts ----------

  /** The same rows with their pipes escaped, as the code holds them. */
  function Escaped(rows: seq<MdRow>): seq<MdRow> {
    if rows == [] then [] else [MdRow(EscapeAll(rows[0].cells), rows[0].header)] + Escaped(rows[1..])
  }

  lemma {:induction false} WidthBounds(rows: seq<MdRow>)
    ensures forall k :: 0 <= k < |rows| ==> |rows[k].cells| <= Width(rows)
    ensures Width(Escaped(rows)) == Width(rows)
  {
    if rows != [] {
      WidthBounds(rows[1..]);
      assert Escaped(rows)[1..] == Escaped(rows[1..]);
    }
  }

  lemma {:induction false} EscapePad(cells: seq<string>, width: nat)
    ensures EscapeAll(Pad(cells, width)) == Pad(EscapeAll(cells), width)
  {
    assert Escape("") == "";
  }

  lemma {:induction false} EscapePadRows(rows: seq<MdRow>, width: nat)
    ensures EscapeRows(PadRows(rows, width)) == PadRows(Escaped(rows), width)
  {
    if rows != [] {
      EscapePadRows(rows[1..], width);
      EscapePad(rows[0].cells, width);
      assert Escaped(rows)[1..] == Escaped(rows[1..]);
      assert PadRows(rows, width)[1..] == PadRows(rows[1..], width);
    }
  }

  lemma {:induction false} EscapeTwo(a: seq<string>, b: seq<string>, rest: seq<seq<string>>)
    ensures EscapeRows([a, b] + rest) == [EscapeAll(a), EscapeAll(b)] + EscapeRows(rest)
  {
    assert ([a, b] + rest)[1..] == [b] + rest && ([b] + rest)[1..] == rest;
  }

  lemma {:induction false} EscapeGrid(rows: seq<MdRow>)
    requires rows != []
    ensures Grid(Escaped(rows)) == EscapeRows(Grid(rows))
  {
    var w := Width(rows);
    WidthBounds(rows);
    DashesStay();
    var header := if rows[0].header then Pad(rows[0].cells, w) else Copies("", w);
    var body := if rows[0].header then rows[1..] else rows;
    EscapeTwo(header, Copies("---", w), PadRows(body, w));
    EscapePadRows(body, w);
    EscapePad(rows[0].cells, w);
    assert Escaped(rows)[1..] == Escaped(rows[1..]);
    assert EscapeAll(Copies("---", w)) == Copies("---", w) && EscapeAll(Copies("", w)) == Copies("", w);
  }

  lemma {:induction false} DashesStay()
    ensures Escape("---") == "---" && Escape("") == ""
  {
    assert "---"[1..] == "--" && "--"[1..] == "-" && "-"[1..] == "";
    assert Escape("-") == "-" + Escape("");
    assert Escape("--") == "-" + Escape("-");
  }

  lemma {:induction false} PadIsClean(cells: seq<string>, width: nat)
    requires CleanRow(cells) && |cells| <= width
    ensures CleanRow(Pad(cells, width)) && |Pad(cells, width)| == width
  {
  }

  lemma {:induction false} PadRowsAreClean(rows: seq<MdRow>, width: nat)
    requires forall k :: 0 <= k < |rows| ==> CleanRow(rows[k].cells) && |rows[k].cells| <= width
    ensures |PadRows(rows, width)| == |rows|
    ensures forall k :: 0 <= k < |rows| ==> CleanRow(PadRows(rows, width)[k]) && |PadRows(rows, width)[k]| == width
  {
    if rows != [] {
      PadRowsAreClean(rows[1..], width);
      PadIsClean(rows[0].cells, width);
    }
  }

  /**
   The round trip: reading the printed table gives the grid of the unescaped rows, so no row or cell is
   lost and every line has the table's width.
   */
  lemma {:induction false} TableRoundTrip(rows: seq<MdRow>)
    requires rows != [] && forall k :: 0 <= k < |rows| ==> CleanRow(rows[k].cells)
    ensures ReadTable(Render(Escaped(rows))) == Grid(rows)
    ensures forall k :: 0 <= k < |Grid(rows)| ==> |Grid(rows)[k]| == Width(rows)
    ensures |Grid(rows)| == if rows[0].header then |rows| + 1 else |rows| + 2
  {
    var g, w := Grid(rows), Width(rows);
    WidthBounds(rows);
    PadIsClean(rows[0].cells, w);
    PadRowsAreClean(rows, w);
    PadRowsAreClean(rows[1..], w);
    assert CleanRow(Copies("", w)) && CleanRow(Copies("---", w));
    EscapeGrid(rows);
    GridRoundTrip(g);
  }

  // ---------- from any token stream ----------

  /** The row a reader should see: the cells' texts collapsed, not escaped. */
  function PlainRow(cells: seq<H.CellSpan>, strip: seq<H.Token> -> string): MdRow {
    MdRow(seq(|cells|, k requires 0 <= k < |cells| => Collapse(strip(cells[k].tokens))),
          forall k :: 0 <= k < |cells| ==> cells[k].th)
  }

  function PlainRows(rows: seq<seq<H.Token>>, strip: seq<H.Token> -> string): seq<MdRow> {
    if rows == [] then []
    else
      var cells := H.CellsOf(rows[0]);
      (if cells == [] then [] else [PlainRow(cells, strip)]) + PlainRows(rows[1..], strip)
  }

  lemma {:induction false} RowIsPlain(cells: seq<H.CellSpan>, strip: seq<H.Token> -> string)
    ensures RowOf(cells, strip) == MdRow(EscapeAll(PlainRow(cells, strip).cells), PlainRow(cells, strip).header)
    ensures cells != [] ==> CleanRow(PlainRow(cells, strip).cells)
  {
    var left, plain := RowOf(cells, strip).cells, PlainRow(cells, strip).cells;
    forall k | 0 <= k < |cells| ensures left[k] == EscapeAll(plain)[k] && Clean(plain[k]) {
      assert left[k] == CellText(strip(cells[k].tokens));
      CollapseIsClean(strip(cells[k].tokens));
    }
    assert left == EscapeAll(plain);
    CountThIs(cells);
  }

  /** The collected rows are the plain rows, escaped; and the plain rows are clean. */
  lemma {:induction false} CollectedArePlain(rows: seq<seq<H.Token>>, strip: seq<H.Token> -> string)
    ensures MdRows(rows, strip) == Escaped(PlainRows(rows, strip))
    ensures forall k :: 0 <= k < |PlainRows(rows, strip)| ==> CleanRow(PlainRows(rows, strip)[k].cells)
  {
    if rows != [] {
      CollectedArePlain(rows[1..], strip);
      var cells, rest := H.CellsOf(rows[0]), PlainRows(rows[1..], strip);
      var head := PlainRow(cells, strip);
      if cells == [] {
        assert PlainRows(rows, strip) == rest && MdRows(rows, strip) == MdRows(rows[1..], strip);
      } else {
        RowIsPlain(cells, strip);
        assert PlainRows(rows, strip) == [head] + rest && ([head] + rest)[1..] == rest;
      }
    }
  }

  // ---------- what the reader sees, cell by cell ----------

  /** The members of `all` that are not empty, in order. */
  function NonEmpty<T>(all: seq<seq<T>>): seq<seq<T>> {
    if all == [] then [] else (if all[0] == [] then [] else [all[0]]) + NonEmpty(all[1..])
  }

  predicate Among(at: seq<nat>, i: nat) {
    exists k :: 0 <= k < |at| && at[k] == i
  }

  /** `at` lists, in order, the positions from `from` on of the members that are not empty, and `rs` those members. */
  ghost predicate Picks<T>(at: seq<nat>, rs: seq<seq<T>>, all: seq<seq<T>>, from: nat) {
    && |rs| == |at|
    && (forall k :: 0 <= k < |at| ==> from <= at[k] < |all| && rs[k] == all[at[k]] && rs[k] != [])
    && (forall k, m :: 0 <= k < m < |at| ==> at[k] < at[m])
    && (forall i :: from <= i < |all| && all[i] != [] ==> Among(at, i))
  }

  ghost predicate AreNonEmpty<T>(rs: seq<seq<T>>, all: seq<seq<T>>) {
    exists at: seq<nat> :: Picks(at, rs, all, 0)
  }

  lemma {:induction false} AmongCons(x: nat, at: seq<nat>, i: nat)
    requires Among(at, i) || i == x
    ensures Among([x] + at, i)
  {
    if i == x {
      assert ([x] + at)[0] == i;
    } else {
      var k :| 0 <= k < |at| && at[k] == i;
      assert ([x] + at)[k + 1] == i;
    }
  }

  lemma {:induction false} PicksCons<T>(at: seq<nat>, rs: seq<seq<T>>, all: seq<seq<T>>, from: nat)
    requires from < |all| && all[from] != [] && Picks(at, rs, all, from + 1)
    ensures Picks([from] + at, [all[from]] + rs, all, from)
  {
    forall i | from <= i < |all| && all[i] != [] ensures Among([from] + at, i) {
      AmongCons(from, at, i);
    }
  }

  lemma {:induction false} NonEmptyPicks<T>(all: seq<seq<T>>, from: nat) returns (at: seq<nat>)
    requires from <= |all|
    ensures Picks(at, NonEmpty(all[from..]), all, from)
    decreases |all| - from
  {
    if from == |all| {
      at := [];
    } else {
      at := NonEmptyPicks(all, from + 1);
      assert all[from..][0] == all[from] && all[from..][1..] == all[from + 1..];
      var rest := NonEmpty(all[from + 1..]);
      if all[from] != [] {
        PicksCons(at, rest, all, from);
        at := [from] + at;
      } else {
        assert [] + rest == rest;
      }
    }
  }

  function EachCells(rows: seq<seq<H.Token>>): seq<seq<H.CellSpan>> {
    seq(|rows|, i requires 0 <= i < |rows| => H.CellsOf(rows[i]))
  }

  /** The cells of the rows that have any, in order. */
  function CellRows(rows: seq<seq<H.Token>>): seq<seq<H.CellSpan>> {
    NonEmpty(EachCells(rows))
  }

  lemma {:induction false} CellRowsCons(rows: seq<seq<H.Token>>)
    requires rows != []
    ensures CellRows(rows) == (if H.CellsOf(rows[0]) == [] then [] else [H.CellsOf(rows[0])]) + CellRows(rows[1..])
  {
    assert EachCells(rows)[1..] == EachCells(rows[1..]);
  }

  /** The line of row `k`: a header row stands above the dashes, all others below. */
  function LineOf(header: bool, k: nat): nat {
    if !header then k + 2 else if k == 0 then 0 else k + 1
  }

  predicate AllTh(cells: seq<H.CellSpan>) {
    forall j :: 0 <= j < |cells| ==> cells[j].th
  }

  /** A line of the grid shows the collapsed texts of the cells, then blanks. */
  ghost predicate ShowsRow(line: seq<string>, cells: seq<H.CellSpan>, strip: seq<H.Token> -> string) {
    && |cells| <= |line|
    && (forall j :: 0 <= j < |cells| ==> line[j] == Collapse(strip(cells[j].tokens)))
    && (forall j :: |cells| <= j < |line| ==> line[j] == "")
  }

  predicate AllAre(line: seq<string>, text: string) {
    forall j :: 0 <= j < |line| ==> line[j] == text
  }

  /** All lines are as wide as the longest row. */
  ghost predicate IsWide(g: seq<seq<string>>, rs: seq<seq<H.CellSpan>>) {
    exists k :: 0 <= k < |rs| && forall l :: 0 <= l < |g| ==> |g[l]| == |rs[k]|
  }

  /** The grid a reader should see for these rows of cells. */
  ghost predicate Shows(g: seq<seq<string>>, rs: seq<seq<H.CellSpan>>, strip: seq<H.Token> -> string)
    requires rs != []
  {
    var header := AllTh(rs[0]);
    && |g| == |rs| + (if header then 1 else 2)
    && (forall k :: 0 <= k < |rs| ==> ShowsRow(g[LineOf(header, k)], rs[k], strip))
    && AllAre(g[1], "---") && (!header ==> AllAre(g[0], ""))
    && IsWide(g, rs)
  }

  ghost predicate ReadsAs(md: string, rs: seq<seq<H.CellSpan>>, strip: seq<H.Token> -> string) {
    if rs == [] then md == "" else Shows(ReadTable(md), rs, strip)
  }

  lemma {:induction false} PlainRowsAre(rows: seq<seq<H.Token>>, strip: seq<H.Token> -> string)
    ensures |PlainRows(rows, strip)| == |CellRows(rows)|
    ensures forall k :: 0 <= k < |CellRows(rows)| ==> PlainRows(rows, strip)[k] == PlainRow(CellRows(rows)[k], strip)
    ensures forall k :: 0 <= k < |CellRows(rows)| ==> CellRows(rows)[k] != []
  {
    if rows != [] {
      PlainRowsAre(rows[1..], strip);
      CellRowsCons(rows);
    }
  }

  lemma {:induction false} PadRowsAre(rows: seq<MdRow>, width: nat)
    ensures |PadRows(rows, width)| == |rows|
    ensures forall k :: 0 <= k < |rows| ==> PadRows(rows, width)[k] == Pad(rows[k].cells, width)
  {
    if rows != [] {
      PadRowsAre(rows[1..], width);
    }
  }

  lemma {:induction false} WidthAttained(rows: seq<MdRow>)
    requires rows != []
    ensures exists k :: 0 <= k < |rows| && |rows[k].cells| == Width(rows)
  {
    if |rows| > 1 {
      WidthAttained(rows[1..]);
      var k :| 0 <= k < |rows[1..]| && |rows[1..][k].cells| == Width(rows[1..]);
      assert rows[k + 1] == rows[1..][k];
    }
    assert |rows[0].cells| == Width(rows) || exists k :: 0 <= k < |rows| && |rows[k].cells| == Width(rows);
  }

  /** Row `k` stands on its line of the grid. */
  lemma {:induction false} GridLine(rows: seq<MdRow>, k: nat)
    requires k < |rows|
    ensures |Grid(rows)| == |rows| + if rows[0].header then 1 else 2
    ensures Grid(rows)[LineOf(rows[0].header, k)] == Pad(rows[k].cells, Width(rows))
  {
    var header, w := rows[0].header, Width(rows);
    var body := if header then rows[1..] else rows;
    PadRowsAre(body, w);
    if !header || k > 0 {
      var m := if header then k - 1 else k;
      assert body[m] == rows[k];
      assert Grid(rows)[m + 2] == PadRows(body, w)[m];
    }
  }

  lemma {:induction false} PadShows(cells: seq<H.CellSpan>, strip: seq<H.Token> -> string, width: nat)
    requires |cells| <= width
    ensures ShowsRow(Pad(PlainRow(cells, strip).cells, width), cells, strip)
    ensures |Pad(PlainRow(cells, strip).cells, width)| == width
  {
  }

  lemma {:induction false} GridIsWide(rs: seq<seq<H.CellSpan>>, rows: seq<MdRow>, strip: seq<H.Token> -> string)
    requires rs != [] && |rows| == |rs|
    requires forall k :: 0 <= k < |rs| ==> rows[k] == PlainRow(rs[k], strip) && |rs[k]| <= Width(rows)
    ensures IsWide(Grid(rows), rs)
  {
    var g, w, header := Grid(rows), Width(rows), rows[0].header;
    GridLine(rows, 0);
    forall l | 0 <= l < |g| ensures |g[l]| == w {
      if l != 1 && (header || l > 1) {
        var k := if !header then l - 2 else if l == 0 then 0 else l - 1;
        GridLine(rows, k);
        PadShows(rs[k], strip, w);
      }
    }
    WidthAttained(rows);
    var k :| 0 <= k < |rows| && |rows[k].cells| == w;
    assert |rs[k]| == w;
  }

  lemma {:induction false} GridShows(rs: seq<seq<H.CellSpan>>, rows: seq<MdRow>, strip: seq<H.Token> -> string)
    requires rs != [] && |rows| == |rs|
    requires forall k :: 0 <= k < |rs| ==> rows[k] == PlainRow(rs[k], strip)
    ensures Shows(Grid(rows), rs, strip)
  {
    var g, header := Grid(rows), rows[0].header;
    WidthBounds(rows);
    GridLine(rows, 0);
    forall k | 0 <= k < |rs| ensures |rs[k]| <= Width(rows) {
      assert |rows[k].cells| == |rs[k]|;
    }
    forall k | 0 <= k < |rs| ensures ShowsRow(g[LineOf(header, k)], rs[k], strip) {
      GridLine(rows, k);
      PadShows(rs[k], strip, Width(rows));
    }
    GridIsWide(rs, rows, strip);
  }

  /** Whatever the token stream, well formed or not, the printed table reads back cell by cell. */
  lemma {:induction false} StreamReadsBack(table: seq<H.Token>, strip: seq<H.Token> -> string)
    ensures ReadsAs(Render(MdRows(H.RowsOf(table), strip)), CellRows(H.RowsOf(table)), strip)
    ensures AreNonEmpty(CellRows(H.RowsOf(table)), EachCells(H.RowsOf(table)))
  {
    var rows := H.RowsOf(table);
    var plain := PlainRows(rows, strip);
    CollectedArePlain(rows, strip);
    PlainRowsAre(rows, strip);
    var at := NonEmptyPicks(EachCells(rows), 0);
    assert EachCells(rows)[0..] == EachCells(rows);
    if plain != [] {
      TableRoundTrip(plain);
      GridShows(CellRows(rows), plain, strip);
    }
  }

  // ---------- from table trees ----------

  /** The cells of a row: each with its kind and the printed form of its content. */
  function RowCells(row: H.Row): seq<H.CellSpan> {
    seq(|row.cells|, j requires 0 <= j < |row.cells| =>
      H.CellSpan(row.cells[j].th, H.PrintContent(row.cells[j].content)))
  }

  function TreeCells(rows: seq<H.Row>): seq<seq<H.CellSpan>> {
    seq(|rows|, i requires 0 <= i < |rows| => RowCells(rows[i]))
  }

  lemma {:induction false} CellSpansAre(cells: seq<H.Cell>)
    ensures |H.CellSpans(cells)| == |cells|
    ensures forall k :: 0 <= k < |cells| ==>
              H.CellSpans(cells)[k] == H.CellSpan(cells[k].th, H.PrintContent(cells[k].content))
  {
    if cells != [] {
      CellSpansAre(cells[1..]);
    }
  }

  lemma {:induction false} InnersAre(rows: seq<H.Row>)
    ensures |H.RowInners(rows)| == |rows|
    ensures forall i :: 0 <= i < |rows| ==> H.RowInners(rows)[i] == H.RowInner(rows[i])
  {
    if rows != [] {
      InnersAre(rows[1..]);
    }
  }

  /** The scanners find in a printed tree the rows and cells of the tree. */
  lemma {:induction false} TreeRows(rows: seq<H.Row>)
    ensures EachCells(H.RowInners(rows)) == TreeCells(rows)
  {
    InnersAre(rows);
    forall i | 0 <= i < |rows| ensures H.CellsOf(H.RowInners(rows)[i]) == RowCells(rows[i]) {
      H.CellsRoundTrip(rows[i]);
      CellSpansAre(rows[i].cells);
    }
  }

  /** End to end: a table tree, however nested, scanned and printed, reads back as its own rows, cell by cell. */
  lemma {:induction false} TreeReadsBack(t: H.Table, strip: seq<H.Token> -> string)
    ensures var rs := NonEmpty(TreeCells(t.rows));
            && AreNonEmpty(rs, TreeCells(t.rows))
            && ReadsAs(Render(MdRows(H.RowsOf(H.PrintTable(t)), strip)), rs, strip)
  {
    H.RowsRoundTrip(t);
    TreeRows(t.rows);
    StreamReadsBack(H.PrintTable(t), strip);
  }
}
