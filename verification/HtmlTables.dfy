/**
 Depth-counting scanners over table markup (`extractTopLevelTables`, `topLevelRows`, `topLevelCells` and the
 splice in `wikiHtmlToMarkdown`).

 A page is a stream of tags and text; every token keeps its raw text, so slices of the stream stand for
 slices of the page. The rescanning extractor is compared with a one-pass stack matcher on every stream,
 balanced or not, and the row and cell scanners with a printer of nested table trees.
 */
module HtmlTables {
  import opened Options

  datatype Tag = TableTag | RowTag | CellTag(th: bool)

  datatype Token = Open(tag: Tag, raw: string) | Close(tag: Tag, raw: string) | Text(raw: string)

  predicate OpensTable(t: Token) { t.Open? && t.tag.TableTag? }

  predicate ClosesTable(t: Token) { t.Close? && t.tag.TableTag? }

  predicate IsRowTag(t: Token) { !t.Text? && t.tag.RowTag? }

  predicate IsCellTag(t: Token) { !t.Text? && t.tag.CellTag? }

  function Delta(t: Token): int {
    if OpensTable(t) then 1 else if ClosesTable(t) then -1 else 0
  }

  /** Table openers minus table closers. */
  function Net(ts: seq<Token>): int {
    if ts == [] then 0 else Net(ts[..|ts| - 1]) + Delta(ts[|ts| - 1])
  }

  lemma {:induction false} NetSnoc(ts: seq<Token>, t: Token)
    ensures Net(ts + [t]) == Net(ts) + Delta(t)
  {
    assert (ts + [t])[..|ts|] == ts;
  }

  lemma {:induction false} NetConcat(a: seq<Token>, b: seq<Token>)
    ensures Net(a + b) == Net(a) + Net(b)
  {
    if b == [] {
      assert a + b == a;
    } else {
      var b', t := b[..|b| - 1], b[|b| - 1];
      assert a + b == (a + b') + [t] && b == b' + [t];
      NetConcat(a, b');
      NetSnoc(a + b', t);
      NetSnoc(b', t);
    }
  }

  /** The net depth gained between two positions of a page. */
  function Between(page: seq<Token>, i: nat, j: nat): int
    requires i <= j <= |page|
  {
    Net(page[i..j])
  }

  lemma {:induction false} BetweenStep(page: seq<Token>, i: nat, j: nat)
    requires i <= j < |page|
    ensures Between(page, i, j + 1) == Between(page, i, j) + Delta(page[j])
  {
    assert page[i..j + 1] == page[i..j] + [page[j]];
    NetSnoc(page[i..j], page[j]);
  }

  lemma {:induction false} BetweenSplit(page: seq<Token>, i: nat, j: nat, k: nat)
    requires i <= j <= k <= |page|
    ensures Between(page, i, k) == Between(page, i, j) + Between(page, j, k)
  {
    assert page[i..k] == page[i..j] + page[j..k];
    NetConcat(page[i..j], page[j..k]);
  }

  // ---------- matched table spans ----------

  /** `[s, e)` is an opener and the closer that first brings the depth back to zero. */
  ghost predicate IsMatch(page: seq<Token>, s: nat, e: nat) {
    && s < e <= |page| && OpensTable(page[s])
    && Between(page, s, e) == 0
    && forall m :: s < m < e ==> Between(page, s, m) > 0
  }

  /** A matched span that no earlier matched span contains. */
  ghost predicate IsOutermost(page: seq<Token>, s: nat, e: nat) {
    IsMatch(page, s, e) && forall s': nat, e': nat :: IsMatch(page, s', e') && s' < s ==> !(e <= e')
  }

  lemma {:induction false} MatchIsUnique(page: seq<Token>, s: nat, e: nat, e': nat)
    requires IsMatch(page, s, e) && IsMatch(page, s, e')
    ensures e == e'
  {
  }

  /** Matched spans are nested or disjoint. */
  lemma {:induction false} MatchesNest(page: seq<Token>, s: nat, e: nat, s': nat, e': nat)
    requires IsMatch(page, s, e) && IsMatch(page, s', e') && s' < s < e'
    ensures e <= e'
  {
    if e' < e {
      BetweenSplit(page, s', s, e');
    }
  }

  /** The forward walk that counts openers and closers from an opener. */
  method MatchingClose(page: seq<Token>, s: nat) returns (e: Option<nat>)
    requires s < |page| && OpensTable(page[s])
    ensures e.Some? ==> IsMatch(page, s, e.value)
    ensures e.None? ==> forall e': nat :: !IsMatch(page, s, e')
  {
    var depth := 0;
    assert page[s..s] == [];
    for i := s to |page|
      invariant depth == Between(page, s, i)
      invariant forall m :: s < m <= i ==> Between(page, s, m) > 0
    {
      BetweenStep(page, s, i);
      if ClosesTable(page[i]) {
        depth := depth - 1;
        if depth == 0 {
          return Some(i + 1);
        }
      } else if OpensTable(page[i]) {
        depth := depth + 1;
      }
    }
    return None;
  }

  datatype Span = Span(start: nat, end: nat)

  predicate InOrder(spans: seq<Span>) {
    && (forall k :: 0 <= k < |spans| ==> spans[k].start < spans[k].end)
    && (forall k, m :: 0 <= k < m < |spans| ==> spans[k].end <= spans[m].start)
  }

  /** The rescanning extractor: from each opener not yet consumed, walk to its closer. */
  method ExtractTopLevelTables(page: seq<Token>) returns (spans: seq<Span>)
    ensures forall sp :: sp in spans <==> IsOutermost(page, sp.start, sp.end)
    ensures InOrder(spans) && forall k :: 0 <= k < |spans| ==> spans[k].end <= |page|
  {
    spans := [];
    var scanFrom := 0;
    while scanFrom < |page|
      invariant 0 <= scanFrom <= |page|
      invariant InOrder(spans) && (spans != [] ==> spans[|spans| - 1].end <= scanFrom)
      invariant forall s: nat, e: nat :: IsMatch(page, s, e) && s < scanFrom ==> e <= scanFrom
      invariant forall sp :: sp in spans <==> IsOutermost(page, sp.start, sp.end) && sp.start < scanFrom
    {
      ghost var from := scanFrom;
      if !OpensTable(page[scanFrom]) {
        scanFrom := scanFrom + 1;
      } else {
        var close := MatchingClose(page, scanFrom);
        match close {
          case None => scanFrom := scanFrom + 1;
          case Some(end) =>
            ConsumeSpan(page, scanFrom, end);
            spans := spans + [Span(scanFrom, end)];
            scanFrom := end;
        }
      }
    }
  }

  /** Consuming the match at `s` adds exactly one outermost span and leaves none straddling its end. */
  lemma {:induction false} ConsumeSpan(page: seq<Token>, s: nat, e: nat)
    requires IsMatch(page, s, e)
    requires forall s': nat, e': nat :: IsMatch(page, s', e') && s' < s ==> e' <= s
    ensures forall s': nat, e': nat :: IsMatch(page, s', e') && s' < e ==> e' <= e
    ensures forall s': nat, e': nat :: s <= s' < e ==> (IsOutermost(page, s', e') <==> s' == s && e' == e)
  {
    forall s': nat, e': nat | IsMatch(page, s', e') && s' < e
      ensures e' <= e
    {
      if s < s' {
        MatchesNest(page, s', e', s, e);
      } else if s == s' {
        MatchIsUnique(page, s, e, e');
      }
    }
  }

  // ---------- the reference: a one-pass stack matcher ----------

  /** Push each opener; each closer pops and pairs with the top, or is ignored when the stack is empty. */
  function StackPairs(page: seq<Token>, i: nat, stack: seq<nat>): set<Span>
    requires i <= |page|
    decreases |page| - i
  {
    if i == |page| then {}
    else if OpensTable(page[i]) then StackPairs(page, i + 1, stack + [i])
    else if ClosesTable(page[i]) && stack != [] then
      {Span(stack[|stack| - 1], i + 1)} + StackPairs(page, i + 1, stack[..|stack| - 1])
    else StackPairs(page, i + 1, stack)
  }

  /** The stack holds the openers still open at `i`, each one deeper than the one below. */
  ghost predicate StackOk(page: seq<Token>, i: nat, stack: seq<nat>) {
    && i <= |page|
    && (forall k :: 0 <= k < |stack| ==> StillOpen(page, i, stack[k]) && Between(page, stack[k], i) == |stack| - k)
    && (forall s: nat :: s < i && OpensTable(page[s]) ==> s in stack || ClosedBy(page, i, s))
  }

  ghost predicate ClosedBy(page: seq<Token>, i: nat, s: nat) {
    exists e: nat :: e <= i && IsMatch(page, s, e)
  }

  ghost predicate StillOpen(page: seq<Token>, i: nat, s: nat) {
    s < i <= |page| && OpensTable(page[s]) && forall m :: s < m <= i ==> Between(page, s, m) > 0
  }

  lemma {:induction false} PushKeepsStack(page: seq<Token>, i: nat, stack: seq<nat>)
    requires StackOk(page, i, stack) && i < |page| && OpensTable(page[i])
    ensures StackOk(page, i + 1, stack + [i])
  {
    var st := stack + [i];
    forall k | 0 <= k < |st|
      ensures StillOpen(page, i + 1, st[k]) && Between(page, st[k], i + 1) == |st| - k
    {
      if k < |stack| {
        assert StillOpen(page, i, stack[k]);
      } else {
        assert page[i..i] == [];
      }
      BetweenStep(page, st[k], i);
    }
    forall s: nat | s < i + 1 && OpensTable(page[s])
      ensures s in st || ClosedBy(page, i + 1, s)
    {
      assert st[|stack|] == i;
    }
  }

  lemma {:induction false} PopMatchesTop(page: seq<Token>, i: nat, stack: seq<nat>)
    requires StackOk(page, i, stack) && i < |page| && ClosesTable(page[i]) && stack != []
    ensures IsMatch(page, stack[|stack| - 1], i + 1)
  {
    var top := stack[|stack| - 1];
    assert StillOpen(page, i, top);
    BetweenStep(page, top, i);
  }

  lemma {:induction false} PopLeavesOpen(page: seq<Token>, i: nat, stack: seq<nat>, k: nat)
    requires StackOk(page, i, stack) && i < |page| && ClosesTable(page[i]) && k < |stack| - 1
    ensures StillOpen(page, i + 1, stack[k]) && Between(page, stack[k], i + 1) == |stack| - 1 - k
  {
    assert StillOpen(page, i, stack[k]);
    BetweenStep(page, stack[k], i);
  }

  lemma {:induction false} PopKeepsStack(page: seq<Token>, i: nat, stack: seq<nat>)
    requires StackOk(page, i, stack) && i < |page| && ClosesTable(page[i]) && stack != []
    ensures IsMatch(page, stack[|stack| - 1], i + 1)
    ensures StackOk(page, i + 1, stack[..|stack| - 1])
  {
    var top, st := stack[|stack| - 1], stack[..|stack| - 1];
    PopMatchesTop(page, i, stack);
    forall k | 0 <= k < |st|
      ensures StillOpen(page, i + 1, st[k]) && Between(page, st[k], i + 1) == |st| - k
    {
      PopLeavesOpen(page, i, stack, k);
    }
    forall s: nat | s < i + 1 && OpensTable(page[s])
      ensures s in st || ClosedBy(page, i + 1, s)
    {
      if s in stack {
        assert stack == st + [top];
      } else {
        assert s < i && ClosedBy(page, i, s);
      }
    }
  }

  lemma {:induction false} SkipKeepsStack(page: seq<Token>, i: nat, stack: seq<nat>)
    requires StackOk(page, i, stack) && i < |page| && !OpensTable(page[i])
    requires ClosesTable(page[i]) ==> stack == []
    ensures StackOk(page, i + 1, stack)
  {
    forall k | 0 <= k < |stack|
      ensures StillOpen(page, i + 1, stack[k]) && Between(page, stack[k], i + 1) == |stack| - k
    {
      assert StillOpen(page, i, stack[k]);
      BetweenStep(page, stack[k], i);
    }
  }

  /** A match that ends at `i + 1` is the one that pops there, and the other way round. */
  lemma {:induction false} EndsAtPop(page: seq<Token>, i: nat, stack: seq<nat>, s: nat)
    requires StackOk(page, i, stack) && i < |page|
    ensures IsMatch(page, s, i + 1) <==> ClosesTable(page[i]) && stack != [] && s == stack[|stack| - 1]
  {
    if IsMatch(page, s, i + 1) {
      BetweenStep(page, s, i);
      assert page[s..s] == [];
      assert s < i;
      assert s in stack;
      var k :| 0 <= k < |stack| && stack[k] == s;
      assert Between(page, stack[k], i) == |stack| - k;
    } else if ClosesTable(page[i]) && stack != [] {
      PopMatchesTop(page, i, stack);
    }
  }

  function NextStack(page: seq<Token>, i: nat, stack: seq<nat>): seq<nat>
    requires i < |page|
  {
    if OpensTable(page[i]) then stack + [i]
    else if ClosesTable(page[i]) && stack != [] then stack[..|stack| - 1]
    else stack
  }

  lemma {:induction false} NextStackOk(page: seq<Token>, i: nat, stack: seq<nat>)
    requires StackOk(page, i, stack) && i < |page|
    ensures StackOk(page, i + 1, NextStack(page, i, stack))
  {
    if OpensTable(page[i]) {
      PushKeepsStack(page, i, stack);
    } else if ClosesTable(page[i]) && stack != [] {
      PopKeepsStack(page, i, stack);
    } else {
      SkipKeepsStack(page, i, stack);
    }
  }

  /** The stack matcher finds exactly the matched spans. */
  lemma {:induction false} StackFindsMatches(page: seq<Token>, i: nat, stack: seq<nat>, s: nat, e: nat)
    requires StackOk(page, i, stack)
    ensures Span(s, e) in StackPairs(page, i, stack) <==> i < e && IsMatch(page, s, e)
    decreases |page| - i
  {
    if i < |page| {
      NextStackOk(page, i, stack);
      StackFindsMatches(page, i + 1, NextStack(page, i, stack), s, e);
      EndsAtPop(page, i, stack, s);
    }
  }

  /** A pair of the stack matcher that no earlier pair contains. */
  predicate Outermost(sp: Span, pairs: set<Span>) {
    sp in pairs && forall q :: q in pairs && q.start < sp.start ==> q.end < sp.end
  }

  /** On every stream the extractor's spans are the outermost pairs of the stack matcher. */
  lemma {:induction false} ExtractorAgreesWithStack(page: seq<Token>, spans: seq<Span>)
    requires forall sp :: sp in spans <==> IsOutermost(page, sp.start, sp.end)
    ensures forall sp :: sp in spans <==> Outermost(sp, StackPairs(page, 0, []))
  {
    var pairs := StackPairs(page, 0, []);
    assert StackOk(page, 0, []);
    forall sp: Span ensures sp in pairs <==> IsMatch(page, sp.start, sp.end) {
      StackFindsMatches(page, 0, [], sp.start, sp.end);
    }
    forall sp: Span ensures IsOutermost(page, sp.start, sp.end) <==> Outermost(sp, pairs) {
      if Outermost(sp, pairs) {
        forall s': nat, e': nat | IsMatch(page, s', e') && s' < sp.start ensures !(sp.end <= e') {
          assert Span(s', e') in pairs;
        }
      }
    }
  }

  // ---------- the splice ----------

  /** A stretch of prose and the table span right after it. */
  datatype Part = Part(prose: seq<Token>, table: seq<Token>)

  function Joined(parts: seq<Part>): seq<Token> {
    if parts == [] then []
    else Joined(parts[..|parts| - 1]) + parts[|parts| - 1].prose + parts[|parts| - 1].table
  }

  lemma {:induction false} JoinedSnoc(parts: seq<Part>, p: Part)
    ensures Joined(parts + [p]) == Joined(parts) + p.prose + p.table
  {
    assert (parts + [p])[..|parts|] == parts;
  }

  /** Prose, table, prose, ..., prose: nothing of the page is lost, repeated or reordered. */
  method Splice(page: seq<Token>, tables: seq<Span>) returns (parts: seq<Part>, last: seq<Token>)
    requires InOrder(tables) && forall k :: 0 <= k < |tables| ==> tables[k].end <= |page|
    ensures Joined(parts) + last == page
    ensures |parts| == |tables|
    ensures forall k :: 0 <= k < |tables| ==> parts[k].table == page[tables[k].start..tables[k].end]
  {
    parts := [];
    var cursor := 0;
    for k := 0 to |tables|
      invariant cursor == if k == 0 then 0 else tables[k - 1].end
      invariant Joined(parts) == page[..cursor]
      invariant |parts| == k
      invariant forall m :: 0 <= m < k ==> parts[m].table == page[tables[m].start..tables[m].end]
    {
      var t := tables[k];
      var p := Part(page[cursor..t.start], page[t.start..t.end]);
      JoinedSnoc(parts, p);
      CutInTwo(page, cursor, t.start, t.end);
      parts := parts + [p];
      cursor := t.end;
    }
    last := page[cursor..];
    assert page[..cursor] + page[cursor..] == page;
  }

  lemma {:induction false} CutInTwo(page: seq<Token>, i: nat, j: nat, k: nat)
    requires i <= j <= k <= |page|
    ensures page[..i] + page[i..j] + page[j..k] == page[..k]
  {
  }

  // ---------- rows and cells ----------

  /** The tokens collected since the open row or cell began, if one is open. */
  function Add(cur: Option<seq<Token>>, ts: seq<Token>): Option<seq<Token>> {
    if cur.None? then None else Some(cur.value + ts)
  }

  lemma {:induction false} AddNothing(cur: Option<seq<Token>>)
    ensures Add(cur, []) == cur
  {
    if cur.Some? { assert cur.value + [] == cur.value; }
  }

  lemma {:induction false} AddTwice(cur: Option<seq<Token>>, a: seq<Token>, b: seq<Token>)
    ensures Add(Add(cur, a), b) == Add(cur, a + b)
  {
    if cur.Some? { assert cur.value + a + b == cur.value + (a + b); }
  }

  /** What the row scan still emits on `ts`. */
  function RowsFrom(ts: seq<Token>, depth: int, cur: Option<seq<Token>>): seq<seq<Token>> {
    if ts == [] then []
    else if !IsRowTag(ts[0]) || depth != 1 then RowsFrom(ts[1..], depth + Delta(ts[0]), Add(cur, [ts[0]]))
    else if ts[0].Open? then RowsFrom(ts[1..], depth, Some([]))
    else if cur.None? then RowsFrom(ts[1..], depth, None)
    else [cur.value] + RowsFrom(ts[1..], depth, None)
  }

  function RowsOf(table: seq<Token>): seq<seq<Token>> {
    RowsFrom(table, 0, None)
  }

  method TopLevelRows(table: seq<Token>) returns (rows: seq<seq<Token>>)
    ensures rows == RowsOf(table)
  {
    rows := [];
    var depth := 0;
    var rowStart: Option<nat> := None;
    ghost var cur: Option<seq<Token>> := None;
    for i := 0 to |table|
      invariant rowStart.Some? ==> rowStart.value <= i
      invariant cur == if rowStart.None? then None else Some(table[rowStart.value..i])
      invariant rows + RowsFrom(table[i..], depth, cur) == RowsOf(table)
    {
      var t := table[i];
      assert table[i..][0] == t && table[i..][1..] == table[i + 1..];
      assert rowStart.Some? ==> table[rowStart.value..i] + [t] == table[rowStart.value..i + 1];
      ghost var done, open := rows, cur;
      cur := Add(cur, [t]);
      if OpensTable(t) {
        depth := depth + 1;
      } else if ClosesTable(t) {
        depth := depth - 1;
      } else if IsRowTag(t) && depth == 1 {
        if t.Open? {
          rowStart := Some(i + 1);
          cur := Some([]);
          assert table[i + 1..i + 1] == [];
        } else if rowStart.Some? {
          rows := rows + [table[rowStart.value..i]];
          rowStart := None;
          cur := None;
          assert rows + RowsFrom(table[i + 1..], 1, None) == done + ([open.value] + RowsFrom(table[i + 1..], 1, None));
        }
      }
    }
  }

  datatype CellSpan = CellSpan(th: bool, tokens: seq<Token>)

  /** What the cell scan still emits; an opener inside an open cell is ignored, and any cell closer closes it. */
  function CellsFrom(ts: seq<Token>, depth: int, th: bool, cur: Option<seq<Token>>): seq<CellSpan> {
    if ts == [] then []
    else if !IsCellTag(ts[0]) || depth != 0 then CellsFrom(ts[1..], depth + Delta(ts[0]), th, Add(cur, [ts[0]]))
    else if ts[0].Open? then
      if cur.None? then CellsFrom(ts[1..], depth, ts[0].tag.th, Some([]))
      else CellsFrom(ts[1..], depth, th, Add(cur, [ts[0]]))
    else if cur.None? then CellsFrom(ts[1..], depth, th, None)
    else [CellSpan(th, cur.value)] + CellsFrom(ts[1..], depth, th, None)
  }

  function CellsOf(row: seq<Token>): seq<CellSpan> {
    CellsFrom(row, 0, false, None)
  }

  method TopLevelCells(row: seq<Token>) returns (cells: seq<CellSpan>)
    ensures cells == CellsOf(row)
  {
    cells := [];
    var depth, cellTh := 0, false;
    var cellStart: Option<nat> := None;
    ghost var cur: Option<seq<Token>> := None;
    for i := 0 to |row|
      invariant cellStart.Some? ==> cellStart.value <= i
      invariant cur == if cellStart.None? then None else Some(row[cellStart.value..i])
      invariant cells + CellsFrom(row[i..], depth, cellTh, cur) == CellsOf(row)
    {
      var t := row[i];
      assert row[i..][0] == t && row[i..][1..] == row[i + 1..];
      assert cellStart.Some? ==> row[cellStart.value..i] + [t] == row[cellStart.value..i + 1];
      ghost var done, open := cells, cur;
      cur := Add(cur, [t]);
      if OpensTable(t) {
        depth := depth + 1;
      } else if ClosesTable(t) {
        depth := depth - 1;
      } else if IsCellTag(t) && depth == 0 {
        if t.Open? {
          if cellStart.None? {
            cellStart := Some(i + 1);
            cellTh := t.tag.th;
            cur := Some([]);
            assert row[i + 1..i + 1] == [];
          }
        } else if cellStart.Some? {
          cells := cells + [CellSpan(cellTh, row[cellStart.value..i])];
          cellStart := None;
          cur := None;
          assert cells + CellsFrom(row[i + 1..], 0, cellTh, None)
              == done + ([CellSpan(cellTh, open.value)] + CellsFrom(row[i + 1..], 0, cellTh, None));
        }
      }
    }
  }

  // ---------- which rows and cells, on any stream ----------

  /** What a tag of the scanned kind, outside nested tables, does at a position. */
  datatype Mark = Opens | Closes | Neither

  function MarkOf(t: Token): Mark {
    if t.Open? then Opens else if t.Close? then Closes else Neither
  }

  /** The row tags of the table itself, not of a nested one. */
  function RowMark(table: seq<Token>, i: nat): Mark
    requires i < |table|
  {
    if IsRowTag(table[i]) && Net(table[..i]) == 1 then MarkOf(table[i]) else Neither
  }

  function RowMarks(table: seq<Token>): seq<Mark> {
    seq(|table|, i requires 0 <= i < |table| => RowMark(table, i))
  }

  /** The cell tags of the row itself, not of a nested table. */
  function CellMark(row: seq<Token>, i: nat): Mark
    requires i < |row|
  {
    if IsCellTag(row[i]) && Net(row[..i]) == 0 then MarkOf(row[i]) else Neither
  }

  function CellMarks(row: seq<Token>): seq<Mark> {
    seq(|row|, i requires 0 <= i < |row| => CellMark(row, i))
  }

  /** Every opener before `i` is closed before `i`. */
  ghost predicate AllClosed(marks: seq<Mark>, i: nat) {
    forall m :: 0 <= m < i <= |marks| && marks[m] == Opens ==> HasCloser(marks, m, i)
  }

  ghost predicate HasCloser(marks: seq<Mark>, m: nat, i: nat) {
    exists n :: m < n < i <= |marks| && marks[n] == Closes
  }

  /**
   An opener and the next closer after it. A row starts at the last opener before its closer; a cell at the
   first one since the closer before.
   */
  ghost predicate IsSpan(marks: seq<Mark>, first: bool, i: nat, j: nat) {
    && i < j < |marks| && marks[i] == Opens && marks[j] == Closes
    && (forall m :: i < m < j ==> marks[m] != Closes)
    && (if first then AllClosed(marks, i) else forall m :: i < m < j ==> marks[m] != Opens)
  }

  predicate Listed(spans: seq<Span>, i: nat, j: nat) {
    exists k :: 0 <= k < |spans| && spans[k] == Span(i, j)
  }

  /** Exactly the spans that end at `from` or later, in order. */
  ghost predicate AreSpans(spans: seq<Span>, marks: seq<Mark>, first: bool, from: nat) {
    && InOrder(spans)
    && (forall k :: 0 <= k < |spans| ==> from <= spans[k].end && IsSpan(marks, first, spans[k].start, spans[k].end))
    && (forall i: nat, j: nat :: from <= j && IsSpan(marks, first, i, j) ==> Listed(spans, i, j))
  }

  /** The opener of the span open after position `i`. */
  function OpenAfter(mark: Mark, first: bool, i: nat, open: Option<nat>): Option<nat> {
    match mark
    case Neither => open
    case Closes => None
    case Opens => if first && open.Some? then open else Some(i)
  }

  /** The pairs a scan finds from position `i` on. */
  function Pairs(marks: seq<Mark>, first: bool, i: nat, open: Option<nat>): seq<Span>
    requires i <= |marks|
    decreases |marks| - i
  {
    if i == |marks| then []
    else
      (if marks[i] == Closes && open.Some? then [Span(open.value, i)] else [])
      + Pairs(marks, first, i + 1, OpenAfter(marks[i], first, i, open))
  }

  ghost predicate OpenAt(marks: seq<Mark>, first: bool, i: nat, open: Option<nat>) {
    match open
    case None => AllClosed(marks, i)
    case Some(o) =>
      && o < i <= |marks| && marks[o] == Opens && (forall m :: o < m < i ==> marks[m] != Closes)
      && (if first then AllClosed(marks, o) else forall m :: o < m < i ==> marks[m] != Opens)
  }

  lemma {:induction false} AllClosedStep(marks: seq<Mark>, i: nat)
    requires i < |marks|
    ensures marks[i] == Closes ==> AllClosed(marks, i + 1)
    ensures marks[i] == Neither && AllClosed(marks, i) ==> AllClosed(marks, i + 1)
  {
    if marks[i] == Closes {
      forall m | 0 <= m < i + 1 && marks[m] == Opens ensures HasCloser(marks, m, i + 1) {
        assert m < i;
      }
    } else if marks[i] == Neither && AllClosed(marks, i) {
      forall m | 0 <= m < i + 1 && marks[m] == Opens ensures HasCloser(marks, m, i + 1) {
        assert HasCloser(marks, m, i);
      }
    }
  }

  lemma {:induction false} OpenStep(marks: seq<Mark>, first: bool, i: nat, open: Option<nat>)
    requires i < |marks| && OpenAt(marks, first, i, open)
    ensures OpenAt(marks, first, i + 1, OpenAfter(marks[i], first, i, open))
  {
    AllClosedStep(marks, i);
  }

  /** The span that ends at `i` begins at the open opener. */
  lemma {:induction false} EndsAt(marks: seq<Mark>, first: bool, i: nat, open: Option<nat>, o: nat)
    requires i < |marks| && OpenAt(marks, first, i, open)
    ensures IsSpan(marks, first, o, i) <==> marks[i] == Closes && open == Some(o)
  {
  }

  lemma {:induction false} ListedCons(sp: Span, spans: seq<Span>, i: nat, j: nat)
    ensures Listed([sp] + spans, i, j) <==> sp == Span(i, j) || Listed(spans, i, j)
  {
    var all := [sp] + spans;
    if Listed(spans, i, j) {
      var k :| 0 <= k < |spans| && spans[k] == Span(i, j);
      assert all[k + 1] == Span(i, j);
    }
    if Listed(all, i, j) && sp != Span(i, j) {
      var k :| 0 <= k < |all| && all[k] == Span(i, j);
      assert spans[k - 1] == Span(i, j);
    }
    assert all[0] == sp;
  }

  lemma {:induction false} InOrderCons(sp: Span, spans: seq<Span>)
    requires sp.start < sp.end && InOrder(spans) && forall k :: 0 <= k < |spans| ==> sp.end <= spans[k].start
    ensures InOrder([sp] + spans)
  {
  }

  lemma {:induction false} LaterSpan(marks: seq<Mark>, first: bool, i: nat, sp: Span)
    requires i < |marks| && marks[i] == Closes && i < sp.end && IsSpan(marks, first, sp.start, sp.end)
    ensures i <= sp.start
  {
  }

  lemma {:induction false} SpansSkip(marks: seq<Mark>, first: bool, i: nat, open: Option<nat>, spans: seq<Span>)
    requires i < |marks| && OpenAt(marks, first, i, open) && AreSpans(spans, marks, first, i + 1)
    requires marks[i] != Closes || open.None?
    ensures AreSpans(spans, marks, first, i)
  {
    forall o: nat, j: nat | i <= j && IsSpan(marks, first, o, j) ensures Listed(spans, o, j) {
      EndsAt(marks, first, i, open, o);
    }
  }

  lemma {:induction false} SpansCons(marks: seq<Mark>, first: bool, i: nat, o: nat, spans: seq<Span>)
    requires i < |marks| && OpenAt(marks, first, i, Some(o)) && AreSpans(spans, marks, first, i + 1)
    requires marks[i] == Closes
    ensures AreSpans([Span(o, i)] + spans, marks, first, i)
  {
    var more := [Span(o, i)] + spans;
    forall p: nat, j: nat | i <= j && IsSpan(marks, first, p, j) ensures Listed(more, p, j) {
      EndsAt(marks, first, i, Some(o), p);
      ListedCons(Span(o, i), spans, p, j);
    }
    EndsAt(marks, first, i, Some(o), o);
    forall k | 0 <= k < |spans| ensures i <= spans[k].start {
      LaterSpan(marks, first, i, spans[k]);
    }
    InOrderCons(Span(o, i), spans);
  }

  lemma {:induction false} PairsAreSpans(marks: seq<Mark>, first: bool, i: nat, open: Option<nat>)
    requires i <= |marks| && OpenAt(marks, first, i, open)
    ensures AreSpans(Pairs(marks, first, i, open), marks, first, i)
    decreases |marks| - i
  {
    if i < |marks| {
      var now := OpenAfter(marks[i], first, i, open);
      var rest := Pairs(marks, first, i + 1, now);
      OpenStep(marks, first, i, open);
      PairsAreSpans(marks, first, i + 1, now);
      if marks[i] == Closes && open.Some? {
        SpansCons(marks, first, i, open.value, rest);
      } else {
        SpansSkip(marks, first, i, open, rest);
        assert [] + rest == rest;
      }
    }
  }

  // ---------- the scans return those spans ----------

  /** The tokens inside a span. */
  function Inside(ts: seq<Token>, sp: Span): seq<Token> {
    if sp.start < sp.end <= |ts| then ts[sp.start + 1..sp.end] else []
  }

  function InsideAll(ts: seq<Token>, spans: seq<Span>): seq<seq<Token>> {
    if spans == [] then [] else [Inside(ts, spans[0])] + InsideAll(ts, spans[1..])
  }

  function OpenTokens(ts: seq<Token>, i: nat, open: Option<nat>): Option<seq<Token>> {
    if open.None? then None else Some(Inside(ts, Span(open.value, i)))
  }

  /** A span still open grows by the token at `i`. */
  lemma {:induction false} InsideGrows(ts: seq<Token>, i: nat, o: nat)
    requires o < i < |ts|
    ensures Inside(ts, Span(o, i + 1)) == Inside(ts, Span(o, i)) + [ts[i]]
    ensures Inside(ts, Span(i, i + 1)) == []
  {
  }

  lemma {:induction false} TailStep(ts: seq<Token>, i: nat)
    requires i < |ts|
    ensures ts[i..] != [] && ts[i..][0] == ts[i] && ts[i..][1..] == ts[i + 1..]
    ensures Net(ts[..i + 1]) == Net(ts[..i]) + Delta(ts[i])
  {
    assert ts[..i + 1] == ts[..i] + [ts[i]];
    NetSnoc(ts[..i], ts[i]);
  }

  lemma {:induction false} RowScan(table: seq<Token>, i: nat, open: Option<nat>)
    requires i <= |table| && (open.Some? ==> open.value < i)
    ensures RowsFrom(table[i..], Net(table[..i]), OpenTokens(table, i, open))
         == InsideAll(table, Pairs(RowMarks(table), false, i, open))
    decreases |table| - i
  {
    if i < |table| {
      var now := OpenAfter(RowMark(table, i), false, i, open);
      TailStep(table, i);
      if open.Some? {
        InsideGrows(table, i, open.value);
      }
      assert Inside(table, Span(i, i + 1)) == [];
      RowScan(table, i + 1, now);
      assert RowMarks(table)[i] == RowMark(table, i);
      InsideCons(table, i, open, Pairs(RowMarks(table), false, i + 1, now));
    }
  }

  lemma {:induction false} InsideCons(ts: seq<Token>, i: nat, open: Option<nat>, spans: seq<Span>)
    ensures open.Some? ==>
              InsideAll(ts, [Span(open.value, i)] + spans) == [Inside(ts, Span(open.value, i))] + InsideAll(ts, spans)
    ensures [] + spans == spans
  {
    if open.Some? {
      assert ([Span(open.value, i)] + spans)[1..] == spans;
    }
  }

  ghost predicate AreInside(rows: seq<seq<Token>>, spans: seq<Span>, table: seq<Token>) {
    |rows| == |spans| && forall k :: 0 <= k < |rows| ==> rows[k] == Inside(table, spans[k])
  }

  lemma {:induction false} InsideEach(ts: seq<Token>, spans: seq<Span>)
    ensures AreInside(InsideAll(ts, spans), spans, ts)
  {
    if spans != [] {
      InsideEach(ts, spans[1..]);
    }
  }

  /** Exactly the inside of every span of the table's own row tags, in order. */
  ghost predicate AreOwnRows(rows: seq<seq<Token>>, table: seq<Token>) {
    exists spans: seq<Span> :: AreSpans(spans, RowMarks(table), false, 0) && AreInside(rows, spans, table)
  }

  /** What the row scan returns, whatever the stream. */
  lemma {:induction false} RowsAreOwn(table: seq<Token>)
    ensures AreOwnRows(RowsOf(table), table)
  {
    var spans := Pairs(RowMarks(table), false, 0, None);
    PairsAreSpans(RowMarks(table), false, 0, None);
    assert table[0..] == table && table[..0] == [];
    RowScan(table, 0, None);
    InsideEach(table, spans);
  }

  /** The kind of the cell an opener begins. */
  function KindAt(row: seq<Token>, i: nat): bool {
    i < |row| && IsCellTag(row[i]) && row[i].tag.th
  }

  function CellAt(row: seq<Token>, sp: Span): CellSpan {
    CellSpan(KindAt(row, sp.start), Inside(row, sp))
  }

  function CellsAll(row: seq<Token>, spans: seq<Span>): seq<CellSpan> {
    if spans == [] then [] else [CellAt(row, spans[0])] + CellsAll(row, spans[1..])
  }

  lemma {:induction false} CellsAllCons(row: seq<Token>, i: nat, open: Option<nat>, spans: seq<Span>)
    ensures open.Some? ==>
              CellsAll(row, [Span(open.value, i)] + spans) == [CellAt(row, Span(open.value, i))] + CellsAll(row, spans)
    ensures [] + spans == spans
  {
    if open.Some? {
      assert ([Span(open.value, i)] + spans)[1..] == spans;
    }
  }

  lemma {:induction false} CellScan(row: seq<Token>, i: nat, open: Option<nat>, th: bool)
    requires i <= |row| && (open.Some? ==> open.value < i && th == KindAt(row, open.value))
    ensures CellsFrom(row[i..], Net(row[..i]), th, OpenTokens(row, i, open))
         == CellsAll(row, Pairs(CellMarks(row), true, i, open))
    decreases |row| - i
  {
    if i < |row| {
      var now := OpenAfter(CellMark(row, i), true, i, open);
      TailStep(row, i);
      if open.Some? {
        InsideGrows(row, i, open.value);
      }
      assert Inside(row, Span(i, i + 1)) == [];
      CellScan(row, i + 1, now, if now.Some? then KindAt(row, now.value) else th);
      assert CellMarks(row)[i] == CellMark(row, i);
      CellsAllCons(row, i, open, Pairs(CellMarks(row), true, i + 1, now));
    }
  }

  ghost predicate AreCells(cells: seq<CellSpan>, spans: seq<Span>, row: seq<Token>) {
    |cells| == |spans| && forall k :: 0 <= k < |cells| ==> cells[k] == CellAt(row, spans[k])
  }

  lemma {:induction false} CellsEach(row: seq<Token>, spans: seq<Span>)
    ensures AreCells(CellsAll(row, spans), spans, row)
  {
    if spans != [] {
      CellsEach(row, spans[1..]);
    }
  }

  /** Exactly the inside and kind of every span of the row's own cell tags, in order. */
  ghost predicate AreOwnCells(cells: seq<CellSpan>, row: seq<Token>) {
    exists spans: seq<Span> :: AreSpans(spans, CellMarks(row), true, 0) && AreCells(cells, spans, row)
  }

  /** What the cell scan returns, whatever the stream. */
  lemma {:induction false} CellsAreOwn(row: seq<Token>)
    ensures AreOwnCells(CellsOf(row), row)
  {
    var spans := Pairs(CellMarks(row), true, 0, None);
    PairsAreSpans(CellMarks(row), true, 0, None);
    assert row[0..] == row && row[..0] == [];
    CellScan(row, 0, None, false);
    CellsEach(row, spans);
  }

  // ---------- table trees and their printed form ----------

  /** A table whose cells hold text and, to any depth, further tables; gaps are text between the tags. */
  datatype Table = Table(attrs: string, rows: seq<Row>, tail: string)

  datatype Row = Row(gap: string, attrs: string, cells: seq<Cell>, tail: string)

  datatype Cell = Cell(gap: string, th: bool, attrs: string, content: seq<Piece>)

  datatype Piece = Words(words: string) | Nested(table: Table)

  function PrintTable(t: Table): seq<Token>
    decreases t, 0
  {
    [Open(TableTag, t.attrs)] + (PrintRows(t.rows) + [Text(t.tail)]) + [Close(TableTag, "")]
  }

  function PrintRows(rows: seq<Row>): seq<Token>
    decreases rows, 0
  {
    if rows == [] then [] else PrintRow(rows[0]) + PrintRows(rows[1..])
  }

  function PrintRow(r: Row): seq<Token>
    decreases r, 2
  {
    [Text(r.gap), Open(RowTag, r.attrs)] + RowInner(r) + [Close(RowTag, "")]
  }

  /** What a row holds between its tags. */
  function RowInner(r: Row): seq<Token>
    decreases r, 1
  {
    PrintCells(r.cells) + [Text(r.tail)]
  }

  function PrintCells(cells: seq<Cell>): seq<Token>
    decreases cells, 0
  {
    if cells == [] then [] else PrintCell(cells[0]) + PrintCells(cells[1..])
  }

  function PrintCell(c: Cell): seq<Token>
    decreases c, 1
  {
    [Text(c.gap), Open(CellTag(c.th), c.attrs)] + PrintContent(c.content) + [Close(CellTag(c.th), "")]
  }

  function PrintContent(ps: seq<Piece>): seq<Token>
    decreases ps, 0
  {
    if ps == [] then [] else PrintPiece(ps[0]) + PrintContent(ps[1..])
  }

  function PrintPiece(p: Piece): seq<Token>
    decreases p, 0
  {
    match p
    case Words(w) => [Text(w)]
    case Nested(t) => PrintTable(t)
  }

  // ---------- segments a scanner passes over ----------

  /** Table tags pair up inside `seg`; row tags (cell tags) occur only inside its tables when hidden. */
  ghost predicate Quiet(seg: seq<Token>, hideRows: bool, hideCells: bool) {
    && Net(seg) == 0
    && forall k :: 0 <= k < |seg| ==> QuietAt(seg, k, hideRows, hideCells)
  }

  ghost predicate QuietAt(seg: seq<Token>, k: nat, hideRows: bool, hideCells: bool)
    requires k < |seg|
  {
    && Net(seg[..k]) >= 0
    && (hideRows && IsRowTag(seg[k]) ==> Net(seg[..k]) >= 1)
    && (hideCells && IsCellTag(seg[k]) ==> Net(seg[..k]) >= 1)
  }

  lemma {:induction false} QuietConcat(a: seq<Token>, b: seq<Token>, hideRows: bool, hideCells: bool)
    requires Quiet(a, hideRows, hideCells) && Quiet(b, hideRows, hideCells)
    ensures Quiet(a + b, hideRows, hideCells)
  {
    NetConcat(a, b);
    forall k | 0 <= k < |a + b| ensures QuietAt(a + b, k, hideRows, hideCells) {
      if k < |a| {
        assert (a + b)[..k] == a[..k];
        assert QuietAt(a, k, hideRows, hideCells);
      } else {
        var m := k - |a|;
        assert (a + b)[..k] == a + b[..m];
        NetConcat(a, b[..m]);
        assert QuietAt(b, m, hideRows, hideCells);
      }
    }
  }

  lemma {:induction false} NetSingle(t: Token)
    ensures Net([t]) == Delta(t)
  {
    assert [t] == [] + [t];
    NetSnoc([], t);
  }

  lemma {:induction false} QuietSingle(t: Token, hideRows: bool, hideCells: bool)
    requires Delta(t) == 0 && (hideRows ==> !IsRowTag(t)) && (hideCells ==> !IsCellTag(t))
    ensures Quiet([t], hideRows, hideCells)
  {
    NetSingle(t);
    forall k | 0 <= k < 1 ensures QuietAt([t], k, hideRows, hideCells) {
      assert [t][..k] == [];
    }
  }

  /** Inside its own tags a table hides everything. */
  lemma {:induction false} QuietTable(x: seq<Token>, opener: Token, closer: Token)
    requires Quiet(x, false, false) && OpensTable(opener) && ClosesTable(closer)
    ensures Quiet([opener] + x + [closer], true, true)
    ensures forall k :: 0 < k < |x| + 2 ==> Net(([opener] + x + [closer])[..k]) >= 1
  {
    var seg := [opener] + x + [closer];
    NetSingle(opener);
    NetConcat([opener], x);
    NetSnoc([opener] + x, closer);
    forall k | 0 <= k < |seg| ensures QuietAt(seg, k, true, true) && (k > 0 ==> Net(seg[..k]) >= 1) {
      if k == 0 {
        assert seg[..0] == [];
      } else if k <= |x| {
        assert seg[..k] == [opener] + x[..k - 1];
        NetConcat([opener], x[..k - 1]);
        assert QuietAt(x, k - 1, false, false);
      } else {
        assert seg[..k] == [opener] + x;
      }
    }
  }

  lemma {:induction false} WeakenQuiet(seg: seq<Token>, hideRows: bool, hideCells: bool)
    requires Quiet(seg, true, true)
    ensures Quiet(seg, hideRows, hideCells)
  {
    forall k | 0 <= k < |seg| ensures QuietAt(seg, k, hideRows, hideCells) {
      assert QuietAt(seg, k, true, true);
    }
  }

  lemma {:induction false} PrintedTableIsQuiet(t: Table)
    ensures Quiet(PrintTable(t), true, true)
    ensures Quiet(PrintRows(t.rows) + [Text(t.tail)], false, false)
    decreases t, 0
  {
    PrintedRowsAreQuiet(t.rows);
    QuietSingle(Text(t.tail), false, false);
    QuietConcat(PrintRows(t.rows), [Text(t.tail)], false, false);
    QuietTable(PrintRows(t.rows) + [Text(t.tail)], Open(TableTag, t.attrs), Close(TableTag, ""));
  }

  lemma {:induction false} PrintedRowsAreQuiet(rows: seq<Row>)
    ensures Quiet(PrintRows(rows), false, false)
    decreases rows, 0
  {
    if rows != [] {
      var r := rows[0];
      RowInnerHidesRows(r);
      QuietSingle(Text(r.gap), false, false);
      QuietSingle(Open(RowTag, r.attrs), false, false);
      QuietConcat([Text(r.gap)], [Open(RowTag, r.attrs)], false, false);
      assert [Text(r.gap)] + [Open(RowTag, r.attrs)] == [Text(r.gap), Open(RowTag, r.attrs)];
      LoosenRows(RowInner(r));
      QuietConcat([Text(r.gap), Open(RowTag, r.attrs)], RowInner(r), false, false);
      QuietSingle(Close(RowTag, ""), false, false);
      QuietConcat([Text(r.gap), Open(RowTag, r.attrs)] + RowInner(r), [Close(RowTag, "")], false, false);
      PrintedRowsAreQuiet(rows[1..]);
      QuietConcat(PrintRow(r), PrintRows(rows[1..]), false, false);
    }
  }

  lemma {:induction false} LoosenRows(seg: seq<Token>)
    requires Quiet(seg, true, false)
    ensures Quiet(seg, false, false)
  {
    forall k | 0 <= k < |seg| ensures QuietAt(seg, k, false, false) {
      assert QuietAt(seg, k, true, false);
    }
  }

  lemma {:induction false} RowInnerHidesRows(r: Row)
    ensures Quiet(RowInner(r), true, false)
    decreases r, 1
  {
    PrintedCellsHideRows(r.cells);
    QuietSingle(Text(r.tail), true, false);
    QuietConcat(PrintCells(r.cells), [Text(r.tail)], true, false);
  }

  lemma {:induction false} PrintedCellsHideRows(cells: seq<Cell>)
    ensures Quiet(PrintCells(cells), true, false)
    decreases cells, 0
  {
    if cells != [] {
      var c := cells[0];
      var head, opener, closer := Text(c.gap), Open(CellTag(c.th), c.attrs), Close(CellTag(c.th), "");
      ContentIsQuiet(c.content);
      WeakenQuiet(PrintContent(c.content), true, false);
      QuietSingle(head, true, false);
      QuietSingle(opener, true, false);
      QuietSingle(closer, true, false);
      QuietConcat([head], [opener], true, false);
      assert [head] + [opener] == [head, opener];
      QuietConcat([head, opener], PrintContent(c.content), true, false);
      QuietConcat([head, opener] + PrintContent(c.content), [closer], true, false);
      PrintedCellsHideRows(cells[1..]);
      QuietConcat(PrintCell(c), PrintCells(cells[1..]), true, false);
    }
  }

  lemma {:induction false} ContentIsQuiet(ps: seq<Piece>)
    ensures Quiet(PrintContent(ps), true, true)
    decreases ps, 0
  {
    if ps != [] {
      PieceIsQuiet(ps[0]);
      ContentIsQuiet(ps[1..]);
      QuietConcat(PrintPiece(ps[0]), PrintContent(ps[1..]), true, true);
    }
  }

  lemma {:induction false} PieceIsQuiet(p: Piece)
    ensures Quiet(PrintPiece(p), true, true)
    decreases p, 0
  {
    match p {
      case Words(w) => QuietSingle(Text(w), true, true);
      case Nested(t) => PrintedTableIsQuiet(t);
    }
  }

  lemma {:induction false} Uncons(seg: seq<Token>, k: nat, rest: seq<Token>)
    requires k < |seg|
    ensures seg[k..] + rest == [seg[k]] + (seg[k + 1..] + rest) && seg[..k + 1] == seg[..k] + [seg[k]]
  {
  }

  lemma {:induction false} PassForRows(t: Token, more: seq<Token>, depth: int, cur: Option<seq<Token>>)
    requires !IsRowTag(t) || depth != 1
    ensures RowsFrom([t] + more, depth, cur) == RowsFrom(more, depth + Delta(t), Add(cur, [t]))
  {
    assert ([t] + more)[1..] == more;
  }

  lemma {:induction false} PassForCells(t: Token, more: seq<Token>, depth: int, th: bool, cur: Option<seq<Token>>)
    requires !IsCellTag(t) || depth != 0
    ensures CellsFrom([t] + more, depth, th, cur) == CellsFrom(more, depth + Delta(t), th, Add(cur, [t]))
  {
    assert ([t] + more)[1..] == more;
  }

  lemma {:induction false} SkipForRows(seg: seq<Token>, k: nat, rest: seq<Token>, cur: Option<seq<Token>>)
    requires k <= |seg| && Quiet(seg, true, false)
    ensures RowsFrom(seg + rest, 1, cur) == RowsFrom(seg[k..] + rest, 1 + Net(seg[..k]), Add(cur, seg[..k]))
    decreases k
  {
    if k == 0 {
      assert seg[..0] == [] && seg[0..] == seg;
      AddNothing(cur);
    } else {
      SkipForRows(seg, k - 1, rest, cur);
      assert QuietAt(seg, k - 1, true, false);
      Uncons(seg, k - 1, rest);
      NetSnoc(seg[..k - 1], seg[k - 1]);
      PassForRows(seg[k - 1], seg[k..] + rest, 1 + Net(seg[..k - 1]), Add(cur, seg[..k - 1]));
      AddTwice(cur, seg[..k - 1], [seg[k - 1]]);
    }
  }

  lemma {:induction false} SkipForCells(
    seg: seq<Token>, k: nat, rest: seq<Token>, th: bool, cur: Option<seq<Token>>)
    requires k <= |seg| && Quiet(seg, false, true)
    ensures CellsFrom(seg + rest, 0, th, cur) == CellsFrom(seg[k..] + rest, Net(seg[..k]), th, Add(cur, seg[..k]))
    decreases k
  {
    if k == 0 {
      assert seg[..0] == [] && seg[0..] == seg;
      AddNothing(cur);
    } else {
      SkipForCells(seg, k - 1, rest, th, cur);
      assert QuietAt(seg, k - 1, false, true);
      Uncons(seg, k - 1, rest);
      NetSnoc(seg[..k - 1], seg[k - 1]);
      PassForCells(seg[k - 1], seg[k..] + rest, Net(seg[..k - 1]), th, Add(cur, seg[..k - 1]));
      AddTwice(cur, seg[..k - 1], [seg[k - 1]]);
    }
  }

  // ---------- round trips ----------

  function RowInners(rows: seq<Row>): seq<seq<Token>> {
    if rows == [] then [] else [RowInner(rows[0])] + RowInners(rows[1..])
  }

  function CellSpans(cells: seq<Cell>): seq<CellSpan> {
    if cells == [] then [] else [CellSpan(cells[0].th, PrintContent(cells[0].content))] + CellSpans(cells[1..])
  }

  /** Peels the first of a printed sequence into its opening tokens, its inside and its closing token. */
  lemma {:induction false} Peel(
    gap: Token, opener: Token, inner: seq<Token>, closer: Token, more: seq<Token>, rest: seq<Token>)
    ensures [gap, opener] + inner + [closer] + more + rest
         == [gap] + ([opener] + (inner + ([closer] + (more + rest))))
  {
  }

  lemma {:induction false} OneRow(r: Row, after: seq<Token>)
    ensures RowsFrom([Text(r.gap)] + ([Open(RowTag, r.attrs)] + (RowInner(r) + ([Close(RowTag, "")] + after))), 1, None)
         == [RowInner(r)] + RowsFrom(after, 1, None)
  {
    var inner := RowInner(r);
    var closed := [Close(RowTag, "")] + after;
    var fromOpen := [Open(RowTag, r.attrs)] + (inner + closed);
    PassForRows(Text(r.gap), fromOpen, 1, None);
    assert fromOpen[1..] == inner + closed && closed[1..] == after;
    RowInnerHidesRows(r);
    SkipForRows(inner, |inner|, closed, Some([]));
    assert inner[|inner|..] + closed == closed && inner[..|inner|] == inner && [] + inner == inner;
  }

  lemma {:induction false} RowsWalk(rows: seq<Row>, rest: seq<Token>)
    ensures RowsFrom(PrintRows(rows) + rest, 1, None) == RowInners(rows) + RowsFrom(rest, 1, None)
    decreases |rows|
  {
    if rows == [] {
      assert PrintRows(rows) + rest == rest;
    } else {
      var r, more := rows[0], PrintRows(rows[1..]);
      Peel(Text(r.gap), Open(RowTag, r.attrs), RowInner(r), Close(RowTag, ""), more, rest);
      OneRow(r, more + rest);
      RowsWalk(rows[1..], rest);
    }
  }

  lemma {:induction false} OneCell(c: Cell, after: seq<Token>, th: bool)
    ensures CellsFrom([Text(c.gap)] + ([Open(CellTag(c.th), c.attrs)]
                      + (PrintContent(c.content) + ([Close(CellTag(c.th), "")] + after))), 0, th, None)
         == [CellSpan(c.th, PrintContent(c.content))] + CellsFrom(after, 0, c.th, None)
  {
    var inner := PrintContent(c.content);
    var closed := [Close(CellTag(c.th), "")] + after;
    var fromOpen := [Open(CellTag(c.th), c.attrs)] + (inner + closed);
    PassForCells(Text(c.gap), fromOpen, 0, th, None);
    assert fromOpen[1..] == inner + closed && closed[1..] == after;
    ContentIsQuiet(c.content);
    WeakenQuiet(inner, false, true);
    SkipForCells(inner, |inner|, closed, c.th, Some([]));
    assert inner[|inner|..] + closed == closed && inner[..|inner|] == inner && [] + inner == inner;
  }

  lemma {:induction false} FirstCell(cells: seq<Cell>, rest: seq<Token>)
    requires cells != []
    ensures var c := cells[0];
            PrintCells(cells) + rest == [Text(c.gap)] + ([Open(CellTag(c.th), c.attrs)]
              + (PrintContent(c.content) + ([Close(CellTag(c.th), "")] + (PrintCells(cells[1..]) + rest))))
  {
    var c, more := cells[0], PrintCells(cells[1..]);
    Peel(Text(c.gap), Open(CellTag(c.th), c.attrs), PrintContent(c.content), Close(CellTag(c.th), ""), more, rest);
  }

  lemma {:induction false} CellsWalk(cells: seq<Cell>, rest: seq<Token>, th: bool) returns (lastTh: bool)
    ensures CellsFrom(PrintCells(cells) + rest, 0, th, None) == CellSpans(cells) + CellsFrom(rest, 0, lastTh, None)
    decreases |cells|
  {
    if cells == [] {
      lastTh := th;
      assert PrintCells(cells) + rest == rest;
    } else {
      var c, more := cells[0], PrintCells(cells[1..]);
      FirstCell(cells, rest);
      OneCell(c, more + rest, th);
      lastTh := CellsWalk(cells[1..], rest, c.th);
    }
  }

  /** The row scanner returns exactly the outer rows, nested tables and all. */
  lemma {:induction false} RowsRoundTrip(t: Table)
    ensures RowsOf(PrintTable(t)) == RowInners(t.rows)
  {
    var tail := [Text(t.tail), Close(TableTag, "")];
    var ts := PrintTable(t);
    assert ts[0] == Open(TableTag, t.attrs) && ts[1..] == PrintRows(t.rows) + tail;
    RowsWalk(t.rows, tail);
    assert tail[1..] == [Close(TableTag, "")] && [Close(TableTag, "")][1..] == [];
    assert RowsFrom(tail, 1, None) == [];
  }

  /** The cell scanner returns exactly the row's own cells with their th flags, nested tables whole. */
  lemma {:induction false} CellsRoundTrip(r: Row)
    ensures CellsOf(RowInner(r)) == CellSpans(r.cells)
  {
    var th := CellsWalk(r.cells, [Text(r.tail)], false);
    assert [Text(r.tail)][1..] == [];
    assert CellsFrom([Text(r.tail)], 0, th, None) == [];
  }

  /** Wherever it stands, a printed table is a matched span; after table-free text it is an outermost one. */
  lemma {:induction false} PrintedTableIsExtracted(pre: seq<Token>, t: Table, post: seq<Token>)
    ensures var page, s := pre + PrintTable(t) + post, |pre|;
            IsMatch(page, s, s + |PrintTable(t)|)
            && ((forall k :: 0 <= k < |pre| ==> !OpensTable(pre[k])) ==> IsOutermost(page, s, s + |PrintTable(t)|))
  {
    var ts := PrintTable(t);
    var page, s, e := pre + ts + post, |pre|, |pre| + |ts|;
    PrintedTableIsQuiet(t);
    QuietTable(PrintRows(t.rows) + [Text(t.tail)], Open(TableTag, t.attrs), Close(TableTag, ""));
    assert page[s..e] == ts && page[s] == ts[0];
    forall m | s < m < e ensures Between(page, s, m) > 0 {
      assert page[s..m] == ts[..m - s];
    }
    if forall k :: 0 <= k < |pre| ==> !OpensTable(pre[k]) {
      forall k | 0 <= k < s ensures !OpensTable(page[k]) {
        assert page[k] == pre[k];
      }
    }
  }
}
