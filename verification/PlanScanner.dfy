/**
 String-aware bracket scanner that finds the brain's JSON plan (`balancedArrayFrom`, `extractJsonArray`).

 The input language is the concrete syntax of JSON (sections 2 to 7 of RFC 8259): arbitrary white space,
 any spelling of strings, brackets, quotes, fences and escapes inside strings. The main result is that
 the scanner, which only counts brackets outside strings, cuts out exactly the text of an array.
 */
module PlanScanner {
  import opened Options

  // ---------- the scanner ----------

  function Shift(n: nat, o: Option<nat>): Option<nat> {
    if o.None? then None else Some(n + o.value)
  }

  /** Characters consumed up to and including the bracket that brings the depth to zero. */
  function Scan(s: string, depth: int, inStr: bool, esc: bool): Option<nat> {
    if s == "" then None
    else
      var ch, rest := s[0], s[1..];
      if inStr then
        if esc then Shift(1, Scan(rest, depth, true, false))
        else if ch == '\\' then Shift(1, Scan(rest, depth, true, true))
        else Shift(1, Scan(rest, depth, ch != '"', false))
      else if ch == '"' then Shift(1, Scan(rest, depth, true, esc))
      else if ch == '[' then Shift(1, Scan(rest, depth + 1, false, esc))
      else if ch == ']' then
        if depth == 1 then Some(1) else Shift(1, Scan(rest, depth - 1, false, esc))
      else Shift(1, Scan(rest, depth, false, esc))
  }

  lemma {:induction false} ScanInBounds(s: string, depth: int, inStr: bool, esc: bool)
    ensures var r := Scan(s, depth, inStr, esc); r.Some? ==> 0 < r.value <= |s|
  {
    if s != "" {
      forall d: int, i: bool, e: bool {
        ScanInBounds(s[1..], d, i, e);
      }
    }
  }

  /** The balanced span that starts at `start`, if it ever closes. */
  function Span(text: string, start: nat): Option<string>
    requires start <= |text|
  {
    ScanInBounds(text[start..], 0, false, false);
    var r := Scan(text[start..], 0, false, false);
    if r.None? then None else Some(text[start..start + r.value])
  }

  method BalancedArrayFrom(text: string, start: nat) returns (r: Option<string>)
    requires start <= |text|
    ensures r == Span(text, start)
  {
    var depth, inStr, esc := 0, false, false;
    for i := start to |text|
      invariant !inStr ==> !esc
      invariant Scan(text[start..], 0, false, false) == Shift(i - start, Scan(text[i..], depth, inStr, esc))
    {
      var ch := text[i];
      assert text[i..][0] == ch && text[i..][1..] == text[i + 1..];
      if inStr {
        if esc {
          esc := false;
        } else if ch == '\\' {
          esc := true;
        } else if ch == '"' {
          inStr := false;
        }
      } else if ch == '"' {
        inStr := true;
      } else if ch == '[' {
        depth := depth + 1;
      } else if ch == ']' {
        depth := depth - 1;
        if depth == 0 {
          return Some(text[start..i + 1]);
        }
      }
    }
    return None;
  }

  /** A balanced span at `start` that parses as a non-empty array, `accepts` being that parse test. */
  predicate Accepted(text: string, start: nat, accepts: string -> bool)
    requires start <= |text|
  {
    start < |text| && text[start] == '[' && Span(text, start).Some? && accepts(Span(text, start).value)
  }

  /** The span at the leftmost accepted bracket. */
  ghost predicate IsFirstAccepted(text: string, accepts: string -> bool, r: Option<string>) {
    if r.None? then forall q :: 0 <= q < |text| ==> !Accepted(text, q, accepts)
    else exists start :: 0 <= start < |text| && Accepted(text, start, accepts) && Span(text, start) == r
                      && forall q :: 0 <= q < start ==> !Accepted(text, q, accepts)
  }

  method ExtractJsonArray(text: string, accepts: string -> bool) returns (r: Option<string>)
    ensures IsFirstAccepted(text, accepts, r)
  {
    for start := 0 to |text|
      invariant forall q :: 0 <= q < start ==> !Accepted(text, q, accepts)
    {
      if text[start] == '[' {
        var span := BalancedArrayFrom(text, start);
        if span.Some? && accepts(span.value) {
          return span;
        }
      }
    }
    return None;
  }

  // ---------- JSON text ----------

  /** A string character: written as itself, or a backslash and the character after it. */
  datatype StringUnit = Plain(c: char) | Escape(c: char)

  datatype Json =
    | Scalar(text: string)
    | Str(units: seq<StringUnit>)
    | Arr(gap: string, items: seq<Json>)
    | Obj(gap: string, members: seq<Member>)
    | Padded(before: string, value: Json, after: string)

  datatype Member = Member(before: string, key: seq<StringUnit>, between: string, value: Json)

  predicate Blank(s: string) {
    forall i :: 0 <= i < |s| ==> s[i] in " \t\n\r"
  }

  /** Covers numbers, `true`, `false` and `null`. */
  predicate ScalarText(s: string) {
    forall i :: 0 <= i < |s| ==> 'a' <= s[i] <= 'z' || 'A' <= s[i] <= 'Z' || '0' <= s[i] <= '9' || s[i] in "+-."
  }

  predicate UnitsOk(us: seq<StringUnit>) {
    forall i :: 0 <= i < |us| && us[i].Plain? ==> us[i].c != '"' && us[i].c != '\\'
  }

  predicate WellFormed(j: Json) {
    match j
    case Scalar(text) => ScalarText(text)
    case Str(units) => UnitsOk(units)
    case Arr(gap, items) => Blank(gap) && forall i :: 0 <= i < |items| ==> WellFormed(items[i])
    case Obj(gap, members) => Blank(gap) && forall i :: 0 <= i < |members| ==> MemberOk(members[i])
    case Padded(before, value, after) => Blank(before) && WellFormed(value) && Blank(after)
  }

  predicate MemberOk(m: Member) {
    Blank(m.before) && UnitsOk(m.key) && Blank(m.between) && WellFormed(m.value)
  }

  function PrintUnits(us: seq<StringUnit>): string {
    if us == [] then ""
    else (if us[0].Plain? then [us[0].c] else ['\\', us[0].c]) + PrintUnits(us[1..])
  }

  function PrintString(us: seq<StringUnit>): string {
    "\"" + (PrintUnits(us) + "\"")
  }

  function Print(j: Json): string
    decreases j, 0
  {
    match j
    case Scalar(text) => text
    case Str(units) => PrintString(units)
    case Arr(gap, items) => "[" + (gap + PrintItems(items)) + "]"
    case Obj(gap, members) => "{" + (gap + PrintMembers(members)) + "}"
    case Padded(before, value, after) => before + Print(value) + after
  }

  function PrintItems(items: seq<Json>): string
    decreases items, 0
  {
    if items == [] then "" else Print(items[0]) + ((if |items| > 1 then "," else "") + PrintItems(items[1..]))
  }

  function PrintMember(m: Member): string
    decreases m, 0
  {
    m.before + PrintString(m.key) + m.between + ":" + Print(m.value)
  }

  function PrintMembers(ms: seq<Member>): string
    decreases ms, 0
  {
    if ms == [] then "" else PrintMember(ms[0]) + ((if |ms| > 1 then "," else "") + PrintMembers(ms[1..]))
  }

  // ---------- text the scanner passes over at positive depth ----------

  ghost predicate Transparent(t: string) {
    forall rest: string, depth: int :: depth >= 1 ==> Passes(t, rest, depth)
  }

  ghost predicate Passes(t: string, rest: string, depth: int) {
    Scan(t + rest, depth, false, false) == Shift(|t|, Scan(rest, depth, false, false))
  }

  lemma {:induction false} TransparentConcat(a: string, b: string)
    requires Transparent(a) && Transparent(b)
    ensures Transparent(a + b)
  {
    forall rest: string, depth: int | depth >= 1 ensures Passes(a + b, rest, depth) {
      assert Passes(a, b + rest, depth) && Passes(b, rest, depth);
      PassesConcat(a, b, rest, depth);
    }
  }

  lemma {:induction false} PassesConcat(a: string, b: string, rest: string, depth: int)
    requires Passes(a, b + rest, depth) && Passes(b, rest, depth)
    ensures Passes(a + b, rest, depth)
  {
    assert a + b + rest == a + (b + rest);
  }

  lemma {:induction false} NeutralIsTransparent(t: string)
    requires forall i :: 0 <= i < |t| ==> t[i] !in "\"[]"
    ensures Transparent(t)
  {
    forall rest: string, depth: int | depth >= 1 ensures Passes(t, rest, depth) {
      if t == "" {
        assert t + rest == rest;
      } else {
        NeutralIsTransparent(t[1..]);
        assert (t + rest)[1..] == t[1..] + rest;
        assert Passes(t[1..], rest, depth);
      }
    }
  }

  lemma {:induction false} InsideString(us: seq<StringUnit>, rest: string, depth: int)
    requires UnitsOk(us)
    ensures Scan(PrintUnits(us) + "\"" + rest, depth, true, false)
         == Shift(|PrintUnits(us)| + 1, Scan(rest, depth, false, false))
  {
    if us == [] {
      assert PrintUnits(us) + "\"" + rest == "\"" + rest;
      assert ("\"" + rest)[1..] == rest;
    } else {
      InsideString(us[1..], rest, depth);
      var tail := PrintUnits(us[1..]) + "\"" + rest;
      if us[0].Plain? {
        assert PrintUnits(us) + "\"" + rest == [us[0].c] + tail;
        assert ([us[0].c] + tail)[1..] == tail;
      } else {
        assert PrintUnits(us) + "\"" + rest == ['\\'] + ([us[0].c] + tail);
        assert (['\\'] + ([us[0].c] + tail))[1..] == [us[0].c] + tail;
        assert ([us[0].c] + tail)[1..] == tail;
      }
    }
  }

  lemma {:induction false} StringIsTransparent(us: seq<StringUnit>)
    requires UnitsOk(us)
    ensures Transparent(PrintString(us))
  {
    var t := PrintString(us);
    forall rest: string, depth: int | depth >= 1 ensures Passes(t, rest, depth) {
      var tail := PrintUnits(us) + "\"" + rest;
      assert t + rest == "\"" + tail && ("\"" + tail)[1..] == tail;
      InsideString(us, rest, depth);
    }
  }

  /** From inside one bracket the scanner is back at its depth after the closing bracket. */
  lemma {:induction false} Bracketed(t: string, rest: string, depth: int)
    requires Transparent(t) && depth >= 0
    ensures Scan("[" + t + "]" + rest, depth, false, false)
         == if depth == 0 then Some(|t| + 2) else Shift(|t| + 2, Scan(rest, depth, false, false))
  {
    var tail := "]" + rest;
    assert "[" + t + "]" + rest == "[" + (t + tail);
    assert ("[" + (t + tail))[1..] == t + tail && tail[1..] == rest;
    assert Passes(t, tail, depth + 1);
  }

  lemma {:induction false} JsonIsTransparent(j: Json)
    requires WellFormed(j)
    ensures Transparent(Print(j))
    ensures j.Arr? ==> Transparent(j.gap + PrintItems(j.items))
    decreases j, 1
  {
    match j {
      case Scalar(text) => NeutralIsTransparent(text);
      case Str(units) => StringIsTransparent(units);
      case Arr(gap, items) =>
        NeutralIsTransparent(gap);
        ItemsAreTransparent(items);
        var t := gap + PrintItems(items);
        TransparentConcat(gap, PrintItems(items));
        forall rest: string, depth: int | depth >= 1 ensures Passes(Print(j), rest, depth) {
          Bracketed(t, rest, depth);
        }
      case Obj(gap, members) =>
        NeutralIsTransparent("{");
        NeutralIsTransparent(gap);
        MembersAreTransparent(members);
        NeutralIsTransparent("}");
        TransparentConcat(gap, PrintMembers(members));
        TransparentConcat("{", gap + PrintMembers(members));
        TransparentConcat("{" + (gap + PrintMembers(members)), "}");
      case Padded(before, value, after) =>
        NeutralIsTransparent(before);
        JsonIsTransparent(value);
        NeutralIsTransparent(after);
        TransparentConcat(before, Print(value));
        TransparentConcat(before + Print(value), after);
    }
  }

  lemma {:induction false} ItemsAreTransparent(items: seq<Json>)
    requires forall i :: 0 <= i < |items| ==> WellFormed(items[i])
    ensures Transparent(PrintItems(items))
    decreases items, 0
  {
    if items == [] {
      NeutralIsTransparent("");
    } else {
      JsonIsTransparent(items[0]);
      ItemsAreTransparent(items[1..]);
      var comma := if |items| > 1 then "," else "";
      NeutralIsTransparent(comma);
      TransparentConcat(comma, PrintItems(items[1..]));
      TransparentConcat(Print(items[0]), comma + PrintItems(items[1..]));
    }
  }

  lemma {:induction false} MembersAreTransparent(ms: seq<Member>)
    requires forall i :: 0 <= i < |ms| ==> MemberOk(ms[i])
    ensures Transparent(PrintMembers(ms))
    decreases ms, 0
  {
    if ms == [] {
      NeutralIsTransparent("");
    } else {
      var m := ms[0];
      NeutralIsTransparent(m.before);
      StringIsTransparent(m.key);
      NeutralIsTransparent(m.between);
      NeutralIsTransparent(":");
      JsonIsTransparent(m.value);
      TransparentConcat(m.before, PrintString(m.key));
      TransparentConcat(m.before + PrintString(m.key), m.between);
      TransparentConcat(m.before + PrintString(m.key) + m.between, ":");
      TransparentConcat(m.before + PrintString(m.key) + m.between + ":", Print(m.value));
      MembersAreTransparent(ms[1..]);
      var comma := if |ms| > 1 then "," else "";
      NeutralIsTransparent(comma);
      TransparentConcat(comma, PrintMembers(ms[1..]));
      TransparentConcat(PrintMember(m), comma + PrintMembers(ms[1..]));
    }
  }

  // ---------- main results ----------

  /** Whatever surrounds it and whatever its strings hold, an array is cut out exactly. */
  lemma {:induction false} ArrayIsItsOwnSpan(prefix: string, j: Json, suffix: string)
    requires j.Arr? && WellFormed(j)
    ensures Span(prefix + Print(j) + suffix, |prefix|) == Some(Print(j))
  {
    var text := prefix + Print(j) + suffix;
    JsonIsTransparent(j);
    Bracketed(j.gap + PrintItems(j.items), suffix, 0);
    assert text[|prefix|..] == Print(j) + suffix;
    assert text[|prefix|..|prefix| + |Print(j)|] == Print(j);
  }

  /** The plan is found behind prose, provided no earlier bracket of the prose starts an accepted span. */
  lemma {:induction false} PlanIsExtracted(
    prefix: string, j: Json, suffix: string, accepts: string -> bool, r: Option<string>)
    requires j.Arr? && WellFormed(j) && accepts(Print(j))
    requires forall q :: 0 <= q < |prefix| ==> !Accepted(prefix + Print(j) + suffix, q, accepts)
    requires IsFirstAccepted(prefix + Print(j) + suffix, accepts, r)
    ensures r == Some(Print(j))
  {
    var text := prefix + Print(j) + suffix;
    ArrayIsItsOwnSpan(prefix, j, suffix);
    assert text[|prefix|] == Print(j)[0] == '[';
    assert Accepted(text, |prefix|, accepts);
  }

  lemma {:induction false} PlanAfterBracketFreeProse(
    prefix: string, j: Json, suffix: string, accepts: string -> bool, r: Option<string>)
    requires j.Arr? && WellFormed(j) && accepts(Print(j)) && '[' !in prefix
    requires IsFirstAccepted(prefix + Print(j) + suffix, accepts, r)
    ensures r == Some(Print(j))
  {
    assert forall q :: 0 <= q < |prefix| ==> (prefix + Print(j) + suffix)[q] == prefix[q];
    PlanIsExtracted(prefix, j, suffix, accepts, r);
  }
}
