/** White space as the source's patterns see it, and the collapsing they do with it. */
module Whitespace {

  predicate IsSpace(c: char) {
    || c == ' ' || '\t' <= c <= '\r' || c == '\U{A0}' || c == '\U{1680}' || '\U{2000}' <= c <= '\U{200A}'
    || c == '\U{2028}' || c == '\U{2029}' || c == '\U{202F}' || c == '\U{205F}' || c == '\U{3000}' || c == '\U{FEFF}'
  }

  /** Every run of white space becomes one blank. */
  function Squeeze(s: string): string {
    if s == "" then ""
    else if !IsSpace(s[0]) then [s[0]] + Squeeze(s[1..])
    else if |s| > 1 && IsSpace(s[1]) then Squeeze(s[1..])
    else " " + Squeeze(s[1..])
  }

  function TrimLeft(s: string): string {
    if s != "" && IsSpace(s[0]) then TrimLeft(s[1..]) else s
  }

  function TrimRight(s: string): string {
    if s != "" && IsSpace(s[|s| - 1]) then TrimRight(s[..|s| - 1]) else s
  }

  function Trim(s: string): string {
    TrimRight(TrimLeft(s))
  }

  function Collapse(s: string): string {
    Trim(Squeeze(s))
  }

  /** Text that stays on one line and has no white space at either end. */
  predicate Clean(s: string) {
    '\n' !in s && (s != "" ==> !IsSpace(s[0]) && !IsSpace(s[|s| - 1]))
  }

  lemma {:induction false} TrimLeftIs(s: string)
    ensures forall c :: c in TrimLeft(s) ==> c in s
    ensures TrimLeft(s) != "" ==> !IsSpace(TrimLeft(s)[0])
  {
    if s != "" && IsSpace(s[0]) {
      TrimLeftIs(s[1..]);
    }
  }

  lemma {:induction false} TrimRightIs(s: string)
    ensures |TrimRight(s)| <= |s| && TrimRight(s) == s[..|TrimRight(s)|]
    ensures TrimRight(s) != "" ==> !IsSpace(TrimRight(s)[|TrimRight(s)| - 1])
  {
    if s != "" && IsSpace(s[|s| - 1]) {
      TrimRightIs(s[..|s| - 1]);
    }
  }

  /** Text with nothing but white space. */
  predicate AllBlank(s: string) {
    forall i :: 0 <= i < |s| ==> IsSpace(s[i])
  }

  lemma {:induction false} TrimmedAway(s: string)
    ensures Trim(s) == "" <==> AllBlank(s)
  {
    if s != "" && IsSpace(s[0]) {
      TrimmedAway(s[1..]);
      assert s == [s[0]] + s[1..];
    } else if s != "" {
      TrimRightKeepsFirst(s);
    }
  }

  lemma {:induction false} TrimRightKeepsFirst(s: string)
    requires s != "" && !IsSpace(s[0])
    ensures TrimRight(s) != ""
  {
    if IsSpace(s[|s| - 1]) {
      TrimRightKeepsFirst(s[..|s| - 1]);
    }
  }

  lemma {:induction false} SqueezeHasNoBreaks(s: string)
    ensures '\n' !in Squeeze(s)
  {
    if s != "" {
      SqueezeHasNoBreaks(s[1..]);
    }
  }

  lemma {:induction false} CollapseIsClean(s: string)
    ensures Clean(Collapse(s))
  {
    SqueezeHasNoBreaks(s);
    TrimLeftIs(Squeeze(s));
    TrimRightIs(TrimLeft(Squeeze(s)));
  }

  // ---------- what collapsing keeps ----------

  predicate EndsInSpace(s: string) {
    s != "" && IsSpace(s[|s| - 1])
  }

  lemma {:induction false} SqueezeSnoc(s: string, c: char)
    ensures Squeeze(s + [c])
         == if !IsSpace(c) then Squeeze(s) + [c] else if EndsInSpace(s) then Squeeze(s) else Squeeze(s) + " "
  {
    if s == "" {
      assert s + [c] == [c] && [c][1..] == "";
    } else {
      assert (s + [c])[1..] == s[1..] + [c];
      SqueezeSnoc(s[1..], c);
    }
  }

  lemma {:induction false} TrimLeftSnoc(s: string, c: char)
    ensures TrimLeft(s + [c]) == if TrimLeft(s) == "" then (if IsSpace(c) then "" else [c]) else TrimLeft(s) + [c]
  {
    if s == "" {
      assert s + [c] == [c] && [c][1..] == "";
    } else {
      assert (s + [c])[1..] == s[1..] + [c];
      TrimLeftSnoc(s[1..], c);
    }
  }

  lemma {:induction false} TrimRightSnoc(s: string, c: char)
    ensures TrimRight(s + [c]) == if IsSpace(c) then TrimRight(s) else s + [c]
  {
    assert (s + [c])[..|s|] == s;
  }

  /** The blank that stands for white space read but not yet followed by a character. */
  function PendingBlank(s: string): string {
    if Collapse(s) != "" && EndsInSpace(s) then " " else ""
  }

  /** How one more character changes the collapsed text. */
  lemma {:induction false} CollapseSnoc(s: string, c: char)
    ensures Collapse(s + [c]) == if IsSpace(c) then Collapse(s) else Collapse(s) + PendingBlank(s) + [c]
    decreases |s|, 1
  {
    var t := TrimLeft(Squeeze(s));
    HeldBack(s);
    SqueezeSnoc(s, c);
    TrimLeftSnoc(Squeeze(s), c);
    TrimLeftSnoc(Squeeze(s), ' ');
    TrimRightSnoc(t, c);
    TrimRightSnoc(t, ' ');
    if t == "" {
      assert t + [c] == [c];
    }
  }

  lemma {:induction false} HeldBack(s: string)
    ensures TrimLeft(Squeeze(s)) == Collapse(s) + PendingBlank(s)
    decreases |s|, 0
  {
    if s != "" {
      var r, c := s[..|s| - 1], s[|s| - 1];
      assert s == r + [c];
      HeldBack(r);
      CollapseSnoc(r, c);
      SqueezeSnoc(r, c);
      TrimLeftSnoc(Squeeze(r), c);
      TrimLeftSnoc(Squeeze(r), ' ');
    }
  }

  predicate Blank(s: string, lo: nat, hi: nat) {
    hi <= |s| && forall i :: lo <= i < hi ==> IsSpace(s[i])
  }

  /** `at` lists the characters of `s` that are not white space, in order: there is only white space between them. */
  ghost predicate Solid(at: seq<nat>, s: string) {
    && (forall k :: 0 <= k < |at| ==> at[k] < |s| && !IsSpace(s[at[k]]))
    && (forall k :: 0 < k < |at| ==> at[k - 1] < at[k] && Blank(s, at[k - 1] + 1, at[k]))
    && (if at == [] then Blank(s, 0, |s|) else Blank(s, 0, at[0]) && Blank(s, at[|at| - 1] + 1, |s|))
  }

  /**
   `r` is the characters of `s` at `at`, each put where `to` says; neighbours stay neighbours, and those with
   white space between them have one blank between them.
   */
  ghost predicate Closes(s: string, at: seq<nat>, r: string, to: seq<nat>) {
    && |to| == |at| && (if at == [] then r == "" else to[0] == 0 && |r| == to[|to| - 1] + 1)
    && (forall k :: 0 <= k < |at| ==> Keeps(s, at[k], r, to[k]))
    && (forall k :: 0 < k < |at| ==> Follows(at[k - 1], at[k], r, to[k - 1], to[k]))
  }

  predicate Keeps(s: string, i: nat, r: string, m: nat) {
    i < |s| && m < |r| && r[m] == s[i]
  }

  predicate Follows(i: nat, j: nat, r: string, m: nat, n: nat) {
    if j == i + 1 then n == m + 1 else n == m + 2 && m + 1 < |r| && r[m + 1] == ' '
  }

  /** Collapsing keeps every character that is not white space, in order, and one blank for each gap between two. */
  lemma {:induction false} CollapseExact(s: string) returns (at: seq<nat>, to: seq<nat>)
    ensures Solid(at, s) && Closes(s, at, Collapse(s), to)
  {
    if s == "" {
      at, to := [], [];
    } else {
      var r, c := s[..|s| - 1], s[|s| - 1];
      assert s == r + [c];
      at, to := CollapseExact(r);
      CollapseSnoc(r, c);
      if IsSpace(c) {
        SpaceAfter(r, c, at, to);
      } else {
        SolidSnoc(at, r, c);
        SolidAfter(r, c, at, to);
        at, to := at + [|r|], to + [|Collapse(s)| - 1];
      }
    }
  }

  lemma {:induction false} BlankSnoc(r: string, c: char, lo: nat, hi: nat)
    requires Blank(r, lo, hi)
    ensures Blank(r + [c], lo, hi) && (hi == |r| && IsSpace(c) ==> Blank(r + [c], lo, hi + 1))
  {
    assert forall i :: 0 <= i < |r| ==> (r + [c])[i] == r[i];
  }

  lemma {:induction false} SolidStays(at: seq<nat>, r: string, c: char)
    requires Solid(at, r)
    ensures forall k :: 0 <= k < |at| ==> at[k] < |r| && !IsSpace((r + [c])[at[k]])
    ensures forall k :: 0 < k < |at| ==> at[k - 1] < at[k] && Blank(r + [c], at[k - 1] + 1, at[k])
    ensures at != [] ==> Blank(r + [c], 0, at[0])
  {
    forall k | 0 < k < |at| ensures at[k - 1] < at[k] && Blank(r + [c], at[k - 1] + 1, at[k]) {
      BlankSnoc(r, c, at[k - 1] + 1, at[k]);
    }
    if at != [] {
      BlankSnoc(r, c, 0, at[0]);
    }
  }

  lemma {:induction false} SpaceAfter(r: string, c: char, at: seq<nat>, to: seq<nat>)
    requires Solid(at, r) && Closes(r, at, Collapse(r), to) && IsSpace(c)
    ensures Solid(at, r + [c]) && Closes(r + [c], at, Collapse(r), to)
  {
    SolidStays(at, r, c);
    BlankSnoc(r, c, if at == [] then 0 else at[|at| - 1] + 1, |r|);
    forall k | 0 <= k < |at| ensures Keeps(r + [c], at[k], Collapse(r), to[k]) {
      assert Keeps(r, at[k], Collapse(r), to[k]);
    }
  }

  lemma {:induction false} SolidSnoc(at: seq<nat>, r: string, c: char)
    requires Solid(at, r) && !IsSpace(c)
    ensures Solid(at + [|r|], r + [c])
  {
    SolidStays(at, r, c);
    BlankSnoc(r, c, if at == [] then 0 else at[|at| - 1] + 1, |r|);
  }

  lemma {:induction false} SolidAfter(r: string, c: char, at: seq<nat>, to: seq<nat>)
    requires Solid(at, r) && Closes(r, at, Collapse(r), to) && !IsSpace(c)
    requires Collapse(r + [c]) == Collapse(r) + PendingBlank(r) + [c]
    ensures Closes(r + [c], at + [|r|], Collapse(r + [c]), to + [|Collapse(r + [c])| - 1])
  {
    var n, was, now := |at|, Collapse(r), Collapse(r + [c]);
    var at', to' := at + [|r|], to + [|now| - 1];
    forall k | 0 <= k < n + 1 ensures Keeps(r + [c], at'[k], now, to'[k]) {
      if k < n {
        assert Keeps(r, at[k], was, to[k]);
      }
    }
    forall k | 0 < k < n + 1 ensures Follows(at'[k - 1], at'[k], now, to'[k - 1], to'[k]) {
      if k < n {
        assert Follows(at[k - 1], at[k], was, to[k - 1], to[k]);
        assert Keeps(r, at[k], was, to[k]);
      } else {
        assert EndsInSpace(r) <==> at[n - 1] < |r| - 1;
      }
    }
  }
}
