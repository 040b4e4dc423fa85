/**
 Text matching of the scorer (`normalizeForMatch`, `contentTokens` for ASCII letter case, and the table of
 task types that realise a pipeline stage).

 The scorer's lemmas only need the few facts about them collected in `Lawful`; the functions below are the
 source's own and are proved to satisfy them.
 */
module Matching {
  import opened Whitespace

  /** A text normaliser, the content tokens of a text and the task types that realise a stage. */
  datatype Lexicon = Lexicon(norm: string -> string, tokens: string -> set<string>, types: string -> set<string>)

  /** Lower-case letters and digits. */
  predicate IsAlnum(c: char) {
    'a' <= c <= 'z' || '0' <= c <= '9'
  }

  predicate IsWord(w: string) {
    w != "" && forall i :: 0 <= i < |w| ==> IsAlnum(w[i])
  }

  /** `w` normalises to itself, and a task type that normalises to `w` makes it a token of the leaf's text. */
  ghost predicate LawfulFor(lex: Lexicon, w: string) {
    && lex.norm(w) == w && lex.tokens(w) == {w} && lex.types(w) == StageTypes(w)
    && forall s: string, t: string :: lex.norm(t) == w ==> w in lex.tokens(s + " " + t)
  }

  /** What the scorer needs of the stage names. */
  ghost predicate Lawful(lex: Lexicon) {
    forall w :: w in STAGE_NAMES ==> LawfulFor(lex, w)
  }

  const STAGE_NAMES: set<string> := {"extract", "aggregate", "classify", "summarize"}

  const STOPWORDS: set<string> := {
    "the", "and", "for", "with", "into", "from", "that", "this", "each", "per", "its",
    "a", "an", "of", "to", "in", "on", "as", "or", "by", "is", "are", "be", "it", "at",
    "run", "add", "find", "name", "naming", "draft", "write", "report", "summary"}

  // ---------- the source's functions ----------

  /** The leaf task types that realise each canonical stage. */
  function StageTypes(stage: string): set<string> {
    if stage == "extract" then {"data-transform", "extract", "qa-factual"}
    else if stage == "aggregate" then {"data-transform", "reason-math", "sql"}
    else if stage == "classify" then {"classify"}
    else if stage == "summarize" then {"summarize", "rewrite"}
    else {}
  }

  function Lower(c: char): char {
    if 'A' <= c <= 'Z' then (c as int + 32) as char else c
  }

  /** Lower case without thousands separators. */
  function Fold(s: string): string {
    if s == "" then "" else (if s[0] == ',' then "" else [Lower(s[0])]) + Fold(s[1..])
  }

  function NormalizeForMatch(s: string): string {
    Collapse(Fold(s))
  }

  /** The maximal runs of letters and digits; `acc` is the run being read. */
  function Words(s: string, acc: string): seq<string> {
    if s == "" then (if acc == "" then [] else [acc])
    else if IsAlnum(s[0]) then Words(s[1..], acc + [s[0]])
    else (if acc == "" then [] else [acc]) + Words(s[1..], "")
  }

  function ContentTokens(s: string): set<string> {
    set w | w in Words(NormalizeForMatch(s), "") && |w| >= 3 && w !in STOPWORDS
  }

  // ---------- words are not affected by collapsing ----------

  lemma {:induction false} WordsSqueeze(s: string, acc: string)
    ensures Words(Squeeze(s), acc) == Words(s, acc)
  {
    if s != "" {
      var rest := s[1..];
      if !IsSpace(s[0]) {
        assert Squeeze(s)[1..] == Squeeze(rest);
        WordsSqueeze(rest, if IsAlnum(s[0]) then acc + [s[0]] else "");
      } else if |s| > 1 && IsSpace(s[1]) {
        WordsSqueeze(rest, acc);
        assert rest[0] == s[1];
        assert [] + Words(rest[1..], "") == Words(rest[1..], "");
      } else {
        assert (" " + Squeeze(rest))[1..] == Squeeze(rest);
        WordsSqueeze(rest, "");
      }
    }
  }

  lemma {:induction false} WordsTrimLeft(s: string)
    ensures Words(TrimLeft(s), "") == Words(s, "")
  {
    if s != "" && IsSpace(s[0]) {
      WordsTrimLeft(s[1..]);
      assert [] + Words(s[1..], "") == Words(s[1..], "");
    }
  }

  lemma {:induction false} WordsThenSpace(s: string, c: char, t: string, acc: string)
    requires !IsAlnum(c)
    ensures Words(s + [c] + t, acc) == Words(s, acc) + Words(t, "")
  {
    if s == "" {
      assert s + [c] + t == [c] + t && ([c] + t)[1..] == t;
    } else {
      assert (s + [c] + t)[1..] == s[1..] + [c] + t;
      WordsThenSpace(s[1..], c, t, if IsAlnum(s[0]) then acc + [s[0]] else "");
      var flushed := if acc == "" then [] else [acc];
      assert flushed + (Words(s[1..], "") + Words(t, "")) == flushed + Words(s[1..], "") + Words(t, "");
    }
  }

  lemma {:induction false} WordsTrimRight(s: string)
    ensures Words(TrimRight(s), "") == Words(s, "")
  {
    if s != "" && IsSpace(s[|s| - 1]) {
      var init := s[..|s| - 1];
      WordsTrimRight(init);
      WordsThenSpace(init, s[|s| - 1], "", "");
      assert s == init + [s[|s| - 1]] + "";
      assert Words(init, "") + [] == Words(init, "");
    }
  }

  lemma {:induction false} WordsNormalized(s: string)
    ensures Words(NormalizeForMatch(s), "") == Words(Fold(s), "")
  {
    WordsTrimRight(TrimLeft(Squeeze(Fold(s))));
    WordsTrimLeft(Squeeze(Fold(s)));
    WordsSqueeze(Fold(s), "");
  }

  lemma {:induction false} FoldConcat(s: string, t: string)
    ensures Fold(s + t) == Fold(s) + Fold(t)
  {
    if s == "" {
      assert s + t == t;
    } else {
      assert (s + t)[1..] == s[1..] + t;
      FoldConcat(s[1..], t);
    }
  }

  lemma {:induction false} WordsOfRun(w: string, acc: string)
    requires forall i :: 0 <= i < |w| ==> IsAlnum(w[i])
    ensures Words(w, acc) == if acc + w == "" then [] else [acc + w]
  {
    if w == "" {
      assert acc + w == acc;
    } else {
      WordsOfRun(w[1..], acc + [w[0]]);
      assert acc + [w[0]] + w[1..] == acc + w;
    }
  }

  lemma {:induction false} PlainTextStays(w: string)
    requires forall i :: 0 <= i < |w| ==> IsAlnum(w[i]) || w[i] == '-'
    ensures Fold(w) == w && Squeeze(w) == w
  {
    if w != "" {
      PlainTextStays(w[1..]);
      assert w == [w[0]] + w[1..];
    }
  }

  lemma {:induction false} TrimStays(w: string)
    requires w != "" && !IsSpace(w[0]) && !IsSpace(w[|w| - 1])
    ensures Trim(w) == w
  {
    assert TrimLeft(w) == w && TrimRight(w) == w;
  }

  lemma {:induction false} PlainTextIsNormal(w: string)
    requires w != "" && forall i :: 0 <= i < |w| ==> IsAlnum(w[i]) || w[i] == '-'
    ensures NormalizeForMatch(w) == w
  {
    PlainTextStays(w);
    TrimStays(w);
  }

  lemma {:induction false} WordIsNormal(w: string)
    requires IsWord(w)
    ensures NormalizeForMatch(w) == w && Words(w, "") == [w]
  {
    PlainTextIsNormal(w);
    WordsOfRun(w, "");
    assert "" + w == w;
  }

  /** A text whose second half normalises to a word contains that word. */
  lemma {:induction false} WordOccurs(s: string, t: string, w: string)
    requires IsWord(w) && NormalizeForMatch(t) == w
    ensures w in Words(NormalizeForMatch(s + " " + t), "")
  {
    WordsNormalized(s + " " + t);
    FoldConcat(s + " ", t);
    FoldConcat(s, " ");
    assert Fold(" ") == " " by { assert " "[1..] == "" && Fold("") == ""; }
    WordsThenSpace(Fold(s), ' ', Fold(t), "");
    WordsNormalized(t);
    WordIsNormal(w);
  }

  /** A word followed by a hyphenated one, as in a subtask with its task type. */
  lemma {:induction false} HyphenatedWords(a: string, b: string, c: string)
    requires IsWord(a) && IsWord(b) && IsWord(c)
    ensures NormalizeForMatch(b + "-" + c) == b + "-" + c
    ensures Words(NormalizeForMatch(a + " " + (b + "-" + c)), "") == [a] + ([b] + [c])
  {
    var t := b + "-" + c;
    PlainTextIsNormal(t);
    PlainTextStays(a);
    PlainTextStays(t);
    FoldConcat(a + " ", t);
    FoldConcat(a, " ");
    assert Fold(" ") == " " by { assert " "[1..] == "" && Fold("") == ""; }
    WordsNormalized(a + " " + t);
    WordsThenSpace(a, ' ', t, "");
    WordsThenSpace(b, '-', c, "");
    WordIsNormal(a);
    WordIsNormal(b);
    WordIsNormal(c);
  }

  /** The source's own normaliser, tokeniser and stage table. */
  const SOURCE: Lexicon := Lexicon(NormalizeForMatch, ContentTokens, StageTypes)

  lemma {:induction false} StopwordsAreShort(w: string)
    requires w in STOPWORDS
    ensures |w| < 7 || w == "summary"
  {
  }

  lemma {:induction false} LawfulWord(w: string)
    requires IsWord(w) && |w| >= 7 && w != "summary"
    ensures LawfulFor(SOURCE, w)
  {
    assert w !in STOPWORDS by {
      if w in STOPWORDS { StopwordsAreShort(w); }
    }
    WordIsNormal(w);
    assert ContentTokens(w) == {w};
    forall s: string, t: string | SOURCE.norm(t) == w ensures w in SOURCE.tokens(s + " " + t) {
      WordOccurs(s, t, w);
    }
  }

  lemma {:induction false} StageNamesAreWords()
    ensures forall w :: w in STAGE_NAMES ==> IsWord(w) && |w| >= 7 && w != "summary"
  {
    assert IsWord("extract") && "extract"[0] != "summary"[0];
    assert IsWord("aggregate") && IsWord("classify") && IsWord("summarize");
  }

  lemma {:induction false} SourceIsLawful()
    ensures Lawful(SOURCE)
  {
    StageNamesAreWords();
    forall w | w in STAGE_NAMES ensures LawfulFor(SOURCE, w) {
      LawfulWord(w);
    }
  }
}
