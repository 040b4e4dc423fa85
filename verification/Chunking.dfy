/**
 Greedy chunking of distilled notes under a character ceiling (`chunkNotes`).

 The loop fills a chunk until the next note would push it over the ceiling. The main result is
 that no contiguous partition obeying the same rule uses fewer chunks.
 */
module Chunking {

  /** A distilled note; only the texts of its claims matter for chunking. */
  datatype Note = Note(claims: seq<string>)

  function Chars(claims: seq<string>): nat {
    if claims == [] then 0 else |claims[0]| + Chars(claims[1..])
  }

  function Size(n: Note): nat {
    Chars(n.claims)
  }

  function Total(notes: seq<Note>): nat {
    if notes == [] then 0 else Size(notes[0]) + Total(notes[1..])
  }

  function Flatten(chunks: seq<seq<Note>>): seq<Note> {
    if chunks == [] then [] else chunks[0] + Flatten(chunks[1..])
  }

  /** The rule a chunk obeys: a lone note may exceed the ceiling, two or more may not. */
  predicate Fits(chunk: seq<Note>, ceiling: int) {
    |chunk| <= 1 || Total(chunk) <= ceiling
  }

  /** Chunks that keep the notes' order and content and each obey the rule (empty chunks allowed). */
  ghost predicate IsPartition(chunks: seq<seq<Note>>, notes: seq<Note>, ceiling: int) {
    && Flatten(chunks) == notes
    && forall i :: 0 <= i < |chunks| ==> Fits(chunks[i], ceiling)
  }

  /** What the loop still appends when `cur` is open and `notes` remain. */
  function Greedy(cur: seq<Note>, notes: seq<Note>, ceiling: int): seq<seq<Note>>
    decreases |notes|
  {
    if notes == [] then
      if cur == [] then [] else [cur]
    else if cur != [] && Total(cur) + Size(notes[0]) > ceiling then
      [cur] + Greedy([notes[0]], notes[1..], ceiling)
    else
      Greedy(cur + [notes[0]], notes[1..], ceiling)
  }

  function TextOf(claims: seq<string>): string {
    if claims == [] then "" else claims[0] + TextOf(claims[1..])
  }

  /** All the distilled text of some notes. */
  function AllText(notes: seq<Note>): string {
    if notes == [] then "" else TextOf(notes[0].claims) + AllText(notes[1..])
  }

  lemma {:induction false} CharsAreText(claims: seq<string>)
    ensures Chars(claims) == |TextOf(claims)|
  {
    if claims != [] {
      CharsAreText(claims[1..]);
    }
  }

  /** What the ceiling limits is the length of the combined text. */
  lemma {:induction false} TotalIsText(notes: seq<Note>)
    ensures Total(notes) == |AllText(notes)|
  {
    if notes != [] {
      CharsAreText(notes[0].claims);
      TotalIsText(notes[1..]);
    }
  }

  lemma {:induction false} TotalConcat(a: seq<Note>, b: seq<Note>)
    ensures Total(a + b) == Total(a) + Total(b)
  {
    if a == [] {
      assert a + b == b;
    } else {
      assert (a + b)[1..] == a[1..] + b;
      TotalConcat(a[1..], b);
    }
  }

  lemma {:induction false} FlattenCons(c: seq<Note>, rest: seq<seq<Note>>)
    ensures Flatten([c] + rest) == c + Flatten(rest)
  {
    assert ([c] + rest)[1..] == rest;
  }

  lemma {:induction false} GreedyIsPartition(cur: seq<Note>, notes: seq<Note>, ceiling: int)
    requires Fits(cur, ceiling)
    ensures IsPartition(Greedy(cur, notes, ceiling), cur + notes, ceiling)
    ensures forall i :: 0 <= i < |Greedy(cur, notes, ceiling)| ==> Greedy(cur, notes, ceiling)[i] != []
    decreases |notes|
  {
    if notes == [] {
      assert cur + notes == cur;
      if cur != [] {
        FlattenCons(cur, []);
      }
    } else {
      var n, rest := notes[0], notes[1..];
      assert notes == [n] + rest;
      TotalConcat(cur, [n]);
      if cur != [] && Total(cur) + Size(n) > ceiling {
        GreedyIsPartition([n], rest, ceiling);
        FlattenCons(cur, Greedy([n], rest, ceiling));
      } else {
        GreedyIsPartition(cur + [n], rest, ceiling);
        assert cur + notes == cur + [n] + rest;
      }
    }
  }

  /** A chunk holding more notes around `part` weighs at least as much as `part`. */
  lemma {:induction false} TotalOfPart(before: seq<Note>, part: seq<Note>, after: seq<Note>)
    ensures Total(before + part + after) >= Total(part)
  {
    TotalConcat(before, part);
    TotalConcat(before + part, after);
  }

  /**
   Staying ahead: whatever partition is chosen for `pre + notes`, the greedy loop with the open chunk
   `cur` (a suffix of `pre`) needs no more chunks.
   */
  lemma {:induction false} GreedyStaysAhead(
    pre: seq<Note>, cur: seq<Note>, notes: seq<Note>, ceiling: int, q: seq<seq<Note>>)
    requires cur != [] && |cur| <= |pre| && pre[|pre| - |cur|..] == cur
    requires IsPartition(q, pre + notes, ceiling)
    ensures |Greedy(cur, notes, ceiling)| <= |q|
    decreases |notes|, |q|
  {
    assert q != [];
    if notes != [] {
      var n, rest := notes[0], notes[1..];
      assert notes == [n] + rest;
      assert pre + notes == pre + [n] + rest;
      var p := pre + [n];
      if Total(cur) + Size(n) > ceiling {
        var k := |q[0]|;
        assert q[0] == (pre + notes)[..k];
        if k > |pre| {
          var before, after := pre[..|pre| - |cur|], (pre + notes)[|pre| + 1..k];
          assert q[0] == before + (cur + [n]) + after;
          TotalOfPart(before, cur + [n], after);
          TotalConcat(cur, [n]);
          assert false;
        }
        assert Flatten(q[1..]) == (pre + notes)[k..] == pre[k..] + [n] + rest;
        GreedyStaysAhead(pre[k..] + [n], [n], rest, ceiling, q[1..]);
      } else {
        assert p[|p| - |cur + [n]|..] == cur + [n];
        GreedyStaysAhead(p, cur + [n], rest, ceiling, q);
      }
    }
  }

  ghost predicate FewestChunks(chunks: seq<seq<Note>>, notes: seq<Note>, ceiling: int) {
    forall q: seq<seq<Note>> :: IsPartition(q, notes, ceiling) ==> |chunks| <= |q|
  }

  lemma {:induction false} GreedyIsOptimal(notes: seq<Note>, ceiling: int)
    requires notes != []
    ensures FewestChunks(Greedy([], notes, ceiling), notes, ceiling)
  {
    var n, rest := notes[0], notes[1..];
    assert Greedy([], notes, ceiling) == Greedy([n], rest, ceiling) by {
      assert [] + [n] == [n];
    }
    forall q: seq<seq<Note>> | IsPartition(q, notes, ceiling)
      ensures |Greedy([], notes, ceiling)| <= |q|
    {
      assert [n] + rest == notes;
      GreedyStaysAhead([n], [n], rest, ceiling, q);
    }
  }

  lemma {:induction false} WholeGreedy(notes: seq<Note>, ceiling: int)
    ensures var g := Greedy([], notes, ceiling);
            && (g != [] ==> IsPartition(g, notes, ceiling))
            && (g == [] <==> notes == [])
            && (notes != [] ==> FewestChunks(g, notes, ceiling) && forall i :: 0 <= i < |g| ==> g[i] != [])
  {
    GreedyIsPartition([], notes, ceiling);
    assert [] + notes == notes;
    if notes != [] {
      GreedyIsOptimal(notes, ceiling);
    }
  }

  /** One round of the loop, with `done` chunks closed and `open` open. */
  lemma {:induction false} GreedyStep(
    done: seq<seq<Note>>, open: seq<Note>, n: Note, rest: seq<Note>, ceiling: int)
    ensures done + Greedy(open, [n] + rest, ceiling)
         == if |open| > 0 && Total(open) + Size(n) > ceiling then done + [open] + Greedy([n], rest, ceiling)
            else done + Greedy(open + [n], rest, ceiling)
  {
    assert ([n] + rest)[1..] == rest;
    assert done + [open] + Greedy([n], rest, ceiling) == done + ([open] + Greedy([n], rest, ceiling));
  }

  /** `chunkNotes`: for no notes it still returns one (empty) chunk. */
  method ChunkNotes(notes: seq<Note>, ceiling: int) returns (chunks: seq<seq<Note>>)
    ensures IsPartition(chunks, notes, ceiling)
    ensures notes == [] ==> chunks == [[]]
    ensures notes != [] ==> FewestChunks(chunks, notes, ceiling)
    ensures notes != [] ==> forall i :: 0 <= i < |chunks| ==> chunks[i] != []
  {
    chunks := [];
    var cur: seq<Note> := [];
    var curChars := 0;
    for i := 0 to |notes|
      invariant curChars == Total(cur)
      invariant i > 0 ==> cur != []
      invariant chunks + Greedy(cur, notes[i..], ceiling) == Greedy([], notes, ceiling)
    {
      var n := notes[i];
      var size := Size(n);
      ghost var done, open := chunks, cur;
      if |cur| > 0 && curChars + size > ceiling {
        chunks := chunks + [cur];
        cur := [];
        curChars := 0;
      }
      TotalConcat(cur, [n]);
      cur := cur + [n];
      curChars := curChars + size;
      GreedyStep(done, open, n, notes[i + 1..], ceiling);
      assert notes[i..] == [n] + notes[i + 1..] && [] + [n] == [n];
    }
    assert notes[|notes|..] == [];
    if |cur| > 0 {
      chunks := chunks + [cur];
    }
    WholeGreedy(notes, ceiling);
    if |chunks| == 0 {
      chunks := [[]];
      assert notes == [] && Flatten([[]]) == [] by { FlattenCons([], []); }
    }
  }
}
