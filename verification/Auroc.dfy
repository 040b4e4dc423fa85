/**
 Rank-based AUROC of an escalation gate (`auroc`).

 The code sorts the rows, gives tied rows their average rank and sums the ranks of the positive rows.
 The reference definition counts, over all (positive, negative) pairs, the pairs whose positive row is
 scored higher and half of the tied pairs. The method is proved equal to the reference, and order
 independence, range and the effect of negating the scores are proved of the reference.
 */
module Auroc {
  import opened Options

  /** A scored row; label 1 marks the positive class ("the answer is wrong"), any other label the negative. */
  datatype Row = Row(score: real, positive: bool)

  function Rows(scores: seq<real>, labels: seq<int>): seq<Row>
    requires |scores| == |labels|
  {
    seq(|scores|, i requires 0 <= i < |scores| => Row(scores[i], labels[i] == 1))
  }

  function Scores(rows: seq<Row>): seq<real> {
    if rows == [] then [] else [rows[0].score] + Scores(rows[1..])
  }

  /** The scores of one class, in row order. */
  function Class(rows: seq<Row>, positive: bool): seq<real> {
    if rows == [] then []
    else if rows[0].positive == positive then [rows[0].score] + Class(rows[1..], positive)
    else Class(rows[1..], positive)
  }

  function Positives(rows: seq<Row>): seq<real> { Class(rows, true) }

  function Negatives(rows: seq<Row>): seq<real> { Class(rows, false) }

  // ---------- the reference: counting pairs ----------

  function Below(a: real, ys: seq<real>): nat {
    if ys == [] then 0 else (if ys[0] < a then 1 else 0) + Below(a, ys[1..])
  }

  function Equal(a: real, ys: seq<real>): nat {
    if ys == [] then 0 else (if ys[0] == a then 1 else 0) + Equal(a, ys[1..])
  }

  /** Pairs (x, y) with x scored higher. */
  function Wins(xs: seq<real>, ys: seq<real>): nat {
    if xs == [] then 0 else Below(xs[0], ys) + Wins(xs[1..], ys)
  }

  /** Pairs (x, y) with equal scores. */
  function Ties(xs: seq<real>, ys: seq<real>): nat {
    if xs == [] then 0 else Equal(xs[0], ys) + Ties(xs[1..], ys)
  }

  /** Probability that a random positive row outranks a random negative one; None when a class is empty. */
  function Concordance(rows: seq<Row>): Option<real> {
    var ps, ns := Positives(rows), Negatives(rows);
    if ps == [] || ns == [] then None
    else Some(HalfTies(Wins(ps, ns), Ties(ps, ns)) / (|ps| * |ns|) as real)
  }

  function HalfTies(wins: nat, ties: nat): real {
    wins as real + ties as real / 2.0
  }

  // ---------- doubled credit: 2 for a win, 1 for a tie ----------

  function Credit(a: real, ys: seq<real>): nat {
    2 * Below(a, ys) + Equal(a, ys)
  }

  function PairCredit(xs: seq<real>, ys: seq<real>): nat {
    2 * Wins(xs, ys) + Ties(xs, ys)
  }

  lemma {:induction false} CreditConcat(a: real, xs: seq<real>, ys: seq<real>)
    ensures Below(a, xs + ys) == Below(a, xs) + Below(a, ys)
    ensures Equal(a, xs + ys) == Equal(a, xs) + Equal(a, ys)
  {
    if xs == [] {
      assert xs + ys == ys;
    } else {
      assert (xs + ys)[1..] == xs[1..] + ys;
      CreditConcat(a, xs[1..], ys);
    }
  }

  lemma {:induction false} PairConcat(xs: seq<real>, xs': seq<real>, ys: seq<real>)
    ensures Wins(xs + xs', ys) == Wins(xs, ys) + Wins(xs', ys)
    ensures Ties(xs + xs', ys) == Ties(xs, ys) + Ties(xs', ys)
  {
    if xs == [] {
      assert xs + xs' == xs';
    } else {
      assert (xs + xs')[1..] == xs[1..] + xs';
      PairConcat(xs[1..], xs', ys);
    }
  }

  /** The scores below `a`, by position. */
  function PositionsBelow(a: real, ys: seq<real>): set<nat> {
    set j: nat | j < |ys| && ys[j] < a
  }

  function PositionsLevel(a: real, ys: seq<real>): set<nat> {
    set j: nat | j < |ys| && ys[j] == a
  }

  lemma {:induction false} CountsPositions(a: real, ys: seq<real>)
    ensures Below(a, ys) == |PositionsBelow(a, ys)| && Equal(a, ys) == |PositionsLevel(a, ys)|
  {
    if ys != [] {
      var init, y := ys[..|ys| - 1], ys[|ys| - 1];
      assert ys == init + [y];
      CountsPositions(a, init);
      CreditConcat(a, init, [y]);
      OneScore(a, y);
      BelowSnoc(a, init, y);
      LevelSnoc(a, init, y);
    }
  }

  lemma {:induction false} OneScore(a: real, y: real)
    ensures Below(a, [y]) == (if y < a then 1 else 0) && Equal(a, [y]) == if y == a then 1 else 0
  {
    assert [y][1..] == [];
  }

  lemma {:induction false} BelowSnoc(a: real, ys: seq<real>, y: real)
    ensures |PositionsBelow(a, ys + [y])| == |PositionsBelow(a, ys)| + if y < a then 1 else 0
  {
    var was, now := PositionsBelow(a, ys), PositionsBelow(a, ys + [y]);
    forall j: nat ensures j in now <==> j in was || (j == |ys| && y < a) {
    }
    assert now == was + if y < a then {|ys|} else {};
  }

  lemma {:induction false} LevelSnoc(a: real, ys: seq<real>, y: real)
    ensures |PositionsLevel(a, ys + [y])| == |PositionsLevel(a, ys)| + if y == a then 1 else 0
  {
    var was, now := PositionsLevel(a, ys), PositionsLevel(a, ys + [y]);
    forall j: nat ensures j in now <==> j in was || (j == |ys| && y == a) {
    }
    assert now == was + if y == a then {|ys|} else {};
  }

  /** The pairs with the first score higher, by position; and those level. */
  function WinningPairs(xs: seq<real>, ys: seq<real>): set<(nat, nat)> {
    set i: nat, j: nat | i < |xs| && j < |ys| && ys[j] < xs[i] :: (i, j)
  }

  function TiedPairs(xs: seq<real>, ys: seq<real>): set<(nat, nat)> {
    set i: nat, j: nat | i < |xs| && j < |ys| && ys[j] == xs[i] :: (i, j)
  }

  function WithFirst(i: nat, js: set<nat>): set<(nat, nat)> {
    set j | j in js :: (i, j)
  }

  lemma {:induction false} WithFirstSize(i: nat, js: set<nat>)
    ensures |WithFirst(i, js)| == |js|
  {
    if js != {} {
      var j :| j in js;
      WithFirstSize(i, js - {j});
      assert WithFirst(i, js) == WithFirst(i, js - {j}) + {(i, j)};
    }
  }

  lemma {:induction false} PairsSnoc(init: seq<real>, x: real, ys: seq<real>)
    ensures WinningPairs(init + [x], ys) == WinningPairs(init, ys) + WithFirst(|init|, PositionsBelow(x, ys))
    ensures TiedPairs(init + [x], ys) == TiedPairs(init, ys) + WithFirst(|init|, PositionsLevel(x, ys))
  {
  }

  lemma {:induction false} SizesAdd(n: nat, a: set<(nat, nat)>, js: set<nat>)
    requires forall p :: p in a ==> p.0 < n
    ensures |a + WithFirst(n, js)| == |a| + |js|
  {
    WithFirstSize(n, js);
    assert a !! WithFirst(n, js);
  }

  lemma {:induction false} OneRow(x: real, ys: seq<real>)
    ensures Wins([x], ys) == Below(x, ys) && Ties([x], ys) == Equal(x, ys)
  {
    assert [x][1..] == [];
    assert Wins([x], ys) == Below(x, ys) + Wins([], ys) && Ties([x], ys) == Equal(x, ys) + Ties([], ys);
  }

  /** Wins and ties are the numbers of winning and tied pairs of positions. */
  lemma {:induction false} CountsPairs(xs: seq<real>, ys: seq<real>)
    ensures Wins(xs, ys) == |WinningPairs(xs, ys)| && Ties(xs, ys) == |TiedPairs(xs, ys)|
  {
    if xs == [] {
      assert WinningPairs(xs, ys) == {} && TiedPairs(xs, ys) == {};
    } else {
      var init, n := xs[..|xs| - 1], |xs| - 1;
      var x := xs[n];
      assert xs == init + [x];
      CountsPairs(init, ys);
      PairConcat(init, [x], ys);
      OneRow(x, ys);
      CountsPositions(x, ys);
      PairsSnoc(init, x, ys);
      SizesAdd(n, WinningPairs(init, ys), PositionsBelow(x, ys));
      SizesAdd(n, TiedPairs(init, ys), PositionsLevel(x, ys));
    }
  }

  lemma {:induction false} CreditSplit(a: real, rows: seq<Row>)
    ensures Credit(a, Scores(rows)) == Credit(a, Positives(rows)) + Credit(a, Negatives(rows))
  {
    if rows != [] {
      CreditSplit(a, rows[1..]);
      CreditConcat(a, [rows[0].score], Scores(rows[1..]));
      CreditConcat(a, [rows[0].score], Class(rows[1..], rows[0].positive));
    }
  }

  lemma {:induction false} PairSplit(xs: seq<real>, rows: seq<Row>)
    ensures PairCredit(xs, Scores(rows)) == PairCredit(xs, Positives(rows)) + PairCredit(xs, Negatives(rows))
  {
    if xs != [] {
      CreditSplit(xs[0], rows);
      PairSplit(xs[1..], rows);
    }
  }

  /** Adding one score on the right adds each left score's credit against it. */
  lemma {:induction false} PairConsRight(xs: seq<real>, y: real, ys: seq<real>)
    ensures PairCredit(xs, [y] + ys) + Credit(y, xs) == PairCredit(xs, ys) + 2 * |xs|
  {
    if xs != [] {
      PairConsRight(xs[1..], y, ys);
      assert ([y] + ys)[1..] == ys;
    }
  }

  /** Every pair hands out two credits in total. */
  lemma {:induction false} PairComplement(xs: seq<real>, ys: seq<real>)
    ensures PairCredit(xs, ys) + PairCredit(ys, xs) == 2 * (|xs| * |ys|)
  {
    if xs == [] {
      NoTargets(ys);
    } else {
      PairComplement(xs[1..], ys);
      PairConsRight(ys, xs[0], xs[1..]);
      assert [xs[0]] + xs[1..] == xs;
      assert |xs| * |ys| == |xs[1..]| * |ys| + |ys|;
    }
  }

  lemma {:induction false} NoTargets(xs: seq<real>)
    ensures PairCredit(xs, []) == 0
  {
    if xs != [] {
      NoTargets(xs[1..]);
    }
  }

  // ---------- order independence ----------

  /** The first element of one arrangement sits somewhere in the other; removing it leaves arrangements. */
  lemma {:induction false} MatchingIndex<T>(xs: seq<T>, ys: seq<T>) returns (k: nat)
    requires xs != [] && multiset(xs) == multiset(ys)
    ensures k < |ys| && ys == ys[..k] + [xs[0]] + ys[k + 1..]
    ensures multiset(xs[1..]) == multiset(ys[..k] + ys[k + 1..])
  {
    assert xs[0] in multiset(ys);
    k :| 0 <= k < |ys| && ys[k] == xs[0];
    assert ys == ys[..k] + [xs[0]] + ys[k + 1..];
    assert xs == [xs[0]] + xs[1..];
    assert multiset(ys[..k] + ys[k + 1..]) == multiset(ys) - multiset{xs[0]} by {
      assert multiset(ys) == multiset(ys[..k] + [xs[0]] + ys[k + 1..]);
    }
    assert multiset(xs[1..]) == multiset(xs) - multiset{xs[0]} by {
      assert multiset(xs) == multiset([xs[0]] + xs[1..]);
    }
  }

  lemma {:induction false} CreditPermuted(a: real, xs: seq<real>, ys: seq<real>)
    requires multiset(xs) == multiset(ys)
    ensures Below(a, xs) == Below(a, ys) && Equal(a, xs) == Equal(a, ys)
  {
    if xs == [] {
      assert |multiset(ys)| == |ys|;
    } else {
      var k := MatchingIndex(xs, ys);
      var l, r := ys[..k], ys[k + 1..];
      assert xs == [xs[0]] + xs[1..];
      CreditPermuted(a, xs[1..], l + r);
      CreditConcat(a, l, r);
      CreditConcat(a, l, [xs[0]]);
      CreditConcat(a, l + [xs[0]], r);
      CreditConcat(a, [xs[0]], xs[1..]);
    }
  }

  lemma {:induction false} PairPermuted(xs: seq<real>, xs': seq<real>, ys: seq<real>, ys': seq<real>)
    requires multiset(xs) == multiset(xs') && multiset(ys) == multiset(ys')
    ensures Wins(xs, ys) == Wins(xs', ys') && Ties(xs, ys) == Ties(xs', ys')
  {
    if xs == [] {
      assert |multiset(xs')| == |xs'|;
    } else {
      var k := MatchingIndex(xs, xs');
      var l, r := xs'[..k], xs'[k + 1..];
      PairPermuted(xs[1..], l + r, ys, ys');
      CreditPermuted(xs[0], ys, ys');
      PairConcat(l, r, ys');
      PairConcat(l, [xs[0]], ys');
      PairConcat(l + [xs[0]], r, ys');
    }
  }

  lemma {:induction false} ClassConcat(a: seq<Row>, b: seq<Row>, c: bool)
    ensures Class(a + b, c) == Class(a, c) + Class(b, c)
  {
    if a == [] {
      assert a + b == b;
    } else {
      assert (a + b)[1..] == a[1..] + b;
      ClassConcat(a[1..], b, c);
      assert [a[0].score] + (Class(a[1..], c) + Class(b, c)) == [a[0].score] + Class(a[1..], c) + Class(b, c);
    }
  }

  /** A score occurs in a class as often as its row occurs. */
  lemma {:induction false} ClassCount(rows: seq<Row>, c: bool, s: real)
    ensures multiset(Class(rows, c))[s] == multiset(rows)[Row(s, c)]
  {
    if rows != [] {
      ClassCount(rows[1..], c, s);
      assert rows == [rows[0]] + rows[1..];
    }
  }

  lemma {:induction false} ClassPermuted(rows: seq<Row>, rows': seq<Row>, c: bool)
    requires multiset(rows) == multiset(rows')
    ensures multiset(Class(rows, c)) == multiset(Class(rows', c))
    ensures |Class(rows, c)| == |Class(rows', c)|
  {
    var xs, ys := Class(rows, c), Class(rows', c);
    forall s
      ensures multiset(xs)[s] == multiset(ys)[s]
    {
      ClassCount(rows, c, s);
      ClassCount(rows', c, s);
    }
    SameSize(xs, ys);
  }

  lemma {:induction false} SameSize<T>(xs: seq<T>, ys: seq<T>)
    requires forall x :: multiset(xs)[x] == multiset(ys)[x]
    ensures multiset(xs) == multiset(ys) && |xs| == |ys|
  {
    assert multiset(xs) == multiset(ys);
    assert |multiset(xs)| == |xs| && |multiset(ys)| == |ys|;
  }

  lemma {:induction false} OrderDoesNotMatter(rows: seq<Row>, rows': seq<Row>)
    requires multiset(rows) == multiset(rows')
    ensures Concordance(rows) == Concordance(rows')
  {
    ClassPermuted(rows, rows', true);
    ClassPermuted(rows, rows', false);
    PairPermuted(Positives(rows), Positives(rows'), Negatives(rows), Negatives(rows'));
  }

  // ---------- range and negation ----------

  lemma {:induction false} ConcordanceInRange(rows: seq<Row>)
    requires Concordance(rows).Some?
    ensures 0.0 <= Concordance(rows).value <= 1.0
    ensures Concordance(rows).value == 1.0 <==>
            Wins(Positives(rows), Negatives(rows)) == |Positives(rows)| * |Negatives(rows)|
  {
    var ps, ns := Positives(rows), Negatives(rows);
    PairComplement(ps, ns);
    AtMostAllPairs(ps, ns);
    var w, t, m := Wins(ps, ns), Ties(ps, ns), |ps| * |ns|;
    assert m > 0;
    DivideInRange(w, t, m);
  }

  lemma {:induction false} AtMostAllPairs(xs: seq<real>, ys: seq<real>)
    ensures Wins(xs, ys) + Ties(xs, ys) <= |xs| * |ys|
  {
    if xs != [] {
      AtMostAll(xs[0], ys);
      AtMostAllPairs(xs[1..], ys);
      assert |xs| * |ys| == |xs[1..]| * |ys| + |ys|;
    }
  }

  lemma {:induction false} AtMostAll(a: real, ys: seq<real>)
    ensures Below(a, ys) + Equal(a, ys) <= |ys|
  {
    if ys != [] {
      AtMostAll(a, ys[1..]);
    }
  }

  lemma {:induction false} DivideInRange(w: nat, t: nat, m: nat)
    requires m > 0 && w + t <= m
    ensures 0.0 <= HalfTies(w, t) / m as real <= 1.0
    ensures HalfTies(w, t) / m as real == 1.0 <==> w == m
  {
    var x, y := HalfTies(w, t), m as real;
    QuotientSign(x, y);
    QuotientSign(y - x, y);
    Reflect(x, y - x, y);
  }

  lemma {:induction false} QuotientSign(x: real, m: real)
    requires x >= 0.0 && m > 0.0
    ensures x / m >= 0.0 && (x / m == 0.0 <==> x == 0.0)
  {
  }

  lemma {:induction false} Reflect(u: real, u': real, m: real)
    requires m > 0.0 && u + u' == m
    ensures u' / m == 1.0 - u / m
  {
    assert u / m + u' / m == (u + u') / m;
  }

  function Negated(rows: seq<Row>): seq<Row> {
    if rows == [] then [] else [Row(-rows[0].score, rows[0].positive)] + Negated(rows[1..])
  }

  function NegatedScores(xs: seq<real>): seq<real> {
    if xs == [] then [] else [-xs[0]] + NegatedScores(xs[1..])
  }

  lemma {:induction false} NegatedClass(rows: seq<Row>, c: bool)
    ensures Class(Negated(rows), c) == NegatedScores(Class(rows, c))
  {
    if rows != [] {
      NegatedClass(rows[1..], c);
      assert Negated(rows)[1..] == Negated(rows[1..]);
      if rows[0].positive == c {
        assert Class(rows, c)[1..] == Class(rows[1..], c);
      }
    }
  }

  lemma {:induction false} NegatedCredit(a: real, ys: seq<real>)
    ensures Credit(-a, NegatedScores(ys)) + Credit(a, ys) == 2 * |ys|
    ensures |NegatedScores(ys)| == |ys|
  {
    if ys != [] {
      NegatedCredit(a, ys[1..]);
      assert NegatedScores(ys)[1..] == NegatedScores(ys[1..]);
    }
  }

  lemma {:induction false} NegatedPairs(xs: seq<real>, ys: seq<real>)
    ensures PairCredit(NegatedScores(xs), NegatedScores(ys)) + PairCredit(xs, ys) == 2 * (|xs| * |ys|)
    ensures |NegatedScores(xs)| == |xs|
  {
    if xs != [] {
      NegatedPairs(xs[1..], ys);
      NegatedCredit(xs[0], ys);
      assert NegatedScores(xs)[1..] == NegatedScores(xs[1..]);
      assert |xs| * |ys| == |xs[1..]| * |ys| + |ys|;
    }
  }

  lemma {:induction false} NegatingReflects(rows: seq<Row>)
    ensures Concordance(Negated(rows)).Some? <==> Concordance(rows).Some?
    ensures Concordance(rows).Some? ==> Concordance(Negated(rows)).value == 1.0 - Concordance(rows).value
  {
    var ps, ns := Positives(rows), Negatives(rows);
    NegatedClass(rows, true);
    NegatedClass(rows, false);
    NegatedPairs(ps, ns);
    NegatedCredit(0.0, ns);
    var ps', ns' := NegatedScores(ps), NegatedScores(ns);
    assert |ps'| * |ns'| == |ps| * |ns|;
    if ps != [] && ns != [] {
      var m := (|ps| * |ns|) as real;
      assert |ps| * |ns| > 0;
      Reflect(HalfTies(Wins(ps, ns), Ties(ps, ns)), HalfTies(Wins(ps', ns'), Ties(ps', ns')), m);
    }
  }

  // ---------- the code: sort, rank ties, sum the positive ranks ----------

  predicate Sorted(rows: seq<Row>) {
    forall i :: 0 < i < |rows| ==> rows[i - 1].score <= rows[i].score
  }

  lemma {:induction false} SortedPair(rows: seq<Row>, i: nat, j: nat)
    requires Sorted(rows) && i <= j < |rows|
    ensures rows[i].score <= rows[j].score
    decreases j
  {
    if i < j {
      SortedPair(rows, i, j - 1);
    }
  }

  lemma {:induction false} InsertKeepsSorted(rows: seq<Row>, p: nat, x: Row)
    requires Sorted(rows) && p <= |rows|
    requires p > 0 ==> rows[p - 1].score <= x.score
    requires p < |rows| ==> x.score <= rows[p].score
    ensures Sorted(rows[..p] + [x] + rows[p..])
  {
  }

  lemma {:induction false} InsertPermutes(rows: seq<Row>, p: nat, x: Row)
    requires p <= |rows|
    ensures multiset(rows[..p] + [x] + rows[p..]) == multiset(rows) + multiset{x}
  {
    assert rows == rows[..p] + rows[p..];
  }

  method InsertByScore(sorted: seq<Row>, x: Row) returns (r: seq<Row>)
    requires Sorted(sorted)
    ensures Sorted(r) && multiset(r) == multiset(sorted) + multiset{x}
  {
    var p := |sorted|;
    while p > 0 && x.score < sorted[p - 1].score
      invariant 0 <= p <= |sorted|
      invariant p < |sorted| ==> x.score <= sorted[p].score
    {
      p := p - 1;
    }
    InsertKeepsSorted(sorted, p, x);
    InsertPermutes(sorted, p, x);
    r := sorted[..p] + [x] + sorted[p..];
  }

  /** The library sort by score: sorted, and a permutation of its input. */
  method SortByScore(rows: seq<Row>) returns (sorted: seq<Row>)
    ensures Sorted(sorted) && multiset(sorted) == multiset(rows)
  {
    sorted := [];
    for k := 0 to |rows|
      invariant Sorted(sorted) && multiset(sorted) == multiset(rows[..k])
    {
      sorted := InsertByScore(sorted, rows[k]);
      assert rows[..k + 1] == rows[..k] + [rows[k]];
    }
    assert rows[..|rows|] == rows;
  }

  lemma {:induction false} ScoresAre(rows: seq<Row>)
    ensures |Scores(rows)| == |rows|
    ensures forall i :: 0 <= i < |rows| ==> Scores(rows)[i] == rows[i].score
  {
    if rows != [] {
      ScoresAre(rows[1..]);
    }
  }

  /** Scores that all compare alike with `a` earn `a` the same credit each. */
  lemma {:induction false} UniformCredit(a: real, ys: seq<real>, each: nat)
    requires forall i :: 0 <= i < |ys| ==> each == if ys[i] < a then 2 else if ys[i] == a then 1 else 0
    ensures Credit(a, ys) == each * |ys|
  {
    if ys != [] {
      UniformCredit(a, ys[1..], each);
      assert each * |ys| == each * |ys[1..]| + each;
    }
  }

  lemma {:induction false} CreditOfBlocks(a: real, lo: seq<real>, mid: seq<real>, hi: seq<real>)
    requires forall i :: 0 <= i < |lo| ==> lo[i] < a
    requires forall i :: 0 <= i < |mid| ==> mid[i] == a
    requires forall i :: 0 <= i < |hi| ==> hi[i] > a
    ensures Credit(a, lo + mid + hi) == 2 * |lo| + |mid|
  {
    UniformCredit(a, lo, 2);
    UniformCredit(a, mid, 1);
    UniformCredit(a, hi, 0);
    CreditConcat(a, lo, mid);
    CreditConcat(a, lo + mid, hi);
  }

  /** The average rank of a tie group is fixed by how many scores are below and level. */
  lemma {:induction false} TieGroupCredit(ys: seq<real>, i: nat, j: nat, a: real)
    requires i <= j < |ys|
    requires forall m :: 0 <= m < i ==> ys[m] < a
    requires forall m :: i <= m <= j ==> ys[m] == a
    requires forall m :: j < m < |ys| ==> ys[m] > a
    ensures Credit(a, ys) == i + j + 1
  {
    SplitInThree(ys, i, j + 1);
    CreditOfBlocks(a, ys[..i], ys[i..j + 1], ys[j + 1..]);
  }

  lemma {:induction false} SortedTieGroup(rows: seq<Row>, ys: seq<real>, i: nat, j: nat)
    requires |ys| == |rows| && forall m :: 0 <= m < |rows| ==> ys[m] == rows[m].score
    requires Sorted(rows) && i <= j < |rows| && rows[i].score == rows[j].score
    requires i > 0 ==> rows[i - 1].score < rows[i].score
    requires j + 1 < |rows| ==> rows[j].score < rows[j + 1].score
    ensures Credit(rows[i].score, ys) == i + j + 1
    ensures forall m :: i <= m <= j ==> rows[m].score == rows[i].score
  {
    forall m | 0 <= m < i ensures rows[m].score < rows[i].score { SortedPair(rows, m, i - 1); }
    forall m | i <= m <= j ensures rows[m].score == rows[i].score {
      SortedPair(rows, i, m);
      SortedPair(rows, m, j);
    }
    forall m | j < m < |rows| ensures rows[m].score > rows[i].score { SortedPair(rows, j + 1, m); }
    TieGroupCredit(ys, i, j, rows[i].score);
  }

  lemma {:induction false} SplitInThree<T>(s: seq<T>, i: nat, j: nat)
    requires i <= j <= |s|
    ensures s == s[..i] + s[i..j] + s[j..]
  {
  }

  /** Each rank, doubled, is one more than the row's credit against all rows. */
  ghost predicate RanksUpTo(ranks: seq<real>, rows: seq<Row>, n: nat) {
    && n <= |ranks| && |ranks| == |rows|
    && forall k :: 0 <= k < n ==> 2.0 * ranks[k] == (Credit(rows[k].score, Scores(rows)) + 1) as real
  }

  /** The last index of the tie group that starts at `i`. */
  method TieGroupEnd(rows: seq<Row>, i: nat) returns (j: nat)
    requires Sorted(rows) && i < |rows|
    ensures i <= j < |rows| && rows[j].score == rows[i].score
    ensures j + 1 < |rows| ==> rows[j].score < rows[j + 1].score
  {
    j := i;
    while j < |rows| - 1 && rows[j + 1].score == rows[i].score
      invariant i <= j < |rows| && rows[j].score == rows[i].score
    {
      j := j + 1;
    }
    assert j + 1 < |rows| ==> rows[(j + 1) - 1].score <= rows[j + 1].score;
  }

  /** A tie group filled with its average rank extends the ranks done. */
  lemma {:induction false} RanksExtend(before: seq<real>, now: seq<real>, rows: seq<Row>, i: nat, j: nat, avg: real)
    requires i <= j < |rows| && RanksUpTo(before, rows, i) && |now| == |rows|
    requires now[..i] == before[..i] && forall m :: i <= m <= j ==> now[m] == avg
    requires forall m :: i <= m <= j ==> rows[m].score == rows[i].score
    requires Credit(rows[i].score, Scores(rows)) == i + j + 1 && 2.0 * avg == (i + j + 2) as real
    ensures RanksUpTo(now, rows, j + 1)
  {
    forall k | 0 <= k < j + 1 ensures 2.0 * now[k] == (Credit(rows[k].score, Scores(rows)) + 1) as real {
      if k < i {
        assert now[k] == now[..i][k] == before[..i][k] == before[k];
      }
    }
  }

  method AverageRanks(rows: seq<Row>) returns (ranks: array<real>)
    requires Sorted(rows)
    ensures fresh(ranks)
    ensures RanksUpTo(ranks[..], rows, |rows|)
  {
    ranks := new real[|rows|];
    var i := 0;
    while i < |rows|
      invariant 0 <= i <= |rows|
      invariant 0 < i < |rows| ==> rows[i - 1].score < rows[i].score
      invariant RanksUpTo(ranks[..], rows, i)
    {
      var j := TieGroupEnd(rows, i);
      ScoresAre(rows);
      SortedTieGroup(rows, Scores(rows), i, j);
      var avg := (i + j) as real / 2.0 + 1.0;
      ghost var before := ranks[..];
      for k := i to j + 1
        invariant ranks[..i] == before[..i]
        invariant forall m :: i <= m < k ==> ranks[m] == avg
      {
        ranks[k] := avg;
      }
      RanksExtend(before, ranks[..], rows, i, j, avg);
      i := j + 1;
    }
  }

  /** The Mann-Whitney formula the code ends with. */
  function FromRankSum(sumPos: real, nPos: nat, nNeg: nat): real
    requires nPos > 0 && nNeg > 0
  {
    (sumPos - (nPos * (nPos + 1)) as real / 2.0) / (nPos * nNeg) as real
  }

  lemma {:induction false} RankSumIsConcordance(rows: seq<Row>, sumPos: real)
    requires Positives(rows) != [] && Negatives(rows) != []
    requires 2.0 * sumPos == (PairCredit(Positives(rows), Scores(rows)) + |Positives(rows)|) as real
    ensures Some(FromRankSum(sumPos, |Positives(rows)|, |Negatives(rows)|)) == Concordance(rows)
  {
    var ps, ns := Positives(rows), Negatives(rows);
    PairSplit(ps, rows);
    PairComplement(ps, ps);
    assert |ps| * (|ps| + 1) == |ps| * |ps| + |ps|;
    assert sumPos - (|ps| * (|ps| + 1)) as real / 2.0 == HalfTies(Wins(ps, ns), Ties(ps, ns));
  }

  method SumPositiveRanks(rows: seq<Row>) returns (sumPos: real)
    requires Sorted(rows)
    ensures 2.0 * sumPos == (PairCredit(Positives(rows), Scores(rows)) + |Positives(rows)|) as real
  {
    var ranks := AverageRanks(rows);
    sumPos := 0.0;
    for k := 0 to |rows|
      invariant RanksUpTo(ranks[..], rows, |rows|)
      invariant 2.0 * sumPos == (PairCredit(Positives(rows[..k]), Scores(rows)) + |Positives(rows[..k])|) as real
    {
      assert rows[..k + 1] == rows[..k] + [rows[k]];
      ClassConcat(rows[..k], [rows[k]], true);
      if rows[k].positive {
        assert Positives([rows[k]]) == [rows[k].score];
        OneRow(rows[k].score, Scores(rows));
        PairConcat(Positives(rows[..k]), [rows[k].score], Scores(rows));
        assert 2.0 * ranks[..][k] == (Credit(rows[k].score, Scores(rows)) + 1) as real;
        sumPos := sumPos + ranks[k];
      } else {
        assert Positives(rows[..k]) + [] == Positives(rows[..k]);
      }
    }
    assert rows[..|rows|] == rows;
  }

  method RankAuroc(scores: seq<real>, labels: seq<int>) returns (r: Option<real>)
    requires |scores| == |labels|
    ensures r == Concordance(Rows(scores, labels))
  {
    var input := Rows(scores, labels);
    var nPos := |Positives(input)|;
    var nNeg := |labels| - nPos;
    ClassSizes(input);
    if nPos == 0 || nNeg == 0 {
      return None;
    }
    var rows := SortByScore(input);
    OrderDoesNotMatter(rows, input);
    ClassPermuted(rows, input, true);
    ClassPermuted(rows, input, false);
    var sumPos := SumPositiveRanks(rows);
    RankSumIsConcordance(rows, sumPos);
    r := Some(FromRankSum(sumPos, nPos, nNeg));
  }

  lemma {:induction false} ClassSizes(rows: seq<Row>)
    ensures |Positives(rows)| + |Negatives(rows)| == |rows|
  {
    if rows != [] {
      ClassSizes(rows[1..]);
    }
  }
}
