/**
 The evidence-harvesting protocol (`loadHarvestPolicyState`, `selectRowsForRun`, `planRowAction`, the row loop
 and the supersede-then-import write phase of `main`, with the ledger operations they call).

 The judge and the sampling loader are inputs: every run may grade any subset of its rows in any way, and
 may crash before, between or after its two ledger transactions. The safety results hold over every
 sequence of such runs, under policy versions that change from run to run.
 */
module Harvest {
  import opened Options

  // ---------- the ledger ----------

  /**
   The content of a ledger row. It is the row's primary key: the ledger derives the row id from a hash of
   it. `source` is the request id parsed from the notes, if any; `policy` the grading-policy stamp.
   */
  datatype Verdict = Verdict(tag: string, source: Option<nat>, policy: Option<string>, payload: string)

  datatype Row = Row(verdict: Verdict, live: bool)

  predicate Has(rows: seq<Row>, v: Verdict) {
    exists i :: 0 <= i < |rows| && rows[i].verdict == v
  }

  predicate Hit(r: Row, tag: string, ids: set<nat>) {
    r.live && r.verdict.tag == tag && r.verdict.source.Some? && r.verdict.source.value in ids
  }

  /** Marks every live verdict of the given requests as superseded. */
  function SupersedeRows(rows: seq<Row>, tag: string, ids: set<nat>): seq<Row> {
    seq(|rows|, i requires 0 <= i < |rows| => if Hit(rows[i], tag, ids) then Row(rows[i].verdict, false) else rows[i])
  }

  /** Insert-or-ignore, in order. */
  function ImportRows(rows: seq<Row>, records: seq<Verdict>): seq<Row>
    decreases |records|
  {
    if records == [] then rows
    else ImportRows(if Has(rows, records[0]) then rows else rows + [Row(records[0], true)], records[1..])
  }

  class Ledger {
    var rows: seq<Row>

    constructor ()
      ensures rows == []
    {
      rows := [];
    }

    method Supersede(tag: string, ids: set<nat>)
      modifies this
      ensures rows == SupersedeRows(old(rows), tag, ids)
    {
      var out: seq<Row> := [];
      for i := 0 to |rows|
        invariant rows == old(rows)
        invariant out == SupersedeRows(rows, tag, ids)[..i]
      {
        out := out + [if Hit(rows[i], tag, ids) then Row(rows[i].verdict, false) else rows[i]];
      }
      rows := out;
    }

    method Import(records: seq<Verdict>)
      modifies this
      ensures rows == ImportRows(old(rows), records)
    {
      for i := 0 to |records|
        invariant ImportRows(rows, records[i..]) == ImportRows(old(rows), records)
      {
        assert records[i..][0] == records[i] && records[i..][1..] == records[i + 1..];
        if !Has(rows, records[i]) {
          rows := rows + [Row(records[i], true)];
        }
      }
    }
  }

  // ---------- policy epochs ----------

  function UpToBar(s: string): string {
    if s == "" || s[0] == '|' then "" else [s[0]] + UpToBar(s[1..])
  }

  /** The version part of a stamp; unstamped rows belong to no version. */
  function PolicyVersionOf(stamp: Option<string>): Option<string> {
    if stamp.None? || stamp.value == "" then None else Some(UpToBar(stamp.value))
  }

  predicate IsCurrentPolicy(stamp: Option<string>, version: string) {
    PolicyVersionOf(stamp) == Some(version)
  }

  function Stamp(version: string, context: string): string {
    version + "|ctx=" + context
  }

  lemma {:induction false} StampIsCurrent(version: string, context: string)
    requires '|' !in version
    ensures IsCurrentPolicy(Some(Stamp(version, context)), version)
  {
    if version == "" {
      assert Stamp(version, context)[0] == '|';
    } else {
      assert Stamp(version, context)[1..] == Stamp(version[1..], context);
      StampIsCurrent(version[1..], context);
      assert version == [version[0]] + version[1..];
    }
  }

  lemma {:induction false} UpToBarIs(s: string, version: string)
    ensures UpToBar(s) == version <==> '|' !in version && (s == version || version + "|" <= s)
  {
    if s == "" || s[0] == '|' {
      assert s != "" ==> "" + "|" <= s;
    } else if version != "" && version[0] == s[0] {
      UpToBarIs(s[1..], version[1..]);
      assert s == [s[0]] + s[1..] && version == [version[0]] + version[1..];
      assert version + "|" == [version[0]] + (version[1..] + "|");
      PrefixCons(s[0], version[1..] + "|", s[1..]);
    } else if version == "" {
      assert version + "|" == "|";
    } else {
      assert (version + "|")[0] == version[0];
    }
  }

  lemma {:induction false} PrefixCons(c: char, a: string, b: string)
    ensures [c] + a <= [c] + b <==> a <= b
  {
    if [c] + a <= [c] + b {
      assert a == ([c] + a)[1..] && b[..|a|] == ([c] + b)[1..|a| + 1];
    }
  }

  /** A stamp is of a version exactly when it is that version alone or that version, a bar and settings. */
  lemma {:induction false} CurrentPolicyExact(stamp: Option<string>, version: string)
    ensures IsCurrentPolicy(stamp, version) <==>
              (stamp.Some? && stamp.value != "" && '|' !in version
               && (stamp.value == version || version + "|" <= stamp.value))
  {
    if stamp.Some? {
      UpToBarIs(stamp.value, version);
    }
  }

  // ---------- loading the policy state ----------

  predicate LiveFor(r: Row, tag: string, id: nat) {
    r.live && r.verdict.tag == tag && r.verdict.source == Some(id)
  }

  /** The request has a live verdict under this tag. */
  ghost predicate IsLive(rows: seq<Row>, tag: string, id: nat) {
    exists i :: 0 <= i < |rows| && LiveFor(rows[i], tag, id)
  }

  /** The request has a live verdict of the current policy. */
  ghost predicate IsCurrent(rows: seq<Row>, tag: string, version: string, id: nat) {
    exists i :: 0 <= i < |rows| && LiveFor(rows[i], tag, id) && IsCurrentPolicy(rows[i].verdict.policy, version)
  }

  datatype PolicyState = PolicyState(current: set<nat>, stale: set<nat>)

  ghost predicate Describes(st: PolicyState, rows: seq<Row>, tag: string, version: string) {
    && (forall id :: id in st.current <==> IsCurrent(rows, tag, version, id))
    && (forall id :: id in st.stale <==> IsLive(rows, tag, id) && !IsCurrent(rows, tag, version, id))
  }

  lemma {:induction false} PrefixStep(rows: seq<Row>, k: nat, tag: string, version: string)
    requires k < |rows|
    ensures forall id :: IsLive(rows[..k + 1], tag, id) <==> IsLive(rows[..k], tag, id) || LiveFor(rows[k], tag, id)
    ensures forall id :: IsCurrent(rows[..k + 1], tag, version, id) <==>
              (IsCurrent(rows[..k], tag, version, id)
               || (LiveFor(rows[k], tag, id) && IsCurrentPolicy(rows[k].verdict.policy, version)))
  {
    var a, b := rows[..k], rows[..k + 1];
    assert b[k] == rows[k] && forall i :: 0 <= i < k ==> b[i] == a[i];
    forall id
      ensures IsLive(b, tag, id) <==> IsLive(a, tag, id) || LiveFor(rows[k], tag, id)
      ensures IsCurrent(b, tag, version, id) <==>
                (IsCurrent(a, tag, version, id)
                 || (LiveFor(rows[k], tag, id) && IsCurrentPolicy(rows[k].verdict.policy, version)))
    {
    }
  }

  /** Whatever the order of the rows, current wins over any older live row of the same request. */
  method LoadPolicyState(rows: seq<Row>, tag: string, version: string) returns (st: PolicyState)
    ensures Describes(st, rows, tag, version)
  {
    var current: set<nat>, stale: set<nat> := {}, {};
    for k := 0 to |rows|
      invariant Describes(PolicyState(current, stale), rows[..k], tag, version)
    {
      PrefixStep(rows, k, tag, version);
      var v := rows[k].verdict;
      if v.tag == tag && rows[k].live && v.source.Some? {
        var id := v.source.value;
        if IsCurrentPolicy(v.policy, version) {
          current := current + {id};
          stale := stale - {id};
        } else if id !in current {
          stale := stale + {id};
        }
      }
    }
    assert rows[..|rows|] == rows;
    st := PolicyState(current, stale);
  }

  lemma {:induction false} StateIsUnique(
    st: PolicyState, st': PolicyState, rows: seq<Row>, tag: string, version: string)
    requires Describes(st, rows, tag, version) && Describes(st', rows, tag, version)
    ensures st == st'
  {
    assert forall id :: id in st.current <==> id in st'.current;
    assert forall id :: id in st.stale <==> id in st'.stale;
  }

  // ---------- one run ----------

  /** What the judge makes of a row: a verdict and the context budget stamped on it. */
  datatype Grade = Grade(payload: string, context: string)

  /**
   A sampled request. `grade` is None when the judge errs, its output does not parse or the input is too
   large; `writeVerdict` is false when the task type is excluded in this mode.
   */
  datatype Sample = Sample(id: nat, selfGrade: bool, writeVerdict: bool, grade: Option<Grade>)

  datatype Crash = BeforeSupersede | BetweenWrites | NoCrash

  datatype Run = Run(
    tag: string, version: string, rejudge: bool, dryRun: bool, n: nat, pool: seq<Sample>, crash: Crash)

  datatype RowAction =
    SkipCurrent | SkipStalePolicy | SkipExcludedType | RetireExcludedType | GradeNew | GradeRejudge

  function PlanRowAction(inCurrent: bool, inStale: bool, rejudge: bool, writeVerdict: bool): RowAction {
    if inCurrent then SkipCurrent
    else if inStale && !rejudge then SkipStalePolicy
    else if !writeVerdict then (if inStale && rejudge then RetireExcludedType else SkipExcludedType)
    else if inStale && rejudge then GradeRejudge
    else GradeNew
  }

  function ActionFor(s: Sample, st: PolicyState, run: Run): RowAction {
    PlanRowAction(s.id in st.current, s.id in st.stale, run.rejudge, s.writeVerdict)
  }

  function Filter(samples: seq<Sample>, p: Sample -> bool): seq<Sample> {
    if samples == [] then []
    else if p(samples[0]) then [samples[0]] + Filter(samples[1..], p)
    else Filter(samples[1..], p)
  }

  function Outside(current: set<nat>): Sample -> bool {
    (s: Sample) => s.id !in current
  }

  function NotCurrent(samples: seq<Sample>, current: set<nat>): seq<Sample> {
    Filter(samples, Outside(current))
  }

  function Take<T>(s: seq<T>, n: nat): seq<T> {
    if |s| <= n then s else s[..n]
  }

  function SelectRows(run: Run, current: set<nat>): seq<Sample> {
    if !run.rejudge then run.pool else Take(NotCurrent(run.pool, current), run.n)
  }

  /** The row is graded and yields a record. */
  predicate Records(s: Sample, st: PolicyState, run: Run) {
    var a := ActionFor(s, st, run);
    !s.selfGrade && (a.GradeNew? || a.GradeRejudge?) && s.grade.Some?
  }

  /** The row's old verdicts are to be superseded, with or without a replacement. */
  predicate Supersedes(s: Sample, st: PolicyState, run: Run) {
    var a := ActionFor(s, st, run);
    !s.selfGrade && (a.RetireExcludedType? || (a.GradeRejudge? && s.grade.Some?))
  }

  function RecordOf(s: Sample, run: Run): Verdict
    requires s.grade.Some?
  {
    Verdict(run.tag, Some(s.id), Some(Stamp(run.version, s.grade.value.context)), s.grade.value.payload)
  }

  function Recording(st: PolicyState, run: Run): Sample -> bool {
    (s: Sample) => Records(s, st, run)
  }

  /** The samples that yield records, in order. */
  function Recorded(samples: seq<Sample>, st: PolicyState, run: Run): (r: seq<Sample>)
    ensures forall k :: 0 <= k < |r| ==> r[k].grade.Some?
  {
    FilterIs(samples, Recording(st, run));
    var r := Filter(samples, Recording(st, run));
    assert forall k :: 0 <= k < |r| ==> r[k] in r;
    r
  }

  function RecordsOf(samples: seq<Sample>, run: Run): seq<Verdict>
    requires forall k :: 0 <= k < |samples| ==> samples[k].grade.Some?
  {
    seq(|samples|, k requires 0 <= k < |samples| => RecordOf(samples[k], run))
  }

  function SupersededIds(samples: seq<Sample>, st: PolicyState, run: Run): set<nat> {
    set s | s in samples && Supersedes(s, st, run) :: s.id
  }

  /** The policy state the run sees; a plain dry run bypasses it. */
  ghost predicate Sees(st: PolicyState, rows: seq<Row>, run: Run) {
    if run.dryRun && !run.rejudge then st == PolicyState({}, {}) else Describes(st, rows, run.tag, run.version)
  }

  /** The ledger after the run, given the state it saw. */
  function After(rows: seq<Row>, st: PolicyState, run: Run): seq<Row> {
    var selected := SelectRows(run, st.current);
    if run.dryRun || run.crash.BeforeSupersede? then rows
    else
      var superseded := SupersedeRows(rows, run.tag, SupersededIds(selected, st, run));
      if run.crash.BetweenWrites? then superseded
      else ImportRows(superseded, RecordsOf(Recorded(selected, st, run), run))
  }

  /** The row loop: what to import and what to supersede. */
  method GradeRows(rows: seq<Sample>, st: PolicyState, run: Run)
    returns (records: seq<Verdict>, toSupersede: set<nat>)
    ensures records == RecordsOf(Recorded(rows, st, run), run)
    ensures toSupersede == SupersededIds(rows, st, run)
  {
    records := [];
    var rejudgedIds: set<nat>, retiredIds: set<nat> := {}, {};
    ghost var recorded: seq<Sample> := [];
    for i := 0 to |rows|
      invariant forall k :: 0 <= k < |recorded| ==> recorded[k].grade.Some?
      invariant records == RecordsOf(recorded, run)
      invariant recorded + Recorded(rows[i..], st, run) == Recorded(rows, st, run)
      invariant rejudgedIds + retiredIds == SupersededIds(rows[..i], st, run)
    {
      var r := rows[i];
      assert rows[i..][0] == r && rows[i..][1..] == rows[i + 1..];
      assert rows[..i + 1] == rows[..i] + [r];
      SupersededStep(rows[..i], r, st, run);
      ghost var later := Recorded(rows[i + 1..], st, run);
      if !r.selfGrade {
        var action := ActionFor(r, st, run);
        if action.RetireExcludedType? {
          retiredIds := retiredIds + {r.id};
        } else if (action.GradeNew? || action.GradeRejudge?) && r.grade.Some? {
          records := records + [RecordOf(r, run)];
          assert recorded + ([r] + later) == (recorded + [r]) + later;
          recorded := recorded + [r];
          if action.GradeRejudge? {
            rejudgedIds := rejudgedIds + {r.id};
          }
        }
      }
    }
    assert rows[..|rows|] == rows && rows[|rows|..] == [] && recorded + [] == recorded;
    toSupersede := rejudgedIds + retiredIds;
  }

  /** One run: load the policy state, select, grade, supersede, import. */
  method HarvestRun(ledger: Ledger, run: Run) returns (ghost st: PolicyState)
    modifies ledger
    ensures Sees(st, old(ledger.rows), run)
    ensures ledger.rows == After(old(ledger.rows), st, run)
  {
    var policyState := PolicyState({}, {});
    if !(run.dryRun && !run.rejudge) {
      policyState := LoadPolicyState(ledger.rows, run.tag, run.version);
    }
    st := policyState;
    var rows := SelectRows(run, policyState.current);
    var records, toSupersede := GradeRows(rows, policyState, run);
    if !run.dryRun && !run.crash.BeforeSupersede? {
      ledger.Supersede(run.tag, toSupersede);
      if !run.crash.BetweenWrites? {
        ledger.Import(records);
      }
    }
  }

  lemma {:induction false} SupersededStep(done: seq<Sample>, s: Sample, st: PolicyState, run: Run)
    ensures SupersededIds(done + [s], st, run)
         == SupersededIds(done, st, run) + (if Supersedes(s, st, run) then {s.id} else {})
  {
    assert forall x :: x in done + [s] <==> x in done || x == s;
  }

  // ---------- safety: one live verdict per request and tag ----------

  ghost predicate OneLive(rows: seq<Row>) {
    forall i, j, id :: 0 <= i < j < |rows| && LiveFor(rows[i], rows[i].verdict.tag, id)
      ==> !LiveFor(rows[j], rows[i].verdict.tag, id)
  }

  /** The loader lists each request once. */
  predicate DistinctIds(samples: seq<Sample>) {
    forall i, j :: 0 <= i < j < |samples| ==> samples[i].id != samples[j].id
  }

  lemma {:induction false} SupersedeFrees(rows: seq<Row>, tag: string, ids: set<nat>, id: nat)
    requires id in ids
    ensures !IsLive(SupersedeRows(rows, tag, ids), tag, id)
  {
  }

  lemma {:induction false} SupersedeKeepsFree(rows: seq<Row>, tag: string, ids: set<nat>, id: nat)
    requires !IsLive(rows, tag, id)
    ensures !IsLive(SupersedeRows(rows, tag, ids), tag, id)
  {
    var rows' := SupersedeRows(rows, tag, ids);
    assert forall i :: 0 <= i < |rows| && LiveFor(rows'[i], tag, id) ==> LiveFor(rows[i], tag, id);
  }

  lemma {:induction false} SupersedeKeepsOneLive(rows: seq<Row>, tag: string, ids: set<nat>)
    requires OneLive(rows)
    ensures OneLive(SupersedeRows(rows, tag, ids))
  {
    var rows' := SupersedeRows(rows, tag, ids);
    assert forall i :: 0 <= i < |rows| ==> rows'[i].verdict == rows[i].verdict && (rows'[i].live ==> rows[i].live);
  }

  /** Records for distinct requests, none of which has a live verdict. */
  ghost predicate Importable(rows: seq<Row>, records: seq<Verdict>) {
    && (forall k :: 0 <= k < |records| ==> records[k].source.Some?)
    && (forall k :: 0 <= k < |records| ==> !IsLive(rows, records[k].tag, records[k].source.value))
    && (forall k, m :: 0 <= k < m < |records| ==> records[k].source != records[m].source)
  }

  lemma {:induction false} AppendKeepsOneLive(rows: seq<Row>, v: Verdict)
    requires OneLive(rows) && v.source.Some? && !IsLive(rows, v.tag, v.source.value)
    ensures OneLive(rows + [Row(v, true)])
  {
    var rows' := rows + [Row(v, true)];
    forall i, j, id | 0 <= i < j < |rows'| && LiveFor(rows'[i], rows'[i].verdict.tag, id)
      ensures !LiveFor(rows'[j], rows'[i].verdict.tag, id)
    {
      assert rows'[i] == rows[i];
      assert j < |rows| ==> rows'[j] == rows[j];
    }
  }

  lemma {:induction false} AppendKeepsImportable(rows: seq<Row>, records: seq<Verdict>)
    requires records != [] && Importable(rows, records)
    ensures Importable(rows + [Row(records[0], true)], records[1..])
    ensures Importable(rows, records[1..])
  {
    var rows', rest := rows + [Row(records[0], true)], records[1..];
    forall k | 0 <= k < |rest|
      ensures rest[k].source.Some? && !IsLive(rows', rest[k].tag, rest[k].source.value)
            && !IsLive(rows, rest[k].tag, rest[k].source.value)
    {
      assert rest[k] == records[k + 1];
      forall i | 0 <= i < |rows'| ensures !LiveFor(rows'[i], rest[k].tag, rest[k].source.value) {
        assert i < |rows| ==> rows'[i] == rows[i];
      }
    }
  }

  lemma {:induction false} ImportKeepsOneLive(rows: seq<Row>, records: seq<Verdict>)
    requires OneLive(rows) && Importable(rows, records)
    ensures OneLive(ImportRows(rows, records))
    decreases |records|
  {
    if records != [] {
      AppendKeepsImportable(rows, records);
      if Has(rows, records[0]) {
        ImportKeepsOneLive(rows, records[1..]);
      } else {
        AppendKeepsOneLive(rows, records[0]);
        ImportKeepsOneLive(rows + [Row(records[0], true)], records[1..]);
      }
    }
  }

  lemma {:induction false} FilterIs(samples: seq<Sample>, p: Sample -> bool)
    ensures forall s :: s in Filter(samples, p) <==> s in samples && p(s)
    ensures DistinctIds(samples) ==> DistinctIds(Filter(samples, p))
  {
    if samples != [] {
      var s, tail, rest := samples[0], samples[1..], Filter(samples[1..], p);
      FilterIs(tail, p);
      assert samples == [s] + tail;
      if DistinctIds(samples) {
        forall k | 0 <= k < |rest| ensures rest[k].id != s.id {
          assert rest[k] in tail;
          var j :| 0 <= j < |tail| && tail[j] == rest[k];
          assert samples[0].id != samples[j + 1].id;
        }
      }
    }
  }

  lemma {:induction false} SelectedAreDistinct(run: Run, current: set<nat>)
    requires DistinctIds(run.pool)
    ensures DistinctIds(SelectRows(run, current))
    ensures forall s :: s in SelectRows(run, current) ==> s in run.pool && (run.rejudge ==> s.id !in current)
  {
    FilterIs(run.pool, Outside(current));
  }

  /** After the supersede step the run's records are for requests without a live verdict. */
  lemma {:induction false} RecordsAreImportable(rows: seq<Row>, st: PolicyState, run: Run)
    requires DistinctIds(run.pool) && Describes(st, rows, run.tag, run.version)
    ensures var selected := SelectRows(run, st.current);
            Importable(SupersedeRows(rows, run.tag, SupersededIds(selected, st, run)),
                       RecordsOf(Recorded(selected, st, run), run))
  {
    var selected := SelectRows(run, st.current);
    var ids, recorded := SupersededIds(selected, st, run), Recorded(selected, st, run);
    var rows', rs := SupersedeRows(rows, run.tag, ids), RecordsOf(recorded, run);
    SelectedAreDistinct(run, st.current);
    FilterIs(selected, Recording(st, run));
    forall k | 0 <= k < |rs|
      ensures rs[k].source.Some? && !IsLive(rows', rs[k].tag, rs[k].source.value)
    {
      var s := recorded[k];
      assert s in selected && Records(s, st, run);
      assert rs[k] == RecordOf(s, run);
      if s.id in st.stale {
        assert Supersedes(s, st, run);
        SupersedeFrees(rows, run.tag, ids, s.id);
      } else {
        assert !IsLive(rows, run.tag, s.id);
        SupersedeKeepsFree(rows, run.tag, ids, s.id);
      }
    }
    forall k, m | 0 <= k < m < |rs| ensures rs[k].source != rs[m].source {
      assert recorded[k] in recorded && recorded[m] in recorded;
    }
  }

  /** Every run, whatever its mode, grades and crash point, keeps at most one live verdict per request and tag. */
  lemma {:induction false} RunKeepsOneLive(rows: seq<Row>, st: PolicyState, run: Run)
    requires OneLive(rows) && DistinctIds(run.pool) && Sees(st, rows, run)
    ensures OneLive(After(rows, st, run))
  {
    if !run.dryRun && !run.crash.BeforeSupersede? {
      var selected := SelectRows(run, st.current);
      var ids := SupersededIds(selected, st, run);
      SupersedeKeepsOneLive(rows, run.tag, ids);
      if run.crash.NoCrash? {
        RecordsAreImportable(rows, st, run);
        ImportKeepsOneLive(SupersedeRows(rows, run.tag, ids), RecordsOf(Recorded(selected, st, run), run));
      }
    }
  }

  // ---------- what a run may touch ----------

  /** Rows are only ever appended or superseded, never deleted, rewritten or revived. */
  ghost predicate Extends(before: seq<Row>, after: seq<Row>) {
    && |before| <= |after|
    && (forall i :: 0 <= i < |before| ==> after[i].verdict == before[i].verdict && (after[i].live ==> before[i].live))
  }

  lemma {:induction false} ImportOnlyAppends(rows: seq<Row>, records: seq<Verdict>)
    ensures rows <= ImportRows(rows, records)
    ensures forall i :: |rows| <= i < |ImportRows(rows, records)|
              ==> ImportRows(rows, records)[i].live && ImportRows(rows, records)[i].verdict in records
    decreases |records|
  {
    if records != [] {
      var next := if Has(rows, records[0]) then rows else rows + [Row(records[0], true)];
      ImportOnlyAppends(next, records[1..]);
      var all := ImportRows(next, records[1..]);
      forall i | |rows| <= i < |all| ensures all[i].live && all[i].verdict in records {
        if i < |next| {
          assert all[i] == next[i] == Row(records[0], true);
        }
      }
    }
  }

  /** The audit trail survives every run; other tags are untouched. */
  lemma {:induction false} RunExtends(rows: seq<Row>, st: PolicyState, run: Run)
    ensures Extends(rows, After(rows, st, run))
    ensures forall i :: 0 <= i < |rows| && rows[i].verdict.tag != run.tag ==> After(rows, st, run)[i] == rows[i]
    ensures run.dryRun ==> After(rows, st, run) == rows
  {
    var selected := SelectRows(run, st.current);
    var superseded := SupersedeRows(rows, run.tag, SupersededIds(selected, st, run));
    ImportOnlyAppends(superseded, RecordsOf(Recorded(selected, st, run), run));
  }

  /** Without the rejudge flag no existing row is altered. */
  lemma {:induction false} PlainRunAltersNothing(rows: seq<Row>, st: PolicyState, run: Run)
    requires !run.rejudge
    ensures rows <= After(rows, st, run)
  {
    var selected := SelectRows(run, st.current);
    assert SupersededIds(selected, st, run) == {};
    assert SupersedeRows(rows, run.tag, {}) == rows;
    ImportOnlyAppends(rows, RecordsOf(Recorded(selected, st, run), run));
  }

  /** A crash between the two writes leaves the superseded requests verdict-less: the next run may grade them anew. */
  lemma {:induction false} CrashLeavesRequestsFree(
    rows: seq<Row>, st: PolicyState, run: Run, st': PolicyState, s: Sample)
    requires !run.dryRun && run.crash.BetweenWrites?
    requires s in SelectRows(run, st.current) && Supersedes(s, st, run)
    requires Describes(st', After(rows, st, run), run.tag, run.version)
    ensures forall rejudge, write :: PlanRowAction(s.id in st'.current, s.id in st'.stale, rejudge, write)
              == if write then GradeNew else SkipExcludedType
  {
    var ids := SupersededIds(SelectRows(run, st.current), st, run);
    SupersedeFrees(rows, run.tag, ids, s.id);
  }

  // ---------- sequences of runs ----------

  /** A history of the ledger under runs that follow one another. */
  ghost predicate History(ledgers: seq<seq<Row>>, states: seq<PolicyState>, runs: seq<Run>) {
    && |ledgers| == |runs| + 1 && |states| == |runs|
    && (forall k :: 0 <= k < |runs| ==> DistinctIds(runs[k].pool) && Sees(states[k], ledgers[k], runs[k]))
    && (forall k :: 0 <= k < |runs| ==> ledgers[k + 1] == After(ledgers[k], states[k], runs[k]))
  }

  /** Over any sequence of runs from a fresh ledger, no request ever has two live verdicts under one tag. */
  lemma {:induction false} NeverTwoLive(ledgers: seq<seq<Row>>, states: seq<PolicyState>, runs: seq<Run>, k: nat)
    requires History(ledgers, states, runs) && ledgers[0] == [] && k < |ledgers|
    ensures OneLive(ledgers[k])
    decreases k
  {
    if k > 0 {
      NeverTwoLive(ledgers, states, runs, k - 1);
      RunKeepsOneLive(ledgers[k - 1], states[k - 1], runs[k - 1]);
    }
  }

  /** The audit trail over any sequence of runs. */
  lemma {:induction false} HistoryExtends(
    ledgers: seq<seq<Row>>, states: seq<PolicyState>, runs: seq<Run>, i: nat, k: nat)
    requires History(ledgers, states, runs) && i <= k < |ledgers|
    ensures Extends(ledgers[i], ledgers[k])
    ensures (forall m :: i <= m < k ==> !runs[m].rejudge) ==> ledgers[i] <= ledgers[k]
    decreases k
  {
    if i < k {
      HistoryExtends(ledgers, states, runs, i, k - 1);
      RunExtends(ledgers[k - 1], states[k - 1], runs[k - 1]);
      if !runs[k - 1].rejudge {
        PlainRunAltersNothing(ledgers[k - 1], states[k - 1], runs[k - 1]);
      }
    }
  }

  // ---------- what a completed run leaves behind ----------

  function IdSet(samples: seq<Sample>): set<nat> {
    set s | s in samples :: s.id
  }

  /** A run that writes both its transactions. The policy version has no bar, as the stamps need. */
  predicate Completed(run: Run) {
    !run.dryRun && run.crash.NoCrash? && '|' !in run.version && DistinctIds(run.pool)
  }

  /** The row yields a record and the ledger does not hold that very record already, live or superseded. */
  predicate Lands(s: Sample, rows: seq<Row>, st: PolicyState, run: Run) {
    Records(s, st, run) && !Has(rows, RecordOf(s, run))
  }

  function Landing(rows: seq<Row>, st: PolicyState, run: Run): Sample -> bool {
    (s: Sample) => Lands(s, rows, st, run)
  }

  /** The selected rows whose records the import inserts. */
  function Landed(rows: seq<Row>, st: PolicyState, run: Run): (r: seq<Sample>)
    ensures forall s :: s in r ==> s in SelectRows(run, st.current) && Lands(s, rows, st, run)
  {
    FilterIs(SelectRows(run, st.current), Landing(rows, st, run));
    Filter(SelectRows(run, st.current), Landing(rows, st, run))
  }

  predicate IsRecordRow(r: Row, landed: seq<Sample>, run: Run)
    requires forall s :: s in landed ==> s.grade.Some?
  {
    exists s :: s in landed && r == Row(RecordOf(s, run), true)
  }

  /** `v` stands live at or after position `n`. */
  predicate AddedFrom(all: seq<Row>, n: nat, v: Verdict) {
    exists i :: n <= i < |all| && all[i] == Row(v, true)
  }

  /** The import appends exactly the records the ledger did not hold. */
  lemma {:induction false} ImportExact(rows: seq<Row>, records: seq<Verdict>, v: Verdict)
    ensures AddedFrom(ImportRows(rows, records), |rows|, v) <==> v in records && !Has(rows, v)
    decreases |records|
  {
    if records != [] {
      var next, rest := if Has(rows, records[0]) then rows else rows + [Row(records[0], true)], records[1..];
      var all := ImportRows(next, rest);
      assert records == [records[0]] + rest;
      ImportExact(next, rest, v);
      ImportOnlyAppends(next, rest);
      if next != rows {
        assert next[|rows|] == all[|rows|] == Row(records[0], true);
        assert forall i :: 0 <= i < |rows| ==> next[i] == rows[i];
        assert Has(next, v) <==> Has(rows, v) || v == records[0];
        assert AddedFrom(all, |rows|, v) <==> AddedFrom(all, |next|, v) || v == records[0];
      }
    }
  }

  lemma {:induction false} SupersedeHoldsSame(rows: seq<Row>, tag: string, ids: set<nat>, v: Verdict)
    ensures Has(SupersedeRows(rows, tag, ids), v) <==> Has(rows, v)
  {
    var rows' := SupersedeRows(rows, tag, ids);
    assert forall i :: 0 <= i < |rows| ==> rows'[i].verdict == rows[i].verdict;
  }

  lemma {:induction false} RecordIn(samples: seq<Sample>, run: Run, s: Sample)
    requires forall k :: 0 <= k < |samples| ==> samples[k].grade.Some?
    requires s in samples
    ensures s.grade.Some? && RecordOf(s, run) in RecordsOf(samples, run)
  {
    var k :| 0 <= k < |samples| && samples[k] == s;
    assert RecordsOf(samples, run)[k] == RecordOf(s, run);
  }

  /** The rows a completed run appends are the records of the samples that land. */
  lemma {:induction false} AppendedRows(rows: seq<Row>, st: PolicyState, run: Run)
    requires Completed(run)
    ensures var all := After(rows, st, run);
            && SupersedeRows(rows, run.tag, SupersededIds(SelectRows(run, st.current), st, run)) <= all
            && (forall s :: s in Landed(rows, st, run) ==> AddedFrom(all, |rows|, RecordOf(s, run)))
            && (forall i :: |rows| <= i < |all| ==> IsRecordRow(all[i], Landed(rows, st, run), run))
  {
    var selected, all := SelectRows(run, st.current), After(rows, st, run);
    var recorded, landed := Recorded(selected, st, run), Landed(rows, st, run);
    var ids, rs := SupersededIds(selected, st, run), RecordsOf(recorded, run);
    var rows' := SupersedeRows(rows, run.tag, ids);
    ImportOnlyAppends(rows', rs);
    FilterIs(selected, Recording(st, run));
    FilterIs(selected, Landing(rows, st, run));
    forall s | s in landed ensures s.grade.Some? && AddedFrom(all, |rows|, RecordOf(s, run)) {
      assert s in recorded;
      RecordIn(recorded, run, s);
      SupersedeHoldsSame(rows, run.tag, ids, RecordOf(s, run));
      ImportExact(rows', rs, RecordOf(s, run));
    }
    forall i | |rows| <= i < |all| ensures IsRecordRow(all[i], landed, run) {
      var v := all[i].verdict;
      assert all[i] == Row(v, true);
      ImportExact(rows', rs, v);
      SupersedeHoldsSame(rows, run.tag, ids, v);
      var k :| 0 <= k < |rs| && rs[k] == v;
      assert recorded[k] in recorded;
      assert recorded[k] in landed && all[i] == Row(RecordOf(recorded[k], run), true);
    }
  }

  /**
   Which requests have a live verdict after a completed run, for every ledger: those whose record lands, and
   those live before and not superseded.
   */
  lemma {:induction false} LiveAfter(rows: seq<Row>, st: PolicyState, run: Run, id: nat)
    requires Completed(run)
    ensures IsLive(After(rows, st, run), run.tag, id) <==>
              (id in IdSet(Landed(rows, st, run))
               || (IsLive(rows, run.tag, id) && id !in SupersededIds(SelectRows(run, st.current), st, run)))
  {
    var all, ids := After(rows, st, run), SupersededIds(SelectRows(run, st.current), st, run);
    var rows', landed := SupersedeRows(rows, run.tag, ids), Landed(rows, st, run);
    AppendedRows(rows, st, run);
    if IsLive(all, run.tag, id) {
      var i :| 0 <= i < |all| && LiveFor(all[i], run.tag, id);
      if i < |rows| {
        assert all[i] == rows'[i] && LiveFor(rows[i], run.tag, id);
      } else {
        var s :| s in landed && all[i] == Row(RecordOf(s, run), true);
        assert id == s.id;
      }
    }
    if id in IdSet(landed) {
      var s :| s in landed && s.id == id;
      var i :| |rows| <= i < |all| && all[i] == Row(RecordOf(s, run), true);
      assert LiveFor(all[i], run.tag, id);
    } else if IsLive(rows, run.tag, id) && id !in ids {
      var i :| 0 <= i < |rows| && LiveFor(rows[i], run.tag, id);
      assert all[i] == rows'[i] && LiveFor(all[i], run.tag, id);
    }
  }

  /** A graded request is live after the run exactly when its record was new to the ledger. */
  lemma {:induction false} RecordedIsLive(rows: seq<Row>, st: PolicyState, run: Run, s: Sample)
    requires Completed(run) && Describes(st, rows, run.tag, run.version)
    requires s in SelectRows(run, st.current) && Records(s, st, run)
    ensures IsLive(After(rows, st, run), run.tag, s.id) <==> !Has(rows, RecordOf(s, run))
  {
    var selected := SelectRows(run, st.current);
    LiveAfter(rows, st, run, s.id);
    FilterIs(selected, Landing(rows, st, run));
    SelectedAreDistinct(run, st.current);
    assert s.id in IdSet(Landed(rows, st, run)) <==> Lands(s, rows, st, run) by {
      forall x | x in selected && x.id == s.id ensures x == s {
        SameId(selected, x, s);
      }
    }
    assert s.id in st.stale ==> Supersedes(s, st, run);
  }

  lemma {:induction false} SameId(samples: seq<Sample>, x: Sample, y: Sample)
    requires DistinctIds(samples) && x in samples && y in samples && x.id == y.id
    ensures x == y
  {
    var i :| 0 <= i < |samples| && samples[i] == x;
    var j :| 0 <= j < |samples| && samples[j] == y;
    assert i == j;
  }

  /** Superseding stale and retired requests never touches a row of the current policy. */
  lemma {:induction false} SupersedeSparesCurrent(rows: seq<Row>, st: PolicyState, run: Run, samples: seq<Sample>)
    requires Describes(st, rows, run.tag, run.version)
    ensures var rows' := SupersedeRows(rows, run.tag, SupersededIds(samples, st, run));
            forall i :: 0 <= i < |rows| && IsCurrentPolicy(rows[i].verdict.policy, run.version) ==> rows'[i] == rows[i]
  {
    var ids := SupersededIds(samples, st, run);
    assert ids <= st.stale;
    forall i | 0 <= i < |rows| && IsCurrentPolicy(rows[i].verdict.policy, run.version)
      ensures !Hit(rows[i], run.tag, ids)
    {
      assert rows[i].live && rows[i].verdict.tag == run.tag && rows[i].verdict.source.Some?
        ==> LiveFor(rows[i], run.tag, rows[i].verdict.source.value);
    }
  }

  /** The requests with a current verdict after a completed run, for every ledger: those before, and those that land. */
  lemma {:induction false} CurrentAfter(rows: seq<Row>, st: PolicyState, run: Run, st': PolicyState)
    requires Completed(run) && Describes(st, rows, run.tag, run.version)
    requires Describes(st', After(rows, st, run), run.tag, run.version)
    ensures st'.current == st.current + IdSet(Landed(rows, st, run))
  {
    var landed, all := Landed(rows, st, run), After(rows, st, run);
    AppendedRows(rows, st, run);
    SupersedeSparesCurrent(rows, st, run, SelectRows(run, st.current));
    forall id | IsCurrent(all, run.tag, run.version, id) ensures id in st.current + IdSet(landed) {
      var i :| 0 <= i < |all| && LiveFor(all[i], run.tag, id) && IsCurrentPolicy(all[i].verdict.policy, run.version);
      if i < |rows| {
        assert LiveFor(rows[i], run.tag, id);
      } else {
        var s :| s in landed && all[i] == Row(RecordOf(s, run), true);
      }
    }
    forall id | id in st.current ensures IsCurrent(all, run.tag, run.version, id) {
      var i :| 0 <= i < |rows| && LiveFor(rows[i], run.tag, id) && IsCurrentPolicy(rows[i].verdict.policy, run.version);
      assert all[i] == rows[i];
    }
    forall s | s in landed ensures IsCurrent(all, run.tag, run.version, s.id) {
      var i :| |rows| <= i < |all| && all[i] == Row(RecordOf(s, run), true);
      StampIsCurrent(run.version, s.grade.value.context);
      assert LiveFor(all[i], run.tag, s.id);
    }
  }

  // ---------- what a completed run does to each selected request ----------

  /** The record of a graded sample, spelled out. */
  predicate IsRecordOf(v: Verdict, s: Sample, run: Run) {
    && s.grade.Some? && v.tag == run.tag && v.source == Some(s.id) && v.payload == s.grade.value.payload
    && v.policy == Some(run.version + "|ctx=" + s.grade.value.context)
  }

  /** The ledger held that very record before the run. */
  ghost predicate HeldBefore(rows: seq<Row>, s: Sample, run: Run) {
    exists i :: 0 <= i < |rows| && IsRecordOf(rows[i].verdict, s, run)
  }

  /** The live rows of the request are the same rows as before. */
  ghost predicate SameLive(rows: seq<Row>, rows': seq<Row>, tag: string, id: nat) {
    && |rows| <= |rows'|
    && (forall i :: 0 <= i < |rows| ==> (LiveFor(rows'[i], tag, id) <==> LiveFor(rows[i], tag, id)))
    && (forall i :: |rows| <= i < |rows'| ==> !LiveFor(rows'[i], tag, id))
  }

  /** No row of before is live for the request any more, and exactly one new row, the sample's record, is. */
  ghost predicate Replaced(rows: seq<Row>, rows': seq<Row>, s: Sample, run: Run) {
    && |rows| <= |rows'|
    && (forall i :: 0 <= i < |rows| ==> !LiveFor(rows'[i], run.tag, s.id))
    && (exists i :: |rows| <= i < |rows'| && LiveFor(rows'[i], run.tag, s.id))
    && (forall i :: |rows| <= i < |rows'| && LiveFor(rows'[i], run.tag, s.id) ==> IsRecordOf(rows'[i].verdict, s, run))
  }

  /**
   The fate of a selected request, told by the ledgers before and after: untouched, left without a live
   verdict, or with the sample's record as its live verdict.
   */
  ghost predicate Fate(rows: seq<Row>, rows': seq<Row>, s: Sample, run: Run) {
    var live, current := IsLive(rows, run.tag, s.id), IsCurrent(rows, run.tag, run.version, s.id);
    if s.selfGrade || current || (live && !run.rejudge) then SameLive(rows, rows', run.tag, s.id)
    else if !s.writeVerdict then !IsLive(rows', run.tag, s.id)
    else if s.grade.None? then SameLive(rows, rows', run.tag, s.id)
    else if HeldBefore(rows, s, run) then !IsLive(rows', run.tag, s.id)
    else Replaced(rows, rows', s, run)
  }

  lemma {:induction false} RecordSpelled(v: Verdict, s: Sample, run: Run)
    requires s.grade.Some?
    ensures v == RecordOf(s, run) <==> IsRecordOf(v, s, run)
  {
  }

  lemma {:induction false} HeldIsHas(rows: seq<Row>, s: Sample, run: Run)
    requires s.grade.Some?
    ensures HeldBefore(rows, s, run) <==> Has(rows, RecordOf(s, run))
  {
    assert forall i :: 0 <= i < |rows| ==>
        (IsRecordOf(rows[i].verdict, s, run) <==> rows[i].verdict == RecordOf(s, run));
  }

  /** A new row of the request is the record of the sample. */
  lemma {:induction false} NewRowIsRecord(rows: seq<Row>, st: PolicyState, run: Run, s: Sample, i: nat)
    requires Completed(run) && s in SelectRows(run, st.current)
    requires |rows| <= i < |After(rows, st, run)| && LiveFor(After(rows, st, run)[i], run.tag, s.id)
    ensures Lands(s, rows, st, run) && After(rows, st, run)[i] == Row(RecordOf(s, run), true)
  {
    AppendedRows(rows, st, run);
    SelectedAreDistinct(run, st.current);
    var x :| x in Landed(rows, st, run) && After(rows, st, run)[i] == Row(RecordOf(x, run), true);
    SameId(SelectRows(run, st.current), x, s);
  }

  /** A request that is not superseded keeps its live rows among the old ones; one that is loses them. */
  lemma {:induction false} OldRows(rows: seq<Row>, st: PolicyState, run: Run, id: nat)
    requires Completed(run)
    ensures var all, ids := After(rows, st, run), SupersededIds(SelectRows(run, st.current), st, run);
            && |rows| <= |all|
            && forall i :: 0 <= i < |rows| ==>
                 (LiveFor(all[i], run.tag, id) <==> LiveFor(rows[i], run.tag, id) && id !in ids)
  {
    AppendedRows(rows, st, run);
  }

  lemma {:induction false} OwnSupersede(st: PolicyState, run: Run, s: Sample)
    requires DistinctIds(run.pool) && s in SelectRows(run, st.current)
    ensures s.id in SupersededIds(SelectRows(run, st.current), st, run) <==> Supersedes(s, st, run)
  {
    SelectedAreDistinct(run, st.current);
    forall x | x in SelectRows(run, st.current) && x.id == s.id ensures x == s {
      SameId(SelectRows(run, st.current), x, s);
    }
  }

  lemma {:induction false} StaysSame(rows: seq<Row>, st: PolicyState, run: Run, s: Sample)
    requires Completed(run) && s in SelectRows(run, st.current)
    requires !Lands(s, rows, st, run) && !Supersedes(s, st, run)
    ensures SameLive(rows, After(rows, st, run), run.tag, s.id)
  {
    OwnSupersede(st, run, s);
    OldRows(rows, st, run, s.id);
    forall i | |rows| <= i < |After(rows, st, run)| ensures !LiveFor(After(rows, st, run)[i], run.tag, s.id) {
      if LiveFor(After(rows, st, run)[i], run.tag, s.id) {
        NewRowIsRecord(rows, st, run, s, i);
      }
    }
  }

  lemma {:induction false} BecomesFree(rows: seq<Row>, st: PolicyState, run: Run, s: Sample)
    requires Completed(run) && s in SelectRows(run, st.current) && !Lands(s, rows, st, run)
    requires Supersedes(s, st, run) || !IsLive(rows, run.tag, s.id)
    ensures !IsLive(After(rows, st, run), run.tag, s.id)
  {
    var all := After(rows, st, run);
    OwnSupersede(st, run, s);
    OldRows(rows, st, run, s.id);
    forall i | 0 <= i < |all| ensures !LiveFor(all[i], run.tag, s.id) {
      if i >= |rows| && LiveFor(all[i], run.tag, s.id) {
        NewRowIsRecord(rows, st, run, s, i);
      }
    }
  }

  lemma {:induction false} IsReplaced(rows: seq<Row>, st: PolicyState, run: Run, s: Sample)
    requires Completed(run) && s in SelectRows(run, st.current) && Lands(s, rows, st, run)
    requires Supersedes(s, st, run) || !IsLive(rows, run.tag, s.id)
    ensures Replaced(rows, After(rows, st, run), s, run)
  {
    var all := After(rows, st, run);
    OwnSupersede(st, run, s);
    OldRows(rows, st, run, s.id);
    FilterIs(SelectRows(run, st.current), Landing(rows, st, run));
    AppendedRows(rows, st, run);
    assert AddedFrom(all, |rows|, RecordOf(s, run));
    var k :| |rows| <= k < |all| && all[k] == Row(RecordOf(s, run), true);
    assert LiveFor(all[k], run.tag, s.id);
    forall i | |rows| <= i < |all| && LiveFor(all[i], run.tag, s.id) ensures IsRecordOf(all[i].verdict, s, run) {
      NewRowIsRecord(rows, st, run, s, i);
      RecordSpelled(all[i].verdict, s, run);
    }
  }

  /**
   The whole decision, over ledgers only. Under rejudge a stale verdict of an excluded type is retired without
   a replacement, a stale one that could not be graded stays, and a graded one is replaced; without rejudge
   only requests without a live verdict are graded.
   */
  lemma {:induction false} FateOfSelected(rows: seq<Row>, st: PolicyState, run: Run, s: Sample)
    requires Completed(run) && Describes(st, rows, run.tag, run.version) && s in SelectRows(run, st.current)
    ensures Fate(rows, After(rows, st, run), s, run)
  {
    var live, current := IsLive(rows, run.tag, s.id), IsCurrent(rows, run.tag, run.version, s.id);
    assert (s.id in st.current <==> current) && (s.id in st.stale <==> live && !current);
    if s.grade.Some? {
      HeldIsHas(rows, s, run);
    }
    if s.selfGrade || current || (live && !run.rejudge) {
      StaysSame(rows, st, run, s);
    } else if !s.writeVerdict {
      BecomesFree(rows, st, run, s);
    } else if s.grade.None? {
      StaysSame(rows, st, run, s);
    } else if HeldBefore(rows, s, run) {
      BecomesFree(rows, st, run, s);
    } else {
      IsReplaced(rows, st, run, s);
    }
  }

  /** Requests the run does not select keep their live rows. */
  lemma {:induction false} UnselectedKeep(rows: seq<Row>, st: PolicyState, run: Run, id: nat)
    requires Completed(run) && forall s :: s in SelectRows(run, st.current) ==> s.id != id
    ensures SameLive(rows, After(rows, st, run), run.tag, id)
  {
    var all := After(rows, st, run);
    OldRows(rows, st, run, id);
    AppendedRows(rows, st, run);
    forall i | |rows| <= i < |all| ensures !LiveFor(all[i], run.tag, id) {
      assert IsRecordRow(all[i], Landed(rows, st, run), run);
      var s :| s in Landed(rows, st, run) && all[i] == Row(RecordOf(s, run), true);
    }
  }

  /** A crash before the writes leaves the ledger; one between them frees what was to be replaced or retired. */
  lemma {:induction false} FateInCrash(rows: seq<Row>, st: PolicyState, run: Run, s: Sample)
    requires !run.dryRun && DistinctIds(run.pool) && Describes(st, rows, run.tag, run.version)
    requires s in SelectRows(run, st.current)
    ensures run.crash.BeforeSupersede? ==> After(rows, st, run) == rows
    ensures run.crash.BetweenWrites? ==>
              (IsLive(After(rows, st, run), run.tag, s.id) <==>
               (IsLive(rows, run.tag, s.id)
                && !(run.rejudge && !s.selfGrade && !IsCurrent(rows, run.tag, run.version, s.id)
                     && (!s.writeVerdict || s.grade.Some?))))
  {
    if run.crash.BetweenWrites? {
      var ids := SupersededIds(SelectRows(run, st.current), st, run);
      var rows' := After(rows, st, run);
      OwnSupersede(st, run, s);
      forall i | 0 <= i < |rows|
        ensures LiveFor(rows'[i], run.tag, s.id) <==> LiveFor(rows[i], run.tag, s.id) && s.id !in ids
      {
      }
      assert s.id in st.current <==> IsCurrent(rows, run.tag, run.version, s.id);
      assert s.id in st.stale <==> IsLive(rows, run.tag, s.id) && !IsCurrent(rows, run.tag, run.version, s.id);
    }
  }

  /** A rejudge run selects the earliest requests of its pool that have no current verdict. */
  lemma {:induction false} SelectsEarliest(run: Run, current: set<nat>, i: nat, j: nat)
    requires run.rejudge && DistinctIds(run.pool) && i < j < |run.pool|
    requires run.pool[i].id !in current && run.pool[j] in SelectRows(run, current)
    ensures run.pool[i] in SelectRows(run, current)
  {
    var rest := NotCurrent(run.pool, current);
    FilterIs(run.pool, Outside(current));
    var m :| 0 <= m < |SelectRows(run, current)| && SelectRows(run, current)[m] == run.pool[j];
    assert rest[m] == run.pool[j];
    var k := FilterKeepsOrder(run.pool, Outside(current), i, j, m);
    assert SelectRows(run, current)[k] == run.pool[i];
  }

  lemma {:induction false} FilterKeepsOrder(samples: seq<Sample>, p: Sample -> bool, i: nat, j: nat, m: nat)
    returns (k: nat)
    requires DistinctIds(samples) && i < j < |samples| && p(samples[i])
    requires m < |Filter(samples, p)| && Filter(samples, p)[m] == samples[j]
    ensures k < m && Filter(samples, p)[k] == samples[i]
  {
    var tail, rest := samples[1..], Filter(samples[1..], p);
    assert DistinctIds(tail);
    if i == 0 {
      k := 0;
    } else if p(samples[0]) {
      assert m > 0 && rest[m - 1] == tail[j - 1];
      k := FilterKeepsOrder(tail, p, i - 1, j - 1, m - 1);
      k := k + 1;
    } else {
      k := FilterKeepsOrder(tail, p, i - 1, j - 1, m);
    }
  }

  // ---------- draining a stale cohort ----------

  predicate CompletedRejudge(run: Run) {
    Completed(run) && run.rejudge
  }

  /** Every row the run selects is graded, and no record is one the ledger already holds. */
  ghost predicate AllLand(rows: seq<Row>, st: PolicyState, run: Run) {
    forall s :: s in SelectRows(run, st.current) ==> Lands(s, rows, st, run)
  }

  lemma {:induction false} DistinctCount(samples: seq<Sample>)
    requires DistinctIds(samples)
    ensures |IdSet(samples)| == |samples|
  {
    if samples != [] {
      var s, tail := samples[0], samples[1..];
      DistinctCount(tail);
      assert samples == [s] + tail;
      assert forall x :: x in tail ==> x.id != s.id;
      assert IdSet(samples) == {s.id} + IdSet(tail);
    }
  }

  lemma {:induction false} FilterAll(samples: seq<Sample>, p: Sample -> bool)
    ensures |Filter(samples, p)| <= |samples|
    ensures |Filter(samples, p)| == |samples| <==> forall s :: s in samples ==> p(s)
  {
    if samples != [] {
      FilterAll(samples[1..], p);
      assert samples == [samples[0]] + samples[1..];
    }
  }

  /** How many requests of the pool still lack a current verdict. */
  function Pending(ids: set<nat>, current: set<nat>): nat {
    |ids - current|
  }

  lemma {:induction false} SelectedSize(run: Run, current: set<nat>)
    requires CompletedRejudge(run)
    ensures var p := Pending(IdSet(run.pool), current);
            |SelectRows(run, current)| == if p <= run.n then p else run.n
  {
    var rest := NotCurrent(run.pool, current);
    FilterIs(run.pool, Outside(current));
    DistinctCount(rest);
    assert IdSet(rest) == IdSet(run.pool) - current;
  }

  /** The samples that land are pending requests, each once. */
  lemma {:induction false} LandedCount(rows: seq<Row>, st: PolicyState, run: Run)
    requires CompletedRejudge(run)
    ensures var landed := Landed(rows, st, run);
            |IdSet(landed)| == |landed| && IdSet(landed) <= IdSet(run.pool) - st.current
  {
    SelectedAreDistinct(run, st.current);
    FilterIs(SelectRows(run, st.current), Landing(rows, st, run));
    DistinctCount(Landed(rows, st, run));
  }

  /**
   Progress, for every ledger: a completed rejudge run lowers the pending count by the rows that land, so by
   its whole selection if and only if every selected row is graded and no record is already held.
   */
  lemma {:induction false} RejudgeProgress(rows: seq<Row>, st: PolicyState, run: Run, st': PolicyState)
    requires CompletedRejudge(run) && Describes(st, rows, run.tag, run.version)
    requires Describes(st', After(rows, st, run), run.tag, run.version)
    ensures var ids, selected := IdSet(run.pool), SelectRows(run, st.current);
            && Pending(ids, st'.current) == Pending(ids, st.current) - |Landed(rows, st, run)|
            && (Pending(ids, st'.current) == Pending(ids, st.current) - |selected| <==> AllLand(rows, st, run))
  {
    CurrentAfter(rows, st, run, st');
    LandedCount(rows, st, run);
    WhollyLanded(rows, st, run);
    PendingFalls(IdSet(run.pool), st.current, IdSet(Landed(rows, st, run)));
  }

  lemma {:induction false} WhollyLanded(rows: seq<Row>, st: PolicyState, run: Run)
    ensures |Landed(rows, st, run)| == |SelectRows(run, st.current)| <==> AllLand(rows, st, run)
  {
    FilterAll(SelectRows(run, st.current), Landing(rows, st, run));
  }

  lemma {:induction false} PendingFalls(ids: set<nat>, current: set<nat>, more: set<nat>)
    requires more <= ids - current
    ensures Pending(ids, current + more) == Pending(ids, current) - |more|
  {
    assert ids - (current + more) == (ids - current) - more;
  }

  lemma {:induction false} NoneFiltered(samples: seq<Sample>, p: Sample -> bool)
    requires forall s :: s in samples ==> !p(s)
    ensures Filter(samples, p) == []
  {
    if samples != [] {
      NoneFiltered(samples[1..], p);
    }
  }

  /** Rows of an excluded type are never recorded: if they fill the selection, the next run selects the same rows. */
  lemma {:induction false} ExcludedRowsKeepTheirSlots(rows: seq<Row>, st: PolicyState, run: Run, st': PolicyState)
    requires CompletedRejudge(run) && Describes(st, rows, run.tag, run.version)
    requires Describes(st', After(rows, st, run), run.tag, run.version)
    requires forall s :: s in SelectRows(run, st.current) ==> !s.writeVerdict
    ensures SelectRows(run, st'.current) == SelectRows(run, st.current)
  {
    NoneFiltered(SelectRows(run, st.current), Landing(rows, st, run));
    CurrentAfter(rows, st, run, st');
    assert st'.current == st.current;
  }

  /** A rejudge campaign: completed runs over the same requests under one policy version and one limit. */
  ghost predicate Campaign(
    ledgers: seq<seq<Row>>, states: seq<PolicyState>, runs: seq<Run>,
    tag: string, version: string, n: nat, ids: set<nat>)
  {
    && |ledgers| == |runs| + 1 && |states| == |runs| + 1
    && (forall k :: 0 <= k <= |runs| ==> Describes(states[k], ledgers[k], tag, version))
    && (forall k :: 0 <= k < |runs| ==> RunOf(runs[k], tag, version, n, ids))
    && (forall k :: 0 <= k < |runs| ==> ledgers[k + 1] == After(ledgers[k], states[k], runs[k]))
  }

  predicate RunOf(run: Run, tag: string, version: string, n: nat, ids: set<nat>) {
    CompletedRejudge(run) && run.tag == tag && run.version == version && run.n == n && IdSet(run.pool) == ids
  }

  /** What is left of `pending` requests once `done` of them are dealt with. */
  function Left(pending: nat, done: nat): nat {
    if pending <= done then 0 else pending - done
  }

  /** After each of the first `k` runs, `n` more requests are dealt with, or all of them. */
  ghost predicate OnSchedule(states: seq<PolicyState>, ids: set<nat>, n: nat, k: nat)
    requires k < |states|
  {
    forall j :: 0 <= j <= k ==> Pending(ids, states[j].current) == Left(Pending(ids, states[0].current), j * n)
  }

  /** In each of the first `k` runs all selected rows land. */
  ghost predicate EachRunLands(ledgers: seq<seq<Row>>, states: seq<PolicyState>, runs: seq<Run>, k: nat)
    requires k <= |runs| <= |ledgers| && |runs| <= |states|
  {
    forall j :: 0 <= j < k ==> AllLand(ledgers[j], states[j], runs[j])
  }

  lemma {:induction false} CampaignStep(
    rows: seq<Row>, st: PolicyState, run: Run, st': PolicyState, tag: string, version: string, n: nat, ids: set<nat>)
    requires RunOf(run, tag, version, n, ids)
    requires Describes(st, rows, tag, version) && Describes(st', After(rows, st, run), tag, version)
    ensures Pending(ids, st'.current) == Left(Pending(ids, st.current), n) <==> AllLand(rows, st, run)
  {
    RejudgeProgress(rows, st, run, st');
    SelectedSize(run, st.current);
  }

  /**
   Drain: a campaign keeps its schedule if and only if in every run all selected rows land. It then ends
   after ceil(pending / n) runs.
   */
  lemma {:induction false} CampaignDrains(
    ledgers: seq<seq<Row>>, states: seq<PolicyState>, runs: seq<Run>, tag: string, version: string, n: nat,
    ids: set<nat>, k: nat)
    requires Campaign(ledgers, states, runs, tag, version, n, ids) && k <= |runs|
    ensures OnSchedule(states, ids, n, k) <==> EachRunLands(ledgers, states, runs, k)
    decreases k
  {
    if k == 0 {
      assert 0 * n == 0;
    } else {
      CampaignDrains(ledgers, states, runs, tag, version, n, ids, k - 1);
      CampaignStep(ledgers[k - 1], states[k - 1], runs[k - 1], states[k], tag, version, n, ids);
      ScheduleStep(states, ids, n, k);
      LandsStep(ledgers, states, runs, k);
    }
  }

  lemma {:induction false} ScheduleStep(states: seq<PolicyState>, ids: set<nat>, n: nat, k: nat)
    requires 0 < k < |states|
    ensures OnSchedule(states, ids, n, k) <==>
              (OnSchedule(states, ids, n, k - 1)
               && Pending(ids, states[k].current) == Left(Pending(ids, states[k - 1].current), n))
  {
    LeftTwice(Pending(ids, states[0].current), k - 1, n);
  }

  lemma {:induction false} LandsStep(ledgers: seq<seq<Row>>, states: seq<PolicyState>, runs: seq<Run>, k: nat)
    requires 0 < k <= |runs| <= |ledgers| && |runs| <= |states|
    ensures EachRunLands(ledgers, states, runs, k) <==>
              (EachRunLands(ledgers, states, runs, k - 1) && AllLand(ledgers[k - 1], states[k - 1], runs[k - 1]))
  {
  }

  lemma {:induction false} LeftTwice(p: nat, k: nat, n: nat)
    ensures Left(Left(p, k * n), n) == Left(p, (k + 1) * n)
  {
    assert (k + 1) * n == k * n + n;
  }

  // ---------- a version new to the ledger ----------

  /** No row of this version has been superseded; true when the version is new to the ledger. */
  ghost predicate EpochFresh(rows: seq<Row>, tag: string, version: string) {
    forall i :: 0 <= i < |rows| && rows[i].verdict.tag == tag && IsCurrentPolicy(rows[i].verdict.policy, version)
      ==> rows[i].live
  }

  /** In a fresh epoch every graded row lands, and the epoch stays fresh. */
  lemma {:induction false} FreshEpochLands(rows: seq<Row>, st: PolicyState, run: Run)
    requires Completed(run) && Describes(st, rows, run.tag, run.version) && EpochFresh(rows, run.tag, run.version)
    ensures forall s :: Records(s, st, run) ==> Lands(s, rows, st, run)
    ensures EpochFresh(After(rows, st, run), run.tag, run.version)
  {
    var all := After(rows, st, run);
    forall s, i | Records(s, st, run) && 0 <= i < |rows| ensures rows[i].verdict != RecordOf(s, run) {
      StampIsCurrent(run.version, s.grade.value.context);
      assert rows[i].verdict == RecordOf(s, run) ==> LiveFor(rows[i], run.tag, s.id);
    }
    AppendedRows(rows, st, run);
    SupersedeSparesCurrent(rows, st, run, SelectRows(run, st.current));
    forall i | 0 <= i < |all| && all[i].verdict.tag == run.tag && IsCurrentPolicy(all[i].verdict.policy, run.version)
      ensures all[i].live
    {
      if i < |rows| {
        assert all[i] == rows[i];
      }
    }
  }

  lemma {:induction false} CampaignStaysFresh(
    ledgers: seq<seq<Row>>, states: seq<PolicyState>, runs: seq<Run>, tag: string, version: string, n: nat,
    ids: set<nat>, k: nat)
    requires Campaign(ledgers, states, runs, tag, version, n, ids) && k <= |runs|
    requires EpochFresh(ledgers[0], tag, version)
    ensures EpochFresh(ledgers[k], tag, version)
    decreases k
  {
    if k > 0 {
      CampaignStaysFresh(ledgers, states, runs, tag, version, n, ids, k - 1);
      assert RunOf(runs[k - 1], tag, version, n, ids);
      FreshEpochLands(ledgers[k - 1], states[k - 1], runs[k - 1]);
    }
  }

  /** The condition a caller can look up beforehand: from a fresh epoch, grading every selected row is enough. */
  lemma {:induction false} FreshCampaignDrains(
    ledgers: seq<seq<Row>>, states: seq<PolicyState>, runs: seq<Run>, tag: string, version: string, n: nat,
    ids: set<nat>)
    requires Campaign(ledgers, states, runs, tag, version, n, ids) && EpochFresh(ledgers[0], tag, version)
    requires forall k, s :: 0 <= k < |runs| && s in SelectRows(runs[k], states[k].current)
               ==> Records(s, states[k], runs[k])
    ensures OnSchedule(states, ids, n, |runs|)
  {
    forall k | 0 <= k < |runs| ensures AllLand(ledgers[k], states[k], runs[k]) {
      CampaignStaysFresh(ledgers, states, runs, tag, version, n, ids, k);
      assert RunOf(runs[k], tag, version, n, ids);
      FreshEpochLands(ledgers[k], states[k], runs[k]);
    }
    CampaignDrains(ledgers, states, runs, tag, version, n, ids, |runs|);
  }

  // ---------- a version that returns ----------

  lemma {:induction false} FilterSingle(s: Sample, p: Sample -> bool)
    ensures Filter([s], p) == if p(s) then [s] else []
  {
    assert [s][1..] == [] && Filter([], p) == [];
  }

  function Rejudge(tag: string, version: string, s: Sample): Run {
    Run(tag, version, true, false, 1, [s], NoCrash)
  }

  /** A rejudge run over one recordable sample that is not current. */
  lemma {:induction false} SingleRun(rows: seq<Row>, st: PolicyState, tag: string, version: string, s: Sample)
    requires s.id !in st.current && !s.selfGrade && s.writeVerdict && s.grade.Some?
    ensures var run := Rejudge(tag, version, s);
            && SelectRows(run, st.current) == [s] && Records(s, st, run)
            && After(rows, st, run)
               == ImportRows(SupersedeRows(rows, tag, if s.id in st.stale then {s.id} else {}), [RecordOf(s, run)])
  {
    var run := Rejudge(tag, version, s);
    FilterSingle(s, Outside(st.current));
    FilterSingle(s, Recording(st, run));
    assert NotCurrent([s], st.current) == [s];
    assert Recorded([s], st, run) == [s];
    assert RecordsOf([s], run) == [RecordOf(s, run)];
    assert SupersededIds([s], st, run) == if s.id in st.stale then {s.id} else {};
  }

  lemma {:induction false} ImportOne(rows: seq<Row>, v: Verdict)
    ensures ImportRows(rows, [v]) == if Has(rows, v) then rows else rows + [Row(v, true)]
  {
    assert [v][1..] == [];
    assert forall r: seq<Row> :: ImportRows(r, []) == r;
  }

  /** Stamps of different versions differ, and each is current for its own version only. */
  lemma {:induction false} StampVersions(v: string, w: string, context: string)
    requires v != w && '|' !in v && '|' !in w
    ensures IsCurrentPolicy(Some(Stamp(v, context)), v) && !IsCurrentPolicy(Some(Stamp(v, context)), w)
  {
    StampIsCurrent(v, context);
  }

  /**
   Why a fresh epoch matters. Grade any request under version v, again under w, and again alike under v: the
   third run supersedes the verdict of w, the import ignores the record of v it holds, and a request that had
   a live verdict has none. All three runs complete, from an empty ledger.
   */
  lemma {:induction false} ReturningEpochLosesVerdict(tag: string, v: string, w: string, s: Sample)
    returns (ledgers: seq<seq<Row>>, states: seq<PolicyState>, runs: seq<Run>)
    requires v != w && '|' !in v && '|' !in w
    requires !s.selfGrade && s.writeVerdict && s.grade.Some?
    ensures runs == [Rejudge(tag, v, s), Rejudge(tag, w, s), Rejudge(tag, v, s)]
    ensures History(ledgers, states, runs) && ledgers[0] == []
    ensures forall k :: 0 <= k < 3 ==> CompletedRejudge(runs[k]) && Records(s, states[k], runs[k])
    ensures IsLive(ledgers[1], tag, s.id) && IsLive(ledgers[2], tag, s.id) && !IsLive(ledgers[3], tag, s.id)
  {
    var a, b := RecordOf(s, Rejudge(tag, v, s)), RecordOf(s, Rejudge(tag, w, s));
    StampVersions(v, w, s.grade.value.context);
    StampVersions(w, v, s.grade.value.context);
    var l1, l2, l3 := [Row(a, true)], [Row(a, false), Row(b, true)], [Row(a, false), Row(b, false)];
    var none, stale := PolicyState({}, {}), PolicyState({}, {s.id});
    runs := [Rejudge(tag, v, s), Rejudge(tag, w, s), Rejudge(tag, v, s)];
    ledgers, states := [[], l1, l2, l3], [none, stale, stale];
    FirstGrade(tag, v, s);
    SecondGrade(tag, v, w, s);
    ThirdGrade(tag, v, w, s);
    assert LiveFor(l1[0], tag, s.id) && LiveFor(l2[1], tag, s.id);
  }

  lemma {:induction false} FirstGrade(tag: string, v: string, s: Sample)
    requires '|' !in v && !s.selfGrade && s.writeVerdict && s.grade.Some?
    ensures var run, st := Rejudge(tag, v, s), PolicyState({}, {});
            && Describes(st, [], tag, v) && Records(s, st, run)
            && After([], st, run) == [Row(RecordOf(s, run), true)]
  {
    SingleRun([], PolicyState({}, {}), tag, v, s);
    ImportOne([], RecordOf(s, Rejudge(tag, v, s)));
  }

  lemma {:induction false} SecondGrade(tag: string, v: string, w: string, s: Sample)
    requires v != w && '|' !in v && '|' !in w
    requires !s.selfGrade && s.writeVerdict && s.grade.Some?
    ensures var run, st := Rejudge(tag, w, s), PolicyState({}, {s.id});
            var a, b := RecordOf(s, Rejudge(tag, v, s)), RecordOf(s, run);
            && Describes(st, [Row(a, true)], tag, w) && Records(s, st, run)
            && After([Row(a, true)], st, run) == [Row(a, false), Row(b, true)]
  {
    var run, st := Rejudge(tag, w, s), PolicyState({}, {s.id});
    var a, b := RecordOf(s, Rejudge(tag, v, s)), RecordOf(s, run);
    var rows := [Row(a, true)];
    StampVersions(v, w, s.grade.value.context);
    StampVersions(w, v, s.grade.value.context);
    assert LiveFor(rows[0], tag, s.id);
    SingleRun(rows, st, tag, w, s);
    assert SupersedeRows(rows, tag, {s.id}) == [Row(a, false)];
    ImportOne([Row(a, false)], b);
  }

  lemma {:induction false} ThirdGrade(tag: string, v: string, w: string, s: Sample)
    requires v != w && '|' !in v && '|' !in w
    requires !s.selfGrade && s.writeVerdict && s.grade.Some?
    ensures var run, st := Rejudge(tag, v, s), PolicyState({}, {s.id});
            var a, b := RecordOf(s, run), RecordOf(s, Rejudge(tag, w, s));
            && Describes(st, [Row(a, false), Row(b, true)], tag, v) && Records(s, st, run)
            && After([Row(a, false), Row(b, true)], st, run) == [Row(a, false), Row(b, false)]
  {
    var run, st := Rejudge(tag, v, s), PolicyState({}, {s.id});
    var a, b := RecordOf(s, run), RecordOf(s, Rejudge(tag, w, s));
    var rows := [Row(a, false), Row(b, true)];
    StampVersions(w, v, s.grade.value.context);
    assert LiveFor(rows[1], tag, s.id);
    SingleRun(rows, st, tag, v, s);
    var rows' := SupersedeRows(rows, tag, {s.id});
    assert rows' == [Row(a, false), Row(b, false)];
    assert rows'[0].verdict == a;
    ImportOne(rows', a);
  }
}
