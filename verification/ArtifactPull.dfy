/**
 The staged artifact writer (`pull`, with `safe_path` and `relative_parent`).

 The worktree is a map from paths to files and directories. Every artifact is first staged under a
 temporary name beside its destination; only when all are staged are they renamed into place. The result
 is all or nothing unless a requested path is a directory above a later one; the contract of `Pull` says
 which requests are refused, which stop half way, and what the worktree holds in each case.
 */
module ArtifactPull {
  import opened Options

  /** A path as its components. */
  type Path = seq<string>

  type Bytes = seq<bv8>

  /** `Special` stands for anything that is neither a plain file nor a directory. */
  datatype Node = File(data: Bytes) | Dir | Special

  type Tree = map<Path, Node>

  /** A requested artifact; `data` is None when its base64 text does not decode. */
  datatype Artifact = Artifact(path: Path, data: Option<Bytes>)

  const MAX_FILE := 16 * 1024 * 1024
  const MAX_PULL := 32 * 1024 * 1024

  // ---------- safe paths ----------

  function Lower(s: string): string {
    if s == "" then "" else [if 'A' <= s[0] <= 'Z' then (s[0] as int + 32) as char else s[0]] + Lower(s[1..])
  }

  function Utf8Length(s: string): nat {
    if s == "" then 0
    else
      var c := s[0] as int;
      (if c < 0x80 then 1 else if c < 0x800 then 2 else if c < 0x10000 then 3 else 4) + Utf8Length(s[1..])
  }

  /** Bytes of the path text, separators included. */
  function PathLength(p: Path): nat {
    if p == [] then 0 else Utf8Length(p[0]) + (if |p| > 1 then 1 else 0) + PathLength(p[1..])
  }

  predicate SafeComponent(c: string) {
    && c != "" && c != "." && c != ".." && '\\' !in c && '\0' !in c
    && !(".env" <= Lower(c)) && Lower(c) != "secrets" && Lower(c) != ".git"
  }

  predicate SafePath(p: Path) {
    p != [] && PathLength(p) <= 4096 && forall i :: 0 <= i < |p| ==> SafeComponent(p[i])
  }

  // ---------- what a safe path can reach ----------

  /** `s` is `name` in some letter case. */
  predicate Spells(s: string, name: string) {
    |s| == |name| && forall i :: 0 <= i < |s| ==> s[i] == name[i] || IsCapitalOf(s[i], name[i])
  }

  predicate IsCapitalOf(c: char, d: char) {
    'A' <= c <= 'Z' && c as int + 32 == d as int
  }

  lemma {:induction false} LowerIs(s: string)
    ensures |Lower(s)| == |s|
    ensures forall i :: 0 <= i < |s| ==>
              if 'A' <= s[i] <= 'Z' then IsCapitalOf(s[i], Lower(s)[i]) else Lower(s)[i] == s[i]
  {
    if s != "" {
      LowerIs(s[1..]);
    }
  }

  lemma {:induction false} SpellsIs(s: string, name: string)
    requires forall i :: 0 <= i < |name| ==> !('A' <= name[i] <= 'Z')
    ensures Lower(s) == name <==> Spells(s, name)
    ensures name <= Lower(s) <==> |name| <= |s| && Spells(s[..|name|], name)
  {
    LowerIs(s);
  }

  /** A component is safe exactly when it names an entry and no secret, repository or environment file in any case. */
  lemma {:induction false} SafeComponentExact(c: string)
    ensures SafeComponent(c) <==>
              (c !in {"", ".", ".."} && (forall i :: 0 <= i < |c| ==> c[i] != '\\' && c[i] != '\0')
               && !Spells(c, "secrets") && !Spells(c, ".git") && !(|c| >= 4 && Spells(c[..4], ".env")))
  {
    SpellsIs(c, "secrets");
    SpellsIs(c, ".git");
    SpellsIs(c, ".env");
  }

  /** Where the filesystem ends up walking `p` from `at` below the root; None when it would leave the root. */
  function Walk(at: Path, p: Path): Option<Path>
    decreases |p|
  {
    if p == [] then Some(at)
    else if p[0] == "" || p[0] == "." then Walk(at, p[1..])
    else if p[0] != ".." then Walk(at + [p[0]], p[1..])
    else if at == [] then None
    else Walk(at[..|at| - 1], p[1..])
  }

  lemma {:induction false} WalkForward(at: Path, p: Path)
    requires forall i :: 0 <= i < |p| ==> p[i] !in {"", ".", ".."}
    ensures Walk(at, p) == Some(at + p)
    decreases |p|
  {
    if p == [] {
      assert at + p == at;
    } else {
      WalkForward(at + [p[0]], p[1..]);
      assert at + [p[0]] + p[1..] == at + p;
    }
  }

  /** A safe path, and every directory on its way, is the entry it names below the root. */
  lemma {:induction false} SafePathStaysInside(p: Path, m: nat)
    requires SafePath(p) && m <= |p|
    ensures Walk([], p[..m]) == Some(p[..m])
    ensures forall i :: 0 <= i < m ==> !Spells(p[i], "secrets") && !Spells(p[i], ".git")
    ensures forall i :: 0 <= i < m && |p[i]| >= 4 ==> !Spells(p[i][..4], ".env")
  {
    forall i | 0 <= i < |p|
      ensures p[i] !in {"", ".", ".."} && !Spells(p[i], "secrets") && !Spells(p[i], ".git")
      ensures |p[i]| >= 4 ==> !Spells(p[i][..4], ".env")
    {
      SafeComponentExact(p[i]);
    }
    WalkForward([], p[..m]);
    assert [] + p[..m] == p[..m];
  }

  function Joined(p: Path): string {
    if p == [] then "" else if |p| == 1 then p[0] else p[0] + "/" + Joined(p[1..])
  }

  lemma {:induction false} Utf8Concat(s: string, t: string)
    ensures Utf8Length(s + t) == Utf8Length(s) + Utf8Length(t)
  {
    if s == "" {
      assert s + t == t;
    } else {
      assert (s + t)[1..] == s[1..] + t;
      Utf8Concat(s[1..], t);
    }
  }

  /** The length that is limited is that of the path's text in UTF-8. */
  lemma {:induction false} PathLengthIs(p: Path)
    ensures PathLength(p) == Utf8Length(Joined(p))
  {
    if |p| == 1 {
      assert PathLength(p[1..]) == 0;
    } else if |p| > 1 {
      PathLengthIs(p[1..]);
      Utf8Concat(p[0] + "/", Joined(p[1..]));
      Utf8Concat(p[0], "/");
      assert Utf8Length("/") == 1 by { assert "/"[1..] == ""; }
    }
  }

  // ---------- requests ----------

  predicate ProperAncestor(a: Path, b: Path) {
    a < b && a != []
  }

  /** `p` is a directory above one of the first `n` requested paths. */
  predicate AboveSome(p: Path, arts: seq<Artifact>, n: nat)
    requires n <= |arts|
  {
    exists k :: 0 <= k < n && ProperAncestor(p, arts[k].path)
  }

  /** No requested path is a directory above another. */
  predicate NonAncestors(arts: seq<Artifact>) {
    forall i :: 0 <= i < |arts| ==> !AboveSome(arts[i].path, arts, |arts|)
  }

  /** The staged file of artifact `i`, beside its destination. */
  function Temp(arts: seq<Artifact>, temps: nat -> string, i: nat): Path
    requires i < |arts|
  {
    Parent(arts[i].path) + [temps(i)]
  }

  function Parent(p: Path): Path {
    if p == [] then [] else p[..|p| - 1]
  }

  /** The random names are no component of a requested path. */
  ghost predicate FreshNames(temps: nat -> string, arts: seq<Artifact>) {
    forall i: nat, k :: 0 <= k < |arts| ==> temps(i) !in arts[k].path
  }

  function Content(a: Artifact): Bytes {
    if a.data.Some? then a.data.value else []
  }

  function TotalSize(arts: seq<Artifact>, n: nat): nat
    requires n <= |arts|
  {
    if n == 0 then 0 else TotalSize(arts, n - 1) + |Content(arts[n - 1])|
  }

  function PathSet(arts: seq<Artifact>, n: nat): set<Path>
    requires n <= |arts|
  {
    if n == 0 then {} else PathSet(arts, n - 1) + {arts[n - 1].path}
  }

  lemma {:induction false} PathSetHolds(arts: seq<Artifact>, n: nat)
    requires n <= |arts|
    ensures forall p :: p in PathSet(arts, n) <==> exists j :: 0 <= j < n && arts[j].path == p
  {
    if n > 0 {
      PathSetHolds(arts, n - 1);
    }
  }

  /** The checks on the request alone: path, duplicates, encoding and the two size limits. */
  predicate WellFormed(arts: seq<Artifact>, i: nat)
    requires i < |arts|
  {
    && SafePath(arts[i].path)
    && (forall j :: 0 <= j < i ==> arts[j].path != arts[i].path)
    && arts[i].data.Some? && |Content(arts[i])| <= MAX_FILE && TotalSize(arts, i + 1) <= MAX_PULL
  }

  /** What the worktree before the call must allow for artifact `i` to be staged after those before it. */
  ghost predicate Allowed(t0: Tree, arts: seq<Artifact>, temps: nat -> string, i: nat)
    requires i < |arts|
  {
    && OpenAbove(t0, arts[i].path)
    && FreeTarget(t0, arts[i].path)
    && !AboveSome(arts[i].path, arts, i)
    && FreeTemp(t0, arts, temps, i)
  }

  ghost predicate Admissible(t0: Tree, arts: seq<Artifact>, temps: nat -> string, i: nat)
    requires i < |arts|
  {
    WellFormed(arts, i) && Allowed(t0, arts, temps, i)
  }

  /** No entry above `path` stands in the way of a directory. */
  predicate OpenAbove(t: Tree, path: Path) {
    forall m :: 0 < m < |path| && path[..m] in t ==> t[path[..m]].Dir?
  }

  /** The destination is absent or a plain file. */
  predicate FreeTarget(t: Tree, path: Path) {
    path in t ==> t[path].File?
  }

  ghost predicate FreeTemp(t0: Tree, arts: seq<Artifact>, temps: nat -> string, i: nat)
    requires i < |arts|
  {
    Temp(arts, temps, i) !in t0 && forall j :: 0 <= j < i ==> Temp(arts, temps, j) != Temp(arts, temps, i)
  }

  ghost predicate AllAdmissible(t0: Tree, arts: seq<Artifact>, temps: nat -> string, n: nat)
    requires n <= |arts|
  {
    forall i :: 0 <= i < n ==> Admissible(t0, arts, temps, i)
  }

  lemma {:induction false} TempIsNoRequest(arts: seq<Artifact>, temps: nat -> string, i: nat, b: Path)
    requires i < |arts| && temps(i) !in b
    ensures !(Temp(arts, temps, i) <= b)
  {
    var t := Temp(arts, temps, i);
    if t <= b {
      LastOfPrefix(t, b);
    }
  }

  lemma {:induction false} LastOfPrefix(t: Path, b: Path)
    requires t != [] && t <= b
    ensures t[|t| - 1] in b
  {
    assert t[|t| - 1] == b[|t| - 1];
  }

  // ---------- what the tree looks like ----------

  predicate HoldsFile(t: Tree, p: Path, data: Bytes) {
    p in t && t[p] == File(data)
  }

  predicate HasParents(t: Tree, path: Path) {
    forall m :: 0 < m < |path| ==> path[..m] in t && t[path[..m]].Dir?
  }

  /** The directories above the first `n` artifacts are in place. */
  predicate ParentsMade(t: Tree, arts: seq<Artifact>, n: nat)
    requires n <= |arts|
  {
    forall i :: 0 <= i < n ==> HasParents(t, arts[i].path)
  }

  /** The first `k` artifacts are at their destinations. */
  predicate Placed(t: Tree, arts: seq<Artifact>, k: nat)
    requires k <= |arts|
  {
    forall i :: 0 <= i < k ==> HoldsFile(t, arts[i].path, Content(arts[i]))
  }

  /** Artifacts `k` up to `n` are under their temporary names. */
  predicate Staged(t: Tree, arts: seq<Artifact>, temps: nat -> string, k: nat, n: nat)
    requires n <= |arts|
  {
    forall i :: k <= i < n ==> HoldsFile(t, Temp(arts, temps, i), Content(arts[i]))
  }

  predicate IsTemp(arts: seq<Artifact>, temps: nat -> string, from: nat, to: nat, p: Path)
    requires to <= |arts|
  {
    exists k :: from <= k < to && p == Temp(arts, temps, k)
  }

  predicate IsTarget(arts: seq<Artifact>, k: nat, p: Path)
    requires k <= |arts|
  {
    exists i :: 0 <= i < k && arts[i].path == p
  }

  /** Everything there before, apart from the first `k` destinations, is as it was. */
  ghost predicate Kept(t0: Tree, t: Tree, arts: seq<Artifact>, k: nat)
    requires k <= |arts|
  {
    forall p :: p in t0 && !IsTarget(arts, k, p) ==> p in t && t[p] == t0[p]
  }

  /** A new entry is a destination, a directory above one of the first `d` requests, or a staged file. */
  ghost predicate Accounted(t0: Tree, t: Tree, arts: seq<Artifact>, temps: nat -> string, k: nat, n: nat, d: nat)
    requires k <= |arts| && n <= |arts| && d <= |arts|
  {
    forall p :: p in t && p !in t0 && !IsTarget(arts, k, p) && !IsTemp(arts, temps, k, n, p)
      ==> t[p].Dir? && AboveSome(p, arts, d)
  }

  /** The first `n` artifacts are staged and the first `k` of them renamed. */
  ghost predicate Progress(t0: Tree, t: Tree, arts: seq<Artifact>, temps: nat -> string, k: nat, n: nat, d: nat)
    requires k <= n <= d <= |arts|
  {
    && ParentsMade(t, arts, n)
    && Placed(t, arts, k)
    && Staged(t, arts, temps, k, n)
    && Kept(t0, t, arts, k)
    && Accounted(t0, t, arts, temps, k, n, d)
  }

  /** The result: the first `k` artifacts in place, all else unchanged, and nothing new but directories. */
  ghost predicate Applied(t0: Tree, t: Tree, arts: seq<Artifact>, k: nat)
    requires k <= |arts|
  {
    && Placed(t, arts, k)
    && Kept(t0, t, arts, k)
    && (forall p :: p in t && p !in t0 && !IsTarget(arts, k, p) ==> t[p].Dir? && AboveSome(p, arts, |arts|))
  }

  // ---------- staging ----------

  /** Only directories above `path` were added. */
  ghost predicate Grown(t: Tree, t': Tree, path: Path) {
    && (forall p :: p in t ==> p in t' && t'[p] == t[p])
    && (forall p :: p in t' && p !in t ==> t'[p].Dir? && ProperAncestor(p, path))
  }

  lemma {:induction false} GrownKeepsProgress(
    t0: Tree, t: Tree, t': Tree, arts: seq<Artifact>, temps: nat -> string, n: nat)
    requires n < |arts| && Progress(t0, t, arts, temps, 0, n, n) && Grown(t, t', arts[n].path)
    ensures Progress(t0, t', arts, temps, 0, n, n + 1)
  {
    forall i | 0 <= i < n ensures HasParents(t', arts[i].path) {
      assert HasParents(t, arts[i].path);
    }
    forall i | 0 <= i < n ensures HoldsFile(t', Temp(arts, temps, i), Content(arts[i])) {
      assert HoldsFile(t, Temp(arts, temps, i), Content(arts[i]));
    }
    forall p | p in t' && p !in t0 && !IsTemp(arts, temps, 0, n, p)
      ensures t'[p].Dir? && AboveSome(p, arts, n + 1)
    {
      if p !in t {
        assert ProperAncestor(p, arts[n].path);
      } else {
        var j :| 0 <= j < n && ProperAncestor(p, arts[j].path);
      }
    }
  }

  lemma {:induction false} StageOne(t0: Tree, t: Tree, arts: seq<Artifact>, temps: nat -> string, n: nat)
    requires n < |arts| && Progress(t0, t, arts, temps, 0, n, n + 1)
    requires HasParents(t, arts[n].path) && Temp(arts, temps, n) !in t
    ensures Progress(t0, t[Temp(arts, temps, n) := File(Content(arts[n]))], arts, temps, 0, n + 1, n + 1)
  {
    var tp := Temp(arts, temps, n);
    var t' := t[tp := File(Content(arts[n]))];
    forall i | 0 <= i < n + 1 ensures HasParents(t', arts[i].path) {
      assert HasParents(t, arts[i].path);
    }
    forall i | 0 <= i < n ensures HoldsFile(t', Temp(arts, temps, i), Content(arts[i])) {
      assert HoldsFile(t, Temp(arts, temps, i), Content(arts[i]));
    }
    StageAccounted(t0, t, t', arts, temps, n);
  }

  lemma {:induction false} StageAccounted(
    t0: Tree, t: Tree, t': Tree, arts: seq<Artifact>, temps: nat -> string, n: nat)
    requires n < |arts| && Accounted(t0, t, arts, temps, 0, n, n + 1)
    requires t' == t[Temp(arts, temps, n) := File(Content(arts[n]))]
    ensures Accounted(t0, t', arts, temps, 0, n + 1, n + 1)
  {
    forall p | p in t' && p !in t0 && !IsTemp(arts, temps, 0, n + 1, p)
      ensures t'[p].Dir? && AboveSome(p, arts, n + 1)
    {
      assert p != Temp(arts, temps, n);
      assert !IsTemp(arts, temps, 0, n, p);
    }
  }

  /** While staging, a path on the way to a request is as it was, or is a directory made for an earlier one. */
  lemma {:induction false} SeenWhileStaging(
    t0: Tree, t: Tree, arts: seq<Artifact>, temps: nat -> string, n: nat, q: Path)
    requires n < |arts| && Progress(t0, t, arts, temps, 0, n, n) && FreshNames(temps, arts)
    requires q <= arts[n].path && q in t && q !in t0
    ensures t[q].Dir? && AboveSome(q, arts, n)
  {
    forall i | 0 <= i < n ensures q != Temp(arts, temps, i) {
      TempIsNoRequest(arts, temps, i, arts[n].path);
    }
    assert !IsTemp(arts, temps, 0, n, q) && !IsTarget(arts, 0, q);
  }

  /** What the parent walk and the two look-ups see is what `Admissible` says of the tree before the call. */
  lemma {:induction false} StagingSeesStart(t0: Tree, t: Tree, arts: seq<Artifact>, temps: nat -> string, n: nat)
    requires n < |arts| && Progress(t0, t, arts, temps, 0, n, n) && FreshNames(temps, arts)
    ensures OpenAbove(t, arts[n].path) <==> OpenAbove(t0, arts[n].path)
  {
    var p := arts[n].path;
    forall m | 0 < m < |p| ensures p[..m] in t0 ==> p[..m] in t && t[p[..m]] == t0[p[..m]] {
      assert !IsTarget(arts, 0, p[..m]);
    }
    forall m | 0 < m < |p| && p[..m] in t && p[..m] !in t0 ensures t[p[..m]].Dir? {
      SeenWhileStaging(t0, t, arts, temps, n, p[..m]);
    }
  }

  lemma {:induction false} DestinationSeesStart(t0: Tree, t: Tree, arts: seq<Artifact>, temps: nat -> string, n: nat)
    requires n < |arts| && Progress(t0, t, arts, temps, 0, n, n) && FreshNames(temps, arts)
    requires arts[n].path != []
    ensures FreeTarget(t, arts[n].path) <==> FreeTarget(t0, arts[n].path) && !AboveSome(arts[n].path, arts, n)
  {
    var p := arts[n].path;
    assert !IsTarget(arts, 0, p);
    if p in t && p !in t0 {
      SeenWhileStaging(t0, t, arts, temps, n, p);
    }
    if AboveSome(p, arts, n) {
      MadeAbove(t, arts, n, p);
    }
  }

  lemma {:induction false} MadeAbove(t: Tree, arts: seq<Artifact>, n: nat, p: Path)
    requires n <= |arts| && ParentsMade(t, arts, n) && AboveSome(p, arts, n)
    ensures p in t && t[p].Dir?
  {
    var j :| 0 <= j < n && ProperAncestor(p, arts[j].path);
    assert HasParents(t, arts[j].path);
    assert arts[j].path[..|p|] == p;
  }

  lemma {:induction false} TempSeesStart(t0: Tree, t: Tree, arts: seq<Artifact>, temps: nat -> string, n: nat)
    requires n < |arts| && Progress(t0, t, arts, temps, 0, n, n) && FreshNames(temps, arts)
    ensures Temp(arts, temps, n) !in t <==> FreeTemp(t0, arts, temps, n)
  {
    var tp := Temp(arts, temps, n);
    assert !IsTarget(arts, 0, tp);
    forall j | 0 <= j < n ensures Temp(arts, temps, j) in t && !ProperAncestor(tp, arts[j].path) {
      assert HoldsFile(t, Temp(arts, temps, j), Content(arts[j]));
      TempIsNoRequest(arts, temps, n, arts[j].path);
    }
    assert !AboveSome(tp, arts, n);
    if tp in t && tp !in t0 {
      assert IsTemp(arts, temps, 0, n, tp);
    }
  }

  /** What staging artifact `i` looks at: the tree `t` it finds, and `grown` once the parents are made. */
  predicate Stageable(t: Tree, grown: Tree, arts: seq<Artifact>, temps: nat -> string, i: nat)
    requires i < |arts|
  {
    OpenAbove(t, arts[i].path) && FreeTarget(grown, arts[i].path) && Temp(arts, temps, i) !in grown
  }

  /** Staging succeeds exactly when the tree before the call admits the artifact. */
  lemma {:induction false} StageDecides(
    t0: Tree, t: Tree, grown: Tree, arts: seq<Artifact>, temps: nat -> string, n: nat)
    requires n < |arts| && Progress(t0, t, arts, temps, 0, n, n) && FreshNames(temps, arts)
    requires Grown(t, grown, arts[n].path) && arts[n].path != []
    ensures Stageable(t, grown, arts, temps, n) <==> Allowed(t0, arts, temps, n)
  {
    StagingSeesStart(t0, t, arts, temps, n);
    DestinationSeesStart(t0, t, arts, temps, n);
    TempSeesStart(t0, t, arts, temps, n);
    TempIsNoRequest(arts, temps, n, arts[n].path);
  }

  // ---------- renaming and cleaning up ----------

  /** A destination that is no file when its rename comes is a directory above another request. */
  lemma {:induction false} RenameBlocked(t0: Tree, t: Tree, arts: seq<Artifact>, temps: nat -> string, k: nat)
    requires k < |arts| && Progress(t0, t, arts, temps, k, |arts|, |arts|) && FreshNames(temps, arts)
    requires AllAdmissible(t0, arts, temps, |arts|)
    requires !FreeTarget(t, arts[k].path)
    ensures AboveSome(arts[k].path, arts, |arts|)
  {
    var p := arts[k].path;
    assert Admissible(t0, arts, temps, k);
    assert !IsTarget(arts, k, p);
    forall i | k <= i < |arts| ensures p != Temp(arts, temps, i) {
      TempIsNoRequest(arts, temps, i, p);
    }
    assert !IsTemp(arts, temps, k, |arts|, p);
  }

  /** The tree after artifact `k` is renamed into place. */
  function Renamed(t: Tree, arts: seq<Artifact>, temps: nat -> string, k: nat): Tree
    requires k < |arts|
  {
    (t - {Temp(arts, temps, k)})[arts[k].path := File(Content(arts[k]))]
  }

  lemma {:induction false} RenameOne(t0: Tree, t: Tree, arts: seq<Artifact>, temps: nat -> string, k: nat)
    requires k < |arts| && Progress(t0, t, arts, temps, k, |arts|, |arts|) && FreshNames(temps, arts)
    requires AllAdmissible(t0, arts, temps, |arts|)
    requires FreeTarget(t, arts[k].path)
    ensures Progress(t0, Renamed(t, arts, temps, k), arts, temps, k + 1, |arts|, |arts|)
  {
    RenameParents(t, arts, temps, k);
    RenamePlaces(t0, t, arts, temps, k);
    RenameStaged(t0, t, arts, temps, k);
    RenameKeeps(t0, t, arts, temps, k);
    RenameAccounted(t0, t, arts, temps, k);
  }

  lemma {:induction false} RenameParents(t: Tree, arts: seq<Artifact>, temps: nat -> string, k: nat)
    requires k < |arts| && ParentsMade(t, arts, |arts|) && FreshNames(temps, arts)
    requires FreeTarget(t, arts[k].path)
    ensures ParentsMade(Renamed(t, arts, temps, k), arts, |arts|)
  {
    var t' := Renamed(t, arts, temps, k);
    forall i | 0 <= i < |arts| ensures HasParents(t', arts[i].path) {
      var p := arts[i].path;
      assert HasParents(t, p);
      TempIsNoRequest(arts, temps, k, p);
      forall m | 0 < m < |p| ensures p[..m] in t' && t'[p[..m]].Dir? {
        assert p[..m] <= p;
      }
    }
  }

  lemma {:induction false} RenamePlaces(t0: Tree, t: Tree, arts: seq<Artifact>, temps: nat -> string, k: nat)
    requires k < |arts| && Placed(t, arts, k) && FreshNames(temps, arts)
    requires AllAdmissible(t0, arts, temps, |arts|)
    ensures Placed(Renamed(t, arts, temps, k), arts, k + 1)
  {
    assert Admissible(t0, arts, temps, k);
    forall i | 0 <= i < k ensures HoldsFile(Renamed(t, arts, temps, k), arts[i].path, Content(arts[i])) {
      assert HoldsFile(t, arts[i].path, Content(arts[i]));
      TempIsNoRequest(arts, temps, k, arts[i].path);
    }
  }

  lemma {:induction false} RenameStaged(t0: Tree, t: Tree, arts: seq<Artifact>, temps: nat -> string, k: nat)
    requires k < |arts| && Staged(t, arts, temps, k, |arts|) && FreshNames(temps, arts)
    requires AllAdmissible(t0, arts, temps, |arts|)
    ensures Staged(Renamed(t, arts, temps, k), arts, temps, k + 1, |arts|)
  {
    forall i | k + 1 <= i < |arts|
      ensures HoldsFile(Renamed(t, arts, temps, k), Temp(arts, temps, i), Content(arts[i]))
    {
      assert HoldsFile(t, Temp(arts, temps, i), Content(arts[i]));
      assert Admissible(t0, arts, temps, i);
      assert FreeTemp(t0, arts, temps, i);
      TempIsNoRequest(arts, temps, i, arts[k].path);
    }
  }

  lemma {:induction false} RenameKeeps(t0: Tree, t: Tree, arts: seq<Artifact>, temps: nat -> string, k: nat)
    requires k < |arts| && Kept(t0, t, arts, k)
    requires AllAdmissible(t0, arts, temps, |arts|)
    ensures Kept(t0, Renamed(t, arts, temps, k), arts, k + 1)
  {
    var t' := Renamed(t, arts, temps, k);
    assert Admissible(t0, arts, temps, k);
    assert FreeTemp(t0, arts, temps, k);
    forall p | p in t0 && !IsTarget(arts, k + 1, p) ensures p in t' && t'[p] == t0[p] {
      assert p != arts[k].path && !IsTarget(arts, k, p);
    }
  }

  lemma {:induction false} RenameAccounted(t0: Tree, t: Tree, arts: seq<Artifact>, temps: nat -> string, k: nat)
    requires k < |arts| && Accounted(t0, t, arts, temps, k, |arts|, |arts|)
    ensures Accounted(t0, Renamed(t, arts, temps, k), arts, temps, k + 1, |arts|, |arts|)
  {
    var n, t' := |arts|, Renamed(t, arts, temps, k);
    forall p | p in t' && p !in t0 && !IsTarget(arts, k + 1, p) && !IsTemp(arts, temps, k + 1, n, p)
      ensures t'[p].Dir? && AboveSome(p, arts, n)
    {
      assert p != arts[k].path && !IsTarget(arts, k, p);
      assert !IsTemp(arts, temps, k, n, p);
    }
  }

  /** What has been renamed into place is above no request. */
  lemma {:induction false} PlacedIsNotAbove(t: Tree, arts: seq<Artifact>, k: nat, i: nat)
    requires i < k <= |arts| && ParentsMade(t, arts, |arts|) && Placed(t, arts, k)
    ensures !AboveSome(arts[i].path, arts, |arts|)
  {
    assert HoldsFile(t, arts[i].path, Content(arts[i]));
    forall j | 0 <= j < |arts| ensures !ProperAncestor(arts[i].path, arts[j].path) {
      assert HasParents(t, arts[j].path);
      NotAParent(t, arts[i].path, arts[j].path);
    }
  }

  lemma {:induction false} NotAParent(t: Tree, p: Path, q: Path)
    requires p in t && t[p].File? && HasParents(t, q)
    ensures !ProperAncestor(p, q)
  {
    assert 0 < |p| < |q| ==> q[..|p|] != p;
  }

  /** The names the cleanup unlinks. */
  function TempSet(arts: seq<Artifact>, temps: nat -> string, n: nat): set<Path>
    requires n <= |arts|
  {
    set i | 0 <= i < n :: Temp(arts, temps, i)
  }

  lemma {:induction false} CleanupApplies(
    t0: Tree, t: Tree, arts: seq<Artifact>, temps: nat -> string, k: nat, n: nat, d: nat)
    requires k <= n <= d <= |arts| && Progress(t0, t, arts, temps, k, n, d) && FreshNames(temps, arts)
    requires AllAdmissible(t0, arts, temps, n)
    ensures Applied(t0, t - TempSet(arts, temps, n), arts, k)
  {
    var ts := TempSet(arts, temps, n);
    var t' := t - ts;
    forall i | 0 <= i < k ensures HoldsFile(t', arts[i].path, Content(arts[i])) {
      assert HoldsFile(t, arts[i].path, Content(arts[i]));
      forall j | 0 <= j < n ensures Temp(arts, temps, j) != arts[i].path {
        TempIsNoRequest(arts, temps, j, arts[i].path);
      }
    }
    forall p | p in t0 ensures p !in ts {
      forall j | 0 <= j < n ensures Temp(arts, temps, j) != p {
        assert Admissible(t0, arts, temps, j);
        assert FreeTemp(t0, arts, temps, j);
      }
    }
    forall p | p in t' && p !in t0 && !IsTarget(arts, k, p) ensures t'[p].Dir? && AboveSome(p, arts, |arts|) {
      assert !IsTemp(arts, temps, k, n, p);
      assert AboveSome(p, arts, d);
    }
  }

  // ---------- the operation ----------

  /** `Stopped(k)`: the rename of artifact k failed after the first k were in place. */
  datatype Outcome = Refused | Stopped(k: nat) | Done

  class Worktree {
    var tree: Tree

    constructor (t: Tree)
      ensures tree == t
    {
      tree := t;
    }

    /** Opens the directories above `path`, making the missing ones. */
    method MakeParents(path: Path) returns (ok: bool)
      requires path != []
      modifies this
      ensures Grown(old(tree), tree, path)
      ensures ok <==> OpenAbove(old(tree), path)
      ensures ok ==> HasParents(tree, path)
    {
      for m := 1 to |path|
        invariant Grown(old(tree), tree, path)
        invariant forall j :: 0 < j < m ==> path[..j] in tree && tree[path[..j]].Dir?
        invariant forall p :: |p| >= m && p in tree ==> p in old(tree)
      {
        if path[..m] !in tree {
          assert ProperAncestor(path[..m], path);
          tree := tree[path[..m] := Dir];
        } else if !tree[path[..m]].Dir? {
          return false;
        }
      }
      return true;
    }

    /** Validates destination `i` and stages its artifact; `grown` is the tree with the parents made. */
    method Stage(arts: seq<Artifact>, temps: nat -> string, i: nat) returns (ok: bool, ghost grown: Tree)
      requires i < |arts| && arts[i].path != []
      modifies this
      ensures Grown(old(tree), grown, arts[i].path)
      ensures !ok ==> tree == grown
      ensures ok ==> HasParents(grown, arts[i].path) && Temp(arts, temps, i) !in grown
      ensures ok ==> tree == grown[Temp(arts, temps, i) := File(Content(arts[i]))]
      ensures ok <==> Stageable(old(tree), grown, arts, temps, i)
    {
      ok := MakeParents(arts[i].path);
      grown := tree;
      if ok {
        ok := FreeTarget(tree, arts[i].path) && Temp(arts, temps, i) !in tree;
        if ok {
          tree := tree[Temp(arts, temps, i) := File(Content(arts[i]))];
        }
      }
    }

    /** Unlinks every staged name that is still there. */
    method Cleanup(arts: seq<Artifact>, temps: nat -> string, n: nat)
      requires n <= |arts|
      modifies this
      ensures tree == old(tree) - TempSet(arts, temps, n)
    {
      for i := 0 to n
        invariant tree == old(tree) - TempSet(arts, temps, i)
      {
        tree := tree - {Temp(arts, temps, i)};
      }
    }

    /** The request checks on one artifact, given what the loop has accumulated so far. */
    method Validate(arts: seq<Artifact>, i: nat, seen: set<Path>, total: nat) returns (ok: bool)
      requires i < |arts| && total == TotalSize(arts, i) && seen == PathSet(arts, i)
      ensures ok <==> WellFormed(arts, i)
    {
      PathSetHolds(arts, i);
      var a := arts[i];
      if !SafePath(a.path) || a.path in seen || a.data.None? {
        return false;
      }
      return |a.data.value| <= MAX_FILE && total + |a.data.value| <= MAX_PULL;
    }

    /** Phase one: the first artifact that cannot be staged, or all of them. */
    method StageAll(arts: seq<Artifact>, temps: nat -> string) returns (n: nat, ghost d: nat)
      requires FreshNames(temps, arts)
      modifies this
      ensures n <= d <= |arts| && Progress(old(tree), tree, arts, temps, 0, n, d)
      ensures AllAdmissible(old(tree), arts, temps, n)
      ensures n < |arts| ==> !Admissible(old(tree), arts, temps, n)
    {
      var total: nat := 0;
      var seen: set<Path> := {};
      n, d := 0, 0;
      while n < |arts|
        invariant n == d <= |arts| && Progress(old(tree), tree, arts, temps, 0, n, n)
        invariant AllAdmissible(old(tree), arts, temps, n)
        invariant seen == PathSet(arts, n)
        invariant total == TotalSize(arts, n)
      {
        var ok := Validate(arts, n, seen, total);
        if !ok {
          return;
        }
        ok, d := StageNext(old(tree), arts, temps, n);
        if !ok {
          return;
        }
        assert Admissible(old(tree), arts, temps, n);
        seen, total, n := seen + {arts[n].path}, total + |Content(arts[n])|, n + 1;
      }
    }

    /** One round of staging, seen from the tree `t0` before the call. */
    method StageNext(ghost t0: Tree, arts: seq<Artifact>, temps: nat -> string, n: nat) returns (ok: bool, ghost d: nat)
      requires n < |arts| && Progress(t0, tree, arts, temps, 0, n, n) && FreshNames(temps, arts)
      requires arts[n].path != []
      modifies this
      ensures ok <==> Allowed(t0, arts, temps, n)
      ensures d == n + 1 && Progress(t0, tree, arts, temps, 0, if ok then n + 1 else n, d)
    {
      ghost var before := tree;
      d := n + 1;
      ghost var grown;
      ok, grown := Stage(arts, temps, n);
      StageDecides(t0, before, grown, arts, temps, n);
      GrownKeepsProgress(t0, before, grown, arts, temps, n);
      if ok {
        StageOne(t0, grown, arts, temps, n);
      }
    }

    /** Phase two: the number of artifacts renamed into place before one could not be. */
    method RenameAll(ghost t0: Tree, arts: seq<Artifact>, temps: nat -> string) returns (k: nat)
      requires FreshNames(temps, arts) && AllAdmissible(t0, arts, temps, |arts|)
      requires Progress(t0, tree, arts, temps, 0, |arts|, |arts|)
      modifies this
      ensures k <= |arts| && Progress(t0, tree, arts, temps, k, |arts|, |arts|)
      ensures forall i :: 0 <= i < k ==> !AboveSome(arts[i].path, arts, |arts|)
      ensures k < |arts| ==> AboveSome(arts[k].path, arts, |arts|)
    {
      k := 0;
      while k < |arts| && FreeTarget(tree, arts[k].path)
        invariant k <= |arts| && Progress(t0, tree, arts, temps, k, |arts|, |arts|)
      {
        RenameOne(t0, tree, arts, temps, k);
        assert HoldsFile(tree, Temp(arts, temps, k), Content(arts[k]));
        var staged := tree[Temp(arts, temps, k)];
        tree := (tree - {Temp(arts, temps, k)})[arts[k].path := staged];
        k := k + 1;
      }
      if k < |arts| {
        RenameBlocked(t0, tree, arts, temps, k);
      }
      forall i | 0 <= i < k ensures !AboveSome(arts[i].path, arts, |arts|) {
        PlacedIsNotAbove(tree, arts, k, i);
      }
    }

    /**
     The whole operation. It refuses exactly the inadmissible requests and then changes no file; otherwise it
     places every artifact if no requested path is above another, and stops at the first that is. No
     temporary name survives in any case.
     */
    method Pull(arts: seq<Artifact>, temps: nat -> string) returns (r: Outcome)
      requires FreshNames(temps, arts)
      modifies this
      ensures r.Stopped? ==> r.k < |arts|
      ensures Applied(old(tree), tree, arts, match r case Refused => 0 case Stopped(k) => k case Done => |arts|)
      ensures r.Refused? <==> !AllAdmissible(old(tree), arts, temps, |arts|)
      ensures r.Done? <==> AllAdmissible(old(tree), arts, temps, |arts|) && NonAncestors(arts)
      ensures r.Stopped? ==> AboveSome(arts[r.k].path, arts, |arts|)
                             && forall i :: 0 <= i < r.k ==> !AboveSome(arts[i].path, arts, |arts|)
    {
      ghost var t0 := tree;
      var n, d := StageAll(arts, temps);
      if n < |arts| {
        CleanupApplies(t0, tree, arts, temps, 0, n, d);
        Cleanup(arts, temps, n);
        return Refused;
      }
      var k := RenameAll(t0, arts, temps);
      CleanupApplies(t0, tree, arts, temps, k, |arts|, |arts|);
      Cleanup(arts, temps, |arts|);
      return if k < |arts| then Stopped(k) else Done;
    }
  }

  // ---------- a request that stops half way ----------

  const ANCESTOR_PAIR: seq<Artifact> :=
    [Artifact(["x"], Some([])), Artifact(["a"], Some([])), Artifact(["a", "b"], Some([]))]

  lemma {:induction false} PlainNames()
    ensures SafePath(["x"]) && SafePath(["a"]) && SafePath(["a", "b"])
  {
    forall c: string | |c| == 1 && c[0] in "abx" ensures SafeComponent(c) && Utf8Length(c) == 1 {
      assert Lower(c) == c && Utf8Length(c[1..]) == 0;
    }
    assert PathLength(["a", "b"][1..]) == 1;
  }

  lemma {:induction false} PairIsWellFormed(i: nat)
    requires i < 3
    ensures WellFormed(ANCESTOR_PAIR, i)
  {
    var arts := ANCESTOR_PAIR;
    PlainNames();
    assert TotalSize(arts, 1) == 0 && TotalSize(arts, 2) == 0 && TotalSize(arts, 3) == 0;
    assert arts[i].path in [["x"], ["a"], ["a", "b"]];
  }

  /** The request is staged whole on an empty worktree, and its second path is a directory above the third. */
  lemma {:induction false} PairIsAdmissible(temps: nat -> string)
    requires temps(0) != temps(1)
    ensures AllAdmissible(map[], ANCESTOR_PAIR, temps, 3)
    ensures !AboveSome(["x"], ANCESTOR_PAIR, 3) && AboveSome(["a"], ANCESTOR_PAIR, 3)
  {
    var arts := ANCESTOR_PAIR;
    assert ProperAncestor(["a"], arts[2].path);
    forall k | 0 <= k < 3 ensures !ProperAncestor(["x"], arts[k].path) {
      assert arts[k].path == ["x"] || arts[k].path[0] == "a";
      assert "a"[0] != "x"[0];
    }
    var t0, t1, t2 := Temp(arts, temps, 0), Temp(arts, temps, 1), Temp(arts, temps, 2);
    assert t0 == [temps(0)] && t1 == [temps(1)] && t2 == ["a", temps(2)];
    assert t0[0] != t1[0] && |t2| == 2;
    forall i | 0 <= i < 3 ensures Admissible(map[], arts, temps, i) {
      PairIsWellFormed(i);
    }
  }

  /** Pulling it puts the first file in place and then stops: neither all nor nothing. */
  method AncestorStopsHalfWay(w: Worktree, temps: nat -> string) returns (r: Outcome)
    requires w.tree == map[] && FreshNames(temps, ANCESTOR_PAIR) && temps(0) != temps(1)
    modifies w
    ensures r == Stopped(1) && HoldsFile(w.tree, ["x"], []) && ["a", "b"] !in w.tree
  {
    PairIsAdmissible(temps);
    r := w.Pull(ANCESTOR_PAIR, temps);
    assert ANCESTOR_PAIR[0].path == ["x"] && ANCESTOR_PAIR[1].path == ["a"];
    assert !NonAncestors(ANCESTOR_PAIR);
    assert r.k != 0;
    assert r.k != 2;
  }
}
