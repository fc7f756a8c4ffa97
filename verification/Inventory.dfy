/** A whole scan: what the walk of a directory tree emits, staged and merged,
    makes the catalog the tree. */
module Inventory {
  import opened Prelude
  import opened Disk
  import Grouping
  import Walk
  import WalkLiveness
  import Scan

  // ---------- names and stored paths ----------

  /** What a directory may hold: names without a slash, each once. */
  ghost predicate Proper(children: seq<Walk.Tree>)
    decreases children
  {
    && (forall i, j :: 0 <= i < j < |children| ==> children[i].name != children[j].name)
    && (forall k :: 0 <= k < |children| ==> '/' !in children[k].name && Proper(children[k].children))
  }

  predicate Plain(p: Path) {
    forall k :: 0 <= k < |p| ==> '/' !in p[k]
  }

  function Head(x: string): string {
    if x == "" || x[0] == '/' then "" else [x[0]] + Head(x[1..])
  }

  lemma {:induction false} HeadIs(a: string, s: string)
    requires '/' !in a && (s == "" || s[0] == '/')
    ensures Head(a + s) == a
  {
    if a == "" {
      assert a + s == s;
    } else {
      assert a[0] in a;
      assert (a + s)[1..] == a[1..] + s;
      HeadIs(a[1..], s);
    }
  }

  lemma SlashSplits(a: string, s: string, b: string, t: string)
    requires '/' !in a && '/' !in b && a + s == b + t
    requires (s == "" || s[0] == '/') && (t == "" || t[0] == '/')
    ensures a == b && s == t
  {
    HeadIs(a, s);
    HeadIs(b, t);
    assert s == (a + s)[|a|..] && t == (b + t)[|b|..];
  }

  /** The stored form of a path determines it. */
  lemma {:induction false} PosixInjective(p: Path, q: Path)
    requires Plain(p) && Plain(q) && Grouping.Posix(p) == Grouping.Posix(q)
    ensures p == q
    decreases |p|
  {
    if p != [] && q != [] {
      var s, t := Grouping.Posix(p[1..]), Grouping.Posix(q[1..]);
      assert p[0] + s == Grouping.Posix(p)[1..] == Grouping.Posix(q)[1..] == q[0] + t;
      SlashSplits(p[0], s, q[0], t);
      PosixInjective(p[1..], q[1..]);
    }
  }

  lemma {:induction false} PosixJoin(p: Path, q: Path)
    ensures Grouping.Posix(p + q) == Grouping.Posix(p) + Grouping.Posix(q)
    decreases |p|
  {
    if p == [] {
      assert p + q == q;
    } else {
      assert (p + q)[1..] == p[1..] + q;
      PosixJoin(p[1..], q);
    }
  }

  /** Below a directory is below it by text. */
  lemma BelowByText(at: Path, p: Path)
    requires at < p
    ensures Scan.UnderScope(Grouping.Posix(at), Grouping.Posix(p))
  {
    assert p == at + p[|at|..];
    PosixJoin(at, p[|at|..]);
    assert Grouping.Posix(p[|at|..])[0] == '/';
  }

  /** The text of a scope selects what is below the directory, and nothing of a
      directory whose name merely begins like it. */
  lemma {:induction false} ScopeMeansBelow(at: Path, p: Path)
    requires Plain(at) && Plain(p)
    ensures Scan.UnderScope(Grouping.Posix(at), Grouping.Posix(p)) <==> at < p
  {
    if at < p { BelowByText(at, p); }
    if Scan.UnderScope(Grouping.Posix(at), Grouping.Posix(p)) { TextIsBelow(at, p); }
  }

  lemma {:induction false} TextIsBelow(at: Path, p: Path)
    requires Plain(at) && Plain(p) && Scan.UnderScope(Grouping.Posix(at), Grouping.Posix(p))
    ensures at < p
    decreases |at|
  {
    if at != [] {
      var s, t := Grouping.Posix(at[1..]), Grouping.Posix(p[1..]);
      var rest := Grouping.Posix(p)[|Grouping.Posix(at)| + 1..];
      assert Grouping.Posix(p) == Grouping.Posix(at) + "/" + rest;
      assert p[0] + t == Grouping.Posix(p)[1..] == at[0] + (s + "/" + rest);
      SlashSplits(p[0], t, at[0], s + "/" + rest);
      assert s + "/" <= t;
      TextIsBelow(at[1..], p[1..]);
      assert at == [at[0]] + at[1..] && p == [p[0]] + p[1..];
    }
  }

  // ---------- what is below a directory ----------

  ghost predicate Inside(at: Path, children: seq<Walk.Tree>, e: Walk.Entry) {
    && at < e.path && Plain(e.path[|at|..])
    && exists k :: 0 <= k < |children| && children[k].name == e.path[|at|]
  }

  lemma {:induction false} AllInside(at: Path, children: seq<Walk.Tree>, e: Walk.Entry)
    requires Proper(children) && e in Walk.Below(at, children)
    ensures Inside(at, children, e)
    decreases children, 0
  {
    var t, rest := children[0], children[1..];
    if e == Walk.EntryOf(at, t) {
      assert e.path[|at|..] == [t.name];
    } else if e in Walk.Under(at, t) {
      AllUnder(at, t, e);
    } else {
      AllInside(at, rest, e);
      var k :| 0 <= k < |rest| && rest[k].name == e.path[|at|];
      assert children[k + 1] == rest[k];
    }
  }

  lemma {:induction false} AllUnder(at: Path, t: Walk.Tree, e: Walk.Entry)
    requires '/' !in t.name && Proper(t.children) && e in Walk.Under(at, t)
    ensures at + [t.name] < e.path && Plain(e.path[|at|..]) && e.path[|at|] == t.name
    decreases t, 1
  {
    AllInside(at + [t.name], t.children, e);
    assert e.path[|at|..] == [t.name] + e.path[|at| + 1..];
  }

  /** No path is found twice. */
  lemma {:induction false} PathsOnce(at: Path, children: seq<Walk.Tree>, e: Walk.Entry, f: Walk.Entry)
    requires Proper(children) && e in Walk.Below(at, children) && f in Walk.Below(at, children) && e.path == f.path
    ensures e == f && Walk.Below(at, children)[e] == 1
    decreases children, 0
  {
    var t, rest := children[0], children[1..];
    AllInside(at, children, e);
    if e.path[|at|] == t.name {
      NotInRest(at, children, e);
      NotInRest(at, children, f);
      if e.path == at + [t.name] {
        if e in Walk.Under(at, t) { AllUnder(at, t, e); }
        if f in Walk.Under(at, t) { AllUnder(at, t, f); }
      } else {
        assert t.dir;
        PathsOnce(at + [t.name], t.children, e, f);
      }
    } else {
      if e in Walk.Under(at, t) { AllUnder(at, t, e); }
      if f in Walk.Under(at, t) { AllUnder(at, t, f); }
      PathsOnce(at, rest, e, f);
    }
  }

  lemma NotInRest(at: Path, children: seq<Walk.Tree>, e: Walk.Entry)
    requires Proper(children) && children != [] && |e.path| > |at| && e.path[|at|] == children[0].name
    ensures e !in Walk.Below(at, children[1..])
  {
    if e in Walk.Below(at, children[1..]) {
      AllInside(at, children[1..], e);
    }
  }

  // ---------- staging ----------

  /** The staged form of a walked entry; `format` is the format detection. */
  function Staged(root: Path, format: (Path, bool) -> string, e: Walk.Entry): Scan.Entry {
    Scan.Entry(Grouping.Posix(e.path), Grouping.Posix(root), Grouping.Posix(e.parent), e.name, e.dir, e.size, e.mtime, format(e.path, e.dir))
  }

  function StagedAll(root: Path, format: (Path, bool) -> string, walk: seq<Walk.Entry>): (r: seq<Scan.Entry>)
    ensures |r| == |walk| && forall k :: 0 <= k < |r| ==> r[k] == Staged(root, format, walk[k])
  {
    seq(|walk|, k requires 0 <= k < |walk| => Staged(root, format, walk[k]))
  }

  /** The staging table has the entries, by path, when no path comes twice. */
  lemma {:induction false} TableHolds(entries: seq<Scan.Entry>)
    requires forall i, j :: 0 <= i < j < |entries| ==> entries[i].path != entries[j].path
    ensures forall p :: p in Scan.Table(entries) <==> exists k :: 0 <= k < |entries| && entries[k].path == p
    ensures forall k :: 0 <= k < |entries| ==> entries[k].path in Scan.Table(entries) && Scan.Table(entries)[entries[k].path] == entries[k]
  {
    if entries != [] {
      var init := entries[..|entries| - 1];
      TableHolds(init);
      assert forall k :: 0 <= k < |init| ==> init[k] == entries[k];
    }
  }

  /** A walk that emitted everything below a directory, each entry once. */
  ghost predicate Exact(at: Path, children: seq<Walk.Tree>, walk: seq<Walk.Entry>) {
    multiset(walk) == Walk.Below(at, children)
  }

  lemma StagedOnce(at: Path, children: seq<Walk.Tree>, walk: seq<Walk.Entry>, i: nat, j: nat)
    requires Plain(at) && Proper(children) && Exact(at, children, walk) && i < j < |walk|
    ensures Grouping.Posix(walk[i].path) != Grouping.Posix(walk[j].path)
  {
    assert walk[i] in multiset(walk) && walk[j] in multiset(walk);
    StoredPath(at, children, walk[i]);
    StoredPath(at, children, walk[j]);
    if Grouping.Posix(walk[i].path) == Grouping.Posix(walk[j].path) {
      PosixInjective(walk[i].path, walk[j].path);
      PathsOnce(at, children, walk[i], walk[j]);
      TwiceIsTwo(walk, i, j);
      assert false;
    }
  }

  lemma StoredPath(at: Path, children: seq<Walk.Tree>, e: Walk.Entry)
    requires Plain(at) && Proper(children) && e in Walk.Below(at, children)
    ensures at < e.path && Plain(e.path)
  {
    AllInside(at, children, e);
    forall k | 0 <= k < |e.path| ensures '/' !in e.path[k] {
      if k < |at| {
        assert e.path[k] == at[k];
      } else {
        assert e.path[k] == e.path[|at|..][k - |at|];
      }
    }
  }

  lemma TwiceIsTwo<T>(s: seq<T>, i: nat, j: nat)
    requires i < j < |s| && s[i] == s[j]
    ensures multiset(s)[s[i]] >= 2
  {
    assert s == s[..j] + [s[j]] + s[j + 1..];
    assert s[i] in s[..j];
  }

  /** Something below the directory is stored under this path. */
  ghost predicate Found(at: Path, children: seq<Walk.Tree>, p: string) {
    exists e :: e in Walk.Below(at, children) && Grouping.Posix(e.path) == p
  }

  /** The table of a staged exact walk: exactly the entries below the directory. */
  lemma TableIsTree(root: Path, format: (Path, bool) -> string, at: Path, children: seq<Walk.Tree>, walk: seq<Walk.Entry>)
    requires Plain(at) && Proper(children) && Exact(at, children, walk)
    ensures var staged := Scan.Table(StagedAll(root, format, walk));
      && (forall p :: p in staged <==> Found(at, children, p))
      && (forall e :: e in Walk.Below(at, children) ==> Grouping.Posix(e.path) in staged && staged[Grouping.Posix(e.path)] == Staged(root, format, e))
  {
    var entries := StagedAll(root, format, walk);
    var staged := Scan.Table(entries);
    forall i, j | 0 <= i < j < |entries| ensures entries[i].path != entries[j].path {
      StagedOnce(at, children, walk, i, j);
    }
    TableHolds(entries);
    assert forall e :: e in Walk.Below(at, children) <==> e in multiset(walk);
    hide Walk.Below, Exact;
    forall e | e in multiset(walk) ensures Grouping.Posix(e.path) in staged && staged[Grouping.Posix(e.path)] == Staged(root, format, e) {
      var k :| 0 <= k < |walk| && walk[k] == e;
      assert entries[k] == Staged(root, format, e);
    }
    forall p | p in staged ensures Found(at, children, p) {
      var k :| 0 <= k < |entries| && entries[k].path == p;
      assert walk[k] in multiset(walk);
    }
  }

  /** What the merge asks of the staged rows holds of every staged exact walk. */
  lemma WalkIsStagedFor(root: Path, format: (Path, bool) -> string, at: Path, children: seq<Walk.Tree>, walk: seq<Walk.Entry>)
    requires Plain(at) && Proper(children) && Exact(at, children, walk)
    ensures Scan.StagedFor(Grouping.Posix(root), "", Scan.Table(StagedAll(root, format, walk)))
    ensures Scan.StagedFor(Grouping.Posix(root), Grouping.Posix(at), Scan.Table(StagedAll(root, format, walk)))
  {
    hide StagedAll, Scan.Table, Exact, Walk.Below, Scan.UnderScope, Proper;
    TableIsTree(root, format, at, children, walk);
    var staged := Scan.Table(StagedAll(root, format, walk));
    forall p | p in staged
      ensures staged[p].path == p && staged[p].root == Grouping.Posix(root) && Scan.InScope(Grouping.Posix(at), p)
    {
      assert Found(at, children, p);
      var e :| e in Walk.Below(at, children) && Grouping.Posix(e.path) == p;
      AllInside(at, children, e);
      BelowByText(at, e.path);
    }
  }

  // ---------- the inventory is the disk ----------

  /** A catalog row with the facts of an entry. */
  predicate Shows(row: Scan.Row, root: Path, format: (Path, bool) -> string, e: Walk.Entry) {
    && row.root == Grouping.Posix(root) && row.parent == Grouping.Posix(e.parent) && row.name == e.name && row.dir == e.dir
    && row.size == e.size && row.mtime == e.mtime && row.format == format(e.path, e.dir)
  }

  /** The rows of this root strictly below a directory are exactly what is below
      it on the disk, with its facts; all other rows are as before. */
  ghost predicate CatalogIsTree(before: Scan.Catalog, now: Scan.Catalog, root: Path, scope: string, format: (Path, bool) -> string, at: Path, children: seq<Walk.Tree>) {
    && (forall p :: p in now && now[p].root == Grouping.Posix(root) && Scan.InScope(scope, p) <==> Found(at, children, p))
    && (forall e :: e in Walk.Below(at, children) ==> Grouping.Posix(e.path) in now && Shows(now[Grouping.Posix(e.path)], root, format, e))
    && (forall p :: !Found(at, children, p) && !(p in before && before[p].root == Grouping.Posix(root) && Scan.InScope(scope, p)) ==>
          (p in now <==> p in before) && (p in before ==> now[p] == before[p]))
  }

  lemma ScopeIsTree(before: Scan.Catalog, now: Scan.Catalog, root: Path, scope: string, format: (Path, bool) -> string, at: Path, children: seq<Walk.Tree>, walk: seq<Walk.Entry>)
    requires Plain(at) && Proper(children) && Exact(at, children, walk)
    requires Scan.ScopeIsStaged(before, now, Grouping.Posix(root), scope, Scan.Table(StagedAll(root, format, walk)))
    ensures CatalogIsTree(before, now, root, scope, format, at, children)
  {
    hide StagedAll, Scan.Table, Exact, Walk.Below, Scan.InScope, Scan.Describes, Proper, Plain, Shows, Found;
    TableIsTree(root, format, at, children, walk);
    forall e | e in Walk.Below(at, children) ensures Shows(now[Grouping.Posix(e.path)], root, format, e) {
      DescribedShows(now[Grouping.Posix(e.path)], root, format, e);
    }
  }

  lemma DescribedShows(row: Scan.Row, root: Path, format: (Path, bool) -> string, e: Walk.Entry)
    requires Scan.Describes(row, Staged(root, format, e))
    ensures Shows(row, root, format, e)
  {
  }

  /** How the walk of a scan can return without an error: the parallel walk of a
      root, or the recursive walk of a folder. */
  ghost predicate Returned(at: Path, children: seq<Walk.Tree>, walk: seq<Walk.Entry>) {
    || walk == WalkLiveness.Preorder(at, children)
    || exists workers: nat, actions, t :: workers >= 1 && Walk.Reaches(Walk.Start(Walk.Item(at, children), workers), actions, t)
         && t.phase == Walk.Done(Walk.Complete) && t.emitted == multiset(walk)
  }

  lemma ReturnedIsExact(at: Path, children: seq<Walk.Tree>, walk: seq<Walk.Entry>)
    requires Returned(at, children, walk)
    ensures Exact(at, children, walk)
  {
    if walk == WalkLiveness.Preorder(at, children) {
      WalkLiveness.PreorderIsBelow(at, children);
    } else {
      var workers: nat, actions, t :| workers >= 1 && Walk.Reaches(Walk.Start(Walk.Item(at, children), workers), actions, t)
         && t.phase == Walk.Done(Walk.Complete) && t.emitted == multiset(walk);
      Walk.CompleteWalkIsExact(Walk.Item(at, children), workers, actions, t);
    }
  }

  /** A whole scan of a root (`folder` none) or of one folder of it, with any
      interleaving of walkers, producer and consumer, any failure and any
      cancellation: a scan that is merged and committed makes the catalog the disk,
      unless a cleanup error over stale rows is dropped; any other changes nothing. */
  lemma ScanMakesCatalogTheDisk(rows: Scan.Catalog, scan: string, root: Path, folder: Option<Path>, format: (Path, bool) -> string,
                                children: seq<Walk.Tree>, walk: seq<Walk.Entry>,
                                actions: seq<Scan.Action>, end: Scan.State, merging: bool, faults: Scan.Faults)
    requires var at := if folder.Some? then folder.value else root;
      && root != [] && at != [] && Plain(at) && Proper(children)
      && Scan.Reaches(Scan.Start(StagedAll(root, format, walk)), actions, end) && Scan.BothEnded(end)
      && (end.producer.err.None? ==> Returned(at, children, walk))
    ensures var at := if folder.Some? then folder.value else root;
      var scope := if folder.Some? then Grouping.Posix(folder.value) else "";
      var session := Some(Scan.Session(Grouping.Posix(root), if folder.Some? then Some(scope) else None));
      var now := Scan.ScanResult(rows, scan, Grouping.Posix(root), session, end, merging, faults);
      if Scan.Decide(end) == Scan.Merge && merging && !faults.upsert && !faults.clear && !faults.commit then
        !faults.cleanup || Scan.NothingStale(rows, Grouping.Posix(root), scope, Scan.Table(StagedAll(root, format, walk))) ==>
          CatalogIsTree(rows, now, root, scope, format, at, children)
      else now == rows
  {
    var at := if folder.Some? then folder.value else root;
    var scope := if folder.Some? then Grouping.Posix(folder.value) else "";
    var session := Some(Scan.Session(Grouping.Posix(root), if folder.Some? then Some(scope) else None));
    hide Scan.ScopeIsStaged, Scan.NothingStale, CatalogIsTree, Exact, Returned, Proper, Scan.Table, StagedAll, Scan.Upserted, Scan.Cleaned, Scan.Reaches, Scan.StagedFor;
    if Scan.Decide(end) == Scan.Merge {
      ReturnedIsExact(at, children, walk);
      WalkIsStagedFor(root, format, at, children, walk);
      Scan.ScanIsAllOrNothing(rows, scan, Grouping.Posix(root), session, StagedAll(root, format, walk), actions, end, merging, faults);
      Scan.MergeMeansComplete(StagedAll(root, format, walk), actions, end);
      Scan.MergeIsExact(rows, scan, Grouping.Posix(root), session, Scan.Table(StagedAll(root, format, walk)), faults);
      var now := Scan.ScanResult(rows, scan, Grouping.Posix(root), session, end, merging, faults);
      if Scan.ScopeIsStaged(rows, now, Grouping.Posix(root), scope, Scan.Table(StagedAll(root, format, walk))) {
        ScopeIsTree(rows, now, root, scope, format, at, children, walk);
      }
    }
  }

  /** A folder scan leaves every row that is not strictly below its folder as it
      was, also that of the folder itself and of one whose name begins like it. */
  lemma OutsideStays(before: Scan.Catalog, now: Scan.Catalog, root: Path, format: (Path, bool) -> string, at: Path, children: seq<Walk.Tree>, p: Path)
    requires Plain(at) && Plain(p) && at != [] && Proper(children) && !(at < p)
    requires CatalogIsTree(before, now, root, Grouping.Posix(at), format, at, children)
    ensures Grouping.Posix(p) in now <==> Grouping.Posix(p) in before
    ensures Grouping.Posix(p) in before ==> now[Grouping.Posix(p)] == before[Grouping.Posix(p)]
  {
    hide Scan.UnderScope, Shows, Walk.Below, Found, Proper, Plain;
    ScopeMeansBelow(at, p);
    if Found(at, children, Grouping.Posix(p)) { FoundIsBelow(at, children, p); }
  }

  lemma FoundIsBelow(at: Path, children: seq<Walk.Tree>, p: Path)
    requires Plain(at) && Plain(p) && Proper(children) && Found(at, children, Grouping.Posix(p))
    ensures at < p
  {
    hide Walk.Below, Proper, Plain;
    var e :| e in Walk.Below(at, children) && Grouping.Posix(e.path) == Grouping.Posix(p);
    StoredPath(at, children, e);
    PosixInjective(p, e.path);
  }
}
