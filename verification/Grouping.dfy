/** Observed audio files, their derived names, and the components they form: two
    files belong together when they share a directory or a stem, transitively. */
module Grouping {
  import opened Prelude
  import opened Text
  import opened Ordering
  import opened Audio
  import opened Disk

  /** What this app recorded about a file it generated. */
  datatype Credential = Credential(codec: Codec, bitrate: int, vbr: bool, size: int, mtime: int)

  /** An observed entry: its facts, its measured bitrate in bits per second (0
      when unknown) and its generation credential, if any. */
  datatype File = File(path: Path, size: int, mtime: int, bitrate: int, generated: Option<Credential>)

  function ExtOf(p: Path): string {
    if p == [] then "" else ToLower(Ext(Base(p)))
  }

  function CodecAt(p: Path): Option<Codec> {
    CodecOfExt(ExtOf(p))
  }

  function CodecOf(f: File): Option<Codec> { CodecAt(f.path) }

  predicate IsAudio(f: File) { CodecOf(f).Some? }

  predicate IsLosslessFile(f: File) {
    IsAudio(f) && IsLossless(CodecOf(f).value)
  }

  predicate HasCodec(f: File, c: Codec) { CodecOf(f) == Some(c) }

  function ParentOf(f: File): Path {
    if f.path == [] then [] else Dir(f.path)
  }

  /** The identity stem: the name without its extension, case folded. A name that
      is all extension keeps it. */
  function StemAt(p: Path): string {
    if p == [] then ""
    else
      var base := Base(p);
      ToLower(if |base| > |Ext(base)| then TrimExt(base) else base)
  }

  function StemOf(f: File): string { StemAt(f.path) }

  /** The persisted form of a path, by which lists are ordered. */
  function Posix(p: Path): string {
    if p == [] then [] else "/" + p[0] + Posix(p[1..])
  }

  function Filter<T>(s: seq<T>, keep: T -> bool): (r: seq<T>)
    ensures forall x :: x in r ==> x in s && keep(x)
    ensures forall x :: x in s && keep(x) ==> x in r
    ensures |r| <= |s|
  {
    if s == [] then []
    else
      var init := Filter(s[..|s| - 1], keep);
      assert s == s[..|s| - 1] + [s[|s| - 1]];
      if keep(s[|s| - 1]) then init + [s[|s| - 1]] else init
  }

  predicate PathBefore(a: File, b: File) {
    StringLess(Posix(a.path), Posix(b.path))
  }

  // ---------- the relation ----------

  predicate Linked(files: seq<File>, i: nat, j: nat)
    requires i < |files| && j < |files|
  {
    ParentOf(files[i]) == ParentOf(files[j]) || StemOf(files[i]) == StemOf(files[j])
  }

  ghost predicate Chain(files: seq<File>, chain: seq<nat>) {
    && chain != [] && (forall k :: 0 <= k < |chain| ==> chain[k] < |files|)
    && (forall k :: 0 <= k < |chain| - 1 ==> Linked(files, chain[k], chain[k + 1]))
  }

  ghost predicate Connected(files: seq<File>, i: nat, j: nat) {
    exists chain: seq<nat> :: Chain(files, chain) && chain[0] == i && chain[|chain| - 1] == j
  }

  ghost predicate Closed(files: seq<File>, s: set<nat>) {
    forall i: nat, j: nat :: i in s && i < |files| && j < |files| && Linked(files, i, j) ==> j in s
  }

  lemma {:induction false} ClosedHoldsChains(files: seq<File>, s: set<nat>, chain: seq<nat>)
    requires Closed(files, s) && Chain(files, chain) && chain[0] in s
    ensures chain[|chain| - 1] in s
  {
    if |chain| > 1 {
      assert chain[1] in s by { assert Linked(files, chain[0], chain[0 + 1]); }
      forall k | 0 <= k < |chain[1..]| - 1 ensures Linked(files, chain[1..][k], chain[1..][k + 1]) {
        var x := k + 1;
        assert Linked(files, chain[x], chain[x + 1]);
      }
      ClosedHoldsChains(files, s, chain[1..]);
    }
  }

  lemma ChainExtends(files: seq<File>, i: nat, j: nat, k: nat)
    requires Connected(files, i, j) && j < |files| && k < |files| && Linked(files, j, k)
    ensures Connected(files, i, k)
  {
    var chain: seq<nat> :| Chain(files, chain) && chain[0] == i && chain[|chain| - 1] == j;
    var longer := chain + [k];
    forall x | 0 <= x < |longer| - 1 ensures Linked(files, longer[x], longer[x + 1]) {
      if x < |chain| - 1 {
        assert Linked(files, chain[x], chain[x + 1]);
      }
    }
    assert Chain(files, longer);
  }

  lemma ConnectedSelf(files: seq<File>, i: nat)
    requires i < |files|
    ensures Connected(files, i, i)
  {
    var chain: seq<nat> := [i];
    assert Chain(files, chain) && chain[0] == i && chain[|chain| - 1] == i;
  }

  lemma ConnectedBack(files: seq<File>, i: nat, j: nat)
    requires Connected(files, i, j)
    ensures Connected(files, j, i)
  {
    var chain: seq<nat> :| Chain(files, chain) && chain[0] == i && chain[|chain| - 1] == j;
    var n := |chain|;
    var back := seq(n, k requires 0 <= k < n => chain[n - 1 - k]);
    forall k | 0 <= k < n - 1 ensures Linked(files, back[k], back[k + 1]) {
      assert Linked(files, chain[n - 2 - k], chain[n - 2 - k + 1]);
    }
    assert Chain(files, back) && back[0] == j && back[n - 1] == i;
  }

  /** A closed set of files all connected to one of them is its whole class. */
  lemma ClassIsExact(files: seq<File>, s: set<nat>, i: nat)
    requires Closed(files, s) && i in s
    requires forall j :: j in s ==> j < |files| && Connected(files, i, j)
    ensures forall j: nat, k: nat :: j in s && k < |files| ==> (k in s <==> Connected(files, j, k))
  {
    forall j: nat, k: nat | j in s && k < |files| ensures k in s <==> Connected(files, j, k) {
      if k in s {
        ConnectedBack(files, i, j);
        ConnectedThrough(files, j, i, k);
      }
      if Connected(files, j, k) {
        var chain: seq<nat> :| Chain(files, chain) && chain[0] == j && chain[|chain| - 1] == k;
        ClosedHoldsChains(files, s, chain);
      }
    }
  }

  lemma ConnectedThrough(files: seq<File>, i: nat, j: nat, k: nat)
    requires Connected(files, i, j) && Connected(files, j, k)
    ensures Connected(files, i, k)
  {
    var a: seq<nat> :| Chain(files, a) && a[0] == i && a[|a| - 1] == j;
    var b: seq<nat> :| Chain(files, b) && b[0] == j && b[|b| - 1] == k;
    var c := a + b[1..];
    forall x | 0 <= x < |c| - 1 ensures Linked(files, c[x], c[x + 1]) {
      if x < |a| - 1 {
        assert Linked(files, a[x], a[x + 1]);
      } else {
        assert Linked(files, b[x - (|a| - 1)], b[x - (|a| - 1) + 1]);
      }
    }
    assert Chain(files, c) && c[0] == i && c[|c| - 1] == k;
  }

  // ---------- the search ----------

  ghost predicate IndexedBy<K>(files: seq<File>, n: nat, table: map<K, seq<nat>>, key: File -> K)
    requires n <= |files|
  {
    && (forall i: nat :: i < n ==> key(files[i]) in table)
    && (forall k :: k in table ==> forall i: nat :: i in table[k] <==> i < n && key(files[i]) == k)
  }

  method Index<K(==)>(files: seq<File>, key: File -> K) returns (table: map<K, seq<nat>>)
    ensures IndexedBy(files, |files|, table, key)
  {
    table := map[];
    for i := 0 to |files|
      invariant IndexedBy(files, i, table, key)
    {
      var k := key(files[i]);
      table := table[k := (if k in table then table[k] else []) + [i]];
    }
  }

  /** Queues every file of `list` not visited yet. */
  method Visit(list: seq<nat>, visited: array<bool>, ghost seen: set<nat>, queue: seq<nat>)
    returns (longer: seq<nat>, ghost all: set<nat>)
    requires forall n :: n in list ==> n < visited.Length
    requires forall n: nat :: n < visited.Length ==> (visited[n] <==> n in seen)
    modifies visited
    ensures all == seen + set n | n in list
    ensures forall n: nat :: n < visited.Length ==> (visited[n] <==> n in all)
    ensures |queue| <= |longer| && longer[..|queue|] == queue && Distinct(longer[|queue|..])
    ensures forall n :: n in longer[|queue|..] <==> n in all - seen
  {
    longer, all := queue, seen;
    for i := 0 to |list|
      invariant all == seen + set n | n in list[..i]
      invariant forall n: nat :: n < visited.Length ==> (visited[n] <==> n in all)
      invariant |queue| <= |longer| && longer[..|queue|] == queue && Distinct(longer[|queue|..])
      invariant forall n :: n in longer[|queue|..] <==> n in all - seen
    {
      var n := list[i];
      assert n in list && list[..i + 1] == list[..i] + [n];
      if !visited[n] {
        visited[n] := true;
        assert n !in longer[|queue|..];
        assert (longer + [n])[|queue|..] == longer[|queue|..] + [n];
        longer := longer + [n];
      }
      all := all + {n};
    }
    assert list[..|list|] == list;
  }

  predicate InRange(files: seq<File>, order: seq<nat>) {
    forall k :: 0 <= k < |order| ==> order[k] < |files|
  }

  function Pick(files: seq<File>, order: seq<nat>): (r: seq<File>)
    requires InRange(files, order)
    ensures |r| == |order| && forall k :: 0 <= k < |order| ==> r[k] == files[order[k]]
  {
    seq(|order|, k requires 0 <= k < |order| => files[order[k]])
  }

  function Members(order: seq<nat>): set<nat> {
    set n | n in order
  }

  /** The search for one component: `taken` is done with, `queue` is waiting. */
  ghost predicate Searching(files: seq<File>, start: nat, done: set<nat>, seen: set<nat>, taken: seq<nat>, queue: seq<nat>) {
    && start in seen && done <= seen && start !in done
    && Distinct(taken + queue) && Members(taken + queue) == seen - done
    && (forall n :: n in seen ==> n < |files|)
    && (forall n :: n in seen - done ==> Connected(files, start, n))
    && (forall n: nat, m: nat :: n in taken && n < |files| && m < |files| && Linked(files, n, m) ==> m in seen)
  }

  lemma DistinctJoin(a: seq<nat>, b: seq<nat>)
    requires Distinct(a) && Distinct(b) && forall n :: n in b ==> n !in a
    ensures Distinct(a + b) && Members(a + b) == Members(a) + Members(b)
  {
    forall i, j | 0 <= i < j < |a + b| ensures (a + b)[i] != (a + b)[j] {
      if i < |a| <= j {
        assert (a + b)[j] == b[j - |a|] && b[j - |a|] in b && a[i] in a;
      } else if |a| <= i {
        assert b[i - |a|] != b[j - |a|];
      }
    }
  }

  function Near(files: seq<File>, idx: nat): set<nat>
    requires idx < |files|
  {
    set m: nat | m < |files| && Linked(files, idx, m)
  }

  /** Taking the first of the queue and queueing its unseen neighbours. */
  lemma SearchStep(files: seq<File>, start: nat, done: set<nat>, seen: set<nat>, taken: seq<nat>, queue: seq<nat>,
                   added: seq<nat>)
    requires Searching(files, start, done, seen, taken, queue) && queue != [] && queue[0] < |files|
    requires Distinct(added) && (forall n :: n in added <==> n in Near(files, queue[0]) - seen)
    ensures Searching(files, start, done, seen + Near(files, queue[0]), taken + [queue[0]], queue[1..] + added)
  {
    var near := Near(files, queue[0]);
    var idx, held := queue[0], taken + queue;
    assert held == taken + [idx] + queue[1..];
    assert taken + [idx] + (queue[1..] + added) == held + added;
    assert forall n :: n in held <==> n in Members(held);
    DistinctJoin(held, added);
    assert Members(added) == near - seen;
    assert idx in held;
    forall n | n in near - seen ensures Connected(files, start, n) {
      ChainExtends(files, start, idx, n);
    }
    hide Connected, Distinct;
  }

  /** A search with an empty queue has found exactly one class. */
  lemma SearchEnds(files: seq<File>, start: nat, done: set<nat>, seen: set<nat>, taken: seq<nat>)
    requires Searching(files, start, done, seen, taken, []) && Closed(files, done)
    ensures Closed(files, seen)
    ensures start in taken
    ensures forall j: nat, k: nat :: j in taken && k < |files| ==> (k in taken <==> Connected(files, j, k))
  {
    assert taken + [] == taken;
    assert Members(taken) == seen - done;
    forall n: nat, m: nat | n in seen - done && m < |files| && Linked(files, n, m) ensures m in seen - done {
      assert n in Members(taken);
      assert Linked(files, m, n);
    }
    ClassIsExact(files, seen - done, start);
    assert forall n :: n in taken <==> n in Members(taken);
  }

  // ---------- the components ----------

  ghost predicate ExactClass(files: seq<File>, order: seq<nat>) {
    && order != [] && Distinct(order) && InRange(files, order)
    && forall i: nat, j: nat :: i in order && j < |files| ==> (j in order <==> Connected(files, i, j))
  }

  predicate Covered(orders: seq<seq<nat>>, n: nat) {
    exists k :: 0 <= k < |orders| && n in orders[k]
  }

  predicate Disjoint(a: seq<nat>, b: seq<nat>) {
    forall n :: n in a ==> n !in b
  }

  /** `orders[k]` lists the files of component `k` as the search met them: the
      lists partition all files into exactly the classes of the relation. */
  ghost predicate Classes(files: seq<File>, orders: seq<seq<nat>>) {
    && (forall k :: 0 <= k < |orders| ==> ExactClass(files, orders[k]))
    && (forall n: nat :: n < |files| ==> Covered(orders, n))
    && (forall k, l :: 0 <= k < l < |orders| ==> Disjoint(orders[k], orders[l]))
  }

  /** The invariant of the outer loop: the classes found so far are `seen`. */
  ghost predicate Found(files: seq<File>, orders: seq<seq<nat>>, seen: set<nat>) {
    && Closed(files, seen) && (forall n :: n in seen ==> n < |files|)
    && (forall k :: 0 <= k < |orders| ==> ExactClass(files, orders[k]) && Members(orders[k]) <= seen)
    && (forall n :: n in seen ==> Covered(orders, n))
    && (forall k, l :: 0 <= k < l < |orders| ==> Disjoint(orders[k], orders[l]))
  }

  lemma FoundOneMore(files: seq<File>, orders: seq<seq<nat>>, done: set<nat>, seen: set<nat>, start: nat, taken: seq<nat>)
    requires Found(files, orders, done) && Searching(files, start, done, seen, taken, [])
    ensures Found(files, orders + [taken], seen)
    ensures start in seen
  {
    SearchEnds(files, start, done, seen, taken);
    var more := orders + [taken];
    assert taken + [] == taken;
    assert forall n :: n in taken <==> n in Members(taken);
    forall k | 0 <= k < |taken| ensures taken[k] < |files| {
      assert taken[k] in Members(taken);
    }
    assert ExactClass(files, taken);
    hide Closed, Connected, ExactClass;
    forall n | n in seen ensures Covered(more, n) {
      if n in done {
        var k :| 0 <= k < |orders| && n in orders[k];
        assert n in more[k];
      } else {
        assert n in more[|orders|];
      }
    }
    forall k | 0 <= k < |orders| ensures Disjoint(orders[k], taken) {
      assert forall n :: n in orders[k] ==> n in Members(orders[k]);
    }
  }

  lemma AllFound(files: seq<File>, orders: seq<seq<nat>>, seen: set<nat>)
    requires Found(files, orders, seen) && forall n: nat :: n < |files| ==> n in seen
    ensures Classes(files, orders)
  {
    hide Closed, Connected, ExactClass;
  }

  /** The files a search met, by path. */
  function Sorted(files: seq<File>, order: seq<nat>): seq<File> {
    if InRange(files, order) then SortBy(PathBefore, Pick(files, order)) else []
  }

  /** The components list the classes, each by path. */
  predicate Lists(files: seq<File>, orders: seq<seq<nat>>, components: seq<seq<File>>) {
    |components| == |orders| && forall k :: 0 <= k < |orders| ==> components[k] == Sorted(files, orders[k])
  }

  ghost predicate AreComponents(files: seq<File>, components: seq<seq<File>>) {
    exists orders: seq<seq<nat>> :: Classes(files, orders) && Lists(files, orders, components)
  }

  lemma SortedHolds(files: seq<File>, order: seq<nat>, i: nat)
    requires Distinct(files) && InRange(files, order) && i < |files|
    ensures files[i] in Sorted(files, order) <==> i in order
  {
    hide SortBy, PathBefore;
    SortMembers(PathBefore, Pick(files, order));
    if i in order {
      var k :| 0 <= k < |order| && order[k] == i;
      assert Pick(files, order)[k] == files[i];
    }
  }

  /** Two files are in one component exactly when a chain of shared directories
      and shared stems connects them. */
  lemma TogetherIffConnected(files: seq<File>, components: seq<seq<File>>, i: nat, j: nat)
    requires Distinct(files) && AreComponents(files, components) && i < |files| && j < |files|
    ensures (exists k :: 0 <= k < |components| && files[i] in components[k] && files[j] in components[k]) <==> Connected(files, i, j)
  {
    hide SortBy, Connected, Sorted, Distinct;
    var orders: seq<seq<nat>> :| Classes(files, orders) && Lists(files, orders, components);
    forall k | 0 <= k < |components| ensures files[i] in components[k] <==> i in orders[k] {
      SortedHolds(files, orders[k], i);
    }
    forall k | 0 <= k < |components| ensures files[j] in components[k] <==> j in orders[k] {
      SortedHolds(files, orders[k], j);
    }
    assert Covered(orders, i);
  }

  /** The components of the recognised entries are exactly the classes of
      same-directory-or-same-stem, each listed by path. */
  method BuildComponents(entries: seq<File>) returns (components: seq<seq<File>>)
    ensures AreComponents(Filter(entries, IsAudio), components)
  {
    hide Sorted, Found, Searching, Classes, IndexedBy, Filter, SortBy, PathBefore, ParentOf, StemOf, IsAudio;
    var files := Filter(entries, IsAudio);
    var byParent := Index(files, ParentOf);
    var byStem := Index(files, StemOf);
    var visited := new bool[|files|](_ => false);
    components := [];
    ghost var orders: seq<seq<nat>> := [];
    ghost var seen: set<nat> := {};
    NoneFound(files);
    for i := 0 to |files|
      invariant Found(files, orders, seen) && Lists(files, orders, components)
      invariant forall n :: n in seen ==> n < |files|
      invariant forall n: nat :: n < |files| ==> (visited[n] <==> n in seen)
      invariant forall n: nat :: n < i ==> n in seen
    {
      if !visited[i] {
        var comp;
        ghost var taken;
        ghost var before := seen;
        comp, seen, taken := SearchFrom(files, byParent, byStem, visited, seen, i);
        FoundOneMore(files, orders, before, seen, i, taken);
        SortedAll(files, taken);
        components := components + [SortBy(PathBefore, comp)];
        orders := orders + [taken];
      }
    }
    AllFound(files, orders, seen);
  }

  lemma SortedAll(files: seq<File>, order: seq<nat>)
    requires InRange(files, order)
    ensures Sorted(files, order) == SortBy(PathBefore, Pick(files, order))
  {
  }

  lemma NoneFound(files: seq<File>)
    ensures Found(files, [], {})
  {
  }

  method SearchFrom(files: seq<File>, byParent: map<Path, seq<nat>>, byStem: map<string, seq<nat>>,
                    visited: array<bool>, ghost done: set<nat>, start: nat)
    returns (comp: seq<File>, ghost seen: set<nat>, ghost taken: seq<nat>)
    requires start < |files| == visited.Length && start !in done
    requires IndexedBy(files, |files|, byParent, ParentOf) && IndexedBy(files, |files|, byStem, StemOf)
    requires forall n: nat :: n < |files| ==> (visited[n] <==> n in done)
    requires forall n :: n in done ==> n < |files|
    modifies visited
    ensures Searching(files, start, done, seen, taken, [])
    ensures forall n: nat :: n < |files| ==> (visited[n] <==> n in seen)
    ensures done <= seen && forall n :: n in seen ==> n < |files|
    ensures InRange(files, taken) && comp == Pick(files, taken)
  {
    hide Searching, IndexedBy, Distinct, Near, ParentOf, StemOf;
    var queue := [start];
    visited[start] := true;
    SearchStarts(files, start, done);
    comp, taken, seen := [], [], done + {start};
    SearchStarts(files, start, done);
    while queue != []
      invariant Searching(files, start, done, seen, taken, queue)
      invariant forall n: nat :: n < |files| ==> (visited[n] <==> n in seen)
      invariant InRange(files, taken) && comp == Pick(files, taken)
      decreases |files| - |seen|, |queue|
    {
      SearchBounds(files, start, done, seen, taken, queue);
      var idx := queue[0];
      var rest := queue[1..];
      ghost var before, held, waiting := seen, taken, queue;
      comp := comp + [files[idx]];
      taken := taken + [idx];
      queue, seen := VisitNear(files, byParent, byStem, visited, seen, idx, rest);
      assert waiting == [idx] + rest;
      SearchStep(files, start, done, before, held, waiting, queue[|rest|..]);
      SearchBounds(files, start, done, seen, taken, queue);
      SeenGrows(before, seen, |files|);
    }
    SearchBounds(files, start, done, seen, taken, queue);
  }

  /** Queues the unseen files of the same directory, then of the same stem. */
  method VisitNear(files: seq<File>, byParent: map<Path, seq<nat>>, byStem: map<string, seq<nat>>,
                   visited: array<bool>, ghost before: set<nat>, idx: nat, rest: seq<nat>)
    returns (queue: seq<nat>, ghost seen: set<nat>)
    requires idx < |files| == visited.Length
    requires IndexedBy(files, |files|, byParent, ParentOf) && IndexedBy(files, |files|, byStem, StemOf)
    requires forall n: nat :: n < |files| ==> (visited[n] <==> n in before)
    modifies visited
    ensures seen == before + Near(files, idx)
    ensures forall n: nat :: n < |files| ==> (visited[n] <==> n in seen)
    ensures |rest| <= |queue| && queue == rest + queue[|rest|..]
    ensures Distinct(queue[|rest|..]) && forall n :: n in queue[|rest|..] <==> n in Near(files, idx) - before
    ensures seen == before ==> queue == rest
  {
    NearByTables(files, byParent, byStem, idx);
    hide Near, IndexedBy, ParentOf, StemOf, Distinct;
    var f := files[idx];
    ghost var mid;
    var more;
    more, mid := Visit(byParent[ParentOf(f)], visited, before, rest);
    queue, seen := Visit(byStem[StemOf(f)], visited, mid, more);
    AddedByBoth(rest, more, queue, before, mid, seen);
    assert |queue| > |rest| ==> queue[|rest|..][0] in queue[|rest|..];
  }

  lemma NearByTables(files: seq<File>, byParent: map<Path, seq<nat>>, byStem: map<string, seq<nat>>, idx: nat)
    requires idx < |files|
    requires IndexedBy(files, |files|, byParent, ParentOf) && IndexedBy(files, |files|, byStem, StemOf)
    ensures var p, q := ParentOf(files[idx]), StemOf(files[idx]);
      && p in byParent && q in byStem
      && Near(files, idx) == (set n | n in byParent[p]) + (set n | n in byStem[q])
      && (forall n :: n in byParent[p] ==> n < |files|) && (forall n :: n in byStem[q] ==> n < |files|)
  {
  }

  lemma SearchStarts(files: seq<File>, start: nat, done: set<nat>)
    requires start < |files| && start !in done && forall n :: n in done ==> n < |files|
    ensures Searching(files, start, done, done + {start}, [], [start])
  {
  }

  lemma SearchBounds(files: seq<File>, start: nat, done: set<nat>, seen: set<nat>, taken: seq<nat>, queue: seq<nat>)
    requires Searching(files, start, done, seen, taken, queue)
    ensures forall k :: 0 <= k < |queue| ==> queue[k] < |files|
    ensures forall n :: n in seen ==> n < |files|
    ensures done <= seen
  {
    forall k | 0 <= k < |queue| ensures queue[k] < |files| {
      assert queue[k] in taken + queue;
      assert queue[k] in Members(taken + queue);
    }
  }

  lemma AddedByBoth(rest: seq<nat>, more: seq<nat>, queue: seq<nat>, before: set<nat>, mid: set<nat>, after: set<nat>)
    requires before <= mid <= after
    requires |rest| <= |more| <= |queue| && more[..|rest|] == rest && queue[..|more|] == more
    requires Distinct(more[|rest|..]) && forall n :: n in more[|rest|..] <==> n in mid - before
    requires Distinct(queue[|more|..]) && forall n :: n in queue[|more|..] <==> n in after - mid
    ensures queue == rest + queue[|rest|..]
    ensures Distinct(queue[|rest|..]) && forall n :: n in queue[|rest|..] <==> n in after - before
  {
    assert queue[|rest|..] == more[|rest|..] + queue[|more|..];
    DistinctJoin(more[|rest|..], queue[|more|..]);
  }

  lemma SeenGrows(before: set<nat>, seen: set<nat>, n: nat)
    requires before <= seen && forall x :: x in seen ==> x < n
    ensures |before| <= |seen| <= n
    ensures seen != before ==> |before| < |seen|
  {
    assert seen == before + (seen - before);
    assert |seen| == |before| + |seen - before|;
    BelowCount(seen, n);
  }

  lemma {:induction false} BelowCount(s: set<nat>, n: nat)
    requires forall x :: x in s ==> x < n
    ensures |s| <= n
  {
    if n > 0 {
      BelowCount(s - {n - 1}, n - 1);
    }
  }

  /** Files sharing a directory or a stem are never split across components. */
  lemma LinkedStayTogether(files: seq<File>, orders: seq<seq<nat>>, i: nat, j: nat, k: nat)
    requires Classes(files, orders) && i < |files| && j < |files| && Linked(files, i, j) && k < |orders|
    ensures i in orders[k] <==> j in orders[k]
  {
    ConnectedSelf(files, i);
    ConnectedSelf(files, j);
    ChainExtends(files, i, i, j);
    ChainExtends(files, j, j, i);
    assert ExactClass(files, orders[k]);
    hide Connected;
  }

  /** Every file is in exactly one component. */
  lemma OneComponentEach(files: seq<File>, orders: seq<seq<nat>>, n: nat)
    requires Classes(files, orders) && n < |files|
    ensures exists k :: 0 <= k < |orders| && n in orders[k]
    ensures forall k, l :: 0 <= k < |orders| && 0 <= l < |orders| && n in orders[k] && n in orders[l] ==> k == l
  {
    assert Covered(orders, n);
    hide ExactClass;
  }

  /** A part of the files that leaves none of its stems behind. */
  ghost predicate WholeStems(part: seq<File>, files: seq<File>) {
    && (forall f :: f in part ==> f in files)
    && (forall f, g :: f in part && g in files && StemOf(f) == StemOf(g) ==> g in part)
  }

  /** Every component is such a part. */
  lemma ComponentsKeepStems(files: seq<File>, components: seq<seq<File>>, k: nat)
    requires AreComponents(files, components) && k < |components|
    ensures WholeStems(components[k], files)
  {
    hide SortBy, Connected, Distinct, StemOf, ParentOf, PathBefore;
    var orders: seq<seq<nat>> :| Classes(files, orders) && Lists(files, orders, components);
    var order := orders[k];
    assert ExactClass(files, order);
    SortedAll(files, order);
    SortMembers(PathBefore, Pick(files, order));
    forall f | f in components[k] ensures f in files && exists i: nat :: i in order && i < |files| && files[i] == f {
      var x :| 0 <= x < |order| && Pick(files, order)[x] == f;
      assert files[order[x]] == f && order[x] in order;
    }
    forall f, g | f in components[k] && g in files && StemOf(f) == StemOf(g) ensures g in components[k] {
      var i: nat :| i in order && i < |files| && files[i] == f;
      var j: nat :| j < |files| && files[j] == g;
      LinkedStayTogether(files, orders, i, j, k);
      var y :| 0 <= y < |order| && order[y] == j;
      assert Pick(files, order)[y] == g;
    }
  }

  // ---------- the stems of a component ----------

  datatype StemGroup = StemGroup(stem: string, files: seq<File>)

  function Stems(files: seq<File>): (r: seq<string>)
    ensures Distinct(r)
    ensures forall t :: t in r <==> exists f :: f in files && StemOf(f) == t
  {
    if files == [] then []
    else
      var init, last := files[..|files| - 1], files[|files| - 1];
      assert files == init + [last];
      var rest := Stems(init);
      if StemOf(last) in rest then rest else rest + [StemOf(last)]
  }

  function OfStem(files: seq<File>, stem: string): seq<File> {
    Filter(files, (f: File) => StemOf(f) == stem)
  }

  function GroupsFor(files: seq<File>, stems: seq<string>): (r: seq<StemGroup>)
    ensures |r| == |stems| && forall k :: 0 <= k < |r| ==> r[k] == StemGroup(stems[k], OfStem(files, stems[k]))
  {
    seq(|stems|, k requires 0 <= k < |stems| => StemGroup(stems[k], OfStem(files, stems[k])))
  }

  /** The files of each stem, by stem. */
  function StemGroups(files: seq<File>): seq<StemGroup> {
    GroupsFor(files, SortBy(StringLess, Stems(files)))
  }

  lemma StringsOrdered(bag: set<string>)
    ensures TotalOn(StringLess, bag)
  {
    forall x, y | x in bag && y in bag ensures !StringLess(x, x) && (x == y || StringLess(x, y) || StringLess(y, x)) {
      StringLessTotal(x, y);
      StringLessTotal(x, x);
    }
    forall x, y, z | x in bag && y in bag && z in bag && StringLess(x, y) && StringLess(y, z) ensures StringLess(x, z) {
      StringLessTrans(x, y, z);
    }
  }

  lemma SameSetSameBag<T>(a: seq<T>, b: seq<T>)
    requires Distinct(a) && Distinct(b)
    requires forall x :: x in a ==> x in b
    requires forall x :: x in b ==> x in a
    ensures multiset(a) == multiset(b)
  {
    forall x: T ensures multiset(a)[x] == multiset(b)[x] {
      DistinctCount(a, x);
      DistinctCount(b, x);
      assert x in multiset(a) <==> x in a;
      assert x in multiset(b) <==> x in b;
    }
  }

  ghost predicate StemTable(files: seq<File>, byStem: map<string, seq<File>>) {
    && (forall t :: t in byStem <==> t in Stems(files))
    && (forall t :: t in byStem ==> byStem[t] == OfStem(files, t))
  }

  method TableOf(files: seq<File>) returns (byStem: map<string, seq<File>>)
    ensures StemTable(files, byStem)
  {
    hide Stems, OfStem, StemOf;
    byStem := map[];
    NoStems();
    for i := 0 to |files|
      invariant StemTable(files[..i], byStem)
    {
      var f := files[i];
      StemsGrow(files[..i], f);
      assert files[..i + 1] == files[..i] + [f];
      byStem := byStem[StemOf(f) := (if StemOf(f) in byStem then byStem[StemOf(f)] else []) + [f]];
    }
    assert files[..|files|] == files;
  }

  lemma NoStems()
    ensures StemTable([], map[])
  {
  }

  /** The keys of a table, in whatever order they come. */
  method Keys(keys: set<string>) returns (list: seq<string>)
    ensures Distinct(list) && forall t :: t in list <==> t in keys
  {
    list := [];
    var left := keys;
    while left != {}
      invariant left <= keys && Distinct(list)
      invariant forall t :: t in list <==> t in keys - left
    {
      var t :| t in left;
      assert t !in list;
      list, left := list + [t], left - {t};
    }
  }

  lemma SameStems(files: seq<File>, stems: seq<string>)
    requires Distinct(stems) && forall t :: t in stems <==> t in Stems(files)
    ensures SortBy(StringLess, stems) == SortBy(StringLess, Stems(files))
  {
    var bag := set t | t in stems;
    SameSetSameBag(stems, Stems(files));
    StringsOrdered(bag);
    SortForgetsOrder(StringLess, bag, stems, Stems(files));
  }

  /** Grouping through a table read in any order gives the groups by stem. */
  method GroupStems(files: seq<File>) returns (groups: seq<StemGroup>)
    ensures groups == StemGroups(files)
  {
    hide OfStem, StemOf, StringLess, SortBy, Stems, Distinct;
    var byStem := TableOf(files);
    var stems := Keys(byStem.Keys);
    SameStems(files, stems);
    SortMembers(StringLess, stems);
    var sorted := SortBy(StringLess, stems);
    forall k | 0 <= k < |sorted| ensures sorted[k] in byStem {
      assert sorted[k] in sorted;
    }
    groups := seq(|sorted|, k requires 0 <= k < |sorted| && sorted[k] in byStem => StemGroup(sorted[k], byStem[sorted[k]]));
    assert groups == GroupsFor(files, sorted);
  }

  lemma StemsGrow(files: seq<File>, f: File)
    ensures forall t :: t in Stems(files + [f]) <==> t in Stems(files) || t == StemOf(f)
    ensures forall t :: OfStem(files + [f], t) == OfStem(files, t) + if StemOf(f) == t then [f] else []
    ensures StemOf(f) !in Stems(files) ==> OfStem(files, StemOf(f)) == []
  {
    assert (files + [f])[..|files|] == files;
    assert OfStem(files, StemOf(f)) != [] ==> OfStem(files, StemOf(f))[0] in OfStem(files, StemOf(f));
  }
}
