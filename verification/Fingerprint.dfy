/** The inventory fingerprint's byte stream: sorted (path, size, mtime) tuples. */
module Fingerprint {
  import opened Prelude
  import opened Text
  import opened Ordering

  datatype Entry = Entry(path: string, size: int, mtime: int)

  function Line(e: Entry): string {
    e.path + "\0" + Number(e.size) + "\0" + Number(e.mtime) + "\n"
  }

  function Stream(entries: seq<Entry>): string {
    if entries == [] then "" else Line(entries[0]) + Stream(entries[1..])
  }

  predicate ByPath(a: Entry, b: Entry) { StringLess(a.path, b.path) }

  /** What is hashed. */
  function Encoding(entries: seq<Entry>): string {
    Stream(SortBy(ByPath, entries))
  }

  lemma StreamStep(tuples: seq<Entry>, k: nat)
    requires k < |tuples|
    ensures Stream(tuples[k..]) == Line(tuples[k]) + Stream(tuples[k + 1..])
  {
    assert tuples[k..][0] == tuples[k] && tuples[k..][1..] == tuples[k + 1..];
  }

  lemma NoLines()
    ensures Stream([]) == ""
  {
  }

  /** Sorting in place and writing line by line produces that stream. */
  method WriteStream(entries: seq<Entry>) returns (out: string, count: nat)
    ensures out == Encoding(entries) && count == |entries|
  {
    hide Stream, SortBy, Line;
    var tuples := SortBy(ByPath, entries);
    SortMembers(ByPath, entries);
    out := "";
    assert tuples[0..] == tuples;
    for k := 0 to |tuples|
      invariant out + Stream(tuples[k..]) == Stream(tuples)
    {
      StreamStep(tuples, k);
      out := out + Line(tuples[k]);
    }
    assert tuples[|tuples|..] == [];
    NoLines();
    count := |tuples|;
  }

  predicate PathsDistinct(entries: seq<Entry>) {
    forall i, j :: 0 <= i < j < |entries| ==> entries[i].path != entries[j].path
  }

  predicate NoNul(entries: seq<Entry>) {
    forall e :: e in entries ==> '\0' !in e.path
  }

  lemma PathsOrder(entries: seq<Entry>)
    requires PathsDistinct(entries)
    ensures TotalOn(ByPath, set e | e in entries) && From(entries, set e | e in entries)
  {
    var bag := set e | e in entries;
    forall x, y | x in bag && y in bag ensures !ByPath(x, x) && (x == y || ByPath(x, y) || ByPath(y, x)) {
      StringLessTotal(x.path, y.path);
      StringLessTotal(x.path, x.path);
    }
    forall x, y, z | x in bag && y in bag && z in bag && ByPath(x, y) && ByPath(y, z) ensures ByPath(x, z) {
      StringLessTrans(x.path, y.path, z.path);
    }
  }

  /** The stream does not depend on the order the entries come in. */
  lemma OrderIndependent(a: seq<Entry>, b: seq<Entry>)
    requires PathsDistinct(a) && multiset(a) == multiset(b)
    ensures Encoding(a) == Encoding(b)
  {
    PathsOrder(a);
    var bag := set e | e in a;
    SortForgetsOrder(ByPath, bag, a, b);
  }

  predicate InByteOrder(entries: seq<Entry>) {
    forall i, j :: 0 <= i < j < |entries| ==> StringLess(entries[i].path, entries[j].path)
  }

  lemma OrderedIsAscending(entries: seq<Entry>)
    requires InByteOrder(entries)
    ensures PathsDistinct(entries) && Ascending(ByPath, entries)
  {
    hide StringLess;
    forall i, j | 0 <= i < j < |entries| ensures entries[i].path != entries[j].path && !ByPath(entries[j], entries[i]) {
      StringLessTotal(entries[i].path, entries[j].path);
    }
  }

  /** Entries that come in the byte order of their paths are written as they come,
      each as its path, size and modification time. */
  lemma SortedIsWritten(entries: seq<Entry>)
    requires InByteOrder(entries)
    ensures Encoding(entries) == Stream(entries)
    ensures entries != [] ==>
      var e := entries[0];
      Encoding(entries) == e.path + "\0" + Number(e.size) + "\0" + Number(e.mtime) + "\n" + Encoding(entries[1..])
  {
    InOrderAsIs(entries);
    if entries != [] { InOrderAsIs(entries[1..]); }
  }

  lemma InOrderAsIs(entries: seq<Entry>)
    requires InByteOrder(entries)
    ensures Encoding(entries) == Stream(entries)
  {
    hide InByteOrder, PathsDistinct, SortBy, ByPath, TotalOn, Ascending;
    OrderedIsAscending(entries);
    PathsOrder(entries);
    var bag := set e | e in entries;
    SortAscending(ByPath, bag, entries);
    SortedFrom(ByPath, bag, entries);
    AscendingUnique(ByPath, bag, SortBy(ByPath, entries), entries);
  }

  // ---------- reading the stream back ----------

  lemma FirstOf(a: string, s: string, stop: char)
    ensures (a + [stop] + s)[0] == if a == [] then stop else a[0]
    ensures (a + [stop] + s)[1..] == if a == [] then s else a[1..] + [stop] + s
  {
  }

  /** Up to the first separator the two texts agree, and after it. */
  lemma {:induction false} SplitAt(a: string, s: string, b: string, t: string, stop: char)
    requires a + [stop] + s == b + [stop] + t && stop !in a && stop !in b
    ensures a == b && s == t
  {
    FirstOf(a, s, stop);
    FirstOf(b, t, stop);
    if a != [] && b != [] {
      SplitAt(a[1..], s, b[1..], t, stop);
      assert a == [a[0]] + a[1..] && b == [b[0]] + b[1..];
    }
  }

  lemma LineThen(e: Entry, s: string)
    ensures Line(e) + s == e.path + ['\0'] + (Number(e.size) + ['\0'] + (Number(e.mtime) + ['\n'] + s))
  {
    hide Number;
  }

  lemma NoSeparators(e: Entry)
    ensures '\0' !in Number(e.size) && '\n' !in Number(e.mtime)
  {
  }

  lemma LineReadsBack(e: Entry, s: string, f: Entry, t: string)
    requires '\0' !in e.path && '\0' !in f.path && Line(e) + s == Line(f) + t
    ensures e == f && s == t
  {
    hide Number;
    var e2, f2 := Number(e.mtime) + ['\n'] + s, Number(f.mtime) + ['\n'] + t;
    var e1, f1 := Number(e.size) + ['\0'] + e2, Number(f.size) + ['\0'] + f2;
    LineThen(e, s);
    LineThen(f, t);
    SplitAt(e.path, e1, f.path, f1, '\0');
    NoSeparators(e);
    NoSeparators(f);
    SplitAt(Number(e.size), e2, Number(f.size), f2, '\0');
    SplitAt(Number(e.mtime), s, Number(f.mtime), t, '\n');
    NumberInjective(e.size, f.size);
    NumberInjective(e.mtime, f.mtime);
  }

  lemma {:induction false} StreamReadsBack(a: seq<Entry>, b: seq<Entry>)
    requires NoNul(a) && NoNul(b) && Stream(a) == Stream(b)
    ensures a == b
  {
    if a != [] && b != [] {
      LineReadsBack(a[0], Stream(a[1..]), b[0], Stream(b[1..]));
      StreamReadsBack(a[1..], b[1..]);
      assert a == [a[0]] + a[1..] && b == [b[0]] + b[1..];
    }
  }

  /** Two inventories encode equally exactly when they hold the same tuples. */
  lemma EncodingIsExact(a: seq<Entry>, b: seq<Entry>)
    requires PathsDistinct(a) && PathsDistinct(b) && NoNul(a) && NoNul(b)
    ensures Encoding(a) == Encoding(b) <==> multiset(a) == multiset(b)
  {
    if multiset(a) == multiset(b) {
      OrderIndependent(a, b);
    }
    if Encoding(a) == Encoding(b) {
      var x, y := SortBy(ByPath, a), SortBy(ByPath, b);
      forall e | e in x ensures '\0' !in e.path { assert e in multiset(x); assert e in multiset(a); }
      forall e | e in y ensures '\0' !in e.path { assert e in multiset(y); assert e in multiset(b); }
      StreamReadsBack(x, y);
    }
  }

  // ---------- staleness ----------

  /** A persisted planning root: its path ("" when it was missing), the digest
      and the number of entries it was planned from. */
  datatype Root = Root(path: string, digest: string, count: nat)

  /** Whether a root must be planned again; a failed collection counts as stale. */
  function RootIsStale(hash: string -> string, r: Root, collected: Result<seq<Entry>, int>): bool {
    if r.path == "" then false
    else if collected.Bad? then true
    else hash(Encoding(collected.value)) != r.digest || |collected.value| != r.count
  }

  ghost predicate CollisionFree(hash: string -> string) {
    forall x: string, y: string :: hash(x) == hash(y) ==> x == y
  }

  /** Under a collision-free hash a collected root is stale exactly when some
      tuple was added, removed or changed since it was planned. */
  lemma StaleIffChanged(hash: string -> string, r: Root, planned: seq<Entry>, now: seq<Entry>)
    requires CollisionFree(hash) && r.path != ""
    requires r.digest == hash(Encoding(planned)) && r.count == |planned|
    requires PathsDistinct(planned) && PathsDistinct(now) && NoNul(planned) && NoNul(now)
    ensures RootIsStale(hash, r, Good(now)) <==> multiset(planned) != multiset(now)
  {
    EncodingIsExact(planned, now);
    assert |multiset(planned)| == |planned| && |multiset(now)| == |now|;
    hide Encoding;
  }

  /** A root that was missing when it was planned is never stale; one that cannot be
      read now always is, and so is one with another number of entries. */
  lemma RootVerdicts(hash: string -> string, r: Root, collected: Result<seq<Entry>, int>)
    ensures r.path == "" ==> !RootIsStale(hash, r, collected)
    ensures r.path != "" && collected.Bad? ==> RootIsStale(hash, r, collected)
    ensures r.path != "" && collected.Good? && |collected.value| != r.count ==> RootIsStale(hash, r, collected)
    ensures r.path != "" && collected.Good? && hash(Encoding(collected.value)) == r.digest && |collected.value| == r.count ==> !RootIsStale(hash, r, collected)
  {
  }
}
