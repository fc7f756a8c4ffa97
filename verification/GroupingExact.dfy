/** What the names of files say, and the components and groups they form, said
    about names and paths only. */
module GroupingExact {
  import opened Prelude
  import opened Text
  import opened Ordering
  import opened Audio
  import opened Disk
  import opened Grouping

  // ---------- names ----------

  /** The extension of a name decides its codec whatever its case, the rest of the
      name is the identity stem in lower case, and a derived path keeps both the
      directory and the display form of the stem. */
  lemma NameIsRead(dir: Path, stem: string, ext: string, size: int, mtime: int)
    requires stem != "" && IsExt(ext)
    ensures var p := dir + [stem + ext]; var f := File(p, size, mtime, 0, None);
      && ParentOf(f) == dir && StemOf(f) == ToLower(stem) && ExtOf(p) == ToLower(ext)
      && (CodecOf(f) == Some(Wav) <==> ToLower(ext) == ".wav") && (CodecOf(f) == Some(Flac) <==> ToLower(ext) == ".flac")
      && (CodecOf(f) == Some(Mp3) <==> ToLower(ext) == ".mp3") && (CodecOf(f) == Some(Aac) <==> ToLower(ext) in {".aac", ".m4a"})
      && (CodecOf(f) == Some(Opus) <==> ToLower(ext) == ".opus") && (IsLosslessFile(f) <==> ToLower(ext) in {".wav", ".flac"})
  {
    var p := dir + [stem + ext];
    assert Base(p) == stem + ext && Dir(p) == dir;
    ExtOfJoin(stem, ext);
  }

  /** A name that is all extension is its own stem; one without a dot is no audio. */
  lemma BareNameIsRead(dir: Path, name: string, size: int, mtime: int)
    ensures var f := File(dir + [name], size, mtime, 0, None);
      && (IsExt(name) ==> StemOf(f) == ToLower(name)) && ('.' !in name ==> !IsAudio(f))
  {
    var p := dir + [name];
    assert Base(p) == name && Dir(p) == dir;
    if IsExt(name) {
      ExtOfJoin("", name);
      assert "" + name == name;
    } else if '.' !in name {
      assert Ext(name) == "";
    }
  }

  // ---------- components ----------

  predicate Shared(a: File, b: File) {
    ParentOf(a) == ParentOf(b) || StemOf(a) == StemOf(b)
  }

  /** One file leads to another over files that share a directory or a stem. */
  ghost predicate Leads(files: seq<File>, i: nat, j: nat, chain: seq<nat>) {
    && chain != [] && chain[0] == i && chain[|chain| - 1] == j && (forall k :: 0 <= k < |chain| ==> chain[k] < |files|)
    && (forall k {:trigger chain[k + 1]} :: 0 <= k < |chain| - 1 ==> Shared(files[chain[k]], files[chain[k + 1]]))
  }

  /** Two files are in one component exactly when one leads to the other. */
  lemma TogetherIffShared(files: seq<File>, components: seq<seq<File>>, i: nat, j: nat)
    requires Distinct(files) && AreComponents(files, components) && i < |files| && j < |files|
    ensures (exists k :: 0 <= k < |components| && files[i] in components[k] && files[j] in components[k]) <==> exists chain :: Leads(files, i, j, chain)
  {
    TogetherIffConnected(files, components, i, j);
    hide AreComponents, Distinct, ParentOf, StemOf;
    if Connected(files, i, j) {
      var chain: seq<nat> :| Chain(files, chain) && chain[0] == i && chain[|chain| - 1] == j;
      forall k {:trigger chain[k + 1]} | 0 <= k < |chain| - 1 ensures Shared(files[chain[k]], files[chain[k + 1]]) {
        assert Linked(files, chain[k], chain[k + 1]);
      }
      assert Leads(files, i, j, chain);
    }
    if exists chain :: Leads(files, i, j, chain) {
      var chain: seq<nat> :| Leads(files, i, j, chain);
      forall k | 0 <= k < |chain| - 1 ensures Linked(files, chain[k], chain[k + 1]) {
        assert Shared(files[chain[k]], files[chain[k + 1]]);
      }
      assert Chain(files, chain);
    }
  }

  // ---------- order ----------

  predicate PosixOnce(files: seq<File>) {
    forall f, g :: f in files && g in files && Posix(f.path) == Posix(g.path) ==> f == g
  }

  lemma PathsOrdered(bag: set<File>)
    requires forall f, g :: f in bag && g in bag && Posix(f.path) == Posix(g.path) ==> f == g
    ensures TotalOn(PathBefore, bag)
  {
    hide StringLess, Posix;
    forall x, y | x in bag && y in bag ensures !PathBefore(x, x) && (x == y || PathBefore(x, y) || PathBefore(y, x)) {
      StringLessTotal(Posix(x.path), Posix(y.path));
    }
    forall x, y, z | x in bag && y in bag && z in bag && PathBefore(x, y) && PathBefore(y, z) ensures PathBefore(x, z) {
      StringLessTrans(Posix(x.path), Posix(y.path), Posix(z.path));
    }
  }

  /** Every component lists its files in the byte order of their paths. */
  lemma ComponentsInOrder(files: seq<File>, components: seq<seq<File>>, c: nat, i: nat, j: nat)
    requires PosixOnce(files) && AreComponents(files, components) && c < |components| && i < j < |components[c]|
    ensures StringLess(Posix(components[c][i].path), Posix(components[c][j].path)) || components[c][i] == components[c][j]
  {
    hide StringLess, Posix, Classes;
    var orders: seq<seq<nat>> :| Classes(files, orders) && Lists(files, orders, components);
    InOrder(files, orders[c], i, j);
  }

  lemma InOrder(files: seq<File>, order: seq<nat>, i: nat, j: nat)
    requires PosixOnce(files) && i < j < |Sorted(files, order)|
    ensures var s := Sorted(files, order); StringLess(Posix(s[i].path), Posix(s[j].path)) || s[i] == s[j]
  {
    hide StringLess, Posix, SortBy;
    var list := Pick(files, order);
    var bag := set f | f in list;
    PathsOrdered(bag);
    SortAscending(PathBefore, bag, list);
    SortedFrom(PathBefore, bag, list);
    assert Sorted(files, order) == SortBy(PathBefore, list);
  }

  /** The byte order: a proper beginning comes first, else the first difference
      decides. */
  lemma {:induction false} ByFirstDifference(a: string, b: string, k: nat)
    requires k <= |a| && k <= |b| && a[..k] == b[..k]
    ensures k == |a| < |b| ==> StringLess(a, b)
    ensures k < |a| && k < |b| && a[k] < b[k] ==> StringLess(a, b)
  {
    if k > 0 {
      assert a[0] == a[..k][0] == b[..k][0] == b[0];
      assert a[1..][..k - 1] == a[..k][1..] == b[..k][1..] == b[1..][..k - 1];
      ByFirstDifference(a[1..], b[1..], k - 1);
    }
  }

  // ---------- groups ----------

  /** The groups of a component: one for each stem, in the byte order of the stems,
      each with exactly the files of its stem. */
  lemma GroupsAreStems(files: seq<File>, i: nat, j: nat, f: File)
    requires i < j < |StemGroups(files)|
    ensures StringLess(StemGroups(files)[i].stem, StemGroups(files)[j].stem)
    ensures f in StemGroups(files)[i].files <==> f in files && StemOf(f) == StemGroups(files)[i].stem
    ensures f in files ==> exists k :: 0 <= k < |StemGroups(files)| && StemGroups(files)[k].stem == StemOf(f)
  {
    hide StemOf, StringLess;
    var stems := Stems(files);
    var sorted := SortBy(StringLess, stems);
    var bag := set t | t in stems;
    StringsOrdered(bag);
    SortAscending(StringLess, bag, stems);
    SortedFrom(StringLess, bag, stems);
    SameBagDistinct(stems, sorted);
    SortMembers(StringLess, stems);
    assert sorted[i] != sorted[j] && !StringLess(sorted[j], sorted[i]);
    if f in files {
      assert StemOf(f) in sorted;
      var k :| 0 <= k < |sorted| && sorted[k] == StemOf(f);
      assert StemGroups(files)[k].stem == StemOf(f);
    }
  }
}
