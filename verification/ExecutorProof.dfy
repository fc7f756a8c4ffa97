/** What one call, one commit and one cleanup do to the disk, whatever fails. */
module ExecutorProof {
  import opened Prelude
  import opened Disk
  import opened Executor

  type Files = map<Path, Content>

  // ---------- comparing disks ----------

  /** Soft runs own everything under the recovery directory; hard runs nothing. */
  function ZoneOf(plan: Plan): Option<Path> {
    if plan.soft then Some(RecoveryZone(plan.root)) else None
  }

  predicate InZone(zone: Option<Path>, p: Path) {
    zone.Some? && zone.value <= p
  }

  /** Equal outside the recovery zone, except perhaps at the paths of `but`. */
  ghost predicate Agrees(zone: Option<Path>, a: Files, b: Files, but: set<Path>) {
    forall p: Path :: p !in but && !InZone(zone, p) ==> (p in a <==> p in b) && (p in a ==> a[p] == b[p])
  }

  /** Inside the zone nothing is lost or overwritten, and what is new is a folder
      or one of the files of `parked`. */
  ghost predicate ZoneKept(zone: Option<Path>, a: Files, b: Files, parked: seq<Path>) {
    forall p: Path :: InZone(zone, p) ==>
      && (p in a ==> p in b && b[p] == a[p])
      && (p in b && p !in a ==> b[p].Folder? || p in parked)
  }

  /** Every file of `a` outside `ignored` is still at its path in `b`, or at one
      of the `kept` paths. */
  ghost predicate Carries(ignored: set<Path>, a: Files, b: Files, kept: seq<Path>) {
    forall p: Path :: IsFile(a, p) && p !in ignored ==> SameAt(a, b, p) || KeptAt(a[p], b, kept)
  }

  predicate SameAt(a: Files, b: Files, p: Path)
    requires p in a
  {
    p in b && b[p] == a[p]
  }

  ghost predicate KeptAt(c: Content, b: Files, kept: seq<Path>) {
    exists r :: r in kept && r in b && b[r] == c
  }

  lemma CarriesThrough(x: set<Path>, a: Files, b: Files, kept1: seq<Path>, y: set<Path>, c: Files, kept2: seq<Path>)
    requires Carries(x, a, b, kept1) && Carries(y, b, c, kept2)
    requires forall r :: r in kept1 ==> r !in y
    ensures Carries(x + y, a, c, kept1 + kept2)
  {
  }

  // ---------- soft removal ----------

  /** A free recovery name is found without touching the disk; every earlier
      name in the numbered order was taken. */
  lemma {:induction false} FreeNameIsFree(env: Env, w: World, dir: Path, base: string, attempt: nat)
    ensures var r := FreeName(env, w, dir, base, attempt);
      && r.w.files == w.files
      && (r.dest.Some? ==> r.dest.value !in w.files && exists n: nat :: n <= MAX_RECOVERY_NAMES && FirstFree(w.files, dir, base, attempt, n, r.dest.value))
    decreases MAX_RECOVERY_NAMES + 1 - attempt
  {
    if attempt <= MAX_RECOVERY_NAMES {
      var candidate := dir + [RecoveryName(base, attempt)];
      var look := Inspect(env, w, candidate);
      var r := FreeName(env, w, dir, base, attempt);
      if look.err == Missing {
        assert FirstFree(w.files, dir, base, attempt, attempt, candidate);
      } else if look.err == Fine {
        FreeNameIsFree(env, look.w, dir, base, attempt + 1);
        if r.dest.Some? {
          var n: nat :| n <= MAX_RECOVERY_NAMES && FirstFree(w.files, dir, base, attempt + 1, n, r.dest.value);
          assert FirstFree(w.files, dir, base, attempt, n, r.dest.value);
        }
      }
    }
  }

  predicate FirstFree(files: Files, dir: Path, base: string, from: nat, n: nat, dest: Path) {
    && from <= n && dest == dir + [RecoveryName(base, n)] && dest !in files
    && forall k: nat :: from <= k < n ==> dir + [RecoveryName(base, k)] in files
  }

  lemma {:induction false} RenameRetryEffect(env: Env, w: World, from: Path, to: Path, attempt: nat)
    ensures var r := RenameRetry(env, w, from, to, attempt);
      && r.w.files == (if r.err == Fine then Renamed(w.files, from, to) else w.files)
      && (r.err == Fine ==> IsFile(w.files, from) && !IsFolder(w.files, to))
    decreases MAX_RENAMES - attempt
  {
  }

  /** The directories down to the recovery root are there. */
  ghost predicate RootThere(root: Path, files: Files) {
    forall k: nat :: 0 < k <= |root| ==> IsFolder(files, root[..k])
  }

  lemma MkdirEffect(root: Path, files: Files, dir: Path)
    requires RootThere(root, files) && RecoveryZone(root) <= dir
    ensures Agrees(Some(RecoveryZone(root)), WithFolders(files, Ancestors(dir)), files, {})
    ensures ZoneKept(Some(RecoveryZone(root)), files, WithFolders(files, Ancestors(dir)), [])
  {
    forall p | p in Ancestors(dir) && !(RecoveryZone(root) <= p) ensures p in files {
      var k: nat :| 0 < k <= |dir| && p == dir[..k];
      assert root == dir[..|root|];
      if k <= |root| {
        assert p == root[..k];
      }
    }
  }

  lemma SoftRemoveEffect(env: Env, w: World, root: Path, source: Path)
    requires RootThere(root, w.files) && !(RecoveryZone(root) <= source)
    ensures var r := SoftRemove(env, w, root, source); var zone := Some(RecoveryZone(root));
      && (r.dest.None? ==> Agrees(zone, r.w.files, w.files, {}) && ZoneKept(zone, w.files, r.w.files, []))
      && (r.dest.Some? ==>
            && IsFile(w.files, source)
            && InZone(zone, r.dest.value) && r.dest.value !in w.files
            && r.dest.value in r.w.files && r.w.files[r.dest.value] == w.files[source]
            && Agrees(zone, r.w.files, w.files - {source}, {})
            && ZoneKept(zone, w.files, r.w.files, [r.dest.value]))
  {
    if root < source {
      var dir := RecoveryDir(root, source);
      MkdirEffect(root, w.files, dir);
      var made := MkdirAll(env, w, dir);
      if made.err == Fine {
        FreeNameIsFree(env, made.w, dir, Base(source), 0);
        var name := FreeName(env, made.w, dir, Base(source), 0);
        if name.dest.Some? {
          RenameRetryEffect(env, name.w, source, name.dest.value, 1);
        }
      }
    }
  }

  // ---------- committing one output ----------

  lemma CommitSoftEffect(env: Env, w: World, root: Path, temp: Path, target: Path)
    requires RootThere(root, w.files) && !(RecoveryZone(root) <= target) && !(RecoveryZone(root) <= temp)
    requires temp != target
    ensures var r := CommitSoft(env, w, root, temp, target); var zone := Some(RecoveryZone(root));
      && r.landed == r.ok && |r.recovery| <= 1
      && (r.ok ==> CommittedSoft(zone, w.files, r.w.files, temp, target, r.recovery))
      && (!r.ok ==> BackedOut(zone, w.files, r.w.files, target, r.recovery))
      && ZoneKept(zone, w.files, r.w.files, r.recovery)
  {
    SoftRemoveEffect(env, w, root, target);
  }

  ghost predicate CommittedSoft(zone: Option<Path>, a: Files, b: Files, temp: Path, target: Path, kept: seq<Path>) {
    && IsFile(a, temp) && IsFile(a, target)
    && Agrees(zone, b, Renamed(a, temp, target), {})
    && |kept| == 1 && InZone(zone, kept[0]) && kept[0] !in a && kept[0] in b && b[kept[0]] == a[target]
  }

  /** A commit that did not land left the old output where it was, or reports
      where it is. */
  ghost predicate BackedOut(zone: Option<Path>, a: Files, b: Files, target: Path, kept: seq<Path>) {
    if kept == [] then Agrees(zone, b, a, {})
    else
      && IsFile(a, target) && |kept| == 1 && kept[0] in b && b[kept[0]] == a[target]
      && Agrees(zone, b, a, {target, kept[0]})
      && target !in b
  }

  lemma CommitHardEffect(env: Env, w: World, temp: Path, target: Path, aside: Path)
    requires aside !in w.files && aside != temp && aside != target && temp != target
    ensures var r := CommitHard(env, w, temp, target, aside);
      && (r.ok ==> r.landed)
      && (r.landed ==> IsFile(w.files, temp) && IsFile(w.files, target) && Agrees(None, r.w.files, Renamed(w.files, temp, target), {aside}))
      && (r.ok ==> r.recovery == [] && Agrees(None, r.w.files, Renamed(w.files, temp, target), {}))
      && (r.landed && !r.ok ==> r.recovery == [aside] && aside in r.w.files && r.w.files[aside] == w.files[target])
      && (!r.landed ==> BackedOut(None, w.files, r.w.files, target, r.recovery) && (r.recovery != [] ==> r.recovery == [aside]))
  {
  }
}
