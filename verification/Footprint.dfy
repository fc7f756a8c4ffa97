/** One component run among others on the same disk: what it needs, what it may
    touch, and that the others do not disturb it. */
module Footprint {
  import opened Disk
  import opened Executor
  import opened ExecutorProof
  import opened ExecutorRuns
  import opened ExecutorTheorems
  import opened ExecutorStaging
  import opened ExecutorOutcome

  /** A component with what happens to its calls. */
  datatype Component = Component(env: Env, plan: Plan)

  // ---------- paths ----------

  predicate IsAside(c: Component, p: Path) {
    exists i: nat :: i < |c.plan.encodes| && AsidePath(c.env, c.plan.encodes[i].target, i) == p
  }

  predicate IsTarget(c: Component, p: Path) {
    exists i: nat :: i < |c.plan.encodes| && c.plan.encodes[i].target == p
  }

  predicate IsSource(c: Component, p: Path) {
    exists i: nat :: i < |c.plan.encodes| && c.plan.encodes[i].source == p
  }

  predicate IsOwnName(c: Component, p: Path) {
    IsTemp(c.env, c.plan, p) || IsAside(c, p)
  }

  predicate Changes(c: Component, p: Path) {
    IsOwnName(c, p) || IsTarget(c, p) || p in c.plan.removes
  }

  /** All a run of the component may touch. */
  predicate Touches(c: Component, p: Path) {
    Changes(c, p) || InZone(ZoneOf(c.plan), p)
  }

  /** The directories down to the recovery root. */
  predicate OnRoot(c: Component, p: Path) {
    c.plan.soft && p <= c.plan.root
  }

  /** All a run of the component relies on. */
  predicate Needs(c: Component, p: Path) {
    Changes(c, p) || IsSource(c, p) || OnRoot(c, p)
  }

  ghost predicate Same(a: Files, b: Files, p: Path) {
    (p in a <==> p in b) && (p in a ==> a[p] == b[p])
  }

  // ---------- a component at work ----------

  /** The disk as it is without the component's staged files. */
  function Without(c: Component, files: Files): Files {
    map p | p in files && !IsTemp(c.env, c.plan, p) :: files[p]
  }

  /** The component was let through, and its staging is what its tasks explain. */
  ghost predicate AtWork(c: Component, shop: Shop) {
    var base := Without(c, shop.files);
    Admitted(c.plan, base) && NamesFree(c.env, c.plan, base) && Explained(c.env, c.plan, base, shop)
  }

  lemma StartsWork(c: Component, files: Files)
    requires Admitted(c.plan, files) && NamesFree(c.env, c.plan, files)
    ensures AtWork(c, OpenShop(c.plan, files))
  {
    forall i: nat | i < |c.plan.encodes| ensures TempOf(c.env, c.plan, i) !in files {
      assert NameFree(c.plan, files, TempPath(c.env, c.plan.encodes[i].target, i));
    }
    assert Without(c, files) == files;
    OpenExplained(c.env, c.plan, files);
  }

  /** An encode step goes on with the work and touches staged paths only. */
  lemma MovesOn(c: Component, shop: Shop, m: Move)
    requires AtWork(c, shop) && CanMove(c.plan, shop, m)
    ensures var next := Moved(c.env, c.plan, shop, m);
      AtWork(c, next) && forall p: Path :: !IsTemp(c.env, c.plan, p) ==> Same(shop.files, next.files, p)
  {
    hide Admitted, NamesFree, Explained, Moved, CanMove, IsTemp, RestExplained;
    var base, next := Without(c, shop.files), Moved(c.env, c.plan, shop, m);
    MoveExplained(c.env, c.plan, base, shop, m);
    RestIs(c, base, shop);
    RestIs(c, base, next);
    SameBase(c, base, next.files);
  }

  lemma RestIs(c: Component, base: Files, shop: Shop)
    requires Explained(c.env, c.plan, base, shop)
    ensures forall p: Path :: !IsTemp(c.env, c.plan, p) ==> Same(base, shop.files, p)
  {
    hide IsTemp, SlotExplained;
  }

  lemma SameBase(c: Component, base: Files, files: Files)
    requires forall p: Path :: !IsTemp(c.env, c.plan, p) ==> Same(base, files, p)
    requires forall p :: p in base ==> !IsTemp(c.env, c.plan, p)
    ensures Without(c, files) == base
  {
    hide IsTemp;
  }

  /** Whatever else happens on the disk, as long as nothing the component needs
      is touched, its work is as it was. */
  lemma Undisturbed(c: Component, shop: Shop, files: Files)
    requires AtWork(c, shop) && forall p: Path :: Needs(c, p) ==> Same(shop.files, files, p)
    ensures AtWork(c, Shop(files, shop.temps, shop.tasks))
  {
    var a, b := Without(c, shop.files), Without(c, files);
    assert forall p: Path :: Needs(c, p) ==> Same(a, b, p);
    StillAdmitted(c, a, b);
    StillFree(c, a, b);
    StillExplained(c, shop, files);
  }

  lemma StillAdmitted(c: Component, a: Files, b: Files)
    requires Admitted(c.plan, a) && forall p: Path :: Needs(c, p) ==> Same(a, b, p)
    ensures Admitted(c.plan, b)
  {
    hide IsOwnName, Separate;
    forall i: nat | i < |c.plan.encodes| ensures Same(a, b, c.plan.encodes[i].target) && Same(a, b, c.plan.encodes[i].source) {
      assert IsTarget(c, c.plan.encodes[i].target) && IsSource(c, c.plan.encodes[i].source);
    }
    forall j: nat | j < |c.plan.removes| ensures Same(a, b, c.plan.removes[j]) {
      assert c.plan.removes[j] in c.plan.removes;
    }
    if c.plan.soft {
      forall k: nat | 0 < k <= |c.plan.root| ensures IsFolder(b, c.plan.root[..k]) {
        assert c.plan.root[..k] <= c.plan.root && Needs(c, c.plan.root[..k]);
      }
    }
  }

  lemma StillFree(c: Component, a: Files, b: Files)
    requires NamesFree(c.env, c.plan, a) && forall p: Path :: Needs(c, p) ==> Same(a, b, p)
    ensures NamesFree(c.env, c.plan, b)
  {
    hide TempPath, AsidePath;
    forall i: nat | i < |c.plan.encodes|
      ensures NameFree(c.plan, b, TempPath(c.env, c.plan.encodes[i].target, i)) && NameFree(c.plan, b, AsidePath(c.env, c.plan.encodes[i].target, i))
    {
      assert NameFree(c.plan, a, TempPath(c.env, c.plan.encodes[i].target, i)) && NameFree(c.plan, a, AsidePath(c.env, c.plan.encodes[i].target, i));
      assert IsTemp(c.env, c.plan, TempOf(c.env, c.plan, i)) && IsAside(c, AsidePath(c.env, c.plan.encodes[i].target, i));
      assert Needs(c, TempOf(c.env, c.plan, i)) && Needs(c, AsidePath(c.env, c.plan.encodes[i].target, i));
    }
  }

  lemma StillExplained(c: Component, shop: Shop, files: Files)
    requires Explained(c.env, c.plan, Without(c, shop.files), shop) && forall p: Path :: Needs(c, p) ==> Same(shop.files, files, p)
    ensures Explained(c.env, c.plan, Without(c, files), Shop(files, shop.temps, shop.tasks))
  {
    hide TempOf, IsAside;
    var now := Shop(files, shop.temps, shop.tasks);
    forall i: nat | i < |c.plan.encodes| ensures SlotExplained(c.env, c.plan, Without(c, files), now, i) {
      assert SlotExplained(c.env, c.plan, Without(c, shop.files), shop, i);
      assert IsTemp(c.env, c.plan, TempOf(c.env, c.plan, i)) && IsSource(c, c.plan.encodes[i].source);
      assert Needs(c, TempOf(c.env, c.plan, i)) && Needs(c, c.plan.encodes[i].source);
      assert Same(shop.files, files, c.plan.encodes[i].source);
      assert Same(Without(c, shop.files), Without(c, files), c.plan.encodes[i].source);
    }
  }

  // ---------- the end of its work ----------

  /** What the end of a component's work may do to the disk. */
  ghost predicate Ends(c: Component, files: Files, run: Run) {
    && GoodRun(c.plan, Without(c, files), run)
    && (forall p: Path :: !Touches(c, p) ==> Same(files, run.w.files, p))
    && (forall r :: r in run.report.recovery ==> Touches(c, r))
  }

  predicate OwnRecovery(c: Component, temps: seq<Path>, r: Path) {
    InZone(ZoneOf(c.plan), r) || IsAside(c, r) || (r in temps && r != [])
  }

  lemma ParkedInZone(env: Env, w: World, root: Path, source: Path)
    ensures var r := SoftRemove(env, w, root, source); r.dest.Some? ==> RecoveryZone(root) <= r.dest.value
  {
    if root < source {
      var made := MkdirAll(env, w, RecoveryDir(root, source));
      FreeNameIsFree(env, made.w, RecoveryDir(root, source), Base(source), 0);
    }
  }

  lemma OutputRecovery(c: Component, temps: seq<Path>, w: World, i: nat)
    requires i < |c.plan.encodes| == |temps|
    ensures forall r :: r in CommitOutput(Job(c.env, c.plan, temps), w, i).recovery ==> OwnRecovery(c, temps, r)
  {
    hide SoftRemove, AsidePath;
    ParkedInZone(c.env, w, c.plan.root, c.plan.encodes[i].target);
    assert IsAside(c, AsidePath(c.env, c.plan.encodes[i].target, i));
  }

  lemma StopRecovery(c: Component, temps: seq<Path>, p: Progress, status: RunStatus, stage: Stage)
    requires |c.plan.encodes| == |temps| && forall r :: r in p.recovery ==> OwnRecovery(c, temps, r)
    ensures forall r :: r in Stop(Job(c.env, c.plan, temps), p, status, stage).report.recovery ==> OwnRecovery(c, temps, r)
  {
    CleanupEffect(c.env, p.w, temps, 0);
    assert temps[0..] == temps;
  }

  lemma {:induction false} RemoveRecovery(c: Component, temps: seq<Path>, p: Progress, j: nat)
    requires |c.plan.encodes| == |temps| && j <= |c.plan.removes| && forall r :: r in p.recovery ==> OwnRecovery(c, temps, r)
    ensures forall r :: r in RemoveFrom(Job(c.env, c.plan, temps), p, j).report.recovery ==> OwnRecovery(c, temps, r)
    decreases |c.plan.removes| - j
  {
    hide Stop, SoftRemove, OwnRecovery;
    var job := Job(c.env, c.plan, temps);
    if j < |c.plan.removes| {
      StopRecovery(c, temps, Ticked(p), Canceled, RemoveStage);
      var q := c.plan.removes[j];
      var r := RemoveObsolete(c.env, Tick(p.w), c.plan, q);
      ObsoleteRecovery(c, temps, Tick(p.w), q);
      StopRecovery(c, temps, Progress(r.w, p.committed, p.removed, p.recovery), Failed, RemoveStage);
      RemoveRecovery(c, temps, Progress(r.w, p.committed, p.removed + [q], p.recovery + r.recovery), j + 1);
    }
  }

  lemma ObsoleteRecovery(c: Component, temps: seq<Path>, w: World, q: Path)
    ensures forall r :: r in RemoveObsolete(c.env, w, c.plan, q).recovery ==> OwnRecovery(c, temps, r)
  {
    hide SoftRemove;
    ParkedInZone(c.env, w, c.plan.root, q);
  }

  lemma {:induction false} CommitRecovery(c: Component, temps: seq<Path>, p: Progress, i: nat)
    requires i <= |c.plan.encodes| == |temps| && forall r :: r in p.recovery ==> OwnRecovery(c, temps, r)
    ensures forall r :: r in CommitFrom(Job(c.env, c.plan, temps), p, i).report.recovery ==> OwnRecovery(c, temps, r)
    decreases |c.plan.encodes| - i
  {
    hide Stop, CommitOutput, OwnRecovery, RemoveFrom;
    if i == |c.plan.encodes| {
      RemoveRecovery(c, temps, p, 0);
    } else {
      var l := CommitOutput(Job(c.env, c.plan, temps), Tick(p.w), i);
      var q := Progress(l.w, if l.landed then p.committed + [c.plan.encodes[i].target] else p.committed, p.removed, p.recovery + l.recovery);
      OutputRecovery(c, temps, Tick(p.w), i);
      StopRecovery(c, temps, Ticked(p), Canceled, CommitStage);
      StopRecovery(c, temps, q, Failed, CommitStage);
      CommitRecovery(c, temps, q, i + 1);
    }
  }

  lemma {:induction false} ValidateRecovery(c: Component, temps: seq<Path>, p: Progress, i: nat)
    requires i <= |c.plan.encodes| == |temps| && p.recovery == []
    ensures forall r :: r in ValidateFrom(Job(c.env, c.plan, temps), p, i).report.recovery ==> OwnRecovery(c, temps, r)
    decreases |c.plan.encodes| - i
  {
    hide Stop, OwnRecovery, CommitFrom, Probed;
    if i == |c.plan.encodes| {
      CommitRecovery(c, temps, p, 0);
    } else {
      StopRecovery(c, temps, Ticked(p), Canceled, ValidateStage);
      StopRecovery(c, temps, Ticked(Ticked(Ticked(p))), Canceled, ValidateStage);
      StopRecovery(c, temps, Ticked(Ticked(Ticked(p))), Failed, ValidateStage);
      ValidateRecovery(c, temps, Ticked(Ticked(p)), i + 1);
    }
  }

  /** A staged path is the component's own. */
  lemma TempsAreOwn(c: Component, shop: Shop, p: Path)
    requires AtWork(c, shop) && p in shop.temps && p != []
    ensures IsTemp(c.env, c.plan, p)
  {
    var i: nat :| i < |shop.temps| && shop.temps[i] == p;
    TempInPlace(c.env, c.plan, Without(c, shop.files), shop, i);
  }

  /** Outside its footprint a commit changes nothing, whatever fails. */
  lemma CommitStays(c: Component, shop: Shop, run: Run, p: Path)
    requires AtWork(c, shop) && AllEncoded(shop) && ShopFits(c.plan, shop)
    requires Facts(Job(c.env, c.plan, shop.temps), shop.files, run) && !Touches(c, p)
    ensures Same(shop.files, run.w.files, p)
  {
    hide AtWork, IsTemp, AsidePath, AllEncoded, Carries, Completed;
    var job := Job(c.env, c.plan, shop.temps);
    var k, m := |run.report.committed|, |run.report.removed|;
    StagedNames(c, shop);
    forall i | 0 <= i < k ensures c.plan.encodes[i].target != p && shop.temps[i] != p {
      assert IsTarget(c, c.plan.encodes[i].target);
    }
    forall j | 0 <= j < m ensures c.plan.removes[j] != p {
      assert c.plan.removes[j] in c.plan.removes;
    }
    ShapeAway(job, shop.files, k, m, p);
    NotLoose(c, shop, k, p);
  }

  lemma StagedNames(c: Component, shop: Shop)
    requires AtWork(c, shop) && AllEncoded(shop) && ShopFits(c.plan, shop)
    ensures forall i :: 0 <= i < |shop.temps| ==> IsTemp(c.env, c.plan, shop.temps[i])
  {
    hide Admitted, NamesFree, Explained, AllEncoded;
    forall i | 0 <= i < |shop.temps| ensures IsTemp(c.env, c.plan, shop.temps[i]) {
      EncodedTemps(c.env, c.plan, Without(c, shop.files), shop, i);
    }
  }

  lemma NotLoose(c: Component, shop: Shop, k: nat, p: Path)
    requires ShopFits(c.plan, shop) && !Touches(c, p) && forall i :: 0 <= i < |shop.temps| ==> IsTemp(c.env, c.plan, shop.temps[i])
    ensures p !in LooseEnds(Job(c.env, c.plan, shop.temps), k)
  {
    hide IsTemp, AsidePath;
    if k < |c.plan.encodes| {
      assert IsTarget(c, c.plan.encodes[k].target);
    }
    forall i: nat | i < |c.plan.encodes| ensures AsidePath(c.env, c.plan.encodes[i].target, i) != p {
      assert IsAside(c, AsidePath(c.env, c.plan.encodes[i].target, i));
    }
  }

  lemma OwnIsTouched(c: Component, shop: Shop, r: Path)
    requires AtWork(c, shop) && OwnRecovery(c, shop.temps, r)
    ensures Touches(c, r)
  {
    hide AtWork, IsTemp, IsAside;
    if r in shop.temps && r != [] {
      TempsAreOwn(c, shop, r);
    }
  }

  /** Committing complete staging, with any faults and cancellations. */
  lemma CommitEnds(c: Component, shop: Shop, clock: nat)
    requires AtWork(c, shop) && ShopFits(c.plan, shop) && AllEncoded(shop)
    ensures Ends(c, shop.files, CommitAll(Job(c.env, c.plan, shop.temps), World(shop.files, clock)))
  {
    hide Admitted, NamesFree, Explained, AllEncoded, Ready, GoodRun, Facts, CommitAll, Touches, OwnRecovery, Staged;
    var base, run := Without(c, shop.files), CommitAll(Job(c.env, c.plan, shop.temps), World(shop.files, clock));
    CommitIsGood(c.env, c.plan, base, shop, clock);
    StagingReady(c.env, c.plan, base, shop);
    AllStaged(c.env, c.plan, base, shop);
    TempsSet(shop);
    CommitTellsTheTruth(Job(c.env, c.plan, shop.temps), World(shop.files, clock));
    forall p: Path | !Touches(c, p) ensures Same(shop.files, run.w.files, p) {
      CommitStays(c, shop, run, p);
    }
    CommitAllRecovery(c, shop, clock);
  }

  lemma TempsSet(shop: Shop)
    requires Staged(shop.temps, shop.files)
    ensures forall x :: 0 <= x < |shop.temps| ==> shop.temps[x] != []
  {
  }

  lemma CommitAllRecovery(c: Component, shop: Shop, clock: nat)
    requires AtWork(c, shop) && ShopFits(c.plan, shop)
    ensures forall r :: r in CommitAll(Job(c.env, c.plan, shop.temps), World(shop.files, clock)).report.recovery ==> Touches(c, r)
  {
    hide AtWork, Touches, OwnRecovery, ValidateFrom;
    ValidateRecovery(c, shop.temps, Progress(World(shop.files, clock), [], [], []), 0);
    forall r | r in CommitAll(Job(c.env, c.plan, shop.temps), World(shop.files, clock)).report.recovery ensures Touches(c, r) {
      OwnIsTouched(c, shop, r);
    }
  }

  /** Discarding at any point of the staging. */
  lemma DiscardEnds(c: Component, shop: Shop, clock: nat, cause: RunStatus)
    requires AtWork(c, shop) && cause != Succeeded
    ensures Ends(c, shop.files, Discard(Job(c.env, c.plan, shop.temps), World(shop.files, clock), cause))
  {
    hide Admitted, NamesFree, Explained, GoodRun, CleanupFrom, IsAside, IsTarget;
    var base, run := Without(c, shop.files), Discard(Job(c.env, c.plan, shop.temps), World(shop.files, clock), cause);
    DiscardRestores(c.env, c.plan, base, shop, clock, cause);
    CleanupEffect(c.env, World(shop.files, clock), shop.temps, 0);
    assert shop.temps[0..] == shop.temps;
    forall r | r in run.report.recovery ensures Touches(c, r) {
      TempsAreOwn(c, shop, r);
    }
  }
}
