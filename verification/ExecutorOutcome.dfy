/** The whole component run, from the disk it found to the disk it leaves. */
module ExecutorOutcome {
  import opened Disk
  import opened Executor
  import opened ExecutorProof
  import opened ExecutorRuns
  import opened ExecutorTheorems
  import opened ExecutorStaging

  /** The targets that hold new outputs are a prefix of the frozen targets, each
      encoded from its original source; the removed files are a prefix of the
      obsolete ones and gone; the rest is reported, in order. */
  ghost predicate TellsTheTruth(plan: Plan, files: Files, run: Run) {
    var k, m := |run.report.committed|, |run.report.removed|;
    && k <= |plan.encodes| && m <= |plan.removes|
    && run.report.committed == Targets(plan.encodes)[..k]
    && run.report.removed == plan.removes[..m]
    && run.report.remaining == Targets(plan.encodes)[k..] + plan.removes[m..]
    && (m > 0 ==> k == |plan.encodes|)
    && (forall i :: 0 <= i < k ==> HoldsOutput(plan, files, run.w.files, i))
    && (forall j :: 0 <= j < m ==> plan.removes[j] !in run.w.files)
  }

  ghost predicate HoldsOutput(plan: Plan, files: Files, now: Files, i: int)
    requires 0 <= i < |plan.encodes|
  {
    var e := plan.encodes[i];
    e.source in files && e.target in now && now[e.target] == Encoded(files[e.source], e.spec)
  }

  /** No media is lost: every file is still at its path or at a reported recovery
      path. A hard run may also have replaced it by a landed output, or have
      removed it as obsolete once every output had landed. */
  ghost predicate Conserved(plan: Plan, files: Files, run: Run) {
    forall p: Path :: IsFile(files, p) ==>
      || SameAt(files, run.w.files, p)
      || KeptAt(files[p], run.w.files, run.report.recovery)
      || (!plan.soft && p in run.report.committed)
      || (!plan.soft && p in run.report.removed && run.report.committed == Targets(plan.encodes))
  }

  /** One simultaneous update: all targets from the original sources, minus the
      obsolete files, and nothing else outside the recovery zone. */
  ghost predicate OneUpdate(plan: Plan, files: Files, run: Run) {
    && (forall i :: 0 <= i < |plan.encodes| ==> HoldsOutput(plan, files, run.w.files, i))
    && (forall j :: 0 <= j < |plan.removes| ==> plan.removes[j] !in run.w.files)
    && SameElsewhere(plan, files, run.w.files)
    && ZoneKept(ZoneOf(plan), files, run.w.files, run.report.recovery)
    && (if plan.soft then Parked(ZoneOf(plan), files, run.w.files, Victims(plan, |plan.encodes|, |plan.removes|), run.report.recovery)
        else run.report.recovery == [])
  }

  ghost predicate SameElsewhere(plan: Plan, files: Files, now: Files) {
    forall p: Path :: !InZone(ZoneOf(plan), p) && p !in Targets(plan.encodes) && p !in plan.removes ==>
      (p in now <==> p in files) && (p in files ==> now[p] == files[p])
  }

  ghost predicate GoodRun(plan: Plan, files: Files, run: Run) {
    && TellsTheTruth(plan, files, run) && Conserved(plan, files, run)
    && (run.report.status == Succeeded ==> OneUpdate(plan, files, run) && run.report.remaining == [])
  }

  // ---------- from the staging area to the commit ----------

  lemma TempInPlace(env: Env, plan: Plan, files: Files, shop: Shop, i: nat)
    requires Admitted(plan, files) && NamesFree(env, plan, files) && Explained(env, plan, files, shop) && i < |plan.encodes|
    ensures TempApart(plan, shop.temps[i])
    ensures shop.temps[i] == [] || shop.temps[i] == TempOf(env, plan, i)
  {
    var target, temp := plan.encodes[i].target, TempOf(env, plan, i);
    assert SlotExplained(env, plan, files, shop, i);
    assert NameFree(plan, files, temp);
    if plan.soft {
      BesideLeavesZone(plan.root, target, ".tmp." + env.temp(i));
    }
  }

  lemma AsideInPlace(env: Env, plan: Plan, files: Files, shop: Shop, i: nat)
    requires Admitted(plan, files) && NamesFree(env, plan, files) && Explained(env, plan, files, shop) && i < |plan.encodes|
    ensures AsideApart(plan, shop.temps, shop.files, AsidePath(env, plan.encodes[i].target, i))
  {
    var aside := AsidePath(env, plan.encodes[i].target, i);
    assert NameFree(plan, files, aside);
    forall j: nat | j < |plan.encodes| ensures TempOf(env, plan, j) != aside && (shop.temps[j] == [] || shop.temps[j] == TempOf(env, plan, j)) {
      TempIsNotAside(env, plan.encodes[j].target, j, plan.encodes[i].target, i);
      assert SlotExplained(env, plan, files, shop, j);
    }
    assert !IsTemp(env, plan, aside);
    hide NamesFree, Admitted, SlotExplained, TempOf;
  }

  lemma OriginalStays(env: Env, plan: Plan, files: Files, shop: Shop, p: Path)
    requires NamesFree(env, plan, files) && Explained(env, plan, files, shop)
    requires p in files || exists j :: 0 <= j < |plan.encodes| && plan.encodes[j].target == p
    ensures p in shop.files <==> p in files
    ensures p in files ==> shop.files[p] == files[p]
  {
  }

  lemma StagingKnown(env: Env, plan: Plan, files: Files, shop: Shop)
    requires Admitted(plan, files) && NamesFree(env, plan, files) && Explained(env, plan, files, shop)
    ensures TargetsKnown(plan, shop.files) && ZoneClear(plan, shop.files)
    ensures forall j :: 0 <= j < |plan.removes| ==> IsFile(shop.files, plan.removes[j])
  {
  }

  lemma StagingReady(env: Env, plan: Plan, files: Files, shop: Shop)
    requires Admitted(plan, files) && NamesFree(env, plan, files) && Explained(env, plan, files, shop)
    ensures Ready(Job(env, plan, shop.temps), shop.files)
  {
    StagingKnown(env, plan, files, shop);
    hide Explained, NamesFree, TargetsKnown, ZoneClear, SlotExplained, AsidePath, TempApart, AsideApart, TempOf, RestExplained;
    assert Separate(plan) && ShopFits(plan, shop) by { ExplainedFits(env, plan, files, shop); }
    forall i: nat | i < |plan.encodes| ensures TempApart(plan, shop.temps[i]) && (shop.temps[i] == [] || shop.temps[i] == TempOf(env, plan, i)) {
      TempInPlace(env, plan, files, shop, i);
    }
    forall i: nat, j: nat | i < j < |plan.encodes| && shop.temps[i] != [] ensures shop.temps[i] != shop.temps[j] {
      TempsDistinct(env, plan, i, j);
    }
    forall i: nat | i < |plan.encodes| ensures AsideApart(plan, shop.temps, shop.files, AsidePath(env, plan.encodes[i].target, i)) {
      AsideInPlace(env, plan, files, shop, i);
    }
  }

  lemma ExplainedFits(env: Env, plan: Plan, files: Files, shop: Shop)
    requires Explained(env, plan, files, shop)
    ensures ShopFits(plan, shop)
  {
  }

  /** Everything was encoded: each staged path holds its output. */
  ghost predicate AllEncoded(shop: Shop) {
    forall i :: 0 <= i < |shop.tasks| ==> shop.tasks[i] == Finished(true)
  }

  lemma EncodedTemps(env: Env, plan: Plan, files: Files, shop: Shop, i: nat)
    requires Explained(env, plan, files, shop) && AllEncoded(shop) && i < |plan.encodes|
    ensures shop.temps[i] == TempOf(env, plan, i) != []
    ensures shop.temps[i] in shop.files && IsFile(files, plan.encodes[i].source)
    ensures shop.files[shop.temps[i]] == Encoded(files[plan.encodes[i].source], plan.encodes[i].spec)
  {
    assert SlotExplained(env, plan, files, shop, i);
  }

  // ---------- from the commit to the outcome ----------

  lemma TargetNotLoose(job: Job, files: Files, i: nat, k: nat)
    requires Ready(job, files) && i < k <= |job.plan.encodes| && |job.temps| == |job.plan.encodes|
    ensures job.plan.encodes[i].target !in LooseEnds(job, k) && !InZone(ZoneOf(job.plan), job.plan.encodes[i].target)
  {
  }

  lemma ObsoleteNotLoose(job: Job, files: Files, j: nat, k: nat)
    requires Ready(job, files) && j < |job.plan.removes| && k <= |job.plan.encodes| && |job.temps| == |job.plan.encodes|
    ensures job.plan.removes[j] !in LooseEnds(job, k) && !InZone(ZoneOf(job.plan), job.plan.removes[j])
  {
  }

  lemma ShapeAtTarget(job: Job, staged: Files, k: nat, m: nat, i: nat)
    requires Ready(job, staged) && Staged(job.temps, staged) && i < k <= |job.plan.encodes| == |job.temps| && m <= |job.plan.removes|
    ensures var f := Shape(staged, job.plan, job.temps, k, m); var t := job.plan.encodes[i].target;
      t in f && f[t] == staged[job.temps[i]]
  {
    LandedAt(staged, job.plan, job.temps, k, i);
  }

  lemma CommittedHolds(job: Job, staged: Files, files: Files, shop: Shop, run: Run, i: nat)
    requires Ready(job, staged) && |job.temps| == |job.plan.encodes| && Facts(job, staged, run)
    requires Explained(job.env, job.plan, files, shop) && AllEncoded(shop) && shop.files == staged && shop.temps == job.temps
    requires i < |run.report.committed|
    ensures HoldsOutput(job.plan, files, run.w.files, i)
  {
    var k := |run.report.committed|;
    AllStaged(job.env, job.plan, files, shop);
    EncodedTemps(job.env, job.plan, files, shop, i);
    TargetNotLoose(job, staged, i, k);
    ShapeAtTarget(job, staged, k, |run.report.removed|, i);
    hide Ready, Explained, Carries, Shape, LooseEnds, Completed;
  }

  lemma AllStaged(env: Env, plan: Plan, files: Files, shop: Shop)
    requires Explained(env, plan, files, shop) && AllEncoded(shop)
    ensures Staged(shop.temps, shop.files)
  {
    forall i: nat | i < |plan.encodes| ensures shop.temps[i] != [] && IsFile(shop.files, shop.temps[i]) {
      EncodedTemps(env, plan, files, shop, i);
    }
  }

  lemma RemovedGone(job: Job, staged: Files, run: Run, j: nat)
    requires Ready(job, staged) && |job.temps| == |job.plan.encodes| && Facts(job, staged, run)
    requires j < |run.report.removed|
    ensures job.plan.removes[j] !in run.w.files
  {
    ObsoleteNotLoose(job, staged, j, |run.report.committed|);
    assert job.plan.removes[j] !in Shape(staged, job.plan, job.temps, |run.report.committed|, |run.report.removed|);
    hide Ready, Carries, Shape, LooseEnds, Completed;
  }

  lemma CommitConserves(job: Job, staged: Files, files: Files, shop: Shop, run: Run)
    requires Admitted(job.plan, files) && NamesFree(job.env, job.plan, files)
    requires |job.temps| == |job.plan.encodes| && Facts(job, staged, run)
    requires Explained(job.env, job.plan, files, shop) && shop.files == staged && shop.temps == job.temps
    ensures Conserved(job.plan, files, run)
  {
    var k, m := |run.report.committed|, |run.report.removed|;
    hide Completed, Shape, Agrees, SameAt, KeptAt, Admitted;
    forall p: Path | IsFile(files, p)
      ensures SameAt(files, run.w.files, p) || KeptAt(files[p], run.w.files, run.report.recovery)
        || (!job.plan.soft && p in run.report.committed)
        || (!job.plan.soft && p in run.report.removed && run.report.committed == Targets(job.plan.encodes))
    {
      OriginalStays(job.env, job.plan, files, shop, p);
      NotATemp(job.env, job.plan, files, shop, p);
      if p in Ignored(job, k, m) {
        IgnoredReported(job, staged, run, p);
      } else {
        OneCarried(job, staged, files, run, p);
      }
    }
  }

  lemma NotATemp(env: Env, plan: Plan, files: Files, shop: Shop, p: Path)
    requires NamesFree(env, plan, files) && Explained(env, plan, files, shop) && p in files
    ensures p !in TempSet(shop.temps)
  {
    forall i: nat | i < |shop.temps| ensures shop.temps[i] == [] || shop.temps[i] != p {
      assert SlotExplained(env, plan, files, shop, i);
      assert NameFree(plan, files, TempOf(env, plan, i));
    }
  }

  lemma IgnoredReported(job: Job, staged: Files, run: Run, p: Path)
    requires |job.temps| == |job.plan.encodes| && Facts(job, staged, run)
    requires p in Ignored(job, |run.report.committed|, |run.report.removed|) && p !in TempSet(job.temps)
    ensures !job.plan.soft
    ensures p in run.report.committed || (p in run.report.removed && run.report.committed == Targets(job.plan.encodes))
  {
  }

  lemma OneCarried(job: Job, staged: Files, files: Files, run: Run, p: Path)
    requires |job.temps| == |job.plan.encodes| && Facts(job, staged, run)
    requires IsFile(files, p) && p in staged && staged[p] == files[p]
    requires p !in Ignored(job, |run.report.committed|, |run.report.removed|)
    ensures SameAt(files, run.w.files, p) || KeptAt(files[p], run.w.files, run.report.recovery)
  {
    hide Completed, Shape, Agrees, LooseEnds, Ignored;
  }

  lemma ZoneStays(env: Env, plan: Plan, files: Files, shop: Shop, p: Path)
    requires Admitted(plan, files) && NamesFree(env, plan, files) && Explained(env, plan, files, shop) && InZone(ZoneOf(plan), p)
    ensures (p in shop.files <==> p in files) && (p in files ==> shop.files[p] == files[p])
  {
  }

  lemma UpdateElsewhere(job: Job, staged: Files, files: Files, shop: Shop, run: Run, p: Path)
    requires Admitted(job.plan, files) && NamesFree(job.env, job.plan, files) && AllEncoded(shop)
    requires Explained(job.env, job.plan, files, shop) && shop.files == staged && shop.temps == job.temps
    requires |job.temps| == |job.plan.encodes| && Ready(job, staged) && Completed(job, staged, run)
    requires !InZone(ZoneOf(job.plan), p) && p !in Targets(job.plan.encodes) && p !in job.plan.removes
    ensures (p in run.w.files <==> p in files) && (p in files ==> run.w.files[p] == files[p])
  {
    var n, m := |job.plan.encodes|, |job.plan.removes|;
    forall i | 0 <= i < n ensures job.plan.encodes[i].target != p {
      assert Targets(job.plan.encodes)[i] == job.plan.encodes[i].target;
    }
    hide Parked, ZoneKept, ZoneClear, TargetsKnown, Victims;
    AllStaged(job.env, job.plan, files, shop);
    if i :| 0 <= i < n && job.temps[i] == p {
      EncodedTemps(job.env, job.plan, files, shop, i);
      assert NameFree(job.plan, files, TempOf(job.env, job.plan, i));
      LandedAt(staged, job.plan, job.temps, n, i);
    } else {
      forall i: nat | i < n ensures TempOf(job.env, job.plan, i) != p {
        EncodedTemps(job.env, job.plan, files, shop, i);
      }
      ShapeAway(job, staged, n, m, p);
    }
  }

  lemma ParkedFromOriginals(plan: Plan, files: Files, staged: Files, now: Files, recovery: seq<Path>)
    requires Parked(ZoneOf(plan), staged, now, Victims(plan, |plan.encodes|, |plan.removes|), recovery)
    requires forall p :: p in Victims(plan, |plan.encodes|, |plan.removes|) && p in staged ==> p in files && files[p] == staged[p]
    requires forall p :: InZone(ZoneOf(plan), p) && p in files ==> p in staged
    ensures Parked(ZoneOf(plan), files, now, Victims(plan, |plan.encodes|, |plan.removes|), recovery)
  {
  }

  lemma {:induction false} ReplacedAreTargets(encodes: seq<Encode>, k: nat)
    requires k <= |encodes|
    ensures forall p :: p in Replaced(encodes, k) ==> exists j :: 0 <= j < |encodes| && encodes[j].target == p
  {
    if k > 0 {
      ReplacedAreTargets(encodes, k - 1);
      assert encodes[k - 1].target == encodes[k - 1].target;
    }
  }

  lemma VictimStays(env: Env, plan: Plan, files: Files, shop: Shop, p: Path)
    requires Admitted(plan, files) && NamesFree(env, plan, files) && Explained(env, plan, files, shop)
    requires p in Victims(plan, |plan.encodes|, |plan.removes|) && p in shop.files
    ensures p in files && files[p] == shop.files[p]
  {
    ReplacedAreTargets(plan.encodes, |plan.encodes|);
    assert plan.removes[..|plan.removes|] == plan.removes;
    if p in plan.removes {
      assert IsFile(files, p);
    }
    OriginalStays(env, plan, files, shop, p);
  }

  lemma UpdateParks(job: Job, staged: Files, files: Files, shop: Shop, run: Run)
    requires Admitted(job.plan, files) && NamesFree(job.env, job.plan, files)
    requires Explained(job.env, job.plan, files, shop) && shop.files == staged && shop.temps == job.temps
    requires |job.temps| == |job.plan.encodes| && Completed(job, staged, run)
    ensures ZoneKept(ZoneOf(job.plan), files, run.w.files, run.report.recovery)
    ensures if job.plan.soft then Parked(ZoneOf(job.plan), files, run.w.files, Victims(job.plan, |job.plan.encodes|, |job.plan.removes|), run.report.recovery)
            else run.report.recovery == []
  {
    hide Agrees, Shape, Parked, Admitted, NamesFree, Explained, Victims, InZone;
    forall p: Path | InZone(ZoneOf(job.plan), p)
      ensures (p in staged <==> p in files) && (p in files ==> staged[p] == files[p])
    {
      ZoneStays(job.env, job.plan, files, shop, p);
    }
    if job.plan.soft {
      forall p | p in Victims(job.plan, |job.plan.encodes|, |job.plan.removes|) && p in staged
        ensures p in files && files[p] == staged[p]
      {
        VictimStays(job.env, job.plan, files, shop, p);
      }
      ParkedFromOriginals(job.plan, files, staged, run.w.files, run.report.recovery);
    }
  }

  lemma AllElsewhere(job: Job, staged: Files, files: Files, shop: Shop, run: Run)
    requires Admitted(job.plan, files) && NamesFree(job.env, job.plan, files) && AllEncoded(shop)
    requires Explained(job.env, job.plan, files, shop) && shop.files == staged && shop.temps == job.temps
    requires |job.temps| == |job.plan.encodes| && Ready(job, staged) && Completed(job, staged, run)
    ensures SameElsewhere(job.plan, files, run.w.files)
  {
    hide Admitted, NamesFree, Explained, Ready, AllEncoded, Completed, InZone;
    forall p: Path | !InZone(ZoneOf(job.plan), p) && p !in Targets(job.plan.encodes) && p !in job.plan.removes
      ensures (p in run.w.files <==> p in files) && (p in files ==> run.w.files[p] == files[p])
    {
      UpdateElsewhere(job, staged, files, shop, run, p);
    }
  }

  lemma CommitUpdates(job: Job, staged: Files, files: Files, shop: Shop, run: Run)
    requires Admitted(job.plan, files) && NamesFree(job.env, job.plan, files) && AllEncoded(shop)
    requires Explained(job.env, job.plan, files, shop) && shop.files == staged && shop.temps == job.temps
    requires |job.temps| == |job.plan.encodes| && Ready(job, staged) && Facts(job, staged, run) && run.report.status == Succeeded
    ensures OneUpdate(job.plan, files, run) && run.report.remaining == []
  {
    hide Admitted, NamesFree, Explained, Ready, AllEncoded, Facts, Parked, ZoneKept, Completed, HoldsOutput, Victims, InZone, SameElsewhere;
    CompletedCounts(job, staged, run);
    UpdateParks(job, staged, files, shop, run);
    CommitTruthful(job, staged, files, shop, run);
    AllElsewhere(job, staged, files, shop, run);
  }

  lemma CompletedCounts(job: Job, staged: Files, run: Run)
    requires |job.temps| == |job.plan.encodes| && Facts(job, staged, run) && run.report.status == Succeeded
    ensures Completed(job, staged, run)
    ensures |run.report.committed| == |job.plan.encodes| && |run.report.removed| == |job.plan.removes|
    ensures run.report.remaining == []
  {
    hide Agrees, Shape, Parked, ZoneKept, Carries, LooseEnds;
  }

  lemma CommitTruthful(job: Job, staged: Files, files: Files, shop: Shop, run: Run)
    requires AllEncoded(shop) && |job.temps| == |job.plan.encodes| && Ready(job, staged) && Facts(job, staged, run)
    requires Explained(job.env, job.plan, files, shop) && shop.files == staged && shop.temps == job.temps
    ensures TellsTheTruth(job.plan, files, run)
  {
    hide Explained, Ready, AllEncoded, Completed, Carries, Agrees, Shape, LooseEnds, HoldsOutput;
    forall i: nat | i < |run.report.committed| ensures HoldsOutput(job.plan, files, run.w.files, i) {
      CommittedHolds(job, staged, files, shop, run, i);
    }
    forall j: nat | j < |run.report.removed| ensures job.plan.removes[j] !in run.w.files {
      RemovedGone(job, staged, run, j);
    }
  }

  /** The commit of fully encoded staging, with any faults and cancellations: its
      report is true, no media is lost, and success is the one update. */
  lemma CommitIsGood(env: Env, plan: Plan, files: Files, shop: Shop, clock: nat)
    requires Admitted(plan, files) && NamesFree(env, plan, files) && Explained(env, plan, files, shop) && AllEncoded(shop)
    ensures GoodRun(plan, files, CommitAll(Job(env, plan, shop.temps), World(shop.files, clock)))
  {
    var job := Job(env, plan, shop.temps);
    var run := CommitAll(job, World(shop.files, clock));
    StagingReady(env, plan, files, shop);
    AllStaged(env, plan, files, shop);
    hide Admitted, NamesFree, Explained, Ready, AllEncoded, Facts, CommitAll, TellsTheTruth, Conserved, OneUpdate;
    CommitTellsTheTruth(job, World(shop.files, clock));
    CommitTruthful(job, shop.files, files, shop, run);
    CommitConserves(job, shop.files, files, shop, run);
    if run.report.status == Succeeded {
      CommitUpdates(job, shop.files, files, shop, run);
    }
  }

  // ---------- discarding ----------

  /** The disk is as the run found it, except for reported leftovers. */
  ghost predicate Restored(files: Files, run: Run) {
    && (forall p :: p in files ==> p in run.w.files && run.w.files[p] == files[p])
    && (forall p :: p in run.w.files && p !in files ==> p in run.report.recovery)
  }

  lemma StagedOnlyAdds(env: Env, plan: Plan, files: Files, shop: Shop)
    requires NamesFree(env, plan, files) && Explained(env, plan, files, shop)
    ensures forall p :: p in files ==> p in shop.files && shop.files[p] == files[p] && p !in TempSet(shop.temps)
    ensures forall p :: p in shop.files && p !in files ==> p in shop.temps && p != []
  {
    hide NamesFree, Explained;
    forall p | p in files ensures p in shop.files && shop.files[p] == files[p] && p !in TempSet(shop.temps) {
      OriginalStays(env, plan, files, shop, p);
      NotATemp(env, plan, files, shop, p);
    }
    forall p | p in shop.files && p !in files ensures p in shop.temps && p != [] {
      AddedIsTemp(env, plan, files, shop, p);
    }
  }

  lemma AddedIsTemp(env: Env, plan: Plan, files: Files, shop: Shop, p: Path)
    requires Explained(env, plan, files, shop) && p in shop.files && p !in files
    ensures p in shop.temps && p != []
  {
    assert IsTemp(env, plan, p);
    var i: nat :| i < |plan.encodes| && TempOf(env, plan, i) == p;
    assert SlotExplained(env, plan, files, shop, i);
    assert shop.temps[i] == p;
  }

  /** Discarding at any point of any schedule undoes the staging: nothing landed,
      everything remains, and what could not be cleaned is reported. */
  lemma DiscardRestores(env: Env, plan: Plan, files: Files, shop: Shop, clock: nat, cause: RunStatus)
    requires NamesFree(env, plan, files) && Explained(env, plan, files, shop) && cause != Succeeded
    ensures var run := Discard(Job(env, plan, shop.temps), World(shop.files, clock), cause);
      && Restored(files, run) && GoodRun(plan, files, run)
      && run.report.status == cause && run.report.committed == [] && run.report.removed == []
      && run.report.remaining == Targets(plan.encodes) + plan.removes
  {
    var run := Discard(Job(env, plan, shop.temps), World(shop.files, clock), cause);
    StagedOnlyAdds(env, plan, files, shop);
    CleanupEffect(env, World(shop.files, clock), shop.temps, 0);
    assert shop.temps[0..] == shop.temps;
    hide Explained, NamesFree, CleanupFrom, OneUpdate, Targets;
    forall p | p in files ensures p in run.w.files && run.w.files[p] == files[p] {}
    assert Targets(plan.encodes)[..0] == [] && plan.removes[..0] == [];
  }

  // ---------- the serial run and every schedule ----------

  lemma EncodeOneExplained(env: Env, plan: Plan, files: Files, shop: Shop, i: nat)
    requires Admitted(plan, files) && NamesFree(env, plan, files) && Explained(env, plan, files, shop)
    requires i < |plan.encodes| && shop.tasks[i].Idle?
    ensures var next := EncodeOne(env, plan, shop, i);
      && Explained(env, plan, files, next) && next.tasks[i].Finished?
      && next.tasks[i].ok == Succeeds(env, plan, files, i)
      && forall j :: 0 <= j < |plan.encodes| && j != i ==> next.tasks[j] == shop.tasks[j]
  {
    var begun := Begin(env, plan, shop, i);
    assert Moved(env, plan, shop, Start(i)) == begun;
    MoveExplained(env, plan, files, shop, Start(i));
    if begun.tasks[i].Working? {
      assert Moved(env, plan, begun, Finish(i)) == End(env, plan, begun, i);
      MoveExplained(env, plan, files, begun, Finish(i));
    }
    assert SlotExplained(env, plan, files, EncodeOne(env, plan, shop, i), i);
  }

  predicate SerialAt(plan: Plan, shop: Shop, i: nat) {
    && ShopFits(plan, shop)
    && (forall j :: 0 <= j < |plan.encodes| ==> shop.tasks[j] == if j < i then Finished(true) else Idle)
  }

  lemma {:induction false} SerialIsGood(env: Env, plan: Plan, files: Files, shop: Shop, clock: nat, i: nat)
    requires Admitted(plan, files) && NamesFree(env, plan, files) && Explained(env, plan, files, shop)
    requires i <= |plan.encodes| && SerialAt(plan, shop, i)
    ensures GoodRun(plan, files, EncodeFrom(env, plan, shop, clock, i))
    decreases |plan.encodes| - i
  {
    hide Admitted, NamesFree, Explained, GoodRun, CommitAll, Discard, EncodeOne;
    if i == |plan.encodes| {
      CommitIsGood(env, plan, files, shop, clock);
    } else {
      EncodeOneExplained(env, plan, files, shop, i);
      var next := EncodeOne(env, plan, shop, i);
      if next.tasks[i].ok {
        SerialIsGood(env, plan, files, next, clock, i + 1);
      } else {
        DiscardRestores(env, plan, files, next, clock, CauseOf(env, i));
      }
    }
  }

  lemma {:induction false} SerialReaches(env: Env, plan: Plan, files: Files, shop: Shop, clock: nat, i: nat, end: Shop)
    requires Admitted(plan, files) && NamesFree(env, plan, files) && Explained(env, plan, files, shop)
    requires i <= |plan.encodes| && SerialAt(plan, shop, i)
    requires Explained(env, plan, files, end) && AllEncoded(end)
    ensures EncodeFrom(env, plan, shop, clock, i) == CommitAll(Job(env, plan, end.temps), World(end.files, clock))
    decreases |plan.encodes| - i
  {
    hide Admitted, NamesFree, Explained, CommitAll, Discard, EncodeOne;
    if i == |plan.encodes| {
      SameEnd(env, plan, files, shop, end);
    } else {
      EncodeOneExplained(env, plan, files, shop, i);
      EndSucceeds(env, plan, files, end, i);
      SerialReaches(env, plan, files, EncodeOne(env, plan, shop, i), clock, i + 1, end);
    }
  }

  lemma EndSucceeds(env: Env, plan: Plan, files: Files, end: Shop, i: nat)
    requires Explained(env, plan, files, end) && AllEncoded(end) && i < |plan.encodes|
    ensures Succeeds(env, plan, files, i)
  {
    assert SlotExplained(env, plan, files, end, i);
  }

  lemma SameEnd(env: Env, plan: Plan, files: Files, shop: Shop, end: Shop)
    requires Explained(env, plan, files, shop) && SerialAt(plan, shop, |plan.encodes|)
    requires Explained(env, plan, files, end) && AllEncoded(end)
    ensures shop == end
  {
    ExplainedFits(env, plan, files, end);
    assert shop.tasks == end.tasks;
    SameTasksSameShop(env, plan, files, shop, end);
  }

  /** Encoding in any order, overlapping at will, and then committing ends
      exactly like the serial run: the same disk, the same report. */
  lemma AnyScheduleEndsLikeSerial(env: Env, plan: Plan, w: World, moves: seq<Move>, end: Shop)
    requires Admitted(plan, w.files) && NamesFree(env, plan, w.files)
    requires Schedule(env, plan, OpenShop(plan, w.files), moves, end) && ShopFits(plan, end) && AllEncoded(end)
    ensures CommitAll(Job(env, plan, end.temps), World(end.files, w.clock)) == RunComponent(env, plan, w)
  {
    OpenExplained(env, plan, w.files);
    ScheduleExplained(env, plan, w.files, OpenShop(plan, w.files), moves, end);
    SerialReaches(env, plan, w.files, OpenShop(plan, w.files), w.clock, 0, end);
  }

  /** The whole serial run, whatever fails and whenever it is canceled. */
  lemma EveryRunIsGood(env: Env, plan: Plan, w: World)
    requires Admitted(plan, w.files) && NamesFree(env, plan, w.files)
    ensures GoodRun(plan, w.files, RunComponent(env, plan, w))
  {
    OpenExplained(env, plan, w.files);
    SerialIsGood(env, plan, w.files, OpenShop(plan, w.files), w.clock, 0);
  }
}
