/** The promises of a component run, for every plan the gate lets through and
    every way its calls may fail or be canceled. */
module ExecutorTheorems {
  import opened Prelude
  import opened Disk
  import opened Executor
  import opened ExecutorProof
  import opened ExecutorRuns

  // ---------- removing ----------

  lemma ObsoleteAsBefore(job: Job, before: Files, p: Progress, j: nat)
    requires |job.plan.encodes| == |job.temps| && j < |job.plan.removes|
    requires Ready(job, before) && Staged(job.temps, before) && Sound(job, before, p, |job.plan.encodes|, j)
    ensures var q := job.plan.removes[j]; !InZone(ZoneOf(job.plan), q) && IsFile(before, q) && SameAt(before, p.w.files, q)
  {
    var q := job.plan.removes[j];
    forall x | 0 <= x < |job.temps| ensures job.temps[x] != q {
      assert TempApart(job.plan, job.temps[x]);
    }
    ShapeAway(job, before, |job.plan.encodes|, j, q);
  }

  lemma NextRemoval(job: Job, before: Files, j: nat)
    requires |job.plan.encodes| == |job.temps| && j < |job.plan.removes|
    ensures Shape(before, job.plan, job.temps, |job.plan.encodes|, j + 1)
         == Shape(before, job.plan, job.temps, |job.plan.encodes|, j) - {job.plan.removes[j]}
  {
    assert (set x: nat | x < j + 1 :: job.plan.removes[x]) == (set x: nat | x < j :: job.plan.removes[x]) + {job.plan.removes[j]};
  }

  lemma VictimsRemoved(plan: Plan, j: nat)
    requires j < |plan.removes|
    ensures plan.removes[..j + 1] == plan.removes[..j] + [plan.removes[j]]
    ensures Victims(plan, |plan.encodes|, j + 1) == Victims(plan, |plan.encodes|, j) + [plan.removes[j]]
  {
  }

  function AfterRemoval(p: Progress, source: Path, c: Clearing): Progress {
    Progress(c.w, p.committed, p.removed + [source], p.recovery + c.recovery)
  }

  lemma AgreesWithout(zone: Option<Path>, a: Files, b: Files, q: Path)
    requires Agrees(zone, a, b, {})
    ensures Agrees(zone, a - {q}, b - {q}, {})
  {
  }

  lemma SoftRemovalOk(job: Job, before: Files, p: Progress, j: nat)
    requires |job.plan.encodes| == |job.temps| && j < |job.plan.removes| && job.plan.soft
    requires Ready(job, before) && Staged(job.temps, before) && Sound(job, before, p, |job.plan.encodes|, j)
    requires RemoveObsolete(job.env, Tick(p.w), job.plan, job.plan.removes[j]).ok
    ensures Sound(job, before, AfterRemoval(p, job.plan.removes[j], RemoveObsolete(job.env, Tick(p.w), job.plan, job.plan.removes[j])), |job.plan.encodes|, j + 1)
  {
    var n, q, zone := |job.plan.encodes|, job.plan.removes[j], ZoneOf(job.plan);
    var victims := Victims(job.plan, n, j);
    hide Ready, Staged, Shape, Victims, Agrees, Parked, ZoneKept, RootThere, Carries;
    ObsoleteAsBefore(job, before, p, j);
    RootStays(job, before, p, n, j);
    SoftRemoveEffect(job.env, Tick(p.w), job.plan.root, q);
    hide SoftRemove;
    var c := RemoveObsolete(job.env, Tick(p.w), job.plan, q);
    var d := c.recovery[0];
    assert c.recovery == [d];
    ParkOne(zone, before, p.w.files, c.w.files, victims, p.recovery, q, d);
    NextRemoval(job, before, j);
    VictimsRemoved(job.plan, j);
    AgreesWithout(zone, p.w.files, Shape(before, job.plan, job.temps, n, j), q);
    AgreesTrans(zone, c.w.files, p.w.files - {q}, Shape(before, job.plan, job.temps, n, j + 1), {}, {});
  }

  lemma HardRemovalOk(job: Job, before: Files, p: Progress, j: nat)
    requires |job.plan.encodes| == |job.temps| && j < |job.plan.removes| && !job.plan.soft
    requires Ready(job, before) && Staged(job.temps, before) && Sound(job, before, p, |job.plan.encodes|, j)
    requires RemoveObsolete(job.env, Tick(p.w), job.plan, job.plan.removes[j]).ok
    ensures Sound(job, before, AfterRemoval(p, job.plan.removes[j], RemoveObsolete(job.env, Tick(p.w), job.plan, job.plan.removes[j])), |job.plan.encodes|, j + 1)
  {
    var n, q, zone := |job.plan.encodes|, job.plan.removes[j], ZoneOf(job.plan);
    hide Ready, Staged, Shape, Victims, Agrees, Parked, ZoneKept;
    var c := RemoveObsolete(job.env, Tick(p.w), job.plan, q);
    NextRemoval(job, before, j);
    VictimsRemoved(job.plan, j);
    AgreesWithout(zone, p.w.files, Shape(before, job.plan, job.temps, n, j), q);
    HardZone(job.plan, before, c.w.files, p.recovery);
  }

  lemma RemovalStopped(job: Job, before: Files, p: Progress, j: nat)
    requires |job.plan.encodes| == |job.temps| && j < |job.plan.removes|
    requires Ready(job, before) && Staged(job.temps, before) && Sound(job, before, p, |job.plan.encodes|, j)
    requires !RemoveObsolete(job.env, Tick(p.w), job.plan, job.plan.removes[j]).ok
    ensures var c := RemoveObsolete(job.env, Tick(p.w), job.plan, job.plan.removes[j]);
      Sound(job, before, Progress(c.w, p.committed, p.removed, p.recovery), |job.plan.encodes|, j)
  {
    var n, q, zone := |job.plan.encodes|, job.plan.removes[j], ZoneOf(job.plan);
    var victims := Victims(job.plan, n, j);
    hide Ready, Staged, Shape, Victims, Agrees, Parked, ZoneKept, RootThere, Carries;
    var c := RemoveObsolete(job.env, Tick(p.w), job.plan, q);
    if job.plan.soft {
      ObsoleteAsBefore(job, before, p, j);
      RootStays(job, before, p, n, j);
      SoftRemoveEffect(job.env, Tick(p.w), job.plan.root, q);
      hide SoftRemove;
      ParkNone(zone, before, p.w.files, c.w.files, victims, p.recovery);
      AgreesTrans(zone, c.w.files, p.w.files, Shape(before, job.plan, job.temps, n, j), {}, {});
    }
  }

  // ---------- stopping ----------

  /** Cleaning up touches staged paths only, and reports every one that stays. */
  lemma {:induction false} CleanupEffect(env: Env, w: World, temps: seq<Path>, i: nat)
    requires i <= |temps|
    ensures var r := CleanupFrom(env, w, temps, i);
      && (forall q :: q in r.w.files ==> q in w.files && r.w.files[q] == w.files[q])
      && (forall q :: q in w.files && (q == [] || q !in temps[i..]) ==> q in r.w.files)
      && (forall q :: q in temps[i..] && q != [] && q in r.w.files ==> q in r.left)
      && (forall q :: q in r.left ==> q in temps[i..] && q != [])
    decreases |temps| - i
  {
    if i < |temps| {
      assert temps[i..] == [temps[i]] + temps[i + 1..];
      assert forall q :: q in temps[i..] <==> q == temps[i] || q in temps[i + 1..];
      if temps[i] == [] {
        CleanupEffect(env, w, temps, i + 1);
      } else {
        CleanupEffect(env, Remove(env, w, temps[i]).w, temps, i + 1);
      }
    }
  }

  // ---------- every outcome ----------

  /** What a finished run promises about the disk and its report, however it
      ended: `k` targets committed and `m` files removed. */
  ghost predicate Facts(job: Job, before: Files, run: Run)
    requires |job.plan.encodes| == |job.temps|
  {
    var k, m := |run.report.committed|, |run.report.removed|;
    && k <= |job.plan.encodes| && m <= |job.plan.removes|
    && run.report.committed == Targets(job.plan.encodes)[..k]
    && run.report.removed == job.plan.removes[..m]
    && (m > 0 ==> k == |job.plan.encodes|)
    && run.report.remaining == Targets(job.plan.encodes)[k..] + job.plan.removes[m..]
    && Agrees(ZoneOf(job.plan), run.w.files, Shape(before, job.plan, job.temps, k, m), LooseEnds(job, k))
    && Carries(Ignored(job, k, m), before, run.w.files, run.report.recovery)
    && (forall i :: 0 <= i < |job.temps| && job.temps[i] != [] && job.temps[i] in run.w.files ==> job.temps[i] in run.report.recovery)
    && (run.report.status == Succeeded ==> Completed(job, before, run))
    && (k > 0 ==> forall i :: 0 <= i < |job.temps| ==> job.temps[i] in before && before[job.temps[i]].Encoded? && before[job.temps[i]].spec.codec == job.plan.encodes[i].spec.codec)
  }

  /** A successful run did everything: the disk is the reference exactly, and in
      a soft run every replaced and every removed file has its own recovery. */
  ghost predicate Completed(job: Job, before: Files, run: Run)
    requires |job.plan.encodes| == |job.temps|
  {
    var n, m := |job.plan.encodes|, |job.plan.removes|;
    && run.report.committed == Targets(job.plan.encodes) && run.report.removed == job.plan.removes && run.report.stage == None
    && Agrees(ZoneOf(job.plan), run.w.files, Shape(before, job.plan, job.temps, n, m), {})
    && ZoneKept(ZoneOf(job.plan), before, run.w.files, run.report.recovery)
    && (if job.plan.soft then Parked(ZoneOf(job.plan), before, run.w.files, Victims(job.plan, n, m), run.report.recovery)
        else run.report.recovery == [])
  }

  ghost predicate AllProbed(job: Job, files: Files)
    requires |job.plan.encodes| == |job.temps|
  {
    forall i :: 0 <= i < |job.temps| ==> job.temps[i] in files && files[job.temps[i]].Encoded? && files[job.temps[i]].spec.codec == job.plan.encodes[i].spec.codec
  }

  lemma SweptCarries(job: Job, a: Files, b: Files, left: seq<Path>)
    requires forall q :: q in a && (q == [] || q !in job.temps) ==> q in b
    requires forall q :: q in b ==> q in a && b[q] == a[q]
    ensures Carries(TempSet(job.temps), a, b, left)
  {
    forall q: Path | IsFile(a, q) && q !in TempSet(job.temps) ensures SameAt(a, b, q) {}
  }

  lemma SweptAgrees(job: Job, zone: Option<Path>, a: Files, b: Files, c: Files, k: nat)
    requires forall q :: q in a && (q == [] || q !in job.temps) ==> q in b
    requires forall q :: q in b ==> q in a && b[q] == a[q]
    requires Agrees(zone, a, c, LooseEnds(job, k))
    ensures Agrees(zone, b, c, LooseEnds(job, k))
  {
    forall q: Path | q !in LooseEnds(job, k) && q in a ensures q in b {
    }
  }

  lemma StopCarries(job: Job, before: Files, p: Progress, k: nat, m: nat)
    requires k <= |job.plan.encodes| == |job.temps| && m <= |job.plan.removes|
    requires Carries(Ignored(job, k, m), before, p.w.files, p.recovery)
    requires forall r :: r in p.recovery ==> r !in TempSet(job.temps)
    ensures var swept := CleanupFrom(job.env, p.w, job.temps, 0);
      Carries(Ignored(job, k, m), before, swept.w.files, p.recovery + swept.left)
  {
    var swept := CleanupFrom(job.env, p.w, job.temps, 0);
    CleanupEffect(job.env, p.w, job.temps, 0);
    hide CleanupFrom;
    assert job.temps[0..] == job.temps;
    SweptCarries(job, p.w.files, swept.w.files, swept.left);
    CarriesThrough(Ignored(job, k, m), before, p.w.files, p.recovery, TempSet(job.temps), swept.w.files, swept.left);
    assert Ignored(job, k, m) + TempSet(job.temps) == Ignored(job, k, m);
  }

  lemma StopFacts(job: Job, before: Files, p: Progress, k: nat, m: nat, status: RunStatus, stage: Stage)
    requires k <= |job.plan.encodes| == |job.temps| && m <= |job.plan.removes|
    requires Loose(job, before, p, k, m) && status != Succeeded && (k > 0 ==> AllProbed(job, before))
    ensures Facts(job, before, Stop(job, p, status, stage))
  {
    var swept := CleanupFrom(job.env, p.w, job.temps, 0);
    CleanupEffect(job.env, p.w, job.temps, 0);
    StopCarries(job, before, p, k, m);
    hide CleanupFrom;
    assert job.temps[0..] == job.temps;
    assert |p.committed| == k && |p.removed| == m;
    SweptAgrees(job, ZoneOf(job.plan), p.w.files, swept.w.files, Shape(before, job.plan, job.temps, k, m), k);
    hide Carries, Completed, Shape, Agrees, ZoneOf;
  }

  lemma {:induction false} RemoveFacts(job: Job, before: Files, p: Progress, j: nat)
    requires |job.plan.encodes| == |job.temps| && j <= |job.plan.removes|
    requires Ready(job, before) && Staged(job.temps, before) && AllProbed(job, before)
    requires Sound(job, before, p, |job.plan.encodes|, j)
    ensures Facts(job, before, RemoveFrom(job, p, j))
    decreases |job.plan.removes| - j
  {
    hide Ready, Staged, Sound, Facts, AllProbed, Loose, Stop, RemoveObsolete;
    var n := |job.plan.encodes|;
    if j == |job.plan.removes| {
      DoneFacts(job, before, p);
    } else if job.env.canceled(p.w.clock) {
      TickedSound(job, before, p, n, j);
      SoundIsLoose(job, before, Ticked(p), n, j);
      StopFacts(job, before, Ticked(p), n, j, Canceled, RemoveStage);
    } else {
      var source := job.plan.removes[j];
      var c := RemoveObsolete(job.env, Tick(p.w), job.plan, source);
      if c.ok {
        if job.plan.soft { SoftRemovalOk(job, before, p, j); } else { HardRemovalOk(job, before, p, j); }
        RemoveFacts(job, before, AfterRemoval(p, source, c), j + 1);
      } else {
        var q := Progress(c.w, p.committed, p.removed, p.recovery);
        RemovalStopped(job, before, p, j);
        SoundIsLoose(job, before, q, n, j);
        StopFacts(job, before, q, n, j, Failed, RemoveStage);
      }
    }
  }

  lemma TickedSound(job: Job, before: Files, p: Progress, k: nat, m: nat)
    requires k <= |job.plan.encodes| == |job.temps| && m <= |job.plan.removes| && Sound(job, before, p, k, m)
    ensures Sound(job, before, Ticked(p), k, m)
  {
  }

  lemma DoneFacts(job: Job, before: Files, p: Progress)
    requires |job.plan.encodes| == |job.temps|
    requires Ready(job, before) && Staged(job.temps, before) && AllProbed(job, before)
    requires Sound(job, before, p, |job.plan.encodes|, |job.plan.removes|)
    ensures Facts(job, before, RemoveFrom(job, p, |job.plan.removes|))
  {
    var run := Run(p.w, Report(Succeeded, None, p.committed, p.removed, [], p.recovery));
    assert RemoveFrom(job, p, |job.plan.removes|) == run;
    hide RemoveFrom;
    SoundIsLoose(job, before, p, |job.plan.encodes|, |job.plan.removes|);
    TempsGone(job, before, p);
    SoundCompletes(job, before, p, run);
    hide Carries, Agrees, Shape, Ready, Staged, Victims, LooseEnds, Ignored, ZoneOf, Sound, Completed;
  }

  lemma SoundCompletes(job: Job, before: Files, p: Progress, run: Run)
    requires |job.plan.encodes| == |job.temps| && Sound(job, before, p, |job.plan.encodes|, |job.plan.removes|)
    requires run == Run(p.w, Report(Succeeded, None, p.committed, p.removed, [], p.recovery))
    ensures Completed(job, before, run)
  {
  }

  /** After every landing no staged path is left. */
  lemma TempsGone(job: Job, before: Files, p: Progress)
    requires |job.plan.encodes| == |job.temps|
    requires Ready(job, before) && Staged(job.temps, before)
    requires Sound(job, before, p, |job.plan.encodes|, |job.plan.removes|)
    ensures forall i :: 0 <= i < |job.temps| ==> job.temps[i] !in p.w.files
  {
    forall i | 0 <= i < |job.temps| ensures job.temps[i] !in p.w.files {
      assert TempApart(job.plan, job.temps[i]);
      LandedAt(before, job.plan, job.temps, |job.plan.encodes|, i);
    }
  }

  lemma {:induction false} CommitFacts(job: Job, before: Files, p: Progress, i: nat)
    requires i <= |job.plan.encodes| == |job.temps|
    requires Ready(job, before) && Staged(job.temps, before) && AllProbed(job, before)
    requires Sound(job, before, p, i, 0)
    ensures Facts(job, before, CommitFrom(job, p, i))
    decreases |job.plan.encodes| - i
  {
    hide Ready, Staged, Sound, Facts, AllProbed, Loose, Stop, CommitOutput, Poised, OutputEffect, RemoveFrom;
    if i == |job.plan.encodes| {
      RemoveFacts(job, before, p, 0);
    } else if job.env.canceled(p.w.clock) {
      TickedSound(job, before, p, i, 0);
      SoundIsLoose(job, before, Ticked(p), i, 0);
      StopFacts(job, before, Ticked(p), i, 0, Canceled, CommitStage);
    } else {
      var l := CommitOutput(job, Tick(p.w), i);
      TickedSound(job, before, p, i, 0);
      SoundIsPoised(job, before, Ticked(p), i);
      AnyOutput(job, Tick(p.w), i);
      if l.ok {
        CommitStepOk(job, before, Ticked(p), i, l);
        LandsWhenOk(job, before, Tick(p.w), i, l);
        CommitFacts(job, before, AfterOutput(job, p, i, l), i + 1);
      } else {
        CommitStepStopped(job, before, Ticked(p), i, l);
        StopFacts(job, before, AfterOutput(job, p, i, l), if l.landed then i + 1 else i, 0, Failed, CommitStage);
      }
    }
  }

  lemma LandsWhenOk(job: Job, before: Files, w: World, i: nat, l: Landing)
    requires i < |job.plan.encodes| == |job.temps| && OutputEffect(job, w.files, i, l) && l.ok
    ensures l.landed
  {
  }

  /** While validating, nothing on the disk has changed. */
  lemma StartLoose(job: Job, before: Files, p: Progress)
    requires |job.plan.encodes| == |job.temps| && p.w.files == before && p.committed == [] && p.removed == [] && p.recovery == []
    ensures Loose(job, before, p, 0, 0)
    ensures job.plan.removes[..0] == [] && Sound(job, before, p, 0, 0)
  {
  }

  ghost predicate ProbedUpTo(job: Job, files: Files, i: nat)
    requires i <= |job.plan.encodes| == |job.temps|
  {
    forall x :: 0 <= x < i ==> job.temps[x] in files && files[job.temps[x]].Encoded? && files[job.temps[x]].spec.codec == job.plan.encodes[x].spec.codec
  }

  lemma {:induction false} ValidateFacts(job: Job, before: Files, p: Progress, i: nat)
    requires i <= |job.plan.encodes| == |job.temps|
    requires Ready(job, before) && (forall x :: 0 <= x < |job.temps| ==> job.temps[x] != []) && ProbedUpTo(job, before, i)
    requires p.w.files == before && p.committed == [] && p.removed == [] && p.recovery == []
    ensures Facts(job, before, ValidateFrom(job, p, i))
    decreases |job.plan.encodes| - i
  {
    hide Ready, Sound, Facts, Loose, Stop, CommitFrom;
    StartLoose(job, before, p);
    if i == |job.plan.encodes| {
      CommitFacts(job, before, p, 0);
    } else if job.env.canceled(p.w.clock) {
      StartLoose(job, before, Ticked(p));
      StopFacts(job, before, Ticked(p), 0, 0, Canceled, ValidateStage);
    } else if Probed(job.env, Tick(p.w), job.temps[i], job.plan.encodes[i].spec) {
      ValidateFacts(job, before, Ticked(Ticked(p)), i + 1);
    } else {
      var q := Ticked(Ticked(p));
      StartLoose(job, before, Ticked(q));
      StopFacts(job, before, Ticked(q), 0, 0, if job.env.canceled(q.w.clock) then Canceled else Failed, ValidateStage);
    }
  }

  /** Every way a commit can end: what it reports is what the disk holds. */
  lemma CommitTellsTheTruth(job: Job, w: World)
    requires |job.plan.encodes| == |job.temps| && Ready(job, w.files)
    requires forall x :: 0 <= x < |job.temps| ==> job.temps[x] != []
    ensures Facts(job, w.files, CommitAll(job, w))
  {
    ValidateFacts(job, w.files, Progress(w, [], [], []), 0);
  }
}
