/** Why a run ends the way it does: it is canceled only when the context was seen
    canceled, and moments only pass. */
module ExecutorStatus {
  import opened Prelude
  import opened Disk
  import opened Executor

  // ---------- moments pass ----------

  lemma {:induction false} FreeNameTime(env: Env, w: World, dir: Path, base: string, attempt: nat)
    ensures w.clock <= FreeName(env, w, dir, base, attempt).w.clock
    decreases MAX_RECOVERY_NAMES + 1 - attempt
  {
    if attempt <= MAX_RECOVERY_NAMES {
      FreeNameTime(env, Inspect(env, w, dir + [RecoveryName(base, attempt)]).w, dir, base, attempt + 1);
    }
  }

  lemma {:induction false} RenameRetryTime(env: Env, w: World, from: Path, to: Path, attempt: nat)
    ensures w.clock < RenameRetry(env, w, from, to, attempt).w.clock
    decreases MAX_RENAMES - attempt
  {
    var call := Rename(env, w, from, to);
    if call.err == Busy && attempt < MAX_RENAMES {
      RenameRetryTime(env, call.w, from, to, attempt + 1);
    }
  }

  lemma SoftRemoveTime(env: Env, w: World, root: Path, source: Path)
    ensures w.clock <= SoftRemove(env, w, root, source).w.clock
  {
    if root < source {
      var dir := RecoveryDir(root, source);
      var made := MkdirAll(env, w, dir);
      var name := FreeName(env, made.w, dir, Base(source), 0);
      FreeNameTime(env, made.w, dir, Base(source), 0);
      if name.dest.Some? { RenameRetryTime(env, name.w, source, name.dest.value, 1); }
    }
  }

  lemma OutputTime(job: Job, w: World, i: nat)
    requires i < |job.plan.encodes| == |job.temps|
    ensures w.clock <= CommitOutput(job, w, i).w.clock
  {
    hide SoftRemove;
    SoftRemoveTime(job.env, w, job.plan.root, job.plan.encodes[i].target);
  }

  lemma ObsoleteTime(env: Env, w: World, plan: Plan, source: Path)
    ensures w.clock <= RemoveObsolete(env, w, plan, source).w.clock
  {
    hide SoftRemove;
    SoftRemoveTime(env, w, plan.root, source);
  }

  lemma {:induction false} CleanupTime(env: Env, w: World, temps: seq<Path>, i: nat)
    requires i <= |temps|
    ensures w.clock <= CleanupFrom(env, w, temps, i).w.clock
    decreases |temps| - i
  {
    if i < |temps| {
      CleanupTime(env, if temps[i] == [] then w else Remove(env, w, temps[i]).w, temps, i + 1);
    }
  }

  lemma StopTime(job: Job, p: Progress, status: RunStatus, stage: Stage)
    ensures p.w.clock <= Stop(job, p, status, stage).w.clock
  {
    CleanupTime(job.env, p.w, job.temps, 0);
  }

  // ---------- a cancellation has a cause ----------

  /** The context was canceled at a moment of this stretch of the run. */
  ghost predicate SeenCanceled(env: Env, from: nat, to: nat) {
    exists t: nat :: from <= t < to && env.canceled(t)
  }

  lemma {:induction false} RemoveCause(job: Job, p: Progress, j: nat)
    requires j <= |job.plan.removes|
    ensures var run := RemoveFrom(job, p, j);
      p.w.clock <= run.w.clock && (run.report.status == Canceled ==> SeenCanceled(job.env, p.w.clock, run.w.clock))
    decreases |job.plan.removes| - j
  {
    hide Stop, RemoveObsolete;
    if j < |job.plan.removes| {
      var c := RemoveObsolete(job.env, Tick(p.w), job.plan, job.plan.removes[j]);
      ObsoleteTime(job.env, Tick(p.w), job.plan, job.plan.removes[j]);
      if job.env.canceled(p.w.clock) {
        StopTime(job, Ticked(p), Canceled, RemoveStage);
      } else if !c.ok {
        var q := Progress(c.w, p.committed, p.removed, p.recovery);
        StopTime(job, q, Failed, RemoveStage);
        StopStatus(job, q, Failed, RemoveStage);
      } else {
        RemoveCause(job, Progress(c.w, p.committed, p.removed + [job.plan.removes[j]], p.recovery + c.recovery), j + 1);
      }
    }
  }

  lemma StopStatus(job: Job, p: Progress, status: RunStatus, stage: Stage)
    ensures var run := Stop(job, p, status, stage);
      run.report.status == status && run.report.stage == Some(stage)
  {
  }

  lemma {:induction false} CommitCause(job: Job, p: Progress, i: nat)
    requires i <= |job.plan.encodes| == |job.temps|
    ensures var run := CommitFrom(job, p, i);
      p.w.clock <= run.w.clock && (run.report.status == Canceled ==> SeenCanceled(job.env, p.w.clock, run.w.clock))
    decreases |job.plan.encodes| - i
  {
    hide Stop, CommitOutput, RemoveFrom;
    if i == |job.plan.encodes| {
      RemoveCause(job, p, 0);
    } else {
      var l := CommitOutput(job, Tick(p.w), i);
      var q := Progress(l.w, if l.landed then p.committed + [job.plan.encodes[i].target] else p.committed, p.removed, p.recovery + l.recovery);
      OutputTime(job, Tick(p.w), i);
      if job.env.canceled(p.w.clock) {
        StopTime(job, Ticked(p), Canceled, CommitStage);
      } else if !l.ok {
        StopTime(job, q, Failed, CommitStage);
        StopStatus(job, q, Failed, CommitStage);
      } else {
        CommitCause(job, q, i + 1);
      }
    }
  }

  lemma {:induction false} ValidateCause(job: Job, p: Progress, i: nat)
    requires i <= |job.plan.encodes| == |job.temps|
    ensures var run := ValidateFrom(job, p, i);
      p.w.clock <= run.w.clock && (run.report.status == Canceled ==> SeenCanceled(job.env, p.w.clock, run.w.clock))
    decreases |job.plan.encodes| - i
  {
    hide Stop, CommitFrom, Probed;
    if i == |job.plan.encodes| {
      CommitCause(job, p, 0);
    } else {
      var q := Ticked(Ticked(p));
      StopTime(job, Ticked(p), Canceled, ValidateStage);
      StopTime(job, Ticked(q), Canceled, ValidateStage);
      StopTime(job, Ticked(q), Failed, ValidateStage);
      StopStatus(job, Ticked(q), Failed, ValidateStage);
      ValidateCause(job, q, i + 1);
    }
  }

  /** A commit is canceled only when the context was canceled at a moment the run
      lasted. */
  lemma CommitCanceledIsSeen(job: Job, w: World)
    requires |job.plan.encodes| == |job.temps| && CommitAll(job, w).report.status == Canceled
    ensures SeenCanceled(job.env, w.clock, CommitAll(job, w).w.clock)
  {
    ValidateCause(job, Progress(w, [], [], []), 0);
  }

  /** An encode that ended because of a cancellation. */
  predicate EncodeCanceled(env: Env, i: nat) {
    env.encodes(i) in {NotStarted, Nothing(true), Torn(true)}
  }

  predicate EncodeBroken(env: Env, i: nat) {
    env.encodes(i) in {Nothing(false), Torn(false)}
  }

  lemma {:induction false} EncodeCause(env: Env, plan: Plan, shop: Shop, clock: nat, i: nat)
    requires ShopFits(plan, shop) && i <= |plan.encodes|
    ensures var run := EncodeFrom(env, plan, shop, clock, i);
      && clock <= run.w.clock
      && (run.report.status == Canceled ==>
            SeenCanceled(env, clock, run.w.clock) || exists k: nat :: k < |plan.encodes| && EncodeCanceled(env, k))
    decreases |plan.encodes| - i
  {
    hide CommitAll, EncodeOne, CauseOf;
    if i == |plan.encodes| {
      CommitCauseAll(env, plan, shop, clock);
    } else {
      var next := EncodeOne(env, plan, shop, i);
      if next.tasks[i] == Finished(true) {
        EncodeCause(env, plan, next, clock, i + 1);
      } else {
        CleanupTime(env, World(next.files, clock), next.temps, 0);
        if CauseOf(env, i) == Canceled { CanceledIsUnclean(env, i); }
      }
    }
  }

  lemma CommitCauseAll(env: Env, plan: Plan, shop: Shop, clock: nat)
    requires ShopFits(plan, shop)
    ensures var run := CommitAll(Job(env, plan, shop.temps), World(shop.files, clock));
      clock <= run.w.clock && (run.report.status == Canceled ==> SeenCanceled(env, clock, run.w.clock))
  {
    ValidateCause(Job(env, plan, shop.temps), Progress(World(shop.files, clock), [], [], []), 0);
  }

  lemma CanceledIsUnclean(env: Env, i: nat)
    requires CauseOf(env, i) == Canceled
    ensures EncodeCanceled(env, i)
  {
  }

  /** A serial run is canceled only when the context was canceled at a moment it
      lasted, or an encode of it was canceled. */
  lemma RunCanceledIsSeen(env: Env, plan: Plan, w: World)
    requires RunComponent(env, plan, w).report.status == Canceled
    ensures SeenCanceled(env, w.clock, RunComponent(env, plan, w).w.clock) || exists k: nat :: k < |plan.encodes| && EncodeCanceled(env, k)
  {
    EncodeCause(env, plan, OpenShop(plan, w.files), w.clock, 0);
  }

  /** While validating, output `i` is looked at in two moments: first the context,
      then the staged file; a failed look is followed by another at the context. */
  predicate ProbeFails(job: Job, w: World, i: nat)
    requires i < |job.plan.encodes| == |job.temps|
  {
    !Probed(job.env, World(w.files, w.clock + 2 * i + 1), job.temps[i], job.plan.encodes[i].spec)
  }

  /** A commit that stopped while validating failed only when a staged output did
      not pass and the context was not canceled right after; it was canceled only
      when the context was seen canceled before or right after such a look. */
  ghost predicate ValidationVerdict(job: Job, w: World, from: nat, run: Run)
    requires |job.plan.encodes| == |job.temps|
  {
    run.report.stage == Some(ValidateStage) ==> exists i: nat :: from <= i < |job.temps| && VerdictAt(job, w, run.report.status, i)
  }

  predicate VerdictAt(job: Job, w: World, status: RunStatus, i: nat)
    requires i < |job.plan.encodes| == |job.temps|
  {
    if status == Failed then ProbeFails(job, w, i) && !job.env.canceled(w.clock + 2 * i + 2)
    else job.env.canceled(w.clock + 2 * i) || (ProbeFails(job, w, i) && job.env.canceled(w.clock + 2 * i + 2))
  }

  lemma {:induction false} ValidationEnds(job: Job, w: World, p: Progress, i: nat)
    requires i <= |job.plan.encodes| == |job.temps| && p == Progress(World(w.files, w.clock + 2 * i), [], [], [])
    ensures ValidationVerdict(job, w, i, ValidateFrom(job, p, i))
    decreases |job.plan.encodes| - i
  {
    hide Stop, CommitFrom, Probed;
    if i == |job.plan.encodes| {
      assert Targets(job.plan.encodes)[..0] == [];
      CommitStages(job, p, 0);
    } else {
      var q := Ticked(Ticked(p));
      StopReport(job, Ticked(p), Canceled, ValidateStage);
      StopReport(job, Ticked(q), Canceled, ValidateStage);
      StopReport(job, Ticked(q), Failed, ValidateStage);
      ValidationEnds(job, w, q, i + 1);
      var run := ValidateFrom(job, p, i);
      assert Tick(p.w) == World(w.files, w.clock + 2 * i + 1);
      if job.env.canceled(p.w.clock) || ProbeFails(job, w, i) { assert VerdictAt(job, w, run.report.status, i); }
    }
  }

  lemma ValidationTellsWhy(job: Job, w: World)
    requires |job.plan.encodes| == |job.temps|
    ensures ValidationVerdict(job, w, 0, CommitAll(job, w))
  {
    ValidationEnds(job, w, Progress(w, [], [], []), 0);
  }

  // ---------- how far a stopped run got ----------

  /** The stage of a report says how far the run had come. */
  predicate StageFits(plan: Plan, report: Report) {
    match report.stage
    case None => report.status == Succeeded && report.committed == Targets(plan.encodes) && report.removed == plan.removes
    case Some(MaterializeStage) => report.status != Succeeded && report.committed == [] && report.removed == []
    case Some(ValidateStage) => report.status != Succeeded && report.committed == [] && report.removed == []
    case Some(CommitStage) => report.status != Succeeded && report.removed == []
    case Some(RemoveStage) => report.status != Succeeded && report.committed == Targets(plan.encodes) && |report.removed| < |plan.removes|
  }

  lemma StopReport(job: Job, p: Progress, status: RunStatus, stage: Stage)
    ensures var r := Stop(job, p, status, stage).report;
      r.status == status && r.stage == Some(stage) && r.committed == p.committed && r.removed == p.removed
  {
  }

  lemma {:induction false} RemoveStages(job: Job, p: Progress, j: nat)
    requires j <= |job.plan.removes| && p.committed == Targets(job.plan.encodes) && p.removed == job.plan.removes[..j]
    ensures var r := RemoveFrom(job, p, j).report; StageFits(job.plan, r) && (r.stage == None || r.stage == Some(RemoveStage))
    decreases |job.plan.removes| - j
  {
    hide Stop, RemoveObsolete;
    if j == |job.plan.removes| {
      assert job.plan.removes[..j] == job.plan.removes;
    } else {
      var c := RemoveObsolete(job.env, Tick(p.w), job.plan, job.plan.removes[j]);
      StopReport(job, Ticked(p), Canceled, RemoveStage);
      StopReport(job, Progress(c.w, p.committed, p.removed, p.recovery), Failed, RemoveStage);
      assert job.plan.removes[..j + 1] == job.plan.removes[..j] + [job.plan.removes[j]];
      RemoveStages(job, Progress(c.w, p.committed, p.removed + [job.plan.removes[j]], p.recovery + c.recovery), j + 1);
    }
  }

  lemma LandsWhole(job: Job, w: World, i: nat)
    requires i < |job.plan.encodes| == |job.temps| && CommitOutput(job, w, i).ok
    ensures CommitOutput(job, w, i).landed
  {
    hide SoftRemove;
  }

  lemma {:induction false} CommitStages(job: Job, p: Progress, i: nat)
    requires i <= |job.plan.encodes| == |job.temps| && p.committed == Targets(job.plan.encodes)[..i] && p.removed == []
    ensures var r := CommitFrom(job, p, i).report;
      StageFits(job.plan, r) && r.stage != Some(MaterializeStage) && r.stage != Some(ValidateStage)
    decreases |job.plan.encodes| - i
  {
    hide Stop, CommitOutput, RemoveFrom;
    var targets := Targets(job.plan.encodes);
    if i == |job.plan.encodes| {
      assert targets[..i] == targets && job.plan.removes[..0] == [];
      RemoveStages(job, p, 0);
    } else {
      var l := CommitOutput(job, Tick(p.w), i);
      var q := Progress(l.w, if l.landed then p.committed + [job.plan.encodes[i].target] else p.committed, p.removed, p.recovery + l.recovery);
      StopReport(job, Ticked(p), Canceled, CommitStage);
      StopReport(job, q, Failed, CommitStage);
      if l.ok {
        LandsWhole(job, Tick(p.w), i);
        assert targets[..i + 1] == targets[..i] + [targets[i]];
        CommitStages(job, q, i + 1);
      }
    }
  }

  lemma {:induction false} ValidateStages(job: Job, p: Progress, i: nat)
    requires i <= |job.plan.encodes| == |job.temps| && p.committed == [] && p.removed == []
    ensures var r := ValidateFrom(job, p, i).report; StageFits(job.plan, r) && r.stage != Some(MaterializeStage)
    decreases |job.plan.encodes| - i
  {
    hide Stop, CommitFrom, Probed;
    if i == |job.plan.encodes| {
      assert Targets(job.plan.encodes)[..0] == [];
      CommitStages(job, p, 0);
    } else {
      var q := Ticked(Ticked(p));
      StopReport(job, Ticked(p), Canceled, ValidateStage);
      StopReport(job, Ticked(q), Canceled, ValidateStage);
      StopReport(job, Ticked(q), Failed, ValidateStage);
      ValidateStages(job, q, i + 1);
    }
  }

  /** The report of a commit names the stage it stopped in: before any target
      landed, before anything was removed, or with every target committed. */
  lemma CommitStageFits(job: Job, w: World)
    requires |job.plan.encodes| == |job.temps|
    ensures var r := CommitAll(job, w).report; StageFits(job.plan, r) && r.stage != Some(MaterializeStage)
  {
    ValidateStages(job, Progress(w, [], [], []), 0);
  }

  // ---------- locked files ----------

  /** A rename that fails for any other reason than a lock is not tried again ... */
  lemma OnlyLocksAreRetried(env: Env, w: World, from: Path, to: Path)
    requires Rename(env, w, from, to).err != Busy
    ensures RenameRetry(env, w, from, to, 1) == Rename(env, w, from, to)
  {
  }

  /** ... and a lock that is gone within the attempts is overcome. */
  lemma {:induction false} LocksAreWaitedOut(env: Env, w: World, from: Path, to: Path, attempt: nat, until: nat)
    requires IsFile(w.files, from) && !IsFolder(w.files, to)
    requires w.clock <= until <= w.clock + MAX_RENAMES - attempt
    requires (forall t: nat :: w.clock <= t < until ==> env.weather(t) == Busy) && env.weather(until) == Fine
    ensures RenameRetry(env, w, from, to, attempt) == Call(World(Renamed(w.files, from, to), until + 1), Fine)
    decreases until - w.clock
  {
    if w.clock < until {
      LocksAreWaitedOut(env, Rename(env, w, from, to).w, from, to, attempt + 1, until);
    }
  }

  /** A lock that stays for all the attempts is given up on and reported. */
  lemma {:induction false} LocksGiveUp(env: Env, w: World, from: Path, to: Path, attempt: nat)
    requires attempt <= MAX_RENAMES && forall t: nat :: w.clock <= t <= w.clock + MAX_RENAMES - attempt ==> env.weather(t) == Busy
    ensures RenameRetry(env, w, from, to, attempt) == Call(World(w.files, w.clock + MAX_RENAMES - attempt + 1), Busy)
    decreases MAX_RENAMES - attempt
  {
    if attempt < MAX_RENAMES {
      LocksGiveUp(env, Rename(env, w, from, to).w, from, to, attempt + 1);
    }
  }
}
