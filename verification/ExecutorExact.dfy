/** What a run does at each place where it may stop, and the names it uses. */
module ExecutorExact {
  import opened Prelude
  import opened Text
  import opened Audio
  import opened Disk
  import opened Executor
  import opened ExecutorProof
  import opened ExecutorStatus

  // ---------- names ----------

  /** A staged output and a set-aside one stand beside their target; what is removed
      goes to the same place below the recovery directory, under its own name or
      with a number before its extension. */
  lemma NamesAre(env: Env, dir: Path, name: string, i: nat, root: Path, rel: Path, stem: string, ext: string, n: nat)
    requires IsExt(ext)
    ensures TempPath(env, dir + [name], i) == dir + [name + ".tmp." + env.temp(i)]
    ensures AsidePath(env, dir + [name], i) == dir + [name + ".tmp-old." + env.aside(i)]
    ensures root < root + rel + [name] && RecoveryDir(root, root + rel + [name]) == root + ["Delete"] + rel
    ensures RecoveryName(stem + ext, n) == if n == 0 then stem + ext else stem + "." + Decimal(n) + ext
    ensures '.' !in name ==> RecoveryName(name, n) == if n == 0 then name else name + "." + Decimal(n)
  {
    var p, q := dir + [name], root + rel + [name];
    assert Dir(p) == dir && Base(p) == name;
    assert name + ".tmp." + env.temp(i) == name + (".tmp." + env.temp(i));
    assert name + ".tmp-old." + env.aside(i) == name + (".tmp-old." + env.aside(i));
    assert q[|root|..|q| - 1] == rel;
    ExtOfJoin(stem, ext);
    if '.' !in name { assert TrimExt(name) == name && Ext(name) == ""; }
  }

  /** While no call fails, the first free name is taken, the own name and a hundred
      numbered ones being tried; when all are taken there is none. */
  lemma {:induction false} NameSearch(env: Env, w: World, dir: Path, base: string, from: nat, n: nat)
    requires from <= 101 && forall t: nat :: w.clock <= t <= w.clock + 100 - from ==> env.weather(t) == Fine
    requires from <= n <= 101 && forall k: nat :: from <= k < n ==> dir + [RecoveryName(base, k)] in w.files
    requires n <= 100 ==> dir + [RecoveryName(base, n)] !in w.files
    ensures FreeName(env, w, dir, base, from).dest == if n <= 100 then Some(dir + [RecoveryName(base, n)]) else None
    decreases n - from
  {
    hide RecoveryName;
    if from < n {
      NameSearch(env, Inspect(env, w, dir + [RecoveryName(base, from)]).w, dir, base, from + 1, n);
    }
  }

  /** A file that stays locked is tried three times. */
  lemma ThreeAttempts(env: Env, w: World, from: Path, to: Path)
    requires env.weather(w.clock) == Busy && env.weather(w.clock + 1) == Busy
    ensures RenameRetry(env, w, from, to, 1) == Rename(env, World(w.files, w.clock + 2), from, to)
  {
    var w1 := Rename(env, w, from, to).w;
    assert RenameRetry(env, w, from, to, 1) == RenameRetry(env, w1, from, to, 2);
    assert RenameRetry(env, w1, from, to, 2) == RenameRetry(env, Rename(env, w1, from, to).w, from, to, 3);
  }

  // ---------- cleaning up ----------

  /** How many staged paths are assigned before this one. */
  function Assigned(temps: seq<Path>, j: nat): nat
    requires j <= |temps|
  {
    if j == 0 then 0 else Assigned(temps, j - 1) + if temps[j - 1] == [] then 0 else 1
  }

  predicate Alone(temps: seq<Path>, j: nat)
    requires j < |temps|
  {
    temps[j] != [] && forall k :: 0 <= k < |temps| && k != j ==> temps[k] != temps[j]
  }

  /** Every staged path is tried, in its own moment whatever happened to the others:
      it goes, or it is reported exactly when its own removal fails. */
  lemma {:induction false} CleanupTriesAll(env: Env, w: World, temps: seq<Path>, i: nat, j: nat)
    requires i <= j < |temps| && Alone(temps, j) && !IsFolder(w.files, temps[j])
    ensures Assigned(temps, i) <= Assigned(temps, j)
    ensures var swept := CleanupFrom(env, w, temps, i); var fails := env.weather(w.clock + Assigned(temps, j) - Assigned(temps, i)) != Fine;
      && (temps[j] in swept.left <==> fails)
      && (temps[j] in swept.w.files <==> temps[j] in w.files && fails)
    decreases |temps| - i
  {
    if i < j {
      if temps[i] == [] {
        CleanupTriesAll(env, w, temps, i + 1, j);
      } else {
        CleanupTriesAll(env, Remove(env, w, temps[i]).w, temps, i + 1, j);
      }
    } else {
      CleanupKeepsOut(env, Remove(env, w, temps[i]).w, temps, i + 1, temps[j]);
    }
  }

  lemma {:induction false} CleanupKeepsOut(env: Env, w: World, temps: seq<Path>, i: nat, p: Path)
    requires i <= |temps| && p !in temps[i..]
    ensures var swept := CleanupFrom(env, w, temps, i);
      p !in swept.left && (p in swept.w.files <==> p in w.files)
    decreases |temps| - i
  {
    if i < |temps| {
      assert temps[i..] == [temps[i]] + temps[i + 1..];
      CleanupKeepsOut(env, if temps[i] == [] then w else Remove(env, w, temps[i]).w, temps, i + 1, p);
    }
  }

  // ---------- staging ----------

  /** A run that stops while staging stops at the first encode that does not end
      clean, and says whether that one was canceled or failed. */
  ghost predicate StagingVerdict(env: Env, plan: Plan, status: RunStatus, k: nat) {
    && k < |plan.encodes| && (forall j: nat :: j < k ==> env.encodes(j) == Clean)
    && (status == Canceled <==> EncodeCanceled(env, k))
    && (status == Failed <==> EncodeBroken(env, k) || env.encodes(k) == Clean)
  }

  lemma {:induction false} EncodesEnd(env: Env, plan: Plan, shop: Shop, clock: nat, i: nat)
    requires ShopFits(plan, shop) && i <= |plan.encodes| && forall j: nat :: j < i ==> env.encodes(j) == Clean
    ensures var r := EncodeFrom(env, plan, shop, clock, i).report;
      r.stage == Some(MaterializeStage) ==> exists k: nat :: i <= k && StagingVerdict(env, plan, r.status, k)
    ensures (exists k: nat :: i <= k < |plan.encodes| && env.encodes(k) != Clean) ==>
      EncodeFrom(env, plan, shop, clock, i).report.stage == Some(MaterializeStage)
    decreases |plan.encodes| - i
  {
    hide CommitAll;
    if i == |plan.encodes| {
      CommitStageFits(Job(env, plan, shop.temps), World(shop.files, clock));
    } else {
      var next := EncodeOne(env, plan, shop, i);
      if next.tasks[i] == Finished(true) {
        EncodesEnd(env, plan, next, clock, i + 1);
      } else {
        assert StagingVerdict(env, plan, EncodeFrom(env, plan, shop, clock, i).report.status, i);
      }
    }
  }

  /** In particular nothing is committed unless every encode ended clean. */
  lemma StagingTellsWhy(env: Env, plan: Plan, w: World)
    ensures var r := RunComponent(env, plan, w).report;
      && (r.stage == Some(MaterializeStage) ==> exists k: nat :: StagingVerdict(env, plan, r.status, k))
      && ((exists k: nat :: k < |plan.encodes| && env.encodes(k) != Clean) ==> r.stage == Some(MaterializeStage) && r.committed == [] && r.removed == [])
  {
    hide EncodeFrom;
    EncodesEnd(env, plan, OpenShop(plan, w.files), w.clock, 0);
    StagingCommitsNothing(env, plan, OpenShop(plan, w.files), w.clock, 0);
  }

  lemma {:induction false} StagingCommitsNothing(env: Env, plan: Plan, shop: Shop, clock: nat, i: nat)
    requires ShopFits(plan, shop) && i <= |plan.encodes|
    ensures var r := EncodeFrom(env, plan, shop, clock, i).report;
      r.stage == Some(MaterializeStage) ==> r.committed == [] && r.removed == []
    decreases |plan.encodes| - i
  {
    hide CommitAll, CauseOf;
    if i == |plan.encodes| {
      CommitStageFits(Job(env, plan, shop.temps), World(shop.files, clock));
    } else {
      StagingCommitsNothing(env, plan, EncodeOne(env, plan, shop, i), clock, i + 1);
    }
  }

  // ---------- cancellation ----------

  /** Once the context is canceled, the commit stops before the next output or
      removal, with what was done so far, and says so. */
  lemma CancelStopsAtOnce(job: Job, p: Progress, i: nat, j: nat)
    requires |job.plan.encodes| == |job.temps| && job.env.canceled(p.w.clock) && i < |job.plan.encodes| && j <= |job.plan.removes|
    ensures StoppedCanceled(p, ValidateFrom(job, p, i).report, ValidateStage) && StoppedCanceled(p, CommitFrom(job, p, i).report, CommitStage)
    ensures j < |job.plan.removes| ==> StoppedCanceled(p, RemoveFrom(job, p, j).report, RemoveStage)
  {
    StopReport(job, Ticked(p), Canceled, ValidateStage);
    StopReport(job, Ticked(p), Canceled, CommitStage);
    StopReport(job, Ticked(p), Canceled, RemoveStage);
  }

  predicate StoppedCanceled(p: Progress, r: Report, stage: Stage) {
    r.status == Canceled && r.stage == Some(stage) && r.committed == p.committed && r.removed == p.removed
  }

  // ---------- validation ----------

  /** What stands at the staged path is finished audio of the declared codec. */
  predicate Playable(files: map<Path, Content>, temp: Path, codec: Codec) {
    temp in files && files[temp].Encoded? && files[temp].spec.codec == codec
  }

  /** One staged output that is missing, unfinished or of another codec keeps
      everything from being committed. */
  lemma {:induction false} UnfitOutputStops(job: Job, p: Progress, i: nat, k: nat)
    requires i <= k < |job.plan.encodes| == |job.temps| && !Playable(p.w.files, job.temps[k], job.plan.encodes[k].spec.codec)
    ensures var r := ValidateFrom(job, p, i).report;
      r.status != Succeeded && r.stage == Some(ValidateStage) && r.committed == p.committed && r.removed == p.removed
    decreases k - i
  {
    hide Stop, CommitFrom;
    var q := Ticked(Ticked(p));
    StopReport(job, Ticked(p), Canceled, ValidateStage);
    StopReport(job, Ticked(q), Canceled, ValidateStage);
    StopReport(job, Ticked(q), Failed, ValidateStage);
    if i < k {
      UnfitOutputStops(job, q, i + 1, k);
    }
  }

  /** And when all of them are finished, only a failing look or a cancellation does. */
  lemma {:induction false} FitOutputsPass(job: Job, p: Progress, i: nat)
    requires i <= |job.plan.encodes| == |job.temps|
    requires forall k :: i <= k < |job.temps| ==> Playable(p.w.files, job.temps[k], job.plan.encodes[k].spec.codec)
    requires forall t: nat :: p.w.clock <= t < p.w.clock + 2 * (|job.temps| - i) ==> job.env.weather(t) == Fine && !job.env.canceled(t)
    ensures ValidateFrom(job, p, i) == CommitFrom(job, Progress(World(p.w.files, p.w.clock + 2 * (|job.temps| - i)), p.committed, p.removed, p.recovery), 0)
    decreases |job.temps| - i
  {
    hide Stop, CommitFrom;
    if i < |job.temps| {
      FitOutputsPass(job, Ticked(Ticked(p)), i + 1);
    }
  }

  // ---------- one fault is undone ----------

  /** From a moment on at most one call fails. */
  ghost predicate AtMostOneFault(env: Env, from: nat) {
    forall s: nat, t: nat :: from <= s && from <= t && env.weather(s) != Fine && env.weather(t) != Fine ==> s == t
  }

  /** A replacement that meets a single fault is taken back, unless the new output
      has landed: the old file is at its place and nothing is left elsewhere. */
  lemma HardFaultIsUndone(env: Env, w: World, temp: Path, target: Path, aside: Path)
    requires AtMostOneFault(env, w.clock) && IsFile(w.files, temp) && IsFile(w.files, target)
    requires aside !in w.files && temp != target
    ensures var l := CommitHard(env, w, temp, target, aside);
      if l.landed then l.w.files == Renamed(w.files, temp, target) + (if l.ok then map[] else map[aside := w.files[target]])
      else l.recovery == [] && l.w.files == w.files
  {
  }

  lemma {:induction false} NamesUntouched(env: Env, w: World, dir: Path, base: string, attempt: nat)
    ensures FreeName(env, w, dir, base, attempt).w.files == w.files
    ensures w.clock <= FreeName(env, w, dir, base, attempt).w.clock
    decreases MAX_RECOVERY_NAMES + 1 - attempt
  {
    if attempt <= MAX_RECOVERY_NAMES {
      NamesUntouched(env, Inspect(env, w, dir + [RecoveryName(base, attempt)]).w, dir, base, attempt + 1);
    }
  }

  lemma SoftFaultIsUndone(env: Env, w: World, root: Path, temp: Path, target: Path)
    requires AtMostOneFault(env, w.clock) && IsFile(w.files, temp) && IsFile(w.files, target)
    requires RootThere(root, w.files) && !(RecoveryZone(root) <= target) && !(RecoveryZone(root) <= temp) && temp != target
    ensures var l := CommitSoft(env, w, root, temp, target);
      if l.landed then l.ok && |l.recovery| == 1
      else l.recovery == [] && Agrees(Some(RecoveryZone(root)), l.w.files, w.files, {})
  {
    hide SoftRemove;
    SoftRemoveEffect(env, w, root, target);
    SoftRemoveTime(env, w, root, target);
    CommitSoftEffect(env, w, root, temp, target);
    var parked := SoftRemove(env, w, root, target);
    if parked.dest.Some? {
      var put := Rename(env, parked.w, temp, target);
      assert IsFile(parked.w.files, temp);
      if put.err != Fine {
        assert env.weather(parked.w.clock) != Fine;
        assert env.weather(put.w.clock) == Fine;
        var back := Rename(env, put.w, parked.dest.value, target);
        assert back.err == Fine;
      }
    }
  }
}
