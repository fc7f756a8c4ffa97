/** A prepared component as the object a session drives: its methods work on
    the disk call by call, and each is proved equal to its specification. */
module Prepared {
  import opened Prelude
  import opened Disk
  import opened Executor

  class PreparedComponent {
    const disk: Filesystem
    const plan: Plan
    const temps: array<Path>

    predicate Valid() {
      temps.Length == |plan.encodes|
    }

    ghost function TheJob(): Job
      reads temps
    {
      Job(disk.env, plan, temps[..])
    }

    constructor (disk: Filesystem, plan: Plan)
      ensures Valid() && fresh(temps) && this.disk == disk && this.plan == plan
      ensures temps[..] == OpenShop(plan, disk.files).temps
    {
      this.disk, this.plan := disk, plan;
      this.temps := new Path[|plan.encodes|](_ => []);
    }

    // ---------- staging ----------

    /** Runs one encode to its end; `shop` is the staging area around it. */
    method EncodeOne(i: nat, ghost shop: Shop) returns (ok: bool, cause: RunStatus)
      requires Valid() && i < |plan.encodes| && ShopFits(plan, shop) && shop.tasks[i].Idle?
      requires shop.files == disk.files && shop.temps == temps[..]
      modifies disk`files, temps
      ensures var next := Executor.EncodeOne(disk.env, plan, shop, i);
        && disk.files == next.files && temps[..] == next.temps && next.tasks[i] == Finished(ok)
      ensures !ok ==> cause == CauseOf(disk.env, i)
      ensures forall j :: 0 <= j < temps.Length && j != i ==> temps[j] == old(temps[j])
    {
      var e := plan.encodes[i];
      var fate := disk.env.encodes(i);
      if fate == NotStarted {
        return false, Canceled;
      }
      temps[i] := TempPath(disk.env, e.target, i);
      if !fate.Nothing? {
        disk.files := disk.files[temps[i] := Partial];
      }
      if fate == Clean && e.source in disk.files && !disk.files[e.source].Folder? {
        disk.files := disk.files[temps[i] := Encoded(disk.files[e.source], e.spec)];
        return true, Succeeded;
      }
      if (fate.Nothing? || fate.Torn?) && fate.canceled {
        return false, Canceled;
      }
      return false, Failed;
    }

    // ---------- soft removal ----------

    /** The first free numbered name in `dir`. */
    method UniqueRecoveryPath(dir: Path, base: string) returns (dest: Option<Path>)
      modifies disk
      ensures Parking(disk.View(), dest) == FreeName(disk.env, old(disk.View()), dir, base, 0)
    {
      var attempt := 0;
      while attempt <= MAX_RECOVERY_NAMES
        invariant 0 <= attempt <= MAX_RECOVERY_NAMES + 1
        invariant FreeName(disk.env, disk.View(), dir, base, attempt) == FreeName(disk.env, old(disk.View()), dir, base, 0)
      {
        var candidate := dir + [RecoveryName(base, attempt)];
        var err := disk.Look(candidate);
        if err == Missing {
          return Some(candidate);
        }
        if err != Fine {
          return None;
        }
        attempt := attempt + 1;
      }
      return None;
    }

    method RenameWithLockRetry(from: Path, to: Path) returns (err: Fault)
      modifies disk
      ensures Call(disk.View(), err) == RenameRetry(disk.env, old(disk.View()), from, to, 1)
    {
      var attempt := 1;
      while true
        invariant 1 <= attempt <= MAX_RENAMES
        invariant RenameRetry(disk.env, disk.View(), from, to, attempt) == RenameRetry(disk.env, old(disk.View()), from, to, 1)
        decreases MAX_RENAMES - attempt
      {
        err := disk.Move(from, to);
        if err == Busy && attempt < MAX_RENAMES {
          attempt := attempt + 1;
        } else {
          return;
        }
      }
    }

    method Park(source: Path) returns (dest: Option<Path>)
      modifies disk
      ensures Parking(disk.View(), dest) == SoftRemove(disk.env, old(disk.View()), plan.root, source)
    {
      if !(plan.root < source) {
        return None;
      }
      var dir := RecoveryDir(plan.root, source);
      var made := disk.MakeDirs(dir);
      if made != Fine {
        return None;
      }
      dest := UniqueRecoveryPath(dir, Base(source));
      if dest.None? {
        return;
      }
      var moved := RenameWithLockRetry(source, dest.value);
      if moved != Fine {
        dest := None;
      }
    }

    // ---------- committing ----------

    method CommitOutput(i: nat) returns (recovery: seq<Path>, landed: bool, ok: bool)
      requires Valid() && i < |plan.encodes|
      modifies disk
      ensures Landing(disk.View(), recovery, landed, ok) == Executor.CommitOutput(TheJob(), old(disk.View()), i)
      ensures ok ==> landed
    {
      var e := plan.encodes[i];
      if !e.replace {
        var put := disk.Move(temps[i], e.target);
        return [], put == Fine, put == Fine;
      }
      if plan.soft {
        var dest := Park(e.target);
        if dest.None? {
          return [], false, false;
        }
        var put := disk.Move(temps[i], e.target);
        if put != Fine {
          var back := disk.Move(dest.value, e.target);
          return if back == Fine then [] else [dest.value], false, false;
        }
        return [dest.value], true, true;
      }
      var aside := AsidePath(disk.env, e.target, i);
      var saved := disk.Move(e.target, aside);
      if saved != Fine {
        return [], false, false;
      }
      var put := disk.Move(temps[i], e.target);
      if put != Fine {
        var back := disk.Move(aside, e.target);
        return if back == Fine then [] else [aside], false, false;
      }
      var gone := disk.Delete(aside);
      return if gone == Fine then [] else [aside], true, gone == Fine;
    }

    method RemoveObsolete(source: Path) returns (recovery: seq<Path>, ok: bool)
      modifies disk
      ensures Clearing(disk.View(), recovery, ok) == Executor.RemoveObsolete(disk.env, old(disk.View()), plan, source)
    {
      if plan.soft {
        var dest := Park(source);
        return if dest.Some? then [dest.value] else [], dest.Some?;
      }
      var gone := disk.Delete(source);
      return [], gone == Fine;
    }

    // ---------- stopping ----------

    method CleanupTemps() returns (left: seq<Path>)
      requires Valid()
      modifies disk
      ensures Sweep(disk.View(), left) == CleanupFrom(disk.env, old(disk.View()), temps[..], 0)
    {
      hide Remove, RemoveFault;
      left := [];
      var i := 0;
      while i < temps.Length
        invariant 0 <= i <= temps.Length
        invariant var whole := CleanupFrom(disk.env, old(disk.View()), temps[..], 0);
          var rest := CleanupFrom(disk.env, disk.View(), temps[..], i);
          whole.w == rest.w && whole.left == left + rest.left
      {
        if temps[i] != [] {
          var gone := disk.Delete(temps[i]);
          if gone != Fine && gone != Missing {
            left := left + [temps[i]];
          }
        }
        i := i + 1;
      }
    }

    method RemainingOps(committed: nat, removed: nat) returns (remaining: seq<Path>)
      requires committed <= |plan.encodes| && removed <= |plan.removes|
      ensures remaining == Remaining(plan, committed, removed)
    {
      remaining := [];
      for k := committed to |plan.encodes|
        invariant remaining == Targets(plan.encodes)[committed..k]
      {
        remaining := remaining + [plan.encodes[k].target];
      }
      ghost var targets := remaining;
      for k := removed to |plan.removes|
        invariant remaining == targets + plan.removes[removed..k]
      {
        remaining := remaining + [plan.removes[k]];
      }
    }

    method StopRun(status: RunStatus, stage: Stage, committed: seq<Path>, removed: seq<Path>, recovery: seq<Path>) returns (report: Report)
      requires Valid() && |committed| <= |plan.encodes| && |removed| <= |plan.removes|
      modifies disk
      ensures Run(disk.View(), report) == Stop(TheJob(), Progress(old(disk.View()), committed, removed, recovery), status, stage)
    {
      var remaining := RemainingOps(|committed|, |removed|);
      var left := CleanupTemps();
      report := Report(status, Some(stage), committed, removed, remaining, recovery + left);
    }

    method Discard(cause: RunStatus) returns (report: Report)
      requires Valid()
      modifies disk
      ensures Run(disk.View(), report) == Executor.Discard(TheJob(), old(disk.View()), cause)
    {
      var remaining := RemainingOps(0, 0);
      var left := CleanupTemps();
      report := Report(cause, Some(MaterializeStage), [], [], remaining, left);
    }

    // ---------- the commit stage ----------

    method ValidateStagedOutput(i: nat) returns (ok: bool)
      requires Valid() && i < |plan.encodes|
      modifies disk
      ensures ok == Probed(disk.env, old(disk.View()), temps[i], plan.encodes[i].spec)
      ensures disk.View() == Tick(old(disk.View()))
    {
      var err := disk.Look(temps[i]);
      ok := err == Fine && disk.files[temps[i]].Encoded? && disk.files[temps[i]].spec.codec == plan.encodes[i].spec.codec;
    }

    method ValidateAll() returns (stopped: Option<Report>)
      requires Valid()
      modifies disk
      ensures match stopped
        case Some(report) => Run(disk.View(), report) == CommitAll(TheJob(), old(disk.View()))
        case None => CommitFrom(TheJob(), Progress(disk.View(), [], [], []), 0) == CommitAll(TheJob(), old(disk.View()))
    {
      var i := 0;
      while i < |plan.encodes|
        invariant 0 <= i <= |plan.encodes|
        invariant ValidateFrom(TheJob(), Progress(disk.View(), [], [], []), i) == CommitAll(TheJob(), old(disk.View()))
      {
        var canceled := disk.Canceled();
        if canceled {
          var report := StopRun(Canceled, ValidateStage, [], [], []);
          return Some(report);
        }
        var ok := ValidateStagedOutput(i);
        if !ok {
          canceled := disk.Canceled();
          var report := StopRun(if canceled then Canceled else Failed, ValidateStage, [], [], []);
          return Some(report);
        }
        i := i + 1;
      }
      return None;
    }

    method CommitOutputs() returns (stopped: Option<Report>, recovery: seq<Path>)
      requires Valid()
      modifies disk
      ensures match stopped
        case Some(report) => Run(disk.View(), report) == CommitFrom(TheJob(), Progress(old(disk.View()), [], [], []), 0)
        case None =>
          RemoveFrom(TheJob(), Progress(disk.View(), Targets(plan.encodes), [], recovery), 0)
          == CommitFrom(TheJob(), Progress(old(disk.View()), [], [], []), 0)
    {
      hide Executor.CommitOutput, Stop, RemoveFrom;
      recovery := [];
      var committed := [];
      var i := 0;
      while i < |plan.encodes|
        invariant 0 <= i <= |plan.encodes|
        invariant committed == Targets(plan.encodes)[..i]
        invariant CommitFrom(TheJob(), Progress(disk.View(), committed, [], recovery), i)
               == CommitFrom(TheJob(), Progress(old(disk.View()), [], [], []), 0)
      {
        var canceled := disk.Canceled();
        if canceled {
          var report := StopRun(Canceled, CommitStage, committed, [], recovery);
          return Some(report), recovery;
        }
        var more, landed, ok := CommitOutput(i);
        recovery := recovery + more;
        if landed {
          committed := committed + [plan.encodes[i].target];
        }
        if !ok {
          var report := StopRun(Failed, CommitStage, committed, [], recovery);
          return Some(report), recovery;
        }
        i := i + 1;
      }
      assert committed == Targets(plan.encodes);
      return None, recovery;
    }

    method RemoveAll(kept: seq<Path>) returns (report: Report)
      requires Valid()
      modifies disk
      ensures Run(disk.View(), report) == RemoveFrom(TheJob(), Progress(old(disk.View()), Targets(plan.encodes), [], kept), 0)
    {
      var recovery := kept;
      var committed, removed := Targets(plan.encodes), [];
      var j := 0;
      while j < |plan.removes|
        invariant 0 <= j <= |plan.removes| && |removed| == j
        invariant RemoveFrom(TheJob(), Progress(disk.View(), committed, removed, recovery), j)
               == RemoveFrom(TheJob(), Progress(old(disk.View()), committed, [], kept), 0)
      {
        var canceled := disk.Canceled();
        if canceled {
          report := StopRun(Canceled, RemoveStage, committed, removed, recovery);
          return;
        }
        var more, ok := RemoveObsolete(plan.removes[j]);
        if !ok {
          report := StopRun(Failed, RemoveStage, committed, removed, recovery);
          return;
        }
        removed := removed + [plan.removes[j]];
        recovery := recovery + more;
        j := j + 1;
      }
      report := Report(Succeeded, None, committed, removed, [], recovery);
    }

    /** Validates every staged output, commits them in frozen order and removes
        the obsolete files, stopping between operations. */
    method Commit() returns (report: Report)
      requires Valid()
      modifies disk
      ensures Run(disk.View(), report) == CommitAll(TheJob(), old(disk.View()))
    {
      var invalid := ValidateAll();
      if invalid.Some? {
        return invalid.value;
      }
      var stopped, recovery := CommitOutputs();
      if stopped.Some? {
        return stopped.value;
      }
      report := RemoveAll(recovery);
    }

    /** The serial run. */
    method RunAll() returns (report: Report)
      requires Valid() && temps[..] == OpenShop(plan, disk.files).temps
      modifies disk, temps
      ensures Run(disk.View(), report) == RunComponent(disk.env, plan, old(disk.View()))
    {
      ghost var shop := OpenShop(plan, disk.files);
      var i := 0;
      while i < |plan.encodes|
        invariant 0 <= i <= |plan.encodes|
        invariant ShopFits(plan, shop) && shop.files == disk.files && shop.temps == temps[..]
        invariant forall j :: i <= j < |plan.encodes| ==> shop.tasks[j].Idle?
        invariant disk.clock == old(disk.clock)
        invariant EncodeFrom(disk.env, plan, shop, disk.clock, i) == RunComponent(disk.env, plan, old(disk.View()))
      {
        ghost var next := Executor.EncodeOne(disk.env, plan, shop, i);
        OtherTasksWait(disk.env, plan, shop, i);
        var ok, cause := EncodeOne(i, shop);
        if !ok {
          report := Discard(cause);
          return;
        }
        shop := next;
        i := i + 1;
      }
      report := Commit();
    }
  }

  lemma OtherTasksWait(env: Env, plan: Plan, shop: Shop, i: nat)
    requires ShopFits(plan, shop) && i < |plan.encodes|
    ensures forall j :: 0 <= j < |plan.encodes| && j != i ==> Executor.EncodeOne(env, plan, shop, i).tasks[j] == shop.tasks[j]
  {
  }
}
