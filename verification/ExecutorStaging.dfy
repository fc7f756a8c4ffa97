/** Encodes may run in any order and overlap; every schedule stages the same
    outputs, and the whole run is one update of the disk it started from. */
module ExecutorStaging {
  import opened Prelude
  import opened Disk
  import opened Executor
  import opened ExecutorProof
  import opened ExecutorRuns

  // ---------- fresh names ----------

  lemma BesideInjective(p: Path, q: Path, a: string, b: string)
    requires p != [] && q != [] && |a| == |b| && Beside(p, a) == Beside(q, b)
    ensures p == q
  {
    var x, y := Base(p) + a, Base(q) + b;
    assert Beside(p, a)[|p| - 1] == x && Beside(q, b)[|q| - 1] == y;
    assert Base(p) == x[..|x| - |a|] == y[..|y| - |b|] == Base(q);
    assert Dir(p) == Beside(p, a)[..|p| - 1] == Beside(q, b)[..|q| - 1] == Dir(q);
    assert p == Dir(p) + [Base(p)] && q == Dir(q) + [Base(q)];
  }

  lemma TempIsNotAside(env: Env, p: Path, i: nat, q: Path, j: nat)
    requires p != [] && q != []
    ensures TempPath(env, p, i) != AsidePath(env, q, j)
  {
    var x, y := Base(p) + (".tmp." + env.temp(i)), Base(q) + (".tmp-old." + env.aside(j));
    assert TempPath(env, p, i)[|p| - 1] == x && AsidePath(env, q, j)[|q| - 1] == y;
    assert x[|x| - 10] == 'p' && y[|y| - 10] == 'd';
  }

  lemma BesideLeavesZone(root: Path, p: Path, suffix: string)
    requires p != [] && !(RecoveryZone(root) <= p) && |suffix| > |RECOVERY_DIR|
    ensures !(RecoveryZone(root) <= Beside(p, suffix))
  {
  }

  // ---------- what a run may assume of the disk it starts on ----------

  /** What the gate established about the plan and the disk. */
  ghost predicate Admitted(plan: Plan, files: Files) {
    && Separate(plan) && TargetsKnown(plan, files) && ZoneClear(plan, files)
    && (forall j :: 0 <= j < |plan.removes| ==> IsFile(files, plan.removes[j]))
    && (forall i :: 0 <= i < |plan.encodes| ==> plan.encodes[i].target != [] && IsFile(files, plan.encodes[i].source))
  }

  /** The run's own names are not in use. */
  ghost predicate NamesFree(env: Env, plan: Plan, files: Files) {
    forall i :: 0 <= i < |plan.encodes| ==>
      NameFree(plan, files, TempPath(env, plan.encodes[i].target, i)) && NameFree(plan, files, AsidePath(env, plan.encodes[i].target, i))
  }

  ghost predicate NameFree(plan: Plan, files: Files, p: Path) {
    p !in files && forall j :: 0 <= j < |plan.encodes| ==> plan.encodes[j].target != p
  }

  function TempOf(env: Env, plan: Plan, i: nat): Path
    requires i < |plan.encodes|
  {
    TempPath(env, plan.encodes[i].target, i)
  }

  lemma TempsDistinct(env: Env, plan: Plan, i: nat, j: nat)
    requires Separate(plan) && i < |plan.encodes| && j < |plan.encodes| && i != j
    requires forall x :: 0 <= x < |plan.encodes| ==> plan.encodes[x].target != []
    ensures TempOf(env, plan, i) != TempOf(env, plan, j)
  {
    if TempOf(env, plan, i) == TempOf(env, plan, j) {
      BesideInjective(plan.encodes[i].target, plan.encodes[j].target, ".tmp." + env.temp(i), ".tmp." + env.temp(j));
      assert false;
    }
  }

  // ---------- schedules ----------

  datatype Move = Start(i: nat) | Finish(i: nat)

  predicate CanMove(plan: Plan, shop: Shop, m: Move) {
    ShopFits(plan, shop) && m.i < |plan.encodes|
    && if m.Start? then shop.tasks[m.i].Idle? else shop.tasks[m.i].Working?
  }

  function Moved(env: Env, plan: Plan, shop: Shop, m: Move): (next: Shop)
    requires CanMove(plan, shop, m)
    ensures ShopFits(plan, next)
  {
    if m.Start? then Begin(env, plan, shop, m.i) else End(env, plan, shop, m.i)
  }

  /** `moves` is one interleaving of encodes leading from `shop` to `end`. */
  ghost predicate Schedule(env: Env, plan: Plan, shop: Shop, moves: seq<Move>, end: Shop)
    decreases moves
  {
    if moves == [] then shop == end
    else CanMove(plan, shop, moves[0]) && Schedule(env, plan, Moved(env, plan, shop, moves[0]), moves[1..], end)
  }

  predicate AllFinished(shop: Shop) {
    forall i :: 0 <= i < |shop.tasks| ==> shop.tasks[i].Finished?
  }

  predicate Succeeds(env: Env, plan: Plan, files: Files, i: nat)
    requires i < |plan.encodes|
  {
    env.encodes(i) == Clean && IsFile(files, plan.encodes[i].source)
  }

  /** What the staged path of task `i` holds, given only how far that encode is. */
  function TempContent(env: Env, plan: Plan, files: Files, task: Task, i: nat): Option<Content>
    requires i < |plan.encodes|
  {
    if task.Idle? || env.encodes(i) == NotStarted || env.encodes(i).Nothing? then None
    else if task == Finished(true) && Succeeds(env, plan, files, i) then
      Some(Encoded(files[plan.encodes[i].source], plan.encodes[i].spec))
    else Some(Partial)
  }

  ghost predicate SlotExplained(env: Env, plan: Plan, files: Files, shop: Shop, i: nat)
    requires i < |plan.encodes| && ShopFits(plan, shop)
  {
    var temp := TempOf(env, plan, i);
    && shop.temps[i] == (if shop.tasks[i].Idle? || env.encodes(i) == NotStarted then [] else temp)
    && (shop.tasks[i].Working? ==> env.encodes(i) != NotStarted)
    && (shop.tasks[i].Finished? ==> shop.tasks[i].ok == Succeeds(env, plan, files, i))
    && (match TempContent(env, plan, files, shop.tasks[i], i)
        case None => temp !in shop.files
        case Some(c) => temp in shop.files && shop.files[temp] == c)
  }

  predicate IsTemp(env: Env, plan: Plan, p: Path) {
    exists i: nat :: i < |plan.encodes| && TempOf(env, plan, i) == p
  }

  ghost predicate Explained(env: Env, plan: Plan, files: Files, shop: Shop) {
    && ShopFits(plan, shop)
    && (forall i: nat :: i < |plan.encodes| ==> SlotExplained(env, plan, files, shop, i))
    && RestExplained(env, plan, files, shop.files)
  }

  ghost predicate RestExplained(env: Env, plan: Plan, files: Files, now: Files) {
    forall p: Path :: !IsTemp(env, plan, p) ==> (p in now <==> p in files) && (p in files ==> now[p] == files[p])
  }

  lemma OpenExplained(env: Env, plan: Plan, files: Files)
    requires NamesFree(env, plan, files)
    ensures Explained(env, plan, files, OpenShop(plan, files))
  {
  }

  lemma OwnSlot(env: Env, plan: Plan, files: Files, shop: Shop, m: Move)
    requires Explained(env, plan, files, shop) && CanMove(plan, shop, m)
    requires IsFile(files, plan.encodes[m.i].source) && SameAt(files, shop.files, plan.encodes[m.i].source)
    ensures SlotExplained(env, plan, files, Moved(env, plan, shop, m), m.i)
  {
    assert SlotExplained(env, plan, files, shop, m.i);
    hide Admitted, IsTemp;
  }

  /** A move touches its own slot and its own staged path. */
  lemma OnlyOwnPath(env: Env, plan: Plan, shop: Shop, m: Move, p: Path)
    requires CanMove(plan, shop, m) && p != TempOf(env, plan, m.i)
    requires m.Finish? ==> shop.temps[m.i] == TempOf(env, plan, m.i)
    ensures var next := Moved(env, plan, shop, m);
      && (p in next.files <==> p in shop.files) && (p in shop.files ==> next.files[p] == shop.files[p])
      && (forall i :: 0 <= i < |plan.encodes| && i != m.i ==> next.temps[i] == shop.temps[i] && next.tasks[i] == shop.tasks[i])
  {
  }

  lemma OtherSlot(env: Env, plan: Plan, files: Files, shop: Shop, m: Move, i: nat)
    requires Admitted(plan, files) && Explained(env, plan, files, shop) && CanMove(plan, shop, m)
    requires i < |plan.encodes| && i != m.i
    ensures SlotExplained(env, plan, files, Moved(env, plan, shop, m), i)
  {
    assert SlotExplained(env, plan, files, shop, m.i) && SlotExplained(env, plan, files, shop, i);
    TempsDistinct(env, plan, i, m.i);
    OnlyOwnPath(env, plan, shop, m, TempOf(env, plan, i));
    hide Moved, Admitted, TempPath;
  }

  lemma MoveKeepsRest(env: Env, plan: Plan, files: Files, shop: Shop, m: Move)
    requires Explained(env, plan, files, shop) && CanMove(plan, shop, m)
    ensures RestExplained(env, plan, files, Moved(env, plan, shop, m).files)
  {
    var next := Moved(env, plan, shop, m);
    assert SlotExplained(env, plan, files, shop, m.i);
    assert m.Finish? ==> shop.temps[m.i] == TempOf(env, plan, m.i);
    hide Moved, TempPath, SlotExplained, TempContent;
    forall p: Path | !IsTemp(env, plan, p)
      ensures (p in next.files <==> p in files) && (p in files ==> next.files[p] == files[p])
    {
      assert TempOf(env, plan, m.i) != p;
      OnlyOwnPath(env, plan, shop, m, p);
    }
  }

  lemma MoveExplained(env: Env, plan: Plan, files: Files, shop: Shop, m: Move)
    requires Admitted(plan, files) && NamesFree(env, plan, files)
    requires Explained(env, plan, files, shop) && CanMove(plan, shop, m)
    ensures Explained(env, plan, files, Moved(env, plan, shop, m))
  {
    SourceStays(env, plan, files, shop, m.i);
    assert IsFile(files, plan.encodes[m.i].source);
    OwnSlot(env, plan, files, shop, m);
    MoveKeepsRest(env, plan, files, shop, m);
    hide Moved, TempPath, NamesFree, SlotExplained, RestExplained, SameAt;
    forall i: nat | i < |plan.encodes| && i != m.i ensures SlotExplained(env, plan, files, Moved(env, plan, shop, m), i) {
      OtherSlot(env, plan, files, shop, m, i);
    }
  }

  lemma SourceStays(env: Env, plan: Plan, files: Files, shop: Shop, i: nat)
    requires Admitted(plan, files) && NamesFree(env, plan, files) && Explained(env, plan, files, shop) && i < |plan.encodes|
    ensures SameAt(files, shop.files, plan.encodes[i].source)
  {
  }

  lemma {:induction false} ScheduleExplained(env: Env, plan: Plan, files: Files, shop: Shop, moves: seq<Move>, end: Shop)
    requires Admitted(plan, files) && NamesFree(env, plan, files)
    requires Explained(env, plan, files, shop) && Schedule(env, plan, shop, moves, end)
    ensures Explained(env, plan, files, end)
    decreases moves
  {
    hide Admitted, NamesFree, Explained, CanMove, Moved;
    if moves != [] {
      MoveExplained(env, plan, files, shop, moves[0]);
      ScheduleExplained(env, plan, files, Moved(env, plan, shop, moves[0]), moves[1..], end);
    }
  }

  lemma SameTasksSameShop(env: Env, plan: Plan, files: Files, a: Shop, b: Shop)
    requires Explained(env, plan, files, a) && Explained(env, plan, files, b) && a.tasks == b.tasks
    ensures a == b
  {
    forall i: nat | i < |plan.encodes| ensures a.temps[i] == b.temps[i] {
      assert SlotExplained(env, plan, files, a, i) && SlotExplained(env, plan, files, b, i);
    }
    forall p: Path ensures (p in a.files <==> p in b.files) && (p in a.files ==> a.files[p] == b.files[p]) {
      if IsTemp(env, plan, p) {
        var i: nat :| i < |plan.encodes| && TempOf(env, plan, i) == p;
        assert SlotExplained(env, plan, files, a, i) && SlotExplained(env, plan, files, b, i);
      }
    }
  }

  /** However the encodes interleave, once all have finished the staging area is
      the same: the same files, the same staged paths, the same outcomes. */
  lemma AnyScheduleStagesTheSame(env: Env, plan: Plan, files: Files, moves1: seq<Move>, end1: Shop, moves2: seq<Move>, end2: Shop)
    requires Admitted(plan, files) && NamesFree(env, plan, files)
    requires Schedule(env, plan, OpenShop(plan, files), moves1, end1) && AllFinished(end1)
    requires Schedule(env, plan, OpenShop(plan, files), moves2, end2) && AllFinished(end2)
    ensures end1 == end2
  {
    OpenExplained(env, plan, files);
    ScheduleExplained(env, plan, files, OpenShop(plan, files), moves1, end1);
    ScheduleExplained(env, plan, files, OpenShop(plan, files), moves2, end2);
    FinishedTasksEqual(env, plan, files, end1, end2);
    SameTasksSameShop(env, plan, files, end1, end2);
  }

  lemma FinishedTasksEqual(env: Env, plan: Plan, files: Files, a: Shop, b: Shop)
    requires Explained(env, plan, files, a) && Explained(env, plan, files, b) && AllFinished(a) && AllFinished(b)
    ensures a.tasks == b.tasks
  {
    forall i: nat | i < |plan.encodes| ensures a.tasks[i] == b.tasks[i] {
      assert SlotExplained(env, plan, files, a, i) && SlotExplained(env, plan, files, b, i);
    }
  }
}
