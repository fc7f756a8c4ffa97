/** The parallel walk never gets stuck and always ends, and without failures it
    emits what the recursive single-folder walk emits. */
module WalkLiveness {
  import opened Prelude
  import opened Disk
  import opened Walk

  // ---------- a bound on every run ----------

  /** Steps a directory's children still cost: one to emit each, and for each
      directory five to queue, send, take, finish and report it. */
  function Steps(children: seq<Tree>): nat
    decreases children, 0
  {
    if children == [] then 0 else 1 + StepsUnder(children[0]) + Steps(children[1..])
  }

  function StepsUnder(t: Tree): nat
    decreases t, 1
  {
    if t.dir then 5 + Steps(t.children) else 0
  }

  function ItemSteps(i: Item): nat { 5 + Steps(i.children) }

  function StepsAll(items: seq<Item>): nat {
    if items == [] then 0 else StepsAll(items[..|items| - 1]) + ItemSteps(items[|items| - 1])
  }

  function WorkerSteps(w: Worker): nat {
    match w
    case Idle => 1
    case Reading(item, at, subdirs) => 4 + (if at <= |item.children| then Steps(item.children[at..]) else 0) + StepsAll(subdirs)
    case Reporting(Subdirs(items)) => 3 + StepsAll(items)
    case Reporting(Error(_)) => 3
    case Gone => 0
  }

  function WorkersSteps(workers: seq<Worker>): nat {
    if workers == [] then 0 else WorkersSteps(workers[..|workers| - 1]) + WorkerSteps(workers[|workers| - 1])
  }

  function AnswerSteps(a: Answer): nat {
    1 + if a.Subdirs? then StepsAll(a.items) else 0
  }

  function AnswersSteps(answers: seq<Answer>): nat {
    if answers == [] then 0 else AnswersSteps(answers[..|answers| - 1]) + AnswerSteps(answers[|answers| - 1])
  }

  function Left(s: State): int {
    StepsAll(s.queued) + StepsAll(s.jobs) - |s.jobs| + WorkersSteps(s.workers) + AnswersSteps(s.results)
    + (match s.phase case Running => 2 case Closing(_) => 1 case Done(_) => 0)
    + if s.canceled then 0 else 1
  }

  lemma {:induction false} StepsAllJoin(a: seq<Item>, b: seq<Item>)
    ensures StepsAll(a + b) == StepsAll(a) + StepsAll(b)
  {
    if b == [] {
      assert a + b == a;
    } else {
      assert (a + b)[..|a + b| - 1] == a + b[..|b| - 1];
      StepsAllJoin(a, b[..|b| - 1]);
    }
  }

  lemma StepsAllHead(items: seq<Item>)
    requires items != []
    ensures StepsAll(items) == ItemSteps(items[0]) + StepsAll(items[1..])
  {
    assert items == [items[0]] + items[1..];
    StepsAllJoin([items[0]], items[1..]);
    assert [items[0]][..0] == [];
  }

  lemma StepsAllMore(items: seq<Item>, i: Item)
    ensures StepsAll(items + [i]) == StepsAll(items) + ItemSteps(i)
  {
    assert (items + [i])[..|items|] == items;
  }

  lemma {:induction false} StepsAllAtLeast(items: seq<Item>)
    ensures StepsAll(items) >= |items|
  {
    if items != [] {
      StepsAllAtLeast(items[..|items| - 1]);
    }
  }

  lemma {:induction false} AnswersHead(answers: seq<Answer>)
    requires answers != []
    ensures AnswersSteps(answers) == AnswerSteps(answers[0]) + AnswersSteps(answers[1..])
  {
    var n := |answers|;
    if n == 1 {
      assert answers[..0] == [] && answers[1..] == [];
    } else {
      AnswersHead(answers[..n - 1]);
      assert answers[..n - 1][1..] == answers[1..][..n - 2];
    }
  }

  lemma {:induction false} WorkersChange(workers: seq<Worker>, w: nat, v: Worker)
    requires w < |workers|
    ensures WorkersSteps(workers[w := v]) + WorkerSteps(workers[w]) == WorkersSteps(workers) + WorkerSteps(v)
  {
    hide WorkerSteps;
    var n := |workers|;
    if w == n - 1 {
      assert workers[w := v][..n - 1] == workers[..n - 1];
    } else {
      assert workers[w := v][..n - 1] == workers[..n - 1][w := v];
      WorkersChange(workers[..n - 1], w, v);
    }
  }

  lemma EmitSteps(i: Item, at: nat, subdirs: seq<Item>)
    requires at < |i.children|
    ensures var t := i.children[at];
      WorkerSteps(Reading(i, at + 1, if t.dir then subdirs + [ItemOf(i.path, t)] else subdirs)) < WorkerSteps(Reading(i, at, subdirs))
  {
    var t := i.children[at];
    assert i.children[at..][0] == t && i.children[at..][1..] == i.children[at + 1..];
    assert Steps(i.children[at..]) == 1 + StepsUnder(t) + Steps(i.children[at + 1..]);
    StepsAllMore(subdirs, ItemOf(i.path, t));
  }

  lemma WorkerShrinks(s: State, a: Action)
    requires Sane(s) && Enabled(s, a) && (a.Take? || a.Emit? || a.Fail? || a.EndOfDir? || a.Report? || a.Quit?)
    ensures Left(Next(s, a)) < Left(s)
  {
    hide StepsAll, Steps, WorkersSteps, AnswersSteps;
    WorkersChange(s.workers, a.w, Next(s, a).workers[a.w]);
    match a
    case Take(w) => StepsAllHead(s.jobs); assert s.jobs[0].children[0..] == s.jobs[0].children; NoItems();
    case Emit(w) => EmitSteps(s.workers[w].item, s.workers[w].at, s.workers[w].subdirs);
    case Report(w) => AnswersMore(s.results, s.workers[w].answer);
    case _ =>
  }

  lemma NoItems()
    ensures StepsAll([]) == 0
  {
  }

  lemma AnswersMore(answers: seq<Answer>, a: Answer)
    ensures AnswersSteps(answers + [a]) == AnswersSteps(answers) + AnswerSteps(a)
  {
    assert (answers + [a])[..|answers|] == answers;
  }

  /** Every step uses up at least one of the steps that were left. */
  lemma StepShrinks(s: State, a: Action)
    requires Sane(s) && Enabled(s, a)
    ensures Left(Next(s, a)) < Left(s)
  {
    hide StepsAll, Steps, WorkersSteps, AnswersSteps;
    match a
    case Send => StepsAllHead(s.queued); StepsAllMore(s.jobs, s.queued[0]);
    case Receive =>
      AnswersHead(s.results);
      if s.results[0].Subdirs? { StepsAllJoin(s.queued, s.results[0].items); }
    case SeeCancel =>
    case Finish =>
    case Cancel =>
    case _ => WorkerShrinks(s, a);
  }

  lemma LeftNonNegative(s: State)
    ensures Left(s) >= 0
  {
    StepsAllAtLeast(s.jobs);
    hide StepsAll, WorkersSteps, AnswersSteps;
  }

  /** No run is longer than the steps left when it started. */
  lemma {:induction false} RunIsBounded(s: State, root: Item, actions: seq<Action>, t: State)
    requires Inv(s, root) && Reaches(s, actions, t)
    ensures |actions| <= Left(s) - Left(t)
    decreases actions
  {
    hide Inv, Next, Enabled, Left;
    if actions != [] {
      assert Sane(s) by { InvIsSane(s, root); }
      StepShrinks(s, actions[0]);
      StepInv(s, root, actions[0]);
      RunIsBounded(Next(s, actions[0]), root, actions[1..], t);
    }
  }

  lemma InvIsSane(s: State, root: Item)
    requires Inv(s, root)
    ensures Sane(s)
  {
  }

  /** On every finite tree, with any number of workers, failures and
      cancellations, the walk takes a bounded number of steps. */
  lemma WalkEnds(root: Item, workers: nat, actions: seq<Action>, t: State)
    requires workers >= 1 && Reaches(Start(root, workers), actions, t)
    ensures |actions| <= Steps(root.children) + workers + 8
  {
    var s := Start(root, workers);
    StartInv(root, workers);
    RunIsBounded(s, root, actions, t);
    LeftNonNegative(t);
    IdleSteps(s.workers);
    assert [root][..0] == [];
  }

  lemma {:induction false} IdleSteps(workers: seq<Worker>)
    requires forall w :: 0 <= w < |workers| ==> workers[w].Idle?
    ensures WorkersSteps(workers) == |workers|
  {
    if workers != [] {
      IdleSteps(workers[..|workers| - 1]);
    }
  }

  // ---------- progress ----------

  lemma {:induction false} SomeBusy(workers: seq<Worker>) returns (w: nat)
    requires BusyCount(workers) > 0
    ensures w < |workers| && workers[w].Busy()
  {
    if workers[|workers| - 1].Busy() {
      w := |workers| - 1;
    } else {
      w := SomeBusy(workers[..|workers| - 1]);
    }
  }

  /** Until it is done the walk can take a step of its own: no interleaving of
      full channels, failures and cancellation leaves everyone waiting. */
  lemma NeverStuck(root: Item, workers: nat, actions: seq<Action>, s: State) returns (a: Action)
    requires workers >= 1 && Reaches(Start(root, workers), actions, s) && !s.phase.Done?
    ensures Enabled(s, a) && !a.Cancel?
  {
    StartInv(root, workers);
    RunInv(Start(root, workers), root, actions, s);
    a := Progress(s, root);
  }

  lemma Progress(s: State, root: Item) returns (a: Action)
    requires Inv(s, root) && !s.phase.Done?
    ensures Enabled(s, a) && !a.Cancel?
  {
    hide WorkAll, WorkOfAll, WorkIn;
    match s.phase
    case Closing(_) =>
      if AllGone(s.workers) { return Finish; }
      var w :| 0 <= w < |s.workers| && !s.workers[w].Gone?;
      a := ClosingMoves(s, root, w);
    case Running =>
      if s.canceled { return SeeCancel; }
      if s.results != [] { return Receive; }
      if BusyCount(s.workers) > 0 {
        var w := SomeBusy(s.workers);
        a := BusyMoves(s, w);
      } else if s.jobs != [] {
        assert !HasError(s.results);
        a := Take(0);
        NoneBusy(s.workers);
      } else {
        a := Send;
      }
  }

  lemma BusyMoves(s: State, w: nat) returns (a: Action)
    requires Sane(s) && w < |s.workers| && s.workers[w].Busy() && |s.results| < s.limit
    ensures Enabled(s, a) && !a.Cancel?
  {
    if s.workers[w].Reporting? {
      a := Report(w);
    } else if s.workers[w].at < |s.workers[w].item.children| {
      a := Emit(w);
    } else {
      a := EndOfDir(w);
    }
  }

  lemma ClosingMoves(s: State, root: Item, w: nat) returns (a: Action)
    requires Inv(s, root) && s.phase.Closing? && w < |s.workers| && !s.workers[w].Gone?
    ensures Enabled(s, a) && !a.Cancel?
  {
    hide WorkAll, WorkOfAll, WorkIn;
    if !s.canceled {
      NoneBusy(s.workers);
    }
    a := Quit(w);
  }

  // ---------- the recursive walk ----------

  /** What the single-folder walk emits, in its order. */
  function Preorder(at: Path, children: seq<Tree>): seq<Entry>
    decreases children, 0
  {
    if children == [] then []
    else [EntryOf(at, children[0])] + PreorderUnder(at, children[0]) + Preorder(at, children[1..])
  }

  function PreorderUnder(at: Path, t: Tree): seq<Entry>
    decreases t, 1
  {
    if t.dir then Preorder(at + [t.name], t.children) else []
  }

  lemma {:induction false} PreorderIsBelow(at: Path, children: seq<Tree>)
    ensures multiset(Preorder(at, children)) == Below(at, children)
    decreases children, 0
  {
    if children != [] {
      PreorderIsUnder(at, children[0]);
      PreorderIsBelow(at, children[1..]);
    }
  }

  lemma PreorderIsUnder(at: Path, t: Tree)
    ensures multiset(PreorderUnder(at, t)) == Under(at, t)
    decreases t, 1
  {
    if t.dir {
      PreorderIsBelow(at + [t.name], t.children);
    }
  }

  /** The single enumerator: before each directory and each entry it looks at the
      context, and there it may fail with a code. */
  class FolderWalk {
    const stops: nat -> bool
    const fails: nat -> Option<int>
    var clock: nat
    var emitted: seq<Entry>

    constructor (stops: nat -> bool, fails: nat -> Option<int>)
      ensures emitted == []
    {
      this.stops, this.fails := stops, fails;
      clock, emitted := 0, [];
    }

    /** Nothing stopped or failed since an earlier moment. */
    predicate CalmSince(from: nat)
      reads this
    {
      from <= clock && forall k: nat :: from <= k < clock ==> !stops(k) && fails(k).None?
    }

    /** What the current moment answers. */
    function Look(): Ending
      reads this
    {
      if stops(clock) then Canceled else if fails(clock).Some? then Failed(fails(clock).value) else Complete
    }

    /** Emits every descendant at once as it is found, and stops at the first moment
        that is canceled or fails, with what that moment answers. */
    method WalkFolder(at: Path, children: seq<Tree>) returns (end: Ending)
      modifies this
      ensures CalmSince(old(clock)) && |emitted| - old(|emitted|) <= clock - old(clock)
      ensures end == Complete ==> emitted == old(emitted) + Preorder(at, children)
      ensures end != Complete ==> old(emitted) <= emitted <= old(emitted) + Preorder(at, children)
      ensures end == Canceled ==> stops(clock)
      ensures end.Failed? ==> !stops(clock) && fails(clock) == Some(end.code)
      decreases children
    {
      hide Preorder, EntryOf;
      if Look() != Complete {
        return Look();
      }
      clock := clock + 1;
      assert children[0..] == children;
      for k := 0 to |children|
        invariant emitted + Preorder(at, children[k..]) == old(emitted) + Preorder(at, children)
        invariant old(emitted) <= emitted && CalmSince(old(clock)) && |emitted| - old(|emitted|) <= clock - old(clock)
      {
        PreorderStep(at, children, k);
        if Look() != Complete {
          return Look();
        }
        clock := clock + 1;
        emitted := emitted + [EntryOf(at, children[k])];
        if children[k].dir {
          end := WalkFolder(at + [children[k].name], children[k].children);
          if end != Complete {
            return;
          }
        }
      }
      assert children[|children|..] == [];
      NothingBelow(at);
      return Complete;
    }
  }

  lemma NothingBelow(at: Path)
    ensures Preorder(at, []) == []
  {
  }

  lemma PreorderStep(at: Path, children: seq<Tree>, k: nat)
    requires k < |children|
    ensures Preorder(at, children[k..]) == [EntryOf(at, children[k])] + PreorderUnder(at, children[k]) + Preorder(at, children[k + 1..])
  {
    assert children[k..][0] == children[k] && children[k..][1..] == children[k + 1..];
  }

  /** A complete parallel walk emits the same entries as the recursive one. */
  lemma ParallelIsRecursive(root: Item, workers: nat, actions: seq<Action>, t: State)
    requires workers >= 1 && Reaches(Start(root, workers), actions, t) && t.phase == Done(Complete)
    ensures t.emitted == multiset(Preorder(root.path, root.children))
  {
    CompleteWalkIsExact(root, workers, actions, t);
    PreorderIsBelow(root.path, root.children);
  }
}
