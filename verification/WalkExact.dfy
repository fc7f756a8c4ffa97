/** What the entries of a walk say, and what the way it ended says about its run. */
module WalkExact {
  import opened Disk
  import opened Walk

  // ---------- entries ----------

  /** Following `names` down from a directory, through directories, ends at `t`. */
  ghost predicate IsNode(children: seq<Tree>, names: Path, t: Tree)
    decreases |names|
  {
    names != [] && exists k :: 0 <= k < |children| && Leads(children[k], names, t)
  }

  ghost predicate Leads(child: Tree, names: Path, t: Tree)
    requires names != []
    decreases |names|, 0
  {
    child.name == names[0] && if |names| == 1 then t == child else child.dir && IsNode(child.children, names[1..], t)
  }

  /** The facts of a node: where it is, the directory it is in, and its metadata. */
  predicate Facts(e: Entry, at: Path, names: Path, t: Tree)
    requires names != []
  {
    && e.path == at + names && e.parent == at + names[..|names| - 1] && e.name == names[|names| - 1]
    && e.dir == t.dir && e.size == t.size && e.mtime == t.mtime
  }

  lemma {:induction false} NodeIsBelow(at: Path, children: seq<Tree>, names: Path, t: Tree, e: Entry)
    requires IsNode(children, names, t) && Facts(e, at, names, t)
    ensures e in Below(at, children)
    decreases children
  {
    var k :| 0 <= k < |children| && Leads(children[k], names, t);
    if k > 0 {
      assert children[1..][k - 1] == children[k];
      NodeIsBelow(at, children[1..], names, t, e);
    } else if |names| > 1 {
      assert at + [names[0]] + names[1..] == at + names;
      assert names[1..][..|names| - 2] == names[1..|names| - 1];
      assert at + [names[0]] + names[1..|names| - 1] == at + names[..|names| - 1];
      NodeIsBelow(at + [names[0]], children[0].children, names[1..], t, e);
    } else {
      assert at + names[..0] == at;
      assert e == EntryOf(at, children[0]);
    }
  }

  lemma HeadIsNode(at: Path, children: seq<Tree>)
    requires children != []
    ensures IsNode(children, [children[0].name], children[0]) && Facts(EntryOf(at, children[0]), at, [children[0].name], children[0])
  {
    assert at + [children[0].name][..0] == at;
    assert Leads(children[0], [children[0].name], children[0]);
  }

  lemma DeeperIsNode(at: Path, children: seq<Tree>, more: Path, t: Tree, e: Entry)
    requires children != [] && children[0].dir && IsNode(children[0].children, more, t) && Facts(e, at + [children[0].name], more, t)
    ensures IsNode(children, [children[0].name] + more, t) && Facts(e, at, [children[0].name] + more, t)
  {
    var names := [children[0].name] + more;
    assert names[1..] == more && Leads(children[0], names, t);
    assert at + [children[0].name] + more == at + names;
    assert at + [children[0].name] + more[..|more| - 1] == at + names[..|names| - 1];
  }

  lemma LaterIsNode(children: seq<Tree>, names: Path, t: Tree)
    requires children != [] && IsNode(children[1..], names, t)
    ensures IsNode(children, names, t)
  {
    var k :| 0 <= k < |children[1..]| && Leads(children[1..][k], names, t);
    assert children[k + 1] == children[1..][k];
  }

  lemma {:induction false} BelowIsNode(at: Path, children: seq<Tree>, e: Entry) returns (names: Path, t: Tree)
    requires e in Below(at, children)
    ensures IsNode(children, names, t) && Facts(e, at, names, t)
    decreases children
  {
    hide IsNode, Facts, EntryOf;
    if e == EntryOf(at, children[0]) {
      names, t := [children[0].name], children[0];
      HeadIsNode(at, children);
    } else if e in Under(at, children[0]) {
      var more: Path;
      more, t := BelowIsNode(at + [children[0].name], children[0].children, e);
      DeeperIsNode(at, children, more, t, e);
      names := [children[0].name] + more;
    } else {
      names, t := BelowIsNode(at, children[1..], e);
      LaterIsNode(children, names, t);
    }
  }

  ghost predicate OfNode(at: Path, children: seq<Tree>, e: Entry) {
    exists names, t :: IsNode(children, names, t) && Facts(e, at, names, t)
  }

  /** A complete parallel walk emits exactly the facts of the nodes that can be
      reached from its root through directories. */
  lemma EmitsTheNodes(root: Item, workers: nat, actions: seq<Action>, t: State, e: Entry)
    requires workers >= 1 && Reaches(Start(root, workers), actions, t) && t.phase == Done(Complete)
    ensures e in t.emitted <==> OfNode(root.path, root.children, e)
  {
    CompleteWalkIsExact(root, workers, actions, t);
    if e in t.emitted {
      var names, node := BelowIsNode(root.path, root.children, e);
    }
    if OfNode(root.path, root.children, e) {
      var names, node :| IsNode(root.children, names, node) && Facts(e, root.path, names, node);
      NodeIsBelow(root.path, root.children, names, node, e);
    }
  }

  // ---------- endings ----------

  /** A failure of this code was met by some reader. */
  ghost predicate FailedWith(actions: seq<Action>, code: int) {
    exists w: nat :: Fail(w, code) in actions
  }

  ghost predicate SomeFailure(actions: seq<Action>) {
    exists code :: FailedWith(actions, code)
  }

  /** What the state says about the run so far. */
  ghost predicate Tells(s: State, run: seq<Action>) {
    && (forall k :: 0 <= k < |s.results| && s.results[k].Error? ==> FailedWith(run, s.results[k].code))
    && (forall w :: 0 <= w < |s.workers| && Failing(s.workers[w]) ==> FailedWith(run, s.workers[w].answer.code))
    && EndTells(s, run)
    && (SomeFailure(run) && !s.canceled ==> !Walk.Clean(s))
  }

  ghost predicate EndTells(s: State, run: seq<Action>) {
    && (Cancel in run ==> s.canceled)
    && (s.canceled ==> Cancel in run || (!s.phase.Running? && s.phase.end.Failed?))
    && (!s.phase.Running? && s.phase.end.Failed? ==> FailedWith(run, s.phase.end.code))
    && (!s.phase.Running? && s.phase.end.Canceled? ==> Cancel in run)
  }

  lemma MoreActions(run: seq<Action>, a: Action)
    ensures forall code :: FailedWith(run + [a], code) <==> FailedWith(run, code) || (a.Fail? && a.code == code)
    ensures SomeFailure(run + [a]) <==> SomeFailure(run) || a.Fail?
    ensures Cancel in run + [a] <==> Cancel in run || a.Cancel?
  {
    assert forall b :: b in run + [a] <==> b in run || b == a;
    forall code ensures FailedWith(run + [a], code) <==> FailedWith(run, code) || (a.Fail? && a.code == code) {
      if a.Fail? && a.code == code { assert Fail(a.w, code) in run + [a]; }
    }
    if a.Fail? { assert FailedWith(run + [a], a.code); }
    if SomeFailure(run) {
      var code :| FailedWith(run, code);
      assert FailedWith(run + [a], code);
    }
  }

  lemma WorkerTells(s: State, root: Item, run: seq<Action>, a: Action)
    requires Inv(s, root) && Enabled(s, a) && Tells(s, run) && (a.Take? || a.Emit? || a.Fail? || a.EndOfDir? || a.Report? || a.Quit?)
    ensures Tells(Next(s, a), run + [a])
  {
    hide WorkOfAll, WorkIn, WorkAll, Work, BusyCount, FailedWith, SomeFailure;
    MoreActions(run, a);
    var t := Next(s, a);
    assert forall w :: 0 <= w < |t.workers| && w != a.w ==> t.workers[w] == s.workers[w];
    if !t.canceled && !Walk.Clean(s) {
      NotClean(s, root, a);
    }
    if a.Fail? { assert Failing(t.workers[a.w]); }
  }

  /** A failure on its way stays on its way. */
  lemma NotClean(s: State, root: Item, a: Action)
    requires Inv(s, root) && Enabled(s, a) && !Walk.Clean(s) && !s.canceled && (a.Take? || a.Emit? || a.Fail? || a.EndOfDir? || a.Report? || a.Quit?)
    ensures !Walk.Clean(Next(s, a))
  {
    hide WorkOfAll, WorkIn, WorkAll, Work, BusyCount;
    var t := Next(s, a);
    if HasError(s.results) {
      var k :| 0 <= k < |s.results| && s.results[k].Error?;
      assert t.results[k].Error?;
    } else {
      var w :| 0 <= w < |s.workers| && Failing(s.workers[w]);
      if w != a.w {
        assert Failing(t.workers[w]);
      } else {
        assert a.Report? ==> t.results[|s.results|].Error?;
      }
    }
  }

  lemma CoordinatorTells(s: State, root: Item, run: seq<Action>, a: Action)
    requires Inv(s, root) && Enabled(s, a) && Tells(s, run) && !(a.Take? || a.Emit? || a.Fail? || a.EndOfDir? || a.Report? || a.Quit?)
    ensures Tells(Next(s, a), run + [a])
  {
    hide WorkOfAll, WorkIn, WorkAll, Work, BusyCount, FailedWith, SomeFailure;
    MoreActions(run, a);
    if a.Receive? && s.results[0].Subdirs? {
      TailErrors(s.results);
    }
  }

  lemma {:induction false} RunTells(s: State, root: Item, before: seq<Action>, actions: seq<Action>, t: State)
    requires Inv(s, root) && Tells(s, before) && Reaches(s, actions, t)
    ensures Tells(t, before + actions) && Inv(t, root)
    decreases actions
  {
    hide Inv, Next, Enabled, Tells;
    if actions != [] {
      var a := actions[0];
      StepInv(s, root, a);
      if a.Take? || a.Emit? || a.Fail? || a.EndOfDir? || a.Report? || a.Quit? {
        WorkerTells(s, root, before, a);
      } else {
        CoordinatorTells(s, root, before, a);
      }
      RunTells(Next(s, a), root, before + [a], actions[1..], t);
      assert before + [a] + actions[1..] == before + actions;
    } else {
      assert before + [] == before;
    }
  }

  /** How a walk ends says what happened: it is complete exactly when no reader
      failed and nobody canceled; the failure it answers is one that a reader met;
      and it answers a cancellation only when somebody canceled. */
  lemma EndingTellsWhy(root: Item, workers: nat, actions: seq<Action>, t: State)
    requires workers >= 1 && Reaches(Start(root, workers), actions, t) && t.phase.Done?
    ensures t.phase.end == Complete <==> !SomeFailure(actions) && Cancel !in actions
    ensures t.phase.end.Failed? ==> FailedWith(actions, t.phase.end.code)
    ensures t.phase.end.Canceled? ==> Cancel in actions
    ensures SomeFailure(actions) && Cancel !in actions ==> t.phase.end.Failed?
  {
    StartInv(root, workers);
    RunTells(Start(root, workers), root, [], actions, t);
    assert [] + actions == actions;
    hide Reaches, WorkOfAll, WorkIn, WorkAll, Work, BusyCount, FailedWith;
    if t.phase.end.Failed? { assert SomeFailure(actions); }
  }
}
