/** No session gets stuck and none runs for ever: in every reachable state some
    step other than the user's is enabled until the session is done, and every
    step makes a lexicographic measure smaller. */
module SessionLiveness {
  import opened Prelude
  import opened Tracker
  import opened Session
  import opened SessionProof
  import opened SessionTheorems

  // ---------- progress ----------

  lemma AllCountedSeals(units: map<nat, Unit>, life: map<Job, Phase>, counting: Option<nat>, delivering: Option<nat>, u: nat)
    requires JobsP(units, life, counting) && UnitsP(units, life, delivering)
    requires u in units && units[u].ended && counting != Some(u)
    requires forall j :: j in life && j.unit == u ==> life[j].Counted()
    ensures units[u].sealed
  {
    assert CountedOf(life, u) == SentSet(u, units[u].delivered);
  }

  lemma CountedCovers(units: map<nat, Unit>, life: map<Job, Phase>, counting: Option<nat>, delivering: Option<nat>, u: nat)
    requires JobsP(units, life, counting) && UnitsP(units, life, delivering)
    requires u in units && units[u].ended && !units[u].sealed && counting != Some(u)
    ensures exists j :: j in life && j.unit == u && !life[j].Counted()
  {
    hide JobsP, UnitsP;
    if forall j :: j in life && j.unit == u ==> life[j].Counted() {
      AllCountedSeals(units, life, counting, delivering, u);
    }
  }

  /** A task that has not settled can be moved on, or makes way for one that can. */
  lemma SomeWorkerMoves(s: State, j: Job) returns (a: Action)
    requires Inv(s) && j in s.life && !s.life[j].Settled?
    requires !s.pc.PrepCancel? && !s.pc.HeadCancel?
    ensures Enabled(s, a) && !a.UserCancel? && !a.Coord?
  {
    hide UnitsP, ProgressP, CauseP, OpenP, FatesP, At;
    if s.life[j].Queued? {
      assert j in s.queue;
      if |BusyOf(s.life)| < s.window {
        return Take;
      }
      var k :| k in BusyOf(s.life);
      a := BusyWorkerMoves(s, k);
    } else {
      a := BusyWorkerMoves(s, j);
    }
  }

  lemma BusyWorkerMoves(s: State, j: Job) returns (a: Action)
    requires Inv(s) && j in s.life && s.life[j].Busy()
    requires !s.pc.PrepCancel? && !s.pc.HeadCancel?
    ensures Enabled(s, a) && !a.UserCancel? && !a.Coord?
  {
    hide UnitsP, ProgressP, CauseP, OpenP, FatesP, QueueP, At;
    match s.life[j]
    case Held => a := Finish(j, Ok);
    case Returned(_) => a := Account(j);
    case Storing(_) => a := CancelBy(j);
    case Accounted(_) =>
      if s.once == Running {
        var k :| k in s.life && s.life[k].Storing?;
        a := CancelBy(k);
      } else {
        a := Record(j);
      }
  }

  lemma StorerMoves(s: State) returns (a: Action)
    requires Inv(s) && s.once == Running && !s.pc.PrepCancel? && !s.pc.HeadCancel?
    ensures Enabled(s, a) && !a.UserCancel? && !a.Coord?
  {
    hide UnitsP, ProgressP, CauseP, OpenP, FatesP, QueueP, JobsP, At;
    var k :| k in s.life && s.life[k].Storing?;
    a := CancelBy(k);
  }

  lemma HeadIsThere(s: State)
    requires Inv(s) && s.done < s.prep
    ensures HasHead(s) && s.open[0] == s.done
  {
    hide JobsP, QueueP, UnitsP, ProgressP, OnceP, CauseP, FatesP, At;
  }

  lemma WaitProgress(s: State) returns (a: Action)
    requires Inv(s) && s.pc.Wait?
    ensures Enabled(s, a) && !a.UserCancel?
  {
    HeadIsThere(s);
    if s.units[s.done].sealed || s.ctx {
      return Coord(Go);
    }
    var j := WaitingOn(s);
    a := SomeWorkerMoves(s, j);
  }

  lemma WaitingOn(s: State) returns (j: Job)
    requires Inv(s) && s.pc.Wait? && s.done in s.units && !s.units[s.done].sealed
    ensures j in s.life && !s.life[j].Settled?
  {
    hide QueueP, ProgressP, OnceP, CauseP, FatesP, OpenP, KeysP;
    CountedCovers(s.units, s.life, InCount(s), InDelivery(s), s.done);
    j :| j in s.life && j.unit == s.done && !s.life[j].Counted();
  }

  lemma DeliverProgress(s: State) returns (a: Action)
    requires Inv(s) && s.pc.Deliver?
    ensures Enabled(s, a) && !a.UserCancel?
    ensures !s.closed
  {
    hide JobsP, UnitsP, ProgressP, OnceP, CauseP, FatesP, OpenP;
    if |s.queue| < s.window {
      return Coord(Send);
    }
    assert s.queue[0] in s.queue;
    a := SomeWorkerMoves(s, s.queue[0]);
  }

  lemma DrainProgress(s: State) returns (a: Action)
    requires Inv(s) && s.pc.ShutWait?
    ensures Enabled(s, a) && !a.UserCancel?
  {
    hide JobsP, UnitsP, ProgressP, OnceP, CauseP, FatesP, OpenP, At;
    if s.queue != [] {
      assert s.queue[0] in s.queue;
      a := SomeWorkerMoves(s, s.queue[0]);
    } else if BusyOf(s.life) != {} {
      var k :| k in BusyOf(s.life);
      a := BusyWorkerMoves(s, k);
    } else {
      a := Coord(Go);
    }
  }

  lemma DiscardProgress(s: State)
    requires Inv(s) && s.pc.Discard?
    ensures CoordEnabled(s, Go)
  {
    hide JobsP, QueueP, UnitsP, ProgressP, OnceP, CauseP, FatesP;
  }

  /** Deadlock freedom: until it is done, a session can always take a step of its
      own; no send ever meets a closed queue and the head always exists. */
  lemma NeverStuck(n: nat, window: nat, s: State) returns (a: Action)
    requires window >= 1 && Reachable(n, window, s) && !s.pc.Done?
    ensures Enabled(s, a) && !a.UserCancel?
  {
    ReachableInv(n, window, s);
    a := Progress(s);
  }

  lemma Progress(s: State) returns (a: Action)
    requires Inv(s) && !s.pc.Done?
    ensures Enabled(s, a) && !a.UserCancel?
  {
    hide Data, BusyOf;
    match s.pc
    case Wait => a := WaitProgress(s);
    case Deliver(_) => a := DeliverProgress(s);
    case ShutWait(_) => a := DrainProgress(s);
    case PrepStore(_) => if s.once == Running { a := StorerMoves(s); } else { a := Coord(Go); }
    case HeadStore(_) => if s.once == Running { a := StorerMoves(s); } else { a := Coord(Go); }
    case Discard(_, _, _) => DiscardProgress(s); a := Coord(Go);
    case Fill => if |s.open| < s.window && s.next < s.n { a := Coord(Prepared(PrepOk(0))); } else { a := Coord(Go); }
    case Check => HeadIsThere(s); a := Coord(Go);
    case Commit => HeadIsThere(s); a := Coord(Committing(CommitResult(UnitSucceeded, false)));
    case Persist(_) => a := Coord(Wrote(true));
    case _ => a := Coord(Go);
  }

  // ---------- bounds ----------

  /** The open list and the queue never exceed the window, and the queue is only
      closed once admission has ended. */
  lemma WithinTheWindow(n: nat, window: nat, s: State)
    requires window >= 1 && Reachable(n, window, s)
    ensures s.window >= 1 && |s.open| <= s.window && |s.queue| <= s.window && |BusyOf(s.life)| <= s.window
    ensures s.closed ==> s.pc.ShutWait? || s.pc.Report? || s.pc.Discard? || s.pc.Done?
    ensures s.pc.Wait? || s.pc.Check? || s.pc.Commit? ==> HasHead(s) && s.open[0] == s.done
  {
    ReachableInv(n, window, s);
    ClosedLate(s);
    QueueFits(s);
    if s.pc.Wait? || s.pc.Check? || s.pc.Commit? {
      HeadIsThere(s);
    }
  }

  lemma ClosedLate(s: State)
    requires Inv(s)
    ensures s.closed ==> s.pc.ShutWait? || s.pc.Report? || s.pc.Discard? || s.pc.Done?
    ensures s.pc.Wait? || s.pc.Check? || s.pc.Commit? ==> s.done < s.prep
  {
    hide Data, BusyOf, AllSettledOk, FailedTask;
  }

  lemma QueueFits(s: State)
    requires Inv(s)
    ensures s.window >= 1 && |s.open| <= s.window && |s.queue| <= s.window && |BusyOf(s.life)| <= s.window
  {
    hide At, JobsP, UnitsP, ProgressP, OnceP, CauseP, FatesP, KeysP;
  }

  // ---------- termination ----------

  datatype Measure = Measure(stage: int, uncommitted: int, unopened: int, point: int, inner: int, tasks: int, user: int)
  {
    predicate NonNegative() {
      stage >= 0 && uncommitted >= 0 && unopened >= 0 && point >= 0 && inner >= 0 && tasks >= 0 && user >= 0
    }

    predicate Less(m: Measure) {
      stage < m.stage || (stage == m.stage &&
      (uncommitted < m.uncommitted || (uncommitted == m.uncommitted &&
      (unopened < m.unopened || (unopened == m.unopened &&
      (point < m.point || (point == m.point &&
      (inner < m.inner || (inner == m.inner &&
      (tasks < m.tasks || (tasks == m.tasks && user < m.user)))))))))))
    }
  }

  function Stage(pc: PC): nat {
    match pc
    case Done(_) => 0
    case Discard(_, _, _) => 1
    case Report(_) => 2
    case ShutWait(_) => 3
    case ShutClose(_) => 4
    case ShutCancel(_) => 5
    case _ => 6
  }

  function SiteRank(site: Site): nat {
    match site
    case Boundary(_) => 8
    case Top => 7
    case Cut => 4
    case AfterWait => 2
    case Admission => 1
  }

  /** How far the coordinator is from the next commit. */
  function Point(pc: PC): nat {
    match pc
    case Persist(_) => 30
    case Settle(_) => 29
    case HeadStore(_) => 28
    case HeadCancel(_) => 27
    case ReadStop(site) => 3 * SiteRank(site) + 2
    case ReadCtx(site) => 3 * SiteRank(site) + 1
    case Fill => 19
    case PrepStore(_) => 18
    case PrepCancel(_) => 17
    case Deliver(_) => 18
    case Count(_) => 18
    case EndNormal => 17
    case EndCut => 17
    case Wait => 9
    case Check => 6
    case Commit => 1
    case _ => 0
  }

  function Inner(s: State): int {
    match s.pc
    case Deliver(k) => if s.prep > 0 && s.prep - 1 in s.units then 2 * (s.units[s.prep - 1].expected - k) + 1 else 0
    case Count(k) => if s.prep > 0 && s.prep - 1 in s.units then 2 * (s.units[s.prep - 1].expected - k) else 0
    case Discard(at, _, _) => |s.open| - at
    case _ => 0
  }

  function AtLeast(life: map<Job, Phase>, q: nat): set<Job> {
    set j | j in life && life[j].Rank() >= q
  }

  /** Every phase a task still has before it counts one. */
  function Potential(life: map<Job, Phase>): nat {
    |AtLeast(life, 1)| + |AtLeast(life, 2)| + |AtLeast(life, 3)| + |AtLeast(life, 4)| + |AtLeast(life, 5)|
  }

  function MeasureOf(s: State): Measure {
    Measure(Stage(s.pc), s.n - s.done, s.n - s.next, Point(s.pc), Inner(s), Potential(s.life), if s.user then 0 else 1)
  }

  lemma LevelDrops(life: map<Job, Phase>, j: Job, p: Phase, q: nat)
    requires j in life && p.Rank() < life[j].Rank()
    ensures |AtLeast(life[j := p], q)| <= |AtLeast(life, q)|
    ensures q == life[j].Rank() ==> |AtLeast(life[j := p], q)| < |AtLeast(life, q)|
  {
    var before, after := AtLeast(life, q), AtLeast(life[j := p], q);
    assert after <= before;
    SubsetSize(after, before);
    if q == life[j].Rank() {
      assert j in before && j !in after;
    }
  }

  lemma PotentialDrops(life: map<Job, Phase>, j: Job, p: Phase)
    requires j in life && p.Rank() < life[j].Rank()
    ensures Potential(life[j := p]) < Potential(life)
  {
    LevelDrops(life, j, p, 1);
    LevelDrops(life, j, p, 2);
    LevelDrops(life, j, p, 3);
    LevelDrops(life, j, p, 4);
    LevelDrops(life, j, p, 5);
    hide AtLeast;
  }

  lemma MeasureNonNegative(s: State)
    requires Inv(s)
    ensures MeasureOf(s).NonNegative()
  {
    hide Data, BusyOf, AllSettledOk, FailedTask, Potential;
  }

  lemma SameInner(s: State, u: nat, o: Outcome, life: map<Job, Phase>)
    requires u in s.units
    ensures Inner(s.(units := s.units[u := s.units[u].TaskReturned(o)], life := life)) == Inner(s)
  {
  }

  lemma WorkerShrinks(s: State, a: Action)
    requires Inv(s) && Enabled(s, a) && !a.Coord?
    ensures MeasureOf(Next(s, a)).Less(MeasureOf(s))
  {
    hide Inv, Potential, Point, Stage, CoordEnabled, CoordNext;
    match a
    case Take => TakenIsQueued(s); PotentialDrops(s.life, s.queue[0], Held);
    case Finish(j, o) => PotentialDrops(s.life, j, Returned(o));
    case Account(j) =>
      PotentialDrops(s.life, j, AfterAccount(s.life[j].o));
      SameInner(s, j.unit, s.life[j].o, s.life[j := AfterAccount(s.life[j].o)]);
    case Record(j) =>
      PotentialDrops(s.life, j, if s.once == Fresh then Storing(s.life[j].o) else Settled(s.life[j].o));
    case CancelBy(j) => PotentialDrops(s.life, j, Settled(s.life[j].o));
    case UserCancel =>
  }

  // The coordinator, phase by phase.

  lemma LookShrinks(s: State)
    requires Base(s) && At(s) && (s.pc.ReadStop? || s.pc.ReadCtx?)
    ensures MeasureOf(CoordNext(s, Go)).Less(MeasureOf(s))
  {
    hide At, Base, Potential;
  }

  lemma OpenShrinks(s: State, c: Choice)
    requires CoordEnabled(s, c) && s.pc.Fill? && c.Prepared? && c.r.PrepOk?
    ensures MeasureOf(CoordNext(s, c)).Less(MeasureOf(s))
  {
    hide Potential, Opened, TeardownNext, HeadNext, LookNext;
  }

  lemma FillShrinks(s: State, c: Choice)
    requires CoordEnabled(s, c) && s.pc.Fill? && c.Prepared? && !c.r.PrepOk?
    ensures MeasureOf(CoordNext(s, c)).Less(MeasureOf(s))
  {
    hide Potential, Opened, TeardownNext, HeadNext, LookNext;
  }

  lemma FullShrinks(s: State)
    requires CoordEnabled(s, Go) && s.pc.Fill?
    ensures MeasureOf(CoordNext(s, Go)).Less(MeasureOf(s))
  {
    hide Potential, Opened, TeardownNext, HeadNext, LookNext, Continue, BusyOf;
    var t := AdmitNext(s, Go);
    assert t.pc == Wait;
    assert t == s.(pc := Wait);
  }

  lemma DeliverShrinks(s: State, c: Choice)
    requires Base(s) && At(s) && CoordEnabled(s, c) && (s.pc.Deliver? || s.pc.Count?)
    ensures MeasureOf(CoordNext(s, c)).Less(MeasureOf(s))
  {
    hide Potential, FailedTask;
  }

  lemma EndShrinks(s: State, c: Choice)
    requires CoordEnabled(s, c) && (s.pc.EndNormal? || s.pc.EndCut? || s.pc.PrepStore? || s.pc.PrepCancel?)
    ensures MeasureOf(CoordNext(s, c)).Less(MeasureOf(s))
  {
    hide Potential;
  }

  lemma HeadShrinks(s: State, c: Choice)
    requires CoordEnabled(s, c) && (s.pc.Wait? || s.pc.Check? || s.pc.Commit? || s.pc.Persist?)
    ensures MeasureOf(CoordNext(s, c)).Less(MeasureOf(s))
  {
    hide Potential;
  }

  lemma SettleShrinks(s: State, c: Choice)
    requires CoordEnabled(s, c) && (s.pc.Settle? || s.pc.HeadStore? || s.pc.HeadCancel?)
    ensures MeasureOf(CoordNext(s, c)).Less(MeasureOf(s))
  {
    hide Potential;
  }

  lemma ShutShrinks(s: State)
    requires CoordEnabled(s, Go) && (s.pc.ShutCancel? || s.pc.ShutClose? || s.pc.ShutWait?)
    ensures MeasureOf(CoordNext(s, Go)).Less(MeasureOf(s))
  {
    hide Potential, BusyOf, Resolve, StopToReport, StatusOf, AdmitNext, HeadNext, LookNext;
    match s.pc
    case ShutCancel(_) =>
    case ShutClose(_) =>
    case ShutWait(_) =>
  }

  lemma ReportShrinks(s: State)
    requires CoordEnabled(s, Go) && s.pc.Report?
    ensures MeasureOf(CoordNext(s, Go)).Less(MeasureOf(s))
  {
    hide Potential, BusyOf, Resolve, StopToReport, StatusOf, AdmitNext, HeadNext, LookNext;
  }

  lemma TearsDown(s: State)
    requires CoordEnabled(s, Go) && TearingDown(s.pc)
    ensures CoordNext(s, Go) == TeardownNext(s)
  {
    hide BusyOf, Resolve, StopToReport, StatusOf, AdmitNext, HeadNext, LookNext, Continue, TeardownNext;
  }

  lemma DiscardKeeps(s: State)
    requires CoordEnabled(s, Go) && s.pc.Discard?
    ensures var t := CoordNext(s, Go);
      && t.n == s.n && t.done == s.done && t.next == s.next && t.open == s.open && t.life == s.life && t.user == s.user
      && t.pc == if s.pc.at < |s.open| then Discard(s.pc.at + 1, s.pc.except, s.pc.status) else Done(s.pc.status)
  {
    hide BusyOf, Resolve, StopToReport, StatusOf, AdmitNext, HeadNext, LookNext, Continue, CoordNext;
    TearsDown(s);
  }

  lemma DiscardShrinks(s: State)
    requires CoordEnabled(s, Go) && s.pc.Discard?
    ensures MeasureOf(CoordNext(s, Go)).Less(MeasureOf(s))
  {
    hide Potential, BusyOf, CoordNext, SiteRank;
    DiscardKeeps(s);
  }

  lemma CoordShrinks(s: State, c: Choice)
    requires Base(s) && At(s) && CoordEnabled(s, c)
    ensures MeasureOf(CoordNext(s, c)).Less(MeasureOf(s))
  {
    hide Base, At, MeasureOf, CoordNext, Measure.Less;
    match s.pc
    case ReadStop(_) => LookShrinks(s);
    case ReadCtx(_) => LookShrinks(s);
    case Fill =>
      if !c.Prepared? { FullShrinks(s); } else if c.r.PrepOk? { OpenShrinks(s, c); } else { FillShrinks(s, c); }
    case Deliver(_) => DeliverShrinks(s, c);
    case Count(_) => DeliverShrinks(s, c);
    case EndNormal => EndShrinks(s, c);
    case EndCut => EndShrinks(s, c);
    case PrepStore(_) => EndShrinks(s, c);
    case PrepCancel(_) => EndShrinks(s, c);
    case Settle(_) => SettleShrinks(s, c);
    case HeadStore(_) => SettleShrinks(s, c);
    case HeadCancel(_) => SettleShrinks(s, c);
    case ShutCancel(_) => ShutShrinks(s);
    case ShutClose(_) => ShutShrinks(s);
    case ShutWait(_) => ShutShrinks(s);
    case Report(_) => ReportShrinks(s);
    case Discard(_, _, _) => DiscardShrinks(s);
    case _ => HeadShrinks(s, c);
  }

  /** Every step of every participant makes the measure smaller. */
  lemma StepShrinks(s: State, a: Action)
    requires Inv(s) && Enabled(s, a)
    ensures MeasureOf(s).NonNegative()
    ensures MeasureOf(Next(s, a)).Less(MeasureOf(s))
  {
    hide Data, Base, At, MeasureOf, CoordNext, Measure.Less, Measure.NonNegative;
    MeasureNonNegative(s);
    if a.Coord? {
      CoordShrinks(s, a.c);
    } else {
      WorkerShrinks(s, a);
    }
  }

  // ---------- every run ends ----------

  /** A run that never stops: a step is enabled at every moment. */
  ghost predicate RunsForever(states: nat -> State, steps: nat -> Action) {
    forall i: nat :: Enabled(states(i), steps(i)) && states(i + 1) == Next(states(i), steps(i))
  }

  lemma {:induction false} EndlessFrom(states: nat -> State, steps: nat -> Action, i: nat)
    requires RunsForever(states, steps) && Inv(states(i))
    ensures false
    decreases MeasureOf(states(i)).stage, MeasureOf(states(i)).uncommitted, MeasureOf(states(i)).unopened,
              MeasureOf(states(i)).point, MeasureOf(states(i)).inner, MeasureOf(states(i)).tasks, MeasureOf(states(i)).user
  {
    hide Inv, MeasureOf, Enabled, Next;
    StepShrinks(states(i), steps(i));
    StepInv(states(i), steps(i));
    assert states(i + 1) == Next(states(i), steps(i));
    MeasureNonNegative(states(i + 1));
    EndlessFrom(states, steps, i + 1);
  }

  /** No interleaving of the coordinator, the workers and the user runs for ever. */
  lemma EveryRunEnds(n: nat, window: nat, states: nat -> State, steps: nat -> Action)
    requires window >= 1 && states(0) == Start(n, window)
    ensures !RunsForever(states, steps)
  {
    if RunsForever(states, steps) {
      StartInv(n, window);
      EndlessFrom(states, steps, 0);
    }
  }
}
