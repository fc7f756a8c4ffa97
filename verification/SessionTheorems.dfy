/** The promises of an execution session, proved for every run. */
module SessionTheorems {
  import opened Prelude
  import opened Tracker
  import opened Session
  import opened SessionProof

  // ---------- every run keeps the invariant ----------

  lemma CoordInv(s: State, c: Choice)
    requires Inv(s) && CoordEnabled(s, c)
    ensures Inv(CoordNext(s, c))
  {
    hide Data, Base, At, CoordNext, HasHead, InFlight, BusyOf;
    match s.pc
    case ReadStop(_) => ReadStopAt(s); ReadData(s, Go);
    case ReadCtx(site) =>
      ReadData(s, Go);
      if site.Boundary? { ReadCtxBoundaryAt(s); } else { ReadCtxAt(s); }
    case Fill =>
      if c.Prepared? && c.r.PrepOk? {
        OpenAt(s, c); OpenData(s, c);
      } else if c.Prepared? {
        FillAt(s, c); FillFailedData(s, c);
      } else {
        FillAt(s, c); FillFullData(s);
      }
    case Deliver(_) => if c == Send { SendInv(s); } else { CutInv(s); }
    case Count(_) => CountInv(s);
    case EndNormal => EndNormalInv(s);
    case EndCut => EndCutInv(s);
    case PrepStore(_) => StopAt(s); StoreData(s, Go);
    case PrepCancel(_) => StopAt(s); CancelData(s, Go);
    case HeadStore(_) => StopAt(s); StoreData(s, Go);
    case HeadCancel(_) => StopAt(s); CancelData(s, Go);
    case Wait => HeadAt(s, c); WaitData(s, c);
    case Check => HeadAt(s, c); WaitData(s, c);
    case Commit => HeadAt(s, c); CommitData(s, c);
    case Persist(_) => SettleAt(s, c); SettleData(s, c);
    case Settle(_) => SettleAt(s, c); SettleData(s, c);
    case ShutCancel(_) => ShutAt(s); SettleData(s, c);
    case ShutClose(_) => ShutAt(s); SettleData(s, c);
    case ShutWait(_) => ShutAt(s); SettleData(s, c);
    case Report(_) => ReportAt(s); ReportData(s);
    case Discard(_, _, _) => HeadAt(s, c); DiscardData(s);
  }

  lemma StepInv(s: State, a: Action)
    requires Inv(s) && Enabled(s, a)
    ensures Inv(Next(s, a))
  {
    hide Data, Base, At, CoordNext, CoordEnabled;
    match a
    case Coord(c) => CoordInv(s, c);
    case Take => TakeInv(s);
    case Finish(j, o) => FinishInv(s, j, o);
    case Account(j) => AccountInv(s, j);
    case Record(j) => RecordInv(s, j);
    case CancelBy(j) => CancelByInv(s, j);
    case UserCancel => UserData(s); UserAt(s);
  }

  lemma {:induction false} RunInv(s: State, actions: seq<Action>, t: State)
    requires Inv(s) && Reaches(s, actions, t)
    ensures Inv(t)
    decreases actions
  {
    hide Inv, Next, Enabled;
    if actions != [] {
      StepInv(s, actions[0]);
      RunInv(Next(s, actions[0]), actions[1..], t);
    }
  }

  ghost predicate Reachable(n: nat, window: nat, t: State) {
    exists actions :: Reaches(Start(n, window), actions, t)
  }

  lemma ReachableInv(n: nat, window: nat, t: State)
    requires window >= 1 && Reachable(n, window, t)
    ensures Inv(t)
  {
    hide Inv;
    var actions :| Reaches(Start(n, window), actions, t);
    StartInv(n, window);
    RunInv(Start(n, window), actions, t);
  }

  // ---------- each unit is resolved once, after its tasks returned ----------

  /** Every task of the unit that entered the pool has come back. */
  ghost predicate AllBack(s: State, u: nat) {
    u in s.units && forall j :: j in s.life && j.unit == u ==> s.life[j].Counted()
  }

  lemma CommittedIsBack(s: State, u: nat)
    requires Data(s) && u < s.done && s.done <= s.next <= s.prep
    ensures AllBack(s, u) && s.units[u].Committable()
    ensures forall t: nat :: t < s.units[u].expected ==> Job(u, t) in s.life && s.life[Job(u, t)] == Settled(Ok)
  {
    hide QueueP, OnceP, CauseP, OpenP;
    assert u in s.units;
    SealedMeansReturned(s.units, s.life, InCount(s), InDelivery(s), u);
  }

  lemma DrainedIsBack(s: State, u: nat)
    requires Data(s) && Drained(s) && u in s.units
    ensures AllBack(s, u)
  {
    hide JobsP, UnitsP, ProgressP, OnceP, CauseP, OpenP, FatesP;
    forall j | j in s.life && j.unit == u ensures s.life[j].Counted() {
      assert j !in s.queue && j !in BusyOf(s.life);
    }
  }

  /** In every interleaving a prepared unit is resolved at most once, and exactly
      once when the session ends; a resolved unit has every task back. */
  lemma ResolvedExactlyOnce(n: nat, window: nat, s: State, u: nat)
    requires window >= 1 && Reachable(n, window, s) && u < s.prep
    ensures u in s.fates && u in s.units
    ensures |s.fates[u]| <= 1
    ensures s.fates[u] != [] ==> AllBack(s, u)
    ensures s.pc.Done? ==> |s.fates[u]| == 1
    ensures s.fates[u] == [Committed] <==> u < s.done
  {
    ReachableInv(n, window, s);
    FateOf(s, u);
    if u < s.done {
      CommittedIsBack(s, u);
    } else if s.fates[u] != [] {
      DrainedIsBack(s, u);
    }
  }

  lemma FateOf(s: State, u: nat)
    requires Inv(s) && u < s.prep
    ensures u in s.fates && u in s.units && s.done <= s.next
    ensures s.fates[u] == [Committed] <==> u < s.done
    ensures |s.fates[u]| <= 1
    ensures u >= s.done && s.fates[u] != [] ==> Drained(s)
    ensures s.pc.Done? ==> |s.fates[u]| == 1
  {
    hide JobsP, QueueP, UnitsP, ProgressP, OnceP, CauseP, OpenP, BusyOf, AllSettledOk, FailedTask;
  }

  /** The committed units are a prefix of the frozen worklist; each was committed
      only with every declared task delivered and returned without error. */
  lemma CommittedArePrefix(n: nat, window: nat, s: State, u: nat)
    requires window >= 1 && Reachable(n, window, s) && u < s.prep
    ensures u in s.fates && (s.fates[u] == [Committed] <==> u < s.done)
    ensures s.done <= s.n
    ensures u < s.done ==> u in s.units && forall t: nat :: t < s.units[u].expected ==>
              Job(u, t) in s.life && s.life[Job(u, t)] == Settled(Ok)
  {
    ReachableInv(n, window, s);
    FateOf(s, u);
    if u < s.done {
      CommittedIsBack(s, u);
    }
  }

  // ---------- the terminal status tells the truth ----------

  /** A finished session failed exactly when something failed for real or a
      committed result could not be stored; it is canceled only when the user
      canceled it and nothing failed; and it succeeded only with the whole
      worklist committed and no stop recorded. */
  lemma StatusTellsTheTruth(n: nat, window: nat, s: State)
    requires window >= 1 && Reachable(n, window, s) && s.pc.Done?
    ensures s.pc.status == SessionFailed <==> s.broken || s.unsaved
    ensures s.pc.status == SessionCanceled ==> s.user && s.stop == None
    ensures s.pc.status == Succeeded ==> s.done == s.n && s.stop == None
    ensures s.told.Some? ==> s.told == s.stop
  {
    hide Data, BusyOf;
    ReachableInv(n, window, s);
  }

  /** A choice by which a preparation or a commit failed for real. */
  predicate FaultyChoice(c: Choice) {
    match c
    case Prepared(r) => r.PrepFailed?
    case Committing(res) => Troubled(res)
    case _ => false
  }

  /** What one step of the coordinator may do to the recorded stop, the history
      and the tasks: it never replaces a stop, records none for a task, marks
      exactly its own failures, and only sends. */
  ghost predicate CoordKeeps(s: State, c: Choice, t: State) {
    && t.broken == (s.broken || FaultyChoice(c))
    && t.unsaved == (s.unsaved || c == Wrote(false))
    && (s.stop.Some? ==> t.stop == s.stop)
    && (t.stop.Some? && s.stop.None? ==> !t.stop.value.open)
    && (t.life == s.life || (s.pc.Deliver? && s.prep > 0 && t.life == s.life[Job(s.prep - 1, s.pc.k) := Queued]))
  }

  lemma LookKeeps(s: State)
    requires s.pc.ReadStop? || s.pc.ReadCtx?
    ensures CoordKeeps(s, Go, LookNext(s))
  {
  }

  lemma OpenKeeps(s: State, c: Choice)
    requires CoordEnabled(s, c) && s.pc.Fill?
    ensures CoordKeeps(s, c, AdmitNext(s, c))
  {
  }

  lemma DeliverKeeps(s: State, c: Choice)
    requires CoordEnabled(s, c) && (s.pc.Deliver? || s.pc.Count?)
    ensures CoordKeeps(s, c, AdmitNext(s, c))
  {
  }

  lemma EndKeeps(s: State, c: Choice)
    requires CoordEnabled(s, c) && (s.once == Fresh <==> s.stop.None?)
    requires s.pc.EndNormal? || s.pc.EndCut? || s.pc.PrepStore? || s.pc.PrepCancel?
    ensures CoordKeeps(s, c, AdmitNext(s, c))
  {
  }

  lemma HeadKeeps(s: State, c: Choice)
    requires CoordEnabled(s, c) && (s.pc.Wait? || s.pc.Check? || s.pc.Commit? || s.pc.Persist?)
    ensures CoordKeeps(s, c, HeadNext(s, c))
  {
  }

  lemma SettleKeeps(s: State, c: Choice)
    requires CoordEnabled(s, c) && (s.once == Fresh <==> s.stop.None?)
    requires s.pc.Settle? || s.pc.HeadStore? || s.pc.HeadCancel?
    ensures CoordKeeps(s, c, HeadNext(s, c))
  {
  }

  lemma TeardownKeeps(s: State)
    requires TearingDown(s.pc) && (s.pc.Discard? ==> s.pc.at < |s.open| ==> s.open[s.pc.at] in s.fates)
    ensures CoordKeeps(s, Go, TeardownNext(s))
  {
    match s.pc
    case ShutCancel(_) =>
    case ShutClose(_) =>
    case ShutWait(_) =>
    case Report(_) =>
    case Discard(_, _, _) =>
  }

  lemma CoordKeepsStep(s: State, c: Choice)
    requires CoordEnabled(s, c) && (s.once == Fresh <==> s.stop.None?)
    ensures CoordKeeps(s, c, CoordNext(s, c))
  {
    hide LookNext, AdmitNext, HeadNext, TeardownNext, CoordKeeps;
    if s.pc.ReadStop? || s.pc.ReadCtx? {
      LookKeeps(s);
    } else if s.pc.Fill? {
      OpenKeeps(s, c);
    } else if s.pc.Deliver? || s.pc.Count? {
      DeliverKeeps(s, c);
    } else if Admitting(s.pc) {
      EndKeeps(s, c);
    } else if TearingDown(s.pc) {
      TeardownKeeps(s);
    } else if s.pc.Settle? || s.pc.HeadStore? || s.pc.HeadCancel? {
      SettleKeeps(s, c);
    } else {
      HeadKeeps(s, c);
    }
  }

  /** The first recorded failure is never replaced. */
  lemma FirstStopStays(n: nat, window: nat, s: State, actions: seq<Action>, t: State)
    requires window >= 1 && Reachable(n, window, s) && Reaches(s, actions, t) && s.stop.Some?
    ensures t.stop == s.stop
  {
    ReachableInv(n, window, s);
    FirstStopRun(s, actions, t);
  }

  lemma {:induction false} FirstStopRun(s: State, actions: seq<Action>, t: State)
    requires Inv(s) && Reaches(s, actions, t) && s.stop.Some?
    ensures t.stop == s.stop
    decreases actions
  {
    hide Inv, Next, Enabled;
    if actions != [] {
      StepInv(s, actions[0]);
      FirstStopStep(s, actions[0]);
      FirstStopRun(Next(s, actions[0]), actions[1..], t);
    }
  }

  lemma FirstStopStep(s: State, a: Action)
    requires Inv(s) && Enabled(s, a)
    ensures s.stop.Some? ==> Next(s, a).stop == s.stop
  {
    hide Data, At, CoordEnabled, CoordNext;
    if a.Coord? {
      CoordKeepsStep(s, a.c);
    }
  }

  /** A teardown that saw any stop reports the recorded one, on its own unit: a
      unit whose task failed is discarded under that very report. */
  lemma TeardownReportsFirst(n: nat, window: nat, s: State)
    requires window >= 1 && Reachable(n, window, s) && s.pc.Report? && s.pc.end.Observed? && s.stop.Some?
    ensures Enabled(s, Coord(Go))
    ensures var t := Next(s, Coord(Go));
      && t.told == s.stop
      && t.pc == Discard(0, if s.stop.value.open then Some(s.stop.value.unit) else None, SessionFailed)
      && (s.stop.value.open ==>
            s.done <= s.stop.value.unit < s.prep && t.fates[s.stop.value.unit] == [Discarded])
  {
    hide JobsP, QueueP, UnitsP, ProgressP, OnceP, CauseP, OpenP, BusyOf, AllSettledOk, FailedTask;
    ReachableInv(n, window, s);
    if s.stop.value.open {
      StoppedUnitIsOpen(s);
    }
  }

  /** A recorded task failure is the real outcome of a task of that unit. */
  ghost predicate StopNamesTask(s: State) {
    s.stop.Some? && s.stop.value.open ==>
      exists j :: j in s.life && j.unit == s.stop.value.unit && s.life[j].FailedForReal() && s.life[j].o.code == s.stop.value.err
  }

  lemma NewTaskIsNew(s: State)
    requires Inv(s) && s.pc.Deliver? && s.prep > 0
    ensures Job(s.prep - 1, s.pc.k) !in s.life
  {
    hide QueueP, UnitsP, ProgressP, OnceP, CauseP, OpenP, FatesP, BusyOf;
  }

  lemma TakenIsQueued(s: State)
    requires Inv(s) && s.queue != []
    ensures s.queue[0] in s.life && s.life[s.queue[0]] == Queued
  {
    hide JobsP, UnitsP, ProgressP, OnceP, CauseP, OpenP, FatesP, BusyOf, At;
    assert s.queue[0] in s.queue;
  }

  /** A real outcome, once returned, stays with its task. */
  lemma OutcomesStay(s: State, a: Action, j: Job)
    requires Inv(s) && Enabled(s, a) && j in s.life && s.life[j].FailedForReal()
    ensures j in Next(s, a).life && Next(s, a).life[j].FailedForReal() && Next(s, a).life[j].o == s.life[j].o
  {
    hide Data, At, CoordEnabled, CoordNext;
    if a == Take {
      TakenIsQueued(s);
    } else if a.Coord? {
      CoordKeepsStep(s, a.c);
      if s.pc.Deliver? && s.prep > 0 {
        NewTaskIsNew(s);
      }
    }
  }

  lemma StopNamesTaskStep(s: State, a: Action)
    requires Inv(s) && Enabled(s, a) && StopNamesTask(s)
    ensures StopNamesTask(Next(s, a))
  {
    hide Data, At, CoordEnabled, CoordNext;
    var t := Next(s, a);
    FirstStopStep(s, a);
    if s.stop.Some? && s.stop.value.open {
      var j :| j in s.life && j.unit == s.stop.value.unit && s.life[j].FailedForReal() && s.life[j].o.code == s.stop.value.err;
      OutcomesStay(s, a, j);
    } else if a.Coord? {
      CoordKeepsStep(s, a.c);
    } else if t.stop.Some? && t.stop.value.open && a.Record? {
      assert t.life[a.j].FailedForReal();
    }
  }

  lemma {:induction false} StopNamesTaskRun(s: State, actions: seq<Action>, t: State)
    requires Inv(s) && StopNamesTask(s) && Reaches(s, actions, t)
    ensures StopNamesTask(t)
    decreases actions
  {
    hide Inv, Next, Enabled, StopNamesTask;
    if actions != [] {
      StepInv(s, actions[0]);
      StopNamesTaskStep(s, actions[0]);
      StopNamesTaskRun(Next(s, actions[0]), actions[1..], t);
    }
  }

  /** In every run a recorded task failure is the outcome of a task of the unit
      it is recorded for. */
  lemma RecordedStopIsReal(n: nat, window: nat, t: State)
    requires window >= 1 && Reachable(n, window, t) && t.stop.Some? && t.stop.value.open
    ensures exists j :: j in t.life && j.unit == t.stop.value.unit && t.life[j].FailedForReal() && t.life[j].o.code == t.stop.value.err
  {
    hide Inv, Next, Enabled;
    var actions :| Reaches(Start(n, window), actions, t);
    StartInv(n, window);
    StopNamesTaskRun(Start(n, window), actions, t);
  }

  /** A preparation, an encode task or a commit failing for real. */
  predicate Faulty(a: Action) {
    (a.Finish? && a.o.Failed?) || (a.Coord? && FaultyChoice(a.c))
  }

  predicate Unsaved(a: Action) {
    a == Coord(Wrote(false))
  }

  lemma HistoryStep(s: State, a: Action)
    requires Inv(s) && Enabled(s, a)
    ensures Next(s, a).broken == (s.broken || Faulty(a))
    ensures Next(s, a).unsaved == (s.unsaved || Unsaved(a))
  {
    hide Data, At, CoordEnabled, CoordNext;
    if a.Coord? {
      CoordKeepsStep(s, a.c);
    }
  }

  lemma {:induction false} HistoryRun(s: State, actions: seq<Action>, t: State)
    requires Inv(s) && Reaches(s, actions, t)
    ensures t.broken <==> s.broken || exists i :: 0 <= i < |actions| && Faulty(actions[i])
    ensures t.unsaved <==> s.unsaved || exists i :: 0 <= i < |actions| && Unsaved(actions[i])
    decreases actions
  {
    hide Inv, Next, Enabled, Faulty, Unsaved;
    if actions != [] {
      var rest := actions[1..];
      StepInv(s, actions[0]);
      HistoryStep(s, actions[0]);
      HistoryRun(Next(s, actions[0]), rest, t);
      forall i | 0 <= i < |rest| ensures rest[i] == actions[i + 1] {}
      assert forall i :: 1 <= i < |actions| ==> actions[i] == rest[i - 1];
    }
  }

  /** The terminal status of any run is failed exactly when some preparation,
      encode task or commit of that run failed for real, or a committed result
      could not be stored -- whatever the coordinator happened to see first. */
  lemma FailureDecidesTheStatus(n: nat, window: nat, actions: seq<Action>, t: State)
    requires window >= 1 && Reaches(Start(n, window), actions, t) && t.pc.Done?
    ensures t.pc.status == SessionFailed <==>
              exists i :: 0 <= i < |actions| && (Faulty(actions[i]) || Unsaved(actions[i]))
  {
    hide Inv, Faulty, Unsaved;
    StartInv(n, window);
    HistoryRun(Start(n, window), actions, t);
    StatusTellsTheTruth(n, window, t);
  }
}
