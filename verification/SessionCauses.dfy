/** Where every recorded stop comes from: the step of the run that failed, and
    the unit it failed on. */
module SessionCauses {
  import opened Prelude
  import Tracker
  import opened Session
  import opened SessionProof
  import opened SessionTheorems

  /** The run took this action in a state of which the given predicate holds. */
  ghost predicate Took(s: State, actions: seq<Action>, a: Action, when: State -> bool) {
    exists i, m :: 0 <= i < |actions| && actions[i] == a && Reaches(s, actions[..i], m) && when(m)
  }

  lemma TookFirst(s: State, actions: seq<Action>, when: State -> bool)
    requires actions != [] && when(s)
    ensures Took(s, actions, actions[0], when)
  {
    assert actions[..0] == [] && Reaches(s, actions[..0], s);
  }

  lemma TookLater(s: State, actions: seq<Action>, a: Action, when: State -> bool)
    requires actions != [] && Enabled(s, actions[0]) && Took(Next(s, actions[0]), actions[1..], a, when)
    ensures Took(s, actions, a, when)
  {
    var i, m :| 0 <= i < |actions[1..]| && actions[1..][i] == a && Reaches(Next(s, actions[0]), actions[1..][..i], m) && when(m);
    assert actions[..i + 1][0] == actions[0] && actions[..i + 1][1..] == actions[1..][..i];
    assert actions[i + 1] == a && Reaches(s, actions[..i + 1], m);
  }

  /** The stop a failed preparation records, and the one a failed commit does. */
  predicate FromPreparation(s: State, unit: nat, err: int) {
    s.stop == Some(Stop(unit, false, err, false))
  }

  predicate FromCommit(s: State, unit: nat, err: int) {
    s.stop == Some(Stop(unit, false, err, true))
  }

  /** The coordinator is about to record that stop. */
  predicate PreparationPending(s: State, unit: nat, err: int) {
    s.pc == PrepStore(err) && s.next == unit
  }

  predicate CommitPending(s: State, unit: nat, err: int) {
    (s.pc.Persist? || s.pc.Settle? || s.pc.HeadStore?) && s.pc.res.status == UnitFailed(err) && s.done == unit + 1
  }

  predicate CarriesResult(pc: PC) { pc.Persist? || pc.Settle? || pc.HeadStore? }

  /** The step neither records a stop nor is about to. */
  predicate Indifferent(s: State, t: State) {
    t.stop == s.stop && !t.pc.PrepStore? && !CarriesResult(t.pc)
  }

  /** Past an ended admission the coordinator prepares nothing. */
  predicate EndsOnly(s: State, t: State) {
    t.next == s.next && t.prep == s.prep && (TearingDown(t.pc) || t.pc.Done?)
  }

  lemma LookIndifferent(s: State)
    requires s.pc.ReadStop? || s.pc.ReadCtx?
    ensures Indifferent(s, LookNext(s))
  {
  }

  lemma DeliverIndifferent(s: State, c: Choice)
    requires CoordEnabled(s, c) && (s.pc.Deliver? || s.pc.Count?)
    ensures Indifferent(s, AdmitNext(s, c))
  {
    hide BusyOf, HasHead;
  }

  lemma EndIndifferent(s: State, c: Choice)
    requires CoordEnabled(s, c) && (s.pc.EndNormal? || s.pc.EndCut? || s.pc.PrepCancel?)
    ensures Indifferent(s, AdmitNext(s, c))
  {
    hide BusyOf, HasHead;
  }

  lemma ShutIndifferent(s: State)
    requires s.pc.ShutCancel? || s.pc.ShutClose? || s.pc.ShutWait?
    ensures Indifferent(s, TeardownNext(s)) && EndsOnly(s, TeardownNext(s))
  {
    hide StopToReport, StatusOf, Resolve;
  }

  lemma ReportIndifferent(s: State)
    requires s.pc.Report?
    ensures Indifferent(s, TeardownNext(s)) && EndsOnly(s, TeardownNext(s))
  {
    hide StopToReport, StatusOf, Resolve;
  }

  lemma DiscardIndifferent(s: State)
    requires s.pc.Discard? && (s.pc.at < |s.open| ==> s.open[s.pc.at] in s.fates)
    ensures Indifferent(s, TeardownNext(s)) && EndsOnly(s, TeardownNext(s))
  {
    hide StopToReport, StatusOf, Resolve;
  }

  lemma HeadIndifferent(s: State, c: Choice)
    requires CoordEnabled(s, c) && (s.pc.Wait? || s.pc.Check? || s.pc.HeadCancel?)
    ensures Indifferent(s, HeadNext(s, c))
  {
  }

  lemma OpenOrigin(s: State, c: Choice)
    requires CoordEnabled(s, c) && s.pc.Fill? && |s.open| < s.window && s.next < s.n && c.r.PrepOk?
    ensures var t := AdmitNext(s, c); t.stop == s.stop && !CarriesResult(t.pc) && !t.pc.PrepStore?
  {
    hide BusyOf, HasHead, InFlight;
  }

  lemma NoOpenOrigin(s: State, c: Choice)
    requires CoordEnabled(s, c) && s.pc.Fill? && !(|s.open| < s.window && s.next < s.n && c.r.PrepOk?)
    ensures var t := AdmitNext(s, c);
      && t.stop == s.stop && !CarriesResult(t.pc)
      && (t.pc.PrepStore? ==> c == Prepared(PrepFailed(t.pc.code)) && t.next == s.next)
  {
    hide BusyOf, HasHead, InFlight;
  }

  lemma FillOrigin(s: State, c: Choice)
    requires CoordEnabled(s, c) && s.pc.Fill?
    ensures var t := AdmitNext(s, c);
      && t.stop == s.stop && !CarriesResult(t.pc)
      && (t.pc.PrepStore? ==> c == Prepared(PrepFailed(t.pc.code)) && t.next == s.next)
  {
    hide AdmitNext;
    if |s.open| < s.window && s.next < s.n && c.r.PrepOk? { OpenOrigin(s, c); } else { NoOpenOrigin(s, c); }
  }

  lemma PrepStoreOrigin(s: State, c: Choice)
    requires CoordEnabled(s, c) && s.pc.PrepStore?
    ensures var t := AdmitNext(s, c);
      && !t.pc.PrepStore? && !CarriesResult(t.pc)
      && (t.stop == s.stop || t.stop == Some(Stop(s.next, false, s.pc.code, false)))
  {
  }

  lemma HeadOrigin(s: State, c: Choice)
    requires CoordEnabled(s, c) && (s.pc.Commit? || s.pc.Persist? || s.pc.Settle?)
    ensures var t := HeadNext(s, c);
      && t.stop == s.stop && !t.pc.PrepStore?
      && (CarriesResult(t.pc) ==>
            if s.pc.Commit? then c == Committing(t.pc.res) && t.done == s.done + 1 else t.pc.res == s.pc.res && t.done == s.done)
  {
  }

  lemma HeadStoreOrigin(s: State, c: Choice)
    requires CoordEnabled(s, c) && s.pc.HeadStore? && s.pc.res.status.UnitFailed?
    ensures var t := HeadNext(s, c);
      && !t.pc.PrepStore? && !CarriesResult(t.pc)
      && (t.stop == s.stop || t.stop == Some(Stop(s.done - 1, false, s.pc.res.status.code, true)))
  {
  }

  /** A recorded preparation or commit stop was there, or pending; and what is
      pending was pending, or has failed in this very step. */
  ghost predicate Traced(s: State, c: Choice, t: State) {
    && (t.stop == s.stop || (t.stop.Some? && !t.stop.value.open))
    && (forall unit, err :: FromPreparation(t, unit, err) ==> FromPreparation(s, unit, err) || PreparationPending(s, unit, err))
    && (forall unit, err :: PreparationPending(t, unit, err) ==> c == Prepared(PrepFailed(err)) && s.pc.Fill? && s.next == unit)
    && (forall unit, err :: FromCommit(t, unit, err) ==> FromCommit(s, unit, err) || CommitPending(s, unit, err))
    && (forall unit, err :: CommitPending(t, unit, err) ==>
          CommitPending(s, unit, err) || (c.Committing? && c.res.status == UnitFailed(err) && s.pc.Commit? && s.done == unit))
  }

  lemma CoordTraced(s: State, c: Choice)
    requires CoordEnabled(s, c) && (s.pc.HeadStore? ==> s.pc.res.status.UnitFailed?)
    ensures Traced(s, c, CoordNext(s, c))
  {
    hide LookNext, AdmitNext, HeadNext, TeardownNext;
    match s.pc
    case ReadStop(_) => LookIndifferent(s);
    case ReadCtx(_) => LookIndifferent(s);
    case Fill => FillOrigin(s, c);
    case PrepStore(_) => PrepStoreOrigin(s, c);
    case Deliver(_) => DeliverIndifferent(s, c);
    case Count(_) => DeliverIndifferent(s, c);
    case EndNormal => EndIndifferent(s, c);
    case EndCut => EndIndifferent(s, c);
    case PrepCancel(_) => EndIndifferent(s, c);
    case Wait => HeadIndifferent(s, c);
    case Check => HeadIndifferent(s, c);
    case HeadCancel(_) => HeadIndifferent(s, c);
    case Commit => HeadOrigin(s, c);
    case Persist(_) => HeadOrigin(s, c);
    case Settle(_) => HeadOrigin(s, c);
    case HeadStore(_) => HeadStoreOrigin(s, c);
    case ShutCancel(_) => ShutIndifferent(s);
    case ShutClose(_) => ShutIndifferent(s);
    case ShutWait(_) => ShutIndifferent(s);
    case Report(_) => ReportIndifferent(s);
    case Discard(_, _, _) => DiscardIndifferent(s);
    case Done(_) =>
  }

  /** A worker records stops of tasks only. */
  lemma WorkerTraced(s: State, a: Action)
    requires Enabled(s, a) && !a.Coord?
    ensures var t := Next(s, a);
      && t.pc == s.pc && t.next == s.next && t.done == s.done
      && (t.stop == s.stop || (t.stop.Some? && t.stop.value.open && !t.stop.value.reported))
  {
    hide CoordNext, CoordEnabled, BusyOf, AfterAccount, Tracker.Unit.TaskReturned;
  }

  /** A result on its way to being stored as a stop is that of a failed commit. */
  lemma StoredFailed(s: State)
    requires Inv(s) && s.pc.HeadStore?
    ensures s.pc.res.status.UnitFailed?
  {
    hide Data, Base;
  }

  // ---------- over whole runs ----------

  ghost predicate PreparationFailed(s: State, actions: seq<Action>, unit: nat, err: int) {
    Took(s, actions, Coord(Prepared(PrepFailed(err))), (m: State) => m.pc.Fill? && m.next == unit)
  }

  ghost predicate CommitFailed(s: State, actions: seq<Action>, unit: nat, err: int) {
    exists res: CommitResult :: res.status == UnitFailed(err) && Took(s, actions, Coord(Committing(res)), (m: State) => m.pc.Commit? && m.done == unit)
  }

  lemma {:induction false} PreparationOrigin(s: State, actions: seq<Action>, t: State, unit: nat, err: int)
    requires Inv(s) && Reaches(s, actions, t)
    requires FromPreparation(t, unit, err) || PreparationPending(t, unit, err)
    ensures FromPreparation(s, unit, err) || PreparationPending(s, unit, err) || PreparationFailed(s, actions, unit, err)
    decreases actions
  {
    hide Inv, CoordNext, Traced;
    if actions != [] {
      var a, m := actions[0], Next(s, actions[0]);
      StepInv(s, a);
      PreparationOrigin(m, actions[1..], t, unit, err);
      var when := (m: State) => m.pc.Fill? && m.next == unit;
      if PreparationFailed(m, actions[1..], unit, err) {
        TookLater(s, actions, Coord(Prepared(PrepFailed(err))), when);
      } else {
        StepTraced(s, a);
        PreparationStep(s, a, unit, err);
        if a == Coord(Prepared(PrepFailed(err))) && when(s) { TookFirst(s, actions, when); }
      }
    }
  }

  lemma StepTraced(s: State, a: Action)
    requires Inv(s) && Enabled(s, a)
    ensures a.Coord? ==> Traced(s, a.c, Next(s, a))
  {
    hide Inv, CoordNext, Traced;
    if a.Coord? {
      if s.pc.HeadStore? { StoredFailed(s); }
      CoordTraced(s, a.c);
    }
  }

  lemma PreparationStep(s: State, a: Action, unit: nat, err: int)
    requires Enabled(s, a) && (a.Coord? ==> Traced(s, a.c, Next(s, a)))
    requires FromPreparation(Next(s, a), unit, err) || PreparationPending(Next(s, a), unit, err)
    ensures FromPreparation(s, unit, err) || PreparationPending(s, unit, err) || (a == Coord(Prepared(PrepFailed(err))) && s.pc.Fill? && s.next == unit)
  {
    hide CoordNext, CoordEnabled, BusyOf, Next;
    if !a.Coord? { WorkerTraced(s, a); }
  }

  lemma {:induction false} CommitOrigin(s: State, actions: seq<Action>, t: State, unit: nat, err: int)
    requires Inv(s) && Reaches(s, actions, t)
    requires FromCommit(t, unit, err) || CommitPending(t, unit, err)
    ensures FromCommit(s, unit, err) || CommitPending(s, unit, err) || CommitFailed(s, actions, unit, err)
    decreases actions
  {
    hide Inv, CoordNext, Traced;
    if actions != [] {
      var a, m := actions[0], Next(s, actions[0]);
      StepInv(s, a);
      CommitOrigin(m, actions[1..], t, unit, err);
      var when := (m: State) => m.pc.Commit? && m.done == unit;
      if CommitFailed(m, actions[1..], unit, err) {
        var res: CommitResult :| res.status == UnitFailed(err) && Took(m, actions[1..], Coord(Committing(res)), when);
        TookLater(s, actions, Coord(Committing(res)), when);
      } else {
        StepTraced(s, a);
        CommitStep(s, a, unit, err);
        if a.Coord? && a.c.Committing? && a.c.res.status == UnitFailed(err) && when(s) { TookFirst(s, actions, when); }
      }
    }
  }

  lemma CommitStep(s: State, a: Action, unit: nat, err: int)
    requires Enabled(s, a) && (a.Coord? ==> Traced(s, a.c, Next(s, a)))
    requires FromCommit(Next(s, a), unit, err) || CommitPending(Next(s, a), unit, err)
    ensures FromCommit(s, unit, err) || CommitPending(s, unit, err)
      || (a.Coord? && a.c.Committing? && a.c.res.status == UnitFailed(err) && s.pc.Commit? && s.done == unit)
  {
    hide CoordNext, CoordEnabled, BusyOf, Next;
    if !a.Coord? { WorkerTraced(s, a); }
  }

  /** The unit of a preparation stop was never prepared, and none is any more. */
  ghost predicate NeverPrepared(s: State) {
    s.stop.Some? && !s.stop.value.open && !s.stop.value.reported ==>
      s.stop.value.unit == s.next == s.prep && (s.pc.PrepCancel? || TearingDown(s.pc) || s.pc.Done?)
  }

  lemma NeverPreparedStep(s: State, a: Action)
    requires Inv(s) && Enabled(s, a) && NeverPrepared(s)
    ensures NeverPrepared(Next(s, a))
  {
    hide Data, CoordNext;
    if a.Coord? { NeverPreparedCoord(s, a.c); } else { WorkerTraced(s, a); WorkerKeepsPrep(s, a); }
  }

  lemma WorkerKeepsPrep(s: State, a: Action)
    requires Enabled(s, a) && !a.Coord?
    ensures Next(s, a).prep == s.prep
  {
    hide CoordNext, CoordEnabled, BusyOf, AfterAccount, Tracker.Unit.TaskReturned;
  }

  lemma NeverPreparedCoord(s: State, c: Choice)
    requires Inv(s) && CoordEnabled(s, c) && NeverPrepared(s)
    ensures NeverPrepared(CoordNext(s, c))
  {
    hide Data, LookNext, HeadNext, TeardownNext, BusyOf, HasHead;
    if s.pc.ReadStop? || s.pc.ReadCtx? {
      LookIndifferent(s);
    } else if s.pc.Report? {
      ReportIndifferent(s);
    } else if s.pc.Discard? {
      DiscardIndifferent(s);
    } else if TearingDown(s.pc) {
      ShutIndifferent(s);
    } else if s.pc.PrepStore? || s.pc.PrepCancel? {
      hide At;
      PrepNeverPrepared(s, c);
    } else if s.pc.Fill? {
      FillOrigin(s, c);
    } else if s.pc.Deliver? || s.pc.Count? {
      DeliverIndifferent(s, c);
    } else if s.pc.EndNormal? || s.pc.EndCut? {
      EndIndifferent(s, c);
    } else {
      HeadNoPreparation(s, c);
    }
  }

  lemma PrepNeverPrepared(s: State, c: Choice)
    requires Inv(s) && CoordEnabled(s, c) && NeverPrepared(s) && (s.pc.PrepStore? || s.pc.PrepCancel?)
    ensures NeverPrepared(AdmitNext(s, c))
  {
    hide Data, BusyOf;
  }

  lemma HeadNoPreparation(s: State, c: Choice)
    requires CoordEnabled(s, c) && (s.pc.HeadStore? ==> s.pc.res.status.UnitFailed?) && (s.stop.Some? ==> s.stop.value.open || s.stop.value.reported)
    requires s.pc.Wait? || s.pc.Check? || s.pc.Commit? || s.pc.Persist? || s.pc.Settle? || s.pc.HeadStore? || s.pc.HeadCancel?
    ensures var t := HeadNext(s, c); t.stop.Some? ==> t.stop.value.open || t.stop.value.reported
  {
    hide Resolve;
  }

  lemma {:induction false} NeverPreparedRun(s: State, actions: seq<Action>, t: State)
    requires Inv(s) && NeverPrepared(s) && Reaches(s, actions, t)
    ensures NeverPrepared(t)
    decreases actions
  {
    hide Inv, Next, Enabled, NeverPrepared;
    if actions != [] {
      StepInv(s, actions[0]);
      NeverPreparedStep(s, actions[0]);
      NeverPreparedRun(Next(s, actions[0]), actions[1..], t);
    }
  }

  /** A stop that names no open unit and was not reported by a commit is the
      failed preparation of the very unit it names, which was next in the
      worklist and never prepared. */
  lemma PreparationStopIsReal(n: nat, window: nat, actions: seq<Action>, t: State)
    requires window >= 1 && Reaches(Start(n, window), actions, t)
    requires t.stop.Some? && !t.stop.value.open && !t.stop.value.reported
    ensures PreparationFailed(Start(n, window), actions, t.stop.value.unit, t.stop.value.err)
    ensures t.stop.value.unit !in t.units && t.stop.value.unit == t.next
  {
    hide Inv;
    var stop := t.stop.value;
    StartInv(n, window);
    RunInv(Start(n, window), actions, t);
    PreparationOrigin(Start(n, window), actions, t, stop.unit, stop.err);
    NeverPreparedRun(Start(n, window), actions, t);
    KnownUnits(t);
  }

  lemma KnownUnits(s: State)
    requires Inv(s)
    ensures forall u: nat :: u in s.units <==> u < s.prep
  {
  }

  lemma {:induction false} ReportedRun(s: State, actions: seq<Action>, t: State)
    requires Inv(s) && Reaches(s, actions, t) && (s.stop.Some? ==> !(s.stop.value.open && s.stop.value.reported))
    ensures t.stop.Some? ==> !(t.stop.value.open && t.stop.value.reported)
    decreases actions
  {
    hide Inv, CoordNext, CoordEnabled;
    if actions != [] {
      StepInv(s, actions[0]);
      StepTraced(s, actions[0]);
      if !actions[0].Coord? { WorkerTraced(s, actions[0]); }
      hide Next;
      ReportedRun(Next(s, actions[0]), actions[1..], t);
    }
  }

  /** A stop a commit reported is the failed commit of the very unit it names. */
  lemma CommitStopIsReal(n: nat, window: nat, actions: seq<Action>, t: State)
    requires window >= 1 && Reaches(Start(n, window), actions, t)
    requires t.stop.Some? && t.stop.value.reported
    ensures !t.stop.value.open && CommitFailed(Start(n, window), actions, t.stop.value.unit, t.stop.value.err)
  {
    hide Inv;
    StartInv(n, window);
    ReportedRun(Start(n, window), actions, t);
    CommitOrigin(Start(n, window), actions, t, t.stop.value.unit, t.stop.value.err);
  }
}
