/** What a cancellation does: every recorded stop cancels the shared context, the
    context is canceled for a reason only, and after it no unit commits any more. */
module SessionCancel {
  import Tracker
  import opened Session
  import opened SessionProof
  import opened SessionTheorems

  /** Past the first step of the teardown. */
  predicate PoolDown(pc: PC) {
    pc.ShutClose? || pc.ShutWait? || pc.Report? || pc.Discard?
  }

  /** What any step keeps about the shared context and the commits. */
  ghost predicate Heeds(s: State, t: State) {
    && (s.ctx ==> t.ctx)
    && (t.once == Finished ==> t.ctx || s.once == Finished)
    && (PoolDown(t.pc) ==> t.ctx || PoolDown(s.pc))
    && (t.done != s.done ==> t.done == s.done + 1 && s.pc.Commit?)
    && (t.pc.Commit? ==> s.pc.Commit? || !s.ctx)
  }

  lemma LookHeeds(s: State)
    requires s.pc.ReadStop? || s.pc.ReadCtx?
    ensures Heeds(s, LookNext(s))
  {
  }

  lemma FillHeeds(s: State, c: Choice)
    requires CoordEnabled(s, c) && s.pc.Fill?
    ensures Heeds(s, AdmitNext(s, c))
  {
    hide BusyOf, HasHead, InFlight;
  }

  lemma DeliverHeeds(s: State, c: Choice)
    requires CoordEnabled(s, c) && (s.pc.Deliver? || s.pc.Count?)
    ensures Heeds(s, AdmitNext(s, c))
  {
    hide BusyOf, HasHead;
  }

  lemma EndHeeds(s: State, c: Choice)
    requires CoordEnabled(s, c) && (s.pc.EndNormal? || s.pc.EndCut? || s.pc.PrepStore? || s.pc.PrepCancel?)
    ensures Heeds(s, AdmitNext(s, c))
  {
    hide BusyOf, HasHead;
  }

  lemma HeadHeeds(s: State, c: Choice)
    requires CoordEnabled(s, c)
    requires s.pc.Wait? || s.pc.Check? || s.pc.Commit? || s.pc.Persist? || s.pc.Settle? || s.pc.HeadStore? || s.pc.HeadCancel?
    ensures Heeds(s, HeadNext(s, c))
  {
    hide Resolve, BusyOf, InFlight;
  }

  lemma ShutHeeds(s: State)
    requires s.pc.ShutCancel? || s.pc.ShutClose? || s.pc.ShutWait?
    ensures Heeds(s, TeardownNext(s))
  {
    hide StopToReport, StatusOf, Resolve;
  }

  lemma ReportHeeds(s: State)
    requires s.pc.Report?
    ensures Heeds(s, TeardownNext(s))
  {
    hide StopToReport, StatusOf, Resolve;
  }

  lemma DiscardHeeds(s: State)
    requires s.pc.Discard? && (s.pc.at < |s.open| ==> s.open[s.pc.at] in s.fates)
    ensures Heeds(s, TeardownNext(s))
  {
    hide StopToReport, StatusOf, Resolve;
  }

  lemma CoordHeeds(s: State, c: Choice)
    requires CoordEnabled(s, c)
    ensures Heeds(s, CoordNext(s, c))
  {
    hide LookNext, AdmitNext, HeadNext, TeardownNext, Heeds;
    match s.pc
    case ReadStop(_) => LookHeeds(s);
    case ReadCtx(_) => LookHeeds(s);
    case Fill => FillHeeds(s, c);
    case Deliver(_) => DeliverHeeds(s, c);
    case Count(_) => DeliverHeeds(s, c);
    case EndNormal => EndHeeds(s, c);
    case EndCut => EndHeeds(s, c);
    case PrepStore(_) => EndHeeds(s, c);
    case PrepCancel(_) => EndHeeds(s, c);
    case Wait => HeadHeeds(s, c);
    case Check => HeadHeeds(s, c);
    case Commit => HeadHeeds(s, c);
    case Persist(_) => HeadHeeds(s, c);
    case Settle(_) => HeadHeeds(s, c);
    case HeadStore(_) => HeadHeeds(s, c);
    case HeadCancel(_) => HeadHeeds(s, c);
    case ShutCancel(_) => ShutHeeds(s);
    case ShutClose(_) => ShutHeeds(s);
    case ShutWait(_) => ShutHeeds(s);
    case Report(_) => ReportHeeds(s);
    case Discard(_, _, _) => DiscardHeeds(s);
    case Done(_) =>
  }

  lemma WorkerHeeds(s: State, a: Action)
    requires Enabled(s, a) && !a.Coord?
    ensures Heeds(s, Next(s, a))
  {
    hide CoordNext, CoordEnabled, BusyOf, AfterAccount, Tracker.Unit.TaskReturned;
  }

  lemma StepHeeds(s: State, a: Action)
    requires Enabled(s, a)
    ensures Heeds(s, Next(s, a))
  {
    hide Heeds, CoordNext, CoordEnabled, BusyOf;
    if a.Coord? { CoordHeeds(s, a.c); } else { WorkerHeeds(s, a); }
  }

  // ---------- over whole runs ----------

  lemma {:induction false} CommitsEnd(s: State, actions: seq<Action>, t: State)
    requires Reaches(s, actions, t) && s.ctx && !s.pc.Commit?
    ensures t.ctx && !t.pc.Commit? && t.done == s.done
    decreases actions
  {
    hide Next, Enabled;
    if actions != [] {
      StepHeeds(s, actions[0]);
      CommitsEnd(Next(s, actions[0]), actions[1..], t);
    }
  }

  lemma AfterCommit(s: State, a: Action)
    requires Enabled(s, a) && s.pc.Commit?
    ensures Next(s, a).pc.Commit? ==> Next(s, a).done == s.done
  {
    hide BusyOf, Resolve;
  }

  /** Once the context is canceled, no unit commits any more, except the one the
      coordinator is already committing. */
  lemma {:induction false} NoCommitAfterCancel(s: State, actions: seq<Action>, t: State)
    requires Reaches(s, actions, t) && s.ctx
    ensures s.done <= t.done <= s.done + 1 && (t.done == s.done + 1 ==> s.pc.Commit?)
    decreases actions
  {
    hide Next, Enabled;
    if !s.pc.Commit? {
      CommitsEnd(s, actions, t);
    } else if actions != [] {
      StepHeeds(s, actions[0]);
      AfterCommit(s, actions[0]);
      NoCommitAfterCancel(Next(s, actions[0]), actions[1..], t);
    }
  }

  ghost predicate Canceling(s: State) {
    && (s.once == Finished ==> s.ctx) && (PoolDown(s.pc) ==> s.ctx)
  }

  lemma {:induction false} CancelingRun(s: State, actions: seq<Action>, t: State)
    requires Reaches(s, actions, t) && Canceling(s)
    ensures Canceling(t)
    decreases actions
  {
    hide Next, Enabled;
    if actions != [] {
      StepHeeds(s, actions[0]);
      CancelingRun(Next(s, actions[0]), actions[1..], t);
    }
  }

  /** A stop that has been recorded cancels the shared context, so does a teardown
      before it closes the queue, and nothing else does but the user. */
  lemma StopsCancel(n: nat, window: nat, s: State)
    requires window >= 1 && Reachable(n, window, s)
    ensures s.once == Finished ==> s.ctx && s.stop.Some?
    ensures s.closed && !s.pc.Done? ==> s.ctx
    ensures s.ctx ==> s.user || s.stop.Some? || TearingDown(s.pc) || s.pc.Done?
  {
    ReachableInv(n, window, s);
    var actions :| Reaches(Start(n, window), actions, s);
    CancelingRun(Start(n, window), actions, s);
    CancelCause(s);
  }

  lemma CancelCause(s: State)
    requires Inv(s)
    ensures s.ctx ==> s.user || s.stop.Some? || TearingDown(s.pc) || s.pc.Done?
    ensures s.closed && !s.pc.Done? ==> PoolDown(s.pc)
    ensures s.once == Finished ==> s.stop.Some?
    ensures s.told.Some? ==> s.told == s.stop
  {
    hide Data, FailedTask, AllSettledOk, HeadOk;
  }

  /** Whatever the teardown told is the recorded stop, at every moment after. */
  lemma ToldIsRecorded(n: nat, window: nat, s: State)
    requires window >= 1 && Reachable(n, window, s) && s.told.Some?
    ensures s.told == s.stop
  {
    hide Inv;
    ReachableInv(n, window, s);
    CancelCause(s);
  }
}
