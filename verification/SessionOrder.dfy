/** The pool works in the order of the worklist. */
module SessionOrder {
  import Tracker
  import opened Session
  import opened SessionProof
  import opened SessionTheorems

  /** By unit, then by task. */
  predicate Before(a: Job, b: Job) {
    a.unit < b.unit || (a.unit == b.unit && a.task < b.task)
  }

  /** The queue ascends, and what has been taken from it came before what waits. */
  ghost predicate Ordered(queue: seq<Job>, life: map<Job, Phase>) {
    && (forall i, k :: 0 <= i < k < |queue| ==> Before(queue[i], queue[k]))
    && (forall q, j :: q in queue && j in life && !life[j].Queued? ==> Before(j, q))
  }

  lemma NewestJob(s: State, j: Job)
    requires Inv(s) && s.pc.Deliver? && s.prep > 0 && j in s.life
    ensures Before(j, Job(s.prep - 1, s.pc.k))
  {
    hide QueueP, UnitsP, ProgressP, OnceP, CauseP, OpenP, FatesP, BusyOf;
  }

  lemma Sent(queue: seq<Job>, life: map<Job, Phase>, n: Job)
    requires Ordered(queue, life) && (forall j :: j in queue ==> j in life) && forall j :: j in life ==> Before(j, n)
    ensures Ordered(queue + [n], life[n := Queued])
  {
    forall i, k | 0 <= i < k < |queue + [n]| ensures Before((queue + [n])[i], (queue + [n])[k]) {
      assert queue[i] in queue;
    }
  }

  lemma Taken(queue: seq<Job>, life: map<Job, Phase>)
    requires queue != [] && Ordered(queue, life)
    ensures Ordered(queue[1..], life[queue[0] := Held])
  {
    forall q, j | q in queue[1..] && j in life[queue[0] := Held] && !life[queue[0] := Held][j].Queued? ensures Before(j, q) {
      var k :| 0 <= k < |queue[1..]| && queue[1..][k] == q;
      assert Before(queue[0], queue[k + 1]);
    }
  }

  /** A step that changes only the phase of a task that had left the queue. */
  lemma Moved(queue: seq<Job>, life: map<Job, Phase>, j: Job, p: Phase)
    requires Ordered(queue, life) && j in life && !life[j].Queued?
    ensures Ordered(queue, life[j := p])
  {
  }

  lemma QueuedIsKnown(s: State)
    requires Inv(s)
    ensures forall j :: j in s.queue ==> j in s.life
  {
    hide UnitsP, ProgressP, OnceP, CauseP, OpenP, FatesP, BusyOf, JobsP;
  }

  lemma OrderStep(s: State, a: Action)
    requires Inv(s) && Enabled(s, a) && Ordered(s.queue, s.life)
    ensures Ordered(Next(s, a).queue, Next(s, a).life)
  {
    hide Data, At, CoordEnabled, CoordNext, Ordered;
    QueuedIsKnown(s);
    if a.Coord? {
      CoordOrders(s, a.c);
    } else if a == Take {
      Taken(s.queue, s.life);
    } else if !a.UserCancel? {
      Moved(s.queue, s.life, a.j, Next(s, a).life[a.j]);
    }
  }

  lemma CoordOrders(s: State, c: Choice)
    requires Inv(s) && CoordEnabled(s, c) && Ordered(s.queue, s.life) && forall j :: j in s.queue ==> j in s.life
    ensures Ordered(CoordNext(s, c).queue, CoordNext(s, c).life)
  {
    hide Data, At, Ordered, LookNext, HeadNext, TeardownNext;
    if s.pc.Deliver? && c == Send {
      forall j | j in s.life ensures Before(j, Job(s.prep - 1, s.pc.k)) { NewestJob(s, j); }
      Sent(s.queue, s.life, Job(s.prep - 1, s.pc.k));
    } else {
      CoordLeaves(s, c);
    }
  }

  /** The queue and the places of the tasks are as they were. */
  predicate Leaves(s: State, t: State) { t.queue == s.queue && t.life == s.life }

  lemma LookLeaves(s: State)
    requires s.pc.ReadStop? || s.pc.ReadCtx?
    ensures Leaves(s, LookNext(s))
  {
  }

  lemma FillLeaves(s: State, c: Choice)
    requires CoordEnabled(s, c) && s.pc.Fill?
    ensures Leaves(s, AdmitNext(s, c))
  {
  }

  lemma CountLeaves(s: State, c: Choice)
    requires CoordEnabled(s, c) && (s.pc.Count? || (s.pc.Deliver? && c != Send))
    ensures Leaves(s, AdmitNext(s, c))
  {
  }

  lemma EndLeaves(s: State, c: Choice)
    requires CoordEnabled(s, c) && (s.pc.EndNormal? || s.pc.EndCut?)
    ensures Leaves(s, AdmitNext(s, c))
  {
    hide Tracker.Unit.EndDelivery;
  }

  lemma PrepLeaves(s: State, c: Choice)
    requires CoordEnabled(s, c) && (s.pc.PrepStore? || s.pc.PrepCancel?)
    ensures Leaves(s, AdmitNext(s, c))
  {
  }

  lemma HeadLeaves(s: State, c: Choice)
    requires CoordEnabled(s, c) && (s.pc.Wait? || s.pc.Check? || s.pc.Commit? || s.pc.Persist?)
    ensures Leaves(s, HeadNext(s, c))
  {
    hide Resolve;
  }

  lemma SettleLeaves(s: State, c: Choice)
    requires CoordEnabled(s, c) && (s.pc.Settle? || s.pc.HeadStore? || s.pc.HeadCancel?)
    ensures Leaves(s, HeadNext(s, c))
  {
  }

  lemma TeardownLeaves(s: State)
    requires TearingDown(s.pc) && (s.pc.Discard? ==> s.pc.at < |s.open| ==> s.open[s.pc.at] in s.fates)
    ensures Leaves(s, TeardownNext(s))
  {
    hide StopToReport, StatusOf, Resolve;
    match s.pc
    case ShutCancel(_) =>
    case ShutClose(_) =>
    case ShutWait(_) =>
    case Report(_) =>
    case Discard(_, _, _) =>
  }

  /** Only sending a task touches the queue or the places of the tasks. */
  lemma CoordLeaves(s: State, c: Choice)
    requires CoordEnabled(s, c) && !(s.pc.Deliver? && c == Send)
    ensures Leaves(s, CoordNext(s, c))
  {
    hide LookNext, AdmitNext, HeadNext, TeardownNext, Leaves;
    if s.pc.ReadStop? || s.pc.ReadCtx? {
      LookLeaves(s);
    } else if s.pc.Fill? {
      FillLeaves(s, c);
    } else if s.pc.Count? || s.pc.Deliver? {
      CountLeaves(s, c);
    } else if s.pc.EndNormal? || s.pc.EndCut? {
      EndLeaves(s, c);
    } else if Admitting(s.pc) {
      PrepLeaves(s, c);
    } else if TearingDown(s.pc) {
      TeardownLeaves(s);
    } else if s.pc.Settle? || s.pc.HeadStore? || s.pc.HeadCancel? {
      SettleLeaves(s, c);
    } else if !s.pc.Done? {
      HeadLeaves(s, c);
    }
  }

  lemma {:induction false} OrderRun(s: State, actions: seq<Action>, t: State)
    requires Inv(s) && Ordered(s.queue, s.life) && Reaches(s, actions, t)
    ensures Ordered(t.queue, t.life)
    decreases actions
  {
    hide Inv, Next, Enabled, Ordered;
    if actions != [] {
      StepInv(s, actions[0]);
      OrderStep(s, actions[0]);
      OrderRun(Next(s, actions[0]), actions[1..], t);
    }
  }

  /** Whatever the interleaving, tasks enter and leave the queue in the order of the
      worklist: no task is taken up before one of an earlier unit, or an earlier one
      of its own. */
  lemma FrozenOrder(n: nat, window: nat, actions: seq<Action>, t: State)
    requires window >= 1 && Reaches(Start(n, window), actions, t)
    ensures forall i, k :: 0 <= i < k < |t.queue| ==> Before(t.queue[i], t.queue[k])
    ensures forall q, j :: q in t.queue && j in t.life && t.life[j] != Queued ==> Before(j, q)
  {
    hide Inv, Next, Enabled;
    StartInv(n, window);
    OrderRun(Start(n, window), actions, t);
  }
}
