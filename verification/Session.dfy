/** The concurrent session protocol: one coordinator, a pool of workers, and the
    user. A state holds every shared variable, the coordinator's program point
    and the place of every delivered task; an action is one atomic step of one
    participant. Reading a stop takes two steps, and recording one takes two, so
    every interleaving of those reads and writes is a run of this machine. */
module Session {
  import opened Prelude
  import opened Tracker

  datatype Job = Job(unit: nat, task: nat)

  /** Where one delivered task is. `Held` is inside EncodeTask; `Returned` came
      back but is not counted yet; `Accounted` is a counted real failure whose
      worker has not asked for a stop yet; `Storing` holds the once. */
  datatype Phase = Queued | Held | Returned(o: Outcome) | Accounted(o: Outcome) | Storing(o: Outcome) | Settled(o: Outcome)
  {
    predicate Busy() { Held? || Returned? || Accounted? || Storing? }
    predicate Counted() { Accounted? || Storing? || Settled? }
    predicate FailedForReal() { !Queued? && !Held? && o.Failed? }
    function Rank(): nat {
      match this
      case Queued => 5
      case Held => 4
      case Returned(_) => 3
      case Accounted(_) => 2
      case Storing(_) => 1
      case Settled(_) => 0
    }
  }

  /** A recorded real failure. `open`: one of the unit's encode tasks failed;
      `reported`: the unit's commit already reported itself. */
  datatype Stop = Stop(unit: nat, open: bool, err: int, reported: bool)
  datatype Once = Fresh | Running | Finished

  datatype UnitStatus = UnitSucceeded | UnitFailed(code: int) | UnitCanceled
  datatype CommitResult = CommitResult(status: UnitStatus, sessionError: bool)
  datatype PrepResult = PrepOk(tasks: nat) | PrepStopped | PrepFailed(code: int)
  datatype Status = Succeeded | SessionFailed | SessionCanceled
  datatype Fate = Committed | Discarded

  /** Where the coordinator checks for a pending stop. */
  datatype Site = Top | AfterWait | Admission | Boundary(res: CommitResult) | Cut

  /** Why the pool shuts down; an observed `None` is the user's cancellation. */
  datatype Ending = Observed(stop: Option<Stop>) | AfterHead(status: Status) | Completed

  datatype PC =
    | ReadStop(site: Site) | ReadCtx(site: Site)
    | Fill | Deliver(k: nat) | Count(k: nat) | EndNormal | EndCut
    | PrepStore(code: int) | PrepCancel(code: int)
    | Wait | Check | Commit
    | Persist(res: CommitResult) | Settle(res: CommitResult)
    | HeadStore(res: CommitResult) | HeadCancel(res: CommitResult)
    | ShutCancel(end: Ending) | ShutClose(end: Ending) | ShutWait(end: Ending)
    | Report(end: Ending)
    | Discard(at: nat, except: Option<nat>, status: Status)
    | Done(status: Status)

  datatype State = State(
    n: nat, window: nat,                // worklist length; window = workers = queue capacity
    done: nat, next: nat, prep: nat,    // heads committed, worklist cursor, units prepared
    open: seq<nat>, units: map<nat, Unit>,
    queue: seq<Job>, closed: bool, life: map<Job, Phase>,
    ctx: bool, user: bool,              // shared context canceled; by the user
    once: Once, stop: Option<Stop>,
    pc: PC,
    fates: map<nat, seq<Fate>>,         // history: how each prepared unit was resolved
    broken: bool,                       // history: something failed for real
    unsaved: bool,                      // history: a committed result could not be stored
    told: Option<Stop>)                 // history: the failure the teardown reported

  datatype Choice = Go | Prepared(r: PrepResult) | Send | CutShort | Committing(res: CommitResult) | Wrote(ok: bool)

  datatype Action =
    | Coord(c: Choice)
    | Take | Finish(j: Job, o: Outcome) | Account(j: Job) | Record(j: Job) | CancelBy(j: Job)
    | UserCancel

  function Start(n: nat, window: nat): State {
    State(n, window, 0, 0, 0, [], map[], [], false, map[], false, false, Fresh, None,
          if n == 0 then Done(Succeeded) else ReadStop(Top), map[], false, false, None)
  }

  predicate HasHead(s: State) {
    |s.open| > 0 && s.open[0] in s.units && s.open[0] in s.fates
  }

  predicate InFlight(s: State) {
    s.prep > 0 && s.prep - 1 in s.units
  }

  /** The tasks a worker has in hand. */
  function BusyOf(life: map<Job, Phase>): set<Job> {
    set j | j in life && life[j].Busy()
  }

  predicate CoordEnabled(s: State, c: Choice) {
    match s.pc
    case Fill =>
      if |s.open| < s.window && s.next < s.n
      then c.Prepared? && (c.r == PrepStopped ==> s.ctx)
      else c == Go
    case Deliver(_) =>
      InFlight(s) && ((c == Send && |s.queue| < s.window && !s.closed) || (c == CutShort && s.ctx))
    case Count(_) => c == Go && InFlight(s)
    case EndNormal => c == Go && InFlight(s)
    case EndCut => c == Go && InFlight(s)
    case PrepStore(_) => c == Go && s.once != Running
    case HeadStore(_) => c == Go && s.once != Running && s.done > 0
    case HeadCancel(_) => c == Go && s.done > 0
    case Wait => c == Go && HasHead(s) && (s.units[s.open[0]].sealed || s.ctx)
    case Check => c == Go && HasHead(s)
    case Commit => HasHead(s) && c.Committing? && (c.res.status == UnitCanceled ==> s.ctx)
    case Persist(_) => c.Wrote?
    case ShutWait(_) => c == Go && s.queue == [] && BusyOf(s.life) == {}
    case Report(_) => c == Go
    case Discard(at, _, _) => c == Go && (at < |s.open| ==> s.open[at] in s.fates)
    case Done(_) => false
    case _ => c == Go
  }

  predicate Enabled(s: State, a: Action) {
    match a
    case Coord(c) => CoordEnabled(s, c)
    case Take => s.queue != [] && |BusyOf(s.life)| < s.window
    case Finish(j, o) => j in s.life && s.life[j].Held? && (o == Stopped ==> s.ctx)
    case Account(j) => j in s.life && s.life[j].Returned? && j.unit in s.units
    case Record(j) => j in s.life && s.life[j].Accounted? && s.life[j].o.Failed? && s.once != Running
    case CancelBy(j) => j in s.life && s.life[j].Storing?
    case UserCancel => !s.user && !s.pc.Done?
  }

  function Resolve(fates: map<nat, seq<Fate>>, u: nat, f: Fate): map<nat, seq<Fate>>
    requires u in fates
  {
    fates[u := fates[u] + [f]]
  }

  function Continue(s: State, site: Site): PC {
    match site
    case Top => Fill
    case AfterWait => Check
    case Admission => Commit
    case Cut => ShutCancel(Observed(None))
    case Boundary(res) =>
      if res.status == UnitCanceled then ShutCancel(AfterHead(SessionCanceled))
      else if s.done == s.n then ShutCancel(Completed)
      else ReadStop(Top)
  }

  /** Admission: opening units and delivering their tasks. */
  predicate Admitting(pc: PC) {
    pc.Fill? || pc.Deliver? || pc.Count? || pc.EndNormal? || pc.EndCut? || pc.PrepStore? || pc.PrepCancel?
  }

  /** Teardown: shutting the pool down, reporting and discarding. */
  predicate TearingDown(pc: PC) {
    pc.ShutCancel? || pc.ShutClose? || pc.ShutWait? || pc.Report? || pc.Discard?
  }

  function CoordNext(s: State, c: Choice): State
    requires CoordEnabled(s, c)
  {
    if s.pc.ReadStop? || s.pc.ReadCtx? then LookNext(s)
    else if Admitting(s.pc) then AdmitNext(s, c)
    else if TearingDown(s.pc) then TeardownNext(s)
    else HeadNext(s, c)
  }

  function LookNext(s: State): State
    requires s.pc.ReadStop? || s.pc.ReadCtx?
  {
    match s.pc
    case ReadStop(site) =>
      s.(pc := if s.stop.Some? then ShutCancel(Observed(s.stop)) else ReadCtx(site))
    case ReadCtx(site) =>
      s.(pc := if s.ctx then ShutCancel(Observed(None)) else Continue(s, site))
  }

  function AdmitNext(s: State, c: Choice): State
    requires CoordEnabled(s, c) && Admitting(s.pc)
  {
    match s.pc
    case Fill =>
      var room := |s.open| < s.window && s.next < s.n;
      if room && c.r.PrepOk? then
        s.(prep := s.prep + 1, open := s.open + [s.prep],
           units := s.units[s.prep := Opened(c.r.tasks)], fates := s.fates[s.prep := []],
           pc := if c.r.tasks == 0 then EndNormal else Deliver(0))
      else
        s.(broken := s.broken || (room && c.r.PrepFailed?),
           pc := if !room then Wait
                 else if c.r.PrepFailed? then PrepStore(c.r.code)
                 else ShutCancel(Observed(None)))
    case PrepStore(code) =>
      var stop := Stop(s.next, false, code, false);
      var first := s.once == Fresh;
      s.(once := if first then Running else s.once,
         stop := if first then Some(stop) else s.stop,
         pc := if first then PrepCancel(code) else ShutCancel(Observed(Some(stop))))
    case PrepCancel(code) =>
      s.(ctx := true, once := Finished, pc := ShutCancel(Observed(Some(Stop(s.next, false, code, false)))))
    case Deliver(k) =>
      if c == Send then
        var j := Job(s.prep - 1, k);
        s.(queue := s.queue + [j], life := s.life[j := Queued], pc := Count(k))
      else s.(pc := EndCut)
    case Count(k) =>
      var u := s.prep - 1;
      s.(units := s.units[u := s.units[u].TaskDelivered()],
         pc := if k + 1 >= s.units[u].expected then EndNormal else Deliver(k + 1))
    case EndNormal =>
      var u := s.prep - 1;
      s.(units := s.units[u := s.units[u].EndDelivery()], next := s.next + 1, pc := Fill)
    case EndCut =>
      var u := s.prep - 1;
      s.(units := s.units[u := s.units[u].EndDelivery()], pc := ReadStop(Cut))
  }

  function HeadNext(s: State, c: Choice): State
    requires CoordEnabled(s, c)
    requires !s.pc.ReadStop? && !s.pc.ReadCtx? && !Admitting(s.pc) && !TearingDown(s.pc)
  {
    match s.pc
    case Wait => s.(pc := ReadStop(AfterWait))
    case Check =>
      s.(pc := if s.units[s.open[0]].Committable() then ReadStop(Admission) else ShutCancel(Observed(None)))
    case Commit =>
      s.(fates := Resolve(s.fates, s.open[0], Committed),
         done := s.done + 1, open := s.open[1..], pc := Persist(c.res),
         broken := s.broken || c.res.status.UnitFailed? || c.res.sessionError)
    case Persist(res) =>
      s.(unsaved := s.unsaved || !c.ok,
         pc := if c.ok then Settle(res) else ShutCancel(AfterHead(SessionFailed)))
    case Settle(res) =>
      s.(pc := if res.status.UnitFailed? then HeadStore(res)
               else if res.sessionError then ShutCancel(AfterHead(SessionFailed))
               else ReadStop(Boundary(res)))
    case HeadStore(res) =>
      var first := s.once == Fresh;
      var code := if res.status.UnitFailed? then res.status.code else 0;
      s.(once := if first then Running else s.once,
         stop := if first then Some(Stop(s.done - 1, false, code, true)) else s.stop,
         pc := if first then HeadCancel(res) else ReadStop(Boundary(res)))
    case HeadCancel(res) => s.(ctx := true, once := Finished, pc := ReadStop(Boundary(res)))
  }

  function TeardownNext(s: State): State
    requires TearingDown(s.pc)
    requires s.pc.Discard? ==> s.pc.at < |s.open| ==> s.open[s.pc.at] in s.fates
  {
    match s.pc
    case ShutCancel(end) => s.(ctx := true, pc := ShutClose(end))
    case ShutClose(end) => s.(closed := true, pc := ShutWait(end))
    case ShutWait(end) => s.(pc := Report(end))
    case Report(end) =>
      var stop := StopToReport(s, end);
      var failing := stop.Some? && stop.value.open && stop.value.unit in s.fates;
      s.(told := stop,
         fates := if failing then Resolve(s.fates, stop.value.unit, Discarded) else s.fates,
         pc := if end.Completed? then Done(Succeeded)
               else Discard(0, if failing then Some(stop.value.unit) else None, StatusOf(end, stop)))
    case Discard(at, except, status) =>
      if at < |s.open| then
        s.(fates := if except == Some(s.open[at]) then s.fates else Resolve(s.fates, s.open[at], Discarded),
           pc := Discard(at + 1, except, status))
      else s.(pc := Done(status))
  }

  /** The teardown of an observed stop reports the recorded failure if there is
      one by now, whatever the coordinator had seen. */
  function StopToReport(s: State, end: Ending): Option<Stop> {
    if !end.Observed? then None else if s.stop.Some? then s.stop else end.stop
  }

  function StatusOf(end: Ending, stop: Option<Stop>): Status {
    match end
    case Completed => Succeeded
    case AfterHead(status) => status
    case Observed(_) => if stop.Some? then SessionFailed else SessionCanceled
  }

  /** Only a real failure goes on to ask for a stop. */
  function AfterAccount(o: Outcome): Phase {
    if o.Failed? then Accounted(o) else Settled(o)
  }

  function Next(s: State, a: Action): State
    requires Enabled(s, a)
  {
    match a
    case Coord(c) => CoordNext(s, c)
    case Take =>
      s.(queue := s.queue[1..], life := s.life[s.queue[0] := Held])
    case Finish(j, o) =>
      s.(life := s.life[j := Returned(o)], broken := s.broken || o.Failed?)
    case Account(j) =>
      var o := s.life[j].o;
      s.(units := s.units[j.unit := s.units[j.unit].TaskReturned(o)],
         life := s.life[j := AfterAccount(o)])
    case Record(j) =>
      var o := s.life[j].o;
      var first := s.once == Fresh;
      s.(once := if first then Running else s.once,
         stop := if first then Some(Stop(j.unit, true, o.code, false)) else s.stop,
         life := s.life[j := if first then Storing(o) else Settled(o)])
    case CancelBy(j) =>
      s.(ctx := true, once := Finished, life := s.life[j := Settled(s.life[j].o)])
    case UserCancel => s.(ctx := true, user := true)
  }

  /** A run is a start state and a sequence of enabled actions. */
  ghost predicate Reaches(s: State, actions: seq<Action>, t: State)
    decreases actions
  {
    if actions == [] then s == t
    else Enabled(s, actions[0]) && Reaches(Next(s, actions[0]), actions[1..], t)
  }
}
