/** What every reachable state of a session keeps, whatever the interleaving. */
module SessionProof {
  import opened Prelude
  import opened Tracker
  import opened Session

  // ---------- program points ----------

  /** The coordinator is between registering a unit and ending its delivery. */
  predicate Delivering(pc: PC) {
    pc.Deliver? || pc.Count? || pc.EndNormal? || pc.EndCut?
  }

  predicate Troubled(res: CommitResult) {
    res.status.UnitFailed? || res.sessionError
  }

  // ---------- the data part of the invariant ----------

  ghost predicate KeysP(units: map<nat, Unit>, fates: map<nat, seq<Fate>>, prep: nat) {
    && (forall u: nat :: u in units <==> u < prep)
    && (forall u: nat :: u in fates <==> u < prep)
  }

  ghost predicate OpenP(open: seq<nat>, done: nat, prep: nat) {
    && |open| == prep - done
    && (forall k :: 0 <= k < |open| ==> open[k] == done + k)
  }

  /** The tasks in the machine are exactly those sent; the one being counted by
      the coordinator has been sent already. */
  ghost predicate JobsP(units: map<nat, Unit>, life: map<Job, Phase>, counting: Option<nat>) {
    && (forall j :: j in life <==>
          j.unit in units && j.task < units[j.unit].delivered + if counting == Some(j.unit) then 1 else 0)
    && (forall j :: j in life && (life[j].Accounted? || life[j].Storing?) ==> life[j].o.Failed?)
  }

  ghost predicate QueueP(queue: seq<Job>, life: map<Job, Phase>, window: nat) {
    && (forall j :: j in queue <==> j in life && life[j] == Queued)
    && (forall i, k :: 0 <= i < k < |queue| ==> queue[i] != queue[k])
    && |queue| <= window
    && |BusyOf(life)| <= window
  }

  function CountedOf(life: map<Job, Phase>, u: nat): set<Job> {
    set j | j in life && j.unit == u && life[j].Counted()
  }

  ghost predicate UnitsP(units: map<nat, Unit>, life: map<Job, Phase>, delivering: Option<nat>) {
    && (forall u: nat :: u in units ==>
          && units[u].delivered <= units[u].expected
          && (units[u].ended <==> delivering != Some(u))
          && units[u].completed == |CountedOf(life, u)|
          && (units[u].sealed <==> units[u].ended && units[u].completed >= units[u].delivered))
    && (forall j :: j in life && life[j].Counted() && life[j].o != Ok ==>
          j.unit in units && units[j.unit].failure != Ok)
  }

  ghost predicate ProgressP(units: map<nat, Unit>, done: nat, next: nat) {
    && (forall u: nat :: u in units && u < next ==> units[u].delivered == units[u].expected)
    && (forall u: nat :: u in units && u < done ==> units[u].Committable())
  }

  ghost predicate OnceP(life: map<Job, Phase>, stop: bool, running: bool, own: bool) {
    && (running ==> own || exists j :: j in life && life[j].Storing?)
    && (forall j :: j in life && life[j].Storing? ==> running && !own)
    && (forall j, k :: j in life && k in life && life[j].Storing? && life[k].Storing? ==> j == k)
    && (forall j :: j in life && life[j].Settled? && life[j].o.Failed? ==> stop)
  }

  ghost predicate CauseP(units: map<nat, Unit>, life: map<Job, Phase>, ctx: bool, broken: bool) {
    && (forall j :: j in life && life[j].FailedForReal() ==> broken)
    && (forall j :: j in life && life[j].Returned? && life[j].o == Stopped ==> ctx)
    && (forall u: nat :: u in units && units[u].failure == Stopped ==> ctx)
    && (forall u: nat :: u in units && units[u].failure.Failed? ==> broken)
  }

  ghost predicate FailedTask(life: map<Job, Phase>) {
    exists j :: j in life && life[j].FailedForReal()
  }

  ghost predicate AllSettledOk(life: map<Job, Phase>) {
    forall j :: j in life ==> life[j] == Settled(Ok)
  }

  /** Units below `done` are committed; of the open ones, exactly those before
      `upto` and the one named `except` are discarded. */
  ghost predicate FatesP(fates: map<nat, seq<Fate>>, done: nat, upto: nat, except: Option<nat>) {
    forall u: nat :: u in fates ==>
      fates[u] == if u < done then [Committed]
                  else if u < upto || except == Some(u) then [Discarded] else []
  }

  // ---------- the invariant ----------

  function InDelivery(s: State): Option<nat> {
    if Delivering(s.pc) && s.prep > 0 then Some(s.prep - 1) else None
  }

  function InCount(s: State): Option<nat> {
    if s.pc.Count? && s.prep > 0 then Some(s.prep - 1) else None
  }

  function DiscardedUpTo(s: State): nat {
    if s.pc.Done? then s.prep else if s.pc.Discard? then s.done + s.pc.at else s.done
  }

  function Excepted(s: State): Option<nat> {
    if s.pc.Discard? then s.pc.except else None
  }

  ghost predicate Data(s: State) {
    && KeysP(s.units, s.fates, s.prep)
    && OpenP(s.open, s.done, s.prep)
    && JobsP(s.units, s.life, InCount(s))
    && QueueP(s.queue, s.life, s.window)
    && UnitsP(s.units, s.life, InDelivery(s))
    && ProgressP(s.units, s.done, s.next)
    && OnceP(s.life, s.stop.Some?, s.once == Running, s.pc.PrepCancel? || s.pc.HeadCancel?)
    && CauseP(s.units, s.life, s.ctx, s.broken)
    && FatesP(s.fates, s.done, DiscardedUpTo(s), Excepted(s))
  }

  ghost predicate Base(s: State) {
    && s.window >= 1
    && s.done <= s.next <= s.n
    && s.done <= s.prep
    && s.prep - s.done <= s.window
    && s.next <= s.prep <= s.next + 1
    && s.prep <= s.n
    && (s.once == Fresh <==> s.stop.None?)
    && (s.stop.Some? ==> s.broken)
    && (s.stop.Some? && s.stop.value.open ==>
          s.stop.value.unit in s.units && s.units[s.stop.value.unit].failure != Ok)
  }

  /** Before the teardown: the queue is open, nothing is lost or reported, and a
      canceled context has a cause; only workers have recorded a stop. */
  ghost predicate Live(s: State) {
    && !s.closed && !s.unsaved && s.told.None?
    && (s.ctx ==> s.user || s.stop.Some?)
  }

  ghost predicate WorkersOnly(s: State) {
    && (s.stop.Some? ==> s.stop.value.open)
    && (s.broken ==> s.stop.Some? || FailedTask(s.life))
  }

  ghost predicate Calm(s: State) {
    Live(s) && WorkersOnly(s) && s.prep == s.next
  }

  ghost predicate Opening(s: State) {
    Live(s) && WorkersOnly(s) && s.prep == s.next + 1 && s.prep - 1 in s.units
  }

  ghost predicate HeadOk(s: State) {
    s.prep > s.done && s.done in s.units && s.units[s.done].Committable()
  }

  /** The head has committed and its result is on its way to the store. */
  ghost predicate Carrying(s: State, res: CommitResult) {
    && Live(s) && s.prep == s.next && s.done > 0
    && (s.stop.Some? ==> s.stop.value.open)
    && (Troubled(res) ==> s.broken)
    && (s.broken ==> s.stop.Some? || FailedTask(s.life) || Troubled(res))
    && (res.status == UnitCanceled ==> s.ctx)
  }

  ghost predicate AtStop(s: State, site: Site) {
    match site
    case Top => Calm(s) && s.done < s.n
    case AfterWait => Calm(s) && s.prep > s.done && s.done in s.units && (s.units[s.done].sealed || s.ctx)
    case Admission => Calm(s) && HeadOk(s)
    case Boundary(res) =>
      && Live(s) && s.prep == s.next && s.done > 0
      && (Troubled(res) ==> s.stop.Some?)
      && (s.broken ==> s.stop.Some? || FailedTask(s.life))
      && (res.status == UnitCanceled ==> s.ctx)
      && (s.stop.Some? && !s.stop.value.open ==> s.once == Finished)
    case Cut => Opening(s) && s.ctx
  }

  ghost predicate AllWell(s: State) {
    && s.done == s.n == s.prep
    && s.stop.None? && !s.broken && !s.unsaved
    && AllSettledOk(s.life)
  }

  ghost predicate Shutting(s: State, end: Ending) {
    && s.told.None?
    && match end
       case Completed => AllWell(s)
       case AfterHead(status) => status == SessionFailed && (s.broken || s.unsaved)
       case Observed(o) =>
         && !s.unsaved
         && (o.Some? ==> s.stop.Some?)
         && (o.None? ==> s.user || s.stop.Some? || s.broken)
         && (s.broken ==> s.stop.Some? || FailedTask(s.life))
  }

  ghost predicate Drained(s: State) {
    s.queue == [] && BusyOf(s.life) == {}
  }

  ghost predicate Verdict(s: State, status: Status) {
    match status
    case Succeeded => AllWell(s) && s.told.None?
    case SessionFailed => (s.broken || s.unsaved) && (s.told.Some? ==> s.told == s.stop)
    case SessionCanceled => s.user && s.stop.None? && !s.broken && !s.unsaved && s.told.None?
  }

  ghost predicate At(s: State) {
    match s.pc
    case ReadStop(site) => AtStop(s, site)
    case ReadCtx(site) => AtStop(s, site) && (site.Boundary? ==> WorkersOnly(s) && !Troubled(site.res))
    case Fill => Calm(s) && s.done < s.n
    case Deliver(k) => Opening(s) && s.units[s.prep - 1].delivered == k < s.units[s.prep - 1].expected
    case Count(k) => Opening(s) && s.units[s.prep - 1].delivered == k < s.units[s.prep - 1].expected
    case EndNormal => Opening(s) && s.units[s.prep - 1].delivered == s.units[s.prep - 1].expected
    case EndCut => Opening(s) && s.ctx
    case PrepStore(_) => Live(s) && s.prep == s.next < s.n && s.broken && (s.stop.Some? ==> s.stop.value.open)
    case PrepCancel(_) => Live(s) && s.prep == s.next < s.n && s.once == Running
    case Wait => Calm(s) && s.prep > s.done
    case Check => Calm(s) && s.prep > s.done && s.done in s.units && s.units[s.done].sealed
    case Commit => Calm(s) && HeadOk(s)
    case Persist(res) => Carrying(s, res)
    case Settle(res) => Carrying(s, res)
    case HeadStore(res) => Carrying(s, res) && res.status.UnitFailed?
    case HeadCancel(res) =>
      Live(s) && s.prep == s.next && s.done > 0 && s.once == Running && (res.status == UnitCanceled ==> s.ctx)
    case ShutCancel(end) => Shutting(s, end) && !s.closed
    case ShutClose(end) => Shutting(s, end) && !s.closed && s.ctx
    case ShutWait(end) => Shutting(s, end) && s.closed && s.ctx
    case Report(end) => Shutting(s, end) && s.closed && s.ctx && Drained(s)
    case Discard(at, except, status) =>
      && s.closed && s.ctx && Drained(s) && status != Succeeded && Verdict(s, status)
      && at <= |s.open| && (except.Some? ==> s.done <= except.value < s.prep)
    case Done(status) => (s.n > 0 ==> s.closed) && Drained(s) && Verdict(s, status)
  }

  ghost predicate Inv(s: State) {
    Data(s) && Base(s) && At(s)
  }

  // ---------- finite-set facts about the places of tasks ----------

  lemma SubsetSize<T>(a: set<T>, b: set<T>)
    requires a <= b
    ensures |a| <= |b|
    ensures |a| == |b| ==> a == b
  {
    assert b == a + (b - a);
    assert |b| == |a| + |b - a|;
  }

  lemma BusyMove(life: map<Job, Phase>, j: Job, p: Phase)
    ensures BusyOf(life[j := p]) == if p.Busy() then BusyOf(life) + {j} else BusyOf(life) - {j}
    ensures j in life && life[j].Busy() ==> |BusyOf(life[j := p])| <= |BusyOf(life)|
    ensures !(j in life && life[j].Busy()) ==>
              |BusyOf(life[j := p])| == |BusyOf(life)| + if p.Busy() then 1 else 0
  {
  }

  lemma CountedMove(life: map<Job, Phase>, j: Job, p: Phase)
    requires p.Counted() <==> j in life && life[j].Counted()
    ensures forall u: nat :: CountedOf(life[j := p], u) == CountedOf(life, u)
  {
    forall u: nat ensures CountedOf(life[j := p], u) == CountedOf(life, u) {}
  }

  lemma CountedGrow(life: map<Job, Phase>, j: Job, p: Phase)
    requires p.Counted() && j in life && !life[j].Counted()
    ensures |CountedOf(life[j := p], j.unit)| == |CountedOf(life, j.unit)| + 1
    ensures forall u: nat :: u != j.unit ==> CountedOf(life[j := p], u) == CountedOf(life, u)
  {
    assert CountedOf(life[j := p], j.unit) == CountedOf(life, j.unit) + {j};
    forall u: nat | u != j.unit ensures CountedOf(life[j := p], u) == CountedOf(life, u) {}
  }

  function SentSet(u: nat, k: nat): (r: set<Job>)
    ensures forall j :: j in r <==> j.unit == u && j.task < k
    ensures |r| == k
  {
    if k == 0 then {} else SentSet(u, k - 1) + {Job(u, k - 1)}
  }

  /** A sealed unit has every delivered task back. */
  lemma SealedMeansReturned(units: map<nat, Unit>, life: map<Job, Phase>, counting: Option<nat>, delivering: Option<nat>, u: nat)
    requires JobsP(units, life, counting) && UnitsP(units, life, delivering)
    requires u in units && units[u].sealed && counting != Some(u)
    ensures forall t: nat :: t < units[u].delivered ==> Job(u, t) in life && life[Job(u, t)].Counted()
  {
    var all := SentSet(u, units[u].delivered);
    assert CountedOf(life, u) <= all;
    SubsetSize(CountedOf(life, u), all);
    forall t: nat | t < units[u].delivered
      ensures Job(u, t) in life && life[Job(u, t)].Counted()
    {
      assert Job(u, t) in CountedOf(life, u);
    }
  }

  // ---------- every step keeps the invariant ----------

  lemma StartInv(n: nat, window: nat)
    requires window >= 1
    ensures Inv(Start(n, window))
  {
  }

  /** A step that only moves the coordinator and the flags keeps the data. */
  predicate Quiet(s: State, t: State) {
    && t == s.(pc := t.pc, ctx := t.ctx, closed := t.closed, once := t.once, stop := t.stop,
               broken := t.broken, unsaved := t.unsaved)
    && InDelivery(s) == InDelivery(t) && InCount(s) == InCount(t)
    && DiscardedUpTo(s) == DiscardedUpTo(t) && Excepted(s) == Excepted(t)
    && (s.ctx ==> t.ctx) && (s.broken ==> t.broken) && (s.stop.Some? ==> t.stop.Some?)
  }

  lemma QuietData(s: State, t: State)
    requires Data(s) && Quiet(s, t)
    requires OnceP(t.life, t.stop.Some?, t.once == Running, t.pc.PrepCancel? || t.pc.HeadCancel?)
    ensures Data(t)
  {
  }

  predicate QuietStep(s: State, c: Choice) {
    && CoordEnabled(s, c)
    && !Delivering(s.pc) && !s.pc.Commit? && !s.pc.Report? && !s.pc.Discard?
    && !(s.pc.Fill? && c.Prepared? && c.r.PrepOk?)
  }

  lemma ReadData(s: State, c: Choice)
    requires Data(s) && QuietStep(s, c)
    requires s.pc.ReadStop? || s.pc.ReadCtx?
    ensures Data(CoordNext(s, c))
  {
    hide KeysP, OpenP, JobsP, QueueP, UnitsP, ProgressP, OnceP, CauseP, FatesP, FailedTask, BusyOf;
    QuietData(s, CoordNext(s, c));
  }

  lemma WaitData(s: State, c: Choice)
    requires Data(s) && QuietStep(s, c)
    requires s.pc.Wait? || s.pc.Check?
    ensures Data(CoordNext(s, c))
  {
    hide KeysP, OpenP, JobsP, QueueP, UnitsP, ProgressP, OnceP, CauseP, FatesP, FailedTask, BusyOf;
    QuietData(s, CoordNext(s, c));
  }

  lemma FillFullData(s: State)
    requires Data(s) && QuietStep(s, Go) && s.pc.Fill?
    ensures Data(CoordNext(s, Go))
  {
    hide KeysP, OpenP, JobsP, QueueP, UnitsP, ProgressP, OnceP, CauseP, FatesP, FailedTask, BusyOf;
    QuietData(s, CoordNext(s, Go));
  }

  lemma FillFailedData(s: State, c: Choice)
    requires Data(s) && QuietStep(s, c) && s.pc.Fill? && c.Prepared?
    ensures Data(CoordNext(s, c))
  {
    hide KeysP, OpenP, JobsP, QueueP, UnitsP, ProgressP, OnceP, CauseP, FatesP, FailedTask, BusyOf;
    QuietData(s, CoordNext(s, c));
  }

  lemma StoreData(s: State, c: Choice)
    requires Data(s) && QuietStep(s, c) && (s.once == Fresh <==> s.stop.None?)
    requires s.pc.PrepStore? || s.pc.HeadStore?
    ensures Data(CoordNext(s, c))
  {
    hide KeysP, OpenP, JobsP, QueueP, UnitsP, ProgressP, CauseP, FatesP, FailedTask, BusyOf;
    QuietData(s, CoordNext(s, c));
  }

  lemma CancelData(s: State, c: Choice)
    requires Data(s) && QuietStep(s, c)
    requires s.pc.PrepCancel? || s.pc.HeadCancel?
    ensures Data(CoordNext(s, c))
  {
    hide KeysP, OpenP, JobsP, QueueP, UnitsP, ProgressP, CauseP, FatesP, FailedTask, BusyOf;
    QuietData(s, CoordNext(s, c));
  }

  lemma SettleData(s: State, c: Choice)
    requires Data(s) && QuietStep(s, c)
    requires s.pc.Persist? || s.pc.Settle? || s.pc.ShutCancel? || s.pc.ShutClose? || s.pc.ShutWait?
    ensures Data(CoordNext(s, c))
  {
    hide KeysP, OpenP, JobsP, QueueP, UnitsP, ProgressP, OnceP, CauseP, FatesP, FailedTask, BusyOf;
    QuietData(s, CoordNext(s, c));
  }

  lemma ReadStopAt(s: State)
    requires Base(s) && At(s) && s.pc.ReadStop?
    ensures Base(CoordNext(s, Go)) && At(CoordNext(s, Go))
  {
  }

  lemma ReadCtxAt(s: State)
    requires Base(s) && At(s) && s.pc.ReadCtx? && !s.pc.site.Boundary?
    ensures Base(CoordNext(s, Go)) && At(CoordNext(s, Go))
  {
  }

  /** At the boundary of the last head nothing can be outstanding or failed. */
  lemma LastHeadIsWell(s: State)
    requires Inv(s) && Calm(s) && s.done == s.n
    ensures AllWell(s)
  {
    forall j | j in s.life ensures s.life[j] == Settled(Ok) {
      SealedMeansReturned(s.units, s.life, InCount(s), InDelivery(s), j.unit);
    }
  }

  lemma ReadCtxBoundaryAt(s: State)
    requires Inv(s) && s.pc.ReadCtx? && s.pc.site.Boundary?
    ensures Base(CoordNext(s, Go)) && At(CoordNext(s, Go))
  {
    if s.done == s.n {
      LastHeadIsWell(s);
    }
  }

  lemma FillFullAt(s: State)
    requires Base(s) && At(s) && OpenP(s.open, s.done, s.prep) && s.pc.Fill? && CoordEnabled(s, Go)
    ensures Base(CoordNext(s, Go)) && At(CoordNext(s, Go))
  {
  }

  lemma FillFailedAt(s: State, c: Choice)
    requires Base(s) && At(s) && OpenP(s.open, s.done, s.prep) && s.pc.Fill?
    requires CoordEnabled(s, c) && c.Prepared? && !c.r.PrepOk?
    ensures Base(CoordNext(s, c)) && At(CoordNext(s, c))
  {
  }

  lemma WaitAt(s: State)
    requires Base(s) && At(s) && OpenP(s.open, s.done, s.prep) && s.pc.Wait? && CoordEnabled(s, Go)
    ensures Base(CoordNext(s, Go)) && At(CoordNext(s, Go))
  {
  }

  lemma CheckAt(s: State)
    requires Inv(s) && s.pc.Check? && CoordEnabled(s, Go)
    ensures Base(CoordNext(s, Go)) && At(CoordNext(s, Go))
  {
  }

  lemma PrepStoreAt(s: State)
    requires Base(s) && At(s) && s.pc.PrepStore? && CoordEnabled(s, Go)
    ensures Base(CoordNext(s, Go)) && At(CoordNext(s, Go))
  {
  }

  lemma PrepCancelAt(s: State)
    requires Base(s) && At(s) && s.pc.PrepCancel?
    ensures Base(CoordNext(s, Go)) && At(CoordNext(s, Go))
  {
  }

  lemma SettleAt(s: State, c: Choice)
    requires Base(s) && At(s) && CoordEnabled(s, c) && (s.pc.Persist? || s.pc.Settle?)
    ensures Base(CoordNext(s, c)) && At(CoordNext(s, c))
  {
  }

  lemma HeadStoreAt(s: State)
    requires Base(s) && At(s) && s.pc.HeadStore? && CoordEnabled(s, Go)
    ensures Base(CoordNext(s, Go)) && At(CoordNext(s, Go))
  {
  }

  lemma HeadCancelAt(s: State)
    requires Base(s) && At(s) && s.pc.HeadCancel? && CoordEnabled(s, Go)
    ensures Base(CoordNext(s, Go)) && At(CoordNext(s, Go))
  {
  }

  lemma ShutAt(s: State)
    requires Base(s) && At(s) && CoordEnabled(s, Go) && (s.pc.ShutCancel? || s.pc.ShutClose? || s.pc.ShutWait?)
    ensures Base(CoordNext(s, Go)) && At(CoordNext(s, Go))
  {
  }

  // Steps of the coordinator that move units, tasks or fates.

  lemma OpenAt(s: State, c: Choice)
    requires Inv(s) && s.pc.Fill? && CoordEnabled(s, c) && c.Prepared? && c.r.PrepOk?
    ensures Base(CoordNext(s, c)) && At(CoordNext(s, c))
  {
  }

  lemma OpenUnits(units: map<nat, Unit>, life: map<Job, Phase>, u: nat, tasks: nat, counting: Option<nat>)
    requires u !in units && JobsP(units, life, None) && UnitsP(units, life, None)
    ensures JobsP(units[u := Opened(tasks)], life, None)
    ensures UnitsP(units[u := Opened(tasks)], life, Some(u))
  {
    assert CountedOf(life, u) == {};
  }

  lemma OpenFresh(s: State, tasks: nat)
    requires Data(s) && s.done <= s.next == s.prep
    ensures KeysP(s.units[s.prep := Opened(tasks)], s.fates[s.prep := []], s.prep + 1)
    ensures s.prep !in s.units
    ensures OpenP(s.open + [s.prep], s.done, s.prep + 1)
    ensures ProgressP(s.units[s.prep := Opened(tasks)], s.done, s.next)
    ensures CauseP(s.units[s.prep := Opened(tasks)], s.life, s.ctx, s.broken)
    ensures DiscardedUpTo(s) == s.done && Excepted(s) == None ==> FatesP(s.fates[s.prep := []], s.done, s.done, None)
  {
    hide JobsP, QueueP, UnitsP, OnceP;
  }

  lemma OpenData(s: State, c: Choice)
    requires Inv(s) && s.pc.Fill? && CoordEnabled(s, c) && c.Prepared? && c.r.PrepOk?
    ensures Data(CoordNext(s, c))
  {
    hide KeysP, OpenP, JobsP, QueueP, UnitsP, ProgressP, OnceP, CauseP, FatesP, FailedTask, BusyOf;
    OpenFresh(s, c.r.tasks);
    OpenUnits(s.units, s.life, s.prep, c.r.tasks, None);
  }

  lemma SendJobs(units: map<nat, Unit>, life: map<Job, Phase>, u: nat, delivering: Option<nat>)
    requires u in units && JobsP(units, life, None) && UnitsP(units, life, delivering)
    ensures Job(u, units[u].delivered) !in life
    ensures JobsP(units, life[Job(u, units[u].delivered) := Queued], Some(u))
    ensures UnitsP(units, life[Job(u, units[u].delivered) := Queued], delivering)
  {
    CountedMove(life, Job(u, units[u].delivered), Queued);
  }

  lemma SendQueue(queue: seq<Job>, life: map<Job, Phase>, window: nat, j: Job)
    requires QueueP(queue, life, window) && j !in life && |queue| < window
    ensures QueueP(queue + [j], life[j := Queued], window)
  {
    BusyMove(life, j, Queued);
  }

  lemma NewTask(units: map<nat, Unit>, life: map<Job, Phase>, j: Job, stop: bool, running: bool, own: bool, ctx: bool, broken: bool)
    requires j !in life && OnceP(life, stop, running, own) && CauseP(units, life, ctx, broken)
    ensures OnceP(life[j := Queued], stop, running, own) && CauseP(units, life[j := Queued], ctx, broken)
    ensures FailedTask(life) <==> FailedTask(life[j := Queued])
  {
    var after := life[j := Queued];
    assert forall k :: k in life ==> k in after && after[k] == life[k];
  }

  lemma SendInv(s: State)
    requires Inv(s) && s.pc.Deliver? && CoordEnabled(s, Send)
    ensures Inv(CoordNext(s, Send))
  {
    hide KeysP, OpenP, JobsP, QueueP, UnitsP, ProgressP, OnceP, CauseP, FatesP, FailedTask, BusyOf;
    var j := Job(s.prep - 1, s.pc.k);
    SendJobs(s.units, s.life, s.prep - 1, InDelivery(s));
    SendQueue(s.queue, s.life, s.window, j);
    NewTask(s.units, s.life, j, s.stop.Some?, s.once == Running, false, s.ctx, s.broken);
  }

  lemma CutInv(s: State)
    requires Inv(s) && s.pc.Deliver? && CoordEnabled(s, CutShort)
    ensures Inv(CoordNext(s, CutShort))
  {
  }

  /** Counting or ending a delivery changes one unit that is not ended yet. */
  lemma CountUnits(units: map<nat, Unit>, life: map<Job, Phase>, u: nat)
    requires u in units && units[u].delivered < units[u].expected
    requires JobsP(units, life, Some(u)) && UnitsP(units, life, Some(u))
    ensures JobsP(units[u := units[u].TaskDelivered()], life, None)
    ensures UnitsP(units[u := units[u].TaskDelivered()], life, Some(u))
  {
  }

  lemma EndUnits(units: map<nat, Unit>, life: map<Job, Phase>, u: nat)
    requires u in units && JobsP(units, life, None) && UnitsP(units, life, Some(u))
    ensures JobsP(units[u := units[u].EndDelivery()], life, None)
    ensures UnitsP(units[u := units[u].EndDelivery()], life, None)
  {
  }

  lemma SameFailure(units: map<nat, Unit>, life: map<Job, Phase>, u: nat, v: Unit, ctx: bool, broken: bool)
    requires u in units && v.failure == units[u].failure && CauseP(units, life, ctx, broken)
    ensures CauseP(units[u := v], life, ctx, broken)
  {
  }

  lemma SameKeys(units: map<nat, Unit>, fates: map<nat, seq<Fate>>, prep: nat, u: nat, v: Unit, done: nat, next: nat)
    requires KeysP(units, fates, prep) && u in units && ProgressP(units, done, next) && done <= next <= u
    requires v.expected == units[u].expected
    ensures KeysP(units[u := v], fates, prep) && ProgressP(units[u := v], done, next)
    ensures v.delivered == v.expected && u == next ==> ProgressP(units[u := v], done, next + 1)
  {
  }

  lemma CountInv(s: State)
    requires Inv(s) && s.pc.Count? && CoordEnabled(s, Go)
    ensures Inv(CoordNext(s, Go))
  {
    hide KeysP, OpenP, JobsP, QueueP, UnitsP, ProgressP, OnceP, CauseP, FatesP, FailedTask, BusyOf;
    var u := s.prep - 1;
    CountUnits(s.units, s.life, u);
    SameFailure(s.units, s.life, u, s.units[u].TaskDelivered(), s.ctx, s.broken);
    SameKeys(s.units, s.fates, s.prep, u, s.units[u].TaskDelivered(), s.done, s.next);
  }

  lemma EndNormalInv(s: State)
    requires Inv(s) && s.pc.EndNormal? && CoordEnabled(s, Go)
    ensures Inv(CoordNext(s, Go))
  {
    hide KeysP, OpenP, JobsP, QueueP, UnitsP, ProgressP, OnceP, CauseP, FatesP, FailedTask, BusyOf;
    var u := s.prep - 1;
    EndUnits(s.units, s.life, u);
    SameFailure(s.units, s.life, u, s.units[u].EndDelivery(), s.ctx, s.broken);
    SameKeys(s.units, s.fates, s.prep, u, s.units[u].EndDelivery(), s.done, s.next);
  }

  lemma EndCutInv(s: State)
    requires Inv(s) && s.pc.EndCut? && CoordEnabled(s, Go)
    ensures Inv(CoordNext(s, Go))
  {
    hide KeysP, OpenP, JobsP, QueueP, UnitsP, ProgressP, OnceP, CauseP, FatesP, FailedTask, BusyOf;
    var u := s.prep - 1;
    EndUnits(s.units, s.life, u);
    SameFailure(s.units, s.life, u, s.units[u].EndDelivery(), s.ctx, s.broken);
    SameKeys(s.units, s.fates, s.prep, u, s.units[u].EndDelivery(), s.done, s.next);
  }

  lemma CommitAt(s: State, c: Choice)
    requires Base(s) && At(s) && OpenP(s.open, s.done, s.prep) && s.pc.Commit? && CoordEnabled(s, c)
    ensures Base(CoordNext(s, c)) && At(CoordNext(s, c))
  {
  }

  lemma CommitFates(units: map<nat, Unit>, fates: map<nat, seq<Fate>>, open: seq<nat>, done: nat, prep: nat, next: nat)
    requires KeysP(units, fates, prep) && OpenP(open, done, prep) && ProgressP(units, done, next)
    requires FatesP(fates, done, done, None) && done < prep && done in units && units[done].Committable()
    ensures |open| > 0 && open[0] == done && done in fates
    ensures KeysP(units, fates[done := fates[done] + [Committed]], prep)
    ensures OpenP(open[1..], done + 1, prep)
    ensures ProgressP(units, done + 1, next)
    ensures FatesP(fates[done := fates[done] + [Committed]], done + 1, done + 1, None)
  {
  }

  lemma MoreBroken(units: map<nat, Unit>, life: map<Job, Phase>, ctx: bool, broken: bool, broken': bool)
    requires CauseP(units, life, ctx, broken) && (broken ==> broken')
    ensures CauseP(units, life, ctx, broken')
  {
  }

  lemma CommitData(s: State, c: Choice)
    requires Data(s) && At(s) && Base(s) && s.pc.Commit? && CoordEnabled(s, c)
    ensures Data(CoordNext(s, c))
  {
    hide KeysP, OpenP, JobsP, QueueP, UnitsP, ProgressP, OnceP, CauseP, FatesP, FailedTask, BusyOf;
    CommitFates(s.units, s.fates, s.open, s.done, s.prep, s.next);
    MoreBroken(s.units, s.life, s.ctx, s.broken, CoordNext(s, c).broken);
  }

  /** When the pool has drained, a recorded stop is the only trace left. */
  lemma DrainedTrace(s: State)
    requires Inv(s) && Drained(s) && FailedTask(s.life)
    ensures s.stop.Some?
  {
    var j :| j in s.life && s.life[j].FailedForReal();
    assert j !in BusyOf(s.life) && j !in s.queue;
  }

  /** The unit a recorded task failure belongs to is still open. */
  lemma StoppedUnitIsOpen(s: State)
    requires Data(s) && Base(s) && s.stop.Some? && s.stop.value.open
    ensures s.done <= s.stop.value.unit < s.prep && s.stop.value.unit in s.fates
  {
    hide JobsP, QueueP, UnitsP, OnceP, CauseP, FatesP, OpenP;
  }

  lemma DiscardFate(units: map<nat, Unit>, fates: map<nat, seq<Fate>>, prep: nat, done: nat, upto: nat, except: Option<nat>, u: nat)
    requires KeysP(units, fates, prep) && FatesP(fates, done, upto, except) && done <= u < prep
    requires done <= upto <= u && except != Some(u)
    ensures u in fates
    ensures KeysP(units, fates[u := fates[u] + [Discarded]], prep)
    ensures u == upto ==> FatesP(fates[u := fates[u] + [Discarded]], done, upto + 1, except)
    ensures except == None ==> FatesP(fates[u := fates[u] + [Discarded]], done, upto, Some(u))
  {
  }

  lemma ReportAt(s: State)
    requires Inv(s) && s.pc.Report? && CoordEnabled(s, Go)
    ensures Base(CoordNext(s, Go)) && At(CoordNext(s, Go))
  {
    hide Data, FailedTask, AllSettledOk, BusyOf;
    if FailedTask(s.life) {
      DrainedTrace(s);
    }
    if s.stop.Some? && s.stop.value.open {
      StoppedUnitIsOpen(s);
    }
  }

  lemma ReportData(s: State)
    requires Inv(s) && s.pc.Report? && CoordEnabled(s, Go)
    ensures Data(CoordNext(s, Go))
  {
    hide KeysP, OpenP, JobsP, QueueP, UnitsP, ProgressP, OnceP, CauseP, FatesP, FailedTask, BusyOf;
    if s.pc.end.Observed? && s.stop.Some? && s.stop.value.open {
      StoppedUnitIsOpen(s);
      DiscardFate(s.units, s.fates, s.prep, s.done, s.done, None, s.stop.value.unit);
    }
  }

  lemma OpenIndex(open: seq<nat>, done: nat, prep: nat, at: nat)
    requires OpenP(open, done, prep) && at <= |open|
    ensures |open| == prep - done && (at < |open| ==> open[at] == done + at)
  {
  }

  lemma DiscardAt(s: State)
    requires Base(s) && At(s) && OpenP(s.open, s.done, s.prep) && s.pc.Discard? && CoordEnabled(s, Go)
    ensures Base(CoordNext(s, Go)) && At(CoordNext(s, Go))
  {
    hide OpenP, FatesP, FailedTask, AllSettledOk;
    OpenIndex(s.open, s.done, s.prep, s.pc.at);
  }

  lemma SkipFate(fates: map<nat, seq<Fate>>, done: nat, upto: nat, except: Option<nat>)
    requires FatesP(fates, done, upto, except) && except == Some(upto)
    ensures FatesP(fates, done, upto + 1, except)
  {
  }

  lemma EndFate(units: map<nat, Unit>, fates: map<nat, seq<Fate>>, done: nat, prep: nat, except: Option<nat>)
    requires KeysP(units, fates, prep) && FatesP(fates, done, prep, except) && (except.Some? ==> done <= except.value)
    ensures FatesP(fates, done, prep, None)
  {
  }

  lemma DiscardData(s: State)
    requires Data(s) && Base(s) && At(s) && s.pc.Discard? && CoordEnabled(s, Go)
    ensures Data(CoordNext(s, Go))
  {
    hide KeysP, OpenP, JobsP, QueueP, UnitsP, ProgressP, OnceP, CauseP, FatesP, FailedTask, BusyOf;
    OpenIndex(s.open, s.done, s.prep, s.pc.at);
    var u := s.done + s.pc.at;
    if s.pc.at == |s.open| {
      EndFate(s.units, s.fates, s.done, s.prep, s.pc.except);
    } else if s.pc.except == Some(u) {
      SkipFate(s.fates, s.done, u, s.pc.except);
    } else {
      DiscardFate(s.units, s.fates, s.prep, s.done, u, s.pc.except, u);
    }
  }

  // Steps of a worker.

  lemma MoveJobs(units: map<nat, Unit>, life: map<Job, Phase>, counting: Option<nat>, delivering: Option<nat>, j: Job, p: Phase)
    requires JobsP(units, life, counting) && UnitsP(units, life, delivering) && j in life
    requires p.Accounted? || p.Storing? ==> p.o.Failed?
    requires p.Counted() <==> life[j].Counted()
    requires p.Counted() ==> p.o == life[j].o
    ensures JobsP(units, life[j := p], counting) && UnitsP(units, life[j := p], delivering)
  {
    CountedMove(life, j, p);
  }

  lemma MoveQueue(queue: seq<Job>, life: map<Job, Phase>, window: nat, j: Job, p: Phase)
    requires QueueP(queue, life, window) && j in life && life[j].Busy() && !p.Queued?
    ensures QueueP(queue, life[j := p], window)
  {
    BusyMove(life, j, p);
  }

  lemma TakeQueue(queue: seq<Job>, life: map<Job, Phase>, window: nat)
    requires QueueP(queue, life, window) && queue != [] && |BusyOf(life)| < window
    ensures queue[0] in life && life[queue[0]] == Queued
    ensures QueueP(queue[1..], life[queue[0] := Held], window)
  {
    assert queue[0] in queue;
    BusyMove(life, queue[0], Held);
    forall j ensures j in queue[1..] <==> j in queue && j != queue[0] {
      if j in queue && j != queue[0] {
        var k :| 0 <= k < |queue| && queue[k] == j;
        assert queue[1..][k - 1] == j;
      }
    }
  }

  /** What a worker's step may change, as the coordinator sees it. */
  ghost predicate Worker(s: State, t: State) {
    && t == s.(units := t.units, life := t.life, queue := t.queue, ctx := t.ctx, once := t.once,
               stop := t.stop, broken := t.broken)
    && (s.ctx ==> t.ctx) && (t.ctx ==> s.ctx || t.stop.Some?)
    && (s.stop.Some? ==> t.stop == s.stop)
    && (t.stop.Some? && s.stop.None? ==> t.stop.value.open)
    && (t.once == Fresh <==> t.stop.None?)
    && (s.broken ==> t.broken) && (t.broken ==> s.broken || FailedTask(t.life))
    && (t.stop.Some? ==> t.broken)
    && (FailedTask(s.life) ==> FailedTask(t.life))
    && (s.once == Finished ==> t.once == Finished)
    && (s.pc.PrepCancel? || s.pc.HeadCancel? ==> t.once == s.once)
    && (forall u: nat :: u in t.units <==> u in s.units)
    && (forall u: nat :: u in s.units ==> u in t.units && Later(s.units[u], t.units[u]))
    && (t.stop.Some? && s.stop.None? ==> t.stop.value.unit in t.units && t.units[t.stop.value.unit].failure != Ok)
    && !AllSettledOk(s.life) && !Drained(s)
  }

  predicate Later(u: Unit, v: Unit) {
    && v.expected == u.expected && v.delivered == u.delivered
    && (u.sealed ==> v.sealed)
    && (u.failure != Ok ==> v.failure != Ok)
    && (u.Committable() ==> v.Committable())
  }

  lemma WorkerBase(s: State, t: State)
    requires Base(s) && At(s) && Worker(s, t)
    ensures Base(t)
  {
  }

  lemma WorkerAtRead(s: State, t: State)
    requires Base(s) && At(s) && Worker(s, t)
    requires s.pc.ReadStop? || s.pc.ReadCtx?
    ensures At(t)
  {
  }

  lemma WorkerAtHead(s: State, t: State)
    requires Base(s) && At(s) && Worker(s, t)
    requires s.pc.Wait? || s.pc.Check? || s.pc.Commit? || s.pc.Persist? || s.pc.Settle? || s.pc.HeadStore? || s.pc.HeadCancel?
    ensures At(t)
  {
  }

  lemma WorkerAtFill(s: State, t: State)
    requires Base(s) && At(s) && Worker(s, t)
    requires s.pc.Fill? || s.pc.PrepStore? || s.pc.PrepCancel?
    ensures At(t)
  {
    hide FailedTask, BusyOf;
  }

  lemma WorkerAtDeliver(s: State, t: State)
    requires Base(s) && At(s) && Worker(s, t)
    requires Delivering(s.pc)
    ensures At(t)
  {
    hide FailedTask, BusyOf;
  }

  lemma WorkerAtEnd(s: State, t: State)
    requires Base(s) && At(s) && Worker(s, t)
    requires s.pc.ShutCancel? || s.pc.ShutClose? || s.pc.ShutWait? || s.pc.Report? || s.pc.Discard? || s.pc.Done?
    ensures At(t)
  {
  }

  lemma WorkerInv(s: State, t: State)
    requires Base(s) && At(s) && Worker(s, t) && Data(t)
    ensures Inv(t)
  {
    hide Base, At, Worker, Data;
    WorkerBase(s, t);
    if s.pc.ReadStop? || s.pc.ReadCtx? {
      WorkerAtRead(s, t);
    } else if Delivering(s.pc) {
      WorkerAtDeliver(s, t);
    } else if s.pc.Fill? || s.pc.PrepStore? || s.pc.PrepCancel? {
      WorkerAtFill(s, t);
    } else if s.pc.ShutCancel? || s.pc.ShutClose? || s.pc.ShutWait? || s.pc.Report? || s.pc.Discard? || s.pc.Done? {
      WorkerAtEnd(s, t);
    } else {
      WorkerAtHead(s, t);
    }
  }

  /** Moving a task on, without recording anything. */
  lemma MoveCauses(units: map<nat, Unit>, life: map<Job, Phase>, stop: bool, running: bool, own: bool, ctx: bool, broken: bool, j: Job, p: Phase)
    requires OnceP(life, stop, running, own) && CauseP(units, life, ctx, broken)
    requires j in life && !life[j].Storing? && !p.Storing?
    requires p.FailedForReal() ==> broken || life[j].FailedForReal()
    requires p.Settled? && p.o.Failed? ==> stop
    requires p == Returned(Stopped) ==> ctx
    requires life[j].FailedForReal() ==> p.FailedForReal()
    ensures OnceP(life[j := p], stop, running, own) && CauseP(units, life[j := p], ctx, broken)
    ensures FailedTask(life) ==> FailedTask(life[j := p])
    ensures p.FailedForReal() ==> FailedTask(life[j := p])
  {
    var after := life[j := p];
    assert forall k :: k in life && k != j ==> k in after && after[k] == life[k];
    assert after[j] == p;
  }

  lemma ActiveTask(queue: seq<Job>, life: map<Job, Phase>, window: nat, j: Job)
    requires QueueP(queue, life, window) && j in life && !life[j].Settled?
    ensures !AllSettledOk(life) && !(queue == [] && BusyOf(life) == {})
  {
    assert life[j] != Settled(Ok);
    if !life[j].Queued? {
      assert j in BusyOf(life);
    }
  }

  lemma RecordCauses(units: map<nat, Unit>, life: map<Job, Phase>, stop: bool, ctx: bool, broken: bool, j: Job, own: bool, once: Once)
    requires OnceP(life, stop, once == Running, own) && CauseP(units, life, ctx, broken)
    requires j in life && life[j].Accounted? && life[j].o.Failed? && once != Running && (once == Fresh <==> !stop)
    requires own ==> once == Running
    ensures once == Fresh ==> OnceP(life[j := Storing(life[j].o)], true, true, own)
    ensures once == Fresh ==> CauseP(units, life[j := Storing(life[j].o)], ctx, broken)
    ensures once == Fresh ==> FailedTask(life[j := Storing(life[j].o)])
    ensures once == Finished ==> OnceP(life[j := Settled(life[j].o)], stop, false, own)
    ensures once == Finished ==> CauseP(units, life[j := Settled(life[j].o)], ctx, broken)
    ensures once == Finished ==> FailedTask(life[j := Settled(life[j].o)])
    ensures broken
  {
    assert life[j := Storing(life[j].o)][j].FailedForReal();
    assert life[j := Settled(life[j].o)][j].FailedForReal();
  }

  lemma RecordedUnit(units: map<nat, Unit>, life: map<Job, Phase>, delivering: Option<nat>, ctx: bool, broken: bool, j: Job)
    requires UnitsP(units, life, delivering) && CauseP(units, life, ctx, broken)
    requires j in life && life[j].Accounted? && life[j].o.Failed?
    ensures j.unit in units && units[j.unit].failure != Ok
  {
  }

  lemma CancelCauses(units: map<nat, Unit>, life: map<Job, Phase>, stop: bool, own: bool, ctx: bool, broken: bool, once: Once, j: Job)
    requires OnceP(life, stop, once == Running, own) && CauseP(units, life, ctx, broken)
    requires j in life && life[j].Storing? && life[j].o.Failed? && (once == Fresh <==> !stop)
    ensures once == Running && stop && !own
    ensures OnceP(life[j := Settled(life[j].o)], true, false, own)
    ensures CauseP(units, life[j := Settled(life[j].o)], true, broken)
    ensures FailedTask(life[j := Settled(life[j].o)])
  {
    assert life[j := Settled(life[j].o)][j].FailedForReal();
  }

  lemma AccountNotSealed(units: map<nat, Unit>, life: map<Job, Phase>, counting: Option<nat>, delivering: Option<nat>, j: Job)
    requires JobsP(units, life, counting) && UnitsP(units, life, delivering)
    requires j in life && !life[j].Counted() && (counting.Some? ==> counting == delivering)
    ensures j.unit in units && !units[j.unit].sealed
  {
    hide CountedOf;
    if units[j.unit].sealed {
      SealedMeansReturned(units, life, counting, delivering, j.unit);
      assert false;
    }
  }

  lemma AccountJobs(units: map<nat, Unit>, life: map<Job, Phase>, counting: Option<nat>, j: Job)
    requires JobsP(units, life, counting) && j in life && life[j].Returned? && j.unit in units
    ensures JobsP(units[j.unit := units[j.unit].TaskReturned(life[j].o)], life[j := AfterAccount(life[j].o)], counting)
  {
  }

  lemma AccountUnits(units: map<nat, Unit>, life: map<Job, Phase>, delivering: Option<nat>, j: Job)
    requires UnitsP(units, life, delivering) && j in life && life[j].Returned? && j.unit in units && !units[j.unit].sealed
    ensures UnitsP(units[j.unit := units[j.unit].TaskReturned(life[j].o)], life[j := AfterAccount(life[j].o)], delivering)
  {
    CountedGrow(life, j, AfterAccount(life[j].o));
    hide CountedOf;
  }

  lemma AccountProgress(units: map<nat, Unit>, u: nat, o: Outcome, done: nat, next: nat)
    requires ProgressP(units, done, next) && u in units && !units[u].sealed
    ensures ProgressP(units[u := units[u].TaskReturned(o)], done, next)
    ensures Later(units[u], units[u].TaskReturned(o))
  {
  }

  lemma AccountKeys(units: map<nat, Unit>, fates: map<nat, seq<Fate>>, prep: nat, u: nat, v: Unit)
    requires KeysP(units, fates, prep) && u in units
    ensures KeysP(units[u := v], fates, prep)
  {
  }

  lemma AccountCause(units: map<nat, Unit>, life: map<Job, Phase>, ctx: bool, broken: bool, j: Job)
    requires CauseP(units, life, ctx, broken) && j in life && life[j].Returned? && j.unit in units
    ensures CauseP(units[j.unit := units[j.unit].TaskReturned(life[j].o)], life[j := AfterAccount(life[j].o)], ctx, broken)
  {
  }

  /** While the coordinator holds the once, no worker does. */
  lemma OwnRuns(s: State)
    requires Inv(s)
    ensures s.pc.PrepCancel? || s.pc.HeadCancel? ==> s.once == Running
    ensures forall j :: j in s.life && (s.life[j].Accounted? || s.life[j].Storing?) ==> s.life[j].o.Failed?
  {
    hide KeysP, OpenP, QueueP, UnitsP, ProgressP, OnceP, CauseP, FatesP, FailedTask, BusyOf;
  }

  lemma TakeInv(s: State)
    requires Inv(s) && Enabled(s, Take)
    ensures Inv(Next(s, Take))
  {
    hide KeysP, OpenP, JobsP, QueueP, UnitsP, ProgressP, OnceP, CauseP, FatesP, FailedTask, BusyOf, AllSettledOk, At;
    var j := s.queue[0];
    TakeQueue(s.queue, s.life, s.window);
    MoveJobs(s.units, s.life, InCount(s), InDelivery(s), j, Held);
    MoveCauses(s.units, s.life, s.stop.Some?, s.once == Running, s.pc.PrepCancel? || s.pc.HeadCancel?, s.ctx, s.broken, j, Held);
    ActiveTask(s.queue, s.life, s.window, j);
    WorkerInv(s, Next(s, Take));
  }

  lemma FinishInv(s: State, j: Job, o: Outcome)
    requires Inv(s) && Enabled(s, Finish(j, o))
    ensures Inv(Next(s, Finish(j, o)))
  {
    hide KeysP, OpenP, JobsP, QueueP, UnitsP, ProgressP, OnceP, CauseP, FatesP, FailedTask, BusyOf, AllSettledOk, At;
    var broken := s.broken || o.Failed?;
    MoveQueue(s.queue, s.life, s.window, j, Returned(o));
    MoveJobs(s.units, s.life, InCount(s), InDelivery(s), j, Returned(o));
    MoreBroken(s.units, s.life, s.ctx, s.broken, broken);
    MoveCauses(s.units, s.life, s.stop.Some?, s.once == Running, s.pc.PrepCancel? || s.pc.HeadCancel?, s.ctx, broken, j, Returned(o));
    ActiveTask(s.queue, s.life, s.window, j);
    WorkerInv(s, Next(s, Finish(j, o)));
  }

  lemma RecordInv(s: State, j: Job)
    requires Inv(s) && Enabled(s, Record(j))
    ensures Inv(Next(s, Record(j)))
  {
    hide KeysP, OpenP, JobsP, QueueP, UnitsP, ProgressP, OnceP, CauseP, FatesP, FailedTask, BusyOf, AllSettledOk, At;
    OwnRuns(s);
    var p := if s.once == Fresh then Storing(s.life[j].o) else Settled(s.life[j].o);
    MoveQueue(s.queue, s.life, s.window, j, p);
    MoveJobs(s.units, s.life, InCount(s), InDelivery(s), j, p);
    RecordCauses(s.units, s.life, s.stop.Some?, s.ctx, s.broken, j, s.pc.PrepCancel? || s.pc.HeadCancel?, s.once);
    ActiveTask(s.queue, s.life, s.window, j);
    RecordedUnit(s.units, s.life, InDelivery(s), s.ctx, s.broken, j);
    WorkerInv(s, Next(s, Record(j)));
  }

  lemma CancelByInv(s: State, j: Job)
    requires Inv(s) && Enabled(s, CancelBy(j))
    ensures Inv(Next(s, CancelBy(j)))
  {
    hide KeysP, OpenP, JobsP, QueueP, UnitsP, ProgressP, OnceP, CauseP, FatesP, FailedTask, BusyOf, AllSettledOk, At;
    OwnRuns(s);
    MoveQueue(s.queue, s.life, s.window, j, Settled(s.life[j].o));
    MoveJobs(s.units, s.life, InCount(s), InDelivery(s), j, Settled(s.life[j].o));
    CancelCauses(s.units, s.life, s.stop.Some?, s.pc.PrepCancel? || s.pc.HeadCancel?, s.ctx, s.broken, s.once, j);
    ActiveTask(s.queue, s.life, s.window, j);
    WorkerInv(s, Next(s, CancelBy(j)));
  }

  lemma AccountInv(s: State, j: Job)
    requires Inv(s) && Enabled(s, Account(j))
    ensures Inv(Next(s, Account(j)))
  {
    hide KeysP, OpenP, JobsP, QueueP, UnitsP, ProgressP, OnceP, CauseP, FatesP, FailedTask, BusyOf, AllSettledOk, At;
    var p := AfterAccount(s.life[j].o);
    AccountNotSealed(s.units, s.life, InCount(s), InDelivery(s), j);
    MoveQueue(s.queue, s.life, s.window, j, p);
    AccountJobs(s.units, s.life, InCount(s), j);
    AccountUnits(s.units, s.life, InDelivery(s), j);
    AccountProgress(s.units, j.unit, p.o, s.done, s.next);
    AccountKeys(s.units, s.fates, s.prep, j.unit, s.units[j.unit].TaskReturned(p.o));
    MoveCauses(s.units, s.life, s.stop.Some?, s.once == Running, s.pc.PrepCancel? || s.pc.HeadCancel?, s.ctx, s.broken, j, p);
    AccountCause(s.units, s.life, s.ctx, s.broken, j);
    ActiveTask(s.queue, s.life, s.window, j);
    WorkerInv(s, Next(s, Account(j)));
  }

  lemma UserData(s: State)
    requires Data(s)
    ensures Data(s.(ctx := true, user := true))
  {
    hide KeysP, OpenP, JobsP, QueueP, UnitsP, ProgressP, OnceP, FatesP, FailedTask, BusyOf;
  }

  lemma UserAt(s: State)
    requires Base(s) && At(s) && !s.pc.Done?
    ensures Base(s.(ctx := true, user := true)) && At(s.(ctx := true, user := true))
  {
    hide FailedTask, BusyOf, AllSettledOk;
  }

  // The steps whose proofs look into the open list, with the list given.

  lemma FillAt(s: State, c: Choice)
    requires Inv(s) && QuietStep(s, c) && s.pc.Fill?
    ensures Base(CoordNext(s, c)) && At(CoordNext(s, c))
  {
    hide Base, At;
    if c.Prepared? {
      FillFailedAt(s, c);
    } else {
      FillFullAt(s);
    }
  }

  lemma StopAt(s: State)
    requires Inv(s) && CoordEnabled(s, Go) && (s.pc.PrepStore? || s.pc.PrepCancel? || s.pc.HeadStore? || s.pc.HeadCancel?)
    ensures Base(CoordNext(s, Go)) && At(CoordNext(s, Go))
    ensures s.once == Fresh <==> s.stop.None?
  {
    hide At;
    if s.pc.PrepStore? {
      PrepStoreAt(s);
    } else if s.pc.PrepCancel? {
      PrepCancelAt(s);
    } else if s.pc.HeadStore? {
      HeadStoreAt(s);
    } else {
      HeadCancelAt(s);
    }
  }

  lemma HeadAt(s: State, c: Choice)
    requires Inv(s) && CoordEnabled(s, c) && (s.pc.Wait? || s.pc.Check? || s.pc.Commit? || s.pc.Discard?)
    ensures Base(CoordNext(s, c)) && At(CoordNext(s, c))
  {
    hide Base, At;
    if s.pc.Wait? {
      WaitAt(s);
    } else if s.pc.Check? {
      CheckAt(s);
    } else if s.pc.Commit? {
      CommitAt(s, c);
    } else {
      DiscardAt(s);
    }
  }
}
