/** A whole execution session on one disk: the units of the session are component
    runs, their encodes overlap, they commit in order or are discarded, and no
    media is lost on the way. */
module SessionDisk {
  import opened Prelude
  import opened Disk
  import opened Executor
  import opened ExecutorProof
  import opened ExecutorStaging
  import opened ExecutorOutcome
  import opened Footprint
  import ExecutorStatus
  import Tracker
  import Session
  import SessionProof
  import SessionTheorems

  /** The staging of one unit. */
  datatype Stand = Stand(temps: seq<Path>, tasks: seq<Task>)

  /** The disk, the staging of every prepared unit, and what ended units reported. */
  datatype Bench = Bench(files: Files, stands: map<nat, Stand>, reports: map<nat, Report>)

  function ShopOf(b: Bench, u: nat): Shop
    requires u in b.stands
  {
    Shop(b.files, b.stands[u].temps, b.stands[u].tasks)
  }

  // ---------- what the session's steps do to the disk ----------

  predicate Opens(s: Session.State, a: Session.Action) {
    a.Coord? && s.pc.Fill? && |s.open| < s.window && s.next < s.n && a.c.Prepared? && a.c.r.PrepOk?
  }

  /** The unit a step commits or discards. */
  function Resolves(s: Session.State, a: Session.Action): Option<nat>
    requires Session.Enabled(s, a)
  {
    if !a.Coord? then None
    else if s.pc.Commit? then Some(s.open[0])
    else if s.pc.Discard? && s.pc.at < |s.open| && s.pc.except != Some(s.open[s.pc.at]) then Some(s.open[s.pc.at])
    else if s.pc.Report? then
      var stop := Session.StopToReport(s, s.pc.end);
      if stop.Some? && stop.value.open && stop.value.unit in s.fates then Some(stop.value.unit) else None
    else None
  }

  function EncodeStep(c: Component, b: Bench, u: nat, m: Move): Bench {
    if u in b.stands && CanMove(c.plan, ShopOf(b, u), m) then
      var next := Moved(c.env, c.plan, ShopOf(b, u), m);
      Bench(next.files, b.stands[u := Stand(next.temps, next.tasks)], b.reports)
    else b
  }

  function Ended(b: Bench, u: nat, run: Run): Bench {
    Bench(run.w.files, b.stands, b.reports[u := run.report])
  }

  function CommitOf(c: Component, b: Bench, u: nat, clock: nat): Run
    requires u in b.stands && |b.stands[u].temps| == |c.plan.encodes|
  {
    CommitAll(Job(c.env, c.plan, b.stands[u].temps), World(b.files, clock))
  }

  function DiscardOf(c: Component, b: Bench, u: nat, clock: nat, cause: RunStatus): Run
    requires u in b.stands
  {
    Discard(Job(c.env, c.plan, b.stands[u].temps), World(b.files, clock), cause)
  }

  /** What a commit tells the session is what its run reported. */
  predicate Tells(res: Session.CommitResult, report: Report) {
    match report.status
    case Succeeded => res.status == Session.UnitSucceeded
    case Failed => res.status.UnitFailed?
    case Canceled => res.status == Session.UnitCanceled
  }

  /** A commit answers what its run reported, and looks at the session's context. */
  ghost predicate Answers(units: seq<Component>, s: Session.State, res: Session.CommitResult, b: Bench, clock: nat)
    requires s.open != [] && s.open[0] < |units| && s.open[0] in b.stands && |b.stands[s.open[0]].temps| == |units[s.open[0]].plan.encodes|
  {
    var run := CommitOf(units[s.open[0]], b, s.open[0], clock);
    && Tells(res, run.report)
    && (ExecutorStatus.SeenCanceled(units[s.open[0]].env, clock, run.w.clock) ==> s.ctx)
  }

  /** That a commit reports a cancellation only under a canceled context, which the
      session's machine asks of every commit, holds of every commit run. */
  lemma CommitsKeepThePromise(units: seq<Component>, s: Session.State, res: Session.CommitResult, b: Bench, clock: nat)
    requires s.pc.Commit? && Session.HasHead(s)
    requires s.open[0] < |units| && s.open[0] in b.stands && |b.stands[s.open[0]].temps| == |units[s.open[0]].plan.encodes|
    requires Answers(units, s, res, b, clock)
    ensures Session.CoordEnabled(s, Session.Committing(res))
  {
    hide CommitAll;
    var c, v := units[s.open[0]], s.open[0];
    var job := Job(c.env, c.plan, b.stands[v].temps);
    if CommitAll(job, World(b.files, clock)).report.status == Canceled {
      ExecutorStatus.CommitCanceledIsSeen(job, World(b.files, clock));
    }
  }

  /** The disk after a step. A unit is prepared when the gate let it through on
      the disk as it was then; a task answers what its encode did. */
  ghost predicate Follows(units: seq<Component>, s: Session.State, a: Session.Action, b: Bench, t: Bench)
    requires Session.Enabled(s, a) && s.n == |units|
  {
    if Opens(s, a) then
      && s.prep < |units|
      && var c := units[s.prep];
         && |c.plan.encodes| == a.c.r.tasks && Admitted(c.plan, b.files) && NamesFree(c.env, c.plan, b.files)
         && t == b.(stands := b.stands[s.prep := Stand(OpenShop(c.plan, b.files).temps, OpenShop(c.plan, b.files).tasks)])
    else if a.Take? then
      s.queue[0].unit < |units| && t == EncodeStep(units[s.queue[0].unit], b, s.queue[0].unit, Start(s.queue[0].task))
    else if a.Finish? then
      && a.j.unit < |units| && t == EncodeStep(units[a.j.unit], b, a.j.unit, Finish(a.j.task))
      && a.j.unit in t.stands && a.j.task < |t.stands[a.j.unit].tasks|
      && t.stands[a.j.unit].tasks[a.j.task] == Finished(a.o == Tracker.Ok)
    else if a.Coord? && s.pc.Commit? then
      && s.open[0] < |units| && s.open[0] in b.stands && |b.stands[s.open[0]].temps| == |units[s.open[0]].plan.encodes|
      && exists clock :: t == Ended(b, s.open[0], CommitOf(units[s.open[0]], b, s.open[0], clock)) && Answers(units, s, a.c.res, b, clock)
    else if Resolves(s, a).Some? then
      var u := Resolves(s, a).value;
      && u < |units| && u in b.stands
      && exists clock, cause :: cause != Succeeded && t == Ended(b, u, DiscardOf(units[u], b, u, clock, cause))
    else t == b
  }

  ghost predicate Reaches(units: seq<Component>, s: Session.State, b: Bench, actions: seq<Session.Action>, s': Session.State, b': Bench)
    requires s.n == |units|
    decreases actions
  {
    if actions == [] then s == s' && b == b'
    else
      && Session.Enabled(s, actions[0])
      && Session.Next(s, actions[0]).n == |units|
      && exists mid :: Follows(units, s, actions[0], b, mid) && Reaches(units, Session.Next(s, actions[0]), mid, actions[1..], s', b')
  }

  // ---------- what is promised ----------

  /** Distinct components: what one may touch no other relies on. */
  ghost predicate Apart(units: seq<Component>) {
    forall u: nat, v: nat, p: Path :: u < |units| && v < |units| && u != v && Touches(units[v], p) ==> !Needs(units[u], p)
  }

  /** No original is called like a file the session makes for itself. */
  ghost predicate FreshNames(units: seq<Component>, originals: Files) {
    forall u: nat, p: Path :: u < |units| && p in originals ==> !IsOwnName(units[u], p)
  }

  /** A hard run may replace an original by its landed output, or remove it as
      obsolete once every output had landed. */
  predicate GivenUp(c: Component, report: Report, p: Path) {
    !c.plan.soft && (p in report.committed || (p in report.removed && report.committed == Targets(c.plan.encodes)))
  }

  /** An original is at its path, at a path some unit reported, or given up. */
  ghost predicate Kept(units: seq<Component>, b: Bench, p: Path, c: Content) {
    || (p in b.files && b.files[p] == c)
    || (exists u :: u in b.reports && KeptAt(c, b.files, b.reports[u].recovery))
    || (exists u :: u in b.reports && u < |units| && GivenUp(units[u], b.reports[u], p))
  }

  // ---------- what the session's steps do to its own state ----------

  /** How far a task is, as the disk knows it. */
  datatype View = Waiting | InHand | Over(ok: bool)

  function Seen(life: map<Session.Job, Session.Phase>, j: Session.Job): View {
    if j !in life || life[j].Queued? then Waiting
    else if life[j].Held? then InHand
    else Over(life[j].o == Tracker.Ok)
  }

  predicate Matches(stage: View, task: Task) {
    match stage
    case Waiting => task == Idle
    case InHand => task == Working || task == Finished(false)
    case Over(ok) => task == Finished(ok)
  }

  predicate TasksMatch(life: map<Session.Job, Session.Phase>, u: nat, tasks: seq<Task>) {
    forall k: nat :: k < |tasks| ==> Matches(Seen(life, Session.Job(u, k)), tasks[k])
  }

  /** No unit comes or goes, and only `resolved` may change its fate. */
  ghost predicate Frame(s: Session.State, t: Session.State, resolved: Option<nat>) {
    && t.n == s.n
    && (forall u: nat :: u in t.units <==> u in s.units)
    && (forall u: nat :: u in s.units && u in t.units ==> t.units[u].expected == s.units[u].expected)
    && (forall u: nat :: u in s.fates <==> u in t.fates)
    && (forall u: nat :: u in s.fates && u in t.fates ==> if resolved == Some(u) then |t.fates[u]| == |s.fates[u]| + 1 else t.fates[u] == s.fates[u])
  }

  /** No task moved, as the disk sees it. */
  ghost predicate TasksStay(s: Session.State, t: Session.State) {
    forall j :: Seen(t.life, j) == Seen(s.life, j)
  }

  lemma OpenFrame(s: Session.State, a: Session.Action)
    requires Session.Enabled(s, a) && Opens(s, a) && s.prep !in s.units && s.prep !in s.fates
    ensures var t := Session.Next(s, a); var u := s.prep;
      && t.n == s.n && t.life == s.life
      && t.units == s.units[u := Tracker.Opened(a.c.r.tasks)] && t.fates == s.fates[u := []]
  {
    hide Session.LookNext, Session.HeadNext, Session.TeardownNext;
  }

  lemma LookFrame(s: Session.State, c: Session.Choice)
    requires s.pc.ReadStop? || s.pc.ReadCtx?
    ensures Frame(s, Session.LookNext(s), None) && TasksStay(s, Session.LookNext(s))
  {
    hide Seen;
  }

  lemma FillFrame(s: Session.State, c: Session.Choice)
    requires Session.CoordEnabled(s, c) && s.pc.Fill? && !Opens(s, Session.Coord(c))
    ensures Frame(s, Session.AdmitNext(s, c), None) && TasksStay(s, Session.AdmitNext(s, c))
  {
    hide Seen;
  }

  lemma DeliverFrame(s: Session.State, c: Session.Choice)
    requires Session.CoordEnabled(s, c) && s.pc.Deliver? && Session.Job(s.prep - 1, s.pc.k) !in s.life
    ensures Frame(s, Session.AdmitNext(s, c), None) && TasksStay(s, Session.AdmitNext(s, c))
  {
  }

  lemma CountFrame(s: Session.State, c: Session.Choice)
    requires Session.CoordEnabled(s, c) && (s.pc.Count? || s.pc.EndNormal? || s.pc.EndCut?)
    ensures Frame(s, Session.AdmitNext(s, c), None) && TasksStay(s, Session.AdmitNext(s, c))
  {
    hide Seen;
  }

  lemma PrepFrame(s: Session.State, c: Session.Choice)
    requires Session.CoordEnabled(s, c) && (s.pc.PrepStore? || s.pc.PrepCancel?)
    ensures Frame(s, Session.AdmitNext(s, c), None) && TasksStay(s, Session.AdmitNext(s, c))
  {
    hide Seen;
  }

  lemma HeadFrame(s: Session.State, c: Session.Choice)
    requires Session.CoordEnabled(s, c)
    requires s.pc.Wait? || s.pc.Check? || s.pc.Commit? || s.pc.Persist? || s.pc.Settle? || s.pc.HeadStore? || s.pc.HeadCancel?
    ensures Frame(s, Session.HeadNext(s, c), if s.pc.Commit? then Some(s.open[0]) else None) && TasksStay(s, Session.HeadNext(s, c))
  {
    hide Seen;
  }

  lemma ShutFrame(s: Session.State)
    requires s.pc.ShutCancel? || s.pc.ShutClose? || s.pc.ShutWait?
    ensures Frame(s, Session.TeardownNext(s), None) && TasksStay(s, Session.TeardownNext(s))
  {
    hide Seen;
  }

  lemma ReportFrame(s: Session.State)
    requires Session.CoordEnabled(s, Session.Go) && s.pc.Report?
    ensures Frame(s, Session.TeardownNext(s), Resolves(s, Session.Coord(Session.Go))) && TasksStay(s, Session.TeardownNext(s))
  {
    hide Seen, Session.StopToReport, Session.StatusOf;
    var t := Session.TeardownNext(s);
    assert t.units == s.units && t.n == s.n && t.life == s.life;
  }

  lemma DiscardResolves(s: Session.State)
    requires Session.CoordEnabled(s, Session.Go) && s.pc.Discard?
    ensures Resolves(s, Session.Coord(Session.Go)) ==
      if s.pc.at < |s.open| && s.pc.except != Some(s.open[s.pc.at]) then Some(s.open[s.pc.at]) else None
    ensures s.pc.at < |s.open| ==> s.open[s.pc.at] in s.fates
  {
    hide Session.StopToReport, Session.HasHead, Session.InFlight, Session.BusyOf;
  }

  lemma DiscardOne(s: Session.State, at: nat, except: Option<nat>, status: Session.Status)
    requires s.pc == Session.Discard(at, except, status) && at < |s.open| && s.open[at] in s.fates
    ensures Session.TeardownNext(s) ==
      s.(fates := if except == Some(s.open[at]) then s.fates else Session.Resolve(s.fates, s.open[at], Session.Discarded), pc := Session.Discard(at + 1, except, status))
  {
    hide Session.StopToReport, Session.StatusOf, Session.Resolve;
  }

  lemma DiscardNone(s: Session.State)
    requires s.pc.Discard? && s.pc.at >= |s.open|
    ensures Session.TeardownNext(s) == s.(pc := Session.Done(s.pc.status))
  {
    hide Session.StopToReport, Session.StatusOf, Session.Resolve;
  }

  lemma DiscardFrame(s: Session.State)
    requires Session.CoordEnabled(s, Session.Go) && s.pc.Discard?
    ensures Frame(s, Session.TeardownNext(s), Resolves(s, Session.Coord(Session.Go))) && TasksStay(s, Session.TeardownNext(s))
  {
    hide Seen, Session.TeardownNext, Resolves, Session.CoordEnabled;
    DiscardResolves(s);
    if s.pc.at < |s.open| {
      DiscardOne(s, s.pc.at, s.pc.except, s.pc.status);
    } else {
      DiscardNone(s);
    }
  }

  lemma CoordFrame(s: Session.State, c: Session.Choice)
    requires Session.CoordEnabled(s, c) && !Opens(s, Session.Coord(c))
    requires s.pc.Deliver? && s.prep > 0 ==> Session.Job(s.prep - 1, s.pc.k) !in s.life
    ensures Frame(s, Session.CoordNext(s, c), Resolves(s, Session.Coord(c))) && TasksStay(s, Session.CoordNext(s, c))
  {
    hide Frame, TasksStay, Session.LookNext, Session.AdmitNext, Session.HeadNext, Session.TeardownNext, Session.StopToReport;
    match s.pc
    case ReadStop(_) => LookFrame(s, c);
    case ReadCtx(_) => LookFrame(s, c);
    case Fill => FillFrame(s, c);
    case Deliver(_) => DeliverFrame(s, c);
    case Count(_) => CountFrame(s, c);
    case EndNormal => CountFrame(s, c);
    case EndCut => CountFrame(s, c);
    case PrepStore(_) => PrepFrame(s, c);
    case PrepCancel(_) => PrepFrame(s, c);
    case Wait => HeadFrame(s, c);
    case Check => HeadFrame(s, c);
    case Commit => HeadFrame(s, c);
    case Persist(_) => HeadFrame(s, c);
    case Settle(_) => HeadFrame(s, c);
    case HeadStore(_) => HeadFrame(s, c);
    case HeadCancel(_) => HeadFrame(s, c);
    case ShutCancel(_) => ShutFrame(s);
    case ShutClose(_) => ShutFrame(s);
    case ShutWait(_) => ShutFrame(s);
    case Report(_) => ReportFrame(s);
    case Discard(_, _, _) => DiscardFrame(s);
    case Done(_) =>
  }

  lemma WorkerFrame(s: Session.State, a: Session.Action)
    requires Session.Enabled(s, a) && !a.Coord?
    ensures Frame(s, Session.Next(s, a), None)
    ensures !a.Take? && !a.Finish? ==> TasksStay(s, Session.Next(s, a))
  {
    hide Session.CoordNext, Session.CoordEnabled, Session.BusyOf;
  }

  lemma TakeSeen(s: Session.State, j: Session.Job)
    requires Session.Enabled(s, Session.Take)
    ensures Seen(Session.Next(s, Session.Take).life, j) == if j == s.queue[0] then InHand else Seen(s.life, j)
  {
    hide Session.BusyOf;
  }

  lemma FinishSeen(s: Session.State, a: Session.Action, j: Session.Job)
    requires Session.Enabled(s, a) && a.Finish?
    ensures Seen(Session.Next(s, a).life, j) == if j == a.j then Over(a.o == Tracker.Ok) else Seen(s.life, j)
  {
    hide Session.BusyOf;
  }

  // ---------- the invariant ----------

  /** Every prepared unit has its staging, of the size its tasks were declared. */
  ghost predicate Sized(units: seq<Component>, s: Session.State, b: Bench) {
    && s.n == |units|
    && forall u: nat :: u in s.units ==>
      u < |units| && u in b.stands && |b.stands[u].tasks| == |b.stands[u].temps| == |units[u].plan.encodes| == s.units[u].expected
  }

  /** An unresolved unit is at work, and its tasks are as far as the session has
      seen them. */
  ghost predicate AllWork(units: seq<Component>, s: Session.State, b: Bench) {
    forall u: nat :: u in s.fates && s.fates[u] == [] ==> WorkingAt(units, s, b, u)
  }

  ghost predicate WorkingAt(units: seq<Component>, s: Session.State, b: Bench, u: nat) {
    u < |units| && u in b.stands && AtWork(units[u], ShopOf(b, u)) && TasksMatch(s.life, u, b.stands[u].tasks)
  }

  /** Only resolved units have reported, and only paths of their own. */
  ghost predicate Reported(units: seq<Component>, s: Session.State, b: Bench) {
    forall u: nat :: u in b.reports ==>
      u < |units| && u in s.fates && s.fates[u] != [] && forall r :: r in b.reports[u].recovery ==> Touches(units[u], r)
  }

  ghost predicate NothingLost(units: seq<Component>, originals: Files, b: Bench) {
    forall p: Path :: IsFile(originals, p) ==> Kept(units, b, p, originals[p])
  }

  ghost predicate Sound(units: seq<Component>, originals: Files, s: Session.State, b: Bench) {
    SessionProof.Inv(s) && Sized(units, s, b) && AllWork(units, s, b) && Reported(units, s, b) && NothingLost(units, originals, b)
  }

  // ---------- the disk part of a step ----------

  /** The others go on undisturbed while one unit touches its own paths. */
  lemma OthersWork(units: seq<Component>, s: Session.State, b: Bench, files: Files, v: nat)
    requires Apart(units) && AllWork(units, s, b) && v < |units|
    requires forall p: Path :: !Touches(units[v], p) ==> Same(b.files, files, p)
    ensures forall u: nat :: u in s.fates && s.fates[u] == [] && u != v ==> WorkingAt(units, s, Bench(files, b.stands, b.reports), u)
  {
    hide Touches, Needs, AtWork, TasksMatch;
    forall u: nat | u in s.fates && s.fates[u] == [] && u != v ensures WorkingAt(units, s, Bench(files, b.stands, b.reports), u) {
      assert WorkingAt(units, s, b, u);
      assert forall p: Path :: Touches(units[v], p) ==> !Needs(units[u], p);
      Undisturbed(units[u], ShopOf(b, u), files);
    }
  }

  /** What an encode of one unit does to what was kept: nothing. */
  lemma KeptWhileEncoding(units: seq<Component>, originals: Files, s: Session.State, b: Bench, t: Bench, v: nat)
    requires Apart(units) && FreshNames(units, originals) && Reported(units, s, b) && NothingLost(units, originals, b)
    requires v < |units| && v in s.fates && s.fates[v] == [] && t.reports == b.reports
    requires forall p: Path :: !IsTemp(units[v].env, units[v].plan, p) ==> Same(b.files, t.files, p)
    ensures NothingLost(units, originals, t)
  {
    hide IsTemp, IsAside, IsTarget, GivenUp;
    forall p: Path | IsFile(originals, p) ensures Kept(units, t, p, originals[p]) {
      assert !IsOwnName(units[v], p);
      if u :| u in b.reports && KeptAt(originals[p], b.files, b.reports[u].recovery) {
        var r :| r in b.reports[u].recovery && r in b.files && b.files[r] == originals[p];
        NotANameOf(units, s, b, u, v, r);
        assert KeptAt(originals[p], t.files, t.reports[u].recovery);
      }
    }
  }

  /** What one unit reported is no path another one needs. */
  lemma NotANameOf(units: seq<Component>, s: Session.State, b: Bench, u: nat, v: nat, r: Path)
    requires Apart(units) && Reported(units, s, b) && u in b.reports && r in b.reports[u].recovery
    requires v < |units| && v in s.fates && s.fates[v] == []
    ensures u != v && u < |units| && !Needs(units[v], r)
  {
    hide Touches, Needs;
  }

  /** The end of a unit keeps everything: what was at a path or at a reported
      path is still there, is reported by this unit, or is given up by it. */
  lemma KeptByTheEnd(units: seq<Component>, originals: Files, s: Session.State, b: Bench, v: nat, run: Run)
    requires Apart(units) && FreshNames(units, originals) && Reported(units, s, b) && NothingLost(units, originals, b)
    requires v < |units| && v in s.fates && s.fates[v] == [] && v !in b.reports && Ends(units[v], b.files, run)
    ensures NothingLost(units, originals, Ended(b, v, run))
  {
    hide IsTemp, IsAside, IsTarget, GivenUp, Touches, TellsTheTruth, OneUpdate, Conserved;
    var t := Ended(b, v, run);
    forall p: Path | IsFile(originals, p) ensures Kept(units, t, p, originals[p]) {
      assert !IsOwnName(units[v], p);
      var c := originals[p];
      if p in b.files && b.files[p] == c {
        MovedOrGivenUp(units[v], b.files, run, p);
        assert t.reports[v] == run.report;
      } else if u :| u in b.reports && KeptAt(c, b.files, b.reports[u].recovery) {
        var r :| r in b.reports[u].recovery && r in b.files && b.files[r] == c;
        NotANameOf(units, s, b, u, v, r);
        MovedOrGivenUp(units[v], b.files, run, r);
        if GivenUp(units[v], run.report, r) { GivenUpIsOwn(units[v], b.files, run, r); }
        assert t.reports[u] == b.reports[u] && t.reports[v] == run.report;
        if SameAt(b.files, run.w.files, r) { assert KeptAt(c, t.files, t.reports[u].recovery); }
      } else {
        var u :| u in b.reports && u < |units| && GivenUp(units[u], b.reports[u], p);
        assert t.reports[u] == b.reports[u];
      }
    }
  }

  lemma MovedOrGivenUp(c: Component, files: Files, run: Run, p: Path)
    requires Ends(c, files, run) && IsFile(files, p) && !IsTemp(c.env, c.plan, p)
    ensures SameAt(files, run.w.files, p) || KeptAt(files[p], run.w.files, run.report.recovery) || GivenUp(c, run.report, p)
  {
    hide IsTemp, TellsTheTruth, OneUpdate, Touches;
    assert IsFile(Without(c, files), p);
  }

  /** Only targets and removed files are given up. */
  lemma GivenUpIsOwn(c: Component, files: Files, run: Run, r: Path)
    requires Ends(c, files, run) && GivenUp(c, run.report, r)
    ensures Changes(c, r)
  {
    hide IsTemp, IsAside, Conserved, OneUpdate, Touches;
    var k, m := |run.report.committed|, |run.report.removed|;
    if r in run.report.committed {
      var i :| 0 <= i < k && run.report.committed[i] == r;
      assert Targets(c.plan.encodes)[..k][i] == c.plan.encodes[i].target;
      assert IsTarget(c, r);
    } else {
      var j :| 0 <= j < m && run.report.removed[j] == r;
      assert c.plan.removes[..m][j] == c.plan.removes[j];
    }
  }

  // ---------- one step ----------

  lemma KnownJob(s: Session.State, j: Session.Job)
    requires SessionProof.Inv(s) && j in s.life
    ensures j.unit in s.units && j.unit in s.fates && j.unit < s.prep && j.task < s.units[j.unit].expected
  {
    hide SessionProof.QueueP, SessionProof.OnceP, SessionProof.CauseP, SessionProof.FatesP, SessionProof.ProgressP, SessionProof.OpenP, SessionProof.FailedTask;
  }

  /** A task that waits or is in hand belongs to an unresolved unit. */
  lemma ActiveUnresolved(s: Session.State, j: Session.Job)
    requires SessionProof.Inv(s) && j in s.life && (s.life[j].Queued? || s.life[j].Held?)
    ensures j.unit in s.fates && s.fates[j.unit] == []
  {
    KnownJob(s, j);
    SessionTheorems.FateOf(s, j.unit);
    if j.unit < s.done {
      SessionTheorems.CommittedIsBack(s, j.unit);
    } else if s.fates[j.unit] != [] {
      ActiveNotDrained(s, j);
    }
  }

  lemma ActiveNotDrained(s: Session.State, j: Session.Job)
    requires SessionProof.Data(s) && j in s.life && (s.life[j].Queued? || s.life[j].Held?)
    ensures !SessionProof.Drained(s)
  {
    hide SessionProof.JobsP, SessionProof.UnitsP, SessionProof.OnceP, SessionProof.CauseP, SessionProof.FatesP, SessionProof.ProgressP, SessionProof.OpenP;
    if s.life[j].Held? {
      assert j in Session.BusyOf(s.life);
    } else {
      assert j in s.queue;
    }
  }

  lemma NewTask(s: Session.State)
    requires SessionProof.Inv(s)
    ensures s.pc.Deliver? && s.prep > 0 ==> Session.Job(s.prep - 1, s.pc.k) !in s.life
  {
    if s.pc.Deliver? && s.prep > 0 {
      SessionTheorems.NewTaskIsNew(s);
    }
  }

  lemma OpenSound(units: seq<Component>, originals: Files, s: Session.State, a: Session.Action, b: Bench, t: Bench)
    requires Sound(units, originals, s, b) && Session.Enabled(s, a) && Opens(s, a) && Follows(units, s, a, b, t)
    ensures var n := Session.Next(s, a); Sized(units, n, t) && AllWork(units, n, t) && Reported(units, n, t) && NothingLost(units, originals, t)
  {
    hide AtWork, Touches, GivenUp, Admitted, NamesFree, Explained, Kept, AllWork, Reported, NothingLost, Sized;
    assert SessionProof.KeysP(s.units, s.fates, s.prep);
    OpenFrame(s, a);
    var n, c := Session.Next(s, a), units[s.prep];
    hide Session.Next, SessionProof.Inv, Session.Enabled, Opens;
    OpenBench(units, originals, s, n, b, t, a.c.r.tasks);
  }

  lemma OpenBench(units: seq<Component>, originals: Files, s: Session.State, n: Session.State, b: Bench, t: Bench, tasks: nat)
    requires Sound(units, originals, s, b) && s.prep < |units| && s.prep !in s.units && s.prep !in s.fates
    requires n.n == s.n && n.life == s.life && n.units == s.units[s.prep := Tracker.Opened(tasks)] && n.fates == s.fates[s.prep := []]
    requires var c := units[s.prep]; |c.plan.encodes| == tasks && Admitted(c.plan, b.files) && NamesFree(c.env, c.plan, b.files)
    requires var o := OpenShop(units[s.prep].plan, b.files); t == b.(stands := b.stands[s.prep := Stand(o.temps, o.tasks)])
    ensures Sized(units, n, t) && AllWork(units, n, t) && Reported(units, n, t) && NothingLost(units, originals, t)
  {
    hide AtWork, Touches, GivenUp, Admitted, NamesFree, Explained, Kept, SessionProof.Inv, TasksMatch, NothingLost;
    var u, c := s.prep, units[s.prep];
    StartsWork(c, b.files);
    assert ShopOf(t, u) == OpenShop(c.plan, b.files);
    NoTasksYet(s, u, t.stands[u].tasks);
    SameKept(units, originals, b, t);
    forall v: nat | v in n.fates && n.fates[v] == [] && v != u ensures WorkingAt(units, n, t, v) {
      assert WorkingAt(units, s, b, v);
      assert ShopOf(t, v) == ShopOf(b, v);
    }
  }

  lemma SameKept(units: seq<Component>, originals: Files, b: Bench, t: Bench)
    requires NothingLost(units, originals, b) && t.files == b.files && t.reports == b.reports
    ensures NothingLost(units, originals, t)
  {
    hide GivenUp;
    forall p: Path | IsFile(originals, p) ensures Kept(units, t, p, originals[p]) {
      assert Kept(units, b, p, originals[p]);
    }
  }

  lemma NoTasksYet(s: Session.State, u: nat, tasks: seq<Task>)
    requires SessionProof.Inv(s) && u !in s.units && forall k :: 0 <= k < |tasks| ==> tasks[k] == Idle
    ensures TasksMatch(s.life, u, tasks)
  {
    forall k: nat | k < |tasks| ensures Matches(Seen(s.life, Session.Job(u, k)), tasks[k]) {
      if Session.Job(u, k) in s.life { KnownJob(s, Session.Job(u, k)); }
    }
  }

  /** An encode step of an unresolved unit. */
  lemma EncodeSound(units: seq<Component>, originals: Files, s: Session.State, b: Bench, v: nat, m: Move)
    requires Apart(units) && FreshNames(units, originals) && Sound(units, originals, s, b)
    requires v < |units| && v in s.fates && s.fates[v] == []
    ensures var t := EncodeStep(units[v], b, v, m);
      && NothingLost(units, originals, t) && t.reports == b.reports && v in t.stands && AtWork(units[v], ShopOf(t, v))
      && Sized(units, s, t)
      && (forall u: nat :: u in s.fates && s.fates[u] == [] && u != v ==> WorkingAt(units, s, t, u))
  {
    hide AtWork, Touches, Needs, GivenUp, Kept, SessionProof.Inv, Apart, FreshNames, TasksMatch, IsOwnName, Moved, Reported, NothingLost;
    assert WorkingAt(units, s, b, v);
    var c := units[v];
    if CanMove(c.plan, ShopOf(b, v), m) {
      var next := Moved(c.env, c.plan, ShopOf(b, v), m);
      var t := EncodeStep(c, b, v, m);
      MovesOn(c, ShopOf(b, v), m);
      OnlyTemps(c, b.files, t.files);
      KeptWhileEncoding(units, originals, s, b, t, v);
      OthersWork(units, s, b, t.files, v);
      assert ShopOf(t, v) == next;
      forall u: nat | u in s.fates && s.fates[u] == [] && u != v ensures WorkingAt(units, s, t, u) {
        assert WorkingAt(units, s, Bench(t.files, b.stands, b.reports), u);
        assert ShopOf(t, u) == ShopOf(Bench(t.files, b.stands, b.reports), u);
      }
    }
  }

  lemma OnlyTemps(c: Component, a: Files, b: Files)
    requires forall p: Path :: !IsTemp(c.env, c.plan, p) ==> Same(a, b, p)
    ensures forall p: Path :: !Touches(c, p) ==> Same(a, b, p)
  {
    hide IsTemp, IsAside, IsTarget;
  }

  lemma MatchAfter(s: Session.State, n: Session.State, u: nat, tasks: seq<Task>)
    requires TasksMatch(s.life, u, tasks) && forall k: nat :: k < |tasks| ==> Seen(n.life, Session.Job(u, k)) == Seen(s.life, Session.Job(u, k))
    ensures TasksMatch(n.life, u, tasks)
  {
    hide Seen, Matches;
  }

  /** Where the session state changed only in tasks, the others still work. */
  lemma StillWorking(units: seq<Component>, s: Session.State, n: Session.State, b: Bench, u: nat)
    requires WorkingAt(units, s, b, u)
    requires forall k: nat :: Seen(n.life, Session.Job(u, k)) == Seen(s.life, Session.Job(u, k))
    ensures WorkingAt(units, n, b, u)
  {
    hide AtWork, Seen, TasksMatch;
    MatchAfter(s, n, u, b.stands[u].tasks);
  }

  /** Only slot `k` changed. */
  predicate OneChanged(a: seq<Task>, b: seq<Task>, k: nat) {
    k < |a| == |b| && forall i :: 0 <= i < |a| && i != k ==> b[i] == a[i]
  }

  lemma SlotMatch(s: Session.State, n: Session.State, a: seq<Task>, b: seq<Task>, j: Session.Job)
    requires TasksMatch(s.life, j.unit, a) && OneChanged(a, b, j.task)
    requires forall x :: x != j ==> Seen(n.life, x) == Seen(s.life, x)
    requires Matches(Seen(n.life, j), b[j.task])
    ensures TasksMatch(n.life, j.unit, b)
  {
    hide Seen, Matches;
    forall k: nat | k < |b| ensures Matches(Seen(n.life, Session.Job(j.unit, k)), b[k]) {
      if k == j.task {
        assert Session.Job(j.unit, k) == j;
      } else {
        assert Session.Job(j.unit, k) != j && b[k] == a[k];
      }
    }
  }

  /** What the slot of a task becomes when its encode starts ... */
  lemma StartSlot(c: Component, b: Bench, v: nat, k: nat)
    requires v in b.stands && ShopFits(c.plan, ShopOf(b, v)) && k < |b.stands[v].tasks| && b.stands[v].tasks[k] == Idle
    ensures var t := EncodeStep(c, b, v, Start(k));
      v in t.stands && OneChanged(b.stands[v].tasks, t.stands[v].tasks, k) && Matches(InHand, t.stands[v].tasks[k])
  {
  }

  /** ... and when it ends, or had never started. */
  lemma FinishSlot(c: Component, b: Bench, v: nat, k: nat)
    requires v in b.stands && ShopFits(c.plan, ShopOf(b, v)) && k < |b.stands[v].tasks|
    ensures var t := EncodeStep(c, b, v, Finish(k));
      v in t.stands && OneChanged(b.stands[v].tasks, t.stands[v].tasks, k)
  {
  }

  lemma TakeSound(units: seq<Component>, originals: Files, s: Session.State, b: Bench, t: Bench)
    requires Apart(units) && FreshNames(units, originals) && Sound(units, originals, s, b) && Session.Enabled(s, Session.Take) && Follows(units, s, Session.Take, b, t)
    ensures var n := Session.Next(s, Session.Take); Sized(units, n, t) && AllWork(units, n, t) && Reported(units, n, t) && NothingLost(units, originals, t)
  {
    hide AtWork, Touches, Needs, GivenUp, Kept, Apart, FreshNames, NothingLost, SessionProof.Inv, EncodeStep, Moved, Matches, OneChanged;
    var n, j := Session.Next(s, Session.Take), s.queue[0];
    SessionTheorems.TakenIsQueued(s);
    ActiveUnresolved(s, j);
    KnownJob(s, j);
    EncodeSound(units, originals, s, b, j.unit, Start(j.task));
    WorkerFrame(s, Session.Take);
    forall x ensures Seen(n.life, x) == if x == j then InHand else Seen(s.life, x) { TakeSeen(s, x); }
    WaitingIsIdle(units, s, b, j);
    StartSlot(units[j.unit], b, j.unit, j.task);
    SlotMatch(s, n, b.stands[j.unit].tasks, t.stands[j.unit].tasks, j);
    OthersStill(units, s, n, t, j);
  }

  lemma WaitingIsIdle(units: seq<Component>, s: Session.State, b: Bench, j: Session.Job)
    requires WorkingAt(units, s, b, j.unit) && j in s.life && s.life[j] == Session.Queued && j.task < |b.stands[j.unit].tasks|
    ensures b.stands[j.unit].tasks[j.task] == Idle && ShopFits(units[j.unit].plan, ShopOf(b, j.unit))
  {
    assert Matches(Seen(s.life, Session.Job(j.unit, j.task)), b.stands[j.unit].tasks[j.task]);
  }

  /** After a worker's step every unresolved unit works. */
  lemma OthersStill(units: seq<Component>, s: Session.State, n: Session.State, t: Bench, j: Session.Job)
    requires Frame(s, n, None) && Sized(units, s, t) && Reported(units, s, t)
    requires forall x :: x != j ==> Seen(n.life, x) == Seen(s.life, x)
    requires forall u: nat :: u in s.fates && s.fates[u] == [] && u != j.unit ==> WorkingAt(units, s, t, u)
    requires j.unit < |units| && j.unit in t.stands && AtWork(units[j.unit], ShopOf(t, j.unit)) && TasksMatch(n.life, j.unit, t.stands[j.unit].tasks)
    ensures Sized(units, n, t) && AllWork(units, n, t) && Reported(units, n, t)
  {
    hide AtWork, Seen, TasksMatch, Touches;
    forall u: nat | u in n.fates && n.fates[u] == [] && u != j.unit ensures WorkingAt(units, n, t, u) {
      StillWorking(units, s, n, t, u);
    }
  }

  lemma FinishSound(units: seq<Component>, originals: Files, s: Session.State, a: Session.Action, b: Bench, t: Bench)
    requires Apart(units) && FreshNames(units, originals) && Sound(units, originals, s, b) && a.Finish? && Session.Enabled(s, a) && Follows(units, s, a, b, t)
    ensures var n := Session.Next(s, a); Sized(units, n, t) && AllWork(units, n, t) && Reported(units, n, t) && NothingLost(units, originals, t)
  {
    hide AtWork, Touches, Needs, GivenUp, Kept, Apart, FreshNames, NothingLost, SessionProof.Inv, EncodeStep, Moved, OneChanged;
    var n, j := Session.Next(s, a), a.j;
    ActiveUnresolved(s, j);
    KnownJob(s, j);
    EncodeSound(units, originals, s, b, j.unit, Finish(j.task));
    WorkerFrame(s, a);
    forall x ensures Seen(n.life, x) == if x == j then Over(a.o == Tracker.Ok) else Seen(s.life, x) { FinishSeen(s, a, x); }
    assert WorkingAt(units, s, b, j.unit);
    FinishSlot(units[j.unit], b, j.unit, j.task);
    SlotMatch(s, n, b.stands[j.unit].tasks, t.stands[j.unit].tasks, j);
    OthersStill(units, s, n, t, j);
  }

  lemma ResolvesKnown(s: Session.State, a: Session.Action)
    requires Session.Enabled(s, a) && Resolves(s, a).Some?
    ensures Resolves(s, a).value in s.fates && a.Coord? && !Opens(s, a)
  {
    hide Session.StopToReport, Session.InFlight, Session.BusyOf;
  }

  /** A unit is resolved only once. */
  lemma StillUnresolved(s: Session.State, a: Session.Action)
    requires SessionProof.Inv(s) && Session.Enabled(s, a) && Resolves(s, a).Some?
    ensures var v := Resolves(s, a).value; v in s.fates && s.fates[v] == []
  {
    ResolvesKnown(s, a);
    NewTask(s);
    CoordFrame(s, a.c);
    SessionTheorems.StepInv(s, a);
    var v, t := Resolves(s, a).value, Session.Next(s, a);
    FatesKnown(s, v);
    hide SessionProof.Inv, Session.Enabled, Session.Next, Resolves, TasksStay;
    assert v in t.fates;
    FatesKnown(t, v);
    SessionTheorems.FateOf(t, v);
  }

  lemma FatesKnown(s: Session.State, v: nat)
    requires SessionProof.Inv(s) && v in s.fates
    ensures v < s.prep && v in s.units
  {
    hide SessionProof.JobsP, SessionProof.QueueP, SessionProof.UnitsP, SessionProof.OnceP, SessionProof.CauseP, SessionProof.FatesP, SessionProof.ProgressP, SessionProof.OpenP, SessionProof.At;
  }

  /** A unit that commits has everything encoded. */
  lemma HeadEncoded(units: seq<Component>, s: Session.State, a: Session.Action, b: Bench)
    requires SessionProof.Inv(s) && Sized(units, s, b) && AllWork(units, s, b) && Session.Enabled(s, a) && a.Coord? && s.pc.Commit?
    ensures var v := s.open[0]; v in s.fates && s.fates[v] == [] && WorkingAt(units, s, b, v)
    ensures AllEncoded(ShopOf(b, s.open[0])) && ShopFits(units[s.open[0]].plan, ShopOf(b, s.open[0]))
  {
    hide AtWork, Seen;
    var v := s.open[0];
    StillUnresolved(s, a);
    assert WorkingAt(units, s, b, v);
    HeadSettled(s, a);
    FatesKnown(s, v);
    forall k: nat | k < |b.stands[v].tasks| ensures b.stands[v].tasks[k] == Finished(true) {
      assert Matches(Seen(s.life, Session.Job(v, k)), b.stands[v].tasks[k]);
      SettledIsOver(s, Session.Job(v, k));
    }
  }

  lemma SettledIsOver(s: Session.State, j: Session.Job)
    requires j in s.life && s.life[j] == Session.Settled(Tracker.Ok)
    ensures Seen(s.life, j) == Over(true)
  {
  }

  lemma HeadSettled(s: Session.State, a: Session.Action)
    requires SessionProof.Inv(s) && Session.Enabled(s, a) && a.Coord? && s.pc.Commit?
    ensures var v := s.open[0]; v in s.units && forall k: nat :: k < s.units[v].expected ==>
      Session.Job(v, k) in s.life && s.life[Session.Job(v, k)] == Session.Settled(Tracker.Ok)
  {
    SessionTheorems.StepInv(s, a);
    CommitMoves(s, a.c);
    hide Session.Next, Session.CoordNext, Session.HeadNext;
    var t := Session.Next(s, a);
    SessionTheorems.CommittedIsBack(t, s.done);
  }

  lemma CommitMoves(s: Session.State, c: Session.Choice)
    requires SessionProof.Inv(s) && Session.CoordEnabled(s, c) && s.pc.Commit?
    ensures var t := Session.Next(s, Session.Coord(c));
      t.done == s.done + 1 && t.life == s.life && t.units == s.units && s.open[0] == s.done && s.done in s.units
  {
    hide SessionProof.JobsP, SessionProof.QueueP, SessionProof.UnitsP, SessionProof.OnceP, SessionProof.CauseP, SessionProof.FatesP, SessionProof.ProgressP,
         Session.LookNext, Session.AdmitNext, Session.TeardownNext, Session.BusyOf;
  }

  lemma ResolveSound(units: seq<Component>, originals: Files, s: Session.State, a: Session.Action, b: Bench, t: Bench)
    requires Apart(units) && FreshNames(units, originals) && Sound(units, originals, s, b)
    requires Session.Enabled(s, a) && Resolves(s, a).Some? && Follows(units, s, a, b, t)
    ensures var n := Session.Next(s, a); Sized(units, n, t) && AllWork(units, n, t) && Reported(units, n, t) && NothingLost(units, originals, t)
  {
    hide Apart, FreshNames, SessionProof.Inv, Session.CoordNext, Session.CoordEnabled, Resolves, Follows, Ends, AtWork, Touches, Kept, NothingLost, TasksMatch, TasksStay, Frame, AllWork, Sized, Seen, IsOwnName, WorkingAt;
    var v := Resolves(s, a).value;
    ResolvesKnown(s, a);
    StillUnresolved(s, a);
    NewTask(s);
    CoordFrame(s, a.c);
    var run := EndOf(units, originals, s, a, b, t);
    assert v !in b.reports;
    EndsTouch(units[v], b.files, run);
    KeptByTheEnd(units, originals, s, b, v, run);
    OthersWork(units, s, b, run.w.files, v);
    AfterEnd(units, s, Session.Next(s, a), b, v, run);
  }

  /** What the resolved unit's run was, and that it ends well. */
  lemma EndOf(units: seq<Component>, originals: Files, s: Session.State, a: Session.Action, b: Bench, t: Bench) returns (run: Run)
    requires Sound(units, originals, s, b) && Session.Enabled(s, a) && Resolves(s, a).Some? && Follows(units, s, a, b, t)
    ensures var v := Resolves(s, a).value;
      v < |units| && t == Ended(b, v, run) && Ends(units[v], b.files, run)
  {
    hide AtWork, Ends, Touches, CommitOf, DiscardOf, SessionProof.Inv;
    var v := Resolves(s, a).value;
    ResolvesKnown(s, a);
    StillUnresolved(s, a);
    assert WorkingAt(units, s, b, v);
    if s.pc.Commit? {
      HeadEncoded(units, s, a, b);
      var clock :| t == Ended(b, v, CommitOf(units[v], b, v, clock));
      run := CommitOf(units[v], b, v, clock);
      CommitEnds(units[v], ShopOf(b, v), clock);
      CommitIs(units[v], b, v, clock);
    } else {
      var clock, cause :| cause != Succeeded && t == Ended(b, v, DiscardOf(units[v], b, v, clock, cause));
      run := DiscardOf(units[v], b, v, clock, cause);
      DiscardEnds(units[v], ShopOf(b, v), clock, cause);
      DiscardIs(units[v], b, v, clock, cause);
    }
  }

  lemma CommitIs(c: Component, b: Bench, v: nat, clock: nat)
    requires v in b.stands && |b.stands[v].temps| == |c.plan.encodes|
    ensures CommitOf(c, b, v, clock) == CommitAll(Job(c.env, c.plan, ShopOf(b, v).temps), World(b.files, clock))
  {
  }

  lemma DiscardIs(c: Component, b: Bench, v: nat, clock: nat, cause: RunStatus)
    requires v in b.stands
    ensures DiscardOf(c, b, v, clock, cause) == Discard(Job(c.env, c.plan, ShopOf(b, v).temps), World(b.files, clock), cause)
  {
  }

  lemma EndsTouch(c: Component, files: Files, run: Run)
    requires Ends(c, files, run)
    ensures forall p: Path :: !Touches(c, p) ==> Same(files, run.w.files, p)
    ensures forall r :: r in run.report.recovery ==> Touches(c, r)
  {
    hide Touches;
  }

  lemma AfterEnd(units: seq<Component>, s: Session.State, n: Session.State, b: Bench, v: nat, run: Run)
    requires Sized(units, s, b) && Reported(units, s, b) && v < |units| && v in s.fates && s.fates[v] == []
    requires Frame(s, n, Some(v)) && TasksStay(s, n)
    requires forall r :: r in run.report.recovery ==> Touches(units[v], r)
    requires forall u: nat :: u in s.fates && s.fates[u] == [] && u != v ==> WorkingAt(units, s, Bench(run.w.files, b.stands, b.reports), u)
    ensures var t := Ended(b, v, run); Sized(units, n, t) && AllWork(units, n, t) && Reported(units, n, t)
  {
    hide AtWork, Touches, Seen, TasksMatch;
    var t := Ended(b, v, run);
    forall u: nat | u in n.fates && n.fates[u] == [] ensures WorkingAt(units, n, t, u) {
      assert WorkingAt(units, s, Bench(run.w.files, b.stands, b.reports), u);
      MatchAfter(s, n, u, t.stands[u].tasks);
      assert ShopOf(t, u) == ShopOf(Bench(run.w.files, b.stands, b.reports), u);
    }
  }

  /** Every other step leaves the disk alone. */
  lemma IdleSound(units: seq<Component>, originals: Files, s: Session.State, a: Session.Action, b: Bench)
    requires Sound(units, originals, s, b) && Session.Enabled(s, a) && !Opens(s, a) && !a.Take? && !a.Finish? && Resolves(s, a).None?
    ensures var n := Session.Next(s, a); Sized(units, n, b) && AllWork(units, n, b) && Reported(units, n, b)
  {
    hide AtWork, Touches, Seen, TasksMatch, SessionProof.Inv, Session.CoordNext, Session.CoordEnabled, Resolves, Opens;
    var n := Session.Next(s, a);
    NewTask(s);
    if a.Coord? { CoordFrame(s, a.c); } else { WorkerFrame(s, a); }
    hide Session.Next, Session.Enabled;
    forall u: nat | u in n.fates && n.fates[u] == [] ensures WorkingAt(units, n, b, u) {
      assert WorkingAt(units, s, b, u);
      MatchAfter(s, n, u, b.stands[u].tasks);
    }
  }

  lemma StepSound(units: seq<Component>, originals: Files, s: Session.State, a: Session.Action, b: Bench, t: Bench)
    requires Apart(units) && FreshNames(units, originals) && Sound(units, originals, s, b) && Session.Enabled(s, a) && Follows(units, s, a, b, t)
    ensures Sound(units, originals, Session.Next(s, a), t)
  {
    hide Apart, FreshNames, SessionProof.Inv, Session.Next, Session.Enabled, AllWork, Sized, Reported, NothingLost, EncodeStep, Ended, Resolves;
    SessionTheorems.StepInv(s, a);
    if Opens(s, a) {
      OpenSound(units, originals, s, a, b, t);
    } else if a.Take? {
      TakeSound(units, originals, s, b, t);
    } else if a.Finish? {
      FinishSound(units, originals, s, a, b, t);
    } else if Resolves(s, a).Some? {
      ResolveSound(units, originals, s, a, b, t);
    } else {
      NotCommitting(s, a);
      IdleSound(units, originals, s, a, b);
    }
  }

  lemma NotCommitting(s: Session.State, a: Session.Action)
    requires Session.Enabled(s, a) && Resolves(s, a).None?
    ensures !(a.Coord? && s.pc.Commit?)
  {
  }

  lemma {:induction false} RunSound(units: seq<Component>, originals: Files, s: Session.State, b: Bench, actions: seq<Session.Action>, n: Session.State, t: Bench)
    requires s.n == |units| && Apart(units) && FreshNames(units, originals) && Sound(units, originals, s, b) && Reaches(units, s, b, actions, n, t)
    ensures Sound(units, originals, n, t)
    decreases actions
  {
    hide Apart, FreshNames, Sound, Follows, Session.Next, Session.Enabled;
    if actions != [] {
      var mid :| Follows(units, s, actions[0], b, mid) && Reaches(units, Session.Next(s, actions[0]), mid, actions[1..], n, t);
      StepSound(units, originals, s, actions[0], b, mid);
      RunSound(units, originals, Session.Next(s, actions[0]), mid, actions[1..], n, t);
    }
  }

  lemma StartsSound(units: seq<Component>, window: nat, originals: Files)
    requires window >= 1
    ensures Sound(units, originals, Session.Start(|units|, window), Bench(originals, map[], map[]))
  {
    SessionProof.StartInv(|units|, window);
    hide SessionProof.Inv, AtWork, TasksMatch;
  }

  /** At every moment of every session -- whatever fails, whoever cancels, however
      encodes of all open units and commits interleave -- every original file is
      at its path, at a path some unit reported, or given up under the hard
      mode's condition. */
  lemma SessionLosesNothing(units: seq<Component>, window: nat, originals: Files, actions: seq<Session.Action>, s: Session.State, b: Bench)
    requires window >= 1 && Apart(units) && FreshNames(units, originals)
    requires Reaches(units, Session.Start(|units|, window), Bench(originals, map[], map[]), actions, s, b)
    ensures forall p: Path :: IsFile(originals, p) ==> Kept(units, b, p, originals[p])
  {
    hide Apart, FreshNames, Reaches, Kept, SessionProof.Inv, AllWork, Sized, Reported;
    StartsSound(units, window, originals);
    RunSound(units, originals, Session.Start(|units|, window), Bench(originals, map[], map[]), actions, s, b);
  }
}
