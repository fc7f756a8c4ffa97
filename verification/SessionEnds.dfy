/** What a whole session leaves behind: a report for every unit it resolved, and no
    staged file that no report names. */
module SessionEnds {
  import opened Prelude
  import opened Disk
  import opened Executor
  import opened ExecutorProof
  import ExecutorRuns
  import opened ExecutorTheorems
  import opened ExecutorStaging
  import opened ExecutorOutcome
  import opened Footprint
  import opened SessionDisk
  import ExecutorStatus
  import Session
  import SessionProof
  import SessionTheorems

  // ---------- the end of one unit ----------

  /** Every staged file that is still there is reported. */
  ghost predicate Swept(c: Component, files: Files, report: Report) {
    forall p: Path :: IsTemp(c.env, c.plan, p) && p in files ==> p in report.recovery
  }

  /** A committed unit got as far as looking at what was staged; a discarded one
      committed and removed nothing and has everything still to do. */
  predicate Fits(c: Component, fate: Session.Fate, report: Report) {
    match fate
    case Committed => ExecutorStatus.StageFits(c.plan, report) && report.stage != Some(MaterializeStage)
    case Discarded =>
      && report.status != Succeeded && report.stage == Some(MaterializeStage)
      && report.committed == [] && report.removed == [] && report.remaining == Targets(c.plan.encodes) + c.plan.removes
  }

  lemma CommitSweeps(c: Component, shop: Shop, clock: nat)
    requires AtWork(c, shop) && ShopFits(c.plan, shop) && AllEncoded(shop)
    ensures var run := CommitAll(Job(c.env, c.plan, shop.temps), World(shop.files, clock));
      Swept(c, run.w.files, run.report) && Fits(c, Session.Committed, run.report)
  {
    hide Admitted, NamesFree, Explained, AllEncoded, ExecutorRuns.Ready, CommitAll, ExecutorRuns.Staged, Carries, Completed, ExecutorRuns.Shape;
    var base, run := Without(c, shop.files), CommitAll(Job(c.env, c.plan, shop.temps), World(shop.files, clock));
    StagingReady(c.env, c.plan, base, shop);
    AllStaged(c.env, c.plan, base, shop);
    TempsSet(shop);
    CommitTellsTheTruth(Job(c.env, c.plan, shop.temps), World(shop.files, clock));
    forall p: Path | IsTemp(c.env, c.plan, p) && p in run.w.files ensures p in run.report.recovery {
      var i: nat :| i < |c.plan.encodes| && TempOf(c.env, c.plan, i) == p;
      EncodedTemps(c.env, c.plan, base, shop, i);
    }
    ExecutorStatus.CommitStageFits(Job(c.env, c.plan, shop.temps), World(shop.files, clock));
  }

  lemma DiscardSweeps(c: Component, shop: Shop, clock: nat, cause: RunStatus)
    requires AtWork(c, shop) && cause != Succeeded
    ensures var run := Discard(Job(c.env, c.plan, shop.temps), World(shop.files, clock), cause);
      Swept(c, run.w.files, run.report) && Fits(c, Session.Discarded, run.report)
  {
    hide Admitted, NamesFree, CleanupFrom;
    var run := Discard(Job(c.env, c.plan, shop.temps), World(shop.files, clock), cause);
    CleanupEffect(c.env, World(shop.files, clock), shop.temps, 0);
    assert shop.temps[0..] == shop.temps;
    forall p: Path | IsTemp(c.env, c.plan, p) && p in run.w.files ensures p in run.report.recovery {
      var i: nat :| i < |c.plan.encodes| && TempOf(c.env, c.plan, i) == p;
      assert SlotExplained(c.env, c.plan, Without(c, shop.files), shop, i);
      assert shop.temps[i] == p && p != [];
    }
  }

  // ---------- over the session ----------

  /** A resolved unit has reported, as its fate says, and left nothing unreported. */
  ghost predicate EndedWell(units: seq<Component>, s: Session.State, b: Bench, u: nat) {
    u in s.fates && (s.fates[u] != [] ==>
      && u < |units| && u in b.reports && |s.fates[u]| == 1
      && Fits(units[u], s.fates[u][0], b.reports[u]) && Swept(units[u], b.files, b.reports[u]))
  }

  ghost predicate AllEnded(units: seq<Component>, s: Session.State, b: Bench) {
    forall u: nat :: u in s.fates ==> EndedWell(units, s, b, u)
  }

  lemma FateOfCommit(s: Session.State, c: Session.Choice)
    requires Session.CoordEnabled(s, c) && s.pc.Commit?
    ensures Session.HeadNext(s, c).fates == Session.Resolve(s.fates, s.open[0], Session.Committed)
  {
  }

  lemma FateOfReport(s: Session.State)
    requires Session.CoordEnabled(s, Session.Go) && s.pc.Report? && Resolves(s, Session.Coord(Session.Go)).Some?
    ensures var v := Resolves(s, Session.Coord(Session.Go)).value;
      v in s.fates && Session.TeardownNext(s).fates == Session.Resolve(s.fates, v, Session.Discarded)
  {
    hide Session.StopToReport, Session.StatusOf, Session.Resolve;
  }

  /** The fate a resolved unit gets. */
  lemma FateAfter(s: Session.State, a: Session.Action)
    requires Session.Enabled(s, a) && Resolves(s, a).Some?
    ensures a.Coord? && Resolves(s, a).value in s.fates
    ensures Session.Next(s, a).fates == Session.Resolve(s.fates, Resolves(s, a).value, if s.pc.Commit? then Session.Committed else Session.Discarded)
  {
    hide Session.HeadNext, Session.TeardownNext, Session.LookNext, Session.AdmitNext, Session.Resolve, Session.StopToReport;
    ResolvesKnown(s, a);
    if s.pc.Commit? {
      FateOfCommit(s, a.c);
    } else if s.pc.Report? {
      FateOfReport(s);
    } else {
      DiscardResolves(s);
      DiscardOne(s, s.pc.at, s.pc.except, s.pc.status);
    }
  }

  /** What ended stays ended while another unit touches its own paths. */
  lemma StaysEnded(units: seq<Component>, s: Session.State, n: Session.State, b: Bench, t: Bench, v: nat, u: nat)
    requires Apart(units) && v < |units| && u != v && EndedWell(units, s, b, u) && u in n.fates && n.fates[u] == s.fates[u]
    requires forall p: Path :: !Touches(units[v], p) ==> Same(b.files, t.files, p)
    requires u in b.reports ==> u in t.reports && t.reports[u] == b.reports[u]
    ensures EndedWell(units, n, t, u)
  {
    hide Touches, Fits, IsTemp;
    if s.fates[u] != [] {
      forall p: Path | IsTemp(units[u].env, units[u].plan, p) && p in t.files ensures p in b.files {
        TempIsNeeded(units[u], p);
        assert !Touches(units[v], p);
      }
    }
  }

  lemma TempIsNeeded(c: Component, p: Path)
    requires IsTemp(c.env, c.plan, p)
    ensures Needs(c, p)
  {
  }

  lemma SameEnded(units: seq<Component>, s: Session.State, n: Session.State, b: Bench, u: nat)
    requires EndedWell(units, s, b, u) && u in n.fates && n.fates[u] == s.fates[u]
    ensures EndedWell(units, n, b, u)
  {
    hide Fits, Swept;
  }

  /** What the resolved unit's run was. */
  lemma EndReported(units: seq<Component>, originals: Files, s: Session.State, a: Session.Action, b: Bench, t: Bench) returns (run: Run)
    requires Sound(units, originals, s, b) && Session.Enabled(s, a) && Resolves(s, a).Some? && Follows(units, s, a, b, t)
    ensures var v := Resolves(s, a).value;
      && v < |units| && t == Ended(b, v, run) && Ends(units[v], b.files, run)
      && Swept(units[v], run.w.files, run.report) && Fits(units[v], if s.pc.Commit? then Session.Committed else Session.Discarded, run.report)
  {
    hide AtWork, Ends, Touches, CommitOf, DiscardOf, SessionProof.Inv, Swept, Fits, Answers;
    var v := Resolves(s, a).value;
    ResolvesKnown(s, a);
    StillUnresolved(s, a);
    assert WorkingAt(units, s, b, v);
    if s.pc.Commit? {
      HeadEncoded(units, s, a, b);
      var clock :| t == Ended(b, v, CommitOf(units[v], b, v, clock));
      run := CommitOf(units[v], b, v, clock);
      CommitEnds(units[v], ShopOf(b, v), clock);
      CommitSweeps(units[v], ShopOf(b, v), clock);
      CommitIs(units[v], b, v, clock);
    } else {
      var clock, cause :| cause != Succeeded && t == Ended(b, v, DiscardOf(units[v], b, v, clock, cause));
      run := DiscardOf(units[v], b, v, clock, cause);
      DiscardEnds(units[v], ShopOf(b, v), clock, cause);
      DiscardSweeps(units[v], ShopOf(b, v), clock, cause);
      DiscardIs(units[v], b, v, clock, cause);
    }
  }

  lemma ResolveEnds(units: seq<Component>, originals: Files, s: Session.State, a: Session.Action, b: Bench, t: Bench)
    requires Apart(units) && Sound(units, originals, s, b) && AllEnded(units, s, b)
    requires Session.Enabled(s, a) && Resolves(s, a).Some? && Follows(units, s, a, b, t)
    ensures AllEnded(units, Session.Next(s, a), t)
  {
    hide Apart, SessionProof.Inv, Session.CoordNext, Session.CoordEnabled, Resolves, Follows, Ends, Touches, Swept, Fits, NothingLost, AllWork, Sized, Reported, EndedWell;
    var v := Resolves(s, a).value;
    StillUnresolved(s, a);
    FateAfter(s, a);
    var run := EndReported(units, originals, s, a, b, t);
    EndsTouch(units[v], b.files, run);
    var n := Session.Next(s, a);
    forall u: nat | u in n.fates ensures EndedWell(units, n, t, u) {
      if u != v {
        assert n.fates[u] == s.fates[u];
        StaysEnded(units, s, n, b, t, v, u);
      } else {
        ResolvedWell(units, n, t, v, if s.pc.Commit? then Session.Committed else Session.Discarded);
      }
    }
  }

  lemma ResolvedWell(units: seq<Component>, n: Session.State, t: Bench, v: nat, fate: Session.Fate)
    requires v in n.fates && n.fates[v] == [fate] && v < |units| && v in t.reports
    requires Fits(units[v], fate, t.reports[v]) && Swept(units[v], t.files, t.reports[v])
    ensures EndedWell(units, n, t, v)
  {
  }

  lemma EncodeTouches(units: seq<Component>, s: Session.State, b: Bench, v: nat, m: Move)
    requires v < |units| && v in s.fates && s.fates[v] == [] && AllWork(units, s, b)
    ensures var t := EncodeStep(units[v], b, v, m);
      t.reports == b.reports && forall p: Path :: !Touches(units[v], p) ==> Same(b.files, t.files, p)
  {
    hide AtWork, Touches, Moved, CanMove, TasksMatch;
    assert WorkingAt(units, s, b, v);
    if CanMove(units[v].plan, ShopOf(b, v), m) {
      MovesOn(units[v], ShopOf(b, v), m);
      OnlyTemps(units[v], b.files, Moved(units[v].env, units[v].plan, ShopOf(b, v), m).files);
    }
  }

  lemma EncodeEnds(units: seq<Component>, s: Session.State, n: Session.State, b: Bench, v: nat, m: Move)
    requires Apart(units) && AllWork(units, s, b) && AllEnded(units, s, b) && n.fates == s.fates
    requires v < |units| && v in s.fates && s.fates[v] == []
    ensures AllEnded(units, n, EncodeStep(units[v], b, v, m))
  {
    hide Apart, AllWork, EncodeStep, Touches, Swept, Fits;
    var t := EncodeStep(units[v], b, v, m);
    EncodeTouches(units, s, b, v, m);
    forall u: nat | u in n.fates ensures EndedWell(units, n, t, u) {
      if u != v { StaysEnded(units, s, n, b, t, v, u); }
    }
  }

  lemma TaskEnds(units: seq<Component>, originals: Files, s: Session.State, a: Session.Action, b: Bench, t: Bench)
    requires Apart(units) && Sound(units, originals, s, b) && AllEnded(units, s, b)
    requires Session.Enabled(s, a) && (a.Take? || a.Finish?) && Follows(units, s, a, b, t)
    ensures AllEnded(units, Session.Next(s, a), t)
  {
    hide Apart, SessionProof.Inv, AllWork, Sized, Reported, NothingLost, EncodeStep, AllEnded, Session.BusyOf;
    var j := if a.Take? then s.queue[0] else a.j;
    if a.Take? { SessionTheorems.TakenIsQueued(s); }
    ActiveUnresolved(s, j);
    EncodeEnds(units, s, Session.Next(s, a), b, j.unit, if a.Take? then Start(j.task) else Finish(j.task));
  }

  lemma OpenEnds(units: seq<Component>, originals: Files, s: Session.State, a: Session.Action, b: Bench, t: Bench)
    requires Sound(units, originals, s, b) && AllEnded(units, s, b) && Session.Enabled(s, a) && Opens(s, a) && Follows(units, s, a, b, t)
    ensures AllEnded(units, Session.Next(s, a), t)
  {
    hide AllWork, Sized, Reported, NothingLost, Swept, Fits, Admitted, NamesFree, SessionProof.At,
         SessionProof.JobsP, SessionProof.QueueP, SessionProof.UnitsP, SessionProof.OnceP, SessionProof.CauseP, SessionProof.ProgressP, SessionProof.OpenP;
    assert s.prep !in s.units && s.prep !in s.fates;
    OpenFrame(s, a);
    hide Session.Next, Session.Enabled;
  }

  lemma IdleEnds(units: seq<Component>, originals: Files, s: Session.State, a: Session.Action, b: Bench)
    requires Sound(units, originals, s, b) && AllEnded(units, s, b)
    requires Session.Enabled(s, a) && !Opens(s, a) && !a.Take? && !a.Finish? && Resolves(s, a).None?
    ensures AllEnded(units, Session.Next(s, a), b)
  {
    hide SessionProof.Inv, Session.CoordNext, Session.CoordEnabled, Resolves, Opens, AllWork, Sized, Reported, NothingLost, EndedWell, TasksStay;
    var n := Session.Next(s, a);
    NewTask(s);
    if a.Coord? { CoordFrame(s, a.c); } else { WorkerFrame(s, a); }
    hide Session.Next, Session.Enabled;
    forall u: nat | u in n.fates ensures EndedWell(units, n, b, u) {
      SameEnded(units, s, n, b, u);
    }
  }

  lemma StepEnds(units: seq<Component>, originals: Files, s: Session.State, a: Session.Action, b: Bench, t: Bench)
    requires Apart(units) && Sound(units, originals, s, b) && AllEnded(units, s, b) && Session.Enabled(s, a) && Follows(units, s, a, b, t)
    ensures AllEnded(units, Session.Next(s, a), t)
  {
    hide Apart, Sound, AllEnded, Session.Next, Session.Enabled, EncodeStep, Ended, Resolves;
    if Opens(s, a) {
      OpenEnds(units, originals, s, a, b, t);
    } else if a.Take? || a.Finish? {
      TaskEnds(units, originals, s, a, b, t);
    } else if Resolves(s, a).Some? {
      ResolveEnds(units, originals, s, a, b, t);
    } else {
      NotCommitting(s, a);
      IdleEnds(units, originals, s, a, b);
    }
  }

  lemma {:induction false} RunEnds(units: seq<Component>, originals: Files, s: Session.State, b: Bench, actions: seq<Session.Action>, n: Session.State, t: Bench)
    requires s.n == |units| && Apart(units) && FreshNames(units, originals) && Sound(units, originals, s, b) && AllEnded(units, s, b)
    requires Reaches(units, s, b, actions, n, t)
    ensures AllEnded(units, n, t) && SessionProof.Inv(n)
    decreases actions
  {
    hide Apart, FreshNames, Follows, Session.Next, Session.Enabled, AllEnded, AllWork, Sized, Reported, NothingLost, SessionProof.Inv;
    if actions != [] {
      var mid :| Follows(units, s, actions[0], b, mid) && Reaches(units, Session.Next(s, actions[0]), mid, actions[1..], n, t);
      StepSound(units, originals, s, actions[0], b, mid);
      StepEnds(units, originals, s, actions[0], b, mid);
      RunEnds(units, originals, Session.Next(s, actions[0]), mid, actions[1..], n, t);
    }
  }

  lemma AllResolved(s: Session.State)
    requires SessionProof.Inv(s) && s.pc.Done?
    ensures forall u: nat :: u < s.prep ==> u in s.fates && s.fates[u] == [if u < s.done then Session.Committed else Session.Discarded]
  {
    hide SessionProof.JobsP, SessionProof.QueueP, SessionProof.UnitsP, SessionProof.OnceP, SessionProof.CauseP, SessionProof.ProgressP, SessionProof.OpenP, SessionProof.At;
  }

  /** A session that is over has a report of every unit it prepared: of a commit for
      the units below the commit cursor, of a discard for the others; and every
      staged file that is left is named by the report of its unit. */
  lemma SessionAccountsForAll(units: seq<Component>, window: nat, originals: Files, actions: seq<Session.Action>, s: Session.State, b: Bench, u: nat)
    requires window >= 1 && Apart(units) && FreshNames(units, originals)
    requires Reaches(units, Session.Start(|units|, window), Bench(originals, map[], map[]), actions, s, b)
    requires s.pc.Done? && u < s.prep
    ensures u < |units| && u in b.reports
    ensures Fits(units[u], if u < s.done then Session.Committed else Session.Discarded, b.reports[u])
    ensures forall p: Path :: IsTemp(units[u].env, units[u].plan, p) && p in b.files ==> p in b.reports[u].recovery
  {
    hide Apart, FreshNames, Reaches, Sound, SessionProof.Inv, Fits;
    StartsSound(units, window, originals);
    RunEnds(units, originals, Session.Start(|units|, window), Bench(originals, map[], map[]), actions, s, b);
    AllResolved(s);
    assert EndedWell(units, s, b, u);
  }
}
