/** A scan: a producer walks and emits, a consumer stages what arrives in
    batches, and only a complete, uncanceled, fully staged walk is merged. */
module Scan {
  import opened Prelude

  const BATCH := 1000
  const QUEUE := 100

  /** One staged row. */
  datatype Entry = Entry(path: string, root: string, parent: string, name: string, dir: bool, size: int, mtime: int, format: string)

  /** One catalog row; `rev` counts the changes of its content. */
  datatype Row = Row(
    root: string, parent: string, name: string, dir: bool, size: int, mtime: int, scan: string,
    rev: nat, dirty: bool, bitrate: Option<int>, format: string)

  /** Staging keeps the last row written for a path. */
  function Table(entries: seq<Entry>): map<string, Entry> {
    if entries == [] then map[]
    else Table(entries[..|entries| - 1])[entries[|entries| - 1].path := entries[|entries| - 1]]
  }

  lemma {:induction false} TableKeepsLast(entries: seq<Entry>, k: nat)
    requires k < |entries| && forall j :: k < j < |entries| ==> entries[j].path != entries[k].path
    ensures entries[k].path in Table(entries) && Table(entries)[entries[k].path] == entries[k]
  {
    if k < |entries| - 1 { TableKeepsLast(entries[..|entries| - 1], k); }
  }

  // ---------- the pipeline ----------

  datatype Err = WalkError(code: int) | WalkCanceled | WriteError

  datatype Producer = Walking | Stopped(err: Option<Err>)
  datatype Consumer = Consuming | Ended(err: Option<Err>)

  /** `written` is what reached the staging table; `ctx` is the pipeline's own
      context, `caller` the one it was derived from. */
  datatype State = State(
    left: seq<Entry>, chan: seq<Entry>, batch: seq<Entry>, written: seq<Entry>,
    producer: Producer, consumer: Consumer, ctx: bool, caller: bool)

  datatype Action =
    | Emit | StopOnCancel | WalkFails(code: int) | WalkEnds
    | Take | Flush(ok: bool) | LastFlush(ok: bool)
    | CallerCancels

  function Start(walk: seq<Entry>): State {
    State(walk, [], [], [], Walking, Consuming, false, false)
  }

  predicate Enabled(s: State, a: Action) {
    match a
    case Emit => s.producer.Walking? && s.left != [] && |s.chan| < QUEUE
    case StopOnCancel => s.producer.Walking? && s.ctx
    case WalkFails(_) => s.producer.Walking?
    case WalkEnds => s.producer.Walking? && s.left == []
    case Take => s.consumer.Consuming? && s.chan != [] && |s.batch| < BATCH
    case Flush(_) => s.consumer.Consuming? && |s.batch| >= BATCH
    case LastFlush(ok) => s.consumer.Consuming? && s.producer.Stopped? && s.chan == [] && |s.batch| < BATCH && (s.batch == [] ==> ok)
    case CallerCancels => !s.caller
  }

  function Next(s: State, a: Action): State
    requires Enabled(s, a)
  {
    match a
    case Emit => s.(left := s.left[1..], chan := s.chan + [s.left[0]])
    case StopOnCancel => s.(producer := Stopped(Some(WalkCanceled)))
    case WalkFails(code) => s.(producer := Stopped(Some(WalkError(code))), ctx := true)
    case WalkEnds => s.(producer := Stopped(None))
    case Take => s.(chan := s.chan[1..], batch := s.batch + [s.chan[0]])
    case Flush(ok) =>
      if ok then s.(batch := [], written := s.written + s.batch)
      else s.(consumer := Ended(Some(WriteError)), ctx := true)
    case LastFlush(ok) =>
      if ok then s.(batch := [], written := s.written + s.batch, consumer := Ended(None))
      else s.(consumer := Ended(Some(WriteError)))
    case CallerCancels => s.(caller := true, ctx := true)
  }

  ghost predicate Reaches(s: State, actions: seq<Action>, t: State)
    decreases actions
  {
    if actions == [] then s == t
    else Enabled(s, actions[0]) && Reaches(Next(s, actions[0]), actions[1..], t)
  }

  datatype FailureCode = ScanWalkFailed | StagingWriteFailed

  /** An independent walk error is primary; otherwise a staging failure beats the
      cancellation it caused. */
  function ResolvePipelineError(producer: Option<Err>, consumer: Option<Err>): FailureCode {
    if producer.Some? && !producer.value.WalkCanceled? then ScanWalkFailed
    else if consumer.Some? then StagingWriteFailed
    else ScanWalkFailed
  }

  datatype Verdict = GiveUp | Fail(code: FailureCode) | Merge

  function Decide(s: State): Verdict
    requires s.producer.Stopped? && s.consumer.Ended?
  {
    if s.caller then GiveUp
    else if s.producer.err.Some? || s.consumer.err.Some? then Fail(ResolvePipelineError(s.producer.err, s.consumer.err))
    else Merge
  }

  /** Nothing is lost between the walk and the staging table unless a write
      failed; a canceled context always has a cause. */
  predicate Inv(s: State, walk: seq<Entry>) {
    && (s.consumer != Ended(Some(WriteError)) ==> s.written + s.batch + s.chan + s.left == walk)
    && (s.producer == Stopped(None) ==> s.left == [])
    && (s.consumer == Ended(None) ==> s.batch == [] && s.chan == [] && s.producer.Stopped?)
    && (s.ctx ==> s.caller || s.consumer == Ended(Some(WriteError)) || (s.producer.Stopped? && s.producer.err.Some? && s.producer.err.value.WalkError?))
    && (s.producer == Stopped(Some(WalkCanceled)) ==> s.caller || s.consumer == Ended(Some(WriteError)))
    && (s.producer == Stopped(Some(WriteError)) ==> false)
    && (s.consumer.Ended? && s.consumer.err.Some? ==> s.consumer.err == Some(WriteError))
    && (s.consumer.Ended? && s.producer.Walking? ==> s.ctx)
  }

  lemma StepInv(s: State, walk: seq<Entry>, a: Action)
    requires Inv(s, walk) && Enabled(s, a)
    ensures Inv(Next(s, a), walk)
  {
  }

  lemma {:induction false} RunInv(s: State, walk: seq<Entry>, actions: seq<Action>, t: State)
    requires Inv(s, walk) && Reaches(s, actions, t)
    ensures Inv(t, walk)
    decreases actions
  {
    hide Inv, Next, Enabled;
    if actions != [] {
      StepInv(s, walk, actions[0]);
      RunInv(Next(s, actions[0]), walk, actions[1..], t);
    }
  }

  /** A scan merges only when the walk completed, every entry it emitted was
      staged, and nothing was canceled or failed. */
  lemma MergeMeansComplete(walk: seq<Entry>, actions: seq<Action>, t: State)
    requires Reaches(Start(walk), actions, t) && t.producer.Stopped? && t.consumer.Ended? && Decide(t) == Merge
    ensures t.written == walk && Table(t.written) == Table(walk)
    ensures !t.caller && !t.ctx && t.producer.err.None? && t.consumer.err.None?
  {
    RunInv(Start(walk), walk, actions, t);
    assert t.written + [] + [] + [] == t.written;
  }

  /** The walk is blamed exactly for its own errors, never for the cancellation
      a failed staging write caused. */
  lemma BlameIsRight(walk: seq<Entry>, actions: seq<Action>, t: State)
    requires Reaches(Start(walk), actions, t) && t.producer.Stopped? && t.consumer.Ended? && Decide(t).Fail?
    ensures Decide(t).code == ScanWalkFailed <==> t.producer.err.Some? && t.producer.err.value.WalkError?
    ensures Decide(t).code == StagingWriteFailed ==> t.consumer.err == Some(WriteError)
  {
    RunInv(Start(walk), walk, actions, t);
  }

  /** What a run of the pipeline did that a verdict can be about. */
  predicate WriteFailed(actions: seq<Action>) { Flush(false) in actions || LastFlush(false) in actions }

  predicate WalkFailed(actions: seq<Action>) {
    exists k :: 0 <= k < |actions| && actions[k].WalkFails?
  }

  predicate Tells(t: State, actions: seq<Action>) {
    && (t.caller <==> CallerCancels in actions)
    && (t.consumer == Ended(Some(WriteError)) <==> WriteFailed(actions))
    && (t.producer.Stopped? && t.producer.err.Some? && t.producer.err.value.WalkError? <==> WalkFailed(actions))
  }

  lemma TellsMore(s: State, before: seq<Action>, a: Action, walk: seq<Entry>)
    requires Inv(s, walk) && Enabled(s, a) && Tells(s, before)
    ensures Tells(Next(s, a), before + [a])
  {
    assert forall b :: b in before + [a] <==> b in before || b == a;
    var more := before + [a];
    assert more[|before|] == a;
    assert WalkFailed(more) <==> WalkFailed(before) || a.WalkFails? by {
      if WalkFailed(before) {
        var k :| 0 <= k < |before| && before[k].WalkFails?;
        assert more[k].WalkFails?;
      }
    }
  }

  lemma {:induction false} RunTells(s: State, before: seq<Action>, actions: seq<Action>, t: State, walk: seq<Entry>)
    requires Inv(s, walk) && Tells(s, before) && Reaches(s, actions, t)
    ensures Tells(t, before + actions)
    decreases actions
  {
    hide Inv, Next, Enabled, Tells;
    if actions != [] {
      StepInv(s, walk, actions[0]);
      TellsMore(s, before, actions[0], walk);
      RunTells(Next(s, actions[0]), before + [actions[0]], actions[1..], t, walk);
      assert before + [actions[0]] + actions[1..] == before + actions;
    } else {
      assert before + [] == before;
    }
  }

  /** The verdict on every run: given up exactly when the caller canceled; else the
      walk is blamed exactly when it failed, the staging exactly when only a write
      did, and a run in which nothing failed is merged. */
  lemma VerdictTellsWhy(walk: seq<Entry>, actions: seq<Action>, t: State)
    requires Reaches(Start(walk), actions, t) && t.producer.Stopped? && t.consumer.Ended?
    ensures Decide(t) ==
      if CallerCancels in actions then GiveUp
      else if WalkFailed(actions) then Fail(ScanWalkFailed)
      else if WriteFailed(actions) then Fail(StagingWriteFailed)
      else Merge
  {
    RunInv(Start(walk), walk, actions, t);
    RunTells(Start(walk), [], actions, t, walk);
    assert [] + actions == actions;
    hide Reaches, WriteFailed, WalkFailed;
  }

  /** The queue holds at most a hundred entries, and only full batches of a thousand
      are written before the last one. */
  lemma {:induction false} BatchesAreFull(s: State, actions: seq<Action>, t: State)
    requires Reaches(s, actions, t) && |s.batch| <= 1000 && |s.chan| <= 100
    ensures |t.batch| <= 1000 && |t.chan| <= 100
    ensures forall ok :: Enabled(t, Flush(ok)) ==> |t.batch| == 1000
    ensures t.producer.Walking? && t.left != [] ==> (Enabled(t, Emit) <==> |t.chan| < 100)
    decreases actions
  {
    if actions != [] {
      BatchesAreFull(Next(s, actions[0]), actions[1..], t);
    }
  }

  // ---------- progress ----------

  predicate BothEnded(s: State) { s.producer.Stopped? && s.consumer.Ended? }

  /** Producer and consumer never wait for each other for ever: until both have
      ended, one of them can take a step that is no failure of the walk. */
  lemma NeverStuck(walk: seq<Entry>, actions: seq<Action>, s: State) returns (a: Action)
    requires Reaches(Start(walk), actions, s) && !BothEnded(s)
    ensures Enabled(s, a) && !a.CallerCancels? && !a.WalkFails?
  {
    RunInv(Start(walk), walk, actions, s);
    if s.consumer.Consuming? && |s.batch| >= BATCH {
      a := Flush(true);
    } else if s.consumer.Consuming? && s.chan != [] {
      a := Take;
    } else if s.producer.Stopped? {
      a := LastFlush(true);
    } else if s.consumer.Ended? {
      a := StopOnCancel;
    } else {
      a := if s.left == [] then WalkEnds else Emit;
    }
  }

  function Left(s: State): nat {
    3 * |s.left| + 2 * |s.chan| + |s.batch|
    + (if s.producer.Walking? then 1 else 0) + (if s.consumer.Consuming? then 1 else 0) + (if s.caller then 0 else 1)
  }

  lemma {:induction false} RunIsBounded(s: State, actions: seq<Action>, t: State)
    requires Reaches(s, actions, t)
    ensures |actions| + Left(t) <= Left(s)
    decreases actions
  {
    if actions != [] {
      StepShrinks(s, actions[0]);
      hide Enabled, Next, Left;
      RunIsBounded(Next(s, actions[0]), actions[1..], t);
    }
  }

  lemma StepShrinks(s: State, a: Action)
    requires Enabled(s, a)
    ensures Left(Next(s, a)) < Left(s)
  {
  }

  /** Every run of the pipeline ends, whatever fails and whenever it is canceled. */
  lemma EveryScanEnds(walk: seq<Entry>, actions: seq<Action>, t: State)
    requires Reaches(Start(walk), actions, t)
    ensures |actions| <= 3 * |walk| + 3
  {
    RunIsBounded(Start(walk), actions, t);
  }

  /** The consumer: it batches what arrives and writes full batches of a thousand,
      then the rest; `writes` says which write succeeds. It stops at the first
      failed write with everything before it staged. */
  method Consume(entries: seq<Entry>, writes: nat -> bool) returns (written: seq<Entry>, ok: bool)
    ensures ok <==> forall a: nat :: 1000 * a < |entries| ==> writes(a)
    ensures ok ==> written == entries
    ensures !ok ==> exists a: nat :: FirstFailure(writes, a) && 1000 * a < |entries| && written == entries[..1000 * a]
  {
    var batch: seq<Entry> := [];
    var attempt: nat := 0;
    written := [];
    for k := 0 to |entries|
      invariant |batch| < BATCH && k == 1000 * attempt + |batch|
      invariant written == entries[..1000 * attempt] && batch == entries[1000 * attempt..k]
      invariant forall a: nat :: a < attempt ==> writes(a)
    {
      batch := batch + [entries[k]];
      if |batch| >= BATCH {
        if !writes(attempt) {
          assert FirstFailure(writes, attempt);
          return written, false;
        }
        attempt := attempt + 1;
        written := written + batch;
        batch := [];
      }
    }
    if batch != [] {
      if !writes(attempt) {
        assert FirstFailure(writes, attempt);
        return written, false;
      }
      written := written + batch;
    }
    return written, true;
  }

  predicate FirstFailure(writes: nat -> bool, a: nat) {
    !writes(a) && forall b: nat :: b < a ==> writes(b)
  }

  // ---------- the merge ----------

  /** A session as persisted; a folder scan has a scope. */
  datatype Session = Session(root: string, scope: Option<string>)

  type Catalog = map<string, Row>

  predicate Touched(before: Row, e: Entry) { before.size != e.size || before.mtime != e.mtime }

  /** New rows start at one, changed rows count up and lose their bitrate,
      unchanged rows keep both. */
  function Merged(rows: Catalog, scan: string, e: Entry): Row {
    if e.path !in rows then
      Row(e.root, e.parent, e.name, e.dir, e.size, e.mtime, scan, 1, false, None, e.format)
    else
      var before := rows[e.path];
      Row(e.root, e.parent, e.name, e.dir, e.size, e.mtime, scan,
          if Touched(before, e) then before.rev + 1 else before.rev,
          Touched(before, e), if Touched(before, e) then None else before.bitrate, e.format)
  }

  function Upserted(rows: Catalog, scan: string, staged: map<string, Entry>): Catalog {
    rows + map p | p in staged :: Merged(rows, scan, staged[p])
  }

  /** Strictly below a directory, by text; `%` and `_` are ordinary characters. */
  predicate UnderScope(scope: string, p: string) { scope + "/" <= p }

  predicate InScope(scope: string, p: string) { scope == "" || UnderScope(scope, p) }

  /** The root cleanup works on: the argument, else the session's, else that of
      whichever staged row an unordered query returns first. */
  function EffectiveRoot(root: string, session: Option<Session>, staged: map<string, Entry>, first: string): string {
    if root != "" then root
    else if session.Some? && session.value.root != "" then session.value.root
    else if first in staged then staged[first].root
    else ""
  }

  function EffectiveScope(session: Option<Session>): string {
    if session.Some? && session.value.scope.Some? then session.value.scope.value else ""
  }

  predicate Stale(row: Row, p: string, root: string, scope: string, staged: map<string, Entry>) {
    row.root == root && InScope(scope, p) && p !in staged
  }

  function Cleaned(rows: Catalog, root: string, scope: string, staged: map<string, Entry>): Catalog {
    if root == "" then rows
    else map p | p in rows && !Stale(rows[p], p, root, scope, staged) :: rows[p]
  }

  /** How the transaction fares, and the staged row a query for any one returns.
      An error while cleaning up is swallowed: the transaction still commits. */
  datatype Faults = Faults(upsert: bool, cleanup: bool, clear: bool, commit: bool, first: string)

  datatype MergeResult = MergeResult(rows: Catalog, ok: bool)

  function MergeStaging(rows: Catalog, scan: string, root: string, session: Option<Session>, staged: map<string, Entry>, faults: Faults): MergeResult {
    if faults.upsert || faults.clear || faults.commit then MergeResult(rows, false)
    else
      var merged := Upserted(rows, scan, staged);
      if faults.cleanup then MergeResult(merged, true)
      else MergeResult(Cleaned(merged, EffectiveRoot(root, session, staged, faults.first), EffectiveScope(session), staged), true)
  }

  /** The catalog as the object the transaction works on. */
  class Database {
    var rows: Catalog

    constructor ()
      ensures rows == map[]
    {
      rows := map[];
    }

    method Merge(scan: string, root: string, session: Option<Session>, staged: map<string, Entry>, faults: Faults) returns (ok: bool)
      modifies this
      ensures MergeResult(rows, ok) == MergeStaging(old(rows), scan, root, session, staged, faults)
    {
      if faults.upsert {
        return false;
      }
      var before := rows;
      rows := Upserted(rows, scan, staged);
      if !faults.cleanup {
        rows := Cleaned(rows, EffectiveRoot(root, session, staged, faults.first), EffectiveScope(session), staged);
      }
      if faults.clear || faults.commit {
        rows := before;
        return false;
      }
      return true;
    }
  }

  // ---------- what a merge leaves ----------

  /** The rows of the scope are exactly the staged entries, with their facts, and
      everything outside the scope is as it was. */
  ghost predicate ScopeIsStaged(before: Catalog, now: Catalog, root: string, scope: string, staged: map<string, Entry>) {
    && (forall p :: p in now && now[p].root == root && InScope(scope, p) <==> p in staged)
    && (forall p :: p in staged ==> p in now && Describes(now[p], staged[p]))
    && (forall p :: p !in staged && !(p in before && before[p].root == root && InScope(scope, p)) ==>
          (p in now <==> p in before) && (p in before ==> now[p] == before[p]))
  }

  predicate Describes(row: Row, e: Entry) {
    row.root == e.root && row.parent == e.parent && row.name == e.name && row.dir == e.dir
    && row.size == e.size && row.mtime == e.mtime && row.format == e.format
  }

  /** What the walk of a scope emits: rows of this root, strictly below the scope. */
  predicate StagedFor(root: string, scope: string, staged: map<string, Entry>) {
    forall p :: p in staged ==> staged[p].path == p && staged[p].root == root && InScope(scope, p)
  }

  predicate NothingStale(rows: Catalog, root: string, scope: string, staged: map<string, Entry>) {
    forall p :: p in rows ==> !Stale(rows[p], p, root, scope, staged)
  }

  lemma CleanAt(rows: Catalog, scan: string, root: string, scope: string, staged: map<string, Entry>, p: string)
    requires root != ""
    ensures var now := Cleaned(Upserted(rows, scan, staged), root, scope, staged);
      if p in staged then p in now && now[p] == Merged(rows, scan, staged[p])
      else (p in now <==> p in rows && !Stale(rows[p], p, root, scope, staged)) && (p in now ==> now[p] == rows[p])
  {
    hide InScope, Merged;
  }

  lemma MergedDescribes(rows: Catalog, scan: string, e: Entry)
    ensures Describes(Merged(rows, scan, e), e)
  {
  }

  lemma CleanMergeIsExact(rows: Catalog, scan: string, root: string, scope: string, staged: map<string, Entry>)
    requires root != "" && StagedFor(root, scope, staged)
    ensures ScopeIsStaged(rows, Cleaned(Upserted(rows, scan, staged), root, scope, staged), root, scope, staged)
  {
    hide InScope, Cleaned, Upserted, Merged;
    var now := Cleaned(Upserted(rows, scan, staged), root, scope, staged);
    forall p ensures p in now && now[p].root == root && InScope(scope, p) <==> p in staged {
      CleanAt(rows, scan, root, scope, staged, p);
      if p in staged { MergedDescribes(rows, scan, staged[p]); }
    }
    forall p | p in staged ensures p in now && Describes(now[p], staged[p]) {
      CleanAt(rows, scan, root, scope, staged, p);
      MergedDescribes(rows, scan, staged[p]);
    }
    forall p | p !in staged && !(p in rows && rows[p].root == root && InScope(scope, p))
      ensures (p in now <==> p in rows) && (p in rows ==> now[p] == rows[p])
    {
      CleanAt(rows, scan, root, scope, staged, p);
    }
  }

  lemma NothingToClean(rows: Catalog, scan: string, root: string, scope: string, staged: map<string, Entry>)
    requires root != "" && NothingStale(rows, root, scope, staged)
    ensures Cleaned(Upserted(rows, scan, staged), root, scope, staged) == Upserted(rows, scan, staged)
  {
    hide UnderScope;
  }

  lemma StaleIsNoScope(rows: Catalog, scan: string, root: string, scope: string, staged: map<string, Entry>)
    requires !NothingStale(rows, root, scope, staged)
    ensures !ScopeIsStaged(rows, Upserted(rows, scan, staged), root, scope, staged)
  {
  }

  /** A committed merge makes the scope exactly what was staged if and only if
      its cleanup ran or there was nothing stale; a failed one changes nothing.
      Without a session row the scope is the whole root; one that cannot be read
      counts as a failed cleanup. */
  lemma MergeIsExact(rows: Catalog, scan: string, root: string, session: Option<Session>, staged: map<string, Entry>, faults: Faults)
    requires root != "" && StagedFor(root, EffectiveScope(session), staged)
    ensures var r := MergeStaging(rows, scan, root, session, staged, faults); var scope := EffectiveScope(session);
      && (r.ok <==> !faults.upsert && !faults.clear && !faults.commit)
      && (!r.ok ==> r.rows == rows)
      && (r.ok ==> (ScopeIsStaged(rows, r.rows, root, scope, staged) <==> !faults.cleanup || NothingStale(rows, root, scope, staged)))
  {
    hide ScopeIsStaged, NothingStale, StagedFor, Cleaned, Upserted, EffectiveScope;
    var scope := EffectiveScope(session);
    CleanMergeIsExact(rows, scan, root, scope, staged);
    if NothingStale(rows, root, scope, staged) {
      NothingToClean(rows, scan, root, scope, staged);
    } else {
      StaleIsNoScope(rows, scan, root, scope, staged);
    }
  }

  /** The directory a folder scan was asked for keeps its own row. */
  lemma ScopeKeepsItsRow(rows: Catalog, scan: string, root: string, scope: string, staged: map<string, Entry>, faults: Faults)
    requires root != "" && scope != "" && StagedFor(root, scope, staged) && scope in rows
    ensures var r := MergeStaging(rows, scan, root, Some(Session(root, Some(scope))), staged, faults);
      scope in r.rows && r.rows[scope] == rows[scope]
  {
  }

  /** A swallowed cleanup error leaves a mixture: the new rows and a stale one. */
  lemma SwallowedCleanupMixes()
    ensures exists rows: Catalog, staged: map<string, Entry>, session: Session ::
      var r := MergeStaging(rows, "s", "/r", Some(session), staged, Faults(false, true, false, false, ""));
      r.ok && r.rows != rows && !ScopeIsStaged(rows, r.rows, "/r", "", staged)
  {
    var gone := Row("/r", "/r", "a", false, 1, 1, "", 1, false, None, "");
    var rows: Catalog := map["/r/a" := gone];
    var staged := map["/r/b" := Entry("/r/b", "/r", "/r", "b", false, 1, 1, "")];
    var session := Session("/r", None);
    var r := MergeStaging(rows, "s", "/r", Some(session), staged, Faults(false, true, false, false, ""));
    assert "/r/a" in r.rows && "/r/a" !in staged && "/r/b" in r.rows;
    assert InScope("", "/r/a");
  }

  /** When the session row is missing the cleanup covers the whole root: the one
      handed in, or without one that of the staged rows. */
  lemma MissingSessionCleansRoot(rows: Catalog, scan: string, given: string, root: string, staged: map<string, Entry>, faults: Faults, p: string)
    requires root != "" && StagedFor(root, "", staged)
    requires given == root || (given == "" && faults.first in staged)
    ensures var r := MergeStaging(rows, scan, given, None, staged, faults);
      r.ok && !faults.cleanup ==> (p in r.rows && r.rows[p].root == root <==> p in staged)
  {
  }

  /** Without a root handed in, the session's is cleaned up, and its scope only. */
  lemma SessionRootIsCleaned(rows: Catalog, scan: string, root: string, scope: Option<string>, staged: map<string, Entry>, faults: Faults)
    requires root != "" && StagedFor(root, if scope.Some? then scope.value else "", staged)
    ensures var r := MergeStaging(rows, scan, "", Some(Session(root, scope)), staged, faults);
      r.ok && !faults.cleanup ==> ScopeIsStaged(rows, r.rows, root, if scope.Some? then scope.value else "", staged)
  {
    hide ScopeIsStaged, StagedFor, Cleaned, Upserted;
    CleanMergeIsExact(rows, scan, root, if scope.Some? then scope.value else "", staged);
  }

  /** With neither a root nor a session nor a staged row nothing is deleted. */
  lemma NoRootNoCleanup(rows: Catalog, scan: string, faults: Faults, session: Option<Session>)
    requires session.Some? ==> session.value.root == ""
    ensures MergeStaging(rows, scan, "", session, map[], faults).rows == rows
  {
    assert Upserted(rows, scan, map[]) == rows;
  }

  /** The revision of a row counts its content changes, and a bitrate survives
      only while the content it was measured on does. */
  lemma NewRowsStartAtOne(rows: Catalog, scan: string, root: string, session: Option<Session>, staged: map<string, Entry>, faults: Faults, p: string)
    requires p !in rows && p in staged && staged[p].path == p && MergeStaging(rows, scan, root, session, staged, faults).ok
    ensures var now := MergeStaging(rows, scan, root, session, staged, faults).rows;
      p in now && now[p].rev == 1 && !now[p].dirty && now[p].bitrate.None? && now[p].scan == scan
  {
  }

  lemma RevisionCountsChanges(rows: Catalog, scan: string, root: string, session: Option<Session>, staged: map<string, Entry>, faults: Faults, p: string)
    requires p in rows && p in staged && staged[p].path == p && MergeStaging(rows, scan, root, session, staged, faults).ok
    ensures var now := MergeStaging(rows, scan, root, session, staged, faults).rows;
      var changed := rows[p].size != staged[p].size || rows[p].mtime != staged[p].mtime;
      && p in now && now[p].scan == scan
      && (changed ==> now[p].rev == rows[p].rev + 1 && now[p].dirty && now[p].bitrate.None?)
      && (!changed ==> now[p].rev == rows[p].rev && !now[p].dirty && now[p].bitrate == rows[p].bitrate)
  {
  }

  // ---------- the whole scan ----------

  /** What a scan does to the catalog once its pipeline has ended. `merging` says
      whether the session could be moved to that status. */
  function ScanResult(rows: Catalog, scan: string, root: string, session: Option<Session>, end: State, merging: bool, faults: Faults): Catalog
    requires end.producer.Stopped? && end.consumer.Ended?
  {
    if Decide(end) != Merge || !merging then rows
    else MergeStaging(rows, scan, root, session, Table(end.written), faults).rows
  }

  /** A scan that is merged and committed makes its scope exactly what the walk
      emitted, unless a cleanup error over stale rows is swallowed; any other leaves
      the catalog unchanged. */
  lemma ScanIsAllOrNothing(rows: Catalog, scan: string, root: string, session: Option<Session>, walk: seq<Entry>, actions: seq<Action>, end: State, merging: bool, faults: Faults)
    requires root != "" && Reaches(Start(walk), actions, end) && end.producer.Stopped? && end.consumer.Ended?
    requires StagedFor(root, EffectiveScope(session), Table(walk))
    ensures var now := ScanResult(rows, scan, root, session, end, merging, faults); var scope := EffectiveScope(session);
      if Decide(end) == Merge && merging && !faults.upsert && !faults.clear && !faults.commit then
        ScopeIsStaged(rows, now, root, scope, Table(walk)) <==> !faults.cleanup || NothingStale(rows, root, scope, Table(walk))
      else now == rows
  {
    hide ScopeIsStaged, NothingStale, MergeStaging, StagedFor, Inv, Enabled, Next;
    if Decide(end) == Merge {
      MergeMeansComplete(walk, actions, end);
      MergeIsExact(rows, scan, root, session, Table(walk), faults);
    }
  }
}
