/** What the guards of the transactions guard against, over whole runs, and which
    rows a transaction leaves alone. */
module StoreExact {
  import opened Prelude
  import opened Store

  // ---------- starting an execution ----------

  predicate Planning(db: Tables, key: Key) {
    exists g :: g in db.generations && db.generations[g].key == key && (db.generations[g].status == Queued || db.generations[g].status == Running)
  }

  /** A start is answered with a new queued row exactly for the current plan, version
      and draft of an operation of a live record, while nothing is being planned,
      and once for a plan; a refused one changes nothing. */
  lemma StartsExactly(db: Tables, id: string, key: Key, plan: string, version: nat, hash: string)
    ensures var r := Apply(db, CreateExecution(id, key, plan, version, hash));
      && (r.answer == Done <==>
            && key.record in db.records && db.records[key.record].library.Some?
            && key in db.operations && db.operations[key] == Operation(version, Some(plan))
            && key in db.drafts && db.drafts[key] == hash && !Planning(db, key)
            && id !in db.executions && forall e :: e in db.executions ==> db.executions[e].plan != plan)
      && r.db == (if r.answer == Done then db.(executions := db.executions[id := Execution(key, plan, Queued, false)]) else db)
  {
    assert Planning(db, key) <==> exists g :: g in db.generations && db.generations[g].key == key && db.generations[g].status.Active();
  }

  /** A transaction of this operation that makes what was read of it outdated. */
  ghost predicate Outdates(db: Tables, tx: Tx, key: Key) {
    && Apply(db, tx).answer == Done
    && ((tx.SaveDraft? && tx.key == key) || (tx.Publish? && tx.generation in db.generations && db.generations[tx.generation].key == key))
  }

  lemma OutdatingRaises(db: Tables, tx: Tx, key: Key)
    requires Inv(db) && key in db.operations && Outdates(db, tx, key)
    ensures key in Apply(db, tx).db.operations && Apply(db, tx).db.operations[key].version == db.operations[key].version + 1
  {
    hide MaxIndex, OwnersP, SessionsP, ExecutionsP, RecordsP;
    if tx.Publish? { Published(db, tx.generation, tx.plan); }
  }

  /** Some transaction of the run outdated the operation. */
  ghost predicate Outdated(db: Tables, txs: seq<Tx>, key: Key)
    decreases |txs|
  {
    txs != [] && (Outdates(db, txs[0], key) || Outdated(Apply(db, txs[0]).db, txs[1..], key))
  }

  lemma {:induction false} OutdatedIsNewer(db: Tables, txs: seq<Tx>, key: Key)
    requires Inv(db) && FreshRun(db, txs) && Lives(db, txs, key) && Outdated(db, txs, key)
    ensures key in Run(db, txs).operations && db.operations[key].version < Run(db, txs).operations[key].version
    decreases |txs|
  {
    hide Inv, Apply;
    var next := Apply(db, txs[0]).db;
    TxInv(db, txs[0]);
    if Outdates(db, txs[0], key) {
      OutdatingRaises(db, txs[0], key);
      RunGrows(next, txs[1..], key);
    } else {
      TxGrows(db, txs[0], key);
      OutdatedIsNewer(next, txs[1..], key);
    }
  }

  /** Whoever read an operation before a draft was saved or a plan published can
      neither start it nor save a draft with the version it read. */
  lemma StaleVersionIsRefused(db: Tables, txs: seq<Tx>, key: Key, version: nat, id: string, plan: string, hash: string)
    requires Inv(db) && FreshRun(db, txs) && Lives(db, txs, key) && Outdated(db, txs, key) && version <= db.operations[key].version
    ensures var now := Run(db, txs);
      && Apply(now, CreateExecution(id, key, plan, version, hash)).answer != Done && Apply(now, CreateExecution(id, key, plan, version, hash)).db == now
      && Apply(now, SaveDraft(key, version, hash)) == Result(now, VersionConflict)
  {
    hide Inv, Run, Lives, FreshRun, Outdated;
    OutdatedIsNewer(db, txs, key);
    StartsExactly(Run(db, txs), id, key, plan, version, hash);
  }

  /** The draft of the last successful save of the run, or what was there before. */
  ghost function LastDraft(db: Tables, txs: seq<Tx>, key: Key, before: string): string
    decreases |txs|
  {
    if txs == [] then before
    else
      LastDraft(Apply(db, txs[0]).db, txs[1..], key,
                if txs[0].SaveDraft? && txs[0].key == key && Apply(db, txs[0]).answer == Done then txs[0].hash else before)
  }

  lemma DraftStep(db: Tables, tx: Tx, key: Key)
    requires Inv(db) && FreshRecord(db, tx) && key in db.operations && key in Apply(db, tx).db.operations && key in db.drafts
    ensures key in Apply(db, tx).db.drafts
    ensures Apply(db, tx).db.drafts[key] == if tx.SaveDraft? && tx.key == key && Apply(db, tx).answer == Done then tx.hash else db.drafts[key]
  {
    hide GenerationTx, ExecutionsAfter, SaveOperationDraft, PublishPlan, ReplaceCurrent, RemoveLibrary, NewExecution, PlansP, SessionsP, ExecutionsP, RecordsP;
    if OnGenerations(tx) {
      OnlyGenerations(db, tx);
    } else if tx.Publish? {
      PublishDrafts(db, tx.generation, tx.plan);
    } else if tx.SaveDraft? {
      SaveDrafts(db, tx.key, tx.version, tx.hash, key);
    } else if tx.ReplaceRecord? {
      ReplaceDrafts(db, tx.id, tx.library, tx.op, tx.expected, key);
    } else if tx.DeleteLibrary? {
      DeleteDrafts(db, tx.library, key);
    } else if tx.CreateExecution? {
      StartDrafts(db, tx.id, tx.key, tx.plan, tx.version, tx.hash);
    }
  }

  lemma SaveDrafts(db: Tables, k: Key, version: nat, hash: string, key: Key)
    requires key in db.drafts
    ensures var r := SaveOperationDraft(db, k, version, hash);
      key in r.db.drafts && r.db.drafts[key] == (if k == key && r.answer == Done then hash else db.drafts[key])
  {
  }

  lemma ReplaceDrafts(db: Tables, id: string, library: string, op: string, expected: Option<string>, key: Key)
    requires key in db.drafts && key in db.operations && OwnersP(db.records, db.operations, db.drafts) && id !in db.records
    ensures var r := ReplaceCurrent(db, id, library, op, expected);
      key in r.db.operations ==> key in r.db.drafts && r.db.drafts[key] == db.drafts[key]
  {
    hide SeenIsCurrent, RecordBusy;
  }

  lemma DeleteDrafts(db: Tables, library: string, key: Key)
    requires key in db.drafts
    ensures var r := RemoveLibrary(db, library);
      key in r.db.operations ==> key in r.db.drafts && r.db.drafts[key] == db.drafts[key]
  {
    hide RecordBusy, RecordsOf;
  }

  lemma StartDrafts(db: Tables, id: string, key: Key, plan: string, version: nat, hash: string)
    ensures NewExecution(db, id, key, plan, version, hash).db.drafts == db.drafts
  {
    hide Eligible;
  }

  lemma PublishDrafts(db: Tables, generation: string, plan: string)
    ensures PublishPlan(db, generation, plan).db.drafts == db.drafts
  {
    hide MaxIndex;
  }

  lemma {:induction false} DraftIsLastSaved(db: Tables, txs: seq<Tx>, key: Key)
    requires Inv(db) && FreshRun(db, txs) && Lives(db, txs, key) && key in db.drafts
    ensures key in Run(db, txs).drafts && Run(db, txs).drafts[key] == LastDraft(db, txs, key, db.drafts[key])
    decreases |txs|
  {
    hide Inv, Apply;
    if txs != [] {
      TxInv(db, txs[0]);
      DraftStep(db, txs[0], key);
      DraftIsLastSaved(Apply(db, txs[0]).db, txs[1..], key);
    }
  }

  /** In every run a start that is answered Done happens while its operation is not
      being planned and its record is live, with the draft of the last successful
      save, and for the current plan. */
  lemma StartsOnLastDraft(db: Tables, txs: seq<Tx>, id: string, key: Key, plan: string, version: nat, hash: string)
    requires Inv(db) && FreshRun(db, txs) && Lives(db, txs, key) && key in db.drafts
    requires Apply(Run(db, txs), CreateExecution(id, key, plan, version, hash)).answer == Done
    ensures hash == LastDraft(db, txs, key, db.drafts[key]) && !Planning(Run(db, txs), key)
    ensures Run(db, txs).operations[key] == Operation(version, Some(plan)) && Run(db, txs).records[key.record].library.Some?
  {
    hide Inv, Run, Lives, FreshRun, LastDraft, Apply;
    DraftIsLastSaved(db, txs, key);
    StartsExactly(Run(db, txs), id, key, plan, version, hash);
  }

  // ---------- publishing ----------

  /** A plan is published exactly for a session that is still planning, under an
      unused identifier; it becomes the operation's current plan, one index and one
      version further, and ends the session. */
  lemma PublishesExactly(db: Tables, generation: string, plan: string)
    requires Inv(db)
    ensures var r := Apply(db, Publish(generation, plan));
      && (r.answer == Done <==> generation in db.generations && db.generations[generation].status in {Queued, Running} && plan !in db.plans)
      && (r.answer != Done ==> r.db == db)
    ensures var r := Apply(db, Publish(generation, plan)); r.answer == Done ==>
      var key := db.generations[generation].key;
      && key in db.operations && key in r.db.operations
      && r.db.operations[key] == Operation(db.operations[key].version + 1, Some(plan))
      && CurrentIndex(r.db, key) == CurrentIndex(db, key) + 1
      && generation in r.db.generations && r.db.generations[generation].status == Succeeded
      && plan in r.db.plans && r.db.plans[plan] == key.record
  {
    hide MaxIndex;
    if PublishPlan(db, generation, plan).answer.Done? {
      Published(db, generation, plan);
      PublishGuards(db, generation, plan);
      MaxIsCurrent(db, db.generations[generation].key);
    }
  }

  // ---------- records that are in use ----------

  /** A planning session or an execution of the record is queued or running. */
  predicate InUse(db: Tables, record: string) {
    || (exists g :: g in db.generations && db.generations[g].key.record == record && db.generations[g].status in {Queued, Running})
    || (exists e :: e in db.executions && db.executions[e].key.record == record && db.executions[e].status in {Queued, Running})
  }

  lemma InUseIsBusy(db: Tables, record: string)
    ensures InUse(db, record) <==> RecordBusy(db, record)
  {
  }

  /** A record goes only when nothing of it is in use: replaced by a successor of
      the same library and operation that expected it, or with its library. */
  lemma OnlyIdleRecordsGo(db: Tables, tx: Tx, record: string)
    requires record in db.records && record !in Apply(db, tx).db.records
    ensures !InUse(db, record) && Apply(db, tx).answer == Done
    ensures (tx.ReplaceRecord? && tx.expected == Some(record) && db.records[record] == Record(Some(tx.library), tx.op))
      || (tx.DeleteLibrary? && db.records[record].library == Some(tx.library))
  {
    InUseIsBusy(db, record);
    hide InUse, MaxIndex, GenerationTx, ExecutionsAfter, RecordBusy, Eligible, Promoted, WithoutPlan;
    if OnGenerations(tx) {
      OnlyGenerations(db, tx);
    } else if tx.Publish? {
      PublishRecords(db, tx.generation, tx.plan);
    }
  }

  lemma PublishRecords(db: Tables, generation: string, plan: string)
    ensures PublishPlan(db, generation, plan).db.records == db.records
  {
    hide MaxIndex;
  }

  /** Replacing an expected record: refused when another one is current, and when
      it is in use; otherwise the new record is there with a fresh operation, and
      the old one with everything of it is gone. */
  lemma ReplacesExactly(db: Tables, id: string, library: string, op: string, expected: Option<string>)
    requires Inv(db) && id !in db.records
    ensures var r := Apply(db, ReplaceRecord(id, library, op, expected)); var seen := CurrentOf(db, library, op);
      && (r.answer == RecordChanged <==> if expected.Some? then expected.value !in seen else seen != {})
      && (r.answer == Busy <==> expected.Some? && expected.value in seen && InUse(db, expected.value))
      && (r.answer == RecordChanged || r.answer == Busy || r.answer == Done)
      && (r.answer != Done ==> r.db == db)
    ensures var r := Apply(db, ReplaceRecord(id, library, op, expected)); r.answer == Done ==>
      && id in r.db.records && r.db.records[id] == Record(Some(library), op)
      && Key(id, op) in r.db.operations && r.db.operations[Key(id, op)] == Operation(1, None)
      && Key(id, op) in r.db.drafts && r.db.drafts[Key(id, op)] == ""
      && CurrentOf(r.db, library, op) == {id}
  {
    if expected.Some? { InUseIsBusy(db, expected.value); }
    SeenIsThere(db, library, op, expected);
    hide InUse, RecordBusy, PlansP, OwnersP, SessionsP, ExecutionsP, SeenIsCurrent;
  }

  lemma SeenIsThere(db: Tables, library: string, op: string, expected: Option<string>)
    requires RecordsP(db.records)
    ensures SeenIsCurrent(db, library, op, expected) <==> if expected.Some? then expected.value in CurrentOf(db, library, op) else CurrentOf(db, library, op) == {}
    ensures forall a, b :: a in CurrentOf(db, library, op) && b in CurrentOf(db, library, op) ==> a == b
  {
    if expected.None? {
      assert CurrentOf(db, library, op) == {} <==> forall id :: id in db.records ==> db.records[id] != Record(Some(library), op) by {
        if id :| id in db.records && db.records[id] == Record(Some(library), op) { assert id in CurrentOf(db, library, op); }
      }
    }
  }

  function CurrentOf(db: Tables, library: string, op: string): set<string> {
    set r | r in db.records && db.records[r] == Record(Some(library), op)
  }

  /** A library goes with all its records exactly when none of them is in use. */
  lemma DeletesExactly(db: Tables, library: string)
    ensures var r := Apply(db, DeleteLibrary(library));
      && (r.answer == Busy <==> exists k :: k in db.records && db.records[k].library == Some(library) && InUse(db, k))
      && (r.answer == Busy || r.answer == Done) && (r.answer == Busy ==> r.db == db)
      && (r.answer == Done ==> forall k :: k in r.db.records <==> k in db.records && db.records[k].library != Some(library))
  {
    forall k ensures InUse(db, k) <==> RecordBusy(db, k) { InUseIsBusy(db, k); }
    hide InUse, RecordBusy;
  }

  // ---------- what a transaction leaves alone ----------

  /** The records a transaction is about. */
  ghost predicate Concerns(db: Tables, tx: Tx, record: string) {
    match tx
    case ReplaceRecord(id, _, _, expected) => record == id || expected == Some(record)
    case DeleteLibrary(library) => record in db.records && db.records[record].library == Some(library)
    case SaveDraft(key, _, _) => record == key.record
    case CreateGeneration(_, key) => record == key.record
    case CreateExecution(_, key, _, _, _) => record == key.record
    case Publish(g, _) => g in db.generations && record == db.generations[g].key.record
    case ClaimGeneration(g) => g in db.generations && record == db.generations[g].key.record
    case CancelQueuedGeneration(g) => g in db.generations && record == db.generations[g].key.record
    case StopGeneration(g) => g in db.generations && record == db.generations[g].key.record
    case FailGeneration(g) => g in db.generations && record == db.generations[g].key.record
    case EndGeneration(g, _) => g in db.generations && record == db.generations[g].key.record
    case PruneGeneration(g) => g in db.generations && record == db.generations[g].key.record
    case ClaimExecution(e) => e in db.executions && record == db.executions[e].key.record
    case CancelQueuedExecution(e) => e in db.executions && record == db.executions[e].key.record
    case StopExecution(e) => e in db.executions && record == db.executions[e].key.record
    case FinishExecution(e, _) => e in db.executions && record == db.executions[e].key.record
    case InterruptGenerations => true
    case InterruptExecutions => true
  }

  /** Everything stored for a record is the same. */
  ghost predicate SameRows(s: Tables, t: Tables, record: string) {
    && (record in s.records <==> record in t.records) && (record in s.records ==> t.records[record] == s.records[record])
    && SameKeyed(s.operations, t.operations, record) && SameKeyed(s.drafts, t.drafts, record)
    && SameRevisions(s.revisions, t.revisions, record)
    && SameSessions(s.generations, t.generations, record) && SameExecutions(s.executions, t.executions, record)
  }

  ghost predicate SameKeyed<T(!new)>(a: map<Key, T>, b: map<Key, T>, record: string) {
    forall k: Key :: k.record == record ==> (k in a <==> k in b) && (k in a ==> b[k] == a[k])
  }

  ghost predicate SameRevisions(a: map<string, Revision>, b: map<string, Revision>, record: string) {
    && (forall p :: p in a && a[p].key.record == record ==> p in b && b[p] == a[p])
    && (forall p :: p in b && b[p].key.record == record ==> p in a && a[p] == b[p])
  }

  ghost predicate SameSessions(a: map<string, Session>, b: map<string, Session>, record: string) {
    && (forall g :: g in a && a[g].key.record == record ==> g in b && b[g] == a[g])
    && (forall g :: g in b && b[g].key.record == record ==> g in a && a[g] == b[g])
  }

  ghost predicate SameExecutions(a: map<string, Execution>, b: map<string, Execution>, record: string) {
    && (forall e :: e in a && a[e].key.record == record ==> e in b && b[e] == a[e])
    && (forall e :: e in b && b[e].key.record == record ==> e in a && a[e] == b[e])
  }

  lemma Unchanged(db: Tables, record: string)
    ensures SameKeyed(db.operations, db.operations, record) && SameKeyed(db.drafts, db.drafts, record) && SameRevisions(db.revisions, db.revisions, record)
    ensures SameSessions(db.generations, db.generations, record) && SameExecutions(db.executions, db.executions, record)
  {
  }

  lemma WithoutSame(db: Tables, ids: set<string>, record: string)
    requires Inv(db) && record !in ids
    ensures SameRows(db, WithoutRecords(db, ids), record)
  {
    hide ExecutionsP, RecordsP, SessionsP, OwnersP;
  }

  lemma SameTwice(s: Tables, m: Tables, t: Tables, record: string)
    requires SameRows(s, m, record) && SameRows(m, t, record)
    ensures SameRows(s, t, record)
  {
  }

  lemma AddedSame(rest: Tables, id: string, library: string, op: string, record: string)
    requires record != id
    ensures SameRows(rest, WithRecord(rest, id, library, op), record)
  {
    hide SameRevisions, SameSessions, SameExecutions;
    Unchanged(rest, record);
  }

  lemma ReplaceSame(db: Tables, id: string, library: string, op: string, expected: Option<string>, record: string)
    requires Inv(db) && record != id && expected != Some(record)
    ensures SameRows(db, ReplaceCurrent(db, id, library, op, expected).db, record)
  {
    hide SeenIsCurrent, RecordBusy, Inv, WithoutRecords, SameRows, WithRecord;
    var rest := if expected.Some? then WithoutRecords(db, {expected.value}) else db;
    if expected.Some? { WithoutSame(db, {expected.value}, record); }
    SelfSame(db, record);
    AddedSame(rest, id, library, op, record);
    SameTwice(db, rest, WithRecord(rest, id, library, op), record);
  }

  lemma SelfSame(db: Tables, record: string)
    ensures SameRows(db, db, record)
  {
  }

  lemma PromotedSame(db: Tables, key: Key, generation: string, plan: string, index: nat, record: string)
    requires generation in db.generations && db.generations[generation].key == key && record != key.record && plan !in db.revisions
    ensures SameRows(db, Promoted(db, key, generation, plan, index), record)
  {
    hide SameExecutions;
    Unchanged(db, record);
  }

  lemma PlanGoneSame(db: Tables, plan: string, record: string)
    requires plan in db.revisions ==> db.revisions[plan].key.record != record
    requires forall e :: e in db.executions && db.executions[e].plan == plan ==> db.executions[e].key.record != record
    ensures SameRows(db, WithoutPlan(db, plan), record)
  {
    hide SameKeyed, SameSessions;
    Unchanged(db, record);
  }

  lemma PublishSame(db: Tables, generation: string, plan: string, record: string)
    requires Inv(db) && (generation in db.generations ==> record != db.generations[generation].key.record)
    ensures SameRows(db, PublishPlan(db, generation, plan).db, record)
  {
    hide SameRows, MaxIndex, Promoted, WithoutPlan, PlansP, SessionsP, OwnersP, ExecutionsP, RecordsP;
    SelfSame(db, record);
    if generation in db.generations && plan !in db.plans {
      var key := db.generations[generation].key;
      var index := MaxIndex(db.revisions, key) + 1;
      var next := Promoted(db, key, generation, plan, index);
      PublishedIsNew(db, plan);
      PromotedSame(db, key, generation, plan, index, record);
      if key in db.operations && db.operations[key].current.Some? && db.operations[key].current.value != plan {
        var before := db.operations[key].current.value;
        ReplacedIsOwn(db, key, generation, plan, index, before);
        PlanGoneSame(next, before, record);
        SameTwice(db, next, WithoutPlan(next, before), record);
      }
    }
  }

  lemma PublishedIsNew(db: Tables, plan: string)
    requires Inv(db) && plan !in db.plans
    ensures plan !in db.revisions
  {
    hide SessionsP, OwnersP, ExecutionsP, RecordsP;
  }

  /** The plan that is replaced, and its execution, belong to the operation. */
  lemma ReplacedIsOwn(db: Tables, key: Key, generation: string, plan: string, index: nat, before: string)
    requires Inv(db) && generation in db.generations && key in db.operations && db.operations[key].current == Some(before) && before != plan
    ensures var next := Promoted(db, key, generation, plan, index);
      && (before in next.revisions ==> next.revisions[before].key == key)
      && (forall e :: e in next.executions && next.executions[e].plan == before ==> next.executions[e].key == key)
  {
    hide SessionsP, OwnersP, RecordsP;
  }

  lemma SessionSame(db: Tables, tx: Tx, record: string)
    requires (OnGenerations(tx) || OnExecutions(tx)) && !Concerns(db, tx, record)
    ensures SameRows(db, Apply(db, tx).db, record)
  {
    Unchanged(db, record);
    if OnGenerations(tx) {
      OnlyGenerations(db, tx);
      GenerationSame(db, tx, record);
      hide GenerationTx, Concerns, SameKeyed, SameRevisions, SameSessions, SameExecutions;
    } else {
      ExecutionSame(db.executions, tx, db, record);
      hide ExecutionsAfter, Concerns, SameKeyed, SameRevisions, SameSessions, SameExecutions;
    }
  }

  ghost function PlanningAfter(db: Tables, tx: Tx, g: string): Option<Session> {
    var now := Apply(db, tx).db.generations;
    if g in now then Some(now[g]) else None
  }

  /** A planning transaction touches one session, and not whose it is. */
  lemma OneSession(db: Tables, tx: Tx, g: string)
    requires OnGenerations(tx) && !tx.InterruptGenerations? && g != tx.id
    ensures PlanningAfter(db, tx, g) == if g in db.generations then Some(db.generations[g]) else None
  {
    hide PlanningAfter;
    if tx.CreateGeneration? || tx.PruneGeneration? {
      AddedOrPruned(db, tx, g);
    } else {
      Moved(db, tx, g);
    }
  }

  lemma AddedOrPruned(db: Tables, tx: Tx, g: string)
    requires (tx.CreateGeneration? || tx.PruneGeneration?) && g != tx.id
    ensures PlanningAfter(db, tx, g) == if g in db.generations then Some(db.generations[g]) else None
  {
    hide Status.Active;
  }

  lemma Moved(db: Tables, tx: Tx, g: string)
    requires OnGenerations(tx) && !tx.InterruptGenerations? && !tx.CreateGeneration? && !tx.PruneGeneration? && g != tx.id
    ensures PlanningAfter(db, tx, g) == if g in db.generations then Some(db.generations[g]) else None
  {
    hide Status.Active;
  }

  lemma SameOwner(db: Tables, tx: Tx, g: string)
    requires OnGenerations(tx) && !tx.InterruptGenerations? && PlanningAfter(db, tx, g).Some?
    ensures g in db.generations ==> db.generations[g].key == PlanningAfter(db, tx, g).value.key
    ensures g !in db.generations ==> tx.CreateGeneration? && PlanningAfter(db, tx, g).value.key == tx.key
  {
    hide Status.Active;
  }

  lemma PlannedAnew(db: Tables, id: string, key: Key)
    requires id in db.generations
    ensures GenerationTx(db, CreateGeneration(id, key)).db == db
  {
  }

  lemma GenerationSame(db: Tables, tx: Tx, record: string)
    requires OnGenerations(tx) && !Concerns(db, tx, record)
    ensures SameSessions(db.generations, GenerationTx(db, tx).db.generations, record)
  {
    hide GenerationTx;
    var now := GenerationTx(db, tx).db.generations;
    if tx.CreateGeneration? && tx.id in db.generations {
      PlannedAnew(db, tx.id, tx.key);
    } else {
      forall g | g in db.generations && db.generations[g].key.record == record ensures g in now && now[g] == db.generations[g] {
        if g != tx.id { OneSession(db, tx, g); }
      }
      forall g | g in now && now[g].key.record == record ensures g in db.generations && db.generations[g] == now[g] {
        if g != tx.id { OneSession(db, tx, g); }
        SameOwner(db, tx, g);
      }
    }
  }

  lemma ExecutionSame(executions: map<string, Execution>, tx: Tx, db: Tables, record: string)
    requires OnExecutions(tx) && !Concerns(db, tx, record) && executions == db.executions
    ensures SameExecutions(executions, ExecutionsAfter(executions, tx), record)
  {
  }

  lemma KeyWritten<T(!new)>(m: map<Key, T>, key: Key, value: T, record: string)
    requires key.record != record
    ensures SameKeyed(m, m[key := value], record)
  {
  }

  lemma SaveSame(db: Tables, key: Key, version: nat, hash: string, record: string)
    requires key.record != record
    ensures SameRows(db, SaveOperationDraft(db, key, version, hash).db, record)
  {
    hide SameKeyed, SameRevisions, SameSessions, SameExecutions;
    Unchanged(db, record);
    if key in db.operations { KeyWritten(db.operations, key, Operation(db.operations[key].version + 1, db.operations[key].current), record); }
    KeyWritten(db.drafts, key, hash, record);
  }

  lemma ExecutionAdded(m: map<string, Execution>, id: string, x: Execution, record: string)
    requires id !in m && x.key.record != record
    ensures SameExecutions(m, m[id := x], record)
  {
  }

  lemma StartSame(db: Tables, id: string, key: Key, plan: string, version: nat, hash: string, record: string)
    requires key.record != record
    ensures SameRows(db, NewExecution(db, id, key, plan, version, hash).db, record)
  {
    hide Eligible, SameRevisions, SameSessions, SameKeyed, SameExecutions;
    Unchanged(db, record);
    if id !in db.executions { ExecutionAdded(db.executions, id, Execution(key, plan, Queued, false), record); }
  }

  /** A transaction leaves everything of every other record exactly as it was. */
  lemma OthersUntouched(db: Tables, tx: Tx, record: string)
    requires Inv(db) && !Concerns(db, tx, record)
    ensures SameRows(db, Apply(db, tx).db, record)
  {
    hide Inv, SameKeyed, SameRevisions, SameSessions, SameExecutions, GenerationTx, ExecutionTx, PublishPlan, ReplaceCurrent, WithoutRecords, SaveOperationDraft, NewExecution;
    if OnGenerations(tx) || OnExecutions(tx) {
      SessionSame(db, tx, record);
    } else {
      match tx
      case ReplaceRecord(id, library, op, expected) => ReplaceSame(db, id, library, op, expected, record);
      case DeleteLibrary(library) => WithoutSame(db, RecordsOf(db, library), record); Unchanged(db, record);
      case Publish(generation, plan) => PublishSame(db, generation, plan, record);
      case SaveDraft(key, version, hash) => SaveSame(db, key, version, hash, record);
      case CreateExecution(id, key, plan, version, hash) => StartSame(db, id, key, plan, version, hash, record);
    }
  }

  // ---------- the life of a session ----------

  /** The statuses an execution may go through: queued, running, and one end. */
  predicate Follows(before: Status, now: Status) {
    || now == before
    || (before == Queued && now != Queued)
    || (before == Running && now in {Succeeded, Failed, Canceled, Interrupted})
  }

  /** One step of an execution session: it is claimed only from the queue, canceled
      at once only there, asked to stop only while it runs. */
  lemma ExecutionSteps(db: Tables, tx: Tx, e: string)
    requires WellFormed(tx) && OnExecutions(tx) && e in db.executions
    ensures var now := Apply(db, tx).db.executions;
      && e in now && now[e].key == db.executions[e].key && now[e].plan == db.executions[e].plan
      && Follows(db.executions[e].status, now[e].status)
      && (now[e].status == Running && db.executions[e].status != Running ==> tx == ClaimExecution(e) && db.executions[e].status == Queued)
      && (now[e].cancel && !db.executions[e].cancel ==> tx == StopExecution(e) && db.executions[e].status == Running)
      && (now[e].status == Canceled && db.executions[e].status != Canceled ==>
            (tx == CancelQueuedExecution(e) && db.executions[e].status == Queued) || tx == FinishExecution(e, Canceled))
      && (now[e].status in {Succeeded, Failed} && db.executions[e].status != now[e].status ==> tx == FinishExecution(e, now[e].status))
      && (now[e].status == Interrupted && db.executions[e].status != Interrupted ==> tx == InterruptExecutions || tx == FinishExecution(e, Interrupted))
  {
  }

  /** Every other transaction leaves the row of a session that stays as it was. */
  lemma OthersKeepExecution(db: Tables, tx: Tx, e: string)
    requires !OnExecutions(tx) && e in db.executions && e in Apply(db, tx).db.executions
    ensures Apply(db, tx).db.executions[e] == db.executions[e]
  {
    hide MaxIndex, SeenIsCurrent, RecordBusy, RecordsOf, Eligible, GenerationTx;
    if OnGenerations(tx) { OnlyGenerations(db, tx); }
  }

  /** What a change of an execution session over a run goes back to. */
  predicate Explains(txs: seq<Tx>, e: string, was: Execution, now: Execution) {
    && now.key == was.key && now.plan == was.plan
    && (now.status == Running && was.status != Running ==> was.status == Queued && ClaimExecution(e) in txs)
    && (now.status in {Succeeded, Failed} && was.status != now.status ==> FinishExecution(e, now.status) in txs)
    && (now.status == Canceled && was.status != Canceled ==> CancelQueuedExecution(e) in txs || FinishExecution(e, Canceled) in txs)
    && (now.status == Interrupted && was.status != Interrupted ==> InterruptExecutions in txs || FinishExecution(e, Interrupted) in txs)
    && (now.cancel && !was.cancel ==> StopExecution(e) in txs)
    && Follows(was.status, now.status)
  }

  /** Whatever a run holds besides: an execution session is running only when it was
      claimed, has ended as it does only when it was ended so, was marked only when
      that was asked for, and never changes its operation or its plan. */
  lemma {:induction false} StatusHasACause(db: Tables, txs: seq<Tx>, e: string)
    requires (forall i :: 0 <= i < |txs| ==> WellFormed(txs[i])) && ExecutionLives(db, txs, e)
    ensures e in Run(db, txs).executions && Explains(txs, e, db.executions[e], Run(db, txs).executions[e])
    decreases |txs|
  {
    hide Apply, WellFormed, Explains;
    if txs == [] {
      ExplainsItself(e, db.executions[e]);
    } else {
      var next := Apply(db, txs[0]).db;
      StatusHasACause(next, txs[1..], e);
      StepExplains(db, txs[0], e);
      assert txs == [txs[0]] + txs[1..];
      ExplainsBoth([txs[0]], txs[1..], e, db.executions[e], next.executions[e], Run(next, txs[1..]).executions[e]);
    }
  }

  lemma ExplainsItself(e: string, x: Execution)
    ensures Explains([], e, x, x)
  {
  }

  lemma StepExplains(db: Tables, tx: Tx, e: string)
    requires WellFormed(tx) && e in db.executions && e in Apply(db, tx).db.executions
    ensures Explains([tx], e, db.executions[e], Apply(db, tx).db.executions[e])
  {
    hide Apply;
    if OnExecutions(tx) { ExecutionSteps(db, tx, e); } else { OthersKeepExecution(db, tx, e); }
  }

  lemma ExplainsBoth(a: seq<Tx>, b: seq<Tx>, e: string, x: Execution, y: Execution, z: Execution)
    requires Explains(a, e, x, y) && Explains(b, e, y, z)
    ensures Explains(a + b, e, x, z)
  {
    assert forall tx :: tx in a + b <==> tx in a || tx in b;
  }

  ghost function RunAfter(db: Tables, tx: Tx, e: string): Option<Execution> {
    var now := Apply(db, tx).db.executions;
    if e in now then Some(now[e]) else None
  }

  /** And each of these steps is taken when it is asked for. */
  lemma ExecutionStepsHappen(db: Tables, e: string, status: Status)
    requires e in db.executions
    ensures var x := db.executions[e]; var active := x.status == Queued || x.status == Running;
      && RunAfter(db, ClaimExecution(e), e) == Some(if x.status == Queued then x.(status := Running) else x)
      && (Apply(db, ClaimExecution(e)).answer == Done <==> x.status == Queued)
      && RunAfter(db, FinishExecution(e, status), e) == Some(if active then x.(status := status) else x)
      && RunAfter(db, InterruptExecutions, e) == Some(if active then x.(status := Interrupted) else x)
  {
  }

  lemma ExecutionCancels(db: Tables, e: string)
    requires e in db.executions
    ensures var x := db.executions[e];
      && RunAfter(db, CancelQueuedExecution(e), e) == Some(if x.status == Queued then x.(status := Canceled) else x)
      && RunAfter(db, StopExecution(e), e) == Some(if x.status == Running then x.(cancel := true) else x)
  {
  }

  /** The same for a planning session; only a running one is ended as canceled or
      interrupted, and only one that has ended is pruned. */
  lemma GenerationSteps(db: Tables, g: string, status: Status)
    requires g in db.generations
    ensures var x := db.generations[g]; var active := x.status == Queued || x.status == Running;
      && PlanningAfter(db, FailGeneration(g), g) == Some(if active then x.(status := Failed) else x)
      && PlanningAfter(db, EndGeneration(g, status), g) == Some(if x.status == Running then x.(status := status) else x)
  {
  }

  lemma GenerationEnds(db: Tables, g: string)
    requires g in db.generations
    ensures var x := db.generations[g]; var active := x.status == Queued || x.status == Running;
      && PlanningAfter(db, InterruptGenerations, g) == Some(if active then x.(status := Interrupted) else x)
      && PlanningAfter(db, PruneGeneration(g), g) == (if active then Some(x) else None)
  {
  }

  lemma GenerationCancels(db: Tables, g: string)
    requires g in db.generations
    ensures var x := db.generations[g];
      && PlanningAfter(db, ClaimGeneration(g), g) == Some(if x.status == Queued then x.(status := Running) else x)
      && (Apply(db, ClaimGeneration(g)).answer == Done <==> x.status == Queued)
      && PlanningAfter(db, CancelQueuedGeneration(g), g) == Some(if x.status == Queued then x.(status := Canceled) else x)
      && PlanningAfter(db, StopGeneration(g), g) == Some(if x.status == Running then x.(cancel := true) else x)
  {
  }

  /** A planning session starts queued, for an operation that exists, under an
      unused identifier. */
  lemma PlansExactly(db: Tables, id: string, key: Key)
    ensures var r := Apply(db, CreateGeneration(id, key));
      && (r.answer == Done <==> id !in db.generations && key in db.operations && key.record in db.records)
      && r.db == (if r.answer == Done then db.(generations := db.generations[id := Session(key, Queued, false)]) else db)
  {
  }

  /** A draft is saved exactly on the version its writer saw. */
  lemma SavesExactly(db: Tables, key: Key, version: nat, hash: string)
    ensures var r := Apply(db, SaveDraft(key, version, hash));
      && r.answer == (if key !in db.operations then NotFound else if db.operations[key].version != version then VersionConflict else Done)
      && r.db == (if r.answer == Done
                  then db.(operations := db.operations[key := Operation(version + 1, db.operations[key].current)], drafts := db.drafts[key := hash])
                  else db)
  {
  }
}
