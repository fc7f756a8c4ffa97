/** The durable side of planning and execution: tables as maps, and every
    transaction as one step. A record keeps at most one plan, its current one. */
module Store {
  import opened Prelude

  /** An operation of a record. */
  datatype Key = Key(record: string, op: string)

  datatype Status = Queued | Running | Succeeded | Failed | Canceled | Interrupted
  {
    predicate Active() { Queued? || Running? }
  }

  datatype Record = Record(library: Option<string>, op: string)
  datatype Operation = Operation(version: nat, current: Option<string>)
  datatype Revision = Revision(key: Key, index: nat)
  datatype Session = Session(key: Key, status: Status, cancel: bool)
  datatype Execution = Execution(key: Key, plan: string, status: Status, cancel: bool)

  datatype Tables = Tables(
    records: map<string, Record>, operations: map<Key, Operation>, drafts: map<Key, string>,
    plans: map<string, string>, revisions: map<string, Revision>,
    generations: map<string, Session>, executions: map<string, Execution>)

  datatype Answer =
    | Done | NotFound | VersionConflict | RecordChanged | Busy | Conflict | NotEligible

  datatype Result = Result(db: Tables, answer: Answer)

  const EMPTY := Tables(map[], map[], map[], map[], map[], map[], map[])

  datatype Tx =
    | ReplaceRecord(id: string, library: string, op: string, expected: Option<string>)
    | DeleteLibrary(library: string)
    | SaveDraft(key: Key, version: nat, hash: string)
    | CreateGeneration(id: string, key: Key)
    | ClaimGeneration(id: string)
    | CancelQueuedGeneration(id: string)
    | StopGeneration(id: string)
    | FailGeneration(id: string)
    | EndGeneration(id: string, status: Status)
    | InterruptGenerations
    | PruneGeneration(id: string)
    | Publish(generation: string, plan: string)
    | CreateExecution(id: string, key: Key, plan: string, version: nat, hash: string)
    | ClaimExecution(id: string)
    | CancelQueuedExecution(id: string)
    | StopExecution(id: string)
    | FinishExecution(id: string, status: Status)
    | InterruptExecutions

  // ---------- records ----------

  predicate IsCurrentRecord(db: Tables, id: string, library: string, op: string) {
    id in db.records && db.records[id] == Record(Some(library), op)
  }

  predicate RecordBusy(db: Tables, id: string) {
    || (exists g :: g in db.generations && db.generations[g].key.record == id && db.generations[g].status.Active())
    || (exists e :: e in db.executions && db.executions[e].key.record == id && db.executions[e].status.Active())
  }

  /** Deleting records takes their plans by column and the rest by cascade. */
  function WithoutRecords(db: Tables, ids: set<string>): Tables {
    var plans := map p | p in db.plans && db.plans[p] !in ids :: db.plans[p];
    Tables(
      map r | r in db.records && r !in ids :: db.records[r],
      map k | k in db.operations && k.record !in ids :: db.operations[k],
      map k | k in db.drafts && k.record !in ids :: db.drafts[k],
      plans,
      map p | p in db.revisions && p in plans :: db.revisions[p],
      map g | g in db.generations && db.generations[g].key.record !in ids :: db.generations[g],
      map e | e in db.executions && db.executions[e].key.record !in ids :: db.executions[e])
  }

  function WithRecord(db: Tables, id: string, library: string, op: string): Tables {
    Tables(db.records[id := Record(Some(library), op)], db.operations[Key(id, op) := Operation(1, None)],
           db.drafts[Key(id, op) := ""], db.plans, db.revisions, db.generations, db.executions)
  }

  predicate SeenIsCurrent(db: Tables, library: string, op: string, expected: Option<string>) {
    match expected
    case Some(id) => IsCurrentRecord(db, id, library, op)
    case None => forall id :: id in db.records ==> !IsCurrentRecord(db, id, library, op)
  }

  function ReplaceCurrent(db: Tables, id: string, library: string, op: string, expected: Option<string>): Result {
    if !SeenIsCurrent(db, library, op, expected) then Result(db, RecordChanged)
    else if expected.Some? && RecordBusy(db, expected.value) then Result(db, Busy)
    else
      var rest := if expected.Some? then WithoutRecords(db, {expected.value}) else db;
      if id in rest.records then Result(db, Conflict)
      else Result(WithRecord(rest, id, library, op), Done)
  }

  function RecordsOf(db: Tables, library: string): set<string> {
    set r | r in db.records && db.records[r].library == Some(library)
  }

  function RemoveLibrary(db: Tables, library: string): Result {
    if exists r :: r in RecordsOf(db, library) && RecordBusy(db, r) then Result(db, Busy)
    else Result(WithoutRecords(db, RecordsOf(db, library)), Done)
  }

  // ---------- operations ----------

  function SaveOperationDraft(db: Tables, key: Key, version: nat, hash: string): Result {
    if key !in db.operations then Result(db, NotFound)
    else if db.operations[key].version != version then Result(db, VersionConflict)
    else
      var o := db.operations[key];
      Result(Tables(db.records, db.operations[key := Operation(o.version + 1, o.current)], db.drafts[key := hash],
                    db.plans, db.revisions, db.generations, db.executions), Done)
  }

  /** MAX(revision_index) of the operation's revision rows, zero when none. */
  ghost function MaxIndex(revisions: map<string, Revision>, key: Key): nat {
    MaxOver(set p | p in revisions && revisions[p].key == key :: revisions[p].index)
  }

  ghost function MaxOver(s: set<nat>): (m: nat)
    ensures forall x :: x in s ==> x <= m
    ensures s != {} ==> m in s
    ensures s == {} ==> m == 0
  {
    if s == {} then 0
    else
      var x :| x in s;
      var rest := MaxOver(s - {x});
      assert s == (s - {x}) + {x};
      if x > rest then x else rest
  }

  function WithoutPlan(db: Tables, plan: string): Tables {
    Tables(db.records, db.operations, db.drafts, db.plans - {plan}, db.revisions - {plan}, db.generations,
           map e | e in db.executions && db.executions[e].plan != plan :: db.executions[e])
  }

  /** The plan, its revision and the finished session, before the old plan goes. */
  function Promoted(db: Tables, key: Key, generation: string, plan: string, index: nat): Tables
    requires generation in db.generations
  {
    Tables(
      db.records,
      if key in db.operations then db.operations[key := Operation(db.operations[key].version + 1, Some(plan))] else db.operations,
      db.drafts, db.plans[plan := key.record], db.revisions[plan := Revision(key, index)],
      db.generations[generation := Session(key, Succeeded, db.generations[generation].cancel)], db.executions)
  }

  /** Publishing a plan: snapshot, revision, promotion, terminal generation, and
      the retirement of the plan it replaces, in one transaction. */
  ghost function PublishPlan(db: Tables, generation: string, plan: string): Result {
    if generation !in db.generations then Result(db, NotFound)
    else if plan in db.plans then Result(db, Conflict)
    else if !db.generations[generation].status.Active() then Result(db, NotFound)
    else
      var key := db.generations[generation].key;
      var replaced := if key in db.operations then db.operations[key].current else None;
      var index := MaxIndex(db.revisions, key) + 1;
      var next := Promoted(db, key, generation, plan, index);
      Result(if replaced.Some? && replaced.value != plan then WithoutPlan(next, replaced.value) else next, Done)
  }

  // ---------- sessions ----------

  function SetGeneration(db: Tables, id: string, status: Status): (t: Tables)
    requires id in db.generations
    ensures t == db.(generations := t.generations)
  {
    db.(generations := db.generations[id := Session(db.generations[id].key, status, db.generations[id].cancel)])
  }

  predicate GenerationIs(db: Tables, id: string, status: Status) {
    id in db.generations && db.generations[id].status == status
  }

  function NewGeneration(db: Tables, id: string, key: Key): (r: Result)
    ensures r.db == db.(generations := r.db.generations)
  {
    if id in db.generations || key !in db.operations || key.record !in db.records then Result(db, Conflict)
    else Result(db.(generations := db.generations[id := Session(key, Queued, false)]), Done)
  }

  /** The second statement of a cancel: a running session is asked to stop. */
  function StopPlanning(db: Tables, id: string): (r: Result)
    ensures r.db == db.(generations := r.db.generations)
  {
    if GenerationIs(db, id, Running) then
      Result(db.(generations := db.generations[id := Session(db.generations[id].key, Running, true)]), Done)
    else Result(db, Done)
  }

  function InterruptedSessions(sessions: map<string, Session>): map<string, Session> {
    map g | g in sessions :: if sessions[g].status.Active() then Session(sessions[g].key, Interrupted, sessions[g].cancel) else sessions[g]
  }

  function InterruptedExecutions(executions: map<string, Execution>): map<string, Execution> {
    map e | e in executions ::
      if executions[e].status.Active() then Execution(executions[e].key, executions[e].plan, Interrupted, executions[e].cancel)
      else executions[e]
  }

  predicate Eligible(db: Tables, key: Key, plan: string, version: nat, hash: string) {
    && key.record in db.records && db.records[key.record].library.Some?
    && key in db.operations && db.operations[key].version == version && db.operations[key].current == Some(plan)
    && key in db.drafts && db.drafts[key] == hash
    && (forall g :: g in db.generations && db.generations[g].key == key ==> !db.generations[g].status.Active())
  }

  /** The guarded insert: the guards and the unique plan are one statement. */
  function NewExecution(db: Tables, id: string, key: Key, plan: string, version: nat, hash: string): Result {
    if !Eligible(db, key, plan, version, hash) then Result(db, NotEligible)
    else if id in db.executions || exists e :: e in db.executions && db.executions[e].plan == plan then Result(db, Conflict)
    else Result(db.(executions := db.executions[id := Execution(key, plan, Queued, false)]), Done)
  }

  predicate ExecutionIs(executions: map<string, Execution>, id: string, status: Status) {
    id in executions && executions[id].status == status
  }

  function Marked(executions: map<string, Execution>, id: string, status: Status, cancel: bool): map<string, Execution>
    requires id in executions
  {
    executions[id := Execution(executions[id].key, executions[id].plan, status, cancel)]
  }

  /** Cancel is two statements, and others may run between them: a queued
      session is canceled at once, ... */
  function CanceledQueued(executions: map<string, Execution>, id: string): map<string, Execution> {
    if ExecutionIs(executions, id, Queued) then Marked(executions, id, Canceled, executions[id].cancel) else executions
  }

  /** ... and a running one is asked to stop. */
  function AskedToStop(executions: map<string, Execution>, id: string): map<string, Execution> {
    if ExecutionIs(executions, id, Running) then Marked(executions, id, Running, true) else executions
  }

  /** Only queued and running rows take a terminal status. */
  function FinishedRun(executions: map<string, Execution>, id: string, status: Status): map<string, Execution> {
    if id in executions && executions[id].status.Active() then Marked(executions, id, status, executions[id].cancel)
    else executions
  }

  /** What callers hand in: terminal statuses where a terminal one is written. */
  predicate WellFormed(tx: Tx) {
    match tx
    case EndGeneration(_, status) => status.Canceled? || status.Interrupted?
    case FinishExecution(_, status) => !status.Active()
    case _ => true
  }

  /** The transactions of a planning session other than its publication. */
  predicate OnGenerations(tx: Tx) {
    tx.CreateGeneration? || tx.ClaimGeneration? || tx.CancelQueuedGeneration? || tx.StopGeneration? || tx.FailGeneration? || tx.EndGeneration?
    || tx.InterruptGenerations? || tx.PruneGeneration?
  }

  /** The transactions of an execution session after its creation. */
  predicate OnExecutions(tx: Tx) {
    tx.ClaimExecution? || tx.CancelQueuedExecution? || tx.StopExecution? || tx.FinishExecution? || tx.InterruptExecutions?
  }

  function GenerationTx(db: Tables, tx: Tx): Result
    requires OnGenerations(tx)
  {
    match tx
    case CreateGeneration(id, key) => NewGeneration(db, id, key)
    case ClaimGeneration(id) => if GenerationIs(db, id, Queued) then Result(SetGeneration(db, id, Running), Done) else Result(db, NotFound)
    case CancelQueuedGeneration(id) => if GenerationIs(db, id, Queued) then Result(SetGeneration(db, id, Canceled), Done) else Result(db, Done)
    case StopGeneration(id) => StopPlanning(db, id)
    case FailGeneration(id) =>
      if id in db.generations && db.generations[id].status.Active() then Result(SetGeneration(db, id, Failed), Done) else Result(db, Done)
    case EndGeneration(id, status) => if GenerationIs(db, id, Running) then Result(SetGeneration(db, id, status), Done) else Result(db, Done)
    case InterruptGenerations => Result(db.(generations := InterruptedSessions(db.generations)), Done)
    case PruneGeneration(id) =>
      if id in db.generations && !db.generations[id].status.Active() then Result(db.(generations := db.generations - {id}), Done) else Result(db, Done)
  }

  function ExecutionsAfter(executions: map<string, Execution>, tx: Tx): map<string, Execution>
    requires OnExecutions(tx)
  {
    match tx
    case ClaimExecution(id) =>
      if ExecutionIs(executions, id, Queued) then Marked(executions, id, Running, executions[id].cancel) else executions
    case CancelQueuedExecution(id) => CanceledQueued(executions, id)
    case StopExecution(id) => AskedToStop(executions, id)
    case FinishExecution(id, status) => FinishedRun(executions, id, status)
    case InterruptExecutions => InterruptedExecutions(executions)
  }

  function ExecutionTx(db: Tables, tx: Tx): Result
    requires OnExecutions(tx)
  {
    Result(db.(executions := ExecutionsAfter(db.executions, tx)),
           if tx.ClaimExecution? && !ExecutionIs(db.executions, tx.id, Queued) then NotFound else Done)
  }

  ghost function Apply(db: Tables, tx: Tx): Result {
    if OnGenerations(tx) then GenerationTx(db, tx)
    else if OnExecutions(tx) then ExecutionTx(db, tx)
    else
      match tx
      case ReplaceRecord(id, library, op, expected) => ReplaceCurrent(db, id, library, op, expected)
      case DeleteLibrary(library) => RemoveLibrary(db, library)
      case SaveDraft(key, version, hash) => SaveOperationDraft(db, key, version, hash)
      case Publish(generation, plan) => PublishPlan(db, generation, plan)
      case CreateExecution(id, key, plan, version, hash) => NewExecution(db, id, key, plan, version, hash)
  }

  // ---------- what every run keeps ----------

  /** Plans, revisions and the operations' current plans are one relation. */
  ghost predicate PlansP(records: map<string, Record>, operations: map<Key, Operation>, plans: map<string, string>, revisions: map<string, Revision>) {
    && (forall p :: p in plans <==> p in revisions)
    && (forall p :: p in plans ==> plans[p] == revisions[p].key.record)
    && (forall p :: p in revisions ==> revisions[p].key in operations && operations[revisions[p].key].current == Some(p))
    && (forall k :: k in operations && operations[k].current.Some? ==>
          operations[k].current.value in revisions && revisions[operations[k].current.value].key == k)
  }

  ghost predicate OwnersP(records: map<string, Record>, operations: map<Key, Operation>, drafts: map<Key, string>) {
    && (forall k :: k in operations ==> k.record in records)
    && (forall k :: k in drafts ==> k in operations)
  }

  ghost predicate SessionsP(operations: map<Key, Operation>, generations: map<string, Session>) {
    forall g :: g in generations ==> generations[g].key in operations
  }

  /** Every execution row is for the current plan of its operation, and no two
      rows share a plan. */
  ghost predicate ExecutionsP(revisions: map<string, Revision>, executions: map<string, Execution>) {
    && (forall e :: e in executions ==> executions[e].plan in revisions && revisions[executions[e].plan].key == executions[e].key)
    && (forall e, f :: e in executions && f in executions && executions[e].plan == executions[f].plan ==> e == f)
  }

  ghost predicate RecordsP(records: map<string, Record>) {
    forall a, b :: a in records && b in records && records[a].library.Some? && records[a] == records[b] ==> a == b
  }

  ghost predicate Inv(db: Tables) {
    && PlansP(db.records, db.operations, db.plans, db.revisions)
    && OwnersP(db.records, db.operations, db.drafts)
    && SessionsP(db.operations, db.generations)
    && ExecutionsP(db.revisions, db.executions)
    && RecordsP(db.records)
  }

  // ---------- every transaction keeps it ----------

  lemma EmptyInv()
    ensures Inv(EMPTY)
  {
  }

  lemma WithoutRecordsInv(db: Tables, ids: set<string>)
    requires Inv(db)
    ensures Inv(WithoutRecords(db, ids))
  {
    WithoutRecordsPlans(db, ids);
    hide PlansP;
  }

  lemma WithoutRecordsPlans(db: Tables, ids: set<string>)
    requires Inv(db)
    ensures var t := WithoutRecords(db, ids);
      PlansP(t.records, t.operations, t.plans, t.revisions) && ExecutionsP(t.revisions, t.executions)
  {
    hide RecordsP, OwnersP, SessionsP;
  }

  lemma WithRecordInv(db: Tables, id: string, library: string, op: string)
    requires Inv(db) && id !in db.records
    requires forall r :: r in db.records ==> db.records[r] != Record(Some(library), op)
    ensures Inv(WithRecord(db, id, library, op))
  {
    assert Key(id, op) !in db.operations;
  }

  lemma ReplaceInv(db: Tables, id: string, library: string, op: string, expected: Option<string>)
    requires Inv(db)
    ensures Inv(ReplaceCurrent(db, id, library, op, expected).db)
  {
    hide PlansP, OwnersP, SessionsP, ExecutionsP;
    if ReplaceCurrent(db, id, library, op, expected).answer.Done? {
      var rest := if expected.Some? then WithoutRecords(db, {expected.value}) else db;
      if expected.Some? {
        WithoutRecordsInv(db, {expected.value});
      }
      WithRecordInv(rest, id, library, op);
    }
  }

  lemma DraftInv(db: Tables, key: Key, version: nat, hash: string)
    requires Inv(db)
    ensures Inv(SaveOperationDraft(db, key, version, hash).db)
  {
    hide ExecutionsP, RecordsP;
  }

  lemma GenerationsInv(db: Tables, generations: map<string, Session>)
    requires Inv(db) && SessionsP(db.operations, generations)
    ensures Inv(db.(generations := generations))
  {
    hide PlansP, OwnersP, ExecutionsP, RecordsP;
  }

  lemma ExecutionsInv(db: Tables, executions: map<string, Execution>)
    requires Inv(db) && ExecutionsP(db.revisions, executions)
    ensures Inv(db.(executions := executions))
  {
    hide PlansP, OwnersP, SessionsP, RecordsP;
  }

  /** An operation's only revision row is its current one, so the next index is
      one more than the current revision's. */
  lemma MaxIsCurrent(db: Tables, key: Key)
    requires Inv(db)
    ensures MaxIndex(db.revisions, key) ==
      if key in db.operations && db.operations[key].current.Some? then db.revisions[db.operations[key].current.value].index else 0
  {
    hide OwnersP, SessionsP, ExecutionsP, RecordsP;
    var rows := set p | p in db.revisions && db.revisions[p].key == key :: db.revisions[p].index;
    if key in db.operations && db.operations[key].current.Some? {
      var p := db.operations[key].current.value;
      assert rows == {db.revisions[p].index};
    } else {
      assert rows == {};
    }
  }

  /** Exchanging an operation's current plan for a new one. */
  lemma SwapPlan(records: map<string, Record>, operations: map<Key, Operation>, plans: map<string, string>, revisions: map<string, Revision>,
                 key: Key, plan: string, index: nat, version: nat, gone: set<string>)
    requires PlansP(records, operations, plans, revisions) && key in operations && plan !in plans
    requires gone == if operations[key].current.Some? then {operations[key].current.value} else {}
    ensures PlansP(records, operations[key := Operation(version, Some(plan))], plans[plan := key.record] - gone, revisions[plan := Revision(key, index)] - gone)
  {
  }

  /** What a publication found: a known operation and an unused plan. */
  lemma PublishGuards(db: Tables, generation: string, plan: string)
    requires Inv(db) && PublishPlan(db, generation, plan).answer.Done?
    ensures generation in db.generations && db.generations[generation].key in db.operations
    ensures plan !in db.plans && plan !in db.revisions
    ensures db.operations[db.generations[generation].key].current != Some(plan)
  {
    hide ExecutionsP, RecordsP, MaxIndex, OwnersP, Promoted, WithoutPlan;
  }

  /** The parts of a published database. */
  lemma Published(db: Tables, generation: string, plan: string)
    requires Inv(db) && PublishPlan(db, generation, plan).answer.Done?
    ensures generation in db.generations && db.generations[generation].key in db.operations
    ensures var t, key := PublishPlan(db, generation, plan).db, db.generations[generation].key;
      && key in db.operations && plan !in db.plans && plan !in db.revisions
      && var o := db.operations[key]; var gone := if o.current.Some? then {o.current.value} else {}; var index := MaxIndex(db.revisions, key) + 1;
         && t.records == db.records && t.drafts == db.drafts
         && t.operations == db.operations[key := Operation(o.version + 1, Some(plan))]
         && t.plans == db.plans[plan := key.record] - gone
         && t.revisions == db.revisions[plan := Revision(key, index)] - gone
         && t.generations == db.generations[generation := Session(key, Succeeded, db.generations[generation].cancel)]
         && t.executions == (map e | e in db.executions && db.executions[e].plan !in gone :: db.executions[e])
  {
    hide ExecutionsP, RecordsP, MaxIndex, OwnersP, PlansP, SessionsP;
    PublishGuards(db, generation, plan);
  }

  lemma PublishPlansInv(db: Tables, generation: string, plan: string)
    requires Inv(db) && PublishPlan(db, generation, plan).answer.Done?
    ensures var t := PublishPlan(db, generation, plan).db;
      PlansP(t.records, t.operations, t.plans, t.revisions) && OwnersP(t.records, t.operations, t.drafts) && SessionsP(t.operations, t.generations)
  {
    hide ExecutionsP, RecordsP, MaxIndex, PlansP, PublishPlan;
    Published(db, generation, plan);
    var key := db.generations[generation].key;
    var o := db.operations[key];
    SwapPlan(db.records, db.operations, db.plans, db.revisions, key, plan, MaxIndex(db.revisions, key) + 1, o.version + 1,
             if o.current.Some? then {o.current.value} else {});
  }

  lemma PublishExecutionsInv(db: Tables, generation: string, plan: string)
    requires Inv(db) && PublishPlan(db, generation, plan).answer.Done?
    ensures var t := PublishPlan(db, generation, plan).db; ExecutionsP(t.revisions, t.executions) && t.records == db.records
  {
    hide RecordsP, MaxIndex, OwnersP, SessionsP, PublishPlan;
    Published(db, generation, plan);
  }

  lemma PublishInv(db: Tables, generation: string, plan: string)
    requires Inv(db)
    ensures Inv(PublishPlan(db, generation, plan).db)
  {
    hide PlansP, OwnersP, SessionsP, ExecutionsP, RecordsP;
    if PublishPlan(db, generation, plan).answer.Done? {
      PublishPlansInv(db, generation, plan);
      PublishExecutionsInv(db, generation, plan);
    }
  }

  lemma NewExecutionInv(db: Tables, id: string, key: Key, plan: string, version: nat, hash: string)
    requires Inv(db)
    ensures Inv(NewExecution(db, id, key, plan, version, hash).db)
  {
    hide Inv, PlansP, OwnersP, SessionsP, RecordsP, ExecutionsP;
    var r := NewExecution(db, id, key, plan, version, hash);
    if r.answer.Done? {
      OneMoreExecution(db, id, key, plan);
      ExecutionsInv(db, r.db.executions);
    }
  }

  lemma OneMoreExecution(db: Tables, id: string, key: Key, plan: string)
    requires Inv(db) && key in db.operations && db.operations[key].current == Some(plan)
    requires forall e :: e in db.executions ==> db.executions[e].plan != plan
    ensures ExecutionsP(db.revisions, db.executions[id := Execution(key, plan, Queued, false)])
  {
    hide OwnersP, SessionsP, RecordsP;
    assert plan in db.revisions && db.revisions[plan].key == key;
  }

  lemma OnlyGenerations(db: Tables, tx: Tx)
    requires OnGenerations(tx)
    ensures var t := GenerationTx(db, tx).db; t == db.(generations := t.generations)
  {
    hide InterruptedSessions, GenerationIs, Status.Active, SetGeneration, NewGeneration, StopPlanning;
  }

  lemma GenerationsOwned(db: Tables, tx: Tx)
    requires OnGenerations(tx) && SessionsP(db.operations, db.generations)
    ensures SessionsP(db.operations, GenerationTx(db, tx).db.generations)
  {
    hide PlansP, OwnersP, ExecutionsP, RecordsP;
  }

  lemma GenerationTxInv(db: Tables, tx: Tx)
    requires Inv(db) && OnGenerations(tx)
    ensures Inv(GenerationTx(db, tx).db)
  {
    hide PlansP, OwnersP, ExecutionsP, RecordsP, SessionsP, GenerationTx;
    OnlyGenerations(db, tx);
    GenerationsOwned(db, tx);
    GenerationsInv(db, GenerationTx(db, tx).db.generations);
  }

  /** Executions that keep their plan and operation stay attached. */
  lemma SamePlans(revisions: map<string, Revision>, before: map<string, Execution>, now: map<string, Execution>)
    requires ExecutionsP(revisions, before)
    requires forall e :: e in now ==> e in before && now[e].plan == before[e].plan && now[e].key == before[e].key
    ensures ExecutionsP(revisions, now)
  {
  }

  lemma OnlyStatuses(executions: map<string, Execution>, tx: Tx)
    requires OnExecutions(tx)
    ensures var now := ExecutionsAfter(executions, tx); forall e :: e in now ==>
      e in executions && now[e].plan == executions[e].plan && now[e].key == executions[e].key
  {
  }

  lemma ExecutionTxInv(db: Tables, tx: Tx)
    requires Inv(db) && OnExecutions(tx)
    ensures Inv(ExecutionTx(db, tx).db)
  {
    hide PlansP, OwnersP, SessionsP, RecordsP, ExecutionsP, ExecutionsAfter;
    OnlyStatuses(db.executions, tx);
    SamePlans(db.revisions, db.executions, ExecutionTx(db, tx).db.executions);
  }

  lemma TxInv(db: Tables, tx: Tx)
    requires Inv(db)
    ensures Inv(Apply(db, tx).db)
  {
    hide PlansP, OwnersP, SessionsP, ExecutionsP, RecordsP, ReplaceCurrent, PublishPlan, SaveOperationDraft, NewExecution, GenerationTx, ExecutionTx;
    if OnGenerations(tx) {
      GenerationTxInv(db, tx);
    } else if OnExecutions(tx) {
      ExecutionTxInv(db, tx);
    } else {
      match tx
      case ReplaceRecord(id, library, op, expected) => ReplaceInv(db, id, library, op, expected);
      case DeleteLibrary(library) => WithoutRecordsInv(db, RecordsOf(db, library));
      case SaveDraft(key, version, hash) => DraftInv(db, key, version, hash);
      case Publish(generation, plan) => PublishInv(db, generation, plan);
      case CreateExecution(id, key, plan, version, hash) => NewExecutionInv(db, id, key, plan, version, hash);
    }
  }

  /** The database after a sequence of transactions of any participants. */
  ghost function Run(db: Tables, txs: seq<Tx>): Tables
    decreases |txs|
  {
    if txs == [] then db else Run(Apply(db, txs[0]).db, txs[1..])
  }

  lemma {:induction false} RunInv(db: Tables, txs: seq<Tx>)
    requires Inv(db)
    ensures Inv(Run(db, txs))
    decreases |txs|
  {
    hide Inv, Apply;
    if txs != [] {
      TxInv(db, txs[0]);
      RunInv(Apply(db, txs[0]).db, txs[1..]);
    }
  }

  /** In every reachable database each operation has at most one plan, which is
      its current revision, and at most one execution, which is of that plan; a
      library has at most one record per operation. */
  lemma OnePlanEach(txs: seq<Tx>)
    ensures var db := Run(EMPTY, txs);
      && (forall p, q :: p in db.plans && q in db.plans && p in db.revisions && q in db.revisions && db.revisions[p].key == db.revisions[q].key ==> p == q)
      && (forall p :: p in db.plans ==>
            && p in db.revisions && db.revisions[p].key in db.operations
            && db.operations[db.revisions[p].key].current == Some(p) && db.plans[p] == db.revisions[p].key.record)
      && (forall e :: e in db.executions ==>
            && db.executions[e].key in db.operations
            && db.operations[db.executions[e].key].current == Some(db.executions[e].plan))
      && (forall e, f :: e in db.executions && f in db.executions && db.executions[e].key == db.executions[f].key ==> e == f)
      && RecordsP(db.records)
  {
    EmptyInv();
    RunInv(EMPTY, txs);
    hide Run, OwnersP, SessionsP, RecordsP;
  }

  // ---------- what only grows ----------

  /** The index of an operation's current revision, zero before the first. */
  function CurrentIndex(db: Tables, key: Key): nat {
    if key in db.operations && db.operations[key].current.Some? && db.operations[key].current.value in db.revisions
    then db.revisions[db.operations[key].current.value].index else 0
  }

  /** What one transaction may do to an operation that outlives it. */
  ghost predicate Grows(s: Tables, t: Tables, key: Key) {
    key in s.operations && key in t.operations ==>
      && s.operations[key].version <= t.operations[key].version
      && CurrentIndex(s, key) <= CurrentIndex(t, key)
      && (t.operations[key].current != s.operations[key].current ==>
            s.operations[key].version < t.operations[key].version && CurrentIndex(t, key) == CurrentIndex(s, key) + 1)
  }

  ghost predicate Settled(s: Tables, t: Tables) {
    && (forall e :: e in s.executions && e in t.executions && !s.executions[e].status.Active() ==> t.executions[e] == s.executions[e])
    && (forall g :: g in s.generations && g in t.generations && !s.generations[g].status.Active() ==> t.generations[g] == s.generations[g])
  }

  lemma PublishGrows(db: Tables, generation: string, plan: string, key: Key)
    requires Inv(db)
    ensures Grows(db, PublishPlan(db, generation, plan).db, key)
  {
    if PublishPlan(db, generation, plan).answer.Done? {
      Published(db, generation, plan);
      MaxIsCurrent(db, db.generations[generation].key);
      hide PublishPlan, MaxIndex, OwnersP, SessionsP, ExecutionsP, RecordsP;
    }
  }

  lemma WithoutGrows(db: Tables, ids: set<string>, key: Key)
    requires Inv(db)
    ensures Grows(db, WithoutRecords(db, ids), key)
  {
    hide ExecutionsP, SessionsP, RecordsP, OwnersP;
  }

  /** A new record has a fresh identifier, so it brings new operations only. */
  lemma ReplaceGrows(db: Tables, id: string, library: string, op: string, expected: Option<string>, key: Key)
    requires Inv(db) && id !in db.records
    ensures Grows(db, ReplaceCurrent(db, id, library, op, expected).db, key)
  {
    hide ExecutionsP, SessionsP, RecordsP, PlansP, Grows;
    if expected.Some? {
      WithoutGrows(db, {expected.value}, key);
    }
    AddedGrows(db, if expected.Some? then WithoutRecords(db, {expected.value}) else db, id, library, op, key);
    SameGrows(db, key);
  }

  lemma SameGrows(db: Tables, key: Key)
    ensures Grows(db, db, key)
  {
  }

  lemma AddedGrows(db: Tables, rest: Tables, id: string, library: string, op: string, key: Key)
    requires OwnersP(db.records, db.operations, db.drafts) && id !in db.records && (rest == db || Grows(db, rest, key))
    ensures Grows(db, WithRecord(rest, id, library, op), key)
  {
  }

  predicate FreshRecord(db: Tables, tx: Tx) {
    tx.ReplaceRecord? ==> tx.id !in db.records
  }

  lemma SessionGrows(db: Tables, tx: Tx, key: Key)
    requires OnGenerations(tx) || OnExecutions(tx)
    ensures Grows(db, Apply(db, tx).db, key)
  {
    hide GenerationTx, ExecutionsAfter;
    if OnGenerations(tx) { OnlyGenerations(db, tx); }
  }

  lemma DraftGrows(db: Tables, k: Key, version: nat, hash: string, key: Key)
    ensures Grows(db, SaveOperationDraft(db, k, version, hash).db, key)
  {
  }

  lemma NewExecutionGrows(db: Tables, id: string, k: Key, plan: string, version: nat, hash: string, key: Key)
    ensures Grows(db, NewExecution(db, id, k, plan, version, hash).db, key)
  {
  }

  lemma TxGrows(db: Tables, tx: Tx, key: Key)
    requires Inv(db) && FreshRecord(db, tx)
    ensures Grows(db, Apply(db, tx).db, key)
  {
    hide Inv, Grows, WithoutRecords, ReplaceCurrent, PublishPlan, SaveOperationDraft, NewExecution, GenerationTx, ExecutionTx;
    if OnGenerations(tx) || OnExecutions(tx) {
      SessionGrows(db, tx, key);
    } else {
      match tx
      case ReplaceRecord(id, library, op, expected) => ReplaceGrows(db, id, library, op, expected, key);
      case DeleteLibrary(library) => WithoutGrows(db, RecordsOf(db, library), key); SameGrows(db, key);
      case SaveDraft(k, version, hash) => DraftGrows(db, k, version, hash, key);
      case Publish(generation, plan) => PublishGrows(db, generation, plan, key);
      case CreateExecution(id, k, plan, version, hash) => NewExecutionGrows(db, id, k, plan, version, hash, key);
    }
  }

  lemma GenerationsSettle(db: Tables, tx: Tx)
    requires WellFormed(tx) && OnGenerations(tx)
    ensures Settled(db, GenerationTx(db, tx).db)
  {
  }

  lemma ExecutionsSettle(executions: map<string, Execution>, tx: Tx)
    requires WellFormed(tx) && OnExecutions(tx)
    ensures var now := ExecutionsAfter(executions, tx);
      forall e :: e in executions && e in now && !executions[e].status.Active() ==> now[e] == executions[e]
  {
  }

  lemma PublishSettles(db: Tables, generation: string, plan: string)
    ensures Settled(db, PublishPlan(db, generation, plan).db)
  {
    hide MaxIndex;
  }

  lemma RecordsSettle(db: Tables, tx: Tx)
    requires tx.ReplaceRecord? || tx.DeleteLibrary? || tx.SaveDraft? || tx.CreateExecution?
    ensures Settled(db, Apply(db, tx).db)
  {
    hide GenerationTx, ExecutionTx, PublishPlan, SeenIsCurrent, RecordBusy, RecordsOf, Eligible;
  }

  lemma TxSettles(db: Tables, tx: Tx)
    requires WellFormed(tx)
    ensures Settled(db, Apply(db, tx).db)
  {
    hide GenerationTx, ExecutionsAfter, PublishPlan, SaveOperationDraft, ReplaceCurrent, RemoveLibrary, NewExecution;
    if OnGenerations(tx) {
      GenerationsSettle(db, tx);
    } else if OnExecutions(tx) {
      ExecutionsSettle(db.executions, tx);
    } else if tx.Publish? {
      PublishSettles(db, tx.generation, tx.plan);
    } else {
      RecordsSettle(db, tx);
    }
  }

  // ---------- over whole runs ----------

  ghost predicate FreshRun(db: Tables, txs: seq<Tx>)
    decreases |txs|
  {
    txs == [] || (FreshRecord(db, txs[0]) && FreshRun(Apply(db, txs[0]).db, txs[1..]))
  }

  /** The operation is there after every transaction of the run. */
  ghost predicate Lives(db: Tables, txs: seq<Tx>, key: Key)
    decreases |txs|
  {
    key in db.operations && (txs == [] || Lives(Apply(db, txs[0]).db, txs[1..], key))
  }

  /** Over any run, while an operation exists its version and its revision index
      only grow. */
  lemma {:induction false} RunGrows(db: Tables, txs: seq<Tx>, key: Key)
    requires Inv(db) && FreshRun(db, txs) && Lives(db, txs, key)
    ensures key in Run(db, txs).operations
    ensures db.operations[key].version <= Run(db, txs).operations[key].version
    ensures CurrentIndex(db, key) <= CurrentIndex(Run(db, txs), key)
    decreases |txs|
  {
    hide Inv, Apply, CurrentIndex;
    if txs != [] {
      TxInv(db, txs[0]);
      TxGrows(db, txs[0], key);
      RunGrows(Apply(db, txs[0]).db, txs[1..], key);
    }
  }

  /** The row of a session is there after every transaction of the run. */
  ghost predicate ExecutionLives(db: Tables, txs: seq<Tx>, e: string)
    decreases |txs|
  {
    e in db.executions && (txs == [] || ExecutionLives(Apply(db, txs[0]).db, txs[1..], e))
  }

  /** A terminal session never changes again, whoever cancels, finishes or
      interrupts it afterwards. */
  lemma {:induction false} TerminalIsFinal(db: Tables, txs: seq<Tx>, e: string)
    requires (forall i :: 0 <= i < |txs| ==> WellFormed(txs[i])) && ExecutionLives(db, txs, e) && !db.executions[e].status.Active()
    ensures e in Run(db, txs).executions && Run(db, txs).executions[e] == db.executions[e]
    decreases |txs|
  {
    hide Apply;
    if txs != [] {
      TxSettles(db, txs[0]);
      TerminalIsFinal(Apply(db, txs[0]).db, txs[1..], e);
    }
  }

  /** A session that is past the queue never returns to it, and a request to
      stop is never withdrawn. */
  ghost predicate Onward(s: Tables, t: Tables, e: string) {
    e in s.executions && e in t.executions ==>
      && (s.executions[e].status != Queued ==> t.executions[e].status != Queued)
      && (s.executions[e].cancel ==> t.executions[e].cancel)
  }

  lemma ExecutionsOnward(executions: map<string, Execution>, tx: Tx, e: string)
    requires WellFormed(tx) && OnExecutions(tx) && e in executions
    ensures var now := ExecutionsAfter(executions, tx); e in now ==>
      (executions[e].status != Queued ==> now[e].status != Queued) && (executions[e].cancel ==> now[e].cancel)
  {
  }

  lemma TxOnward(db: Tables, tx: Tx, e: string)
    requires WellFormed(tx)
    ensures Onward(db, Apply(db, tx).db, e)
  {
    hide GenerationTx, ExecutionsAfter, MaxIndex, SeenIsCurrent, RecordBusy, RecordsOf, Eligible;
    if OnGenerations(tx) {
      OnlyGenerations(db, tx);
    } else if OnExecutions(tx) && e in db.executions {
      ExecutionsOnward(db.executions, tx, e);
    }
  }

  lemma {:induction false} RunOnward(db: Tables, txs: seq<Tx>, e: string)
    requires (forall i :: 0 <= i < |txs| ==> WellFormed(txs[i])) && ExecutionLives(db, txs, e)
    ensures e in Run(db, txs).executions && Onward(db, Run(db, txs), e)
    decreases |txs|
  {
    hide Apply, WellFormed;
    if txs != [] {
      TxOnward(db, txs[0], e);
      RunOnward(Apply(db, txs[0]).db, txs[1..], e);
    }
  }

  /** A cancel takes effect although others run between its two statements: from
      then on the session is terminal, or running with the request recorded. */
  lemma CancelTakesEffect(db: Tables, between: seq<Tx>, later: seq<Tx>, e: string)
    requires forall tx :: tx in between + later ==> WellFormed(tx)
    requires var mid := Apply(db, CancelQueuedExecution(e)).db; ExecutionLives(mid, between, e)
    requires var done := Apply(Run(Apply(db, CancelQueuedExecution(e)).db, between), StopExecution(e)).db; ExecutionLives(done, later, e)
    ensures var end := Run(Apply(Run(Apply(db, CancelQueuedExecution(e)).db, between), StopExecution(e)).db, later);
      e in end.executions && (end.executions[e].status.Active() ==> end.executions[e].status == Running && end.executions[e].cancel)
  {
    hide Run, WellFormed;
    var mid := Apply(db, CancelQueuedExecution(e)).db;
    forall i | 0 <= i < |between| ensures WellFormed(between[i]) { assert between[i] in between + later; }
    forall i | 0 <= i < |later| ensures WellFormed(later[i]) { assert later[i] in between + later; }
    RunOnward(mid, between, e);
    var done := Apply(Run(mid, between), StopExecution(e)).db;
    RunOnward(done, later, e);
    if !done.executions[e].status.Active() {
      TerminalIsFinal(done, later, e);
    }
  }
}
