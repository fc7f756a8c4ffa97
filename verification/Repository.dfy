/** The store as an object: each method is one transaction over the tables, a
    sequence of statements that is undone when one of them refuses. */
module Repository {
  import opened Prelude
  import opened Store

  class Repository {
    var records: map<string, Record>
    var operations: map<Key, Operation>
    var drafts: map<Key, string>
    var plans: map<string, string>
    var revisions: map<string, Revision>
    var generations: map<string, Session>
    var executions: map<string, Execution>

    function View(): Tables
      reads this
    {
      Tables(records, operations, drafts, plans, revisions, generations, executions)
    }

    constructor ()
      ensures View() == EMPTY
    {
      records, operations, drafts := map[], map[], map[];
      plans, revisions, generations, executions := map[], map[], map[], map[];
    }

    /** The guarded version bump and the draft commit together. */
    method SaveOperationDraft(key: Key, version: nat, hash: string) returns (answer: Answer)
      modifies this
      ensures Result(View(), answer) == Store.SaveOperationDraft(old(View()), key, version, hash)
    {
      if key !in operations {
        return NotFound;
      }
      if operations[key].version != version {
        return VersionConflict;
      }
      operations := operations[key := Operation(version + 1, operations[key].current)];
      drafts := drafts[key := hash];
      return Done;
    }

    /** Scans the revision rows of the operation for the largest index. */
    method MaxRevisionIndex(key: Key) returns (m: nat)
      ensures m == MaxIndex(revisions, key)
    {
      m := 0;
      var left := revisions.Keys;
      ghost var seen: set<nat> := {};
      while left != {}
        invariant left <= revisions.Keys
        invariant seen == set p | p in revisions && p !in left && revisions[p].key == key :: revisions[p].index
        invariant (forall x :: x in seen ==> x <= m) && (seen != {} ==> m in seen) && (seen == {} ==> m == 0)
      {
        var p :| p in left;
        left := left - {p};
        if revisions[p].key == key {
          seen := seen + {revisions[p].index};
          m := if revisions[p].index > m then revisions[p].index else m;
        }
      }
      assert seen == set p | p in revisions && revisions[p].key == key :: revisions[p].index;
    }

    /** Publishes a plan and retires the one it replaces; a session that is no
        longer active undoes everything. */
    method PersistOperationRevision(generation: string, plan: string) returns (answer: Answer)
      modifies this
      ensures Result(View(), answer) == PublishPlan(old(View()), generation, plan)
    {
      hide MaxIndex, Promoted;
      if generation !in generations {
        return NotFound;
      }
      var key := generations[generation].key;
      var replaced := if key in operations then operations[key].current else None;
      if plan in plans {
        return Conflict;
      }
      if !generations[generation].status.Active() {
        return NotFound;
      }
      var last := MaxRevisionIndex(key);
      Promote(key, generation, plan, last + 1);
      if replaced.Some? && replaced.value != plan {
        DeletePlanData(replaced.value);
      }
      return Done;
    }

    method Promote(key: Key, generation: string, plan: string, index: nat)
      requires generation in generations
      modifies this
      ensures View() == Promoted(old(View()), key, generation, plan, index)
    {
      plans := plans[plan := key.record];
      revisions := revisions[plan := Revision(key, index)];
      if key in operations {
        operations := operations[key := Operation(operations[key].version + 1, Some(plan))];
      }
      generations := generations[generation := Session(key, Succeeded, generations[generation].cancel)];
    }

    method DeletePlanData(plan: string)
      modifies this
      ensures View() == WithoutPlan(old(View()), plan)
    {
      executions := map e | e in executions && executions[e].plan != plan :: executions[e];
      plans := plans - {plan};
      revisions := revisions - {plan};
    }

    /** One conditional insert: every guard is read in the statement itself. */
    method CreateExecutionGuarded(id: string, key: Key, plan: string, version: nat, hash: string) returns (answer: Answer)
      modifies this
      ensures Result(View(), answer) == NewExecution(old(View()), id, key, plan, version, hash)
    {
      if !Eligible(View(), key, plan, version, hash) {
        return NotEligible;
      }
      if id in executions || exists e :: e in executions && executions[e].plan == plan {
        return Conflict;
      }
      executions := executions[id := Execution(key, plan, Queued, false)];
      return Done;
    }

    /** Two conditional updates, here with nobody between them. */
    method CancelExecution(id: string)
      modifies this
      ensures View() == ExecutionTx(ExecutionTx(old(View()), Tx.CancelQueuedExecution(id)).db, Tx.StopExecution(id)).db
    {
      if id in executions && executions[id].status == Queued {
        executions := Marked(executions, id, Canceled, executions[id].cancel);
      }
      if id in executions && executions[id].status == Running {
        executions := Marked(executions, id, Running, true);
      }
    }

    method FinishExecution(id: string, status: Status)
      modifies this
      ensures View() == ExecutionTx(old(View()), Tx.FinishExecution(id, status)).db
    {
      if id in executions && executions[id].status.Active() {
        executions := Marked(executions, id, status, executions[id].cancel);
      }
    }

    /** Creates the record of a library's operation and removes the one it
        replaces, when that is the one the caller saw and it is idle. */
    method ReplaceCurrentWorkset(id: string, library: string, op: string, expected: Option<string>) returns (answer: Answer)
      modifies this
      ensures Result(View(), answer) == ReplaceCurrent(old(View()), id, library, op, expected)
    {
      if !SeenIsCurrent(View(), library, op, expected) {
        return RecordChanged;
      }
      if expected.Some? && RecordBusy(View(), expected.value) {
        return Busy;
      }
      ghost var before := View();
      var rest := if expected.Some? then WithoutRecords(View(), {expected.value}) else View();
      if id in rest.records {
        return Conflict;
      }
      records := rest.records[id := Record(Some(library), op)];
      operations := rest.operations[Key(id, op) := Operation(1, None)];
      drafts := rest.drafts[Key(id, op) := ""];
      plans, revisions, generations, executions := rest.plans, rest.revisions, rest.generations, rest.executions;
      return Done;
    }
  }
}
