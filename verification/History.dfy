/** What holds over whole runs of the job store, whoever issues the statements. */
module History {
  import opened Types
  import opened JobTable
  import opened Replay
  import opened TableInvariant

  /** A finished job keeps its status, error, finish time and every other field but the artifact list until it is purged, and never comes back. */
  lemma {:induction false} FinishedForGood(db: Db, ops: seq<Op>, id: JobId, m: nat)
    requires Inv(db, m) && LegalRun(db, ops, m) && 1 <= m
    requires id in db.made && (id in db.rows ==> !Live(db.rows[id].state))
    ensures var end := ApplyAll(db, ops);
      id in end.rows ==> id in db.rows && end.rows[id] == db.rows[id].(artifacts := end.rows[id].artifacts)
  {
    Run(db, ops, m);
    assert JobEvolves(db, ApplyAll(db, ops), id, m);
  }

  predicate Finishing(op: Op) {
    op.Complete? || op.Fail? || op.CancelQueued? || op.MarkCancelled?
  }

  /** The id has been used, and no live job bears it. */
  predicate Over(db: Db, id: JobId) {
    id in db.made && (id in db.rows ==> !Live(db.rows[id].state))
  }

  predicate Finishes(db: Db, op: Op, id: JobId) {
    Finishing(op) && op.id == id && Enabled(db, op)
  }

  /** How many statements of the run wrote a terminal status for `id`. */
  function TerminalWrites(db: Db, ops: seq<Op>, id: JobId): nat {
    if ops == [] then 0
    else
      var n := |ops| - 1;
      TerminalWrites(db, ops[..n], id)
      + if Finishes(ApplyAll(db, ops[..n]), ops[n], id) then 1 else 0
  }

  lemma {:induction false} Hit(db: Db, op: Op, id: JobId, m: nat)
    requires Inv(db, m) && Finishes(db, op, id)
    ensures !Over(db, id) && Over(Apply(db, op), id)
  {
    assert JobOk(db, id, m);
  }

  /** A terminal write needs a live job and leaves a finished one; a finished job stays finished. */
  lemma {:induction false} OneWrite(db: Db, op: Op, id: JobId, m: nat)
    requires Inv(db, m) && Legal(db, op, m) && 1 <= m
    ensures Finishes(db, op, id) ==> !Over(db, id) && Over(Apply(db, op), id)
    ensures Over(db, id) ==> Over(Apply(db, op), id)
  {
    hide Inv, OneOwner, RowOk, Rank;
    if Finishes(db, op, id) { Hit(db, op, id, m); }
    Step(db, op, m);
    if Over(db, id) { assert JobEvolves(db, Apply(db, op), id, m); }
  }

  /** At most one terminal write ever lands on a job. */
  lemma {:induction false} OneTerminalWrite(db: Db, ops: seq<Op>, id: JobId, m: nat)
    requires Inv(db, m) && LegalRun(db, ops, m) && 1 <= m
    ensures TerminalWrites(db, ops, id) <= 1
    ensures TerminalWrites(db, ops, id) == 1 ==> Over(ApplyAll(db, ops), id)
  {
    hide Inv, Evolves, Legal, Apply, Over, Finishes;
    if ops != [] {
      var n := |ops| - 1;
      OneTerminalWrite(db, ops[..n], id, m);
      Run(db, ops[..n], m);
      OneWrite(ApplyAll(db, ops[..n]), ops[n], id, m);
    }
  }

  /** How many statements of the run moved `id` from one status to another. */
  function StateChanges(db: Db, ops: seq<Op>, id: JobId): nat {
    if ops == [] then 0
    else
      var n := |ops| - 1;
      var before, after := ApplyAll(db, ops[..n]), ApplyAll(db, ops);
      StateChanges(db, ops[..n], id)
      + if id in before.rows && id in after.rows && before.rows[id].state != after.rows[id].state then 1 else 0
  }

  /** What is left of a job's budget of status changes; an id not yet used has all of it. */
  function Budget(db: Db, id: JobId, m: nat): int {
    if id in db.rows then Rank(db.rows[id], m) else if id in db.made then 0 else 2 * m
  }

  lemma {:induction false} BudgetRange(db: Db, id: JobId, m: nat)
    requires Inv(db, m)
    ensures 0 <= Budget(db, id, m) <= 2 * m
  {
    assert id in db.rows ==> JobOk(db, id, m);
  }

  /** A statement that changes the status spends budget; no statement earns any. */
  lemma {:induction false} OneChange(db: Db, op: Op, id: JobId, m: nat)
    requires Inv(db, m) && Legal(db, op, m) && 1 <= m
    ensures 0 <= Budget(Apply(db, op), id, m) <= Budget(db, id, m)
    ensures id in db.rows && id in Apply(db, op).rows && db.rows[id].state != Apply(db, op).rows[id].state ==>
      Budget(Apply(db, op), id, m) < Budget(db, id, m)
  {
    hide Apply, Legal, OneOwner, Rank, RowOk;
    Step(db, op, m);
    BudgetRange(db, id, m);
    BudgetRange(Apply(db, op), id, m);
    assert JobEvolves(db, Apply(db, op), id, m);
    assert id in db.rows ==> JobOk(db, id, m);
  }

  /** The rank pays for every status change, so a job makes at most 2M of them in any run. */
  lemma {:induction false} ChangesBounded(db: Db, ops: seq<Op>, id: JobId, m: nat)
    requires Inv(db, m) && LegalRun(db, ops, m) && 1 <= m
    ensures 0 <= Budget(ApplyAll(db, ops), id, m)
    ensures StateChanges(db, ops, id) + Budget(ApplyAll(db, ops), id, m) <= Budget(db, id, m) <= 2 * m
  {
    hide Inv, Evolves, Legal, Apply, Budget;
    BudgetRange(db, id, m);
    if ops != [] {
      var n := |ops| - 1;
      ChangesBounded(db, ops[..n], id, m);
      Run(db, ops[..n], m);
      OneChange(ApplyAll(db, ops[..n]), ops[n], id, m);
    }
  }

  /** At any moment of any run the trail alone tells the row's state, attempts, pod and lease; assigned
      minus requeued events is 0 or 1; and one final event exists exactly when the job is finished. */
  lemma {:induction false} TrailTellsRow(ops: seq<Op>, id: JobId, m: nat)
    requires LegalRun(EMPTY, ops, m) && 1 <= m
    requires id in ApplyAll(EMPTY, ops).rows
    ensures var db := ApplyAll(EMPTY, ops);
      && id in db.log
      && Replayed(db.log[id]) == At(ShapeOf(db.rows[id]))
      && 0 <= Count(db.log[id], Assigned) - Count(db.log[id], Requeued) <= 1
      && Count(db.log[id], Assigned) == db.rows[id].attempts
      && (Count(db.log[id], Final) == 1 <==> !Live(db.rows[id].state))
      && Count(db.log[id], Final) <= 1
  {
    EmptyInv(m);
    Run(EMPTY, ops, m);
    var db := ApplyAll(EMPTY, ops);
    assert JobOk(db, id, m);
    ReplayCounts(db.log[id]);
  }

  /** A purge removes only finished rows: no single statement ever drops a live job. */
  lemma {:induction false} LiveRowsStay(db: Db, op: Op, id: JobId, m: nat)
    requires Inv(db, m) && id in db.rows && Live(db.rows[id].state)
    ensures id in Apply(db, op).rows
  {
    assert JobOk(db, id, m);
  }
}
