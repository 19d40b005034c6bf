/** What every statement keeps, and what no run of statements can undo. `m` is `maxAttempts`. */
module TableInvariant {
  import opened Types
  import opened JobTable
  import opened Replay

  function ShapeOf(row: Job): Shape {
    Shape(row.state, row.attempts, row.podId, row.leaseId)
  }

  ghost predicate RowOk(id: JobId, row: Job, m: nat) {
    && row.id == id
    && (row.leaseId.Some? <==> row.state.InProgress?)
    && (row.leaseExpiresAt.Some? <==> row.state.InProgress?)
    && (row.finishedAt.Some? <==> !Live(row.state))
    && (row.error.Some? <==> row.state.Failed?)
    && (row.state.Completed? ==> row.progress == 1.0)
    && (row.artifacts != [] ==> row.state.Completed?)
    && 0.0 <= row.progress <= 1.0
    && (row.state.Queued? ==> row.podId.None? && row.upstreamId.None? && row.progress == 0.0 && row.attempts < m)
    && (row.state.InProgress? ==> row.podId.Some? && 1 <= row.attempts)
    && row.attempts <= m
    && (row.startedAt.Some? <==> 1 <= row.attempts)
    && (row.cancelRequested <==> row.cancelRequestedAt.Some?)
  }

  ghost predicate JobOk(db: Db, id: JobId, m: nat) {
    && id in db.rows && id in db.made && id in db.log
    && RowOk(id, db.rows[id], m)
    && Replayed(db.log[id]) == At(ShapeOf(db.rows[id]))
    && (db.rows[id].leaseId.Some? ==> db.rows[id].leaseId.value in db.issued)
  }

  /** No two jobs are in flight under one lease. */
  ghost predicate OneOwner(db: Db) {
    forall a, b, l :: Current(db, a, l) && Current(db, b, l) ==> a == b
  }

  ghost predicate Inv(db: Db, m: nat) {
    && db.log.Keys == db.rows.Keys
    && (forall id :: id in db.rows ==> JobOk(db, id, m))
    && OneOwner(db)
  }

  /** An informational `addEvent` that agrees with the row it is about. */
  predicate NoteFits(row: Job, e: Event) {
    Read(At(ShapeOf(row)), e) == At(ShapeOf(row))
  }

  /** What the callers of the store guarantee: fresh ids, the attempt cap, progress in range,
      artifact lists only cleared and only on finished jobs. */
  predicate Legal(db: Db, op: Op, m: nat) {
    match op
    case Create(j) => j.id !in db.made
    case Claim(_, _, l, _, _) => l !in db.issued
    case Renew(_, _, _, p, _) => p.Some? ==> 0.0 <= p.value <= 1.0
    case Requeue(_, _) => Enabled(db, op) ==> db.rows[op.id].attempts < m
    case SetArtifacts(id, a) => a == [] && (id in db.rows ==> !Live(db.rows[id].state))
    case Note(id, e) => id in db.rows && NoteFits(db.rows[id], e)
    case Complete(_, _, _, _) => true
    case Fail(_, _, _, _) => true
    case CancelQueued(_, _) => true
    case RequestCancel(_, _) => true
    case MarkCancelled(_, _, _) => true
    case Recover(_, _) => true
    case Purge(_) => true
  }

  predicate LegalRun(db: Db, ops: seq<Op>, m: nat) {
    ops == [] ||
    (LegalRun(db, ops[..|ops| - 1], m) && Legal(ApplyAll(db, ops[..|ops| - 1]), ops[|ops| - 1], m))
  }

  /** 2(M - attempts) while queued, one more while in flight, 0 once finished. */
  function Rank(row: Job, m: nat): int {
    if row.state.Queued? then 2 * (m - row.attempts)
    else if row.state.InProgress? then 2 * (m - row.attempts) + 1
    else 0
  }

  /** What may have happened to one job between two moments at which its row exists. */
  ghost predicate RowEvolves(r: Job, r': Job, m: nat) {
    && r'.id == r.id && r'.model == r.model && r'.params == r.params
    && r'.createdAt == r.createdAt && r'.deadlineAt == r.deadlineAt
    && r.attempts <= r'.attempts
    && (r.startedAt.Some? ==> r'.startedAt == r.startedAt)
    && (r.cancelRequested ==> r'.cancelRequested)
    && (r.cancelRequestedAt.Some? && Live(r'.state) ==> r'.cancelRequestedAt == r.cancelRequestedAt)
    && (!Live(r.state) ==> r' == r.(artifacts := r'.artifacts) && (r'.artifacts == r.artifacts || r'.artifacts == []))
    && 0 <= Rank(r', m) <= Rank(r, m)
    && (r'.state != r.state || r'.leaseId != r.leaseId || r'.podId != r.podId || r'.attempts != r.attempts
        ==> Rank(r', m) < Rank(r, m))
  }

  /** What may have happened to job `id`: it never comes back, its trail only grows, and a lease
      already handed out is held only if it was held before. */
  ghost predicate JobEvolves(db: Db, db': Db, id: JobId, m: nat) {
    && (id in db.made && id in db'.rows ==>
          id in db.rows && id in db.log && id in db'.log
          && RowEvolves(db.rows[id], db'.rows[id], m) && db.log[id] <= db'.log[id])
    && (forall l :: l in db.issued && Current(db', id, l) ==> Current(db, id, l))
  }

  ghost predicate Evolves(db: Db, db': Db, m: nat) {
    && db.issued <= db'.issued
    && db.made <= db'.made
    && (forall id :: JobEvolves(db, db', id, m))
  }

  lemma {:induction false} RowStep(id: JobId, row: Job, op: Op, m: nat)
    requires RowOk(id, row, m) && Matches(row, op)
    requires op.Requeue? ==> row.attempts < m
    requires op.Renew? && op.progress.Some? ==> 0.0 <= op.progress.value <= 1.0
    requires op.SetArtifacts? ==> op.artifacts == [] && !Live(row.state)
    ensures RowOk(id, Updated(row, op), m) && RowEvolves(row, Updated(row, op), m)
  {
  }

  lemma {:induction false} TrailStep(trail: seq<Event>, row: Job, op: Op, m: nat)
    requires RowOk(row.id, row, m)
    requires Replayed(trail) == At(ShapeOf(row))
    requires Matches(row, op)
    requires op.Note? ==> NoteFits(row, op.event)
    ensures Replayed(trail + Logged(op)) == At(ShapeOf(Updated(row, op)))
  {
    if Logged(op) == [] {
      assert trail + Logged(op) == trail;
    } else {
      ReplayedSnoc(trail, Logged(op)[0]);
    }
  }

  lemma {:induction false} SameRow(id: JobId, row: Job, m: nat)
    requires RowOk(id, row, m)
    ensures RowEvolves(row, row, m)
  {
  }

  /** A statement gives a job a lease only by claiming it with a lease never issued before. */
  lemma {:induction false} NewHolder(db: Db, op: Op, id: JobId, l: LeaseId, m: nat)
    requires id in db.rows || id in db.log ==> JobOk(db, id, m)
    requires Legal(db, op, m)
    requires Current(Apply(db, op), id, l)
    ensures (Current(db, id, l) && l in db.issued)
         || (op.Claim? && id == op.id && l == op.minted && l !in db.issued)
  {
    assert id in db.rows ==> JobOk(db, id, m);
  }

  lemma {:induction false} HitJob(db: Db, op: Op, m: nat)
    requires Targeted(op) && !op.Create? && Enabled(db, op) && JobOk(db, op.id, m) && Legal(db, op, m)
    ensures JobOk(Apply(db, op), op.id, m) && JobEvolves(db, Apply(db, op), op.id, m)
  {
    var id, row, db' := op.id, db.rows[op.id], Apply(db, op);
    RowStep(id, row, op, m);
    TrailStep(db.log[id], row, op, m);
    assert db.log[id] + [] == db.log[id];
    assert db'.rows[id] == Updated(row, op) && db'.log[id] == db.log[id] + Logged(op);
    forall l | l in db.issued && Current(db', id, l) ensures Current(db, id, l) {
      NewHolder(db, op, id, l, m);
    }
  }

  lemma {:induction false} CreateJob(db: Db, j: NewJob, m: nat)
    requires j.id in db.rows || j.id in db.log ==> JobOk(db, j.id, m)
    requires j.id !in db.made && 1 <= m
    ensures JobOk(Apply(db, Create(j)), j.id, m) && JobEvolves(db, Apply(db, Create(j)), j.id, m)
  {
    assert j.id in db.rows ==> JobOk(db, j.id, m);
    ReplayedSnoc([], CreatedEv);
    assert [] + [CreatedEv] == [CreatedEv];
  }

  lemma {:induction false} UntouchedJob(db: Db, op: Op, id: JobId, m: nat)
    requires id in db.rows || id in db.log ==> JobOk(db, id, m)
    requires Legal(db, op, m) && Targeted(op)
    requires id != Target(op) || !Enabled(db, op)
    ensures id in Apply(db, op).rows ==> JobOk(Apply(db, op), id, m)
    ensures JobEvolves(db, Apply(db, op), id, m)
  {
    if id in db.rows {
      assert JobOk(db, id, m);
      SameRow(id, db.rows[id], m);
    }
  }

  lemma {:induction false} RecoveredRow(id: JobId, row: Job, at: int, m: nat)
    requires RowOk(id, row, m)
    ensures RowOk(id, Recovered(row, at), m) && RowEvolves(row, Recovered(row, at), m)
    ensures ShapeOf(Recovered(row, at)) == ShapeOf(row)
  {
  }

  lemma {:induction false} RecoverJob(db: Db, op: Op, id: JobId, m: nat)
    requires id in db.rows || id in db.log ==> JobOk(db, id, m)
    requires op.Recover?
    ensures id in Apply(db, op).rows ==> JobOk(Apply(db, op), id, m)
    ensures JobEvolves(db, Apply(db, op), id, m)
  {
    if id in db.rows {
      assert JobOk(db, id, m);
      var row, at := db.rows[id], op.now + op.grace;
      assert Apply(db, op).rows[id] == Recovered(row, at);
      assert Apply(db, op).log[id] == if row.state.InProgress? then db.log[id] + [RecoveredEv(row.podId)] else db.log[id];
      ReplayedSnoc(db.log[id], RecoveredEv(row.podId));
      RecoveredRow(id, row, at, m);
    }
  }

  lemma {:induction false} PurgeJob(db: Db, op: Op, id: JobId, m: nat)
    requires id in db.rows || id in db.log ==> JobOk(db, id, m)
    requires op.Purge?
    ensures id in Apply(db, op).rows ==> JobOk(Apply(db, op), id, m)
    ensures JobEvolves(db, Apply(db, op), id, m)
  {
    if id in db.rows {
      assert JobOk(db, id, m);
      SameRow(id, db.rows[id], m);
    }
  }

  lemma {:induction false} StepJob(db: Db, op: Op, id: JobId, m: nat)
    requires Inv(db, m) && Legal(db, op, m) && 1 <= m
    ensures id in Apply(db, op).rows ==> JobOk(Apply(db, op), id, m)
    ensures JobEvolves(db, Apply(db, op), id, m)
  {
    assert id in db.rows || id in db.log ==> JobOk(db, id, m);
    if op.Recover? {
      RecoverJob(db, op, id, m);
    } else if op.Purge? {
      PurgeJob(db, op, id, m);
    } else if id != Target(op) || !Enabled(db, op) {
      UntouchedJob(db, op, id, m);
    } else if op.Create? {
      CreateJob(db, op.job, m);
    } else {
      HitJob(db, op, m);
    }
  }

  lemma {:induction false} StepOneOwner(db: Db, op: Op, m: nat)
    requires Inv(db, m) && Legal(db, op, m)
    ensures OneOwner(Apply(db, op))
  {
    var db' := Apply(db, op);
    forall a, b, l | Current(db', a, l) && Current(db', b, l) ensures a == b {
      NewHolder(db, op, a, l, m);
      NewHolder(db, op, b, l, m);
    }
  }

  /** Row well-formedness, the trail's agreement with the row, and lease uniqueness are inductive. */
  lemma {:induction false} Step(db: Db, op: Op, m: nat)
    requires Inv(db, m) && Legal(db, op, m) && 1 <= m
    ensures Inv(Apply(db, op), m) && Evolves(db, Apply(db, op), m)
  {
    forall id ensures id in Apply(db, op).rows ==> JobOk(Apply(db, op), id, m)
              ensures JobEvolves(db, Apply(db, op), id, m) {
      StepJob(db, op, id, m);
    }
    StepOneOwner(db, op, m);
  }

  lemma {:induction false} RowEvolvesTransitive(a: Job, b: Job, c: Job, m: nat)
    requires RowEvolves(a, b, m) && RowEvolves(b, c, m)
    ensures RowEvolves(a, c, m)
  {
  }

  lemma {:induction false} EvolvesTransitive(a: Db, b: Db, c: Db, m: nat)
    requires Evolves(a, b, m) && Evolves(b, c, m)
    ensures Evolves(a, c, m)
  {
    forall id ensures JobEvolves(a, c, id, m) {
      assert JobEvolves(a, b, id, m) && JobEvolves(b, c, id, m);
      if id in a.made && id in c.rows {
        RowEvolvesTransitive(a.rows[id], b.rows[id], c.rows[id], m);
      }
    }
  }

  lemma {:induction false} EvolvesReflexive(db: Db, m: nat)
    requires Inv(db, m)
    ensures Evolves(db, db, m)
  {
    forall id ensures JobEvolves(db, db, id, m) {
      if id in db.rows {
        assert JobOk(db, id, m);
        SameRow(id, db.rows[id], m);
      }
    }
  }

  /** Every run of legal statements keeps the invariant and only ever moves jobs forward. */
  lemma {:induction false} Run(db: Db, ops: seq<Op>, m: nat)
    requires Inv(db, m) && LegalRun(db, ops, m) && 1 <= m
    ensures Inv(ApplyAll(db, ops), m) && Evolves(db, ApplyAll(db, ops), m)
  {
    if ops == [] {
      EvolvesReflexive(db, m);
    } else {
      var n := |ops| - 1;
      Run(db, ops[..n], m);
      Step(ApplyAll(db, ops[..n]), ops[n], m);
      EvolvesTransitive(db, ApplyAll(db, ops[..n]), ApplyAll(db, ops), m);
    }
  }

  lemma {:induction false} LegalConcat(db: Db, a: seq<Op>, b: seq<Op>, m: nat)
    requires LegalRun(db, a, m) && LegalRun(ApplyAll(db, a), b, m)
    ensures LegalRun(db, a + b, m)
    decreases |b|
  {
    if b == [] {
      assert a + b == a;
    } else {
      var n := |b| - 1;
      LegalConcat(db, a, b[..n], m);
      ApplyAllConcat(db, a, b[..n]);
      assert (a + b)[..|a + b| - 1] == a + b[..n];
    }
  }

  lemma {:induction false} LegalOne(db: Db, op: Op, m: nat)
    requires Legal(db, op, m)
    ensures LegalRun(db, [op], m)
  {
    assert [op][..0] == [] && LegalRun(db, [], m) && ApplyAll(db, []) == db;
  }

  lemma {:induction false} EmptyInv(m: nat)
    ensures Inv(EMPTY, m)
  {
  }
}
