/** The SQL statements of gateway/src/db/jobs.ts as operations on a table value.
    `Db` is the `jobs` table, the `job_events` trail of each job, and two sets that record which
    ids were ever handed out; ids are assumed fresh (`newLeaseId`, `newVideoId`). */
module JobTable {
  import opened Types

  datatype Db = Db(
    rows: map<JobId, Job>,
    log: map<JobId, seq<Event>>,
    issued: set<LeaseId>,
    made: set<JobId>)

  const EMPTY := Db(map[], map[], {}, {})

  /** One statement of the job store. `lease: None` is the gateway acting for itself. */
  datatype Op =
    | Create(job: NewJob)
    | Claim(id: JobId, pod: PodId, minted: LeaseId, expiresAt: int, now: int)
    | Renew(id: JobId, held: LeaseId, expiresAt: int, progress: Option<real>, upstream: Option<string>)
    | Complete(id: JobId, held: LeaseId, artifacts: seq<Artifact>, now: int)
    | Fail(id: JobId, lease: Option<LeaseId>, error: string, now: int)
    | Requeue(id: JobId, lease: Option<LeaseId>)
    | CancelQueued(id: JobId, now: int)
    | RequestCancel(id: JobId, now: int)
    | MarkCancelled(id: JobId, lease: Option<LeaseId>, now: int)
    | SetArtifacts(id: JobId, artifacts: seq<Artifact>)
    | Note(id: JobId, event: Event)
    | Recover(now: int, grace: int)
    | Purge(before: int)

  predicate Targeted(op: Op) {
    !op.Recover? && !op.Purge?
  }

  function Target(op: Op): JobId
    requires Targeted(op)
  {
    if op.Create? then op.job.id else op.id
  }

  function NewRow(j: NewJob): Job {
    Job(j.id, j.model, j.params, Queued, 0.0, None, [], None, None, None, None, 0,
        false, None, j.createdAt, None, None, j.deadlineAt)
  }

  /** The row is in flight under exactly this lease. */
  predicate Holds(row: Job, lease: LeaseId) {
    row.state.InProgress? && row.leaseId == Some(lease)
  }

  predicate Fenced(row: Job, lease: Option<LeaseId>) {
    row.state.InProgress? && (lease.Some? ==> row.leaseId == lease)
  }

  predicate Current(db: Db, id: JobId, lease: LeaseId) {
    id in db.rows && Holds(db.rows[id], lease)
  }

  /** The WHERE clause of a single-row statement. */
  predicate Matches(row: Job, op: Op) {
    match op
    case Create(_) => false
    case Claim(_, _, _, _, _) => row.state.Queued?
    case Renew(_, l, _, _, _) => Holds(row, l)
    case Complete(_, l, _, _) => Holds(row, l)
    case Fail(_, l, _, _) => if l.Some? then Holds(row, l.value) else Live(row.state)
    case Requeue(_, l) => Fenced(row, l)
    case CancelQueued(_, _) => row.state.Queued?
    case RequestCancel(_, _) => row.state.InProgress?
    case MarkCancelled(_, l, _) => Fenced(row, l)
    case SetArtifacts(_, _) => true
    case Note(_, _) => true
    case Recover(_, _) => false
    case Purge(_) => false
  }

  /** The SET clause of a single-row statement. */
  function Updated(row: Job, op: Op): Job {
    match op
    case Claim(_, p, l, e, n) =>
      row.(state := InProgress, podId := Some(p), leaseId := Some(l), leaseExpiresAt := Some(e),
           startedAt := if row.startedAt.Some? then row.startedAt else Some(n),
           attempts := row.attempts + 1)
    case Renew(_, _, e, p, u) =>
      row.(leaseExpiresAt := Some(e),
           progress := if p.Some? then p.value else row.progress,
           upstreamId := if u.Some? then u else row.upstreamId)
    case Complete(_, _, a, n) =>
      row.(state := Completed, progress := 1.0, error := None, artifacts := a,
           finishedAt := Some(n), leaseId := None, leaseExpiresAt := None)
    case Fail(_, _, e, n) =>
      row.(state := Failed, error := Some(e), finishedAt := Some(n), leaseId := None, leaseExpiresAt := None)
    case Requeue(_, _) =>
      row.(state := Queued, podId := None, leaseId := None, leaseExpiresAt := None,
           progress := 0.0, upstreamId := None)
    case CancelQueued(_, n) =>
      row.(state := Cancelled, finishedAt := Some(n), cancelRequested := true, cancelRequestedAt := Some(n))
    case RequestCancel(_, n) =>
      row.(cancelRequested := true,
           cancelRequestedAt := if row.cancelRequestedAt.Some? then row.cancelRequestedAt else Some(n))
    case MarkCancelled(_, _, n) =>
      row.(state := Cancelled, finishedAt := Some(n), leaseId := None, leaseExpiresAt := None)
    case SetArtifacts(_, a) => row.(artifacts := a)
    case Create(_) => row
    case Note(_, _) => row
    case Recover(_, _) => row
    case Purge(_) => row
  }

  /** The row written to `job_events` when the statement changed its row. */
  function Logged(op: Op): seq<Event> {
    match op
    case Claim(_, p, l, _, _) => [AssignedEv(p, l)]
    case Complete(_, _, _, _) => [CompletedEv]
    case Fail(_, _, _, _) => [FailedEv]
    case Requeue(_, _) => [RequeuedEv]
    case CancelQueued(_, _) => [CancelledEv]
    case RequestCancel(_, _) => [CancelRequestedEv]
    case MarkCancelled(_, _, _) => [CancelledEv]
    case Note(_, e) => [e]
    case Create(_) => []
    case Renew(_, _, _, _, _) => []
    case SetArtifacts(_, _) => []
    case Recover(_, _) => []
    case Purge(_) => []
  }

  predicate Enabled(db: Db, op: Op) {
    if op.Create? then op.job.id !in db.rows
    else if Targeted(op) then op.id in db.rows && Matches(db.rows[op.id], op)
    else true
  }

  function Trail(db: Db, id: JobId): seq<Event> {
    if id in db.log then db.log[id] else []
  }

  function Recovered(row: Job, at: int): Job {
    if row.state.InProgress? then row.(leaseExpiresAt := Some(at)) else row
  }

  predicate FinishedBefore(row: Job, before: int) {
    row.finishedAt.Some? && row.finishedAt.value < before
  }

  function Survivors(db: Db, before: int): set<JobId> {
    set id | id in db.rows && !FinishedBefore(db.rows[id], before)
  }

  /** The lease id the statement was given, whether or not it then wins its row. */
  function Minted(op: Op): set<LeaseId> {
    if op.Claim? then {op.minted} else {}
  }

  function Apply(db: Db, op: Op): Db {
    if op.Create? then
      var j := op.job;
      if j.id in db.rows then db
      else db.(rows := db.rows[j.id := NewRow(j)], log := db.log[j.id := Trail(db, j.id) + [CreatedEv]],
               made := db.made + {j.id})
    else if op.Recover? then
      db.(rows := map id | id in db.rows :: Recovered(db.rows[id], op.now + op.grace),
          log := map id | id in db.log ::
            if id in db.rows && db.rows[id].state.InProgress?
            then db.log[id] + [RecoveredEv(db.rows[id].podId)] else db.log[id])
    else if op.Purge? then
      var keep := Survivors(db, op.before);
      db.(rows := map id | id in db.rows && id in keep :: db.rows[id],
          log := map id | id in db.log && (id in db.rows ==> id in keep) :: db.log[id])
    else
      var id := op.id;
      var db1 := db.(issued := db.issued + Minted(op));
      if id in db.rows && Matches(db.rows[id], op)
      then db1.(rows := db.rows[id := Updated(db.rows[id], op)],
                log := if Logged(op) == [] then db.log else db.log[id := Trail(db, id) + Logged(op)])
      else db1
  }

  function ApplyAll(db: Db, ops: seq<Op>): Db {
    if ops == [] then db else Apply(ApplyAll(db, ops[..|ops| - 1]), ops[|ops| - 1])
  }

  lemma {:induction false} ApplyAllConcat(db: Db, a: seq<Op>, b: seq<Op>)
    ensures ApplyAll(db, a + b) == ApplyAll(ApplyAll(db, a), b)
    decreases |b|
  {
    if b == [] {
      assert a + b == a;
    } else {
      var n := |b| - 1;
      ApplyAllConcat(db, a, b[..n]);
      assert (a + b)[..|a + b| - 1] == a + b[..n];
    }
  }

  lemma {:induction false} ApplySnoc(db: Db, ops: seq<Op>, op: Op)
    ensures ApplyAll(db, ops + [op]) == Apply(ApplyAll(db, ops), op)
  {
    assert (ops + [op])[..|ops + [op]| - 1] == ops;
  }

  lemma {:induction false} NoteOnly(db: Db, id: JobId, e: Event)
    requires id in db.rows
    ensures Apply(db, Note(id, e)) == db.(log := db.log[id := Trail(db, id) + [e]])
  {
    assert db.rows[id := db.rows[id]] == db.rows;
    assert db.issued + {} == db.issued;
  }

  lemma {:induction false} ApplyOne(db: Db, op: Op)
    ensures ApplyAll(db, [op]) == Apply(db, op)
  {
    assert [op][..0] == [];
    assert ApplyAll(db, []) == db;
  }

  lemma {:induction false} ApplyTwo(db: Db, a: Op, b: Op)
    ensures ApplyAll(db, [a, b]) == Apply(Apply(db, a), b)
  {
    assert [a, b][..1] == [a];
    ApplyOne(db, a);
  }
}
