/** What each protocol step does to one row of the table. */
module StepRows {
  import opened Types
  import opened JobTable
  import opened TableInvariant
  import opened Store
  import opened Claims
  import opened AgentRoutes
  import opened RowBlocks
  import opened Reaper
  import opened Protocol
  import opened Runs

  /** A row the poll or the woken poll handed out: queued before, in flight from now on. */
  predicate Claimed(row: Job, row': Job, pod: PodId, expiresAt: int) {
    && row.state.Queued? && row'.state.InProgress?
    && row'.podId == Some(pod) && row'.leaseExpiresAt == Some(expiresAt)
    && row'.cancelRequested == row.cancelRequested && row'.deadlineAt == row.deadlineAt
  }

  lemma {:induction false} ClaimedRow(row: Job, a: Assignment, pod: PodId, expiresAt: int, now: int)
    requires row.state.Queued?
    ensures Claimed(row, Updated(row, ClaimOp(a, pod, expiresAt, now)), pod, expiresAt)
  {
  }

  lemma {:induction false} ClaimRows(db: Db, assign: seq<Assignment>, pod: PodId, e: int, now: int, m: nat, id: JobId)
    requires Claimable(db, assign)
    ensures var db' := ApplyAll(db, ClaimOps(assign, pod, e, now));
      && db'.rows.Keys == db.rows.Keys
      && (id in JobsOf(assign) ==> id in db.rows && Claimed(db.rows[id], db'.rows[id], pod, e))
      && (id in db.rows && id !in JobsOf(assign) ==> db'.rows[id] == db.rows[id])
  {
    hide Apply, ApplyAll, Claimed, Updated;
    ClaimsLand(db, assign, pod, e, now, m);
    if id in JobsOf(assign) {
      var i := JobIndex(assign, id);
      assert assign[i] in assign;
      ClaimedFrom(db, assign, i);
      ClaimedRow(db.rows[id], assign[i], pod, e, now);
    }
  }

  lemma {:induction false} ResumeRows(c: Config, s: Sys, t: Step, id: JobId)
    requires Guard(c, s, t) && t.Resume?
    ensures var db' := Next(c, s, t).db;
      && db'.rows.Keys == s.db.rows.Keys
      && (id in JobsOf(t.assign) ==>
            id in s.db.rows && Claimed(s.db.rows[id], db'.rows[id], s.desk.polls[t.k].pod.podId, s.clock + c.leaseTtlMs))
      && (id in s.db.rows && id !in JobsOf(t.assign) ==> db'.rows[id] == s.db.rows[id])
  {
    hide Apply, ApplyAll, DeskAfter, DiskAfter, FleetAfter, Claimed, QueueWindow, Names;
    ClaimRows(s.db, t.assign, s.desk.polls[t.k].pod.podId, s.clock + c.leaseTtlMs, s.clock, c.maxAttempts, id);
  }

  /** The table between the heartbeat and the claims of a poll. */
  function Midway(c: Config, s: Sys, n: nat): Db
    requires n in s.fleet.reqs
  {
    ApplyAll(s.db, Heartbeat(c, s, n))
  }

  lemma {:induction false} PollRows(c: Config, s: Sys, t: Step, id: JobId)
    requires Guard(c, s, t) && t.Poll?
    ensures t.n in s.fleet.reqs
    ensures var db', mid, owned := Next(c, s, t).db, Midway(c, s, t.n), StillOwned(s.db, s.fleet.reqs[t.n].reports);
      && db' == ApplyAll(mid, Claiming(c, s, s.fleet.reqs[t.n].pod, t.assign))
      && mid.rows.Keys == s.db.rows.Keys && db'.rows.Keys == s.db.rows.Keys
      && (id in JobsOf(t.assign) ==>
            id in s.db.rows && id !in owned && mid.rows[id] == s.db.rows[id]
            && Claimed(s.db.rows[id], db'.rows[id], s.fleet.reqs[t.n].pod, s.clock + c.leaseTtlMs))
      && (id in s.db.rows && id !in JobsOf(t.assign) ==> db'.rows[id] == mid.rows[id])
      && (id in s.db.rows && id in owned ==> Touched(s.db.rows[id], mid.rows[id], s.clock + c.leaseTtlMs))
      && (id in s.db.rows && id !in owned ==> mid.rows[id] == s.db.rows[id])
  {
    hide Apply, ApplyAll, DeskAfter, DiskAfter, FleetAfter, QueueWindow, Names, StillOwned;
    var reports, pod, e := s.fleet.reqs[t.n].reports, s.fleet.reqs[t.n].pod, s.clock + c.leaseTtlMs;
    RenewalsLand(s.db, reports, e, c.maxAttempts);
    ApplyAllConcat(s.db, Heartbeat(c, s, t.n), Claiming(c, s, pod, t.assign));
    ClaimRows(Midway(c, s, t.n), t.assign, pod, e, s.clock, c.maxAttempts, id);
    OwnedInFlight(s.db, reports);
  }

  /** One row after a sweep. */
  function SweptRow(c: Config, row: Job, now: int): Job {
    AfterCancels(AfterDeadline(AfterLeases(row, now, c.maxAttempts), now), now, now - c.cancelGraceMs)
  }

  lemma {:induction false} SweepRows(c: Config, s: Sys, t: Step)
    requires Inv(s.db, c.maxAttempts) && Guard(c, s, t) && t.Sweep?
    ensures Next(c, s, t).db.rows.Keys == s.db.rows.Keys
    ensures forall id :: id in s.db.rows ==> Next(c, s, t).db.rows[id] == SweptRow(c, s.db.rows[id], s.clock)
  {
    hide Apply, ApplyAll, DeskAfter, DiskAfter, FleetAfter, Swept, Blocks, AfterLeases, AfterDeadline, AfterCancels, Lists, JobOk;
    KeysFit(s.db, c.maxAttempts);
    SweepPasses(s.db, Next(c, s, t).db, t.s1, t.s2, t.s3, s.clock, c.maxAttempts, c.cancelGraceMs);
  }

  /** The lease pass puts the job back in the queue, and the deadline pass leaves it there. */
  predicate Requeueable(c: Config, row: Job, now: int) {
    LeaseExpired(row, now) && row.attempts < c.maxAttempts && !IsOverdue(row, now)
  }

  /** What may become of a row in a sweep. */
  lemma {:induction false} SweptRowIs(c: Config, row: Job, now: int)
    ensures var end := SweptRow(c, row, now);
      && (end.state.InProgress? ==> end == row)
      && (end.state.Queued? ==> end == row || (LeaseExpired(row, now) && row.attempts < c.maxAttempts && end.model == row.model))
      && (end.state.Completed? ==> end == row)
      && (end.state.Cancelled? ==> end == row || row.cancelRequested)
      && (end.cancelRequested == row.cancelRequested)
      && (row.state.InProgress? ==>
            (end != row <==> LeaseExpired(row, now) || IsOverdue(row, now) || StaleCancel(row, now - c.cancelGraceMs))
            && (end != row ==> !end.state.InProgress?))
      && (StaleCancel(row, now - c.cancelGraceMs) ==>
            if Requeueable(c, row, now) then end.state.Queued? else !Live(end.state))
  {
  }

  predicate Simple(t: Step) {
    !t.Poll? && !t.Resume? && !t.Sweep?
  }

  /** Which step issues which statement. */
  predicate Issues(c: Config, s: Sys, t: Step, op: Op) {
    match op
    case Create(job) => t == Step.Create(job)
    case CancelQueued(id, now) => t == Step.Delete(id) && now == s.clock
    case RequestCancel(id, now) => t == Step.Delete(id) && now == s.clock
    case Note(id, _) => t.EndUpload? && t.u in s.disk.streams && s.disk.streams[t.u].job == id
    case Complete(id, l, _, _) => t == Step.Result(l) && l in s.fleet.tasks && s.fleet.tasks[l].job == id
    case Requeue(id, l) => t.Result? && l == Some(t.lease) && t.lease in s.fleet.tasks && s.fleet.tasks[t.lease].job == id
    case Fail(id, l, _, _) => t.Result? && l == Some(t.lease) && t.lease in s.fleet.tasks && s.fleet.tasks[t.lease].job == id
    case MarkCancelled(id, l, _) =>
      t.Result? && l == Some(t.lease) && t.lease in s.fleet.tasks && s.fleet.tasks[t.lease].job == id
      && s.fleet.tasks[t.lease].outcome == Some(CancelAck)
    case SetArtifacts(id, a) => t == ClearMedia(id) && a == []
    case Recover(now, grace) => t.Restart? && now == s.clock && grace == RestartGrace(c)
    case Purge(before) => t.PurgeOld? && before == t.started - c.jobRetentionMs && t.started <= s.clock
    case Claim(_, _, _, _, _) => false
    case Renew(_, _, _, _, _) => false
  }

  lemma {:induction false} SimpleOps(c: Config, s: Sys, t: Step)
    requires Guard(c, s, t) && Simple(t)
    ensures |Ops(c, s, t)| <= 1
    ensures Ops(c, s, t) == [] ==> Next(c, s, t).db == s.db
    ensures Ops(c, s, t) != [] ==> Next(c, s, t).db == Apply(s.db, Ops(c, s, t)[0]) && Issues(c, s, t, Ops(c, s, t)[0])
  {
    hide PollGuard, ResumeGuard, Swept, DeskAfter, DiskAfter, FleetAfter, Apply;
    var ops := Ops(c, s, t);
    if ops != [] {
      assert ops == [ops[0]];
      ApplyOne(s.db, ops[0]);
    }
  }

  /** One row under one statement that neither claims nor renews. */
  lemma {:induction false} SimpleRow(db: Db, op: Op, id: JobId)
    requires !op.Claim? && !op.Renew?
    requires id in Apply(db, op).rows
    ensures !op.Create? ==> id in db.rows
    ensures id in db.rows ==>
      (var row, row' := db.rows[id], Apply(db, op).rows[id];
       && (!op.Recover? && (!Targeted(op) || op.Create? || op.id != id) ==> row' == row)
       && (op.Recover? ==> row' == Recovered(row, op.now + op.grace))
       && (Targeted(op) && !op.Create? && op.id == id ==> row' == if Matches(row, op) then Updated(row, op) else row))
  {
  }
}
