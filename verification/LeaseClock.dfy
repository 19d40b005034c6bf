/** When a job is taken from its pod: only by the pod's own result, or by a sweep that finds it late. */
module LeaseClock {
  import opened Types
  import opened JobTable
  import opened TableInvariant
  import opened Store
  import opened Claims
  import opened AgentRoutes
  import opened Reaper
  import opened Protocol
  import opened Runs
  import opened StepRows
  import opened AgentSide
  import opened Custody

  /** A lease runs out one lease time after its last contact; if the gateway has restarted since that
      contact, one restart grace after the restart instead. */
  function ExpiryOf(c: Config, desk: Desk, id: JobId): int
    requires id in desk.contact
  {
    if id in desk.heard || desk.restart.None? then desk.contact[id] + c.leaseTtlMs
    else desk.restart.value + RestartGrace(c)
  }

  predicate Due(c: Config, desk: Desk, clock: int, id: JobId, row: Job) {
    && id in desk.contact && desk.contact[id] <= clock
    && row.leaseExpiresAt == Some(ExpiryOf(c, desk, id))
    && (desk.restart.Some? ==>
          if id in desk.heard then desk.restart.value <= desk.contact[id] else desk.contact[id] <= desk.restart.value)
  }

  ghost predicate OnTime(c: Config, s: Sys) {
    && (s.desk.restart.Some? ==> s.desk.restart.value <= s.clock)
    && (forall id :: id in s.db.rows && s.db.rows[id].state.InProgress? ==> Due(c, s.desk, s.clock, id, s.db.rows[id]))
  }

  /** The jobs a step hears from or hands out. */
  ghost function Reached(s: Sys, t: Step): set<JobId> {
    if t.Poll? && t.n in s.fleet.reqs then StillOwned(s.db, s.fleet.reqs[t.n].reports) + JobsOf(t.assign)
    else if t.Resume? then JobsOf(t.assign)
    else {}
  }

  lemma {:induction false} ContactAfter(c: Config, s: Sys, t: Step)
    requires Guard(c, s, t)
    ensures var d := Next(c, s, t).desk;
      && d.contact == Touching(s.desk.contact, Reached(s, t), s.clock)
      && d.heard == (if t.Restart? then {} else s.desk.heard + Reached(s, t))
      && d.restart == if t.Restart? then Some(s.clock) else s.desk.restart
    ensures t.Restart? ==> Reached(s, t) == {}
  {
    hide Ops, DiskAfter, FleetAfter, Handed, Swept, Arrival, ResultAnswer, Capped, StillOwned, JobsOf;
    assert s.desk.contact + map[] == s.desk.contact;
  }

  lemma {:induction false} RestartOps(c: Config, s: Sys, t: Step)
    requires Guard(c, s, t)
    ensures t.Restart? ==> Ops(c, s, t) == [Recover(s.clock, RestartGrace(c))]
  {
  }

  lemma {:induction false} OneExpiry(db: Db, op: Op, id: JobId)
    requires !op.Claim? && !op.Renew? && id in Apply(db, op).rows && Apply(db, op).rows[id].state.InProgress?
    ensures id in db.rows && db.rows[id].state.InProgress?
    ensures Apply(db, op).rows[id].leaseExpiresAt == if op.Recover? then Some(op.now + op.grace) else db.rows[id].leaseExpiresAt
  {
    SimpleRow(db, op, id);
  }

  lemma {:induction false} SimpleExpiry(c: Config, s: Sys, t: Step, id: JobId)
    requires Guard(c, s, t) && Simple(t)
    requires id in Next(c, s, t).db.rows && Next(c, s, t).db.rows[id].state.InProgress?
    ensures id in s.db.rows && s.db.rows[id].state.InProgress?
    ensures Next(c, s, t).db.rows[id].leaseExpiresAt ==
      if t.Restart? then Some(s.clock + RestartGrace(c)) else s.db.rows[id].leaseExpiresAt
  {
    hide ApplyAll, DeskAfter, DiskAfter, FleetAfter, Guard;
    SimpleOps(c, s, t);
    RestartOps(c, s, t);
    var ops := Ops(c, s, t);
    if ops != [] {
      OneExpiry(s.db, ops[0], id);
      hide Ops, Apply;
    }
  }

  /** After a step, a job in flight was just heard from or handed out, or was in flight before under
      the same expiry, or had its expiry reset by a restart. */
  lemma {:induction false} ExpiryAfter(c: Config, s: Sys, t: Step, id: JobId)
    requires Inv(s.db, c.maxAttempts) && Guard(c, s, t)
    requires id in Next(c, s, t).db.rows && Next(c, s, t).db.rows[id].state.InProgress?
    ensures var e := Next(c, s, t).db.rows[id].leaseExpiresAt;
      if id in Reached(s, t) then e == Some(s.clock + c.leaseTtlMs)
      else id in s.db.rows && s.db.rows[id].state.InProgress?
           && (e == if t.Restart? then Some(s.clock + RestartGrace(c)) else s.db.rows[id].leaseExpiresAt)
  {
    hide Apply, ApplyAll, DeskAfter, DiskAfter, FleetAfter, Ops, Guard, StillOwned, JobsOf, SweptRow, JobOk;
    if t.Poll? {
      PollRows(c, s, t, id);
    } else if t.Resume? {
      ResumeRows(c, s, t, id);
    } else if t.Sweep? {
      SweepRows(c, s, t);
      SweptRowIs(c, s.db.rows[id], s.clock);
    } else {
      SimpleExpiry(c, s, t, id);
    }
  }

  lemma {:induction false} OnTimeStep(c: Config, s: Sys, t: Step)
    requires Inv(s.db, c.maxAttempts) && OnTime(c, s) && Guard(c, s, t)
    ensures OnTime(c, Next(c, s, t))
  {
    hide Guard, Next, Inv, Reached;
    var s' := Next(c, s, t);
    ClockRises(c, s, t);
    ContactAfter(c, s, t);
    forall id | id in s'.db.rows && s'.db.rows[id].state.InProgress? ensures Due(c, s'.desk, s'.clock, id, s'.db.rows[id]) {
      ExpiryAfter(c, s, t, id);
      assert id !in Reached(s, t) ==> Due(c, s.desk, s.clock, id, s.db.rows[id]);
    }
  }

  /** The lease is late: more than a lease time since the claim or last renewal, or, when the gateway
      has restarted since, more than the restart grace since that restart. */
  predicate LateContact(c: Config, s: Sys, id: JobId) {
    id in s.desk.contact && s.clock > ExpiryOf(c, s.desk, id)
  }

  /** What a sweep takes a job in flight for. */
  predicate Forfeit(c: Config, s: Sys, id: JobId)
    requires id in s.db.rows
  {
    LateContact(c, s, id) || IsOverdue(s.db.rows[id], s.clock) || StaleCancel(s.db.rows[id], s.clock - c.cancelGraceMs)
  }

  lemma {:induction false} OneLoss(db: Db, op: Op, id: JobId, l: LeaseId, m: nat)
    requires id in db.rows && RowOk(id, db.rows[id], m) && !op.Claim? && !op.Renew?
    requires Current(db, id, l) && !Current(Apply(db, op), id, l)
    ensures (op.Complete? && op.id == id && op.held == l)
         || ((op.Fail? || op.Requeue? || op.MarkCancelled?) && op.id == id && op.lease in {None, Some(l)})
  {
  }

  lemma {:induction false} SimpleLoss(c: Config, s: Sys, t: Step, id: JobId, l: LeaseId)
    requires Guard(c, s, t) && Simple(t) && id in s.db.rows && RowOk(id, s.db.rows[id], c.maxAttempts)
    requires Current(s.db, id, l) && !Current(Next(c, s, t).db, id, l)
    ensures t == Step.Result(l) && l in s.fleet.tasks && s.fleet.tasks[l].job == id
  {
    hide Guard, Next, Ops, RowOk, Apply;
    SimpleOps(c, s, t);
    OneLoss(s.db, Ops(c, s, t)[0], id, l, c.maxAttempts);
  }

  /** The only ways to lose a lease: to report under it, or to be swept; and a sweep takes exactly the
      forfeit ones. */
  lemma {:induction false} LeaseTaken(c: Config, s: Sys, t: Step, id: JobId, l: LeaseId)
    requires Inv(s.db, c.maxAttempts) && OnTime(c, s) && Guard(c, s, t)
    requires Current(s.db, id, l)
    ensures !Current(Next(c, s, t).db, id, l) ==>
      t.Sweep? || (t == Step.Result(l) && l in s.fleet.tasks && s.fleet.tasks[l].job == id)
    ensures t.Sweep? ==> (!Current(Next(c, s, t).db, id, l) <==> Forfeit(c, s, id))
  {
    hide Guard, Next, Inv, StillOwned, JobsOf, Apply, SweptRow;
    assert Due(c, s.desk, s.clock, id, s.db.rows[id]);
    if t.Poll? {
      PollRows(c, s, t, id);
    } else if t.Resume? {
      ResumeRows(c, s, t, id);
    } else if t.Sweep? {
      SweepRows(c, s, t);
      SweptRowIs(c, s.db.rows[id], s.clock);
    } else if !Current(Next(c, s, t).db, id, l) {
      RowIsOk(s.db, id, c.maxAttempts);
      SimpleLoss(c, s, t, id, l);
    }
  }

  /** A poll that arrives before the sweep keeps the lease, however late it is. */
  lemma {:induction false} LatePollKeeps(c: Config, s: Sys, t: Step, id: JobId, l: LeaseId)
    requires Guard(c, s, t) && t.Poll?
    requires t.n in s.fleet.reqs && ReportsAll(s.fleet.reqs[t.n].held, s.fleet.reqs[t.n].reports)
    requires id in s.fleet.reqs[t.n].held && s.fleet.reqs[t.n].held[id] == l && Current(s.db, id, l)
    ensures Current(Next(c, s, t).db, id, l)
    ensures Next(c, s, t).db.rows[id].leaseExpiresAt == Some(s.clock + c.leaseTtlMs)
    ensures !LeaseExpired(Next(c, s, t).db.rows[id], s.clock + c.leaseTtlMs)
  {
    hide Guard, Next, StillOwned, JobsOf, ReportsAll;
    OwnedIsHeld(s.db, s.fleet.reqs[t.n].held, s.fleet.reqs[t.n].reports);
    PollRows(c, s, t, id);
  }
}
