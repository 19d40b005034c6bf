/** No job is cancelled that nobody asked to cancel, although orphaned work is stopped by the same flag. */
module CancelHonesty {
  import opened Types
  import opened JobTable
  import opened TableInvariant
  import opened Claims
  import opened AgentRoutes
  import opened Reaper
  import opened Protocol
  import opened StepRows
  import opened AgentSide
  import opened Custody

  predicate Asked(db: Db, id: JobId) {
    id in db.made && (id in db.rows ==> db.rows[id].cancelRequested)
  }

  /** Work on this job under this lease has a reason to stop. */
  predicate ShouldStop(db: Db, id: JobId, l: LeaseId) {
    !Current(db, id, l) || Asked(db, id)
  }

  predicate TaskHonest(db: Db, l: LeaseId, x: Task) {
    && (x.flagged ==> ShouldStop(db, x.job, l))
    && (x.outcome == Some(CancelAck) ==> x.flagged)
  }

  predicate AnswerHonest(db: Db, reqs: map<nat, Request>, h: Handling) {
    && (forall id :: id in h.cancel ==> Asked(db, id))
    && h.req in reqs
    && (forall id :: id in h.orphan ==> id in reqs[h.req].held && !Current(db, id, reqs[h.req].held[id]))
  }

  ghost predicate RowsHonest(db: Db) {
    forall id :: id in db.rows && db.rows[id].state.Cancelled? ==> db.rows[id].cancelRequested
  }

  ghost predicate HonestStops(s: Sys) {
    && RowsHonest(s.db)
    && (forall l :: l in s.fleet.tasks ==> TaskHonest(s.db, l, s.fleet.tasks[l]))
    && (forall k :: k in s.desk.polls ==> AnswerHonest(s.db, s.fleet.reqs, s.desk.polls[k]))
  }

  // ------------------------------------------------------------ reasons to stop do not go away

  lemma {:induction false} StillAsked(db: Db, db': Db, id: JobId, m: nat)
    requires Evolves(db, db', m) && Asked(db, id)
    ensures Asked(db', id)
  {
    hide Rank;
    assert JobEvolves(db, db', id, m);
  }

  lemma {:induction false} StillStop(db: Db, db': Db, id: JobId, l: LeaseId, m: nat)
    requires Evolves(db, db', m) && l in db.issued && ShouldStop(db, id, l)
    ensures ShouldStop(db', id, l)
    ensures !Current(db, id, l) ==> !Current(db', id, l)
  {
    hide RowEvolves;
    assert JobEvolves(db, db', id, m);
    if Asked(db, id) { StillAsked(db, db', id, m); }
  }

  lemma {:induction false} OrphanStop(db: Db, id: JobId, l: LeaseId)
    requires !Current(db, id, l)
    ensures ShouldStop(db, id, l)
  {
  }

  lemma {:induction false} AnswerStands(db: Db, db': Db, reqs: map<nat, Request>, h: Handling, h': Handling, m: nat)
    requires Evolves(db, db', m) && AnswerHonest(db, reqs, h) && h' == h.(phase := h'.phase)
    requires forall id :: id in reqs[h.req].held ==> reqs[h.req].held[id] in db.issued
    ensures AnswerHonest(db', reqs, h')
  {
    hide Evolves, Current, Asked;
    forall id | id in h'.cancel ensures Asked(db', id) { StillAsked(db, db', id, m); }
    forall id | id in h'.orphan ensures !Current(db', id, reqs[h.req].held[id]) {
      OrphanStop(db, id, reqs[h.req].held[id]);
      StillStop(db, db', id, reqs[h.req].held[id], m);
    }
  }

  // ------------------------------------------------------------ rows

  /** A statement that leaves a row cancelled found it so, cancelled it for the client, or ended it
      under a recorded request. */
  lemma {:induction false} OneCancel(db: Db, op: Op, id: JobId)
    requires RowsHonest(db) && !op.Claim? && !op.Renew?
    requires id in Apply(db, op).rows && Apply(db, op).rows[id].state.Cancelled?
    requires op.MarkCancelled? && id == op.id && id in db.rows && Fenced(db.rows[id], op.lease) ==> db.rows[id].cancelRequested
    ensures Apply(db, op).rows[id].cancelRequested
  {
    if id in db.rows { SimpleRow(db, op, id); }
  }

  lemma {:induction false} HonestRow(db: Db, id: JobId)
    requires RowsHonest(db) && id in db.rows
    ensures db.rows[id].state.Cancelled? ==> db.rows[id].cancelRequested
  {
  }

  lemma {:induction false} SimpleCancel(c: Config, s: Sys, t: Step, id: JobId)
    requires HonestStops(s) && Guard(c, s, t) && Simple(t)
    requires id in Next(c, s, t).db.rows && Next(c, s, t).db.rows[id].state.Cancelled?
    ensures Next(c, s, t).db.rows[id].cancelRequested
  {
    hide Guard, Next, Ops, Apply, RowsHonest, AnswerHonest;
    SimpleOps(c, s, t);
    var ops := Ops(c, s, t);
    if ops == [] {
      HonestRow(s.db, id);
    } else {
      var op := ops[0];
      assert op.MarkCancelled? ==> TaskHonest(s.db, t.lease, s.fleet.tasks[t.lease]);
      OneCancel(s.db, op, id);
    }
  }

  lemma {:induction false} RowsStep(c: Config, s: Sys, t: Step)
    requires Inv(s.db, c.maxAttempts) && HonestStops(s) && Guard(c, s, t)
    ensures RowsHonest(Next(c, s, t).db)
  {
    hide Guard, Next, Inv, TaskHonest, AnswerHonest, StillOwned, JobsOf, SweptRow, Ops;
    var db' := Next(c, s, t).db;
    forall id | id in db'.rows && db'.rows[id].state.Cancelled? ensures db'.rows[id].cancelRequested {
      if t.Poll? {
        PollRows(c, s, t, id);
      } else if t.Resume? {
        ResumeRows(c, s, t, id);
      } else if t.Sweep? {
        SweepRows(c, s, t);
        SweptRowIs(c, s.db.rows[id], s.clock);
      } else {
        SimpleCancel(c, s, t, id);
      }
    }
  }

  // ------------------------------------------------------------ answers

  lemma {:induction false} OrphansAre(db: Db, held: map<JobId, LeaseId>, reports: seq<Report>)
    requires Truthful(held, reports)
    ensures forall id :: id in Orphans(db, reports) ==> id in held && !Current(db, id, held[id])
  {
    if reports != [] { OrphansAre(db, held, reports[..|reports| - 1]); }
  }

  lemma {:induction false} NoticesAre(db: Db, reports: seq<Report>, pod: PodId, m: nat)
    requires Inv(db, m)
    ensures forall id :: id in CancelNotices(db, reports, pod) ==> Asked(db, id)
  {
    hide OneOwner, StillOwned;
    forall id | id in CancelNotices(db, reports, pod) ensures Asked(db, id) { assert JobOk(db, id, m); }
  }

  lemma {:induction false} NewAnswer(c: Config, s: Sys, t: Step)
    requires Inv(s.db, c.maxAttempts) && Known(s) && Guard(c, s, t) && t.Poll?
    requires Evolves(s.db, Next(c, s, t).db, c.maxAttempts)
    ensures AnswerHonest(Next(c, s, t).db, s.fleet.reqs, Next(c, s, t).desk.polls[t.k])
  {
    hide Ops, DiskAfter, FleetAfter, Handed, Apply, ApplyAll, Evolves, Orphans, CancelNotices, Inv, TasksOk, DeskOk, Current, SlotsAt,
         Truthful, ShouldPark;
    var r, h := s.fleet.reqs[t.n], Next(c, s, t).desk.polls[t.k];
    OrphansAre(s.db, r.held, r.reports);
    NoticesAre(s.db, r.reports, r.pod, c.maxAttempts);
    HeldIssued(s, r.held);
    AnswerStands(s.db, Next(c, s, t).db, s.fleet.reqs, h, h, c.maxAttempts);
  }

  lemma {:induction false} AnswerKnown(s: Sys, k: nat)
    requires Known(s) && k in s.desk.polls
    ensures s.desk.polls[k].req in s.fleet.reqs
    ensures forall id :: id in s.fleet.reqs[s.desk.polls[k].req].held ==> s.fleet.reqs[s.desk.polls[k].req].held[id] in s.db.issued
  {
    HeldIssued(s, s.fleet.reqs[s.desk.polls[k].req].held);
  }

  lemma {:induction false} PollKept(c: Config, s: Sys, t: Step, k: nat)
    requires Guard(c, s, t) && k in s.desk.polls
    ensures k in Next(c, s, t).desk.polls && Next(c, s, t).desk.polls[k] == s.desk.polls[k].(phase := Next(c, s, t).desk.polls[k].phase)
  {
    hide Ops, DiskAfter, FleetAfter, Handed, Swept, Apply, ApplyAll, Arrival, ResultAnswer, Capped;
  }

  lemma {:induction false} AnswersStep(c: Config, s: Sys, t: Step)
    requires Inv(s.db, c.maxAttempts) && Known(s) && HonestStops(s) && Guard(c, s, t) && AtGateway(t)
    requires Evolves(s.db, Next(c, s, t).db, c.maxAttempts)
    ensures forall k :: k in Next(c, s, t).desk.polls ==> AnswerHonest(Next(c, s, t).db, s.fleet.reqs, Next(c, s, t).desk.polls[k])
  {
    hide Guard, Next, Inv, Evolves, RowsHonest, TaskHonest, AnswerHonest, TasksOk, DeskOk, GrantsOk, ReportsAll;
    var s' := Next(c, s, t);
    forall k | k in s'.desk.polls ensures AnswerHonest(s'.db, s.fleet.reqs, s'.desk.polls[k]) {
      PollsAfter(c, s, t, k);
      if t.Poll? && k == t.k {
        NewAnswer(c, s, t);
      } else {
        PollKept(c, s, t, k);
        AnswerKnown(s, k);
        AnswerStands(s.db, s'.db, s.fleet.reqs, s.desk.polls[k], s'.desk.polls[k], c.maxAttempts);
      }
    }
  }

  // ------------------------------------------------------------ tasks

  lemma {:induction false} TasksStand(s: Sys, db': Db, m: nat)
    requires Known(s) && HonestStops(s) && Evolves(s.db, db', m)
    ensures forall l :: l in s.fleet.tasks ==> TaskHonest(db', l, s.fleet.tasks[l])
  {
    hide Evolves, ShouldStop, RowsHonest, AnswerHonest, FleetOk, DeskOk, Spent;
    forall l | l in s.fleet.tasks ensures TaskHonest(db', l, s.fleet.tasks[l]) {
      assert TaskHonest(s.db, l, s.fleet.tasks[l]);
      if s.fleet.tasks[l].flagged { StillStop(s.db, db', s.fleet.tasks[l].job, l, m); }
    }
  }

  /** A job the answer orphans or cancels is, as the agent holds it, a job to stop. */
  lemma {:induction false} ToldToStop(s: Sys, p: PodId, k: nat, l: LeaseId)
    requires Known(s) && HonestStops(s) && p in s.fleet.agents && k in s.desk.polls
    requires s.fleet.agents[p].poll == Some(s.desk.polls[k].req)
    requires l in s.fleet.tasks && Told(s.fleet.agents[p].jobs, s.desk.polls[k], l, s.fleet.tasks[l])
    ensures ShouldStop(s.db, s.fleet.tasks[l].job, l)
  {
    hide RowsHonest, TasksOk, DeskOk, ReportsAll, HeldKnown, TaskHonest;
    assert PollMatches(s.fleet, p) && AnswerHonest(s.db, s.fleet.reqs, s.desk.polls[k]);
  }

  lemma {:induction false} TookHonest(s: Sys, p: PodId, k: nat, f': Fleet)
    requires Known(s) && HonestStops(s) && Took(s, p, k, f')
    ensures forall l :: l in f'.tasks ==> TaskHonest(s.db, l, f'.tasks[l])
  {
    hide RowsHonest, AnswerHonest, DeskOk, ReportsAll, ShouldStop, NewTasks, StartAll, LeasesOf, JobsOf, DistinctLeases, TasksOk;
    var h, held := s.desk.polls[k], s.fleet.agents[p].jobs;
    var flagged := Flag(s.fleet.tasks, held, h);
    NeverStarted(s, p, k);
    StartedTasks(flagged, held, h.phase.assign, p);
    forall l | l in f'.tasks ensures TaskHonest(s.db, l, f'.tasks[l]) {
      if l in s.fleet.tasks {
        assert TaskHonest(s.db, l, s.fleet.tasks[l]);
        if Told(held, h, l, s.fleet.tasks[l]) { ToldToStop(s, p, k, l); }
      }
    }
  }

  /** Other agent steps flag nobody, and acknowledge a cancel only of flagged work. */
  lemma {:induction false} OthersHonest(c: Config, s: Sys, t: Step)
    requires HonestStops(s) && Guard(c, s, t) && !AtGateway(t) && !t.Receive?
    ensures forall l :: l in Next(c, s, t).fleet.tasks ==> TaskHonest(s.db, l, Next(c, s, t).fleet.tasks[l])
  {
    hide PollGuard, ResumeGuard, Swept, Ops, DeskAfter, DiskAfter, ReportsAll, ShouldStop, RowsHonest, AnswerHonest;
  }

  lemma {:induction false} SameAnswer(db: Db, reqs: map<nat, Request>, reqs': map<nat, Request>, h: Handling)
    requires AnswerHonest(db, reqs, h) && forall n :: n in reqs ==> n in reqs' && reqs'[n] == reqs[n]
    ensures AnswerHonest(db, reqs', h)
  {
  }

  lemma {:induction false} HonestStep(c: Config, s: Sys, t: Step)
    requires Inv(s.db, c.maxAttempts) && Known(s) && HonestStops(s) && Guard(c, s, t)
    requires Evolves(s.db, Next(c, s, t).db, c.maxAttempts)
    ensures HonestStops(Next(c, s, t))
  {
    hide Guard, Next, Inv, Evolves, RowsHonest, TaskHonest, AnswerHonest, Known;
    var s' := Next(c, s, t);
    RowsStep(c, s, t);
    if AtGateway(t) {
      FleetSame(c, s, t);
      AnswersStep(c, s, t);
      TasksStand(s, s'.db, c.maxAttempts);
    } else {
      DeskSame(c, s, t);
      RequestsKept(c, s, t);
      forall k | k in s'.desk.polls ensures AnswerHonest(s'.db, s'.fleet.reqs, s'.desk.polls[k]) {
        SameAnswer(s.db, s.fleet.reqs, s'.fleet.reqs, s.desk.polls[k]);
      }
      if t.Receive? {
        TakenBy(c, s, t);
        TookHonest(s, t.pod, t.k, s'.fleet);
      } else {
        OthersHonest(c, s, t);
      }
    }
  }
}
