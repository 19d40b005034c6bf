/** Which poll may stay parked beside a queued job it could run: only one that looked past that job when
    it arrived, because the claim loop reads no more than a window of the queue. */
module Wakeups {
  import opened Types
  import opened JobTable
  import opened TableInvariant
  import opened Store
  import opened Claims
  import opened AgentRoutes
  import opened Reaper
  import opened RowBlocks
  import opened Protocol
  import opened Runs
  import opened StepRows

  function QueuedIds(rows: map<JobId, Job>): set<JobId> {
    set id | id in rows && rows[id].state.Queued?
  }

  predicate QueueFits(db: Db) {
    |QueuedIds(db.rows)| <= WINDOW
  }

  predicate Suits(pod: Pod, row: Job) {
    Some(row.model) == pod.model
  }

  /** Poll `k` is parked beside a queued job that suits it. */
  predicate SleepsBeside(s: Sys, k: nat, id: JobId) {
    && k in s.desk.polls && s.desk.polls[k].phase.Parked? && id in QueuedIds(s.db.rows)
    && Suits(s.desk.polls[k].pod, s.db.rows[id])
  }

  ghost predicate NoLostWakeup(s: Sys) {
    forall k, id :: !SleepsBeside(s, k, id)
  }

  // ------------------------------------------------------------ parking

  lemma {:induction false} Fewer<T>(a: set<T>, b: set<T>, x: T)
    requires a <= b && x in b && x !in a
    ensures |a| < |b|
  {
    assert b == a + (b - a) && x in b - a;
  }

  /** A queue that fits is wholly in the window. */
  lemma {:induction false} WindowIsAll(db: Db, window: seq<Job>, id: JobId)
    requires QueueWindow(db.rows, WINDOW, window) && QueueFits(db) && id in QueuedIds(db.rows)
    requires db.rows[id].id == id
    ensures db.rows[id] in window
  {
    AsMembers(db.rows, window);
    MembersAt(db.rows, window);
    CountIds(db, window, 0);
    if db.rows[id] !in window { Fewer(IdsOf(window), QueuedIds(db.rows), id); }
  }

  /** With slots to spare, nothing is handed out exactly when no job of the window suits the pod. */
  lemma {:induction false} NothingSuits(mid: Db, at: Db, pod: Pod, slots: nat, e: int, now: int, assign: seq<Assignment>, window: seq<Job>)
    requires Handed(mid, at, pod, slots, e, now, assign, window) && slots > 0
    ensures assign == [] <==> forall x :: x in window ==> !Suits(pod, x)
  {
    hide ApplyAll, Claimable;
    NamesAt(assign, Picked(window, pod.model, slots));
    RunnableMembers(window, pod.model);
    if assign != [] { assert Runnable(window, pod.model)[0] in window; }
  }

  /** The heartbeat leaves the queue as it was. */
  lemma {:induction false} SameQueue(c: Config, s: Sys, t: Step)
    requires Guard(c, s, t) && t.Poll? && t.n in s.fleet.reqs
    ensures QueuedIds(Midway(c, s, t.n).rows) == QueuedIds(s.db.rows)
  {
    hide Guard, Next, StillOwned, JobsOf, Midway;
    var mid := Midway(c, s, t.n);
    forall x | x in s.db.rows || x in mid.rows
      ensures x in mid.rows && x in s.db.rows && (mid.rows[x].state.Queued? <==> s.db.rows[x].state.Queued?) {
      PollRows(c, s, t, x);
      OwnedInFlight(s.db, s.fleet.reqs[t.n].reports);
    }
  }

  lemma {:induction false} NothingAssigned(assign: seq<Assignment>)
    ensures assign == [] ==> JobsOf(assign) == {}
  {
  }

  /** What the claim loop of an arriving poll reads. */
  lemma {:induction false} ArrivalReads(c: Config, s: Sys, t: Step)
    requires Guard(c, s, t) && t.Poll?
    ensures t.n in s.fleet.reqs && t.k in Next(c, s, t).desk.polls
    ensures var h, slots := Next(c, s, t).desk.polls[t.k], SlotsAt(c, s, t.n, t.model);
      && h.pod == PodAt(c, s, t.n, t.model) && h.slots == slots
      && (h.phase.Parked? <==> t.assign == [] && slots > 0 && t.patient)
      && (slots > 0 ==> QueueWindow(Midway(c, s, t.n).rows, WINDOW, t.window)
                        && (t.assign == [] <==> forall x :: x in t.window ==> !Suits(h.pod, x)))
  {
    hide Apply, ApplyAll, DiskAfter, FleetAfter, Ops, StillOwned, CancelNotices, Orphans, QueueWindow, Names, Picked, Claimable;
    var mid := Midway(c, s, t.n);
    var pod, slots := PodAt(c, s, t.n, t.model), SlotsAt(c, s, t.n, t.model);
    if slots > 0 {
      NothingSuits(mid, ApplyAll(mid, Claiming(c, s, pod.podId, t.assign)), pod, slots, s.clock + c.leaseTtlMs, s.clock, t.assign, t.window);
    }
  }

  /** A queued row looks the same after the heartbeat of a poll. */
  lemma {:induction false} QueuedMidway(c: Config, s: Sys, t: Step, id: JobId)
    requires Guard(c, s, t) && t.Poll? && t.n in s.fleet.reqs
    ensures id in QueuedIds(s.db.rows) ==> id in Midway(c, s, t.n).rows && Midway(c, s, t.n).rows[id] == s.db.rows[id]
    ensures t.assign == [] && id in QueuedIds(Next(c, s, t).db.rows) ==>
      id in QueuedIds(s.db.rows) && Next(c, s, t).db.rows[id] == s.db.rows[id]
    ensures t.assign == [] && id in QueuedIds(s.db.rows) ==> id in QueuedIds(Next(c, s, t).db.rows)
  {
    hide Guard, Next, StillOwned, JobsOf, Midway;
    PollRows(c, s, t, id);
    NothingAssigned(t.assign);
    OwnedInFlight(s.db, s.fleet.reqs[t.n].reports);
  }

  /** A patient poll with slots parks beside a queued job that suits it exactly when the window, the
      oldest hundred queued jobs, holds none that does. */
  lemma {:induction false} ParksBesideWork(c: Config, s: Sys, t: Step, id: JobId)
    requires Guard(c, s, t) && t.Poll? && t.patient && t.n in s.fleet.reqs && SlotsAt(c, s, t.n, t.model) > 0
    requires id in QueuedIds(s.db.rows) && Suits(PodAt(c, s, t.n, t.model), s.db.rows[id])
    ensures QueueWindow(Midway(c, s, t.n).rows, WINDOW, t.window)
    ensures var s' := Next(c, s, t);
      t.k in s'.desk.polls && s'.desk.polls[t.k].phase.Parked? && id in QueuedIds(s'.db.rows)
      <==> forall x :: x in t.window ==> !Suits(PodAt(c, s, t.n, t.model), x)
  {
    hide Guard, Next, Midway, QueuedIds, Suits, QueueWindow;
    ArrivalReads(c, s, t);
    QueuedMidway(c, s, t, id);
  }

  lemma {:induction false} InWindow(db: Db, window: seq<Job>, id: JobId)
    requires QueueWindow(db.rows, WINDOW, window) && id in IdsOf(window)
    ensures id in db.rows && db.rows[id] in window
  {
    var i := IdIndex(window, id);
  }

  /** A poll that parks beside a job that suits it has looked past that job: it was queued already, and
      outside the window. */
  lemma {:induction false} ParkedFinds(c: Config, s: Sys, t: Step, id: JobId)
    requires Guard(c, s, t) && t.Poll? && t.k in Next(c, s, t).desk.polls
    requires Next(c, s, t).desk.polls[t.k].phase.Parked? && id in QueuedIds(Next(c, s, t).db.rows)
    requires Suits(Next(c, s, t).desk.polls[t.k].pod, Next(c, s, t).db.rows[id])
    ensures id in QueuedIds(s.db.rows) && s.db.rows[id] == Next(c, s, t).db.rows[id] && id !in IdsOf(t.window)
    ensures t.n in s.fleet.reqs && QueueWindow(Midway(c, s, t.n).rows, WINDOW, t.window)
    ensures forall x :: x in t.window ==> !Suits(Next(c, s, t).desk.polls[t.k].pod, x)
  {
    hide Guard, Next, Midway, QueuedIds, Suits, QueueWindow, IdsOf;
    ArrivalReads(c, s, t);
    QueuedMidway(c, s, t, id);
    if id in IdsOf(t.window) { InWindow(Midway(c, s, t.n), t.window, id); }
  }

  lemma {:induction false} WindowIds(rows: map<JobId, Job>, window: seq<Job>)
    requires QueueWindow(rows, WINDOW, window)
    ensures forall x :: x in window ==> x.id in IdsOf(window)
  {
    AsMembers(rows, window);
    MembersAt(rows, window);
  }

  /** Nothing is outside the window of a queue that fits it. */
  lemma {:induction false} NothingPastWindow(c: Config, s: Sys, t: Step, id: JobId)
    requires Inv(s.db, c.maxAttempts) && Guard(c, s, t) && t.Poll? && t.n in s.fleet.reqs && QueueFits(s.db)
    requires id in QueuedIds(s.db.rows) && QueueWindow(Midway(c, s, t.n).rows, WINDOW, t.window)
    ensures id in IdsOf(t.window)
  {
    hide Guard, Inv, QueueWindow, IdsOf, Members, Midway;
    var mid := Midway(c, s, t.n);
    SameQueue(c, s, t);
    QueuedMidway(c, s, t, id);
    RowIsOk(s.db, id, c.maxAttempts);
    WindowIsAll(mid, t.window, id);
    WindowIds(mid.rows, t.window);
  }

  // ------------------------------------------------------------ queueing

  /** The step put a job (back) into the queue. */
  predicate Enqueued(s: Sys, db': Db, id: JobId) {
    id in QueuedIds(db'.rows) && !(id in QueuedIds(s.db.rows) && db'.rows[id].model == s.db.rows[id].model)
  }

  /** A sweep that requeues anything counts it, and so kicks. */
  lemma {:induction false} RequeueCounted(c: Config, s: Sys, s1: seq<Job>, id: JobId)
    requires Lists(s.db.rows, ExpiredAt(s.clock), s1)
    requires id in s.db.rows && LeaseExpired(s.db.rows[id], s.clock) && s.db.rows[id].attempts < c.maxAttempts
    ensures |s1| > Capped(s1, c.maxAttempts)
  {
    CountIds(s.db, s1, c.maxAttempts);
    var capped := CappedIds(s1, c.maxAttempts);
    assert id in IdsOf(s1) && id !in capped;
    Fewer(capped, IdsOf(s1), id);
  }

  lemma {:induction false} SweepKicks(c: Config, s: Sys, t: Step, id: JobId)
    requires Inv(s.db, c.maxAttempts) && Guard(c, s, t) && t.Sweep? && Enqueued(s, Next(c, s, t).db, id)
    ensures Next(c, s, t).desk.polls == Kicked(s.desk.polls)
  {
    hide Apply, ApplyAll, DiskAfter, FleetAfter, SweptRow, JobOk, Capped, SweepOps, Lists, Blocks, LeasePass, DeadlinePass, CancelPass;
    SweepRows(c, s, t);
    SweptRowIs(c, s.db.rows[id], s.clock);
    SweptPasses(s.db, Next(c, s, t).db, t.s1, t.s2, t.s3, s.clock, c.maxAttempts, c.cancelGraceMs);
    RequeueCounted(c, s, t.s1, id);
  }

  /** One statement puts a job into the queue only by creating or requeueing it. */
  lemma {:induction false} OneEnqueue(db: Db, op: Op, id: JobId)
    requires !op.Claim? && !op.Renew? && id in QueuedIds(Apply(db, op).rows)
    ensures op.Create? || (op.Requeue? && op.id == id && Enabled(db, op))
         || (id in QueuedIds(db.rows) && Apply(db, op).rows[id].model == db.rows[id].model)
  {
    if id in db.rows { SimpleRow(db, op, id); }
  }

  lemma {:induction false} CreateKicks(c: Config, s: Sys, t: Step)
    requires Guard(c, s, t) && t.Create?
    ensures Next(c, s, t).desk.polls == Kicked(s.desk.polls)
  {
    hide DiskAfter, FleetAfter, Ops;
  }

  lemma {:induction false} RequeueKicks(c: Config, s: Sys, t: Step, op: Op)
    requires Guard(c, s, t) && t.Result? && op in Ops(c, s, t) && op.Requeue?
    ensures Next(c, s, t).desk.polls == Kicked(s.desk.polls)
  {
    hide PollGuard, ResumeGuard, Swept, DiskAfter, FleetAfter, Apply, ApplyAll;
  }

  lemma {:induction false} SimpleKicks(c: Config, s: Sys, t: Step, id: JobId)
    requires Inv(s.db, c.maxAttempts) && Guard(c, s, t) && Simple(t) && Enqueued(s, Next(c, s, t).db, id)
    ensures Next(c, s, t).desk.polls == Kicked(s.desk.polls)
  {
    hide Next, Apply, ApplyAll, Guard, Ops, JobOk, OneOwner;
    SimpleOps(c, s, t);
    assert Ops(c, s, t) != [];
    var op := Ops(c, s, t)[0];
    OneEnqueue(s.db, op, id);
    if op.Create? {
      CreateKicks(c, s, t);
    } else {
      RequeueKicks(c, s, t, op);
    }
  }

  lemma {:induction false} EnqueueKicks(c: Config, s: Sys, t: Step, id: JobId)
    requires Inv(s.db, c.maxAttempts) && Guard(c, s, t) && Enqueued(s, Next(c, s, t).db, id)
    ensures Next(c, s, t).desk.polls == Kicked(s.desk.polls)
  {
    hide Next, Inv, Guard, StillOwned, JobsOf, Kicked;
    if t.Poll? {
      PollRows(c, s, t, id);
    } else if t.Resume? {
      ResumeRows(c, s, t, id);
    } else if t.Sweep? {
      SweepKicks(c, s, t, id);
    } else {
      SimpleKicks(c, s, t, id);
    }
  }

  /** Still parked after the step: parked before, or just arrived. */
  lemma {:induction false} StillParked(c: Config, s: Sys, t: Step, k: nat)
    requires Guard(c, s, t) && k in Next(c, s, t).desk.polls && Next(c, s, t).desk.polls[k].phase.Parked?
    ensures (t.Poll? && k == t.k) || (k in s.desk.polls && s.desk.polls[k] == Next(c, s, t).desk.polls[k])
  {
    hide Ops, DiskAfter, FleetAfter, Handed, Swept, Apply, ApplyAll, Arrival, ResultAnswer, Capped;
  }

  /** Every enqueued job wakes all parked polls, so a poll parked beside a job that suits it was so
      before the step, or has just arrived and looked past the job. */
  lemma {:induction false} SleepsOnlyPastWindow(c: Config, s: Sys, t: Step, k: nat, id: JobId)
    requires Inv(s.db, c.maxAttempts) && Guard(c, s, t) && SleepsBeside(Next(c, s, t), k, id)
    ensures id in QueuedIds(s.db.rows) && s.db.rows[id].model == Next(c, s, t).db.rows[id].model
    ensures if t.Poll? && k == t.k then
        id !in IdsOf(t.window) && forall x :: x in t.window ==> !Suits(Next(c, s, t).desk.polls[k].pod, x)
      else SleepsBeside(s, k, id) && s.desk.polls[k] == Next(c, s, t).desk.polls[k]
  {
    hide Guard, Next, Inv, IdsOf, QueueWindow;
    var s' := Next(c, s, t);
    StillParked(c, s, t, k);
    if t.Poll? && k == t.k {
      ParkedFinds(c, s, t, id);
    } else if Enqueued(s, s'.db, id) {
      EnqueueKicks(c, s, t, id);
    }
  }

  /** Where every arriving poll finds the queue within the window, no wake-up is lost. */
  lemma {:induction false} NoLostWakeupStep(c: Config, s: Sys, t: Step)
    requires Inv(s.db, c.maxAttempts) && NoLostWakeup(s) && Guard(c, s, t) && (t.Poll? ==> QueueFits(s.db))
    ensures NoLostWakeup(Next(c, s, t))
  {
    hide Guard, Next, Inv, QueueFits, IdsOf, QueueWindow;
    var s' := Next(c, s, t);
    forall k, id | SleepsBeside(s', k, id) ensures false {
      SleepsOnlyPastWindow(c, s, t, k, id);
      if t.Poll? && k == t.k {
        ParkedFinds(c, s, t, id);
        NothingPastWindow(c, s, t, id);
      }
    }
  }
}
