/** One run from submission to download, under any configuration: what `Behaviours` proves of all runs
    is not said of none. Its parts serve other runs too. */
module Witness {
  import opened Types
  import opened JobTable
  import opened Store
  import opened Claims
  import opened Artifacts
  import opened AgentRoutes
  import opened VideoRoutes
  import opened Protocol
  import opened Runs
  import opened Behaviours
  import opened AgentSide
  import Handlers

  const MODEL: ModelId := 5
  const JOB := NewJob(0, MODEL, Params("832x480", 5), 0, 1000)

  /** Job 0 is the only one, and waits. */
  predicate Waits(s: Sys, row: Job) {
    s.db.rows == map[0 := row] && row.state.Queued? && row.id == 0 && row.model == MODEL && s.desk.draining == {}
  }

  lemma {:induction false} Submit(c: Config)
    ensures Guard(c, START, Step.Create(JOB)) && Waits(Next(c, START, Step.Create(JOB)), NewRow(JOB))
    ensures var s := Next(c, START, Step.Create(JOB));
      s.db.issued == {} && s.desk.polls == map[] && s.disk == START.disk && s.fleet == START.fleet
  {
    ApplyOne(EMPTY, Op.Create(JOB));
  }

  lemma {:induction false} Start(c: Config, s: Sys, p: PodId)
    ensures Guard(c, s, Boot(p))
    ensures Next(c, s, Boot(p)) == s.(fleet := s.fleet.(agents := s.fleet.agents[p := Worker(map[], None)]))
  {
    assert s.hist + [] == s.hist;
  }

  lemma {:induction false} Send(c: Config, s: Sys, p: PodId, n: nat)
    requires n !in s.fleet.reqs && p in s.fleet.agents && s.fleet.agents[p] == Worker(map[], None)
    ensures Guard(c, s, SendPoll(p, n, [], true))
    ensures Next(c, s, SendPoll(p, n, [], true)) ==
      s.(fleet := s.fleet.(agents := s.fleet.agents[p := Worker(map[], Some(n))], reqs := s.fleet.reqs[n := Request(p, map[], [], true)]))
  {
    assert s.hist + [] == s.hist;
  }

  /** An agent starts, holding nothing, and polls. */
  lemma {:induction false} Ask(c: Config, s: Sys, p: PodId, n: nat) returns (s': Sys)
    requires n !in s.fleet.reqs
    ensures Walks(c, s, [Boot(p), SendPoll(p, n, [], true)], s')
    ensures s' == s.(fleet := s.fleet.(agents := s.fleet.agents[p := Worker(map[], Some(n))],
                                       reqs := s.fleet.reqs[n := Request(p, map[], [], true)]))
  {
    hide Walks, Guard, Next;
    Start(c, s, p);
    Send(c, Next(c, s, Boot(p)), p, n);
    TwoSteps(c, s, Boot(p), SendPoll(p, n, [], true));
    s' := Next(c, Next(c, s, Boot(p)), SendPoll(p, n, [], true));
  }

  lemma {:induction false} OneGiven(db: Db, one: seq<Assignment>, pod: PodId, e: int, now: int)
    requires |one| == 1 && one[0].jobId in db.rows && db.rows[one[0].jobId].state.Queued? && one[0].leaseId !in db.issued
    ensures ClaimOps(one, pod, e, now) == [ClaimOp(one[0], pod, e, now)] && Claimable(db, one)
    ensures LeasesOf(one) == {one[0].leaseId}
  {
    assert one[..0] == [] && Claimable(db, []);
  }

  lemma {:induction false} OneRunnable(rows: seq<Job>)
    requires |rows| == 1
    ensures Runnable(rows, Some(rows[0].model)) == rows
  {
    assert rows[..0] == [];
  }

  lemma {:induction false} OneNames(one: seq<Assignment>, rows: seq<Job>)
    requires |one| == 1 && |rows| == 1 && one[0].jobId == rows[0].id
    ensures Names(one, rows)
  {
    assert one[..0] == [] && rows[..0] == [];
    assert Names([], []);
  }

  lemma {:induction false} OneNamed(one: seq<Assignment>, rows: seq<Job>, slots: nat)
    requires |one| == 1 && |rows| == 1 && one[0].jobId == rows[0].id && slots >= 1
    ensures Names(one, rows) && Names(one, Picked(rows, Some(rows[0].model), slots))
  {
    hide Names, Runnable;
    OneRunnable(rows);
    OneNames(one, rows);
  }

  lemma {:induction false} OneQueued(rows: map<JobId, Job>, row: Job)
    requires rows == map[row.id := row] && row.state.Queued?
    ensures QueueWindow(rows, WINDOW, [row])
  {
  }

  /** The poll's own reading of the queue. */
  lemma {:induction false} Offer(c: Config, s: Sys, row: Job, p: PodId, n: nat)
    requires Waits(s, row) && n in s.fleet.reqs && s.fleet.reqs[n] == Request(p, map[], [], true)
    ensures Heartbeat(c, s, n) == [] && SlotsAt(c, s, n, Some(MODEL)) == Room(c, p)
    ensures QueueWindow(s.db.rows, WINDOW, [row]) && Orphans(s.db, []) == [] && CancelNotices(s.db, [], p) == {}
  {
    hide Room, QueueWindow;
    OneQueued(s.db.rows, row);
    assert StillOwned(s.db, []) == {};
  }

  lemma {:induction false} MayGive(c: Config, s: Sys, row: Job, p: PodId, n: nat, k: nat, l: LeaseId)
    requires Waits(s, row) && n in s.fleet.reqs && s.fleet.reqs[n] == Request(p, map[], [], true)
    requires k !in s.desk.polls && l !in s.db.issued
    ensures Guard(c, s, Step.Poll(k, n, Some(MODEL), [Assignment(0, l)], [row], false))
    ensures Ops(c, s, Step.Poll(k, n, Some(MODEL), [Assignment(0, l)], [row], false))
      == [ClaimOp(Assignment(0, l), p, s.clock + c.leaseTtlMs, s.clock)]
  {
    hide Room, QueueWindow, Names, Picked, ClaimOps, Claimable, SlotsAt, Heartbeat, LeasesOf, CancelNotices, Orphans, Apply, Runnable;
    var given := [Assignment(0, l)];
    Offer(c, s, row, p, n);
    OneGiven(s.db, given, p, s.clock + c.leaseTtlMs, s.clock);
    OneNamed(given, [row], Room(c, p));
    var claim := ClaimOp(given[0], p, s.clock + c.leaseTtlMs, s.clock);
    assert [] + [claim] == [claim];
    assert ApplyAll(s.db, []) == s.db;
  }

  /** The last poll to arrive is answered with the job. */
  predicate Answers(s: Sys, k: nat, n: nat, l: LeaseId) {
    && k in s.desk.polls && s.desk.polls[k].req == n && s.desk.polls[k].orphan == [] && s.desk.polls[k].cancel == {}
    && s.desk.polls[k].phase == Answered([Assignment(0, l)])
  }

  lemma {:induction false} Give(c: Config, s: Sys, row: Job, p: PodId, n: nat, k: nat, l: LeaseId)
    requires Waits(s, row) && n in s.fleet.reqs && s.fleet.reqs[n] == Request(p, map[], [], true)
    requires k !in s.desk.polls && l !in s.db.issued
    requires Guard(c, s, Step.Poll(k, n, Some(MODEL), [Assignment(0, l)], [row], false))
    requires Ops(c, s, Step.Poll(k, n, Some(MODEL), [Assignment(0, l)], [row], false))
      == [ClaimOp(Assignment(0, l), p, s.clock + c.leaseTtlMs, s.clock)]
    ensures var s' := Next(c, s, Step.Poll(k, n, Some(MODEL), [Assignment(0, l)], [row], false));
      && s'.db.rows == map[0 := Updated(row, ClaimOp(Assignment(0, l), p, s.clock + c.leaseTtlMs, s.clock))]
      && s'.db.issued == s.db.issued + {l} && s'.disk == s.disk && s'.fleet == s.fleet && s'.desk.draining == {}
      && s'.desk.polls.Keys == s.desk.polls.Keys + {k} && Answers(s', k, n, l)
  {
    hide Room, PollGuard, Ops, SlotsAt, LeasesOf, CancelNotices, Orphans, Touching, Granting, StillOwned, JobsOf;
    Offer(c, s, row, p, n);
    ApplyOne(s.db, ClaimOp(Assignment(0, l), p, s.clock + c.leaseTtlMs, s.clock));
  }

  lemma {:induction false} Take(c: Config, s: Sys, p: PodId, n: nat, k: nat, l: LeaseId)
    requires p in s.fleet.agents && s.fleet.agents[p] == Worker(map[], Some(n)) && l !in s.fleet.tasks
    requires Answers(s, k, n, l)
    ensures Guard(c, s, Step.Receive(p, k))
    ensures Next(c, s, Step.Receive(p, k)) ==
      s.(fleet := s.fleet.(agents := s.fleet.agents[p := Worker(map[0 := l], None)],
                           tasks := s.fleet.tasks[l := Task(0, p, None, false, None)]))
  {
    var given := [Assignment(0, l)];
    assert given[..0] == [] && StartAll(map[], []) == map[] && NewTasks(s.fleet.tasks, map[], [], p) == s.fleet.tasks;
    assert Flag(s.fleet.tasks, map[], s.desk.polls[k]) == s.fleet.tasks;
    assert s.hist + [] == s.hist;
  }

  lemma {:induction false} Render(c: Config, s: Sys, p: PodId, l: LeaseId, body: Bytes)
    requires p in s.fleet.agents && s.fleet.agents[p].jobs == map[0 := l]
    requires l in s.fleet.tasks && s.fleet.tasks[l] == Task(0, p, None, false, None)
    ensures Guard(c, s, StartUpload(p, 0, body))
    ensures Next(c, s, StartUpload(p, 0, body)) ==
      s.(fleet := s.fleet.(tasks := s.fleet.tasks[l := Task(0, p, Some(body), false, None)]))
  {
    assert s.hist + [] == s.hist;
  }

  /** Agent `p` holds job 0 under lease `l`, has rendered it and reported `outcome` so far. */
  predicate Works(s: Sys, p: PodId, l: LeaseId, body: Bytes, outcome: Option<Outcome>) {
    && s.db.rows.Keys == {0} && Current(s.db, 0, l)
    && p in s.fleet.agents && s.fleet.agents[p].jobs == map[0 := l]
    && l in s.fleet.tasks && s.fleet.tasks[l] == Task(0, p, Some(body), false, outcome)
  }

  lemma {:induction false} TakeAndRender(c: Config, s: Sys, p: PodId, n: nat, k: nat, l: LeaseId, body: Bytes) returns (s': Sys)
    requires p in s.fleet.agents && s.fleet.agents[p] == Worker(map[], Some(n)) && l !in s.fleet.tasks && Answers(s, k, n, l)
    ensures Walks(c, s, [Step.Receive(p, k), StartUpload(p, 0, body)], s')
    ensures s' == s.(fleet := s.fleet.(agents := s.fleet.agents[p := Worker(map[0 := l], None)],
                                       tasks := s.fleet.tasks[l := Task(0, p, Some(body), false, None)]))
  {
    hide Guard, Next, Walks, Answers;
    var t3, t4 := Step.Receive(p, k), StartUpload(p, 0, body);
    Take(c, s, p, n, k, l);
    Render(c, Next(c, s, t3), p, l, body);
    TwoSteps(c, s, t3, t4);
    s' := Next(c, Next(c, s, t3), t4);
  }

  lemma {:induction false} NowWorks(s: Sys, row: Job, p: PodId, l: LeaseId, body: Bytes, e: int, now: int)
    requires s.db.rows == map[0 := Updated(row, ClaimOp(Assignment(0, l), p, e, now))] && row.id == 0 && row.model == MODEL
    requires p in s.fleet.agents && s.fleet.agents[p].jobs == map[0 := l]
    requires l in s.fleet.tasks && s.fleet.tasks[l] == Task(0, p, Some(body), false, None)
    ensures Works(s, p, l, body, None)
    ensures s.db.rows[0].attempts == row.attempts + 1 && s.db.rows[0].model == MODEL && s.db.rows[0].id == 0
  {
  }

  /** From a waiting job to a rendered one. */
  lemma {:induction false} HandOut(c: Config, s: Sys, row: Job, p: PodId, n: nat, k: nat, l: LeaseId, body: Bytes)
    returns (ts: seq<Step>, s': Sys)
    requires Waits(s, row) && n !in s.fleet.reqs && k !in s.desk.polls && l !in s.db.issued && l !in s.fleet.tasks
    ensures Walks(c, s, ts, s') && Works(s', p, l, body, None) && s'.disk == s.disk
    ensures 0 in s'.db.rows && s'.db.rows[0].attempts == row.attempts + 1 && s'.db.rows[0].model == MODEL && s'.db.rows[0].id == 0
    ensures s'.db.issued == s.db.issued + {l} && s'.desk.draining == {}
    ensures s'.fleet.reqs.Keys == s.fleet.reqs.Keys + {n} && s'.desk.polls.Keys == s.desk.polls.Keys + {k}
    ensures s'.fleet.tasks == s.fleet.tasks[l := Task(0, p, Some(body), false, None)]
  {
    hide Guard, Next, Walks, Answers, Works, Updated, Ops;
    var s1 := Ask(c, s, p, n);
    MayGive(c, s1, row, p, n, k, l);
    Give(c, s1, row, p, n, k, l);
    var t2 := Step.Poll(k, n, Some(MODEL), [Assignment(0, l)], [row], false);
    var s2 := Next(c, s1, t2);
    s' := TakeAndRender(c, s2, p, n, k, l, body);
    var first, last := [Boot(p), SendPoll(p, n, [], true)], [Step.Receive(p, k), StartUpload(p, 0, body)];
    WalksOne(c, s1, t2);
    WalksOn(c, s1, [t2], s2, last, s');
    WalksOn(c, s, first, s1, [t2] + last, s');
    ts := first + ([t2] + last);
    NowWorks(s', row, p, l, body, s1.clock + c.leaseTtlMs, s1.clock);
  }

  lemma {:induction false} Reports(c: Config, s: Sys, p: PodId, l: LeaseId, body: Bytes, o: Outcome)
    requires Works(s, p, l, body, None) && (o.Broke? || (l in s.disk.acked && o == SuccessOf(body, c.hash)))
    ensures Guard(c, s, Finish(p, 0, o)) && Works(Next(c, s, Finish(p, 0, o)), p, l, body, Some(o))
    ensures Next(c, s, Finish(p, 0, o)) == s.(fleet := s.fleet.(tasks := s.fleet.tasks[l := s.fleet.tasks[l].(outcome := Some(o))]))
  {
    assert s.hist + [] == s.hist;
  }

  /** The success the agent reports completes the job. */
  lemma {:induction false} Deliver(c: Config, s: Sys, p: PodId, l: LeaseId, body: Bytes)
    requires Works(s, p, l, body, Some(SuccessOf(body, c.hash)))
    ensures Guard(c, s, Step.Result(l))
    ensures var s' := Next(c, s, Step.Result(l));
      && s'.db.rows.Keys == {0} && s'.db.rows[0].state.Completed? && s'.disk == s.disk && s'.fleet == s.fleet
      && s'.db.rows[0].artifacts == [Artifact(OUTPUT, Some(|body|), Some(c.hash(body)))]
  {
    hide SafeFilename;
    SafeOutput();
    ApplyOne(s.db, Op.Complete(0, l, [Artifact(OUTPUT, Some(|body|), Some(c.hash(body)))], s.clock));
  }

  lemma {:induction false} Conclude(c: Config, s: Sys, p: PodId, l: LeaseId, body: Bytes) returns (ts: seq<Step>, s': Sys)
    requires Works(s, p, l, body, None) && l in s.disk.acked
    ensures Walks(c, s, ts, s') && s'.disk == s.disk && s'.db.rows.Keys == {0} && s'.db.rows[0].state.Completed?
    ensures s'.db.rows[0].artifacts == [Artifact(OUTPUT, Some(|body|), Some(c.hash(body)))]
    ensures s'.fleet.tasks.Keys == s.fleet.tasks.Keys
  {
    hide Guard, Next, Walks;
    var o := SuccessOf(body, c.hash);
    Reports(c, s, p, l, body, o);
    Deliver(c, Next(c, s, Finish(p, 0, o)), p, l, body);
    TwoSteps(c, s, Finish(p, 0, o), Step.Result(l));
    ts, s' := [Finish(p, 0, o), Step.Result(l)], Next(c, Next(c, s, Finish(p, 0, o)), Step.Result(l));
  }

  ghost function Next0(c: Config): Sys {
    Submit(c);
    Next(c, START, Step.Create(JOB))
  }

  lemma {:induction false} Begin(c: Config)
    requires c.maxAttempts >= 1
    ensures Behaviour(c, [START, Next0(c)], [Step.Create(JOB)])
  {
    hide Guard, Next;
    Submit(c);
  }

  /** A run up to the moment agent 1 has rendered the job under lease 0. */
  lemma {:induction false} Prepared(c: Config, body: Bytes) returns (ss: seq<Sys>, ts: seq<Step>)
    requires c.maxAttempts >= 1
    ensures Behaviour(c, ss, ts) && Works(ss[|ts|], 1, 0, body, None) && ss[|ts|].disk == START.disk
    ensures var s := ss[|ts|];
      && s.db.rows[0].attempts == 1 && s.db.rows[0].model == MODEL && s.db.rows[0].id == 0 && s.db.issued == {0}
      && s.desk.draining == {} && s.fleet.reqs.Keys == {0} && s.desk.polls.Keys == {0} && s.fleet.tasks.Keys == {0}
  {
    hide Guard, Next, Walks;
    Submit(c);
    Begin(c);
    var more, s := HandOut(c, Next0(c), NewRow(JOB), 1, 0, 0, 0, body);
    ts := [Step.Create(JOB)] + more;
    ss := WalkIsRun(c, [START, Next0(c)], [Step.Create(JOB)], more, s);
  }

  /** Under every configuration some run submits a job, hands it out, takes its upload and result, and
      serves the content. */
  lemma {:induction false} SomeRunDelivers(c: Config) returns (ss: seq<Sys>, ts: seq<Step>)
    requires c.maxAttempts >= 1
    ensures Behaviour(c, ss, ts)
    ensures var end := ss[|ss| - 1]; ContentOf(end.db.rows, end.disk.files, 0) == Content([], Some(c.hash([])))
  {
    hide Guard, Next, Walks, Behaviour, Apply, SafeFilename;
    SafeOutput();
    ss, ts := Prepared(c, []);
    Lengths(c, ss, ts);
    var s := ss[|ts|];
    var reply := UploadReply.Accepted(Artifacts.Stored(0, c.hash([])));
    var more, s1 := Handlers.UploadTakesSteps(c, s, 0, 0, reply, Apply(s.db, UploadNote(s.db, 0)), s.disk.files[(0, OUTPUT) := []]);
    NoteOnly(s.db, 0, UploadNote(s.db, 0).event);
    var last, s2 := Conclude(c, s1, 1, 0, []);
    WalksOn(c, s, more, s1, last, s2);
    ss := WalkIsRun(c, ss, ts, more + last, s2);
    ts := ts + (more + last);
    Lengths(c, ss, ts);
  }
}
