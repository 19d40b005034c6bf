/** The two ways a poll comes to sleep beside a job it could run, as runs of the system. */
module Sleepers {
  import opened Types
  import opened JobTable
  import opened Store
  import opened Claims
  import opened AgentRoutes
  import opened Protocol
  import opened Runs
  import opened StepRows
  import opened Wakeups
  import opened Behaviours
  import Witness

  const OLD: ModelId := 5
  const NEW: ModelId := 6
  const LAST: JobId := 100

  /** A hundred older jobs of one model, then one of another. */
  function Submission(id: JobId): NewJob {
    NewJob(id, if id < LAST then OLD else NEW, Params("832x480", 5), id, 100000)
  }

  function Rows(n: nat): map<JobId, Job> {
    map id: JobId | 0 <= id < n :: NewRow(Submission(id))
  }

  function Oldest(): seq<Job> {
    seq(WINDOW, i requires 0 <= i => NewRow(Submission(i)))
  }

  /** `n` jobs have been submitted, and nothing else has happened but that time has passed. */
  predicate Filled(s: Sys, n: nat) {
    && s.db.rows == Rows(n) && s.db.issued == {} && (forall id :: id in s.db.made ==> id < n) && s.clock == 1000
    && s.desk == START.desk && s.fleet == START.fleet
  }

  lemma {:induction false} Begin(c: Config)
    ensures Guard(c, START, Tick(1000)) && Filled(Next(c, START, Tick(1000)), 0)
  {
    assert Rows(0) == map[];
  }

  lemma {:induction false} SubmitOne(c: Config, s: Sys, n: nat)
    requires Filled(s, n) && n <= LAST
    ensures Guard(c, s, Step.Create(Submission(n))) && Filled(Next(c, s, Step.Create(Submission(n))), n + 1)
  {
    ApplyOne(s.db, Op.Create(Submission(n)));
    assert Rows(n + 1) == Rows(n)[n := NewRow(Submission(n))];
  }

  lemma {:induction false} Fill(c: Config, n: nat) returns (ss: seq<Sys>, ts: seq<Step>)
    requires c.maxAttempts >= 1 && n <= LAST + 1
    ensures Behaviour(c, ss, ts) && Filled(ss[|ts|], n)
  {
    hide Guard, Next, Filled;
    if n == 0 {
      Begin(c);
      ss, ts := [START, Next(c, START, Tick(1000))], [Tick(1000)];
    } else {
      ss, ts := Fill(c, n - 1);
      SubmitOne(c, ss[|ts|], n - 1);
      Extended(c, ss, ts, Step.Create(Submission(n - 1)));
      ss, ts := ss + [Next(c, ss[|ts|], Step.Create(Submission(n - 1)))], ts + [Step.Create(Submission(n - 1))];
    }
  }

  // ------------------------------------------------------------ one agent asks

  /** Agent `p` is up and has sent poll `n`, holding nothing. */
  predicate Asked(s: Sys, p: PodId, n: nat) {
    && p in s.fleet.agents && s.fleet.agents[p] == Worker(map[], Some(n))
    && n in s.fleet.reqs && s.fleet.reqs[n] == Request(p, map[], [], true)
  }

  lemma {:induction false} Ask(c: Config, ss: seq<Sys>, ts: seq<Step>, p: PodId, n: nat) returns (ss': seq<Sys>, ts': seq<Step>)
    requires Behaviour(c, ss, ts) && n !in ss[|ts|].fleet.reqs
    ensures Behaviour(c, ss', ts') && Asked(ss'[|ts'|], p, n)
    ensures ss'[|ts'|].db == ss[|ts|].db && ss'[|ts'|].desk == ss[|ts|].desk && ss'[|ts'|].clock == ss[|ts|].clock
    ensures ss'[|ts'|].fleet.reqs.Keys == ss[|ts|].fleet.reqs.Keys + {n}
  {
    hide Guard, Next, Walks, Behaviour;
    Lengths(c, ss, ts);
    var s' := Witness.Ask(c, ss[|ts|], p, n);
    ss' := WalkIsRun(c, ss, ts, [Boot(p), SendPoll(p, n, [], true)], s');
    ts' := ts + [Boot(p), SendPoll(p, n, [], true)];
  }

  // ------------------------------------------------------------ the first poll parks

  lemma {:induction false} WindowOfOldest(rows: map<JobId, Job>)
    requires rows == Rows(LAST + 1)
    ensures QueueWindow(rows, WINDOW, Oldest())
  {
    var w := Oldest();
    assert forall id :: id in rows && id < LAST ==> w[id] == rows[id];
  }

  lemma {:induction false} First(s: seq<Job>)
    ensures s == [] || s[0] in s
  {
  }

  lemma {:induction false} NoneSuits(slots: nat)
    ensures Names([], Picked(Oldest(), Some(NEW), slots))
  {
    RunnableMembers(Oldest(), Some(NEW));
    var r := Runnable(Oldest(), Some(NEW));
    First(r);
  }

  const FIRST := Step.Poll(0, 0, Some(NEW), [], Oldest(), true)

  /** Poll 0 is parked for the newest job's model, beside that job. */
  predicate Asleep(s: Sys) {
    && s.db.issued == {} && s.clock == 1000 && s.db.rows == Rows(LAST + 1)
    && s.desk.polls.Keys == {0} && s.desk.draining == {} && s.fleet.reqs.Keys == {0}
    && SleepsBeside(s, 0, LAST)
  }

  lemma {:induction false} NothingRenewed(db: Db, e: int)
    ensures RenewOps([], e) == [] && ApplyAll(db, []) == db && StillOwned(db, []) == {}
  {
  }

  predicate Arriving(s: Sys) {
    && s.db.rows == Rows(LAST + 1) && s.db.issued == {} && s.clock == 1000 && s.desk == START.desk
    && Asked(s, 1, 0) && s.fleet.reqs.Keys == {0}
  }

  lemma {:induction false} MayPark(c: Config, s: Sys)
    requires Arriving(s)
    ensures Guard(c, s, FIRST)
  {
    hide Room, QueueWindow, Names, Picked, Oldest, Rows;
    WindowOfOldest(s.db.rows);
    NothingRenewed(s.db, 1000 + c.leaseTtlMs);
    NoneSuits(Room(c, 1));
    assert ClaimOps([], 1, 1000 + c.leaseTtlMs, 1000) == [] && Claimable(s.db, []);
  }

  lemma {:induction false} LastRow(rows: map<JobId, Job>)
    requires rows == Rows(LAST + 1)
    ensures LAST in rows && rows[LAST] == NewRow(Submission(LAST))
  {
  }

  lemma {:induction false} Park(c: Config, s: Sys)
    requires Arriving(s) && Guard(c, s, FIRST)
    ensures SleepsBeside(Next(c, s, FIRST), 0, LAST)
    ensures Asleep(Next(c, s, FIRST))
  {
    hide Room, QueueWindow, Names, Picked, Oldest, Rows, PollGuard;
    NothingRenewed(s.db, 1000 + c.leaseTtlMs);
    var none: seq<Op> := [];
    assert ClaimOps([], 1, 1000 + c.leaseTtlMs, 1000) == none && none + none == none;
    LastRow(s.db.rows);
  }

  lemma {:induction false} Plain(s: Sys, n: nat)
    requires Filled(s, n)
    ensures s.db.rows == Rows(n) && s.db.issued == {} && s.clock == 1000 && s.desk == START.desk && s.fleet == START.fleet
  {
  }

  lemma {:induction false} IsAsleep(s: Sys)
    requires Asleep(s)
    ensures SleepsBeside(s, 0, LAST) && 1 !in s.fleet.reqs
  {
  }

  /** With a hundred older jobs of another model in the queue, a poll parks beside a job it could run. */
  lemma {:induction false} SleepsPastAFullWindow(c: Config) returns (ss: seq<Sys>, ts: seq<Step>)
    requires c.maxAttempts >= 1
    ensures Behaviour(c, ss, ts) && Asleep(ss[|ts|]) && !NoLostWakeup(ss[|ts|])
  {
    hide Guard, Next, Filled, Asked, Asleep, Rows, Oldest, SleepsBeside;
    ss, ts := Fill(c, LAST + 1);
    Plain(ss[|ts|], LAST + 1);
    ss, ts := Ask(c, ss, ts, 1, 0);
    MayPark(c, ss[|ts|]);
    Park(c, ss[|ts|]);
    var s := Next(c, ss[|ts|], FIRST);
    Extended(c, ss, ts, FIRST);
    ss, ts := ss + [s], ts + [FIRST];
    IsAsleep(s);
  }

  // ------------------------------------------------------------ another poll makes room, and wakes nobody

  const GIVEN := [Assignment(0, 0)]

  const SECOND := Step.Poll(1, 1, Some(OLD), GIVEN, Oldest(), false)

  lemma {:induction false} OnePicked(w: seq<Job>, model: Option<ModelId>)
    requires w != [] && Runnable(w, model) == w
    ensures Picked(w, model, 1) == [w[0]]
  {
    hide Runnable;
  }

  lemma {:induction false} FirstSuits()
    ensures Names(GIVEN, Picked(Oldest(), Some(OLD), 1))
  {
    hide Names, Runnable, Picked;
    RunnableMembers(Oldest(), Some(OLD));
    OnePicked(Oldest(), Some(OLD));
    Witness.OneNamed(GIVEN, [NewRow(Submission(0))], 1);
  }

  lemma {:induction false} Counted(n: nat, ids: set<JobId>)
    requires forall id :: id in ids ==> 1 <= id <= n
    ensures |ids| <= n
  {
    if n > 0 {
      Counted(n - 1, ids - {n});
      assert ids <= (ids - {n}) + {n};
      if n in ids { assert |ids| == |ids - {n}| + 1; } else { assert ids - {n} == ids; }
    }
  }

  lemma {:induction false} FirstRow(rows: map<JobId, Job>)
    requires rows == Rows(LAST + 1)
    ensures 0 in rows && rows[0] == NewRow(Submission(0))
  {
  }

  /** `Asleep`, but for what the fleet has sent since. */
  predicate Asleep0(s: Sys) {
    && s.db.issued == {} && s.clock == 1000 && s.db.rows == Rows(LAST + 1)
    && s.desk.polls.Keys == {0} && s.desk.draining == {} && SleepsBeside(s, 0, LAST)
  }

  lemma {:induction false} GiveOldest(c: Config, s: Sys)
    requires Asleep0(s) && Asked(s, 2, 1) && Room(c, 2) == 1
    ensures Guard(c, s, SECOND)
  {
    hide Room, QueueWindow, Names, Picked, Oldest, Rows, ClaimOps, Claimable, LeasesOf;
    WindowOfOldest(s.db.rows);
    NothingRenewed(s.db, 1000 + c.leaseTtlMs);
    FirstSuits();
    FirstRow(s.db.rows);
    Witness.OneGiven(s.db, GIVEN, 2, 1000 + c.leaseTtlMs, 1000);
  }

  lemma {:induction false} OtherPolls(c: Config, s: Sys)
    requires Guard(c, s, SECOND) && 0 in s.desk.polls
    ensures 0 in Next(c, s, SECOND).desk.polls && Next(c, s, SECOND).desk.polls[0] == s.desk.polls[0]
  {
    hide PollGuard, Ops, DiskAfter, FleetAfter, Oldest, Arrival;
  }

  lemma {:induction false} AfterSecond(c: Config, s: Sys)
    requires Asleep0(s) && Guard(c, s, SECOND)
    ensures var rows := Next(c, s, SECOND).db.rows;
      && rows.Keys == s.db.rows.Keys && rows[LAST] == s.db.rows[LAST] && !rows[0].state.Queued?
  {
    hide Guard, Next, Oldest, StillOwned;
    assert JobsOf(GIVEN) == {0} by { assert GIVEN[..0] == []; }
    PollRows(c, s, SECOND, LAST);
    PollRows(c, s, SECOND, 0);
    OwnedInFlight(s.db, s.fleet.reqs[1].reports);
  }

  lemma {:induction false} StillAsleep(c: Config, s: Sys)
    requires Asleep0(s) && Guard(c, s, SECOND)
    ensures SleepsBeside(Next(c, s, SECOND), 0, LAST) && QueueFits(Next(c, s, SECOND).db)
  {
    hide Guard, Next, Oldest;
    AfterSecond(c, s);
    OtherPolls(c, s);
    Counted(100, QueuedIds(Next(c, s, SECOND).db.rows));
  }

  lemma {:induction false} SameBut(s: Sys, s': Sys)
    requires Asleep(s) && s'.db == s.db && s'.desk == s.desk && s'.clock == s.clock
    ensures Asleep0(s')
  {
  }

  /** Another poll then claims the oldest job, so that the sleeper's job moves into the window and the
      whole queue fits it. Nobody is kicked, and the poll sleeps on. */
  lemma {:induction false} SleepsWithinTheWindow(c: Config) returns (ss: seq<Sys>, ts: seq<Step>)
    requires c.maxAttempts >= 1 && Room(c, 2) == 1
    ensures Behaviour(c, ss, ts) && QueueFits(ss[|ts|].db) && SleepsBeside(ss[|ts|], 0, LAST)
  {
    hide Guard, Next, Asked, Asleep, Asleep0, Rows, Oldest, SleepsBeside, Room;
    ss, ts := SleepsPastAFullWindow(c);
    var s := ss[|ts|];
    IsAsleep(s);
    ss, ts := Ask(c, ss, ts, 2, 1);
    SameBut(s, ss[|ts|]);
    GiveOldest(c, ss[|ts|]);
    StillAsleep(c, ss[|ts|]);
    Extended(c, ss, ts, SECOND);
    ss, ts := ss + [Next(c, ss[|ts|], SECOND)], ts + [SECOND];
  }

  // ------------------------------------------------------------ a parked poll of a pod that is drained

  const PARKS := Step.Poll(0, 0, Some(Witness.MODEL), [], [], true)
  const WAKES := Step.Resume(0, [Assignment(0, 0)], [NewRow(Witness.JOB)])

  /** The empty queue, and agent 1 asking. */
  predicate Idle(s: Sys) {
    s.db.rows == map[] && s.db.issued == {} && s.db.made == {} && s.clock == 0 && s.desk == START.desk && Asked(s, 1, 0)
  }

  lemma {:induction false} EmptyQueue(rows: map<JobId, Job>)
    requires rows == map[]
    ensures QueueWindow(rows, WINDOW, [])
  {
  }

  lemma {:induction false} ParkIdle(c: Config, s: Sys)
    requires Idle(s)
    ensures Guard(c, s, PARKS)
    ensures var s' := Next(c, s, PARKS);
      && s'.db.rows == map[] && s'.db.issued == {} && s'.db.made == {} && s'.clock == 0
      && 0 in s'.desk.polls && s'.desk.polls[0].phase == Parked && s'.desk.polls[0].slots == Room(c, 1)
      && s'.desk.polls[0].pod.podId == 1 && s'.desk.polls[0].pod.model == Some(Witness.MODEL)
  {
    hide Room, QueueWindow;
    EmptyQueue(s.db.rows);
    NothingRenewed(s.db, c.leaseTtlMs);
    var none: seq<Op> := [];
    assert ClaimOps([], 1, c.leaseTtlMs, 0) == none && none + none == none && Claimable(s.db, []);
  }

  /** Poll 0 of agent 1 waits, or has been woken, with room for a job. */
  predicate PollZeroIs(s: Sys, phase: Phase, room: nat) {
    && s.clock == 0 && 0 in s.desk.polls && s.desk.polls[0].phase == phase && s.desk.polls[0].slots == room
    && s.desk.polls[0].pod.podId == 1 && s.desk.polls[0].pod.model == Some(Witness.MODEL)
  }

  lemma {:induction false} DrainIt(c: Config, s: Sys, room: nat)
    requires PollZeroIs(s, Parked, room)
    ensures Guard(c, s, Drain(1, true)) && PollZeroIs(Next(c, s, Drain(1, true)), Parked, room)
    ensures Next(c, s, Drain(1, true)).db == s.db && 1 in Next(c, s, Drain(1, true)).desk.draining
  {
  }

  lemma {:induction false} WakeIt(c: Config, s: Sys, room: nat)
    requires PollZeroIs(s, Parked, room) && s.db.rows == map[] && s.db.issued == {} && s.db.made == {} && 1 in s.desk.draining
    ensures Guard(c, s, Step.Create(Witness.JOB))
    ensures var s' := Next(c, s, Step.Create(Witness.JOB));
      PollZeroIs(s', Woken, room) && s'.db.rows == map[0 := NewRow(Witness.JOB)] && s'.db.issued == {} && 1 in s'.desk.draining
  {
    ApplyOne(s.db, Op.Create(Witness.JOB));
  }

  lemma {:induction false} GiveIt(c: Config, s: Sys, room: nat)
    requires PollZeroIs(s, Woken, room) && room >= 1 && s.db.rows == map[0 := NewRow(Witness.JOB)] && s.db.issued == {} && 1 in s.desk.draining
    ensures Guard(c, s, WAKES)
    ensures var s' := Next(c, s, WAKES);
      && 1 in s'.desk.draining && Current(s'.db, 0, 0) && s'.db.rows[0].podId == Some(1)
      && 0 in s'.desk.polls && s'.desk.polls[0].phase == Answered([Assignment(0, 0)])
  {
    hide QueueWindow, Names, Picked, ClaimOps, Claimable, LeasesOf, JobsOf, Runnable;
    Witness.OneQueued(s.db.rows, NewRow(Witness.JOB));
    Witness.OneGiven(s.db, [Assignment(0, 0)], 1, c.leaseTtlMs, 0);
    Witness.OneNamed([Assignment(0, 0)], [NewRow(Witness.JOB)], room);
    ApplyOne(s.db, ClaimOp(Assignment(0, 0), 1, c.leaseTtlMs, 0));
  }

  lemma {:induction false} Begun(c: Config)
    requires c.maxAttempts >= 1
    ensures Behaviour(c, [START], [])
  {
  }

  lemma {:induction false} ParkedHolds(s: Sys, room: nat)
    requires s.clock == 0 && 0 in s.desk.polls && s.desk.polls[0].phase == Parked && s.desk.polls[0].slots == room
    requires s.desk.polls[0].pod.podId == 1 && s.desk.polls[0].pod.model == Some(Witness.MODEL)
    ensures PollZeroIs(s, Parked, room)
  {
  }

  /** A poll parks, its pod is drained, a job arrives: the poll is woken and the draining pod is handed it. */
  lemma {:induction false} DrainedWhileParked(c: Config) returns (ss: seq<Sys>, ts: seq<Step>)
    requires c.maxAttempts >= 1
    ensures Behaviour(c, ss, ts) && |ts| > 0 && ts[|ts| - 1] == WAKES && 1 in ss[|ts| - 1].desk.draining
    ensures var s := ss[|ts|];
      1 in s.desk.draining && Current(s.db, 0, 0) && s.db.rows[0].podId == Some(1)
      && 0 in s.desk.polls && s.desk.polls[0].phase == Answered([Assignment(0, 0)])
  {
    hide Guard, Next, Behaviour, Asked, PollZeroIs, Current;
    Begun(c);
    ss, ts := Ask(c, [START], [], 1, 0);
    Lengths(c, ss, ts);
    ParkIdle(c, ss[|ts|]);
    var s1 := Next(c, ss[|ts|], PARKS);
    Extended(c, ss, ts, PARKS);
    ss, ts := ss + [s1], ts + [PARKS];
    Lengths(c, ss, ts);
    ParkedHolds(s1, Room(c, 1));
    DrainIt(c, s1, Room(c, 1));
    var s2 := Next(c, s1, Drain(1, true));
    Extended(c, ss, ts, Drain(1, true));
    ss, ts := ss + [s2], ts + [Drain(1, true)];
    Lengths(c, ss, ts);
    WakeIt(c, s2, Room(c, 1));
    var s3 := Next(c, s2, Step.Create(Witness.JOB));
    Extended(c, ss, ts, Step.Create(Witness.JOB));
    ss, ts := ss + [s3], ts + [Step.Create(Witness.JOB)];
    Lengths(c, ss, ts);
    GiveIt(c, s3, Room(c, 1));
    Extended(c, ss, ts, WAKES);
    ss, ts := ss + [Next(c, s3, WAKES)], ts + [WAKES];
    Lengths(c, ss, ts);
  }
}
