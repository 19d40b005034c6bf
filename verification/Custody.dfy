/** Who may be working on what: every lease is started at most once, and the jobs an agent holds under
    current leases never outnumber its room, whatever the network does to its polls. */
module Custody {
  import opened Types
  import opened JobTable
  import opened TableInvariant
  import opened Store
  import opened Claims
  import opened Reaper
  import opened AgentRoutes
  import opened Protocol
  import opened AgentSide

  // ------------------------------------------------------------ what is known of a lease

  /** The poll this agent is still waiting for. */
  predicate Outstanding(f: Fleet, n: nat) {
    n in f.reqs && f.reqs[n].pod in f.agents && f.agents[f.reqs[n].pod].poll == Some(n)
  }

  predicate HeldKnown(tasks: map<LeaseId, Task>, held: map<JobId, LeaseId>) {
    forall id :: id in held ==> held[id] in tasks && tasks[held[id]].job == id
  }

  predicate DistinctLeases(assign: seq<Assignment>) {
    assign == [] ||
    (var n := |assign| - 1;
     DistinctLeases(assign[..n]) && assign[n].leaseId !in LeasesOf(assign[..n]))
  }

  /** While a poll is outstanding its sender can only have dropped jobs since. */
  predicate PollMatches(f: Fleet, p: PodId)
    requires p in f.agents
  {
    var a := f.agents[p];
    a.poll.Some? ==>
      && a.poll.value in f.reqs && f.reqs[a.poll.value].pod == p
      && (forall id :: id in a.jobs ==> id in f.reqs[a.poll.value].held && f.reqs[a.poll.value].held[id] == a.jobs[id])
  }

  ghost predicate FleetOk(f: Fleet) {
    && (forall p :: p in f.agents ==> HeldKnown(f.tasks, f.agents[p].jobs) && PollMatches(f, p))
    && (forall n :: n in f.reqs ==> HeldKnown(f.tasks, f.reqs[n].held) && ReportsAll(f.reqs[n].held, f.reqs[n].reports))
  }

  /** A lease is started only from the answer to a poll, and that poll is then over. */
  predicate Spent(desk: Desk, f: Fleet, l: LeaseId) {
    l in desk.granted && desk.granted[l] in desk.polls && !Outstanding(f, desk.polls[desk.granted[l]].req)
  }

  ghost predicate TasksOk(db: Db, desk: Desk, f: Fleet) {
    forall l :: l in f.tasks ==> l in db.issued && Spent(desk, f, l)
  }

  /** Arrival `k` granted the leases it answers with, and nobody else did. */
  predicate GrantsOk(db: Db, granted: map<LeaseId, nat>, k: nat, h: Handling) {
    h.phase.Answered? ==>
      && DistinctLeases(h.phase.assign)
      && (forall l :: l in LeasesOf(h.phase.assign) ==> l in db.issued && l in granted && granted[l] == k)
  }

  ghost predicate DeskOk(db: Db, desk: Desk, reqs: map<nat, Request>) {
    && (forall k :: k in desk.polls ==> GrantsOk(db, desk.granted, k, desk.polls[k]))
    && (forall k :: k in desk.polls ==> desk.polls[k].req in reqs && desk.polls[k].pod.podId == reqs[desk.polls[k].req].pod)
    && (forall l :: l in desk.granted ==> l in db.issued)
  }

  ghost predicate Known(s: Sys) {
    FleetOk(s.fleet) && TasksOk(s.db, s.desk, s.fleet) && DeskOk(s.db, s.desk, s.fleet.reqs)
  }

  // ------------------------------------------------------------ gateway steps

  predicate AtGateway(t: Step) {
    !t.Boot? && !t.SendPoll? && !t.LosePoll? && !t.Receive? && !t.StartUpload? && !t.Finish? && !t.Drop?
  }

  predicate HandlingGrows(h: Handling, h': Handling) {
    h' == h.(phase := h'.phase) && (h.phase.Answered? ==> h' == h)
  }

  /** Arrivals are only added, and an answer once given stands. */
  ghost predicate DeskGrows(desk: Desk, desk': Desk) {
    && (forall k :: k in desk.polls ==> k in desk'.polls && HandlingGrows(desk.polls[k], desk'.polls[k]))
    && (forall l :: l in desk.granted ==> l in desk'.granted && desk'.granted[l] == desk.granted[l])
  }

  /** Step `t` hands out `assign` as arrival `k`. */
  predicate HandsOut(s: Sys, t: Step, k: nat, assign: seq<Assignment>) {
    (t.Poll? && t.k == k && t.assign == assign) || (t.Resume? && t.k == k && t.assign == assign)
  }

  lemma {:induction false} FreshLeases(db: Db, assign: seq<Assignment>)
    requires Claimable(db, assign)
    ensures DistinctLeases(assign)
    ensures forall l :: l in LeasesOf(assign) ==> l !in db.issued
  {
    if assign != [] { FreshLeases(db, assign[..|assign| - 1]); }
  }

  /** The leases a step hands out are distinct, were never issued before, and are issued now. */
  lemma {:induction false} HandedOut(c: Config, s: Sys, t: Step, k: nat, assign: seq<Assignment>)
    requires Guard(c, s, t) && HandsOut(s, t, k, assign)
    ensures DistinctLeases(assign)
    ensures forall l :: l in LeasesOf(assign) ==> l !in s.db.issued && l in Next(c, s, t).db.issued
  {
    hide Apply, ApplyAll, QueueWindow, Names, Legal, DeskAfter, DiskAfter, FleetAfter;
    var m := c.maxAttempts;
    var expiresAt := s.clock + c.leaseTtlMs;
    if t.Poll? {
      var pod, ops := s.fleet.reqs[t.n].pod, Heartbeat(c, s, t.n);
      RenewalsLand(s.db, s.fleet.reqs[t.n].reports, expiresAt, m);
      ApplyAllConcat(s.db, ops, Claiming(c, s, pod, assign));
      ClaimsLand(ApplyAll(s.db, ops), assign, pod, expiresAt, s.clock, m);
      FreshLeases(ApplyAll(s.db, ops), assign);
    } else {
      ClaimsLand(s.db, assign, s.desk.polls[k].pod.podId, expiresAt, s.clock, m);
      FreshLeases(s.db, assign);
    }
  }

  lemma {:induction false} NewGrants(db': Db, granted: map<LeaseId, nat>, k: nat, h: Handling, leases: set<LeaseId>)
    requires forall l :: l in leases ==> l in db'.issued
    requires h.phase.Answered? ==> DistinctLeases(h.phase.assign) && LeasesOf(h.phase.assign) <= leases
    ensures GrantsOk(db', Granting(granted, leases, k), k, h)
  {
    hide DistinctLeases, LeasesOf;
  }

  lemma {:induction false} GrantsStay(db: Db, db': Db, granted: map<LeaseId, nat>, leases: set<LeaseId>, k: nat, i: nat, h: Handling)
    requires GrantsOk(db, granted, i, h) && db.issued <= db'.issued && forall l :: l in leases ==> l !in db.issued
    ensures GrantsOk(db', Granting(granted, leases, k), i, h)
  {
    hide DistinctLeases, LeasesOf;
  }

  /** One arrival is added, or answers, with leases never issued before. */
  lemma {:induction false} DeskPut(db: Db, db': Db, desk: Desk, desk': Desk, reqs: map<nat, Request>, k: nat, h: Handling, leases: set<LeaseId>)
    requires DeskOk(db, desk, reqs) && db.issued <= db'.issued
    requires desk'.polls == desk.polls[k := h] && desk'.granted == Granting(desk.granted, leases, k)
    requires k in desk.polls ==> HandlingGrows(desk.polls[k], h)
    requires h.req in reqs && h.pod.podId == reqs[h.req].pod
    requires forall l :: l in leases ==> l !in db.issued && l in db'.issued
    requires h.phase.Answered? ==> DistinctLeases(h.phase.assign) && LeasesOf(h.phase.assign) <= leases
    ensures DeskGrows(desk, desk') && DeskOk(db', desk', reqs)
  {
    hide DistinctLeases, LeasesOf, GrantsOk;
    forall i | i in desk'.polls ensures GrantsOk(db', desk'.granted, i, desk'.polls[i]) {
      if i == k {
        NewGrants(db', desk.granted, k, h, leases);
      } else {
        GrantsStay(db, db', desk.granted, leases, k, i, desk.polls[i]);
      }
    }
  }

  /** Arrivals wake up, or are lost; none is answered, nothing is granted. */
  ghost predicate Stirs(desk: Desk, desk': Desk) {
    && desk'.polls.Keys == desk.polls.Keys && desk'.granted == desk.granted
    && (forall k :: k in desk.polls ==> HandlingGrows(desk.polls[k], desk'.polls[k]))
    && (forall k :: k in desk.polls && desk'.polls[k].phase.Answered? ==> desk'.polls[k] == desk.polls[k])
  }

  lemma {:induction false} DeskStir(db: Db, db': Db, desk: Desk, desk': Desk, reqs: map<nat, Request>)
    requires DeskOk(db, desk, reqs) && db.issued <= db'.issued
    requires Stirs(desk, desk')
    ensures DeskGrows(desk, desk') && DeskOk(db', desk', reqs)
  {
    hide DistinctLeases, LeasesOf;
    forall i | i in desk'.polls ensures GrantsOk(db', desk'.granted, i, desk'.polls[i]) {
      assert GrantsOk(db, desk.granted, i, desk.polls[i]);
    }
  }

  lemma {:induction false} Stirred(c: Config, s: Sys, t: Step)
    requires Guard(c, s, t) && !t.Poll? && !t.Resume? && !t.TimeOut?
    ensures Stirs(s.desk, Next(c, s, t).desk)
  {
    hide Guard, Ops, DiskAfter, FleetAfter, ResultAnswer, Capped, Arrival;
  }

  lemma {:induction false} NoLeases(granted: map<LeaseId, nat>, k: nat)
    ensures LeasesOf([]) == {} && DistinctLeases([]) && Granting(granted, {}, k) == granted
  {
  }

  lemma {:induction false} KnownArrival(s: Sys, k: nat)
    requires DeskOk(s.db, s.desk, s.fleet.reqs) && k in s.desk.polls
    ensures s.desk.polls[k].req in s.fleet.reqs && s.desk.polls[k].pod.podId == s.fleet.reqs[s.desk.polls[k].req].pod
  {
  }

  lemma {:induction false} ArrivalIs(c: Config, s: Sys, t: Step)
    requires Guard(c, s, t) && t.Poll?
    ensures t.n in s.fleet.reqs && t.k !in s.desk.polls
    ensures var h := Arrival(c, s, t.n, t.model, t.assign, t.patient);
      && h.req == t.n && h.pod.podId == s.fleet.reqs[t.n].pod
      && (h.phase.Parked? || h.phase == Answered(t.assign))
  {
    hide Handed, StillOwned, Orphans;
  }

  lemma {:induction false} DeskStep(c: Config, s: Sys, t: Step)
    requires Guard(c, s, t) && DeskOk(s.db, s.desk, s.fleet.reqs) && s.db.issued <= Next(c, s, t).db.issued
    ensures DeskGrows(s.desk, Next(c, s, t).desk)
    ensures DeskOk(Next(c, s, t).db, Next(c, s, t).desk, s.fleet.reqs)
  {
    hide Ops, DiskAfter, FleetAfter, Handed, Swept, Apply, ApplyAll, Arrival, ResultAnswer, Capped, DeskGrows, DeskOk, Granting,
         DistinctLeases, LeasesOf;
    var s' := Next(c, s, t);
    if t.Poll? {
      HandedOut(c, s, t, t.k, t.assign);
      ArrivalIs(c, s, t);
      DeskPut(s.db, s'.db, s.desk, s'.desk, s.fleet.reqs, t.k, s'.desk.polls[t.k], LeasesOf(t.assign));
    } else if t.Resume? {
      HandedOut(c, s, t, t.k, t.assign);
      KnownArrival(s, t.k);
      DeskPut(s.db, s'.db, s.desk, s'.desk, s.fleet.reqs, t.k, s'.desk.polls[t.k], LeasesOf(t.assign));
    } else if t.TimeOut? {
      KnownArrival(s, t.k);
      NoLeases(s.desk.granted, t.k);
      DeskPut(s.db, s'.db, s.desk, s'.desk, s.fleet.reqs, t.k, s'.desk.polls[t.k], {});
    } else {
      Stirred(c, s, t);
      DeskStir(s.db, s'.db, s.desk, s'.desk, s.fleet.reqs);
    }
  }

  lemma {:induction false} FleetSame(c: Config, s: Sys, t: Step)
    requires Guard(c, s, t) && AtGateway(t)
    ensures Next(c, s, t).fleet == s.fleet
  {
    hide PollGuard, ResumeGuard, Swept, Ops, DeskAfter, DiskAfter;
  }

  lemma {:induction false} DeskSame(c: Config, s: Sys, t: Step)
    requires Guard(c, s, t) && !AtGateway(t)
    ensures Next(c, s, t).db == s.db && Next(c, s, t).desk == s.desk && Next(c, s, t).disk == s.disk
  {
    hide PollGuard, ResumeGuard, Swept, FleetAfter;
  }

  lemma {:induction false} StillSpent(db: Db, db': Db, desk: Desk, desk': Desk, f: Fleet)
    requires TasksOk(db, desk, f) && DeskGrows(desk, desk') && db.issued <= db'.issued
    ensures TasksOk(db', desk', f)
  {
  }

  // ------------------------------------------------------------ agent steps

  /** A task is started once; its body and its outcome are chosen once. */
  ghost predicate TasksGrow(tasks: map<LeaseId, Task>, tasks': map<LeaseId, Task>) {
    forall l :: l in tasks ==>
      && l in tasks' && tasks'[l].job == tasks[l].job && tasks'[l].pod == tasks[l].pod
      && (tasks[l].media.Some? ==> tasks'[l].media == tasks[l].media)
      && (tasks[l].outcome.Some? ==> tasks'[l].outcome == tasks[l].outcome)
      && (tasks[l].flagged ==> tasks'[l].flagged)
  }

  lemma {:induction false} StartedTasks(tasks: map<LeaseId, Task>, held: map<JobId, LeaseId>, assign: seq<Assignment>, p: PodId)
    requires DistinctLeases(assign) && HeldKnown(tasks, held)
    requires forall l :: l in LeasesOf(assign) ==> l !in tasks
    ensures var tasks', held' := NewTasks(tasks, held, assign, p), StartAll(held, assign);
      && (forall l :: l in tasks ==> l in tasks' && tasks'[l] == tasks[l])
      && (forall l :: l in tasks' && l !in tasks ==>
            l in LeasesOf(assign) && tasks'[l] == Task(tasks'[l].job, p, None, false, None))
      && HeldKnown(tasks', held')
      && held'.Keys <= held.Keys + JobsOf(assign)
      && (forall id :: id in held ==> id in held' && held'[id] == held[id])
  {
    if assign != [] {
      var n := |assign| - 1;
      StartedTasks(tasks, held, assign[..n], p);
    }
  }

  lemma {:induction false} SubKnown(tasks: map<LeaseId, Task>, tasks': map<LeaseId, Task>, held: map<JobId, LeaseId>)
    requires HeldKnown(tasks, held) && TasksGrow(tasks, tasks')
    ensures HeldKnown(tasks', held)
  {
  }

  /** What an agent receives it has never started before. */
  lemma {:induction false} NeverStarted(s: Sys, p: PodId, k: nat)
    requires Known(s)
    requires p in s.fleet.agents && k in s.desk.polls && s.fleet.agents[p].poll == Some(s.desk.polls[k].req)
    requires s.desk.polls[k].phase.Answered?
    ensures DistinctLeases(s.desk.polls[k].phase.assign)
    ensures forall l :: l in LeasesOf(s.desk.polls[k].phase.assign) ==>
      l in s.db.issued && l !in s.fleet.tasks && l in s.desk.granted && s.desk.granted[l] == k
  {
    assert PollMatches(s.fleet, p);
    assert Outstanding(s.fleet, s.desk.polls[k].req);
    assert GrantsOk(s.db, s.desk.granted, k, s.desk.polls[k]);
    forall l | l in LeasesOf(s.desk.polls[k].phase.assign) ensures l !in s.fleet.tasks {
      assert l in s.fleet.tasks ==> Spent(s.desk, s.fleet, l);
    }
  }

  /** The fleet after an agent takes an answer. */
  ghost predicate Took(s: Sys, p: PodId, k: nat, f': Fleet) {
    && p in s.fleet.agents && k in s.desk.polls && s.desk.polls[k].phase.Answered?
    && s.fleet.agents[p].poll == Some(s.desk.polls[k].req)
    && (var h, held := s.desk.polls[k], s.fleet.agents[p].jobs;
        && f'.agents == s.fleet.agents[p := Worker(StartAll(held, h.phase.assign), None)]
        && f'.tasks == NewTasks(Flag(s.fleet.tasks, held, h), held, h.phase.assign, p)
        && f'.reqs == s.fleet.reqs)
  }

  /** Taking an answer starts new tasks beside the old ones, and keeps everyone's jobs known. */
  lemma {:induction false} TookTasks(s: Sys, p: PodId, k: nat, f': Fleet)
    requires Known(s) && Took(s, p, k, f')
    ensures TasksGrow(s.fleet.tasks, f'.tasks) && HeldKnown(f'.tasks, f'.agents[p].jobs)
    ensures forall l :: l in f'.tasks && l !in s.fleet.tasks ==> l in LeasesOf(s.desk.polls[k].phase.assign)
  {
    hide LeasesOf, JobsOf, StartAll, NewTasks, DistinctLeases, ReportsAll, GrantsOk, TasksOk, DeskOk, PollMatches;
    NeverStarted(s, p, k);
    var h, held := s.desk.polls[k], s.fleet.agents[p].jobs;
    var flagged := Flag(s.fleet.tasks, held, h);
    assert TasksGrow(s.fleet.tasks, flagged);
    SubKnown(s.fleet.tasks, flagged, held);
    StartedTasks(flagged, held, h.phase.assign, p);
  }

  lemma {:induction false} TookSpent(s: Sys, p: PodId, k: nat, f': Fleet)
    requires Known(s) && Took(s, p, k, f')
    ensures TasksOk(s.db, s.desk, f')
  {
    hide LeasesOf, JobsOf, StartAll, NewTasks, DistinctLeases, ReportsAll, GrantsOk, DeskOk, Flag, TasksGrow, HeldKnown;
    NeverStarted(s, p, k);
    TookTasks(s, p, k, f');
    var f := s.fleet;
    assert PollMatches(f, p);
    forall l | l in f'.tasks ensures l in s.db.issued && Spent(s.desk, f', l) {
      if l in f.tasks {
        assert Spent(s.desk, f, l);
      } else {
        assert s.desk.granted[l] == k;
      }
    }
  }

  lemma {:induction false} TookKnown(s: Sys, p: PodId, k: nat, f': Fleet)
    requires Known(s) && Took(s, p, k, f')
    ensures FleetOk(f') && TasksOk(s.db, s.desk, f') && TasksGrow(s.fleet.tasks, f'.tasks)
  {
    hide LeasesOf, JobsOf, StartAll, NewTasks, DistinctLeases, ReportsAll, TasksOk, DeskOk, Flag, TasksGrow, HeldKnown;
    TookSpent(s, p, k, f');
    TookTasks(s, p, k, f');
    var f := s.fleet;
    forall q | q in f'.agents ensures HeldKnown(f'.tasks, f'.agents[q].jobs) && PollMatches(f', q) {
      if q != p {
        assert PollMatches(f, q);
        SubKnown(f.tasks, f'.tasks, f.agents[q].jobs);
      }
    }
    forall n | n in f'.reqs ensures HeldKnown(f'.tasks, f'.reqs[n].held) {
      SubKnown(f.tasks, f'.tasks, f.reqs[n].held);
    }
  }

  /** Agent steps other than taking an answer: no task starts, no poll comes back into play. */
  ghost predicate FleetMoves(f: Fleet, f': Fleet) {
    && TasksGrow(f.tasks, f'.tasks) && f'.tasks.Keys == f.tasks.Keys
    && (forall n :: n in f.reqs ==> n in f'.reqs && f'.reqs[n] == f.reqs[n])
    && (forall n :: n in f.reqs && Outstanding(f', n) ==> Outstanding(f, n))
  }

  lemma {:induction false} SendKnown(f: Fleet, p: PodId, n: nat, reports: seq<Report>, ready: bool, f': Fleet)
    requires FleetOk(f) && p in f.agents && f.agents[p].poll.None? && n !in f.reqs && ReportsAll(f.agents[p].jobs, reports)
    requires f' == f.(agents := f.agents[p := f.agents[p].(poll := Some(n))],
                      reqs := f.reqs[n := Request(p, f.agents[p].jobs, reports, ready)])
    ensures FleetOk(f') && FleetMoves(f, f')
  {
    hide ReportsAll;
    forall q | q in f'.agents ensures PollMatches(f', q) {
      if q != p { assert PollMatches(f, q); }
    }
  }

  /** One agent changes: it may forget its poll or some jobs, never gain any. */
  lemma {:induction false} ShedKnown(f: Fleet, p: PodId, a: Worker, f': Fleet)
    requires FleetOk(f) && f' == f.(agents := f.agents[p := a])
    requires forall id :: id in a.jobs ==> p in f.agents && id in f.agents[p].jobs && a.jobs[id] == f.agents[p].jobs[id]
    requires a.poll.Some? ==> p in f.agents && a.poll == f.agents[p].poll
    ensures FleetOk(f') && FleetMoves(f, f')
  {
    hide ReportsAll;
    forall q | q in f'.agents ensures HeldKnown(f'.tasks, f'.agents[q].jobs) && PollMatches(f', q) {
      if q in f.agents { assert PollMatches(f, q) && HeldKnown(f.tasks, f.agents[q].jobs); }
    }
  }

  /** One task changes: it chooses its body or its outcome. */
  lemma {:induction false} ChooseKnown(f: Fleet, l: LeaseId, x: Task, f': Fleet)
    requires FleetOk(f) && l in f.tasks && f' == f.(tasks := f.tasks[l := x])
    requires x == f.tasks[l].(media := x.media, outcome := x.outcome)
    requires f.tasks[l].media.Some? ==> x.media == f.tasks[l].media
    requires f.tasks[l].outcome.Some? ==> x.outcome == f.tasks[l].outcome
    ensures FleetOk(f') && FleetMoves(f, f')
  {
    hide ReportsAll;
    forall q | q in f'.agents ensures HeldKnown(f'.tasks, f'.agents[q].jobs) && PollMatches(f', q) {
      SubKnown(f.tasks, f'.tasks, f.agents[q].jobs);
      assert PollMatches(f, q);
    }
    forall n | n in f'.reqs ensures HeldKnown(f'.tasks, f'.reqs[n].held) {
      SubKnown(f.tasks, f'.tasks, f.reqs[n].held);
    }
  }

  lemma {:induction false} AgentMoves(c: Config, s: Sys, t: Step)
    requires Guard(c, s, t) && !AtGateway(t) && !t.Receive? && FleetOk(s.fleet)
    ensures FleetOk(Next(c, s, t).fleet) && FleetMoves(s.fleet, Next(c, s, t).fleet)
  {
    hide PollGuard, ResumeGuard, Swept, Ops, DeskAfter, DiskAfter, ReportsAll, FleetOk, FleetMoves, Honest, TasksGrow;
    var f, f' := s.fleet, Next(c, s, t).fleet;
    match t {
      case Boot(p) => ShedKnown(f, p, Worker(map[], None), f');
      case SendPoll(p, n, reports, ready) => SendKnown(f, p, n, reports, ready, f');
      case LosePoll(p) => ShedKnown(f, p, f.agents[p].(poll := None), f');
      case StartUpload(p, id, media) => ChooseKnown(f, f.agents[p].jobs[id], TaskOf(s, p, id).(media := Some(media)), f');
      case Finish(p, id, o) => ChooseKnown(f, f.agents[p].jobs[id], TaskOf(s, p, id).(outcome := Some(o)), f');
      case Drop(p, id) => ShedKnown(f, p, f.agents[p].(jobs := f.agents[p].jobs - {id}), f');
    }
  }

  lemma {:induction false} SameDesk(desk: Desk)
    ensures DeskGrows(desk, desk)
  {
  }

  lemma {:induction false} TakenBy(c: Config, s: Sys, t: Step)
    requires Guard(c, s, t) && t.Receive?
    ensures Took(s, t.pod, t.k, Next(c, s, t).fleet)
  {
    hide Ops, DeskAfter, DiskAfter, Told;
  }

  lemma {:induction false} MovedTasks(db: Db, desk: Desk, f: Fleet, f': Fleet)
    requires TasksOk(db, desk, f) && FleetMoves(f, f')
    requires DeskOk(db, desk, f.reqs)
    ensures TasksOk(db, desk, f') && TasksGrow(f.tasks, f'.tasks)
  {
    forall l | l in f'.tasks ensures l in db.issued && Spent(desk, f', l) {
      assert Spent(desk, f, l);
    }
  }

  lemma {:induction false} MoreRequests(db: Db, desk: Desk, f: Fleet, f': Fleet)
    requires DeskOk(db, desk, f.reqs) && FleetMoves(f, f')
    ensures DeskOk(db, desk, f'.reqs)
  {
    hide GrantsOk;
  }

  /** The invariant holds at every moment; answers stand and tasks only fill in. */
  lemma {:induction false} KnownStep(c: Config, s: Sys, t: Step)
    requires Known(s) && Guard(c, s, t) && s.db.issued <= Next(c, s, t).db.issued
    ensures Known(Next(c, s, t))
    ensures DeskGrows(s.desk, Next(c, s, t).desk) && TasksGrow(s.fleet.tasks, Next(c, s, t).fleet.tasks)
  {
    hide Guard, Next, FleetOk, DeskOk, TasksOk, FleetMoves, DeskGrows;
    var s' := Next(c, s, t);
    if AtGateway(t) {
      FleetSame(c, s, t);
      DeskStep(c, s, t);
      StillSpent(s.db, s'.db, s.desk, s'.desk, s.fleet);
    } else {
      DeskSame(c, s, t);
      SameDesk(s.desk);
      if t.Receive? {
        TakenBy(c, s, t);
        TookKnown(s, t.pod, t.k, s'.fleet);
      } else {
        AgentMoves(c, s, t);
        MovedTasks(s.db, s.desk, s.fleet, s'.fleet);
        MoreRequests(s.db, s.desk, s.fleet, s'.fleet);
      }
    }
  }

  // ------------------------------------------------------------ room

  /** The held jobs whose lease the gateway still honours. */
  function HeldCurrent(db: Db, held: map<JobId, LeaseId>): set<JobId> {
    set id | id in held && Current(db, id, held[id])
  }

  /** Before it is answered, a poll has room for all the slots it offers; after, for what it was given. */
  predicate RoomFor(c: Config, db: Db, reqs: map<nat, Request>, h: Handling) {
    h.req in reqs &&
    (var room, owned := Room(c, reqs[h.req].pod), |HeldCurrent(db, reqs[h.req].held)|;
     match h.phase
     case Answered(assign) => assign == [] || owned + |assign| <= room
     case Parked => owned + h.slots <= room
     case Woken => owned + h.slots <= room
     case Lost => true)
  }

  ghost predicate Roomy(c: Config, s: Sys) {
    && (forall p :: p in s.fleet.agents ==> |HeldCurrent(s.db, s.fleet.agents[p].jobs)| <= Room(c, p))
    && (forall k :: k in s.desk.polls ==> RoomFor(c, s.db, s.fleet.reqs, s.desk.polls[k]))
  }

  lemma {:induction false} Subset<T>(a: set<T>, b: set<T>)
    requires a <= b
    ensures |a| <= |b|
  {
    assert b == a + (b - a);
  }

  /** Of leases already handed out, ever fewer are current. */
  lemma {:induction false} CurrentShrinks(db: Db, db': Db, held: map<JobId, LeaseId>, m: nat)
    requires Evolves(db, db', m) && forall id :: id in held ==> held[id] in db.issued
    ensures HeldCurrent(db', held) <= HeldCurrent(db, held)
    ensures |HeldCurrent(db', held)| <= |HeldCurrent(db, held)|
  {
    hide RowEvolves;
    forall id | id in HeldCurrent(db', held) ensures id in HeldCurrent(db, held) {
      assert JobEvolves(db, db', id, m);
    }
    Subset(HeldCurrent(db', held), HeldCurrent(db, held));
  }

  lemma {:induction false} OwnedIs(db: Db, held: map<JobId, LeaseId>, reports: seq<Report>)
    requires Truthful(held, reports)
    ensures ReportedIds(reports) <= held.Keys
    ensures forall id :: id in StillOwned(db, reports) <==> id in ReportedIds(reports) && id in HeldCurrent(db, held)
  {
    if reports != [] { OwnedIs(db, held, reports[..|reports| - 1]); }
  }

  /** What the gateway counts as the pod's is exactly what the pod still rightly held when it asked. */
  lemma {:induction false} OwnedIsHeld(db: Db, held: map<JobId, LeaseId>, reports: seq<Report>)
    requires ReportsAll(held, reports)
    ensures StillOwned(db, reports) == HeldCurrent(db, held)
  {
    OwnedIs(db, held, reports);
  }

  lemma {:induction false} NamesLength(assign: seq<Assignment>, window: seq<Job>, model: Option<ModelId>, slots: nat)
    requires Names(assign, Picked(window, model, slots))
    ensures |assign| <= slots
  {
    NamesAt(assign, Picked(window, model, slots));
  }

  /** No more is handed out than the slots allow. */
  lemma {:induction false} HandedFits(mid: Db, at: Db, pod: Pod, slots: nat, e: int, now: int, assign: seq<Assignment>, window: seq<Job>)
    requires Handed(mid, at, pod, slots, e, now, assign, window)
    ensures |assign| <= slots
  {
    hide ApplyAll, QueueWindow, Claimable, Names, Picked;
    if slots > 0 { NamesLength(assign, window, pod.model, slots); }
  }

  lemma {:induction false} HeldIssued(s: Sys, held: map<JobId, LeaseId>)
    requires Known(s) && HeldKnown(s.fleet.tasks, held)
    ensures forall id :: id in held ==> held[id] in s.db.issued
  {
    hide FleetOk, DeskOk;
  }

  /** A new arrival has room for what it offers or gives. */
  lemma {:induction false} ArrivalFits(c: Config, s: Sys, t: Step)
    requires Guard(c, s, t) && t.Poll? && Known(s)
    requires Evolves(s.db, Next(c, s, t).db, c.maxAttempts)
    ensures RoomFor(c, Next(c, s, t).db, s.fleet.reqs, Next(c, s, t).desk.polls[t.k])
  {
    hide Ops, DiskAfter, FleetAfter, Handed, Apply, ApplyAll, Evolves, Orphans, StillOwned, ReportsAll, HeldCurrent, TasksOk, DeskOk;
    var r := s.fleet.reqs[t.n];
    OwnedIsHeld(s.db, r.held, r.reports);
    HeldIssued(s, r.held);
    CurrentShrinks(s.db, Next(c, s, t).db, r.held, c.maxAttempts);
    var mid := ApplyAll(s.db, Heartbeat(c, s, t.n));
    HandedFits(mid, ApplyAll(mid, Claiming(c, s, r.pod, t.assign)), PodAt(c, s, t.n, t.model), SlotsAt(c, s, t.n, t.model),
               s.clock + c.leaseTtlMs, s.clock, t.assign, t.window);
  }

  lemma {:induction false} StillRoom(c: Config, s: Sys, db': Db, h: Handling, h': Handling)
    requires Known(s) && Evolves(s.db, db', c.maxAttempts) && RoomFor(c, s.db, s.fleet.reqs, h)
    requires h' == h || (h' == h.(phase := h'.phase) && (h'.phase.Lost? || h'.phase == Answered([]) || (h.phase.Parked? && h'.phase.Woken?)))
    ensures RoomFor(c, db', s.fleet.reqs, h')
  {
    hide Evolves, HeldCurrent, ReportsAll, DeskOk, TasksOk;
    var held := s.fleet.reqs[h.req].held;
    HeldIssued(s, held);
    CurrentShrinks(s.db, db', held, c.maxAttempts);
  }

  lemma {:induction false} AnswerFits(c: Config, s: Sys, t: Step)
    requires Guard(c, s, t) && t.Resume? && Known(s) && RoomFor(c, s.db, s.fleet.reqs, s.desk.polls[t.k])
    requires Evolves(s.db, Next(c, s, t).db, c.maxAttempts)
    ensures RoomFor(c, Next(c, s, t).db, s.fleet.reqs, Next(c, s, t).desk.polls[t.k])
  {
    hide Ops, DiskAfter, FleetAfter, Handed, Apply, ApplyAll, Evolves, HeldCurrent, TasksOk, DeskOk, ReportsAll;
    var h := s.desk.polls[t.k];
    HandedFits(s.db, ApplyAll(s.db, Claiming(c, s, h.pod.podId, t.assign)), h.pod, h.slots,
               s.clock + c.leaseTtlMs, s.clock, t.assign, t.window);
    HeldIssued(s, s.fleet.reqs[h.req].held);
    CurrentShrinks(s.db, Next(c, s, t).db, s.fleet.reqs[h.req].held, c.maxAttempts);
  }

  /** What a gateway step may do to an arrival, other than to the one it is about. */
  lemma {:induction false} PollsAfter(c: Config, s: Sys, t: Step, k: nat)
    requires Guard(c, s, t) && k in Next(c, s, t).desk.polls
    ensures (t.Poll? && k == t.k) || k in s.desk.polls
    ensures t.Resume? && k == t.k ==> s.desk.polls[k].phase.Woken?
    ensures !(t.Poll? && k == t.k) && !(t.Resume? && k == t.k) ==>
      (var h, h' := s.desk.polls[k], Next(c, s, t).desk.polls[k];
       h' == h || (h' == h.(phase := h'.phase) && (h'.phase.Lost? || h'.phase == Answered([]) || (h.phase.Parked? && h'.phase.Woken?))))
  {
    hide Ops, DiskAfter, FleetAfter, Handed, Swept, Apply, ApplyAll, Arrival, ResultAnswer, Capped;
  }

  /** At the gateway: every arrival keeps its room. */
  lemma {:induction false} RoomyGateway(c: Config, s: Sys, t: Step)
    requires Known(s) && Roomy(c, s) && Guard(c, s, t) && AtGateway(t)
    requires Evolves(s.db, Next(c, s, t).db, c.maxAttempts)
    ensures Roomy(c, Next(c, s, t))
  {
    hide Evolves, HeldCurrent, RoomFor, Guard, Next, DeskOk, TasksOk, ReportsAll;
    var s' := Next(c, s, t);
    FleetSame(c, s, t);
    forall p | p in s'.fleet.agents ensures |HeldCurrent(s'.db, s'.fleet.agents[p].jobs)| <= Room(c, p) {
      HeldIssued(s, s.fleet.agents[p].jobs);
      CurrentShrinks(s.db, s'.db, s.fleet.agents[p].jobs, c.maxAttempts);
    }
    forall k | k in s'.desk.polls ensures RoomFor(c, s'.db, s.fleet.reqs, s'.desk.polls[k]) {
      PollsAfter(c, s, t, k);
      if t.Poll? && k == t.k {
        ArrivalFits(c, s, t);
      } else if t.Resume? && k == t.k {
        AnswerFits(c, s, t);
      } else {
        StillRoom(c, s, s'.db, s.desk.polls[k], s'.desk.polls[k]);
      }
    }
  }

  lemma {:induction false} JobsCount(assign: seq<Assignment>)
    ensures |JobsOf(assign)| <= |assign|
  {
    if assign != [] { JobsCount(assign[..|assign| - 1]); }
  }

  /** Union of what was rightly held with what was given. */
  lemma {:induction false} TakeFits(c: Config, s: Sys, p: PodId, k: nat, f': Fleet)
    requires Known(s) && Roomy(c, s) && Took(s, p, k, f')
    ensures |HeldCurrent(s.db, f'.agents[p].jobs)| <= Room(c, p)
  {
    hide DeskOk, TasksOk, ReportsAll, NewTasks, Flag;
    var h, held := s.desk.polls[k], s.fleet.agents[p].jobs;
    var assign, was := h.phase.assign, s.fleet.reqs[h.req].held;
    assert PollMatches(s.fleet, p) && RoomFor(c, s.db, s.fleet.reqs, h);
    NeverStarted(s, p, k);
    StartedTasks(s.fleet.tasks, held, assign, p);
    assert assign == [] ==> StartAll(held, assign) == held;
    JobsCount(assign);
    var rightly := HeldCurrent(s.db, was);
    Subset(HeldCurrent(s.db, f'.agents[p].jobs), rightly + JobsOf(assign));
    assert |rightly + JobsOf(assign)| <= |rightly| + |JobsOf(assign)|;
  }

  lemma {:induction false} NothingHeld(db: Db)
    ensures |HeldCurrent(db, map[])| == 0
  {
    assert HeldCurrent(db, map[]) == {};
  }

  lemma {:induction false} HeldSubset(db: Db, held: map<JobId, LeaseId>, was: map<JobId, LeaseId>)
    requires forall id :: id in held ==> id in was && was[id] == held[id]
    ensures |HeldCurrent(db, held)| <= |HeldCurrent(db, was)|
  {
    Subset(HeldCurrent(db, held), HeldCurrent(db, was));
  }

  lemma {:induction false} RequestsKept(c: Config, s: Sys, t: Step)
    requires Guard(c, s, t)
    ensures forall n :: n in s.fleet.reqs ==> n in Next(c, s, t).fleet.reqs && Next(c, s, t).fleet.reqs[n] == s.fleet.reqs[n]
  {
    hide PollGuard, ResumeGuard, Swept, Ops, DeskAfter, DiskAfter, ReportsAll, Honest;
  }

  lemma {:induction false} AgentSheds(c: Config, s: Sys, t: Step, p: PodId)
    requires Guard(c, s, t) && !AtGateway(t) && !t.Receive? && p in Next(c, s, t).fleet.agents
    ensures p !in s.fleet.agents ==> Next(c, s, t).fleet.agents[p].jobs == map[]
    ensures p in s.fleet.agents ==>
      forall id :: id in Next(c, s, t).fleet.agents[p].jobs ==>
        id in s.fleet.agents[p].jobs && s.fleet.agents[p].jobs[id] == Next(c, s, t).fleet.agents[p].jobs[id]
  {
    hide PollGuard, ResumeGuard, Swept, Ops, DeskAfter, DiskAfter, ReportsAll, Honest;
  }

  lemma {:induction false} RoomyAgent(c: Config, s: Sys, t: Step)
    requires Known(s) && Roomy(c, s) && Guard(c, s, t) && !AtGateway(t)
    ensures Roomy(c, Next(c, s, t))
  {
    hide Guard, Next, DeskOk, TasksOk, ReportsAll, StartAll, NewTasks, Flag, HeldCurrent, HeldKnown, PollMatches;
    var s' := Next(c, s, t);
    DeskSame(c, s, t);
    RequestsKept(c, s, t);
    forall k | k in s'.desk.polls ensures RoomFor(c, s.db, s'.fleet.reqs, s.desk.polls[k]) {
      assert RoomFor(c, s.db, s.fleet.reqs, s.desk.polls[k]);
    }
    forall p | p in s'.fleet.agents ensures |HeldCurrent(s.db, s'.fleet.agents[p].jobs)| <= Room(c, p) {
      if t.Receive? {
        TakenBy(c, s, t);
        if p == t.pod { TakeFits(c, s, p, t.k, s'.fleet); }
      } else {
        AgentSheds(c, s, t, p);
        if p in s.fleet.agents { HeldSubset(s.db, s'.fleet.agents[p].jobs, s.fleet.agents[p].jobs); }
        else { NothingHeld(s.db); }
      }
    }
  }

  /** In every step of the composed system, no agent comes to hold more jobs under current leases than
      its `max_in_flight`: lost answers, repeated polls and re-claims of its own jobs included. */
  lemma {:induction false} RoomyStep(c: Config, s: Sys, t: Step)
    requires Known(s) && Roomy(c, s) && Guard(c, s, t) && Evolves(s.db, Next(c, s, t).db, c.maxAttempts)
    ensures Roomy(c, Next(c, s, t))
  {
    if AtGateway(t) { RoomyGateway(c, s, t); } else { RoomyAgent(c, s, t); }
  }
}
