/** The main results about the whole system: what holds at every moment of every run of the gateway,
    its agents and the network between them. */
module Behaviours {
  import opened Types
  import opened JobTable
  import opened Replay
  import opened TableInvariant
  import opened Epochs
  import opened Store
  import opened Claims
  import opened Artifacts
  import opened Uploads
  import opened AgentRoutes
  import opened VideoRoutes
  import opened Reaper
  import opened Protocol
  import opened Runs
  import opened Custody
  import opened StepRows
  import opened LeaseClock
  import opened CancelHonesty
  import opened Wakeups
  import opened Media
  import History
  import AgentSide

  /** `ss` are the states and `ts` the steps of a run from the empty system. */
  ghost predicate Behaviour(c: Config, ss: seq<Sys>, ts: seq<Step>) {
    && c.maxAttempts >= 1
    && |ss| == |ts| + 1 && ss[0] == START
    && (forall i :: 0 <= i < |ts| ==> Guard(c, ss[i], ts[i]) && ss[i + 1] == Next(c, ss[i], ts[i]))
  }

  ghost predicate SysInv(c: Config, s: Sys) {
    Base(c, s) && Known(s) && Roomy(c, s) && OnTime(c, s) && HonestStops(s) && MediaOk(c, s)
  }

  /** What one state of a run may turn into later. */
  ghost predicate Later(c: Config, s: Sys, s': Sys) {
    && Evolves(s.db, s'.db, c.maxAttempts) && s.clock <= s'.clock && TasksGrow(s.fleet.tasks, s'.fleet.tasks)
    && s.disk.acked <= s'.disk.acked
  }

  lemma {:induction false} StartInv(c: Config)
    requires c.maxAttempts >= 1
    ensures SysInv(c, START)
  {
    StartBase(c);
  }

  lemma {:induction false} IssuedGrow(db: Db, db': Db, m: nat)
    requires Evolves(db, db', m)
    ensures db.issued <= db'.issued
  {
  }

  lemma {:induction false} SysStep(c: Config, s: Sys, t: Step)
    requires SysInv(c, s) && Guard(c, s, t)
    ensures SysInv(c, Next(c, s, t)) && Later(c, s, Next(c, s, t))
  {
    hide Guard, Next, Evolves, Inv, Known, Roomy, OnTime, HonestStops, MediaOk, LegalRun, ApplyAll, Outdated;
    BaseStep(c, s, t);
    IssuedGrow(s.db, Next(c, s, t).db, c.maxAttempts);
    KnownStep(c, s, t);
    RoomyStep(c, s, t);
    OnTimeStep(c, s, t);
    HonestStep(c, s, t);
    MediaStep(c, s, t);
    AckedGrow(c, s, t);
  }

  lemma {:induction false} At(c: Config, ss: seq<Sys>, ts: seq<Step>, i: nat)
    requires Behaviour(c, ss, ts) && i < |ts|
    ensures Guard(c, ss[i], ts[i]) && ss[i + 1] == Next(c, ss[i], ts[i])
  {
    hide Guard, Next;
  }

  lemma {:induction false} RunInv(c: Config, ss: seq<Sys>, ts: seq<Step>, i: nat)
    requires Behaviour(c, ss, ts) && i < |ss|
    ensures SysInv(c, ss[i])
  {
    hide Guard, Next, SysInv;
    if i == 0 {
      StartInv(c);
    } else {
      RunInv(c, ss, ts, i - 1);
      At(c, ss, ts, i - 1);
      SysStep(c, ss[i - 1], ts[i - 1]);
    }
  }

  lemma {:induction false} TasksReflexive(tasks: map<LeaseId, Task>)
    ensures TasksGrow(tasks, tasks)
  {
  }

  lemma {:induction false} TasksTransitive(a: map<LeaseId, Task>, b: map<LeaseId, Task>, d: map<LeaseId, Task>)
    requires TasksGrow(a, b) && TasksGrow(b, d)
    ensures TasksGrow(a, d)
  {
  }

  lemma {:induction false} Lengths(c: Config, ss: seq<Sys>, ts: seq<Step>)
    requires Behaviour(c, ss, ts)
    ensures |ss| == |ts| + 1
  {
  }

  lemma {:induction false} RunLater(c: Config, ss: seq<Sys>, ts: seq<Step>, i: nat, j: nat)
    requires Behaviour(c, ss, ts) && i <= j < |ss|
    ensures SysInv(c, ss[i]) && SysInv(c, ss[j]) && Later(c, ss[i], ss[j])
    decreases j
  {
    hide Guard, Next, Known, Roomy, OnTime, HonestStops, MediaOk, Evolves, Inv, LegalRun, ApplyAll, Outdated, TasksGrow, Behaviour;
    RunInv(c, ss, ts, i);
    RunInv(c, ss, ts, j);
    if i == j {
      EvolvesReflexive(ss[i].db, c.maxAttempts);
      TasksReflexive(ss[i].fleet.tasks);
    } else {
      RunLater(c, ss, ts, i, j - 1);
      Lengths(c, ss, ts);
      At(c, ss, ts, j - 1);
      SysStep(c, ss[j - 1], ts[j - 1]);
      EvolvesTransitive(ss[i].db, ss[j - 1].db, ss[j].db, c.maxAttempts);
      TasksTransitive(ss[i].fleet.tasks, ss[j - 1].fleet.tasks, ss[j].fleet.tasks);
    }
  }

  // ------------------------------------------------------------ longer runs

  lemma {:induction false} Extended(c: Config, ss: seq<Sys>, ts: seq<Step>, t: Step)
    requires Behaviour(c, ss, ts) && Guard(c, ss[|ts|], t)
    ensures Behaviour(c, ss + [Next(c, ss[|ts|], t)], ts + [t])
  {
    hide Guard, Next;
    var ss', ts' := ss + [Next(c, ss[|ts|], t)], ts + [t];
    forall i | 0 <= i < |ts'| ensures Guard(c, ss'[i], ts'[i]) && ss'[i + 1] == Next(c, ss'[i], ts'[i]) {
      if i < |ts| { assert ss'[i] == ss[i] && ts'[i] == ts[i] && ss'[i + 1] == ss[i + 1]; }
    }
  }

  /** A walk from the last state of a run makes it longer. */
  lemma {:induction false} WalkIsRun(c: Config, ss: seq<Sys>, ts: seq<Step>, more: seq<Step>, s': Sys) returns (ss': seq<Sys>)
    requires Behaviour(c, ss, ts) && Walks(c, ss[|ts|], more, s')
    ensures Behaviour(c, ss', ts + more) && ss'[|ts + more|] == s'
    decreases |more|
  {
    hide Guard, Next, Behaviour;
    Lengths(c, ss, ts);
    if more == [] {
      assert ts + more == ts;
      ss' := ss;
    } else {
      Extended(c, ss, ts, more[0]);
      Lengths(c, ss + [Next(c, ss[|ts|], more[0])], ts + [more[0]]);
      assert ts + [more[0]] + more[1..] == ts + more;
      ss' := WalkIsRun(c, ss + [Next(c, ss[|ts|], more[0])], ts + [more[0]], more[1..], s');
    }
  }

  // ------------------------------------------------------------ the job store's history

  /** At every moment the store is what a legal run of statements made it, so its trails replay to its
      rows, at most one terminal write ever landed on a job, and no job changed status more than 2M times. */
  lemma {:induction false} StoreIsLegal(c: Config, ss: seq<Sys>, ts: seq<Step>, i: nat, id: JobId)
    requires Behaviour(c, ss, ts) && i < |ss|
    ensures LegalRun(EMPTY, ss[i].hist, c.maxAttempts) && ss[i].db == ApplyAll(EMPTY, ss[i].hist)
    ensures History.TerminalWrites(EMPTY, ss[i].hist, id) <= 1
    ensures History.StateChanges(EMPTY, ss[i].hist, id) <= 2 * c.maxAttempts
    ensures id in ss[i].db.rows ==>
      RowOk(id, ss[i].db.rows[id], c.maxAttempts) && id in ss[i].db.log
      && Replayed(ss[i].db.log[id]) == Reading.At(ShapeOf(ss[i].db.rows[id]))
  {
    hide Behaviour, ApplyAll, LegalRun, Replayed, Known, Roomy, OnTime, HonestStops, MediaOk, Outdated, OneOwner;
    RunInv(c, ss, ts, i);
    EmptyInv(c.maxAttempts);
    History.OneTerminalWrite(EMPTY, ss[i].hist, id, c.maxAttempts);
    History.ChangesBounded(EMPTY, ss[i].hist, id, c.maxAttempts);
    if id in ss[i].db.rows { RowIsOk(ss[i].db, id, c.maxAttempts); }
  }

  /** Every statement of every run is, for every job, one step of the single-owner story. */
  lemma {:induction false} RunTellsEpochs(c: Config, ss: seq<Sys>, ts: seq<Step>, i: nat, j: nat, id: JobId)
    requires Behaviour(c, ss, ts) && i < |ss| && j < |ss[i].hist|
    ensures var db := ApplyAll(EMPTY, ss[i].hist[..j]);
      Acts(LifeOf(db, id), ActionOf(db, ss[i].hist[j], id), LifeOf(Apply(db, ss[i].hist[j]), id), db.issued)
  {
    hide Behaviour, ApplyAll, Apply, LifeOf, ActionOf, Acts, Known, Roomy, OnTime, HonestStops, MediaOk, Outdated, Inv;
    RunInv(c, ss, ts, i);
    RunRefines(ss[i].hist, j, id, c.maxAttempts);
  }

  // ------------------------------------------------------------ stale messages

  lemma {:induction false} StaleFence(db: Db, id: JobId, l: LeaseId, m: nat)
    requires Inv(db, m) && !Current(db, id, l)
    ensures !Fences(db, id, l)
  {
    if id in db.rows { RowIsOk(db, id, m); }
  }

  lemma {:induction false} StaleStep(c: Config, s: Sys, t: Step, l: LeaseId)
    requires Inv(s.db, c.maxAttempts) && Guard(c, s, t) && ((t.Upload? && t.lease == l) || t == Step.Result(l))
    requires l in s.fleet.tasks && !Current(s.db, s.fleet.tasks[l].job, l)
    ensures Next(c, s, t) == s
  {
    hide PollGuard, ResumeGuard, Swept, SafeFilename, Inv, Apply;
    StaleFence(s.db, s.fleet.tasks[l].job, l, c.maxAttempts);
    assert Ops(c, s, t) == [];
    assert s.hist + [] == s.hist;
  }

  /** Whatever arrives under a lease that is not current changes no row, no file and no parked poll, and
      starts no upload. */
  lemma {:induction false} StaleMessagesAreHarmless(c: Config, ss: seq<Sys>, ts: seq<Step>, i: nat, l: LeaseId)
    requires Behaviour(c, ss, ts) && i < |ts| && ((ts[i].Upload? && ts[i].lease == l) || ts[i] == Step.Result(l))
    requires l in ss[i].fleet.tasks && !Current(ss[i].db, ss[i].fleet.tasks[l].job, l)
    ensures ss[i + 1] == ss[i]
  {
    hide Behaviour, Next, Known, Roomy, OnTime, HonestStops, MediaOk, LegalRun, ApplyAll, Outdated, OneOwner, Inv;
    Lengths(c, ss, ts);
    RunInv(c, ss, ts, i);
    At(c, ss, ts, i);
    StaleStep(c, ss[i], ts[i], l);
  }

  /** A lease that has stopped being current never becomes current again, in any run. */
  lemma {:induction false} LostForGood(c: Config, ss: seq<Sys>, ts: seq<Step>, i: nat, j: nat, id: JobId, l: LeaseId)
    requires Behaviour(c, ss, ts) && i <= j < |ss|
    requires l in ss[i].db.issued && !Current(ss[i].db, id, l)
    ensures !Current(ss[j].db, id, l)
  {
    hide Behaviour, Guard, Next, SysInv, Current, RowEvolves, TasksGrow;
    RunLater(c, ss, ts, i, j);
    assert JobEvolves(ss[i].db, ss[j].db, id, c.maxAttempts);
  }

  // ------------------------------------------------------------ results

  lemma {:induction false} ReportStep(c: Config, s: Sys, l: LeaseId)
    requires Guard(c, s, Step.Result(l)) && l in s.fleet.tasks && s.fleet.tasks[l].outcome.Some?
    ensures Next(c, s, Step.Result(l)).db ==
      ApplyAll(s.db, ResultOps(s.db, s.fleet.tasks[l].job, l, s.fleet.tasks[l].outcome.value, c.maxAttempts, s.clock))
  {
    hide DeskAfter, DiskAfter, FleetAfter, ApplyAll, ResultOps;
  }

  /** What the outcome a pod reports under its current lease makes of the job. */
  lemma {:induction false} ResultRow(db: Db, id: JobId, l: LeaseId, o: Outcome, m: nat, now: int)
    requires id in db.rows && db.rows[id].state == InProgress && db.rows[id].leaseId == Some(l)
    ensures var row, rows' := db.rows[id], ApplyAll(db, ResultOps(db, id, l, o, m, now)).rows;
      && rows'.Keys == db.rows.Keys && (forall k :: k in db.rows && k != id ==> rows'[k] == db.rows[k])
      && (o.Broke? ==>
            if o.retryable && row.attempts < m then
              rows'[id] == row.(state := Queued, podId := None, leaseId := None, leaseExpiresAt := None, progress := 0.0, upstreamId := None)
            else
              rows'[id] == row.(state := Failed, finishedAt := Some(now), leaseId := None, leaseExpiresAt := None,
                   error := Some(if o.error.Some? then o.error.value else "pod reported an unspecified failure")))
      && (o.CancelAck? ==> rows'[id] == row.(state := Cancelled, finishedAt := Some(now), leaseId := None, leaseExpiresAt := None))
      && (o.Succeeded? ==>
            (var name := if o.filename.Some? then o.filename.value else "output.mp4";
             if SafeFilename(name) then
               rows'[id] == row.(state := Completed, progress := 1.0, error := None, finishedAt := Some(now), leaseId := None,
                      leaseExpiresAt := None, artifacts := [Artifact(name, o.bytes, o.sha256)])
             else rows'[id] == row))
  {
    hide SafeFilename;
    var ops := ResultOps(db, id, l, o, m, now);
    if ops != [] {
      assert ops == [ops[0]];
      ApplyOne(db, ops[0]);
    }
  }

  /** In every run, what a result under the current lease does to its job: a failure puts it back in the
      queue exactly when the pod calls it retryable and an attempt is left, and otherwise ends it with the
      pod's own words; an acknowledged cancel ends it; a success completes it with the one artifact told. */
  lemma {:induction false} ReportsAreDecided(c: Config, ss: seq<Sys>, ts: seq<Step>, i: nat, l: LeaseId, id: JobId, o: Outcome)
    requires Behaviour(c, ss, ts) && i < |ts| && ts[i] == Step.Result(l)
    requires l in ss[i].fleet.tasks && ss[i].fleet.tasks[l].job == id && ss[i].fleet.tasks[l].outcome == Some(o)
    requires id in ss[i].db.rows && ss[i].db.rows[id].state == InProgress && ss[i].db.rows[id].leaseId == Some(l)
    ensures id in ss[i + 1].db.rows
    ensures var row, row' := ss[i].db.rows[id], ss[i + 1].db.rows[id];
      && (row'.state == Queued <==> o.Broke? && o.retryable && row.attempts < c.maxAttempts)
      && (row'.state == Failed <==> o.Broke? && !(o.retryable && row.attempts < c.maxAttempts))
      && (row'.state == Cancelled <==> o.CancelAck?) && (row'.state == Completed <==> o.Succeeded?)
      && (o.Broke? && row'.state == Failed ==>
            row'.error == Some(if o.error.Some? then o.error.value else "pod reported an unspecified failure"))
      && (o.Succeeded? ==> o.filename == Some("output.mp4") && row'.artifacts == [Artifact("output.mp4", o.bytes, o.sha256)])
      && (row'.state != Queued ==> row'.finishedAt == Some(ss[i].clock) && row'.attempts == row.attempts)
      && (row'.state == Queued ==> row'.podId == None && row'.leaseId == None && row'.attempts == row.attempts
                                   && row'.cancelRequestedAt == row.cancelRequestedAt)
    ensures forall k :: k in ss[i].db.rows && k != id ==> k in ss[i + 1].db.rows && ss[i + 1].db.rows[k] == ss[i].db.rows[k]
  {
    hide Behaviour, Guard, Next, Base, Known, Roomy, OnTime, HonestStops, UploadStands, StreamsOk, Delivered, Shown, ResultOps, ApplyAll,
      SafeFilename;
    Lengths(c, ss, ts);
    RunInv(c, ss, ts, i);
    At(c, ss, ts, i);
    SafeOutput();
    ReportStep(c, ss[i], l);
    ResultRow(ss[i].db, id, l, o, c.maxAttempts, ss[i].clock);
    assert SuccessTrue(c, ss[i].disk, l, ss[i].fleet.tasks[l]);
  }

  // ------------------------------------------------------------ sweeps and heartbeats

  /** In every run, what a sweep makes of every row. */
  lemma {:induction false} SweepsDecide(c: Config, ss: seq<Sys>, ts: seq<Step>, i: nat, id: JobId)
    requires Behaviour(c, ss, ts) && i < |ts| && ts[i].Sweep? && id in ss[i].db.rows
    ensures id in ss[i + 1].db.rows
    ensures var row, end, now := ss[i].db.rows[id], ss[i + 1].db.rows[id], ss[i].clock;
      var expired := row.state == InProgress && row.leaseExpiresAt.Some? && row.leaseExpiresAt.value < now;
      var late := (row.state == Queued || row.state == InProgress) && row.deadlineAt < now;
      var stale := row.state == InProgress && row.cancelRequested
                   && row.cancelRequestedAt.Some? && row.cancelRequestedAt.value < now - c.cancelGraceMs;
      var back := row.(state := Queued, podId := None, leaseId := None, leaseExpiresAt := None, progress := 0.0, upstreamId := None);
      var over := if expired then back else row;
      end ==
        if expired && row.attempts >= c.maxAttempts then
          row.(state := Failed, error := Some("pod lost during generation"), finishedAt := Some(now), leaseId := None, leaseExpiresAt := None)
        else if late then
          over.(state := Failed, error := Some("job exceeded its deadline"), finishedAt := Some(now), leaseId := None, leaseExpiresAt := None)
        else if expired then back
        else if stale then row.(state := Cancelled, finishedAt := Some(now), leaseId := None, leaseExpiresAt := None)
        else row
  {
    hide Behaviour, Guard, Next, Known, Roomy, OnTime, HonestStops, MediaOk, LegalRun, ApplyAll, Outdated, Inv, AfterLeases, AfterDeadline, AfterCancels;
    Lengths(c, ss, ts);
    RunInv(c, ss, ts, i);
    At(c, ss, ts, i);
    SweepRows(c, ss[i], ts[i]);
    RowSwept(ss[i].db.rows[id], ss[i].clock, c.maxAttempts, c.cancelGraceMs);
  }

  lemma {:induction false} AmongReported(held: map<JobId, LeaseId>, reports: seq<Report>, i: nat)
    requires AgentSide.Truthful(held, reports) && i < |reports|
    ensures reports[i].jobId.Some? && reports[i].jobId.value in AgentSide.ReportedIds(reports)
    decreases |reports|
  {
    var n := |reports| - 1;
    if i < n { AmongReported(held, reports[..n], i); }
  }

  lemma {:induction false} TruthfulAt(held: map<JobId, LeaseId>, reports: seq<Report>, i: nat, j: nat)
    requires AgentSide.Truthful(held, reports) && i < j < |reports|
    ensures reports[i].jobId != reports[j].jobId && reports[i].jobId.Some?
    decreases |reports|
  {
    var n := |reports| - 1;
    if j < n {
      TruthfulAt(held, reports[..n], i, j);
    } else {
      AmongReported(held, reports[..n], i);
    }
  }

  lemma {:induction false} DistinctReports(held: map<JobId, LeaseId>, reports: seq<Report>, i: nat, j: nat)
    requires AgentSide.ReportsAll(held, reports) && i < j < |reports|
    ensures reports[i].jobId != reports[j].jobId && reports[i].jobId.Some?
  {
    TruthfulAt(held, reports, i, j);
  }

  lemma {:induction false} PollKeepsOwned(c: Config, s: Sys, t: Step, i: nat)
    requires Guard(c, s, t) && t.Poll? && t.n in s.fleet.reqs && i < |s.fleet.reqs[t.n].reports|
    requires var r := s.fleet.reqs[t.n].reports[i];
      r.jobId.Some? && r.leaseId.Some? && r.jobId.value in s.db.rows
      && s.db.rows[r.jobId.value].state == InProgress && s.db.rows[r.jobId.value].leaseId == r.leaseId
    ensures var id := s.fleet.reqs[t.n].reports[i].jobId.value;
      && id in Next(c, s, t).db.rows && id in ApplyAll(s.db, RenewOps(s.fleet.reqs[t.n].reports, s.clock + c.leaseTtlMs)).rows
      && Next(c, s, t).db.rows[id] == ApplyAll(s.db, RenewOps(s.fleet.reqs[t.n].reports, s.clock + c.leaseTtlMs)).rows[id]
  {
    hide Guard, Next, StillOwned, JobsOf, ApplyAll, RenewOps;
    var r := s.fleet.reqs[t.n].reports[i];
    StillOwnedAre(s.db, s.fleet.reqs[t.n].reports, r.jobId.value);
    PollRows(c, s, t, r.jobId.value);
  }

  /** In every run, what an arriving poll does for a job it reports under its current lease: one more lease
      time, and the progress and upstream id the agent told. */
  lemma {:induction false} HeartbeatsLand(c: Config, ss: seq<Sys>, ts: seq<Step>, i: nat, j: nat)
    requires Behaviour(c, ss, ts) && i < |ts| && ts[i].Poll? && ts[i].n in ss[i].fleet.reqs && j < |ss[i].fleet.reqs[ts[i].n].reports|
    requires var r := ss[i].fleet.reqs[ts[i].n].reports[j];
      r.jobId.Some? && r.leaseId.Some? && r.jobId.value in ss[i].db.rows
      && ss[i].db.rows[r.jobId.value].state == InProgress && ss[i].db.rows[r.jobId.value].leaseId == r.leaseId
    ensures var r := ss[i].fleet.reqs[ts[i].n].reports[j];
      var row := ss[i].db.rows[r.jobId.value];
      r.jobId.value in ss[i + 1].db.rows
      && ss[i + 1].db.rows[r.jobId.value] == row.(
           leaseExpiresAt := Some(ss[i].clock + c.leaseTtlMs),
           progress := if r.progress.Some? && 0.0 <= r.progress.value <= 1.0 then r.progress.value else row.progress,
           upstreamId := if r.upstreamId.Some? then r.upstreamId else row.upstreamId)
  {
    hide Behaviour, Guard, Next, Base, Roomy, OnTime, HonestStops, MediaOk, ApplyAll, RenewOps, TasksOk, DeskOk, AgentSide.ReportsAll, HeldKnown, PollMatches;
    Lengths(c, ss, ts);
    RunInv(c, ss, ts, i);
    At(c, ss, ts, i);
    var q := ss[i].fleet.reqs[ts[i].n];
    forall k | 0 <= k < |q.reports| && k != j ensures q.reports[k].jobId != q.reports[j].jobId {
      if k < j { DistinctReports(q.held, q.reports, k, j); } else { DistinctReports(q.held, q.reports, j, k); }
    }
    PollKeepsOwned(c, ss[i], ts[i], j);
    HeartbeatRow(ss[i].db, q.reports, j, ss[i].clock + c.leaseTtlMs);
  }

  // ------------------------------------------------------------ agents

  /** What the agent holds under leases the gateway still honours. */
  function RightlyHeld(s: Sys, p: PodId): set<JobId>
    requires p in s.fleet.agents
  {
    HeldCurrent(s.db, s.fleet.agents[p].jobs)
  }

  /** No agent ever holds more jobs under current leases than its `max_in_flight`. */
  lemma {:induction false} AgentsNeverOverloaded(c: Config, ss: seq<Sys>, ts: seq<Step>, i: nat, p: PodId)
    requires Behaviour(c, ss, ts) && i < |ss| && p in ss[i].fleet.agents
    ensures RightlyHeld(ss[i], p) == set id | id in ss[i].fleet.agents[p].jobs && id in ss[i].db.rows
      && ss[i].db.rows[id].state == InProgress && ss[i].db.rows[id].leaseId == Some(ss[i].fleet.agents[p].jobs[id])
    ensures |RightlyHeld(ss[i], p)| <= if c.capacity(p) > 1 then c.capacity(p) else 1
  {
    hide Behaviour, Base, Known, OnTime, HonestStops, MediaOk;
    RunInv(c, ss, ts, i);
  }

  /** An agent is never handed a lease under which anyone has already worked. */
  lemma {:induction false} LeasesStartOnce(c: Config, ss: seq<Sys>, ts: seq<Step>, i: nat)
    requires Behaviour(c, ss, ts) && i < |ts| && ts[i].Receive?
    ensures ts[i].k in ss[i].desk.polls && ss[i].desk.polls[ts[i].k].phase.Answered?
    ensures var assign := ss[i].desk.polls[ts[i].k].phase.assign;
      DistinctLeases(assign) && forall l :: l in LeasesOf(assign) ==> l !in ss[i].fleet.tasks
  {
    hide Behaviour, Next, Known, Roomy, OnTime, HonestStops, MediaOk, Base, DistinctLeases, LeasesOf;
    Lengths(c, ss, ts);
    RunInv(c, ss, ts, i);
    At(c, ss, ts, i);
    NeverStarted(ss[i], ts[i].pod, ts[i].k);
  }

  // ------------------------------------------------------------ draining

  lemma {:induction false} DrainStep(c: Config, s: Sys, t: Step, p: PodId)
    requires Guard(c, s, t)
    ensures p in Next(c, s, t).desk.draining <==> t == Drain(p, true) || (p in s.desk.draining && t != Drain(p, false))
  {
    hide Ops, DiskAfter, FleetAfter, Handed, Swept, Arrival, ResultAnswer, Capped;
  }

  /** The order of step `j` to drain the pod still stands. */
  predicate DrainedSince(ts: seq<Step>, j: int, i: nat, p: PodId) {
    0 <= j < i <= |ts| && ts[j] == Drain(p, true) && forall k :: j < k < i ==> ts[k] != Drain(p, false)
  }

  /** A pod is draining from the order to drain it until the order to resume. */
  lemma {:induction false} DrainingIs(c: Config, ss: seq<Sys>, ts: seq<Step>, i: nat, p: PodId)
    requires Behaviour(c, ss, ts) && i < |ss|
    ensures p in ss[i].desk.draining <==> exists j :: DrainedSince(ts, j, i, p)
  {
    hide Guard, Next;
    if i > 0 {
      DrainingIs(c, ss, ts, i - 1, p);
      DrainStep(c, ss[i - 1], ts[i - 1], p);
      forall j ensures DrainedSince(ts, j, i, p) <==>
        (j == i - 1 && ts[j] == Drain(p, true)) || (DrainedSince(ts, j, i - 1, p) && ts[i - 1] != Drain(p, false)) {}
    }
  }

  lemma {:induction false} IdlePoll(c: Config, s: Sys, t: Step)
    requires Guard(c, s, t) && t.Poll? && t.n in s.fleet.reqs
    requires s.fleet.reqs[t.n].pod in s.desk.draining || !s.fleet.reqs[t.n].ready
    ensures t.assign == [] && t.k in Next(c, s, t).desk.polls && Next(c, s, t).desk.polls[t.k].phase == Answered([])
  {
    hide Apply, ApplyAll, DiskAfter, FleetAfter, Ops, StillOwned, CancelNotices, Orphans, QueueWindow, Names, Picked, Claimable;
  }

  /** An arriving poll of a draining pod, or of one that is not ready, is answered at once and with nothing. */
  lemma {:induction false} DrainedGetsNothing(c: Config, ss: seq<Sys>, ts: seq<Step>, i: nat)
    requires Behaviour(c, ss, ts) && i < |ts| && ts[i].Poll? && ts[i].n in ss[i].fleet.reqs
    requires ss[i].fleet.reqs[ts[i].n].pod in ss[i].desk.draining || !ss[i].fleet.reqs[ts[i].n].ready
    ensures ts[i].assign == [] && ts[i].k in ss[i + 1].desk.polls && ss[i + 1].desk.polls[ts[i].k].phase == Answered([])
  {
    hide Behaviour, Guard, Next;
    Lengths(c, ss, ts);
    At(c, ss, ts, i);
    IdlePoll(c, ss[i], ts[i]);
  }

  /** Handling `h` began when poll `k` arrived at step `a`. */
  predicate ArrivedAt(c: Config, ss: seq<Sys>, ts: seq<Step>, a: int, k: nat, h: Handling)
    requires |ss| == |ts| + 1
  {
    && 0 <= a < |ts| && ts[a].Poll? && ts[a].k == k && ts[a].n in ss[a].fleet.reqs
    && h.pod == PodAt(c, ss[a], ts[a].n, ts[a].model) && h.slots == SlotsAt(c, ss[a], ts[a].n, ts[a].model)
  }

  lemma {:induction false} SameHandling(c: Config, s: Sys, t: Step, k: nat)
    requires Guard(c, s, t) && k in Next(c, s, t).desk.polls
    ensures t.Poll? ==> t.n in s.fleet.reqs
    ensures if t.Poll? && t.k == k then
        Next(c, s, t).desk.polls[k].pod == PodAt(c, s, t.n, t.model) && Next(c, s, t).desk.polls[k].slots == SlotsAt(c, s, t.n, t.model)
      else
        k in s.desk.polls && Next(c, s, t).desk.polls[k].pod == s.desk.polls[k].pod
        && Next(c, s, t).desk.polls[k].slots == s.desk.polls[k].slots
  {
    hide Ops, DiskAfter, FleetAfter, Handed, Swept, Apply, ApplyAll, ResultAnswer, Capped, Orphans, CancelNotices, PodAt, SlotsAt;
  }

  lemma {:induction false} Arrived(c: Config, ss: seq<Sys>, ts: seq<Step>, i: nat, k: nat) returns (a: nat)
    requires Behaviour(c, ss, ts) && i < |ss| && k in ss[i].desk.polls
    ensures a < i && ArrivedAt(c, ss, ts, a, k, ss[i].desk.polls[k])
  {
    hide Guard, Next, PodAt, SlotsAt;
    if i > 0 {
      SameHandling(c, ss[i - 1], ts[i - 1], k);
      if ts[i - 1].Poll? && ts[i - 1].k == k { a := i - 1; } else { a := Arrived(c, ss, ts, i - 1, k); }
    }
  }

  lemma {:induction false} GivesToResumed(c: Config, s: Sys, t: Step)
    requires Guard(c, s, t) && t.Resume? && t.assign != []
    ensures t.k in s.desk.polls && s.desk.polls[t.k].slots > 0
  {
    hide ApplyAll, QueueWindow, Names, Picked, Claimable;
  }

  lemma {:induction false} SlotsMean(c: Config, s: Sys, n: nat, model: Option<ModelId>)
    requires n in s.fleet.reqs && SlotsAt(c, s, n, model) > 0
    ensures s.fleet.reqs[n].pod !in s.desk.draining && s.fleet.reqs[n].ready
  {
  }

  /** So a draining pod is handed work in one way only: by a poll that arrived before it was draining, and is
      woken after. */
  lemma {:induction false} DrainedIsGivenOnlyParked(c: Config, ss: seq<Sys>, ts: seq<Step>, i: nat, p: PodId)
    requires Behaviour(c, ss, ts) && i < |ts| && (ts[i].Poll? || ts[i].Resume?) && ts[i].assign != []
    requires ts[i].k in ss[i + 1].desk.polls && ss[i + 1].desk.polls[ts[i].k].pod.podId == p
    ensures p in ss[i].desk.draining ==>
      ts[i].Resume? && exists a :: 0 <= a < i && ts[a].Poll? && ts[a].k == ts[i].k && p !in ss[a].desk.draining
  {
    hide Behaviour, Guard, Next;
    Lengths(c, ss, ts);
    At(c, ss, ts, i);
    SameHandling(c, ss[i], ts[i], ts[i].k);
    if ts[i].Poll? {
      if p in ss[i].desk.draining { IdlePoll(c, ss[i], ts[i]); }
    } else {
      GivesToResumed(c, ss[i], ts[i]);
      var a := Arrived(c, ss, ts, i, ts[i].k);
      SlotsMean(c, ss[a], ts[a].n, ts[a].model);
    }
  }

  // ------------------------------------------------------------ media

  /** Every completed job whose list no cleanup pass has emptied, and whose files none is removing, is
      served with the digest of what its last owner uploaded; and what it is served is those very bytes,
      unless an upload of the job was ever let in while another was in progress. */
  lemma {:induction false} ContentIsGenuine(c: Config, ss: seq<Sys>, ts: seq<Step>, i: nat, id: JobId) returns (l: LeaseId)
    requires Behaviour(c, ss, ts) && i < |ss| && Shown(ss[i].db, ss[i].disk, id)
    ensures id in ss[i].db.log && LastOwner(ss[i].db.log[id], l)
    ensures l in ss[i].fleet.tasks && ss[i].fleet.tasks[l].job == id && ss[i].fleet.tasks[l].media.Some?
    ensures var media, served := ss[i].fleet.tasks[l].media.value, ContentOf(ss[i].db.rows, ss[i].disk.files, id);
      && served.Content? && served.sha256 == Some(c.hash(media))
      && (id !in ss[i].disk.clashed ==> served.body == media)
  {
    hide Behaviour, Base, Known, Roomy, OnTime, HonestStops, LastOwner, UploadStands, SuccessTrue, StreamsOk;
    RunInv(c, ss, ts, i);
    l :| DeliveredBy(c, ss[i].db, ss[i].disk, ss[i].fleet.tasks, id, l);
  }

  /** An upload of the job is let in while another is in progress. */
  predicate Clash(c: Config, s: Sys, t: Step, id: JobId) {
    && t.Upload? && t.lease in s.fleet.tasks && s.fleet.tasks[t.lease].media.Some? && s.fleet.tasks[t.lease].job == id
    && Refusal(c, s, t.lease).None? && UploadsOf(s.disk, id) != {}
  }

  lemma {:induction false} ClashStep(c: Config, s: Sys, t: Step, id: JobId)
    requires Guard(c, s, t)
    ensures id in Next(c, s, t).disk.clashed <==> id in s.disk.clashed || Clash(c, s, t, id)
  {
    hide Guard, Next, CanMove, Moved, UploadsOf, UploadRefusal;
    DiskStep(c, s, t);
    Histories(s.disk, MoveOf(c, s, t));
  }

  /** `clashed` is what its name says. */
  lemma {:induction false} ClashedExactly(c: Config, ss: seq<Sys>, ts: seq<Step>, i: nat, id: JobId)
    requires Behaviour(c, ss, ts) && i < |ss|
    ensures id in ss[i].disk.clashed <==> exists j :: 0 <= j < i && Clash(c, ss[j], ts[j], id)
  {
    hide Guard, Next, Clash;
    if i > 0 {
      ClashedExactly(c, ss, ts, i - 1, id);
      ClashStep(c, ss[i - 1], ts[i - 1], id);
    }
  }

  lemma {:induction false} NothingComesBack(c: Config, ss: seq<Sys>, ts: seq<Step>, i: nat, id: JobId)
    requires Behaviour(c, ss, ts) && i < |ss|
    requires forall j :: 0 <= j < i && ts[j] == RemoveMedia(id) ==> UploadsOf(ss[j].disk, id) == {}
    ensures Cleared(ss[i].disk, id)
  {
    hide Guard, Next, Known, Roomy, OnTime, HonestStops, MediaOk, Base, UploadsOf;
    if i > 0 {
      NothingComesBack(c, ss, ts, i - 1, id);
      RunInv(c, ss, ts, i - 1);
      ClearedStep(c, ss[i - 1], ts[i - 1], id);
    }
  }

  /** A completed job that still lists its artifact is served exactly while no cleanup pass has begun to
      remove its files, if none did so under an upload of the job in progress. */
  lemma {:induction false} ServedUnlessRemoving(c: Config, ss: seq<Sys>, ts: seq<Step>, i: nat, id: JobId)
    requires Behaviour(c, ss, ts) && i < |ss|
    requires id in ss[i].db.rows && ss[i].db.rows[id].state.Completed? && ss[i].db.rows[id].artifacts != []
    requires forall j :: 0 <= j < i && ts[j] == RemoveMedia(id) ==> UploadsOf(ss[j].disk, id) == {}
    ensures ContentOf(ss[i].db.rows, ss[i].disk.files, id).Content? <==> id !in ss[i].disk.removing
    ensures id in ss[i].disk.removing ==> ContentOf(ss[i].db.rows, ss[i].disk.files, id).Expired?
  {
    hide Behaviour, Base, Known, Roomy, OnTime, HonestStops, MediaOk, UploadsOf;
    NothingComesBack(c, ss, ts, i, id);
    if id !in ss[i].disk.removing { var l := ContentIsGenuine(c, ss, ts, i, id); }
  }

  // ------------------------------------------------------------ cancellation

  /** No job is ever cancelled that no client asked to cancel. */
  lemma {:induction false} NobodyCancelledUnasked(c: Config, ss: seq<Sys>, ts: seq<Step>, i: nat, id: JobId)
    requires Behaviour(c, ss, ts) && i < |ss| && id in ss[i].db.rows && ss[i].db.rows[id].state.Cancelled?
    ensures ss[i].db.rows[id].cancelRequested
  {
    hide Behaviour, Base, Known, Roomy, OnTime, MediaOk, TaskHonest, AnswerHonest;
    RunInv(c, ss, ts, i);
  }

  lemma {:induction false} MadeIs(db: Db, id: JobId, m: nat)
    requires Inv(db, m) && id in db.rows
    ensures id in db.made
  {
    assert JobOk(db, id, m);
  }

  lemma {:induction false} SweptLate(c: Config, row: Job, now: int)
    ensures row.deadlineAt < now ==> !Live(SweptRow(c, row, now).state)
  {
  }

  /** A cancel once recorded is enforced on time. Later requests do not move it. The first sweep more
      than the grace after it takes a job in flight from its pod: the job is finished, except that the
      earlier lease pass may have put it back in the queue, which happens exactly when its lease had run
      out, it has attempts left and its deadline has not passed. */
  lemma {:induction false} CancelIsEnforced(c: Config, ss: seq<Sys>, ts: seq<Step>, i: nat, j: nat, id: JobId)
    requires Behaviour(c, ss, ts) && i <= j < |ts|
    requires id in ss[i].db.rows && ss[i].db.rows[id].cancelRequestedAt.Some?
    requires id in ss[j].db.rows
    ensures Live(ss[j].db.rows[id].state) ==> ss[j].db.rows[id].cancelRequestedAt == ss[i].db.rows[id].cancelRequestedAt
    ensures ts[j].Sweep? && ss[i].db.rows[id].cancelRequestedAt.value < ss[j].clock - c.cancelGraceMs ==>
      id in ss[j + 1].db.rows && !ss[j + 1].db.rows[id].state.InProgress?
      && (ss[j].db.rows[id].state.InProgress? ==>
            if Requeueable(c, ss[j].db.rows[id], ss[j].clock) then ss[j + 1].db.rows[id].state.Queued?
            else !Live(ss[j + 1].db.rows[id].state))
  {
    hide Behaviour, Guard, Next, Known, Roomy, OnTime, HonestStops, MediaOk, LegalRun, ApplyAll, Outdated, Inv, Rank, TasksGrow, SweptRow;
    Lengths(c, ss, ts);
    RunLater(c, ss, ts, i, j);
    assert JobEvolves(ss[i].db, ss[j].db, id, c.maxAttempts);
    MadeIs(ss[i].db, id, c.maxAttempts);
    if ts[j].Sweep? {
      At(c, ss, ts, j);
      SweepRows(c, ss[j], ts[j]);
      RowIsOk(ss[j].db, id, c.maxAttempts);
      SweptRowIs(c, ss[j].db.rows[id], ss[j].clock);
    }
  }

  /** The first sweep after a job's deadline leaves it finished for good. */
  lemma {:induction false} DeadlineIsFinal(c: Config, ss: seq<Sys>, ts: seq<Step>, i: nat, j: nat, id: JobId)
    requires Behaviour(c, ss, ts) && i < j < |ss| && ts[i].Sweep?
    requires id in ss[i].db.rows && ss[i].db.rows[id].deadlineAt < ss[i].clock
    ensures id in ss[j].db.rows ==> !Live(ss[j].db.rows[id].state)
  {
    hide Behaviour, Guard, Next, Known, Roomy, OnTime, HonestStops, MediaOk, LegalRun, ApplyAll, Outdated, Inv, Rank, TasksGrow, SweptRow;
    Lengths(c, ss, ts);
    RunInv(c, ss, ts, i);
    At(c, ss, ts, i);
    SweepRows(c, ss[i], ts[i]);
    SweptLate(c, ss[i].db.rows[id], ss[i].clock);
    RunLater(c, ss, ts, i + 1, j);
    MadeIs(ss[i + 1].db, id, c.maxAttempts);
    assert JobEvolves(ss[i + 1].db, ss[j].db, id, c.maxAttempts);
  }

  // ------------------------------------------------------------ leases

  lemma {:induction false} ReportEnds(c: Config, s: Sys, id: JobId, l: LeaseId)
    requires Inv(s.db, c.maxAttempts) && MediaOk(c, s) && Guard(c, s, Step.Result(l)) && Current(s.db, id, l)
    requires l in s.fleet.tasks && s.fleet.tasks[l].job == id
    ensures !Current(Next(c, s, Step.Result(l)).db, id, l)
  {
    hide Inv, Shown, Delivered, UploadStands, StreamsOk, SafeFilename, DeskAfter, DiskAfter, FleetAfter, Apply, ApplyAll;
    SafeOutput();
    RowIsOk(s.db, id, c.maxAttempts);
    assert SuccessTrue(c, s.disk, l, s.fleet.tasks[l]);
    ResultIsFenced(s.db, id, l, s.fleet.tasks[l].outcome.value, c.maxAttempts, s.clock);
  }

  lemma {:induction false} InContact(c: Config, s: Sys, id: JobId)
    requires OnTime(c, s) && id in s.db.rows && s.db.rows[id].state.InProgress?
    ensures id in s.desk.contact
    ensures LateContact(c, s, id) <==>
      if id in s.desk.heard || s.desk.restart.None? then s.clock > s.desk.contact[id] + c.leaseTtlMs
      else s.clock > s.desk.restart.value + c.maxPollWaitMs * 2
  {
    assert Due(c, s.desk, s.clock, id, s.db.rows[id]);
  }

  /** At any step of any run, a job in flight is taken from its lease exactly by the pod's own report, or
      by a sweep that finds its contact late, its deadline passed or its cancel past the grace. */
  lemma {:induction false} LeasesAreKept(c: Config, ss: seq<Sys>, ts: seq<Step>, i: nat, id: JobId, l: LeaseId)
    requires Behaviour(c, ss, ts) && i < |ts| && Current(ss[i].db, id, l)
    ensures id in ss[i].desk.contact
    ensures var s, row := ss[i], ss[i].db.rows[id];
      !Current(ss[i + 1].db, id, l) <==>
        (ts[i] == Step.Result(l) && l in s.fleet.tasks && s.fleet.tasks[l].job == id)
        || (ts[i].Sweep?
            && ((if id in s.desk.heard || s.desk.restart.None? then s.clock > s.desk.contact[id] + c.leaseTtlMs
                 else s.clock > s.desk.restart.value + c.maxPollWaitMs * 2)
                || row.deadlineAt < s.clock
                || (row.cancelRequested && row.cancelRequestedAt.Some? && row.cancelRequestedAt.value < s.clock - c.cancelGraceMs)))
  {
    hide Behaviour, Guard, Next, Known, Roomy, OnTime, HonestStops, MediaOk, LegalRun, ApplyAll, Outdated, Inv, LateContact, OnTime;
    Lengths(c, ss, ts);
    RunInv(c, ss, ts, i);
    At(c, ss, ts, i);
    LeaseTaken(c, ss[i], ts[i], id, l);
    InContact(c, ss[i], id);
    if ts[i] == Step.Result(l) && l in ss[i].fleet.tasks && ss[i].fleet.tasks[l].job == id { ReportEnds(c, ss[i], id, l); }
  }

  // ------------------------------------------------------------ wake-ups

  lemma {:induction false} NothingParked(k: nat, id: JobId)
    ensures !SleepsBeside(START, k, id)
  {
  }

  lemma {:induction false} NoneParked()
    ensures NoLostWakeup(START)
  {
  }

  lemma {:induction false} TableOf(c: Config, s: Sys)
    requires SysInv(c, s)
    ensures Inv(s.db, c.maxAttempts)
  {
  }

  /** Poll `k` arrived at step `a`, looked past job `id`, which was queued then, found nothing that suits it,
      and has been parked beside that job ever since. */
  ghost predicate PassedOver(ss: seq<Sys>, ts: seq<Step>, a: int, i: nat, k: nat, id: JobId)
    requires |ss| == |ts| + 1 && i < |ss|
  {
    && 0 <= a < i && ts[a].Poll? && ts[a].k == k
    && id in QueuedIds(ss[a].db.rows) && id !in IdsOf(ts[a].window)
    && (forall b :: a < b <= i ==> SleepsBeside(ss[b], k, id))
    && (forall x :: x in ts[a].window ==> !Suits(ss[a + 1].desk.polls[k].pod, x))
  }

  lemma {:induction false} PassedAt(c: Config, ss: seq<Sys>, ts: seq<Step>, i: nat, k: nat, id: JobId) returns (a: nat)
    requires Behaviour(c, ss, ts) && i < |ss| && SleepsBeside(ss[i], k, id)
    ensures PassedOver(ss, ts, a, i, k, id)
  {
    hide Guard, Next, SysInv, SleepsBeside, Suits, IdsOf, QueuedIds;
    NothingParked(k, id);
    RunInv(c, ss, ts, i - 1);
    TableOf(c, ss[i - 1]);
    At(c, ss, ts, i - 1);
    SleepsOnlyPastWindow(c, ss[i - 1], ts[i - 1], k, id);
    if ts[i - 1].Poll? && ts[i - 1].k == k {
      a := i - 1;
    } else {
      a := PassedAt(c, ss, ts, i - 1, k, id);
    }
  }

  /** In every run, exactly such a poll is parked beside such a job: whatever enters or re-enters the queue
      after a poll has parked wakes it, so only what the poll looked past when it arrived can wait beside it. */
  lemma {:induction false} SleepersPassedOver(c: Config, ss: seq<Sys>, ts: seq<Step>, i: nat, k: nat, id: JobId)
    requires Behaviour(c, ss, ts) && i < |ss|
    ensures SleepsBeside(ss[i], k, id) <==> exists a :: PassedOver(ss, ts, a, i, k, id)
  {
    if SleepsBeside(ss[i], k, id) {
      var a := PassedAt(c, ss, ts, i, k, id);
    }
  }

  /** Where every poll so far found the queue within the window on arriving, no poll is parked beside a
      queued job of its model. */
  lemma {:induction false} NoPollSleepsBesideWork(c: Config, ss: seq<Sys>, ts: seq<Step>, i: nat)
    requires Behaviour(c, ss, ts) && i < |ss| && forall j :: 0 <= j < i && ts[j].Poll? ==> QueueFits(ss[j].db)
    ensures NoLostWakeup(ss[i])
  {
    hide Guard, Next, SysInv, NoLostWakeup, QueueFits;
    if i == 0 {
      NoneParked();
    } else {
      NoPollSleepsBesideWork(c, ss, ts, i - 1);
      RunInv(c, ss, ts, i - 1);
      TableOf(c, ss[i - 1]);
      At(c, ss, ts, i - 1);
      NoLostWakeupStep(c, ss[i - 1], ts[i - 1]);
    }
  }
}
