/** The agent's own methods take the protocol's agent steps; in particular a run of the runner, with the
    gateway's real answers to its uploads, ends in a report the protocol allows. */
module AgentHandlers {
  import opened Types
  import opened TableInvariant
  import opened Claims
  import opened Uploads
  import opened Artifacts
  import opened AgentRoutes
  import opened Protocol
  import opened AgentSide
  import opened Custody
  import opened Media
  import opened Behaviours

  /** What the agent object of pod `p` holds and has flagged is what the protocol says of it. */
  ghost predicate Mirrors(s: Sys, p: PodId, held: map<JobId, LeaseId>, flags: map<JobId, bool>) {
    && p in s.fleet.agents && s.fleet.agents[p].jobs == held && flags.Keys == held.Keys
    && (forall id :: id in held ==> held[id] in s.fleet.tasks && s.fleet.tasks[held[id]].flagged == flags[id])
  }

  /** `Agent.InFlight`, sent with the next poll. */
  lemma {:induction false} SendTakesAStep(c: Config, s: Sys, p: PodId, n: nat, reports: seq<Report>, ready: bool,
                                          held: map<JobId, LeaseId>, flags: map<JobId, bool>)
    requires Mirrors(s, p, held, flags) && ReportsAll(held, reports)
    requires s.fleet.agents[p].poll.None? && n !in s.fleet.reqs
    ensures Guard(c, s, SendPoll(p, n, reports, ready))
    ensures Mirrors(Next(c, s, SendPoll(p, n, reports, ready)), p, held, flags)
  {
    hide ReportsAll;
  }

  lemma {:induction false} FlagAfter(tasks: map<LeaseId, Task>, held: map<JobId, LeaseId>, h: Handling, id: JobId)
    requires HeldKnown(tasks, held) && id in held
    ensures held[id] in Flag(tasks, held, h)
    ensures Flag(tasks, held, h)[held[id]].flagged <==> tasks[held[id]].flagged || id in h.orphan || id in h.cancel
  {
  }

  /** A job newly held is held under a lease that was just given. */
  lemma {:induction false} NewLease(tasks: map<LeaseId, Task>, held: map<JobId, LeaseId>, assign: seq<Assignment>, id: JobId)
    requires id in StartAll(held, assign) && id !in held
    ensures StartAll(held, assign)[id] in LeasesOf(assign)
  {
    var n := |assign| - 1;
    if id in StartAll(held, assign[..n]) {
      StartAllHolds(held, assign[..n]);
      NewLease(tasks, held, assign[..n], id);
    }
  }

  lemma {:induction false} StartedClear(tasks: map<LeaseId, Task>, held: map<JobId, LeaseId>, assign: seq<Assignment>, p: PodId, id: JobId)
    requires DistinctLeases(assign) && HeldKnown(tasks, held) && forall l :: l in LeasesOf(assign) ==> l !in tasks
    requires id in StartAll(held, assign)
    ensures var tasks', held' := NewTasks(tasks, held, assign, p), StartAll(held, assign);
      && held'[id] in tasks'
      && (if id in held then held'[id] == held[id] && tasks'[held'[id]] == tasks[held[id]] else !tasks'[held'[id]].flagged)
  {
    StartedTasks(tasks, held, assign, p);
    if id !in held { NewLease(tasks, held, assign, id); }
  }

  lemma {:induction false} FlagKeeps(tasks: map<LeaseId, Task>, held: map<JobId, LeaseId>, h: Handling)
    requires HeldKnown(tasks, held)
    ensures HeldKnown(Flag(tasks, held, h), held) && Flag(tasks, held, h).Keys == tasks.Keys
  {
  }

  /** `Agent.Receive` of an answer to the outstanding poll. */
  lemma {:induction false} ReceiveTakesAStep(c: Config, s: Sys, p: PodId, k: nat, cancel: seq<JobId>,
                                             held: map<JobId, LeaseId>, flags: map<JobId, bool>, flags': map<JobId, bool>)
    requires Known(s) && Mirrors(s, p, held, flags)
    requires k in s.desk.polls && s.fleet.agents[p].poll == Some(s.desk.polls[k].req) && s.desk.polls[k].phase.Answered?
    requires var h := s.desk.polls[k];
      && (forall id :: id in cancel <==> id in h.cancel)
      && flags'.Keys == StartAll(held, h.phase.assign).Keys && FlagsTold(flags, flags', h.orphan, cancel)
    ensures Guard(c, s, Step.Receive(p, k))
    ensures Mirrors(Next(c, s, Step.Receive(p, k)), p, StartAll(held, s.desk.polls[k].phase.assign), flags')
  {
    hide DeskOk, TasksOk, ReportsAll, StartAll, NewTasks, Flag, LeasesOf, DistinctLeases, PollMatches, DeskAfter, DiskAfter, Ops;
    var h := s.desk.polls[k];
    var assign, flagged := h.phase.assign, Flag(s.fleet.tasks, held, h);
    NeverStarted(s, p, k);
    FlagKeeps(s.fleet.tasks, held, h);
    forall id | id in StartAll(held, assign)
      ensures StartAll(held, assign)[id] in NewTasks(flagged, held, assign, p)
      ensures NewTasks(flagged, held, assign, p)[StartAll(held, assign)[id]].flagged == flags'[id] {
      StartedClear(flagged, held, assign, p, id);
      if id in held { FlagAfter(s.fleet.tasks, held, h, id); }
    }
  }

  /** `Agent.Drop`. */
  lemma {:induction false} DropTakesAStep(c: Config, s: Sys, p: PodId, id: JobId, held: map<JobId, LeaseId>, flags: map<JobId, bool>)
    requires Mirrors(s, p, held, flags)
    ensures Guard(c, s, Step.Drop(p, id)) && Mirrors(Next(c, s, Step.Drop(p, id)), p, held - {id}, flags - {id})
  {
  }

  // ------------------------------------------------------------ the runner

  /** The status code of an answer to an upload. */
  function CodeOf(reply: UploadReply): int {
    match reply
    case NotFound => 404
    case StaleLease => 409
    case BadName => 400
    case TooLarge => 413
    case Mismatch => 400
    case Accepted(_) => 200
  }

  /** Attempt `a` was answered by the gateway at step `j`. */
  ghost predicate AnsweredAt(c: Config, ss: seq<Sys>, ts: seq<Step>, j: int, l: LeaseId, a: Attempt)
    requires |ss| == |ts| + 1
  {
    && 0 <= j < |ts|
    && ((ts[j].Upload? && ts[j].lease == l && l in ss[j].fleet.tasks && ss[j].fleet.tasks[l].media.Some?
           && Refusal(c, ss[j], l).Some? && a == Status(CodeOf(Refusal(c, ss[j], l).value)))
        || (ts[j].EndUpload? && ts[j].u in ss[j].disk.streams && ss[j].disk.streams[ts[j].u].lease == l && a == Status(200)))
  }

  ghost predicate Saw(ss: seq<Sys>, j: int, n: nat, l: LeaseId) {
    0 <= j <= n < |ss| && l in ss[j].fleet.tasks && ss[j].fleet.tasks[l].flagged
  }

  /** The world a task has seen by moment `n` of a run of the system. Its uploads carry the body of its
      one `StartUpload`; every answer below 500 is the gateway's own, anything else is trouble on the way;
      and the flag it saw was set by an answer it received. */
  ghost predicate Lived(c: Config, ss: seq<Sys>, ts: seq<Step>, n: nat, l: LeaseId, w: World, uploadAttempts: nat)
    requires |ss| == |ts| + 1 && n < |ss| && WorldOk(w) && |w.uploads| >= uploadAttempts
  {
    && l in ss[n].fleet.tasks
    && (Rendered(w) ==> ss[n].fleet.tasks[l].media == Some(w.download.body))
    && (forall i :: 0 <= i < uploadAttempts && w.uploads[i].Status? && w.uploads[i].code < 500 ==>
          exists j :: j < n && AnsweredAt(c, ss, ts, j, l, w.uploads[i]))
    && (w.cancelAfterInput || (exists i :: 0 <= i < |w.polls| && w.cancelAt[i]) ==>
          exists j :: Saw(ss, j, n, l))
  }

  /** An upload the gateway accepted is acknowledged from then on. */
  lemma {:induction false} AcceptedIsAcked(c: Config, ss: seq<Sys>, ts: seq<Step>, j: nat, n: nat, l: LeaseId, a: Attempt)
    requires Behaviour(c, ss, ts) && j < n < |ss| && AnsweredAt(c, ss, ts, j, l, a) && a.code < 300
    ensures l in ss[n].disk.acked
  {
    hide Guard, Next, Behaviour, SysInv, SafeFilename, Fences, Evolves, TasksGrow, Moved, CanMove;
    Lengths(c, ss, ts);
    At(c, ss, ts, j);
    DiskStep(c, ss[j], ts[j]);
    Histories(ss[j].disk, MoveOf(c, ss[j], ts[j]));
    RunLater(c, ss, ts, j + 1, n);
  }

  lemma {:induction false} AnsweredEarlier(c: Config, ss: seq<Sys>, ts: seq<Step>, j: int, l: LeaseId, a: Attempt)
    requires |ss| == |ts| + 1 && AnsweredAt(c, ss, ts, j, l, a)
    ensures 0 <= j < |ts|
  {
  }

  /** What a run of the runner reports, the protocol lets the agent report: a success only of the body the
      gateway acknowledged, a cancel only when told. */
  lemma {:induction false} RunIsHonest(c: Config, ss: seq<Sys>, ts: seq<Step>, n: nat, l: LeaseId, w: World, uploadAttempts: nat, end: RunEnd)
    requires Behaviour(c, ss, ts) && n < |ss| && WorldOk(w) && |w.uploads| >= uploadAttempts
    requires Lived(c, ss, ts, n, l, w, uploadAttempts) && Ran(w, uploadAttempts, c.hash, end) && end.Reported?
    ensures Honest(c, ss[n], l, end.outcome)
  {
    hide Guard, Next, Behaviour, SysInv, AnsweredAt, Settles, Quiet, Rendered, EndsAs, Evolves;
    Lengths(c, ss, ts);
    if end.outcome.Succeeded? {
      var i :| FirstAnswer(w.uploads, uploadAttempts, i) && w.uploads[i].code < 300;
      var j :| j < n && AnsweredAt(c, ss, ts, j, l, w.uploads[i]);
      AnsweredEarlier(c, ss, ts, j, l, w.uploads[i]);
      AcceptedIsAcked(c, ss, ts, j, n, l, w.uploads[i]);
    } else if end.outcome.CancelAck? {
      var j :| Saw(ss, j, n, l);
      RunLater(c, ss, ts, j, n);
    }
  }

  /** So the task may finish with it. */
  lemma {:induction false} RunTakesAStep(c: Config, ss: seq<Sys>, ts: seq<Step>, n: nat, p: PodId, id: JobId, l: LeaseId,
                                         w: World, uploadAttempts: nat, end: RunEnd)
    requires Behaviour(c, ss, ts) && n < |ss| && WorldOk(w) && |w.uploads| >= uploadAttempts
    requires Lived(c, ss, ts, n, l, w, uploadAttempts) && Ran(w, uploadAttempts, c.hash, end) && end.Reported?
    requires Holding(ss[n], p, id) && ss[n].fleet.agents[p].jobs[id] == l && ss[n].fleet.tasks[l].outcome.None?
    ensures Guard(c, ss[n], Finish(p, id, end.outcome))
  {
    hide Behaviour, Lived, Ran, Next, Honest;
    RunIsHonest(c, ss, ts, n, l, w, uploadAttempts, end);
  }
}
