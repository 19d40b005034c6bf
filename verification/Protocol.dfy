/** The gateway, its agents and an unreliable network as one state machine. A step is the code between
    two awaits. The network is the senders' own memory: a request once made may reach the gateway at
    any later moment, any number of times or never; an answer may be lost; an agent may die. */
module Protocol {
  import opened Types
  import opened JobTable
  import opened Store
  import opened Claims
  import opened Artifacts
  import opened Uploads
  import opened AgentRoutes
  import opened VideoRoutes
  import opened Reaper
  import AgentSide

  datatype Config = Config(
    leaseTtlMs: int, maxAttempts: nat, cancelGraceMs: int, maxPollWaitMs: int, artifactTtlMs: int,
    jobRetentionMs: int, maxArtifactBytes: nat, capacity: PodId -> int, hash: Bytes -> Digest)

  /** `max_in_flight` of a pod: agent and gateway both raise it to at least one. */
  function Room(c: Config, p: PodId): (room: nat)
    ensures room >= 1
  {
    Max(1, c.capacity(p))
  }

  /** `index.ts`: leases found at startup are pushed out by two poll windows. */
  function RestartGrace(c: Config): int { c.maxPollWaitMs * 2 }

  /** A poll as sent: what the agent held, and how it reported it. */
  datatype Request = Request(pod: PodId, held: map<JobId, LeaseId>, reports: seq<Report>, ready: bool)

  datatype Phase = Parked | Woken | Answered(assign: seq<Assignment>) | Lost

  /** One arrival of a poll at the gateway. */
  datatype Handling = Handling(req: nat, pod: Pod, slots: nat, orphan: seq<JobId>, cancel: set<JobId>, phase: Phase)

  /** One started assignment, kept after it ends: its messages may still be under way. */
  datatype Task = Task(job: JobId, pod: PodId, media: Option<Bytes>, flagged: bool, outcome: Option<Outcome>)

  datatype Worker = Worker(jobs: map<JobId, LeaseId>, poll: Option<nat>)

  /** All but `polls` and `draining` is history: which arrival handed out a lease, when a job was last
      claimed or renewed, for which jobs that was since the gateway last started, and when it started. */
  datatype Desk = Desk(polls: map<nat, Handling>, draining: set<PodId>, granted: map<LeaseId, nat>,
                       contact: map<JobId, int>, heard: set<JobId>, restart: Option<int>)

  datatype Fleet = Fleet(agents: map<PodId, Worker>, reqs: map<nat, Request>, tasks: map<LeaseId, Task>)

  datatype Sys = Sys(db: Db, hist: seq<Op>, clock: int, desk: Desk, disk: Disk, fleet: Fleet)

  datatype Step =
    | Tick(to: int)
    | Create(job: NewJob)
    | Delete(id: JobId)
    | Poll(k: nat, n: nat, model: Option<ModelId>, assign: seq<Assignment>, window: seq<Job>, patient: bool)
    | TimeOut(k: nat)
    | Resume(k: nat, assign: seq<Assignment>, window: seq<Job>)
    | KickAll
    | Upload(lease: LeaseId, u: nat)
    | OpenPart(u: nat)
    | WritePart(u: nat, n: nat)
    | RenamePart(u: nat)
    | BreakUpload(u: nat)
    | EndUpload(u: nat)
    | Result(lease: LeaseId)
    | Sweep(s1: seq<Job>, s2: seq<Job>, s3: seq<Job>)
    | Restart
    | ListExpired
    | RemoveMedia(id: JobId)
    | ClearMedia(id: JobId)
    | RemoveStray(id: JobId)
    | PurgeOld(started: int)
    | Drain(pod: PodId, on: bool)
    | Boot(pod: PodId)
    | SendPoll(pod: PodId, n: nat, reports: seq<Report>, ready: bool)
    | LosePoll(pod: PodId)
    | Receive(pod: PodId, k: nat)
    | StartUpload(pod: PodId, id: JobId, media: Bytes)
    | Finish(pod: PodId, id: JobId, outcome: Outcome)
    | Drop(pod: PodId, id: JobId)

  // ------------------------------------------------------------ when a step may happen

  /** What `touch` returns for this poll; which model the pod serves is the registry's business. */
  function PodAt(c: Config, s: Sys, n: nat, model: Option<ModelId>): Pod
    requires n in s.fleet.reqs
  {
    var r := s.fleet.reqs[n];
    Pod(r.pod, model, Room(c, r.pod), r.ready, r.pod in s.desk.draining)
  }

  function SlotsAt(c: Config, s: Sys, n: nat, model: Option<ModelId>): nat
    requires n in s.fleet.reqs
  {
    FreeSlots(PodAt(c, s, n, model), |StillOwned(s.db, s.fleet.reqs[n].reports)|)
  }

  function Heartbeat(c: Config, s: Sys, n: nat): seq<Op>
    requires n in s.fleet.reqs
  {
    RenewOps(s.fleet.reqs[n].reports, s.clock + c.leaseTtlMs)
  }

  function Claiming(c: Config, s: Sys, pod: PodId, assign: seq<Assignment>): seq<Op> {
    ClaimOps(assign, pod, s.clock + c.leaseTtlMs, s.clock)
  }

  ghost predicate PollGuard(c: Config, s: Sys, k: nat, n: nat, model: Option<ModelId>, assign: seq<Assignment>, window: seq<Job>) {
    && k !in s.desk.polls && n in s.fleet.reqs
    && (var pod, mid := PodAt(c, s, n, model), ApplyAll(s.db, Heartbeat(c, s, n));
        Handed(mid, ApplyAll(mid, Claiming(c, s, pod.podId, assign)), pod, SlotsAt(c, s, n, model),
               s.clock + c.leaseTtlMs, s.clock, assign, window))
  }

  ghost predicate ResumeGuard(c: Config, s: Sys, k: nat, assign: seq<Assignment>, window: seq<Job>) {
    && k in s.desk.polls && s.desk.polls[k].phase.Woken?
    && (var h := s.desk.polls[k];
        Handed(s.db, ApplyAll(s.db, Claiming(c, s, h.pod.podId, assign)), h.pod, h.slots,
               s.clock + c.leaseTtlMs, s.clock, assign, window))
  }

  predicate Holding(s: Sys, p: PodId, id: JobId) {
    && p in s.fleet.agents && id in s.fleet.agents[p].jobs
    && s.fleet.agents[p].jobs[id] in s.fleet.tasks
  }

  function TaskOf(s: Sys, p: PodId, id: JobId): Task
    requires Holding(s, p, id)
  {
    s.fleet.tasks[s.fleet.agents[p].jobs[id]]
  }

  /** What the runner may report: success only after an accepted upload, and then of those very
      bytes; an acknowledged cancel only when told to stop. */
  predicate Honest(c: Config, s: Sys, lease: LeaseId, o: Outcome)
    requires lease in s.fleet.tasks
  {
    var t := s.fleet.tasks[lease];
    match o
    case Succeeded(_, _, _) => t.media.Some? && lease in s.disk.acked && o == AgentSide.SuccessOf(t.media.value, c.hash)
    case CancelAck => t.flagged
    case Broke(_, _) => true
  }

  ghost predicate Guard(c: Config, s: Sys, t: Step) {
    match t
    case Tick(to) => s.clock <= to
    case Create(job) => job.id !in s.db.made && job.createdAt <= s.clock
    case Delete(_) => true
    case Poll(k, n, model, assign, window, _) => PollGuard(c, s, k, n, model, assign, window)
    case TimeOut(k) => k in s.desk.polls && s.desk.polls[k].phase.Parked?
    case Resume(k, assign, window) => ResumeGuard(c, s, k, assign, window)
    case KickAll => true
    case Upload(l, u) => l in s.fleet.tasks && s.fleet.tasks[l].media.Some? && u !in s.disk.streams
    case OpenPart(u) => CanMove(s.disk, Move.Open(u))
    case WritePart(u, n) => CanMove(s.disk, Move.Write(u, n))
    case RenamePart(u) => CanMove(s.disk, Move.Rename(u))
    case BreakUpload(u) => CanMove(s.disk, Move.Break(u))
    case EndUpload(u) => CanMove(s.disk, Move.End(u))
    case Result(l) => l in s.fleet.tasks && s.fleet.tasks[l].outcome.Some?
    case Sweep(s1, s2, s3) =>
      Swept(s.db, ApplyAll(s.db, SweepOps(s1, s2, s3, s.clock, c.maxAttempts)), s1, s2, s3, s.clock, c.maxAttempts, c.cancelGraceMs)
    case Restart => true
    case ListExpired => true
    case RemoveMedia(id) => id in s.disk.listed
    case ClearMedia(id) => id in s.disk.listed && id in s.disk.removing
    case RemoveStray(id) => id !in s.db.rows
    case PurgeOld(started) => started <= s.clock
    case Drain(_, _) => true
    case Boot(_) => true
    case SendPoll(p, n, reports, _) =>
      && p in s.fleet.agents && s.fleet.agents[p].poll.None? && n !in s.fleet.reqs
      && AgentSide.ReportsAll(s.fleet.agents[p].jobs, reports)
    case LosePoll(p) => p in s.fleet.agents
    case Receive(p, k) =>
      && p in s.fleet.agents && k in s.desk.polls
      && s.fleet.agents[p].poll == Some(s.desk.polls[k].req) && s.desk.polls[k].phase.Answered?
    case StartUpload(p, id, _) => Holding(s, p, id) && TaskOf(s, p, id).media.None?
    case Finish(p, id, o) =>
      Holding(s, p, id) && TaskOf(s, p, id).outcome.None? && Honest(c, s, s.fleet.agents[p].jobs[id], o)
    case Drop(p, id) => p in s.fleet.agents
  }

  // ------------------------------------------------------------ what it does

  /** Why the gateway turns the upload of this task away, if it does. The network leaves bodies intact. */
  function Refusal(c: Config, s: Sys, l: LeaseId): Option<UploadReply>
    requires l in s.fleet.tasks && s.fleet.tasks[l].media.Some?
  {
    var x := s.fleet.tasks[l];
    UploadRefusal(s.db, x.job, l, OUTPUT, Some(|x.media.value|), c.maxArtifactBytes)
  }

  /** What the step does to the job directories. */
  function MoveOf(c: Config, s: Sys, t: Step): Move
    requires t.Upload? ==> t.lease in s.fleet.tasks && s.fleet.tasks[t.lease].media.Some?
  {
    match t
    case Upload(l, u) =>
      var x := s.fleet.tasks[l];
      if Refusal(c, s, l).Some? then Keep
      else Admit(u, Stream(l, x.job, s.db.rows[x.job].podId, x.media.value, 0, Admitted))
    case OpenPart(u) => Move.Open(u)
    case WritePart(u, n) => Move.Write(u, n)
    case RenamePart(u) => Move.Rename(u)
    case BreakUpload(u) => Move.Break(u)
    case EndUpload(u) => Move.End(u)
    case RemoveMedia(id) => Remove(id)
    case RemoveStray(id) => Remove(id)
    case Restart => Crash
    case _ => Keep
  }

  /** The statements the step issues on the job store. */
  ghost function Ops(c: Config, s: Sys, t: Step): seq<Op>
    requires Guard(c, s, t)
  {
    match t
    case Create(job) => [Op.Create(job)]
    case Delete(id) => DeleteOps(s.db, id, s.clock)
    case Poll(_, n, _, assign, _, _) => Heartbeat(c, s, n) + Claiming(c, s, s.fleet.reqs[n].pod, assign)
    case Resume(k, assign, _) => Claiming(c, s, s.desk.polls[k].pod.podId, assign)
    case EndUpload(u) =>
      var x := s.disk.streams[u];
      if x.job in s.db.rows then [Note(x.job, UploadedEv(x.pod))] else []
    case Result(l) =>
      var x := s.fleet.tasks[l];
      ResultOps(s.db, x.job, l, x.outcome.value, c.maxAttempts, s.clock)
    case Sweep(s1, s2, s3) => SweepOps(s1, s2, s3, s.clock, c.maxAttempts)
    case Restart => [Recover(s.clock, RestartGrace(c))]
    case ClearMedia(id) => [SetArtifacts(id, [])]
    case PurgeOld(started) => [Purge(started - c.jobRetentionMs)]
    case _ => []
  }

  function Kicked(polls: map<nat, Handling>): map<nat, Handling> {
    map k | k in polls :: if polls[k].phase.Parked? then polls[k].(phase := Woken) else polls[k]
  }

  function Died(polls: map<nat, Handling>): map<nat, Handling> {
    map k | k in polls :: if polls[k].phase.Answered? then polls[k] else polls[k].(phase := Lost)
  }

  function Touching(contact: map<JobId, int>, ids: set<JobId>, now: int): map<JobId, int> {
    contact + map id | id in ids :: now
  }

  function Granting(granted: map<LeaseId, nat>, leases: set<LeaseId>, k: nat): map<LeaseId, nat> {
    granted + map l | l in leases :: k
  }

  ghost function Arrival(c: Config, s: Sys, n: nat, model: Option<ModelId>, assign: seq<Assignment>, patient: bool): Handling
    requires n in s.fleet.reqs
  {
    var pod, slots, reports := PodAt(c, s, n, model), SlotsAt(c, s, n, model), s.fleet.reqs[n].reports;
    Handling(n, pod, slots, Orphans(s.db, reports), CancelNotices(s.db, reports, pod.podId),
             if ShouldPark(assign, slots, pod) && patient then Parked else Answered(assign))
  }

  ghost function DeskAfter(c: Config, s: Sys, t: Step): Desk
    requires Guard(c, s, t)
  {
    var d := s.desk;
    match t
    case Create(_) => d.(polls := Kicked(d.polls))
    case KickAll => d.(polls := Kicked(d.polls))
    case Poll(k, n, model, assign, _, patient) =>
      d.(polls := d.polls[k := Arrival(c, s, n, model, assign, patient)],
         granted := Granting(d.granted, LeasesOf(assign), k),
         contact := Touching(d.contact, StillOwned(s.db, s.fleet.reqs[n].reports) + JobsOf(assign), s.clock),
         heard := d.heard + (StillOwned(s.db, s.fleet.reqs[n].reports) + JobsOf(assign)))
    case TimeOut(k) => d.(polls := d.polls[k := d.polls[k].(phase := Answered([]))])
    case Resume(k, assign, _) =>
      d.(polls := d.polls[k := d.polls[k].(phase := Answered(assign))],
         granted := Granting(d.granted, LeasesOf(assign), k),
         contact := Touching(d.contact, JobsOf(assign), s.clock),
         heard := d.heard + JobsOf(assign))
    case Result(l) =>
      var x := s.fleet.tasks[l];
      if ResultAnswer(s.db, x.job, l, x.outcome.value, c.maxAttempts) == Settled(Queued)
      then d.(polls := Kicked(d.polls)) else d
    case Sweep(s1, _, _) => if |s1| > Capped(s1, c.maxAttempts) then d.(polls := Kicked(d.polls)) else d
    case Restart => d.(polls := Died(d.polls), heard := {}, restart := Some(s.clock))
    case Drain(p, on) => d.(draining := if on then d.draining + {p} else d.draining - {p})
    case _ => d
  }

  ghost function DiskAfter(c: Config, s: Sys, t: Step): Disk
    requires Guard(c, s, t)
  {
    var d := Moved(s.disk, MoveOf(c, s, t));
    match t
    case Restart => d.(listed := {})
    case ListExpired => d.(listed := d.listed + Matching(s.db.rows, FinishedAt(s.clock - c.artifactTtlMs)))
    case RemoveMedia(id) => d.(removing := d.removing + {id})
    case ClearMedia(id) => d.(removing := d.removing - {id})
    case _ => d
  }

  /** New tasks for the assignments `_start` does not skip. */
  function NewTasks(tasks: map<LeaseId, Task>, held: map<JobId, LeaseId>, assign: seq<Assignment>, p: PodId): map<LeaseId, Task> {
    if assign == [] then tasks
    else
      var n := |assign| - 1;
      var a, before := assign[n], NewTasks(tasks, held, assign[..n], p);
      if a.jobId in AgentSide.StartAll(held, assign[..n]) then before
      else before[a.leaseId := Task(a.jobId, p, None, false, None)]
  }

  /** The agent flags a held job that the answer orphans or cancels. */
  predicate Told(held: map<JobId, LeaseId>, h: Handling, l: LeaseId, x: Task) {
    x.job in held && held[x.job] == l && (x.job in h.orphan || x.job in h.cancel)
  }

  function Flag(tasks: map<LeaseId, Task>, held: map<JobId, LeaseId>, h: Handling): map<LeaseId, Task> {
    map l | l in tasks :: if Told(held, h, l, tasks[l]) then tasks[l].(flagged := true) else tasks[l]
  }

  ghost function FleetAfter(c: Config, s: Sys, t: Step): Fleet
    requires Guard(c, s, t)
  {
    var f := s.fleet;
    match t
    case Boot(p) => f.(agents := f.agents[p := Worker(map[], None)])
    case SendPoll(p, n, reports, ready) =>
      f.(agents := f.agents[p := f.agents[p].(poll := Some(n))],
         reqs := f.reqs[n := Request(p, f.agents[p].jobs, reports, ready)])
    case LosePoll(p) => f.(agents := f.agents[p := f.agents[p].(poll := None)])
    case Receive(p, k) =>
      var h, held := s.desk.polls[k], f.agents[p].jobs;
      f.(agents := f.agents[p := Worker(AgentSide.StartAll(held, h.phase.assign), None)],
         tasks := NewTasks(Flag(f.tasks, held, h), held, h.phase.assign, p))
    case StartUpload(p, id, media) =>
      f.(tasks := f.tasks[f.agents[p].jobs[id] := TaskOf(s, p, id).(media := Some(media))])
    case Finish(p, id, o) =>
      f.(tasks := f.tasks[f.agents[p].jobs[id] := TaskOf(s, p, id).(outcome := Some(o))])
    case Drop(p, id) => f.(agents := f.agents[p := f.agents[p].(jobs := f.agents[p].jobs - {id})])
    case _ => f
  }

  ghost function Next(c: Config, s: Sys, t: Step): Sys
    requires Guard(c, s, t)
  {
    Sys(ApplyAll(s.db, Ops(c, s, t)), s.hist + Ops(c, s, t), if t.Tick? then t.to else s.clock,
        DeskAfter(c, s, t), DiskAfter(c, s, t), FleetAfter(c, s, t))
  }

  const START := Sys(EMPTY, [], 0, Desk(map[], {}, map[], map[], {}, None), Disk(map[], map[], map[], {}, {}, {}, {}),
                     Fleet(map[], map[], map[]))
}
