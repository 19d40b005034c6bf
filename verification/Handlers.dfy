/** The imperative handlers take the protocol's steps: what their contracts leave in the store, on disk and
    in the parking lot is what the corresponding step leaves there. */
module Handlers {
  import opened Types
  import opened JobTable
  import opened TableInvariant
  import opened Store
  import opened Claims
  import opened RowBlocks
  import opened Artifacts
  import opened Uploads
  import opened AgentRoutes
  import opened VideoRoutes
  import opened Reaper
  import opened Cleanups
  import opened Protocol
  import opened Runs
  import opened Seats
  import Parking

  // ------------------------------------------------------------ clients

  /** `VideoRoutes.CreateAndKick` with a fresh id. */
  lemma {:induction false} CreateTakesAStep(c: Config, s: Sys, job: NewJob, db': Db, h: seq<Parking.Signal>, seat: map<nat, nat>)
    requires Inv(s.db, c.maxAttempts) && Seated(s.desk.polls, h, seat) && job.id !in s.db.made && job.createdAt <= s.clock
    requires db' == Apply(s.db, Op.Create(job))
    ensures job.id !in s.db.rows && Guard(c, s, Step.Create(job)) && Next(c, s, Step.Create(job)).db == db'
    ensures Seated(Next(c, s, Step.Create(job)).desk.polls, h + [Parking.Kicked], seat)
  {
    hide Apply, ApplyAll, Seated, OneOwner;
    if job.id in s.db.rows { RowIsOk(s.db, job.id, c.maxAttempts); }
    ApplyOne(s.db, Op.Create(job));
    StepSeats(c, s, Step.Create(job), h, seat, h + [Parking.Kicked], seat);
  }

  /** `VideoRoutes.Delete`. */
  lemma {:induction false} DeleteTakesAStep(c: Config, s: Sys, id: JobId, db': Db)
    requires db' == ApplyAll(s.db, DeleteOps(s.db, id, s.clock))
    ensures Guard(c, s, Step.Delete(id)) && Next(c, s, Step.Delete(id)).db == db'
    ensures Next(c, s, Step.Delete(id)).desk == s.desk
  {
    hide Apply, ApplyAll;
  }

  // ------------------------------------------------------------ polls

  /** `AgentRoutes.Poll`: the decision, the answer or the parking, and the ticket. */
  lemma {:induction false} PollTakesAStep(c: Config, s: Sys, k: nat, n: nat, model: Option<ModelId>, mid: Db, at: Db,
                                          orphan: seq<JobId>, cancel: set<JobId>, slots: nat, assign: seq<Assignment>,
                                          window: seq<Job>, patient: bool)
    requires k !in s.desk.polls && n in s.fleet.reqs
    requires PollDecided(s.db, mid, at, PodAt(c, s, n, model), s.fleet.reqs[n].reports, s.clock + c.leaseTtlMs, s.clock,
                         orphan, cancel, slots, assign, window)
    ensures Guard(c, s, Step.Poll(k, n, model, assign, window, patient))
    ensures var s' := Next(c, s, Step.Poll(k, n, model, assign, window, patient));
      && s'.db == at && k in s'.desk.polls
      && s'.desk.polls[k].orphan == orphan && s'.desk.polls[k].cancel == cancel && s'.desk.polls[k].slots == slots
      && (s'.desk.polls[k].phase.Parked? <==> ShouldPark(assign, slots, PodAt(c, s, n, model)) && patient)
      && (!s'.desk.polls[k].phase.Parked? ==> s'.desk.polls[k].phase == Answered(assign))
  {
    hide Apply, ApplyAll, QueueWindow, Claimable, Names, Picked, StillOwned, Orphans, CancelNotices, FreeSlots;
    ApplyAllConcat(s.db, Heartbeat(c, s, n), Claiming(c, s, s.fleet.reqs[n].pod, assign));
  }

  /** The ticket of that poll: parked or refused when there was nothing to do, none otherwise. */
  lemma {:induction false} PollTakesASeat(c: Config, s: Sys, k: nat, n: nat, model: Option<ModelId>, slots: nat, assign: seq<Assignment>,
                                          window: seq<Job>, closed: bool, ticket: Option<nat>,
                                          h: seq<Parking.Signal>, h': seq<Parking.Signal>, seat: map<nat, nat>)
    requires Seated(s.desk.polls, h, seat) && Guard(c, s, Step.Poll(k, n, model, assign, window, !closed))
    requires n in s.fleet.reqs && slots == SlotsAt(c, s, n, model)
    requires ticket.Some? <==> ShouldPark(assign, slots, PodAt(c, s, n, model))
    requires ticket.None? ==> h' == h
    requires ticket.Some? ==>
      Unused(h, ticket.value)
      && h' == h + [if closed then Parking.Refused(ticket.value) else Parking.Signal.Parked(ticket.value)]
    ensures Seated(Next(c, s, Step.Poll(k, n, model, assign, window, !closed)).desk.polls, h',
                   if ticket.Some? && !closed then seat[k := ticket.value] else seat)
  {
    hide Guard, Next, Seated, SlotsAt, PodAt, ShouldPark, Unused;
    StepSeats(c, s, Step.Poll(k, n, model, assign, window, !closed), h, seat, h',
              if ticket.Some? && !closed then seat[k := ticket.value] else seat);
  }

  /** `AgentRoutes.ResumePoll` of a woken poll. */
  lemma {:induction false} ResumeTakesAStep(c: Config, s: Sys, k: nat, at: Db, assign: seq<Assignment>, window: seq<Job>,
                                            h: seq<Parking.Signal>, seat: map<nat, nat>)
    requires Seated(s.desk.polls, h, seat) && k in s.desk.polls && s.desk.polls[k].phase.Woken?
    requires Handed(s.db, at, s.desk.polls[k].pod, s.desk.polls[k].slots, s.clock + c.leaseTtlMs, s.clock, assign, window)
    ensures k in seat && Parking.Verdict(h, seat[k]) == Some(true)
    ensures Guard(c, s, Step.Resume(k, assign, window))
    ensures var s' := Next(c, s, Step.Resume(k, assign, window));
      && s'.db == at && s'.desk.polls == s.desk.polls[k := s.desk.polls[k].(phase := Answered(assign))]
      && Seated(s'.desk.polls, h, seat)
  {
    hide Apply, ApplyAll, QueueWindow, Claimable, Names, Picked, Waiting, Parking.Verdict;
    StepSeats(c, s, Step.Resume(k, assign, window), h, seat, h, seat);
  }

  /** `Waiters.OnTimeout` or `OnAbort` of a parked poll's ticket, after which the poll answers with nothing. */
  lemma {:induction false} TimeOutTakesAStep(c: Config, s: Sys, k: nat, g: Parking.Signal, h: seq<Parking.Signal>, seat: map<nat, nat>)
    requires Seated(s.desk.polls, h, seat) && k in s.desk.polls && s.desk.polls[k].phase.Parked? && k in seat
    requires g == Parking.TimedOut(seat[k]) || g == Parking.Aborted(seat[k])
    ensures Waiting(h, seat[k]) && Guard(c, s, TimeOut(k))
    ensures Next(c, s, TimeOut(k)).desk.polls == s.desk.polls[k := s.desk.polls[k].(phase := Answered([]))]
    ensures Seated(Next(c, s, TimeOut(k)).desk.polls, h + [g], seat)
  {
    hide Waiting;
    StepSeats(c, s, TimeOut(k), h, seat, h + [g], seat);
  }

  // ------------------------------------------------------------ uploads and results

  /** `AgentRoutes.BeginUpload`: turned away, or let in. */
  lemma {:induction false} BeginTakesAStep(c: Config, s: Sys, l: LeaseId, u: nat, refusal: Option<UploadReply>, pod: Option<PodId>)
    requires l in s.fleet.tasks && s.fleet.tasks[l].media.Some? && u !in s.disk.streams
    requires var x := s.fleet.tasks[l];
      && refusal == UploadRefusal(s.db, x.job, l, OUTPUT, Some(|x.media.value|), c.maxArtifactBytes)
      && (refusal.None? ==> x.job in s.db.rows && pod == s.db.rows[x.job].podId)
    ensures Guard(c, s, Step.Upload(l, u)) && Next(c, s, Step.Upload(l, u)).db == s.db
    ensures var x, d := s.fleet.tasks[l], Next(c, s, Step.Upload(l, u)).disk;
      && d.files == s.disk.files
      && d.streams == if refusal.Some? then s.disk.streams
                      else s.disk.streams[u := Stream(l, x.job, pod, x.media.value, 0, Admitted)]
  {
    hide SafeFilename;
  }

  /** `AgentRoutes.EndUpload` of an intact body, while the job still has a row. */
  lemma {:induction false} EndTakesAStep(c: Config, s: Sys, u: nat, db': Db)
    requires Inv(s.db, c.maxAttempts) && u in s.disk.streams && s.disk.streams[u].stage.Renamed?
    requires var x := s.disk.streams[u];
      x.job in s.db.rows && db' == s.db.(log := s.db.log[x.job := Trail(s.db, x.job) + [UploadedEv(x.pod)]])
    ensures Guard(c, s, EndUpload(u)) && Next(c, s, EndUpload(u)).db == db'
    ensures Next(c, s, EndUpload(u)).disk.files == s.disk.files && s.disk.streams[u].lease in Next(c, s, EndUpload(u)).disk.acked
  {
    hide Apply, Inv;
    var x := s.disk.streams[u];
    ApplyOne(s.db, Note(x.job, UploadedEv(x.pod)));
    NoteOnly(s.db, x.job, UploadedEv(x.pod));
  }

  /** From admission to rename, alone in the job's directory: `ArtifactStore.WriteArtifact`. */
  function WriteSteps(u: nat, n: nat): seq<Step> {
    [OpenPart(u)] + (if n == 0 then [] else [WritePart(u, n)]) + [RenamePart(u)]
  }

  lemma {:induction false} AloneMoves(d: Disk, u: nat)
    requires u in d.streams && d.streams[u].stage == Admitted && d.streams[u].sent == 0 && UploadsOf(d, d.streams[u].job) == {u}
    ensures var x := d.streams[u]; var n := |x.body|;
      && CanMove(d, Move.Open(u))
      && (var d1 := Moved(d, Move.Open(u));
          && (n > 0 ==> CanMove(d1, Move.Write(u, n)))
          && (var d2 := if n == 0 then d1 else Moved(d1, Move.Write(u, n));
              && CanMove(d2, Move.Rename(u))
              && Moved(d2, Move.Rename(u)) == d.(files := d.files[(x.job, OUTPUT) := x.body], parts := d.parts - {x.job},
                                                 streams := d.streams[u := x.(sent := n, stage := Renamed)])))
  {
    var x := d.streams[u];
    var n := |x.body|;
    var d1 := Moved(d, Move.Open(u));
    var d2 := if n == 0 then d1 else Moved(d1, Move.Write(u, n));
    assert n > 0 ==> x.body[0..n] == x.body && Overlay([], 0, x.body) == x.body;
    assert d2.parts == d.parts[x.job := x.body];
    forall v | v in d.streams && v != u ensures d.streams[v].job != x.job { assert v in UploadsOf(d, x.job) <==> d.streams[v].job == x.job; }
    assert Relinked(d2.streams, x.job, InFile, Unlinked)[u := x.(sent := n, stage := Renamed)]
        == d.streams[u := x.(sent := n, stage := Renamed)];
    assert d2.parts - {x.job} == d.parts - {x.job};
  }

  /** These steps touch nothing but the job directories. */
  lemma {:induction false} OnlyMoves(c: Config, s: Sys, t: Step)
    requires Guard(c, s, t) && (t.OpenPart? || t.WritePart? || t.RenamePart? || t.BreakUpload?)
    ensures CanMove(s.disk, MoveOf(c, s, t)) && Next(c, s, t) == s.(disk := Moved(s.disk, MoveOf(c, s, t)))
  {
    hide Moved;
    assert s.hist + [] == s.hist;
  }

  lemma {:induction false} WriteTakesSteps(c: Config, s: Sys, u: nat) returns (s': Sys)
    requires u in s.disk.streams && s.disk.streams[u].stage == Admitted && s.disk.streams[u].sent == 0
    requires UploadsOf(s.disk, s.disk.streams[u].job) == {u}
    ensures var x := s.disk.streams[u];
      && Walks(c, s, WriteSteps(u, |x.body|), s')
      && s' == s.(disk := s.disk.(files := s.disk.files[(x.job, OUTPUT) := x.body], parts := s.disk.parts - {x.job},
                                  streams := s.disk.streams[u := x.(sent := |x.body|, stage := Renamed)]))
  {
    hide Moved, CanMove, UploadsOf, Next;
    var n := |s.disk.streams[u].body|;
    AloneMoves(s.disk, u);
    var t1, t2, t3 := OpenPart(u), WritePart(u, n), RenamePart(u);
    OnlyMoves(c, s, t1);
    WalksOne(c, s, t1);
    var s1 := Next(c, s, t1);
    var s2, early := s1, [t1];
    if n > 0 {
      OnlyMoves(c, s1, t2);
      WalksOne(c, s1, t2);
      s2, early := Next(c, s1, t2), [t1] + [t2];
      WalksOn(c, s, [t1], s1, [t2], s2);
    }
    OnlyMoves(c, s2, t3);
    WalksOne(c, s2, t3);
    s' := Next(c, s2, t3);
    WalksOn(c, s, early, s2, [t3], s');
    assert early + [t3] == WriteSteps(u, n);
  }

  lemma {:induction false} AdmitIs(c: Config, s: Sys, l: LeaseId, u: nat)
    requires l in s.fleet.tasks && s.fleet.tasks[l].media.Some? && u !in s.disk.streams
    requires UploadsOf(s.disk, s.fleet.tasks[l].job) == {}
    ensures Guard(c, s, Step.Upload(l, u))
    ensures var x, s' := s.fleet.tasks[l], Next(c, s, Step.Upload(l, u));
      if Refusal(c, s, l).Some? then s' == s
      else
        x.job in s.db.rows && UploadsOf(s'.disk, x.job) == {u}
        && s' == s.(disk := s.disk.(streams := s.disk.streams[u := Stream(l, x.job, s.db.rows[x.job].podId, x.media.value, 0, Admitted)]))
  {
    hide SafeFilename;
    assert s.hist + [] == s.hist;
    var x := s.fleet.tasks[l];
    forall v | v in s.disk.streams ensures s.disk.streams[v].job != x.job { assert v in UploadsOf(s.disk, x.job) <==> s.disk.streams[v].job == x.job; }
  }

  lemma {:induction false} EndIs(c: Config, s: Sys, u: nat)
    requires u in s.disk.streams && s.disk.streams[u].stage.Renamed? && s.disk.streams[u].job in s.db.rows
    ensures Guard(c, s, EndUpload(u))
    ensures var x, s' := s.disk.streams[u], Next(c, s, EndUpload(u));
      && s'.db == Apply(s.db, Note(x.job, UploadedEv(x.pod))) && s'.desk == s.desk && s'.fleet == s.fleet && s'.clock == s.clock
      && s'.disk == s.disk.(streams := s.disk.streams - {u}, acked := s.disk.acked + {x.lease})
  {
    hide Apply;
    ApplyOne(s.db, Note(s.disk.streams[u].job, UploadedEv(s.disk.streams[u].pod)));
  }

  /** `AgentRoutes.Upload`, when no other upload of the job is in progress and nothing comes between. */
  lemma {:induction false} UploadTakesSteps(c: Config, s: Sys, l: LeaseId, u: nat, reply: UploadReply, db': Db,
                                            files': map<(JobId, string), Bytes>) returns (ts: seq<Step>, s': Sys)
    requires l in s.fleet.tasks && s.fleet.tasks[l].media.Some? && u !in s.disk.streams
    requires UploadsOf(s.disk, s.fleet.tasks[l].job) == {}
    requires var x := s.fleet.tasks[l];
      && reply == UploadAnswer(s.db, x.job, l, OUTPUT, Some(|x.media.value|), Some(c.hash(x.media.value)), x.media.value,
                               c.maxArtifactBytes, c.hash)
      && db' == (if reply.Accepted? then Apply(s.db, UploadNote(s.db, x.job)) else s.db)
      && files' == FilesAfter(s.disk.files, reply, x.job, OUTPUT, x.media.value)
    ensures Walks(c, s, ts, s') && s'.db == db' && s'.disk.files == files' && s'.disk.streams == s.disk.streams
    ensures s'.disk.acked == s.disk.acked + (if reply.Accepted? then {l} else {}) && s'.disk.clashed == s.disk.clashed
    ensures s'.desk == s.desk && s'.fleet == s.fleet && s'.clock == s.clock
  {
    hide Apply, Next, Guard, SafeFilename;
    var x, t := s.fleet.tasks[l], Step.Upload(l, u);
    AdmitIs(c, s, l, u);
    WalksOne(c, s, t);
    s', ts := Next(c, s, t), [t];
    if Refusal(c, s, l).None? {
      var s1 := s';
      var s2 := WriteTakesSteps(c, s1, u);
      WalksOn(c, s, [t], s1, WriteSteps(u, |x.media.value|), s2);
      EndIs(c, s2, u);
      WalksOne(c, s2, EndUpload(u));
      s', ts := Next(c, s2, EndUpload(u)), [t] + WriteSteps(u, |x.media.value|) + [EndUpload(u)];
      WalksOn(c, s, [t] + WriteSteps(u, |x.media.value|), s2, [EndUpload(u)], s');
    }
  }

  /** What follows a result that settled: the kick, at once for a requeue, after an awaited removal of the
      input otherwise. */
  ghost function AfterResult(c: Config, s: Sys, l: LeaseId): Sys
    requires Guard(c, s, Step.Result(l))
  {
    var x := s.fleet.tasks[l];
    var reply := ResultAnswer(s.db, x.job, l, x.outcome.value, c.maxAttempts);
    var s' := Next(c, s, Step.Result(l));
    if reply.Settled? && reply != Settled(Queued) then Next(c, s', KickAll) else s'
  }

  lemma {:induction false} KickOnly(c: Config, s: Sys)
    ensures Guard(c, s, KickAll) && Next(c, s, KickAll).db == s.db
  {
  }

  lemma {:induction false} ResultTakesAStep(c: Config, s: Sys, l: LeaseId, reply: ResultReply, db': Db,
                                            h: seq<Parking.Signal>, h': seq<Parking.Signal>, seat: map<nat, nat>)
    requires Seated(s.desk.polls, h, seat) && l in s.fleet.tasks && s.fleet.tasks[l].outcome.Some?
    requires var x := s.fleet.tasks[l];
      && reply == ResultAnswer(s.db, x.job, l, x.outcome.value, c.maxAttempts)
      && db' == ApplyAll(s.db, ResultOps(s.db, x.job, l, x.outcome.value, c.maxAttempts, s.clock))
    requires h' == h + if reply.Settled? then [Parking.Kicked] else []
    ensures Guard(c, s, Step.Result(l)) && AfterResult(c, s, l).db == db'
    ensures Seated(AfterResult(c, s, l).desk.polls, h', seat)
  {
    hide Apply, ApplyAll, Seated, ResultAnswer, ResultOps, Parking.Verdict;
    var s1 := Next(c, s, Step.Result(l));
    assert h + [] == h;
    if reply == Settled(Queued) {
      StepSeats(c, s, Step.Result(l), h, seat, h', seat);
    } else {
      StepSeats(c, s, Step.Result(l), h, seat, h, seat);
      if reply.Settled? {
        KickOnly(c, s1);
        StepSeats(c, s1, KickAll, h, seat, h', seat);
      }
    }
  }

  // ------------------------------------------------------------ background work

  /** `Reaper.Sweep`. */
  lemma {:induction false} SweepTakesAStep(c: Config, s: Sys, db': Db, s1: seq<Job>, s2: seq<Job>, s3: seq<Job>,
                                           h: seq<Parking.Signal>, h': seq<Parking.Signal>, seat: map<nat, nat>)
    requires Inv(s.db, c.maxAttempts) && Seated(s.desk.polls, h, seat)
    requires Swept(s.db, db', s1, s2, s3, s.clock, c.maxAttempts, c.cancelGraceMs)
    requires Capped(s1, c.maxAttempts) <= |s1|
    requires h' == h + if ResultOf(s1, s2, s3, c.maxAttempts).requeued > 0 then [Parking.Kicked] else []
    ensures Guard(c, s, Step.Sweep(s1, s2, s3)) && Next(c, s, Step.Sweep(s1, s2, s3)).db == db'
    ensures Seated(Next(c, s, Step.Sweep(s1, s2, s3)).desk.polls, h', seat)
  {
    hide Apply, ApplyAll, Swept, JobOk, Seated, Capped;
    KeysFit(s.db, c.maxAttempts);
    SweepLegal(s.db, db', s1, s2, s3, s.clock, c.maxAttempts, c.cancelGraceMs);
    assert h + [] == h;
    StepSeats(c, s, Step.Sweep(s1, s2, s3), h, seat, h', seat);
  }

  /** `JobStore.RecoverOnStartup`, by a process whose parking lot is new. */
  lemma {:induction false} RecoveryTakesAStep(c: Config, s: Sys, db': Db)
    requires db' == Apply(s.db, Recover(s.clock, RestartGrace(c)))
    ensures Guard(c, s, Restart) && Next(c, s, Restart).db == db'
    ensures Seated(Next(c, s, Restart).desk.polls, [], map[])
  {
    hide Apply, ApplyAll, Seated;
    ApplyOne(s.db, Recover(s.clock, RestartGrace(c)));
    RestartSeats(s.desk.polls);
  }

  function MediaSteps(l: seq<Job>): seq<Step> {
    if l == [] then [] else MediaSteps(l[..|l| - 1]) + [RemoveMedia(l[|l| - 1].id), ClearMedia(l[|l| - 1].id)]
  }

  function StraySteps(ids: seq<JobId>): seq<Step> {
    if ids == [] then [] else StraySteps(ids[..|ids| - 1]) + [RemoveStray(ids[|ids| - 1])]
  }

  /** The steps of one cleanup pass over this listing and these directories. */
  function PassSteps(l: seq<Job>, strays: seq<JobId>, now: int): seq<Step> {
    [ListExpired] + MediaSteps(l) + StraySteps(strays) + [PurgeOld(now)]
  }

  function FilesBut(files: map<(JobId, string), Bytes>, gone: set<JobId>): map<(JobId, string), Bytes> {
    map k | k in files && k.0 !in gone :: files[k]
  }

  lemma {:induction false} RemoveNow(c: Config, s: Sys, id: JobId)
    requires id in s.disk.listed
    ensures Guard(c, s, RemoveMedia(id))
    ensures var s' := Next(c, s, RemoveMedia(id));
      && s'.db == s.db && s'.disk.files == FilesBut(s.disk.files, {id}) && id in s'.disk.removing
      && s'.disk.listed == s.disk.listed && s'.clock == s.clock
  {
    hide Relinked;
  }

  lemma {:induction false} ClearNow(c: Config, s: Sys, id: JobId)
    requires id in s.disk.listed && id in s.disk.removing
    ensures Guard(c, s, ClearMedia(id))
    ensures var s' := Next(c, s, ClearMedia(id));
      && s'.db == Apply(s.db, Op.SetArtifacts(id, [])) && s'.disk.files == s.disk.files
      && s'.disk.listed == s.disk.listed && s'.clock == s.clock
  {
    hide Apply;
    ApplyOne(s.db, Op.SetArtifacts(id, []));
  }

  lemma {:induction false} RemoveAndClear(c: Config, s: Sys, id: JobId)
    requires id in s.disk.listed
    ensures Guard(c, s, RemoveMedia(id)) && Guard(c, Next(c, s, RemoveMedia(id)), ClearMedia(id))
    ensures var s' := Next(c, Next(c, s, RemoveMedia(id)), ClearMedia(id));
      && s'.db == Apply(s.db, Op.SetArtifacts(id, [])) && s'.disk.files == FilesBut(s.disk.files, {id})
      && s'.disk.listed == s.disk.listed && s'.clock == s.clock
  {
    hide Guard, Next, Apply, FilesBut;
    RemoveNow(c, s, id);
    ClearNow(c, Next(c, s, RemoveMedia(id)), id);
  }

  lemma {:induction false} ButMore(files: map<(JobId, string), Bytes>, gone: set<JobId>, id: JobId)
    ensures FilesBut(FilesBut(files, gone), {id}) == FilesBut(files, gone + {id})
    ensures FilesBut(files, {}) == files
  {
  }

  lemma {:induction false} MediaWalk(c: Config, s: Sys, l: seq<Job>) returns (s': Sys)
    requires IdsOf(l) <= s.disk.listed
    ensures Walks(c, s, MediaSteps(l), s') && s'.clock == s.clock
    ensures s'.db == ApplyAll(s.db, Blocks(l, ClearBlock())) && s'.disk.files == FilesBut(s.disk.files, IdsOf(l))
    ensures s'.disk.listed == s.disk.listed
  {
    hide Guard, Next, Apply, ApplyAll, Blocks, ClearBlock, FilesBut;
    assert l[..|l|] == l;
    if l == [] {
      NothingCleared(s.db, l);
      ButMore(s.disk.files, {}, 0);
      s' := s;
    } else {
      var n := |l| - 1;
      var id := l[n].id;
      var mid := MediaWalk(c, s, l[..n]);
      RemoveAndClear(c, mid, id);
      TwoSteps(c, mid, RemoveMedia(id), ClearMedia(id));
      s' := Next(c, Next(c, mid, RemoveMedia(id)), ClearMedia(id));
      WalksOn(c, s, MediaSteps(l[..n]), mid, [RemoveMedia(id), ClearMedia(id)], s');
      ClearNext(s.db, l, n);
      ButMore(s.disk.files, IdsOf(l[..n]), id);
    }
  }

  function Ids(ids: seq<JobId>): set<JobId> {
    if ids == [] then {} else Ids(ids[..|ids| - 1]) + {ids[|ids| - 1]}
  }

  lemma {:induction false} RemoveOne(c: Config, s: Sys, id: JobId)
    requires id !in s.db.rows
    ensures Guard(c, s, RemoveStray(id))
    ensures var s' := Next(c, s, RemoveStray(id));
      s'.db == s.db && s'.disk.files == FilesBut(s.disk.files, {id}) && s'.clock == s.clock
  {
  }

  lemma {:induction false} StrayWalk(c: Config, s: Sys, ids: seq<JobId>) returns (s': Sys)
    requires Ids(ids) !! s.db.rows.Keys
    ensures Walks(c, s, StraySteps(ids), s') && s'.clock == s.clock
    ensures s'.db == s.db && s'.disk.files == FilesBut(s.disk.files, Ids(ids))
  {
    hide Guard, Next, FilesBut;
    ButMore(s.disk.files, {}, 0);
    if ids == [] {
      s' := s;
    } else {
      var n := |ids| - 1;
      var mid := StrayWalk(c, s, ids[..n]);
      RemoveOne(c, mid, ids[n]);
      WalksOne(c, mid, RemoveStray(ids[n]));
      s' := Next(c, mid, RemoveStray(ids[n]));
      WalksOn(c, s, StraySteps(ids[..n]), mid, [RemoveStray(ids[n])], s');
      ButMore(s.disk.files, Ids(ids[..n]), ids[n]);
    }
  }

  lemma {:induction false} Listing(c: Config, s: Sys, l: seq<Job>)
    requires Lists(s.db.rows, FinishedAt(s.clock - c.artifactTtlMs), l)
    ensures Guard(c, s, ListExpired)
    ensures var s' := Next(c, s, ListExpired);
      IdsOf(l) <= s'.disk.listed && s'.db == s.db && s'.disk.files == s.disk.files && s'.clock == s.clock
  {
  }

  lemma {:induction false} Purging(c: Config, s: Sys)
    ensures Guard(c, s, PurgeOld(s.clock))
    ensures var s' := Next(c, s, PurgeOld(s.clock));
      s'.db == Apply(s.db, Purge(s.clock - c.jobRetentionMs)) && s'.disk.files == s.disk.files
  {
    hide Apply;
    ApplyOne(s.db, Purge(s.clock - c.jobRetentionMs));
  }

  /** `Cleanups.Cleanup`, undisturbed: a walk of the protocol from its listing to its purge, with the very
      table and files the method promises. */
  lemma {:induction false} CleanupTakesSteps(c: Config, s: Sys, l: seq<Job>, strays: seq<JobId>) returns (s': Sys)
    requires Lists(s.db.rows, FinishedAt(s.clock - c.artifactTtlMs), l) && Ids(strays) !! s.db.rows.Keys
    ensures Walks(c, s, PassSteps(l, strays, s.clock), s')
    ensures s'.db == ApplyAll(s.db, CleanupOps(l, s.clock - c.jobRetentionMs))
    ensures s'.disk.files == FilesBut(FilesBut(s.disk.files, IdsOf(l)), Ids(strays))
  {
    hide Guard, Next, Apply, ApplyAll, Blocks, FilesBut, Lists, IdsOf, Ids, MediaSteps, StraySteps, OnlyLists;
    Listing(c, s, l);
    var s1 := Next(c, s, ListExpired);
    WalksOne(c, s, ListExpired);
    var s2 := MediaWalk(c, s1, l);
    KeysKept(s.db, l);
    KeysOf(s.db, s2.db);
    var s3 := StrayWalk(c, s2, strays);
    Purging(c, s3);
    s' := Next(c, s3, PurgeOld(s.clock));
    WalksOne(c, s3, PurgeOld(s.clock));
    WalksOn(c, s, [ListExpired], s1, MediaSteps(l), s2);
    WalksOn(c, s, [ListExpired] + MediaSteps(l), s2, StraySteps(strays), s3);
    WalksOn(c, s, [ListExpired] + MediaSteps(l) + StraySteps(strays), s3, [PurgeOld(s.clock)], s');
    ApplySnoc(s.db, Blocks(l, ClearBlock()), Purge(s.clock - c.jobRetentionMs));
  }
}
