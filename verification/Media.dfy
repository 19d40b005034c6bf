/** A completed job's file: it is there, its row describes what its last owner rendered, and it is those
    very bytes unless uploads of the job ever clashed. Bodies arrive intact. */
module Media {
  import opened Types
  import opened JobTable
  import opened TableInvariant
  import opened Epochs
  import opened Claims
  import opened Artifacts
  import opened Uploads
  import opened AgentRoutes
  import opened Reaper
  import opened Protocol
  import opened Runs
  import opened StepRows
  import opened Custody
  import AgentSide

  predicate Wrote(disk: Disk, id: JobId, media: Bytes) {
    (id, OUTPUT) in disk.files && disk.files[(id, OUTPUT)] == media
  }

  /** Nobody but the holder of this lease is uploading for the job. */
  ghost predicate OnlyBy(disk: Disk, id: JobId, l: LeaseId) {
    forall u :: u in disk.streams && disk.streams[u].job == id ==> disk.streams[u].lease == l
  }

  /** The job has its file. Unless uploads of the job clashed, it is this body, and stays it. */
  ghost predicate Stands(disk: Disk, id: JobId, l: LeaseId, media: Bytes) {
    && (id, OUTPUT) in disk.files
    && (id !in disk.clashed ==> Wrote(disk, id, media) && OnlyBy(disk, id, l))
  }

  predicate CarriesBody(tasks: map<LeaseId, Task>, x: Stream) {
    x.lease in tasks && tasks[x.lease].job == x.job && tasks[x.lease].media == Some(x.body)
  }

  /** An upload in progress carries its task's body. Once in place it stands while the lease is current. */
  ghost predicate StreamOk(db: Db, disk: Disk, tasks: map<LeaseId, Task>, x: Stream) {
    && CarriesBody(tasks, x)
    && (x.stage.Renamed? && Current(db, x.job, x.lease) ==> Stands(disk, x.job, x.lease, x.body))
  }

  /** So does an acknowledged upload. */
  ghost predicate UploadStands(db: Db, disk: Disk, l: LeaseId, x: Task) {
    l in disk.acked ==> x.media.Some? && (Current(db, x.job, l) ==> Stands(disk, x.job, l, x.media.value))
  }

  /** A reported success is of the acknowledged body. */
  predicate SuccessTrue(c: Config, disk: Disk, l: LeaseId, x: Task) {
    x.outcome.Some? && x.outcome.value.Succeeded? ==>
      x.media.Some? && l in disk.acked && x.outcome.value == AgentSide.SuccessOf(x.media.value, c.hash)
  }

  predicate LastOwner(trail: seq<Event>, l: LeaseId) {
    EpochsOf(trail) != [] && EpochsOf(trail)[|EpochsOf(trail)| - 1].lease == l
  }

  /** The row of a completed job describes the body of its last owner, whose upload stands. */
  ghost predicate DeliveredBy(c: Config, db: Db, disk: Disk, tasks: map<LeaseId, Task>, id: JobId, l: LeaseId)
    requires id in db.rows
  {
    && id in db.log && LastOwner(db.log[id], l) && l in tasks && tasks[l].job == id && tasks[l].media.Some?
    && Stands(disk, id, l, tasks[l].media.value)
    && db.rows[id].artifacts == [Artifact(OUTPUT, Some(|tasks[l].media.value|), Some(c.hash(tasks[l].media.value)))]
  }

  ghost predicate Delivered(c: Config, db: Db, disk: Disk, tasks: map<LeaseId, Task>, id: JobId)
    requires id in db.rows
  {
    exists l :: DeliveredBy(c, db, disk, tasks, id, l)
  }

  predicate Shown(db: Db, disk: Disk, id: JobId) {
    id in db.rows && db.rows[id].state.Completed? && db.rows[id].artifacts != [] && id !in disk.removing
  }

  ghost predicate StreamsOk(s: Sys) {
    Orderly(s.disk) && forall u :: u in s.disk.streams ==> StreamOk(s.db, s.disk, s.fleet.tasks, s.disk.streams[u])
  }

  ghost predicate MediaOk(c: Config, s: Sys) {
    && StreamsOk(s)
    && (forall l :: l in s.fleet.tasks ==> UploadStands(s.db, s.disk, l, s.fleet.tasks[l]) && SuccessTrue(c, s.disk, l, s.fleet.tasks[l]))
    && (forall l :: l in s.disk.acked ==> l in s.fleet.tasks)
    && (forall id :: Shown(s.db, s.disk, id) ==> Delivered(c, s.db, s.disk, s.fleet.tasks, id))
  }

  // ------------------------------------------------------------ the trail of a finished job

  lemma {:induction false} EpochsPrefix(t: seq<Event>, u: seq<Event>)
    requires t <= u
    ensures EpochsOf(t) <= EpochsOf(u)
    decreases |u|
  {
    if |t| == |u| {
      assert t == u;
    } else {
      EpochsPrefix(t, u[..|u| - 1]);
    }
  }

  /** As long as the attempts stand, so do the epochs. */
  lemma {:induction false} EpochsStand(db: Db, db': Db, id: JobId, m: nat)
    requires JobOk(db, id, m) && JobOk(db', id, m) && db.log[id] <= db'.log[id]
    requires db.rows[id].attempts == db'.rows[id].attempts
    ensures EpochsOf(db'.log[id]) == EpochsOf(db.log[id])
  {
    OwnerIsLastEpoch(db.log[id]);
    OwnerIsLastEpoch(db'.log[id]);
    EpochsPrefix(db.log[id], db'.log[id]);
  }

  lemma {:induction false} HolderIsLast(db: Db, id: JobId, l: LeaseId, m: nat)
    requires JobOk(db, id, m) && Current(db, id, l)
    ensures LastOwner(db.log[id], l)
  {
    OwnerIsLastEpoch(db.log[id]);
  }

  // ------------------------------------------------------------ the disk

  /** The jobs whose files this step removes. */
  function Removed(t: Step): set<JobId> {
    if t.RemoveMedia? || t.RemoveStray? then {t.id} else {}
  }

  /** Disks that differ at most in what the cleanup pass keeps in mind. */
  predicate SameMedia(d: Disk, d': Disk) {
    d'.files == d.files && d'.parts == d.parts && d'.streams == d.streams && d'.clashed == d.clashed && d'.acked == d.acked
  }

  lemma {:induction false} DiskStep(c: Config, s: Sys, t: Step)
    requires Guard(c, s, t)
    ensures t.Upload? ==> t.lease in s.fleet.tasks && s.fleet.tasks[t.lease].media.Some?
    ensures CanMove(s.disk, MoveOf(c, s, t)) && SameMedia(Moved(s.disk, MoveOf(c, s, t)), Next(c, s, t).disk)
  {
    hide PollGuard, ResumeGuard, Swept, Ops, DeskAfter, FleetAfter, MoveOf, Moved, CanMove;
    CanMoveDisk(c, s, t);
  }

  lemma {:induction false} RefusedUnlessCurrent(c: Config, s: Sys, l: LeaseId)
    requires l in s.fleet.tasks && s.fleet.tasks[l].media.Some? && Refusal(c, s, l).None? && Inv(s.db, c.maxAttempts)
    ensures Current(s.db, s.fleet.tasks[l].job, l)
  {
    hide SafeFilename;
    assert JobOk(s.db, s.fleet.tasks[l].job, c.maxAttempts);
  }

  /** Which step makes which move; only the holder of the current lease is let in. */
  lemma {:induction false} MoveIs(c: Config, s: Sys, t: Step)
    requires Guard(c, s, t) && Inv(s.db, c.maxAttempts)
    requires t.Upload? ==> t.lease in s.fleet.tasks && s.fleet.tasks[t.lease].media.Some?
    ensures var m := MoveOf(c, s, t);
      && (m.Remove? ==> m.id in Removed(t))
      && (m.End? ==> t == EndUpload(m.u))
      && (m.Admit? ==> t == Upload(m.x.lease, m.u) && CarriesBody(s.fleet.tasks, m.x) && m.x.stage.Admitted?
                       && Current(s.db, m.x.job, m.x.lease))
  {
    hide PollGuard, ResumeGuard, Swept, CanMove, Inv, Refusal, Honest;
    if t.Upload? && Refusal(c, s, t.lease).None? { RefusedUnlessCurrent(c, s, t.lease); }
  }

  lemma {:induction false} AckedGrow(c: Config, s: Sys, t: Step)
    requires Guard(c, s, t)
    ensures s.disk.acked <= Next(c, s, t).disk.acked
  {
    hide Guard, Next, MoveOf, Moved, CanMove;
    DiskStep(c, s, t);
    Histories(s.disk, MoveOf(c, s, t));
  }

  /** A file that stands keeps standing, unless it is removed or somebody else is let in. */
  lemma {:induction false} StandsMove(d: Disk, m: Move, id: JobId, l: LeaseId, media: Bytes)
    requires Orderly(d) && CanMove(d, m) && Stands(d, id, l, media) && m != Remove(id)
    requires m.Admit? && m.x.job == id ==> m.x.lease == l
    requires forall u :: u in d.streams && d.streams[u].job == id && d.streams[u].lease == l ==> d.streams[u].body == media
    ensures Stands(Moved(d, m), id, l, media)
  {
    hide Moved, Orderly;
    var d' := Moved(d, m);
    Histories(d, m);
    FilesStay(d, m, id);
    if id !in d'.clashed {
      FileMove(d, m, id);
      forall u | u in d'.streams && d'.streams[u].job == id ensures d'.streams[u].lease == l { StreamsFrom(d, m, u); }
    }
  }

  lemma {:induction false} FileMove2(d: Disk, u: nat)
    requires CanMove(d, Move.Rename(u)) && d.streams[u].job in d.parts
    ensures (d.streams[u].job, OUTPUT) in Moved(d, Move.Rename(u)).files
  {
  }

  /** A rename puts the upload in place; without a clash it is the only one. */
  lemma {:induction false} StandsNow(d: Disk, u: nat)
    requires Orderly(d) && CanMove(d, Move.Rename(u)) && d.streams[u].job in d.parts
    ensures var x := d.streams[u]; Stands(Moved(d, Move.Rename(u)), x.job, x.lease, x.body)
  {
    var m, x := Move.Rename(u), d.streams[u];
    FileMove2(d, u);
    OrderlyMove(d, m);
    Histories(d, m);
    if x.job !in d.clashed {
      FileMove(d, m, x.job);
      forall v | v in Moved(d, m).streams && Moved(d, m).streams[v].job == x.job ensures v == u { StreamsFrom(d, m, v); }
    }
  }

  // ------------------------------------------------------------ completion

  /** A statement that leaves a row completed found it completed, or completed it. */
  lemma {:induction false} OneComplete(db: Db, op: Op, id: JobId)
    requires !op.Claim? && !op.Renew?
    requires id in Apply(db, op).rows && Apply(db, op).rows[id].state.Completed?
    requires !(id in db.rows && db.rows[id].state.Completed?)
    ensures op.Complete? && op.id == id && Current(db, id, op.held)
    ensures Apply(db, op).rows[id].artifacts == op.artifacts
    ensures id in Apply(db, op).log && Apply(db, op).log[id] == Trail(db, id) + [CompletedEv]
  {
    if id in db.rows { SimpleRow(db, op, id); }
  }

  lemma {:induction false} SuccessOps(c: Config, s: Sys, t: Step)
    requires Guard(c, s, t) && Simple(t) && Ops(c, s, t) != [] && Ops(c, s, t)[0].Complete?
    ensures t.Result? && t.lease in s.fleet.tasks && s.fleet.tasks[t.lease].outcome.Some?
    ensures var o := s.fleet.tasks[t.lease].outcome.value;
      o.Succeeded? && Ops(c, s, t)[0].artifacts == [Artifact(NameOf(o), o.bytes, o.sha256)]
  {
    hide PollGuard, ResumeGuard, Swept, Fences, SafeFilename, UploadAnswer;
  }

  /** A job becomes completed only by a success reported under its current lease. */
  lemma {:induction false} CompletedBy(c: Config, s: Sys, t: Step, id: JobId)
    requires Inv(s.db, c.maxAttempts) && Guard(c, s, t)
    requires id in Next(c, s, t).db.rows && Next(c, s, t).db.rows[id].state.Completed?
    requires !(id in s.db.rows && s.db.rows[id].state.Completed?)
    ensures t.Result? && t.lease in s.fleet.tasks && s.fleet.tasks[t.lease].job == id && Current(s.db, id, t.lease)
    ensures s.fleet.tasks[t.lease].outcome.Some? && s.fleet.tasks[t.lease].outcome.value.Succeeded?
    ensures var o := s.fleet.tasks[t.lease].outcome.value;
      Next(c, s, t).db.rows[id].artifacts == [Artifact(NameOf(o), o.bytes, o.sha256)]
    ensures id in Next(c, s, t).db.log && Next(c, s, t).db.log[id] == Trail(s.db, id) + [CompletedEv]
  {
    hide Guard, Next, Ops, Inv, StillOwned, JobsOf, SweptRow, Apply;
    if t.Poll? {
      PollRows(c, s, t, id);
    } else if t.Resume? {
      ResumeRows(c, s, t, id);
    } else if t.Sweep? {
      SweepRows(c, s, t);
      SweptRowIs(c, s.db.rows[id], s.clock);
    } else {
      SimpleOps(c, s, t);
      assert Ops(c, s, t) != [];
      OneComplete(s.db, Ops(c, s, t)[0], id);
      SuccessOps(c, s, t);
    }
  }

  // ------------------------------------------------------------ the invariant

  lemma {:induction false} StillCurrent(db: Db, db': Db, id: JobId, l: LeaseId, m: nat)
    requires Evolves(db, db', m) && l in db.issued && Current(db', id, l)
    ensures Current(db, id, l)
  {
    hide RowEvolves;
    assert JobEvolves(db, db', id, m);
  }

  /** No step removes the files of a job that is in flight. */
  lemma {:induction false} NotRemoved(c: Config, s: Sys, t: Step, id: JobId, l: LeaseId)
    requires Base(c, s) && Guard(c, s, t) && Current(s.db, id, l)
    ensures id !in Removed(t)
  {
    hide Next, ApplyAll, LegalRun, OneOwner, PollGuard, ResumeGuard, Swept;
    assert JobOk(s.db, id, c.maxAttempts);
  }

  lemma {:induction false} OneHolder(db: Db, id: JobId, l: LeaseId, l': LeaseId)
    requires Current(db, id, l) && Current(db, id, l')
    ensures l == l'
  {
  }

  lemma {:induction false} SameStands(d: Disk, d': Disk, id: JobId, l: LeaseId, media: Bytes)
    requires SameMedia(d, d') && Stands(d, id, l, media)
    ensures Stands(d', id, l, media)
  {
  }

  /** What stands for the holder of a current lease stands after the step. */
  lemma {:induction false} StandsStep(c: Config, s: Sys, t: Step, id: JobId, l: LeaseId, media: Bytes)
    requires Base(c, s) && StreamsOk(s) && Guard(c, s, t) && Current(s.db, id, l)
    requires l in s.fleet.tasks && s.fleet.tasks[l].media == Some(media) && Stands(s.disk, id, l, media)
    ensures Stands(Next(c, s, t).disk, id, l, media)
  {
    hide Guard, Next, Inv, LegalRun, ApplyAll, Outdated, MoveOf, CanMove, Moved, Stands, Orderly;
    DiskStep(c, s, t);
    var m := MoveOf(c, s, t);
    MoveIs(c, s, t);
    NotRemoved(c, s, t, id, l);
    if m.Admit? && m.x.job == id { OneHolder(s.db, id, l, m.x.lease); }
    StandsMove(s.disk, m, id, l, media);
    SameStands(Moved(s.disk, m), Next(c, s, t).disk, id, l, media);
  }

  lemma {:induction false} StreamStep(c: Config, s: Sys, t: Step, u: nat)
    requires Base(c, s) && Known(s) && StreamsOk(s) && Guard(c, s, t) && AtGateway(t)
    requires Evolves(s.db, Next(c, s, t).db, c.maxAttempts) && u in Next(c, s, t).disk.streams
    ensures StreamOk(Next(c, s, t).db, Next(c, s, t).disk, s.fleet.tasks, Next(c, s, t).disk.streams[u])
  {
    hide Guard, Next, Inv, Evolves, FleetOk, DeskOk, Spent, LegalRun, ApplyAll, Outdated, MoveOf, CanMove, Moved, Stands, Orderly, Current;
    var s' := Next(c, s, t);
    DiskStep(c, s, t);
    var m := MoveOf(c, s, t);
    MoveIs(c, s, t);
    StreamsFrom(s.disk, m, u);
    var x' := s'.disk.streams[u];
    if !m.Admit? || m.u != u {
      var x := s.disk.streams[u];
      assert StreamOk(s.db, s.disk, s.fleet.tasks, x);
      if x'.stage.Renamed? && Current(s'.db, x.job, x.lease) {
        StillCurrent(s.db, s'.db, x.job, x.lease, c.maxAttempts);
        if x.stage.Renamed? {
          StandsStep(c, s, t, x.job, x.lease, x.body);
        } else {
          StandsNow(s.disk, u);
          SameStands(Moved(s.disk, m), s'.disk, x.job, x.lease, x.body);
        }
      }
    }
  }

  lemma {:induction false} SameOrder(d: Disk, d': Disk)
    requires SameMedia(d, d') && Orderly(d)
    ensures Orderly(d')
  {
  }

  lemma {:induction false} OrderlyStep(c: Config, s: Sys, t: Step)
    requires Orderly(s.disk) && Guard(c, s, t)
    ensures Orderly(Next(c, s, t).disk)
  {
    hide Guard, Next, MoveOf, CanMove, Moved, Orderly;
    DiskStep(c, s, t);
    OrderlyMove(s.disk, MoveOf(c, s, t));
    SameOrder(Moved(s.disk, MoveOf(c, s, t)), Next(c, s, t).disk);
  }

  /** An upload about to be acknowledged is in place. */
  lemma {:induction false} Ending(s: Sys, u: nat)
    requires StreamsOk(s) && CanMove(s.disk, Move.End(u))
    ensures var x := s.disk.streams[u];
      CarriesBody(s.fleet.tasks, x) && (Current(s.db, x.job, x.lease) ==> Stands(s.disk, x.job, x.lease, x.body))
  {
    assert StreamOk(s.db, s.disk, s.fleet.tasks, s.disk.streams[u]);
  }

  lemma {:induction false} UploadStep(c: Config, s: Sys, t: Step, l: LeaseId)
    requires Base(c, s) && Known(s) && MediaOk(c, s) && Guard(c, s, t) && AtGateway(t)
    requires Evolves(s.db, Next(c, s, t).db, c.maxAttempts)
    ensures l in Next(c, s, t).disk.acked ==> l in s.fleet.tasks
    ensures l in s.fleet.tasks ==> UploadStands(Next(c, s, t).db, Next(c, s, t).disk, l, s.fleet.tasks[l])
  {
    hide Guard, Next, Inv, Evolves, SuccessTrue, Delivered, Shown, FleetOk, DeskOk, Spent, LegalRun, ApplyAll, Outdated, MoveOf, CanMove,
      Moved, Stands, Orderly, Current;
    var s' := Next(c, s, t);
    DiskStep(c, s, t);
    var m := MoveOf(c, s, t);
    Histories(s.disk, m);
    MoveIs(c, s, t);
    if m.End? { Ending(s, m.u); }
    if l in s'.disk.acked {
      var id := s.fleet.tasks[l].job;
      assert l in s.disk.acked ==> UploadStands(s.db, s.disk, l, s.fleet.tasks[l]);
      if Current(s'.db, id, l) {
        StillCurrent(s.db, s'.db, id, l, c.maxAttempts);
        StandsStep(c, s, t, id, l, s.fleet.tasks[l].media.value);
      }
    }
  }

  lemma {:induction false} SuccessesTrue(c: Config, s: Sys, t: Step)
    requires MediaOk(c, s) && Guard(c, s, t) && s.disk.acked <= Next(c, s, t).disk.acked
    requires AtGateway(t) || !t.Receive?
    ensures forall l :: l in Next(c, s, t).fleet.tasks && l in s.fleet.tasks ==>
      SuccessTrue(c, Next(c, s, t).disk, l, Next(c, s, t).fleet.tasks[l])
  {
    hide PollGuard, ResumeGuard, Swept, Ops, DeskAfter, DiskAfter, UploadStands, Shown, Delivered, StreamsOk, CanMove;
  }

  /** The moment of completion: the file is the acknowledged body, uploaded under the finishing lease. */
  lemma {:induction false} DeliveredNow(c: Config, s: Sys, t: Step, id: JobId)
    requires Base(c, s) && Known(s) && MediaOk(c, s) && Guard(c, s, t)
    requires Shown(Next(c, s, t).db, Next(c, s, t).disk, id) && !(id in s.db.rows && s.db.rows[id].state.Completed?)
    ensures Delivered(c, Next(c, s, t).db, Next(c, s, t).disk, Next(c, s, t).fleet.tasks, id)
  {
    hide Guard, Next, Inv, Evolves, FleetOk, DeskOk, Spent, LegalRun, ApplyAll, Outdated, Stands, StreamsOk;
    CompletedBy(c, s, t, id);
    FleetSame(c, s, t);
    RowIsOk(s.db, id, c.maxAttempts);
    HolderIsLast(s.db, id, t.lease, c.maxAttempts);
    EpochsConcat(s.db.log[id], CompletedEv);
    var x := s.fleet.tasks[t.lease];
    assert UploadStands(s.db, s.disk, t.lease, x) && SuccessTrue(c, s.disk, t.lease, x);
    StandsStep(c, s, t, id, t.lease, x.media.value);
    assert DeliveredBy(c, Next(c, s, t).db, Next(c, s, t).disk, Next(c, s, t).fleet.tasks, id, t.lease);
  }

  lemma {:induction false} FinishedStands(db: Db, db': Db, id: JobId, m: nat)
    requires Inv(db, m) && Inv(db', m) && Evolves(db, db', m)
    requires id in db.rows && db.rows[id].state.Completed? && id in db'.rows
    ensures id in db.log && id in db'.log && EpochsOf(db'.log[id]) == EpochsOf(db.log[id])
    ensures db'.rows[id].state.Completed?
    ensures db'.rows[id].artifacts == db.rows[id].artifacts || db'.rows[id].artifacts == []
  {
    hide Rank, OneOwner, EpochsOf;
    RowIsOk(db, id, m);
    RowIsOk(db', id, m);
    assert JobEvolves(db, db', id, m);
    EpochsStand(db, db', id, m);
  }

  /** The list of a job whose removal a pass has just finished is empty. */
  lemma {:induction false} ClearedIsEmpty(c: Config, s: Sys, t: Step, id: JobId)
    requires Guard(c, s, t) && id in s.db.rows
    ensures t.ClearMedia? && t.id == id ==> id in Next(c, s, t).db.rows && Next(c, s, t).db.rows[id].artifacts == []
  {
    hide PollGuard, ResumeGuard, Swept, DeskAfter, DiskAfter, FleetAfter;
    if t.ClearMedia? { ApplyOne(s.db, SetArtifacts(t.id, [])); }
  }

  /** What stands for a finished job stands after a step that does not remove it: nobody is let in. */
  lemma {:induction false} StandsFinished(c: Config, s: Sys, t: Step, id: JobId, l: LeaseId, media: Bytes)
    requires Base(c, s) && StreamsOk(s) && Guard(c, s, t) && id in s.db.rows && !s.db.rows[id].state.InProgress? && id !in Removed(t)
    requires l in s.fleet.tasks && s.fleet.tasks[l].media == Some(media) && Stands(s.disk, id, l, media)
    ensures Stands(Next(c, s, t).disk, id, l, media)
  {
    hide Guard, Next, Inv, LegalRun, ApplyAll, Outdated, MoveOf, CanMove, Moved, Stands, Orderly;
    DiskStep(c, s, t);
    var m := MoveOf(c, s, t);
    MoveIs(c, s, t);
    StandsMove(s.disk, m, id, l, media);
    SameStands(Moved(s.disk, m), Next(c, s, t).disk, id, l, media);
  }

  lemma {:induction false} StrayHasNoRow(c: Config, s: Sys, t: Step)
    requires Guard(c, s, t)
    ensures t.RemoveStray? ==> t.id !in s.db.rows
  {
    hide PollGuard, ResumeGuard, Swept, CanMove, Honest;
  }

  lemma {:induction false} ShownBefore(c: Config, s: Sys, t: Step, id: JobId)
    requires Guard(c, s, t) && Shown(Next(c, s, t).db, Next(c, s, t).disk, id) && id in s.db.rows && s.db.rows[id].state.Completed?
    requires Next(c, s, t).db.rows[id].artifacts == s.db.rows[id].artifacts || Next(c, s, t).db.rows[id].artifacts == []
    ensures Shown(s.db, s.disk, id) && id !in Removed(t)
  {
    hide Guard, Next;
    DiskHistories(c, s, t);
    ClearedIsEmpty(c, s, t, id);
    StrayHasNoRow(c, s, t);
  }

  /** What was delivered before stays delivered, until a cleanup pass begins to remove it. */
  lemma {:induction false} DeliveredStill(c: Config, s: Sys, t: Step, id: JobId)
    requires Base(c, s) && MediaOk(c, s) && Guard(c, s, t)
    requires Evolves(s.db, Next(c, s, t).db, c.maxAttempts) && Inv(Next(c, s, t).db, c.maxAttempts)
    requires Shown(Next(c, s, t).db, Next(c, s, t).disk, id) && id in s.db.rows && s.db.rows[id].state.Completed?
    ensures Delivered(c, Next(c, s, t).db, Next(c, s, t).disk, s.fleet.tasks, id)
  {
    hide Guard, Next, Inv, Evolves, LegalRun, ApplyAll, Outdated, UploadStands, SuccessTrue, EpochsOf, Stands, StreamsOk;
    var s' := Next(c, s, t);
    FinishedStands(s.db, s'.db, id, c.maxAttempts);
    ShownBefore(c, s, t, id);
    var l :| DeliveredBy(c, s.db, s.disk, s.fleet.tasks, id, l);
    StandsFinished(c, s, t, id, l, s.fleet.tasks[l].media.value);
    assert DeliveredBy(c, s'.db, s'.disk, s.fleet.tasks, id, l);
  }

  lemma {:induction false} MediaGateway(c: Config, s: Sys, t: Step)
    requires Base(c, s) && Known(s) && MediaOk(c, s) && Guard(c, s, t) && AtGateway(t)
    requires Evolves(s.db, Next(c, s, t).db, c.maxAttempts) && Inv(Next(c, s, t).db, c.maxAttempts)
    ensures MediaOk(c, Next(c, s, t))
  {
    hide Guard, Next, Inv, Evolves, Delivered, UploadStands, SuccessTrue, Known, Base, StreamOk, Orderly;
    var s' := Next(c, s, t);
    FleetSame(c, s, t);
    OrderlyStep(c, s, t);
    forall u | u in s'.disk.streams ensures StreamOk(s'.db, s'.disk, s.fleet.tasks, s'.disk.streams[u]) { StreamStep(c, s, t, u); }
    AckedGrow(c, s, t);
    forall l ensures l in s'.disk.acked ==> l in s.fleet.tasks
             ensures l in s.fleet.tasks ==> UploadStands(s'.db, s'.disk, l, s.fleet.tasks[l]) {
      UploadStep(c, s, t, l);
    }
    SuccessesTrue(c, s, t);
    forall id | Shown(s'.db, s'.disk, id) ensures Delivered(c, s'.db, s'.disk, s'.fleet.tasks, id) {
      if id in s.db.rows && s.db.rows[id].state.Completed? {
        DeliveredStill(c, s, t, id);
      } else {
        DeliveredNow(c, s, t, id);
      }
    }
  }

  // ------------------------------------------------------------ removal

  /** Of a job whose removal a pass has begun, no file is left, and none is on its way. */
  ghost predicate Cleared(disk: Disk, id: JobId) {
    id in disk.removing ==> (forall k :: k in disk.files ==> k.0 != id) && UploadsOf(disk, id) == {}
  }

  lemma {:induction false} SameCleared(d: Disk, d': Disk, id: JobId)
    requires SameMedia(d, d') && (forall k :: k in d.files ==> k.0 != id) && UploadsOf(d, id) == {}
    ensures Cleared(d', id)
  {
  }

  lemma {:induction false} StillNone(d: Disk, m: Move, id: JobId)
    requires CanMove(d, m) && UploadsOf(d, id) == {} && (m.Admit? ==> m.x.job != id)
    requires m == Remove(id) || forall k :: k in d.files ==> k.0 != id
    ensures (forall k :: k in Moved(d, m).files ==> k.0 != id) && UploadsOf(Moved(d, m), id) == {}
  {
    hide Moved, CanMove;
    FilesStay(d, m, id);
    forall u | u in Moved(d, m).streams && Moved(d, m).streams[u].job == id ensures u in UploadsOf(d, id) { StreamsFrom(d, m, u); }
  }

  lemma {:induction false} RemovalIs(c: Config, s: Sys, t: Step)
    requires t.Upload? ==> t.lease in s.fleet.tasks && s.fleet.tasks[t.lease].media.Some?
    ensures t.RemoveMedia? ==> MoveOf(c, s, t) == Remove(t.id)
  {
  }

  /** Nothing a pass removed comes back, if no upload of the job was in progress then. */
  lemma {:induction false} ClearedStep(c: Config, s: Sys, t: Step, id: JobId)
    requires Base(c, s) && Cleared(s.disk, id) && Guard(c, s, t)
    requires t == RemoveMedia(id) ==> UploadsOf(s.disk, id) == {}
    ensures Cleared(Next(c, s, t).disk, id)
  {
    hide Guard, Next, LegalRun, ApplyAll, Inv, MoveOf, Moved, CanMove, UploadsOf;
    DiskHistories(c, s, t);
    DiskStep(c, s, t);
    var m := MoveOf(c, s, t);
    MoveIs(c, s, t);
    RemovalIs(c, s, t);
    if id in Next(c, s, t).disk.removing {
      if m.Admit? && m.x.job == id { RowIsOk(s.db, id, c.maxAttempts); }
      if t == RemoveMedia(id) || id in s.disk.removing {
        StillNone(s.disk, m, id);
        SameCleared(Moved(s.disk, m), Next(c, s, t).disk, id);
      }
    }
  }

  // ------------------------------------------------------------ agent steps

  lemma {:induction false} DeliveredKept(c: Config, s: Sys, tasks': map<LeaseId, Task>, id: JobId)
    requires id in s.db.rows && Delivered(c, s.db, s.disk, s.fleet.tasks, id) && TasksGrow(s.fleet.tasks, tasks')
    ensures Delivered(c, s.db, s.disk, tasks', id)
  {
    hide Stands, LastOwner;
    var l :| DeliveredBy(c, s.db, s.disk, s.fleet.tasks, id, l);
    assert DeliveredBy(c, s.db, s.disk, tasks', id, l);
  }

  lemma {:induction false} StreamsKept(s: Sys, s': Sys)
    requires StreamsOk(s) && s'.db == s.db && s'.disk == s.disk && TasksGrow(s.fleet.tasks, s'.fleet.tasks)
    ensures StreamsOk(s')
  {
    hide Stands, Orderly;
    forall u | u in s.disk.streams ensures StreamOk(s'.db, s'.disk, s'.fleet.tasks, s'.disk.streams[u]) {
      assert StreamOk(s.db, s.disk, s.fleet.tasks, s.disk.streams[u]);
    }
  }

  lemma {:induction false} UploadKept(s: Sys, l: LeaseId, x: Task, x': Task)
    requires UploadStands(s.db, s.disk, l, x) && x'.job == x.job && (x.media.Some? ==> x'.media == x.media)
    ensures UploadStands(s.db, s.disk, l, x')
  {
  }

  lemma {:induction false} ShownRow(s: Sys, id: JobId)
    requires Shown(s.db, s.disk, id)
    ensures id in s.db.rows
  {
  }

  lemma {:induction false} TookTrue(c: Config, s: Sys, t: Step, l: LeaseId)
    requires Known(s) && Guard(c, s, t) && t.Receive? && l in s.fleet.tasks && SuccessTrue(c, s.disk, l, s.fleet.tasks[l])
    ensures l in Next(c, s, t).fleet.tasks && SuccessTrue(c, s.disk, l, Next(c, s, t).fleet.tasks[l])
  {
    hide Guard, Next, DeskOk, TasksOk, DistinctLeases, LeasesOf, JobsOf;
    TakenBy(c, s, t);
    NeverStarted(s, t.pod, t.k);
    var h, held := s.desk.polls[t.k], s.fleet.agents[t.pod].jobs;
    StartedTasks(Flag(s.fleet.tasks, held, h), held, h.phase.assign, t.pod);
  }

  /** A task just started has uploaded and reported nothing. */
  lemma {:induction false} NewTrue(c: Config, s: Sys, t: Step, l: LeaseId)
    requires Known(s) && MediaOk(c, s) && Guard(c, s, t) && !AtGateway(t)
    requires l in Next(c, s, t).fleet.tasks && l !in s.fleet.tasks
    ensures UploadStands(s.db, s.disk, l, Next(c, s, t).fleet.tasks[l]) && SuccessTrue(c, s.disk, l, Next(c, s, t).fleet.tasks[l])
  {
    hide Guard, Next, DeskOk, TasksOk, DistinctLeases, LeasesOf, JobsOf, Delivered, Shown;
    if t.Receive? {
      TakenBy(c, s, t);
      NeverStarted(s, t.pod, t.k);
      var h, held := s.desk.polls[t.k], s.fleet.agents[t.pod].jobs;
      StartedTasks(Flag(s.fleet.tasks, held, h), held, h.phase.assign, t.pod);
    } else {
      AgentMoves(c, s, t);
    }
  }

  lemma {:induction false} MediaAgent(c: Config, s: Sys, t: Step)
    requires Known(s) && MediaOk(c, s) && Guard(c, s, t) && !AtGateway(t)
    requires TasksGrow(s.fleet.tasks, Next(c, s, t).fleet.tasks)
    ensures MediaOk(c, Next(c, s, t))
  {
    hide Guard, Next, Delivered, UploadStands, SuccessTrue, Known, Shown, StreamsOk;
    var s' := Next(c, s, t);
    DeskSame(c, s, t);
    StreamsKept(s, s');
    forall id | Shown(s.db, s.disk, id) ensures id in s.db.rows && Delivered(c, s.db, s.disk, s'.fleet.tasks, id) {
      ShownRow(s, id);
      DeliveredKept(c, s, s'.fleet.tasks, id);
    }
    if !t.Receive? { SuccessesTrue(c, s, t); }
    forall l | l in s'.fleet.tasks
      ensures UploadStands(s.db, s.disk, l, s'.fleet.tasks[l]) && SuccessTrue(c, s.disk, l, s'.fleet.tasks[l]) {
      if l in s.fleet.tasks {
        UploadKept(s, l, s.fleet.tasks[l], s'.fleet.tasks[l]);
        if t.Receive? { TookTrue(c, s, t, l); }
      } else {
        NewTrue(c, s, t, l);
      }
    }
  }

  lemma {:induction false} MediaStep(c: Config, s: Sys, t: Step)
    requires Base(c, s) && Known(s) && MediaOk(c, s) && Guard(c, s, t)
    requires Evolves(s.db, Next(c, s, t).db, c.maxAttempts) && Inv(Next(c, s, t).db, c.maxAttempts)
    requires TasksGrow(s.fleet.tasks, Next(c, s, t).fleet.tasks)
    ensures MediaOk(c, Next(c, s, t))
  {
    if AtGateway(t) { MediaGateway(c, s, t); } else { MediaAgent(c, s, t); }
  }
}
