/** The advertised download window, kept through whole runs of the system. */
module DownloadWindows {
  import opened Types
  import opened JobTable
  import opened TableInvariant
  import opened Claims
  import opened Artifacts
  import opened Uploads
  import opened AgentRoutes
  import opened VideoRoutes
  import opened Reaper
  import opened Protocol
  import opened Runs
  import opened Custody
  import opened StepRows
  import opened Media
  import opened Behaviours

  /** The client was told it may still download. */
  predicate Open(c: Config, row: Job, clock: int) {
    row.state.Completed? && row.finishedAt.Some?
    && (var v := ToVideoResponse(row, None, c.artifactTtlMs);
        v.expiresAt.Some? && clock <= v.expiresAt.value * 1000)
  }

  lemma {:induction false} OpenIsYoung(c: Config, row: Job, clock: int)
    requires Open(c, row, clock)
    ensures clock <= row.finishedAt.value + c.artifactTtlMs
  {
  }

  /** One statement on the table while the window is open leaves the row alone, unless it clears the list. */
  lemma {:induction false} OneKeeps(db: Db, op: Op, id: JobId, m: nat)
    requires id in db.rows && RowOk(id, db.rows[id], m) && db.rows[id].state.Completed?
    requires !op.Claim? && !op.Renew? && !(op.SetArtifacts? && op.id == id) && !(op.Create? && op.job.id == id)
    requires op.Purge? ==> !FinishedBefore(db.rows[id], op.before)
    ensures id in Apply(db, op).rows && Apply(db, op).rows[id] == db.rows[id]
  {
  }

  lemma {:induction false} CompletedStays(c: Config, row: Job, now: int)
    requires row.state.Completed?
    ensures SweptRow(c, row, now) == row
  {
  }

  lemma {:induction false} GuardedTarget(c: Config, s: Sys, t: Step)
    requires Inv(s.db, c.maxAttempts) && Guard(c, s, t)
    ensures t.ClearMedia? ==> t.id in s.disk.removing
    ensures t.RemoveMedia? ==> t.id in s.disk.listed
    ensures t.RemoveStray? ==> t.id !in s.db.rows
    ensures t.Create? ==> t.job.id !in s.db.rows
  {
    hide CanMove, PollGuard, ResumeGuard, Swept, OneOwner, RowOk;
    if t.Create? && t.job.id in s.db.rows { MadeIs(s.db, t.job.id, c.maxAttempts); }
  }

  lemma {:induction false} RowKept(c: Config, s: Sys, t: Step, id: JobId)
    requires Inv(s.db, c.maxAttempts) && Guard(c, s, t) && c.artifactTtlMs <= c.jobRetentionMs
    requires id in s.db.rows && Open(c, s.db.rows[id], s.clock) && id !in s.disk.removing
    ensures id in Next(c, s, t).db.rows && Next(c, s, t).db.rows[id] == s.db.rows[id]
  {
    hide Guard, Next, Inv, StillOwned, JobsOf, SweptRow, Apply, Ops;
    OpenIsYoung(c, s.db.rows[id], s.clock);
    RowIsOk(s.db, id, c.maxAttempts);
    if t.Poll? {
      PollRows(c, s, t, id);
      OwnedInFlight(s.db, s.fleet.reqs[t.n].reports);
    } else if t.Resume? {
      ResumeRows(c, s, t, id);
    } else if t.Sweep? {
      SweepRows(c, s, t);
      CompletedStays(c, s.db.rows[id], s.clock);
    } else {
      SimpleOps(c, s, t);
      GuardedTarget(c, s, t);
      if Ops(c, s, t) != [] { OneKeeps(s.db, Ops(c, s, t)[0], id, c.maxAttempts); }
    }
  }

  lemma {:induction false} NotListed(c: Config, s: Sys, id: JobId)
    requires Base(c, s) && id in s.db.rows && Open(c, s.db.rows[id], s.clock)
    ensures id !in s.disk.listed && id !in s.disk.removing
  {
    hide Inv, LegalRun, ApplyAll;
    OpenIsYoung(c, s.db.rows[id], s.clock);
  }

  lemma {:induction false} Finished(c: Config, row: Job, clock: int)
    requires Open(c, row, clock)
    ensures row.state.Completed?
  {
  }

  /** No upload in progress can spoil the file: uploads of the job never clashed, or none is in progress. */
  predicate Calm(disk: Disk, id: JobId) {
    id !in disk.clashed || UploadsOf(disk, id) == {}
  }

  lemma {:induction false} CalmMove(d: Disk, m: Move, id: JobId)
    requires CanMove(d, m) && Calm(d, id) && (m.Admit? ==> m.x.job != id)
    ensures Calm(Moved(d, m), id) && (id !in d.clashed ==> id !in Moved(d, m).clashed)
  {
    hide Moved, CanMove;
    Histories(d, m);
    if UploadsOf(d, id) == {} {
      forall u | u in Moved(d, m).streams && Moved(d, m).streams[u].job == id ensures u in UploadsOf(d, id) { StreamsFrom(d, m, u); }
    }
  }

  lemma {:induction false} SameCalm(d: Disk, d': Disk, id: JobId)
    requires SameMedia(d, d') && Calm(d, id)
    ensures Calm(d', id)
  {
  }

  lemma {:induction false} CalmOr(d: Disk, id: JobId)
    requires Calm(d, id)
    ensures UploadsOf(d, id) == {} || id !in d.clashed
  {
  }

  /** The file of a finished job in the calm. */
  lemma {:induction false} FileKept(c: Config, s: Sys, t: Step, id: JobId, l: LeaseId, media: Bytes)
    requires Base(c, s) && StreamsOk(s) && Guard(c, s, t) && id in s.db.rows && s.db.rows[id].state.Completed? && id !in Removed(t)
    requires l in s.fleet.tasks && s.fleet.tasks[l].media == Some(media) && Stands(s.disk, id, l, media) && Calm(s.disk, id)
    ensures Calm(Next(c, s, t).disk, id)
    ensures (id, OUTPUT) in Next(c, s, t).disk.files && Next(c, s, t).disk.files[(id, OUTPUT)] == s.disk.files[(id, OUTPUT)]
  {
    hide Guard, Next, Inv, LegalRun, ApplyAll, Outdated, MoveOf, CanMove, Moved, Orderly, UploadsOf, Calm;
    DiskStep(c, s, t);
    var m := MoveOf(c, s, t);
    MoveIs(c, s, t);
    CalmMove(s.disk, m, id);
    SameCalm(Moved(s.disk, m), Next(c, s, t).disk, id);
    StandsFinished(c, s, t, id, l, media);
    FilesStay(s.disk, m, id);
    CalmOr(s.disk, id);
  }

  /** No step that leaves the window open takes the row, its list, or the file. */
  lemma {:induction false} WindowStep(c: Config, s: Sys, t: Step, id: JobId)
    requires SysInv(c, s) && Guard(c, s, t) && c.artifactTtlMs <= c.jobRetentionMs
    requires id in s.db.rows && Open(c, s.db.rows[id], s.clock) && s.db.rows[id].artifacts != [] && Calm(s.disk, id)
    ensures var s' := Next(c, s, t);
      && id in s'.db.rows && s'.db.rows[id] == s.db.rows[id] && Calm(s'.disk, id)
      && (id, OUTPUT) in s.disk.files && (id, OUTPUT) in s'.disk.files && s'.disk.files[(id, OUTPUT)] == s.disk.files[(id, OUTPUT)]
  {
    hide Guard, Next, Inv, Known, Roomy, LeaseClock.OnTime, CancelHonesty.HonestStops, LegalRun, ApplyAll, Outdated, Open, StreamsOk,
      UploadStands, SuccessTrue, Calm, LastOwner;
    NotListed(c, s, id);
    RowKept(c, s, t, id);
    GuardedTarget(c, s, t);
    Finished(c, s.db.rows[id], s.clock);
    assert Shown(s.db, s.disk, id);
    var l :| DeliveredBy(c, s.db, s.disk, s.fleet.tasks, id, l);
    FileKept(c, s, t, id, l, s.fleet.tasks[l].media.value);
  }

  lemma {:induction false} Earlier(c: Config, row: Job, clock: int, later: int)
    requires Open(c, row, later) && clock <= later
    ensures Open(c, row, clock)
  {
  }

  /** While the window is open the content is there, under the one name agents use. */
  lemma {:induction false} Served(c: Config, ss: seq<Sys>, ts: seq<Step>, i: nat, id: JobId, later: int)
    requires Behaviour(c, ss, ts) && i < |ss| && ss[i].clock <= later
    requires id in ss[i].db.rows && Open(c, ss[i].db.rows[id], later) && ss[i].db.rows[id].artifacts != []
    ensures (id, OUTPUT) in ss[i].disk.files && ss[i].db.rows[id].artifacts[0].filename == OUTPUT
    ensures ContentOf(ss[i].db.rows, ss[i].disk.files, id).Content?
  {
    hide Guard, Next, Behaviour, Known, Roomy, LeaseClock.OnTime, CancelHonesty.HonestStops, Base, UploadStands, SuccessTrue, LastOwner, StreamsOk;
    RunInv(c, ss, ts, i);
    Earlier(c, ss[i].db.rows[id], ss[i].clock, later);
    NotListed(c, ss[i], id);
    assert Shown(ss[i].db, ss[i].disk, id);
  }

  lemma {:induction false} SameContent(rows: map<JobId, Job>, rows': map<JobId, Job>, files: map<(JobId, string), Bytes>,
                                       files': map<(JobId, string), Bytes>, id: JobId)
    requires id in rows && id in rows' && rows'[id] == rows[id] && rows[id].artifacts != []
    requires rows[id].artifacts[0].filename == OUTPUT
    requires (id, OUTPUT) in files && (id, OUTPUT) in files' && files'[(id, OUTPUT)] == files[(id, OUTPUT)]
    ensures ContentOf(rows', files', id) == ContentOf(rows, files, id)
  {
  }

  /** A completed job stays downloadable, byte for byte, for as long as its `expires_at` promises,
      provided rows are kept at least as long as media and no upload in progress can spoil the file. */
  lemma {:induction false} WindowIsKept(c: Config, ss: seq<Sys>, ts: seq<Step>, i: nat, j: nat, id: JobId)
    requires Behaviour(c, ss, ts) && i <= j < |ss| && c.artifactTtlMs <= c.jobRetentionMs
    requires id in ss[i].db.rows && Open(c, ss[i].db.rows[id], ss[j].clock) && ss[i].db.rows[id].artifacts != []
    requires Calm(ss[i].disk, id)
    ensures id in ss[j].db.rows && ss[j].db.rows[id] == ss[i].db.rows[id]
    ensures ContentOf(ss[j].db.rows, ss[j].disk.files, id) == ContentOf(ss[i].db.rows, ss[i].disk.files, id)
    ensures ContentOf(ss[j].db.rows, ss[j].disk.files, id).Content? && Calm(ss[j].disk, id)
    decreases j
  {
    hide Guard, Next, SysInv, Behaviour, ContentOf, Open, Calm, Known, Roomy, MediaOk, Inv, TasksGrow, Evolves;
    RunLater(c, ss, ts, i, j);
    Lengths(c, ss, ts);
    Served(c, ss, ts, i, id, ss[j].clock);
    if i < j {
      RunLater(c, ss, ts, i, j - 1);
      RunLater(c, ss, ts, j - 1, j);
      Earlier(c, ss[i].db.rows[id], ss[j - 1].clock, ss[j].clock);
      WindowIsKept(c, ss, ts, i, j - 1, id);
      At(c, ss, ts, j - 1);
      WindowStep(c, ss[j - 1], ts[j - 1], id);
      Served(c, ss, ts, j - 1, id, ss[j].clock);
      SameContent(ss[j - 1].db.rows, ss[j].db.rows, ss[j - 1].disk.files, ss[j].disk.files, id);
    }
  }

  // ------------------------------------------------------------ the window closes

  lemma {:induction false} ListStep(c: Config, s: Sys, id: JobId)
    requires Guard(c, s, ListExpired) && id in s.db.rows
    ensures id in Next(c, s, ListExpired).disk.listed <==>
      id in s.disk.listed || (s.db.rows[id].finishedAt.Some? && s.db.rows[id].finishedAt.value < s.clock - c.artifactTtlMs
                              && s.db.rows[id].artifacts != [])
  {
    hide DeskAfter, FleetAfter, Ops;
  }

  lemma {:induction false} MayRemove(c: Config, s: Sys, id: JobId)
    requires id in s.disk.listed
    ensures Guard(c, s, RemoveMedia(id)) && Guard(c, Next(c, s, RemoveMedia(id)), ClearMedia(id))
  {
    hide Relinked;
  }

  lemma {:induction false} StillListed(c: Config, s: Sys, t: Step, id: JobId)
    requires Guard(c, s, t) && id in s.disk.listed && !t.Restart?
    ensures id in Next(c, s, t).disk.listed
  {
    hide Guard, Next;
    DiskHistories(c, s, t);
  }

  /** A pass lists exactly the finished jobs past their lifetime that still list media, and until the
      gateway restarts it may remove them at any later moment. */
  lemma {:induction false} OldIsListed(c: Config, ss: seq<Sys>, ts: seq<Step>, i: nat, j: nat, id: JobId)
    requires Behaviour(c, ss, ts) && i < j < |ss| && ts[i] == ListExpired && id in ss[i].db.rows
    requires forall k :: i < k < j ==> ts[k] != Restart
    ensures var row := ss[i].db.rows[id];
      && (id in ss[i + 1].disk.listed <==>
            id in ss[i].disk.listed
            || (row.finishedAt.Some? && row.finishedAt.value < ss[i].clock - c.artifactTtlMs && row.artifacts != []))
      && (id in ss[i + 1].disk.listed ==>
            id in ss[j].disk.listed
            && Guard(c, ss[j], RemoveMedia(id)) && Guard(c, Next(c, ss[j], RemoveMedia(id)), ClearMedia(id)))
    decreases j
  {
    hide Guard, Next, Behaviour;
    Lengths(c, ss, ts);
    At(c, ss, ts, i);
    ListStep(c, ss[i], id);
    if i + 1 < j {
      OldIsListed(c, ss, ts, i, j - 1, id);
      At(c, ss, ts, j - 1);
      if id in ss[i + 1].disk.listed { StillListed(c, ss[j - 1], ts[j - 1], id); }
    }
    if id in ss[i + 1].disk.listed { MayRemove(c, ss[j], id); }
  }

  lemma {:induction false} RemoveStep(c: Config, s: Sys, id: JobId)
    requires Guard(c, s, RemoveMedia(id))
    ensures Next(c, s, RemoveMedia(id)).db == s.db
    ensures forall k :: k in Next(c, s, RemoveMedia(id)).disk.files <==> k in s.disk.files && k.0 != id
  {
    hide Relinked;
  }

  lemma {:induction false} ClearStep(c: Config, s: Sys, id: JobId)
    requires Guard(c, s, ClearMedia(id)) && id in s.db.rows
    ensures id in Next(c, s, ClearMedia(id)).db.rows
    ensures Next(c, s, ClearMedia(id)).db.rows[id] == s.db.rows[id].(artifacts := [])
  {
    hide DeskAfter, FleetAfter, DiskAfter;
    ApplyOne(s.db, Op.SetArtifacts(id, []));
  }

  /** Once a pass has removed a completed job's files it is answered as expired, and once it has cleared
      the list it is so for good, until its row goes. */
  lemma {:induction false} RemovedIsExpired(c: Config, ss: seq<Sys>, ts: seq<Step>, i: nat, j: nat, id: JobId)
    requires Behaviour(c, ss, ts) && i < j < |ss| && id in ss[i].db.rows && ss[i].db.rows[id].state == Completed
    ensures ts[i] == RemoveMedia(id) ==>
      ContentOf(ss[i + 1].db.rows, ss[i + 1].disk.files, id) == Expired
      && (forall k :: k in ss[i].disk.files ==> (k !in ss[i + 1].disk.files <==> k.0 == id))
    ensures ts[i] == ClearMedia(id) && id in ss[j].db.rows ==>
      ss[j].db.rows[id].artifacts == [] && ContentOf(ss[j].db.rows, ss[j].disk.files, id) == Expired
  {
    hide Guard, Next, Behaviour, Known, Roomy, MediaOk, Inv, TasksGrow, Rank, LeaseClock.OnTime, CancelHonesty.HonestStops, LegalRun, ApplyAll, Outdated;
    Lengths(c, ss, ts);
    At(c, ss, ts, i);
    if ts[i] == RemoveMedia(id) { RemoveStep(c, ss[i], id); }
    if ts[i] == ClearMedia(id) {
      ClearStep(c, ss[i], id);
      RunLater(c, ss, ts, i + 1, j);
      MadeIs(ss[i + 1].db, id, c.maxAttempts);
      assert JobEvolves(ss[i + 1].db, ss[j].db, id, c.maxAttempts);
    }
  }

  lemma {:induction false} PurgeStep(c: Config, s: Sys, started: int, id: JobId)
    requires Guard(c, s, PurgeOld(started)) && id in s.db.rows
    ensures id in Next(c, s, PurgeOld(started)).db.rows <==>
      !(s.db.rows[id].finishedAt.Some? && s.db.rows[id].finishedAt.value < started - c.jobRetentionMs)
  {
    hide DeskAfter, FleetAfter, DiskAfter;
    ApplyOne(s.db, Purge(started - c.jobRetentionMs));
  }

  lemma {:induction false} MadeStays(c: Config, s: Sys, s': Sys, id: JobId)
    requires Later(c, s, s') && id in s.db.made
    ensures id in s'.db.made && (id in s'.db.rows ==> id in s.db.rows)
  {
    hide RowEvolves, TasksGrow;
    assert JobEvolves(s.db, s'.db, id, c.maxAttempts);
  }

  /** A purge takes exactly the rows finished longer ago than they are to be kept, and for good. */
  lemma {:induction false} PurgedIsGone(c: Config, ss: seq<Sys>, ts: seq<Step>, i: nat, j: nat, id: JobId)
    requires Behaviour(c, ss, ts) && i < j < |ss| && ts[i].PurgeOld? && id in ss[i].db.rows
    ensures id in ss[i + 1].db.rows <==>
      !(ss[i].db.rows[id].finishedAt.Some? && ss[i].db.rows[id].finishedAt.value < ts[i].started - c.jobRetentionMs)
    ensures id !in ss[i + 1].db.rows ==> id !in ss[j].db.rows && ContentOf(ss[j].db.rows, ss[j].disk.files, id) == NoVideo
  {
    hide Guard, Next, Behaviour, Later, Known, Roomy, MediaOk, Inv, LeaseClock.OnTime, CancelHonesty.HonestStops, LegalRun, ApplyAll, Outdated;
    Lengths(c, ss, ts);
    At(c, ss, ts, i);
    PurgeStep(c, ss[i], ts[i].started, id);
    RunLater(c, ss, ts, i, i + 1);
    RunLater(c, ss, ts, i + 1, j);
    MadeIs(ss[i].db, id, c.maxAttempts);
    MadeStays(c, ss[i], ss[i + 1], id);
    MadeStays(c, ss[i + 1], ss[j], id);
  }

  lemma {:induction false} StaysCompleted(c: Config, ss: seq<Sys>, ts: seq<Step>, i: nat, j: nat, id: JobId)
    requires Behaviour(c, ss, ts) && i <= j < |ss| && id in ss[i].db.rows && ss[i].db.rows[id].state == Completed
    ensures id in ss[j].db.rows ==> ss[j].db.rows[id].state == Completed
  {
    hide Guard, Next, Behaviour, Known, Roomy, MediaOk, Inv, TasksGrow, Rank, LeaseClock.OnTime, CancelHonesty.HonestStops, LegalRun, ApplyAll, Outdated;
    RunLater(c, ss, ts, i, j);
    MadeIs(ss[i].db, id, c.maxAttempts);
    assert JobEvolves(ss[i].db, ss[j].db, id, c.maxAttempts);
  }

  /** A row that is there now was there before. */
  lemma {:induction false} RowStayed(c: Config, ss: seq<Sys>, ts: seq<Step>, i: nat, j: nat, k: nat, id: JobId)
    requires Behaviour(c, ss, ts) && i <= j <= k < |ss| && id in ss[i].db.rows
    ensures id in ss[k].db.rows ==> id in ss[j].db.rows
  {
    hide Guard, Next, Behaviour, Later, Known, Roomy, MediaOk, Inv, LeaseClock.OnTime, CancelHonesty.HonestStops, LegalRun, ApplyAll, Outdated;
    RunLater(c, ss, ts, i, j);
    RunLater(c, ss, ts, j, k);
    MadeIs(ss[i].db, id, c.maxAttempts);
    MadeStays(c, ss[i], ss[j], id);
    MadeStays(c, ss[j], ss[k], id);
  }

  /** The other end of the promise: a completed job past its lifetime when a pass lists it is expired
      from the moment the pass removes its files, and for good once its list is cleared. */
  lemma {:induction false} WindowCloses(c: Config, ss: seq<Sys>, ts: seq<Step>, i: nat, j: nat, k: nat, n: nat, id: JobId)
    requires Behaviour(c, ss, ts) && i < j < k < n < |ss|
    requires ts[i] == ListExpired && (forall x :: i < x < k ==> ts[x] != Restart)
    requires id in ss[i].db.rows && ss[i].db.rows[id].state == Completed && ss[i].db.rows[id].artifacts != []
    requires ss[i].db.rows[id].finishedAt.Some? && ss[i].db.rows[id].finishedAt.value < ss[i].clock - c.artifactTtlMs
    ensures Guard(c, ss[j], RemoveMedia(id))
    ensures ts[j] == RemoveMedia(id) && ts[k] == ClearMedia(id) ==>
      (id in ss[j + 1].db.rows ==> ContentOf(ss[j + 1].db.rows, ss[j + 1].disk.files, id) == Expired)
      && (id in ss[n].db.rows ==> ContentOf(ss[n].db.rows, ss[n].disk.files, id) == Expired)
  {
    hide Guard, Next, Behaviour, Later, SysInv, ContentOf;
    Lengths(c, ss, ts);
    OldIsListed(c, ss, ts, i, j, id);
    StaysCompleted(c, ss, ts, i, j, id);
    StaysCompleted(c, ss, ts, i, j + 1, id);
    StaysCompleted(c, ss, ts, i, k, id);
    RowStayed(c, ss, ts, i, j, j + 1, id);
    RowStayed(c, ss, ts, i, k, n, id);
    if id in ss[j].db.rows { RemovedIsExpired(c, ss, ts, j, j + 1, id); }
    if id in ss[k].db.rows { RemovedIsExpired(c, ss, ts, k, n, id); }
  }
}
