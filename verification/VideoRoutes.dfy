/** gateway/src/routes/videos.ts (create, delete, content) and gateway/src/domain/serialize.ts. */
module VideoRoutes {
  import opened Types
  import opened JobTable
  import opened TableInvariant
  import opened Store
  import opened Parking
  import opened Artifacts
  import Sizing

  /** The tail of `POST /v1/videos`: insert the row, then wake every parked poll. */
  method CreateAndKick(store: JobStore, waiters: Waiters, job: NewJob) returns (created: Option<Job>)
    requires store.Valid() && waiters.Valid()
    modifies store, waiters
    ensures store.Valid() && waiters.Valid()
    ensures store.View() == Apply(old(store.View()), Op.Create(job))
    ensures created == if job.id in old(store.rows) then None else Some(NewRow(job))
    ensures waiters.signals == old(waiters.signals) + if created.Some? then [Kicked] else []
    ensures created.Some? ==> waiters.waiting == {} && forall w :: w in old(waiters.waiting) ==> w in waiters.outcome && waiters.outcome[w]
  {
    created := store.Create(job);
    if created.Some? { waiters.Kick(); }
  }

  datatype DeleteReply = NoSuchVideo | Done(job: Job) | CancelPending(job: Job) | AlreadyFinished(state: State)

  function DeleteOps(db: Db, id: JobId, now: int): seq<Op> {
    if id !in db.rows then []
    else if db.rows[id].state.Queued? then [Op.CancelQueued(id, now)]
    else if db.rows[id].state.InProgress? then [Op.RequestCancel(id, now)]
    else []
  }

  /** `DELETE /v1/videos/:id`. */
  method Delete(store: JobStore, id: JobId, now: int) returns (reply: DeleteReply)
    requires store.Valid()
    modifies store
    ensures store.Valid()
    ensures store.View() == ApplyAll(old(store.View()), DeleteOps(old(store.View()), id, now))
    ensures reply.NoSuchVideo? <==> id !in old(store.rows)
    ensures reply.Done? <==> id in old(store.rows) && old(store.rows)[id].state.Queued?
    ensures reply.CancelPending? <==> id in old(store.rows) && old(store.rows)[id].state.InProgress?
    ensures reply.Done? || reply.CancelPending? ==> id in store.rows && reply.job == store.rows[id]
    ensures reply.AlreadyFinished? ==> reply.state == old(store.rows)[id].state
    ensures reply.Done? ==> store.rows == old(store.rows)[id := old(store.rows)[id].(
      state := Cancelled, finishedAt := Some(now), cancelRequested := true, cancelRequestedAt := Some(now))]
    ensures reply.CancelPending? ==> store.rows == old(store.rows)[id := old(store.rows)[id].(
      cancelRequested := true,
      cancelRequestedAt := if old(store.rows)[id].cancelRequestedAt.Some? then old(store.rows)[id].cancelRequestedAt else Some(now))]
    ensures reply.NoSuchVideo? || reply.AlreadyFinished? ==> store.View() == old(store.View())
  {
    ghost var was := store.View();
    var job := store.Get(id);
    if job.None? { return NoSuchVideo; }
    if job.value.state.Queued? {
      var ok := store.CancelQueued(id, now);
      if ok {
        ApplyOne(was, Op.CancelQueued(id, now));
        var after := store.Get(id);
        return Done(after.value);
      }
    }
    var again := store.Get(id);
    if again.Some? && again.value.state.InProgress? {
      var _ := store.RequestCancel(id, now);
      ApplyOne(was, Op.RequestCancel(id, now));
      var after := store.Get(id);
      return CancelPending(after.value);
    }
    reply := AlreadyFinished(job.value.state);
  }

  /** A DELETE is legal; it ends a queued job at once and marks a running one, keeping an earlier mark. */
  lemma {:induction false} DeleteMarks(db: Db, id: JobId, now: int, m: nat)
    requires id in db.rows && JobOk(db, id, m)
    ensures var db' := ApplyAll(db, DeleteOps(db, id, now));
      && LegalRun(db, DeleteOps(db, id, now), m)
      && id in db'.rows && (Live(db.rows[id].state) ==> db'.rows[id].cancelRequested)
      && (db.rows[id].state.Queued? ==> db'.rows[id].state.Cancelled?)
      && (db.rows[id].state.InProgress? ==>
            (db'.rows[id].state.InProgress? && db'.rows[id].leaseId == db.rows[id].leaseId
             && db'.rows[id].cancelRequestedAt ==
                  if db.rows[id].cancelRequestedAt.Some? then db.rows[id].cancelRequestedAt else Some(now)))
      && (!Live(db.rows[id].state) ==> db' == db)
  {
    var ops := DeleteOps(db, id, now);
    if ops != [] {
      assert ops == [ops[0]];
      LegalOne(db, ops[0], m);
      ApplyOne(db, ops[0]);
    }
  }

  datatype ContentReply = NoVideo | NotReady | Expired | Content(body: Bytes, sha256: Option<Digest>)

  /** `GET /v1/videos/:id/content`. */
  function ContentOf(rows: map<JobId, Job>, files: map<(JobId, string), Bytes>, id: JobId): ContentReply {
    if id !in rows then NoVideo
    else if rows[id].artifacts == [] then (if rows[id].state.Completed? then Expired else NotReady)
    else
      var a := rows[id].artifacts[0];
      if (id, a.filename) in files then Content(files[(id, a.filename)], a.sha256) else Expired
  }

  /** The handler, streaming a file that exists. */
  method ServeContent(store: JobStore, artifacts: ArtifactStore, id: JobId) returns (reply: ContentReply)
    ensures reply == ContentOf(store.rows, artifacts.files, id)
    ensures reply == NoVideo <==> id !in store.rows
    ensures reply == NotReady <==> id in store.rows && store.rows[id].artifacts == [] && store.rows[id].state != Completed
    ensures reply == Expired <==>
      (id in store.rows && if store.rows[id].artifacts == [] then store.rows[id].state == Completed
       else (id, store.rows[id].artifacts[0].filename) !in artifacts.files)
    ensures reply.Content? ==>
      (var a := store.rows[id].artifacts[0];
       (id, a.filename) in artifacts.files && reply.body == artifacts.files[(id, a.filename)] && reply.sha256 == a.sha256)
  {
    var job := store.Get(id);
    if job.None? { return NoVideo; }
    if |job.value.artifacts| == 0 {
      if job.value.state.Completed? { return Expired; }
      return NotReady;
    }
    var a := job.value.artifacts[0];
    var size := artifacts.Exists(id, a.filename);
    if size.None? { return Expired; }
    reply := Content(artifacts.files[(id, a.filename)], a.sha256);
  }

  // ------------------------------------------------------------ serialize.ts

  datatype VideoResponse = VideoResponse(
    id: JobId, model: ModelId, status: State, progress: int, createdAt: int, completedAt: Option<int>,
    expiresAt: Option<int>, size: string, seconds: int, error: Option<string>, podId: Option<PodId>,
    attempts: nat, queuePosition: Option<nat>)

  /** Milliseconds to whole unix seconds, rounding down. */
  function Seconds(ms: int): int { ms / 1000 }

  function ToVideoResponse(job: Job, queuePosition: Option<nat>, artifactTtlMs: int): VideoResponse {
    VideoResponse(
      job.id, job.model, job.state, Sizing.Round(job.progress * 100.0), Seconds(job.createdAt),
      if job.finishedAt.Some? then Some(Seconds(job.finishedAt.value)) else None,
      if job.state.Completed? && job.finishedAt.Some? then Some(Seconds(job.finishedAt.value + artifactTtlMs)) else None,
      job.params.size, job.params.seconds,
      if job.error.Some? && job.error.value != "" then job.error else None,
      job.podId, job.attempts, queuePosition)
  }

  /** What a client can rely on in every response the gateway builds from a stored row. */
  lemma {:induction false} ResponseIsHonest(rows: map<JobId, Job>, id: JobId, ttl: int, m: nat)
    requires id in rows && RowOk(id, rows[id], m)
    ensures var row, v := rows[id], ToVideoResponse(rows[id], QueuePosition(rows, rows[id]), ttl);
      && v.id == id && v.model == row.model && v.status == row.state && v.size == row.params.size && v.seconds == row.params.seconds
      && v.podId == row.podId && v.attempts == row.attempts
      && (v.queuePosition.Some? ==>
            v.queuePosition.value == |set k | k in rows && rows[k].state == Queued && rows[k].createdAt < row.createdAt|)
      && 0 <= v.progress <= 100
      && (v.status.Completed? ==> v.progress == 100)
      && -0.5 < v.progress as real - row.progress * 100.0 <= 0.5
      && (v.completedAt.Some? <==> !Live(v.status))
      && (v.expiresAt.Some? <==> v.status.Completed?)
      && (v.error.Some? ==> v.status.Failed? && v.error == row.error && v.error != Some(""))
      && (v.status.Failed? && v.error.None? ==> row.error == Some(""))
      && (v.queuePosition.Some? <==> v.status.Queued?)
      && (v.status.InProgress? ==> v.podId.Some? && v.attempts >= 1)
      && 0 <= row.createdAt - v.createdAt * 1000 < 1000
      && (v.completedAt.Some? ==> 0 <= row.finishedAt.value - v.completedAt.value * 1000 < 1000)
      && (v.expiresAt.Some? ==> 0 <= row.finishedAt.value + ttl - v.expiresAt.value * 1000 < 1000)
  {
    var p := rows[id].progress * 100.0;
    assert 0.0 <= p <= 100.0;
    assert Ahead(rows, rows[id].createdAt) == set k | k in rows && rows[k].state == Queued && rows[k].createdAt < rows[id].createdAt;
  }
}
