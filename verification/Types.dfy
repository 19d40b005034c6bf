/** Wire and storage types (gateway/src/domain/types.ts) and the two shapes every module needs. */
module Types {

  datatype Option<+T> = None | Some(value: T)

  // Identifiers are opaque: only equality matters, and fresh ones are always available.
  type JobId = nat
  type PodId = nat
  type LeaseId = nat
  type ModelId = nat

  type Bytes = seq<int>
  type Digest = string

  /** The five documented statuses; there is no `cancelling` status. */
  datatype State = Queued | InProgress | Completed | Failed | Cancelled

  predicate Live(s: State) {
    s.Queued? || s.InProgress?
  }

  datatype Params = Params(size: string, seconds: int)

  datatype Artifact = Artifact(filename: string, bytes: Option<int>, sha256: Option<Digest>)

  /** A row of the `jobs` table. */
  datatype Job = Job(
    id: JobId,
    model: ModelId,
    params: Params,
    state: State,
    progress: real,
    error: Option<string>,
    artifacts: seq<Artifact>,
    podId: Option<PodId>,
    leaseId: Option<LeaseId>,
    leaseExpiresAt: Option<int>,
    upstreamId: Option<string>,
    attempts: nat,
    cancelRequested: bool,
    cancelRequestedAt: Option<int>,
    createdAt: int,
    startedAt: Option<int>,
    finishedAt: Option<int>,
    deadlineAt: int)

  datatype NewJob = NewJob(id: JobId, model: ModelId, params: Params, createdAt: int, deadlineAt: int)

  /** A row of `job_events`; `AssignedEv` keeps the lease the source prints into `detail`. */
  datatype Event =
    | CreatedEv
    | AssignedEv(pod: PodId, lease: LeaseId)
    | UploadedEv(uploader: Option<PodId>)
    | CompletedEv
    | FailedEv
    | RequeuedEv
    | LeaseExpiredEv(loser: Option<PodId>)
    | DeadlineExceededEv(holder: Option<PodId>)
    | CancelRequestedEv
    | CancelledEv
    | RecoveredEv(keeper: Option<PodId>)

  /** What the scheduler reads of a pod, as returned by `touch`. */
  datatype Pod = Pod(podId: PodId, model: Option<ModelId>, maxInFlight: int, ready: bool, draining: bool)

  datatype Assignment = Assignment(jobId: JobId, leaseId: LeaseId)
}
