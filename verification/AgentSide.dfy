/** agent/src/nidora_agent/client.py and runner.py: the pod's half of the protocol. Replies of the
    gateway and of the local inference server are arguments: they may be anything. */
module AgentSide {
  import opened Types
  import opened AgentRoutes
  import opened Artifacts

  datatype Phase = Starting | DownloadingInput | Submitting | Generating | DownloadingOutput | Uploading

  /** What the agent reports about a job on each poll. */
  class JobState {
    const jobId: JobId
    const leaseId: LeaseId
    var phase: Phase
    var progress: real
    var upstreamId: Option<string>
    var cancelled: bool

    constructor (a: Assignment)
      ensures jobId == a.jobId && leaseId == a.leaseId && phase == Starting && progress == 0.0
      ensures upstreamId == None && !cancelled
    {
      jobId, leaseId := a.jobId, a.leaseId;
      phase, progress, upstreamId, cancelled := Starting, 0.0, None, false;
    }
  }

  /** One HTTP attempt: a status code, or no answer at all. */
  datatype Attempt = Status(code: int) | NoAnswer

  // ------------------------------------------------------------ runner.py

  datatype UploadEnd = Uploaded | UploadStale | Rejected | Exhausted

  /** The gateway had a transient problem, or did not answer: worth another try. */
  predicate Transient(a: Attempt) {
    a.NoAnswer? || a.code >= 500
  }

  /** What an answer that ends the retrying stands for. */
  function MeaningOf(code: int): UploadEnd {
    if code == 409 then UploadStale else if code < 300 then Uploaded else Rejected
  }

  /** Attempt `i` is the first one worth no retry. */
  predicate FirstAnswer(replies: seq<Attempt>, attempts: nat, i: int)
    requires |replies| >= attempts
  {
    0 <= i < attempts && !Transient(replies[i]) && forall j :: 0 <= j < i ==> Transient(replies[j])
  }

  /** The first decisive answer decides; with none, the attempts are used up. */
  ghost predicate UploadsEnd(replies: seq<Attempt>, attempts: nat, end: UploadEnd)
    requires |replies| >= attempts
  {
    && (end.Exhausted? <==> forall i :: 0 <= i < attempts ==> Transient(replies[i]))
    && (!end.Exhausted? ==> exists i :: FirstAnswer(replies, attempts, i) && end == MeaningOf(replies[i].code))
    && (forall i :: FirstAnswer(replies, attempts, i) ==> end == MeaningOf(replies[i].code))
    && (end.UploadStale? ==> exists i :: 0 <= i < attempts && replies[i] == Status(409))
  }

  /** `_upload`: retry transient failures, stop at the first decisive answer. */
  method UploadWithRetry(replies: seq<Attempt>, attempts: nat) returns (end: UploadEnd)
    requires |replies| >= attempts
    ensures UploadsEnd(replies, attempts, end)
    ensures end == Exhausted <==> forall i :: 0 <= i < attempts ==> replies[i] == NoAnswer || replies[i].code >= 500
    ensures forall i :: 0 <= i < attempts && replies[i].Status? && replies[i].code < 500
                        && (forall j :: 0 <= j < i ==> replies[j] == NoAnswer || replies[j].code >= 500) ==>
      end == if replies[i].code == 409 then UploadStale else if replies[i].code < 300 then Uploaded else Rejected
  {
    var attempt := 0;
    while attempt < attempts
      invariant 0 <= attempt <= attempts
      invariant forall j :: 0 <= j < attempt ==> Transient(replies[j])
    {
      var reply := replies[attempt];
      if reply.Status? {
        if reply.code == 409 { return UploadStale; }
        if reply.code < 300 { return Uploaded; }
        if reply.code < 500 { return Rejected; }
      }
      attempt := attempt + 1;
    }
    end := Exhausted;
  }

  datatype ReportEnd = Delivered | ReportStale | GaveUp

  const REPORT_ATTEMPTS := 3

  predicate Decisive(a: Attempt) {
    a.Status? && (a.code == 409 || a.code < 300)
  }

  predicate FirstVerdict(replies: seq<Attempt>, i: int)
    requires |replies| >= REPORT_ATTEMPTS
  {
    0 <= i < REPORT_ATTEMPTS && Decisive(replies[i]) && forall j :: 0 <= j < i ==> !Decisive(replies[j])
  }

  /** `_report`: three attempts; anything but success or 409 is tried again. */
  method ReportWithRetry(replies: seq<Attempt>) returns (end: ReportEnd)
    requires |replies| >= REPORT_ATTEMPTS
    ensures end.GaveUp? <==> forall i :: 0 <= i < REPORT_ATTEMPTS ==> !Decisive(replies[i])
    ensures !end.GaveUp? ==> exists i :: FirstVerdict(replies, i) && (end.ReportStale? <==> replies[i].code == 409)
    ensures end == GaveUp <==> forall i :: 0 <= i < 3 ==> replies[i] == NoAnswer || (replies[i].code != 409 && replies[i].code >= 300)
    ensures forall i :: 0 <= i < 3 && replies[i].Status? && (replies[i].code == 409 || replies[i].code < 300)
                        && (forall j :: 0 <= j < i ==> replies[j] == NoAnswer || (replies[j].code != 409 && replies[j].code >= 300)) ==>
      end == if replies[i].code == 409 then ReportStale else Delivered
  {
    var attempt := 0;
    while attempt < REPORT_ATTEMPTS
      invariant 0 <= attempt <= REPORT_ATTEMPTS
      invariant forall j :: 0 <= j < attempt ==> !Decisive(replies[j])
    {
      var reply := replies[attempt];
      if reply.Status? {
        if reply.code == 409 { return ReportStale; }
        if reply.code < 300 { return Delivered; }
      }
      attempt := attempt + 1;
    }
    end := GaveUp;
  }

  datatype Fetch = FetchedInput(sha256: Digest) | FetchStale | FetchFailed
  datatype Submit = SubmittedJob(id: string) | SubmitFailed(retryable: bool)
  datatype ServerPoll = StillRunning | Finished | ServerFailed(retryable: bool)
  datatype Download = Media(body: Bytes) | DownloadFailed(retryable: bool)

  /** Everything the outside world does to one run, in order. `cancelAfterInput` and `cancelAt` are
      what the cancel flag reads at the agent's two checks. */
  datatype World = World(
    inputSha: Option<Digest>, fetch: Fetch, cancelAfterInput: bool, submit: Submit,
    polls: seq<ServerPoll>, cancelAt: seq<bool>, timesOutAt: nat, download: Download, uploads: seq<Attempt>)

  datatype RunEnd = Reported(outcome: Outcome) | LeaseLost

  function SuccessOf(media: Bytes, hash: Bytes -> Digest): Outcome {
    Succeeded(Some(OUTPUT), Some(|media|), Some(hash(media)))
  }

  predicate WorldOk(w: World) {
    |w.cancelAt| >= |w.polls| && w.timesOutAt <= |w.polls|
  }

  predicate Quiet(w: World, j: int)
    requires WorldOk(w) && 0 <= j < w.timesOutAt
  {
    w.polls[j].StillRunning? && !w.cancelAt[j]
  }

  /** Look `i` is the first at which the server is done or the cancel flag is seen. */
  predicate Settles(w: World, i: int)
    requires WorldOk(w)
  {
    0 <= i < w.timesOutAt && !Quiet(w, i) && forall j :: 0 <= j < i ==> Quiet(w, j)
  }

  predicate FinishedAt(w: World, i: int)
    requires WorldOk(w)
  {
    Settles(w, i) && w.polls[i].Finished?
  }

  /** A failure report, which the gateway may or may not try again elsewhere. */
  predicate FailedWith(end: RunEnd, retryable: bool) {
    end.Reported? && end.outcome.Broke? && end.outcome.retryable == retryable
  }

  /** What the first telling look means for the run. */
  predicate EndsAs(p: ServerPoll, end: Option<RunEnd>) {
    match p
    case Finished => end.None?
    case ServerFailed(retryable) => end.Some? && FailedWith(end.value, retryable)
    case StillRunning => end == Some(Reported(CancelAck))
  }

  /** Waiting for the local server: each non-final poll is one look at the cancel flag, and a look that
      finds the video done or failed never reads it. */
  method WaitForVideo(state: JobState, w: World) returns (end: Option<RunEnd>)
    requires 0.0 <= state.progress <= 0.9 && WorldOk(w)
    modifies state`progress
    ensures 0.0 <= state.progress <= 0.9 && state.progress >= old(state.progress)
    ensures forall i :: Settles(w, i) ==>
      state.progress == if old(state.progress) + 0.02 * i as real < 0.9 then old(state.progress) + 0.02 * i as real else 0.9
    ensures forall i :: Settles(w, i) ==> EndsAs(w.polls[i], end)
    ensures (forall j :: 0 <= j < w.timesOutAt ==> Quiet(w, j)) ==> end.Some? && FailedWith(end.value, false)
    ensures end.None? ==> exists i :: FinishedAt(w, i)
    ensures end.Some? ==> end.value.Reported? && !end.value.outcome.Succeeded?
    ensures end == Some(Reported(CancelAck)) ==> exists i :: 0 <= i < w.timesOutAt && w.cancelAt[i]
  {
    var i := 0;
    while i < w.timesOutAt
      invariant 0 <= i <= w.timesOutAt
      invariant 0.0 <= state.progress <= 0.9 && state.progress >= old(state.progress)
      invariant state.progress == if old(state.progress) + 0.02 * i as real < 0.9 then old(state.progress) + 0.02 * i as real else 0.9
      invariant forall j :: 0 <= j < i ==> Quiet(w, j)
    {
      assert Quiet(w, i) <==> w.polls[i].StillRunning? && !w.cancelAt[i];
      match w.polls[i] {
        case Finished =>
          assert FinishedAt(w, i);
          return None;
        case ServerFailed(retryable) => return Some(Reported(Broke(Some("sglang failed"), retryable)));
        case StillRunning =>
          if w.cancelAt[i] { return Some(Reported(CancelAck)); }
          state.progress := if state.progress + 0.02 < 0.9 then state.progress + 0.02 else 0.9;
      }
      i := i + 1;
    }
    end := Some(Reported(Broke(Some("timed out waiting for sglang to finish"), false)));
  }

  predicate BadInput(w: World) {
    w.fetch.FetchedInput? && w.inputSha.Some? && w.inputSha.value != w.fetch.sha256
  }

  predicate GoodInput(w: World) {
    w.fetch.FetchedInput? && !BadInput(w)
  }

  /** The local server has the job. */
  predicate Running(w: World) {
    GoodInput(w) && !w.cancelAfterInput && w.submit.SubmittedJob?
  }

  /** The rendered bytes are in hand. */
  ghost predicate Rendered(w: World)
    requires WorldOk(w)
  {
    Running(w) && w.download.Media? && exists i :: FinishedAt(w, i)
  }

  function AfterUpload(u: UploadEnd, media: Bytes, hash: Bytes -> Digest): RunEnd {
    match u
    case UploadStale => LeaseLost
    case Rejected => Reported(Broke(Some("gateway rejected the artifact"), false))
    case Exhausted => Reported(Broke(Some("artifact upload failed"), true))
    case Uploaded => Reported(SuccessOf(media, hash))
  }

  /** How each thing that can happen ends a run. A success is reported only after the gateway took the
      very bytes whose digest is reported; a lost lease is never reported at all. */
  ghost predicate Ran(w: World, uploadAttempts: nat, hash: Bytes -> Digest, end: RunEnd)
    requires WorldOk(w) && |w.uploads| >= uploadAttempts
  {
    && (w.fetch.FetchStale? ==> end.LeaseLost?)
    && (w.fetch.FetchFailed? || BadInput(w) ==> FailedWith(end, true))
    && (GoodInput(w) && w.cancelAfterInput ==> end == Reported(CancelAck))
    && (GoodInput(w) && !w.cancelAfterInput && w.submit.SubmitFailed? ==> FailedWith(end, w.submit.retryable))
    && (Running(w) ==> forall i :: Settles(w, i) && !w.polls[i].Finished? ==> EndsAs(w.polls[i], Some(end)))
    && (Running(w) && (forall j :: 0 <= j < w.timesOutAt ==> Quiet(w, j)) ==> FailedWith(end, false))
    && (Running(w) && w.download.DownloadFailed? && (exists i :: FinishedAt(w, i)) ==> FailedWith(end, w.download.retryable))
    && (Rendered(w) && (forall i :: 0 <= i < uploadAttempts ==> Transient(w.uploads[i])) ==> FailedWith(end, true))
    && (Rendered(w) ==> forall i :: FirstAnswer(w.uploads, uploadAttempts, i) ==>
          end == AfterUpload(MeaningOf(w.uploads[i].code), w.download.body, hash))
    && (end.Reported? && end.outcome.Succeeded? ==>
          Rendered(w) && end.outcome == SuccessOf(w.download.body, hash)
          && exists i :: FirstAnswer(w.uploads, uploadAttempts, i) && w.uploads[i].code < 300)
    && (end == Reported(CancelAck) ==> w.cancelAfterInput || exists i :: 0 <= i < |w.polls| && w.cancelAt[i])
    && (end.LeaseLost? ==> w.fetch.FetchStale? || exists i :: 0 <= i < uploadAttempts && w.uploads[i] == Status(409))
  }

  lemma {:induction false} RanEarly(w: World, uploadAttempts: nat, hash: Bytes -> Digest, end: RunEnd)
    requires WorldOk(w) && |w.uploads| >= uploadAttempts && !Running(w)
    requires if w.fetch.FetchStale? then end.LeaseLost?
      else if !GoodInput(w) then FailedWith(end, true)
      else if w.cancelAfterInput then end == Reported(CancelAck)
      else FailedWith(end, w.submit.retryable)
    ensures Ran(w, uploadAttempts, hash, end)
  {
    hide Transient, FirstAnswer, Settles, Quiet;
  }

  lemma {:induction false} RanWaiting(w: World, uploadAttempts: nat, hash: Bytes -> Digest, end: RunEnd)
    requires WorldOk(w) && |w.uploads| >= uploadAttempts && Running(w)
    requires forall i :: Settles(w, i) ==> EndsAs(w.polls[i], Some(end))
    requires (forall j :: 0 <= j < w.timesOutAt ==> Quiet(w, j)) ==> FailedWith(end, false)
    requires end.Reported? && !end.outcome.Succeeded?
    requires end == Reported(CancelAck) ==> exists i :: 0 <= i < w.timesOutAt && w.cancelAt[i]
    ensures Ran(w, uploadAttempts, hash, end)
  {
    hide Transient, FirstAnswer, Settles, Quiet;
  }

  lemma {:induction false} RanOn(w: World, uploadAttempts: nat, hash: Bytes -> Digest, u: UploadEnd, end: RunEnd)
    requires WorldOk(w) && |w.uploads| >= uploadAttempts && Running(w)
    requires forall i :: Settles(w, i) ==> EndsAs(w.polls[i], None)
    requires exists i :: FinishedAt(w, i)
    requires if w.download.DownloadFailed? then FailedWith(end, w.download.retryable)
      else end == AfterUpload(u, w.download.body, hash) && UploadsEnd(w.uploads, uploadAttempts, u)
    ensures Ran(w, uploadAttempts, hash, end)
  {
    hide Transient, FirstAnswer, Quiet;
  }

  /** The same from the outside events alone: the input, the local server's first telling look, the
      download, and the codes of the upload attempts. */
  lemma {:induction false} RanMeans(w: World, uploadAttempts: nat, hash: Bytes -> Digest, end: RunEnd)
    requires WorldOk(w) && |w.uploads| >= uploadAttempts && Ran(w, uploadAttempts, hash, end)
    ensures w.fetch == FetchStale ==> end == LeaseLost
    ensures w.fetch == FetchFailed || (w.fetch.FetchedInput? && w.inputSha.Some? && w.inputSha.value != w.fetch.sha256) ==>
      end.Reported? && end.outcome.Broke? && end.outcome.retryable
    ensures w.fetch.FetchedInput? && (w.inputSha.Some? ==> w.inputSha.value == w.fetch.sha256) ==>
      if w.cancelAfterInput then end == Reported(CancelAck)
      else if w.submit.SubmitFailed? then end.Reported? && end.outcome.Broke? && end.outcome.retryable == w.submit.retryable
      else
        ((forall j :: 0 <= j < w.timesOutAt ==> w.polls[j] == StillRunning && !w.cancelAt[j]) ==>
           end.Reported? && end.outcome.Broke? && !end.outcome.retryable)
        && (forall i :: 0 <= i < w.timesOutAt && (forall j :: 0 <= j < i ==> w.polls[j] == StillRunning && !w.cancelAt[j]) ==>
              && (w.polls[i] == StillRunning && w.cancelAt[i] ==> end == Reported(CancelAck))
              && (w.polls[i].ServerFailed? ==> end.Reported? && end.outcome.Broke? && end.outcome.retryable == w.polls[i].retryable)
              && (w.polls[i] == Finished && w.download.DownloadFailed? ==>
                    end.Reported? && end.outcome.Broke? && end.outcome.retryable == w.download.retryable))
  {
    hide Transient, FirstAnswer, AfterUpload, Rendered, UploadsEnd;
    assert forall j :: 0 <= j < w.timesOutAt ==> (Quiet(w, j) <==> w.polls[j] == StillRunning && !w.cancelAt[j]);
    assert forall i :: Settles(w, i) && w.polls[i].Finished? ==> FinishedAt(w, i);
  }

  /** And once the rendered bytes are in hand: out of attempts is a failure to be tried elsewhere, 409 a lost
      lease, never reported, any other answer below 500 final. */
  lemma {:induction false} RanByCodes(w: World, uploadAttempts: nat, hash: Bytes -> Digest, end: RunEnd, i: nat)
    requires WorldOk(w) && |w.uploads| >= uploadAttempts && Ran(w, uploadAttempts, hash, end)
    requires w.fetch.FetchedInput? && (w.inputSha.Some? ==> w.inputSha.value == w.fetch.sha256) && !w.cancelAfterInput
    requires w.submit.SubmittedJob? && w.download.Media?
    requires i < w.timesOutAt && w.polls[i] == Finished && forall j :: 0 <= j < i ==> w.polls[j] == StillRunning && !w.cancelAt[j]
    ensures (forall k :: 0 <= k < uploadAttempts ==> w.uploads[k] == NoAnswer || w.uploads[k].code >= 500) ==>
      end.Reported? && end.outcome.Broke? && end.outcome.retryable
    ensures forall k :: 0 <= k < uploadAttempts && w.uploads[k].Status? && w.uploads[k].code < 500
                        && (forall j :: 0 <= j < k ==> w.uploads[j] == NoAnswer || w.uploads[j].code >= 500) ==>
      if w.uploads[k].code == 409 then end == LeaseLost
      else if w.uploads[k].code < 300 then
        end == Reported(Succeeded(Some("output.mp4"), Some(|w.download.body|), Some(hash(w.download.body))))
      else end.Reported? && end.outcome.Broke? && !end.outcome.retryable
  {
    assert forall j :: 0 <= j < i ==> Quiet(w, j);
    assert FinishedAt(w, i);
    assert Rendered(w);
    forall k | 0 <= k < uploadAttempts ensures Transient(w.uploads[k]) <==> w.uploads[k] == NoAnswer || w.uploads[k].code >= 500 {}
    forall k | 0 <= k < uploadAttempts && w.uploads[k].Status? && w.uploads[k].code < 500
               && (forall j :: 0 <= j < k ==> w.uploads[j] == NoAnswer || w.uploads[j].code >= 500)
      ensures FirstAnswer(w.uploads, uploadAttempts, k) {}
  }

  /** `Runner.run`. */
  method RunJob(state: JobState, w: World, uploadAttempts: nat, hash: Bytes -> Digest) returns (end: RunEnd)
    requires state.phase == Starting && state.progress == 0.0
    requires WorldOk(w) && |w.uploads| >= uploadAttempts
    modifies state`phase, state`progress, state`upstreamId
    ensures 0.0 <= state.progress <= 0.95
    ensures Ran(w, uploadAttempts, hash, end)
    ensures end.Reported? && end.outcome.Succeeded? ==>
      state.phase == Uploading && state.progress == 0.95 && state.upstreamId.Some?
    ensures state.upstreamId ==
      if GoodInput(w) && !w.cancelAfterInput && w.submit.SubmittedJob? then Some(w.submit.id) else old(state.upstreamId)
  {
    hide Ran, Transient, FirstAnswer, Settles, Quiet, UploadsEnd, EndsAs;
    state.phase := DownloadingInput;
    match w.fetch {
      case FetchStale =>
        end := LeaseLost;
        RanEarly(w, uploadAttempts, hash, end);
        return;
      case FetchFailed =>
        end := Reported(Broke(Some("agent error"), true));
        RanEarly(w, uploadAttempts, hash, end);
        return;
      case FetchedInput(sha) =>
        if w.inputSha.Some? && w.inputSha.value != sha {
          end := Reported(Broke(Some("input image failed its checksum"), true));
          RanEarly(w, uploadAttempts, hash, end);
          return;
        }
    }
    if w.cancelAfterInput {
      end := Reported(CancelAck);
      RanEarly(w, uploadAttempts, hash, end);
      return;
    }
    state.phase := Submitting;
    if w.submit.SubmitFailed? {
      end := Reported(Broke(Some("sglang rejected the request"), w.submit.retryable));
      RanEarly(w, uploadAttempts, hash, end);
      return;
    }
    state.upstreamId := Some(w.submit.id);
    state.phase := Generating;
    state.progress := 0.1;
    var waited := WaitForVideo(state, w);
    if waited.Some? {
      end := waited.value;
      RanWaiting(w, uploadAttempts, hash, end);
      return;
    }
    state.phase := DownloadingOutput;
    state.progress := 0.95;
    if w.download.DownloadFailed? {
      end := Reported(Broke(Some("sglang content download failed"), w.download.retryable));
      RanOn(w, uploadAttempts, hash, Exhausted, end);
      return;
    }
    state.phase := Uploading;
    var media := w.download.body;
    var upload := UploadWithRetry(w.uploads, uploadAttempts);
    match upload {
      case UploadStale => end := LeaseLost;
      case Rejected => end := Reported(Broke(Some("gateway rejected the artifact"), false));
      case Exhausted => end := Reported(Broke(Some("artifact upload failed"), true));
      case Uploaded => end := Reported(SuccessOf(media, hash));
    }
    RanOn(w, uploadAttempts, hash, upload, end);
  }

  // ------------------------------------------------------------ client.py

  /** `_start` over a whole response: a job already held keeps the lease it was started with. */
  function StartAll(held: map<JobId, LeaseId>, assign: seq<Assignment>): map<JobId, LeaseId> {
    if assign == [] then held
    else
      var before := StartAll(held, assign[..|assign| - 1]);
      var a := assign[|assign| - 1];
      if a.jobId in before then before else before[a.jobId := a.leaseId]
  }

  function ReportedIds(reports: seq<Report>): set<JobId> {
    if reports == [] then {}
    else
      var r := reports[|reports| - 1];
      ReportedIds(reports[..|reports| - 1]) + if r.jobId.Some? then {r.jobId.value} else {}
  }

  /** Each report names a held job once, under the lease it is held with. */
  predicate Truthful(held: map<JobId, LeaseId>, reports: seq<Report>) {
    reports == [] ||
    (var n := |reports| - 1;
     var r := reports[n];
     && Truthful(held, reports[..n])
     && Usable(r) && r.jobId.value in held && held[r.jobId.value] == r.leaseId.value
     && r.jobId.value !in ReportedIds(reports[..n]))
  }

  /** The `in_flight` list of a poll: every held job exactly once. */
  predicate ReportsAll(held: map<JobId, LeaseId>, reports: seq<Report>) {
    Truthful(held, reports) && ReportedIds(reports) == held.Keys
  }

  /** The flags after an answer: set where it says so or where they were, clear on what it started. */
  predicate FlagsTold(flags: map<JobId, bool>, flags': map<JobId, bool>, orphan: seq<JobId>, cancel: seq<JobId>) {
    && flags.Keys <= flags'.Keys
    && (forall id :: id in flags' ==> (flags'[id] <==> id in flags && (flags[id] || id in orphan || id in cancel)))
  }

  class Agent {
    var jobs: map<JobId, JobState>

    ghost predicate Valid() reads this {
      forall id :: id in jobs ==> jobs[id].jobId == id
    }

    ghost function Held(): map<JobId, LeaseId> reads this {
      map id | id in jobs :: jobs[id].leaseId
    }

    constructor ()
      ensures Valid() && jobs == map[]
    {
      jobs := map[];
    }

    method InFlight() returns (reports: seq<Report>)
      requires Valid()
      ensures ReportsAll(Held(), reports)
      ensures forall i :: 0 <= i < |reports| ==>
        (var r := reports[i];
         r.jobId.Some? && r.jobId.value in jobs
         && (var s := jobs[r.jobId.value];
             r.leaseId == Some(s.leaseId) && r.progress == Some(s.progress) && r.upstreamId == s.upstreamId))
    {
      reports := [];
      var todo := jobs.Keys;
      while todo != {}
        invariant todo <= jobs.Keys
        invariant Truthful(Held(), reports) && ReportedIds(reports) == jobs.Keys - todo
        invariant forall i :: 0 <= i < |reports| ==>
          (var r := reports[i];
           r.jobId.Some? && r.jobId.value in jobs
           && (var s := jobs[r.jobId.value];
               r.leaseId == Some(s.leaseId) && r.progress == Some(s.progress) && r.upstreamId == s.upstreamId))
        decreases todo
      {
        var id :| id in todo;
        var s := jobs[id];
        var r := Report(Some(id), Some(s.leaseId), Some(s.progress), s.upstreamId);
        assert (reports + [r])[..|reports|] == reports;
        reports := reports + [r];
        todo := todo - {id};
      }
    }

    method Flag(ids: seq<JobId>)
      requires Valid()
      modifies jobs.Values
      ensures forall id :: id in jobs ==> (jobs[id].cancelled <==> old(jobs[id].cancelled) || id in ids)
      ensures forall id :: id in jobs ==> jobs[id].progress == old(jobs[id].progress)
    {
      var i := 0;
      while i < |ids|
        invariant 0 <= i <= |ids|
        invariant forall id :: id in jobs ==> (jobs[id].cancelled <==> old(jobs[id].cancelled) || id in ids[..i])
        invariant forall id :: id in jobs ==> jobs[id].progress == old(jobs[id].progress)
      {
        if ids[i] in jobs { jobs[ids[i]].cancelled := true; }
        i := i + 1;
      }
      assert ids[..|ids|] == ids;
    }

    method Start(a: Assignment)
      requires Valid()
      modifies this
      ensures Valid() && Held() == StartAll(old(Held()), [a])
      ensures a.jobId in jobs && (a.jobId in old(jobs) ==> jobs == old(jobs))
      ensures a.jobId !in old(jobs) ==> jobs == old(jobs)[a.jobId := jobs[a.jobId]]
      ensures a.jobId !in old(jobs) ==> fresh(jobs[a.jobId]) && !jobs[a.jobId].cancelled
    {
      assert [a][..0] == [] && StartAll(Held(), []) == Held();
      if a.jobId in jobs { return; }
      var s := new JobState(a);
      jobs := jobs[a.jobId := s];
    }

    ghost function Flags(): map<JobId, bool> reads this, jobs.Values {
      map id | id in jobs :: jobs[id].cancelled
    }

    /** The answer to a poll: flag what is orphaned or cancelled, then start what is new. */
    method Receive(orphan: seq<JobId>, cancel: seq<JobId>, assign: seq<Assignment>)
      requires Valid()
      modifies this, jobs.Values
      ensures Valid() && Held() == StartAll(old(Held()), assign)
      ensures FlagsTold(old(Flags()), Flags(), orphan, cancel)
      ensures forall id :: id in old(jobs) ==> id in jobs && jobs[id] == old(jobs)[id]
      ensures forall id :: id in old(jobs) ==>
        (jobs[id].cancelled <==> old(jobs[id].cancelled) || id in orphan || id in cancel)
      ensures forall id :: id in jobs && id !in old(jobs) ==> !jobs[id].cancelled
    {
      ghost var was := Held();
      Flag(orphan);
      Flag(cancel);
      var i := 0;
      assert assign[..0] == [];
      while i < |assign|
        invariant 0 <= i <= |assign| && Valid()
        invariant Held() == StartAll(was, assign[..i])
        invariant forall id :: id in old(jobs) ==> id in jobs && jobs[id] == old(jobs)[id]
        invariant forall id :: id in old(jobs) ==>
          (jobs[id].cancelled <==> old(jobs[id].cancelled) || id in orphan || id in cancel)
        invariant forall id :: id in jobs && id !in old(jobs) ==> !jobs[id].cancelled
      {
        assert assign[..i + 1][..i] == assign[..i];
        assert [assign[i]][..0] == [];
        Start(assign[i]);
        i := i + 1;
      }
      assert assign[..|assign|] == assign;
    }

    /** The `finally` of `_execute`. */
    method Drop(jobId: JobId)
      requires Valid()
      modifies this
      ensures Valid() && jobs == old(jobs) - {jobId} && Held() == old(Held()) - {jobId} && Flags() == old(Flags()) - {jobId}
    {
      jobs := jobs - {jobId};
    }
  }

  /** Starting never replaces a held job, and holds nothing it was not already holding or just given. */
  lemma {:induction false} StartAllHolds(held: map<JobId, LeaseId>, assign: seq<Assignment>)
    ensures var after := StartAll(held, assign);
      && (forall id :: id in held ==> id in after && after[id] == held[id])
      && (forall id :: id in after && id !in held ==> Assignment(id, after[id]) in assign)
  {
    if assign != [] {
      var n := |assign| - 1;
      StartAllHolds(held, assign[..n]);
      assert assign == assign[..n] + [assign[n]];
    }
  }
}
