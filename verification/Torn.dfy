/** Two runs in which clashing uploads leave a completed job with bytes that are not what its digest says:
    a retry that arrives while the first attempt is still being written, and an upload that outlives its
    lease. */
module Torn {
  import opened Types
  import opened JobTable
  import opened Artifacts
  import opened Uploads
  import opened AgentRoutes
  import opened VideoRoutes
  import opened Protocol
  import opened Runs
  import opened Behaviours
  import opened Handlers
  import opened Witness

  // ------------------------------------------------------------ one more step

  lemma {:induction false} Then(c: Config, s: Sys, ts: seq<Step>, s1: Sys, t: Step)
    requires Walks(c, s, ts, s1) && Guard(c, s1, t)
    ensures Walks(c, s, ts + [t], Next(c, s1, t))
  {
    hide Guard, Next, Walks;
    WalksOne(c, s1, t);
    WalksOn(c, s, ts, s1, [t], Next(c, s1, t));
  }

  lemma {:induction false} Moves(c: Config, s: Sys, t: Step)
    requires t.Upload? || t.OpenPart? || t.WritePart? || t.RenamePart? || t.BreakUpload?
    requires t.Upload? ==> t.lease in s.fleet.tasks && s.fleet.tasks[t.lease].media.Some? && Refusal(c, s, t.lease).None?
    requires CanMove(s.disk, MoveOf(c, s, t))
    ensures Guard(c, s, t) && Next(c, s, t) == s.(disk := Moved(s.disk, MoveOf(c, s, t)))
  {
    hide Moved, UploadRefusal;
    assert s.hist + [] == s.hist;
  }

  /** A step that only moves an upload on. */
  lemma {:induction false} Further(c: Config, s: Sys, ts: seq<Step>, d: Disk, t: Step, d': Disk)
    requires t.Upload? || t.OpenPart? || t.WritePart? || t.RenamePart? || t.BreakUpload?
    requires t.Upload? ==> t.lease in s.fleet.tasks && s.fleet.tasks[t.lease].media.Some? && Refusal(c, s, t.lease).None?
    requires Walks(c, s, ts, s.(disk := d))
    requires CanMove(d, MoveOf(c, s, t)) && Moved(d, MoveOf(c, s, t)) == d'
    ensures Walks(c, s, ts + [t], s.(disk := d'))
  {
    hide Walks, Moved;
    Moves(c, s.(disk := d), t);
    Then(c, s, ts, s.(disk := d), t);
  }

  lemma {:induction false} LetIn(c: Config, s: Sys, p: PodId, l: LeaseId, body: Bytes)
    requires Works(s, p, l, body, None) && |body| <= c.maxArtifactBytes
    ensures Refusal(c, s, l).None?
  {
    hide SafeFilename;
    SafeOutput();
  }

  lemma {:induction false} StillWorks(s: Sys, s': Sys, p: PodId, l: LeaseId, body: Bytes)
    requires Works(s, p, l, body, None) && s'.fleet == s.fleet
    requires s'.db == s.db || exists e :: 0 in s.db.rows && s'.db == Apply(s.db, Note(0, e))
    ensures Works(s', p, l, body, None)
  {
    if s'.db != s.db {
      var e :| 0 in s.db.rows && s'.db == Apply(s.db, Note(0, e));
      NoteOnly(s.db, 0, e);
    }
  }

  // ------------------------------------------------------------ a retry

  const FIRST: Bytes := [7]
  const SECOND: Bytes := [8]

  function First(pod: Option<PodId>, sent: nat, stage: Stage): Stream {
    Stream(0, 0, pod, FIRST, sent, stage)
  }

  function DiskOf(files: map<(JobId, string), Bytes>, parts: map<JobId, Bytes>, streams: map<nat, Stream>, clashed: set<JobId>): Disk {
    Disk(files, parts, streams, clashed, {}, {}, {})
  }

  /** Upload 0 has written all of its body, and is not renamed. */
  function Filled(pod: Option<PodId>): Disk {
    DiskOf(map[], map[0 := FIRST], map[0 := First(pod, 1, Writing(InPart))], {})
  }

  lemma {:induction false} Fills(pod: Option<PodId>)
    ensures var d1 := DiskOf(map[], map[], map[0 := First(pod, 0, Admitted)], {});
      var d2 := DiskOf(map[], map[0 := []], map[0 := First(pod, 0, Writing(InPart))], {});
      && CanMove(START.disk, Admit(0, First(pod, 0, Admitted))) && Moved(START.disk, Admit(0, First(pod, 0, Admitted))) == d1
      && CanMove(d1, Move.Open(0)) && Moved(d1, Move.Open(0)) == d2
      && CanMove(d2, Move.Write(0, 1)) && Moved(d2, Move.Write(0, 1)) == Filled(pod)
  {
    assert Overlay([], 0, FIRST[0..1]) == FIRST;
    assert UploadsOf(START.disk, 0) == {};
  }

  /** Upload 1 has opened, and so emptied, the part file. */
  function Emptied(pod: Option<PodId>): Disk {
    DiskOf(map[], map[0 := []], map[0 := First(pod, 1, Writing(InPart)), 1 := First(pod, 0, Writing(InPart))], {0})
  }

  lemma {:induction false} Empties(pod: Option<PodId>)
    ensures var d4 := DiskOf(map[], map[0 := FIRST], map[0 := First(pod, 1, Writing(InPart)), 1 := First(pod, 0, Admitted)], {0});
      && CanMove(Filled(pod), Admit(1, First(pod, 0, Admitted))) && Moved(Filled(pod), Admit(1, First(pod, 0, Admitted))) == d4
      && CanMove(d4, Move.Open(1)) && Moved(d4, Move.Open(1)) == Emptied(pod)
  {
    assert 0 in UploadsOf(Filled(pod), 0);
  }

  /** Upload 0 has renamed the empty part file, and upload 1 has broken off. */
  function TornDisk(pod: Option<PodId>): Disk {
    DiskOf(map[(0, OUTPUT) := []], map[], map[0 := First(pod, 1, Renamed)], {0})
  }

  lemma {:induction false} Tears(pod: Option<PodId>)
    ensures var d6 := DiskOf(map[(0, OUTPUT) := []], map[], map[0 := First(pod, 1, Renamed), 1 := First(pod, 0, Writing(InFile))], {0});
      CanMove(Emptied(pod), Move.Rename(0)) && Moved(Emptied(pod), Move.Rename(0)) == d6
  {
  }

  lemma {:induction false} Breaks(pod: Option<PodId>)
    ensures var d6 := DiskOf(map[(0, OUTPUT) := []], map[], map[0 := First(pod, 1, Renamed), 1 := First(pod, 0, Writing(InFile))], {0});
      CanMove(d6, Move.Break(1)) && Moved(d6, Move.Break(1)) == TornDisk(pod)
  {
  }

  /** The upload of `First`, as admitted now. */
  lemma {:induction false} AdmitsFirst(c: Config, s: Sys, u: nat, pod: Option<PodId>)
    requires Works(s, 1, 0, FIRST, None) && c.maxArtifactBytes >= 1 && pod == s.db.rows[0].podId
    ensures 0 in s.fleet.tasks && s.fleet.tasks[0].media.Some? && Refusal(c, s, 0).None?
    ensures MoveOf(c, s, Step.Upload(0, u)) == Admit(u, First(pod, 0, Admitted))
  {
    hide UploadRefusal;
    LetIn(c, s, 1, 0, FIRST);
  }

  lemma {:induction false} Nowhere(c: Config, s: Sys)
    ensures Walks(c, s, [], s.(disk := s.disk))
  {
  }

  /** The first attempt, up to its rename. */
  lemma {:induction false} Fill(c: Config, s: Sys, pod: Option<PodId>) returns (ts: seq<Step>)
    requires Works(s, 1, 0, FIRST, None) && s.disk == START.disk && c.maxArtifactBytes >= 1 && pod == s.db.rows[0].podId
    ensures Walks(c, s, ts, s.(disk := Filled(pod)))
  {
    hide Guard, Next, CanMove, Moved, Refusal, Works, Walks;
    AdmitsFirst(c, s, 0, pod);
    Fills(pod);
    Nowhere(c, s);
    var d1, d2 := Moved(START.disk, Admit(0, First(pod, 0, Admitted))), DiskOf(map[], map[0 := []], map[0 := First(pod, 0, Writing(InPart))], {});
    Further(c, s, [], START.disk, Step.Upload(0, 0), d1);
    Further(c, s, [] + [Step.Upload(0, 0)], d1, OpenPart(0), d2);
    Further(c, s, [] + [Step.Upload(0, 0)] + [OpenPart(0)], d2, WritePart(0, 1), Filled(pod));
    ts := [] + [Step.Upload(0, 0)] + [OpenPart(0)] + [WritePart(0, 1)];
  }

  /** The second attempt empties the part file, the first renames it, the second breaks off. */
  lemma {:induction false} Retry(c: Config, s: Sys, pod: Option<PodId>, early: seq<Step>) returns (ts: seq<Step>)
    requires Works(s, 1, 0, FIRST, None) && c.maxArtifactBytes >= 1 && pod == s.db.rows[0].podId
    requires Walks(c, s, early, s.(disk := Filled(pod)))
    ensures Walks(c, s, ts, s.(disk := TornDisk(pod)))
  {
    hide Guard, Next, CanMove, Moved, Refusal, Works, Walks;
    AdmitsFirst(c, s, 1, pod);
    Empties(pod);
    Tears(pod);
    Breaks(pod);
    var d4, d6 := Moved(Filled(pod), Admit(1, First(pod, 0, Admitted))), Moved(Emptied(pod), Move.Rename(0));
    Further(c, s, early, Filled(pod), Step.Upload(0, 1), d4);
    Further(c, s, early + [Step.Upload(0, 1)], d4, OpenPart(1), Emptied(pod));
    Further(c, s, early + [Step.Upload(0, 1)] + [OpenPart(1)], Emptied(pod), RenamePart(0), d6);
    Further(c, s, early + [Step.Upload(0, 1)] + [OpenPart(1)] + [RenamePart(0)], d6, BreakUpload(1), TornDisk(pod));
    ts := early + [Step.Upload(0, 1)] + [OpenPart(1)] + [RenamePart(0)] + [BreakUpload(1)];
  }

  lemma {:induction false} Acknowledge(c: Config, s: Sys, p: PodId, l: LeaseId, u: nat, body: Bytes) returns (s': Sys)
    requires Works(s, p, l, body, None) && CanMove(s.disk, Move.End(u)) && s.disk.streams[u].lease == l && s.disk.streams[u].job == 0
    ensures Walks(c, s, [EndUpload(u)], s') && Works(s', p, l, body, None) && l in s'.disk.acked
    ensures s'.disk.files == s.disk.files && s'.disk.parts == s.disk.parts && s'.disk.streams == s.disk.streams - {u}
    ensures s'.db.rows == s.db.rows && s'.fleet == s.fleet
  {
    hide Guard, Next, Apply, Walks;
    EndIs(c, s, u);
    WalksOne(c, s, EndUpload(u));
    s' := Next(c, s, EndUpload(u));
    NoteOnly(s.db, 0, UploadedEv(s.disk.streams[u].pod));
    StillWorks(s, s', p, l, body);
  }

  lemma {:induction false} WorksOn(s: Sys, d: Disk, p: PodId, l: LeaseId, body: Bytes)
    requires Works(s, p, l, body, None)
    ensures Works(s.(disk := d), p, l, body, None)
  {
  }

  lemma {:induction false} Served(s: Sys, body: Bytes, told: Option<int>, digest: Option<Digest>)
    requires 0 in s.db.rows && s.db.rows[0].artifacts == [Artifact(OUTPUT, told, digest)]
    requires (0, OUTPUT) in s.disk.files && s.disk.files[(0, OUTPUT)] == body
    ensures ContentOf(s.db.rows, s.disk.files, 0) == Content(body, digest)
  {
  }

  lemma {:induction false} InRow(s: Sys, body: Bytes) returns (pod: Option<PodId>)
    requires Works(s, 1, 0, body, None)
    ensures 0 in s.db.rows && pod == s.db.rows[0].podId
  {
    pod := s.db.rows[0].podId;
  }

  /** One agent, one lease, one body, uploaded twice: the job is completed, nothing is in progress, and
      its content is an empty file under the digest of the body. */
  lemma {:induction false} TornByARetry(c: Config) returns (ss: seq<Sys>, ts: seq<Step>)
    requires c.maxAttempts >= 1 && c.maxArtifactBytes >= 1
    ensures Behaviour(c, ss, ts)
    ensures var end := ss[|ss| - 1];
      end.disk.streams == map[] && end.fleet.tasks.Keys == {0}
      && ContentOf(end.db.rows, end.disk.files, 0) == Content([], Some(c.hash(FIRST)))
  {
    hide Guard, Next, Walks, Behaviour, Works, ContentOf;
    ss, ts := Prepared(c, FIRST);
    Lengths(c, ss, ts);
    var s := ss[|ts|];
    var pod := InRow(s, FIRST);
    var early := Fill(c, s, pod);
    var torn := s.(disk := TornDisk(pod));
    var more := Retry(c, s, pod, early);
    WorksOn(s, TornDisk(pod), 1, 0, FIRST);
    var s1 := Acknowledge(c, torn, 1, 0, 0, FIRST);
    WalksOn(c, s, more, torn, [EndUpload(0)], s1);
    var last, s2 := Conclude(c, s1, 1, 0, FIRST);
    WalksOn(c, s, more + [EndUpload(0)], s1, last, s2);
    ss := WalkIsRun(c, ss, ts, more + [EndUpload(0)] + last, s2);
    ts := ts + (more + [EndUpload(0)] + last);
    Lengths(c, ss, ts);
    Served(s2, [], Some(|FIRST|), Some(c.hash(FIRST)));
  }

  // ------------------------------------------------------------ an upload that outlives its lease

  function Second(pod: Option<PodId>, sent: nat, stage: Stage): Stream {
    Stream(1, 0, pod, SECOND, sent, stage)
  }

  function LateDisk(pod: Option<PodId>): Disk {
    DiskOf(map[], map[], map[0 := First(pod, 0, Admitted)], {})
  }

  /** The winner's upload, past the loser's. */
  function WonDisk(pod: Option<PodId>, pod': Option<PodId>): Disk {
    DiskOf(map[(0, OUTPUT) := SECOND], map[], map[0 := First(pod, 0, Admitted), 1 := Second(pod', 1, Renamed)], {0})
  }

  /** The winner's upload has emptied the part file, which nobody else has opened. */
  function EnteredDisk(pod: Option<PodId>, pod': Option<PodId>): Disk {
    DiskOf(map[], map[0 := []], map[0 := First(pod, 0, Admitted), 1 := Second(pod', 0, Writing(InPart))], {0})
  }

  lemma {:induction false} Enters(pod: Option<PodId>, pod': Option<PodId>)
    ensures var d1 := DiskOf(map[], map[], map[0 := First(pod, 0, Admitted), 1 := Second(pod', 0, Admitted)], {0});
      && CanMove(LateDisk(pod), Admit(1, Second(pod', 0, Admitted))) && Moved(LateDisk(pod), Admit(1, Second(pod', 0, Admitted))) == d1
      && CanMove(d1, Move.Open(1)) && Moved(d1, Move.Open(1)) == EnteredDisk(pod, pod')
  {
    assert 0 in UploadsOf(LateDisk(pod), 0);
  }

  lemma {:induction false} Wins(pod: Option<PodId>, pod': Option<PodId>)
    ensures var d3 := DiskOf(map[], map[0 := SECOND], map[0 := First(pod, 0, Admitted), 1 := Second(pod', 1, Writing(InPart))], {0});
      && CanMove(EnteredDisk(pod, pod'), Move.Write(1, 1)) && Moved(EnteredDisk(pod, pod'), Move.Write(1, 1)) == d3
      && CanMove(d3, Move.Rename(1)) && Moved(d3, Move.Rename(1)) == WonDisk(pod, pod')
  {
    assert Overlay([], 0, SECOND[0..1]) == SECOND;
  }

  /** The loser's upload at last, renamed over the winner's. */
  lemma {:induction false} Loses(d: Disk, pod: Option<PodId>)
    requires d.streams == map[0 := First(pod, 0, Admitted)] && d.parts == map[] && d.files == map[(0, OUTPUT) := SECOND]
    ensures var d1 := d.(parts := map[0 := []], streams := map[0 := First(pod, 0, Writing(InPart))]);
      var d2 := d.(parts := map[0 := FIRST], streams := map[0 := First(pod, 1, Writing(InPart))]);
      var d3 := d.(files := map[(0, OUTPUT) := FIRST], streams := map[0 := First(pod, 1, Renamed)]);
      && CanMove(d, Move.Open(0)) && Moved(d, Move.Open(0)) == d1
      && CanMove(d1, Move.Write(0, 1)) && Moved(d1, Move.Write(0, 1)) == d2
      && CanMove(d2, Move.Rename(0)) && Moved(d2, Move.Rename(0)) == d3
  {
    assert Overlay([], 0, FIRST[0..1]) == FIRST;
  }

  const GIVES_UP: Outcome := Broke(None, true)

  lemma {:induction false} BackInQueue(db: Db) returns (row: Job)
    requires db.rows.Keys == {0} && Current(db, 0, 0) && db.rows[0].id == 0 && db.rows[0].model == MODEL
    ensures var db' := Apply(db, Op.Requeue(0, Some(0))); db'.rows == map[0 := row] && db'.issued == db.issued
    ensures row.state.Queued? && row.id == 0 && row.model == MODEL
  {
    row := Updated(db.rows[0], Op.Requeue(0, Some(0)));
  }

  lemma {:induction false} Requeued(c: Config, s: Sys) returns (row: Job)
    requires Works(s, 1, 0, FIRST, Some(GIVES_UP)) && s.db.rows[0].attempts == 1 && s.db.rows[0].model == MODEL && s.db.rows[0].id == 0
    requires c.maxAttempts >= 2 && s.desk.draining == {}
    ensures Guard(c, s, Step.Result(0)) && Waits(Next(c, s, Step.Result(0)), row)
    ensures var s' := Next(c, s, Step.Result(0));
      && s'.disk == s.disk && s'.db.issued == s.db.issued && s'.fleet == s.fleet && s'.desk.polls.Keys == s.desk.polls.Keys
  {
    hide UploadRefusal, Relinked, UploadsOf, AfterWrite, PollGuard, ResumeGuard, Apply;
    ApplyOne(s.db, Op.Requeue(0, Some(0)));
    row := BackInQueue(s.db);
  }

  /** The agent gives its upload up and reports a failure: the job goes back to the queue. */
  lemma {:induction false} GiveUp(c: Config, s: Sys) returns (s': Sys, row: Job)
    requires Works(s, 1, 0, FIRST, None) && s.db.rows[0].attempts == 1 && s.db.rows[0].model == MODEL && s.db.rows[0].id == 0
    requires c.maxAttempts >= 2 && s.desk.draining == {}
    ensures Walks(c, s, [Finish(1, 0, GIVES_UP), Step.Result(0)], s') && Waits(s', row)
    ensures s'.disk == s.disk && s'.db.issued == s.db.issued && s'.fleet.reqs == s.fleet.reqs && s'.desk.polls.Keys == s.desk.polls.Keys
    ensures s'.fleet.tasks.Keys == s.fleet.tasks.Keys
  {
    hide Guard, Next, Walks;
    Reports(c, s, 1, 0, FIRST, GIVES_UP);
    var s1 := Next(c, s, Finish(1, 0, GIVES_UP));
    row := Requeued(c, s1);
    TwoSteps(c, s, Finish(1, 0, GIVES_UP), Step.Result(0));
    s' := Next(c, s1, Step.Result(0));
  }

  lemma {:induction false} AcknowledgeSecond(c: Config, s: Sys) returns (s': Sys)
    requires Works(s, 2, 1, SECOND, None) && 0 in s.disk.streams && s.disk.streams.Keys == {0, 1}
    requires s.disk.streams[1].stage.Renamed? && s.disk.streams[1].lease == 1 && s.disk.streams[1].job == 0
    ensures Walks(c, s, [EndUpload(1)], s') && Works(s', 2, 1, SECOND, None) && 1 in s'.disk.acked
    ensures s'.disk.files == s.disk.files && s'.disk.parts == s.disk.parts && s'.disk.streams == map[0 := s.disk.streams[0]]
  {
    hide Walks, Works;
    s' := Acknowledge(c, s, 2, 1, 1, SECOND);
  }

  /** The second agent uploads past the first one's upload, and is acknowledged. */
  lemma {:induction false} Win(c: Config, s: Sys, pod: Option<PodId>) returns (ts: seq<Step>, s': Sys)
    requires Works(s, 2, 1, SECOND, None) && s.disk == LateDisk(pod) && c.maxArtifactBytes >= 1
    ensures Walks(c, s, ts, s') && Works(s', 2, 1, SECOND, None) && 1 in s'.disk.acked
    ensures s'.disk.files == map[(0, OUTPUT) := SECOND] && s'.disk.parts == map[] && s'.disk.streams == map[0 := First(pod, 0, Admitted)]
  {
    hide Guard, Next, Moved, CanMove, Walks, Refusal;
    var pod' := s.db.rows[0].podId;
    LetIn(c, s, 2, 1, SECOND);
    Enters(pod, pod');
    Wins(pod, pod');
    var d1, d2 := Moved(LateDisk(pod), Admit(1, Second(pod', 0, Admitted))), EnteredDisk(pod, pod');
    var d3 := Moved(d2, Move.Write(1, 1));
    Nowhere(c, s);
    assert MoveOf(c, s, Step.Upload(1, 1)) == Admit(1, Second(pod', 0, Admitted));
    Further(c, s, [], LateDisk(pod), Step.Upload(1, 1), d1);
    Further(c, s, [] + [Step.Upload(1, 1)], d1, OpenPart(1), d2);
    Further(c, s, [] + [Step.Upload(1, 1)] + [OpenPart(1)], d2, WritePart(1, 1), d3);
    Further(c, s, [] + [Step.Upload(1, 1)] + [OpenPart(1)] + [WritePart(1, 1)], d3, RenamePart(1), WonDisk(pod, pod'));
    ts := [] + [Step.Upload(1, 1)] + [OpenPart(1)] + [WritePart(1, 1)] + [RenamePart(1)];
    WorksOn(s, WonDisk(pod, pod'), 2, 1, SECOND);
    s' := AcknowledgeSecond(c, s.(disk := WonDisk(pod, pod')));
    WalksOn(c, s, ts, s.(disk := WonDisk(pod, pod')), [EndUpload(1)], s');
    ts := ts + [EndUpload(1)];
  }

  /** The first agent's upload ends after all. */
  lemma {:induction false} Lose(c: Config, s: Sys, pod: Option<PodId>) returns (ts: seq<Step>, s': Sys)
    requires s.disk.streams == map[0 := First(pod, 0, Admitted)] && s.disk.parts == map[] && s.disk.files == map[(0, OUTPUT) := SECOND]
    requires 0 in s.db.rows
    ensures Walks(c, s, ts, s') && s'.db.rows == s.db.rows && s'.disk.files == map[(0, OUTPUT) := FIRST] && s'.disk.streams == map[]
    ensures 0 in s'.disk.acked
  {
    hide Guard, Next, Moved, CanMove, Walks, Apply;
    var d := s.disk;
    Loses(d, pod);
    var d1 := d.(parts := map[0 := []], streams := map[0 := First(pod, 0, Writing(InPart))]);
    var d2 := d.(parts := map[0 := FIRST], streams := map[0 := First(pod, 1, Writing(InPart))]);
    var d3 := d.(files := map[(0, OUTPUT) := FIRST], streams := map[0 := First(pod, 1, Renamed)]);
    Nowhere(c, s);
    Further(c, s, [], d, OpenPart(0), d1);
    Further(c, s, [] + [OpenPart(0)], d1, WritePart(0, 1), d2);
    Further(c, s, [] + [OpenPart(0)] + [WritePart(0, 1)], d2, RenamePart(0), d3);
    var s3 := s.(disk := d3);
    EndIs(c, s3, 0);
    NoteOnly(s.db, 0, UploadedEv(pod));
    Then(c, s, [] + [OpenPart(0)] + [WritePart(0, 1)] + [RenamePart(0)], s3, EndUpload(0));
    ts, s' := [] + [OpenPart(0)] + [WritePart(0, 1)] + [RenamePart(0)] + [EndUpload(0)], Next(c, s3, EndUpload(0));
  }

  lemma {:induction false} LetFirstIn(c: Config, s: Sys, pod: Option<PodId>) returns (s': Sys)
    requires Works(s, 1, 0, FIRST, None) && s.disk == START.disk && c.maxArtifactBytes >= 1 && pod == s.db.rows[0].podId
    ensures Walks(c, s, [Step.Upload(0, 0)], s') && s' == s.(disk := LateDisk(pod)) && Works(s', 1, 0, FIRST, None)
  {
    hide Guard, Next, Moved, CanMove, Walks, Refusal;
    AdmitsFirst(c, s, 0, pod);
    Fills(pod);
    Nowhere(c, s);
    Further(c, s, [], START.disk, Step.Upload(0, 0), LateDisk(pod));
    assert [] + [Step.Upload(0, 0)] == [Step.Upload(0, 0)];
    s' := s.(disk := LateDisk(pod));
  }

  /** Let in under its lease, an upload that is still under way when the job is requeued replaces what the
      next owner uploaded and the job was completed with; and is answered with success. */
  lemma {:induction false} OverwrittenByALoser(c: Config) returns (ss: seq<Sys>, ts: seq<Step>)
    requires c.maxAttempts >= 2 && c.maxArtifactBytes >= 1
    ensures Behaviour(c, ss, ts)
    ensures var end := ss[|ss| - 1];
      end.disk.streams == map[] && 0 in end.disk.acked
      && ContentOf(end.db.rows, end.disk.files, 0) == Content(FIRST, Some(c.hash(SECOND)))
  {
    hide Guard, Next, Walks, Behaviour, Works, Waits, ContentOf, Moved, CanMove, Refusal;
    ss, ts := Prepared(c, FIRST);
    Lengths(c, ss, ts);
    var s := ss[|ts|];
    var pod := InRow(s, FIRST);
    var s1 := LetFirstIn(c, s, pod);
    var s2, row := GiveUp(c, s1);
    var more, s3 := HandOut(c, s2, row, 2, 1, 1, 1, SECOND);
    var win, s4 := Win(c, s3, pod);
    var done, s5 := Conclude(c, s4, 2, 1, SECOND);
    var lose, s6 := Lose(c, s5, pod);
    WalksOn(c, s, [Step.Upload(0, 0)], s1, [Finish(1, 0, GIVES_UP), Step.Result(0)], s2);
    var all := [Step.Upload(0, 0)] + [Finish(1, 0, GIVES_UP), Step.Result(0)];
    WalksOn(c, s, all, s2, more, s3);
    WalksOn(c, s, all + more, s3, win, s4);
    WalksOn(c, s, all + more + win, s4, done, s5);
    WalksOn(c, s, all + more + win + done, s5, lose, s6);
    ss := WalkIsRun(c, ss, ts, all + more + win + done + lose, s6);
    ts := ts + (all + more + win + done + lose);
    Lengths(c, ss, ts);
    Served(s6, FIRST, Some(|SECOND|), Some(c.hash(SECOND)));
  }
}
