/** gateway/src/db/jobs.ts: the job store, updating its table and its event trail in place. */
module Store {
  import opened Types
  import opened JobTable

  function IdsOf(s: seq<Job>): set<JobId> {
    if s == [] then {} else IdsOf(s[..|s| - 1]) + {s[|s| - 1].id}
  }

  /** `s` are distinct rows of the table. */
  predicate Members(rows: map<JobId, Job>, s: seq<Job>) {
    s == [] ||
    (var n := |s| - 1;
     && Members(rows, s[..n])
     && s[n].id !in IdsOf(s[..n]) && s[n].id in rows && rows[s[n].id] == s[n])
  }

  function Matching(rows: map<JobId, Job>, p: Job -> bool): set<JobId> {
    set id | id in rows && p(rows[id])
  }

  /** `s` is a query result: every matching row exactly once, in some order. */
  predicate Lists(rows: map<JobId, Job>, p: Job -> bool, s: seq<Job>) {
    Members(rows, s) && IdsOf(s) == Matching(rows, p)
  }

  lemma {:induction false} MembersAt(rows: map<JobId, Job>, s: seq<Job>)
    requires Members(rows, s)
    ensures forall i :: 0 <= i < |s| ==> s[i].id in IdsOf(s) && s[i].id in rows && rows[s[i].id] == s[i]
    ensures forall i, j :: 0 <= i < j < |s| ==> s[i].id != s[j].id
    ensures forall id :: id in IdsOf(s) ==> id in rows && rows[id] in s
  {
    if s != [] {
      var n := |s| - 1;
      MembersAt(rows, s[..n]);
      assert s == s[..n] + [s[n]];
    }
  }

  lemma {:induction false} IdIndex(s: seq<Job>, id: JobId) returns (i: nat)
    requires id in IdsOf(s)
    ensures i < |s| && s[i].id == id
  {
    var n := |s| - 1;
    if s[n].id == id { i := n; } else { i := IdIndex(s[..n], id); }
  }

  lemma {:induction false} AsMembers(rows: map<JobId, Job>, s: seq<Job>)
    requires forall i :: 0 <= i < |s| ==> s[i].id in rows && rows[s[i].id] == s[i]
    requires forall i, j :: 0 <= i < j < |s| ==> s[i].id != s[j].id
    ensures Members(rows, s)
  {
    if s != [] {
      hide IdsOf;
      var n := |s| - 1;
      AsMembers(rows, s[..n]);
      if s[n].id in IdsOf(s[..n]) {
        var i := IdIndex(s[..n], s[n].id);
      }
    }
  }

  ghost predicate ByAge(s: seq<Job>) {
    forall i, j :: 0 <= i < j < |s| ==> s[i].createdAt <= s[j].createdAt
  }

  /** The oldest queued rows, at most `limit` of them; rows of equal age have no fixed order. */
  ghost predicate QueueWindow(rows: map<JobId, Job>, limit: nat, s: seq<Job>) {
    && ByAge(s)
    && |s| <= limit
    && (forall i :: 0 <= i < |s| ==> s[i].id in rows && rows[s[i].id] == s[i] && s[i].state.Queued?)
    && (forall i, j :: 0 <= i < j < |s| ==> s[i].id != s[j].id)
    && (forall id :: id in rows && rows[id].state.Queued? && rows[id] !in s ==>
          |s| == limit && forall i :: 0 <= i < |s| ==> s[i].createdAt <= rows[id].createdAt)
  }

  predicate LeaseExpired(row: Job, now: int) {
    row.state.InProgress? && row.leaseExpiresAt.Some? && row.leaseExpiresAt.value < now
  }

  predicate IsOverdue(row: Job, now: int) {
    Live(row.state) && row.deadlineAt < now
  }

  predicate StaleCancel(row: Job, before: int) {
    row.state.InProgress? && row.cancelRequested && row.cancelRequestedAt.Some? && row.cancelRequestedAt.value < before
  }

  function ExpiredAt(now: int): Job -> bool { (j: Job) => LeaseExpired(j, now) }

  function OverdueAt(now: int): Job -> bool { (j: Job) => IsOverdue(j, now) }

  function StaleAt(before: int): Job -> bool { (j: Job) => StaleCancel(j, before) }

  function FinishedAt(before: int): Job -> bool { (j: Job) => FinishedBefore(j, before) && j.artifacts != [] }

  function HeldBy(podId: PodId): Job -> bool { (j: Job) => j.podId == Some(podId) && j.state.InProgress? }

  /** Queued rows that are strictly older. */
  function Ahead(rows: map<JobId, Job>, createdAt: int): set<JobId> {
    set id | id in rows && rows[id].state.Queued? && rows[id].createdAt < createdAt
  }

  function QueuePosition(rows: map<JobId, Job>, job: Job): Option<nat> {
    if job.state.Queued? then Some(|Ahead(rows, job.createdAt)|) else None
  }

  lemma {:induction false} NoneByAge()
    ensures ByAge([])
  {
  }

  /** A list of distinct matching rows that misses none is the query result. */
  lemma {:induction false} AsListing(rows: map<JobId, Job>, p: Job -> bool, s: seq<Job>)
    requires forall i :: 0 <= i < |s| ==> s[i].id in rows && rows[s[i].id] == s[i] && p(s[i])
    requires forall i, j :: 0 <= i < j < |s| ==> s[i].id != s[j].id
    requires forall id :: id in rows && p(rows[id]) ==> rows[id] in s
    requires forall id :: id in rows ==> rows[id].id == id
    ensures Lists(rows, p, s)
  {
    hide Members, IdsOf;
    AsMembers(rows, s);
    MembersAt(rows, s);
    forall id | id in Matching(rows, p) ensures id in IdsOf(s) {
      var i :| 0 <= i < |s| && s[i] == rows[id];
    }
  }

  /** The first `limit` of the queued rows by age are the queue window. */
  lemma {:induction false} WindowOf(rows: map<JobId, Job>, all: seq<Job>, limit: nat, s: seq<Job>)
    requires Lists(rows, (j: Job) => j.state.Queued?, all) && ByAge(all)
    requires s == if |all| <= limit then all else all[..limit]
    ensures QueueWindow(rows, limit, s)
  {
    hide Members, IdsOf;
    MembersAt(rows, all);
    forall id | id in rows && rows[id].state.Queued? && rows[id] !in s
      ensures |s| == limit && forall i :: 0 <= i < |s| ==> s[i].createdAt <= rows[id].createdAt {
      assert id in IdsOf(all);
      var k :| 0 <= k < |all| && all[k] == rows[id];
      assert forall j :: 0 <= j < |s| ==> all[j] == s[j] && all[j] in s;
    }
    forall i | 0 <= i < |s| ensures s[i].state.Queued? {
      assert all[i].id in IdsOf(all);
    }
  }

  lemma {:induction false} Inserted(s: seq<Job>, row: Job, k: nat, r: seq<Job>)
    requires k <= |s| && r == s[..k] + [row] + s[k..]
    requires forall i, j :: 0 <= i < j < |s| ==> s[i].id != s[j].id
    requires forall i :: 0 <= i < |s| ==> s[i].id != row.id
    ensures forall i :: 0 <= i < |r| ==> r[i] in s || r[i] == row
    ensures row in r && forall x :: x in s ==> x in r
    ensures forall i, j :: 0 <= i < j < |r| ==> r[i].id != r[j].id
  {
    assert r[k] == row;
    forall x | x in s ensures x in r {
      var i :| 0 <= i < |s| && s[i] == x;
      assert r[if i < k then i else i + 1] == x;
    }
  }

  lemma {:induction false} RecoveredAs(db: Db, now: int, grace: int, running: set<JobId>, rows: map<JobId, Job>, log: map<JobId, seq<Event>>)
    requires running == set id | id in db.rows && db.rows[id].state.InProgress?
    requires rows == map id | id in db.rows :: Recovered(db.rows[id], now + grace)
    requires |running| == 0 ==> log == db.log
    requires |running| > 0 ==> (log == map id | id in db.log ::
               if id in running then db.log[id] + [RecoveredEv(db.rows[id].podId)] else db.log[id])
    ensures Db(rows, log, db.issued, db.made) == Apply(db, Recover(now, grace))
    ensures log.Keys == db.log.Keys
    ensures forall id :: id in log ==>
      if id in db.rows && db.rows[id].state == InProgress then log[id] == db.log[id] + [RecoveredEv(db.rows[id].podId)]
      else log[id] == db.log[id]
  {
    var want := Apply(db, Recover(now, grace));
    assert running == {} ==> |running| == 0;
    assert rows == want.rows;
    forall id | id in log ensures log[id] == want.log[id] {
      if |running| == 0 { assert id !in running; }
    }
    assert log == want.log;
  }

  lemma {:induction false} Above(used: set<LeaseId>) returns (bound: LeaseId)
    ensures forall l :: l in used ==> l < bound
    decreases used
  {
    if used == {} {
      bound := 0;
    } else {
      var x :| x in used;
      var b := Above(used - {x});
      bound := if b <= x then x + 1 else b;
      assert forall l :: l in used ==> l == x || l in used - {x};
    }
  }

  lemma {:induction false} UnusedLease(used: set<LeaseId>)
    ensures exists l: LeaseId :: l !in used
  {
    var l := Above(used);
    assert l !in used;
  }

  class JobStore {
    var rows: map<JobId, Job>
    var log: map<JobId, seq<Event>>
    // Every lease and job id ever handed out: `randomUUID` and `newVideoId` never repeat.
    var issued: set<LeaseId>
    ghost var made: set<JobId>

    ghost predicate Valid() reads this {
      forall id :: id in rows ==> rows[id].id == id
    }

    ghost function View(): Db reads this {
      Db(rows, log, issued, made)
    }

    constructor ()
      ensures Valid() && View() == EMPTY
    {
      rows, log, issued, made := map[], map[], {}, {};
    }

    method AddEvent(id: JobId, e: Event)
      modifies this`log
      ensures log == old(log)[id := Trail(old(View()), id) + [e]]
    {
      log := log[id := (if id in log then log[id] else []) + [e]];
    }

    /** `None` is the primary-key violation the INSERT throws. */
    method Create(job: NewJob) returns (created: Option<Job>)
      requires Valid()
      modifies this
      ensures Valid() && View() == Apply(old(View()), Op.Create(job))
      ensures created == if job.id in old(rows) then None else Some(NewRow(job))
      ensures created.Some? <==> job.id !in old(rows)
      ensures created.Some? ==> job.id in rows && created.value == rows[job.id] && rows == old(rows)[job.id := rows[job.id]]
      ensures created.Some? ==>
        var r := rows[job.id];
        && r.id == job.id && r.model == job.model && r.params == job.params
        && r.createdAt == job.createdAt && r.deadlineAt == job.deadlineAt
        && r.state == Queued && r.progress == 0.0 && r.error == None && r.artifacts == [] && r.podId == None && r.leaseId == None
        && r.leaseExpiresAt == None && r.upstreamId == None && r.attempts == 0 && !r.cancelRequested && r.cancelRequestedAt == None
        && r.startedAt == None && r.finishedAt == None
      ensures created.None? ==> rows == old(rows) && log == old(log)
      ensures created.Some? ==> log == old(log)[job.id := Trail(old(View()), job.id) + [CreatedEv]]
    {
      if job.id in rows { return None; }
      rows := rows[job.id := Job(job.id, job.model, job.params, Queued, 0.0, None, [], None, None, None, None, 0,
                                 false, None, job.createdAt, None, None, job.deadlineAt)];
      made := made + {job.id};
      AddEvent(job.id, CreatedEv);
      created := Some(rows[job.id]);
    }

    method Get(id: JobId) returns (job: Option<Job>)
      ensures job == if id in rows then Some(rows[id]) else None
    {
      job := if id in rows then Some(rows[id]) else None;
    }

    static method InsertByAge(s: seq<Job>, row: Job) returns (r: seq<Job>, ghost k: nat)
      requires ByAge(s)
      ensures k <= |s| && r == s[..k] + [row] + s[k..] && ByAge(r)
    {
      var at := 0;
      while at < |s| && s[at].createdAt <= row.createdAt
        invariant 0 <= at <= |s|
        invariant forall i :: 0 <= i < at ==> s[i].createdAt <= row.createdAt
      {
        at := at + 1;
      }
      r, k := s[..at] + [row] + s[at..], at;
    }

    /** `SELECT ... WHERE p ORDER BY created_at`. */
    method Select(p: Job -> bool) returns (s: seq<Job>)
      requires Valid()
      ensures Lists(rows, p, s) && ByAge(s)
    {
      hide ByAge, Members, IdsOf, Matching;
      s := [];
      NoneByAge();
      var todo := rows.Keys;
      while todo != {}
        invariant todo <= rows.Keys
        invariant ByAge(s)
        invariant forall i :: 0 <= i < |s| ==> s[i].id in rows && s[i].id !in todo && rows[s[i].id] == s[i] && p(s[i])
        invariant forall i, j :: 0 <= i < j < |s| ==> s[i].id != s[j].id
        invariant forall id :: id in rows && id !in todo && p(rows[id]) ==> rows[id] in s
        decreases todo
      {
        var id :| id in todo;
        var row := rows[id];
        if p(row) {
          ghost var was := s;
          ghost var k;
          s, k := InsertByAge(s, row);
          Inserted(was, row, k, s);
        }
        todo := todo - {id};
      }
      AsListing(rows, p, s);
    }

    method ListQueued(limit: nat) returns (s: seq<Job>)
      requires Valid()
      ensures QueueWindow(rows, limit, s)
    {
      var all := Select((j: Job) => j.state.Queued?);
      s := if |all| <= limit then all else all[..limit];
      WindowOf(rows, all, limit, s);
    }

    method ListByPod(podId: PodId) returns (s: seq<Job>)
      requires Valid()
      ensures Lists(rows, HeldBy(podId), s) && ByAge(s)
      ensures IdsOf(s) == set id | id in rows && rows[id].podId == Some(podId) && rows[id].state == InProgress
    {
      s := Select(HeldBy(podId));
    }

    /** `newLeaseId()`. */
    method NewLeaseId() returns (leaseId: LeaseId)
      ensures leaseId !in issued
    {
      assert exists l: LeaseId :: l !in issued by { UnusedLease(issued); }
      leaseId :| leaseId !in issued;
    }

    method Claim(id: JobId, podId: PodId, leaseId: LeaseId, expiresAt: int, now: int) returns (ok: bool)
      requires Valid()
      modifies this
      ensures Valid() && View() == Apply(old(View()), Op.Claim(id, podId, leaseId, expiresAt, now))
      ensures ok == Enabled(old(View()), Op.Claim(id, podId, leaseId, expiresAt, now))
      ensures ok <==> id in old(rows) && old(rows)[id].state == Queued
      ensures rows == if !ok then old(rows) else old(rows)[id := old(rows)[id].(
        state := InProgress, podId := Some(podId), leaseId := Some(leaseId), leaseExpiresAt := Some(expiresAt),
        startedAt := if old(rows)[id].startedAt.Some? then old(rows)[id].startedAt else Some(now),
        attempts := old(rows)[id].attempts + 1)]
      ensures log == if ok then old(log)[id := Trail(old(View()), id) + [AssignedEv(podId, leaseId)]] else old(log)
    {
      issued := issued + {leaseId};
      ok := id in rows && rows[id].state.Queued?;
      if ok {
        var row := rows[id];
        rows := rows[id := row.(state := InProgress, podId := Some(podId), leaseId := Some(leaseId),
                                leaseExpiresAt := Some(expiresAt),
                                startedAt := if row.startedAt.Some? then row.startedAt else Some(now),
                                attempts := row.attempts + 1)];
        AddEvent(id, AssignedEv(podId, leaseId));
      }
    }

    method RenewLease(id: JobId, leaseId: LeaseId, expiresAt: int, progress: Option<real>, upstreamId: Option<string>)
      returns (ok: bool)
      requires Valid()
      modifies this
      ensures Valid() && View() == Apply(old(View()), Renew(id, leaseId, expiresAt, progress, upstreamId))
      ensures ok == Current(old(View()), id, leaseId)
      ensures ok <==> id in old(rows) && old(rows)[id].state == InProgress && old(rows)[id].leaseId == Some(leaseId)
      ensures rows == if !ok then old(rows) else old(rows)[id := old(rows)[id].(
        leaseExpiresAt := Some(expiresAt), progress := if progress.Some? then progress.value else old(rows)[id].progress,
        upstreamId := if upstreamId.Some? then upstreamId else old(rows)[id].upstreamId)]
      ensures log == old(log)
    {
      ok := id in rows && rows[id].state.InProgress? && rows[id].leaseId == Some(leaseId);
      if ok {
        var row := rows[id];
        rows := rows[id := row.(leaseExpiresAt := Some(expiresAt),
                                progress := if progress.Some? then progress.value else row.progress,
                                upstreamId := if upstreamId.Some? then upstreamId else row.upstreamId)];
      }
    }

    method Complete(id: JobId, leaseId: LeaseId, artifacts: seq<Artifact>, now: int) returns (ok: bool)
      requires Valid()
      modifies this
      ensures Valid() && View() == Apply(old(View()), Op.Complete(id, leaseId, artifacts, now))
      ensures ok == Current(old(View()), id, leaseId)
      ensures ok <==> id in old(rows) && old(rows)[id].state == InProgress && old(rows)[id].leaseId == Some(leaseId)
      ensures rows == if !ok then old(rows) else old(rows)[id := old(rows)[id].(
        state := Completed, progress := 1.0, error := None, artifacts := artifacts, finishedAt := Some(now),
        leaseId := None, leaseExpiresAt := None)]
      ensures log == if ok then old(log)[id := Trail(old(View()), id) + [CompletedEv]] else old(log)
    {
      ok := id in rows && rows[id].state.InProgress? && rows[id].leaseId == Some(leaseId);
      if ok {
        rows := rows[id := rows[id].(state := Completed, progress := 1.0, error := None, artifacts := artifacts,
                                     finishedAt := Some(now), leaseId := None, leaseExpiresAt := None)];
        AddEvent(id, CompletedEv);
      }
    }

    method Fail(id: JobId, leaseId: Option<LeaseId>, error: string, now: int) returns (ok: bool)
      requires Valid()
      modifies this
      ensures Valid() && View() == Apply(old(View()), Op.Fail(id, leaseId, error, now))
      ensures ok == Enabled(old(View()), Op.Fail(id, leaseId, error, now))
      ensures ok <==> (id in old(rows) && if leaseId.Some?
        then old(rows)[id].state == InProgress && old(rows)[id].leaseId == leaseId
        else old(rows)[id].state == Queued || old(rows)[id].state == InProgress)
      ensures rows == if !ok then old(rows) else old(rows)[id := old(rows)[id].(
        state := Failed, error := Some(error), finishedAt := Some(now), leaseId := None, leaseExpiresAt := None)]
      ensures log == if ok then old(log)[id := Trail(old(View()), id) + [FailedEv]] else old(log)
    {
      if leaseId.Some? {
        ok := id in rows && rows[id].state.InProgress? && rows[id].leaseId == leaseId;
      } else {
        ok := id in rows && (rows[id].state.Queued? || rows[id].state.InProgress?);
      }
      if ok {
        rows := rows[id := rows[id].(state := Failed, error := Some(error), finishedAt := Some(now),
                                     leaseId := None, leaseExpiresAt := None)];
        AddEvent(id, FailedEv);
      }
    }

    method Requeue(id: JobId, leaseId: Option<LeaseId>) returns (ok: bool)
      requires Valid()
      modifies this
      ensures Valid() && View() == Apply(old(View()), Op.Requeue(id, leaseId))
      ensures ok == Enabled(old(View()), Op.Requeue(id, leaseId))
      ensures ok <==> id in old(rows) && old(rows)[id].state == InProgress && (leaseId.Some? ==> old(rows)[id].leaseId == leaseId)
      ensures rows == if !ok then old(rows) else old(rows)[id := old(rows)[id].(
        state := Queued, podId := None, leaseId := None, leaseExpiresAt := None, progress := 0.0, upstreamId := None)]
      ensures log == if ok then old(log)[id := Trail(old(View()), id) + [RequeuedEv]] else old(log)
    {
      if leaseId.Some? {
        ok := id in rows && rows[id].state.InProgress? && rows[id].leaseId == leaseId;
      } else {
        ok := id in rows && rows[id].state.InProgress?;
      }
      if ok {
        rows := rows[id := rows[id].(state := Queued, podId := None, leaseId := None, leaseExpiresAt := None,
                                     progress := 0.0, upstreamId := None)];
        AddEvent(id, RequeuedEv);
      }
    }

    method CancelQueued(id: JobId, now: int) returns (ok: bool)
      requires Valid()
      modifies this
      ensures Valid() && View() == Apply(old(View()), Op.CancelQueued(id, now))
      ensures ok == Enabled(old(View()), Op.CancelQueued(id, now))
      ensures ok <==> id in old(rows) && old(rows)[id].state == Queued
      ensures rows == if !ok then old(rows) else old(rows)[id := old(rows)[id].(
        state := Cancelled, finishedAt := Some(now), cancelRequested := true, cancelRequestedAt := Some(now))]
      ensures log == if ok then old(log)[id := Trail(old(View()), id) + [CancelledEv]] else old(log)
    {
      ok := id in rows && rows[id].state.Queued?;
      if ok {
        rows := rows[id := rows[id].(state := Cancelled, finishedAt := Some(now),
                                     cancelRequested := true, cancelRequestedAt := Some(now))];
        AddEvent(id, CancelledEv);
      }
    }

    method RequestCancel(id: JobId, now: int) returns (ok: bool)
      requires Valid()
      modifies this
      ensures Valid() && View() == Apply(old(View()), Op.RequestCancel(id, now))
      ensures ok == Enabled(old(View()), Op.RequestCancel(id, now))
      ensures ok <==> id in old(rows) && old(rows)[id].state == InProgress
      ensures rows == if !ok then old(rows) else old(rows)[id := old(rows)[id].(
        cancelRequested := true,
        cancelRequestedAt := if old(rows)[id].cancelRequestedAt.Some? then old(rows)[id].cancelRequestedAt else Some(now))]
      ensures log == if ok then old(log)[id := Trail(old(View()), id) + [CancelRequestedEv]] else old(log)
    {
      ok := id in rows && rows[id].state.InProgress?;
      if ok {
        var row := rows[id];
        rows := rows[id := row.(cancelRequested := true,
                                cancelRequestedAt := if row.cancelRequestedAt.Some? then row.cancelRequestedAt else Some(now))];
        AddEvent(id, CancelRequestedEv);
      }
    }

    method MarkCancelled(id: JobId, leaseId: Option<LeaseId>, now: int) returns (ok: bool)
      requires Valid()
      modifies this
      ensures Valid() && View() == Apply(old(View()), Op.MarkCancelled(id, leaseId, now))
      ensures ok == Enabled(old(View()), Op.MarkCancelled(id, leaseId, now))
      ensures ok <==> id in old(rows) && old(rows)[id].state == InProgress && (leaseId.Some? ==> old(rows)[id].leaseId == leaseId)
      ensures rows == if !ok then old(rows) else old(rows)[id := old(rows)[id].(
        state := Cancelled, finishedAt := Some(now), leaseId := None, leaseExpiresAt := None)]
      ensures log == if ok then old(log)[id := Trail(old(View()), id) + [CancelledEv]] else old(log)
    {
      if leaseId.Some? {
        ok := id in rows && rows[id].state.InProgress? && rows[id].leaseId == leaseId;
      } else {
        ok := id in rows && rows[id].state.InProgress?;
      }
      if ok {
        rows := rows[id := rows[id].(state := Cancelled, finishedAt := Some(now),
                                     leaseId := None, leaseExpiresAt := None)];
        AddEvent(id, CancelledEv);
      }
    }

    method SetArtifacts(id: JobId, artifacts: seq<Artifact>)
      requires Valid()
      modifies this
      ensures Valid() && View() == Apply(old(View()), Op.SetArtifacts(id, artifacts))
      ensures rows == if id in old(rows) then old(rows)[id := old(rows)[id].(artifacts := artifacts)] else old(rows)
      ensures log == old(log)
    {
      if id in rows { rows := rows[id := rows[id].(artifacts := artifacts)]; }
    }

    method ExpiredLeases(now: int) returns (s: seq<Job>)
      requires Valid()
      ensures Lists(rows, ExpiredAt(now), s)
      ensures IdsOf(s) == set id | id in rows && rows[id].state == InProgress
                                   && rows[id].leaseExpiresAt.Some? && rows[id].leaseExpiresAt.value < now
    {
      s := Select(ExpiredAt(now));
    }

    method Overdue(now: int) returns (s: seq<Job>)
      requires Valid()
      ensures Lists(rows, OverdueAt(now), s)
      ensures IdsOf(s) == set id | id in rows && (rows[id].state == Queued || rows[id].state == InProgress) && rows[id].deadlineAt < now
    {
      s := Select(OverdueAt(now));
    }

    method StaleCancels(before: int) returns (s: seq<Job>)
      requires Valid()
      ensures Lists(rows, StaleAt(before), s)
      ensures IdsOf(s) == set id | id in rows && rows[id].state == InProgress && rows[id].cancelRequested
                                   && rows[id].cancelRequestedAt.Some? && rows[id].cancelRequestedAt.value < before
    {
      s := Select(StaleAt(before));
    }

    method FinishedJobs(before: int) returns (s: seq<Job>)
      requires Valid()
      ensures Lists(rows, FinishedAt(before), s)
      ensures IdsOf(s) == set id | id in rows && rows[id].finishedAt.Some? && rows[id].finishedAt.value < before
                                   && rows[id].artifacts != []
    {
      s := Select(FinishedAt(before));
    }

    method RecoverOnStartup(now: int, graceMs: int) returns (changes: nat)
      requires Valid()
      modifies this
      ensures Valid() && View() == Apply(old(View()), Recover(now, graceMs))
      ensures rows.Keys == old(rows).Keys
      ensures forall id :: id in rows ==>
        rows[id] == if old(rows)[id].state == InProgress then old(rows)[id].(leaseExpiresAt := Some(now + graceMs)) else old(rows)[id]
      ensures log.Keys == old(log).Keys
      ensures forall id :: id in log ==>
        if id in old(rows) && old(rows)[id].state == InProgress then log[id] == old(log)[id] + [RecoveredEv(old(rows)[id].podId)]
        else log[id] == old(log)[id]
      ensures changes == |set id | id in old(rows) && old(rows)[id].state.InProgress?|
    {
      hide Apply;
      var running := set id | id in rows && rows[id].state.InProgress?;
      ghost var was := View();
      rows := map id | id in rows ::
        if rows[id].state.InProgress? then rows[id].(leaseExpiresAt := Some(now + graceMs)) else rows[id];
      if |running| > 0 {
        log := map id | id in log :: if id in running then log[id] + [RecoveredEv(rows[id].podId)] else log[id];
      }
      RecoveredAs(was, now, graceMs, running, rows, log);
      changes := |running|;
    }

    method PurgeBefore(before: int) returns (changes: nat)
      requires Valid()
      modifies this
      ensures Valid() && View() == Apply(old(View()), Purge(before))
      ensures changes == |set id | id in old(rows) && FinishedBefore(old(rows)[id], before)|
      ensures forall id :: id in rows <==>
        id in old(rows) && !(old(rows)[id].finishedAt.Some? && old(rows)[id].finishedAt.value < before)
      ensures forall id :: id in rows ==> rows[id] == old(rows)[id]
      ensures forall id :: id in log <==>
        id in old(log) && !(id in old(rows) && old(rows)[id].finishedAt.Some? && old(rows)[id].finishedAt.value < before)
      ensures forall id :: id in log ==> log[id] == old(log)[id]
    {
      var gone := set id | id in rows && FinishedBefore(rows[id], before);
      log := log - gone;
      rows := rows - gone;
      changes := |gone|;
      assert gone == set id | id in old(rows) && FinishedBefore(old(rows)[id], before);
    }
  }
}
