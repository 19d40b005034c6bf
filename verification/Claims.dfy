/** gateway/src/scheduler/claim.ts: matching queued jobs to the pod that is asking. */
module Claims {
  import opened Types
  import opened JobTable
  import opened TableInvariant
  import opened Store

  const WINDOW := 100

  /** A draining or not-yet-ready pod offers nothing, whatever room it has. */
  function FreeSlots(pod: Pod, inFlight: nat): (slots: nat)
    ensures slots > 0 <==> !pod.draining && pod.ready && inFlight < pod.maxInFlight
    ensures slots > 0 ==> inFlight + slots == pod.maxInFlight
  {
    if pod.draining || !pod.ready then 0
    else if pod.maxInFlight > inFlight then pod.maxInFlight - inFlight else 0
  }

  /** The jobs of the queue window this pod can run, in queue order. */
  function Runnable(window: seq<Job>, model: Option<ModelId>): seq<Job> {
    if window == [] then []
    else
      var n := |window| - 1;
      Runnable(window[..n], model) + if Some(window[n].model) == model then [window[n]] else []
  }

  function Picked(window: seq<Job>, model: Option<ModelId>, slots: nat): seq<Job> {
    var r := Runnable(window, model);
    if |r| <= slots then r else r[..slots]
  }

  function ClaimOp(a: Assignment, pod: PodId, expiresAt: int, now: int): Op {
    Op.Claim(a.jobId, pod, a.leaseId, expiresAt, now)
  }

  function ClaimOps(assign: seq<Assignment>, pod: PodId, expiresAt: int, now: int): seq<Op> {
    if assign == [] then []
    else
      var n := |assign| - 1;
      ClaimOps(assign[..n], pod, expiresAt, now) + [ClaimOp(assign[n], pod, expiresAt, now)]
  }

  function JobsOf(assign: seq<Assignment>): set<JobId> {
    if assign == [] then {} else JobsOf(assign[..|assign| - 1]) + {assign[|assign| - 1].jobId}
  }

  function LeasesOf(assign: seq<Assignment>): set<LeaseId> {
    if assign == [] then {} else LeasesOf(assign[..|assign| - 1]) + {assign[|assign| - 1].leaseId}
  }

  /** Distinct fresh leases for distinct queued jobs. */
  predicate Claimable(db: Db, assign: seq<Assignment>) {
    assign == [] ||
    (var n := |assign| - 1;
     && Claimable(db, assign[..n])
     && assign[n].jobId in db.rows && db.rows[assign[n].jobId].state.Queued? && assign[n].leaseId !in db.issued
     && assign[n].jobId !in JobsOf(assign[..n]) && assign[n].leaseId !in LeasesOf(assign[..n]))
  }

  /** Exactly the assigned rows changed hands, each under its own lease. */
  ghost predicate Landed(db: Db, db': Db, assign: seq<Assignment>, pod: PodId, expiresAt: int, now: int) {
    && db'.rows.Keys == db.rows.Keys && db'.made == db.made
    && db'.issued == db.issued + LeasesOf(assign)
    && (forall a :: a in assign ==>
          a.jobId in db.rows && db'.rows[a.jobId] == Updated(db.rows[a.jobId], ClaimOp(a, pod, expiresAt, now)))
    && (forall id :: id in db.rows && id !in JobsOf(assign) ==> db'.rows[id] == db.rows[id])
  }

  lemma {:induction false} AssignedIds(assign: seq<Assignment>, a: Assignment)
    requires a in assign
    ensures a.jobId in JobsOf(assign) && a.leaseId in LeasesOf(assign)
  {
    var n := |assign| - 1;
    assert assign == assign[..n] + [assign[n]];
    if a != assign[n] { AssignedIds(assign[..n], a); }
  }

  lemma {:induction false} LandOne(db: Db, mid: Db, rest: seq<Assignment>, a: Assignment, assign: seq<Assignment>,
                                   pod: PodId, expiresAt: int, now: int)
    requires Landed(db, mid, rest, pod, expiresAt, now)
    requires assign == rest + [a] && a.jobId in db.rows && db.rows[a.jobId].state.Queued?
    requires a.jobId !in JobsOf(rest)
    ensures Landed(db, Apply(mid, ClaimOp(a, pod, expiresAt, now)), assign, pod, expiresAt, now)
  {
    assert assign[..|assign| - 1] == rest;
    forall x | x in rest ensures x.jobId != a.jobId { AssignedIds(rest, x); }
  }

  lemma {:induction false} ClaimsLand(db: Db, assign: seq<Assignment>, pod: PodId, expiresAt: int, now: int, m: nat)
    requires Claimable(db, assign)
    ensures LegalRun(db, ClaimOps(assign, pod, expiresAt, now), m)
    ensures Landed(db, ApplyAll(db, ClaimOps(assign, pod, expiresAt, now)), assign, pod, expiresAt, now)
  {
    if assign != [] {
      var n := |assign| - 1;
      var a, rest := assign[n], assign[..n];
      ClaimsLand(db, rest, pod, expiresAt, now, m);
      var ops := ClaimOps(assign, pod, expiresAt, now);
      assert ops[..|ops| - 1] == ClaimOps(rest, pod, expiresAt, now);
      LandOne(db, ApplyAll(db, ops[..|ops| - 1]), rest, a, assign, pod, expiresAt, now);
    }
  }

  lemma {:induction false} RunnableMembers(window: seq<Job>, model: Option<ModelId>)
    ensures |Runnable(window, model)| <= |window|
    ensures forall x :: x in Runnable(window, model) <==> x in window && Some(x.model) == model
    ensures (forall x :: x in window ==> Some(x.model) == model) ==> Runnable(window, model) == window
  {
    if window != [] {
      var n := |window| - 1;
      RunnableMembers(window[..n], model);
      assert window == window[..n] + [window[n]];
    }
  }

  lemma {:induction false} RunnablePrefix(window: seq<Job>, i: nat, model: Option<ModelId>)
    requires i <= |window|
    ensures Runnable(window[..i], model) <= Runnable(window, model)
    decreases |window|
  {
    if i < |window| {
      var n := |window| - 1;
      assert window[..n][..i] == window[..i];
      RunnablePrefix(window[..n], i, model);
    } else {
      assert window[..i] == window;
    }
  }

  /** The assignments name these jobs, in this order. */
  predicate Names(assign: seq<Assignment>, jobs: seq<Job>) {
    if assign == [] || jobs == [] then assign == [] && jobs == []
    else
      var n, k := |assign| - 1, |jobs| - 1;
      assign[n].jobId == jobs[k].id && Names(assign[..n], jobs[..k])
  }

  lemma {:induction false} NamesAt(assign: seq<Assignment>, jobs: seq<Job>)
    requires Names(assign, jobs)
    ensures |assign| == |jobs| && forall i :: 0 <= i < |jobs| ==> assign[i].jobId == jobs[i].id
  {
    if assign != [] { NamesAt(assign[..|assign| - 1], jobs[..|jobs| - 1]); }
  }

  /** How far the claim loop has come after `i` jobs of the window. */
  ghost predicate Progress(was: Db, at: Db, jobs: seq<Job>, i: nat, pod: Pod, assign: seq<Assignment>, expiresAt: int, now: int) {
    && i <= |jobs|
    && Names(assign, Runnable(jobs[..i], pod.model))
    && Claimable(was, assign)
    && at == ApplyAll(was, ClaimOps(assign, pod.podId, expiresAt, now))
  }

  /** One turn of the loop for a job the pod can run. */
  method Take(store: JobStore, pod: Pod, job: Job, leaseTtlMs: int, now: int) returns (won: bool, a: Assignment)
    requires store.Valid()
    modifies store
    ensures store.Valid()
    ensures a.jobId == job.id && a.leaseId !in old(store.issued)
    ensures store.View() == Apply(old(store.View()), ClaimOp(a, pod.podId, now + leaseTtlMs, now))
    ensures won <==> job.id in old(store.rows) && old(store.rows)[job.id].state.Queued?
  {
    var leaseId := store.NewLeaseId();
    won := store.Claim(job.id, pod.podId, leaseId, now + leaseTtlMs, now);
    a := Assignment(job.id, leaseId);
  }

  lemma {:induction false} JobIndex(assign: seq<Assignment>, id: JobId) returns (i: nat)
    requires id in JobsOf(assign)
    ensures i < |assign| && assign[i].jobId == id
  {
    var n := |assign| - 1;
    if assign[n].jobId == id { i := n; } else { i := JobIndex(assign[..n], id); }
  }

  /** A job further down the window is not among those assigned so far. */
  lemma {:induction false} NotYetTaken(jobs: seq<Job>, i: nat, model: Option<ModelId>, assign: seq<Assignment>)
    requires i < |jobs| && Names(assign, Runnable(jobs[..i], model))
    requires forall x, y :: 0 <= x < y < |jobs| ==> jobs[x].id != jobs[y].id
    ensures jobs[i].id !in JobsOf(assign)
  {
    hide Runnable;
    var r := Runnable(jobs[..i], model);
    RunnableMembers(jobs[..i], model);
    NamesAt(assign, r);
    forall k | 0 <= k < |r| ensures r[k].id != jobs[i].id { assert r[k] in jobs[..i]; }
    if jobs[i].id in JobsOf(assign) {
      var k := JobIndex(assign, jobs[i].id);
    }
  }

  /** The compare-and-swap cannot lose: nothing else ran since the window was read. */
  lemma {:induction false} StillQueued(db: Db, jobs: seq<Job>, i: nat, pod: Pod, assign: seq<Assignment>, expiresAt: int, now: int)
    requires QueueWindow(db.rows, WINDOW, jobs) && i < |jobs|
    requires Claimable(db, assign) && Names(assign, Runnable(jobs[..i], pod.model))
    ensures var id, mid := jobs[i].id, ApplyAll(db, ClaimOps(assign, pod.podId, expiresAt, now));
      && id !in JobsOf(assign) && id in db.rows && db.rows[id].state.Queued?
      && id in mid.rows && mid.rows[id] == db.rows[id] && mid.issued == db.issued + LeasesOf(assign)
  {
    hide Apply, ApplyAll, Claimable, Names, Runnable, LegalRun;
    NotYetTaken(jobs, i, pod.model, assign);
    ClaimsLand(db, assign, pod.podId, expiresAt, now, 1);
  }

  lemma {:induction false} ProgressSkip(was: Db, at: Db, jobs: seq<Job>, i: nat, pod: Pod, assign: seq<Assignment>, expiresAt: int, now: int)
    requires i < |jobs| && Some(jobs[i].model) != pod.model
    requires Progress(was, at, jobs, i, pod, assign, expiresAt, now)
    ensures Progress(was, at, jobs, i + 1, pod, assign, expiresAt, now)
  {
    assert jobs[..i + 1][..i] == jobs[..i];
    assert Runnable(jobs[..i + 1], pod.model) == Runnable(jobs[..i], pod.model);
  }

  lemma {:induction false} OneMore(db: Db, assign: seq<Assignment>, a: Assignment, pod: PodId, expiresAt: int, now: int)
    ensures ApplyAll(db, ClaimOps(assign + [a], pod, expiresAt, now)) ==
            Apply(ApplyAll(db, ClaimOps(assign, pod, expiresAt, now)), ClaimOp(a, pod, expiresAt, now))
  {
    var more := assign + [a];
    assert more[..|more| - 1] == assign;
    ApplySnoc(db, ClaimOps(assign, pod, expiresAt, now), ClaimOp(a, pod, expiresAt, now));
  }

  lemma {:induction false} RunnableNext(jobs: seq<Job>, i: nat, model: Option<ModelId>, assign: seq<Assignment>, a: Assignment)
    requires i < |jobs| && Some(jobs[i].model) == model && a.jobId == jobs[i].id && Names(assign, Runnable(jobs[..i], model))
    ensures Names(assign + [a], Runnable(jobs[..i + 1], model))
  {
    assert (assign + [a])[..|assign|] == assign;
    assert jobs[..i + 1][..i] == jobs[..i];
    var r := Runnable(jobs[..i], model);
    assert (r + [jobs[i]])[..|r|] == r;
  }

  lemma {:induction false} ClaimableNext(db: Db, assign: seq<Assignment>, a: Assignment)
    requires Claimable(db, assign) && a.jobId in db.rows && db.rows[a.jobId].state.Queued? && a.leaseId !in db.issued
    requires a.jobId !in JobsOf(assign) && a.leaseId !in LeasesOf(assign)
    ensures Claimable(db, assign + [a])
  {
    assert (assign + [a])[..|assign|] == assign;
  }

  lemma {:induction false} ProgressClaim(was: Db, at: Db, jobs: seq<Job>, i: nat, pod: Pod, assign: seq<Assignment>, a: Assignment,
                      expiresAt: int, now: int)
    requires i < |jobs| && Some(jobs[i].model) == pod.model && QueueWindow(was.rows, WINDOW, jobs)
    requires Progress(was, at, jobs, i, pod, assign, expiresAt, now)
    requires a.jobId == jobs[i].id && a.leaseId !in at.issued
    ensures Progress(was, Apply(at, ClaimOp(a, pod.podId, expiresAt, now)), jobs, i + 1, pod, assign + [a], expiresAt, now)
  {
    hide Apply, ApplyAll, QueueWindow, Runnable, Names, Claimable;
    StillQueued(was, jobs, i, pod, assign, expiresAt, now);
    RunnableNext(jobs, i, pod.model, assign, a);
    ClaimableNext(was, assign, a);
    OneMore(was, assign, a, pod.podId, expiresAt, now);
  }

  /** One turn of the loop: a job the pod cannot run is passed over, not waited for. */
  method Consider(store: JobStore, pod: Pod, jobs: seq<Job>, i: nat, leaseTtlMs: int, now: int,
                  assign: seq<Assignment>, ghost was: Db, ghost at: Db) returns (more: seq<Assignment>)
    requires store.Valid() && at == store.View() && i < |jobs| && QueueWindow(was.rows, WINDOW, jobs)
    requires Progress(was, at, jobs, i, pod, assign, now + leaseTtlMs, now)
    modifies store
    ensures store.Valid() && |more| <= |assign| + 1
    ensures Progress(was, store.View(), jobs, i + 1, pod, more, now + leaseTtlMs, now)
  {
    hide Apply, ApplyAll, Claimable, Names, Runnable, ClaimOps, LeasesOf, JobsOf;
    more := assign;
    if Some(jobs[i].model) == pod.model {
      StillQueued(was, jobs, i, pod, assign, now + leaseTtlMs, now);
      var won, a := Take(store, pod, jobs[i], leaseTtlMs, now);
      if won {
        more := assign + [a];
        ProgressClaim(was, at, jobs, i, pod, assign, a, now + leaseTtlMs, now);
      }
    } else {
      ProgressSkip(was, at, jobs, i, pod, assign, now + leaseTtlMs, now);
    }
  }

  lemma {:induction false} LoopDone(jobs: seq<Job>, i: nat, model: Option<ModelId>, assign: seq<Assignment>, slots: nat)
    requires i <= |jobs| && Names(assign, Runnable(jobs[..i], model)) && |assign| <= slots
    requires i == |jobs| || |assign| == slots
    ensures Names(assign, Picked(jobs, model, slots))
  {
    assert jobs[..|jobs|] == jobs;
    RunnablePrefix(jobs, i, model);
    NamesAt(assign, Runnable(jobs[..i], model));
    assert Picked(jobs, model, slots) == Runnable(jobs[..i], model);
  }

  /** `claimForPod`: the first min(slots, matches) jobs of the pod's model in the window, no others. */
  method ClaimForPod(store: JobStore, pod: Pod, slots: nat, leaseTtlMs: int, now: int)
    returns (assign: seq<Assignment>, ghost window: seq<Job>)
    requires store.Valid()
    modifies store
    ensures store.Valid()
    ensures slots == 0 ==> assign == []
    ensures slots > 0 ==> QueueWindow(old(store.rows), WINDOW, window)
    ensures slots > 0 ==> Names(assign, Picked(window, pod.model, slots))
    ensures Claimable(old(store.View()), assign)
    ensures store.View() == ApplyAll(old(store.View()), ClaimOps(assign, pod.podId, now + leaseTtlMs, now))
  {
    assign, window := [], [];
    if slots == 0 { return; }
    ghost var was := store.View();
    var jobs := store.ListQueued(WINDOW);
    window := jobs;
    var i := 0;
    while i < |jobs| && |assign| < slots
      invariant 0 <= i <= |jobs| && |assign| <= slots && store.Valid()
      invariant Progress(was, store.View(), jobs, i, pod, assign, now + leaseTtlMs, now)
    {
      assign := Consider(store, pod, jobs, i, leaseTtlMs, now, assign, was, store.View());
      i := i + 1;
    }
    LoopDone(jobs, i, pod.model, assign, slots);
  }

  lemma {:induction false} ClaimedFrom(db: Db, assign: seq<Assignment>, i: nat)
    requires Claimable(db, assign) && i < |assign|
    ensures assign[i].jobId in db.rows && db.rows[assign[i].jobId].state == Queued && assign[i].leaseId !in db.issued
    decreases |assign|
  {
    var n := |assign| - 1;
    if i < n {
      assert assign[..n][i] == assign[i];
      ClaimedFrom(db, assign[..n], i);
    }
  }

  /** Each assigned row after the loop. */
  lemma {:induction false} ClaimsAre(db: Db, assign: seq<Assignment>, pod: PodId, expiresAt: int, now: int, i: nat)
    requires Claimable(db, assign) && i < |assign|
    ensures assign[i].jobId in db.rows && assign[i].jobId in ApplyAll(db, ClaimOps(assign, pod, expiresAt, now)).rows
    ensures var row, row' := db.rows[assign[i].jobId], ApplyAll(db, ClaimOps(assign, pod, expiresAt, now)).rows[assign[i].jobId];
      && row.state == Queued && assign[i].leaseId !in db.issued
      && row' == row.(state := InProgress, podId := Some(pod), leaseId := Some(assign[i].leaseId), leaseExpiresAt := Some(expiresAt),
                      startedAt := if row.startedAt.Some? then row.startedAt else Some(now), attempts := row.attempts + 1)
  {
    hide Apply, ApplyAll, LegalRun;
    ClaimsLand(db, assign, pod, expiresAt, now, 1);
    assert assign[i] in assign;
    ClaimedFrom(db, assign, i);
  }

  /** The jobs of the window before position `j` that the model can run. */
  function Before(window: seq<Job>, model: Option<ModelId>, j: nat): set<int>
    requires j <= |window|
  {
    set k | 0 <= k < j && Some(window[k].model) == model
  }

  lemma {:induction false} BeforeNext(window: seq<Job>, model: Option<ModelId>, j: nat)
    requires j < |window|
    ensures |Before(window, model, j + 1)| == |Before(window, model, j)| + if Some(window[j].model) == model then 1 else 0
  {
    var was, now, mine := Before(window, model, j), Before(window, model, j + 1), Some(window[j].model) == model;
    assert j !in was;
    forall k ensures k in now <==> k in was || (k == j && mine) {}
    if mine { assert now == was + {j}; } else { assert now == was; }
  }

  lemma {:induction false} RunnableAt(window: seq<Job>, model: Option<ModelId>, n: nat)
    requires n <= |window|
    ensures |Runnable(window[..n], model)| == |Before(window, model, n)|
    ensures forall j :: 0 <= j < n && Some(window[j].model) == model ==>
      |Before(window, model, j)| < |Runnable(window[..n], model)| && Runnable(window[..n], model)[|Before(window, model, j)|] == window[j]
  {
    if n == 0 {
      assert Before(window, model, 0) == {};
    } else {
      RunnableAt(window, model, n - 1);
      BeforeNext(window, model, n - 1);
      assert window[..n][..n - 1] == window[..n - 1];
    }
  }

  /** Which jobs of the window are handed out, and in which order: job `j` as the one after all that go
      before it, if the slots reach that far. */
  lemma {:induction false} HandedOutAre(assign: seq<Assignment>, window: seq<Job>, model: Option<ModelId>, slots: nat)
    requires Names(assign, Picked(window, model, slots))
    ensures var matches := |set k | 0 <= k < |window| && Some(window[k].model) == model|;
      |assign| == if matches < slots then matches else slots
    ensures forall j :: 0 <= j < |window| && Some(window[j].model) == model ==>
      (var n := |set k | 0 <= k < j && Some(window[k].model) == model|;
       n < slots ==> n < |assign| && assign[n].jobId == window[j].id)
  {
    hide Runnable, Names;
    assert window[..|window|] == window;
    RunnableAt(window, model, |window|);
    NamesAt(assign, Picked(window, model, slots));
    assert Before(window, model, |window|) == set k | 0 <= k < |window| && Some(window[k].model) == model;
    forall j | 0 <= j < |window| && Some(window[j].model) == model
      ensures Before(window, model, j) == set k | 0 <= k < j && Some(window[k].model) == model {}
  }

  lemma {:induction false} CardOfJobs(db: Db, assign: seq<Assignment>)
    requires Claimable(db, assign)
    ensures |JobsOf(assign)| == |LeasesOf(assign)| == |assign|
  {
    if assign != [] { CardOfJobs(db, assign[..|assign| - 1]); }
  }

  ghost predicate AgesDiffer(rows: map<JobId, Job>) {
    forall a, b :: a in rows && b in rows && rows[a].state.Queued? && rows[b].state.Queued? && a != b
                   ==> rows[a].createdAt != rows[b].createdAt
  }

  lemma {:induction false} AheadAfter(db: Db, db': Db, assign: seq<Assignment>, pod: PodId, expiresAt: int, now: int, t: int)
    requires Landed(db, db', assign, pod, expiresAt, now)
    ensures Ahead(db'.rows, t) == Ahead(db.rows, t) - JobsOf(assign)
  {
    forall id | id in db'.rows ensures id in Ahead(db'.rows, t) <==> id in Ahead(db.rows, t) && id !in JobsOf(assign) {
      if id in JobsOf(assign) {
        var i := JobIndex(assign, id);
        assert assign[i] in assign;
      }
    }
  }

  lemma {:induction false} AllRunnable(db: Db, window: seq<Job>, model: Option<ModelId>)
    requires QueueWindow(db.rows, WINDOW, window)
    requires forall k :: k in db.rows && db.rows[k].state.Queued? ==> Some(db.rows[k].model) == model
    ensures Runnable(window, model) == window
  {
    RunnableMembers(window, model);
    forall x | x in window ensures Some(x.model) == model {
      var k :| 0 <= k < |window| && window[k] == x;
    }
  }

  /** A queued job outside the first `n` of the window is younger than each of them. */
  lemma {:induction false} EarlierInWindow(db: Db, window: seq<Job>, n: nat, i: nat, id: JobId)
    requires QueueWindow(db.rows, WINDOW, window) && AgesDiffer(db.rows) && i < n <= |window|
    requires id in db.rows && db.rows[id].state.Queued? && db.rows[id].id == id
    requires forall j :: 0 <= j < n ==> window[j].id != id
    ensures window[i].id in Ahead(db.rows, db.rows[id].createdAt)
  {
    if db.rows[id] in window {
      var k :| 0 <= k < |window| && window[k] == db.rows[id];
    }
  }

  lemma {:induction false} PickedIsOlder(db: Db, window: seq<Job>, model: Option<ModelId>, slots: nat, assign: seq<Assignment>, i: nat, id: JobId)
    requires QueueWindow(db.rows, WINDOW, window) && AgesDiffer(db.rows)
    requires forall k :: k in db.rows ==> db.rows[k].id == k
    requires forall k :: k in db.rows && db.rows[k].state.Queued? ==> Some(db.rows[k].model) == model
    requires Names(assign, Picked(window, model, slots)) && i < |assign|
    requires id in db.rows && db.rows[id].state.Queued? && id !in JobsOf(assign)
    ensures assign[i].jobId in Ahead(db.rows, db.rows[id].createdAt)
  {
    hide QueueWindow, Names, JobsOf, Runnable, AgesDiffer;
    AllRunnable(db, window, model);
    NamesAt(assign, Picked(window, model, slots));
    assert assign[i].jobId == window[i].id;
    forall j | 0 <= j < |assign| ensures window[j].id != id {
      AssignedIds(assign, assign[j]);
    }
    EarlierInWindow(db, window, |assign|, i, id);
  }

  /** With one model in the queue and no two jobs of one age, every job left behind moves up by
      exactly the number claimed. */
  lemma {:induction false} PositionsFall(db: Db, window: seq<Job>, pod: Pod, slots: nat, assign: seq<Assignment>, expiresAt: int, now: int, id: JobId)
    requires QueueWindow(db.rows, WINDOW, window) && AgesDiffer(db.rows)
    requires forall k :: k in db.rows ==> db.rows[k].id == k
    requires forall k :: k in db.rows && db.rows[k].state.Queued? ==> Some(db.rows[k].model) == pod.model
    requires Claimable(db, assign) && Names(assign, Picked(window, pod.model, slots))
    requires id in db.rows && db.rows[id].state.Queued? && id !in JobsOf(assign)
    ensures var db' := ApplyAll(db, ClaimOps(assign, pod.podId, expiresAt, now));
      && id in db'.rows && db'.rows[id] == db.rows[id]
      && QueuePosition(db.rows, db.rows[id]).Some? && QueuePosition(db'.rows, db'.rows[id]).Some?
      && QueuePosition(db'.rows, db'.rows[id]).value == QueuePosition(db.rows, db.rows[id]).value - |assign|
  {
    var db' := ApplyAll(db, ClaimOps(assign, pod.podId, expiresAt, now));
    ClaimsLand(db, assign, pod.podId, expiresAt, now, 1);
    var t := db.rows[id].createdAt;
    forall x | x in JobsOf(assign) ensures x in Ahead(db.rows, t) {
      var i := JobIndex(assign, x);
      PickedIsOlder(db, window, pod.model, slots, assign, i, id);
    }
    AheadAfter(db, db', assign, pod.podId, expiresAt, now, t);
    CardOfJobs(db, assign);
  }
}
