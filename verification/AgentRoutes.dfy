/** gateway/src/routes/agent.ts: what a pod may say to the gateway, and what the gateway does about it.
    Each method is the code between two awaits. */
module AgentRoutes {
  import opened Types
  import opened JobTable
  import opened TableInvariant
  import opened Store
  import opened Claims
  import opened Parking
  import opened Artifacts

  /** One entry of `in_flight`; a missing or malformed id is `None`. */
  datatype Report = Report(jobId: Option<JobId>, leaseId: Option<LeaseId>, progress: Option<real>, upstreamId: Option<string>)

  predicate Usable(r: Report) {
    r.jobId.Some? && r.leaseId.Some?
  }

  function ValidProgress(p: Option<real>): Option<real> {
    if p.Some? && 0.0 <= p.value <= 1.0 then p else None
  }

  function RenewOp(r: Report, expiresAt: int): Op
    requires Usable(r)
  {
    Renew(r.jobId.value, r.leaseId.value, expiresAt, ValidProgress(r.progress), r.upstreamId)
  }

  function RenewOps(reports: seq<Report>, expiresAt: int): seq<Op> {
    if reports == [] then []
    else
      var r := reports[|reports| - 1];
      var before := RenewOps(reports[..|reports| - 1], expiresAt);
      if Usable(r) then before + [RenewOp(r, expiresAt)] else before
  }

  predicate Owns(db: Db, r: Report) {
    Usable(r) && Current(db, r.jobId.value, r.leaseId.value)
  }

  /** The reported jobs whose lease the gateway still honours. */
  function StillOwned(db: Db, reports: seq<Report>): set<JobId> {
    if reports == [] then {}
    else
      var r := reports[|reports| - 1];
      var before := StillOwned(db, reports[..|reports| - 1]);
      if Owns(db, r) then before + {r.jobId.value} else before
  }

  /** The reported jobs whose lease is no longer current, in the order they were reported. */
  function Orphans(db: Db, reports: seq<Report>): seq<JobId> {
    if reports == [] then []
    else
      var r := reports[|reports| - 1];
      var before := Orphans(db, reports[..|reports| - 1]);
      if Usable(r) && !Owns(db, r) then before + [r.jobId.value] else before
  }

  /** Jobs in flight with a recorded cancel that the pod reported under their current lease, or that
      the gateway still counts as the pod's. */
  function CancelNotices(db: Db, reports: seq<Report>, pod: PodId): set<JobId> {
    set id | id in db.rows && db.rows[id].state.InProgress? && db.rows[id].cancelRequested
             && (id in StillOwned(db, reports) || db.rows[id].podId == Some(pod))
  }

  /** A row after a heartbeat: only the lease expiry, the progress and the upstream id may differ. */
  predicate Touched(row: Job, row': Job, expiresAt: int) {
    row' == row.(leaseExpiresAt := Some(expiresAt), progress := row'.progress, upstreamId := row'.upstreamId)
  }

  ghost predicate Renewed(db: Db, db': Db, reports: seq<Report>, expiresAt: int) {
    && db'.rows.Keys == db.rows.Keys && db'.log == db.log && db'.issued == db.issued && db'.made == db.made
    && (forall id :: id in db.rows ==>
          if id in StillOwned(db, reports) then Touched(db.rows[id], db'.rows[id], expiresAt)
          else db'.rows[id] == db.rows[id])
  }

  lemma {:induction false} RenewOne(db: Db, mid: Db, reports: seq<Report>, expiresAt: int)
    requires reports != [] && Usable(reports[|reports| - 1])
    requires Renewed(db, mid, reports[..|reports| - 1], expiresAt)
    ensures Renewed(db, Apply(mid, RenewOp(reports[|reports| - 1], expiresAt)), reports, expiresAt)
    ensures Current(mid, reports[|reports| - 1].jobId.value, reports[|reports| - 1].leaseId.value) <==>
            Owns(db, reports[|reports| - 1])
  {
    var r := reports[|reports| - 1];
    var id, was := r.jobId.value, StillOwned(db, reports[..|reports| - 1]);
    assert mid.issued + {} == mid.issued;
    if id in db.rows {
      assert if id in was then Touched(db.rows[id], mid.rows[id], expiresAt) else mid.rows[id] == db.rows[id];
    }
  }

  /** Renewals extend exactly the leases that are current, and leave every other row as it is. */
  lemma {:induction false} RenewalsLand(db: Db, reports: seq<Report>, expiresAt: int, m: nat)
    ensures LegalRun(db, RenewOps(reports, expiresAt), m)
    ensures Renewed(db, ApplyAll(db, RenewOps(reports, expiresAt)), reports, expiresAt)
  {
    if reports != [] {
      var n := |reports| - 1;
      var r := reports[n];
      var ops := RenewOps(reports, expiresAt);
      RenewalsLand(db, reports[..n], expiresAt, m);
      var mid := ApplyAll(db, RenewOps(reports[..n], expiresAt));
      if Usable(r) {
        assert ops[..|ops| - 1] == RenewOps(reports[..n], expiresAt);
        RenewOne(db, mid, reports, expiresAt);
      } else {
        assert ops == RenewOps(reports[..n], expiresAt);
        assert StillOwned(db, reports) == StillOwned(db, reports[..n]);
      }
    }
  }

  /** The reports, one by one: a report that names a job and its current lease extends it, and brings its
      progress if it is a fraction and its upstream id if it has one; any other changes nothing. */
  lemma {:induction false} HeartbeatNext(db: Db, reports: seq<Report>, r: Report, expiresAt: int)
    ensures ApplyAll(db, RenewOps([], expiresAt)).rows == db.rows
    ensures var was, now := ApplyAll(db, RenewOps(reports, expiresAt)).rows, ApplyAll(db, RenewOps(reports + [r], expiresAt)).rows;
      if r.jobId.Some? && r.leaseId.Some? && r.jobId.value in was && was[r.jobId.value].state == InProgress
         && was[r.jobId.value].leaseId == r.leaseId
      then
        now == was[r.jobId.value := was[r.jobId.value].(
          leaseExpiresAt := Some(expiresAt),
          progress := if r.progress.Some? && 0.0 <= r.progress.value <= 1.0 then r.progress.value else was[r.jobId.value].progress,
          upstreamId := if r.upstreamId.Some? then r.upstreamId else was[r.jobId.value].upstreamId)]
      else now == was
  {
    assert (reports + [r])[..|reports|] == reports;
    if Usable(r) { ApplySnoc(db, RenewOps(reports, expiresAt), RenewOp(r, expiresAt)); }
  }

  lemma {:induction false} Unreported(db: Db, reports: seq<Report>, id: JobId, expiresAt: int)
    requires id in db.rows && forall j :: 0 <= j < |reports| ==> reports[j].jobId != Some(id)
    ensures var rows' := ApplyAll(db, RenewOps(reports, expiresAt)).rows; id in rows' && rows'[id] == db.rows[id]
  {
    hide ApplyAll, RenewOps;
    if reports == [] {
      HeartbeatNext(db, [], Report(None, None, None, None), expiresAt);
    } else {
      var n := |reports| - 1;
      assert reports == reports[..n] + [reports[n]];
      Unreported(db, reports[..n], id, expiresAt);
      HeartbeatNext(db, reports[..n], reports[n], expiresAt);
    }
  }

  /** A job reported once, under its current lease, as agents do. */
  lemma {:induction false} HeartbeatRow(db: Db, reports: seq<Report>, i: nat, expiresAt: int)
    requires i < |reports| && reports[i].jobId.Some? && reports[i].jobId.value in db.rows
    requires var row := db.rows[reports[i].jobId.value]; row.state == InProgress && row.leaseId.Some? && row.leaseId == reports[i].leaseId
    requires forall j :: 0 <= j < |reports| && j != i ==> reports[j].jobId != reports[i].jobId
    ensures var r, row, rows' := reports[i], db.rows[reports[i].jobId.value], ApplyAll(db, RenewOps(reports, expiresAt)).rows;
      r.jobId.value in rows' && rows'[r.jobId.value] == row.(
        leaseExpiresAt := Some(expiresAt),
        progress := if r.progress.Some? && 0.0 <= r.progress.value <= 1.0 then r.progress.value else row.progress,
        upstreamId := if r.upstreamId.Some? then r.upstreamId else row.upstreamId)
    decreases |reports|
  {
    hide ApplyAll, RenewOps;
    var n := |reports| - 1;
    assert reports == reports[..n] + [reports[n]];
    HeartbeatNext(db, reports[..n], reports[n], expiresAt);
    if i < n {
      HeartbeatRow(db, reports[..n], i, expiresAt);
    } else {
      Unreported(db, reports[..n], reports[i].jobId.value, expiresAt);
    }
  }

  /** Which reported jobs are still the pod's. */
  lemma {:induction false} StillOwnedAre(db: Db, reports: seq<Report>, id: JobId)
    ensures id in StillOwned(db, reports) <==>
      exists i :: 0 <= i < |reports| && reports[i].jobId == Some(id) && reports[i].leaseId.Some?
                  && id in db.rows && db.rows[id].state == InProgress && db.rows[id].leaseId == reports[i].leaseId
  {
    if reports != [] {
      var n := |reports| - 1;
      StillOwnedAre(db, reports[..n], id);
      assert forall i :: 0 <= i < n ==> reports[..n][i] == reports[i];
    }
  }

  /** The orphans are listed report by report. */
  lemma {:induction false} OrphansNext(db: Db, reports: seq<Report>, r: Report)
    ensures Orphans(db, []) == []
    ensures Orphans(db, reports + [r]) == Orphans(db, reports)
      + if r.jobId.Some? && r.leaseId.Some?
           && !(r.jobId.value in db.rows && db.rows[r.jobId.value].state == InProgress && db.rows[r.jobId.value].leaseId == r.leaseId)
        then [r.jobId.value] else []
  {
    assert (reports + [r])[..|reports|] == reports;
  }

  /** Reported jobs that carry a cancel, among the leases honoured so far. */
  function OwnedCancels(db: Db, reports: seq<Report>): set<JobId> {
    set id | id in StillOwned(db, reports) && id in db.rows && db.rows[id].cancelRequested
  }

  lemma {:induction false} OwnedInFlight(db: Db, reports: seq<Report>)
    ensures forall id :: id in StillOwned(db, reports) ==> id in db.rows && db.rows[id].state.InProgress?
  {
    if reports != [] { OwnedInFlight(db, reports[..|reports| - 1]); }
  }

  /** Where the heartbeat loop stands after these reports. */
  ghost predicate Heard(was: Db, at: Db, reports: seq<Report>, expiresAt: int, orphan: seq<JobId>, cancel: set<JobId>, owned: set<JobId>) {
    && at == ApplyAll(was, RenewOps(reports, expiresAt))
    && orphan == Orphans(was, reports) && owned == StillOwned(was, reports)
    && cancel == OwnedCancels(was, reports)
  }

  lemma {:induction false} HeardSkip(was: Db, at: Db, reports: seq<Report>, i: nat, expiresAt: int,
                                     orphan: seq<JobId>, cancel: set<JobId>, owned: set<JobId>)
    requires i < |reports| && Heard(was, at, reports[..i], expiresAt, orphan, cancel, owned) && !Usable(reports[i])
    ensures Heard(was, at, reports[..i + 1], expiresAt, orphan, cancel, owned)
  {
    hide Apply, ApplyAll;
    assert reports[..i + 1][..i] == reports[..i];
  }

  /** The table after report `i`, and whether that report still names a current lease. */
  lemma {:induction false} RenewedAt(was: Db, at: Db, reports: seq<Report>, i: nat, expiresAt: int,
                                     orphan: seq<JobId>, cancel: set<JobId>, owned: set<JobId>)
    requires i < |reports| && Heard(was, at, reports[..i], expiresAt, orphan, cancel, owned) && Usable(reports[i])
    ensures var at' := Apply(at, RenewOp(reports[i], expiresAt));
      && at' == ApplyAll(was, RenewOps(reports[..i + 1], expiresAt))
      && Renewed(was, at', reports[..i + 1], expiresAt)
    ensures Current(at, reports[i].jobId.value, reports[i].leaseId.value) <==> Owns(was, reports[i])
  {
    hide Apply, ApplyAll, Renewed, StillOwned, Orphans;
    assert reports[..i + 1][..i] == reports[..i];
    RenewalsLand(was, reports[..i], expiresAt, 1);
    RenewOne(was, at, reports[..i + 1], expiresAt);
    ApplySnoc(was, RenewOps(reports[..i], expiresAt), RenewOp(reports[i], expiresAt));
  }

  lemma {:induction false} CancelFlagKept(db: Db, db': Db, reports: seq<Report>, expiresAt: int, id: JobId)
    requires Renewed(db, db', reports, expiresAt) && id in db.rows
    ensures id in db'.rows && db'.rows[id].cancelRequested == db.rows[id].cancelRequested
    ensures db'.rows[id].state == db.rows[id].state && db'.rows[id].podId == db.rows[id].podId
    ensures db'.rows[id].leaseId == db.rows[id].leaseId && db'.rows[id].id == db.rows[id].id
  {
  }

  lemma {:induction false} HeardOwned(was: Db, at: Db, reports: seq<Report>, i: nat, expiresAt: int,
                                      orphan: seq<JobId>, cancel: set<JobId>, owned: set<JobId>)
    requires i < |reports| && Heard(was, at, reports[..i], expiresAt, orphan, cancel, owned)
    requires Usable(reports[i]) && Owns(was, reports[i])
    ensures var id, at' := reports[i].jobId.value, Apply(at, RenewOp(reports[i], expiresAt));
      && id in at'.rows
      && Heard(was, at', reports[..i + 1], expiresAt, orphan,
               if at'.rows[id].cancelRequested then cancel + {id} else cancel, owned + {id})
  {
    hide Apply, ApplyAll, Renewed, RenewOps;
    assert reports[..i + 1][..i] == reports[..i];
    RenewedAt(was, at, reports, i, expiresAt, orphan, cancel, owned);
    CancelFlagKept(was, Apply(at, RenewOp(reports[i], expiresAt)), reports[..i + 1], expiresAt, reports[i].jobId.value);
  }

  lemma {:induction false} HeardLost(was: Db, at: Db, reports: seq<Report>, i: nat, expiresAt: int,
                                     orphan: seq<JobId>, cancel: set<JobId>, owned: set<JobId>)
    requires i < |reports| && Heard(was, at, reports[..i], expiresAt, orphan, cancel, owned)
    requires Usable(reports[i]) && !Owns(was, reports[i])
    ensures Heard(was, Apply(at, RenewOp(reports[i], expiresAt)), reports[..i + 1], expiresAt,
                  orphan + [reports[i].jobId.value], cancel, owned)
  {
    hide Apply, ApplyAll, Renewed, RenewOps;
    assert reports[..i + 1][..i] == reports[..i];
    RenewedAt(was, at, reports, i, expiresAt, orphan, cancel, owned);
  }

  lemma {:induction false} HeardMore(was: Db, at: Db, reports: seq<Report>, i: nat, expiresAt: int,
                                     orphan: seq<JobId>, cancel: set<JobId>, owned: set<JobId>)
    requires i < |reports| && Heard(was, at, reports[..i], expiresAt, orphan, cancel, owned)
    ensures var r, next := reports[i], reports[..i + 1];
      if !Usable(r) then Heard(was, at, next, expiresAt, orphan, cancel, owned)
      else
        var id, at' := r.jobId.value, Apply(at, RenewOp(r, expiresAt));
        if Current(at, id, r.leaseId.value)
        then id in at'.rows
             && Heard(was, at', next, expiresAt, orphan,
                      if at'.rows[id].cancelRequested then cancel + {id} else cancel, owned + {id})
        else Heard(was, at', next, expiresAt, orphan + [id], cancel, owned)
  {
    hide Touched, Apply, ApplyAll, Heard, RenewOps, StillOwned, Orphans;
    var r := reports[i];
    if Usable(r) {
      RenewedAt(was, at, reports, i, expiresAt, orphan, cancel, owned);
      if Owns(was, r) {
        HeardOwned(was, at, reports, i, expiresAt, orphan, cancel, owned);
      } else {
        HeardLost(was, at, reports, i, expiresAt, orphan, cancel, owned);
      }
    } else {
      HeardSkip(was, at, reports, i, expiresAt, orphan, cancel, owned);
    }
  }

  lemma {:induction false} NothingHeard(was: Db, reports: seq<Report>, expiresAt: int)
    ensures reports[..0] == [] && reports[..|reports|] == reports
    ensures Heard(was, was, reports[..0], expiresAt, [], {}, {})
  {
  }

  /** The heartbeat half of a poll: renew what the agent still holds, collect what it has lost. */
  method RenewReports(store: JobStore, reports: seq<Report>, expiresAt: int)
    returns (orphan: seq<JobId>, cancel: set<JobId>, owned: set<JobId>)
    requires store.Valid()
    modifies store
    ensures store.Valid()
    ensures Heard(old(store.View()), store.View(), reports, expiresAt, orphan, cancel, owned)
  {
    hide Apply, Heard;
    ghost var was := store.View();
    orphan, cancel, owned := [], {}, {};
    var i := 0;
    NothingHeard(was, reports, expiresAt);
    while i < |reports|
      invariant 0 <= i <= |reports| && store.Valid()
      invariant Heard(was, store.View(), reports[..i], expiresAt, orphan, cancel, owned)
    {
      var r := reports[i];
      HeardMore(was, store.View(), reports, i, expiresAt, orphan, cancel, owned);
      if r.jobId.Some? && r.leaseId.Some? {
        var jobId := r.jobId.value;
        var renewed := store.RenewLease(jobId, r.leaseId.value, expiresAt, ValidProgress(r.progress), r.upstreamId);
        if !renewed {
          orphan := orphan + [jobId];
        } else {
          owned := owned + {jobId};
          var row := store.Get(jobId);
          if row.Some? && row.value.cancelRequested { cancel := cancel + {jobId}; }
        }
      }
      i := i + 1;
    }
  }

  /** Jobs the gateway counts as the pod's although the pod did not report them. */
  method AddForgottenCancels(store: JobStore, podId: PodId, owned: set<JobId>, cancel: set<JobId>) returns (all: set<JobId>)
    requires store.Valid()
    ensures forall id :: id in all <==> id in cancel || (id in Matching(store.rows, HeldBy(podId)) && id !in owned
                                          && store.rows[id].cancelRequested)
  {
    var mine := store.ListByPod(podId);
    all := cancel;
    var i := 0;
    while i < |mine|
      invariant 0 <= i <= |mine|
      invariant forall id :: id in all <==> id in cancel || (id in IdsOf(mine[..i]) && id in store.rows && id !in owned
                                              && store.rows[id].cancelRequested)
    {
      assert mine[..i + 1][..i] == mine[..i];
      MembersAt(store.rows, mine);
      if mine[i].id !in owned && mine[i].cancelRequested { all := all + {mine[i].id}; }
      i := i + 1;
    }
    assert mine[..|mine|] == mine;
  }

  /** The claim loop ran over `window` and handed out `assign`. */
  ghost predicate Handed(mid: Db, at: Db, pod: Pod, slots: nat, expiresAt: int, now: int, assign: seq<Assignment>, window: seq<Job>) {
    && (slots == 0 ==> assign == [])
    && (slots > 0 ==> QueueWindow(mid.rows, WINDOW, window) && Names(assign, Picked(window, pod.model, slots)))
    && Claimable(mid, assign)
    && at == ApplyAll(mid, ClaimOps(assign, pod.podId, expiresAt, now))
  }

  /** What a poll decides before it may have to wait. */
  ghost predicate PollDecided(was: Db, mid: Db, at: Db, pod: Pod, reports: seq<Report>, expiresAt: int, now: int,
                              orphan: seq<JobId>, cancel: set<JobId>, slots: nat, assign: seq<Assignment>, window: seq<Job>) {
    && mid == ApplyAll(was, RenewOps(reports, expiresAt))
    && orphan == Orphans(was, reports)
    && cancel == CancelNotices(was, reports, pod.podId)
    && slots == FreeSlots(pod, |StillOwned(was, reports)|)
    && Handed(mid, at, pod, slots, expiresAt, now, assign, window)
  }

  /** What a poll decides, from the table as it finds it: the cancels it passes on, the slots it offers, and
      which jobs of the window it hands out, in which order. */
  lemma {:induction false} PollMeans(was: Db, mid: Db, at: Db, pod: Pod, reports: seq<Report>, expiresAt: int, now: int,
                                     orphan: seq<JobId>, cancel: set<JobId>, slots: nat, assign: seq<Assignment>, window: seq<Job>)
    requires PollDecided(was, mid, at, pod, reports, expiresAt, now, orphan, cancel, slots, assign, window)
    ensures forall id :: id in cancel <==>
      (id in was.rows && was.rows[id].state == InProgress && was.rows[id].cancelRequested
       && (was.rows[id].podId == Some(pod.podId)
           || exists i :: 0 <= i < |reports| && reports[i].jobId == Some(id) && was.rows[id].leaseId == reports[i].leaseId
                          && reports[i].leaseId.Some?))
    ensures exists owned: set<JobId> ::
      (forall id :: id in owned <==>
         exists i :: 0 <= i < |reports| && reports[i].jobId == Some(id) && reports[i].leaseId.Some?
                     && id in was.rows && was.rows[id].state == InProgress && was.rows[id].leaseId == reports[i].leaseId)
      && slots == if pod.draining || !pod.ready || pod.maxInFlight <= |owned| then 0 else pod.maxInFlight - |owned|
    ensures slots == 0 ==> assign == []
    ensures slots > 0 ==>
      (var matches := |set k | 0 <= k < |window| && Some(window[k].model) == pod.model|;
       |assign| == if matches < slots then matches else slots)
    ensures slots > 0 ==> forall j :: 0 <= j < |window| && Some(window[j].model) == pod.model ==>
      (var n := |set k | 0 <= k < j && Some(window[k].model) == pod.model|;
       n < slots ==> n < |assign| && assign[n].jobId == window[j].id)
  {
    hide Apply, ApplyAll, QueueWindow, Claimable, Names, Picked, Orphans, StillOwned;
    forall id ensures id in cancel <==>
      (id in was.rows && was.rows[id].state == InProgress && was.rows[id].cancelRequested
       && (was.rows[id].podId == Some(pod.podId)
           || exists i :: 0 <= i < |reports| && reports[i].jobId == Some(id) && was.rows[id].leaseId == reports[i].leaseId
                          && reports[i].leaseId.Some?)) {
      StillOwnedAre(was, reports, id);
    }
    forall id ensures id in StillOwned(was, reports) <==>
      exists i :: 0 <= i < |reports| && reports[i].jobId == Some(id) && reports[i].leaseId.Some?
                  && id in was.rows && was.rows[id].state == InProgress && was.rows[id].leaseId == reports[i].leaseId {
      StillOwnedAre(was, reports, id);
    }
    if slots > 0 { HandedOutAre(assign, window, pod.model, slots); }
  }

  predicate ShouldPark(assign: seq<Assignment>, slots: nat, pod: Pod) {
    assign == [] && slots > 0 && !pod.draining
  }

  function Min(a: int, b: int): int { if a < b then a else b }

  function Max(a: int, b: int): int { if a > b then a else b }

  lemma {:induction false} CancelsAre(was: Db, mid: Db, reports: seq<Report>, expiresAt: int, pod: PodId, cancel: set<JobId>)
    requires mid == ApplyAll(was, RenewOps(reports, expiresAt))
    requires forall id :: id in cancel <==> (id in OwnedCancels(was, reports)
               || (id in Matching(mid.rows, HeldBy(pod)) && id !in StillOwned(was, reports) && mid.rows[id].cancelRequested))
    ensures cancel == CancelNotices(was, reports, pod)
  {
    hide Apply, ApplyAll;
    RenewalsLand(was, reports, expiresAt, 1);
    OwnedInFlight(was, reports);
    forall id | id in was.rows ensures id in cancel <==> id in CancelNotices(was, reports, pod) {
      CancelFlagKept(was, mid, reports, expiresAt, id);
    }
    forall id | id in cancel ensures id in was.rows {}
  }

  /** `POST /v1/agent/poll` up to its await: renew, report, claim; park when there is nothing to do. */
  method Poll(store: JobStore, waiters: Waiters, pod: Pod, reports: seq<Report>, waitMs: Option<int>, maxPollWaitMs: int,
              shutdown: bool, leaseTtlMs: int, now: int)
    returns (orphan: seq<JobId>, cancel: set<JobId>, slots: nat, assign: seq<Assignment>, ticket: Option<nat>,
             ghost mid: Db, ghost window: seq<Job>)
    requires store.Valid() && waiters.Valid()
    modifies store, waiters
    ensures store.Valid() && waiters.Valid()
    ensures PollDecided(old(store.View()), mid, store.View(), pod, reports, now + leaseTtlMs, now,
                        orphan, cancel, slots, assign, window)
    ensures ticket.Some? <==> ShouldPark(assign, slots, pod)
    ensures ticket.Some? <==> assign == [] && slots > 0 && !pod.draining
    ensures ticket.Some? ==>
      (ticket.value in waiters.waiting <==>
         !shutdown && maxPollWaitMs > 0 && (waitMs.Some? ==> waitMs.value > 0))
    ensures ticket.None? ==> waiters.signals == old(waiters.signals)
    ensures ticket.None? ==> waiters.waiting == old(waiters.waiting) && waiters.outcome == old(waiters.outcome)
    ensures ticket.Some? ==>
      var w, closed := ticket.value, shutdown || Min(Max(if waitMs.Some? then waitMs.value else maxPollWaitMs, 0), maxPollWaitMs) <= 0;
      && w == old(waiters.next) && w !in old(waiters.waiting) && w !in old(waiters.outcome)
      && waiters.signals == old(waiters.signals) + [if closed then Refused(w) else Parked(w)]
      && waiters.waiting == (if closed then old(waiters.waiting) else old(waiters.waiting) + {w})
      && waiters.outcome == (if closed then old(waiters.outcome)[w := false] else old(waiters.outcome))
  {
    hide Apply, ApplyAll, QueueWindow, Claimable, Names, CancelNotices;
    ghost var was := store.View();
    var owned;
    orphan, cancel, owned := RenewReports(store, reports, now + leaseTtlMs);
    mid := store.View();
    cancel := AddForgottenCancels(store, pod.podId, owned, cancel);
    CancelsAre(was, mid, reports, now + leaseTtlMs, pod.podId, cancel);
    slots := FreeSlots(pod, |owned|);
    assign, window := ClaimForPod(store, pod, slots, leaseTtlMs, now);
    ticket := None;
    if |assign| == 0 && slots > 0 && !pod.draining {
      var requested := if waitMs.Some? then waitMs.value else maxPollWaitMs;
      var w := waiters.Wait(Min(Max(requested, 0), maxPollWaitMs), shutdown);
      ticket := Some(w);
    }
  }

  /** The poll after its await: claim again if it was woken, with the slots it parked with. */
  method ResumePoll(store: JobStore, pod: Pod, slots: nat, woken: bool, leaseTtlMs: int, now: int)
    returns (assign: seq<Assignment>, ghost window: seq<Job>)
    requires store.Valid()
    modifies store
    ensures store.Valid()
    ensures woken ==> Handed(old(store.View()), store.View(), pod, slots, now + leaseTtlMs, now, assign, window)
    ensures !woken ==> assign == [] && store.View() == old(store.View())
  {
    assign, window := [], [];
    if woken { assign, window := ClaimForPod(store, pod, slots, leaseTtlMs, now); }
  }

  // ------------------------------------------------------------ artifact upload

  datatype UploadReply = NotFound | StaleLease | BadName | TooLarge | Mismatch | Accepted(stored: Stored)

  /** The fence every job call passes through: 404, then 409 unless the lease is the row's. */
  predicate Fences(db: Db, id: JobId, lease: LeaseId) {
    id in db.rows && db.rows[id].leaseId == Some(lease)
  }

  function UploadName(filename: Option<string>): string {
    if filename.Some? then filename.value else OUTPUT
  }

  /** The answer given before a byte is read, if the upload is not let in. */
  function UploadRefusal(db: Db, id: JobId, lease: LeaseId, name: string, declared: Option<int>, maxBytes: nat): Option<UploadReply> {
    if id !in db.rows then Some(NotFound)
    else if !Fences(db, id, lease) then Some(StaleLease)
    else if !SafeFilename(name) then Some(BadName)
    else if declared.Some? && declared.value > maxBytes then Some(TooLarge)
    else None
  }

  /** The answer once the bytes are in place. */
  function UploadVerdict(stored: Stored, expected: Option<Digest>): UploadReply {
    if expected.Some? && expected.value != "" && expected.value != stored.sha256 then Mismatch else Accepted(stored)
  }

  /** The answer to an upload nothing interferes with. */
  function UploadAnswer(db: Db, id: JobId, lease: LeaseId, name: string, declared: Option<int>, expected: Option<Digest>,
                        bytes: Bytes, maxBytes: nat, hash: Bytes -> Digest): UploadReply {
    var refusal := UploadRefusal(db, id, lease, name, declared, maxBytes);
    if refusal.Some? then refusal.value
    else if |bytes| > maxBytes then TooLarge
    else UploadVerdict(Stored(|bytes|, hash(bytes)), expected)
  }

  function UploadNote(db: Db, id: JobId): Op {
    Note(id, UploadedEv(if id in db.rows then db.rows[id].podId else None))
  }

  /** Only an accepted upload leaves its bytes behind; a failed checksum takes the job's files with it. */
  function FilesAfter(had: map<(JobId, string), Bytes>, reply: UploadReply, id: JobId, name: string, bytes: Bytes)
    : map<(JobId, string), Bytes> {
    if reply.Accepted? then had[(id, name) := bytes] else if reply.Mismatch? then Without(had, id) else had
  }

  /** `POST .../artifact` up to its first await: the fence, the name, the declared size. */
  method BeginUpload(store: JobStore, id: JobId, lease: LeaseId, name: string, declared: Option<int>, maxBytes: nat)
    returns (refusal: Option<UploadReply>, pod: Option<PodId>)
    ensures refusal == UploadRefusal(store.View(), id, lease, name, declared, maxBytes)
    ensures refusal == Some(NotFound) <==> id !in store.rows
    ensures refusal == Some(StaleLease) <==> id in store.rows && store.rows[id].leaseId != Some(lease)
    ensures refusal == Some(BadName) <==> id in store.rows && store.rows[id].leaseId == Some(lease) && !SafeFilename(name)
    ensures refusal.None? <==> (id in store.rows && store.rows[id].leaseId == Some(lease) && SafeFilename(name)
                                && !(declared.Some? && declared.value > maxBytes))
    ensures refusal.None? || refusal == Some(NotFound) || refusal == Some(StaleLease) || refusal == Some(BadName) || refusal == Some(TooLarge)
    ensures refusal.None? ==> pod == store.rows[id].podId
  {
    hide SafeFilename;
    var job := store.Get(id);
    if job.None? { return Some(NotFound), None; }
    if job.value.leaseId != Some(lease) { return Some(StaleLease), None; }
    if !SafeFilename(name) { return Some(BadName), None; }
    if declared.Some? && declared.value > maxBytes { return Some(TooLarge), None; }
    return None, job.value.podId;
  }

  /** The rest of it, once the bytes are in place. The row is not read again. */
  method EndUpload(store: JobStore, artifacts: ArtifactStore, id: JobId, pod: Option<PodId>, stored: Stored, expected: Option<Digest>)
    returns (reply: UploadReply)
    requires store.Valid()
    modifies store`log, artifacts
    ensures store.Valid() && reply == UploadVerdict(stored, expected)
    ensures reply.Accepted? ==> artifacts.files == old(artifacts.files)
    ensures reply.Accepted? ==> store.log == old(store.log)[id := Trail(old(store.View()), id) + [UploadedEv(pod)]]
    ensures reply.Mismatch? ==> artifacts.files == Without(old(artifacts.files), id) && store.log == old(store.log)
    // The digest check itself.
    ensures reply == Accepted(stored) <==> expected.None? || expected.value == "" || expected.value == stored.sha256
    ensures reply == Mismatch <==> expected.Some? && expected.value != "" && expected.value != stored.sha256
    ensures reply == Mismatch ==>
      forall k :: k in artifacts.files <==> k in old(artifacts.files) && k.0 != id
    ensures forall k :: k in artifacts.files ==> k in old(artifacts.files) && artifacts.files[k] == old(artifacts.files)[k]
  {
    if expected.Some? && expected.value != "" && expected.value != stored.sha256 {
      artifacts.RemoveJob(id);
      return Mismatch;
    }
    store.AddEvent(id, UploadedEv(pod));
    reply := UploadReply.Accepted(stored);
  }

  /** The whole upload, when nothing interferes between its awaits. */
  method Upload(store: JobStore, artifacts: ArtifactStore, id: JobId, lease: LeaseId, filename: Option<string>,
                declared: Option<int>, expected: Option<Digest>, body: seq<Bytes>, maxBytes: nat, hash: Bytes -> Digest)
    returns (reply: UploadReply)
    requires store.Valid()
    modifies store, artifacts
    ensures store.Valid()
    ensures reply == UploadAnswer(old(store.View()), id, lease, UploadName(filename), declared, expected, Flatten(body), maxBytes, hash)
    ensures store.View() == if reply.Accepted? then Apply(old(store.View()), UploadNote(old(store.View()), id)) else old(store.View())
    ensures artifacts.files == FilesAfter(old(artifacts.files), reply, id, UploadName(filename), Flatten(body))
    // What is refused, and what each answer leaves behind.
    ensures reply == NotFound <==> id !in old(store.rows)
    ensures reply == StaleLease <==> id in old(store.rows) && old(store.rows)[id].leaseId != Some(lease)
    ensures var name, bytes := if filename.Some? then filename.value else "output.mp4", Flatten(body);
      var fenced := id in old(store.rows) && old(store.rows)[id].leaseId == Some(lease);
      var small := !(declared.Some? && declared.value > maxBytes) && |bytes| <= maxBytes;
      var intact := expected.None? || expected.value == "" || expected.value == hash(bytes);
      && (reply == BadName <==> fenced && !SafeFilename(name))
      && (reply == TooLarge <==> fenced && SafeFilename(name) && !small)
      && (reply == Mismatch <==> fenced && SafeFilename(name) && small && !intact)
      && (reply == Accepted(Stored(|bytes|, hash(bytes))) <==> fenced && SafeFilename(name) && small && intact)
      && (reply.Accepted? ==> artifacts.files == old(artifacts.files)[(id, name) := bytes]
                              && store.log == old(store.log)[id := Trail(old(store.View()), id) + [UploadedEv(old(store.rows)[id].podId)]])
    ensures reply == Mismatch ==>
      forall k :: k in artifacts.files <==> k in old(artifacts.files) && k.0 != id
    ensures !reply.Accepted? ==>
      store.View() == old(store.View())
      && (forall k :: k in artifacts.files ==> k in old(artifacts.files) && artifacts.files[k] == old(artifacts.files)[k])
    ensures !reply.Accepted? && !reply.Mismatch? ==> artifacts.files == old(artifacts.files)
    ensures store.rows == old(store.rows)
  {
    hide Apply, SafeFilename, Flatten;
    var name := UploadName(filename);
    var refusal, pod := BeginUpload(store, id, lease, name, declared, maxBytes);
    if refusal.Some? { return refusal.value; }
    ghost var had := artifacts.files;
    var stored := artifacts.WriteArtifact(id, name, body, maxBytes, hash);
    if stored.None? { return TooLarge; }
    NoteOnly(store.View(), id, UploadedEv(pod));
    reply := EndUpload(store, artifacts, id, pod, stored.value, expected);
    assert Without(had[(id, name) := Flatten(body)], id) == Without(had, id);
  }

  // ------------------------------------------------------------ terminal outcome

  datatype Outcome =
    | Succeeded(filename: Option<string>, bytes: Option<int>, sha256: Option<Digest>)
    | CancelAck
    | Broke(error: Option<string>, retryable: bool)

  datatype ResultReply = NoSuchJob | Stale | InvalidName | Settled(state: State)

  const UNSPECIFIED := "pod reported an unspecified failure"

  function NameOf(o: Outcome): string
    requires o.Succeeded?
  {
    if o.filename.Some? then o.filename.value else OUTPUT
  }

  /** The one statement a result issues, if the fence and the filename let it through. */
  function ResultOps(db: Db, id: JobId, lease: LeaseId, o: Outcome, m: nat, now: int): seq<Op> {
    if !Fences(db, id, lease) then []
    else match o
      case Succeeded(_, bytes, sha) =>
        if SafeFilename(NameOf(o)) then [Op.Complete(id, lease, [Artifact(NameOf(o), bytes, sha)], now)] else []
      case CancelAck => [Op.MarkCancelled(id, Some(lease), now)]
      case Broke(e, retryable) =>
        if retryable && db.rows[id].attempts < m then [Op.Requeue(id, Some(lease))]
        else [Op.Fail(id, Some(lease), if e.Some? then e.value else UNSPECIFIED, now)]
  }

  function ResultAnswer(db: Db, id: JobId, lease: LeaseId, o: Outcome, m: nat): ResultReply {
    if id !in db.rows then NoSuchJob
    else if !Fences(db, id, lease) then Stale
    else match o
      case Succeeded(_, _, _) =>
        if !SafeFilename(NameOf(o)) then InvalidName
        else if Current(db, id, lease) then Settled(Completed) else Stale
      case CancelAck => Settled(Cancelled)
      case Broke(_, retryable) =>
        if retryable && db.rows[id].attempts < m then Settled(Queued)
        else if Current(db, id, lease) then Settled(Failed) else Stale
  }

  /** `POST .../result`. */
  method Result(store: JobStore, waiters: Waiters, id: JobId, lease: LeaseId, o: Outcome, maxAttempts: nat, now: int)
    returns (reply: ResultReply)
    requires store.Valid() && waiters.Valid()
    modifies store, waiters
    ensures store.Valid() && waiters.Valid()
    ensures store.View() == ApplyAll(old(store.View()), ResultOps(old(store.View()), id, lease, o, maxAttempts, now))
    ensures reply == ResultAnswer(old(store.View()), id, lease, o, maxAttempts)
    ensures waiters.signals == old(waiters.signals) + if reply.Settled? then [Kicked] else []
    ensures reply.Settled? ==>
      waiters.waiting == {} && forall w :: w in old(waiters.waiting) ==> w in waiters.outcome && waiters.outcome[w]
    ensures !reply.Settled? ==> waiters.waiting == old(waiters.waiting) && waiters.outcome == old(waiters.outcome)
    // The decision itself, from the outcome's own fields.
    ensures id !in old(store.rows) ==> reply == NoSuchJob
    ensures id in old(store.rows) && old(store.rows)[id].leaseId != Some(lease) ==> reply == Stale
    ensures !(id in old(store.rows) && old(store.rows)[id].leaseId == Some(lease)) ==> store.View() == old(store.View())
    ensures store.rows.Keys == old(store.rows).Keys && forall k :: k in store.rows && k != id ==> store.rows[k] == old(store.rows)[k]
    ensures o.Broke? && id in old(store.rows) && old(store.rows)[id].state == InProgress && old(store.rows)[id].leaseId == Some(lease) ==>
      (var was := old(store.rows)[id];
       if o.retryable && was.attempts < maxAttempts then
         reply == Settled(Queued)
         && store.rows[id] == was.(state := Queued, podId := None, leaseId := None, leaseExpiresAt := None, progress := 0.0, upstreamId := None)
       else
         reply == Settled(Failed)
         && store.rows[id] == was.(state := Failed, finishedAt := Some(now), leaseId := None, leaseExpiresAt := None,
              error := Some(if o.error.Some? then o.error.value else "pod reported an unspecified failure")))
    ensures o.CancelAck? && id in old(store.rows) && old(store.rows)[id].state == InProgress && old(store.rows)[id].leaseId == Some(lease) ==>
      reply == Settled(Cancelled)
      && store.rows[id] == old(store.rows)[id].(state := Cancelled, finishedAt := Some(now), leaseId := None, leaseExpiresAt := None)
    ensures o.Succeeded? && id in old(store.rows) && old(store.rows)[id].state == InProgress && old(store.rows)[id].leaseId == Some(lease) ==>
      (var was, name := old(store.rows)[id], if o.filename.Some? then o.filename.value else "output.mp4";
       if SafeFilename(name) then
         reply == Settled(Completed)
         && store.rows[id] == was.(state := Completed, progress := 1.0, error := None, finishedAt := Some(now), leaseId := None,
              leaseExpiresAt := None, artifacts := [Artifact(name, o.bytes, o.sha256)])
       else reply == InvalidName && store.rows[id] == was)
  {
    hide Apply, SafeFilename;
    ghost var was := store.View();
    var job := store.Get(id);
    if job.None? { return NoSuchJob; }
    if job.value.leaseId != Some(lease) { return Stale; }
    var ok: bool;
    match o {
      case Succeeded(_, bytes, sha) =>
        if !SafeFilename(NameOf(o)) { return InvalidName; }
        ok := store.Complete(id, lease, [Artifact(NameOf(o), bytes, sha)], now);
        ApplyOne(was, Op.Complete(id, lease, [Artifact(NameOf(o), bytes, sha)], now));
        if !ok { return Stale; }
        waiters.Kick();
        reply := Settled(Completed);
      case CancelAck =>
        ok := store.MarkCancelled(id, Some(lease), now);
        ApplyOne(was, Op.MarkCancelled(id, Some(lease), now));
        waiters.Kick();
        reply := Settled(Cancelled);
      case Broke(e, retryable) =>
        var message := if e.Some? then e.value else UNSPECIFIED;
        if retryable && job.value.attempts < maxAttempts {
          ok := store.Requeue(id, Some(lease));
          ApplyOne(was, Op.Requeue(id, Some(lease)));
          waiters.Kick();
          reply := Settled(Queued);
        } else {
          ok := store.Fail(id, Some(lease), message, now);
          ApplyOne(was, Op.Fail(id, Some(lease), message, now));
          if !ok { return Stale; }
          waiters.Kick();
          reply := Settled(Failed);
        }
    }
  }

  /** A result is legal, and lands if and only if it carries the current lease; the status it answers
      is the status the row then has. Under any other lease no row changes. */
  lemma {:induction false} ResultIsFenced(db: Db, id: JobId, lease: LeaseId, o: Outcome, m: nat, now: int)
    requires id in db.rows ==> JobOk(db, id, m)
    ensures var db' := ApplyAll(db, ResultOps(db, id, lease, o, m, now));
      && LegalRun(db, ResultOps(db, id, lease, o, m, now), m)
      && (!Current(db, id, lease) ==> db' == db && !ResultAnswer(db, id, lease, o, m).Settled?)
      && (ResultAnswer(db, id, lease, o, m).Settled? ==>
            Current(db, id, lease) && id in db'.rows && db'.rows[id].state == ResultAnswer(db, id, lease, o, m).state
            && !Current(db', id, lease))
      && (forall k :: k in db.rows && k != id ==> k in db'.rows && db'.rows[k] == db.rows[k])
  {
    var ops := ResultOps(db, id, lease, o, m, now);
    if ops != [] {
      assert ops == [ops[0]] && Legal(db, ops[0], m);
      LegalOne(db, ops[0], m);
      ApplyOne(db, ops[0]);
    }
  }
}
