/** Every step of the protocol is a legal run of statements, so all that History and Epochs prove of
    such runs holds of the protocol. */
module Runs {
  import opened Types
  import opened JobTable
  import opened TableInvariant
  import opened Store
  import opened Claims
  import opened AgentRoutes
  import opened VideoRoutes
  import opened Reaper
  import opened Uploads
  import opened Protocol

  /** What a cleanup pass has listed or begun to remove is long finished. */
  ghost predicate Outdated(c: Config, db: Db, clock: int, ids: set<JobId>) {
    forall id :: id in ids ==> id in db.made && (id in db.rows ==> FinishedBefore(db.rows[id], clock - c.artifactTtlMs))
  }

  ghost predicate Base(c: Config, s: Sys) {
    && c.maxAttempts >= 1
    && Inv(s.db, c.maxAttempts)
    && LegalRun(EMPTY, s.hist, c.maxAttempts) && s.db == ApplyAll(EMPTY, s.hist)
    && Outdated(c, s.db, s.clock, s.disk.listed) && Outdated(c, s.db, s.clock, s.disk.removing)
  }

  lemma {:induction false} NoteLegal(db: Db, id: JobId, pod: Option<PodId>, m: nat)
    requires Inv(db, m) && id in db.rows
    ensures LegalRun(db, [Note(id, UploadedEv(pod))], m)
  {
    LegalOne(db, Note(id, UploadedEv(pod)), m);
  }

  lemma {:induction false} PollLegal(c: Config, s: Sys, k: nat, n: nat, model: Option<ModelId>, assign: seq<Assignment>, window: seq<Job>)
    requires PollGuard(c, s, k, n, model, assign, window)
    ensures LegalRun(s.db, Heartbeat(c, s, n) + Claiming(c, s, s.fleet.reqs[n].pod, assign), c.maxAttempts)
  {
    hide Apply, ApplyAll, QueueWindow, Names, Legal, Renewed, Landed;
    var pod, mid := s.fleet.reqs[n].pod, ApplyAll(s.db, Heartbeat(c, s, n));
    RenewalsLand(s.db, s.fleet.reqs[n].reports, s.clock + c.leaseTtlMs, c.maxAttempts);
    ClaimsLand(mid, assign, pod, s.clock + c.leaseTtlMs, s.clock, c.maxAttempts);
    LegalConcat(s.db, Heartbeat(c, s, n), Claiming(c, s, pod, assign), c.maxAttempts);
  }

  lemma {:induction false} KeysFit(db: Db, m: nat)
    requires Inv(db, m)
    ensures KeysOk(db)
  {
    forall id | id in db.rows ensures db.rows[id].id == id { assert JobOk(db, id, m); }
  }

  lemma {:induction false} RowIsOk(db: Db, id: JobId, m: nat)
    requires Inv(db, m) && id in db.rows
    ensures JobOk(db, id, m) && RowOk(id, db.rows[id], m)
  {
    assert JobOk(db, id, m);
  }

  lemma {:induction false} ResumeLegal(c: Config, s: Sys, k: nat, assign: seq<Assignment>, window: seq<Job>)
    requires ResumeGuard(c, s, k, assign, window)
    ensures LegalRun(s.db, Claiming(c, s, s.desk.polls[k].pod.podId, assign), c.maxAttempts)
  {
    hide Apply, ApplyAll, QueueWindow, Names, Legal, Landed;
    ClaimsLand(s.db, assign, s.desk.polls[k].pod.podId, s.clock + c.leaseTtlMs, s.clock, c.maxAttempts);
  }

  lemma {:induction false} LegalNone(db: Db, m: nat)
    ensures LegalRun(db, [], m)
  {
  }

  lemma {:induction false} DeleteLegal(db: Db, id: JobId, now: int, m: nat)
    requires Inv(db, m)
    ensures LegalRun(db, DeleteOps(db, id, now), m)
  {
    if id in db.rows {
      RowIsOk(db, id, m);
      DeleteMarks(db, id, now, m);
    }
  }

  lemma {:induction false} ResultLegal(db: Db, id: JobId, l: LeaseId, o: Outcome, now: int, m: nat)
    requires Inv(db, m)
    ensures LegalRun(db, ResultOps(db, id, l, o, m, now), m)
  {
    hide ResultOps, ResultAnswer, Apply, ApplyAll, LegalRun, OneOwner;
    assert id in db.rows ==> JobOk(db, id, m);
    ResultIsFenced(db, id, l, o, m, now);
  }

  lemma {:induction false} ClearLegal(c: Config, s: Sys, id: JobId)
    requires Inv(s.db, c.maxAttempts) && Outdated(c, s.db, s.clock, s.disk.listed) && id in s.disk.listed
    ensures LegalRun(s.db, [SetArtifacts(id, [])], c.maxAttempts)
  {
    hide OneOwner;
    assert id in s.db.rows ==> JobOk(s.db, id, c.maxAttempts) && RowOk(id, s.db.rows[id], c.maxAttempts) by {
      if id in s.db.rows { RowIsOk(s.db, id, c.maxAttempts); }
    }
    LegalOne(s.db, SetArtifacts(id, []), c.maxAttempts);
  }

  lemma {:induction false} WideLegal(c: Config, s: Sys, t: Step)
    requires Inv(s.db, c.maxAttempts) && Guard(c, s, t) && (t.Poll? || t.Resume? || t.Sweep?)
    ensures LegalRun(s.db, Ops(c, s, t), c.maxAttempts)
  {
    hide Apply, ApplyAll, QueueWindow, Names, Handed, Swept, Inv, LegalRun;
    var m := c.maxAttempts;
    match t {
      case Poll(k, n, model, assign, window, _) => PollLegal(c, s, k, n, model, assign, window);
      case Resume(k, assign, window) => ResumeLegal(c, s, k, assign, window);
      case Sweep(s1, s2, s3) =>
        KeysFit(s.db, m);
        SweepLegal(s.db, ApplyAll(s.db, SweepOps(s1, s2, s3, s.clock, m)), s1, s2, s3, s.clock, m, c.cancelGraceMs);
    }
  }

  lemma {:induction false} StepLegal(c: Config, s: Sys, t: Step)
    requires Inv(s.db, c.maxAttempts) && Outdated(c, s.db, s.clock, s.disk.listed) && Guard(c, s, t)
    ensures LegalRun(s.db, Ops(c, s, t), c.maxAttempts)
  {
    hide Apply, ApplyAll, PollGuard, ResumeGuard, Swept, Inv, Outdated, LegalRun, ResultOps, DeleteOps;
    var m := c.maxAttempts;
    match t {
      case Create(job) => LegalOne(s.db, Op.Create(job), m);
      case Delete(id) => DeleteLegal(s.db, id, s.clock, m);
      case Poll(_, _, _, _, _, _) => WideLegal(c, s, t);
      case Resume(_, _, _) => WideLegal(c, s, t);
      case Sweep(_, _, _) => WideLegal(c, s, t);
      case EndUpload(u) =>
        var x := s.disk.streams[u];
        if x.job in s.db.rows { NoteLegal(s.db, x.job, x.pod, m); } else { LegalNone(s.db, m); }
      case Result(l) =>
        var x := s.fleet.tasks[l];
        ResultLegal(s.db, x.job, l, x.outcome.value, s.clock, m);
      case Restart => LegalOne(s.db, Recover(s.clock, RestartGrace(c)), m);
      case ClearMedia(id) => ClearLegal(c, s, id);
      case PurgeOld(started) => LegalOne(s.db, Purge(started - c.jobRetentionMs), m);
      case _ => LegalNone(s.db, m);
    }
  }

  /** What a finished row still shows later is what it showed before. */
  lemma {:induction false} StayOutdated(c: Config, db: Db, db': Db, clock: int, clock': int, ids: set<JobId>)
    requires Inv(db, c.maxAttempts) && Evolves(db, db', c.maxAttempts) && Outdated(c, db, clock, ids) && clock <= clock'
    ensures Outdated(c, db', clock', ids)
  {
    hide OneOwner, Rank;
    forall id | id in ids
      ensures id in db'.made && (id in db'.rows ==> FinishedBefore(db'.rows[id], clock' - c.artifactTtlMs)) {
      assert JobEvolves(db, db', id, c.maxAttempts);
      if id in db'.rows {
        RowIsOk(db, id, c.maxAttempts);
      }
    }
  }

  lemma {:induction false} ClockRises(c: Config, s: Sys, t: Step)
    requires Guard(c, s, t)
    ensures s.clock <= Next(c, s, t).clock
  {
    hide PollGuard, ResumeGuard, Swept, Ops, DeskAfter, DiskAfter, FleetAfter;
  }

  lemma {:induction false} CanMoveDisk(c: Config, s: Sys, t: Step)
    requires Guard(c, s, t)
    ensures t.Upload? ==> t.lease in s.fleet.tasks && s.fleet.tasks[t.lease].media.Some?
    ensures CanMove(s.disk, MoveOf(c, s, t))
  {
    hide PollGuard, ResumeGuard, Swept, Honest, UploadRefusal;
  }

  /** What a cleanup pass keeps in mind. */
  lemma {:induction false} DiskHistories(c: Config, s: Sys, t: Step)
    requires Guard(c, s, t)
    ensures Next(c, s, t).disk.listed ==
      if t.Restart? then {} else if t.ListExpired? then s.disk.listed + Matching(s.db.rows, FinishedAt(s.clock - c.artifactTtlMs))
      else s.disk.listed
    ensures Next(c, s, t).disk.removing ==
      if t.RemoveMedia? then s.disk.removing + {t.id} else if t.ClearMedia? then s.disk.removing - {t.id} else s.disk.removing
  {
    hide PollGuard, ResumeGuard, Swept, Ops, DeskAfter, FleetAfter, MoveOf, Moved, CanMove;
    CanMoveDisk(c, s, t);
    Histories(s.disk, MoveOf(c, s, t));
  }

  /** What a pass newly lists is old enough now; what it newly removes was listed. */
  lemma {:induction false} ListedAfter(c: Config, s: Sys, t: Step)
    requires Inv(s.db, c.maxAttempts) && Guard(c, s, t)
    requires Outdated(c, Next(c, s, t).db, Next(c, s, t).clock, s.disk.listed)
    requires Outdated(c, Next(c, s, t).db, Next(c, s, t).clock, s.disk.removing)
    ensures Outdated(c, Next(c, s, t).db, Next(c, s, t).clock, Next(c, s, t).disk.listed)
    ensures Outdated(c, Next(c, s, t).db, Next(c, s, t).clock, Next(c, s, t).disk.removing)
  {
    hide PollGuard, ResumeGuard, Swept, DeskAfter, FleetAfter, OneOwner, RowOk, Apply, MoveOf, Moved, CanMove;
    DiskHistories(c, s, t);
    if t.ListExpired? {
      assert Next(c, s, t).db == s.db;
      forall id | id in Matching(s.db.rows, FinishedAt(s.clock - c.artifactTtlMs)) ensures id in s.db.made {
        assert JobOk(s.db, id, c.maxAttempts);
      }
    }
  }

  lemma {:induction false} BaseStep(c: Config, s: Sys, t: Step)
    requires Base(c, s) && Guard(c, s, t)
    ensures Base(c, Next(c, s, t))
    ensures Evolves(s.db, Next(c, s, t).db, c.maxAttempts)
    ensures s.clock <= Next(c, s, t).clock
  {
    hide Guard, Ops, Apply, ApplyAll, Inv, Evolves, LegalRun, DeskAfter, FleetAfter, Outdated;
    var m, s' := c.maxAttempts, Next(c, s, t);
    StepLegal(c, s, t);
    Run(s.db, Ops(c, s, t), m);
    LegalConcat(EMPTY, s.hist, Ops(c, s, t), m);
    ApplyAllConcat(EMPTY, s.hist, Ops(c, s, t));
    ClockRises(c, s, t);
    StayOutdated(c, s.db, s'.db, s.clock, s'.clock, s.disk.listed);
    StayOutdated(c, s.db, s'.db, s.clock, s'.clock, s.disk.removing);
    ListedAfter(c, s, t);
  }

  lemma {:induction false} StartBase(c: Config)
    requires c.maxAttempts >= 1
    ensures Base(c, START)
  {
    EmptyInv(c.maxAttempts);
  }

  // ------------------------------------------------------------ several steps

  /** These steps, one after another, lead from `s` to `s'`. */
  ghost predicate Walks(c: Config, s: Sys, ts: seq<Step>, s': Sys)
    decreases |ts|
  {
    if ts == [] then s' == s else Guard(c, s, ts[0]) && Walks(c, Next(c, s, ts[0]), ts[1..], s')
  }

  lemma {:induction false} WalksOn(c: Config, s: Sys, a: seq<Step>, mid: Sys, b: seq<Step>, s': Sys)
    requires Walks(c, s, a, mid) && Walks(c, mid, b, s')
    ensures Walks(c, s, a + b, s')
    decreases |a|
  {
    hide Guard, Next;
    if a == [] {
      assert a + b == b;
    } else {
      assert (a + b)[1..] == a[1..] + b;
      WalksOn(c, Next(c, s, a[0]), a[1..], mid, b, s');
    }
  }

  lemma {:induction false} WalksOne(c: Config, s: Sys, t: Step)
    requires Guard(c, s, t)
    ensures Walks(c, s, [t], Next(c, s, t))
  {
    hide Guard, Next;
    assert [t][1..] == [];
    assert Walks(c, Next(c, s, t), [], Next(c, s, t));
  }

  lemma {:induction false} TwoSteps(c: Config, s: Sys, a: Step, b: Step)
    requires Guard(c, s, a) && Guard(c, Next(c, s, a), b)
    ensures Walks(c, s, [a, b], Next(c, Next(c, s, a), b))
  {
    hide Guard, Next;
    assert [a, b][1..] == [b];
    WalksOne(c, Next(c, s, a), b);
  }
}
