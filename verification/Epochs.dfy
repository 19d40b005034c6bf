/** The simple story the lease protocol refines: a job lives through single-owner epochs, and only
    the owner of the last one can finish it. */
module Epochs {
  import opened Types
  import opened JobTable
  import opened Replay
  import opened TableInvariant

  datatype Epoch = Epoch(pod: PodId, lease: LeaseId)

  datatype Phase = Waiting | Running | Done(how: State)

  datatype Life = Life(epochs: seq<Epoch>, phase: Phase)

  /** One step of the simple story, as seen from one job. */
  datatype Action =
    | Stutter
    | Born
    | Open(epoch: Epoch)
    | Close
    | FinishedBy(lease: LeaseId, how: State)
    | Stopped(how: State)
    | Forgotten

  /** `used` are the leases of every epoch of every job so far. */
  predicate Acts(before: Option<Life>, a: Action, after: Option<Life>, used: set<LeaseId>) {
    match a
    case Stutter => after == before
    case Born => before.None? && after == Some(Life([], Waiting))
    case Open(e) =>
      before.Some? && before.value.phase.Waiting? && e.lease !in used
      && after == Some(Life(before.value.epochs + [e], Running))
    case Close =>
      before.Some? && before.value.phase.Running? && after == Some(Life(before.value.epochs, Waiting))
    case FinishedBy(l, how) =>
      before.Some? && before.value.phase.Running? && before.value.epochs != []
      && before.value.epochs[|before.value.epochs| - 1].lease == l
      && !Live(how) && after == Some(Life(before.value.epochs, Done(how)))
    case Stopped(how) =>
      before.Some? && !before.value.phase.Done? && (how.Failed? || how.Cancelled?)
      && after == Some(Life(before.value.epochs, Done(how)))
    case Forgotten =>
      before.Some? && before.value.phase.Done? && after.None?
  }

  function EpochsOf(trail: seq<Event>): seq<Epoch> {
    if trail == [] then []
    else
      var n := |trail| - 1;
      EpochsOf(trail[..n]) + if trail[n].AssignedEv? then [Epoch(trail[n].pod, trail[n].lease)] else []
  }

  function PhaseOf(s: State): Phase {
    if s.Queued? then Waiting else if s.InProgress? then Running else Done(s)
  }

  /** The job as the simple story sees it: its epochs are read off the event trail. */
  function LifeOf(db: Db, id: JobId): Option<Life> {
    if id in db.rows && id in db.log then Some(Life(EpochsOf(db.log[id]), PhaseOf(db.rows[id].state))) else None
  }

  function RowAction(op: Op): Action {
    match op
    case Create(_) => Born
    case Claim(_, p, l, _, _) => Open(Epoch(p, l))
    case Complete(_, l, _, _) => FinishedBy(l, Completed)
    case Fail(_, l, _, _) => if l.Some? then FinishedBy(l.value, Failed) else Stopped(Failed)
    case Requeue(_, _) => Close
    case CancelQueued(_, _) => Stopped(Cancelled)
    case MarkCancelled(_, l, _) => if l.Some? then FinishedBy(l.value, Cancelled) else Stopped(Cancelled)
    case Renew(_, _, _, _, _) => Stutter
    case RequestCancel(_, _) => Stutter
    case SetArtifacts(_, _) => Stutter
    case Note(_, _) => Stutter
    case Recover(_, _) => Stutter
    case Purge(_) => Stutter
  }

  /** Which step of the simple story a statement takes for job `id`. */
  function ActionOf(db: Db, op: Op, id: JobId): Action {
    if op.Purge? then
      if id in db.rows && FinishedBefore(db.rows[id], op.before) then Forgotten else Stutter
    else if op.Recover? || id != Target(op) || !Enabled(db, op) then Stutter
    else RowAction(op)
  }

  lemma {:induction false} EpochsConcat(t: seq<Event>, e: Event)
    ensures EpochsOf(t + [e]) == EpochsOf(t) + if e.AssignedEv? then [Epoch(e.pod, e.lease)] else []
  {
    assert (t + [e])[..|t|] == t;
  }

  /** The trail's last epoch is the row's owner, and there is one epoch per attempt. */
  lemma {:induction false} OwnerIsLastEpoch(trail: seq<Event>)
    requires Replayed(trail).At?
    ensures var s := Replayed(trail).shape;
      && |EpochsOf(trail)| == s.attempts
      && (s.lease.Some? ==> s.pod.Some? && EpochsOf(trail) != [])
      && (s.lease.Some? ==> EpochsOf(trail)[|EpochsOf(trail)| - 1] == Epoch(s.pod.value, s.lease.value))
      && (s.state.InProgress? <==> s.lease.Some?)
  {
    var n := |trail| - 1;
    if Replayed(trail[..n]).At? {
      OwnerIsLastEpoch(trail[..n]);
    } else {
      assert n == 0;
    }
  }

  ghost predicate LeaseAt(db: Db, id: JobId, i: int, l: LeaseId) {
    id in db.log && 0 <= i < |EpochsOf(db.log[id])| && EpochsOf(db.log[id])[i].lease == l
  }

  /** Every epoch of every job has its own lease, and all of them were handed out by the gateway. */
  ghost predicate EpochInv(db: Db) {
    && (forall id, i, l :: LeaseAt(db, id, i, l) ==> l in db.issued)
    && (forall a, i, b, j, l :: LeaseAt(db, a, i, l) && LeaseAt(db, b, j, l) ==> a == b && i == j)
  }

  /** What a statement writes to the trail of job `id`: at most one event. */
  function Written(db: Db, op: Op, id: JobId): (w: seq<Event>)
    ensures |w| <= 1
  {
    if op.Recover? then
      if id in db.rows && db.rows[id].state.InProgress? then [RecoveredEv(db.rows[id].podId)] else []
    else if op.Purge? || id != Target(op) || !Enabled(db, op) then []
    else if op.Create? then [CreatedEv]
    else Logged(op)
  }

  lemma {:induction false} TrailAfter(db: Db, op: Op, id: JobId, m: nat)
    requires id in db.rows || id in db.log ==> JobOk(db, id, m)
    requires id in Apply(db, op).log
    ensures Apply(db, op).log[id] == Trail(db, id) + Written(db, op, id)
  {
  }

  /** An informational event never reads as an assignment. */
  lemma {:induction false} NoForgedClaim(db: Db, op: Op, m: nat)
    requires Legal(db, op, m) && op.Note?
    ensures !op.event.AssignedEv?
  {
  }

  /** Statements other than a winning claim leave every epoch list as it was. */
  lemma {:induction false} EpochsAfter(db: Db, op: Op, id: JobId, m: nat)
    requires id in db.rows || id in db.log ==> JobOk(db, id, m)
    requires Legal(db, op, m)
    requires id in Apply(db, op).log
    ensures EpochsOf(Apply(db, op).log[id]) ==
        if op.Claim? && id == op.id && Enabled(db, op)
        then EpochsOf(Trail(db, id)) + [Epoch(op.pod, op.minted)] else EpochsOf(Trail(db, id))
  {
    TrailAfter(db, op, id, m);
    var t, w := Trail(db, id), Written(db, op, id);
    if w == [] {
      assert t + w == t;
    } else {
      assert w == [w[0]];
      EpochsConcat(t, w[0]);
      if w[0].AssignedEv? && !op.Claim? { NoForgedClaim(db, op, m); }
    }
  }

  lemma {:induction false} LeaseAtAfter(db: Db, op: Op, id: JobId, i: int, l: LeaseId, m: nat)
    requires id in db.rows || id in db.log ==> JobOk(db, id, m)
    requires Legal(db, op, m)
    requires LeaseAt(Apply(db, op), id, i, l)
    ensures LeaseAt(db, id, i, l)
         || (op.Claim? && Enabled(db, op) && id == op.id && l == op.minted
             && id in db.log && i == |EpochsOf(db.log[id])|)
  {
    EpochsAfter(db, op, id, m);
    assert id in db.rows ==> JobOk(db, id, m);
  }

  lemma {:induction false} EpochStep(db: Db, op: Op, m: nat)
    requires Inv(db, m) && Legal(db, op, m) && EpochInv(db)
    ensures EpochInv(Apply(db, op))
  {
    var db' := Apply(db, op);
    forall id, i, l | LeaseAt(db', id, i, l) ensures l in db'.issued {
      LeaseAtAfter(db, op, id, i, l, m);
    }
    forall a, i, b, j, l | LeaseAt(db', a, i, l) && LeaseAt(db', b, j, l) ensures a == b && i == j {
      LeaseAtAfter(db, op, a, i, l, m);
      LeaseAtAfter(db, op, b, j, l, m);
    }
  }

  lemma {:induction false} LifeAfterHit(db: Db, op: Op, m: nat)
    requires Inv(db, m) && Legal(db, op, m)
    requires Targeted(op) && !op.Create? && Enabled(db, op)
    ensures LifeOf(Apply(db, op), op.id) ==
      Some(Life(if op.Claim? then EpochsOf(db.log[op.id]) + [Epoch(op.pod, op.minted)] else EpochsOf(db.log[op.id]),
                PhaseOf(Updated(db.rows[op.id], op).state)))
  {
    assert JobOk(db, op.id, m);
    EpochsAfter(db, op, op.id, m);
  }

  lemma {:induction false} RowActs(row: Job, op: Op, was: seq<Epoch>, next: seq<Epoch>, used: set<LeaseId>)
    requires Matches(row, op)
    requires row.state.InProgress? ==> row.leaseId.Some? && was != [] && was[|was| - 1].lease == row.leaseId.value
    requires next == if op.Claim? then was + [Epoch(op.pod, op.minted)] else was
    requires op.Claim? ==> op.minted !in used
    requires op.Note? ==> !op.event.AssignedEv?
    requires op.SetArtifacts? ==> !Live(row.state)
    ensures Acts(Some(Life(was, PhaseOf(row.state))), RowAction(op), Some(Life(next, PhaseOf(Updated(row, op).state))), used)
  {
  }

  lemma {:induction false} RefinesHit(db: Db, op: Op, after: Option<Life>, m: nat)
    requires Targeted(op) && !op.Create? && Enabled(db, op) && Legal(db, op, m) && JobOk(db, op.id, m)
    requires var was := EpochsOf(db.log[op.id]);
      after == Some(Life(if op.Claim? then was + [Epoch(op.pod, op.minted)] else was,
                         PhaseOf(Updated(db.rows[op.id], op).state)))
    ensures Acts(LifeOf(db, op.id), ActionOf(db, op, op.id), after, db.issued)
  {
    var id, row, was := op.id, db.rows[op.id], EpochsOf(db.log[op.id]);
    OwnerIsLastEpoch(db.log[id]);
    if op.Note? { NoForgedClaim(db, op, m); }
    RowActs(row, op, was, after.value.epochs, db.issued);
  }

  lemma {:induction false} RefinesCreate(db: Db, j: NewJob, m: nat)
    requires Inv(db, m) && j.id !in db.made && 1 <= m
    ensures Acts(LifeOf(db, j.id), ActionOf(db, Create(j), j.id), LifeOf(Apply(db, Create(j)), j.id), db.issued)
  {
    assert j.id in db.rows ==> JobOk(db, j.id, m);
    EpochsAfter(db, Create(j), j.id, m);
  }

  lemma {:induction false} RefinesOther(db: Db, op: Op, id: JobId, m: nat)
    requires id in db.rows || id in db.log ==> JobOk(db, id, m)
    requires Legal(db, op, m)
    requires Targeted(op) ==> id != Target(op) || !Enabled(db, op)
    ensures Acts(LifeOf(db, id), ActionOf(db, op, id), LifeOf(Apply(db, op), id), db.issued)
  {
    var db' := Apply(db, op);
    if id in db.rows { assert JobOk(db, id, m); }
    assert id in db'.rows ==> id in db.rows && db'.rows[id].state == db.rows[id].state;
    assert id in db'.log <==> id in db'.rows;
    if id in db'.log { EpochsAfter(db, op, id, m); }
  }

  /** Refinement: every legal statement is, for every job, one step of the simple story. In
      particular a statement under a lease finishes a job only if that lease is its last epoch's. */
  lemma {:induction false} Refines(db: Db, op: Op, id: JobId, m: nat)
    requires Inv(db, m) && Legal(db, op, m) && EpochInv(db) && 1 <= m
    ensures Acts(LifeOf(db, id), ActionOf(db, op, id), LifeOf(Apply(db, op), id), db.issued)
  {
    if Targeted(op) && !op.Create? && id == op.id && Enabled(db, op) {
      assert JobOk(db, id, m);
      LifeAfterHit(db, op, m);
      RefinesHit(db, op, LifeOf(Apply(db, op), id), m);
    } else if op.Create? && id == op.job.id {
      RefinesCreate(db, op.job, m);
    } else {
      RefinesOther(db, op, id, m);
    }
  }

  lemma {:induction false} RunEpochs(ops: seq<Op>, m: nat)
    requires LegalRun(EMPTY, ops, m) && 1 <= m
    ensures EpochInv(ApplyAll(EMPTY, ops))
  {
    if ops != [] {
      var n := |ops| - 1;
      RunEpochs(ops[..n], m);
      EmptyInv(m);
      Run(EMPTY, ops[..n], m);
      EpochStep(ApplyAll(EMPTY, ops[..n]), ops[n], m);
    }
  }

  /** The refinement holds at every statement of every legal run from the empty store. */
  lemma {:induction false} RunRefines(ops: seq<Op>, i: nat, id: JobId, m: nat)
    requires LegalRun(EMPTY, ops, m) && 1 <= m && i < |ops|
    ensures var db := ApplyAll(EMPTY, ops[..i]);
      && ApplyAll(EMPTY, ops[..i + 1]) == Apply(db, ops[i])
      && EpochInv(db)
      && Acts(LifeOf(db, id), ActionOf(db, ops[i], id), LifeOf(Apply(db, ops[i]), id), db.issued)
  {
    if i == |ops| - 1 {
      assert ops[..i + 1] == ops;
      EmptyInv(m);
      Run(EMPTY, ops[..i], m);
      RunEpochs(ops[..i], m);
      Refines(ApplyAll(EMPTY, ops[..i]), ops[i], id, m);
    } else {
      var n := |ops| - 1;
      assert ops[..n][..i] == ops[..i] && ops[..n][..i + 1] == ops[..i + 1] && ops[..n][i] == ops[i];
      RunRefines(ops[..n], i, id, m);
    }
  }
}
