/** gateway/src/scheduler/reaper.ts: the periodic sweep for jobs no agent will ever finish. */
module Reaper {
  import opened Types
  import opened JobTable
  import opened TableInvariant
  import opened Store
  import opened RowBlocks
  import opened Parking

  const LOST := "pod lost during generation"
  const LATE := "job exceeded its deadline"

  datatype SweepResult = SweepResult(requeued: nat, failed: nat, cancelled: nat)

  function LeaseBlock(now: int, m: nat): Job -> seq<Op> {
    (j: Job) =>
      if j.attempts >= m then [Op.Fail(j.id, j.leaseId, LOST, now)]
      else [Op.Requeue(j.id, j.leaseId), Note(j.id, LeaseExpiredEv(j.podId))]
  }

  function DeadlineBlock(now: int): Job -> seq<Op> {
    (j: Job) => [Op.Fail(j.id, None, LATE, now), Note(j.id, DeadlineExceededEv(j.podId))]
  }

  function CancelBlock(now: int): Job -> seq<Op> {
    (j: Job) => [Op.MarkCancelled(j.id, None, now)]
  }

  /** Jobs of the list that have used all their attempts. */
  function Capped(s: seq<Job>, m: nat): nat {
    if s == [] then 0 else Capped(s[..|s| - 1], m) + if s[|s| - 1].attempts >= m then 1 else 0
  }

  ghost predicate LeasePass(db: Db, db': Db, s: seq<Job>, now: int, m: nat) {
    Lists(db.rows, ExpiredAt(now), s) && db' == ApplyAll(db, Blocks(s, LeaseBlock(now, m)))
  }

  ghost predicate DeadlinePass(db: Db, db': Db, s: seq<Job>, now: int) {
    Lists(db.rows, OverdueAt(now), s) && db' == ApplyAll(db, Blocks(s, DeadlineBlock(now)))
  }

  ghost predicate CancelPass(db: Db, db': Db, s: seq<Job>, now: int, before: int) {
    Lists(db.rows, StaleAt(before), s) && db' == ApplyAll(db, Blocks(s, CancelBlock(now)))
  }

  /** One sweep: three passes, each over a listing of what the one before left. */
  ghost predicate Swept(db: Db, db': Db, s1: seq<Job>, s2: seq<Job>, s3: seq<Job>, now: int, m: nat, grace: int) {
    var db1 := ApplyAll(db, Blocks(s1, LeaseBlock(now, m)));
    var db2 := ApplyAll(db1, Blocks(s2, DeadlineBlock(now)));
    LeasePass(db, db1, s1, now, m) && DeadlinePass(db1, db2, s2, now) && CancelPass(db2, db', s3, now, now - grace)
  }

  function ResultOf(s1: seq<Job>, s2: seq<Job>, s3: seq<Job>, m: nat): SweepResult
    requires Capped(s1, m) <= |s1|
  {
    SweepResult(|s1| - Capped(s1, m), Capped(s1, m) + |s2|, |s3|)
  }

  // ------------------------------------------------------------ listings and blocks

  lemma {:induction false} LeaseBlockFits(j: Job, now: int, m: nat)
    requires LeaseExpired(j, now)
    ensures AllLocal(LeaseBlock(now, m)(j), j.id) && RowLegalRun(j, LeaseBlock(now, m)(j), m)
    ensures RowRun(j, LeaseBlock(now, m)(j)) ==
      if j.attempts >= m then Updated(j, Op.Fail(j.id, j.leaseId, LOST, now)) else Updated(j, Op.Requeue(j.id, j.leaseId))
  {
    if j.attempts >= m {
      OneOp(j, Op.Fail(j.id, j.leaseId, LOST, now), m);
    } else {
      TwoOps(j, Op.Requeue(j.id, j.leaseId), Note(j.id, LeaseExpiredEv(j.podId)), m);
    }
  }

  lemma {:induction false} DeadlineBlockFits(j: Job, now: int, m: nat)
    requires IsOverdue(j, now)
    ensures AllLocal(DeadlineBlock(now)(j), j.id) && RowLegalRun(j, DeadlineBlock(now)(j), m)
    ensures RowRun(j, DeadlineBlock(now)(j)) == Updated(j, Op.Fail(j.id, None, LATE, now))
  {
    TwoOps(j, Op.Fail(j.id, None, LATE, now), Note(j.id, DeadlineExceededEv(j.podId)), m);
  }

  lemma {:induction false} CancelBlockFits(j: Job, now: int, before: int, m: nat)
    requires StaleCancel(j, before)
    ensures AllLocal(CancelBlock(now)(j), j.id) && RowLegalRun(j, CancelBlock(now)(j), m)
    ensures RowRun(j, CancelBlock(now)(j)) == Updated(j, Op.MarkCancelled(j.id, None, now))
  {
    OneOp(j, Op.MarkCancelled(j.id, None, now), m);
  }

  // ------------------------------------------------------------ what a sweep does to one row

  function AfterLeases(row: Job, now: int, m: nat): Job {
    if !LeaseExpired(row, now) then row
    else if row.attempts >= m then Updated(row, Op.Fail(row.id, row.leaseId, LOST, now))
    else Updated(row, Op.Requeue(row.id, row.leaseId))
  }

  function AfterDeadline(row: Job, now: int): Job {
    if IsOverdue(row, now) then Updated(row, Op.Fail(row.id, None, LATE, now)) else row
  }

  function AfterCancels(row: Job, now: int, before: int): Job {
    if StaleCancel(row, before) then Updated(row, Op.MarkCancelled(row.id, None, now)) else row
  }

  ghost predicate KeysOk(db: Db) {
    forall id :: id in db.rows ==> db.rows[id].id == id
  }

  lemma {:induction false} LeaseFits(db: Db, s: seq<Job>, now: int, m: nat)
    requires Members(db.rows, s) && IdsOf(s) <= Matching(db.rows, ExpiredAt(now))
    ensures Fits(s, LeaseBlock(now, m), m)
  {
    if s != [] {
      LeaseFits(db, s[..|s| - 1], now, m);
      assert s[|s| - 1].id in IdsOf(s);
      LeaseBlockFits(s[|s| - 1], now, m);
    }
  }

  lemma {:induction false} SameId(row: Job, now: int, m: nat)
    ensures AfterLeases(row, now, m).id == row.id
  {
  }

  lemma {:induction false} LeasePassRows(db: Db, db': Db, s: seq<Job>, now: int, m: nat)
    requires KeysOk(db) && LeasePass(db, db', s, now, m)
    ensures LegalRun(db, Blocks(s, LeaseBlock(now, m)), m)
    ensures db'.rows.Keys == db.rows.Keys && KeysOk(db')
    ensures forall id :: id in db.rows ==> db'.rows[id] == AfterLeases(db.rows[id], now, m)
  {
    hide Apply, ApplyAll, Blocks, Updated, RowRun, Fits, Members, IdsOf;
    LeaseFits(db, s, now, m);
    BlocksRun(db, s, LeaseBlock(now, m), m);
    forall id | id in db.rows ensures db'.rows[id] == AfterLeases(db.rows[id], now, m) && db'.rows[id].id == id {
      SameId(db.rows[id], now, m);
      if LeaseExpired(db.rows[id], now) { LeaseBlockFits(db.rows[id], now, m); }
    }
  }

  lemma {:induction false} DeadlineFits(db: Db, s: seq<Job>, now: int, m: nat)
    requires Members(db.rows, s) && IdsOf(s) <= Matching(db.rows, OverdueAt(now))
    ensures Fits(s, DeadlineBlock(now), m)
  {
    if s != [] {
      DeadlineFits(db, s[..|s| - 1], now, m);
      assert s[|s| - 1].id in IdsOf(s);
      DeadlineBlockFits(s[|s| - 1], now, m);
    }
  }

  lemma {:induction false} DeadlinePassRows(db: Db, db': Db, s: seq<Job>, now: int, m: nat)
    requires KeysOk(db) && DeadlinePass(db, db', s, now)
    ensures LegalRun(db, Blocks(s, DeadlineBlock(now)), m)
    ensures db'.rows.Keys == db.rows.Keys && KeysOk(db')
    ensures forall id :: id in db.rows ==> db'.rows[id] == AfterDeadline(db.rows[id], now)
  {
    hide Apply, ApplyAll, Blocks, RowRun, Fits, Members, IdsOf;
    DeadlineFits(db, s, now, m);
    BlocksRun(db, s, DeadlineBlock(now), m);
    forall id | id in db.rows ensures db'.rows[id] == AfterDeadline(db.rows[id], now) {
      if IsOverdue(db.rows[id], now) { DeadlineBlockFits(db.rows[id], now, m); }
    }
  }

  lemma {:induction false} CancelFits(db: Db, s: seq<Job>, now: int, before: int, m: nat)
    requires Members(db.rows, s) && IdsOf(s) <= Matching(db.rows, StaleAt(before))
    ensures Fits(s, CancelBlock(now), m)
  {
    if s != [] {
      CancelFits(db, s[..|s| - 1], now, before, m);
      assert s[|s| - 1].id in IdsOf(s);
      CancelBlockFits(s[|s| - 1], now, before, m);
    }
  }

  lemma {:induction false} CancelPassRows(db: Db, db': Db, s: seq<Job>, now: int, before: int, m: nat)
    requires KeysOk(db) && CancelPass(db, db', s, now, before)
    ensures LegalRun(db, Blocks(s, CancelBlock(now)), m)
    ensures db'.rows.Keys == db.rows.Keys && KeysOk(db')
    ensures forall id :: id in db.rows ==> db'.rows[id] == AfterCancels(db.rows[id], now, before)
  {
    hide Apply, ApplyAll, Blocks, RowRun, Fits, Members, IdsOf;
    CancelFits(db, s, now, before, m);
    BlocksRun(db, s, CancelBlock(now), m);
    forall id | id in db.rows ensures db'.rows[id] == AfterCancels(db.rows[id], now, before) {
      if StaleCancel(db.rows[id], before) { CancelBlockFits(db.rows[id], now, before, m); }
    }
  }

  function SweepOps(s1: seq<Job>, s2: seq<Job>, s3: seq<Job>, now: int, m: nat): seq<Op> {
    Blocks(s1, LeaseBlock(now, m)) + Blocks(s2, DeadlineBlock(now)) + Blocks(s3, CancelBlock(now))
  }

  /** A sweep is a legal run of statements. */
  lemma {:induction false} SweepLegal(db: Db, db': Db, s1: seq<Job>, s2: seq<Job>, s3: seq<Job>, now: int, m: nat, grace: int)
    requires KeysOk(db) && Swept(db, db', s1, s2, s3, now, m, grace)
    ensures LegalRun(db, SweepOps(s1, s2, s3, now, m), m)
    ensures db' == ApplyAll(db, SweepOps(s1, s2, s3, now, m))
  {
    hide Apply, ApplyAll, Blocks, Members, IdsOf, AfterLeases, AfterDeadline, AfterCancels, Legal;
    var o1, o2, o3 := Blocks(s1, LeaseBlock(now, m)), Blocks(s2, DeadlineBlock(now)), Blocks(s3, CancelBlock(now));
    var db1 := ApplyAll(db, o1);
    var db2 := ApplyAll(db1, o2);
    LeasePassRows(db, db1, s1, now, m);
    DeadlinePassRows(db1, db2, s2, now, m);
    CancelPassRows(db2, db', s3, now, now - grace, m);
    LegalConcat(db, o1, o2, m);
    ApplyAllConcat(db, o1, o2);
    LegalConcat(db, o1 + o2, o3, m);
    ApplyAllConcat(db, o1 + o2, o3);
  }

  predicate Tidy(row: Job, now: int, grace: int) {
    !LeaseExpired(row, now) && !IsOverdue(row, now) && !StaleCancel(row, now - grace)
  }

  /** What the three passes do to one row: it ends tidy, and no finished row comes back to life. */
  lemma {:induction false} RowTidied(row: Job, now: int, m: nat, grace: int)
    ensures var end := AfterCancels(AfterDeadline(AfterLeases(row, now, m), now), now, now - grace);
      && Tidy(end, now, grace)
      && (Live(end.state) ==> Live(row.state))
      && (Live(end.state) && !LeaseExpired(row, now) ==> end == row)
      && (row.deadlineAt < now ==> !Live(end.state))
      && end.id == row.id
  {
  }

  /** The three passes, row by row. */
  ghost predicate PassByPass(db: Db, db1: Db, db2: Db, db': Db, now: int, m: nat, grace: int) {
    && db1.rows.Keys == db.rows.Keys && db2.rows.Keys == db.rows.Keys && db'.rows.Keys == db.rows.Keys
    && (forall id :: id in db.rows ==> db1.rows[id] == AfterLeases(db.rows[id], now, m))
    && (forall id :: id in db.rows ==> db2.rows[id] == AfterDeadline(db1.rows[id], now))
    && (forall id :: id in db.rows ==> db'.rows[id] == AfterCancels(db2.rows[id], now, now - grace))
  }

  lemma {:induction false} SweptPasses(db: Db, db': Db, s1: seq<Job>, s2: seq<Job>, s3: seq<Job>, now: int, m: nat, grace: int)
    requires Swept(db, db', s1, s2, s3, now, m, grace)
    ensures var db1 := ApplyAll(db, Blocks(s1, LeaseBlock(now, m)));
      var db2 := ApplyAll(db1, Blocks(s2, DeadlineBlock(now)));
      && LeasePass(db, db1, s1, now, m) && DeadlinePass(db1, db2, s2, now) && CancelPass(db2, db', s3, now, now - grace)
      && Lists(db.rows, ExpiredAt(now), s1) && Lists(db1.rows, OverdueAt(now), s2)
      && Lists(db2.rows, StaleAt(now - grace), s3)
  {
    hide Apply, ApplyAll, Blocks, Lists;
  }

  lemma {:induction false} SweepPasses(db: Db, db': Db, s1: seq<Job>, s2: seq<Job>, s3: seq<Job>, now: int, m: nat, grace: int)
    requires KeysOk(db) && Swept(db, db', s1, s2, s3, now, m, grace)
    ensures var db1 := ApplyAll(db, Blocks(s1, LeaseBlock(now, m)));
      var db2 := ApplyAll(db1, Blocks(s2, DeadlineBlock(now)));
      && PassByPass(db, db1, db2, db', now, m, grace)
      && Lists(db.rows, ExpiredAt(now), s1) && Lists(db1.rows, OverdueAt(now), s2)
      && Lists(db2.rows, StaleAt(now - grace), s3)
  {
    hide Apply, ApplyAll, Blocks, Lists, Swept, LeasePass, DeadlinePass, CancelPass, AfterLeases, AfterDeadline, AfterCancels;
    var db1 := ApplyAll(db, Blocks(s1, LeaseBlock(now, m)));
    var db2 := ApplyAll(db1, Blocks(s2, DeadlineBlock(now)));
    SweptPasses(db, db', s1, s2, s3, now, m, grace);
    LeasePassRows(db, db1, s1, now, m);
    DeadlinePassRows(db1, db2, s2, now, m);
    CancelPassRows(db2, db', s3, now, now - grace, m);
  }

  lemma {:induction false} PassesTidy(db: Db, db1: Db, db2: Db, db': Db, now: int, m: nat, grace: int, id: JobId)
    requires PassByPass(db, db1, db2, db', now, m, grace) && id in db.rows
    ensures Tidy(db'.rows[id], now, grace)
    ensures db.rows[id].deadlineAt < now ==> !Live(db'.rows[id].state)
    ensures Live(db'.rows[id].state) && !LeaseExpired(db.rows[id], now) ==> db'.rows[id] == db.rows[id]
    ensures db'.rows[id].id == db.rows[id].id
  {
    RowTidied(db.rows[id], now, m, grace);
  }

  /** After a sweep no lease is expired, no live job is late and no cancel is older than the grace. */
  lemma {:induction false} SweepTidies(db: Db, db': Db, s1: seq<Job>, s2: seq<Job>, s3: seq<Job>, now: int, m: nat, grace: int)
    requires KeysOk(db) && Swept(db, db', s1, s2, s3, now, m, grace)
    ensures KeysOk(db') && db'.rows.Keys == db.rows.Keys
    ensures forall id :: id in db.rows ==> Tidy(db'.rows[id], now, grace)
    ensures forall id :: id in db.rows && db.rows[id].deadlineAt < now ==> !Live(db'.rows[id].state)
    ensures forall id :: id in db.rows && Live(db'.rows[id].state) && !LeaseExpired(db.rows[id], now) ==>
              db'.rows[id] == db.rows[id]
  {
    hide Apply, ApplyAll, Blocks, Members, IdsOf, Swept, Tidy;
    SweepPasses(db, db', s1, s2, s3, now, m, grace);
    var db1 := ApplyAll(db, Blocks(s1, LeaseBlock(now, m)));
    var db2 := ApplyAll(db1, Blocks(s2, DeadlineBlock(now)));
    forall id | id in db.rows
      ensures Tidy(db'.rows[id], now, grace) && db'.rows[id].id == id
      ensures db.rows[id].deadlineAt < now ==> !Live(db'.rows[id].state)
      ensures Live(db'.rows[id].state) && !LeaseExpired(db.rows[id], now) ==> db'.rows[id] == db.rows[id]
    {
      PassesTidy(db, db1, db2, db', now, m, grace, id);
    }
  }

  lemma {:induction false} Nothing(db: Db, p: Job -> bool, s: seq<Job>)
    requires Lists(db.rows, p, s) && forall id :: id in db.rows ==> !p(db.rows[id])
    ensures s == []
  {
    assert IdsOf(s) == {};
  }

  lemma {:induction false} NothingLeft(db: Db, db': Db, t1: seq<Job>, t2: seq<Job>, t3: seq<Job>, now: int, m: nat, grace: int)
    requires forall id :: id in db.rows ==> Tidy(db.rows[id], now, grace)
    requires Swept(db, db', t1, t2, t3, now, m, grace)
    ensures db' == db && t1 == [] && t2 == [] && t3 == []
  {
    Nothing(db, ExpiredAt(now), t1);
    Nothing(db, OverdueAt(now), t2);
    Nothing(db, StaleAt(now - grace), t3);
  }

  /** A second sweep at the same moment finds nothing to do. */
  lemma {:induction false} SweepTwice(db: Db, db': Db, db'': Db, s1: seq<Job>, s2: seq<Job>, s3: seq<Job>,
                                      t1: seq<Job>, t2: seq<Job>, t3: seq<Job>, now: int, m: nat, grace: int)
    requires KeysOk(db) && Swept(db, db', s1, s2, s3, now, m, grace)
    requires Swept(db', db'', t1, t2, t3, now, m, grace)
    ensures db'' == db' && t1 == [] && t2 == [] && t3 == []
    ensures ResultOf(t1, t2, t3, m) == SweepResult(0, 0, 0)
  {
    SweepTidies(db, db', s1, s2, s3, now, m, grace);
    NothingLeft(db', db'', t1, t2, t3, now, m, grace);
  }

  // ------------------------------------------------------------ conservation

  function LiveIds(db: Db): set<JobId> {
    set id | id in db.rows && Live(db.rows[id].state)
  }

  /** The listed jobs that have used all their attempts. */
  function CappedIds(s: seq<Job>, m: nat): set<JobId> {
    if s == [] then {}
    else CappedIds(s[..|s| - 1], m) + if s[|s| - 1].attempts >= m then {s[|s| - 1].id} else {}
  }

  lemma {:induction false} CountAll(db: Db, s: seq<Job>)
    requires Members(db.rows, s)
    ensures |IdsOf(s)| == |s|
  {
    if s != [] { CountAll(db, s[..|s| - 1]); }
  }

  lemma {:induction false} CountCapped(db: Db, s: seq<Job>, m: nat)
    requires Members(db.rows, s)
    ensures |CappedIds(s, m)| == Capped(s, m) <= |s| && CappedIds(s, m) <= IdsOf(s)
    ensures forall id :: id in CappedIds(s, m) <==> id in IdsOf(s) && id in db.rows && db.rows[id].attempts >= m
  {
    if s != [] { CountCapped(db, s[..|s| - 1], m); }
  }

  lemma {:induction false} CountIds(db: Db, s: seq<Job>, m: nat)
    requires Members(db.rows, s)
    ensures |IdsOf(s)| == |s| && |CappedIds(s, m)| == Capped(s, m) <= |s| && CappedIds(s, m) <= IdsOf(s)
    ensures forall id :: id in CappedIds(s, m) <==> id in IdsOf(s) && id in db.rows && db.rows[id].attempts >= m
  {
    hide Members, IdsOf, CappedIds;
    CountAll(db, s);
    CountCapped(db, s, m);
  }

  lemma {:induction false} RowLiveness(row: Job, now: int, m: nat, before: int)
    ensures Live(AfterLeases(row, now, m).state) <==> Live(row.state) && !(LeaseExpired(row, now) && row.attempts >= m)
    ensures Live(AfterDeadline(row, now).state) <==> Live(row.state) && !IsOverdue(row, now)
    ensures Live(AfterCancels(row, now, before).state) <==> Live(row.state) && !StaleCancel(row, before)
  {
  }

  lemma {:induction false} LiveAfterPasses(db: Db, db1: Db, db2: Db, db': Db, now: int, m: nat, grace: int)
    requires PassByPass(db, db1, db2, db', now, m, grace)
    ensures LiveIds(db1) == LiveIds(db) - set id | id in db.rows && LeaseExpired(db.rows[id], now) && db.rows[id].attempts >= m
    ensures LiveIds(db2) == LiveIds(db1) - Matching(db1.rows, OverdueAt(now))
    ensures LiveIds(db') == LiveIds(db2) - Matching(db2.rows, StaleAt(now - grace))
  {
    hide AfterLeases, AfterDeadline, AfterCancels;
    forall id | id in db.rows
      ensures Live(db1.rows[id].state) <==>
                Live(db.rows[id].state) && !(LeaseExpired(db.rows[id], now) && db.rows[id].attempts >= m)
      ensures Live(db2.rows[id].state) <==> Live(db1.rows[id].state) && !IsOverdue(db1.rows[id], now)
      ensures Live(db'.rows[id].state) <==> Live(db2.rows[id].state) && !StaleCancel(db2.rows[id], now - grace)
    {
      RowLiveness(db.rows[id], now, m, now - grace);
      RowLiveness(db1.rows[id], now, m, now - grace);
      RowLiveness(db2.rows[id], now, m, now - grace);
    }
  }

  lemma {:induction false} LateAre(db: Db, s: seq<Job>, now: int)
    requires Lists(db.rows, OverdueAt(now), s)
    ensures IdsOf(s) == Matching(db.rows, OverdueAt(now)) <= LiveIds(db) && |IdsOf(s)| == |s|
  {
    CountIds(db, s, 0);
  }

  lemma {:induction false} StaleAre(db: Db, s: seq<Job>, before: int)
    requires Lists(db.rows, StaleAt(before), s)
    ensures IdsOf(s) == Matching(db.rows, StaleAt(before)) <= LiveIds(db) && |IdsOf(s)| == |s|
  {
    CountIds(db, s, 0);
  }

  lemma {:induction false} CappedAre(db: Db, s: seq<Job>, now: int, m: nat)
    requires Lists(db.rows, ExpiredAt(now), s)
    ensures CappedIds(s, m) == set id | id in db.rows && LeaseExpired(db.rows[id], now) && db.rows[id].attempts >= m
    ensures CappedIds(s, m) <= LiveIds(db)
    ensures |CappedIds(s, m)| == Capped(s, m) <= |s|
  {
    CountIds(db, s, m);
  }

  lemma {:induction false} LiveCounts(before: set<JobId>, after: set<JobId>, gone: set<JobId>)
    requires gone <= before && after == before - gone
    ensures |after| == |before| - |gone|
  {
  }

  /** Live jobs after a sweep are the live jobs before, less the failed, less the cancelled, although
      one job may be both requeued and failed in one sweep. */
  lemma {:induction false} SweepConserves(db: Db, db': Db, s1: seq<Job>, s2: seq<Job>, s3: seq<Job>, now: int, m: nat, grace: int)
    requires KeysOk(db) && Swept(db, db', s1, s2, s3, now, m, grace)
    ensures Capped(s1, m) <= |s1|
    ensures |LiveIds(db')| ==
      |LiveIds(db)| - ResultOf(s1, s2, s3, m).failed - ResultOf(s1, s2, s3, m).cancelled
  {
    hide Apply, ApplyAll, Blocks, Swept, PassByPass, Lists, Members, IdsOf, CappedIds, Capped, LiveIds, Matching,
         LeaseExpired, IsOverdue, StaleCancel;
    SweepPasses(db, db', s1, s2, s3, now, m, grace);
    var db1 := ApplyAll(db, Blocks(s1, LeaseBlock(now, m)));
    var db2 := ApplyAll(db1, Blocks(s2, DeadlineBlock(now)));
    LiveAfterPasses(db, db1, db2, db', now, m, grace);
    LateAre(db1, s2, now);
    StaleAre(db2, s3, now - grace);
    CappedAre(db, s1, now, m);
    LiveCounts(LiveIds(db), LiveIds(db1), CappedIds(s1, m));
    LiveCounts(LiveIds(db1), LiveIds(db2), IdsOf(s2));
    LiveCounts(LiveIds(db2), LiveIds(db'), IdsOf(s3));
  }

  // ------------------------------------------------------------ the whole decision

  /** What one sweep makes of one row, from the row's own fields. */
  lemma {:induction false} RowSwept(row: Job, now: int, m: nat, grace: int)
    ensures var end := AfterCancels(AfterDeadline(AfterLeases(row, now, m), now), now, now - grace);
      var expired := row.state == InProgress && row.leaseExpiresAt.Some? && row.leaseExpiresAt.value < now;
      var late := (row.state == Queued || row.state == InProgress) && row.deadlineAt < now;
      var stale := row.state == InProgress && row.cancelRequested
                   && row.cancelRequestedAt.Some? && row.cancelRequestedAt.value < now - grace;
      var back := row.(state := Queued, podId := None, leaseId := None, leaseExpiresAt := None, progress := 0.0, upstreamId := None);
      var over := if expired then back else row;
      end ==
        if expired && row.attempts >= m then
          row.(state := Failed, error := Some("pod lost during generation"), finishedAt := Some(now), leaseId := None, leaseExpiresAt := None)
        else if late then
          over.(state := Failed, error := Some("job exceeded its deadline"), finishedAt := Some(now), leaseId := None, leaseExpiresAt := None)
        else if expired then back
        else if stale then row.(state := Cancelled, finishedAt := Some(now), leaseId := None, leaseExpiresAt := None)
        else row
  {
  }

  /** Every row after a sweep. */
  lemma {:induction false} SweepDecides(db: Db, db': Db, s1: seq<Job>, s2: seq<Job>, s3: seq<Job>, now: int, m: nat, grace: int, id: JobId)
    requires KeysOk(db) && Swept(db, db', s1, s2, s3, now, m, grace) && id in db.rows
    ensures id in db'.rows
    ensures var row, end := db.rows[id], db'.rows[id];
      var expired := row.state == InProgress && row.leaseExpiresAt.Some? && row.leaseExpiresAt.value < now;
      var late := (row.state == Queued || row.state == InProgress) && row.deadlineAt < now;
      var stale := row.state == InProgress && row.cancelRequested
                   && row.cancelRequestedAt.Some? && row.cancelRequestedAt.value < now - grace;
      var back := row.(state := Queued, podId := None, leaseId := None, leaseExpiresAt := None, progress := 0.0, upstreamId := None);
      var over := if expired then back else row;
      end ==
        if expired && row.attempts >= m then
          row.(state := Failed, error := Some("pod lost during generation"), finishedAt := Some(now), leaseId := None, leaseExpiresAt := None)
        else if late then
          over.(state := Failed, error := Some("job exceeded its deadline"), finishedAt := Some(now), leaseId := None, leaseExpiresAt := None)
        else if expired then back
        else if stale then row.(state := Cancelled, finishedAt := Some(now), leaseId := None, leaseExpiresAt := None)
        else row
  {
    hide Apply, ApplyAll, Blocks, Swept, Lists, AfterLeases, AfterDeadline, AfterCancels;
    SweepPasses(db, db', s1, s2, s3, now, m, grace);
    RowSwept(db.rows[id], now, m, grace);
  }

  /** Which rows the second and the third pass find. */
  lemma {:induction false} RowReached(row: Job, now: int, m: nat, before: int)
    ensures IsOverdue(AfterLeases(row, now, m), now) <==>
      Live(row.state) && row.deadlineAt < now && !(LeaseExpired(row, now) && row.attempts >= m)
    ensures StaleCancel(AfterDeadline(AfterLeases(row, now, m), now), before) <==>
      StaleCancel(row, before) && !LeaseExpired(row, now) && !(row.deadlineAt < now)
  {
  }

  function Noted(expected: bool, row: Job, ops: seq<Op>): seq<Event> {
    if expected then RowTrail(row, ops) else []
  }

  lemma {:induction false} PassTrails(db: Db, db1: Db, db2: Db, db': Db, s1: seq<Job>, s2: seq<Job>, s3: seq<Job>, now: int, m: nat, grace: int,
                                      id: JobId)
    requires LeasePass(db, db1, s1, now, m) && DeadlinePass(db1, db2, s2, now) && CancelPass(db2, db', s3, now, now - grace)
    requires id in db.rows && id in db1.rows && id in db2.rows
    ensures Trail(db1, id) == Trail(db, id) + Noted(LeaseExpired(db.rows[id], now), db.rows[id], LeaseBlock(now, m)(db.rows[id]))
    ensures Trail(db2, id) == Trail(db1, id) + Noted(IsOverdue(db1.rows[id], now), db1.rows[id], DeadlineBlock(now)(db1.rows[id]))
    ensures Trail(db', id) == Trail(db2, id) + Noted(StaleCancel(db2.rows[id], now - grace), db2.rows[id], CancelBlock(now)(db2.rows[id]))
  {
    hide Apply, ApplyAll, Blocks, RowTrail, Fits, Members, IdsOf, Trail;
    LeaseFits(db, s1, now, m);
    DeadlineFits(db1, s2, now, m);
    CancelFits(db2, s3, now, now - grace, m);
    BlocksTrail(db, s1, LeaseBlock(now, m), m, id);
    BlocksTrail(db1, s2, DeadlineBlock(now), m, id);
    BlocksTrail(db2, s3, CancelBlock(now), m, id);
  }

  lemma {:induction false} RowTold(row: Job, row1: Job, row2: Job, now: int, m: nat, before: int)
    requires row1 == AfterLeases(row, now, m) && row2 == AfterDeadline(row1, now)
    ensures LeaseExpired(row, now) && row.leaseId.Some? ==>
      RowTrail(row, LeaseBlock(now, m)(row)) == if row.attempts >= m then [FailedEv] else [RequeuedEv, LeaseExpiredEv(row.podId)]
    ensures IsOverdue(row1, now) ==> RowTrail(row1, DeadlineBlock(now)(row1)) == [FailedEv, DeadlineExceededEv(row1.podId)]
    ensures StaleCancel(row2, before) ==> RowTrail(row2, CancelBlock(now)(row2)) == [CancelledEv]
  {
    hide RowTrail;
    if row.attempts >= m { OneTrail(row, Op.Fail(row.id, row.leaseId, LOST, now)); }
    else { TwoTrails(row, Op.Requeue(row.id, row.leaseId), Note(row.id, LeaseExpiredEv(row.podId))); }
    TwoTrails(row1, Op.Fail(row1.id, None, LATE, now), Note(row1.id, DeadlineExceededEv(row1.podId)));
    OneTrail(row2, Op.MarkCancelled(row2.id, None, now));
  }

  lemma {:induction false} RowWritten(row: Job, row1: Job, row2: Job, now: int, m: nat, before: int)
    requires row1 == AfterLeases(row, now, m) && row2 == AfterDeadline(row1, now) && (row.state == InProgress ==> row.leaseId.Some?)
    ensures var expired := row.state == InProgress && row.leaseExpiresAt.Some? && row.leaseExpiresAt.value < now;
      var late := (row.state == Queued || row.state == InProgress) && row.deadlineAt < now;
      var stale := row.state == InProgress && row.cancelRequested && row.cancelRequestedAt.Some? && row.cancelRequestedAt.value < before;
      Noted(LeaseExpired(row, now), row, LeaseBlock(now, m)(row)) + Noted(IsOverdue(row1, now), row1, DeadlineBlock(now)(row1))
        + Noted(StaleCancel(row2, before), row2, CancelBlock(now)(row2)) ==
        if expired && row.attempts >= m then [FailedEv]
        else if expired && late then [RequeuedEv, LeaseExpiredEv(row.podId), FailedEv, DeadlineExceededEv(None)]
        else if late then [FailedEv, DeadlineExceededEv(row.podId)]
        else if expired then [RequeuedEv, LeaseExpiredEv(row.podId)]
        else if stale then [CancelledEv]
        else []
  {
    hide RowTrail, LeaseBlock, DeadlineBlock, CancelBlock;
    RowTold(row, row1, row2, now, m, before);
    RowReached(row, now, m, before);
  }

  lemma {:induction false} Chain(t: seq<Event>, a: seq<Event>, b: seq<Event>, c: seq<Event>)
    ensures ((t + a) + b) + c == t + (a + b + c)
  {
  }

  /** What each pass finds of a row, and what it notes. */
  lemma {:induction false} FoundBy(db: Db, db': Db, s1: seq<Job>, s2: seq<Job>, s3: seq<Job>, now: int, m: nat, grace: int, id: JobId)
    returns (db1: Db, db2: Db)
    requires KeysOk(db) && Swept(db, db', s1, s2, s3, now, m, grace) && id in db.rows
    ensures id in db1.rows && db1.rows[id] == AfterLeases(db.rows[id], now, m)
    ensures id in db2.rows && db2.rows[id] == AfterDeadline(db1.rows[id], now)
    ensures Trail(db', id) == ((Trail(db, id) + Noted(LeaseExpired(db.rows[id], now), db.rows[id], LeaseBlock(now, m)(db.rows[id])))
      + Noted(IsOverdue(db1.rows[id], now), db1.rows[id], DeadlineBlock(now)(db1.rows[id])))
      + Noted(StaleCancel(db2.rows[id], now - grace), db2.rows[id], CancelBlock(now)(db2.rows[id]))
  {
    hide Apply, ApplyAll, Blocks, Swept, Lists, Noted, LeaseBlock, DeadlineBlock, CancelBlock, Trail, AfterLeases, AfterDeadline, AfterCancels,
      LeaseExpired, IsOverdue, StaleCancel;
    SweepPasses(db, db', s1, s2, s3, now, m, grace);
    SweptPasses(db, db', s1, s2, s3, now, m, grace);
    db1 := ApplyAll(db, Blocks(s1, LeaseBlock(now, m)));
    db2 := ApplyAll(db1, Blocks(s2, DeadlineBlock(now)));
    PassTrails(db, db1, db2, db', s1, s2, s3, now, m, grace, id);
  }

  /** What a sweep writes to the trail of a job. One that was requeued and failed in the same sweep has no
      pod any more when its deadline is noted. */
  lemma {:induction false} SweepTells(db: Db, db': Db, s1: seq<Job>, s2: seq<Job>, s3: seq<Job>, now: int, m: nat, grace: int, id: JobId)
    requires KeysOk(db) && Swept(db, db', s1, s2, s3, now, m, grace) && id in db.rows && (db.rows[id].state == InProgress ==> db.rows[id].leaseId.Some?)
    ensures var row := db.rows[id];
      var expired := row.state == InProgress && row.leaseExpiresAt.Some? && row.leaseExpiresAt.value < now;
      var late := (row.state == Queued || row.state == InProgress) && row.deadlineAt < now;
      var stale := row.state == InProgress && row.cancelRequested
                   && row.cancelRequestedAt.Some? && row.cancelRequestedAt.value < now - grace;
      Trail(db', id) == Trail(db, id) +
        if expired && row.attempts >= m then [FailedEv]
        else if expired && late then [RequeuedEv, LeaseExpiredEv(row.podId), FailedEv, DeadlineExceededEv(None)]
        else if late then [FailedEv, DeadlineExceededEv(row.podId)]
        else if expired then [RequeuedEv, LeaseExpiredEv(row.podId)]
        else if stale then [CancelledEv]
        else []
  {
    hide Apply, ApplyAll, Blocks, Swept, Lists, Noted, LeaseBlock, DeadlineBlock, CancelBlock, Trail, KeysOk;
    var db1, db2 := FoundBy(db, db', s1, s2, s3, now, m, grace, id);
    var e1 := Noted(LeaseExpired(db.rows[id], now), db.rows[id], LeaseBlock(now, m)(db.rows[id]));
    var e2 := Noted(IsOverdue(db1.rows[id], now), db1.rows[id], DeadlineBlock(now)(db1.rows[id]));
    var e3 := Noted(StaleCancel(db2.rows[id], now - grace), db2.rows[id], CancelBlock(now)(db2.rows[id]));
    hide LeaseExpired, IsOverdue, StaleCancel, AfterLeases, AfterDeadline;
    RowWritten(db.rows[id], db1.rows[id], db2.rows[id], now, m, now - grace);
    Chain(Trail(db, id), e1, e2, e3);
  }

  lemma {:induction false} SecondAndThird(db: Db, db1: Db, db2: Db, db': Db, now: int, m: nat, grace: int)
    requires PassByPass(db, db1, db2, db', now, m, grace)
    ensures Matching(db1.rows, OverdueAt(now)) == set id | id in db.rows && Live(db.rows[id].state) && db.rows[id].deadlineAt < now
                                                           && !(LeaseExpired(db.rows[id], now) && db.rows[id].attempts >= m)
    ensures Matching(db2.rows, StaleAt(now - grace)) == set id | id in db.rows && StaleCancel(db.rows[id], now - grace)
                                                                 && !LeaseExpired(db.rows[id], now) && !(db.rows[id].deadlineAt < now)
  {
    hide AfterLeases, AfterDeadline, AfterCancels, LeaseExpired, IsOverdue, StaleCancel;
    forall id | id in db.rows
      ensures IsOverdue(db1.rows[id], now) <==>
        Live(db.rows[id].state) && db.rows[id].deadlineAt < now && !(LeaseExpired(db.rows[id], now) && db.rows[id].attempts >= m)
      ensures StaleCancel(db2.rows[id], now - grace) <==>
        StaleCancel(db.rows[id], now - grace) && !LeaseExpired(db.rows[id], now) && !(db.rows[id].deadlineAt < now) {
      RowReached(db.rows[id], now, m, now - grace);
    }
  }

  lemma {:induction false} ExpiredAre(db: Db, s: seq<Job>, now: int)
    requires Lists(db.rows, ExpiredAt(now), s)
    ensures IdsOf(s) == Matching(db.rows, ExpiredAt(now)) && |IdsOf(s)| == |s|
  {
    CountIds(db, s, 0);
  }

  lemma {:induction false} CountedSets(db: Db, now: int, m: nat, grace: int)
    ensures var expired := set id | id in db.rows && db.rows[id].state == InProgress
                                    && db.rows[id].leaseExpiresAt.Some? && db.rows[id].leaseExpiresAt.value < now;
      var lost := set id | id in expired && id in db.rows && db.rows[id].attempts >= m;
      && Matching(db.rows, ExpiredAt(now)) == expired
      && (set id | id in db.rows && LeaseExpired(db.rows[id], now) && db.rows[id].attempts >= m) == lost
      && (set id | id in db.rows && Live(db.rows[id].state) && db.rows[id].deadlineAt < now
                   && !(LeaseExpired(db.rows[id], now) && db.rows[id].attempts >= m))
         == (set id | id in db.rows && (db.rows[id].state == Queued || db.rows[id].state == InProgress)
                      && db.rows[id].deadlineAt < now && id !in lost)
      && (set id | id in db.rows && StaleCancel(db.rows[id], now - grace) && !LeaseExpired(db.rows[id], now) && !(db.rows[id].deadlineAt < now))
         == (set id | id in db.rows && id !in expired && db.rows[id].state == InProgress && !(db.rows[id].deadlineAt < now)
                      && db.rows[id].cancelRequested
                      && db.rows[id].cancelRequestedAt.Some? && db.rows[id].cancelRequestedAt.value < now - grace)
  {
  }

  /** What the counters of a sweep count, from the rows it found. A job requeued by the first pass and failed
      by the second counts in both. */
  lemma {:induction false} SweepCounts(db: Db, db': Db, s1: seq<Job>, s2: seq<Job>, s3: seq<Job>, now: int, m: nat, grace: int)
    requires KeysOk(db) && Swept(db, db', s1, s2, s3, now, m, grace)
    ensures Capped(s1, m) <= |s1|
    ensures var r := ResultOf(s1, s2, s3, m);
      var expired := set id | id in db.rows && db.rows[id].state == InProgress
                              && db.rows[id].leaseExpiresAt.Some? && db.rows[id].leaseExpiresAt.value < now;
      var lost := set id | id in expired && id in db.rows && db.rows[id].attempts >= m;
      var late := set id | id in db.rows && (db.rows[id].state == Queued || db.rows[id].state == InProgress)
                           && db.rows[id].deadlineAt < now && id !in lost;
      var stale := set id | id in db.rows && id !in expired && db.rows[id].state == InProgress && !(db.rows[id].deadlineAt < now)
                            && db.rows[id].cancelRequested
                            && db.rows[id].cancelRequestedAt.Some? && db.rows[id].cancelRequestedAt.value < now - grace;
      r.requeued == |expired| - |lost| && r.failed == |lost| + |late| && r.cancelled == |stale|
  {
    hide Apply, ApplyAll, Blocks, Swept, PassByPass, Lists, Members, IdsOf, CappedIds, Capped;
    SweepPasses(db, db', s1, s2, s3, now, m, grace);
    var db1 := ApplyAll(db, Blocks(s1, LeaseBlock(now, m)));
    var db2 := ApplyAll(db1, Blocks(s2, DeadlineBlock(now)));
    SecondAndThird(db, db1, db2, db', now, m, grace);
    ExpiredAre(db, s1, now);
    LateAre(db1, s2, now);
    StaleAre(db2, s3, now - grace);
    CappedAre(db, s1, now, m);
    CountedSets(db, now, m, grace);
  }

  // ------------------------------------------------------------ the method

  /** One turn of the first loop; the compare-and-swap cannot lose, so the turn counts exactly once. */
  method EndLease(store: JobStore, job: Job, now: int, maxAttempts: nat) returns (requeued: nat, failed: nat)
    requires store.Valid() && job.id in store.rows && store.rows[job.id] == job && LeaseExpired(job, now)
    modifies store
    ensures store.Valid() && store.View() == ApplyAll(old(store.View()), LeaseBlock(now, maxAttempts)(job))
    ensures failed == (if job.attempts >= maxAttempts then 1 else 0) && requeued == 1 - failed
  {
    hide ApplyAll;
    ghost var at := store.View();
    requeued, failed := 0, 0;
    if job.attempts >= maxAttempts {
      var ok := store.Fail(job.id, job.leaseId, LOST, now);
      if ok { failed := 1; }
      ApplyOne(at, Op.Fail(job.id, job.leaseId, LOST, now));
    } else {
      var ok := store.Requeue(job.id, job.leaseId);
      if ok {
        requeued := 1;
        NoteOnly(store.View(), job.id, LeaseExpiredEv(job.podId));
        store.AddEvent(job.id, LeaseExpiredEv(job.podId));
      }
      ApplyTwo(at, Op.Requeue(job.id, job.leaseId), Note(job.id, LeaseExpiredEv(job.podId)));
    }
  }

  lemma {:induction false} NoBlocksYet(db: Db, s: seq<Job>, f: Job -> seq<Op>)
    ensures s[..0] == [] && s[..|s|] == s && ApplyAll(db, Blocks(s[..0], f)) == db
  {
  }

  /** When the loop reaches a job, the statements before it have left its row alone; and the next
      block extends the run. */
  lemma {:induction false} Untouched(db: Db, s: seq<Job>, i: nat, f: Job -> seq<Op>, m: nat)
    requires Members(db.rows, s) && Fits(s, f, m) && i < |s|
    ensures var mid := ApplyAll(db, Blocks(s[..i], f));
      && s[i].id in mid.rows && mid.rows[s[i].id] == s[i] && s[i].id in IdsOf(s)
      && ApplyAll(db, Blocks(s[..i + 1], f)) == ApplyAll(mid, f(s[i]))
    ensures s[i].id in db.rows && db.rows[s[i].id] == s[i]
    decreases |s|
  {
    var n := |s| - 1;
    if i < n {
      assert s[..n][..i] == s[..i] && s[..n][..i + 1] == s[..i + 1];
      Untouched(db, s[..n], i, f, m);
    } else {
      assert s[..i + 1] == s && s[..i + 1][..i] == s[..i];
      BlocksRun(db, s[..n], f, m);
      ApplyAllConcat(db, Blocks(s[..n], f), f(s[n]));
      assert s[n].id in IdsOf(s);
    }
  }

  method SweepLeases(store: JobStore, now: int, maxAttempts: nat) returns (requeued: nat, failed: nat, ghost s: seq<Job>)
    requires store.Valid()
    modifies store
    ensures store.Valid() && LeasePass(old(store.View()), store.View(), s, now, maxAttempts)
    ensures failed == Capped(s, maxAttempts) && requeued + failed == |s|
  {
    hide ApplyAll, Blocks, Fits, IdsOf;
    ghost var was, f := store.View(), LeaseBlock(now, maxAttempts);
    var jobs := store.ExpiredLeases(now);
    s := jobs;
    requeued, failed := 0, 0;
    NoBlocksYet(was, jobs, f);
    LeaseFits(was, s, now, maxAttempts);
    var i := 0;
    while i < |jobs|
      invariant 0 <= i <= |jobs| && store.Valid()
      invariant store.View() == ApplyAll(was, Blocks(jobs[..i], f))
      invariant failed == Capped(jobs[..i], maxAttempts) && requeued + failed == i
    {
      var job := jobs[i];
      assert jobs[..i + 1][..i] == jobs[..i];
      Untouched(was, jobs, i, f, maxAttempts);
      var r, n := EndLease(store, job, now, maxAttempts);
      requeued, failed := requeued + r, failed + n;
      i := i + 1;
    }
  }

  method SweepDeadlines(store: JobStore, now: int, ghost m: nat) returns (failed: nat, ghost s: seq<Job>)
    requires store.Valid()
    modifies store
    ensures store.Valid() && DeadlinePass(old(store.View()), store.View(), s, now)
    ensures failed == |s|
  {
    hide ApplyAll, Blocks, Fits, IdsOf;
    ghost var was, f := store.View(), DeadlineBlock(now);
    var jobs := store.Overdue(now);
    s := jobs;
    failed := 0;
    NoBlocksYet(was, jobs, f);
    DeadlineFits(was, s, now, m);
    var i := 0;
    while i < |jobs|
      invariant 0 <= i <= |jobs| && store.Valid()
      invariant store.View() == ApplyAll(was, Blocks(jobs[..i], f))
      invariant failed == i
    {
      var job := jobs[i];
      assert jobs[..i + 1][..i] == jobs[..i];
      Untouched(was, jobs, i, f, m);
      ghost var at := store.View();
      var ok := store.Fail(job.id, None, LATE, now);
      assert ok;
      if ok {
        failed := failed + 1;
        NoteOnly(store.View(), job.id, DeadlineExceededEv(job.podId));
        store.AddEvent(job.id, DeadlineExceededEv(job.podId));
      }
      ApplyTwo(at, Op.Fail(job.id, None, LATE, now), Note(job.id, DeadlineExceededEv(job.podId)));
      i := i + 1;
    }
  }

  method SweepCancels(store: JobStore, now: int, before: int, ghost m: nat) returns (cancelled: nat, ghost s: seq<Job>)
    requires store.Valid()
    modifies store
    ensures store.Valid() && CancelPass(old(store.View()), store.View(), s, now, before)
    ensures cancelled == |s|
  {
    hide ApplyAll, Blocks, Fits, IdsOf;
    ghost var was, f := store.View(), CancelBlock(now);
    var jobs := store.StaleCancels(before);
    s := jobs;
    cancelled := 0;
    NoBlocksYet(was, jobs, f);
    CancelFits(was, s, now, before, m);
    var i := 0;
    while i < |jobs|
      invariant 0 <= i <= |jobs| && store.Valid()
      invariant store.View() == ApplyAll(was, Blocks(jobs[..i], f))
      invariant cancelled == i
    {
      var job := jobs[i];
      assert jobs[..i + 1][..i] == jobs[..i];
      Untouched(was, jobs, i, f, m);
      ghost var at := store.View();
      var ok := store.MarkCancelled(job.id, None, now);
      assert ok;
      if ok { cancelled := cancelled + 1; }
      ApplyOne(at, Op.MarkCancelled(job.id, None, now));
      i := i + 1;
    }
  }

  /** `sweep`: leases, then deadlines, then unacknowledged cancels; parked polls are woken when a job
      went back to the queue. */
  method Sweep(store: JobStore, waiters: Waiters, now: int, maxAttempts: nat, cancelGraceMs: int)
    returns (result: SweepResult, ghost s1: seq<Job>, ghost s2: seq<Job>, ghost s3: seq<Job>)
    requires store.Valid() && waiters.Valid()
    modifies store, waiters
    ensures store.Valid() && waiters.Valid()
    ensures Swept(old(store.View()), store.View(), s1, s2, s3, now, maxAttempts, cancelGraceMs)
    ensures Capped(s1, maxAttempts) <= |s1| && result == ResultOf(s1, s2, s3, maxAttempts)
    ensures result.requeued > 0 ==>
      waiters.waiting == {} && forall w :: w in old(waiters.waiting) ==> w in waiters.outcome && waiters.outcome[w]
    ensures waiters.signals == old(waiters.signals) + if result.requeued > 0 then [Kicked] else []
  {
    var requeued, failed, late, cancelled;
    requeued, failed, s1 := SweepLeases(store, now, maxAttempts);
    late, s2 := SweepDeadlines(store, now, maxAttempts);
    cancelled, s3 := SweepCancels(store, now, now - cancelGraceMs, maxAttempts);
    if requeued > 0 { waiters.Kick(); }
    result := SweepResult(requeued, failed + late, cancelled);
  }
}
