/** Statements issued row by row over a query result: each row gets its own block of statements,
    so the blocks cannot disturb one another. */
module RowBlocks {
  import opened Types
  import opened JobTable
  import opened TableInvariant
  import opened Store

  /** A statement on an existing row that hands out no lease. */
  predicate Local(op: Op, id: JobId) {
    Targeted(op) && !op.Create? && !op.Claim? && op.id == id
  }

  predicate AllLocal(ops: seq<Op>, id: JobId) {
    ops == [] || (AllLocal(ops[..|ops| - 1], id) && Local(ops[|ops| - 1], id))
  }

  /** One row under a block of statements. */
  function RowRun(row: Job, ops: seq<Op>): Job {
    if ops == [] then row
    else
      var r := RowRun(row, ops[..|ops| - 1]);
      if Matches(r, ops[|ops| - 1]) then Updated(r, ops[|ops| - 1]) else r
  }

  predicate RowLegal(row: Job, op: Op, m: nat) {
    match op
    case Renew(_, _, _, p, _) => p.Some? ==> 0.0 <= p.value <= 1.0
    case Requeue(_, _) => Matches(row, op) ==> row.attempts < m
    case SetArtifacts(_, a) => a == [] && !Live(row.state)
    case Note(_, e) => NoteFits(row, e)
    case Create(_) => false
    case Claim(_, _, _, _, _) => false
    case Complete(_, _, _, _) => true
    case Fail(_, _, _, _) => true
    case CancelQueued(_, _) => true
    case RequestCancel(_, _) => true
    case MarkCancelled(_, _, _) => true
    case Recover(_, _) => false
    case Purge(_) => false
  }

  predicate RowLegalRun(row: Job, ops: seq<Op>, m: nat) {
    ops == [] ||
    (RowLegalRun(row, ops[..|ops| - 1], m) && RowLegal(RowRun(row, ops[..|ops| - 1]), ops[|ops| - 1], m))
  }

  /** The tables differ at most in row `id`, which is now `row`. */
  ghost predicate OnlyRow(db: Db, db': Db, id: JobId, row: Job) {
    && db'.rows == db.rows[id := row]
    && db'.issued == db.issued && db'.made == db.made
  }

  lemma {:induction false} BlockStep(db: Db, mid: Db, id: JobId, row: Job, op: Op)
    requires OnlyRow(db, mid, id, row) && Local(op, id)
    ensures OnlyRow(db, Apply(mid, op), id, if Matches(row, op) then Updated(row, op) else row)
  {
  }

  lemma {:induction false} BlockRun(db: Db, id: JobId, ops: seq<Op>, m: nat)
    requires id in db.rows && AllLocal(ops, id) && RowLegalRun(db.rows[id], ops, m)
    ensures LegalRun(db, ops, m)
    ensures OnlyRow(db, ApplyAll(db, ops), id, RowRun(db.rows[id], ops))
  {
    if ops == [] {
      assert db.rows == db.rows[id := db.rows[id]];
    } else {
      var n := |ops| - 1;
      BlockRun(db, id, ops[..n], m);
      BlockStep(db, ApplyAll(db, ops[..n]), id, RowRun(db.rows[id], ops[..n]), ops[n]);
    }
  }

  function Blocks(s: seq<Job>, f: Job -> seq<Op>): seq<Op> {
    if s == [] then [] else Blocks(s[..|s| - 1], f) + f(s[|s| - 1])
  }

  /** Each listed row has a legal block of its own. */
  predicate Fits(s: seq<Job>, f: Job -> seq<Op>, m: nat) {
    s == [] ||
    (var j := s[|s| - 1];
     Fits(s[..|s| - 1], f, m) && AllLocal(f(j), j.id) && RowLegalRun(j, f(j), m))
  }

  /** The table after the blocks of `s`: each listed row got its block, every other row is as it was. */
  ghost predicate After(db: Db, db': Db, s: seq<Job>, f: Job -> seq<Op>) {
    && db'.rows.Keys == db.rows.Keys && db'.issued == db.issued && db'.made == db.made
    && (forall id :: id in db.rows ==>
          db'.rows[id] == if id in IdsOf(s) then RowRun(db.rows[id], f(db.rows[id])) else db.rows[id])
  }

  lemma {:induction false} BlocksRun(db: Db, s: seq<Job>, f: Job -> seq<Op>, m: nat)
    requires Members(db.rows, s) && Fits(s, f, m)
    ensures LegalRun(db, Blocks(s, f), m)
    ensures After(db, ApplyAll(db, Blocks(s, f)), s, f)
  {
    if s != [] {
      var n := |s| - 1;
      var was, ops := Blocks(s[..n], f), f(s[n]);
      BlocksRun(db, s[..n], f, m);
      var mid := ApplyAll(db, was);
      BlockRun(mid, s[n].id, ops, m);
      LegalConcat(db, was, ops, m);
      ApplyAllConcat(db, was, ops);
    }
  }

  function StepRow(row: Job, op: Op): Job {
    if Matches(row, op) then Updated(row, op) else row
  }

  /** What a block writes to the trail of its row. */
  function RowTrail(row: Job, ops: seq<Op>): seq<Event> {
    if ops == [] then []
    else
      var n := |ops| - 1;
      RowTrail(row, ops[..n]) + if Matches(RowRun(row, ops[..n]), ops[n]) then Logged(ops[n]) else []
  }

  lemma {:induction false} TrailStep(db: Db, op: Op, id: JobId, k: JobId)
    requires Local(op, id) && id in db.rows
    ensures Trail(Apply(db, op), k) == Trail(db, k) + if k == id && Matches(db.rows[id], op) then Logged(op) else []
  {
  }

  lemma {:induction false} BlockTrail(db: Db, id: JobId, ops: seq<Op>, m: nat, k: JobId)
    requires id in db.rows && AllLocal(ops, id) && RowLegalRun(db.rows[id], ops, m)
    ensures Trail(ApplyAll(db, ops), k) == Trail(db, k) + if k == id then RowTrail(db.rows[id], ops) else []
  {
    if ops != [] {
      var n := |ops| - 1;
      hide Apply, Trail;
      BlockTrail(db, id, ops[..n], m, k);
      BlockRun(db, id, ops[..n], m);
      TrailStep(ApplyAll(db, ops[..n]), ops[n], id, k);
    }
  }

  lemma {:induction false} BlocksTrail(db: Db, s: seq<Job>, f: Job -> seq<Op>, m: nat, k: JobId)
    requires Members(db.rows, s) && Fits(s, f, m) && k in db.rows
    ensures Trail(ApplyAll(db, Blocks(s, f)), k) == Trail(db, k) + if k in IdsOf(s) then RowTrail(db.rows[k], f(db.rows[k])) else []
  {
    if s != [] {
      hide Trail, RowTrail, Apply;
      var n := |s| - 1;
      var was, ops := Blocks(s[..n], f), f(s[n]);
      BlocksTrail(db, s[..n], f, m, k);
      BlocksRun(db, s[..n], f, m);
      BlockTrail(ApplyAll(db, was), s[n].id, ops, m, k);
      ApplyAllConcat(db, was, ops);
    }
  }

  lemma {:induction false} OneTrail(row: Job, op: Op)
    ensures RowTrail(row, [op]) == if Matches(row, op) then Logged(op) else []
  {
    assert [op][..0] == [] && RowRun(row, []) == row && RowTrail(row, []) == [];
  }

  lemma {:induction false} TwoTrails(row: Job, a: Op, b: Op)
    ensures RowTrail(row, [a, b]) ==
      (if Matches(row, a) then Logged(a) else []) + if Matches(StepRow(row, a), b) then Logged(b) else []
  {
    assert [a, b][..1] == [a] && [a][..0] == [] && RowRun(row, []) == row;
    OneTrail(row, a);
  }

  lemma {:induction false} OneOp(row: Job, op: Op, m: nat)
    requires Local(op, row.id) && RowLegal(row, op, m)
    ensures AllLocal([op], row.id) && RowLegalRun(row, [op], m) && RowRun(row, [op]) == StepRow(row, op)
  {
    assert [op][..0] == [];
    assert RowRun(row, []) == row;
  }

  lemma {:induction false} TwoOps(row: Job, a: Op, b: Op, m: nat)
    requires Local(a, row.id) && Local(b, row.id) && RowLegal(row, a, m) && RowLegal(StepRow(row, a), b, m)
    ensures AllLocal([a, b], row.id) && RowLegalRun(row, [a, b], m)
    ensures RowRun(row, [a, b]) == StepRow(StepRow(row, a), b)
  {
    OneOp(row, a, m);
    assert [a, b][..1] == [a];
  }
}
