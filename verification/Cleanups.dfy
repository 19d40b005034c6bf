/** gateway/src/artifacts/cleanup.ts: expiring media, stray directories and old rows. The method is
    one undisturbed pass; Protocol interleaves its steps with everything else. */
module Cleanups {
  import opened Types
  import opened JobTable
  import opened TableInvariant
  import opened Store
  import opened RowBlocks
  import opened Artifacts

  function ClearBlock(): Job -> seq<Op> {
    (j: Job) => [Op.SetArtifacts(j.id, [])]
  }

  function CleanupOps(s: seq<Job>, before: int): seq<Op> {
    Blocks(s, ClearBlock()) + [Purge(before)]
  }

  predicate Expiring(row: Job, before: int) {
    FinishedBefore(row, before) && row.artifacts != []
  }

  /** Job directories that hold a file. */
  function Dirs(files: map<(JobId, string), Bytes>): set<JobId> {
    set k | k in files :: k.0
  }

  /** Old directories no row accounts for. */
  function Strays(files: map<(JobId, string), Bytes>, rows: map<JobId, Job>, aged: set<JobId>): set<JobId> {
    set id | id in Dirs(files) && id !in rows && id in aged
  }

  lemma {:induction false} IsStray(files: map<(JobId, string), Bytes>, rows: map<JobId, Job>, aged: set<JobId>, id: JobId)
    ensures id in Strays(files, rows, aged) <==> id in Dirs(files) && id !in rows && id in aged
  {
  }

  lemma {:induction false} OneLess(all: set<JobId>, entries: set<JobId>, entry: JobId)
    requires entry in entries
    ensures entry in all ==> all - (entries - {entry}) == (all - entries) + {entry}
    ensures entry !in all ==> all - (entries - {entry}) == all - entries
  {
  }

  lemma {:induction false} NothingCleared(db: Db, s: seq<Job>)
    ensures s[..0] == [] && s[..|s|] == s && ApplyAll(db, Blocks(s[..0], ClearBlock())) == db && IdsOf(s[..0]) == {}
  {
  }

  lemma {:induction false} ClearNext(db: Db, s: seq<Job>, i: nat)
    requires i < |s|
    ensures ApplyAll(db, Blocks(s[..i + 1], ClearBlock())) ==
            Apply(ApplyAll(db, Blocks(s[..i], ClearBlock())), Op.SetArtifacts(s[i].id, []))
    ensures IdsOf(s[..i + 1]) == IdsOf(s[..i]) + {s[i].id}
  {
    hide Apply;
    assert s[..i + 1][..i] == s[..i];
    ApplySnoc(db, Blocks(s[..i], ClearBlock()), Op.SetArtifacts(s[i].id, []));
  }

  method ExpireMedia(store: JobStore, artifacts: ArtifactStore, before: int) returns (expired: nat, ghost s: seq<Job>)
    requires store.Valid()
    modifies store, artifacts
    ensures store.Valid()
    ensures Lists(old(store.rows), FinishedAt(before), s) && expired == |s|
    ensures store.View() == ApplyAll(old(store.View()), Blocks(s, ClearBlock()))
    ensures artifacts.files == map k | k in old(artifacts.files) && k.0 !in IdsOf(s) :: old(artifacts.files)[k]
    ensures IdsOf(s) == set id | id in old(store.rows) && old(store.rows)[id].finishedAt.Some?
                                 && old(store.rows)[id].finishedAt.value < before && old(store.rows)[id].artifacts != []
  {
    hide Apply, Blocks, Members;
    ghost var was, had := store.View(), artifacts.files;
    var jobs := store.FinishedJobs(before);
    s := jobs;
    expired := 0;
    NothingCleared(was, jobs);
    var i := 0;
    while i < |jobs|
      invariant 0 <= i <= |jobs| && expired == i && store.Valid()
      invariant store.View() == ApplyAll(was, Blocks(jobs[..i], ClearBlock()))
      invariant artifacts.files == map k | k in had && k.0 !in IdsOf(jobs[..i]) :: had[k]
    {
      artifacts.RemoveJob(jobs[i].id);
      store.SetArtifacts(jobs[i].id, []);
      ClearNext(was, jobs, i);
      expired := expired + 1;
      i := i + 1;
    }
  }

  /** The files left while `entries` are still to be looked at. */
  function Remaining(had: map<(JobId, string), Bytes>, rows: map<JobId, Job>, aged: set<JobId>, entries: set<JobId>)
    : map<(JobId, string), Bytes> {
    map k | k in had && (k.0 in rows || k.0 !in aged || k.0 in entries) :: had[k]
  }

  lemma {:induction false} AllRemain(had: map<(JobId, string), Bytes>, rows: map<JobId, Job>, aged: set<JobId>)
    ensures Remaining(had, rows, aged, Dirs(had)) == had
    ensures Strays(had, rows, aged) - Dirs(had) == {}
  {
  }

  lemma {:induction false} NoneRemain(had: map<(JobId, string), Bytes>, rows: map<JobId, Job>, aged: set<JobId>)
    ensures Remaining(had, rows, aged, {}) == map k | k in had && (k.0 in rows || k.0 !in aged) :: had[k]
  {
  }

  lemma {:induction false} NextRemain(had: map<(JobId, string), Bytes>, rows: map<JobId, Job>, aged: set<JobId>, entries: set<JobId>, id: JobId)
    requires id in entries
    ensures Remaining(had, rows, aged, entries - {id}) ==
      if id !in rows && id in aged then Without(Remaining(had, rows, aged, entries), id) else Remaining(had, rows, aged, entries)
  {
  }

  /** Directories with no surviving row, once they are old enough. */
  method RemoveOrphans(store: JobStore, artifacts: ArtifactStore, aged: set<JobId>) returns (orphanDirs: nat)
    modifies artifacts
    ensures artifacts.files == map k | k in old(artifacts.files) && (k.0 in store.rows || k.0 !in aged) :: old(artifacts.files)[k]
    ensures orphanDirs == |Strays(old(artifacts.files), store.rows, aged)|
  {
    hide Strays, Dirs, Remaining, Without;
    ghost var had := artifacts.files;
    ghost var gone, strays := {}, Strays(had, store.rows, aged);
    var entries := Dirs(artifacts.files);
    AllRemain(had, store.rows, aged);
    ghost var all := entries;
    orphanDirs := 0;
    while entries != {}
      invariant entries <= all && gone == strays - entries && orphanDirs == |gone|
      invariant artifacts.files == Remaining(had, store.rows, aged, entries)
      decreases entries
    {
      var entry :| entry in entries;
      IsStray(had, store.rows, aged, entry);
      OneLess(strays, entries, entry);
      NextRemain(had, store.rows, aged, entries, entry);
      entries := entries - {entry};
      if entry !in store.rows && entry in aged {
        artifacts.RemoveJob(entry);
        orphanDirs := orphanDirs + 1;
        gone := gone + {entry};
      }
    }
    NoneRemain(had, store.rows, aged);
  }

  /** The rows as they were, but for their artifact lists. */
  ghost predicate OnlyLists(db: Db, db': Db) {
    && db'.rows.Keys == db.rows.Keys
    && (forall id :: id in db.rows ==> db'.rows[id] == db.rows[id].(artifacts := db'.rows[id].artifacts))
  }

  lemma {:induction false} ClearRows(mid: Db, id: JobId)
    ensures Apply(mid, Op.SetArtifacts(id, [])).rows ==
      if id in mid.rows then mid.rows[id := mid.rows[id].(artifacts := [])] else mid.rows
  {
  }

  lemma {:induction false} ClearKeepsRest(db: Db, mid: Db, id: JobId)
    requires OnlyLists(db, mid)
    ensures OnlyLists(db, Apply(mid, Op.SetArtifacts(id, [])))
  {
    hide Apply;
    ClearRows(mid, id);
  }

  lemma {:induction false} SameLists(db: Db)
    ensures OnlyLists(db, db)
  {
  }

  lemma {:induction false} KeysKept(db: Db, s: seq<Job>)
    ensures OnlyLists(db, ApplyAll(db, Blocks(s, ClearBlock())))
  {
    hide Apply, ApplyAll, Blocks, ClearBlock, OnlyLists;
    assert s[..|s|] == s;
    if s == [] {
      NothingCleared(db, s);
      SameLists(db);
    } else {
      var n := |s| - 1;
      KeysKept(db, s[..n]);
      ClearNext(db, s, n);
      ClearKeepsRest(db, ApplyAll(db, Blocks(s[..n], ClearBlock())), s[n].id);
    }
  }

  lemma {:induction false} KeysOf(db: Db, db': Db)
    requires OnlyLists(db, db')
    ensures db'.rows.Keys == db.rows.Keys
  {
  }

  /** The table after the first loop: the listed rows have lost their lists. */
  lemma {:induction false} ClearedRows(db: Db, s: seq<Job>, id: JobId)
    ensures var rows' := ApplyAll(db, Blocks(s, ClearBlock())).rows;
      && (id in rows' <==> id in db.rows)
      && (id in db.rows ==> rows'[id] == if id in IdsOf(s) then db.rows[id].(artifacts := []) else db.rows[id])
  {
    hide Apply, ApplyAll, Blocks, ClearBlock, IdsOf;
    assert s[..|s|] == s;
    if s == [] {
      NothingCleared(db, s);
    } else {
      var n := |s| - 1;
      ClearedRows(db, s[..n], id);
      ClearNext(db, s, n);
      ClearRows(ApplyAll(db, Blocks(s[..n], ClearBlock())), s[n].id);
    }
  }

  lemma {:induction false} CountMembers(rows: map<JobId, Job>, s: seq<Job>)
    requires Members(rows, s)
    ensures |IdsOf(s)| == |s|
  {
    if s != [] { CountMembers(rows, s[..|s| - 1]); }
  }

  /** The query behind the listing, in the row's own fields, and how many rows it finds. */
  lemma {:induction false} ListedAre(rows: map<JobId, Job>, before: int, s: seq<Job>)
    requires Lists(rows, FinishedAt(before), s)
    ensures IdsOf(s) == set id | id in rows && rows[id].finishedAt.Some? && rows[id].finishedAt.value < before && rows[id].artifacts != []
    ensures |s| == |IdsOf(s)|
  {
    CountMembers(rows, s);
  }

  /** The rows a pass leaves, when its first loop cleared the listed rows and its purge then took the old ones. */
  lemma {:induction false} PassRows(rows: map<JobId, Job>, mid: map<JobId, Job>, rows': map<JobId, Job>, s: seq<Job>, ttlBefore: int, purgeBefore: int)
    requires Lists(rows, FinishedAt(ttlBefore), s)
    requires forall id :: id in mid <==> id in rows
    requires forall id :: id in rows ==> mid[id] == if id in IdsOf(s) then rows[id].(artifacts := []) else rows[id]
    requires forall id :: id in rows' <==> id in mid && !(mid[id].finishedAt.Some? && mid[id].finishedAt.value < purgeBefore)
    requires forall id :: id in rows' ==> rows'[id] == mid[id]
    ensures forall id :: id in rows' <==> (id in rows && !(rows[id].finishedAt.Some? && rows[id].finishedAt.value < purgeBefore))
    ensures forall id :: id in rows' ==>
      rows'[id] == if rows[id].finishedAt.Some? && rows[id].finishedAt.value < ttlBefore then rows[id].(artifacts := []) else rows[id]
  {
    hide IdsOf, Members;
    forall id | id in rows ensures mid[id].finishedAt == rows[id].finishedAt {}
    ListedAre(rows, ttlBefore, s);
  }

  lemma {:induction false} PassCounts(rows: map<JobId, Job>, before: int)
    ensures (set id | id in rows && FinishedBefore(rows[id], before))
         == set id | id in rows && rows[id].finishedAt.Some? && rows[id].finishedAt.value < before
  {
  }

  /** Emptying the lists of listed jobs, which have rows, makes no directory a stray. */
  lemma {:induction false} SameStrays(db: Db, db': Db, had: map<(JobId, string), Bytes>, files: map<(JobId, string), Bytes>, s: seq<Job>, aged: set<JobId>)
    requires OnlyLists(db, db') && IdsOf(s) <= db.rows.Keys
    requires files == map k | k in had && k.0 !in IdsOf(s) :: had[k]
    ensures Strays(files, db'.rows, aged) == Strays(had, db.rows, aged)
  {
    hide IdsOf, OnlyLists;
    assert db'.rows.Keys == db.rows.Keys by { KeysOf(db, db'); }
    forall id | id !in db.rows ensures id in Dirs(files) <==> id in Dirs(had) {
      forall k | k in had && k.0 == id ensures k in files {}
    }
  }

  lemma {:induction false} SameFinished(db: Db, db': Db, before: int)
    requires OnlyLists(db, db')
    ensures (set id | id in db'.rows && FinishedBefore(db'.rows[id], before)) == set id | id in db.rows && FinishedBefore(db.rows[id], before)
  {
  }

  method Cleanup(store: JobStore, artifacts: ArtifactStore, now: int, artifactTtlMs: int, jobRetentionMs: int, aged: set<JobId>)
    returns (expired: nat, purged: nat, orphanDirs: nat, ghost s: seq<Job>)
    requires store.Valid()
    modifies store, artifacts
    ensures store.Valid()
    ensures Lists(old(store.rows), FinishedAt(now - artifactTtlMs), s) && expired == |s|
    ensures store.View() == ApplyAll(old(store.View()), CleanupOps(s, now - jobRetentionMs))
    ensures forall k :: k in artifacts.files ==> k in old(artifacts.files) && artifacts.files[k] == old(artifacts.files)[k]
    ensures forall k :: k in old(artifacts.files) ==>
      (k in artifacts.files <==>
        if k.0 in old(store.rows) then !Expiring(old(store.rows)[k.0], now - artifactTtlMs) else k.0 !in aged)
    ensures purged == |set id | id in old(store.rows) && FinishedBefore(old(store.rows)[id], now - jobRetentionMs)|
    ensures orphanDirs == |Strays(old(artifacts.files), old(store.rows), aged)|
    // What goes and what stays, in the rows' own fields.
    ensures expired == |set id | id in old(store.rows) && old(store.rows)[id].finishedAt.Some?
                                 && old(store.rows)[id].finishedAt.value < now - artifactTtlMs && old(store.rows)[id].artifacts != []|
    ensures purged == |set id | id in old(store.rows) && old(store.rows)[id].finishedAt.Some?
                                && old(store.rows)[id].finishedAt.value < now - jobRetentionMs|
    ensures forall id :: id in store.rows <==>
      (id in old(store.rows)
       && !(old(store.rows)[id].finishedAt.Some? && old(store.rows)[id].finishedAt.value < now - jobRetentionMs))
    ensures forall id :: id in store.rows ==>
      (var row := old(store.rows)[id];
       store.rows[id] ==
         if row.finishedAt.Some? && row.finishedAt.value < now - artifactTtlMs then row.(artifacts := []) else row)
    ensures forall k :: k in old(artifacts.files) && k.0 in old(store.rows) ==>
      (var row := old(store.rows)[k.0];
       k !in artifacts.files <==> row.finishedAt.Some? && row.finishedAt.value < now - artifactTtlMs && row.artifacts != [])
    ensures forall k :: k in old(artifacts.files) && k.0 !in old(store.rows) ==> (k !in artifacts.files <==> k.0 in aged)
  {
    hide Apply, ApplyAll, Blocks, Lists, IdsOf, Strays, OnlyLists, ClearBlock;
    ghost var was, had := store.View(), artifacts.files;
    expired, s := ExpireMedia(store, artifacts, now - artifactTtlMs);
    ghost var mid := store.View();
    KeysKept(was, s);
    SameStrays(was, mid, had, artifacts.files, s, aged);
    SameFinished(was, mid, now - jobRetentionMs);
    ListedAre(was.rows, now - artifactTtlMs, s);
    PassCounts(was.rows, now - jobRetentionMs);
    orphanDirs := RemoveOrphans(store, artifacts, aged);
    purged := store.PurgeBefore(now - jobRetentionMs);
    ApplySnoc(was, Blocks(s, ClearBlock()), Purge(now - jobRetentionMs));
    forall id ensures id in mid.rows <==> id in was.rows
              ensures id in was.rows ==> mid.rows[id] == if id in IdsOf(s) then was.rows[id].(artifacts := []) else was.rows[id] {
      ClearedRows(was, s, id);
    }
    PassRows(was.rows, mid.rows, store.rows, s, now - artifactTtlMs, now - jobRetentionMs);
  }

  lemma {:induction false} ClearsFit(db: Db, s: seq<Job>, before: int, m: nat)
    requires Members(db.rows, s) && IdsOf(s) <= Matching(db.rows, FinishedAt(before))
    requires forall id :: id in db.rows ==> RowOk(id, db.rows[id], m)
    ensures Fits(s, ClearBlock(), m)
  {
    if s != [] {
      ClearsFit(db, s[..|s| - 1], before, m);
      var j := s[|s| - 1];
      assert j.id in IdsOf(s) && RowOk(j.id, db.rows[j.id], m);
      OneOp(j, Op.SetArtifacts(j.id, []), m);
    }
  }

  lemma {:induction false} PurgeLegal(db: Db, before: int, m: nat)
    ensures LegalRun(db, [Purge(before)], m)
  {
    LegalOne(db, Purge(before), m);
  }

  /** One pass, row by row: it is legal, drops no live row, empties the artifact list of exactly the
      expiring rows that survive, and changes nothing else. */
  lemma {:induction false} CleanupRows(db: Db, s: seq<Job>, ttlBefore: int, purgeBefore: int, m: nat)
    requires forall id :: id in db.rows ==> RowOk(id, db.rows[id], m)
    requires Lists(db.rows, FinishedAt(ttlBefore), s)
    ensures var db' := ApplyAll(db, CleanupOps(s, purgeBefore));
      && LegalRun(db, CleanupOps(s, purgeBefore), m)
      && (forall id :: id in db'.rows <==>
            id in db.rows && !(db.rows[id].finishedAt.Some? && db.rows[id].finishedAt.value < purgeBefore))
      && (forall id :: id in db.rows && Live(db.rows[id].state) ==> id in db'.rows && db'.rows[id] == db.rows[id])
      && (forall id :: id in db'.rows ==>
            db'.rows[id] == if db.rows[id].finishedAt.Some? && db.rows[id].finishedAt.value < ttlBefore
                            then db.rows[id].(artifacts := []) else db.rows[id])
  {
    hide Legal, Blocks, Fits, Members;
    var ops := Blocks(s, ClearBlock());
    ClearsFit(db, s, ttlBefore, m);
    BlocksRun(db, s, ClearBlock(), m);
    var mid := ApplyAll(db, ops);
    PurgeLegal(mid, purgeBefore, m);
    LegalConcat(db, ops, [Purge(purgeBefore)], m);
    ApplySnoc(db, ops, Purge(purgeBefore));
    forall id | id in db.rows
      ensures mid.rows[id] == if Expiring(db.rows[id], ttlBefore) then db.rows[id].(artifacts := []) else db.rows[id] {
      assert id in IdsOf(s) <==> Expiring(db.rows[id], ttlBefore);
      if id in IdsOf(s) { OneOp(db.rows[id], Op.SetArtifacts(id, []), m); }
    }
  }
}
