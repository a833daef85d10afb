/** storeFiles and prune of db.go as the source runs them, one statement after the
    other on the tables, with nobody else in between. */
module RetentionStore {
  import opened Options
  import opened Retention

  datatype FileRow = FileRow(sha: Sha, createdAt: int, visitedAt: int)

  datatype JoinRow = JoinRow(id: CallId, sha: Sha, pos: nat)

  // ----- what the two inserts do with their rows, row by row

  function RowUpserted(t: Tables, row: FileRow): Tables {
    t.(files := t.files[row.sha :=
         if row.sha in t.files then t.files[row.sha].(visitedAt := row.visitedAt)
         else File(row.createdAt, row.visitedAt)])
  }

  function RowsUpserted(t: Tables, rows: seq<FileRow>): Tables {
    if rows == [] then t else RowUpserted(RowsUpserted(t, rows[..|rows| - 1]), rows[|rows| - 1])
  }

  /** A duplicate primary key fails the whole statement. */
  function RowsInserted(t: Tables, rows: seq<JoinRow>): Option<Tables> {
    if rows == [] then Some(t)
    else
      match RowsInserted(t, rows[..|rows| - 1])
      case None => None
      case Some(before) =>
        var row := rows[|rows| - 1];
        if (row.id, row.sha) in before.joins then None
        else Some(before.(joins := before.joins[(row.id, row.sha) := row.pos]))
  }

  lemma {:induction false} RowsUpsertedIs(t: Tables, rows: seq<FileRow>, shas: seq<Sha>, now: int)
    requires |rows| == |shas| && forall i :: 0 <= i < |rows| ==> rows[i] == FileRow(shas[i], now, now)
    ensures RowsUpserted(t, rows) == FilesUpserted(t, shas, now)
  {
    var n := |rows| - 1;
    if rows == [] {
      assert FilesUpserted(t, shas, now).files == t.files;
    } else {
      RowsUpsertedIs(t, rows[..n], shas[..n], now);
      assert shas == shas[..n] + [shas[n]];
      var before, after := FilesUpserted(t, shas[..n], now), FilesUpserted(t, shas, now);
      forall sha | sha in after.files ensures sha in RowsUpserted(t, rows).files
        && RowsUpserted(t, rows).files[sha] == after.files[sha]
      {
        assert sha in shas[..n] ==> sha in before.files;
      }
      assert RowsUpserted(t, rows).files.Keys == after.files.Keys;
      assert RowsUpserted(t, rows).files == after.files;
    }
  }

  lemma {:induction false} RowsInsertedIs(t: Tables, rows: seq<JoinRow>, id: CallId, shas: seq<Sha>)
    requires |rows| == |shas| && forall i :: 0 <= i < |rows| ==> rows[i] == JoinRow(id, shas[i], i)
    ensures RowsInserted(t, rows) == if JoinsInsertable(t, id, shas) then Some(JoinsInserted(t, id, shas)) else None
  {
    var n := |rows| - 1;
    if rows == [] {
      assert JoinsInserted(t, id, shas).joins == t.joins;
    } else {
      RowsInsertedIs(t, rows[..n], id, shas[..n]);
      assert shas == shas[..n] + [shas[n]];
      InsertableStep(t, id, shas, n);
      if JoinsInsertable(t, id, shas) { InsertedStep(t, id, shas, n); }
    }
  }

  lemma InsertableStep(t: Tables, id: CallId, shas: seq<Sha>, n: nat)
    requires n + 1 == |shas|
    ensures JoinsInsertable(t, id, shas) <==>
      JoinsInsertable(t, id, shas[..n]) && (id, shas[n]) !in JoinsInserted(t, id, shas[..n]).joins
  {
    var before := JoinsInserted(t, id, shas[..n]).joins;
    assert (id, shas[n]) in before <==> (id, shas[n]) in t.joins || shas[n] in shas[..n];
    assert forall sha :: sha in shas <==> sha in shas[..n] || sha == shas[n] by {
      assert shas == shas[..n] + [shas[n]];
    }
    if JoinsInsertable(t, id, shas[..n]) && (id, shas[n]) !in before {
      forall i, j | 0 <= i < j < |shas| ensures shas[i] != shas[j] {
        if j < n { assert shas[..n][i] != shas[..n][j]; } else { assert shas[..n][i] in shas[..n]; }
      }
    }
  }

  lemma PositionStep(shas: seq<Sha>, n: nat, sha: Sha)
    requires n + 1 == |shas|
    ensures PositionOf(shas, sha) == if sha == shas[n] then n else PositionOf(shas[..n], sha)
    ensures sha in shas <==> sha in shas[..n] || sha == shas[n]
  {
    assert shas == shas[..n] + [shas[n]];
  }

  lemma InsertedStep(t: Tables, id: CallId, shas: seq<Sha>, n: nat)
    requires n + 1 == |shas| && JoinsInsertable(t, id, shas)
    ensures JoinsInserted(t, id, shas).joins == JoinsInserted(t, id, shas[..n]).joins[(id, shas[n]) := n]
  {
    var before, after := JoinsInserted(t, id, shas[..n]).joins, JoinsInserted(t, id, shas).joins;
    forall sha ensures sha in shas <==> sha in shas[..n] || sha == shas[n] { PositionStep(shas, n, sha); }
    assert after.Keys == before.Keys + {(id, shas[n])};
    forall key | key in after ensures after[key] == before[(id, shas[n]) := n][key] { PositionStep(shas, n, key.1); }
  }

  // ----- the statements in order

  class CallStore {
    const retain: int
    var t: Tables

    constructor (retain: int, t: Tables)
      ensures this.retain == retain && this.t == t
    {
      this.retain, this.t := retain, t;
    }

    /** storeFiles. If the joins cannot be inserted the files stay upserted. */
    method StoreFiles(callId: CallId, files: seq<Sha>, now: int) returns (ok: bool)
      modifies this
      ensures ok <==> files == [] || JoinsInsertable(old(t), callId, files)
      ensures t ==
        if files == [] then old(t)
        else if ok then JoinsInserted(FilesUpserted(old(t), files, now), callId, files)
        else FilesUpserted(old(t), files, now)
    {
      if files == [] {
        return true;
      }
      var rows: seq<FileRow>, joins: seq<JoinRow> := [], [];
      for i := 0 to |files|
        invariant |rows| == |joins| == i
        invariant forall j :: 0 <= j < i ==> rows[j] == FileRow(files[j], now, now) && joins[j] == JoinRow(callId, files[j], j)
        invariant t == old(t)
      {
        rows := rows + [FileRow(files[i], now, now)];
        joins := joins + [JoinRow(callId, files[i], i)];
      }
      RowsUpsertedIs(t, rows, files, now);
      t := RowsUpserted(t, rows);
      RowsInsertedIs(t, joins, callId, files);
      var inserted := RowsInserted(t, joins);
      if inserted.None? {
        return false;
      }
      t := inserted.value;
      ok := true;
    }

    /** prune, uninterrupted. */
    method Prune(now: int)
      modifies this
      ensures Pruned(old(t), t, retain, now)
    {
      ghost var before := t;
      var s := PruneFileScope(retain, now);
      t := BlobsNulled(t, s);
      t := JoinsDeleted(t, s);
      t := FilesDeleted(t, s);
      PruneLeaves(before, retain, now);
    }
  }

  /** Retention is on, and the instant is not older than it. */
  predicate InWindow(retain: int, now: int, at: int) {
    retain > 0 && at >= now - retain
  }

  /** What an uninterrupted prune leaves: calls keep their blobs and joins only inside the
      window, files only if a join left names them or they were visited inside the window;
      all else is as it was. */
  ghost predicate Pruned(before: Tables, after: Tables, retain: int, now: int) {
    && after.calls.Keys == before.calls.Keys
    && (forall id :: id in before.calls ==>
          && after.calls[id].createdAt == before.calls[id].createdAt
          && (after.calls[id].blobs <==> before.calls[id].blobs && InWindow(retain, now, before.calls[id].createdAt)))
    && (forall key :: key in after.joins <==>
          key in before.joins && retain > 0
          && (key.0 in before.calls ==> InWindow(retain, now, before.calls[key.0].createdAt)))
    && (forall key :: key in after.joins ==> after.joins[key] == before.joins[key])
    && (forall sha :: sha in after.files <==>
          sha in before.files
          && ((exists key :: key in after.joins && key.1 == sha) || InWindow(retain, now, before.files[sha].visitedAt)))
    && (forall sha :: sha in after.files ==> after.files[sha] == before.files[sha])
  }

  lemma PruneLeaves(t: Tables, retain: int, now: int)
    ensures var s := PruneFileScope(retain, now);
      Pruned(t, FilesDeleted(JoinsDeleted(BlobsNulled(t, s), s), s), retain, now)
  {
    var s := PruneFileScope(retain, now);
    var mid := JoinsDeleted(BlobsNulled(t, s), s);
    var after := FilesDeleted(mid, s);
    forall sha ensures Referenced(mid, sha) <==> exists key :: key in after.joins && key.1 == sha {}
  }

  /** With retention off a prune leaves no blob, no join and no file. */
  lemma PruneClearsAll(before: Tables, after: Tables, retain: int, now: int)
    requires Pruned(before, after, retain, now) && retain <= 0
    ensures (forall id :: id in after.calls ==> !after.calls[id].blobs) && after.joins == map[] && after.files == map[]
  {
    assert forall key :: key !in after.joins;
    assert forall sha :: sha !in after.files;
  }

  /** So a prune on its own never leaves a join without its file. */
  lemma PruneKeepsFiles(before: Tables, after: Tables, retain: int, now: int)
    requires Pruned(before, after, retain, now)
    requires forall key :: key in before.joins ==> key.1 in before.files
    ensures forall key :: key in after.joins ==> key.1 in after.files
  {
  }

  // ----- storeFiles on the file rows

  /** A file that is stored is visited now, and keeps when it was created if it was there; the
      others stay as they were. */
  lemma UpsertLeaves(t: Tables, shas: seq<Sha>, now: int)
    ensures var after := FilesUpserted(t, shas, now);
      && after.calls == t.calls && after.joins == t.joins
      && (forall sha :: sha in after.files <==> sha in t.files || sha in shas)
      && (forall sha :: sha in shas ==>
            after.files[sha].visitedAt == now
            && after.files[sha].createdAt == if sha in t.files then t.files[sha].createdAt else now)
      && (forall sha :: sha in t.files && sha !in shas ==> after.files[sha] == t.files[sha])
  {
  }
}
