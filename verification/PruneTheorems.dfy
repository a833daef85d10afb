/** What a prune removes and what a Record leaves, in whole runs: the other half of what the
    retention window promises. */
module PruneTheorems {
  import opened Retention
  import opened RetentionTheorems
  import opened RetentionStore

  // ----- a prune with nobody in between

  /** Four steps in a row do what prune does by itself. */
  lemma PruneInOneGo(p: Params, run: seq<State>, steps: seq<Step>, i: nat, pid: nat)
    requires IsRun(p, run, steps) && i + 4 < |run|
    requires steps[i] == BeginPrune(pid) && steps[i + 1] == NullBlobs(pid)
    requires steps[i + 2] == DeleteJoins(pid) && steps[i + 3] == DeleteFiles(pid)
    ensures Pruned(run[i].t, run[i + 4].t, p.retain, run[i].clock)
  {
    PruneLeaves(run[i].t, p.retain, run[i].clock);
    var s := PruneFileScope(p.retain, run[i].clock);
    assert run[i + 1] == Next(p, run[i], steps[i]) && run[i + 1].prunes[pid] == CutoffRead(s);
    assert run[i + 2] == Next(p, run[i + 1], steps[i + 1]) && run[i + 2].prunes[pid] == Nulled(s);
    assert run[i + 3] == Next(p, run[i + 2], steps[i + 2]) && run[i + 3].prunes[pid] == Unjoined(s);
    assert run[i + 4] == Next(p, run[i + 3], steps[i + 3]);
  }

  /** Nothing older than the window is left: no blob, no join of a call, and no file but for
      the joins that are left. */
  lemma NothingOldLeft(p: Params, run: seq<State>, steps: seq<Step>, i: nat, pid: nat)
    requires IsRun(p, run, steps) && i + 4 < |run|
    requires steps[i] == BeginPrune(pid) && steps[i + 1] == NullBlobs(pid)
    requires steps[i + 2] == DeleteJoins(pid) && steps[i + 3] == DeleteFiles(pid)
    ensures var t, cutoff := run[i + 4].t, run[i].clock - p.retain;
      && (forall id :: id in t.calls && t.calls[id].blobs ==> p.retain > 0 && t.calls[id].createdAt >= cutoff)
      && (forall key :: key in t.joins && key.0 in t.calls ==> p.retain > 0 && t.calls[key.0].createdAt >= cutoff)
      && (forall sha :: sha in t.files && (forall key :: key in t.joins ==> key.1 != sha) ==>
            p.retain > 0 && t.files[sha].visitedAt >= cutoff)
  {
    PruneInOneGo(p, run, steps, i, pid);
  }

  // ----- a prune among others

  /** A step that ends a prune. */
  predicate Ends(step: Step, pid: nat) {
    step == DeleteFiles(pid) || step == AbandonPrune(pid)
  }

  /** The prune begun at step i is still under way at step j. */
  predicate UnderWay(steps: seq<Step>, pid: nat, i: nat, j: nat) {
    i < j <= |steps| && steps[i] == BeginPrune(pid) && forall m :: i < m < j ==> !Ends(steps[m], pid)
  }

  lemma StepKeepsScope(p: Params, s: State, step: Step, pid: nat)
    requires Enabled(p, s, step) && pid in s.prunes && !Ends(step, pid)
    ensures pid in Next(p, s, step).prunes && Next(p, s, step).prunes[pid].s == s.prunes[pid].s
  {
  }

  /** A prune works with the cutoff of its beginning. */
  lemma {:induction false} ScopeKept(p: Params, run: seq<State>, steps: seq<Step>, pid: nat, i: nat, j: nat)
    requires IsRun(p, run, steps) && UnderWay(steps, pid, i, j)
    ensures pid in run[j].prunes && run[j].prunes[pid].s == PruneFileScope(p.retain, run[i].clock)
  {
    if i + 1 < j {
      ScopeKept(p, run, steps, pid, i, j - 1);
      StepKeepsScope(p, run[j - 1], steps[j - 1], pid);
    } else {
      assert Enabled(p, run[i], steps[i]) && run[i + 1] == Next(p, run[i], steps[i]);
    }
  }

  predicate NoBlobs(t: Tables, id: CallId) {
    id in t.calls && !t.calls[id].blobs
  }

  lemma StepKeepsNoBlobs(p: Params, s: State, step: Step, id: CallId)
    requires FreshIds(s) && Enabled(p, s, step) && NoBlobs(s.t, id)
    ensures NoBlobs(Next(p, s, step).t, id)
  {
  }

  lemma {:induction false} NoBlobsLater(p: Params, run: seq<State>, steps: seq<Step>, id: CallId, i: nat, j: nat)
    requires IsRun(p, run, steps) && Start(run[0]) && i <= j < |run| && NoBlobs(run[i].t, id)
    ensures NoBlobs(run[j].t, id)
  {
    if i < j {
      NoBlobsLater(p, run, steps, id, i, j - 1);
      RunKeepsShape(p, run, steps, j - 1);
      StepKeepsNoBlobs(p, run[j - 1], steps[j - 1], id);
    }
  }

  /** Whatever goes on beside it, a prune takes the blobs of every call that is there and was
      older than the window when the prune began, for good. */
  lemma OldBlobsGone(p: Params, run: seq<State>, steps: seq<Step>, pid: nat, i: nat, j: nat, k: nat, id: CallId)
    requires IsRun(p, run, steps) && Start(run[0]) && UnderWay(steps, pid, i, j) && j < k < |run|
    requires steps[j] == NullBlobs(pid)
    requires id in run[j].t.calls && !InWindow(p.retain, run[i].clock, run[j].t.calls[id].createdAt)
    ensures NoBlobs(run[k].t, id)
  {
    ScopeKept(p, run, steps, pid, i, j);
    assert run[j + 1] == Next(p, run[j], steps[j]);
    NoBlobsLater(p, run, steps, id, j + 1, k);
  }

  /** A call whose Record is over has no joins. */
  predicate NoJoins(s: State, id: CallId) {
    id in s.t.calls && id !in s.records && forall key :: key in s.t.joins ==> key.0 != id
  }

  lemma StepKeepsNoJoins(p: Params, s: State, step: Step, id: CallId)
    requires Enabled(p, s, step) && NoJoins(s, id)
    ensures NoJoins(Next(p, s, step), id)
  {
  }

  lemma {:induction false} NoJoinsLater(p: Params, run: seq<State>, steps: seq<Step>, id: CallId, i: nat, j: nat)
    requires IsRun(p, run, steps) && i <= j < |run| && NoJoins(run[i], id)
    ensures NoJoins(run[j], id)
  {
    if i < j {
      NoJoinsLater(p, run, steps, id, i, j - 1);
      StepKeepsNoJoins(p, run[j - 1], steps[j - 1], id);
    }
  }

  /** And its joins, once its Record is over. */
  lemma OldJoinsGone(p: Params, run: seq<State>, steps: seq<Step>, pid: nat, i: nat, j: nat, k: nat, id: CallId)
    requires IsRun(p, run, steps) && UnderWay(steps, pid, i, j) && j < k < |run|
    requires steps[j] == DeleteJoins(pid) && id !in run[j].records
    requires id in run[j].t.calls && !InWindow(p.retain, run[i].clock, run[j].t.calls[id].createdAt)
    ensures forall key :: key in run[k].t.joins ==> key.0 != id
  {
    ScopeKept(p, run, steps, pid, i, j);
    assert run[j + 1] == Next(p, run[j], steps[j]);
    NoJoinsLater(p, run, steps, id, j + 1, k);
  }

  /** When a prune is done every file is named by a join or was visited inside the window. */
  lemma OldFilesGone(p: Params, run: seq<State>, steps: seq<Step>, pid: nat, i: nat, j: nat, sha: Sha)
    requires IsRun(p, run, steps) && UnderWay(steps, pid, i, j) && j < |steps| && steps[j] == DeleteFiles(pid)
    requires sha in run[j + 1].t.files
    ensures sha in run[j].t.files && run[j + 1].t.files[sha] == run[j].t.files[sha]
    ensures (exists key :: key in run[j + 1].t.joins && key.1 == sha)
      || InWindow(p.retain, run[i].clock, run[j].t.files[sha].visitedAt)
  {
    ScopeKept(p, run, steps, pid, i, j);
    assert run[j + 1] == Next(p, run[j], steps[j]);
    if Referenced(run[j].t, sha) {
      var key :| key in run[j].t.joins && key.1 == sha;
      assert key in run[j + 1].t.joins;
    }
  }

  // ----- statements that fail

  /** A Record whose statement fails leaves the tables as they are and does nothing more; so
      does a prune. */
  lemma GivenUp(p: Params, s: State, id: CallId, pid: nat)
    ensures id in s.records ==>
      && Enabled(p, s, AbandonRecord(id))
      && var next := Next(p, s, AbandonRecord(id));
         next.t == s.t && next.prunes == s.prunes && next.clock == s.clock && next.records == s.records - {id}
    ensures pid in s.prunes ==>
      && Enabled(p, s, AbandonPrune(pid))
      && var next := Next(p, s, AbandonPrune(pid));
         next.t == s.t && next.records == s.records && next.clock == s.clock && next.prunes == s.prunes - {pid}
  {
  }

  // ----- a Record

  /** The Record begun at step i is still under way at step j. */
  predicate Recording(steps: seq<Step>, id: CallId, shas: seq<Sha>, i: nat, j: nat) {
    && i < j <= |steps| && steps[i] == BeginRecord(id, shas)
    && forall m :: i < m < j ==> steps[m] != AbandonRecord(id) && steps[m] != InsertJoins(id)
  }

  /** What a Record in flight has to do with its beginning. */
  predicate BegunAs(s: State, id: CallId, createdAt: int, shas: seq<Sha>) {
    && id in s.records && s.records[id].shas == shas
    && (s.records[id].Created? ==> s.records[id].createdAt == createdAt)
  }

  lemma StepKeepsBegun(p: Params, s: State, step: Step, id: CallId, createdAt: int, shas: seq<Sha>)
    requires Enabled(p, s, step) && BegunAs(s, id, createdAt, shas)
    requires step != AbandonRecord(id) && step != InsertJoins(id)
    ensures BegunAs(Next(p, s, step), id, createdAt, shas)
  {
  }

  lemma {:induction false} BegunKept(p: Params, run: seq<State>, steps: seq<Step>, id: CallId, shas: seq<Sha>, i: nat, j: nat)
    requires IsRun(p, run, steps) && Recording(steps, id, shas, i, j)
    ensures BegunAs(run[j], id, run[i].clock, shas)
  {
    if i + 1 < j {
      BegunKept(p, run, steps, id, shas, i, j - 1);
      StepKeepsBegun(p, run[j - 1], steps[j - 1], id, run[i].clock, shas);
    } else {
      assert Enabled(p, run[i], steps[i]) && run[i + 1] == Next(p, run[i], steps[i]);
    }
  }

  /** The row a Record inserts says when the Record began, and has blobs if any are retained. */
  lemma CallRowIs(p: Params, run: seq<State>, steps: seq<Step>, id: CallId, shas: seq<Sha>, i: nat, j: nat)
    requires IsRun(p, run, steps) && Recording(steps, id, shas, i, j) && j < |steps| && steps[j] == InsertCall(id)
    ensures id in run[j + 1].t.calls && run[j + 1].t.calls[id] == Call(run[i].clock, p.retain > 0)
  {
    BegunKept(p, run, steps, id, shas, i, j);
    assert run[j + 1] == Next(p, run[j], steps[j]);
  }

  /** And when it is through, its joins name its files, in order. */
  lemma JoinRowsAre(p: Params, run: seq<State>, steps: seq<Step>, id: CallId, shas: seq<Sha>, i: nat, j: nat, n: nat)
    requires IsRun(p, run, steps) && Recording(steps, id, shas, i, j) && j < |steps| && steps[j] == InsertJoins(id)
    requires n < |shas|
    ensures (id, shas[n]) in run[j + 1].t.joins && run[j + 1].t.joins[(id, shas[n])] == n
  {
    BegunKept(p, run, steps, id, shas, i, j);
    assert Enabled(p, run[j], steps[j]) && run[j + 1] == Next(p, run[j], steps[j]);
    JoinsNumbered(run[j].t, id, shas);
  }

  /** It marks its files as visited at the time it read after its call was inserted. */
  lemma FilesMarked(p: Params, run: seq<State>, steps: seq<Step>, id: CallId, i: nat, j: nat, sha: Sha)
    requires IsRun(p, run, steps) && i < j < |steps| && steps[i] == ReadNow(id) && steps[j] == UpsertFiles(id)
    requires forall m :: i < m < j ==> steps[m] != AbandonRecord(id) && steps[m] != UpsertFiles(id)
    requires id in run[i].records && sha in run[i].records[id].shas
    ensures sha in run[j + 1].t.files && run[j + 1].t.files[sha].visitedAt == run[i].clock
  {
    NowKept(p, run, steps, id, i, j);
    assert run[j + 1] == Next(p, run[j], steps[j]);
    UpsertLeaves(run[j].t, run[j].records[id].shas, run[j].records[id].now);
  }

  lemma {:induction false} NowKept(p: Params, run: seq<State>, steps: seq<Step>, id: CallId, i: nat, j: nat)
    requires IsRun(p, run, steps) && i < j < |run| && steps[i] == ReadNow(id) && id in run[i].records
    requires forall m :: i < m < j ==> steps[m] != AbandonRecord(id) && steps[m] != UpsertFiles(id)
    ensures id in run[j].records && run[j].records[id] == NowRead(run[i].clock, run[i].records[id].shas)
  {
    if i + 1 < j {
      NowKept(p, run, steps, id, i, j - 1);
      assert Enabled(p, run[j - 1], steps[j - 1]) && run[j] == Next(p, run[j - 1], steps[j - 1]);
    } else {
      assert Enabled(p, run[i], steps[i]) && run[i + 1] == Next(p, run[i], steps[i]);
    }
  }
}
