/** No dangling file reference: exactly when twice the latency fits the retention. */
module RetentionTheorems {
  import opened Retention

  /** Every join row names an existing file row. */
  predicate NoDangling(t: Tables) {
    forall key :: key in t.joins ==> key.1 in t.files
  }

  predicate Start(s: State) {
    s.records == map[] && s.prunes == map[] && NoDangling(s.t)
  }

  // ----- the invariant

  predicate ScopeOk(p: Params, clock: int, scope: Scope) {
    scope.all == (p.retain <= 0) && (!scope.all ==> scope.cutoff + p.retain <= clock)
  }

  /** The files a Record is about to join are there and recent enough to stay. */
  predicate FilesHeld(p: Params, t: Tables, now: int, shas: seq<Sha>) {
    forall sha :: sha in shas ==> sha in t.files && now - p.latency <= t.files[sha].visitedAt
  }

  predicate RecordOk(p: Params, s: State, id: CallId, r: RecordPc) {
    && (p.retain <= 0 ==> r.shas == [])
    && (r.Created? ==> id !in s.t.calls)
    && (r.NowRead? || r.Upserted? ==> r.now <= s.clock)
    && (r.Upserted? && s.clock <= r.now + p.latency ==> FilesHeld(p, s.t, r.now, r.shas))
  }

  predicate Inv(p: Params, s: State) {
    && NoDangling(s.t)
    && (forall id :: id in s.records ==> RecordOk(p, s, id, s.records[id]))
    && (forall pid :: pid in s.prunes ==> ScopeOk(p, s.clock, s.prunes[pid].s))
  }

  predicate Fits(p: Params) {
    p.retain <= 0 || 2 * p.latency <= p.retain
  }

  /** An upsert may move visited_at back, but not below another Record's mark. */
  lemma UpsertKeepsHeld(p: Params, t: Tables, shas: seq<Sha>, now: int, clock: int, now2: int, shas2: seq<Sha>)
    requires clock <= now + p.latency && now2 <= clock && FilesHeld(p, t, now2, shas2)
    ensures FilesHeld(p, FilesUpserted(t, shas, now), now2, shas2)
  {
  }

  /** A prune that deletes files now cannot have a cutoff above a held file's mark. */
  lemma DeleteKeepsHeld(p: Params, t: Tables, scope: Scope, clock: int, now: int, shas: seq<Sha>)
    requires Fits(p) && p.retain > 0 && ScopeOk(p, clock, scope)
    requires clock <= now + p.latency && FilesHeld(p, t, now, shas)
    ensures FilesHeld(p, FilesDeleted(t, scope), now, shas)
  {
  }

  lemma UpsertStep(p: Params, s: State, id: CallId)
    requires Inv(p, s) && Enabled(p, s, UpsertFiles(id))
    ensures Inv(p, Next(p, s, UpsertFiles(id)))
  {
    var r := s.records[id];
    var next := Next(p, s, UpsertFiles(id));
    forall id2 | id2 in next.records ensures RecordOk(p, next, id2, next.records[id2]) {
      var r2 := next.records[id2];
      if id2 != id && r2.Upserted? && s.clock <= r2.now + p.latency {
        assert RecordOk(p, s, id2, r2);
        UpsertKeepsHeld(p, s.t, r.shas, r.now, s.clock, r2.now, r2.shas);
      }
    }
  }

  lemma DeleteFilesStep(p: Params, s: State, pid: nat)
    requires Fits(p) && Inv(p, s) && Enabled(p, s, DeleteFiles(pid))
    ensures Inv(p, Next(p, s, DeleteFiles(pid)))
  {
    var scope := s.prunes[pid].s;
    var next := Next(p, s, DeleteFiles(pid));
    forall id | id in next.records ensures RecordOk(p, next, id, next.records[id]) {
      var r := next.records[id];
      assert RecordOk(p, s, id, r);
      if r.Upserted? && s.clock <= r.now + p.latency && p.retain > 0 {
        DeleteKeepsHeld(p, s.t, scope, s.clock, r.now, r.shas);
      }
    }
    forall key | key in next.t.joins ensures key.1 in next.t.files {
      assert Referenced(s.t, key.1);
    }
  }

  lemma JoinsStep(p: Params, s: State, id: CallId)
    requires Inv(p, s) && Enabled(p, s, InsertJoins(id))
    ensures Inv(p, Next(p, s, InsertJoins(id)))
  {
    var r := s.records[id];
    assert RecordOk(p, s, id, r);
    var next := Next(p, s, InsertJoins(id));
    forall key | key in next.t.joins ensures key.1 in next.t.files {
      if key !in s.t.joins { assert key.1 in r.shas; }
    }
    assert forall id2 :: id2 in next.records ==> id2 in s.records && next.records[id2] == s.records[id2];
  }

  /** Every step keeps the invariant. */
  lemma StepKeepsInv(p: Params, s: State, step: Step)
    requires Fits(p) && Inv(p, s) && Enabled(p, s, step)
    ensures Inv(p, Next(p, s, step))
  {
    match step
    case UpsertFiles(id) => UpsertStep(p, s, id);
    case InsertJoins(id) => JoinsStep(p, s, id);
    case DeleteFiles(pid) => DeleteFilesStep(p, s, pid);
    case _ =>
  }

  lemma {:induction false} RunKeepsInv(p: Params, run: seq<State>, steps: seq<Step>, i: nat)
    requires Fits(p) && IsRun(p, run, steps) && Start(run[0]) && i < |run|
    ensures Inv(p, run[i])
  {
    if i > 0 {
      RunKeepsInv(p, run, steps, i - 1);
      StepKeepsInv(p, run[i - 1], steps[i - 1]);
    }
  }

  // ----- the converse

  const F: seq<Sha> := ["f"]

  /** With less retention than twice the latency this run leaves a join without its file:
      a late upsert moves visited_at back and a prune takes the file before the join. */
  function BadStep(d: nat, i: nat): Step
    requires i < 16
  {
    match i
    case 0 => BeginRecord(1, F)
    case 1 => InsertCall(1)
    case 2 => ReadNow(1)
    case 3 => Tick(d)
    case 4 => BeginRecord(2, F)
    case 5 => InsertCall(2)
    case 6 => ReadNow(2)
    case 7 => UpsertFiles(2)
    case 8 => UpsertFiles(1)
    case 9 => InsertJoins(1)
    case 10 => Tick(2 * d)
    case 11 => BeginPrune(0)
    case 12 => NullBlobs(0)
    case 13 => DeleteJoins(0)
    case 14 => DeleteFiles(0)
    case 15 => InsertJoins(2)
  }

  function OneCall(): Tables { Tables(map[1 := Call(0, true)], map[], map[]) }

  function TwoCalls(d: nat): Tables { Tables(map[1 := Call(0, true), 2 := Call(d, true)], map[], map[]) }

  function WithFile(d: nat, visited: nat): Tables { TwoCalls(d).(files := map["f" := File(d, visited)]) }

  function WithJoin(d: nat): Tables { WithFile(d, 0).(joins := map[(1, "f") := 0]) }

  function JoinedState(p: Params, prunes: map<nat, PrunePc>, t: Tables): State {
    State(2 * p.latency, t, map[2 := Upserted(p.latency, F)], prunes)
  }

  function Late(p: Params): Scope { Scope(2 * p.latency - p.retain, false) }

  function Nullified(p: Params): Tables { BlobsNulled(WithJoin(p.latency), Late(p)) }

  function BadState(p: Params, i: nat): State
    requires i < 17
  {
    var d := p.latency;
    match i
    case 0 => State(0, Tables(map[], map[], map[]), map[], map[])
    case 1 => State(0, Tables(map[], map[], map[]), map[1 := Created(0, F)], map[])
    case 2 => State(0, OneCall(), map[1 := Inserted(F)], map[])
    case 3 => State(0, OneCall(), map[1 := NowRead(0, F)], map[])
    case 4 => State(d, OneCall(), map[1 := NowRead(0, F)], map[])
    case 5 => State(d, OneCall(), map[1 := NowRead(0, F), 2 := Created(d, F)], map[])
    case 6 => State(d, TwoCalls(d), map[1 := NowRead(0, F), 2 := Inserted(F)], map[])
    case 7 => State(d, TwoCalls(d), map[1 := NowRead(0, F), 2 := NowRead(d, F)], map[])
    case 8 => State(d, WithFile(d, d), map[1 := NowRead(0, F), 2 := Upserted(d, F)], map[])
    case 9 => State(d, WithFile(d, 0), map[1 := Upserted(0, F), 2 := Upserted(d, F)], map[])
    case 10 => State(d, WithJoin(d), map[2 := Upserted(d, F)], map[])
    case 11 => JoinedState(p, map[], WithJoin(d))
    case 12 => JoinedState(p, map[0 := CutoffRead(Late(p))], WithJoin(d))
    case 13 => JoinedState(p, map[0 := Nulled(Late(p))], Nullified(p))
    case 14 => JoinedState(p, map[0 := Unjoined(Late(p))], Nullified(p).(joins := map[]))
    case 15 => JoinedState(p, map[], Nullified(p).(joins := map[], files := map[]))
    case 16 => State(2 * d, Nullified(p).(joins := map[(2, "f") := 0], files := map[]), map[], map[])
  }

  function BadSteps(d: nat): seq<Step> {
    seq(16, i requires 0 <= i < 16 => BadStep(d, i))
  }

  function BadRun(p: Params): seq<State> {
    seq(17, i requires 0 <= i < 17 => BadState(p, i))
  }

  ghost predicate Goes(p: Params, i: nat)
    requires i < 16
  {
    Enabled(p, BadState(p, i), BadStep(p.latency, i)) && BadState(p, i + 1) == Next(p, BadState(p, i), BadStep(p.latency, i))
  }

  lemma BadRecordsBegin(p: Params, i: nat)
    requires p.retain > 0 && i < 7
    ensures Goes(p, i)
  {
  }

  lemma BadUpsert(p: Params, visited: nat, t: Tables)
    requires (t == TwoCalls(p.latency) && visited == p.latency) || (t == WithFile(p.latency, p.latency) && visited == 0)
    ensures FilesUpserted(t, F, visited) == WithFile(p.latency, visited)
  {
    var d := p.latency;
    assert FilesUpserted(t, F, visited).files == map["f" := File(d, visited)];
  }

  lemma UpsertGoes(p: Params, s: State, id: CallId, next: State)
    requires id in s.records && s.records[id].NowRead? && s.clock <= s.records[id].now + p.latency
    requires next.clock == s.clock && next.prunes == s.prunes
    requires next.t == FilesUpserted(s.t, s.records[id].shas, s.records[id].now)
    requires next.records == s.records[id := Upserted(s.records[id].now, s.records[id].shas)]
    ensures Enabled(p, s, UpsertFiles(id)) && next == Next(p, s, UpsertFiles(id))
  {
  }

  lemma BadUpsertOfTwo(p: Params)
    requires p.retain > 0
    ensures Goes(p, 7)
  {
    var d := p.latency;
    var s, next := BadState(p, 7), BadState(p, 8);
    BadUpsert(p, d, TwoCalls(d));
    assert next.records == s.records[2 := Upserted(d, F)];
    UpsertGoes(p, s, 2, next);
  }

  lemma BadUpsertOfOne(p: Params)
    requires p.retain > 0
    ensures Goes(p, 8)
  {
    var d := p.latency;
    var s, next := BadState(p, 8), BadState(p, 9);
    BadUpsert(p, 0, WithFile(d, d));
    assert next.records == s.records[1 := Upserted(0, F)];
    UpsertGoes(p, s, 1, next);
  }

  lemma FirstJoinInserted(d: nat)
    ensures JoinsInserted(WithFile(d, 0), 1, F) == WithJoin(d)
  {
    assert PositionOf(F, "f") == 0;
    assert JoinsInserted(WithFile(d, 0), 1, F).joins == map[(1, "f") := 0];
  }

  lemma BadFirstJoin(p: Params, i: nat)
    requires p.retain > 0 && 9 <= i < 11
    ensures Goes(p, i)
  {
    FirstJoinInserted(p.latency);
    assert BadState(p, 9).records - {1} == map[2 := Upserted(p.latency, F)];
  }

  lemma BadPrune(p: Params)
    requires p.retain > 0 && 2 * p.latency > p.retain
    ensures Goes(p, 11) && Goes(p, 12)
  {
  }

  lemma BadJoinsDeleted(p: Params)
    requires p.retain > 0 && 2 * p.latency > p.retain
    ensures Goes(p, 13)
  {
    var t := Nullified(p);
    assert t.calls[1].createdAt == 0 && t.joins == map[(1, "f") := 0];
    assert JoinsDeleted(t, Late(p)).joins == map[];
  }

  lemma BadFilesDeleted(p: Params)
    requires p.retain > 0 && 2 * p.latency > p.retain
    ensures Goes(p, 14)
  {
    assert FilesDeleted(Nullified(p).(joins := map[]), Late(p)).files == map[];
  }

  lemma BadLastJoin(p: Params)
    ensures Goes(p, 15)
  {
    LastJoinInserted(Nullified(p).(joins := map[], files := map[]));
    assert BadState(p, 15).records - {2} == map[];
  }

  lemma LastJoinInserted(t: Tables)
    requires t.joins == map[]
    ensures JoinsInserted(t, 2, F) == t.(joins := map[(2, "f") := 0])
  {
    assert PositionOf(F, "f") == 0;
    assert JoinsInserted(t, 2, F).joins == map[(2, "f") := 0];
  }

  lemma BadRunGoes(p: Params, i: nat)
    requires p.retain > 0 && 2 * p.latency > p.retain && i < 16
    ensures Goes(p, i)
  {
    if i < 7 { BadRecordsBegin(p, i); }
    else if i == 7 { BadUpsertOfTwo(p); }
    else if i == 8 { BadUpsertOfOne(p); }
    else if i < 11 { BadFirstJoin(p, i); }
    else if i < 13 { BadPrune(p); }
    else if i == 13 { BadJoinsDeleted(p); }
    else if i == 14 { BadFilesDeleted(p); }
    else { BadLastJoin(p); }
  }

  lemma DanglingRun(p: Params)
    requires p.retain > 0 && 2 * p.latency > p.retain
    ensures IsRun(p, BadRun(p), BadSteps(p.latency)) && Start(BadRun(p)[0]) && !NoDangling(BadRun(p)[16].t)
  {
    var run, steps := BadRun(p), BadSteps(p.latency);
    forall i | 0 <= i < |steps| ensures Enabled(p, run[i], steps[i]) && run[i + 1] == Next(p, run[i], steps[i]) {
      BadRunGoes(p, i);
      assert Goes(p, i);
    }
    var last := Nullified(p).(joins := map[(2, "f") := 0], files := map[]);
    assert run[16].t == last && (2, "f") in last.joins;
  }

  ghost predicate AlwaysSound(p: Params) {
    forall run: seq<State>, steps, i :: IsRun(p, run, steps) && Start(run[0]) && 0 <= i < |run| ==> NoDangling(run[i].t)
  }

  /** Joins never dangle, whatever the interleaving, exactly when retention is off or
      at least twice the latency. */
  lemma NoDanglingExactly(p: Params)
    ensures AlwaysSound(p) <==> p.retain <= 0 || 2 * p.latency <= p.retain
  {
    if Fits(p) {
      forall run: seq<State>, steps, i | IsRun(p, run, steps) && Start(run[0]) && 0 <= i < |run|
        ensures NoDangling(run[i].t)
      {
        RunKeepsInv(p, run, steps, i);
      }
    } else {
      DanglingRun(p);
      assert !NoDangling(BadRun(p)[16].t);
    }
  }

  // ----- what stays inside the window

  /** Records in flight have not inserted their call twice. */
  predicate FreshIds(s: State) {
    forall id :: id in s.records && s.records[id].Created? ==> id !in s.t.calls
  }

  predicate Scopes(p: Params, s: State) {
    forall pid :: pid in s.prunes ==> ScopeOk(p, s.clock, s.prunes[pid].s)
  }

  /** The call has kept its row, its blobs and its joins. */
  ghost predicate Kept(t: Tables, later: Tables, id: CallId) {
    && id in t.calls && id in later.calls && later.calls[id] == t.calls[id]
    && (forall sha :: (id, sha) in t.joins ==> (id, sha) in later.joins && later.joins[(id, sha)] == t.joins[(id, sha)])
  }

  lemma KeptOn(a: Tables, b: Tables, c: Tables, id: CallId)
    requires Kept(a, b, id) && Kept(b, c, id)
    ensures Kept(a, c, id)
  {
  }

  lemma StepKeepsWindow(p: Params, s: State, step: Step, id: CallId)
    requires p.retain > 0 && FreshIds(s) && Scopes(p, s) && Enabled(p, s, step)
    requires id in s.t.calls && s.clock <= s.t.calls[id].createdAt + p.retain
    ensures Kept(s.t, Next(p, s, step).t, id)
  {
  }

  lemma StepKeepsShape(p: Params, s: State, step: Step)
    requires FreshIds(s) && Scopes(p, s) && Enabled(p, s, step)
    ensures FreshIds(Next(p, s, step)) && Scopes(p, Next(p, s, step)) && s.clock <= Next(p, s, step).clock
  {
  }

  lemma {:induction false} RunKeepsShape(p: Params, run: seq<State>, steps: seq<Step>, i: nat)
    requires IsRun(p, run, steps) && Start(run[0]) && i < |run|
    ensures FreshIds(run[i]) && Scopes(p, run[i])
  {
    if i > 0 {
      RunKeepsShape(p, run, steps, i - 1);
      StepKeepsShape(p, run[i - 1], steps[i - 1]);
    }
  }

  lemma {:induction false} ClockMonotone(p: Params, run: seq<State>, steps: seq<Step>, i: nat, j: nat)
    requires IsRun(p, run, steps) && Start(run[0]) && i <= j < |run|
    ensures run[i].clock <= run[j].clock
  {
    if i < j {
      ClockMonotone(p, run, steps, i, j - 1);
      RunKeepsShape(p, run, steps, j - 1);
      StepKeepsShape(p, run[j - 1], steps[j - 1]);
    }
  }

  /** One step of a run. */
  lemma StepKeepsCall(p: Params, run: seq<State>, steps: seq<Step>, k: nat, id: CallId)
    requires p.retain > 0 && IsRun(p, run, steps) && Start(run[0]) && k < |steps|
    requires id in run[k].t.calls && run[k].clock <= run[k].t.calls[id].createdAt + p.retain
    ensures Kept(run[k].t, run[k + 1].t, id)
  {
    RunKeepsShape(p, run, steps, k);
    StepKeepsWindow(p, run[k], steps[k], id);
  }

  /** A call still inside the window has kept its row, its blobs and its joins, at any
      latency. */
  lemma {:induction false} WindowKept(p: Params, run: seq<State>, steps: seq<Step>, i: nat, j: nat, id: CallId)
    requires p.retain > 0 && IsRun(p, run, steps) && Start(run[0]) && i <= j < |run|
    requires id in run[i].t.calls && run[j].clock <= run[i].t.calls[id].createdAt + p.retain
    ensures Kept(run[i].t, run[j].t, id)
  {
    if i < j {
      ClockMonotone(p, run, steps, j - 1, j);
      WindowKept(p, run, steps, i, j - 1, id);
      StepKeepsCall(p, run, steps, j - 1, id);
      KeptOn(run[i].t, run[j - 1].t, run[j].t, id);
    }
  }

  /** Together with NoDanglingExactly: inside the window a call's files can be read. */
  lemma WindowReadable(p: Params, run: seq<State>, steps: seq<Step>, i: nat, j: nat, id: CallId, sha: Sha)
    requires p.retain > 0 && 2 * p.latency <= p.retain && IsRun(p, run, steps) && Start(run[0]) && i <= j < |run|
    requires id in run[i].t.calls && run[j].clock <= run[i].t.calls[id].createdAt + p.retain
    requires (id, sha) in run[i].t.joins
    ensures (id, sha) in run[j].t.joins && sha in run[j].t.files
  {
    WindowKept(p, run, steps, i, j, id);
    RunKeepsInv(p, run, steps, j);
  }

  // ----- join rows

  lemma {:induction false} PositionIsOnly(shas: seq<Sha>, k: nat)
    requires k < |shas|
    requires forall i, j :: 0 <= i < j < |shas| ==> shas[i] != shas[j]
    ensures PositionOf(shas, shas[k]) == k
  {
    var n := |shas| - 1;
    if k < n { PositionIsOnly(shas[..n], k); }
  }

  /** One join per file, numbered in list order, and no other row touched. */
  lemma JoinsNumbered(t: Tables, id: CallId, shas: seq<Sha>)
    requires JoinsInsertable(t, id, shas)
    ensures var after := JoinsInserted(t, id, shas).joins;
      && (forall k :: 0 <= k < |shas| ==> (id, shas[k]) in after && after[(id, shas[k])] == k)
      && (forall key :: key in t.joins ==> key in after && after[key] == t.joins[key])
      && (forall key :: key in after ==> key in t.joins || (key.0 == id && key.1 in shas))
  {
    forall k | 0 <= k < |shas|
      ensures (id, shas[k]) in JoinsInserted(t, id, shas).joins && JoinsInserted(t, id, shas).joins[(id, shas[k])] == k
    {
      PositionIsOnly(shas, k);
    }
  }

  // ----- join keys

  /** Join rows belong to calls there are. */
  predicate JoinsHaveCalls(t: Tables) {
    forall key :: key in t.joins ==> key.0 in t.calls
  }

  /** No Record in flight has a join row yet. */
  predicate NotJoined(s: State) {
    forall key :: key in s.t.joins ==> key.0 !in s.records
  }

  predicate KeysOk(s: State) {
    JoinsHaveCalls(s.t) && NotJoined(s) && FreshIds(s)
    && forall id :: id in s.records && !s.records[id].Created? ==> id in s.t.calls
  }

  lemma StepKeepsKeys(p: Params, s: State, step: Step)
    requires KeysOk(s) && Enabled(p, s, step)
    ensures KeysOk(Next(p, s, step))
  {
  }

  lemma {:induction false} RunKeepsKeys(p: Params, run: seq<State>, steps: seq<Step>, i: nat)
    requires IsRun(p, run, steps) && Start(run[0]) && JoinsHaveCalls(run[0].t) && i < |run|
    ensures KeysOk(run[i])
  {
    if i > 0 {
      RunKeepsKeys(p, run, steps, i - 1);
      StepKeepsKeys(p, run[i - 1], steps[i - 1]);
    }
  }

  /** In every run, the join rows of a Record in flight can be inserted exactly if its list
      names no file twice: nobody else's rows are in the way. */
  lemma InsertableExactly(p: Params, run: seq<State>, steps: seq<Step>, i: nat, id: CallId)
    requires IsRun(p, run, steps) && Start(run[0]) && JoinsHaveCalls(run[0].t) && i < |run|
    requires id in run[i].records
    ensures var shas := run[i].records[id].shas;
      JoinsInsertable(run[i].t, id, shas) <==> forall j, k :: 0 <= j < k < |shas| ==> shas[j] != shas[k]
  {
    RunKeepsKeys(p, run, steps, i);
  }
}
