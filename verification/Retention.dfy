/** The retention protocol of db.go: Record and prune as interleaved database
    statements over three tables. */
module Retention {

  type CallId = nat
  type Sha = string

  datatype Call = Call(createdAt: int, blobs: bool)

  /** A file row, its content left out. */
  datatype File = File(createdAt: int, visitedAt: int)

  /** llm_calls, llm_files and llm_call_files; a join's value is its seq column. */
  datatype Tables = Tables(calls: map<CallId, Call>, files: map<Sha, File>, joins: map<(CallId, Sha), nat>)

  // ----- the statements

  function CallInserted(t: Tables, id: CallId, createdAt: int, blobs: bool): Tables {
    t.(calls := t.calls[id := Call(createdAt, blobs)])
  }

  /** INSERT .. ON DUPLICATE KEY UPDATE visited_at: created_at of an old row stays. */
  function FilesUpserted(t: Tables, shas: seq<Sha>, now: int): Tables {
    t.(files := map sha | sha in t.files.Keys + (set s | s in shas) ::
         if sha !in shas then t.files[sha]
         else if sha in t.files then t.files[sha].(visitedAt := now)
         else File(now, now))
  }

  predicate JoinsInsertable(t: Tables, id: CallId, shas: seq<Sha>) {
    && (forall i, j :: 0 <= i < j < |shas| ==> shas[i] != shas[j])
    && (forall sha :: sha in shas ==> (id, sha) !in t.joins)
  }

  function JoinsInserted(t: Tables, id: CallId, shas: seq<Sha>): Tables {
    t.(joins := map key | key in t.joins.Keys + (set s | s in shas :: (id, s)) ::
         if key in t.joins then t.joins[key] else PositionOf(shas, key.1))
  }

  function PositionOf(shas: seq<Sha>, sha: Sha): (n: nat)
    ensures sha in shas ==> n < |shas| && shas[n] == sha
  {
    if shas == [] then 0
    else if shas[|shas| - 1] == sha then |shas| - 1
    else PositionOf(shas[..|shas| - 1], sha)
  }

  /** What a prune may touch: everything, or what is older than the cutoff. */
  datatype Scope = Scope(cutoff: int, all: bool)

  function PruneFileScope(retain: int, now: int): Scope {
    if retain <= 0 then Scope(0, true) else Scope(now - retain, false)
  }

  predicate Old(s: Scope, at: int) {
    s.all || at < s.cutoff
  }

  function BlobsNulled(t: Tables, s: Scope): Tables {
    t.(calls := map id | id in t.calls ::
         if Old(s, t.calls[id].createdAt) then t.calls[id].(blobs := false) else t.calls[id])
  }

  predicate JoinExpired(t: Tables, s: Scope, id: CallId) {
    s.all || (id in t.calls && t.calls[id].createdAt < s.cutoff)
  }

  function JoinsDeleted(t: Tables, s: Scope): Tables {
    t.(joins := map key | key in t.joins && !JoinExpired(t, s, key.0) :: t.joins[key])
  }

  predicate Referenced(t: Tables, sha: Sha) {
    exists key :: key in t.joins && key.1 == sha
  }

  function FilesDeleted(t: Tables, s: Scope): Tables {
    t.(files := map sha | sha in t.files && (Referenced(t, sha) || !Old(s, t.files[sha].visitedAt)) :: t.files[sha])
  }

  // ----- calls in flight

  datatype RecordPc =
    | Created(createdAt: int, shas: seq<Sha>)
    | Inserted(shas: seq<Sha>)
    | NowRead(now: int, shas: seq<Sha>)
    | Upserted(now: int, shas: seq<Sha>)

  datatype PrunePc =
    | CutoffRead(s: Scope)
    | Nulled(s: Scope)
    | Unjoined(s: Scope)

  datatype State = State(
    clock: int,
    t: Tables,
    records: map<CallId, RecordPc>,
    prunes: map<nat, PrunePc>)

  /** retain as configured, and a bound on how long after reading its now a Record
      still upserts and joins. */
  datatype Params = Params(retain: int, latency: nat)

  datatype Step =
    | Tick(to: int)
    | BeginRecord(id: CallId, shas: seq<Sha>)
    | InsertCall(id: CallId)
    | ReadNow(id: CallId)
    | UpsertFiles(id: CallId)
    | InsertJoins(id: CallId)
    | AbandonRecord(id: CallId)
    | BeginPrune(pid: nat)
    | NullBlobs(pid: nat)
    | DeleteJoins(pid: nat)
    | DeleteFiles(pid: nat)
    | AbandonPrune(pid: nat)

  /** When a step can be taken. Ids are fresh (auto-increment); a Record has files
      only with retention on; upsert and join come within the latency. */
  predicate Enabled(p: Params, s: State, step: Step) {
    match step
    case Tick(to) => s.clock <= to
    case BeginRecord(id, shas) => id !in s.records && id !in s.t.calls && (p.retain <= 0 ==> shas == [])
    case InsertCall(id) => id in s.records && s.records[id].Created?
    case ReadNow(id) => id in s.records && s.records[id].Inserted? && s.records[id].shas != []
    case UpsertFiles(id) => id in s.records && s.records[id].NowRead? && s.clock <= s.records[id].now + p.latency
    case InsertJoins(id) =>
      id in s.records && s.records[id].Upserted? && s.clock <= s.records[id].now + p.latency
      && JoinsInsertable(s.t, id, s.records[id].shas)
    case AbandonRecord(id) => id in s.records
    case BeginPrune(pid) => pid !in s.prunes
    case NullBlobs(pid) => pid in s.prunes && s.prunes[pid].CutoffRead?
    case DeleteJoins(pid) => pid in s.prunes && s.prunes[pid].Nulled?
    case DeleteFiles(pid) => pid in s.prunes && s.prunes[pid].Unjoined?
    case AbandonPrune(pid) => pid in s.prunes
  }

  function Next(p: Params, s: State, step: Step): State
    requires Enabled(p, s, step)
  {
    match step
    case Tick(to) => s.(clock := to)
    case BeginRecord(id, shas) => s.(records := s.records[id := Created(s.clock, shas)])
    case InsertCall(id) =>
      var r := s.records[id];
      s.(t := CallInserted(s.t, id, r.createdAt, p.retain > 0), records := s.records[id := Inserted(r.shas)])
    case ReadNow(id) => s.(records := s.records[id := NowRead(s.clock, s.records[id].shas)])
    case UpsertFiles(id) =>
      var r := s.records[id];
      s.(t := FilesUpserted(s.t, r.shas, r.now), records := s.records[id := Upserted(r.now, r.shas)])
    case InsertJoins(id) =>
      s.(t := JoinsInserted(s.t, id, s.records[id].shas), records := s.records - {id})
    case AbandonRecord(id) => s.(records := s.records - {id})
    case BeginPrune(pid) => s.(prunes := s.prunes[pid := CutoffRead(PruneFileScope(p.retain, s.clock))])
    case NullBlobs(pid) =>
      s.(t := BlobsNulled(s.t, s.prunes[pid].s), prunes := s.prunes[pid := Nulled(s.prunes[pid].s)])
    case DeleteJoins(pid) =>
      s.(t := JoinsDeleted(s.t, s.prunes[pid].s), prunes := s.prunes[pid := Unjoined(s.prunes[pid].s)])
    case DeleteFiles(pid) =>
      s.(t := FilesDeleted(s.t, s.prunes[pid].s), prunes := s.prunes - {pid})
    case AbandonPrune(pid) => s.(prunes := s.prunes - {pid})
  }

  /** A finite run: the states it goes through, one step apart. */
  predicate IsRun(p: Params, run: seq<State>, steps: seq<Step>) {
    && |run| == |steps| + 1
    && forall i :: 0 <= i < |steps| ==> Enabled(p, run[i], steps[i]) && run[i + 1] == Next(p, run[i], steps[i])
  }
}
