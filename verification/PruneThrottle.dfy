/** pruneAsync of db.go: any number of goroutines, one try-lock, one prune in fifty. */
module PruneThrottle {

  const PRUNE_EVERY_N: nat := 50

  /** Where the goroutine holding the lock stands. */
  datatype Holder = Free | Counting | Pruning

  /** Besides the source's sincePrune: how many calls have returned, how many of them
      found the lock taken, and how many prunes were run. */
  datatype State = State(holder: Holder, sincePrune: nat, completed: nat, skipped: nat, prunes: nat)

  const INIT := State(Free, 0, 0, 0, 0)

  datatype Step =
    | TryLock    // a new call
    | Count      // the holder adds one to sincePrune
    | PruneDone  // the holder's prune returns, with or without an error

  predicate Enabled(s: State, step: Step) {
    match step
    case TryLock => true
    case Count => s.holder.Counting?
    case PruneDone => s.holder.Pruning?
  }

  function Next(s: State, step: Step): State
    requires Enabled(s, step)
  {
    match step
    case TryLock =>
      if s.holder.Free? then s.(holder := Counting)
      else s.(completed := s.completed + 1, skipped := s.skipped + 1)
    case Count =>
      if s.sincePrune + 1 < PRUNE_EVERY_N
      then s.(sincePrune := s.sincePrune + 1, holder := Free, completed := s.completed + 1)
      else s.(sincePrune := 0, holder := Pruning, prunes := s.prunes + 1)
    case PruneDone => s.(holder := Free, completed := s.completed + 1)
  }

  predicate IsRun(run: seq<State>, steps: seq<Step>) {
    && |run| == |steps| + 1 && run[0] == INIT
    && forall i :: 0 <= i < |steps| ==> Enabled(run[i], steps[i]) && run[i + 1] == Next(run[i], steps[i])
  }

  /** Every completed call is accounted for: fifty per prune, the ones counted since, and
      the ones that found the lock taken. */
  lemma {:induction false} CallsAccounted(run: seq<State>, steps: seq<Step>, i: nat)
    requires IsRun(run, steps) && i < |run|
    ensures run[i].sincePrune < 50 && (run[i].holder.Pruning? ==> run[i].sincePrune == 0)
    ensures 50 * run[i].prunes + run[i].sincePrune + run[i].skipped
         == run[i].completed + if run[i].holder.Pruning? then 1 else 0
  {
    if i > 0 { CallsAccounted(run, steps, i - 1); }
  }
}
