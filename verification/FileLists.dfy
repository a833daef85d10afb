/** The lists of files Record puts together: extractFiles and mergeExtracted of files.go, and
    what storeFiles of db.go can count on. */
module FileLists {
  import opened FileText
  import opened Files
  import Retention
  import RetentionTheorems

  // ----- the first of each digest

  predicate DigestsDiffer(fs: seq<File>) {
    forall i, j :: 0 <= i < j < |fs| ==> fs[i].sha != fs[j].sha
  }

  lemma FirstOfEachStep(fs: seq<File>, f: File)
    ensures FirstOfEach(fs + [f]) == WithFirst(FirstOfEach(fs), f)
  {
    assert (fs + [f])[..|fs|] == fs;
  }

  lemma ShasPlus(fs: seq<File>, f: File)
    ensures Shas(fs + [f]) == Shas(fs) + {f.sha}
  {
  }

  lemma {:induction false} FirstOfEachDistinct(fs: seq<File>)
    ensures DigestsDiffer(FirstOfEach(fs)) && Shas(FirstOfEach(fs)) == Shas(fs)
  {
    if fs != [] {
      var before, f := fs[..|fs| - 1], fs[|fs| - 1];
      FirstOfEachDistinct(before);
      assert fs == before + [f];
      ShasPlus(before, f);
      ShasPlus(FirstOfEach(before), f);
    }
  }

  lemma {:induction false} FirstOfEachOfDistinct(fs: seq<File>)
    requires DigestsDiffer(fs)
    ensures FirstOfEach(fs) == fs
  {
    if fs != [] {
      var before := fs[..|fs| - 1];
      assert forall i :: 0 <= i < |before| ==> before[i] == fs[i];
      FirstOfEachOfDistinct(before);
      assert fs == before + [fs[|fs| - 1]];
    }
  }

  /** Taking the first of each list before joining the lists changes nothing. */
  lemma {:induction false} FirstOfEachBoth(a: seq<File>, b: seq<File>)
    ensures FirstOfEach(FirstOfEach(a) + FirstOfEach(b)) == FirstOfEach(a + b)
  {
    if b == [] {
      FirstOfEachTwice(a);
      assert FirstOfEach(a) + [] == FirstOfEach(a) && a + b == a;
    } else {
      var before, f := b[..|b| - 1], b[|b| - 1];
      assert b == before + [f];
      FirstOfEachBoth(a, before);
      FirstOfEachBothStep(a, before, f);
    }
  }

  lemma FirstOfEachTwice(a: seq<File>)
    ensures FirstOfEach(FirstOfEach(a)) == FirstOfEach(a)
  {
    FirstOfEachDistinct(a);
    FirstOfEachOfDistinct(FirstOfEach(a));
  }

  lemma FirstOfEachAfter(a: seq<File>, b: seq<File>, f: File)
    ensures FirstOfEach(a + (b + [f])) == WithFirst(FirstOfEach(a + b), f)
  {
    assert a + (b + [f]) == a + b + [f];
    FirstOfEachStep(a + b, f);
  }

  lemma ShasInBoth(a: seq<File>, b: seq<File>)
    ensures Shas(FirstOfEach(b)) <= Shas(FirstOfEach(a + b))
  {
    FirstOfEachDistinct(b);
    FirstOfEachDistinct(a + b);
    assert forall g :: g in b ==> g in a + b;
  }

  lemma FirstOfEachBothStep(a: seq<File>, b: seq<File>, f: File)
    requires FirstOfEach(FirstOfEach(a) + FirstOfEach(b)) == FirstOfEach(a + b)
    ensures FirstOfEach(FirstOfEach(a) + FirstOfEach(b + [f])) == FirstOfEach(a + (b + [f]))
  {
    var first := FirstOfEach(b);
    FirstOfEachAfter(a, b, f);
    FirstOfEachStep(b, f);
    if f.sha in Shas(first) {
      ShasInBoth(a, b);
    } else {
      FirstOfEachAfter(FirstOfEach(a), first, f);
    }
  }

  function FirstAt(fs: seq<File>, sha: string): (n: nat)
    requires sha in Shas(fs)
    ensures n < |fs| && fs[n].sha == sha && forall j :: 0 <= j < n ==> fs[j].sha != sha
  {
    var before := fs[..|fs| - 1];
    assert fs == before + [fs[|fs| - 1]];
    if sha in Shas(before) then FirstAt(before, sha)
    else
      assert forall j :: 0 <= j < |before| ==> fs[j] == before[j] && fs[j].sha in Shas(before);
      |fs| - 1
  }

  /** The entries are the first ones with their digests, in the order of the list. */
  lemma {:induction false} FirstOfEachInOrder(fs: seq<File>, i: nat, j: nat)
    requires i <= j < |FirstOfEach(fs)|
    ensures FirstOfEach(fs)[i].sha in Shas(fs) && FirstOfEach(fs)[j].sha in Shas(fs)
    ensures FirstOfEach(fs)[i] == fs[FirstAt(fs, FirstOfEach(fs)[i].sha)]
    ensures i < j ==> FirstAt(fs, FirstOfEach(fs)[i].sha) < FirstAt(fs, FirstOfEach(fs)[j].sha)
  {
    var before, f := fs[..|fs| - 1], fs[|fs| - 1];
    var list := FirstOfEach(before);
    assert fs == before + [f];
    ShasPlus(before, f);
    FirstOfEachDistinct(before);
    FirstOfEachDistinct(fs);
    assert FirstOfEach(fs)[i].sha in Shas(FirstOfEach(fs)) && FirstOfEach(fs)[j].sha in Shas(FirstOfEach(fs));
    if j < |list| {
      FirstOfEachInOrder(before, i, j);
    } else if i < |list| {
      FirstOfEachInOrder(before, i, i);
    }
  }

  // ----- mergeExtracted

  method MergeExtracted(a: seq<File>, b: seq<File>) returns (out: seq<File>)
    ensures out == if a == [] then b else if b == [] then a else FirstOfEach(a + b)
  {
    if a == [] {
      return b;
    }
    if b == [] {
      return a;
    }
    var seen: set<string> := {};
    out := [];
    var sources := [a, b];
    ghost var done: seq<File> := [];
    for i := 0 to |sources|
      invariant done == if i == 0 then [] else if i == 1 then a else a + b
      invariant out == FirstOfEach(done) && seen == Shas(out)
    {
      assert done + sources[i][..0] == done;
      for j := 0 to |sources[i]|
        invariant out == FirstOfEach(done + sources[i][..j]) && seen == Shas(out)
      {
        var f := sources[i][j];
        assert done + sources[i][..j + 1] == done + sources[i][..j] + [f];
        FirstOfEachStep(done + sources[i][..j], f);
        if f.sha in seen {
          continue;
        }
        ShasPlus(out, f);
        seen := seen + {f.sha};
        out := out + [f];
      }
      assert sources[i][..|sources[i]|] == sources[i];
      done := done + sources[i];
    }
  }

  /** With nothing twice in either list the shortcuts make no difference. */
  lemma MergedIsFirstOfEach(a: seq<File>, b: seq<File>)
    requires DigestsDiffer(a) && DigestsDiffer(b)
    ensures a == [] ==> b == FirstOfEach(a + b)
    ensures b == [] ==> a == FirstOfEach(a + b)
  {
    FirstOfEachOfDistinct(a);
    FirstOfEachOfDistinct(b);
    assert a == [] ==> a + b == b;
    assert b == [] ==> a + b == a;
  }

  // ----- the joins of a list

  function Digests(fs: seq<File>): seq<string> {
    seq(|fs|, i requires 0 <= i < |fs| => fs[i].sha)
  }

  /** The join rows of a new call never collide, and are numbered from 0 in list order. */
  lemma NoJoinKeyCollision(t: Retention.Tables, id: Retention.CallId, got: seq<File>)
    requires forall key :: key in t.joins ==> key.0 != id
    ensures var files := FirstOfEach(got);
      && Retention.JoinsInsertable(t, id, Digests(files))
      && var after := Retention.JoinsInserted(t, id, Digests(files));
         forall i :: 0 <= i < |files| ==> (id, files[i].sha) in after.joins && after.joins[(id, files[i].sha)] == i
  {
    FirstOfEachDistinct(got);
    var shas := Digests(FirstOfEach(got));
    forall i, j | 0 <= i < j < |shas| ensures shas[i] != shas[j] {}
    RetentionTheorems.JoinsNumbered(t, id, shas);
    assert forall i :: 0 <= i < |shas| ==> shas[i] == FirstOfEach(got)[i].sha;
  }

  /** So the joins of every Record in flight, in every run, go in as listed. */
  lemma InFlightJoinsGoIn(p: Retention.Params, run: seq<Retention.State>, steps: seq<Retention.Step>, i: nat,
                          id: Retention.CallId, got: seq<File>)
    requires Retention.IsRun(p, run, steps) && RetentionTheorems.Start(run[0]) && i < |run|
    requires RetentionTheorems.JoinsHaveCalls(run[0].t)
    requires id in run[i].records && run[i].records[id].shas == Digests(FirstOfEach(got))
    ensures var files := FirstOfEach(got);
      && Retention.JoinsInsertable(run[i].t, id, Digests(files))
      && var after := Retention.JoinsInserted(run[i].t, id, Digests(files));
         forall k :: 0 <= k < |files| ==> (id, files[k].sha) in after.joins && after.joins[(id, files[k].sha)] == k
  {
    RetentionTheorems.RunKeepsKeys(p, run, steps, i);
    NoJoinKeyCollision(run[i].t, id, got);
  }
}
