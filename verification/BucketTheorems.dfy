/** The filled usage series loses no row, counts none twice and stays short. */
module BucketTheorems {
  import opened Options
  import opened Calendar
  import opened Buckets

  // ----- buckets and their labels

  lemma HoursOfDay(t: int)
    ensures t / HOUR == 24 * (t / DAY) + t % DAY / HOUR
    ensures 0 <= t % DAY / HOUR < 24
  {
    var d, r := t / DAY, t % DAY;
    var h, s := r / HOUR, r % HOUR;
    assert t == DAY * d + r && r == HOUR * h + s && DAY == 24 * HOUR;
    assert t == HOUR * (24 * d + h) + s;
  }

  /** A bucket is the stretch from its start to the next start. */
  lemma TruncateIs(t: int, b: Bucket)
    ensures Truncate(t, b) <= t < Next(Truncate(t, b), b)
    ensures Truncate(t, b) == Floor(t, b)
  {
    DateRoundTrip(t / DAY);
    HoursOfDay(t);
  }

  lemma FloorIs(t: int, b: Bucket)
    ensures Floor(t, b) <= t < Floor(t, b) + b.Size()
  {
    DivMod(t, HOUR);
    DivMod(t, DAY);
  }

  lemma SameDayOrHour(t: int, u: int, n: int)
    requires n == HOUR || n == DAY
    requires u <= t < u + n && u % n == 0
    ensures t / n * n == u
  {
    var q, k := t / n, u / n;
    assert t == q * n + t % n && u == k * n;
    assert (q - k) * n < n && (q - k) * n > -n;
    assert q == k;
  }

  /** Two instants have the same label exactly if they are in the same bucket. */
  lemma SameLabelExactly(t: int, u: int, b: Bucket)
    ensures LabelOf(t, b) == LabelOf(u, b) <==> Floor(t, b) == Floor(u, b)
    ensures LabelOf(t, b) == LabelOf(u, b) <==> Truncate(t, b) == Truncate(u, b)
  {
    TruncateIs(t, b);
    TruncateIs(u, b);
    LabelIs(t, u, b);
    SameMultiple(t / HOUR, u / HOUR, HOUR);
    SameMultiple(t / DAY, u / DAY, DAY);
    SameMultiple(Monday(t / DAY), Monday(u / DAY), DAY);
  }

  /** A label says which hour, day or week it is. */
  lemma LabelIs(t: int, u: int, b: Bucket)
    ensures b.Hourly? ==> (LabelOf(t, b) == LabelOf(u, b) <==> t / HOUR == u / HOUR)
    ensures b.Daily? ==> (LabelOf(t, b) == LabelOf(u, b) <==> t / DAY == u / DAY)
    ensures b.Weekly? ==> (LabelOf(t, b) == LabelOf(u, b) <==> Monday(t / DAY) == Monday(u / DAY))
  {
    if b.Hourly? {
      HoursOfDay(t);
      HoursOfDay(u);
      HourLabels(t / DAY, t % DAY / HOUR, u / DAY, u % DAY / HOUR);
    } else if b.Daily? {
      DatesExactly(t / DAY, u / DAY);
    } else {
      WeekLabels(t / DAY, u / DAY);
    }
  }

  lemma HourLabels(a: int, h: int, c: int, k: int)
    requires 0 <= h < 24 && 0 <= k < 24
    ensures HourOf(DateOf(a), h) == HourOf(DateOf(c), k) <==> 24 * a + h == 24 * c + k
  {
    DatesExactly(a, c);
  }

  lemma WeekLabels(a: int, c: int)
    ensures WeekLabel(IsoWeek(a).0, IsoWeek(a).1) == WeekLabel(IsoWeek(c).0, IsoWeek(c).1) <==> Monday(a) == Monday(c)
  {
    WeeksExactly(a, c);
  }

  lemma DatesExactly(a: int, b: int)
    ensures DateOf(a) == DateOf(b) <==> a == b
  {
    if DateOf(a) == DateOf(b) { DatesDiffer(a, b); }
  }

  lemma WeeksExactly(a: int, b: int)
    ensures IsoWeek(a) == IsoWeek(b) <==> Monday(a) == Monday(b)
  {
    if IsoWeek(a) == IsoWeek(b) { IsoWeeksDiffer(a, b); }
  }

  lemma SameMultiple(a: int, b: int, n: int)
    requires n == HOUR || n == DAY
    ensures a * n == b * n <==> a == b
  {
  }

  /** An instant a bucket starts at. */
  predicate IsStart(s: int, b: Bucket) {
    Floor(s, b) == s
  }

  lemma StartShape(s: int, b: Bucket)
    ensures IsStart(s, b) <==> OnBoundary(s, b)
  {
    DivMod(s, HOUR);
    DivMod(s, DAY);
    if b.Weekly? { SameMultiple(Monday(s / DAY), s / DAY, DAY); WeekShape(s / DAY, s % DAY, SinceMonday(s / DAY)); }
  }

  lemma DivMod(t: int, n: int)
    requires n == HOUR || n == DAY
    ensures t == t / n * n + t % n && 0 <= t % n < n
  {
  }

  lemma WeekShape(day: int, rest: int, since: int)
    requires 0 <= since && 0 <= rest
    ensures (day - since) * DAY == day * DAY + rest <==> since == 0 && rest == 0
  {
  }

  /** What makes an instant the start of a bucket. */
  predicate OnBoundary(s: int, b: Bucket) {
    match b
    case Hourly => s % HOUR == 0
    case Daily => s % DAY == 0
    case Weekly => s % DAY == 0 && SinceMonday(s / DAY) == 0
  }

  lemma BoundaryAfterBoundary(s: int, b: Bucket)
    requires OnBoundary(s, b)
    ensures OnBoundary(s + b.Size(), b)
  {
    match b
    case Hourly => Shifted(s, HOUR, 1);
    case Daily => Shifted(s, DAY, 1);
    case Weekly => Shifted(s, DAY, 7);
  }

  lemma StartAfterStart(s: int, b: Bucket)
    ensures IsStart(s, b) ==> IsStart(s + b.Size(), b)
  {
    StartShape(s, b);
    if OnBoundary(s, b) { BoundaryAfterBoundary(s, b); }
    StartShape(s + b.Size(), b);
  }

  lemma Shifted(s: int, n: int, k: int)
    requires (n == HOUR && k == 1) || (n == DAY && (k == 1 || k == 7))
    ensures (s + k * n) % n == s % n && (s + k * n) / n == s / n + k
  {
  }

  lemma FloorIsStart(t: int, b: Bucket)
    ensures IsStart(Floor(t, b), b)
  {
    MultipleOf(t / HOUR, HOUR);
    MultipleOf(t / DAY, DAY);
    MultipleOf(Monday(t / DAY), DAY);
    MondayIsMonday(t / DAY);
    StartShape(Floor(t, b), b);
  }

  lemma MultipleOf(k: int, n: int)
    requires n == HOUR || n == DAY
    ensures k * n % n == 0 && k * n / n == k
  {
  }

  /** All of a bucket is cut down to its start. */
  lemma FloorInside(s: int, b: Bucket, t: int)
    requires IsStart(s, b) && s <= t < s + b.Size()
    ensures Floor(t, b) == s
  {
    StartShape(s, b);
    match b
    case Hourly => SameDayOrHour(t, s, HOUR);
    case Daily => SameDayOrHour(t, s, DAY);
    case Weekly => DaysApart(s, t);
  }

  lemma DaysApart(s: int, t: int)
    requires s % DAY == 0 && SinceMonday(s / DAY) == 0 && s <= t < s + 7 * DAY
    ensures Monday(t / DAY) * DAY == s
  {
    var a, d := s / DAY, t / DAY;
    DivMod(s, DAY);
    DivMod(t, DAY);
    assert a <= d < a + 7;
    assert (a + 4) % 7 == 1;
    assert Monday(d) == a;
  }

  // ----- the series of starts, for any scale

  ghost predicate CoversAt(sc: Scale, t: int) {
    sc.start(t) <= t < sc.start(t) + sc.size && sc.start(sc.start(t)) == sc.start(t)
  }

  ghost predicate InsideAt(sc: Scale, s: int, t: int) {
    sc.start(s) == s && s <= t < s + sc.size ==> sc.start(t) == s
  }

  ghost predicate StepsAt(sc: Scale, s: int) {
    sc.start(s) == s ==> sc.start(s + sc.size) == s + sc.size
  }

  ghost predicate NamesAt(sc: Scale, t: int, u: int) {
    sc.name(t) == sc.name(u) <==> sc.start(t) == sc.start(u)
  }

  /** The buckets tile the time line, and no two have the same name. */
  ghost predicate Tiles(sc: Scale) {
    && (forall t :: CoversAt(sc, t))
    && (forall s, t :: InsideAt(sc, s, t))
    && (forall s :: StepsAt(sc, s))
    && (forall t, u :: NamesAt(sc, t, u))
  }

  lemma {:induction false} StartsAre(sc: Scale, start: int, until: int, i: nat)
    requires Tiles(sc) && sc.start(start) == start && i < |Starts(start, until, sc.size)|
    ensures var s := Starts(start, until, sc.size)[i];
      sc.start(s) == s && start <= s < until && (i > 0 ==> start < s)
    decreases i
  {
    if i > 0 {
      assert StepsAt(sc, start);
      StartsAre(sc, start + sc.size, until, i - 1);
    }
  }

  lemma {:induction false} StartsIncrease(sc: Scale, start: int, until: int, i: nat, j: nat)
    requires Tiles(sc) && sc.start(start) == start && i < j < |Starts(start, until, sc.size)|
    ensures Starts(start, until, sc.size)[i] < Starts(start, until, sc.size)[j]
    decreases i
  {
    if i == 0 {
      StartsAre(sc, start, until, j);
    } else {
      assert StepsAt(sc, start);
      StartsIncrease(sc, start + sc.size, until, i - 1, j - 1);
    }
  }

  lemma {:induction false} StartsMissNone(sc: Scale, start: int, until: int, s: int)
    requires Tiles(sc) && sc.start(start) == start && sc.start(s) == s && start <= s < until
    ensures s in Starts(start, until, sc.size)
    decreases until - start
  {
    if s != start {
      assert InsideAt(sc, start, s) && StepsAt(sc, start);
      StartsMissNone(sc, start + sc.size, until, s);
    }
  }

  lemma {:induction false} StartsFew(start: int, until: int, size: Positive, n: nat)
    requires until <= start + n * size
    ensures |Starts(start, until, size)| <= n
    decreases n
  {
    if n == 0 {
      assert n * size == 0;
    } else if start < until {
      assert n * size == (n - 1) * size + size;
      StartsFew(start + size, until, size, n - 1);
    }
  }

  // ----- rows put at their starts

  predicate DistinctLabels(rows: seq<Row>) {
    forall i, j :: 0 <= i < j < |rows| ==> rows[i].bucket != rows[j].bucket
  }

  lemma RowForIs(rows: seq<Row>, l: Label)
    requires DistinctLabels(rows)
    ensures forall j :: 0 <= j < |rows| && rows[j].bucket == l ==> RowFor(rows, l) == rows[j]
    ensures (forall j :: 0 <= j < |rows| ==> rows[j].bucket != l) ==> RowFor(rows, l) == Row(l, 0, 0, 0, 0, 0)
  {
    if j :| 0 <= j < |rows| && rows[j].bucket == l { assert rows[j] in rows; }
  }

  datatype Totals = Totals(calls: int, input: int, output: int, cache: int, uncached: int)

  function Plus(t: Totals, r: Row): Totals {
    Totals(t.calls + r.calls, t.input + r.input, t.output + r.output, t.cache + r.cache, t.uncached + r.uncached)
  }

  function Sum(rows: seq<Row>): Totals {
    if rows == [] then Totals(0, 0, 0, 0, 0) else Plus(Sum(rows[..|rows| - 1]), rows[|rows| - 1])
  }

  /** Each total is the sum of its own column. */
  lemma {:induction false} SumByColumn(rows: seq<Row>)
    ensures Sum(rows).calls == Added(rows, (r: Row) => r.calls)
    ensures Sum(rows).input == Added(rows, (r: Row) => r.input)
    ensures Sum(rows).output == Added(rows, (r: Row) => r.output)
    ensures Sum(rows).cache == Added(rows, (r: Row) => r.cache)
    ensures Sum(rows).uncached == Added(rows, (r: Row) => r.uncached)
  {
    if rows != [] { SumByColumn(rows[..|rows| - 1]); }
  }

  function Added(rows: seq<Row>, column: Row -> int): int {
    if rows == [] then 0 else Added(rows[..|rows| - 1], column) + column(rows[|rows| - 1])
  }

  /** The totals loop of handleAdminUsage. */
  method UsageTotals(series: seq<Row>) returns (t: Totals)
    ensures t == Sum(series)
  {
    t := Totals(0, 0, 0, 0, 0);
    for i := 0 to |series|
      invariant t == Sum(series[..i])
    {
      assert series[..i + 1][..i] == series[..i];
      t := Totals(t.calls + series[i].calls, t.input + series[i].input, t.output + series[i].output,
                  t.cache + series[i].cache, t.uncached + series[i].uncached);
    }
    assert series[..|series|] == series;
  }

  function Without(rows: seq<Row>, j: nat): (rest: seq<Row>)
    requires j < |rows|
    ensures |rest| == |rows| - 1
    ensures forall i :: 0 <= i < |rest| ==> rest[i] == rows[if i < j then i else i + 1]
  {
    rows[..j] + rows[j + 1..]
  }

  lemma {:induction false} SumWithout(rows: seq<Row>, j: nat)
    requires j < |rows|
    ensures Sum(rows) == Plus(Sum(Without(rows, j)), rows[j])
    decreases |rows|
  {
    var n := |rows| - 1;
    if j == n {
      assert Without(rows, j) == rows[..n];
    } else {
      SumWithout(rows[..n], j);
      assert Without(rows, j)[..n - 1] == Without(rows[..n], j);
    }
  }

  /** Every row is named by one of the instants. */
  ghost predicate Placed(rows: seq<Row>, starts: seq<int>, sc: Scale) {
    forall j :: 0 <= j < |rows| ==> PlaceOf(rows[j].bucket, starts, sc)
  }

  ghost predicate PlaceOf(l: Label, starts: seq<int>, sc: Scale) {
    exists i :: 0 <= i < |starts| && sc.name(starts[i]) == l
  }

  ghost predicate NamesDiffer(starts: seq<int>, sc: Scale) {
    forall i, j :: 0 <= i < j < |starts| ==> sc.name(starts[i]) != sc.name(starts[j])
  }

  lemma PlacedBefore(l: Label, starts: seq<int>, sc: Scale)
    requires starts != [] && PlaceOf(l, starts, sc) && sc.name(starts[|starts| - 1]) != l
    ensures PlaceOf(l, starts[..|starts| - 1], sc)
  {
    var i :| 0 <= i < |starts| && sc.name(starts[i]) == l;
    assert starts[..|starts| - 1][i] == starts[i];
  }

  lemma NowhereToPlace(rows: seq<Row>, sc: Scale)
    requires rows != []
    ensures !Placed(rows, [], sc)
  {
    assert !PlaceOf(rows[0].bucket, [], sc);
  }

  lemma {:induction false} SumsAt(rows: seq<Row>, starts: seq<int>, sc: Scale)
    requires DistinctLabels(rows) && NamesDiffer(starts, sc) && Placed(rows, starts, sc)
    ensures Sum(RowsAt(rows, starts, sc)) == Sum(rows)
    decreases |starts|
  {
    if starts == [] {
      if rows != [] {
        NowhereToPlace(rows, sc);
        assert false;
      }
    } else {
      var n := |starts| - 1;
      var l, before := sc.name(starts[n]), starts[..n];
      RowForIs(rows, l);
      if j :| 0 <= j < |rows| && rows[j].bucket == l {
        WithoutRow(rows, starts, sc, j);
        SumsAt(Without(rows, j), before, sc);
        SumWithout(rows, j);
        SumAtLast(rows, starts, sc);
      } else {
        forall j | 0 <= j < |rows| ensures PlaceOf(rows[j].bucket, before, sc) { PlacedBefore(rows[j].bucket, starts, sc); }
        SumsAt(rows, before, sc);
        SumAtLast(rows, starts, sc);
      }
    }
  }

  lemma SumAtLast(rows: seq<Row>, starts: seq<int>, sc: Scale)
    requires starts != []
    ensures var n := |starts| - 1;
      Sum(RowsAt(rows, starts, sc)) == Plus(Sum(RowsAt(rows, starts[..n], sc)), RowFor(rows, sc.name(starts[n])))
  {
    var out := RowsAt(rows, starts, sc);
    assert out[..|out| - 1] == RowsAt(rows, starts[..|starts| - 1], sc);
  }

  /** Taking the last start away, and the row it names. */
  lemma WithoutRow(rows: seq<Row>, starts: seq<int>, sc: Scale, j: nat)
    requires DistinctLabels(rows) && NamesDiffer(starts, sc) && Placed(rows, starts, sc)
    requires starts != [] && j < |rows| && rows[j].bucket == sc.name(starts[|starts| - 1])
    ensures var rest, before := Without(rows, j), starts[..|starts| - 1];
      && DistinctLabels(rest) && NamesDiffer(before, sc) && Placed(rest, before, sc)
      && RowsAt(rows, before, sc) == RowsAt(rest, before, sc)
  {
    var rest, before := Without(rows, j), starts[..|starts| - 1];
    forall i | 0 <= i < |rest| ensures PlaceOf(rest[i].bucket, before, sc) {
      var k := if i < j then i else i + 1;
      assert rest[i] == rows[k];
      PlacedBefore(rows[k].bucket, starts, sc);
    }
    forall i | 0 <= i < |before| ensures RowFor(rows, sc.name(before[i])) == RowFor(rest, sc.name(before[i])) {
      RowElsewhere(rows, j, sc.name(before[i]));
    }
    SameRows(rows, rest, before, sc);
  }

  lemma WithoutDistinct(rows: seq<Row>, j: nat)
    requires DistinctLabels(rows) && j < |rows|
    ensures DistinctLabels(Without(rows, j))
  {
  }

  lemma RowElsewhere(rows: seq<Row>, j: nat, l: Label)
    requires DistinctLabels(rows) && j < |rows| && rows[j].bucket != l
    ensures RowFor(rows, l) == RowFor(Without(rows, j), l)
  {
    if k :| 0 <= k < |rows| && rows[k].bucket == l {
      SameRow(rows, j, k);
    } else {
      NoRow(rows, l);
      NoRow(Without(rows, j), l);
    }
  }

  lemma SameRow(rows: seq<Row>, j: nat, k: nat)
    requires DistinctLabels(rows) && j < |rows| && k < |rows| && j != k
    ensures RowFor(Without(rows, j), rows[k].bucket) == RowFor(rows, rows[k].bucket)
  {
    var i := if k < j then k else k - 1;
    WithoutDistinct(rows, j);
    RowIs(rows, k);
    RowIs(Without(rows, j), i);
    assert Without(rows, j)[i] == rows[k];
  }

  lemma NoRow(rows: seq<Row>, l: Label)
    requires forall j :: 0 <= j < |rows| ==> rows[j].bucket != l
    ensures RowFor(rows, l) == Row(l, 0, 0, 0, 0, 0)
  {
  }

  lemma RowIs(rows: seq<Row>, k: nat)
    requires DistinctLabels(rows) && k < |rows|
    ensures RowFor(rows, rows[k].bucket) == rows[k]
  {
    RowForIs(rows, rows[k].bucket);
  }

  lemma SameRows(rows: seq<Row>, others: seq<Row>, starts: seq<int>, sc: Scale)
    requires forall i :: 0 <= i < |starts| ==> RowFor(rows, sc.name(starts[i])) == RowFor(others, sc.name(starts[i]))
    ensures RowsAt(rows, starts, sc) == RowsAt(others, starts, sc)
  {
    assert RowsAt(rows, starts, sc) == RowsAt(others, starts, sc);
  }

  // ----- the filled series

  /** Every row is labelled by an instant of the window. */
  ghost predicate Within(win: Window, rows: seq<Row>) {
    forall i :: 0 <= i < |rows| ==> InWindow(win, rows[i].bucket)
  }

  ghost predicate InWindow(win: Window, l: Label) {
    exists t :: LabelledFrom(win, t, l)
  }

  predicate LabelledFrom(win: Window, t: int, l: Label) {
    win.from <= t < win.to && LabelOf(t, win.bucket) == l
  }

  lemma BucketsTile(b: Bucket)
    ensures Tiles(ScaleOf(b))
  {
    var sc := ScaleOf(b);
    forall t ensures CoversAt(sc, t) { Covers(t, b); }
    forall s, t ensures InsideAt(sc, s, t) { Inside(s, t, b); }
    forall s ensures StepsAt(sc, s) { Steps(s, b); }
    forall t, u ensures NamesAt(sc, t, u) { SameLabelExactly(t, u, b); }
  }

  lemma Covers(t: int, b: Bucket)
    ensures CoversAt(ScaleOf(b), t)
  {
    FloorIs(t, b);
    FloorIsStart(t, b);
  }

  lemma Inside(s: int, t: int, b: Bucket)
    ensures InsideAt(ScaleOf(b), s, t)
  {
    if IsStart(s, b) && s <= t < s + b.Size() { FloorInside(s, b, t); }
  }

  lemma Steps(s: int, b: Bucket)
    ensures StepsAt(ScaleOf(b), s)
  {
    StartAfterStart(s, b);
  }

  lemma OrderedOnScale(sc: Scale, start: int, until: int, i: nat, j: nat)
    requires Tiles(sc) && sc.start(start) == start && i < j < |Starts(start, until, sc.size)|
    ensures var starts := Starts(start, until, sc.size);
      starts[i] < starts[j] && sc.name(starts[i]) != sc.name(starts[j])
  {
    StartsIncrease(sc, start, until, i, j);
    StartsAre(sc, start, until, i);
    StartsAre(sc, start, until, j);
    assert NamesAt(sc, Starts(start, until, sc.size)[i], Starts(start, until, sc.size)[j]);
  }

  lemma CoveredOnScale(sc: Scale, from: int, until: int, t: int)
    requires Tiles(sc) && from <= t < until
    ensures sc.start(t) in Starts(sc.start(from), until, sc.size)
    ensures sc.name(sc.start(t)) == sc.name(t)
  {
    assert CoversAt(sc, t) && CoversAt(sc, from) && NamesAt(sc, sc.start(t), t);
    assert InsideAt(sc, sc.start(t), from);
    StartsMissNone(sc, sc.start(from), until, sc.start(t));
  }

  /** The labels of a filled series are those of its buckets, in time order, each once. */
  lemma FilledInOrder(win: Window, rows: seq<Row>, i: nat, j: nat)
    requires i < j < |Filled(win, rows)|
    ensures |BucketStarts(win)| == |Filled(win, rows)|
    ensures BucketStarts(win)[i] < BucketStarts(win)[j]
    ensures Filled(win, rows)[i].bucket == LabelOf(BucketStarts(win)[i], win.bucket)
    ensures Filled(win, rows)[j].bucket == LabelOf(BucketStarts(win)[j], win.bucket)
    ensures Filled(win, rows)[i].bucket != Filled(win, rows)[j].bucket
  {
    var sc := ScaleOf(win.bucket);
    BucketsTile(win.bucket);
    TruncateIs(win.from, win.bucket);
    assert CoversAt(sc, win.from);
    OrderedOnScale(sc, Truncate(win.from, win.bucket), win.to, i, j);
  }

  /** Every instant of the window has its bucket in the series. */
  lemma FilledCovers(win: Window, t: int)
    requires win.from <= t < win.to
    ensures Truncate(t, win.bucket) in BucketStarts(win)
    ensures LabelOf(Truncate(t, win.bucket), win.bucket) == LabelOf(t, win.bucket)
  {
    BucketsTile(win.bucket);
    TruncateIs(win.from, win.bucket);
    TruncateIs(t, win.bucket);
    CoveredOnScale(ScaleOf(win.bucket), win.from, win.to, t);
  }

  /** Each row is in the series, once. */
  lemma RowsKept(win: Window, rows: seq<Row>, j: nat) returns (i: nat)
    requires DistinctLabels(rows) && Within(win, rows) && j < |rows|
    ensures i < |Filled(win, rows)| && Filled(win, rows)[i] == rows[j]
    ensures forall k :: 0 <= k < |Filled(win, rows)| && k != i ==> Filled(win, rows)[k].bucket != rows[j].bucket
  {
    assert InWindow(win, rows[j].bucket);
    var t :| LabelledFrom(win, t, rows[j].bucket);
    FilledCovers(win, t);
    i :| 0 <= i < |BucketStarts(win)| && BucketStarts(win)[i] == Truncate(t, win.bucket);
    RowForIs(rows, rows[j].bucket);
    forall k | 0 <= k < |Filled(win, rows)| && k != i ensures Filled(win, rows)[k].bucket != rows[j].bucket {
      if k < i { FilledInOrder(win, rows, k, i); } else { FilledInOrder(win, rows, i, k); }
    }
  }

  /** The chart counts what the rows count. */
  lemma FillConserves(win: Window, rows: seq<Row>)
    requires DistinctLabels(rows) && Within(win, rows)
    ensures Sum(Filled(win, rows)) == Sum(rows)
  {
    var starts, sc := BucketStarts(win), ScaleOf(win.bucket);
    forall i, j | 0 <= i < j < |starts| ensures sc.name(starts[i]) != sc.name(starts[j]) {
      FilledInOrder(win, rows, i, j);
    }
    forall j | 0 <= j < |rows| ensures PlaceOf(rows[j].bucket, starts, sc) {
      var i := RowsKept(win, rows, j);
      assert sc.name(starts[i]) == rows[j].bucket;
    }
    SumsAt(rows, starts, sc);
  }

  // ----- how long a chart gets

  function MostEntries(b: Bucket): nat {
    match b
    case Hourly => 49
    case Daily => 63
    case Weekly => 54
  }

  lemma SpanFits(from: int, until: int, start: int, b: Bucket)
    requires b == BucketFor(from, until) && until - from <= MAX_USAGE_RANGE && start <= from < start + b.Size()
    ensures until <= start + MostEntries(b) * b.Size()
  {
  }

  /** At most 49 hours, 63 days or 54 weeks, for a window parseAdminFilter accepts for usage. */
  lemma ChartIsShort(win: Window)
    requires win.bucket == BucketFor(win.from, win.to) && win.to - win.from <= MAX_USAGE_RANGE
    ensures |BucketStarts(win)| <= MostEntries(win.bucket)
  {
    var b := win.bucket;
    TruncateIs(win.from, b);
    FloorIs(win.from, b);
    SpanFits(win.from, win.to, Floor(win.from, b), b);
    StartsFew(Floor(win.from, b), win.to, b.Size(), MostEntries(b));
  }

  /** What a usage query returns: one row for each label, every one of a call in the window. */
  ghost predicate Grouped(query: Window -> seq<Row>, w: Window) {
    DistinctLabels(query(w)) && Within(w, query(w))
  }

  /** handleAdminUsage, from the filter to the chart and its totals: whatever the parameters,
      the chart is short and the totals are those of the rows. */
  method UsageChart(text: Option<Range>, from: Option<int>, to: Option<int>, now: int, query: Window -> seq<Row>)
    returns (chart: seq<Row>, totals: Totals, w: Window)
    requires forall v :: Grouped(query, v)
    ensures w.from != ZERO_TIME ==> chart == Filled(w, query(w)) && |chart| <= MostEntries(w.bucket) <= 63
    ensures w.from == ZERO_TIME ==> chart == query(w)
    ensures totals == Sum(query(w))
    ensures w.from < w.to && w.bucket == BucketFor(w.from, w.to)
  {
    var range, window := ParseRange(Usage, text, from, to, now);
    w := window.value;
    var rows := query(window.value);
    chart := FillUsageBuckets(window.value, rows);
    totals := UsageTotals(chart);
    ChartIsShort(w);
    assert Grouped(query, w);
    FillConserves(w, rows);
  }
}
