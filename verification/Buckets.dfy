/** The usage chart's buckets: the window of a filter in admin_filter.go, its cutting into
    hours, days or weeks in admin_query.go. Times are nanoseconds from 1970-01-01T00:00Z. */
module Buckets {
  import opened Options
  import opened Calendar

  const HOUR: int := 3_600_000_000_000
  const DAY: int := 86_400_000_000_000

  /** The zero time.Time, 1 January of year 1. */
  const ZERO_TIME: int := -62_135_596_800_000_000_000

  lemma ZeroTimeIs()
    ensures ZERO_TIME == YearStart(1) * (24 * 60 * 60 * 1_000_000_000)
    ensures DAY == 24 * HOUR && HOUR == 60 * 60 * 1_000_000_000
  {
  }

  datatype Bucket = Hourly | Daily | Weekly
  {
    function Size(): (n: int)
      ensures n > 0
    {
      match this
      case Hourly => HOUR
      case Daily => DAY
      case Weekly => 7 * DAY
    }
  }

  /** The fields a label is printed from: 2006-01-02 15:00, 2006-01-02 or 2006-W01. */
  datatype Label = HourOf(date: Date, hour: int) | DayLabel(date: Date) | WeekLabel(year: int, week: int)

  datatype Row = Row(bucket: Label, calls: int, input: int, output: int, cache: int, uncached: int)

  datatype Window = Window(bucket: Bucket, from: int, to: int)

  // ----- truncateToBucket, nextBucket, bucketLabel

  function Truncate(t: int, b: Bucket): int {
    var date := DateOf(t / DAY);
    match b
    case Hourly => DayOf(date) * DAY + t % DAY / HOUR * HOUR
    case Weekly => (DayOf(date) - SinceMonday(t / DAY)) * DAY
    case Daily => DayOf(date) * DAY
  }

  /** Truncate without the detour over a date. */
  function Floor(t: int, b: Bucket): int {
    match b
    case Hourly => t / HOUR * HOUR
    case Weekly => Monday(t / DAY) * DAY
    case Daily => t / DAY * DAY
  }

  function Next(t: int, b: Bucket): int {
    match b
    case Hourly => t + HOUR
    case Weekly => t + 7 * DAY
    case Daily => t + DAY
  }

  function LabelOf(t: int, b: Bucket): Label {
    match b
    case Hourly => HourOf(DateOf(t / DAY), t % DAY / HOUR)
    case Weekly => WeekLabel(IsoWeek(t / DAY).0, IsoWeek(t / DAY).1)
    case Daily => DayLabel(DateOf(t / DAY))
  }

  // ----- fillUsageBuckets

  /** The last row with each label. */
  function ByLabel(rows: seq<Row>): (m: map<Label, Row>)
    ensures forall l :: l in m ==> m[l] in rows && m[l].bucket == l
    ensures forall r :: r in rows ==> r.bucket in m
  {
    if rows == [] then map[]
    else
      assert rows == rows[..|rows| - 1] + [rows[|rows| - 1]];
      ByLabel(rows[..|rows| - 1])[rows[|rows| - 1].bucket := rows[|rows| - 1]]
  }

  function RowFor(rows: seq<Row>, l: Label): (r: Row)
    ensures r.bucket == l
  {
    if l in ByLabel(rows) then ByLabel(rows)[l] else Row(l, 0, 0, 0, 0, 0)
  }

  type Positive = n: int | n > 0 witness 1

  /** A way of cutting time: where the bucket of an instant starts, and what it is called. */
  datatype Scale = Scale(size: Positive, start: int -> int, name: int -> Label)

  function ScaleOf(b: Bucket): Scale {
    Scale(b.Size(), t => Floor(t, b), t => LabelOf(t, b))
  }

  /** The instants of a series: from start in steps of one bucket, as long as before until. */
  function Starts(start: int, until: int, size: Positive): seq<int>
    decreases until - start
  {
    if start < until then [start] + Starts(start + size, until, size) else []
  }

  function RowsAt(rows: seq<Row>, starts: seq<int>, sc: Scale): (out: seq<Row>)
    ensures |out| == |starts|
    ensures forall i :: 0 <= i < |starts| ==> out[i] == RowFor(rows, sc.name(starts[i]))
  {
    if starts == [] then []
    else RowsAt(rows, starts[..|starts| - 1], sc) + [RowFor(rows, sc.name(starts[|starts| - 1]))]
  }

  function BucketStarts(win: Window): seq<int> {
    Starts(Truncate(win.from, win.bucket), win.to, win.bucket.Size())
  }

  function Filled(win: Window, rows: seq<Row>): seq<Row> {
    RowsAt(rows, BucketStarts(win), ScaleOf(win.bucket))
  }

  lemma RowsAtNext(rows: seq<Row>, starts: seq<int>, sc: Scale, t: int)
    ensures RowsAt(rows, starts + [t], sc) == RowsAt(rows, starts, sc) + [RowFor(rows, sc.name(t))]
  {
    assert (starts + [t])[..|starts|] == starts;
  }

  lemma NextIs(t: int, b: Bucket)
    ensures Next(t, b) == t + b.Size()
  {
  }

  lemma StartsNext(done: seq<int>, t: int, until: int, b: Bucket)
    requires t < until
    ensures done + Starts(t, until, b.Size()) == done + [t] + Starts(Next(t, b), until, b.Size())
  {
    NextIs(t, b);
  }

  method FillUsageBuckets(win: Window, rows: seq<Row>) returns (out: seq<Row>)
    ensures out == if win.from == ZERO_TIME || win.to <= win.from then rows else Filled(win, rows)
  {
    var byLabel: map<Label, Row> := map[];
    for i := 0 to |rows|
      invariant byLabel == ByLabel(rows[..i])
    {
      assert rows[..i + 1][..i] == rows[..i];
      byLabel := byLabel[rows[i].bucket := rows[i]];
    }
    assert rows[..|rows|] == rows;
    if win.from == ZERO_TIME || !(win.to > win.from) {
      return rows;
    }
    out := [];
    var t := Truncate(win.from, win.bucket);
    ghost var done: seq<int> := [];
    while t < win.to
      invariant BucketStarts(win) == done + Starts(t, win.to, win.bucket.Size())
      invariant out == RowsAt(rows, done, ScaleOf(win.bucket))
      decreases win.to - t
    {
      StartsNext(done, t, win.to, win.bucket);
      RowsAtNext(rows, done, ScaleOf(win.bucket), t);
      NextIs(t, win.bucket);
      var name := LabelOf(t, win.bucket);
      if name in byLabel {
        out := out + [byLabel[name]];
      } else {
        out := out + [Row(name, 0, 0, 0, 0, 0)];
      }
      done := done + [t];
      t := Next(t, win.bucket);
    }
    assert BucketStarts(win) == done;
  }

  // ----- the window of a filter

  datatype Kind = Calls | Usage

  datatype Range = LastDay | Last7 | Last30 | Last90 | Custom | All

  const MAX_USAGE_RANGE: int := 366 * DAY

  /** deriveAdminBucket. */
  function BucketFor(from: int, until: int): Bucket {
    if until - from <= 48 * HOUR then Hourly
    else if until - from <= 62 * DAY then Daily
    else Weekly
  }

  /** presetWindow. */
  function Preset(range: Range, now: int): (int, int) {
    var span := if range.LastDay? then DAY else if range.Last30? then 30 * DAY else if range.Last90? then 90 * DAY else 7 * DAY;
    (now - span, now)
  }

  /** The range part of parseAdminFilter: text is the range parameter if it is one of the
      words known, from and to are the endpoints if they parse. None is an unbounded filter. */
  method ParseRange(kind: Kind, text: Option<Range>, from: Option<int>, to: Option<int>, now: int)
    returns (range: Range, window: Option<Window>)
    ensures kind.Usage? ==> window.Some? && !range.All?
    ensures window.None? <==> range.All?
    ensures window.Some? ==>
      var w := window.value;
      && (w.bucket.Hourly? <==> w.to - w.from <= 172_800_000_000_000)
      && (w.bucket.Daily? <==> 172_800_000_000_000 < w.to - w.from <= 5_356_800_000_000_000)
    ensures window.Some? ==> window.value.bucket == BucketFor(window.value.from, window.value.to)
    ensures window.Some? ==> window.value.from < window.value.to
    ensures window.Some? && range.Custom? ==>
      from == Some(window.value.from) && to == Some(window.value.to) && text == Some(Custom)
    ensures window.Some? && !range.Custom? ==>
      window.value.to == now
      && window.value.from == now - match range
           case LastDay => 86_400_000_000_000
           case Last7 => 604_800_000_000_000
           case Last30 => 2_592_000_000_000_000
           case _ => 7_776_000_000_000_000
    ensures kind.Usage? ==> window.value.to - window.value.from <= MAX_USAGE_RANGE
    ensures range.Custom? <==>
      text == Some(Custom) && from.Some? && to.Some? && from.value < to.value
      && (kind.Calls? || to.value - from.value <= 31_622_400_000_000_000)
    ensures text.Some? && !text.value.Custom? && !(kind.Usage? && text.value.All?) ==> range == text.value
    ensures kind.Usage? && !range.Custom? && (text.None? || text.value.All? || text.value.Custom?) ==> range.Last7?
    ensures kind.Calls? && !range.Custom? && (text.None? || text.value.Custom?) ==> range.All?
  {
    range := if kind.Calls? then All else Last7;
    if text.Some? && (kind.Calls? || !text.value.All?) {
      range := text.value;
    }
    var bounded, f, t := false, ZERO_TIME, ZERO_TIME;
    match range {
      case All =>
      case Custom =>
        if from.None? || to.None? || !(to.value > from.value)
          || (kind.Usage? && to.value - from.value > MAX_USAGE_RANGE)
        {
          if kind.Calls? {
            range := All;
          } else {
            range, bounded := Last7, true;
            var p := Preset(Last7, now);
            f, t := p.0, p.1;
          }
        } else {
          bounded, f, t := true, from.value, to.value;
        }
      case _ =>
        bounded := true;
        var p := Preset(range, now);
        f, t := p.0, p.1;
    }
    window := None;
    if bounded {
      window := Some(Window(BucketFor(f, t), f, t));
    }
  }
}
