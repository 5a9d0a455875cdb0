/**
 * `aggregate_salaries` of main.py: the salary records held by the record store,
 * the grouping granularity, and the three-stage pipeline the store executes
 * (`$match` on an inclusive time range, `$group` by truncated timestamp with
 * `$sum` of `value`, `$sort` ascending by group key), shaped into the chart
 * layout `{"dataset": [totals], "labels": [labels]}`.
 */
module Aggregation {
  import opened Results
  import opened Calendar

  /** A stored salary record: a timestamp `dt` and an integer amount `value`. */
  datatype Record = Record(dt: DateTime, value: int)

  datatype Granularity = Hour | Day | Month

  /** One group of the `$group` stage: its `_id` and its `total`. */
  datatype Bucket = Bucket(key: DateTime, total: int)

  /** The returned mapping; each list is wrapped in a one-element outer list. */
  datatype Chart = Chart(dataset: seq<seq<int>>, labels: seq<seq<DateTime>>)

  /**
   * Every timestamp in the store is a real calendar date and time. The year is
   * not bounded: a stored date outside years 1..9999 is simply never in range.
   */
  predicate ValidStore(store: seq<Record>) {
    forall i :: 0 <= i < |store| ==> IsCalendarDate(store[i].dt)
  }

  // ---------------------------------------------------------------------
  // Granularity

  function GroupTypeName(g: Granularity): string {
    match g
    case Hour => "hour"
    case Day => "day"
    case Month => "month"
  }

  /** The if/elif dispatch on `group_type`: exact words only, no default. */
  function ParseGroupType(groupType: string): (r: Result<Granularity>)
    ensures r.Ok? <==> groupType == "hour" || groupType == "day" || groupType == "month"
    ensures r.Ok? ==> GroupTypeName(r.value) == groupType
    ensures r.Err? ==> r.error == InvalidGroupType
  {
    if groupType == "hour" then Ok(Hour)
    else if groupType == "day" then Ok(Day)
    else if groupType == "month" then Ok(Month)
    else Err(InvalidGroupType)
  }

  lemma ParseGroupTypeName(g: Granularity)
    ensures ParseGroupType(GroupTypeName(g)) == Ok(g)
  {
  }

  /**
   * The group key `$dateToString` writes with the format chosen for `g`:
   * `%Y-%m-%dT%H:00:00`, `%Y-%m-%dT00:00:00` or `%Y-%m-01T00:00:00`.
   */
  function Truncate(g: Granularity, d: DateTime): (key: DateTime)
    ensures key.year == d.year && key.minute == 0 && key.second == 0
    ensures d.day >= 1 ==> NotAfter(key, d)
  {
    match g
    case Hour => d.(minute := 0, second := 0)
    case Day => d.(hour := 0, minute := 0, second := 0)
    case Month => d.(day := 1, hour := 0, minute := 0, second := 0)
  }

  /**
   * The key is the start of the bucket containing `d`: a bucket start itself,
   * not after `d`, and later than or equal to every other bucket start not after `d`.
   */
  lemma TruncateIsBucketStart(g: Granularity, d: DateTime)
    requires Valid(d)
    ensures Truncate(g, Truncate(g, d)) == Truncate(g, d)
    ensures NotAfter(Truncate(g, d), d)
    ensures Valid(Truncate(g, d))
    ensures forall s :: Truncate(g, s) == s && NotAfter(s, d) ==> NotAfter(s, Truncate(g, d))
  {
  }

  /** Truncation keeps chronological order, so buckets follow their records. */
  lemma TruncateMonotone(g: Granularity, a: DateTime, b: DateTime)
    requires NotAfter(a, b)
    ensures NotAfter(Truncate(g, a), Truncate(g, b))
  {
  }

  lemma TruncateExample()
    ensures Truncate(Hour, DateTime(2024, 3, 15, 14, 37, 0)) == DateTime(2024, 3, 15, 14, 0, 0)
    ensures Truncate(Day, DateTime(2024, 3, 15, 14, 37, 0)) == DateTime(2024, 3, 15, 0, 0, 0)
    ensures Truncate(Month, DateTime(2024, 3, 15, 14, 37, 0)) == DateTime(2024, 3, 1, 0, 0, 0)
  {
  }

  // ---------------------------------------------------------------------
  // Reference sums over the store

  predicate InRange(d: DateTime, from: DateTime, to: DateTime) {
    NotAfter(from, d) && NotAfter(d, to)
  }

  /** Sum of `value` over the records of the store with `dt` in `[from, to]`. */
  function RangeSum(store: seq<Record>, from: DateTime, to: DateTime): int {
    if store == [] then 0
    else (if InRange(store[0].dt, from, to) then store[0].value else 0) + RangeSum(store[1..], from, to)
  }

  /** Sum of `value` over the records in `[from, to]` whose key under `g` is `key`. */
  function BucketSum(store: seq<Record>, from: DateTime, to: DateTime, g: Granularity, key: DateTime): int {
    if store == [] then 0
    else
      var r := store[0];
      (if InRange(r.dt, from, to) && Truncate(g, r.dt) == key then r.value else 0)
      + BucketSum(store[1..], from, to, g, key)
  }

  function Sum(xs: seq<int>): int {
    if xs == [] then 0 else xs[0] + Sum(xs[1..])
  }

  // ---------------------------------------------------------------------
  // The pipeline

  /** `$match: {dt: {$gte: from, $lte: to}}`, keeping the store's order. */
  function Matched(store: seq<Record>, from: DateTime, to: DateTime): (ms: seq<Record>)
    ensures forall r :: r in ms <==> r in store && InRange(r.dt, from, to)
  {
    if store == [] then []
    else if InRange(store[0].dt, from, to) then [store[0]] + Matched(store[1..], from, to)
    else Matched(store[1..], from, to)
  }

  function Labels(bs: seq<Bucket>): (ls: seq<DateTime>)
    ensures |ls| == |bs| && forall i :: 0 <= i < |bs| ==> ls[i] == bs[i].key
  {
    if bs == [] then [] else [bs[0].key] + Labels(bs[1..])
  }

  function Totals(bs: seq<Bucket>): (ts: seq<int>)
    ensures |ts| == |bs| && forall i :: 0 <= i < |bs| ==> ts[i] == bs[i].total
  {
    if bs == [] then [] else [bs[0].total] + Totals(bs[1..])
  }

  /** Strictly ascending: every label is before every later one. */
  predicate Ascending(ls: seq<DateTime>) {
    forall i, j :: 0 <= i < j < |ls| ==> Before(ls[i], ls[j])
  }

  /** Sum of the totals of the buckets labelled `x` (at most one when ascending). */
  function TotalOf(bs: seq<Bucket>, x: DateTime): int {
    if bs == [] then 0 else (if bs[0].key == x then bs[0].total else 0) + TotalOf(bs[1..], x)
  }

  /**
   * Adds one record with key `k` and amount `v` to the ascending group list:
   * `$sum` into the group with `_id == k`, or a new group in its sorted place.
   */
  function AddTo(bs: seq<Bucket>, k: DateTime, v: int): (r: seq<Bucket>)
    ensures |bs| <= |r| <= |bs| + 1
  {
    if bs == [] then [Bucket(k, v)]
    else if bs[0].key == k then [Bucket(k, bs[0].total + v)] + bs[1..]
    else if Before(k, bs[0].key) then [Bucket(k, v)] + bs
    else [bs[0]] + AddTo(bs[1..], k, v)
  }

  /** `$group` by truncated key with `$sum` of `value`, then `$sort` by key. */
  function Group(ms: seq<Record>, g: Granularity): (r: seq<Bucket>)
    ensures |r| <= |ms|
  {
    if ms == [] then [] else AddTo(Group(ms[1..], g), Truncate(g, ms[0].dt), ms[0].value)
  }

  lemma AscendingCons(x: DateTime, ls: seq<DateTime>)
    ensures Ascending([x] + ls) <==> Ascending(ls) && forall j :: 0 <= j < |ls| ==> Before(x, ls[j])
  {
    var xs := [x] + ls;
    if Ascending(ls) && forall j :: 0 <= j < |ls| ==> Before(x, ls[j]) {
      forall i, j | 0 <= i < j < |xs| ensures Before(xs[i], xs[j]) {
        if i > 0 {
          assert xs[i] == ls[i - 1] && xs[j] == ls[j - 1];
        }
      }
    }
    if Ascending(xs) {
      forall i, j | 0 <= i < j < |ls| ensures Before(ls[i], ls[j]) {
        assert xs[i + 1] == ls[i] && xs[j + 1] == ls[j];
      }
      forall j | 0 <= j < |ls| ensures Before(x, ls[j]) {
        assert xs[0] == x && xs[j + 1] == ls[j];
      }
    }
  }

  lemma LabelsCons(b: Bucket, bs: seq<Bucket>)
    ensures Labels([b] + bs) == [b.key] + Labels(bs)
  {
    assert ([b] + bs)[1..] == bs;
  }

  /** Inserting one record keeps the groups ascending, adds its key and adds `v` to that key's total. */
  lemma {:induction false} AddToSpec(bs: seq<Bucket>, k: DateTime, v: int)
    requires Ascending(Labels(bs))
    ensures Ascending(Labels(AddTo(bs, k, v)))
    ensures forall x :: x in Labels(AddTo(bs, k, v)) <==> x in Labels(bs) || x == k
    ensures forall x :: TotalOf(AddTo(bs, k, v), x) == TotalOf(bs, x) + (if x == k then v else 0)
    ensures Sum(Totals(AddTo(bs, k, v))) == Sum(Totals(bs)) + v
  {
    var r := AddTo(bs, k, v);
    if bs == [] {
      assert Labels(r) == [k];
    } else {
      var b, rest := bs[0], bs[1..];
      assert bs == [b] + rest;
      LabelsCons(b, rest);
      AscendingCons(b.key, Labels(rest));
      if b.key == k {
        LabelsCons(Bucket(k, b.total + v), rest);
        assert r[1..] == rest;
      } else if Before(k, b.key) {
        LabelsCons(Bucket(k, v), bs);
        assert r[1..] == bs;
        forall j | 0 <= j < |Labels(bs)| ensures Before(k, Labels(bs)[j]) {
          if j > 0 {
            BeforeIsStrictTotalOrder(k, b.key, Labels(bs)[j]);
          }
        }
        AscendingCons(k, Labels(bs));
      } else {
        var tail := AddTo(rest, k, v);
        AddToSpec(rest, k, v);
        LabelsCons(b, tail);
        assert r[1..] == tail;
        BeforeIsStrictTotalOrder(b.key, k, k);
        forall j | 0 <= j < |Labels(tail)| ensures Before(b.key, Labels(tail)[j]) {
          assert Labels(tail)[j] in Labels(tail);
        }
        AscendingCons(b.key, Labels(tail));
      }
    }
  }

  /**
   * The groups of `ms` are ascending by key, there is one for exactly the keys
   * some record has, each total is the sum of that key's records, and the
   * totals add up to the sum of all amounts.
   */
  lemma {:induction false} GroupSpec(ms: seq<Record>, g: Granularity)
    ensures Ascending(Labels(Group(ms, g)))
    ensures forall x :: x in Labels(Group(ms, g)) <==> exists m :: m in ms && Truncate(g, m.dt) == x
    ensures forall x :: TotalOf(Group(ms, g), x) == KeySum(ms, g, x)
    ensures Sum(Totals(Group(ms, g))) == Sum(ValuesOf(ms))
  {
    if ms != [] {
      GroupSpec(ms[1..], g);
      AddToSpec(Group(ms[1..], g), Truncate(g, ms[0].dt), ms[0].value);
      assert ms == [ms[0]] + ms[1..];
    }
  }

  /** Sum of `value` over the records of `ms` whose key under `g` is `x`. */
  function KeySum(ms: seq<Record>, g: Granularity, x: DateTime): int {
    if ms == [] then 0
    else (if Truncate(g, ms[0].dt) == x then ms[0].value else 0) + KeySum(ms[1..], g, x)
  }

  function ValuesOf(ms: seq<Record>): (vs: seq<int>)
    ensures |vs| == |ms| && forall i :: 0 <= i < |ms| ==> vs[i] == ms[i].value
  {
    if ms == [] then [] else [ms[0].value] + ValuesOf(ms[1..])
  }

  /** The pipeline's result shaped as the returned mapping. */
  function Aggregate(store: seq<Record>, from: DateTime, to: DateTime, g: Granularity): (c: Chart)
    ensures |c.dataset| == 1 && |c.labels| == 1
    ensures |c.dataset[0]| == |c.labels[0]|
    ensures Ascending(c.labels[0])
  {
    var bs := Group(Matched(store, from, to), g);
    GroupSpec(Matched(store, from, to), g);
    Chart([Totals(bs)], [Labels(bs)])
  }

  /** Each group's total is its own: with ascending keys no other group shares the key. */
  lemma {:induction false} TotalOfOwnKey(bs: seq<Bucket>, i: nat)
    requires Ascending(Labels(bs)) && i < |bs|
    ensures TotalOf(bs, bs[i].key) == bs[i].total
  {
    var rest := bs[1..];
    assert bs == [bs[0]] + rest;
    LabelsCons(bs[0], rest);
    AscendingCons(bs[0].key, Labels(rest));
    if i == 0 {
      TotalOfAbsent(rest, bs[0].key);
    } else {
      assert Before(bs[0].key, Labels(rest)[i - 1]);
      TotalOfOwnKey(rest, i - 1);
    }
  }

  lemma {:induction false} TotalOfAbsent(bs: seq<Bucket>, x: DateTime)
    requires forall j :: 0 <= j < |bs| ==> Before(x, bs[j].key)
    ensures TotalOf(bs, x) == 0
  {
    if bs != [] {
      BeforeIsStrictTotalOrder(x, x, x);
      TotalOfAbsent(bs[1..], x);
    }
  }

  /** Summing the matched records is summing the store over the range. */
  lemma {:induction false} MatchedSums(store: seq<Record>, from: DateTime, to: DateTime, g: Granularity, x: DateTime)
    ensures KeySum(Matched(store, from, to), g, x) == BucketSum(store, from, to, g, x)
    ensures Sum(ValuesOf(Matched(store, from, to))) == RangeSum(store, from, to)
  {
    if store != [] {
      MatchedSums(store[1..], from, to, g, x);
      var ms := Matched(store, from, to);
      if InRange(store[0].dt, from, to) {
        assert ms[1..] == Matched(store[1..], from, to);
        assert ValuesOf(ms)[1..] == ValuesOf(ms[1..]);
      }
    }
  }

  /** `dataset[0][i]` is the sum of `value` over the records in range whose key is `labels[0][i]`. */
  lemma AggregateTotals(store: seq<Record>, from: DateTime, to: DateTime, g: Granularity)
    ensures var c := Aggregate(store, from, to, g);
      forall i :: 0 <= i < |c.dataset[0]| ==> c.dataset[0][i] == BucketSum(store, from, to, g, c.labels[0][i])
  {
    var ms := Matched(store, from, to);
    var bs := Group(ms, g);
    GroupSpec(ms, g);
    forall i | 0 <= i < |bs| ensures bs[i].total == BucketSum(store, from, to, g, bs[i].key) {
      TotalOfOwnKey(bs, i);
      MatchedSums(store, from, to, g, bs[i].key);
    }
  }

  /** The labels are exactly the keys of the records in range. */
  lemma AggregateLabels(store: seq<Record>, from: DateTime, to: DateTime, g: Granularity)
    ensures var c := Aggregate(store, from, to, g);
      forall x :: x in c.labels[0] <==> exists r :: r in store && InRange(r.dt, from, to) && Truncate(g, r.dt) == x
  {
    GroupSpec(Matched(store, from, to), g);
  }

  /** Conservation: the totals add up to the sum of `value` over all records in range. */
  lemma AggregateConservation(store: seq<Record>, from: DateTime, to: DateTime, g: Granularity)
    ensures Sum(Aggregate(store, from, to, g).dataset[0]) == RangeSum(store, from, to)
  {
    var ms := Matched(store, from, to);
    GroupSpec(ms, g);
    MatchedSums(store, from, to, g, from);
  }

  /** The result is `{"dataset": [[]], "labels": [[]]}` exactly when no record is in range. */
  lemma AggregateEmpty(store: seq<Record>, from: DateTime, to: DateTime, g: Granularity)
    ensures Aggregate(store, from, to, g) == Chart([[]], [[]])
        <==> forall r :: r in store ==> !InRange(r.dt, from, to)
  {
    var c := Aggregate(store, from, to, g);
    AggregateLabels(store, from, to, g);
    if c != Chart([[]], [[]]) {
      assert c.labels[0][0] in c.labels[0];
    }
  }

  /** A reversed range is not an error: it matches nothing. */
  lemma ReversedRangeIsEmpty(store: seq<Record>, from: DateTime, to: DateTime, g: Granularity)
    requires Before(to, from)
    ensures Aggregate(store, from, to, g) == Chart([[]], [[]])
  {
    forall r | r in store ensures !InRange(r.dt, from, to) {
      BeforeIsStrictTotalOrder(from, r.dt, to);
      BeforeIsStrictTotalOrder(to, from, r.dt);
    }
    AggregateEmpty(store, from, to, g);
  }

  /** Over a store of real datetimes every label is a real datetime and a bucket start. */
  lemma LabelsAreBucketStarts(store: seq<Record>, from: DateTime, to: DateTime, g: Granularity)
    requires ValidStore(store) && Valid(from) && Valid(to)
    ensures forall x :: x in Aggregate(store, from, to, g).labels[0] ==> Valid(x) && Truncate(g, x) == x
  {
    AggregateLabels(store, from, to, g);
    forall x | x in Aggregate(store, from, to, g).labels[0] ensures Valid(x) && Truncate(g, x) == x {
      var r :| r in store && InRange(r.dt, from, to) && Truncate(g, r.dt) == x;
      var i :| 0 <= i < |store| && store[i] == r;
      BetweenValidIsValid(from, r.dt, to);
      TruncateIsBucketStart(g, r.dt);
    }
  }

  /** As `_id` strings the labels are strictly ascending too: `$sort` on the text gives this order. */
  lemma LabelTextsAscending(store: seq<Record>, from: DateTime, to: DateTime, g: Granularity)
    requires ValidStore(store) && Valid(from) && Valid(to)
    ensures var ls := Aggregate(store, from, to, g).labels[0];
      forall i, j :: 0 <= i < j < |ls| ==> TextBefore(Format(ls[i]), Format(ls[j]))
  {
    var ls := Aggregate(store, from, to, g).labels[0];
    LabelsAreBucketStarts(store, from, to, g);
    forall i, j | 0 <= i < j < |ls| ensures TextBefore(Format(ls[i]), Format(ls[j])) {
      assert ls[i] in ls && ls[j] in ls;
      FormatOrder(ls[i], ls[j]);
    }
  }

  // ---------------------------------------------------------------------
  // aggregate_salaries

  /**
   * Both timestamps are parsed before `group_type` is looked at, so a bad
   * timestamp wins over a bad group type; an accepted request gives the chart.
   */
  function AggregateSalaries(store: seq<Record>, dtFrom: string, dtUpto: string, groupType: string): (r: Result<Chart>)
    ensures Parse(dtFrom).Err? ==> r == Err(Parse(dtFrom).error)
    ensures Parse(dtFrom).Ok? && Parse(dtUpto).Err? ==> r == Err(Parse(dtUpto).error)
    ensures Parse(dtFrom).Ok? && Parse(dtUpto).Ok? && ParseGroupType(groupType).Err? ==> r == Err(InvalidGroupType)
    ensures r.Ok? <==> Parse(dtFrom).Ok? && Parse(dtUpto).Ok? && ParseGroupType(groupType).Ok?
    ensures r.Ok? ==> r.value == Aggregate(store, Parse(dtFrom).value, Parse(dtUpto).value, ParseGroupType(groupType).value)
  {
    match Parse(dtFrom)
    case Err(e) => Err(e)
    case Ok(from) =>
      match Parse(dtUpto)
      case Err(e) => Err(e)
      case Ok(to) =>
        match ParseGroupType(groupType)
        case Err(e) => Err(e)
        case Ok(g) => Ok(Aggregate(store, from, to, g))
  }

  /** Two records in two hours of one day, grouped by hour. */
  lemma HourlyExample()
    ensures
      var store := [Record(DateTime(2024, 1, 1, 10, 15, 0), 100), Record(DateTime(2024, 1, 1, 11, 5, 0), 50)];
      AggregateSalaries(store, "2024-01-01T00:00:00", "2024-01-01T23:59:00", "hour")
      == Ok(Chart([[100, 50]], [[DateTime(2024, 1, 1, 10, 0, 0), DateTime(2024, 1, 1, 11, 0, 0)]]))
  {
    ExampleTexts();
    ParseOfText("2024-01-01T00:00:00", DateTime(2024, 1, 1, 0, 0, 0));
    ParseOfText("2024-01-01T23:59:00", DateTime(2024, 1, 1, 23, 59, 0));
    HourlyExampleChart();
  }

  lemma ExampleTexts()
    ensures Format(DateTime(2024, 1, 1, 0, 0, 0)) == "2024-01-01T00:00:00"
    ensures Format(DateTime(2024, 1, 1, 23, 59, 0)) == "2024-01-01T23:59:00"
  {
    ExamplePads();
    ExampleText(DateTime(2024, 1, 1, 0, 0, 0), "2024-01-01", "00:00:00");
    ExampleText(DateTime(2024, 1, 1, 23, 59, 0), "2024-01-01", "23:59:00");
  }

  lemma ExampleText(d: DateTime, date: string, time: string)
    requires date == Pad(d.year, 4) + "-" + Pad(d.month, 2) + "-" + Pad(d.day, 2)
    requires time == Pad(d.hour, 2) + ":" + Pad(d.minute, 2) + ":" + Pad(d.second, 2)
    ensures Format(d) == date + "T" + time
  {
  }

  lemma ExamplePads()
    ensures Pad(2024, 4) == "2024" && Pad(1, 2) == "01" && Pad(0, 2) == "00"
    ensures Pad(23, 2) == "23" && Pad(59, 2) == "59"
  {
  }

  lemma ParseOfText(s: string, d: DateTime)
    requires Valid(d) && s == Format(d)
    ensures Parse(s) == Ok(d)
  {
    ParseOfFormat(d);
  }

  lemma HourlyExampleChart()
    ensures
      var store := [Record(DateTime(2024, 1, 1, 10, 15, 0), 100), Record(DateTime(2024, 1, 1, 11, 5, 0), 50)];
      Aggregate(store, DateTime(2024, 1, 1, 0, 0, 0), DateTime(2024, 1, 1, 23, 59, 0), Hour)
      == Chart([[100, 50]], [[DateTime(2024, 1, 1, 10, 0, 0), DateTime(2024, 1, 1, 11, 0, 0)]])
  {
    var from, to := DateTime(2024, 1, 1, 0, 0, 0), DateTime(2024, 1, 1, 23, 59, 0);
    var r1, r2 := Record(DateTime(2024, 1, 1, 10, 15, 0), 100), Record(DateTime(2024, 1, 1, 11, 5, 0), 50);
    var k1, k2 := DateTime(2024, 1, 1, 10, 0, 0), DateTime(2024, 1, 1, 11, 0, 0);
    var store := [r1, r2];
    assert InRange(r1.dt, from, to) && InRange(r2.dt, from, to);
    assert store[1..] == [r2] && [r2][1..] == [];
    assert Matched([r2], from, to) == [r2];
    assert Matched(store, from, to) == store;
    assert Group([r2], Hour) == [Bucket(k2, 50)];
    assert Group(store, Hour) == AddTo([Bucket(k2, 50)], k1, 100) == [Bucket(k1, 100), Bucket(k2, 50)];
    assert Labels([Bucket(k1, 100), Bucket(k2, 50)]) == [k1, k2];
    assert Totals([Bucket(k1, 100), Bucket(k2, 50)]) == [100, 50];
  }
}
