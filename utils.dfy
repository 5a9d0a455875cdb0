/**
 * utils.py: `escape_markdown` for Telegram's MarkdownV2 and the second copy of
 * `aggregate_salaries`, which appends a synthetic trailing bucket.
 */
module Utils {
  import opened Results
  import opened Calendar
  import opened Aggregation

  // ---------------------------------------------------------------------
  // escape_markdown

  /** The characters MarkdownV2 reserves, plus the backslash itself. */
  const EscapeChars: string := "\\_*[]()~`>#+-=|{}.!"

  function EscapeChar(c: char): string {
    if c in EscapeChars then ['\\', c] else [c]
  }

  function SpecialCount(text: string): nat {
    if text == [] then 0 else (if text[0] in EscapeChars then 1 else 0) + SpecialCount(text[1..])
  }

  /** Each reserved character becomes a backslash and itself; the rest is copied. */
  function EscapeMarkdown(text: string): (r: string)
    ensures |r| == |text| + SpecialCount(text)
  {
    if text == [] then [] else EscapeChar(text[0]) + EscapeMarkdown(text[1..])
  }

  /** Reads an escaped text back: an escaping backslash is dropped, the character after it kept. */
  function Unescape(s: string): string
    decreases |s|
  {
    if s == [] then []
    else if s[0] == '\\' && |s| >= 2 then [s[1]] + Unescape(s[2..])
    else [s[0]] + Unescape(s[1..])
  }

  /** Every reserved character, the backslash included, stands right after an escaping backslash. */
  predicate WellEscaped(s: string)
    decreases |s|
  {
    if s == [] then true
    else if s[0] == '\\' then |s| >= 2 && s[1] in EscapeChars && WellEscaped(s[2..])
    else s[0] !in EscapeChars && WellEscaped(s[1..])
  }

  lemma EscapeCharsAreNineteen()
    ensures |EscapeChars| == 19
    ensures forall i, j :: 0 <= i < j < |EscapeChars| ==> EscapeChars[i] != EscapeChars[j]
    ensures '\\' in EscapeChars && '_' in EscapeChars && '!' in EscapeChars
  {
  }

  /** The escaper works character by character and keeps the input order. */
  lemma {:induction false} EscapeConcat(a: string, b: string)
    ensures EscapeMarkdown(a + b) == EscapeMarkdown(a) + EscapeMarkdown(b)
  {
    if a != [] {
      assert (a + b)[0] == a[0] && (a + b)[1..] == a[1..] + b;
      EscapeConcat(a[1..], b);
    } else {
      assert a + b == b;
    }
  }

  /** Unescaping the escaped text gives the original text back. */
  lemma {:induction false} UnescapeOfEscape(text: string)
    ensures Unescape(EscapeMarkdown(text)) == text
  {
    if text != [] {
      var rest := EscapeMarkdown(text[1..]);
      UnescapeOfEscape(text[1..]);
      var e := EscapeChar(text[0]) + rest;
      if text[0] in EscapeChars {
        assert e[0] == '\\' && e[1] == text[0] && e[2..] == rest;
      } else {
        assert e[0] == text[0] && e[1..] == rest;
      }
      assert text == [text[0]] + text[1..];
    }
  }

  /** The escaped text leaves no reserved character unescaped. */
  lemma {:induction false} EscapeIsWellEscaped(text: string)
    ensures WellEscaped(EscapeMarkdown(text))
  {
    if text != [] {
      var rest := EscapeMarkdown(text[1..]);
      EscapeIsWellEscaped(text[1..]);
      var e := EscapeChar(text[0]) + rest;
      if text[0] in EscapeChars {
        assert e[0] == '\\' && e[1] == text[0] && e[2..] == rest;
      } else {
        assert e[0] == text[0] && e[1..] == rest;
      }
    }
  }

  /** Conversely every well-escaped text is the escape of its unescaped text. */
  lemma {:induction false} EscapeOfUnescape(s: string)
    requires WellEscaped(s)
    ensures EscapeMarkdown(Unescape(s)) == s
    decreases |s|
  {
    if s != [] {
      if s[0] == '\\' {
        EscapeOfUnescape(s[2..]);
        var u := [s[1]] + Unescape(s[2..]);
        assert u[0] == s[1] && u[1..] == Unescape(s[2..]);
        assert s == [s[0], s[1]] + s[2..];
      } else {
        EscapeOfUnescape(s[1..]);
        var u := [s[0]] + Unescape(s[1..]);
        assert u[0] == s[0] && u[1..] == Unescape(s[1..]);
        assert s == [s[0]] + s[1..];
      }
    }
  }

  // ---------------------------------------------------------------------
  // aggregate_salaries with a trailing bucket

  lemma AscendingSnoc(ls: seq<DateTime>, x: DateTime)
    requires Ascending(ls) && ls != [] && Before(ls[|ls| - 1], x)
    ensures Ascending(ls + [x])
  {
    var xs := ls + [x];
    forall i, j | 0 <= i < j < |xs| ensures Before(xs[i], xs[j]) {
      if j == |ls| && i < |ls| - 1 {
        BeforeIsStrictTotalOrder(ls[i], ls[|ls| - 1], x);
      }
    }
  }

  lemma {:induction false} SumSnoc(xs: seq<int>, x: int)
    ensures Sum(xs + [x]) == Sum(xs) + x
  {
    if xs != [] {
      assert (xs + [x])[1..] == xs[1..] + [x];
      SumSnoc(xs[1..], x);
    }
  }

  /**
   * The padded variant: the chart of main.py's `aggregate_salaries` with one more
   * entry, value 0, labelled one hour after the last label. With no real bucket
   * `labels[-1]` raises IndexError; past the last representable hour the
   * addition raises OverflowError.
   */
  method AggregateSalariesPadded(store: seq<Record>, dtFrom: string, dtUpto: string, groupType: string)
    returns (r: Result<Chart>)
    requires ValidStore(store)
    ensures var base := AggregateSalaries(store, dtFrom, dtUpto, groupType);
      base.Err? ==> r == base
    ensures var base := AggregateSalaries(store, dtFrom, dtUpto, groupType);
      base.Ok? && base.value.labels[0] == [] ==> r == Err(IndexError)
    ensures var base := AggregateSalaries(store, dtFrom, dtUpto, groupType);
      base.Ok? && base.value.labels[0] != [] ==>
        var last := base.value.labels[0][|base.value.labels[0]| - 1];
        && Valid(last)
        && (AddHour(last).Err? ==> r == Err(OverflowError))
        && (AddHour(last).Ok? ==> r == Ok(Chart([base.value.dataset[0] + [0]], [base.value.labels[0] + [AddHour(last).value]])))
    ensures r.Ok? ==>
      && |r.value.dataset| == 1 && |r.value.labels| == 1
      && |r.value.dataset[0]| == |r.value.labels[0]| >= 2
      && r.value.dataset[0][|r.value.dataset[0]| - 1] == 0
      && Ascending(r.value.labels[0])
      && Sum(r.value.dataset[0]) == RangeSum(store, Parse(dtFrom).value, Parse(dtUpto).value)
  {
    var base := AggregateSalaries(store, dtFrom, dtUpto, groupType);
    if base.Err? {
      return base;
    }
    var from, to, g := Parse(dtFrom).value, Parse(dtUpto).value, ParseGroupType(groupType).value;
    assert Valid(from) && Valid(to);
    assert base.value == Aggregate(store, from, to, g);
    var dataset := base.value.dataset[0];
    var labels := base.value.labels[0];
    dataset := dataset + [0];
    if |labels| == 0 {
      return Err(IndexError);
    }
    var last := labels[|labels| - 1];
    LabelsAreBucketStarts(store, from, to, g);
    assert last in labels;
    ParseOfFormat(last);
    var parsed := Parse(Format(last)).value;
    assert parsed == last;
    var next := AddHour(parsed);
    if next.Err? {
      return Err(next.error);
    }
    AscendingSnoc(labels, next.value);
    AggregateConservation(store, from, to, g);
    SumSnoc(base.value.dataset[0], 0);
    labels := labels + [next.value];
    r := Ok(Chart([dataset], [labels]));
  }

  /**
   * Where the appended label falls: for `hour` it is the next bucket start;
   * for `day` and `month` it is `T01:00:00` inside the last real bucket,
   * not the start of the next one.
   */
  lemma PaddedLabelPlacement(g: Granularity, t: DateTime)
    requires Valid(t) && Truncate(g, t) == t && AddHour(t).Ok?
    ensures g == Hour ==> Truncate(g, AddHour(t).value) == AddHour(t).value
    ensures g != Hour ==> Truncate(g, AddHour(t).value) == t && AddHour(t).value.hour == 1
  {
  }
}
