/**
 * Calendar timestamps as the aggregators see them: a naive datetime with
 * second precision, its fixed-layout ISO 8601 text `YYYY-MM-DDThh:mm:ss`
 * (the extended complete date-time representation of ISO 8601:2004,
 * section 4.3.2), chronological order, and "plus one hour".
 */
module Calendar {
  import opened Results

  datatype DateTime = DateTime(year: nat, month: nat, day: nat, hour: nat, minute: nat, second: nat)

  predicate IsLeapYear(y: int) {
    y % 4 == 0 && (y % 100 != 0 || y % 400 == 0)
  }

  function DaysInMonth(y: int, m: int): nat {
    if m == 2 then (if IsLeapYear(y) then 29 else 28)
    else if m == 4 || m == 6 || m == 9 || m == 11 then 30
    else 31
  }

  /** A real calendar day and time of day, in any year. */
  predicate IsCalendarDate(d: DateTime) {
    && 1 <= d.month <= 12
    && 1 <= d.day <= DaysInMonth(d.year, d.month)
    && d.hour < 24 && d.minute < 60 && d.second < 60
  }

  /** The range of a naive datetime: years 1 to 9999, real calendar days. */
  predicate Valid(d: DateTime) {
    1 <= d.year <= 9999 && IsCalendarDate(d)
  }

  /** A real calendar date between two naive datetimes is itself a naive datetime. */
  lemma BetweenValidIsValid(from: DateTime, d: DateTime, to: DateTime)
    requires Valid(from) && Valid(to) && IsCalendarDate(d)
    requires NotAfter(from, d) && NotAfter(d, to)
    ensures Valid(d)
  {
  }

  /** Chronological order: lexicographic on (year, month, day, hour, minute, second). */
  predicate Before(a: DateTime, b: DateTime) {
    if a.year != b.year then a.year < b.year
    else if a.month != b.month then a.month < b.month
    else if a.day != b.day then a.day < b.day
    else if a.hour != b.hour then a.hour < b.hour
    else if a.minute != b.minute then a.minute < b.minute
    else a.second < b.second
  }

  predicate NotAfter(a: DateTime, b: DateTime) {
    a == b || Before(a, b)
  }

  lemma BeforeIsStrictTotalOrder(a: DateTime, b: DateTime, c: DateTime)
    ensures !Before(a, a)
    ensures Before(a, b) ==> !Before(b, a)
    ensures a != b ==> Before(a, b) || Before(b, a)
    ensures Before(a, b) && Before(b, c) ==> Before(a, c)
  {
  }

  // ---------------------------------------------------------------------
  // Text form

  predicate IsDigit(c: char) {
    '0' <= c <= '9'
  }

  predicate AllDigits(s: string) {
    forall i :: 0 <= i < |s| ==> IsDigit(s[i])
  }

  function DigitChar(n: nat): char
    requires n < 10
  {
    ('0' as int + n) as char
  }

  function DigitValue(c: char): (v: int)
    ensures IsDigit(c) ==> 0 <= v < 10
  {
    c as int - '0' as int
  }

  function Pow10(w: nat): nat {
    if w == 0 then 1 else 10 * Pow10(w - 1)
  }

  /** The last `width` decimal digits of `n`, zero-padded on the left. */
  function Pad(n: nat, width: nat): (s: string)
    ensures |s| == width && AllDigits(s)
  {
    if width == 0 then [] else Pad(n / 10, width - 1) + [DigitChar(n % 10)]
  }

  /** The number a string of decimal digits denotes. */
  function Number(s: string): (n: nat)
    requires AllDigits(s)
    ensures n < Pow10(|s|)
  {
    if s == [] then 0 else 10 * Number(s[..|s| - 1]) + DigitValue(s[|s| - 1])
  }

  /** `YYYY-MM-DDThh:mm:ss`, as `datetime.isoformat()` and `$dateToString` write it. */
  function Format(d: DateTime): (s: string)
    ensures |s| == 19
  {
    Triple(Pad(d.year, 4), '-', Pad(d.month, 2), '-', Pad(d.day, 2)) + "T" +
    Triple(Pad(d.hour, 2), ':', Pad(d.minute, 2), ':', Pad(d.second, 2))
  }

  /** Three fields joined by two separators. */
  function Triple(a: string, sep1: char, b: string, sep2: char, c: string): (s: string)
    ensures |s| == |a| + |b| + |c| + 2
    ensures s[..|a|] == a && s[|a|] == sep1 && s[|a| + 1..|a| + 1 + |b|] == b
    ensures s[|a| + 1 + |b|] == sep2 && s[|a| + |b| + 2..] == c
  {
    a + [sep1] + b + [sep2] + c
  }

  predicate WellLaidOut(s: string) {
    && |s| == 19
    && AllDigits(s[0..4]) && s[4] == '-' && AllDigits(s[5..7]) && s[7] == '-'
    && AllDigits(s[8..10]) && s[10] == 'T' && AllDigits(s[11..13]) && s[13] == ':'
    && AllDigits(s[14..16]) && s[16] == ':' && AllDigits(s[17..19])
  }

  /**
   * `datetime.fromisoformat` restricted to the fixed layout. A text without the
   * layout's shape is the "Invalid isoformat string" ValueError; a well-shaped
   * text naming no real datetime fails later, in the datetime constructor,
   * with a ValueError about the out-of-range field.
   */
  function Parse(s: string): (r: Result<DateTime>)
    ensures r.Ok? ==> Valid(r.value)
    ensures r.Err? && !WellLaidOut(s) ==> r.error == InvalidIsoFormat(s)
    ensures r.Err? && WellLaidOut(s) ==> r.error == DateFieldOutOfRange
  {
    if !WellLaidOut(s) then Err(InvalidIsoFormat(s))
    else
      var d := DateTime(Number(s[0..4]), Number(s[5..7]), Number(s[8..10]),
                        Number(s[11..13]), Number(s[14..16]), Number(s[17..19]));
      if Valid(d) then Ok(d) else Err(DateFieldOutOfRange)
  }

  lemma {:induction false} NumberOfPad(n: nat, width: nat)
    requires n < Pow10(width)
    ensures Number(Pad(n, width)) == n
  {
    if width > 0 {
      var p := Pad(n, width);
      assert p[..|p| - 1] == Pad(n / 10, width - 1);
      NumberOfPad(n / 10, width - 1);
    }
  }

  lemma {:induction false} PadOfNumber(s: string)
    requires AllDigits(s)
    ensures Pad(Number(s), |s|) == s
  {
    if s != [] {
      var init, v := s[..|s| - 1], DigitValue(s[|s| - 1]);
      assert AllDigits(init);
      PadOfNumber(init);
      assert (10 * Number(init) + v) / 10 == Number(init);
      assert (10 * Number(init) + v) % 10 == v;
      assert DigitChar(v) == s[|s| - 1];
      assert s == init + [s[|s| - 1]];
    }
  }

  /** Writing a datetime and reading it back gives the same datetime. */
  lemma ParseOfFormat(d: DateTime)
    requires Valid(d)
    ensures Parse(Format(d)) == Ok(d)
  {
    var date := Triple(Pad(d.year, 4), '-', Pad(d.month, 2), '-', Pad(d.day, 2));
    var time := Triple(Pad(d.hour, 2), ':', Pad(d.minute, 2), ':', Pad(d.second, 2));
    var s := Format(d);
    assert s == date + "T" + time;
    assert s[..10] == date && s[10] == 'T' && s[11..] == time;
    assert s[0..4] == date[..4] == Pad(d.year, 4);
    assert s[5..7] == date[5..7] == Pad(d.month, 2);
    assert s[8..10] == date[8..] == Pad(d.day, 2);
    assert s[11..13] == time[..2] == Pad(d.hour, 2);
    assert s[14..16] == time[3..5] == Pad(d.minute, 2);
    assert s[17..19] == time[6..] == Pad(d.second, 2);
    assert WellLaidOut(s);
    assert Pow10(2) == 100 && Pow10(4) == 10000;
    NumberOfPad(d.year, 4);
    NumberOfPad(d.month, 2);
    NumberOfPad(d.day, 2);
    NumberOfPad(d.hour, 2);
    NumberOfPad(d.minute, 2);
    NumberOfPad(d.second, 2);
  }

  /** Every text the parser accepts is the canonical text of what it returns. */
  lemma FormatOfParse(s: string)
    requires Parse(s).Ok?
    ensures Format(Parse(s).value) == s
  {
    var d := Parse(s).value;
    assert WellLaidOut(s);
    assert d == DateTime(Number(s[0..4]), Number(s[5..7]), Number(s[8..10]),
                         Number(s[11..13]), Number(s[14..16]), Number(s[17..19]));
    var date, time := s[..10], s[11..];
    assert date[..4] == s[0..4] && date[5..7] == s[5..7] && date[8..] == s[8..10];
    assert time[..2] == s[11..13] && time[3..5] == s[14..16] && time[6..] == s[17..19];
    ThreeFieldsOfText(date, 4, 2, 2);
    ThreeFieldsOfText(time, 2, 2, 2);
    SplitAt(s, 10);
  }

  lemma SplitAt(s: string, i: nat)
    requires i < |s|
    ensures s == s[..i] + [s[i]] + s[i + 1..]
  {
  }

  /** Three digit fields of widths `a`, `b`, `c` and two separators, rewritten from their numbers. */
  lemma ThreeFieldsOfText(t: string, a: nat, b: nat, c: nat)
    requires |t| == a + b + c + 2
    requires AllDigits(t[..a]) && AllDigits(t[a + 1..a + 1 + b]) && AllDigits(t[a + b + 2..])
    ensures Triple(Pad(Number(t[..a]), a), t[a], Pad(Number(t[a + 1..a + 1 + b]), b), t[a + 1 + b],
                   Pad(Number(t[a + b + 2..]), c)) == t
  {
    PadOfNumber(t[..a]);
    PadOfNumber(t[a + 1..a + 1 + b]);
    PadOfNumber(t[a + b + 2..]);
    TripleOfPieces(t, a, b);
  }

  lemma TripleOfPieces(t: string, a: nat, b: nat)
    requires a + b + 2 <= |t|
    ensures Triple(t[..a], t[a], t[a + 1..a + 1 + b], t[a + 1 + b], t[a + b + 2..]) == t
  {
    var x, y, z := t[..a], t[a + 1..a + 1 + b], t[a + b + 2..];
    var u := t[a + 1..];
    SplitAt(t, a);
    SplitAt(u, b);
    assert u[..b] == y && u[b] == t[a + 1 + b] && u[b + 1..] == z;
    assert t == x + [t[a]] + (y + [t[a + 1 + b]] + z);
  }

  /** Code-point lexicographic order on text, the order `$sort` applies to string keys. */
  predicate TextBefore(s: string, t: string) {
    if s == [] then t != []
    else if t == [] then false
    else s[0] < t[0] || (s[0] == t[0] && TextBefore(s[1..], t[1..]))
  }

  lemma {:induction false} TextBeforeIrreflexive(s: string)
    ensures !TextBefore(s, s)
  {
    if s != [] {
      TextBeforeIrreflexive(s[1..]);
    }
  }

  /** Comparing two texts split at the same length compares the first parts, then the rest. */
  lemma {:induction false} TextBeforeConcat(x1: string, y1: string, x2: string, y2: string)
    requires |x1| == |x2|
    ensures TextBefore(x1 + y1, x2 + y2) <==> TextBefore(x1, x2) || (x1 == x2 && TextBefore(y1, y2))
  {
    if x1 == [] {
      assert x1 + y1 == y1 && x2 + y2 == y2;
    } else {
      assert (x1 + y1)[0] == x1[0] && (x1 + y1)[1..] == x1[1..] + y1;
      assert (x2 + y2)[0] == x2[0] && (x2 + y2)[1..] == x2[1..] + y2;
      TextBeforeConcat(x1[1..], y1, x2[1..], y2);
      if x1[0] == x2[0] && x1[1..] == x2[1..] {
        assert x1 == x2;
      }
    }
  }

  lemma PadInjective(a: nat, b: nat, width: nat)
    requires a < Pow10(width) && b < Pow10(width)
    ensures Pad(a, width) == Pad(b, width) <==> a == b
  {
    NumberOfPad(a, width);
    NumberOfPad(b, width);
  }

  /** Zero-padded numbers of one width compare as text as they compare as numbers. */
  lemma {:induction false} PadOrder(a: nat, b: nat, width: nat)
    requires a < Pow10(width) && b < Pow10(width)
    ensures TextBefore(Pad(a, width), Pad(b, width)) <==> a < b
  {
    if width == 0 {
      TextBeforeIrreflexive([]);
    } else {
      var pa, pb := Pad(a / 10, width - 1), Pad(b / 10, width - 1);
      var da, db := DigitChar(a % 10), DigitChar(b % 10);
      PadOrder(a / 10, b / 10, width - 1);
      PadInjective(a / 10, b / 10, width - 1);
      TextBeforeConcat(pa, [da], pb, [db]);
      assert TextBefore([da], [db]) <==> da < db;
      assert a == 10 * (a / 10) + a % 10 && b == 10 * (b / 10) + b % 10;
    }
  }

  lemma {:induction false} TripleOrder(a1: string, b1: string, c1: string, a2: string, b2: string, c2: string, sep1: char, sep2: char)
    requires |a1| == |a2| && |b1| == |b2| && |c1| == |c2|
    ensures TextBefore(Triple(a1, sep1, b1, sep2, c1), Triple(a2, sep1, b2, sep2, c2))
        <==> TextBefore(a1, a2) || (a1 == a2 && (TextBefore(b1, b2) || (b1 == b2 && TextBefore(c1, c2))))
    ensures Triple(a1, sep1, b1, sep2, c1) == Triple(a2, sep1, b2, sep2, c2) <==> a1 == a2 && b1 == b2 && c1 == c2
  {
    TextBeforeIrreflexive([sep1]);
    TextBeforeIrreflexive([sep2]);
    TextBeforeConcat(a1 + [sep1] + b1 + [sep2], c1, a2 + [sep1] + b2 + [sep2], c2);
    TextBeforeConcat(a1 + [sep1] + b1, [sep2], a2 + [sep1] + b2, [sep2]);
    TextBeforeConcat(a1 + [sep1], b1, a2 + [sep1], b2);
    TextBeforeConcat(a1, [sep1], a2, [sep1]);
    var t1, t2 := Triple(a1, sep1, b1, sep2, c1), Triple(a2, sep1, b2, sep2, c2);
    if t1 == t2 {
      assert a1 == t1[..|a1|] == t2[..|a2|] == a2;
      assert b1 == t1[|a1| + 1..|a1| + 1 + |b1|] == b2;
      assert c1 == t1[|a1| + |b1| + 2..] == c2;
    }
  }

  /**
   * On real datetimes the text order of `Format` is chronological order, so
   * sorting the fixed-width keys as strings sorts them in time.
   */
  lemma FormatOrder(a: DateTime, b: DateTime)
    requires Valid(a) && Valid(b)
    ensures TextBefore(Format(a), Format(b)) <==> Before(a, b)
  {
    var dateA := Triple(Pad(a.year, 4), '-', Pad(a.month, 2), '-', Pad(a.day, 2));
    var dateB := Triple(Pad(b.year, 4), '-', Pad(b.month, 2), '-', Pad(b.day, 2));
    var timeA := Triple(Pad(a.hour, 2), ':', Pad(a.minute, 2), ':', Pad(a.second, 2));
    var timeB := Triple(Pad(b.hour, 2), ':', Pad(b.minute, 2), ':', Pad(b.second, 2));
    assert Pow10(2) == 100 && Pow10(4) == 10000;
    TextBeforeIrreflexive("T");
    TextBeforeConcat(dateA + "T", timeA, dateB + "T", timeB);
    TextBeforeConcat(dateA, "T", dateB, "T");
    TripleOrder(Pad(a.year, 4), Pad(a.month, 2), Pad(a.day, 2), Pad(b.year, 4), Pad(b.month, 2), Pad(b.day, 2), '-', '-');
    TripleOrder(Pad(a.hour, 2), Pad(a.minute, 2), Pad(a.second, 2), Pad(b.hour, 2), Pad(b.minute, 2), Pad(b.second, 2), ':', ':');
    PadOrder(a.year, b.year, 4);
    PadOrder(a.month, b.month, 2);
    PadOrder(a.day, b.day, 2);
    PadOrder(a.hour, b.hour, 2);
    PadOrder(a.minute, b.minute, 2);
    PadOrder(a.second, b.second, 2);
    PadInjective(a.year, b.year, 4);
    PadInjective(a.month, b.month, 2);
    PadInjective(a.day, b.day, 2);
    PadInjective(a.hour, b.hour, 2);
    PadInjective(a.minute, b.minute, 2);
    PadInjective(a.second, b.second, 2);
    if dateA + "T" == dateB + "T" {
      assert dateA == (dateA + "T")[..10] == dateB;
    }
  }

  // ---------------------------------------------------------------------
  // One hour later

  /** `d + timedelta(hours=1)`, with day, month and year rollover. */
  function AddHour(d: DateTime): (r: Result<DateTime>)
    requires Valid(d)
    ensures r.Ok? ==> Valid(r.value) && Before(d, r.value)
    ensures r.Ok? ==> r.value.minute == d.minute && r.value.second == d.second
    ensures r.Err? <==> d.year == 9999 && d.month == 12 && d.day == 31 && d.hour == 23
    ensures r.Err? ==> r.error == OverflowError
  {
    if d.hour < 23 then Ok(d.(hour := d.hour + 1))
    else if d.day < DaysInMonth(d.year, d.month) then Ok(d.(day := d.day + 1, hour := 0))
    else if d.month < 12 then Ok(d.(month := d.month + 1, day := 1, hour := 0))
    else if d.year < 9999 then Ok(d.(year := d.year + 1, month := 1, day := 1, hour := 0))
    else Err(OverflowError)
  }

  /**
   * Among the datetimes with the same minutes and seconds, `AddHour(d)` is the
   * first one after `d`: no hour is skipped. It fails only when there is none.
   */
  lemma AddHourIsNextHour(d: DateTime, e: DateTime)
    requires Valid(d) && Valid(e)
    requires e.minute == d.minute && e.second == d.second
    requires Before(d, e)
    ensures AddHour(d).Ok?
    ensures NotAfter(AddHour(d).value, e)
  {
  }
}
