/** `combineDateAndTime` of the calendar component: a date string and a
    time-of-day string are joined into an ISO 8601 combined date and time at
    UTC offset zero (ISO 8601, section 4.3.2), with seconds and milliseconds
    fixed at zero. The function validates nothing; the shape predicates below
    say when its output is a well-formed timestamp. */
module Timestamp {
  import opened Wrappers
  import opened JsString

  /** Characters kept from the date: `yyyy-mm-dd`. */
  const DateLength := 10
  /** Length the time is padded to: `HH:mm`. */
  const TimeLength := 5
  /** Fixed seconds, milliseconds and UTC offset appended to every result. */
  const UtcSuffix: string := ":00.000+00:00"
  /** Length of a well-formed result. */
  const TimestampLength := 29

  /** `date.substring(0, 10)` */
  function DatePart(date: string): (r: string)
    ensures r == date[..Min(|date|, DateLength)]
  {
    Substring(date, 0, DateLength)
  }

  /** `time.padStart(5, '0')` */
  function TimePart(time: string): (r: string)
    ensures |r| == Max(|time|, TimeLength)
  {
    PadStart(time, TimeLength, '0')
  }

  /** The normaliser. Total: any two strings give a result, 14 characters
      longer than the kept date and the padded time together; `CombineLayout`
      says what the result is made of. */
  function CombineDateAndTime(date: string, time: string): (r: string)
    ensures |r| == Min(|date|, DateLength) + Max(|time|, TimeLength) + 14
  {
    DatePart(date) + "T" + TimePart(time) + UtcSuffix
  }

  /** Where the pieces of `a + [x] + b + c` sit. */
  lemma ConcatLayout(a: string, x: char, b: string, c: string)
    ensures var r := a + [x] + b + c;
      |r| == |a| + 1 + |b| + |c| && r[..|a|] == a && r[|a|] == x &&
      r[|a| + 1..|r| - |c|] == b && r[|r| - |c|..] == c
  {
    var r := a + [x] + b + c;
    assert r[..|a|] == a;
    assert r[|a| + 1..|r| - |c|] == b;
    assert r[|r| - |c|..] == c;
  }

  /** The result begins with the kept date characters, followed by `T`,
      followed by the padded time, and ends with the fixed suffix. */
  lemma CombineLayout(date: string, time: string)
    ensures var r, n := CombineDateAndTime(date, time), Min(|date|, DateLength);
      |r| == n + 1 + Max(|time|, TimeLength) + |UtcSuffix| &&
      r[..n] == date[..n] && r[n] == 'T' &&
      r[n + 1..|r| - |UtcSuffix|] == PadStart(time, TimeLength, '0') &&
      r[|r| - |UtcSuffix|..] == UtcSuffix
  {
    var dp, tp := DatePart(date), TimePart(time);
    assert CombineDateAndTime(date, time) == dp + ['T'] + tp + UtcSuffix;
    ConcatLayout(dp, 'T', tp, UtcSuffix);
  }

  predicate IsDigit(c: char) { '0' <= c <= '9' }

  /** `yyyy-mm-dd`, digits only checked for being digits. */
  predicate IsDateShape(d: string)
  {
    |d| == DateLength &&
    IsDigit(d[0]) && IsDigit(d[1]) && IsDigit(d[2]) && IsDigit(d[3]) && d[4] == '-' &&
    IsDigit(d[5]) && IsDigit(d[6]) && d[7] == '-' && IsDigit(d[8]) && IsDigit(d[9])
  }

  /** `HH:mm`, digits only checked for being digits. */
  predicate IsTimeShape(t: string)
  {
    |t| == TimeLength && IsDigit(t[0]) && IsDigit(t[1]) && t[2] == ':' && IsDigit(t[3]) && IsDigit(t[4])
  }

  /** `yyyy-mm-ddTHH:mm:00.000+00:00`, the form the normaliser is meant to produce. */
  predicate IsUtcTimestamp(s: string)
  {
    |s| == TimestampLength && IsDateShape(s[..DateLength]) && s[DateLength] == 'T' &&
    IsTimeShape(s[DateLength + 1..DateLength + 1 + TimeLength]) &&
    s[DateLength + 1 + TimeLength..] == UtcSuffix
  }

  /** Reads the date and the time back out of a well-formed timestamp. */
  function SplitTimestamp(s: string): (r: Option<(string, string)>)
    ensures r.Some? <==> IsUtcTimestamp(s)
    ensures r.Some? ==> IsDateShape(r.value.0) && IsTimeShape(r.value.1)
  {
    if IsUtcTimestamp(s) then Some((s[..DateLength], s[DateLength + 1..DateLength + 1 + TimeLength])) else None
  }

  /** Only the first ten characters of the date reach the result; whatever
      follows them (a time, a zone) is discarded. */
  lemma DateSuffixIsIgnored(date: string, rest: string, time: string)
    requires |date| >= DateLength
    ensures CombineDateAndTime(date + rest, time) == CombineDateAndTime(date, time)
  {
    assert (date + rest)[..DateLength] == date[..DateLength];
  }

  /** Feeding the normaliser its own date and time parts gives the same
      result: cutting and padding are idempotent. */
  lemma CombineOfParts(date: string, time: string)
    ensures CombineDateAndTime(DatePart(date), TimePart(time)) == CombineDateAndTime(date, time)
  {
    var dp, tp := DatePart(date), TimePart(time);
    assert DatePart(dp) == dp;
    assert TimePart(tp) == tp by {
      PadStartNeverTruncates(tp, TimeLength, '0');
    }
  }

  /** A time shorter than five characters gets zeros in front; together with
      `CombineLayout` this is what the result holds between `T` and the suffix. */
  lemma ShortTimeIsZeroPadded(time: string)
    requires |time| < TimeLength
    ensures TimePart(time) == Repeat('0', TimeLength - |time|) + time
  {
  }

  /** A time of five characters or more is kept unchanged, not cut. */
  lemma LongTimeIsKept(time: string)
    requires |time| >= TimeLength
    ensures TimePart(time) == time
  {
    PadStartNeverTruncates(time, TimeLength, '0');
  }

  /** With a date of at least ten characters and a time of at most five, the
      result has exactly 29 characters: the date, `T`, the padded time and the
      fixed suffix. */
  lemma CanonicalLayout(date: string, time: string)
    requires |date| >= DateLength && |time| <= TimeLength
    ensures var r := CombineDateAndTime(date, time);
      |r| == TimestampLength && r[..DateLength] == date[..DateLength] && r[DateLength] == 'T' &&
      r[DateLength + 1..DateLength + 1 + TimeLength] == PadStart(time, TimeLength, '0') &&
      r[DateLength + 1 + TimeLength..] == UtcSuffix
  {
    CombineLayout(date, time);
  }

  /** In a well-formed timestamp the only `T` among the first eleven
      characters is the separator. */
  lemma SeparatorIsAtTen(s: string, k: int)
    requires IsUtcTimestamp(s) && 0 <= k < DateLength
    ensures s[k] != 'T'
  {
    var d := s[..DateLength];
    assert s[k] == d[k];
    assert k == 0 || k == 1 || k == 2 || k == 3 || k == 4 || k == 5 || k == 6 || k == 7 || k == 8 || k == 9;
  }

  /** A well-formed result can only come from a date of at least ten
      characters and a time of at most five: otherwise the `T` lands at the
      wrong place or the result is too long. */
  lemma UtcTimestampNeedsFullParts(date: string, time: string)
    requires IsUtcTimestamp(CombineDateAndTime(date, time))
    ensures |date| >= DateLength && |time| <= TimeLength
  {
    var r, n := CombineDateAndTime(date, time), Min(|date|, DateLength);
    assert |r| == n + 1 + Max(|time|, TimeLength) + |UtcSuffix| && r[n] == 'T' by {
      CombineLayout(date, time);
    }
    if n < DateLength {
      SeparatorIsAtTen(r, n);
    }
  }

  /** The result is a well-formed UTC timestamp exactly when the date has at
      least ten characters and begins with `yyyy-mm-dd`, and the time has at
      most five characters and pads to `HH:mm`. */
  lemma CombineIsUtcTimestampIff(date: string, time: string)
    ensures IsUtcTimestamp(CombineDateAndTime(date, time)) <==>
      |date| >= DateLength && IsDateShape(date[..DateLength]) &&
      |time| <= TimeLength && IsTimeShape(PadStart(time, TimeLength, '0'))
  {
    if IsUtcTimestamp(CombineDateAndTime(date, time)) {
      UtcTimestampNeedsFullParts(date, time);
    }
    if |date| >= DateLength && |time| <= TimeLength {
      CanonicalLayout(date, time);
    }
  }

  /** Splitting the normaliser's output gives back the date and the time it
      was given, when those were already in `yyyy-mm-dd` and `HH:mm` form. */
  lemma SplitCombine(date: string, time: string)
    requires IsDateShape(date) && IsTimeShape(time)
    ensures SplitTimestamp(CombineDateAndTime(date, time)) == Some((date, time))
  {
    var r := CombineDateAndTime(date, time);
    CanonicalLayout(date, time);
    CombineIsUtcTimestampIff(date, time);
    assert date[..DateLength] == date;
    assert PadStart(time, TimeLength, '0') == time;
    assert r[..DateLength] == date;
    assert r[DateLength + 1..DateLength + 1 + TimeLength] == time;
  }

  /** Every well-formed UTC timestamp is the normaliser's output for the date
      and time it splits into. */
  lemma CombineSplit(s: string)
    requires IsUtcTimestamp(s)
    ensures CombineDateAndTime(SplitTimestamp(s).value.0, SplitTimestamp(s).value.1) == s
  {
    var (d, t) := SplitTimestamp(s).value;
    var r := CombineDateAndTime(d, t);
    CanonicalLayout(d, t);
    assert |r| == |s|;
    assert r[..DateLength] == s[..DateLength];
    assert r[DateLength + 1..DateLength + 1 + TimeLength] == s[DateLength + 1..DateLength + 1 + TimeLength];
    assert r[DateLength + 1 + TimeLength..] == s[DateLength + 1 + TimeLength..];
    assert r == r[..DateLength] + [r[DateLength]] + r[DateLength + 1..DateLength + 1 + TimeLength] + r[DateLength + 1 + TimeLength..];
    assert s == s[..DateLength] + [s[DateLength]] + s[DateLength + 1..DateLength + 1 + TimeLength] + s[DateLength + 1 + TimeLength..];
  }

  /** Distinct well-formed dates and times never give the same timestamp. */
  lemma CombineIsInjective(d1: string, t1: string, d2: string, t2: string)
    requires IsDateShape(d1) && IsTimeShape(t1) && IsDateShape(d2) && IsTimeShape(t2)
    requires CombineDateAndTime(d1, t1) == CombineDateAndTime(d2, t2)
    ensures d1 == d2 && t1 == t2
  {
    SplitCombine(d1, t1);
    SplitCombine(d2, t2);
  }

  /** A full timestamp as the date and an unpadded time. */
  lemma ExampleFullTimestampDate()
    ensures CombineDateAndTime("2024-05-01T10:00:00Z", "9:30") == "2024-05-01T09:30:00.000+00:00"
  {
  }
}
