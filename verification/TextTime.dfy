/** Times as the hub stores them, "2006-01-02 15:04:05.000Z": comparing the texts is comparing
    the times, and truncating the text to a bucket is truncating the time
    (hub/internal/metrics/downsample.go). The calendar is the proleptic Gregorian one, UTC. */
module TextTime {

  import opened Downsample

  datatype Stamp = Stamp(year: nat, month: nat, day: nat, hour: nat, minute: nat, second: nat, milli: nat)

  // ---- the calendar ----

  predicate Leap(y: nat) { y % 4 == 0 && (y % 100 != 0 || y % 400 == 0) }

  function YearDays(y: nat): nat { if Leap(y) then 366 else 365 }

  function MonthDays(leap: bool, m: nat): nat
    requires 1 <= m <= 12
  {
    if m == 2 then (if leap then 29 else 28) else if m in {4, 6, 9, 11} then 30 else 31
  }

  /** Days from the first of January of year 0. */
  function YearStart(y: nat): nat
  {
    if y == 0 then 0 else YearStart(y - 1) + YearDays(y - 1)
  }

  function MonthStart(leap: bool, m: nat): nat
    requires 1 <= m <= 12
  {
    if m == 1 then 0 else MonthStart(leap, m - 1) + MonthDays(leap, m - 1)
  }

  predicate Valid(s: Stamp)
  {
    && s.year <= 9999 && 1 <= s.month <= 12 && 1 <= s.day <= MonthDays(Leap(s.year), s.month)
    && s.hour < 24 && s.minute < 60 && s.second < 60 && s.milli < 1000
  }

  /** Days since the epoch, 1970-01-01. */
  const EPOCH := 719528

  function Day(s: Stamp): int
    requires Valid(s)
  {
    YearStart(s.year) + MonthStart(Leap(s.year), s.month) + s.day - 1 - EPOCH
  }

  function OfDay(s: Stamp): nat
  {
    s.hour * HOUR + s.minute * MINUTE + s.second * 1000 + s.milli
  }

  /** Milliseconds since the epoch. */
  function Millis(s: Stamp): int
    requires Valid(s)
  {
    Day(s) * DAY + OfDay(s)
  }

  // ---- time order is order of the fields ----

  predicate DateBefore(a: Stamp, b: Stamp)
  {
    a.year < b.year || (a.year == b.year && (a.month < b.month || (a.month == b.month && a.day < b.day)))
  }

  predicate SameDate(a: Stamp, b: Stamp)
  {
    a.year == b.year && a.month == b.month && a.day == b.day
  }

  predicate ClockBefore(a: Stamp, b: Stamp)
  {
    a.hour < b.hour || (a.hour == b.hour && (a.minute < b.minute || (a.minute == b.minute &&
      (a.second < b.second || (a.second == b.second && a.milli < b.milli)))))
  }

  predicate FieldsBefore(a: Stamp, b: Stamp)
  {
    DateBefore(a, b) || (SameDate(a, b) && ClockBefore(a, b))
  }

  lemma {:induction false} YearStartGrows(a: nat, b: nat)
    requires a <= b
    ensures YearStart(a) <= YearStart(b)
    decreases b
  {
    if a < b {
      YearStartGrows(a, b - 1);
    }
  }

  lemma {:induction false} MonthStartGrows(leap: bool, a: nat, b: nat)
    requires 1 <= a <= b <= 12
    ensures MonthStart(leap, a) <= MonthStart(leap, b)
    ensures a < b ==> MonthStart(leap, a) + MonthDays(leap, a) <= MonthStart(leap, b)
    decreases b
  {
    if a < b {
      MonthStartGrows(leap, a, b - 1);
    }
  }

  lemma YearIsMonths(leap: bool)
    ensures MonthStart(leap, 12) + MonthDays(leap, 12) == if leap then 366 else 365
  {
    assert MonthStart(leap, 2) == MonthStart(leap, 1) + MonthDays(leap, 1);
    assert MonthStart(leap, 3) == MonthStart(leap, 2) + MonthDays(leap, 2);
    assert MonthStart(leap, 4) == MonthStart(leap, 3) + MonthDays(leap, 3);
    assert MonthStart(leap, 5) == MonthStart(leap, 4) + MonthDays(leap, 4);
    assert MonthStart(leap, 6) == MonthStart(leap, 5) + MonthDays(leap, 5);
    assert MonthStart(leap, 7) == MonthStart(leap, 6) + MonthDays(leap, 6);
    assert MonthStart(leap, 8) == MonthStart(leap, 7) + MonthDays(leap, 7);
    assert MonthStart(leap, 9) == MonthStart(leap, 8) + MonthDays(leap, 8);
    assert MonthStart(leap, 10) == MonthStart(leap, 9) + MonthDays(leap, 9);
    assert MonthStart(leap, 11) == MonthStart(leap, 10) + MonthDays(leap, 10);
    assert MonthStart(leap, 12) == MonthStart(leap, 11) + MonthDays(leap, 11);
  }

  lemma InYear(s: Stamp)
    requires Valid(s)
    ensures MonthStart(Leap(s.year), s.month) + s.day <= YearDays(s.year)
  {
    MonthStartGrows(Leap(s.year), s.month, 12);
    YearIsMonths(Leap(s.year));
  }

  lemma DayGrows(a: Stamp, b: Stamp)
    requires Valid(a) && Valid(b) && DateBefore(a, b)
    ensures Day(a) < Day(b)
  {
    if a.year < b.year {
      InYear(a);
      YearStartGrows(a.year + 1, b.year);
    } else if a.month < b.month {
      MonthStartGrows(Leap(a.year), a.month, b.month);
    }
  }

  lemma DayOrder(a: Stamp, b: Stamp)
    requires Valid(a) && Valid(b)
    ensures Day(a) < Day(b) <==> DateBefore(a, b)
    ensures Day(a) == Day(b) <==> SameDate(a, b)
  {
    if DateBefore(a, b) {
      DayGrows(a, b);
    } else if DateBefore(b, a) {
      DayGrows(b, a);
    }
  }

  lemma OfDayOrder(a: Stamp, b: Stamp)
    requires Valid(a) && Valid(b)
    ensures OfDay(a) < DAY
    ensures OfDay(a) < OfDay(b) <==> ClockBefore(a, b)
  {
  }

  lemma MillisOrder(a: Stamp, b: Stamp)
    requires Valid(a) && Valid(b)
    ensures Millis(a) < Millis(b) <==> FieldsBefore(a, b)
  {
    DayOrder(a, b);
    OfDayOrder(a, b);
    OfDayOrder(b, a);
    hide Day, OfDay, DateBefore, ClockBefore, SameDate;
  }

  // ---- text ----

  function Digit(n: nat): char
    requires n < 10
  {
    "0123456789"[n]
  }

  /** n in w digits, zero-padded. */
  function Pad(n: nat, w: nat): (s: string)
    ensures |s| == w
  {
    if w == 0 then "" else Pad(n / 10, w - 1) + [Digit(n % 10)]
  }

  function Pow10(w: nat): nat { if w == 0 then 1 else 10 * Pow10(w - 1) }

  function DateText(s: Stamp): string
  {
    Pad(s.year, 4) + "-" + Pad(s.month, 2) + "-" + Pad(s.day, 2) + " "
  }

  function HourText(s: Stamp): string
  {
    DateText(s) + Pad(s.hour, 2) + ":"
  }

  /** The stored layout. */
  function Text(s: Stamp): string
  {
    HourText(s) + Pad(s.minute, 2) + ":" + Pad(s.second, 2) + "." + Pad(s.milli, 3) + "Z"
  }

  /** How SQLite compares texts. */
  predicate Less(a: string, b: string)
  {
    b != "" && (a == "" || a[0] < b[0] || (a[0] == b[0] && Less(a[1..], b[1..])))
  }

  /** Fixed-width pieces compare piece by piece. */
  lemma {:induction false} LessPieces(p: string, q: string, s: string, t: string)
    requires |p| == |q|
    ensures Less(p + s, q + t) <==> Less(p, q) || (p == q && Less(s, t))
  {
    if p == "" {
      assert p + s == s && q + t == t;
    } else {
      LessPieces(p[1..], q[1..], s, t);
      assert (p + s)[1..] == p[1..] + s && (q + t)[1..] == q[1..] + t;
      assert p == [p[0]] + p[1..] && q == [q[0]] + q[1..];
    }
  }

  lemma DigitOrder(a: nat, b: nat)
    requires a < 10 && b < 10
    ensures Less([Digit(a)], [Digit(b)]) <==> a < b
    ensures Digit(a) == Digit(b) <==> a == b
  {
    assert forall i, j :: 0 <= i < 10 && 0 <= j < 10 ==> ("0123456789"[i] < "0123456789"[j] <==> i < j);
    assert [Digit(a)][1..] == "" && [Digit(b)][1..] == "";
  }

  /** Zero-padded numbers compare as numbers. */
  lemma {:induction false} PadOrder(a: nat, b: nat, w: nat)
    requires a < Pow10(w) && b < Pow10(w)
    ensures Less(Pad(a, w), Pad(b, w)) <==> a < b
    ensures Pad(a, w) == Pad(b, w) <==> a == b
  {
    if w > 0 {
      PadOrder(a / 10, b / 10, w - 1);
      DigitOrder(a % 10, b % 10);
      var p, q := Pad(a / 10, w - 1), Pad(b / 10, w - 1);
      LessPieces(p, q, [Digit(a % 10)], [Digit(b % 10)]);
      assert (p + [Digit(a % 10)])[..w - 1] == p && (q + [Digit(b % 10)])[..w - 1] == q;
      assert (p + [Digit(a % 10)])[w - 1] == Digit(a % 10) && (q + [Digit(b % 10)])[w - 1] == Digit(b % 10);
    }
  }

  /** One more field of a text. */
  lemma LessField(p: string, q: string, a: nat, b: nat, w: nat, mark: string)
    requires |p| == |q| && a < Pow10(w) && b < Pow10(w)
    ensures Less(p + Pad(a, w) + mark, q + Pad(b, w) + mark) <==> Less(p, q) || (p == q && a < b)
    ensures p + Pad(a, w) + mark == q + Pad(b, w) + mark <==> p == q && a == b
  {
    LessPieces(p + Pad(a, w), q + Pad(b, w), mark, mark);
    LessPieces(p, q, Pad(a, w), Pad(b, w));
    PadOrder(a, b, w);
    NotLess(mark);
    var x, y := p + Pad(a, w) + mark, q + Pad(b, w) + mark;
    assert x[..|p|] == p && y[..|q|] == q;
    assert x[|p|..|p| + w] == Pad(a, w) && y[|q|..|q| + w] == Pad(b, w);
  }

  lemma {:induction false} NotLess(s: string)
    ensures !Less(s, s)
  {
    if s != "" {
      NotLess(s[1..]);
    }
  }

  lemma DateTextOrder(a: Stamp, b: Stamp)
    requires Valid(a) && Valid(b)
    ensures |DateText(a)| == 11
    ensures Less(DateText(a), DateText(b)) <==> DateBefore(a, b)
    ensures DateText(a) == DateText(b) <==> SameDate(a, b)
  {
    hide Less, Pad;
    assert Pow10(4) == 10_000 && Pow10(2) == 100;
    var y, z := "" + Pad(a.year, 4) + "-", "" + Pad(b.year, 4) + "-";
    assert Pad(a.year, 4) + "-" == y && Pad(b.year, 4) + "-" == z;
    LessField("", "", a.year, b.year, 4, "-");
    NotLess("");
    LessField(y, z, a.month, b.month, 2, "-");
    LessField(y + Pad(a.month, 2) + "-", z + Pad(b.month, 2) + "-", a.day, b.day, 2, " ");
  }

  lemma TextFields(a: Stamp, b: Stamp)
    requires Valid(a) && Valid(b)
    ensures Less(Text(a), Text(b)) <==> Less(DateText(a), DateText(b)) || (DateText(a) == DateText(b) && ClockBefore(a, b))
    ensures Text(a) == Text(b) <==> DateText(a) == DateText(b) && !ClockBefore(a, b) && !ClockBefore(b, a)
  {
    DateTextOrder(a, b);
    DateTextOrder(b, a);
    hide Less, Pad, DateText, DateBefore, SameDate;
    assert Pow10(3) == 1000 && Pow10(2) == 100;
    var p, q := HourText(a), HourText(b);
    LessField(DateText(a), DateText(b), a.hour, b.hour, 2, ":");
    LessField(p, q, a.minute, b.minute, 2, ":");
    var p1, q1 := p + Pad(a.minute, 2) + ":", q + Pad(b.minute, 2) + ":";
    LessField(p1, q1, a.second, b.second, 2, ".");
    var p2, q2 := p1 + Pad(a.second, 2) + ".", q1 + Pad(b.second, 2) + ".";
    LessField(p2, q2, a.milli, b.milli, 3, "Z");
  }

  /** Text order is time order, and equal texts are equal times. */
  lemma TextOrder(a: Stamp, b: Stamp)
    requires Valid(a) && Valid(b)
    ensures Less(Text(a), Text(b)) <==> Millis(a) < Millis(b)
    ensures Text(a) == Text(b) <==> a == b
    ensures a == b <==> Millis(a) == Millis(b)
  {
    TextFields(a, b);
    MillisOrder(a, b);
    MillisOrder(b, a);
    DateTextOrder(a, b);
    hide Less, Text, DateText, Millis;
  }

  // ---- buckets ----

  function Minutes(text: string): nat
    requires |text| >= 16 && '0' <= text[14] <= '9' && '0' <= text[15] <= '9'
  {
    (text[14] as int - '0' as int) * 10 + (text[15] as int - '0' as int)
  }

  predicate HasMinutes(text: string)
  {
    |text| >= 16 && '0' <= text[14] <= '9' && '0' <= text[15] <= '9'
  }

  /** bucketExpr, on the text of `created`. */
  function BucketText(to: Tier, text: string): string
    requires to != M1 && HasMinutes(text)
  {
    match to
    case M10 => text[..14] + Pad(Minutes(text) / 10 * 10, 2) + ":00.000Z"
    case H1 => text[..14] + "00:00.000Z"
    case D1 => text[..11] + "00:00:00.000Z"
  }

  /** The start of the bucket, field by field. */
  function Truncated(to: Tier, s: Stamp): Stamp
    requires to != M1
  {
    match to
    case M10 => s.(minute := s.minute / 10 * 10, second := 0, milli := 0)
    case H1 => s.(minute := 0, second := 0, milli := 0)
    case D1 => s.(hour := 0, minute := 0, second := 0, milli := 0)
  }

  lemma DigitBack(n: nat)
    requires n < 10
    ensures '0' <= Digit(n) <= '9' && Digit(n) as int - '0' as int == n
  {
    assert forall i :: 0 <= i < 10 ==> "0123456789"[i] as int - '0' as int == i;
  }

  lemma TwoDigits(n: nat)
    requires n < 100
    ensures Pad(n, 2) == [Digit(n / 10), Digit(n % 10)]
  {
    assert Pad(n / 10 / 10, 0) == "";
    assert Pad(n / 10, 1) == "" + [Digit(n / 10)];
  }

  lemma TextParts(s: Stamp)
    requires Valid(s)
    ensures var t := Text(s);
            && |t| == 24 && t[..14] == HourText(s) && t[..11] == DateText(s)
            && t[14..16] == Pad(s.minute, 2)
  {
    hide Pad;
    var t := Text(s);
    assert |DateText(s)| == 11 && |HourText(s)| == 14;
    assert t == HourText(s) + (Pad(s.minute, 2) + ":" + Pad(s.second, 2) + "." + Pad(s.milli, 3) + "Z");
    assert HourText(s) == DateText(s) + (Pad(s.hour, 2) + ":");
  }

  lemma MinutesBack(s: Stamp)
    requires Valid(s)
    ensures HasMinutes(Text(s)) && Minutes(Text(s)) == s.minute
  {
    TextParts(s);
    TwoDigits(s.minute);
    DigitBack(s.minute / 10);
    DigitBack(s.minute % 10);
    var t := Text(s);
    hide Text, Pad;
    assert t[14] == t[14..16][0] && t[15] == t[14..16][1];
  }

  lemma Zeros()
    ensures Pad(0, 2) == "00" && Pad(0, 3) == "000"
  {
    TwoDigits(0);
    assert Pad(0, 3) == Pad(0, 2) + [Digit(0)];
  }

  lemma BucketTextIs(to: Tier, s: Stamp)
    requires to != M1 && Valid(s)
    ensures Valid(Truncated(to, s))
    ensures HasMinutes(Text(s)) && BucketText(to, Text(s)) == Text(Truncated(to, s))
  {
    MinutesBack(s);
    TextParts(s);
    Zeros();
    hide Pad, Minutes, HasMinutes, DateText, HourText, Text;
    match to
    case M10 => MinuteText(s, Truncated(to, s));
    case H1 => MinuteText(s, Truncated(to, s));
    case D1 => DayText(Truncated(to, s));
      SameDateText(s, Truncated(to, s));
  }

  lemma SameDateText(s: Stamp, u: Stamp)
    requires SameDate(s, u)
    ensures DateText(s) == DateText(u)
  {
  }

  lemma MinuteText(s: Stamp, u: Stamp)
    requires Pad(0, 2) == "00" && Pad(0, 3) == "000"
    requires SameDate(s, u) && u.hour == s.hour && u.second == u.milli == 0
    ensures Text(u) == HourText(s) + Pad(u.minute, 2) + ":00.000Z"
    ensures u.minute == 0 ==> Text(u) == HourText(s) + "00:00.000Z"
  {
    hide Pad;
    assert Text(u) == HourText(s) + Pad(u.minute, 2) + (":" + "00" + "." + "000" + "Z");
  }

  lemma DayText(u: Stamp)
    requires Pad(0, 2) == "00" && Pad(0, 3) == "000"
    requires u.hour == u.minute == u.second == u.milli == 0
    ensures Text(u) == DateText(u) + "00:00:00.000Z"
  {
    hide Pad, DateText;
    assert Text(u) == DateText(u) + ("00" + ":" + "00" + ":" + "00" + "." + "000" + "Z");
  }

  lemma TruncatedIsBucket(to: Tier, s: Stamp)
    requires to != M1 && Valid(s) && Valid(Truncated(to, s))
    ensures Millis(Truncated(to, s)) == Bucket(to, Millis(s))
  {
    var u := Truncated(to, s);
    var d := Day(s);
    assert Day(u) == d;
    match to
    case M10 => DivUnique(Millis(s), 600_000, d * 144 + s.hour * 6 + s.minute / 10);
    case H1 => DivUnique(Millis(s), 3_600_000, d * 24 + s.hour);
    case D1 => DivUnique(Millis(s), 86_400_000, d);
  }

  /** The SQL truncation of the stored text is the text of the bucket start the arithmetic model
      uses, which is also what now.Truncate computes. */
  lemma BucketTextIsBucket(to: Tier, s: Stamp)
    requires to != M1 && Valid(s)
    ensures Valid(Truncated(to, s))
    ensures HasMinutes(Text(s)) && BucketText(to, Text(s)) == Text(Truncated(to, s))
    ensures Millis(Truncated(to, s)) == Bucket(to, Millis(s))
  {
    BucketTextIs(to, s);
    TruncatedIsBucket(to, s);
  }

  /** The query's text comparison selects exactly the rows of completed buckets. */
  lemma CutoffSelectsCompleted(to: Tier, created: Stamp, now: Stamp)
    requires to != M1 && Valid(created) && Valid(now)
    ensures Less(Text(created), Text(Truncated(to, now)))
            <==> Bucket(to, Millis(created)) + Width(to) <= Bucket(to, Millis(now))
  {
    BucketTextIsBucket(to, now);
    TextOrder(created, Truncated(to, now));
    BucketBefore(to, Millis(created), Millis(now));
    BucketBounds(to, Millis(created));
  }

  /** Comparing bucket texts, as the loop does to skip buckets done, is comparing buckets. */
  lemma SkipIsByTime(to: Tier, a: Stamp, b: Stamp)
    requires to != M1 && Valid(a) && Valid(b)
    requires HasMinutes(Text(a)) && HasMinutes(Text(b))
    ensures Less(BucketText(to, Text(a)), BucketText(to, Text(b))) <==> Bucket(to, Millis(a)) < Bucket(to, Millis(b))
    ensures BucketText(to, Text(a)) == BucketText(to, Text(b)) <==> Bucket(to, Millis(a)) == Bucket(to, Millis(b))
  {
    BucketTextIsBucket(to, a);
    BucketTextIsBucket(to, b);
    TextOrder(Truncated(to, a), Truncated(to, b));
  }
}
