/**
 * The parts of Go's `fmt` and `time` packages that scan.go relies on:
 * decimal formatting with `%d` and `%02d`, `time.Parse` for the one layout
 * "Mon, 02 Jan 2006 15:04:05 +0000", and `Time.Format` for that layout and
 * for "20060102". A parsed time is kept as its calendar fields in UTC, which
 * is all `Year`, `Month` and `Day` read back.
 */
module GoTime {
  import opened Maybe

  // ---------------------------------------------------------------------
  // Decimal digits: fmt's %d and %0Nd, and the time package's appendInt
  // ---------------------------------------------------------------------

  predicate IsDigit(c: char) { '0' <= c <= '9' }

  function DigitValue(c: char): nat
    requires IsDigit(c)
  {
    c as int - '0' as int
  }

  function DigitChar(d: nat): (c: char)
    requires d < 10
    ensures IsDigit(c) && DigitValue(c) == d
  {
    ('0' as int + d) as char
  }

  predicate AllDigits(s: string) {
    forall k :: 0 <= k < |s| ==> IsDigit(s[k])
  }

  /** The number a string of decimal digits denotes. */
  function DecimalValue(s: string): nat
    requires AllDigits(s)
    decreases |s|
  {
    if s == [] then 0 else DecimalValue(s[..|s| - 1]) * 10 + DigitValue(s[|s| - 1])
  }

  function Pow10(k: nat): nat {
    if k == 0 then 1 else 10 * Pow10(k - 1)
  }

  /** `k` decimal digits denote a number below 10^k. */
  lemma {:induction false} DecimalValueBound(s: string)
    requires AllDigits(s)
    ensures DecimalValue(s) < Pow10(|s|)
    decreases |s|
  {
    if s != [] {
      DecimalValueBound(s[..|s| - 1]);
    }
  }

  /**
   * fmt's `%d` of a non-negative integer: its decimal digits, with no
   * leading zero except for zero itself.
   */
  function Decimal(n: nat): (s: string)
    ensures 1 <= |s| && AllDigits(s) && DecimalValue(s) == n
    ensures s[0] == '0' ==> n == 0 && |s| == 1
    decreases n
  {
    if n < 10 then
      var s := [DigitChar(n)];
      assert s[..0] == [];
      s
    else
      var p := Decimal(n / 10);
      var s := p + [DigitChar(n % 10)];
      assert s[..|s| - 1] == p;
      s
  }

  /** A number below 10^k has at most k digits. */
  lemma {:induction false} DecimalLength(n: nat, k: nat)
    requires 1 <= k && n < Pow10(k)
    ensures |Decimal(n)| <= k
    decreases k
  {
    if n >= 10 {
      assert k >= 2;
      DecimalLength(n / 10, k - 1);
    }
  }

  function Zeros(k: nat): (s: string)
    ensures |s| == k && AllDigits(s)
  {
    seq(k, _ => '0')
  }

  /** Leading zeros do not change the number. */
  lemma {:induction false} LeadingZeros(k: nat, s: string)
    requires AllDigits(s)
    ensures AllDigits(Zeros(k) + s) && DecimalValue(Zeros(k) + s) == DecimalValue(s)
    decreases |s|
  {
    var z := Zeros(k);
    if s == [] {
      assert z + s == z;
      ZerosValue(k);
    } else {
      var s' := s[..|s| - 1];
      assert (z + s)[..|z + s| - 1] == z + s';
      LeadingZeros(k, s');
    }
  }

  lemma {:induction false} ZerosValue(k: nat)
    ensures DecimalValue(Zeros(k)) == 0
    decreases k
  {
    if k > 0 {
      assert Zeros(k)[..k - 1] == Zeros(k - 1);
      ZerosValue(k - 1);
    }
  }

  /**
   * fmt's `%0<width>d`, and the zero-padded form that `Time.Format` writes:
   * the digits of `n`, with zeros in front up to `width` characters.
   */
  function ZeroPad(n: nat, width: nat): (s: string)
    ensures AllDigits(s) && DecimalValue(s) == n
    ensures |s| == if |Decimal(n)| < width then width else |Decimal(n)|
  {
    var d := Decimal(n);
    if |d| < width then
      LeadingZeros(width - |d|, d);
      Zeros(width - |d|) + d
    else d
  }

  /** A number below 10^width is padded to exactly `width` digits. */
  lemma ZeroPadWidth(n: nat, width: nat)
    requires 1 <= width && n < Pow10(width)
    ensures |ZeroPad(n, width)| == width
  {
    DecimalLength(n, width);
  }

  /** From 1000 to 9999, `%d` and `%04d` agree: four digits with no padding. */
  lemma FourDigits(n: nat)
    requires 1000 <= n <= 9999
    ensures |Decimal(n)| == 4 && ZeroPad(n, 4) == Decimal(n)
  {
    assert Pow10(4) == 10000 && Pow10(3) == 1000;
    DecimalLength(n, 4);
    var d := Decimal(n);
    DecimalValueBound(d);
    PowMonotoneOrAbove(|d|, 3);
  }

  /** `%02d` of a number below 100: its tens digit, then its units digit. */
  lemma TwoDigitPad(n: nat)
    requires n < 100
    ensures ZeroPad(n, 2) == [DigitChar(n / 10), DigitChar(n % 10)]
  {
    if n < 10 {
      assert Decimal(n) == [DigitChar(n)];
      assert Zeros(1) == [DigitChar(0)];
    } else {
      assert Decimal(n / 10) == [DigitChar(n / 10)];
    }
  }

  /** Either `i` is above `j`, or 10^i is at most 10^j. */
  lemma PowMonotoneOrAbove(i: nat, j: nat)
    ensures i > j || Pow10(i) <= Pow10(j)
  {
    if i <= j { PowMonotone(i, j); }
  }

  lemma {:induction false} PowMonotone(i: nat, j: nat)
    requires i <= j
    ensures Pow10(i) <= Pow10(j)
    decreases j
  {
    if i < j { PowMonotone(i, j - 1); }
  }

  // ---------------------------------------------------------------------
  // Calendar
  // ---------------------------------------------------------------------

  /** The calendar and clock fields of a `time.Time` in UTC. */
  datatype Moment = Moment(year: nat, month: nat, day: nat, hour: nat, minute: nat, second: nat)

  /** `time.Time{}`: January 1 of year 1, 00:00:00 UTC. */
  const ZeroTime := Moment(1, 1, 1, 0, 0, 0)

  predicate IsLeap(year: nat) {
    year % 4 == 0 && (year % 100 != 0 || year % 400 == 0)
  }

  /** The time package's `daysIn`. */
  function DaysIn(month: nat, year: nat): nat
    requires 1 <= month <= 12
  {
    if month == 2 && IsLeap(year) then 29
    else [31, 28, 31, 30, 31, 30, 31, 31, 30, 31, 30, 31][month - 1]
  }

  /** A time that the four-digit-year layouts can denote. */
  predicate ValidMoment(m: Moment) {
    && m.year <= 9999
    && 1 <= m.month <= 12
    && 1 <= m.day <= DaysIn(m.month, m.year)
    && m.hour < 24 && m.minute < 60 && m.second < 60
  }

  const ShortDayNames: seq<string> := ["Sun", "Mon", "Tue", "Wed", "Thu", "Fri", "Sat"]
  const ShortMonthNames: seq<string> :=
    ["Jan", "Feb", "Mar", "Apr", "May", "Jun", "Jul", "Aug", "Sep", "Oct", "Nov", "Dec"]

  // ---------------------------------------------------------------------
  // The pieces of time.Parse that the layout uses
  // ---------------------------------------------------------------------

  predicate IsAsciiLetter(c: char) { 'a' <= c <= 'z' || 'A' <= c <= 'Z' }

  /**
   * The time package's `match` on one byte: equal, or two ASCII letters
   * `'a' - 'A'` (32) apart, which is the same letter in the other case.
   */
  predicate FoldEq(c1: char, c2: char) {
    c1 == c2 || (IsAsciiLetter(c1) && IsAsciiLetter(c2) && (c1 as int - c2 as int == 32 || c2 as int - c1 as int == 32))
  }

  /** The time package's `match`: equal up to ASCII letter case. */
  predicate FoldMatch(s1: string, s2: string)
    requires |s1| == |s2|
  {
    |s1| == 0 || (FoldEq(s1[0], s2[0]) && FoldMatch(s1[1..], s2[1..]))
  }

  /**
   * The time package's `lookup` from table entry `i` on: the first entry
   * that `val` starts with, up to case, and what follows it in `val`.
   */
  function LookupFrom(tab: seq<string>, i: nat, val: string): (r: Option<(nat, string)>)
    ensures r.Some? ==> i <= r.value.0 < |tab| && |tab[r.value.0]| <= |val|
    ensures r.Some? ==> r.value.1 == val[|tab[r.value.0]|..]
    decreases |tab| - i
  {
    if i >= |tab| then None
    else if |val| >= |tab[i]| && FoldMatch(val[..|tab[i]|], tab[i]) then Some((i, val[|tab[i]|..]))
    else LookupFrom(tab, i + 1, val)
  }

  function Lookup(tab: seq<string>, val: string): Option<(nat, string)> {
    LookupFrom(tab, 0, val)
  }

  /**
   * The time package's `getnum`: one or two leading digits, two when
   * `fixed`, and the rest of the text.
   */
  function GetNum(s: string, fixed: bool): (r: Option<(nat, string)>)
    ensures r.Some? ==> r.value.0 < 100
  {
    if |s| == 0 || !IsDigit(s[0]) then None
    else if |s| == 1 || !IsDigit(s[1]) then
      if fixed then None else Some((DigitValue(s[0]), s[1..]))
    else Some((DigitValue(s[0]) * 10 + DigitValue(s[1]), s[2..]))
  }

  /** The "2006" element: exactly four digits. */
  function LongYear(s: string): (r: Option<(nat, string)>)
    ensures r.Some? ==> r.value.0 <= 9999
  {
    if |s| < 4 || !IsDigit(s[0]) || !AllDigits(s[..4]) then None
    else
      DecimalValueBound(s[..4]);
      assert Pow10(4) == 10000;
      Some((DecimalValue(s[..4]), s[4..]))
  }

  /** The time package's `cutspace`: drop leading blanks. */
  function CutSpace(s: string): (r: string)
    ensures |r| <= |s|
  {
    if |s| > 0 && s[0] == ' ' then CutSpace(s[1..]) else s
  }

  /**
   * The time package's `skip`: match the literal `prefix` of the layout;
   * a blank in the layout matches a run of blanks in the value.
   */
  function Skip(value: string, prefix: string): Option<string>
    decreases |prefix|
  {
    if prefix == [] then Some(value)
    else if prefix[0] == ' ' then
      if |value| > 0 && value[0] != ' ' then None
      else Skip(CutSpace(value), CutSpace(prefix))
    else if |value| == 0 || value[0] != prefix[0] then None
    else Skip(value[1..], prefix[1..])
  }

  function LeadingDigits(s: string): (n: nat)
    ensures n <= |s|
  {
    if |s| > 0 && IsDigit(s[0]) then 1 + LeadingDigits(s[1..]) else 0
  }

  /**
   * A fractional second after the seconds, which `time.Parse` accepts
   * although the layout has none: '.' or ',' and a run of digits.
   */
  function SkipFraction(s: string): string {
    if |s| >= 2 && (s[0] == '.' || s[0] == ',') && IsDigit(s[1]) then s[2 + LeadingDigits(s[2..])..]
    else s
  }

  /**
   * The elements "Mon, 02" of the layout: a day name (checked, then
   * ignored) and a two-digit day of the month, and the text after them.
   */
  function ParseDayPart(value: string): (r: Option<(nat, string)>)
    ensures r.Some? ==> r.value.0 < 100
  {
    match Lookup(ShortDayNames, value)
    case None => None
    case Some((_, v1)) =>
      match Skip(v1, ", ")
      case None => None
      case Some(v2) => GetNum(v2, true)
  }

  /** The elements " Jan" of the layout: a month name, as its number, and the text after it. */
  function ParseMonthName(value: string): (r: Option<(nat, string)>)
    ensures r.Some? ==> 1 <= r.value.0 <= 12
  {
    match Skip(value, " ")
    case None => None
    case Some(v1) =>
      match Lookup(ShortMonthNames, v1)
      case None => None
      case Some((monthIndex, v2)) => Some((monthIndex + 1, v2))
  }

  /** The elements " 2006" of the layout: a four-digit year, and the text after it. */
  function ParseYear(value: string): (r: Option<(nat, string)>)
    ensures r.Some? ==> r.value.0 <= 9999
  {
    match Skip(value, " ")
    case None => None
    case Some(v3) => LongYear(v3)
  }

  /**
   * The elements " Jan 2006" of the layout: a month name and a four-digit
   * year, and the text after them.
   */
  function ParseMonthYearPart(value: string): (r: Option<(nat, nat, string)>)
    ensures r.Some? ==> 1 <= r.value.0 <= 12 && r.value.1 <= 9999
  {
    match ParseMonthName(value)
    case None => None
    case Some((month, v2)) =>
      match ParseYear(v2)
      case None => None
      case Some((year, v4)) => Some((month, year, v4))
  }

  /**
   * The elements " 15:04:05" of the layout: an hour of one or two digits,
   * two-digit minute and second, each in range, and the text after them.
   */
  function ParseClockPart(value: string): (r: Option<(nat, nat, nat, string)>)
    ensures r.Some? ==> r.value.0 < 24 && r.value.1 < 60 && r.value.2 < 60
  {
    match Skip(value, " ")
    case None => None
    case Some(v1) =>
      match GetNum(v1, false)
      case None => None
      case Some((hour, v2)) =>
        if hour >= 24 then None else
        match ParseMinuteSecond(v2)
        case None => None
        case Some((minute, second, v3)) => Some((hour, minute, second, v3))
  }

  /** The elements ":04:05" of the layout: two-digit minute and second, each below 60. */
  function ParseMinuteSecond(value: string): (r: Option<(nat, nat, string)>)
    ensures r.Some? ==> r.value.0 < 60 && r.value.1 < 60
  {
    match Skip(value, ":")
    case None => None
    case Some(v1) =>
      match GetNum(v1, true)
      case None => None
      case Some((minute, v2)) =>
        if minute >= 60 then None else
        match Skip(v2, ":")
        case None => None
        case Some(v3) =>
          match GetNum(v3, true)
          case None => None
          case Some((second, v4)) =>
            if second >= 60 then None else Some((minute, second, v4))
  }

  /**
   * `time.Parse("Mon, 02 Jan 2006 15:04:05 +0000", value)`: None where Go
   * returns an error. "+0000" is literal text in this layout, not a zone
   * offset, so the time is in UTC; the day is checked against the month
   * once all fields are read.
   */
  function ParseLayout(value: string): (r: Option<Moment>)
    ensures r.Some? ==> ValidMoment(r.value)
  {
    match ParseDayPart(value)
    case None => None
    case Some((day, v1)) =>
      match ParseMonthYearPart(v1)
      case None => None
      case Some((month, year, v2)) =>
        match ParseClockPart(v2)
        case None => None
        case Some((hour, minute, second, v3)) =>
          match Skip(SkipFraction(v3), " +0000")
          case None => None
          case Some(v4) =>
            if v4 != [] || day < 1 || day > DaysIn(month, year) then None
            else Some(Moment(year, month, day, hour, minute, second))
  }

  // ---------------------------------------------------------------------
  // Time.Format for the same layout and for "20060102"
  // ---------------------------------------------------------------------

  function FormatDayPart(m: Moment, weekday: nat): string
    requires weekday < 7
  {
    ShortDayNames[weekday] + (", " + ZeroPad(m.day, 2))
  }

  function FormatMonthYearPart(m: Moment): string
    requires 1 <= m.month <= 12
  {
    " " + (ShortMonthNames[m.month - 1] + (" " + ZeroPad(m.year, 4)))
  }

  function FormatClockPart(m: Moment): string {
    " " + (ZeroPad(m.hour, 2) + (":" + (ZeroPad(m.minute, 2) + (":" + ZeroPad(m.second, 2)))))
  }

  /**
   * `t.Format("Mon, 02 Jan 2006 15:04:05 +0000")`, with the weekday given:
   * `time.Parse` does not use it.
   */
  function FormatLayout(m: Moment, weekday: nat): string
    requires weekday < 7 && 1 <= m.month <= 12
  {
    FormatDayPart(m, weekday) + (FormatMonthYearPart(m) + (FormatClockPart(m) + " +0000"))
  }

  /** `t.Format("20060102")`. */
  function FormatDate8(m: Moment): (r: string)
    ensures AllDigits(r) && |r| >= 8
    ensures m.year < 10000 && m.month < 100 && m.day < 100
            ==> |r| == 8 && DecimalValue(r[..4]) == m.year && DecimalValue(r[4..6]) == m.month && DecimalValue(r[6..]) == m.day
  {
    var y, mo, d := ZeroPad(m.year, 4), ZeroPad(m.month, 2), ZeroPad(m.day, 2);
    var r := y + mo + d;
    if m.year < 10000 && m.month < 100 && m.day < 100 then
      assert Pow10(4) == 10000 && Pow10(2) == 100;
      ZeroPadWidth(m.year, 4);
      ZeroPadWidth(m.month, 2);
      ZeroPadWidth(m.day, 2);
      assert r[..4] == y && r[4..6] == mo && r[6..] == d;
      r
    else r
  }

  // ---------------------------------------------------------------------
  // Parsing what Format wrote gives the time back
  // ---------------------------------------------------------------------

  /** Each name of a table has `n` characters, from entry `i` on. */
  predicate NamesOfLength(tab: seq<string>, i: nat, n: nat)
    decreases |tab| - i
  {
    i >= |tab| || (|tab[i]| == n && NamesOfLength(tab, i + 1, n))
  }

  /** The first table entry from `i` on that equals `key` up to case, or -1. */
  function FindName(tab: seq<string>, i: nat, key: string): int
    decreases |tab| - i
  {
    if i >= |tab| then -1
    else if |key| == |tab[i]| && FoldMatch(key, tab[i]) then i
    else FindName(tab, i + 1, key)
  }

  /** In a table of names as long as `key`, `lookup` finds `key` where `FindName` does, whatever follows it. */
  lemma {:induction false} LookupExtend(tab: seq<string>, i: nat, key: string, rest: string)
    requires NamesOfLength(tab, i, |key|) && FindName(tab, i, key) >= 0
    ensures LookupFrom(tab, i, key + rest) == Some((FindName(tab, i, key) as nat, rest))
    decreases |tab| - i
  {
    var v := key + rest;
    assert v[..|key|] == key && v[|key|..] == rest;
    if !FoldMatch(key, tab[i]) {
      LookupExtend(tab, i + 1, key, rest);
    }
  }

  /** Every string matches itself. */
  lemma {:induction false} FoldMatchSelf(s: string)
    ensures FoldMatch(s, s)
    decreases |s|
  {
    if |s| > 0 {
      FoldMatchSelf(s[1..]);
    }
  }

  /** A three-letter match is a match letter by letter. */
  lemma FoldMatchThree(s1: string, s2: string)
    requires |s1| == 3 && |s2| == 3 && FoldMatch(s1, s2)
    ensures FoldEq(s1[0], s2[0]) && FoldEq(s1[1], s2[1]) && FoldEq(s1[2], s2[2])
  {
    assert FoldMatch(s1[1..], s2[1..]);
    assert FoldMatch(s1[1..][1..], s2[1..][1..]);
    assert s1[1..][1..][0] == s1[2] && s2[1..][1..][0] == s2[2];
  }

  /** No entry of the table matches an earlier one of the same length, up to case. */
  ghost predicate NamesApart(tab: seq<string>) {
    forall j, k :: 0 <= j < k < |tab| && |tab[j]| == |tab[k]| ==> !FoldMatch(tab[k], tab[j])
  }

  /** In a table whose names are apart, the scan from `i` finds each later entry at its own index. */
  lemma {:induction false} FindNameAt(tab: seq<string>, i: nat, k: nat)
    requires i <= k < |tab| && NamesApart(tab)
    ensures FindName(tab, i, tab[k]) == k
    decreases k - i
  {
    if i < k {
      FindNameAt(tab, i + 1, k);
    } else {
      FoldMatchSelf(tab[k]);
    }
  }

  lemma DayNamesApart()
    ensures NamesApart(ShortDayNames)
  {
    forall j, k | 0 <= j < k < |ShortDayNames| && |ShortDayNames[j]| == |ShortDayNames[k]|
      ensures !FoldMatch(ShortDayNames[k], ShortDayNames[j])
    {
      if FoldMatch(ShortDayNames[k], ShortDayNames[j]) {
        FoldMatchThree(ShortDayNames[k], ShortDayNames[j]);
      }
    }
  }

  lemma MonthNamesApart()
    ensures NamesApart(ShortMonthNames)
  {
    forall j, k | 0 <= j < k < |ShortMonthNames| && |ShortMonthNames[j]| == |ShortMonthNames[k]|
      ensures !FoldMatch(ShortMonthNames[k], ShortMonthNames[j])
    {
      if FoldMatch(ShortMonthNames[k], ShortMonthNames[j]) {
        FoldMatchThree(ShortMonthNames[k], ShortMonthNames[j]);
      }
    }
  }

  /** A day name, whatever follows it, is found as itself. */
  lemma DayLookup(k: nat, rest: string)
    requires k < 7
    ensures Lookup(ShortDayNames, ShortDayNames[k] + rest) == Some((k, rest))
  {
    assert NamesOfLength(ShortDayNames, 0, 3);
    assert |ShortDayNames[k]| == 3;
    DayNamesApart();
    FindNameAt(ShortDayNames, 0, k);
    LookupExtend(ShortDayNames, 0, ShortDayNames[k], rest);
  }

  /** A month name, whatever follows it, is found as itself. */
  lemma MonthLookup(k: nat, rest: string)
    requires k < 12
    ensures |ShortMonthNames[k]| == 3 && ShortMonthNames[k][0] != ' '
    ensures Lookup(ShortMonthNames, ShortMonthNames[k] + rest) == Some((k, rest))
  {
    assert NamesOfLength(ShortMonthNames, 0, 3);
    assert |ShortMonthNames[k]| == 3;
    MonthNamesApart();
    FindNameAt(ShortMonthNames, 0, k);
    LookupExtend(ShortMonthNames, 0, ShortMonthNames[k], rest);
  }

  /** Literal text without blanks matches itself. */
  lemma {:induction false} SkipPlain(lit: string, rest: string, tail: string)
    requires ' ' !in lit
    ensures Skip(lit + rest, lit + tail) == Skip(rest, tail)
    decreases |lit|
  {
    if lit != [] {
      assert (lit + rest)[1..] == lit[1..] + rest;
      assert (lit + tail)[1..] == lit[1..] + tail;
      assert lit[0] in lit;
      SkipPlain(lit[1..], rest, tail);
    } else {
      assert lit + rest == rest && lit + tail == tail;
    }
  }

  /** One blank of the layout matches one blank of the value that is not followed by another. */
  lemma SkipBlank(rest: string, tail: string)
    requires rest == [] || rest[0] != ' '
    requires tail == [] || tail[0] != ' '
    ensures Skip(" " + rest, " " + tail) == Skip(rest, tail)
  {
    assert (" " + rest)[1..] == rest && (" " + tail)[1..] == tail;
    assert CutSpace(" " + rest) == CutSpace(rest) == rest;
    assert CutSpace(" " + tail) == CutSpace(tail) == tail;
  }

  /** A two-digit field is read from two digits that no digit follows. */
  lemma GetNumPadded(n: nat, rest: string, fixed: bool)
    requires n < 100 && (rest == [] || !IsDigit(rest[0]))
    ensures GetNum(ZeroPad(n, 2) + rest, fixed) == Some((n, rest))
  {
    assert Pow10(2) == 100;
    ZeroPadWidth(n, 2);
    var p := ZeroPad(n, 2);
    var s := p + rest;
    assert s[0] == p[0] && s[1] == p[1] && s[2..] == rest;
    assert p[..1][..0] == [] && p[..|p| - 1] == p[..1];
    assert DecimalValue(p) == DecimalValue(p[..1]) * 10 + DigitValue(p[1]);
  }

  lemma LongYearPadded(n: nat, rest: string)
    requires n <= 9999
    ensures LongYear(ZeroPad(n, 4) + rest) == Some((n, rest))
  {
    assert Pow10(4) == 10000;
    ZeroPadWidth(n, 4);
    var p := ZeroPad(n, 4);
    var s := p + rest;
    assert s[..4] == p && s[4..] == rest;
  }

  lemma ParseFormatDayPart(m: Moment, weekday: nat, rest: string)
    requires m.day < 100 && weekday < 7 && (rest == [] || !IsDigit(rest[0]))
    ensures ParseDayPart(FormatDayPart(m, weekday) + rest) == Some((m.day, rest))
  {
    var t2 := ZeroPad(m.day, 2) + rest;
    var t1 := ", " + t2;
    assert FormatDayPart(m, weekday) + rest == ShortDayNames[weekday] + t1;
    assert Pow10(2) == 100;
    ZeroPadWidth(m.day, 2);
    DayLookup(weekday, t1);
    assert t1 == "," + (" " + t2) && ", " == "," + " ";
    SkipPlain(",", " " + t2, " ");
    assert " " == " " + [];
    SkipBlank(t2, []);
    GetNumPadded(m.day, rest, true);
  }

  lemma ParseFormatMonthName(month: nat, rest: string)
    requires 1 <= month <= 12
    ensures ParseMonthName(" " + (ShortMonthNames[month - 1] + rest)) == Some((month, rest))
  {
    var t1 := ShortMonthNames[month - 1] + rest;
    MonthLookup(month - 1, rest);
    assert " " == " " + [];
    SkipBlank(t1, []);
    assert Skip(" " + t1, " ") == Some(t1);
  }

  lemma ParseFormatYear(year: nat, rest: string)
    requires year <= 9999
    ensures ParseYear(" " + (ZeroPad(year, 4) + rest)) == Some((year, rest))
  {
    var t3 := ZeroPad(year, 4) + rest;
    assert Pow10(4) == 10000;
    ZeroPadWidth(year, 4);
    assert " " == " " + [];
    SkipBlank(t3, []);
    assert Skip(" " + t3, " ") == Some(t3);
    LongYearPadded(year, rest);
  }

  lemma ParseFormatMonthYearPart(m: Moment, rest: string)
    requires 1 <= m.month <= 12 && m.year <= 9999
    ensures ParseMonthYearPart(FormatMonthYearPart(m) + rest) == Some((m.month, m.year, rest))
  {
    var t2 := " " + (ZeroPad(m.year, 4) + rest);
    assert FormatMonthYearPart(m) + rest == " " + (ShortMonthNames[m.month - 1] + t2);
    ParseFormatMonthName(m.month, t2);
    ParseFormatYear(m.year, rest);
  }

  lemma ParseFormatMinuteSecond(m: Moment, rest: string)
    requires ValidMoment(m) && (rest == [] || !IsDigit(rest[0]))
    ensures ParseMinuteSecond(":" + (ZeroPad(m.minute, 2) + (":" + ZeroPad(m.second, 2))) + rest)
         == Some((m.minute, m.second, rest))
  {
    var t5 := ZeroPad(m.second, 2) + rest;
    var t4 := ":" + t5;
    var t3 := ZeroPad(m.minute, 2) + t4;
    assert ":" + (ZeroPad(m.minute, 2) + (":" + ZeroPad(m.second, 2))) + rest == ":" + t3;
    assert Pow10(2) == 100;
    ZeroPadWidth(m.minute, 2);
    assert ":" == ":" + [];
    SkipPlain(":", t3, []);
    GetNumPadded(m.minute, t4, true);
    SkipPlain(":", t5, []);
    GetNumPadded(m.second, rest, true);
  }

  lemma ParseFormatClockPart(m: Moment, rest: string)
    requires ValidMoment(m) && (rest == [] || !IsDigit(rest[0]))
    ensures ParseClockPart(FormatClockPart(m) + rest) == Some((m.hour, m.minute, m.second, rest))
  {
    var t2 := ":" + (ZeroPad(m.minute, 2) + (":" + ZeroPad(m.second, 2))) + rest;
    var t1 := ZeroPad(m.hour, 2) + t2;
    assert FormatClockPart(m) + rest == " " + t1;
    assert Pow10(2) == 100;
    ZeroPadWidth(m.hour, 2);
    assert " " == " " + [];
    SkipBlank(t1, []);
    GetNumPadded(m.hour, t2, false);
    ParseFormatMinuteSecond(m, rest);
  }

  /** The zone that ends the layout is read back in full. */
  lemma ParseFormatZone()
    ensures Skip(SkipFraction(" +0000"), " +0000") == Some([])
  {
    var zone := " +0000";
    assert SkipFraction(zone) == zone;
    assert zone == " " + "+0000" && "+0000" + [] == "+0000";
    SkipBlank("+0000", "+0000");
    SkipPlain("+0000", [], []);
  }

  /** `time.Parse` with the layout reads back what `Time.Format` wrote with it. */
  lemma ParseFormatLayout(m: Moment, weekday: nat)
    requires ValidMoment(m) && weekday < 7
    ensures ParseLayout(FormatLayout(m, weekday)) == Some(m)
  {
    var zone := " +0000";
    var clock := FormatClockPart(m) + zone;
    var monthYear := FormatMonthYearPart(m) + clock;
    assert monthYear[0] == ' ';
    assert FormatLayout(m, weekday) == FormatDayPart(m, weekday) + monthYear;
    ParseFormatDayPart(m, weekday, monthYear);
    ParseFormatMonthYearPart(m, clock);
    ParseFormatClockPart(m, zone);
    ParseFormatZone();
  }
}
