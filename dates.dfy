/**
 * Date normalisation shared by the three extractors (`_normalize_date` in
 * `bill_agent.py`, `discharge_agent.py` and `insurance_agent.py`): the five
 * `strptime` formats tried in order, re-emitted with `strftime('%Y-%m-%d')`.
 */
module Dates {
  import opened Wrappers
  import opened Strings
  import opened DataModels

  datatype FieldOrder = DayMonthYear | MonthDayYear | YearMonthDay

  /** A numeric `strptime` format: three fields joined by one separator. */
  datatype DateFormat = DateFormat(order: FieldOrder, sep: char)

  /** `'%d/%m/%Y', '%m/%d/%Y', '%Y-%m-%d', '%d-%m-%Y', '%Y/%m/%d'`, in this order. */
  const Formats: seq<DateFormat> := [
    DateFormat(DayMonthYear, '/'),
    DateFormat(MonthDayYear, '/'),
    DateFormat(YearMonthDay, '-'),
    DateFormat(DayMonthYear, '-'),
    DateFormat(YearMonthDay, '/')
  ]

  /** What `strptime`'s `%d` accepts (`3[01]|[12]\d|0[1-9]|[1-9]| [1-9]`). */
  function DayField(s: string): (r: Option<int>)
    ensures r.Some? ==> 1 <= r.value <= 31
  {
    if |s| == 2 && s[0] == ' ' && '1' <= s[1] <= '9' then Some(DigitValue(s[1]))
    else if |s| == 1 && '1' <= s[0] <= '9' then Some(DigitValue(s[0]))
    else if |s| == 2 && AllDigits(s) && 1 <= DigitsValue(s) <= 31 then Some(DigitsValue(s))
    else None
  }

  /** What `%m` accepts (`1[0-2]|0[1-9]|[1-9]`). */
  function MonthField(s: string): (r: Option<int>)
    ensures r.Some? ==> 1 <= r.value <= 12
  {
    if |s| == 1 && '1' <= s[0] <= '9' then Some(DigitValue(s[0]))
    else if |s| == 2 && AllDigits(s) && 1 <= DigitsValue(s) <= 12 then Some(DigitsValue(s))
    else None
  }

  /** What `%Y` accepts (`\d\d\d\d`). */
  function YearField(s: string): (r: Option<int>)
    ensures r.Some? ==> |s| == 4 && AllDigits(s)
  {
    if |s| == 4 && AllDigits(s) then Some(DigitsValue(s)) else None
  }

  predicate IsLeapYear(y: int) {
    y % 4 == 0 && (y % 100 != 0 || y % 400 == 0)
  }

  function DaysInMonth(y: int, m: int): int
    requires 1 <= m <= 12
  {
    if m == 2 then (if IsLeapYear(y) then 29 else 28)
    else if m == 4 || m == 6 || m == 9 || m == 11 then 30
    else 31
  }

  /** What `datetime.date(y, m, d)` accepts. */
  predicate ValidDate(d: Date) {
    1 <= d.year <= 9999 && 1 <= d.month <= 12 && 1 <= d.day <= DaysInMonth(d.year, d.month)
  }

  /** `datetime.strptime(s, fmt)` for one of the numeric formats. */
  function ParseWith(fmt: DateFormat, s: string): (r: Option<Date>)
    ensures r.Some? ==> ValidDate(r.value)
  {
    var parts := SplitOn(s, fmt.sep);
    if |parts| != 3 then None
    else
      var (ds, ms, ys) :=
        match fmt.order
        case DayMonthYear => (parts[0], parts[1], parts[2])
        case MonthDayYear => (parts[1], parts[0], parts[2])
        case YearMonthDay => (parts[2], parts[1], parts[0]);
      match (DayField(ds), MonthField(ms), YearField(ys))
      case (Some(d), Some(m), Some(y)) =>
        if ValidDate(Date(y, m, d)) then Some(Date(y, m, d)) else None
      case _ => None
  }

  /** The date read by the first of `fmts` that parses `s`. */
  function FirstParse(fmts: seq<DateFormat>, s: string): (r: Option<Date>)
    ensures r.Some? ==> ValidDate(r.value)
  {
    if fmts == [] then None
    else
      match ParseWith(fmts[0], s)
      case Some(d) => Some(d)
      case None => FirstParse(fmts[1..], s)
  }

  /** `FirstParse` is the reading of the first format that parses, and `None`
      exactly when no format does. */
  lemma {:induction false} FirstParseFirst(fmts: seq<DateFormat>, s: string)
    ensures FirstParse(fmts, s).None? <==> forall i :: 0 <= i < |fmts| ==> ParseWith(fmts[i], s).None?
    ensures FirstParse(fmts, s).Some? ==>
      exists i :: 0 <= i < |fmts| && ParseWith(fmts[i], s) == FirstParse(fmts, s)
        && forall j :: 0 <= j < i ==> ParseWith(fmts[j], s).None?
  {
    if fmts != [] && ParseWith(fmts[0], s).None? {
      FirstParseFirst(fmts[1..], s);
      assert forall i :: 1 <= i < |fmts| ==> fmts[i] == fmts[1..][i - 1];
      if FirstParse(fmts, s).Some? {
        var k :| 0 <= k < |fmts[1..]| && ParseWith(fmts[1..][k], s) == FirstParse(fmts, s)
          && forall j :: 0 <= j < k ==> ParseWith(fmts[1..][j], s).None?;
        assert ParseWith(fmts[k + 1], s) == FirstParse(fmts, s);
      }
    }
  }

  /** `strftime('%Y-%m-%d')`. */
  function IsoText(d: Date): string
    requires ValidDate(d)
  {
    ZeroPad(d.year, 4) + "-" + ZeroPad(d.month, 2) + "-" + ZeroPad(d.day, 2)
  }

  /** The shape `YYYY-MM-DD`. */
  predicate IsIsoShape(s: string) {
    && |s| == 10 && s[4] == '-' && s[7] == '-'
    && AllDigits(s[..4]) && AllDigits(s[5..7]) && AllDigits(s[8..])
  }

  /** `_normalize_date`: the first of the five formats that parses gives the
      `YYYY-MM-DD` rendering; `None` when none does. */
  function NormalizeDate(s: string): Option<string>
  {
    match FirstParse(Formats, s)
    case Some(d) => Some(IsoText(d))
    case None => None
  }

  // ---------------------------------------------------------------------------
  // Properties

  lemma {:induction false} NatToStringLength(n: nat, w: nat)
    requires w >= 1 && n < Pow10(w)
    ensures |NatToString(n)| <= w
    decreases n
  {
    if n >= 10 {
      NatToStringLength(n / 10, w - 1);
    }
  }

  lemma {:induction false} ZerosValue(z: string)
    requires forall i :: 0 <= i < |z| ==> z[i] == '0'
    ensures AllDigits(z) && DigitsValue(z) == 0
    decreases |z|
  {
    if z != [] {
      ZerosValue(z[..|z| - 1]);
    }
  }

  lemma {:induction false} LeadingZerosValue(z: string, d: string)
    requires forall i :: 0 <= i < |z| ==> z[i] == '0'
    requires AllDigits(d)
    ensures AllDigits(z + d) && DigitsValue(z + d) == DigitsValue(d)
    decreases |d|
  {
    if d == [] {
      assert z + d == z;
      ZerosValue(z);
    } else {
      var d' := d[..|d| - 1];
      assert (z + d)[..|z + d| - 1] == z + d';
      LeadingZerosValue(z, d');
    }
  }

  /** Zero padding keeps the value and, below `10^w`, gives exactly `w` digits. */
  lemma ZeroPadValue(n: nat, w: nat)
    requires w >= 1 && n < Pow10(w)
    ensures |ZeroPad(n, w)| == w && DigitsValue(ZeroPad(n, w)) == n
  {
    NatToStringLength(n, w);
    NatToStringValue(n);
    var d := NatToString(n);
    if |d| < w {
      LeadingZerosValue(seq(w - |d|, _ => '0'), d);
    }
  }

  /** The parts of an ISO rendering: four, two and two digits. */
  lemma IsoParts(d: Date)
    requires ValidDate(d)
    ensures var t := IsoText(d);
      && IsIsoShape(t)
      && t[..4] == ZeroPad(d.year, 4) && t[5..7] == ZeroPad(d.month, 2) && t[8..] == ZeroPad(d.day, 2)
      && DigitsValue(t[..4]) == d.year && DigitsValue(t[5..7]) == d.month && DigitsValue(t[8..]) == d.day
  {
    ZeroPadValue(d.year, 4);
    ZeroPadValue(d.month, 2);
    ZeroPadValue(d.day, 2);
  }

  /** A normalised date has the shape `YYYY-MM-DD` and names a real calendar day. */
  lemma NormalizeDateShape(s: string)
    requires NormalizeDate(s).Some?
    ensures IsIsoShape(NormalizeDate(s).value)
    ensures exists d :: ValidDate(d) && NormalizeDate(s).value == IsoText(d)
  {
    var d := FirstParse(Formats, s).value;
    IsoParts(d);
  }

  /** Without a `/` or a `-` nothing parses: a `D Month YYYY` match such as
      `"12 March 2024"` never normalises to a date. */
  lemma NoSeparatorNoDate(s: string)
    requires '/' !in s && '-' !in s
    ensures NormalizeDate(s) == None
  {
    forall i | 0 <= i < |Formats| ensures ParseWith(Formats[i], s).None? {
      assert SplitOn(s, Formats[i].sep) == [s];
    }
    FirstParseFirst(Formats, s);
  }

  /** The day-first reading wins: whenever `%d/%m/%Y` parses, its date is the result. */
  lemma DayFirstWins(s: string)
    requires ParseWith(DateFormat(DayMonthYear, '/'), s).Some?
    ensures NormalizeDate(s) == Some(IsoText(ParseWith(DateFormat(DayMonthYear, '/'), s).value))
  {
  }

  /** The value of a two-digit and of a four-digit string. */
  lemma ShortDigitsValue(s: string)
    requires AllDigits(s)
    ensures |s| == 1 ==> DigitsValue(s) == DigitValue(s[0])
    ensures |s| == 2 ==> DigitsValue(s) == 10 * DigitValue(s[0]) + DigitValue(s[1])
    ensures |s| == 4 ==>
      DigitsValue(s) == 1000 * DigitValue(s[0]) + 100 * DigitValue(s[1]) + 10 * DigitValue(s[2]) + DigitValue(s[3])
  {
    if |s| == 4 {
      assert s[..3][..2] == s[..2] && s[..2][..1] == s[..1] && s[..1][..0] == [];
    } else if |s| == 2 {
      assert s[..1][..0] == [];
    } else if |s| == 1 {
      assert s[..0] == [];
    }
  }

  lemma IsoFields(d: Date)
    requires ValidDate(d)
    ensures YearField(ZeroPad(d.year, 4)) == Some(d.year)
    ensures MonthField(ZeroPad(d.month, 2)) == Some(d.month)
    ensures DayField(ZeroPad(d.day, 2)) == Some(d.day)
  {
    ZeroPadValue(d.year, 4);
    ZeroPadValue(d.month, 2);
    ZeroPadValue(d.day, 2);
  }

  lemma IsoNoSlash(d: Date)
    requires ValidDate(d)
    ensures '/' !in IsoText(d)
  {
    ZeroPadValue(d.year, 4);
    ZeroPadValue(d.month, 2);
    ZeroPadValue(d.day, 2);
    var y, m, dd := ZeroPad(d.year, 4), ZeroPad(d.month, 2), ZeroPad(d.day, 2);
    assert '/' !in y && '/' !in m && '/' !in dd;
  }

  lemma IsoSplit(d: Date)
    requires ValidDate(d)
    ensures SplitOn(IsoText(d), '-') == [ZeroPad(d.year, 4), ZeroPad(d.month, 2), ZeroPad(d.day, 2)]
  {
    var y, m, dd := ZeroPad(d.year, 4), ZeroPad(d.month, 2), ZeroPad(d.day, 2);
    assert '-' !in y && '-' !in m && '-' !in dd;
    assert [y, m, dd][1..] == [m, dd] && [m, dd][1..] == [dd];
    assert Join([m, dd], '-') == m + "-" + dd;
    assert Join([y, m, dd], '-') == y + "-" + Join([m, dd], '-');
    assert IsoText(d) == Join([y, m, dd], '-');
    SplitJoin([y, m, dd], '-');
  }

  /** `%Y-%m-%d`, the third format, reads an ISO rendering back, and the two
      formats before it do not apply. */
  lemma IsoReadsBack(d: Date)
    requires ValidDate(d)
    ensures FirstParse(Formats, IsoText(d)) == Some(d)
  {
    var t := IsoText(d);
    IsoNoSlash(d);
    assert SplitOn(t, '/') == [t];
    assert ParseWith(Formats[0], t).None?;
    assert ParseWith(Formats[1], t).None?;
    IsoSplit(d);
    IsoFields(d);
    assert ParseWith(Formats[2], t) == Some(d);
    assert Formats[1..][1..] == Formats[2..];
    assert FirstParse(Formats[2..], t) == Some(d);
  }

  /** Normalising a normalised date gives it back unchanged. */
  lemma NormalizeDateIdempotent(s: string)
    requires NormalizeDate(s).Some?
    ensures NormalizeDate(NormalizeDate(s).value) == NormalizeDate(s)
  {
    IsoReadsBack(FirstParse(Formats, s).value);
  }

  /** The three `/`- or `-`-separated fields of a literal date. */
  lemma SplitThree(a: string, b: string, c: string, sep: char)
    requires sep !in a && sep !in b && sep !in c
    ensures SplitOn(a + [sep] + b + [sep] + c, sep) == [a, b, c]
  {
    var parts := [a, b, c];
    var bc := b + [sep] + c;
    assert [b, c][1..] == [c];
    assert Join([b, c], sep) == bc;
    assert parts[1..] == [b, c];
    assert Join(parts, sep) == a + [sep] + bc;
    assert a + [sep] + bc == a + [sep] + b + [sep] + c;
    SplitJoin(parts, sep);
  }

  /** Without the separator there is one field, the whole text. */
  lemma SplitAbsent(s: string, sep: char)
    requires sep !in s
    ensures SplitOn(s, sep) == [s]
  {
  }

  /** A text split into three fields that each parse, as the format orders
      them, reads as that date when the day exists. */
  lemma ParseThreeFields(fmt: DateFormat, s: string, ds: string, ms: string, ys: string)
    requires SplitOn(s, fmt.sep) ==
      match fmt.order
      case DayMonthYear => [ds, ms, ys]
      case MonthDayYear => [ms, ds, ys]
      case YearMonthDay => [ys, ms, ds]
    requires DayField(ds).Some? && MonthField(ms).Some? && YearField(ys).Some?
    ensures var d := Date(YearField(ys).value, MonthField(ms).value, DayField(ds).value);
      ParseWith(fmt, s) == if ValidDate(d) then Some(d) else None
  {
  }
}
