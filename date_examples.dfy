/** Worked cases of `_normalize_date` on literal dates, kept apart from the
    definitions so that the solver unfolds the string functions on these
    literals only where a case asks for it. */
module DateExamples {
  import opened Wrappers
  import opened Strings
  import opened DataModels
  import opened Dates

  // Worked cases. Each fact about a literal gets its own small lemma: a
  // literal argument lets the solver unfold the string functions without
  // bound, so the facts are combined only through the lemmas' contracts.

  /** Which of the example days exist (2024 is a leap year, but February
      still has no 30th). */
  lemma ExampleDays()
    ensures ValidDate(Date(2024, 4, 3)) && ValidDate(Date(2024, 5, 13)) && ValidDate(Date(2024, 1, 5))
    ensures !ValidDate(Date(2024, 2, 30))
  {
  }

  lemma SplitDayFirst()
    ensures SplitOn("03/04/2024", '/') == ["03", "04", "2024"]
  {
    assert "03/04/2024" == "03" + "/" + "04" + "/" + "2024";
    SplitThree("03", "04", "2024", '/');
  }

  lemma SplitMonthFirst()
    ensures SplitOn("05/13/2024", '/') == ["05", "13", "2024"]
  {
    assert "05/13/2024" == "05" + "/" + "13" + "/" + "2024";
    SplitThree("05", "13", "2024", '/');
  }

  lemma SplitImpossible()
    ensures SplitOn("30/02/2024", '/') == ["30", "02", "2024"]
  {
    assert "30/02/2024" == "30" + "/" + "02" + "/" + "2024";
    SplitThree("30", "02", "2024", '/');
  }

  lemma SplitIso()
    ensures SplitOn("2024-1-5", '-') == ["2024", "1", "5"]
  {
    assert "2024-1-5" == "2024" + "-" + "1" + "-" + "5";
    SplitThree("2024", "1", "5", '-');
  }

  lemma NoSlashIso()
    ensures SplitOn("2024-1-5", '/') == ["2024-1-5"]
  {
    assert '/' !in "2024-1-5";
    SplitAbsent("2024-1-5", '/');
  }

  lemma NoDashImpossible()
    ensures SplitOn("30/02/2024", '-') == ["30/02/2024"]
  {
    assert '-' !in "30/02/2024";
    SplitAbsent("30/02/2024", '-');
  }

  lemma FieldsDayFirst()
    ensures DayField("03") == Some(3) && MonthField("04") == Some(4) && YearField("2024") == Some(2024)
  {
    ShortDigitsValue("03");
    ShortDigitsValue("04");
    ShortDigitsValue("2024");
  }

  lemma FieldsMonthFirst()
    ensures MonthField("13") == None
  {
    ShortDigitsValue("13");
  }

  lemma FieldsMonthDay()
    ensures MonthField("05") == Some(5) && DayField("13") == Some(13) && YearField("2024") == Some(2024)
  {
    ShortDigitsValue("05");
    ShortDigitsValue("13");
    ShortDigitsValue("2024");
  }

  lemma FieldsImpossible()
    ensures DayField("30") == Some(30) && MonthField("02") == Some(2) && MonthField("30") == None
    ensures YearField("2024") == Some(2024) && YearField("30") == None
  {
    ShortDigitsValue("30");
    ShortDigitsValue("02");
    ShortDigitsValue("2024");
  }

  lemma FieldsIso()
    ensures YearField("2024") == Some(2024) && MonthField("1") == Some(1) && DayField("5") == Some(5)
  {
    ShortDigitsValue("2024");
    ShortDigitsValue("1");
    ShortDigitsValue("5");
  }

  lemma PadYear()
    ensures ZeroPad(2024, 4) == "2024"
  {
    assert NatToString(2024) == NatToString(202) + [DigitChar(4)];
    assert NatToString(202) == NatToString(20) + [DigitChar(2)];
    assert NatToString(20) == NatToString(2) + [DigitChar(0)];
  }

  /** `zfill(2)` of a one-digit and of a two-digit day or month. */
  lemma PadSmall(n: nat)
    requires 1 <= n <= 99
    ensures n < 10 ==> ZeroPad(n, 2) == ['0', DigitChar(n)]
    ensures n >= 10 ==> ZeroPad(n, 2) == [DigitChar(n / 10), DigitChar(n % 10)]
  {
    if n >= 10 {
      assert NatToString(n) == NatToString(n / 10) + [DigitChar(n % 10)];
    }
  }

  lemma IsoDayFirst()
    ensures IsoText(Date(2024, 4, 3)) == "2024-04-03"
  {
    PadYear();
    PadSmall(4);
    PadSmall(3);
  }

  lemma IsoMonthFirst()
    ensures IsoText(Date(2024, 5, 13)) == "2024-05-13"
  {
    PadYear();
    PadSmall(5);
    PadSmall(13);
  }

  lemma IsoYearFirst()
    ensures IsoText(Date(2024, 1, 5)) == "2024-01-05"
  {
    PadYear();
    PadSmall(1);
    PadSmall(5);
  }

  /** The five formats, in order. */
  lemma FormatsInOrder()
    ensures Formats[0] == DateFormat(DayMonthYear, '/') && Formats[1] == DateFormat(MonthDayYear, '/')
    ensures Formats[2] == DateFormat(YearMonthDay, '-') && Formats[3] == DateFormat(DayMonthYear, '-')
    ensures Formats[4] == DateFormat(YearMonthDay, '/')
  {
  }

  lemma ParseDayFirst()
    ensures ParseWith(DateFormat(DayMonthYear, '/'), "03/04/2024") == Some(Date(2024, 4, 3))
  {
    SplitDayFirst();
    FieldsDayFirst();
    ExampleDays();
  }

  lemma ParseMonthFirstDayFails()
    ensures ParseWith(DateFormat(DayMonthYear, '/'), "05/13/2024") == None
  {
    SplitMonthFirst();
    FieldsMonthFirst();
  }

  lemma ParseMonthFirst()
    ensures ParseWith(DateFormat(MonthDayYear, '/'), "05/13/2024") == Some(Date(2024, 5, 13))
  {
    SplitMonthFirst();
    FieldsMonthDay();
    ExampleDays();
    ParseThreeFields(DateFormat(MonthDayYear, '/'), "05/13/2024", "13", "05", "2024");
  }



  lemma ParseIsoSlash()
    ensures ParseWith(DateFormat(DayMonthYear, '/'), "2024-1-5") == None
    ensures ParseWith(DateFormat(MonthDayYear, '/'), "2024-1-5") == None
  {
    NoSlashIso();
  }

  lemma ParseIso()
    ensures ParseWith(DateFormat(YearMonthDay, '-'), "2024-1-5") == Some(Date(2024, 1, 5))
  {
    SplitIso();
    FieldsIso();
    ExampleDays();
  }

  lemma ParseImpossibleSlash()
    ensures ParseWith(DateFormat(DayMonthYear, '/'), "30/02/2024") == None
    ensures ParseWith(DateFormat(MonthDayYear, '/'), "30/02/2024") == None
    ensures ParseWith(DateFormat(YearMonthDay, '/'), "30/02/2024") == None
  {
    SplitImpossible();
    FieldsImpossible();
    ExampleDays();
  }

  lemma ParseImpossibleDash()
    ensures ParseWith(DateFormat(YearMonthDay, '-'), "30/02/2024") == None
    ensures ParseWith(DateFormat(DayMonthYear, '-'), "30/02/2024") == None
  {
    NoDashImpossible();
  }

  /** A day-first reading wins over the month-first one. */
  lemma NormalizeDayFirstExample()
    ensures NormalizeDate("03/04/2024") == Some("2024-04-03")
  {
    FormatsInOrder();
    ParseDayFirst();
    IsoDayFirst();
  }

  /** The month-first reading is used when the day-first one is impossible. */
  lemma NormalizeMonthFirstExample()
    ensures NormalizeDate("05/13/2024") == Some("2024-05-13")
  {
    FormatsInOrder();
    ParseMonthFirstDayFails();
    ParseMonthFirst();
    IsoMonthFirst();
  }

  /** A year-first date with one-digit fields is padded. */
  lemma NormalizeIsoExample()
    ensures NormalizeDate("2024-1-5") == Some("2024-01-05")
  {
    FormatsInOrder();
    ParseIsoSlash();
    ParseIso();
    IsoYearFirst();
    assert Formats[1..][1..] == Formats[2..];
  }

  /** An impossible calendar day (30 February) gives `None`. */
  lemma NormalizeImpossibleDayExample()
    ensures NormalizeDate("30/02/2024") == None
  {
    FormatsInOrder();
    ParseImpossibleSlash();
    ParseImpossibleDash();
    FirstParseFirst(Formats, "30/02/2024");
  }
}
