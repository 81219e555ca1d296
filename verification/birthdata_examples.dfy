/**
 * The behaviour of `parse_birthdata` (bot.py:45-71) on particular texts.
 * Each example first establishes, one fact per lemma, where the date stands,
 * what the optional time group captures and what strptime says, then
 * applies ParseAccepted or ParseRejected.
 */
module BirthDataExamples {
  import opened Wrappers
  import opened Digits
  import opened Calendar
  import opened BirthData
  import opened BirthDataProps

  lemma Prefix15031990()
    ensures DatePrefixAt("15.03.1990", 0, "15", "03", "1990")
  {
  }

  lemma Accepts15031990()
    ensures StrptimeAccepts("15", "03", "1990")
  {
  }

  lemma Format15031990()
    ensures Format("15", "03", "1990", "12:00") == "15.03.1990 12:00"
  {
  }

  /** A bare date gets the default time. */
  lemma BareDate()
    ensures ParseBirthData("15.03.1990") == Some("15.03.1990 12:00")
  {
    Prefix15031990();
    Accepts15031990();
    Format15031990();
    assert OptionalTime("15.03.1990", 10) == None;
    ParseAccepted("15.03.1990", 0, "15", "03", "1990", None, "15.03.1990 12:00");
  }

  lemma TimeWithoutCommaLayout()
    ensures var t := "15.03.1990 14:30, Москва";
      DatePrefixAt(t, 0, "15", "03", "1990") && OptionalTime(t, 10) == None
  {
    Prefix15031990();
    DatePrefixExtends("15.03.1990", " 14:30, Москва", 0, "15", "03", "1990");
    assert "15.03.1990 14:30, Москва" == "15.03.1990" + " 14:30, Москва";
  }

  /** A time after a space instead of a comma is not captured; the city is ignored. */
  lemma TimeWithoutComma()
    ensures ParseBirthData("15.03.1990 14:30, Москва") == Some("15.03.1990 12:00")
  {
    Accepts15031990();
    Format15031990();
    TimeWithoutCommaLayout();
    ParseAccepted("15.03.1990 14:30, Москва", 0, "15", "03", "1990", None, "15.03.1990 12:00");
  }

  lemma TimeAfterCommaPrefix()
    ensures DatePrefixAt("15.03.1990, 14:30", 0, "15", "03", "1990")
  {
    Prefix15031990();
    DatePrefixExtends("15.03.1990", ", 14:30", 0, "15", "03", "1990");
    assert "15.03.1990, 14:30" == "15.03.1990" + ", 14:30";
  }

  lemma TimeAfterCommaGroup()
    ensures TimeGroupAt("15.03.1990, 14:30", 10, 12, "14:30")
  {
    var t := "15.03.1990, 14:30";
    assert t[11..12] == " " && t[12..17] == "14:30";
  }

  lemma TimeAfterCommaFormat()
    ensures Format("15", "03", "1990", "14:30") == "15.03.1990 14:30"
  {
  }

  /** A time after a comma and whitespace is captured. */
  lemma TimeAfterComma()
    ensures ParseBirthData("15.03.1990, 14:30") == Some("15.03.1990 14:30")
  {
    Accepts15031990();
    TimeAfterCommaPrefix();
    TimeAfterCommaGroup();
    TimeAfterCommaFormat();
    TimeGroupCaptures("15.03.1990, 14:30", 10, "14:30");
    ParseAccepted("15.03.1990, 14:30", 0, "15", "03", "1990", Some("14:30"), "15.03.1990 14:30");
  }

  lemma TimeVerbatimPrefix()
    ensures DatePrefixAt("5.3.1990,7:99", 0, "5", "3", "1990")
  {
    var t := "5.3.1990,7:99";
    assert t[0..1] == [t[0]] == "5";
    assert t[2..3] == [t[2]] == "3";
    assert t[4..8] == [t[4], t[5], t[6], t[7]] == "1990";
  }

  lemma TimeVerbatimGroup()
    ensures TimeGroupAt("5.3.1990,7:99", 8, 9, "7:99")
  {
    var t := "5.3.1990,7:99";
    assert t[9..9] == [] && t[9..13] == "7:99";
  }

  lemma TimeVerbatimAccepts()
    ensures StrptimeAccepts("5", "3", "1990")
  {
  }

  lemma TimeVerbatimFormat()
    ensures Format("5", "3", "1990", "7:99") == "05.03.1990 7:99"
  {
  }

  /** Day and month are zero-padded; the time is copied as written, neither padded nor range-checked. */
  lemma TimeVerbatim()
    ensures ParseBirthData("5.3.1990,7:99") == Some("05.03.1990 7:99")
  {
    TimeVerbatimPrefix();
    TimeVerbatimGroup();
    TimeVerbatimAccepts();
    TimeVerbatimFormat();
    TimeGroupCaptures("5.3.1990,7:99", 8, "7:99");
    ParseAccepted("5.3.1990,7:99", 0, "5", "3", "1990", Some("7:99"), "05.03.1990 7:99");
  }

  lemma February31Prefix()
    ensures DatePrefixAt("31.02.2000", 0, "31", "02", "2000")
  {
  }

  lemma February31Refused()
    ensures !StrptimeAccepts("31", "02", "2000")
  {
  }

  /** February 31st is not a date. */
  lemma February31Rejected()
    ensures ParseBirthData("31.02.2000") == None
  {
    February31Prefix();
    February31Refused();
    ParseRejected("31.02.2000", 0, "31", "02", "2000");
  }

  lemma LeapDay2000Prefix()
    ensures DatePrefixAt("29.02.2000", 0, "29", "02", "2000") && OptionalTime("29.02.2000", 10) == None
  {
  }

  lemma LeapDay2000Accepts()
    ensures StrptimeAccepts("29", "02", "2000")
  {
  }

  lemma LeapDay2000Format()
    ensures Format("29", "02", "2000", "12:00") == "29.02.2000 12:00"
  {
  }

  lemma LeapDay1900Prefix()
    ensures DatePrefixAt("29.02.1900", 0, "29", "02", "1900")
  {
  }

  lemma LeapDay1900Refused()
    ensures !StrptimeAccepts("29", "02", "1900")
  {
  }

  /** February 29th exists in 2000 (divisible by 400) but not in 1900 (divisible by 100 only). */
  lemma LeapDays()
    ensures ParseBirthData("29.02.2000") == Some("29.02.2000 12:00")
    ensures ParseBirthData("29.02.1900") == None
  {
    LeapDay2000Prefix();
    LeapDay2000Accepts();
    LeapDay2000Format();
    ParseAccepted("29.02.2000", 0, "29", "02", "2000", None, "29.02.2000 12:00");
    LeapDay1900Prefix();
    LeapDay1900Refused();
    ParseRejected("29.02.1900", 0, "29", "02", "1900");
  }

  lemma MonthThirteen()
    ensures DatePrefixAt("15.13.1990", 0, "15", "13", "1990") && !StrptimeAccepts("15", "13", "1990")
  {
  }

  lemma DayZero()
    ensures DatePrefixAt("0.1.2000", 0, "0", "1", "2000") && !StrptimeAccepts("0", "1", "2000")
  {
  }

  lemma YearZero()
    ensures DatePrefixAt("01.01.0000", 0, "01", "01", "0000") && !StrptimeAccepts("01", "01", "0000")
  {
  }

  /** Month 13, day 0 and year 0 are rejected. */
  lemma OutOfRangeFields()
    ensures ParseBirthData("15.13.1990") == None
    ensures ParseBirthData("0.1.2000") == None
    ensures ParseBirthData("01.01.0000") == None
  {
    MonthThirteen();
    ParseRejected("15.13.1990", 0, "15", "13", "1990");
    DayZero();
    ParseRejected("0.1.2000", 0, "0", "1", "2000");
    YearZero();
    ParseRejected("01.01.0000", 0, "01", "01", "0000");
  }

  lemma DigitRunLayout()
    ensures var t := "115.03.1990";
      MatchAt(t, 0) == None && DatePrefixAt(t, 1, "15", "03", "1990") && OptionalTime(t, 11) == None
  {
    var t := "115.03.1990";
    assert DigitsBeforeDot(t, 0) == None;
    assert t[1..3] == "15" && t[4..6] == "03" && t[7..11] == "1990";
  }

  /** The day can be the tail of a longer run of digits. */
  lemma DayFromDigitRun()
    ensures ParseBirthData("115.03.1990") == Some("15.03.1990 12:00")
  {
    Accepts15031990();
    Format15031990();
    DigitRunLayout();
    ParseAccepted("115.03.1990", 1, "15", "03", "1990", None, "15.03.1990 12:00");
  }

  lemma FirstDateLayout()
    ensures DatePrefixAt("31.02.2000 15.03.1990", 0, "31", "02", "2000")
  {
    February31Prefix();
    DatePrefixExtends("31.02.2000", " 15.03.1990", 0, "31", "02", "2000");
    assert "31.02.2000 15.03.1990" == "31.02.2000" + " 15.03.1990";
  }

  /** Only the first date in the text is considered: an invalid one hides a valid one after it. */
  lemma FirstDateDecides()
    ensures ParseBirthData("31.02.2000 15.03.1990") == None
  {
    February31Refused();
    FirstDateLayout();
    ParseRejected("31.02.2000 15.03.1990", 0, "31", "02", "2000");
  }
}
