/**
 * `parse_birthdata` (bot.py:45-71): find the first `D.M.YYYY` in free text,
 * optionally followed by `,` and a time, check the date on the calendar and
 * normalise it to `DD.MM.YYYY <time>`.
 *
 * The search is Python's `re.search` with the pattern
 *   (\d{1,2})\.(\d{1,2})\.(\d{4})(?:,\s*(\d{1,2}:\d{2}))?
 * modelled as its backtracking matcher behaves: positions are tried from
 * left to right and the first position where the pattern matches wins;
 * at that position each quantifier takes as much as it can and gives back
 * only what the rest of the pattern needs.
 */
module BirthData {
  import opened Wrappers
  import opened Digits
  import opened Calendar

  /** The time used when the text carries none. */
  const DefaultTime := "12:00"

  /** The characters `\s` matches in a Python `str` pattern (those for which `str.isspace()` holds). */
  predicate IsSpace(c: char) {
    var n := c as int;
    || 0x09 <= n <= 0x0D || 0x1C <= n <= 0x20 || n == 0x85 || n == 0xA0 || n == 0x1680
    || 0x2000 <= n <= 0x200A || n == 0x2028 || n == 0x2029 || n == 0x202F || n == 0x205F || n == 0x3000
  }

  predicate AllSpace(s: string) {
    forall k :: 0 <= k < |s| ==> IsSpace(s[k])
  }

  /** A whole string of the form `\d{1,2}:\d{2}`. */
  predicate IsTimeToken(s: string) {
    || (|s| == 4 && IsDigit(s[0]) && s[1] == ':' && IsDigit(s[2]) && IsDigit(s[3]))
    || (|s| == 5 && IsDigit(s[0]) && IsDigit(s[1]) && s[2] == ':' && IsDigit(s[3]) && IsDigit(s[4]))
  }

  /** Where the date part of the pattern matched and what its three groups captured. */
  datatype Match = Match(start: nat, day: string, month: string, year: string)

  /**
   * `d + "." + m + "." + y` stands in `t` at position `i`, with `d` and `m`
   * of one or two digits and `y` of four.
   */
  predicate DatePrefixAt(t: string, i: nat, d: string, m: string, y: string) {
    var j := i + |d| + 1;
    var k := j + |m| + 1;
    && 1 <= |d| <= 2 && AllDigits(d)
    && 1 <= |m| <= 2 && AllDigits(m)
    && |y| == 4 && AllDigits(y)
    && k + 4 <= |t|
    && t[i..j - 1] == d && t[j - 1] == '.'
    && t[j..k - 1] == m && t[k - 1] == '.'
    && t[k..k + 4] == y
  }

  /**
   * `\d{1,2}\.` at position `i`: the greedy quantifier takes two digits, and
   * gives one back when no dot follows them. Returns the digits.
   */
  function DigitsBeforeDot(t: string, i: nat): Option<string> {
    if i + 2 < |t| && IsDigit(t[i]) && IsDigit(t[i + 1]) && t[i + 2] == '.' then Some(t[i..i + 2])
    else if i + 1 < |t| && IsDigit(t[i]) && t[i + 1] == '.' then Some(t[i..i + 1])
    else None
  }

  /** What DigitsBeforeDot returns is one or two digits standing before a dot, and None means neither shape is there. */
  lemma DigitsBeforeDotSpec(t: string, i: nat)
    ensures var r := DigitsBeforeDot(t, i);
      && (r.Some? ==> && 1 <= |r.value| <= 2 && AllDigits(r.value)
                      && i + |r.value| < |t| && t[i..i + |r.value|] == r.value && t[i + |r.value|] == '.')
      && (r.None? ==> && !(i + 1 < |t| && IsDigit(t[i]) && t[i + 1] == '.')
                      && !(i + 2 < |t| && IsDigit(t[i]) && IsDigit(t[i + 1]) && t[i + 2] == '.'))
  {
  }

  /** `\s*` from position `k`: the first position at or after `k` that is not whitespace. */
  function SkipSpace(t: string, k: nat): (w: nat)
    requires k <= |t|
    ensures k <= w <= |t| && AllSpace(t[k..w])
    ensures w < |t| ==> !IsSpace(t[w])
    decreases |t| - k
  {
    if k < |t| && IsSpace(t[k]) then
      var w := SkipSpace(t, k + 1);
      assert t[k..w] == [t[k]] + t[k + 1..w];
      w
    else k
  }

  /** `\d{1,2}:\d{2}` at position `w`, two hour digits preferred. */
  function TimeAt(t: string, w: nat): Option<string> {
    if w + 5 <= |t| && IsTimeToken(t[w..w + 5]) then Some(t[w..w + 5])
    else if w + 4 <= |t| && IsTimeToken(t[w..w + 4]) then Some(t[w..w + 4])
    else None
  }

  /** What TimeAt returns is a time token standing at `w`, and None means no token of either length is there. */
  lemma TimeAtSpec(t: string, w: nat)
    ensures var r := TimeAt(t, w);
      && (r.Some? ==> IsTimeToken(r.value) && w + |r.value| <= |t| && t[w..w + |r.value|] == r.value)
      && (r.None? ==> && !(w + 4 <= |t| && IsTimeToken(t[w..w + 4]))
                      && !(w + 5 <= |t| && IsTimeToken(t[w..w + 5])))
  {
  }

  /** `t` holds, from position `k`, a comma, whitespace up to position `w`, and the time `tok`. */
  predicate TimeGroupAt(t: string, k: nat, w: nat, tok: string) {
    && k < |t| && t[k] == ',' && k + 1 <= w && w + |tok| <= |t|
    && AllSpace(t[k + 1..w]) && IsTimeToken(tok) && t[w..w + |tok|] == tok
  }

  /**
   * The optional group `(?:,\s*(\d{1,2}:\d{2}))?` at position `k`, right
   * after the year: a comma, any whitespace, then a time. Since a time
   * starts with a digit, `\s*` never has to give whitespace back.
   */
  function OptionalTime(t: string, k: nat): Option<string> {
    if k < |t| && t[k] == ',' then TimeAt(t, SkipSpace(t, k + 1)) else None
  }

  /** A captured time is a time token after the comma at `k` and the whitespace that follows it. */
  lemma OptionalTimeSound(t: string, k: nat)
    ensures var r := OptionalTime(t, k);
      r.Some? ==> k < |t| && TimeGroupAt(t, k, SkipSpace(t, k + 1), r.value)
  {
    if k < |t| && t[k] == ',' {
      TimeAtSpec(t, SkipSpace(t, k + 1));
    }
  }

  /** The time part bot.py:56-59 picks: the captured token, else the default. */
  function TimeOrDefault(time: Option<string>): string {
    if time.Some? then time.value else DefaultTime
  }

  /** Where the year of a match ends, that is where the optional time group starts. */
  function YearEnd(m: Match): nat {
    m.start + |m.day| + |m.month| + |m.year| + 2
  }

  /** The whole pattern tried at position `i` only. */
  function MatchAt(t: string, i: nat): Option<Match> {
    match DigitsBeforeDot(t, i)
    case None => None
    case Some(day) =>
      var j := i + |day| + 1;
      match DigitsBeforeDot(t, j)
      case None => None
      case Some(month) =>
        var k := j + |month| + 1;
        if k + 4 <= |t| && AllDigits(t[k..k + 4]) then
          var y := t[k..k + 4];
          Some(Match(i, day, month, y))
        else None
  }

  /** A match at `i` starts at `i` and spells a `D.M.YYYY` there. */
  lemma MatchAtSound(t: string, i: nat)
    ensures var r := MatchAt(t, i);
      r.Some? ==> r.value.start == i && DatePrefixAt(t, i, r.value.day, r.value.month, r.value.year)
  {
    match DigitsBeforeDot(t, i)
    case None =>
    case Some(day) =>
      var j := i + |day| + 1;
      match DigitsBeforeDot(t, j)
      case None =>
      case Some(month) =>
        var k := j + |month| + 1;
        if k + 4 <= |t| && AllDigits(t[k..k + 4]) {
          assert MatchAt(t, i) == Some(Match(i, day, month, t[k..k + 4]));
          DatePrefixFromSteps(t, i, day, month);
        } else {
          assert MatchAt(t, i) == None;
        }
  }

  /** The two `\d{1,2}\.` steps and four digits after them spell a `D.M.YYYY`. */
  lemma DatePrefixFromSteps(t: string, i: nat, day: string, month: string)
    requires DigitsBeforeDot(t, i) == Some(day) && DigitsBeforeDot(t, i + |day| + 1) == Some(month)
    requires i + |day| + |month| + 6 <= |t| && AllDigits(t[i + |day| + |month| + 2..i + |day| + |month| + 6])
    ensures DatePrefixAt(t, i, day, month, t[i + |day| + |month| + 2..i + |day| + |month| + 6])
  {
    DigitsBeforeDotSpec(t, i);
    DigitsBeforeDotSpec(t, i + |day| + 1);
  }

  /** `re.search` from position `i`: the leftmost position at or after `i` where the pattern matches. */
  function SearchFrom(t: string, i: nat): (r: Option<Match>)
    requires i <= |t|
    ensures r.Some? ==> i <= r.value.start <= |t| && MatchAt(t, r.value.start) == r
    decreases |t| - i
  {
    var m := MatchAt(t, i);
    if m.Some? then m
    else if i == |t| then None
    else SearchFrom(t, i + 1)
  }

  /** The search finds the leftmost position at or after `i` where the pattern matches, or reports that there is none. */
  lemma {:induction false} SearchFromLeftmost(t: string, i: nat)
    requires i <= |t|
    ensures var r := SearchFrom(t, i);
      && (r.Some? ==> && i <= r.value.start <= |t| && MatchAt(t, r.value.start) == r
                      && forall j :: i <= j < r.value.start ==> MatchAt(t, j).None?)
      && (r.None? ==> forall j :: i <= j <= |t| ==> MatchAt(t, j).None?)
    decreases |t| - i
  {
    var r := SearchFrom(t, i);
    if MatchAt(t, i).None? && i < |t| {
      SearchFromLeftmost(t, i + 1);
      assert r == SearchFrom(t, i + 1);
    }
  }

  function Search(t: string): Option<Match> {
    SearchFrom(t, 0)
  }

  /** `str.zfill(2)` on a digit string: left-pad with zeros to width two. */
  function ZFill2(s: string): (r: string)
    requires AllDigits(s)
    ensures |r| == if |s| >= 2 then |s| else 2
    ensures AllDigits(r) && Value(r) == Value(s)
    ensures r[|r| - |s|..] == s
  {
    if |s| == 0 then "00"
    else if |s| == 1 then (LeadingZero(s); "0" + s)
    else s
  }

  /** The shape of every string `parse_birthdata` returns: `DD.MM.YYYY`, a space, a time token, and a date strptime accepts. */
  predicate IsNormalized(s: string) {
    && |s| >= 15 && s[2] == '.' && s[5] == '.' && s[10] == ' '
    && StrptimeAccepts(s[..2], s[3..5], s[6..10])
    && IsTimeToken(s[11..])
  }

  /** What `parse_birthdata` returns once `re.search` has answered `found`: strptime's check, then the output string. */
  function ParseFound(text: string, found: Option<Match>): Option<string> {
    match found
    case None => None
    case Some(m) =>
      if StrptimeAccepts(m.day, m.month, m.year) then
        Some(Format(m.day, m.month, m.year, TimeOrDefault(OptionalTime(text, YearEnd(m)))))
      else None
  }

  /** `parse_birthdata(text)`: the normalised birth data, or None. */
  function ParseBirthData(text: string): Option<string> {
    ParseFound(text, Search(text))
  }

  /** Whatever parse_birthdata returns is normalised. */
  lemma ParseNormalized(text: string)
    ensures ParseBirthData(text).Some? ==> IsNormalized(ParseBirthData(text).value)
  {
    if Search(text).Some? {
      var m := Search(text).value;
      if StrptimeAccepts(m.day, m.month, m.year) {
        MatchAtSound(text, m.start);
        OptionalTimeSound(text, YearEnd(m));
        FormatNormalized(m.day, m.month, m.year, TimeOrDefault(OptionalTime(text, YearEnd(m))));
      }
    }
  }

  /** The f-string of bot.py:67-71. */
  function Format(day: string, month: string, year: string, timePart: string): string
    requires AllDigits(day) && AllDigits(month)
  {
    ZFill2(day) + "." + ZFill2(month) + "." + year + " " + timePart
  }

  /** Zero-padding a one- or two-digit day that strptime accepts gives two digits it still accepts. */
  lemma ZFillDay(day: string)
    requires 1 <= |day| <= 2 && AllDigits(day) && DayField(day)
    ensures |ZFill2(day)| == 2 && DayField(ZFill2(day)) && Value(ZFill2(day)) == Value(day)
  {
    DayFieldRange(day);
    DayFieldRange(ZFill2(day));
  }

  lemma ZFillMonth(month: string)
    requires 1 <= |month| <= 2 && AllDigits(month) && MonthField(month)
    ensures |ZFill2(month)| == 2 && MonthField(ZFill2(month)) && Value(ZFill2(month)) == Value(month)
  {
    MonthFieldRange(month);
    MonthFieldRange(ZFill2(month));
  }

  /** Where each field of `DD.MM.YYYY <time>` sits. */
  lemma FieldsOfLayout(d2: string, m2: string, year: string, timePart: string)
    requires |d2| == 2 && |m2| == 2 && |year| == 4
    ensures var s := d2 + "." + m2 + "." + year + " " + timePart;
      && |s| == 11 + |timePart| && s[..2] == d2 && s[2] == '.' && s[3..5] == m2 && s[5] == '.'
      && s[6..10] == year && s[10] == ' ' && s[11..] == timePart
  {
  }

  /** A date strptime accepts, with a time token, formats to a normalised string. */
  lemma FormatNormalized(day: string, month: string, year: string, timePart: string)
    requires 1 <= |day| <= 2 && 1 <= |month| <= 2
    requires StrptimeAccepts(day, month, year) && IsTimeToken(timePart)
    ensures IsNormalized(Format(day, month, year, timePart))
  {
    ZFillDay(day);
    ZFillMonth(month);
    var d2, m2 := ZFill2(day), ZFill2(month);
    assert StrptimeAccepts(d2, m2, year);
    FieldsOfLayout(d2, m2, year, timePart);
  }
}
