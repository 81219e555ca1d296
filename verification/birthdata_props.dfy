/**
 * What `parse_birthdata` (bot.py:45-71) promises. ParseLeftmostDate,
 * TimeGroupCaptures, ParseNoDate and ParseIdempotent are stated over the
 * text it reads; SearchFindsFirst, ParseAccepted, ParseRejected and
 * ParseResultDate are stated through the matcher (MatchAt, Search), which
 * MatchAtIff and SearchFromLeftmost relate to the text.
 */
module BirthDataProps {
  import opened Wrappers
  import opened Digits
  import opened Calendar
  import opened BirthData

  /**
   * The time group captures `tok` exactly when the year is followed by a
   * comma, optional whitespace and `tok`.
   */
  lemma {:induction false} TimeGroupCaptures(t: string, k: nat, tok: string)
    ensures OptionalTime(t, k) == Some(tok) <==> exists w :: TimeGroupAt(t, k, w, tok)
  {
    OptionalTimeSound(t, k);
    if w: nat :| TimeGroupAt(t, k, w, tok) {
      var v := SkipSpace(t, k + 1);
      TimeAtSpec(t, v);
      TokenStartsWithDigit(t, w, tok);
      if w < v {
        SpaceIndex(t, k + 1, v, w);
        assert false;
      } else if w > v {
        assert false;
      }
      assert t[w..w + |tok|] == tok;
      if |tok| == 4 {
        assert t[w + 1] == tok[1];
        if w + 5 <= |t| {
          assert t[w..w + 5][1] == t[w + 1];
        }
      }
    }
  }

  lemma TokenStartsWithDigit(t: string, w: nat, tok: string)
    requires IsTimeToken(tok) && w + |tok| <= |t| && t[w..w + |tok|] == tok
    ensures IsDigit(t[w]) && !IsSpace(t[w])
  {
    assert t[w..w + |tok|][0] == t[w];
  }

  lemma SpaceIndex(t: string, a: nat, b: nat, j: nat)
    requires a <= j < b <= |t| && AllSpace(t[a..b])
    ensures IsSpace(t[j])
  {
    assert t[a..b][j - a] == t[j];
  }

  /** Wherever `D.M.YYYY` stands in the text, the pattern matches there and captures those fields. */
  lemma {:induction false} MatchAtComplete(t: string, i: nat, d: string, m: string, y: string)
    requires DatePrefixAt(t, i, d, m, y)
    ensures MatchAt(t, i) == Some(Match(i, d, m, y))
  {
    var j := i + |d| + 1;
    var k := j + |m| + 1;
    DigitsAt(t, i, d);
    DigitsAt(t, j, m);
    MatchAtFields(t, i, d, m);
  }

  /** MatchAt once both `\d{1,2}\.` steps are known to succeed. */
  lemma MatchAtFields(t: string, i: nat, d: string, m: string)
    requires DigitsBeforeDot(t, i) == Some(d) && DigitsBeforeDot(t, i + |d| + 1) == Some(m)
    requires i + |d| + |m| + 6 <= |t| && AllDigits(t[i + |d| + |m| + 2..i + |d| + |m| + 6])
    ensures MatchAt(t, i) == Some(Match(i, d, m, t[i + |d| + |m| + 2..i + |d| + |m| + 6]))
  {
  }

  /** One or two digits followed by a dot, at position `i`. */
  lemma DigitsAt(t: string, i: nat, d: string)
    requires 1 <= |d| <= 2 && AllDigits(d) && i + |d| < |t| && t[i..i + |d|] == d && t[i + |d|] == '.'
    ensures DigitsBeforeDot(t, i) == Some(d)
  {
    assert t[i] == d[0] by { assert t[i..i + |d|][0] == t[i]; }
    if |d| == 2 {
      assert t[i + 1] == d[1] by { assert t[i..i + |d|][1] == t[i + 1]; }
    }
  }

  /** The pattern matches at a position exactly when some `D.M.YYYY` stands there. */
  lemma MatchAtIff(t: string, i: nat)
    ensures MatchAt(t, i).Some? <==> exists d, m, y :: DatePrefixAt(t, i, d, m, y)
  {
    MatchAtSound(t, i);
    if d, m, y :| DatePrefixAt(t, i, d, m, y) {
      MatchAtComplete(t, i, d, m, y);
    }
  }

  /**
   * The result of `parse_birthdata`, described by the text alone: take the
   * leftmost `D.M.YYYY`; if strptime rejects it the answer is None (later
   * dates in the text are never tried), otherwise it is the zero-padded
   * date, a space and the time that follows as `,\s*` or else "12:00".
   */
  lemma ParseLeftmostDate(t: string, i: nat, d: string, m: string, y: string)
    requires DatePrefixAt(t, i, d, m, y)
    requires forall j, d', m', y' :: 0 <= j < i ==> !DatePrefixAt(t, j, d', m', y')
    ensures StrptimeAccepts(d, m, y) ==>
      ParseBirthData(t) == Some(Format(d, m, y, TimeOrDefault(OptionalTime(t, i + |d| + |m| + 6))))
    ensures !StrptimeAccepts(d, m, y) ==> ParseBirthData(t) == None
  {
    forall j | 0 <= j < i
      ensures MatchAt(t, j).None?
    {
      MatchAtSound(t, j);
    }
    if StrptimeAccepts(d, m, y) {
      var time := OptionalTime(t, i + |d| + |m| + 6);
      ParseAccepted(t, i, d, m, y, time, Format(d, m, y, TimeOrDefault(time)));
    } else {
      ParseRejected(t, i, d, m, y);
    }
  }

  /** The search stops at the first position where a `D.M.YYYY` stands, once no earlier position matches. */
  lemma SearchFindsFirst(t: string, i: nat, d: string, m: string, y: string)
    requires DatePrefixAt(t, i, d, m, y)
    requires forall j :: 0 <= j < i ==> MatchAt(t, j).None?
    ensures Search(t) == Some(Match(i, d, m, y))
  {
    MatchAtComplete(t, i, d, m, y);
    SearchFromLeftmost(t, 0);
    var r := SearchFrom(t, 0);
    assert r.Some?;
    assert r.value.start == i;
  }

  /** parse_birthdata once the search has found a date strptime rejects. */
  lemma ParseOfSearchRejected(t: string, mt: Match)
    requires Search(t) == Some(mt) && !StrptimeAccepts(mt.day, mt.month, mt.year)
    ensures ParseBirthData(t) == None
  {
  }

  /** The first match is a date strptime accepts: the output, with the captured time named. */
  lemma ParseAccepted(t: string, i: nat, d: string, m: string, y: string, time: Option<string>, out: string)
    requires DatePrefixAt(t, i, d, m, y)
    requires forall j :: 0 <= j < i ==> MatchAt(t, j).None?
    requires OptionalTime(t, i + |d| + |m| + 6) == time
    requires StrptimeAccepts(d, m, y) && Format(d, m, y, TimeOrDefault(time)) == out
    ensures ParseBirthData(t) == Some(out)
  {
    SearchFindsFirst(t, i, d, m, y);
    ParseIsFound(t, Some(Match(i, d, m, y)));
    TimeAtYearEnd(t, i, d, m, y, time);
    FoundAccepted(t, Match(i, d, m, y), time, out);
  }

  /** parse_birthdata is strptime's check on whatever the search answers. */
  lemma ParseIsFound(t: string, found: Option<Match>)
    requires Search(t) == found
    ensures ParseBirthData(t) == ParseFound(t, found)
  {
  }

  /** The time group of a date starts where its year ends. */
  lemma TimeAtYearEnd(t: string, i: nat, d: string, m: string, y: string, time: Option<string>)
    requires DatePrefixAt(t, i, d, m, y) && OptionalTime(t, i + |d| + |m| + 6) == time
    ensures OptionalTime(t, YearEnd(Match(i, d, m, y))) == time
  {
  }

  /** An accepted match, with the time group's capture after it named; no search in sight. */
  lemma FoundAccepted(t: string, mt: Match, time: Option<string>, out: string)
    requires OptionalTime(t, YearEnd(mt)) == time
    requires StrptimeAccepts(mt.day, mt.month, mt.year) && Format(mt.day, mt.month, mt.year, TimeOrDefault(time)) == out
    ensures ParseFound(t, Some(mt)) == Some(out)
  {
  }

  /** The first match is a date strptime rejects. */
  lemma ParseRejected(t: string, i: nat, d: string, m: string, y: string)
    requires DatePrefixAt(t, i, d, m, y)
    requires forall j :: 0 <= j < i ==> MatchAt(t, j).None?
    requires !StrptimeAccepts(d, m, y)
    ensures ParseBirthData(t) == None
  {
    SearchFindsFirst(t, i, d, m, y);
    ParseOfSearchRejected(t, Match(i, d, m, y));
  }

  /** Text after a date does not move it. */
  lemma DatePrefixExtends(t: string, u: string, i: nat, d: string, m: string, y: string)
    requires DatePrefixAt(t, i, d, m, y)
    ensures DatePrefixAt(t + u, i, d, m, y)
  {
    var j := i + |d| + 1;
    var k := j + |m| + 1;
    assert (t + u)[i..j - 1] == t[i..j - 1];
    assert (t + u)[j..k - 1] == t[j..k - 1];
    assert (t + u)[k..k + 4] == t[k..k + 4];
  }

  /** Text with no `D.M.YYYY` anywhere is rejected. */
  lemma {:induction false} ParseNoDate(t: string)
    requires forall j, d, m, y :: !DatePrefixAt(t, j, d, m, y)
    ensures ParseBirthData(t) == None
  {
    forall j | 0 <= j <= |t|
      ensures MatchAt(t, j).None?
    {
      MatchAtSound(t, j);
    }
    SearchFromLeftmost(t, 0);
  }

  /**
   * Every accepted result is `D.M.YYYY` found in the text, printed as
   * `DD.MM.YYYY <time>` with the same calendar date.
   */
  lemma ParseResultDate(t: string)
    requires ParseBirthData(t).Some?
    ensures var s := ParseBirthData(t).value; var mt := Search(t).value;
      && Search(t).Some? && DatePrefixAt(t, mt.start, mt.day, mt.month, mt.year)
      && s == Format(mt.day, mt.month, mt.year, TimeOrDefault(OptionalTime(t, YearEnd(mt))))
      && StrptimeAccepts(mt.day, mt.month, mt.year)
      && IsValidDate(Value(mt.year), Value(mt.month), Value(mt.day))
  {
    var mt := Search(t).value;
    MatchAtSound(t, mt.start);
  }

  /**
   * Re-parsing a normalised string gives back its date with the default
   * time: the output puts a space, not a comma, before the time, so a
   * stored time is never captured again.
   */
  lemma {:induction false} ReparseNormalized(s: string)
    requires IsNormalized(s)
    ensures ParseBirthData(s) == Some(s[..11] + DefaultTime)
  {
    PrefixOfNormalized(s);
    FormatOfNormalized(s);
    ReparseFromFields(s, s[..2], s[3..5], s[6..10]);
  }

  lemma ReparseFromFields(s: string, d: string, m: string, y: string)
    requires |s| >= 11 && |d| == 2 && |m| == 2 && DatePrefixAt(s, 0, d, m, y) && StrptimeAccepts(d, m, y)
    requires OptionalTime(s, 10) == None && Format(d, m, y, DefaultTime) == s[..11] + DefaultTime
    ensures ParseBirthData(s) == Some(s[..11] + DefaultTime)
  {
    ParseAccepted(s, 0, d, m, y, None, s[..11] + DefaultTime);
  }

  /** Printing the fields of a normalised string again, with the default time, gives its first eleven characters and "12:00". */
  lemma FormatOfNormalized(s: string)
    requires IsNormalized(s)
    ensures OptionalTime(s, 10) == None
    ensures Format(s[..2], s[3..5], s[6..10], DefaultTime) == s[..11] + DefaultTime
  {
    var d, m, y := s[..2], s[3..5], s[6..10];
    assert ZFill2(d) == d && ZFill2(m) == m;
    HeadOfNormalized(s);
  }

  lemma PrefixOfNormalized(s: string)
    requires IsNormalized(s)
    ensures DatePrefixAt(s, 0, s[..2], s[3..5], s[6..10])
  {
  }

  lemma HeadOfNormalized(s: string)
    requires |s| >= 11 && s[2] == '.' && s[5] == '.' && s[10] == ' '
    ensures s[..11] + DefaultTime == s[..2] + "." + s[3..5] + "." + s[6..10] + " " + DefaultTime
  {
  }

  /**
   * Idempotence: a result is its own parse exactly when its time is
   * "12:00", and parsing twice always reaches such a fixed point.
   */
  lemma {:induction false} ParseIdempotent(t: string)
    requires ParseBirthData(t).Some?
    ensures var s := ParseBirthData(t).value;
      && IsNormalized(s)
      && ParseBirthData(s) == Some(s[..11] + DefaultTime)
      && (ParseBirthData(s) == Some(s) <==> s[11..] == DefaultTime)
      && ParseBirthData(ParseBirthData(s).value) == ParseBirthData(s)
  {
    var s := ParseBirthData(t).value;
    ParseNormalized(t);
    ReparseNormalized(s);
    DefaultTimeSplice(s);
    var s2 := s[..11] + DefaultTime;
    ReparseNormalized(s2);
  }

  /** Replacing the time of a normalised string by "12:00" keeps it normalised, and changes it exactly when its time was another. */
  lemma DefaultTimeSplice(s: string)
    requires IsNormalized(s)
    ensures var s2 := s[..11] + DefaultTime;
      && IsNormalized(s2) && s2[..11] + DefaultTime == s2
      && (s2 == s <==> s[11..] == DefaultTime)
  {
    var s2 := s[..11] + DefaultTime;
    assert s2[..11] == s[..11] && s2[11..] == DefaultTime;
    assert s2[..2] == s[..2] && s2[3..5] == s[3..5] && s2[6..10] == s[6..10];
    if s[11..] == DefaultTime {
      assert s == s[..11] + s[11..];
    }
  }
}
