/**
 * Two string helpers of the TREM client: reading the place name out of an earthquake
 * location text, and printing a timestamp as `Y/MM/DD HH:mm:ss`.
 */
module Utils {
  import opened Js

  // ---------------------------------------------------------------------------
  // extractLocationFromString
  // ---------------------------------------------------------------------------

  /**
   * Without `(`: everything up to and including the first `方` ("direction"), as in
   * "花蓮縣政府南南東方 20.4 公里"; with `(`: the text from three characters after `(` up
   * to `)`, as in "... (位於花蓮縣近海)". All index arithmetic follows `indexOf` (-1 when
   * absent) and `substring` (clamping and argument swapping).
   */
  function ExtractLocationFromString(str: string): (r: string)
    ensures IsSubstringOf(r, str)
  {
    if IndexOf(str, '(') < 0 then Substring(str, 0, IndexOf(str, '方') + 1)
    else Substring(str, IndexOf(str, '(') + 3, IndexOf(str, ')'))
  }

  /** Without `(`, the result is the prefix ending at the first `方`. */
  lemma ExtractWithoutParen(str: string)
    requires '(' !in str && '方' in str
    ensures var r := ExtractLocationFromString(str);
            r <= str && |r| >= 1 && r[|r| - 1] == '方' && '方' !in r[..|r| - 1]
  {
  }

  /** With neither `(` nor `方`, `indexOf` gives -1, so `substring(0, 0)` is empty. */
  lemma ExtractWithNeither(str: string)
    requires '(' !in str && '方' !in str
    ensures ExtractLocationFromString(str) == ""
  {
  }

  /**
   * With `(` before `)` and at least three characters between them, the result is the
   * text from the third character after `(` up to, not including, the first `)`.
   */
  lemma ExtractBetweenParens(str: string)
    requires '(' in str && ')' in str && IndexOf(str, '(') + 3 <= IndexOf(str, ')')
    ensures ExtractLocationFromString(str) == str[IndexOf(str, '(') + 3..IndexOf(str, ')')]
  {
  }

  /**
   * With `(` but no `)`, `indexOf(")")` is -1 and clamps to 0, so the arguments swap:
   * the result is the prefix that ends three characters after `(` (or the whole text).
   */
  lemma ExtractUnclosedParen(str: string)
    requires '(' in str && ')' !in str
    ensures var end := if IndexOf(str, '(') + 3 <= |str| then IndexOf(str, '(') + 3 else |str|;
            ExtractLocationFromString(str) == str[..end]
  {
  }

  // ---------------------------------------------------------------------------
  // toFormattedTimeString
  // ---------------------------------------------------------------------------

  /**
   * The local-time components `Date` gives for a timestamp: `getFullYear`, the
   * 0-based `getMonth`, `getDate`, `getHours`, `getMinutes`, `getSeconds`.
   */
  datatype DateParts = DateParts(year: int, month: int, date: int, hours: int, minutes: int, seconds: int)

  /** The ranges `Date`'s getters keep to for a valid date. */
  predicate ValidParts(p: DateParts) {
    0 <= p.month <= 11 && 1 <= p.date <= 31 && 0 <= p.hours <= 23 && 0 <= p.minutes <= 59 && 0 <= p.seconds <= 59
  }

  /** A date field rendered in decimal and left-padded with `0` to two characters. */
  function Pad2(n: nat): string {
    PadStart(NatToString(n), 2, '0')
  }

  /** A timestamp's local date and time as `Y/MM/DD HH:mm:ss`, the month counted from 1. */
  function ToFormattedTimeString(p: DateParts): string
    requires ValidParts(p)
  {
    Join([Join([IntToString(p.year), Pad2(p.month + 1), Pad2(p.date)], "/"),
          " ",
          Join([Pad2(p.hours), Pad2(p.minutes), Pad2(p.seconds)], ":")], "")
  }

  /** Below 100, the padded text has exactly two digits and reads back as n. */
  lemma Pad2Digits(n: nat)
    requires n < 100
    ensures |Pad2(n)| == 2 && AllDigits(Pad2(n)) && DigitsValue(Pad2(n)) == n
  {
    DigitsValueOfNatToString(n);
    if n < 10 {
      var s := Pad2(n);
      assert s == "0" + NatToString(n);
      assert s[..1] == "0";
    } else {
      assert n / 10 < 10;
    }
  }

  /** Padding never truncates: from two digits on, the text is printed unchanged. */
  lemma Pad2KeepsLongText(n: nat)
    requires n >= 10
    ensures Pad2(n) == NatToString(n)
  {
    assert n / 10 >= 1;
  }

  /** The reading of a `Y/MM/DD HH:mm:ss` text back into components. */
  function ParseFormattedTime(s: string): Option<DateParts> {
    if |s| < 16 then None
    else
      var year, t := ToNumber(s[..|s| - 15]), s[|s| - 15..];
      var fields := [t[1..3], t[4..6], t[7..9], t[10..12], t[13..15]];
      if year.OtherValue? || t[0] != '/' || t[3] != '/' || t[6] != ' ' || t[9] != ':' || t[12] != ':'
         || !(forall i :: 0 <= i < 5 ==> AllDigits(fields[i]))
      then None
      else Some(DateParts(year.value, DigitsValue(fields[0]) - 1, DigitsValue(fields[1]),
                          DigitsValue(fields[2]), DigitsValue(fields[3]), DigitsValue(fields[4])))
  }

  /** Three parts joined with a separator, as the date and the time halves are. */
  lemma Join3(a: string, b: string, c: string, sep: string)
    ensures Join([a, b, c], sep) == a + sep + b + sep + c
  {
    assert [a, b, c][1..] == [b, c];
    assert [b, c][1..] == [c];
    assert Join([b, c], sep) == b + sep + c;
    assert Join([a, b, c], sep) == a + sep + (b + sep + c);
  }

  /** The two joins lay the fields out as `Y/MM/DD HH:mm:ss`. */
  lemma JoinLayout(y: string, mo: string, d: string, h: string, mi: string, se: string)
    ensures Join([Join([y, mo, d], "/"), " ", Join([h, mi, se], ":")], "") == y + TimeTail(mo, d, h, mi, se)
  {
    Join3(y, mo, d, "/");
    Join3(h, mi, se, ":");
    var date, time := Join([y, mo, d], "/"), Join([h, mi, se], ":");
    Join3(date, " ", time, "");
  }

  lemma FormattedTimeLayout(p: DateParts)
    requires ValidParts(p)
    ensures ToFormattedTimeString(p) == IntToString(p.year) + TimeTail(Pad2(p.month + 1), Pad2(p.date), Pad2(p.hours), Pad2(p.minutes), Pad2(p.seconds))
  {
    JoinLayout(IntToString(p.year), Pad2(p.month + 1), Pad2(p.date), Pad2(p.hours), Pad2(p.minutes), Pad2(p.seconds));
  }

  /** What follows the year: fifteen characters, fields at fixed places. */
  function TimeTail(mo: string, d: string, h: string, mi: string, se: string): string {
    "/" + mo + "/" + d + " " + h + ":" + mi + ":" + se
  }

  lemma TimeTailFields(mo: string, d: string, h: string, mi: string, se: string)
    requires |mo| == 2 && |d| == 2 && |h| == 2 && |mi| == 2 && |se| == 2
    ensures var t := TimeTail(mo, d, h, mi, se);
            |t| == 15 && t[0] == '/' && t[3] == '/' && t[6] == ' ' && t[9] == ':' && t[12] == ':'
            && t[1..3] == mo && t[4..6] == d && t[7..9] == h && t[10..12] == mi && t[13..15] == se
  {
    var t := TimeTail(mo, d, h, mi, se);
    assert t == ['/', mo[0], mo[1], '/', d[0], d[1], ' ', h[0], h[1], ':', mi[0], mi[1], ':', se[0], se[1]];
  }

  /** Reading back a text laid out with two-digit fields. */
  lemma ParseLayout(y: string, year: int, mo: string, d: string, h: string, mi: string, se: string)
    requires |y| >= 1 && ToNumber(y) == Integer(year)
    requires |mo| == 2 && |d| == 2 && |h| == 2 && |mi| == 2 && |se| == 2
    requires AllDigits(mo) && AllDigits(d) && AllDigits(h) && AllDigits(mi) && AllDigits(se)
    ensures ParseFormattedTime(y + TimeTail(mo, d, h, mi, se))
            == Some(DateParts(year, DigitsValue(mo) - 1, DigitsValue(d), DigitsValue(h), DigitsValue(mi), DigitsValue(se)))
  {
    var t := TimeTail(mo, d, h, mi, se);
    TimeTailFields(mo, d, h, mi, se);
    var s := y + t;
    assert s[..|s| - 15] == y;
    assert s[|s| - 15..] == t;
  }

  /**
   * The format is readable: every field sits at a fixed place after the year, the month
   * is printed 1-based, and reading the text back gives the components again.
   */
  lemma FormattedTimeRoundTrip(p: DateParts)
    requires ValidParts(p)
    ensures |ToFormattedTimeString(p)| == |IntToString(p.year)| + 15
    ensures ParseFormattedTime(ToFormattedTimeString(p)) == Some(p)
  {
    FormattedTimeLayout(p);
    Pad2Digits(p.month + 1);
    Pad2Digits(p.date);
    Pad2Digits(p.hours);
    Pad2Digits(p.minutes);
    Pad2Digits(p.seconds);
    ToNumberOfIntToString(p.year);
    ParseLayout(IntToString(p.year), p.year, Pad2(p.month + 1), Pad2(p.date), Pad2(p.hours), Pad2(p.minutes), Pad2(p.seconds));
  }
}
