/**
 * `format_date` and the due-date text of the invoice header.
 *
 * `format_date` hands `date_string.replace('Z', '+00:00')` to
 * `datetime.fromisoformat` and prints the result with `%d/%m/%Y`; on any
 * failure it returns its input unchanged. The accepted grammar is the
 * `date-time` production of section 5.6 of RFC 3339 with the `time-offset`
 * made optional, as `fromisoformat` allows (a naive `datetime`), restricted as
 * section 5.7 says (months 01-12, the day within the month, February 29 only
 * in leap years), and further by what `datetime` can hold: the year is at
 * least 1 and seconds stop at 59.
 */
module DateFormat {
  import opened Wrappers
  import opened Formatting
  import opened Calendar

  /**
   * `time-offset`: "Z", a signed hour and minute, or none at all (`fromisoformat`
   * then gives a naive `datetime`).
   */
  datatype Offset = Zulu | NumOffset(negative: bool, hours: int, minutes: int) | NoOffset

  /** A parsed `date-time`; `fraction` holds the digits of `time-secfrac` without the dot. */
  datatype DateTime = DateTime(date: Date, hour: int, minute: int, second: int, fraction: string, offset: Offset)

  ghost predicate WellFormedOffset(o: Offset) {
    o.NumOffset? ==> 0 <= o.hours <= 23 && 0 <= o.minutes <= 59
  }

  /** The field ranges of sections 5.6 and 5.7 of RFC 3339, within `datetime`'s limits. */
  ghost predicate WellFormed(dt: DateTime) {
    && InPythonRange(dt.date)
    && 0 <= dt.hour <= 23 && 0 <= dt.minute <= 59 && 0 <= dt.second <= 59
    && AllDigits(dt.fraction)
    && WellFormedOffset(dt.offset)
  }

  /** `s.replace('Z', '+00:00')`: every upper-case Z, wherever it stands. */
  function ReplaceZ(s: string): string {
    if s == [] then [] else (if s[0] == 'Z' then "+00:00" else [s[0]]) + ReplaceZ(s[1..])
  }

  predicate DigitsAt(t: string, i: int, j: int)
    requires 0 <= i <= j <= |t|
  {
    AllDigits(t[i..j])
  }

  /** The length of the run of digits that `s` starts with. */
  function LeadingDigits(s: string): (n: nat)
    ensures n <= |s| && AllDigits(s[..n])
    ensures n < |s| ==> !IsDigit(s[n])
  {
    if s == [] || !IsDigit(s[0]) then 0
    else
      var n := 1 + LeadingDigits(s[1..]);
      assert s[..n] == [s[0]] + s[1..][..n - 1];
      n
  }

  function ParseOffset(o: string): (r: Option<Offset>)
    ensures r.Some? ==> WellFormedOffset(r.value)
  {
    if o == "" then Some(NoOffset)
    else if o == "Z" then Some(Zulu)
    else if |o| == 6 && (o[0] == '+' || o[0] == '-') && DigitsAt(o, 1, 3) && o[3] == ':' && DigitsAt(o, 4, 6)
            && ValueOf(o[1..3]) <= 23 && ValueOf(o[4..6]) <= 59 then
      Some(NumOffset(o[0] == '-', ValueOf(o[1..3]), ValueOf(o[4..6])))
    else None
  }

  /** What follows the seconds: an optional `time-secfrac`, then the offset. */
  function ParseTail(rest: string): (r: Option<(string, Offset)>)
    ensures r.Some? ==> AllDigits(r.value.0) && WellFormedOffset(r.value.1)
  {
    if |rest| > 0 && rest[0] == '.' then
      var n := LeadingDigits(rest[1..]);
      if n == 0 then None
      else match ParseOffset(rest[1 + n..])
        case None => None
        case Some(off) =>
          assert rest[1..1 + n] == rest[1..][..n];
          Some((rest[1..1 + n], off))
    else match ParseOffset(rest)
      case None => None
      case Some(off) => Some(("", off))
  }

  /**
   * The `date-time` production of section 5.6 of RFC 3339, the offset made
   * optional as `fromisoformat` allows; `None` for any string outside it.
   */
  function ParseDateTime(t: string): (r: Option<DateTime>)
    ensures r.Some? ==> WellFormed(r.value)
  {
    if |t| < 19 then None
    else if !(&& DigitsAt(t, 0, 4) && t[4] == '-' && DigitsAt(t, 5, 7) && t[7] == '-' && DigitsAt(t, 8, 10)
              && (t[10] == 'T' || t[10] == 't')
              && DigitsAt(t, 11, 13) && t[13] == ':' && DigitsAt(t, 14, 16) && t[16] == ':' && DigitsAt(t, 17, 19)) then
      None
    else
      var date := Date(ValueOf(t[0..4]), ValueOf(t[5..7]), ValueOf(t[8..10]));
      var hour, minute, second := ValueOf(t[11..13]), ValueOf(t[14..16]), ValueOf(t[17..19]);
      if !(InPythonRange(date) && hour <= 23 && minute <= 59 && second <= 59) then None
      else match ParseTail(t[19..])
        case None => None
        case Some((fraction, off)) => Some(DateTime(date, hour, minute, second, fraction, off))
  }

  /** Two digits, zero-padded, as `%d` and `%m` print. */
  function Pad2(n: int): (s: string)
    requires 0 <= n < 100
    ensures |s| == 2 && AllDigits(s) && ValueOf(s) == n
  {
    var s := [DigitChar(n / 10), DigitChar(n % 10)];
    ValueOf2(s);
    s
  }

  /** Four digits, zero-padded, as `%Y` prints a year. */
  function Pad4(n: int): (s: string)
    requires 0 <= n < 10000
    ensures |s| == 4 && AllDigits(s) && ValueOf(s) == n
  {
    var a, b, c, d := n / 1000, n / 100 % 10, n / 10 % 10, n % 10;
    ThousandsSplit(n);
    var s := [DigitChar(a), DigitChar(b), DigitChar(c), DigitChar(d)];
    ValueOf4(s);
    s
  }

  /** A number below 10000 is the sum of its four decimal digits times their place values. */
  lemma ThousandsSplit(n: int)
    requires 0 <= n < 10000
    ensures 0 <= n / 1000 <= 9
    ensures n == 1000 * (n / 1000) + 100 * (n / 100 % 10) + 10 * (n / 10 % 10) + n % 10
  {
    var tens, hundreds := n / 10, n / 100;
    assert n == 10 * tens + n % 10;
    assert tens / 10 == hundreds;
    assert tens == 10 * hundreds + tens % 10;
    assert hundreds / 10 == n / 1000;
    assert hundreds == 10 * (n / 1000) + hundreds % 10;
  }

  lemma ValueOf2(s: string)
    requires |s| == 2 && AllDigits(s)
    ensures ValueOf(s) == 10 * DigitValue(s[0]) + DigitValue(s[1])
  {
    var s1 := s[..1];
    assert s1[..0] == [] && s1[0] == s[0];
    assert ValueOf(s1) == DigitValue(s[0]);
  }

  lemma ValueOf4(s: string)
    requires |s| == 4 && AllDigits(s)
    ensures ValueOf(s) == 1000 * DigitValue(s[0]) + 100 * DigitValue(s[1]) + 10 * DigitValue(s[2]) + DigitValue(s[3])
  {
    var s3, s2 := s[..3], s[..2];
    assert s3[..2] == s2;
    ValueOf2(s2);
  }

  lemma Pad2OfValue(s: string)
    requires |s| == 2 && AllDigits(s)
    ensures ValueOf(s) < 100 && Pad2(ValueOf(s)) == s
  {
    ValueOf2(s);
  }

  lemma Pad4OfValue(s: string)
    requires |s| == 4 && AllDigits(s)
    ensures ValueOf(s) < 10000 && Pad4(ValueOf(s)) == s
  {
    ValueOf4(s);
    var a, b, c, d := DigitValue(s[0]), DigitValue(s[1]), DigitValue(s[2]), DigitValue(s[3]);
    var v := ValueOf(s);
    assert v / 1000 == a;
    assert v / 100 == 10 * a + b;
    assert v / 100 % 10 == b;
    assert v / 10 == 100 * a + 10 * b + c;
    assert v / 10 % 10 == c;
    assert v % 10 == d;
    DigitRoundTrip(s[0]); DigitRoundTrip(s[1]); DigitRoundTrip(s[2]); DigitRoundTrip(s[3]);
  }

  lemma DigitRoundTrip(c: char)
    requires IsDigit(c)
    ensures DigitChar(DigitValue(c)) == c
  {
  }

  lemma DigitsAtIndex(t: string, i: int, j: int, k: int)
    requires 0 <= i <= k < j <= |t| && DigitsAt(t, i, j)
    ensures IsDigit(t[k])
  {
    assert t[i..j][k - i] == t[k];
  }

  /** `strftime('%d/%m/%Y')`. */
  function FormatDMY(d: Date): (r: string)
    requires InPythonRange(d)
    ensures |r| == 10 && r[2] == '/' && r[5] == '/'
    ensures AllDigits(r[0..2]) && AllDigits(r[3..5]) && AllDigits(r[6..10])
    ensures ValueOf(r[0..2]) == d.day && ValueOf(r[3..5]) == d.month && ValueOf(r[6..10]) == d.year
  {
    var r := Pad2(d.day) + "/" + Pad2(d.month) + "/" + Pad4(d.year);
    assert r[0..2] == Pad2(d.day) && r[3..5] == Pad2(d.month) && r[6..10] == Pad4(d.year);
    r
  }

  /** If the first k characters after the replacement hold no '+', no Z stood there. */
  lemma {:induction false} ReplaceZPrefix(s: string, k: nat)
    requires k <= |ReplaceZ(s)| && forall i :: 0 <= i < k ==> ReplaceZ(s)[i] != '+'
    ensures k <= |s| && s[..k] == ReplaceZ(s)[..k]
  {
    if k > 0 {
      assert s != [];
      assert s[0] != 'Z' by { assert ReplaceZ(s)[0] != '+'; }
      assert ReplaceZ(s) == [s[0]] + ReplaceZ(s[1..]);
      assert forall i :: 0 <= i < k - 1 ==> ReplaceZ(s[1..])[i] == ReplaceZ(s)[i + 1];
      ReplaceZPrefix(s[1..], k - 1);
      assert s[..k] == [s[0]] + s[1..][..k - 1];
    }
  }

  /** What a successful parse says about the parsed text. */
  lemma ParsedShape(t: string)
    requires ParseDateTime(t).Some?
    ensures |t| >= 19 && t[4] == '-' && t[7] == '-'
    ensures DigitsAt(t, 0, 4) && DigitsAt(t, 5, 7) && DigitsAt(t, 8, 10)
    ensures ParseDateTime(t).value.date == Date(ValueOf(t[0..4]), ValueOf(t[5..7]), ValueOf(t[8..10]))
  {
  }

  /** A parseable text keeps its first ten characters through the replacement, and they are what is printed. */
  lemma FormatParsed(s: string)
    requires ParseDateTime(ReplaceZ(s)).Some?
    ensures |s| >= 10 && s[4] == '-'
    ensures FormatDMY(ParseDateTime(ReplaceZ(s)).value.date) == s[8..10] + "/" + s[5..7] + "/" + s[0..4]
  {
    var t := ReplaceZ(s);
    ParsedShape(t);
    NoPlusInDatePart(t);
    ReplaceZPrefix(s, 10);
    WrittenDate(s, t);
  }

  lemma NoPlusInDatePart(t: string)
    requires |t| >= 10 && t[4] == '-' && t[7] == '-'
    requires DigitsAt(t, 0, 4) && DigitsAt(t, 5, 7) && DigitsAt(t, 8, 10)
    ensures forall i :: 0 <= i < 10 ==> t[i] != '+'
  {
    forall i | 0 <= i < 10
      ensures t[i] != '+'
    {
      if i < 4 {
        DigitsAtIndex(t, 0, 4, i);
      } else if 5 <= i < 7 {
        DigitsAtIndex(t, 5, 7, i);
      } else if 8 <= i {
        DigitsAtIndex(t, 8, 10, i);
      }
    }
  }

  lemma WrittenDate(s: string, t: string)
    requires |t| >= 10 && |s| >= 10 && s[..10] == t[..10] && t[4] == '-'
    requires DigitsAt(t, 0, 4) && DigitsAt(t, 5, 7) && DigitsAt(t, 8, 10)
    requires InPythonRange(Date(ValueOf(t[0..4]), ValueOf(t[5..7]), ValueOf(t[8..10])))
    ensures s[4] == '-'
    ensures FormatDMY(Date(ValueOf(t[0..4]), ValueOf(t[5..7]), ValueOf(t[8..10]))) == s[8..10] + "/" + s[5..7] + "/" + s[0..4]
  {
    var p := s[..10];
    assert p[0..4] == s[0..4] == t[0..4];
    assert p[5..7] == s[5..7] == t[5..7];
    assert p[8..10] == s[8..10] == t[8..10];
    assert s[4] == p[4];
    Pad2OfValue(t[8..10]); Pad2OfValue(t[5..7]); Pad4OfValue(t[0..4]);
  }

  /** `format_date`: the date part as DD/MM/YYYY, or the input itself when it does not parse. */
  function FormatDate(s: string): string {
    match ParseDateTime(ReplaceZ(s))
    case None => s
    case Some(dt) => FormatDMY(dt.date)
  }

  /**
   * `format_date` never fails. For a parseable date-time it yields the written
   * date part as DD/MM/YYYY, with no time-zone conversion; for anything else it
   * yields its input, and only then.
   */
  lemma FormatDateMeaning(s: string)
    ensures FormatDate(s) == s <==> ParseDateTime(ReplaceZ(s)).None?
    ensures ParseDateTime(ReplaceZ(s)).Some? ==>
      && FormatDate(s) == FormatDMY(ParseDateTime(ReplaceZ(s)).value.date)
      && |s| >= 10 && FormatDate(s) == s[8..10] + "/" + s[5..7] + "/" + s[0..4]
  {
    if ParseDateTime(ReplaceZ(s)).Some? {
      FormatParsed(s);
      var r := FormatDate(s);
      assert r[4] != s[4] by { assert r[3..5][1] == r[4]; }
    }
  }

  /** The RFC 3339 spelling of an offset, upper-case "Z" for `Zulu`, nothing for `NoOffset`. */
  function RenderOffset(o: Offset): (s: string)
    requires WellFormedOffset(o)
    ensures |s| > 0 ==> !IsDigit(s[0]) && s[0] != '.'
  {
    match o
    case NoOffset => ""
    case Zulu => "Z"
    case NumOffset(negative, h, m) => (if negative then "-" else "+") + Pad2(h) + ":" + Pad2(m)
  }

  /** The `date-time` text of `dt`, upper-case "T" between date and time. */
  function Render(dt: DateTime): string
    requires WellFormed(dt)
  {
    RenderHead(dt) + (if dt.fraction == "" then "" else "." + dt.fraction) + RenderOffset(dt.offset)
  }

  /** Date and time up to the seconds: always 19 characters. */
  function RenderHead(dt: DateTime): (s: string)
    requires WellFormed(dt)
    ensures |s| == 19
  {
    Pad4(dt.date.year) + "-" + Pad2(dt.date.month) + "-" + Pad2(dt.date.day) + "T"
      + Pad2(dt.hour) + ":" + Pad2(dt.minute) + ":" + Pad2(dt.second)
  }

  lemma {:induction false} LeadingDigitsOf(a: string, b: string)
    requires AllDigits(a) && (|b| > 0 ==> !IsDigit(b[0]))
    ensures LeadingDigits(a + b) == |a|
  {
    if a != [] {
      assert (a + b)[1..] == a[1..] + b;
      LeadingDigitsOf(a[1..], b);
    } else {
      assert a + b == b;
    }
  }

  lemma ParseOffsetRender(o: Offset)
    requires WellFormedOffset(o)
    ensures ParseOffset(RenderOffset(o)) == Some(o)
  {
    if o.NumOffset? {
      var s := RenderOffset(o);
      assert s[1..3] == Pad2(o.hours) && s[4..6] == Pad2(o.minutes);
    }
  }

  lemma ParseTailRender(fraction: string, o: Offset)
    requires AllDigits(fraction) && WellFormedOffset(o)
    ensures ParseTail((if fraction == "" then "" else "." + fraction) + RenderOffset(o)) == Some((fraction, o))
  {
    var os := RenderOffset(o);
    ParseOffsetRender(o);
    if fraction == "" {
      assert "" + os == os;
    } else {
      var rest := "." + fraction + os;
      assert rest[1..] == fraction + os;
      LeadingDigitsOf(fraction, os);
      assert rest[1 + |fraction|..] == os;
      assert rest[1..1 + |fraction|] == fraction;
    }
  }

  /** Where the fields stand in a text that starts with a rendered head. */
  lemma HeadSlices(dt: DateTime, t: string)
    requires WellFormed(dt) && |t| >= 19 && t[..19] == RenderHead(dt)
    ensures t[0..4] == Pad4(dt.date.year) && t[5..7] == Pad2(dt.date.month) && t[8..10] == Pad2(dt.date.day)
    ensures t[11..13] == Pad2(dt.hour) && t[14..16] == Pad2(dt.minute) && t[17..19] == Pad2(dt.second)
    ensures t[4] == '-' && t[7] == '-' && t[10] == 'T' && t[13] == ':' && t[16] == ':'
  {
    var h := t[..19];
    assert t[0..4] == h[0..4] && t[5..7] == h[5..7] && t[8..10] == h[8..10];
    assert t[11..13] == h[11..13] && t[14..16] == h[14..16] && t[17..19] == h[17..19];
    assert t[4] == h[4] && t[7] == h[7] && t[10] == h[10] && t[13] == h[13] && t[16] == h[16];
  }

  /** Parsing succeeds on a text whose fixed characters, digit fields, ranges and tail are right. */
  lemma ParseDateTimeOf(t: string, dt: DateTime)
    requires WellFormed(dt) && |t| >= 19
    requires t[0..4] == Pad4(dt.date.year) && t[5..7] == Pad2(dt.date.month) && t[8..10] == Pad2(dt.date.day)
    requires t[11..13] == Pad2(dt.hour) && t[14..16] == Pad2(dt.minute) && t[17..19] == Pad2(dt.second)
    requires t[4] == '-' && t[7] == '-' && t[10] == 'T' && t[13] == ':' && t[16] == ':'
    requires ParseTail(t[19..]) == Some((dt.fraction, dt.offset))
    ensures ParseDateTime(t) == Some(dt)
  {
  }

  /** Parsing the rendered text gives back the same date-time. */
  lemma ParseRender(dt: DateTime)
    requires WellFormed(dt)
    ensures ParseDateTime(Render(dt)) == Some(dt)
  {
    var h := RenderHead(dt);
    var tail := (if dt.fraction == "" then "" else "." + dt.fraction) + RenderOffset(dt.offset);
    var t := Render(dt);
    assert t == h + tail;
    assert t[..19] == h && t[19..] == tail;
    ParseTailRender(dt.fraction, dt.offset);
    HeadSlices(dt, t);
    ParseDateTimeOf(t, dt);
  }

  /** A parsed offset is spelled exactly as `RenderOffset` spells it. */
  lemma OffsetOfParsed(o: string)
    requires ParseOffset(o).Some?
    ensures WellFormedOffset(ParseOffset(o).value) && RenderOffset(ParseOffset(o).value) == o
  {
    if |o| == 6 {
      Pad2OfValue(o[1..3]);
      Pad2OfValue(o[4..6]);
      assert o == [o[0]] + o[1..3] + ":" + o[4..6];
    }
  }

  /** A parsed tail is spelled exactly as `Render` spells the fraction and the offset. */
  lemma TailOfParsed(rest: string)
    requires ParseTail(rest).Some?
    ensures var (fraction, o) := ParseTail(rest).value;
      WellFormedOffset(o) && (if fraction == "" then "" else "." + fraction) + RenderOffset(o) == rest
  {
    if |rest| > 0 && rest[0] == '.' {
      var n := LeadingDigits(rest[1..]);
      OffsetOfParsed(rest[1 + n..]);
      assert rest == "." + rest[1..1 + n] + rest[1 + n..];
    } else {
      OffsetOfParsed(rest);
    }
  }

  /**
   * The converse of `ParseRender`: a text that parses is the rendered text of
   * its value, up to the case of the "T" separator. So the parser accepts
   * exactly the rendered date-times and nothing else.
   */
  lemma RenderOfParsed(t: string)
    requires ParseDateTime(t).Some?
    ensures |t| >= 19 && t[..10] + "T" + t[11..] == Render(ParseDateTime(t).value)
  {
    var dt := ParseDateTime(t).value;
    Pad4OfValue(t[0..4]);
    Pad2OfValue(t[5..7]); Pad2OfValue(t[8..10]);
    Pad2OfValue(t[11..13]); Pad2OfValue(t[14..16]); Pad2OfValue(t[17..19]);
    TailOfParsed(t[19..]);
    assert RenderHead(dt) == t[0..4] + "-" + t[5..7] + "-" + t[8..10] + "T" + t[11..13] + ":" + t[14..16] + ":" + t[17..19];
    HeadPieces(t);
  }

  /** A text of at least 19 characters with the date and time punctuation, cut into its fields. */
  lemma HeadPieces(t: string)
    requires |t| >= 19 && t[4] == '-' && t[7] == '-' && t[13] == ':' && t[16] == ':'
    ensures t[..10] + "T" + t[11..]
         == t[0..4] + "-" + t[5..7] + "-" + t[8..10] + "T" + t[11..13] + ":" + t[14..16] + ":" + t[17..19] + t[19..]
  {
    assert t[..10] == t[0..4] + "-" + t[5..7] + "-" + t[8..10];
    assert t[11..] == t[11..13] + ":" + t[14..16] + ":" + t[17..19] + t[19..];
  }

  predicate NoZ(s: string) {
    forall i :: 0 <= i < |s| ==> s[i] != 'Z'
  }

  lemma {:induction false} ReplaceZAppend(a: string, b: string)
    ensures ReplaceZ(a + b) == ReplaceZ(a) + ReplaceZ(b)
  {
    if a != [] {
      assert (a + b)[1..] == a[1..] + b;
      ReplaceZAppend(a[1..], b);
    } else {
      assert a + b == b;
    }
  }

  /**
   * An upper-case Z becomes "+00:00". With `ReplaceZNoZ` and `ReplaceZAppend`
   * this pins the replacement down on every text.
   */
  lemma ReplaceZOfZ()
    ensures ReplaceZ("Z") == "+00:00"
  {
    assert "Z"[1..] == [];
  }

  lemma {:induction false} ReplaceZNoZ(s: string)
    requires NoZ(s)
    ensures ReplaceZ(s) == s
  {
    if s != [] {
      ReplaceZNoZ(s[1..]);
    }
  }

  lemma NoZAppend(a: string, b: string)
    requires NoZ(a) && NoZ(b)
    ensures NoZ(a + b)
  {
    assert forall i :: 0 <= i < |a + b| ==> (a + b)[i] == if i < |a| then a[i] else b[i - |a|];
  }

  lemma HeadNoZ(dt: DateTime)
    requires WellFormed(dt)
    ensures NoZ(RenderHead(dt))
  {
    var y, mo, d := Pad4(dt.date.year), Pad2(dt.date.month), Pad2(dt.date.day);
    var h, mi, s := Pad2(dt.hour), Pad2(dt.minute), Pad2(dt.second);
    assert NoZ(y) && NoZ(mo) && NoZ(d) && NoZ(h) && NoZ(mi) && NoZ(s);
    NoZAppend(y, "-");
    NoZAppend(y + "-", mo);
    NoZAppend(y + "-" + mo, "-");
    NoZAppend(y + "-" + mo + "-", d);
    NoZAppend(y + "-" + mo + "-" + d, "T");
    NoZAppend(y + "-" + mo + "-" + d + "T", h);
    NoZAppend(y + "-" + mo + "-" + d + "T" + h, ":");
    NoZAppend(y + "-" + mo + "-" + d + "T" + h + ":", mi);
    NoZAppend(y + "-" + mo + "-" + d + "T" + h + ":" + mi, ":");
    NoZAppend(y + "-" + mo + "-" + d + "T" + h + ":" + mi + ":", s);
  }

  /** The offset after `replace('Z', '+00:00')`: "Z" becomes the numeric zero offset. */
  function Unzulu(o: Offset): Offset {
    if o.Zulu? then NumOffset(false, 0, 0) else o
  }

  /** Replacing Z in a rendered date-time renders it again with a "Z" offset turned into "+00:00". */
  lemma ReplaceZRender(dt: DateTime)
    requires WellFormed(dt)
    ensures WellFormed(dt.(offset := Unzulu(dt.offset)))
    ensures ReplaceZ(Render(dt)) == Render(dt.(offset := Unzulu(dt.offset)))
  {
    var h := RenderHead(dt);
    var f := if dt.fraction == "" then "" else "." + dt.fraction;
    HeadNoZ(dt);
    assert NoZ(f);
    ReplaceZAppend(h + f, RenderOffset(dt.offset));
    ReplaceZAppend(h, f);
    ReplaceZNoZ(h);
    ReplaceZNoZ(f);
    var os := RenderOffset(dt.offset);
    if dt.offset.Zulu? {
      assert os == "Z" == [os[0]] + os[1..];
      assert ReplaceZ(os) == "+00:00";
      assert RenderOffset(NumOffset(false, 0, 0)) == "+00:00";
    } else {
      assert NoZ(os);
      ReplaceZNoZ(os);
    }
  }

  /**
   * Any RFC 3339 date-time, whatever its offset (a trailing "Z" included), is
   * printed as its own date: there is no conversion to another time zone.
   */
  lemma FormatDateOfRender(dt: DateTime)
    requires WellFormed(dt)
    ensures FormatDate(Render(dt)) == FormatDMY(dt.date)
  {
    ReplaceZRender(dt);
    ParseRender(dt.(offset := Unzulu(dt.offset)));
    FormatDateMeaning(Render(dt));
  }

  /** The timestamp "2024-03-05T10:00:00Z" is printed as "05/03/2024". */
  lemma FormatDateExample()
    ensures FormatDate("2024-03-05T10:00:00Z") == "05/03/2024"
  {
    var dt := DateTime(Date(2024, 3, 5), 10, 0, 0, "", Zulu);
    assert Render(dt) == "2024-03-05T10:00:00Z";
    FormatDateOfRender(dt);
    assert FormatDMY(dt.date) == "05/03/2024";
  }

  /** A string that is not a date-time, such as "not a date", comes back unchanged. */
  lemma FormatDateFallbackExample()
    ensures FormatDate("not a date") == "not a date"
  {
    assert ReplaceZ("not a date") == "not a date" by { ReplaceZNoZ("not a date"); }
    FormatDateMeaning("not a date");
  }

  /**
   * `fromisoformat` knows only the upper-case "Z", and `replace` turns only
   * that one into "+00:00": a text whose offset is a lower-case "z" does not
   * parse, so it comes back unchanged.
   */
  lemma LowerCaseZuluKept(head: string)
    requires |head| == 19 && NoZ(head)
    ensures FormatDate(head + "z") == head + "z"
  {
    var s := head + "z";
    assert ReplaceZ(s) == s by {
      ReplaceZAppend(head, "z");
      ReplaceZNoZ(head);
      assert ReplaceZ("z") == "z";
    }
    assert ParseTail(s[19..]).None? by { assert s[19..] == "z"; }
    TailRejected(s);
  }

  /** "2024-03-05T10:00:00z" comes back unchanged. */
  lemma LowerCaseZuluExample()
    ensures FormatDate("2024-03-05T10:00:00z") == "2024-03-05T10:00:00z"
  {
    var head := "2024-03-05T10:00:00";
    assert NoZ(head);
    LowerCaseZuluKept(head);
    assert head + "z" == "2024-03-05T10:00:00z";
  }

  /** A text whose part after the seconds is no fraction-and-offset does not parse. */
  lemma TailRejected(t: string)
    requires |t| >= 19 && ParseTail(t[19..]).None?
    ensures ParseDateTime(t).None?
  {
  }

  /** A date-time without an offset is a naive `datetime`, printed as its own date. */
  lemma NaiveExample()
    ensures FormatDate("2024-03-05T10:00:00") == "05/03/2024"
  {
    var dt := DateTime(Date(2024, 3, 5), 10, 0, 0, "", NoOffset);
    assert Render(dt) == "2024-03-05T10:00:00";
    FormatDateOfRender(dt);
    assert FormatDMY(dt.date) == "05/03/2024";
  }

  /** The due date: today plus exactly thirty calendar days, unless that leaves `datetime`'s range. */
  function DueDate(today: Date): (r: Result<Date>)
    requires InPythonRange(today)
    ensures r.Ok? ==> InPythonRange(r.value)
  {
    var d := AddDays(today, 30);
    if d.year > 9999 then Err("date value out of range")
    else
      assert IsDate(d) by { AddDaysOrdinal(today, 30); }
      Ok(d)
  }

  /**
   * The due date is the date whose ordinal is thirty more than today's; it
   * fails, with `OverflowError`'s message, exactly when that passes 9999-12-31.
   */
  lemma DueDateMeaning(today: Date)
    requires InPythonRange(today)
    ensures DueDate(today).Ok? ==> Ordinal(DueDate(today).value) == Ordinal(today) + 30
    ensures DueDate(today).Err? <==> Ordinal(today) + 30 > Ordinal(Date(9999, 12, 31))
    ensures DueDate(today).Err? ==> DueDate(today).error == "date value out of range"
  {
    var d := AddDays(today, 30);
    AddDaysOrdinal(today, 30);
    OrdinalWithinYear(d);
    LastOrdinal();
    if d.year > 9999 {
      DaysBeforeYearMonotonic(10000, d.year);
    } else {
      DaysBeforeYearMonotonic(d.year + 1, 10000);
    }
  }

  /** 9999-12-31, the last day `datetime` represents, closes year 9999. */
  lemma LastOrdinal()
    ensures Ordinal(Date(9999, 12, 31)) == DaysBeforeYear(10000)
  {
    DaysBeforeYearStep(9999);
  }

  /** The "Vencimiento" text: the due date printed with `%d/%m/%Y`. */
  function DueDateText(today: Date): (r: Result<string>)
    requires InPythonRange(today)
    ensures r.Ok? <==> DueDate(today).Ok?
    ensures r.Ok? ==> r.value == FormatDMY(DueDate(today).value)
    ensures r.Err? ==> r.error == DueDate(today).error
  {
    match DueDate(today)
    case Ok(d) => Ok(FormatDMY(d))
    case Err(e) => Err(e)
  }
}
