/**
 * Shared definitions of the gateway client: the reply of the service-purchase
 * call, the normalisation of subscriber numbers (MDNs) to the 62-88 form, and
 * the two timestamp readers that fall back to 1900-01-01 instead of failing.
 */
module Define {
  import opened Wrappers
  import opened Decimals
  import opened GoTime

  /** The decoded reply of the service-purchase call; absent JSON fields are "". */
  datatype AddServiceMessage = AddServiceMessage(
    mdn: string,
    serviceCode: string,
    serviceName: string,
    effectiveDate: string,
    expiryDate: string,
    transactionId: string,
    returnCode: string,
    resultMsg: string)

  /** `strings.Replace(s, pat, rep, 1)`: the first occurrence of `pat` replaced. */
  function ReplaceFirst(s: string, pat: string, rep: string): (r: string)
    requires pat != []
    ensures pat <= s ==> r == rep + s[|pat|..]
    decreases |s|
  {
    if |s| < |pat| then s
    else if s[..|pat|] == pat then rep + s[|pat|..]
    else [s[0]] + ReplaceFirst(s[1..], pat, rep)
  }

  /**
   * The canonical form starts with "6288". The international form "+62", the
   * trunk form "088" and the bare "88" are rewritten to it; anything else is
   * left as it is.
   */
  function NormalizeMDN(mdn: string): (r: string)
    ensures "6288" <= mdn ==> r == mdn
    ensures "+62" <= mdn ==> r == "62" + mdn[3..]
    ensures "088" <= mdn ==> r == "6288" + mdn[3..]
    ensures "88" <= mdn ==> r == "6288" + mdn[2..]
    ensures !("6288" <= mdn || "+62" <= mdn || "088" <= mdn || "88" <= mdn) ==> r == mdn
  {
    PrefixesExclusive(mdn);
    if "6288" <= mdn then mdn
    else if "+62" <= mdn then ReplaceFirst(mdn, "+62", "62")
    else if "088" <= mdn then ReplaceFirst(mdn, "088", "6288")
    else if "88" <= mdn then ReplaceFirst(mdn, "88", "6288")
    else mdn
  }

  /** The four recognised prefixes differ in their first character. */
  lemma PrefixesExclusive(mdn: string)
    ensures "6288" <= mdn ==> mdn[0] == '6'
    ensures "+62" <= mdn ==> mdn[0] == '+'
    ensures "088" <= mdn ==> mdn[0] == '0'
    ensures "88" <= mdn ==> mdn[0] == '8'
  {
    if "6288" <= mdn { assert mdn[0] == "6288"[0]; }
    if "+62" <= mdn { assert mdn[0] == "+62"[0]; }
    if "088" <= mdn { assert mdn[0] == "088"[0]; }
    if "88" <= mdn { assert mdn[0] == "88"[0]; }
  }

  /** Normalising a normalised number changes nothing. */
  lemma NormalizeMDNIdempotent(mdn: string)
    ensures NormalizeMDN(NormalizeMDN(mdn)) == NormalizeMDN(mdn)
  {
    var r := NormalizeMDN(mdn);
    if "+62" <= mdn && !("6288" <= r) {
      assert r[0] == '6';
      assert !("+62" <= r || "088" <= r || "88" <= r);
    } else if "088" <= mdn || "88" <= mdn {
      assert "6288" <= r;
    }
  }

  /** Every recognised form comes out starting with the country code 62. */
  lemma NormalizeMDNCountryCode(mdn: string)
    requires "6288" <= mdn || "+62" <= mdn || "088" <= mdn || "88" <= mdn
    ensures "62" <= NormalizeMDN(mdn)
  {
  }

  lemma NormalizeMDNExamples()
    ensures NormalizeMDN("08812") == "628812"
    ensures NormalizeMDN("+6212") == "6212"
  {
    assert "08812"[3..] == "12";
    assert "+6212"[3..] == "12";
  }

  // Timestamps

  /** Layout "02/01/2006 15:04:05". */
  const DayFirstTime: Layout :=
    [ZeroDay, Literal("/"), ZeroMonth, Literal("/"), LongYear, Literal(" "),
     Hour, Literal(":"), ZeroMinute, Literal(":"), ZeroSecond]

  /** Layout "2006-01-02 15:04:05". */
  const IsoTime: Layout :=
    [LongYear, Literal("-"), ZeroMonth, Literal("-"), ZeroDay, Literal(" "),
     Hour, Literal(":"), ZeroMinute, Literal(":"), ZeroSecond]

  /** Layout "02/01/2006 00:00:00": no element of Go's layout language starts with "00", so the time is literal text. */
  const DayFirstDate: Layout :=
    [ZeroDay, Literal("/"), ZeroMonth, Literal("/"), LongYear, Literal(" 00:00:00")]

  /** Layout "2006-01-02 00:00:00", with the same literal time. */
  const IsoDate: Layout :=
    [LongYear, Literal("-"), ZeroMonth, Literal("-"), ZeroDay, Literal(" 00:00:00")]

  /** What an empty timestamp is replaced with before parsing. */
  const EmptyTimestamp: string := "01/01/1900 00:00:00"

  /** The fallback when neither layout accepts the timestamp. */
  const Sentinel: Time := Time(1900, 1, 1, 0, 0, 0, 0)

  /** Day-first first, then ISO, then the 1900-01-01 sentinel: never an error. */
  function ToTime(timestamp: string): (t: Time)
    ensures Valid(t)
  {
    var ts := if timestamp == "" then EmptyTimestamp else timestamp;
    match Parse(DayFirstTime, ts)
    case Some(t) => t
    case None =>
      match Parse(IsoTime, ts)
      case Some(t) => t
      case None => Sentinel
  }

  /** The same chain with the date layouts; the result is always a midnight. */
  function ToDate(timestamp: string): (t: Time)
    ensures Valid(t)
    ensures t.hour == 0 && t.minute == 0 && t.second == 0 && t.nanos == 0
  {
    DateLayoutsTimeFree();
    var ts := if timestamp == "" then EmptyTimestamp else timestamp;
    match Parse(DayFirstDate, ts)
    case Some(t) => t
    case None =>
      match Parse(IsoDate, ts)
      case Some(t) => t
      case None => Sentinel
  }

  /** The date layouts have no hour, minute or second element. */
  lemma DateLayoutsTimeFree()
    ensures Hour !in DayFirstDate && ZeroMinute !in DayFirstDate && ZeroSecond !in DayFirstDate
    ensures Hour !in IsoDate && ZeroMinute !in IsoDate && ZeroSecond !in IsoDate
  {
  }

  lemma DayFirstTimeWellFormed()
    ensures WellFormed(DayFirstTime)
  {
    var l := DayFirstTime;
    forall i | 0 <= i < |l| ensures ElemOk(l, i) {
      if i == 5 { assert l[6] == Hour; }
    }
    WellFormedByElems(l);
  }

  lemma IsoTimeWellFormed()
    ensures WellFormed(IsoTime)
  {
    var l := IsoTime;
    forall i | 0 <= i < |l| ensures ElemOk(l, i) {
      if i == 5 { assert l[6] == Hour; }
    }
    WellFormedByElems(l);
  }

  lemma DateLayoutsWellFormed()
    ensures WellFormed(DayFirstDate) && WellFormed(IsoDate)
  {
    forall i | 0 <= i < |DayFirstDate| ensures ElemOk(DayFirstDate, i) {
    }
    WellFormedByElems(DayFirstDate);
    forall i | 0 <= i < |IsoDate| ensures ElemOk(IsoDate, i) {
    }
    WellFormedByElems(IsoDate);
  }

  // The layouts split into a date part and a time part.

  /** "02/01/2006" */
  const DayFirstDay: Layout := [ZeroDay, Literal("/"), ZeroMonth, Literal("/"), LongYear]

  /** "2006-01-02" */
  const IsoDay: Layout := [LongYear, Literal("-"), ZeroMonth, Literal("-"), ZeroDay]

  /** " 15:04:05" */
  const Clock: Layout := [Literal(" "), Hour, Literal(":"), ZeroMinute, Literal(":"), ZeroSecond]

  /** " 00:00:00" */
  const LiteralMidnight: Layout := [Literal(" 00:00:00")]

  lemma TimeLayoutParts()
    ensures DayFirstTime == DayFirstDay + Clock && IsoTime == IsoDay + Clock
  {
  }

  lemma DateLayoutParts()
    ensures DayFirstDate == DayFirstDay + LiteralMidnight && IsoDate == IsoDay + LiteralMidnight
  {
  }

  lemma FormatDayFirstDay(t: Time)
    requires Valid(t)
    ensures Format(DayFirstDay, t) == Pad2(t.day) + "/" + Pad2(t.month) + "/" + Pad4(t.year)
  {
  }

  lemma FormatIsoDay(t: Time)
    requires Valid(t)
    ensures Format(IsoDay, t) == Pad4(t.year) + "-" + Pad2(t.month) + "-" + Pad2(t.day)
  {
  }

  lemma FormatClock(t: Time)
    requires Valid(t)
    ensures Format(Clock, t) == " " + Pad2(t.hour) + ":" + Pad2(t.minute) + ":" + Pad2(t.second)
  {
  }

  lemma FormatLiteralMidnight(t: Time)
    requires Valid(t)
    ensures Format(LiteralMidnight, t) == " 00:00:00"
  {
    assert LiteralMidnight[1..] == [];
  }

  lemma DayPartsWellFormed()
    ensures WellFormed(DayFirstDay) && WellFormed(IsoDay)
  {
    forall i | 0 <= i < |DayFirstDay| ensures ElemOk(DayFirstDay, i) {
    }
    WellFormedByElems(DayFirstDay);
    forall i | 0 <= i < |IsoDay| ensures ElemOk(IsoDay, i) {
    }
    WellFormedByElems(IsoDay);
  }

  /** The string an empty timestamp is replaced with is the sentinel in the day-first time layout. */
  lemma EmptyTimestampIsSentinel(t: Time)
    requires t == Sentinel
    ensures EmptyTimestamp == Format(DayFirstTime, t)
  {
    TimeLayoutParts();
    SentinelDay(t);
    SentinelClock(t);
    SentinelAppend(DayFirstDay, Clock, DayFirstTime, t);
  }

  /** ... and in the day-first date layout. */
  lemma EmptyDateIsSentinel(t: Time)
    requires t == Sentinel
    ensures EmptyTimestamp == Format(DayFirstDate, t)
  {
    DateLayoutParts();
    SentinelDay(t);
    FormatLiteralMidnight(t);
    SentinelAppend(DayFirstDay, LiteralMidnight, DayFirstDate, t);
  }

  lemma SentinelAppend(a: Layout, b: Layout, whole: Layout, t: Time)
    requires t == Sentinel && whole == a + b
    requires Format(a, t) == "01/01/1900" && Format(b, t) == " 00:00:00"
    ensures Format(whole, t) == EmptyTimestamp
  {
    FormatAppend(a, b, t);
    SentinelText("01/01/1900", " 00:00:00");
  }

  lemma SentinelText(day: string, clock: string)
    requires day == "01/01/1900" && clock == " 00:00:00"
    ensures day + clock == EmptyTimestamp
  {
  }

  lemma SentinelDay(t: Time)
    requires t == Sentinel
    ensures Format(DayFirstDay, t) == "01/01/1900"
  {
    FormatDayFirstDay(t);
    assert Pad2(1) == "01";
    assert Pad4(1900) == "1900";
  }

  lemma SentinelClock(t: Time)
    requires t == Sentinel
    ensures Format(Clock, t) == " 00:00:00"
  {
    FormatClock(t);
    assert Pad2(0) == "00";
  }

  /** Every formatted day-first or ISO timestamp starts with a digit, so it is not empty. */
  lemma FormatStartsWithDigit(layout: Layout, t: Time)
    requires Valid(t) && layout != [] && !layout[0].Literal?
    ensures IsDigit(Format(layout, t), 0) && IsDigit(Format(layout, t), 1)
  {
  }

  /** A day-first timestamp with a whole second is read back exactly. */
  lemma ToTimeDayFirst(t: Time)
    requires Valid(t) && t.nanos == 0
    ensures ToTime(Format(DayFirstTime, t)) == t
  {
    FormatStartsWithDigit(DayFirstTime, t);
    DayFirstTimeWellFormed();
    ParseFormat(DayFirstTime, t);
  }

  /** An ISO timestamp with a whole second is read back exactly: the day-first layout cannot take it. */
  lemma ToTimeIso(t: Time)
    requires Valid(t) && t.nanos == 0
    ensures ToTime(Format(IsoTime, t)) == t
  {
    var s := Format(IsoTime, t);
    FormatStartsWithDigit(IsoTime, t);
    FormatYearFirst(IsoTime, t);
    DigitRejectsDaySlash(DayFirstTime, s);
    IsoTimeWellFormed();
    ParseFormat(IsoTime, t);
  }

  /** The same instant written in either form reads as the same time. */
  lemma ToTimeFormsAgree(t: Time)
    requires Valid(t) && t.nanos == 0
    ensures ToTime(Format(DayFirstTime, t)) == ToTime(Format(IsoTime, t))
  {
    ToTimeDayFirst(t);
    ToTimeIso(t);
  }

  /** No text is accepted by both day-first and ISO layouts, so the order they are tried in is immaterial. */
  lemma LayoutsExclusive(s: string)
    ensures !(Parse(DayFirstTime, s).Some? && Parse(IsoTime, s).Some?)
    ensures !(Parse(DayFirstDate, s).Some? && Parse(IsoDate, s).Some?)
  {
    if Parse(DayFirstTime, s).Some? && Parse(IsoTime, s).Some? {
      DaySlashFirst(DayFirstTime, s);
      YearFirst(IsoTime, s);
      assert false;
    }
    if Parse(DayFirstDate, s).Some? && Parse(IsoDate, s).Some? {
      DaySlashFirst(DayFirstDate, s);
      YearFirst(IsoDate, s);
      assert false;
    }
  }

  /** The empty timestamp reads as the sentinel. */
  lemma ToTimeEmpty()
    ensures ToTime("") == Sentinel
  {
    EmptyTimestampIsSentinel(Sentinel);
    DayFirstTimeWellFormed();
    ParseFormat(DayFirstTime, Sentinel);
  }

  /** Text that does not start with a digit matches neither layout and falls back to the sentinel. */
  lemma ToTimeNonDigit(s: string)
    requires s != "" && !IsDigit(s, 0)
    ensures ToTime(s) == Sentinel
    ensures ToDate(s) == Sentinel
  {
  }

  /** The empty timestamp reads as the sentinel date as well. */
  lemma ToDateEmpty()
    ensures ToDate("") == Sentinel
  {
    EmptyDateIsSentinel(Sentinel);
    DateLayoutsWellFormed();
    ParseFormat(DayFirstDate, Sentinel);
  }

  /** A midnight written in either date form is read back exactly. */
  lemma ToDateRoundTrip(t: Time)
    requires Valid(t) && t.hour == 0 && t.minute == 0 && t.second == 0 && t.nanos == 0
    ensures ToDate(Format(DayFirstDate, t)) == t
    ensures ToDate(Format(IsoDate, t)) == t
  {
    DateLayoutsWellFormed();
    FormatStartsWithDigit(DayFirstDate, t);
    ParseFormat(DayFirstDate, t);
    var s := Format(IsoDate, t);
    FormatStartsWithDigit(IsoDate, t);
    FormatYearFirst(IsoDate, t);
    DigitRejectsDaySlash(DayFirstDate, s);
    ParseFormat(IsoDate, t);
  }

  lemma Pad2Zero(n: int)
    requires 0 <= n < 100
    ensures Pad2(n) == "00" <==> n == 0
  {
    if Pad2(n) == "00" {
      assert DigitVal(Pad2(n)[0]) == n / 10;
      assert DigitVal(Pad2(n)[1]) == n % 10;
    }
  }

  /** A printed clock reads "00:00:00" exactly at midnight. */
  lemma ClockZero(h: int, m: int, sec: int)
    requires 0 <= h < 100 && 0 <= m < 100 && 0 <= sec < 100
    ensures Pad2(h) + ":" + Pad2(m) + ":" + Pad2(sec) == "00:00:00" <==> h == 0 && m == 0 && sec == 0
  {
    var body := Pad2(h) + ":" + Pad2(m) + ":" + Pad2(sec);
    Pad2Zero(h);
    Pad2Zero(m);
    Pad2Zero(sec);
    assert body[..2] == Pad2(h);
    assert body[3..5] == Pad2(m);
    assert body[6..] == Pad2(sec);
    if body == "00:00:00" {
      assert body[..2] == "00" && body[3..5] == "00" && body[6..] == "00";
    }
  }

  /** The literal " 00:00:00" matches a printed clock only at midnight. */
  lemma SkipMidnight(t: Time)
    requires Valid(t)
    ensures Skip(Format(Clock, t), " 00:00:00").Some? <==> t.hour == 0 && t.minute == 0 && t.second == 0
  {
    FormatClock(t);
    var body := Pad2(t.hour) + ":" + Pad2(t.minute) + ":" + Pad2(t.second);
    assert Format(Clock, t) == " " + body;
    assert body[0] == Pad2(t.hour)[0];
    SkipSpacedAgrees(body, "00:00:00", " 00:00:00");
    ClockZero(t.hour, t.minute, t.second);
  }

  /** A spaced literal matches a spaced text of its own length only when the two agree. */
  lemma SkipSpacedAgrees(body: string, q: string, lit: string)
    requires lit == " " + q && ' ' !in q && body != [] && body[0] != ' ' && |body| == |q|
    ensures Skip(" " + body, lit).Some? <==> body == q
  {
    SkipOneSpace(body, q);
    SkipPlain(body, q);
    assert (q <= body) == (body == q);
  }

  /** A date part followed by a clock that is not midnight fails the literal midnight. */
  lemma DateLayoutRejectsClock(day: Layout, dateLayout: Layout, timeLayout: Layout, t: Time)
    requires dateLayout == day + LiteralMidnight && timeLayout == day + Clock
    requires WellFormed(day) && ZeroSecond !in day && Valid(t)
    requires !(t.hour == 0 && t.minute == 0 && t.second == 0)
    ensures Parse(dateLayout, Format(timeLayout, t)).None?
  {
    FormatAppend(day, Clock, t);
    RunAppend(day, LiteralMidnight, t, Format(Clock, t), Unset);
    SkipMidnight(t);
  }

  /** Text with a slash at index 2 is not accepted by a layout that starts with the year. */
  lemma SlashRejectsYearFirst(layout: Layout, s: string)
    requires layout != [] && layout[0] == LongYear && |s| > 2 && s[2] == '/'
    ensures Parse(layout, s).None?
  {
    if Parse(layout, s).Some? {
      YearFirst(layout, s);
      assert false;
    }
  }

  /** Text with a digit at index 2 is not accepted by a layout that starts with a day and a slash. */
  lemma DigitRejectsDaySlash(layout: Layout, s: string)
    requires |layout| >= 2 && layout[0] == ZeroDay && layout[1] == Literal("/") && IsDigit(s, 2)
    ensures Parse(layout, s).None?
  {
    if Parse(layout, s).Some? {
      DaySlashFirst(layout, s);
      assert false;
    }
  }

  /** A day-first timestamp with a time of day other than midnight is not a date: it reads as the sentinel. */
  lemma ToDateRejectsDayFirstClock(t: Time)
    requires Valid(t) && !(t.hour == 0 && t.minute == 0 && t.second == 0)
    ensures ToDate(Format(DayFirstTime, t)) == Sentinel
  {
    TimeLayoutParts();
    DateLayoutParts();
    DayPartsWellFormed();
    DateLayoutRejectsClock(DayFirstDay, DayFirstDate, DayFirstTime, t);
    FormatDaySlash(DayFirstTime, t);
    SlashRejectsYearFirst(IsoDate, Format(DayFirstTime, t));
  }

  /** The same for an ISO timestamp. */
  lemma ToDateRejectsIsoClock(t: Time)
    requires Valid(t) && !(t.hour == 0 && t.minute == 0 && t.second == 0)
    ensures ToDate(Format(IsoTime, t)) == Sentinel
  {
    TimeLayoutParts();
    DateLayoutParts();
    DayPartsWellFormed();
    DateLayoutRejectsClock(IsoDay, IsoDate, IsoTime, t);
    FormatYearFirst(IsoTime, t);
    DigitRejectsDaySlash(DayFirstDate, Format(IsoTime, t));
  }
}
