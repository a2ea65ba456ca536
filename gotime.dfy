/**
 * The part of Go's `time.Parse` that the subscriber code relies on: layouts
 * built from a day ("02"), a month ("01"), a four-digit year ("2006"), an
 * hour ("15"), a minute ("04"), a second ("05") and literal text, parsed in
 * UTC. A layout is given here as the sequence of its elements; how Go splits
 * a layout string into elements is not part of this model.
 */
module GoTime {
  import opened Wrappers
  import opened Decimals

  /** A time in UTC, as `time.Time` holds it when no zone is parsed. */
  datatype Time = Time(year: int, month: int, day: int, hour: int, minute: int, second: int, nanos: int)

  /** One element of a layout. */
  datatype Elem =
    | Literal(text: string)  // literal text; a space matches any run of spaces
    | ZeroDay                // "02": exactly two digits
    | ZeroMonth              // "01": exactly two digits, 1 to 12
    | LongYear               // "2006": exactly four digits
    | Hour                   // "15": one or two digits, below 24
    | ZeroMinute             // "04": exactly two digits, below 60
    | ZeroSecond             // "05": exactly two digits, below 60, then an optional fraction

  type Layout = seq<Elem>

  /** The fields collected while parsing; -1 marks a month or day not yet seen. */
  datatype Fields = Fields(year: int, month: int, day: int, hour: int, minute: int, second: int, nanos: int)

  const Billion: int := 1_000_000_000

  function IsLeap(year: int): bool {
    year % 4 == 0 && (year % 100 != 0 || year % 400 == 0)
  }

  function DaysIn(month: int, year: int): (n: int)
    requires 1 <= month <= 12
    ensures 28 <= n <= 31
  {
    if month == 2 then (if IsLeap(year) then 29 else 28)
    else if month == 4 || month == 6 || month == 9 || month == 11 then 30
    else 31
  }

  /** A time that `time.Parse` can produce from the layouts of this model. */
  predicate Valid(t: Time) {
    0 <= t.year <= 9999 && 1 <= t.month <= 12 && 1 <= t.day <= DaysIn(t.month, t.year) &&
    0 <= t.hour < 24 && 0 <= t.minute < 60 && 0 <= t.second < 60 && 0 <= t.nanos < Billion
  }

  /** What parsing keeps true of the collected fields. */
  predicate FieldsOk(f: Fields) {
    0 <= f.year <= 9999 && (f.month == -1 || 1 <= f.month <= 12) && -1 <= f.day <= 99 &&
    0 <= f.hour < 24 && 0 <= f.minute < 60 && 0 <= f.second < 60 && 0 <= f.nanos < Billion
  }

  predicate IsDigit(s: string, i: int) {
    0 <= i < |s| && '0' <= s[i] <= '9'
  }

  /**
   * Go's `getnum`: one or two leading digits; with `fixed`, exactly two.
   * Yields the number and the rest of the input.
   */
  function GetNum(s: string, fixed: bool): (r: Option<(int, string)>)
    ensures r.Some? ==> 0 <= r.value.0 <= 99 && |r.value.1| < |s| && r.value.1 == s[|s| - |r.value.1|..]
    ensures r.Some? && fixed ==> |s| >= 2 && r.value.1 == s[2..]
  {
    if !IsDigit(s, 0) then None
    else if !IsDigit(s, 1) then (if fixed then None else Some((DigitVal(s[0]), s[1..])))
    else Some((DigitVal(s[0]) * 10 + DigitVal(s[1]), s[2..]))
  }

  function CutSpace(s: string): (r: string)
    ensures |r| <= |s| && r == s[|s| - |r|..]
    ensures r == [] || r[0] != ' '
    ensures s != [] && s[0] == ' ' ==> |r| < |s|
    ensures s == [] || s[0] != ' ' ==> r == s
  {
    if s != [] && s[0] == ' ' then CutSpace(s[1..]) else s
  }

  /**
   * Go's `skip`: consume the literal `prefix` from `value`. A space in the
   * prefix matches any run of spaces in the value, including none when the
   * value has run out.
   */
  function Skip(value: string, prefix: string): (r: Option<string>)
    ensures r.Some? ==> |r.value| <= |value| && r.value == value[|value| - |r.value|..]
    decreases |prefix|
  {
    if prefix == [] then Some(value)
    else if prefix[0] == ' ' then
      if value != [] && value[0] != ' ' then None
      else Skip(CutSpace(value), CutSpace(prefix))
    else if value == [] || value[0] != prefix[0] then None
    else Skip(value[1..], prefix[1..])
  }

  /** Without spaces in the prefix, `Skip` is a plain prefix match. */
  lemma {:induction false} SkipPlain(value: string, prefix: string)
    requires ' ' !in prefix
    ensures Skip(value, prefix) == if prefix <= value then Some(value[|prefix|..]) else None
    decreases |prefix|
  {
    if prefix == [] {
      assert value[0..] == value;
    } else {
      assert prefix[0] != ' ';
      if value != [] && value[0] == prefix[0] {
        assert ' ' !in prefix[1..];
        SkipPlain(value[1..], prefix[1..]);
        assert (prefix[1..] <= value[1..]) == (prefix <= value);
        if prefix <= value {
          assert value[1..][|prefix| - 1..] == value[|prefix|..];
        }
      } else {
        assert !(prefix <= value);
      }
    }
  }

  /** A single space before text that does not start with a space matches a leading space of the prefix. */
  lemma SkipOneSpace(body: string, q: string)
    requires ' ' !in q && body != [] && body[0] != ' '
    ensures Skip(" " + body, " " + q) == Skip(body, q)
  {
    var v := " " + body;
    var p := " " + q;
    assert v[0] == ' ' && v[1..] == body;
    assert p[0] == ' ' && p[1..] == q;
    assert CutSpace(body) == body;
    assert CutSpace(v) == body;
    assert q == [] || q[0] != ' ';
    assert CutSpace(q) == q;
    assert CutSpace(p) == q;
  }

  /** The index just past the run of digits that starts at `n`. */
  function DigitRun(s: string, n: nat): (m: nat)
    requires n <= |s|
    ensures n <= m <= |s| && !IsDigit(s, m)
    ensures forall i :: n <= i < m ==> IsDigit(s, i)
    decreases |s| - n
  {
    if IsDigit(s, n) then DigitRun(s, n + 1) else n
  }

  lemma DecimalScaled(ds: string, k: nat)
    requires AllDigits(ds) && |ds| + k == 9
    ensures Decimal(ds) * Pow10(k) < Billion
  {
    Pow10Split(|ds|, k);
    Pow10Nine();
    MulStrict(Decimal(ds), Pow10(|ds|), Pow10(k));
  }

  lemma Pow10Nine()
    ensures Pow10(9) == Billion
  {
  }

  lemma MulStrict(a: int, b: int, c: int)
    requires 0 <= a < b && c >= 1
    ensures a * c < b * c
  {
  }

  lemma {:induction false} Pow10Split(a: nat, b: nat)
    ensures Pow10(a) * Pow10(b) == Pow10(a + b)
    decreases b
  {
    if b > 0 {
      Pow10Split(a, b - 1);
      assert Pow10(a + b) == 10 * Pow10(a + b - 1);
    }
  }

  lemma DigitsSlice(s: string, lo: nat, hi: nat)
    requires lo <= hi <= |s| && forall i :: lo <= i < hi ==> IsDigit(s, i)
    ensures AllDigits(s[lo..hi])
  {
    forall i | 0 <= i < hi - lo ensures '0' <= s[lo..hi][i] <= '9' {
      assert IsDigit(s, lo + i);
    }
  }

  /** At most nine digits of the fraction are read, so the nanoseconds stay below a second. */
  lemma FractionDigits(s: string, n: nat, used: nat)
    requires 2 <= n <= |s| && IsDigit(s, 1) && forall i :: 2 <= i < n ==> IsDigit(s, i)
    requires used == if n > 10 then 10 else n
    ensures AllDigits(s[1..used]) && Decimal(s[1..used]) * Pow10(10 - used) < Billion
  {
    DigitsSlice(s, 1, used);
    DecimalScaled(s[1..used], 10 - used);
  }

  /**
   * After the seconds field, a '.' or ',' followed by digits is taken as a
   * fraction of a second although the layout has none; at most nine digits
   * count, further digits are consumed and ignored.
   */
  function Fraction(s: string): (r: (int, string))
    ensures 0 <= r.0 < Billion
    ensures |r.1| <= |s| && r.1 == s[|s| - |r.1|..]
    ensures !(|s| >= 2 && (s[0] == '.' || s[0] == ',') && IsDigit(s, 1)) ==> r == (0, s)
  {
    if |s| >= 2 && (s[0] == '.' || s[0] == ',') && IsDigit(s, 1) then
      var n := DigitRun(s, 2);
      var used := if n > 10 then 10 else n;
      FractionDigits(s, n, used);
      var rest := s[n..];
      assert rest == s[|s| - |rest|..];
      (Decimal(s[1..used]) * Pow10(10 - used), rest)
    else (0, s)
  }

  /** One element of a layout applied to the front of the input. */
  function Step(e: Elem, s: string, f: Fields): (r: Option<(Fields, string)>)
    ensures FieldsOk(f) && r.Some? ==> FieldsOk(r.value.0)
    ensures r.Some? && !e.Literal? ==> IsDigit(s, 0)
    ensures r.Some? && e != Hour ==> r.value.0.hour == f.hour
    ensures r.Some? && e != ZeroMinute ==> r.value.0.minute == f.minute
    ensures r.Some? && e != ZeroSecond ==> r.value.0.second == f.second && r.value.0.nanos == f.nanos
  {
    match e
    case Literal(p) =>
      (match Skip(s, p)
       case None => None
       case Some(rest) => Some((f, rest)))
    case ZeroDay =>
      (match GetNum(s, true)
       case None => None
       case Some((d, rest)) => Some((f.(day := d), rest)))
    case ZeroMonth =>
      (match GetNum(s, true)
       case None => None
       case Some((m, rest)) => if m < 1 || 12 < m then None else Some((f.(month := m), rest)))
    case LongYear =>
      if |s| < 4 || !AllDigits(s[..4]) then None
      else Some((f.(year := Decimal(s[..4])), s[4..]))
    case Hour =>
      (match GetNum(s, false)
       case None => None
       case Some((h, rest)) => if 24 <= h then None else Some((f.(hour := h), rest)))
    case ZeroMinute =>
      (match GetNum(s, true)
       case None => None
       case Some((m, rest)) => if 60 <= m then None else Some((f.(minute := m), rest)))
    case ZeroSecond =>
      (match GetNum(s, true)
       case None => None
       case Some((sec, rest)) =>
         if 60 <= sec then None
         else
           var (ns, rest') := Fraction(rest);
           Some((f.(second := sec, nanos := ns), rest')))
  }

  /** All elements in order; the input must be used up exactly. */
  function Run(layout: Layout, s: string, f: Fields): (r: Option<Fields>)
    ensures FieldsOk(f) && r.Some? ==> FieldsOk(r.value)
    ensures r.Some? && layout != [] && !layout[0].Literal? ==> IsDigit(s, 0)
    ensures r.Some? && Hour !in layout ==> r.value.hour == f.hour
    ensures r.Some? && ZeroMinute !in layout ==> r.value.minute == f.minute
    ensures r.Some? && ZeroSecond !in layout ==> r.value.second == f.second && r.value.nanos == f.nanos
    decreases |layout|
  {
    if layout == [] then (if s == [] then Some(f) else None)
    else
      match Step(layout[0], s, f)
      case None => None
      case Some((f', rest)) => Run(layout[1..], rest, f')
  }

  const Unset: Fields := Fields(0, -1, -1, 0, 0, 0, 0)

  /**
   * `time.Parse(layout, s)` for a layout without zone: None where Go reports
   * an error. A month or day missing from the layout defaults to 1; the day
   * must exist in its month.
   */
  function Parse(layout: Layout, s: string): (r: Option<Time>)
    ensures r.Some? ==> Valid(r.value)
    ensures r.Some? && layout != [] && !layout[0].Literal? ==> IsDigit(s, 0)
    ensures r.Some? && Hour !in layout && ZeroMinute !in layout && ZeroSecond !in layout ==>
              r.value.hour == 0 && r.value.minute == 0 && r.value.second == 0 && r.value.nanos == 0
  {
    match Run(layout, s, Unset)
    case None => None
    case Some(f) =>
      var month := if f.month < 0 then 1 else f.month;
      var day := if f.day < 0 then 1 else f.day;
      if day < 1 || day > DaysIn(month, f.year) then None
      else Some(Time(f.year, month, day, f.hour, f.minute, f.second, f.nanos))
  }

  // Formatting: Go's `time.Format` for the same layouts, used to state which
  // strings the parser accepts and what it reads from them.


  /** A number below 100 written with two digits. */
  function Pad2(n: int): (s: string)
    requires 0 <= n < 100
    ensures |s| == 2 && AllDigits(s)
  {
    [Digit(n / 10), Digit(n % 10)]
  }

  /** A number below 10000 written with four digits. */
  function Pad4(n: int): (s: string)
    requires 0 <= n < 10000
    ensures |s| == 4 && AllDigits(s)
  {
    [Digit(n / 1000), Digit(n / 100 % 10), Digit(n / 10 % 10), Digit(n % 10)]
  }

  /** The text one element prints for `t`: digits for a field, the literal itself otherwise. */
  function Print(e: Elem, t: Time): (s: string)
    requires Valid(t)
    ensures !e.Literal? ==> |s| >= 2 && AllDigits(s)
  {
    match e
    case Literal(p) => p
    case ZeroDay => Pad2(t.day)
    case ZeroMonth => Pad2(t.month)
    case LongYear => Pad4(t.year)
    case Hour => Pad2(t.hour)
    case ZeroMinute => Pad2(t.minute)
    case ZeroSecond => Pad2(t.second)
  }

  function Format(layout: Layout, t: Time): string
    requires Valid(t)
    decreases |layout|
  {
    if layout == [] then "" else Print(layout[0], t) + Format(layout[1..], t)
  }

  /** The field an element sets when it reads `t`'s printed value. */
  function Assign(e: Elem, t: Time, f: Fields): Fields {
    match e
    case Literal(_) => f
    case ZeroDay => f.(day := t.day)
    case ZeroMonth => f.(month := t.month)
    case LongYear => f.(year := t.year)
    case Hour => f.(hour := t.hour)
    case ZeroMinute => f.(minute := t.minute)
    case ZeroSecond => f.(second := t.second, nanos := 0)
  }

  function Collect(layout: Layout, t: Time, f: Fields): Fields
    decreases |layout|
  {
    if layout == [] then f else Collect(layout[1..], t, Assign(layout[0], t, f))
  }

  /**
   * A layout whose formatted text reads back unambiguously: a literal is
   * non-empty and has a space at most in front; a literal that is a lone space
   * comes before a field; the seconds field ends the layout.
   */
  predicate WellFormed(layout: Layout)
    decreases |layout|
  {
    layout == [] || (ElemOk(layout, 0) && WellFormed(layout[1..]))
  }

  predicate ElemOk(layout: Layout, i: int)
    requires 0 <= i < |layout|
  {
    match layout[i]
    case Literal(p) => p != [] && ' ' !in p[1..] && (p == " " ==> i + 1 < |layout| && !layout[i + 1].Literal?)
    case ZeroSecond => i == |layout| - 1
    case _ => true
  }

  /** Well-formedness element by element. */
  lemma {:induction false} WellFormedByElems(layout: Layout)
    requires forall i :: 0 <= i < |layout| ==> ElemOk(layout, i)
    ensures WellFormed(layout)
    decreases |layout|
  {
    if layout != [] {
      var tail := layout[1..];
      forall i | 0 <= i < |tail| ensures ElemOk(tail, i) {
        assert ElemOk(layout, i + 1);
        assert tail[i] == layout[i + 1];
        assert i + 1 < |tail| ==> tail[i + 1] == layout[i + 2];
      }
      WellFormedByElems(tail);
    }
  }

  /** A literal that starts with a space consumes the spaces, then the rest exactly. */
  lemma SkipSpaced(q: string, rest: string)
    requires ' ' !in q
    requires q == [] ==> rest == [] || rest[0] != ' '
    ensures Skip(" " + q + rest, " " + q) == Some(rest)
  {
    var p := " " + q;
    var v := p + rest;
    var w := q + rest;
    assert p[0] == ' ' && p[1..] == q;
    assert v[0] == ' ' && v[1..] == w;
    assert CutSpace(p) == q by { assert CutSpace(p) == CutSpace(q); }
    assert CutSpace(v) == w by { assert CutSpace(v) == CutSpace(w); }
    assert Skip(v, p) == Skip(w, q);
    SkipPlain(w, q);
    assert w[|q|..] == rest;
  }

  lemma SkipLiteral(p: string, rest: string)
    requires p != [] && ' ' !in p[1..]
    requires p == " " ==> rest == [] || rest[0] != ' '
    ensures Skip(p + rest, p) == Some(rest)
  {
    if p[0] == ' ' {
      assert p == " " + p[1..];
      SkipSpaced(p[1..], rest);
    } else {
      assert ' ' !in p by { assert p == [p[0]] + p[1..]; }
      SkipPlain(p + rest, p);
      assert (p + rest)[|p|..] == rest;
    }
  }

  /** Formatted text is parsed back element by element. */
  lemma {:induction false} RunFormat(layout: Layout, t: Time, f: Fields)
    requires WellFormed(layout) && Valid(t)
    ensures Run(layout, Format(layout, t), f) == Some(Collect(layout, t, f))
    decreases |layout|
  {
    if layout != [] {
      var e := layout[0];
      var rest := Format(layout[1..], t);
      assert Format(layout, t) == Print(e, t) + rest;
      if e == Literal(" ") {
        assert rest == Print(layout[1], t) + Format(layout[2..], t) by { assert layout[1..][1..] == layout[2..]; }
      }
      StepPrint(e, t, rest, f);
      assert Step(e, Format(layout, t), f) == Some((Assign(e, t, f), rest));
      RunFormat(layout[1..], t, Assign(e, t, f));
    }
  }

  /** Which fields a layout sets from `t`; the others keep their value in `f`. */
  lemma {:induction false} CollectFields(layout: Layout, t: Time, f: Fields)
    ensures Collect(layout, t, f) == Fields(
      if LongYear in layout then t.year else f.year,
      if ZeroMonth in layout then t.month else f.month,
      if ZeroDay in layout then t.day else f.day,
      if Hour in layout then t.hour else f.hour,
      if ZeroMinute in layout then t.minute else f.minute,
      if ZeroSecond in layout then t.second else f.second,
      if ZeroSecond in layout then 0 else f.nanos)
    decreases |layout|
  {
    if layout != [] {
      CollectFields(layout[1..], t, Assign(layout[0], t, f));
      InCons(layout, LongYear);
      InCons(layout, ZeroMonth);
      InCons(layout, ZeroDay);
      InCons(layout, Hour);
      InCons(layout, ZeroMinute);
      InCons(layout, ZeroSecond);
    }
  }

  lemma InCons(layout: Layout, e: Elem)
    requires layout != []
    ensures (e in layout) == (layout[0] == e || e in layout[1..])
  {
    assert layout == [layout[0]] + layout[1..];
  }

  /** `t` has the value a field gets when its element is missing from the layout. */
  predicate Covers(layout: Layout, t: Time) {
    (LongYear in layout || t.year == 0) && (ZeroMonth in layout || t.month == 1) &&
    (ZeroDay in layout || t.day == 1) && (Hour in layout || t.hour == 0) &&
    (ZeroMinute in layout || t.minute == 0) && (ZeroSecond in layout || t.second == 0) &&
    t.nanos == 0
  }

  /** Round trip: parsing what a well-formed layout prints gives the time back. */
  lemma ParseFormat(layout: Layout, t: Time)
    requires WellFormed(layout) && Valid(t) && Covers(layout, t)
    ensures Parse(layout, Format(layout, t)) == Some(t)
  {
    RunFormat(layout, t, Unset);
    CollectFields(layout, t, Unset);
  }

  lemma {:induction false} FormatAppend(a: Layout, b: Layout, t: Time)
    requires Valid(t)
    ensures Format(a + b, t) == Format(a, t) + Format(b, t)
    decreases |a|
  {
    if a == [] {
      assert a + b == b;
    } else {
      assert (a + b)[0] == a[0] && (a + b)[1..] == a[1..] + b;
      FormatAppend(a[1..], b, t);
      assert Format(a + b, t) == Print(a[0], t) + (Format(a[1..], t) + Format(b, t));
    }
  }

  /** One element reads back what it printed, whatever follows. */
  lemma StepPrint(e: Elem, t: Time, more: string, f: Fields)
    requires Valid(t)
    requires e.Literal? ==> e.text != [] && ' ' !in e.text[1..] && (e.text == " " ==> more == [] || more[0] != ' ')
    requires e == ZeroSecond ==> more == []
    ensures Step(e, Print(e, t) + more, f) == Some((Assign(e, t, f), more))
  {
    match e {
      case Literal(p) => SkipLiteral(p, more);
      case ZeroDay => GetNumPad2(t.day, more, true);
      case ZeroMonth => GetNumPad2(t.month, more, true);
      case LongYear => StepYear(t.year, more, f);
      case Hour => GetNumPad2(t.hour, more, false);
      case ZeroMinute => GetNumPad2(t.minute, more, true);
      case ZeroSecond => GetNumPad2(t.second, more, true);
    }
  }

  lemma RunUnfold(layout: Layout, s: string, f: Fields, f': Fields, rest: string)
    requires layout != [] && Step(layout[0], s, f) == Some((f', rest))
    ensures Run(layout, s, f) == Run(layout[1..], rest, f')
  {
  }

  /** In a well-formed layout a lone space is followed by digits, never by another space. */
  lemma AfterLoneSpace(a: Layout, t: Time, rest: string)
    requires a != [] && a[0] == Literal(" ") && WellFormed(a) && Valid(t)
    ensures Format(a[1..], t) + rest != [] && (Format(a[1..], t) + rest)[0] != ' '
  {
    assert ElemOk(a, 0);
    var tail := a[1..];
    var p := Print(tail[0], t);
    assert !tail[0].Literal?;
    assert Format(tail, t) == p + Format(tail[1..], t);
    assert (p + Format(tail[1..], t) + rest)[0] == p[0];
  }

  /** The first element of a well-formed front part reads back what it printed. */
  lemma RunAppendStep(a: Layout, b: Layout, t: Time, rest: string, f: Fields)
    requires a != [] && WellFormed(a) && ZeroSecond !in a && Valid(t)
    ensures Run(a + b, Format(a, t) + rest, f) == Run(a[1..] + b, Format(a[1..], t) + rest, Assign(a[0], t, f))
  {
    var e := a[0];
    var more := Format(a[1..], t) + rest;
    assert Format(a, t) + rest == Print(e, t) + more;
    assert (a + b)[0] == e && (a + b)[1..] == a[1..] + b;
    if e == Literal(" ") {
      AfterLoneSpace(a, t, rest);
    }
    StepPrint(e, t, more, f);
    RunUnfold(a + b, Print(e, t) + more, f, Assign(e, t, f), more);
  }

  /** A well-formed front part without seconds is consumed exactly, whatever follows it. */
  lemma {:induction false} RunAppend(a: Layout, b: Layout, t: Time, rest: string, f: Fields)
    requires WellFormed(a) && ZeroSecond !in a && Valid(t)
    ensures Run(a + b, Format(a, t) + rest, f) == Run(b, rest, Collect(a, t, f))
    decreases |a|
  {
    if a == [] {
      assert a + b == b;
      assert Format(a, t) + rest == rest;
    } else {
      RunAppendStep(a, b, t, rest, f);
      assert WellFormed(a[1..]) && ZeroSecond !in a[1..];
      RunAppend(a[1..], b, t, rest, Assign(a[0], t, f));
    }
  }

  /** A layout that starts with the year accepts only input that starts with four digits. */
  lemma YearFirst(layout: Layout, s: string)
    requires layout != [] && layout[0] == LongYear && Parse(layout, s).Some?
    ensures |s| >= 4 && AllDigits(s[..4])
    ensures IsDigit(s, 0) && IsDigit(s, 1) && IsDigit(s, 2) && IsDigit(s, 3)
  {
    assert Run(layout, s, Unset).Some?;
    assert s[..4][2] == s[2] && s[..4][3] == s[3] && s[..4][1] == s[1];
  }

  /** A layout that starts with a day and a slash accepts only input with a slash at index 2. */
  lemma DaySlashFirst(layout: Layout, s: string)
    requires |layout| >= 2 && layout[0] == ZeroDay && layout[1] == Literal("/") && Parse(layout, s).Some?
    ensures |s| > 2 && s[2] == '/'
  {
    var r := GetNum(s, true);
    assert Run(layout, s, Unset).Some?;
    assert r.Some?;
    var rest := r.value.1;
    assert rest == s[2..];
    assert layout[1..][0] == Literal("/");
    assert Run(layout[1..], rest, Unset.(day := r.value.0)).Some?;
    assert Skip(rest, "/").Some?;
  }

  /** What a layout starting with the year prints has a digit at index 2. */
  lemma FormatYearFirst(layout: Layout, t: Time)
    requires layout != [] && layout[0] == LongYear && Valid(t)
    ensures IsDigit(Format(layout, t), 2)
  {
    var p := Pad4(t.year);
    assert Format(layout, t) == p + Format(layout[1..], t);
    assert (p + Format(layout[1..], t))[2] == p[2];
  }

  /** What a layout starting with a day and a slash prints has the slash at index 2. */
  lemma FormatDaySlash(layout: Layout, t: Time)
    requires |layout| >= 2 && layout[0] == ZeroDay && layout[1] == Literal("/") && Valid(t)
    ensures |Format(layout, t)| > 2 && Format(layout, t)[2] == '/'
  {
    var p := Pad2(t.day);
    var tail := layout[1..];
    assert tail[0] == Literal("/");
    assert Format(tail, t) == "/" + Format(tail[1..], t);
    assert Format(layout, t) == p + Format(tail, t);
    assert (p + ("/" + Format(tail[1..], t)))[2] == '/';
  }

  lemma Pad4Decimal(n: int)
    requires 0 <= n < 10000
    ensures Decimal(Pad4(n)) == n
  {
    var s := Pad4(n);
    assert s[..1][..0] == [];
    assert Decimal(s[..1]) == n / 1000;
    assert s[..2][..1] == s[..1];
    assert Decimal(s[..2]) == n / 100;
    assert s[..3][..2] == s[..2];
    assert Decimal(s[..3]) == n / 10;
    assert s[..4] == s;
  }

  /** Two written digits are read back by `getnum`, fixed or not. */
  lemma GetNumPad2(n: int, rest: string, fixed: bool)
    requires 0 <= n < 100
    ensures GetNum(Pad2(n) + rest, fixed) == Some((n, rest))
  {
    var s := Pad2(n) + rest;
    assert IsDigit(s, 0) && IsDigit(s, 1);
    assert s[2..] == rest;
  }

  /** A run of four written digits is read back as the year. */
  lemma StepYear(n: int, rest: string, f: Fields)
    requires 0 <= n < 10000
    ensures Step(LongYear, Pad4(n) + rest, f) == Some((f.(year := n), rest))
  {
    var s := Pad4(n) + rest;
    assert s[..4] == Pad4(n);
    assert s[4..] == rest;
    Pad4Decimal(n);
  }
}
