/** `datetime.strptime` for the two fixed patterns the normaliser uses:
    `%Y-%m-%d-%H;%M;%S` for publication dates and `%Y-%m-%d-%H:%M:%S` for
    modification dates. The only difference is the character between the time
    fields, so both are one parser with that character as a parameter.

    A field is accepted exactly when CPython's `_strptime` regular expression
    for it accepts it: `%Y` is four digits; `%m`, `%H`, `%M` and `%S` are one or
    two digits (`%m` 1..12, `%H` 0..23, `%M` 0..59, `%S` 0..61); `%d` is one or
    two digits in 1..31 or a space followed by a digit 1..9. The whole string
    must be consumed. The parsed values must then form a real `datetime`
    (year at least 1, the day within its month, seconds below 60), otherwise
    `ValueError` is raised, as it is for any text that does not match. */
module Dates {
  import opened Values
  import opened Decimal

  predicate IsLeapYear(y: int)
  {
    y % 4 == 0 && (y % 100 != 0 || y % 400 == 0)
  }

  function DaysInMonth(y: int, m: int): (n: int)
    requires 1 <= m <= 12
    ensures 28 <= n <= 31
    ensures m == 2 ==> (n == 29 <==> IsLeapYear(y))
  {
    if m == 2 then (if IsLeapYear(y) then 29 else 28)
    else if m == 4 || m == 6 || m == 9 || m == 11 then 30
    else 31
  }

  /** The range checks of Python's `datetime` constructor. */
  predicate ValidDateTime(dt: DateTime): (r: bool)
    ensures r ==> 1 <= dt.day <= 31
    ensures r && dt.month == 2 && dt.day == 29 ==> IsLeapYear(dt.year)
  {
    1 <= dt.year <= 9999 && 1 <= dt.month <= 12 &&
    1 <= dt.day <= DaysInMonth(dt.year, dt.month) &&
    0 <= dt.hour <= 23 && 0 <= dt.minute <= 59 && 0 <= dt.second <= 59
  }

  /** A character that may separate the time fields: never part of a field. */
  predicate Separator(c: char)
  {
    !IsDigit(c) && c != ' ' && c != '-'
  }

  predicate ShortNumber(t: string, lo: nat, hi: nat)
  {
    1 <= |t| <= 2 && AllDigits(t) && lo <= Number(t) <= hi
  }

  predicate YearText(t: string)   { |t| == 4 && AllDigits(t) }
  predicate MonthText(t: string)  { ShortNumber(t, 1, 12) }
  predicate DayText(t: string)
  {
    ShortNumber(t, 1, 31) || (|t| == 2 && t[0] == ' ' && IsDigit(t[1]) && t[1] != '0')
  }
  predicate HourText(t: string)   { ShortNumber(t, 0, 23) }
  predicate MinuteText(t: string) { ShortNumber(t, 0, 59) }
  predicate SecondText(t: string) { ShortNumber(t, 0, 61) }

  predicate FieldTexts(y: string, mo: string, d: string, h: string, mi: string, se: string)
  {
    YearText(y) && MonthText(mo) && DayText(d) && HourText(h) && MinuteText(mi) && SecondText(se)
  }

  /** `int(t)` of an accepted field (a leading space is ignored). */
  function FieldValue(t: string): nat
    requires AllDigits(t) || (|t| == 2 && t[0] == ' ' && IsDigit(t[1]))
  {
    if |t| > 0 && t[0] == ' ' then Number(t[1..]) else Number(t)
  }

  /** `a`, then the separator `c`, then `b`. */
  function Join(a: string, c: char, b: string): string
  {
    a + [c] + b
  }

  /** The text laid out as the pattern lays it out:
      `y-mo-d-h` then `mi` and `se`, each after `sep`. */
  function Layout(y: string, mo: string, d: string, h: string, mi: string, se: string, sep: char): string
  {
    Join(y, '-', Join(mo, '-', Join(d, '-', Join(h, sep, Join(mi, sep, se)))))
  }

  function FieldsDateTime(y: string, mo: string, d: string, h: string, mi: string, se: string): DateTime
    requires FieldTexts(y, mo, d, h, mi, se)
  {
    DateTime(FieldValue(y), FieldValue(mo), FieldValue(d), FieldValue(h), FieldValue(mi), FieldValue(se))
  }

  /** What the pattern accepts, stated without any parsing strategy: `s` is
      laid out from accepted field texts, and those fields denote the valid
      timestamp `dt`. */
  ghost predicate Matches(s: string, sep: char, dt: DateTime)
  {
    ValidDateTime(dt) &&
    exists y, mo, d, h, mi, se ::
      Layout(y, mo, d, h, mi, se, sep) == s && FieldTexts(y, mo, d, h, mi, se) &&
      FieldsDateTime(y, mo, d, h, mi, se) == dt
  }

  /** `s` cut at the first occurrence of `c`. */
  function Cut(s: string, c: char): (r: Option<(string, string)>)
    ensures r.Some? ==> |r.value.0| + 1 + |r.value.1| == |s|
  {
    if s == [] then None
    else if s[0] == c then Some(([], s[1..]))
    else
      match Cut(s[1..], c)
      case None => None
      case Some(p) => Some(([s[0]] + p.0, p.1))
  }

  /** The cut is at the first `c`: the text is the part before it, `c` and
      the rest; and there is no cut when `c` does not occur. */
  lemma {:induction false} CutSplits(s: string, c: char)
    ensures var r := Cut(s, c);
            (r.Some? ==> c !in r.value.0 && s == r.value.0 + [c] + r.value.1) &&
            (r.None? ==> c !in s)
  {
    if s != [] && s[0] != c {
      CutSplits(s[1..], c);
      assert s == [s[0]] + s[1..];
    }
  }

  lemma {:induction false} CutAt(a: string, c: char, b: string)
    requires c !in a
    ensures Cut(a + [c] + b, c) == Some((a, b))
  {
    var s := a + [c] + b;
    if a == [] {
      assert s[0] == c && s[1..] == b;
    } else {
      assert s[0] == a[0] != c;
      assert s[1..] == a[1..] + [c] + b;
      CutAt(a[1..], c, b);
      assert [a[0]] + a[1..] == a;
    }
  }

  /** `s` cut at each separator of `seps` in turn: the piece before each
      one, then what follows the last. */
  function Split(s: string, seps: seq<char>): (r: Option<seq<string>>)
    ensures r.Some? ==> |r.value| == |seps| + 1
    decreases |seps|
  {
    if seps == [] then Some([s])
    else
      match Cut(s, seps[0])
      case None => None
      case Some(p) =>
        match Split(p.1, seps[1..])
        case None => None
        case Some(rest) => Some([p.0] + rest)
  }

  /** The pattern's separators, in order. */
  function Separators(sep: char): seq<char>
  {
    ['-', '-', '-', sep, sep]
  }

  /** The parse itself: cut at the five separators, check each field, build
      the timestamp. */
  function Parse(s: string, sep: char): (r: Result<DateTime>)
    ensures r.Ok? ==> ValidDateTime(r.value)
    ensures r.Err? ==> r.error == ValueError
  {
    match Split(s, Separators(sep))
    case None => Err(ValueError)
    case Some(f) =>
      if FieldTexts(f[0], f[1], f[2], f[3], f[4], f[5]) then
        var dt := FieldsDateTime(f[0], f[1], f[2], f[3], f[4], f[5]);
        if ValidDateTime(dt) then Ok(dt) else Err(ValueError)
      else Err(ValueError)
  }

  /** Text laid out with the pattern's separators, none of them inside the
      field before it, splits back into its fields. */
  lemma SplitLayout(y: string, mo: string, d: string, h: string, mi: string, se: string, sep: char)
    requires '-' !in y && '-' !in mo && '-' !in d && sep !in h && sep !in mi
    ensures Split(Layout(y, mo, d, h, mi, se, sep), Separators(sep)) == Some([y, mo, d, h, mi, se])
  {
    var seps := Separators(sep);
    var r4 := Join(mi, sep, se);
    var r3 := Join(h, sep, r4);
    var r2 := Join(d, '-', r3);
    var r1 := Join(mo, '-', r2);
    CutAt(mi, sep, se);
    CutAt(h, sep, r4);
    CutAt(d, '-', r3);
    CutAt(mo, '-', r2);
    CutAt(y, '-', r1);
    SeparatorsTails(sep);
    var f5 := [se];
    var f4 := [mi] + f5;
    var f3 := [h] + f4;
    var f2 := [d] + f3;
    var f1 := [mo] + f2;
    SplitStep(se, [], []);
    SplitStep(r4, seps[4..], f5);
    SplitStep(r3, seps[3..], f4);
    SplitStep(r2, seps[2..], f3);
    SplitStep(r1, seps[1..], f2);
    SplitStep(Layout(y, mo, d, h, mi, se, sep), seps, f1);
    assert [y] + f1 == [y, mo, d, h, mi, se];
  }

  lemma SeparatorsTails(sep: char)
    ensures var seps := Separators(sep);
            seps[0] == seps[1] == seps[2] == '-' && seps[3] == seps[4] == sep &&
            seps[1..][0] == '-' && seps[2..][0] == '-' && seps[3..][0] == sep && seps[4..][0] == sep &&
            seps[4..][1..] == [] && seps[3..][1..] == seps[4..] &&
            seps[2..][1..] == seps[3..] && seps[1..][1..] == seps[2..]
  {
  }

  /** One layer of the split: what the first cut leaves splits into `rest`. */
  lemma SplitStep(s: string, seps: seq<char>, rest: seq<string>)
    requires seps != [] ==> Cut(s, seps[0]).Some? && Split(Cut(s, seps[0]).value.1, seps[1..]) == Some(rest)
    ensures seps != [] ==> Split(s, seps) == Some([Cut(s, seps[0]).value.0] + rest)
    ensures seps == [] ==> Split(s, seps) == Some([s])
  {
  }

  /** A split that succeeds took its first piece by a cut, and what the
      cut left split as well. */
  lemma SplitCons(s: string, seps: seq<char>)
    requires seps != [] && Split(s, seps).Some?
    ensures Cut(s, seps[0]).Some? && Split(Cut(s, seps[0]).value.1, seps[1..]).Some?
    ensures Split(s, seps).value == [Cut(s, seps[0]).value.0] + Split(Cut(s, seps[0]).value.1, seps[1..]).value
  {
  }

  /** Whatever splits was laid out from its pieces, with no separator in
      the piece before it. */
  lemma SplitSound(s: string, sep: char)
    requires Split(s, Separators(sep)).Some?
    ensures var f := Split(s, Separators(sep)).value;
            s == Layout(f[0], f[1], f[2], f[3], f[4], f[5], sep) &&
            '-' !in f[0] && '-' !in f[1] && '-' !in f[2] && sep !in f[3] && sep !in f[4]
  {
    var seps := Separators(sep);
    SeparatorsTails(sep);
    SplitCons(s, seps);
    var p1 := Cut(s, '-').value;
    SplitCons(p1.1, seps[1..]);
    var p2 := Cut(p1.1, '-').value;
    SplitCons(p2.1, seps[2..]);
    var p3 := Cut(p2.1, '-').value;
    SplitCons(p3.1, seps[3..]);
    var p4 := Cut(p3.1, sep).value;
    SplitCons(p4.1, seps[4..]);
    var p5 := Cut(p4.1, sep).value;
    assert Split(p5.1, seps[4..][1..]) == Some([p5.1]);
    CutSplits(s, '-');
    CutSplits(p1.1, '-');
    CutSplits(p2.1, '-');
    CutSplits(p3.1, sep);
    CutSplits(p4.1, sep);
    var f := Split(s, seps).value;
    assert f == [p1.0] + ([p2.0] + ([p3.0] + ([p4.0] + ([p5.0] + [p5.1]))));
    assert f[0] == p1.0 && f[1] == p2.0 && f[2] == p3.0 && f[3] == p4.0 && f[4] == p5.0 && f[5] == p5.1;
  }

  lemma TextAvoids(t: string, c: char)
    requires AllDigits(t) || (|t| == 2 && t[0] == ' ' && IsDigit(t[1]))
    requires !IsDigit(c) && c != ' '
    ensures c !in t
  {
    if c in t {
      var k :| 0 <= k < |t| && t[k] == c;
    }
  }

  /** Parsing is sound: whatever it yields matches the pattern. */
  lemma ParseSound(s: string, sep: char)
    requires Parse(s, sep).Ok?
    ensures Matches(s, sep, Parse(s, sep).value)
  {
    SplitSound(s, sep);
    var f := Split(s, Separators(sep)).value;
    assert FieldTexts(f[0], f[1], f[2], f[3], f[4], f[5]);
    assert FieldsDateTime(f[0], f[1], f[2], f[3], f[4], f[5]) == Parse(s, sep).value;
  }

  /** Parsing text laid out with the right separators comes down to checking
      its fields. */
  lemma ParseLayout(y: string, mo: string, d: string, h: string, mi: string, se: string, sep: char, s: string)
    requires s == Layout(y, mo, d, h, mi, se, sep)
    requires '-' !in y && '-' !in mo && '-' !in d && sep !in h && sep !in mi
    ensures Parse(s, sep) ==
            if FieldTexts(y, mo, d, h, mi, se) && ValidDateTime(FieldsDateTime(y, mo, d, h, mi, se))
            then Ok(FieldsDateTime(y, mo, d, h, mi, se)) else Err(ValueError)
  {
    SplitLayout(y, mo, d, h, mi, se, sep);
  }

  /** Parsing is complete: every text the pattern describes parses, to the
      timestamp its fields denote. */
  lemma ParseComplete(y: string, mo: string, d: string, h: string, mi: string, se: string, sep: char)
    requires Separator(sep) && FieldTexts(y, mo, d, h, mi, se)
    requires ValidDateTime(FieldsDateTime(y, mo, d, h, mi, se))
    ensures Parse(Layout(y, mo, d, h, mi, se, sep), sep) == Ok(FieldsDateTime(y, mo, d, h, mi, se))
  {
    TextAvoids(y, '-');
    TextAvoids(mo, '-');
    TextAvoids(d, '-');
    TextAvoids(h, sep);
    TextAvoids(mi, sep);
    ParseLayout(y, mo, d, h, mi, se, sep, Layout(y, mo, d, h, mi, se, sep));
  }

  /** The parser accepts exactly what the pattern describes: it yields `dt`
      precisely when `s` matches the pattern with value `dt`. */
  lemma ParseExact(s: string, sep: char, dt: DateTime)
    requires Separator(sep)
    ensures Parse(s, sep) == Ok(dt) <==> Matches(s, sep, dt)
  {
    if Parse(s, sep) == Ok(dt) {
      ParseSound(s, sep);
    }
    if Matches(s, sep, dt) {
      var y, mo, d, h, mi, se :| Layout(y, mo, d, h, mi, se, sep) == s && FieldTexts(y, mo, d, h, mi, se) &&
                                 FieldsDateTime(y, mo, d, h, mi, se) == dt;
      ParseComplete(y, mo, d, h, mi, se, sep);
    }
  }

  /** The canonical rendering of a timestamp in the pattern, every field
      zero-padded. */
  function Render(dt: DateTime, sep: char): (s: string)
    requires ValidDateTime(dt)
  {
    Layout(Pad4(dt.year), Pad2(dt.month), Pad2(dt.day), Pad2(dt.hour), Pad2(dt.minute), Pad2(dt.second), sep)
  }

  /** Round trip: every valid timestamp, rendered in the pattern, parses back
      to itself. */
  lemma ParseRender(dt: DateTime, sep: char)
    requires ValidDateTime(dt) && Separator(sep)
    ensures Parse(Render(dt, sep), sep) == Ok(dt)
  {
    var y, mo, d := Pad4(dt.year), Pad2(dt.month), Pad2(dt.day);
    var h, mi, se := Pad2(dt.hour), Pad2(dt.minute), Pad2(dt.second);
    assert d[0] != ' ';
    assert FieldTexts(y, mo, d, h, mi, se);
    assert FieldsDateTime(y, mo, d, h, mi, se) == dt;
    ParseExact(Render(dt, sep), sep, dt);
  }

  /** `strptime(v, pattern)`: a value that is not a string raises `TypeError`. */
  function Strptime(v: Value, sep: char): (r: Result<DateTime>)
    ensures !v.Str? ==> r == Err(TypeError)
    ensures v.Str? ==> r == Parse(v.s, sep)
  {
    if v.Str? then Parse(v.s, sep) else Err(TypeError)
  }

  const PublicationSeparator: char := ';'
  const ModificationSeparator: char := ':'

  lemma PublicationFields()
    ensures FieldTexts("2024", "01", "01", "10", "00", "00")
    ensures FieldsDateTime("2024", "01", "01", "10", "00", "00") == DateTime(2024, 1, 1, 10, 0, 0)
  {
    NumberOfFour("2024");
    NumberOfTwo("01");
    NumberOfTwo("10");
    NumberOfTwo("00");
  }

  lemma ShortFields()
    ensures FieldTexts("2024", "1", " 2", "3", "4", "5")
    ensures FieldsDateTime("2024", "1", " 2", "3", "4", "5") == DateTime(2024, 1, 2, 3, 4, 5)
    ensures !HourText(" 3")
  {
    NumberOfFour("2024");
    NumberOfOne("1");
    NumberOfOne("2");
    NumberOfOne("3");
    NumberOfOne("4");
    NumberOfOne("5");
  }

  lemma CommonYearFields()
    ensures FieldTexts("2023", "02", "29", "10", "00", "00")
    ensures FieldsDateTime("2023", "02", "29", "10", "00", "00") == DateTime(2023, 2, 29, 10, 0, 0)
  {
    NumberOfFour("2023");
    NumberOfTwo("02");
    NumberOfTwo("29");
    NumberOfTwo("10");
    NumberOfTwo("00");
  }

  lemma LeapSecondFields()
    ensures FieldTexts("2023", "02", "28", "10", "00", "60")
    ensures FieldsDateTime("2023", "02", "28", "10", "00", "60") == DateTime(2023, 2, 28, 10, 0, 60)
  {
    NumberOfFour("2023");
    NumberOfTwo("02");
    NumberOfTwo("28");
    NumberOfTwo("10");
    NumberOfTwo("00");
    NumberOfTwo("60");
  }

  /** The expressions' bounds: seconds up to 61 pass (the timestamp check
      then rejects 60 and 61), and there is no month 0 or 13. */
  lemma FieldBounds()
    ensures SecondText("60") && SecondText("61") && !SecondText("62")
    ensures !MonthText("0") && !MonthText("00") && !MonthText("13")
  {
    NumberOfTwo("60");
    NumberOfTwo("61");
    NumberOfTwo("62");
    NumberOfTwo("13");
    NumberOfTwo("00");
    NumberOfOne("0");
  }

  /** The sample publication date of the article feed parses. (Sample texts
      are parameters so that the verifier does not evaluate the parser on a
      literal by unfolding it.) */
  lemma PublicationSample(s: string)
    requires s == "2024-01-01-10;00;00"
    ensures Parse(s, PublicationSeparator) == Ok(DateTime(2024, 1, 1, 10, 0, 0))
  {
    PublicationFields();
    ParseLayout("2024", "01", "01", "10", "00", "00", ';', s);
  }

  /** One-digit fields, and a day written as a space and a digit, are
      accepted as `strptime` accepts them: the model is no stricter there. */
  lemma ShortFieldsSample(s: string)
    requires s == "2024-1- 2-3;4;5"
    ensures Parse(s, PublicationSeparator) == Ok(DateTime(2024, 1, 2, 3, 4, 5))
  {
    ShortFields();
    ParseLayout("2024", "1", " 2", "3", "4", "5", ';', s);
  }

  /** Only the day may be written with a leading space. */
  lemma SpacedHourSample(s: string)
    requires s == "2024-1-2- 3;4;5"
    ensures Parse(s, PublicationSeparator) == Err(ValueError)
  {
    ShortFields();
    ParseLayout("2024", "1", "2", " 3", "4", "5", ';', s);
  }

  /** Text without the pattern's time separator never parses. */
  lemma ParseNeedsSeparator(s: string, sep: char)
    requires sep !in s
    ensures Parse(s, sep) == Err(ValueError)
  {
    if Split(s, Separators(sep)).Some? {
      SplitSound(s, sep);
    }
  }

  /** The modification pattern takes colons between the time fields. */
  lemma ModificationSample(s: string)
    requires s == "2024-01-01-10:00:00"
    ensures Parse(s, ModificationSeparator) == Ok(DateTime(2024, 1, 1, 10, 0, 0))
  {
    PublicationFields();
    ParseLayout("2024", "01", "01", "10", "00", "00", ':', s);
  }

  /** A modification-style date is a `ValueError` under the publication
      pattern. */
  lemma SeparatorMismatchSample(s: string)
    requires s == "2024-01-01-10:00:00"
    ensures Parse(s, PublicationSeparator) == Err(ValueError)
  {
    ParseNeedsSeparator(s, ';');
  }

  /** The 29th of February of a common year is a `ValueError`. */
  lemma CommonYearSample(s: string)
    requires s == "2023-02-29-10;00;00"
    ensures Parse(s, PublicationSeparator) == Err(ValueError)
  {
    assert s == Layout("2023", "02", "29", "10", "00", "00", ';');
    assert !ValidDateTime(FieldsDateTime("2023", "02", "29", "10", "00", "00")) by {
      CommonYearFields();
    }
    ParseLayout("2023", "02", "29", "10", "00", "00", ';', s);
  }

  /** Second 60 passes the field expression but not the timestamp check. */
  lemma LeapSecondSample(s: string)
    requires s == "2023-02-28-10;00;60"
    ensures Parse(s, PublicationSeparator) == Err(ValueError)
  {
    assert s == Layout("2023", "02", "28", "10", "00", "60", ';');
    assert !ValidDateTime(FieldsDateTime("2023", "02", "28", "10", "00", "60")) by {
      LeapSecondFields();
    }
    ParseLayout("2023", "02", "28", "10", "00", "60", ';', s);
  }
}
