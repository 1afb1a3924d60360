/**
 * The `%Y-%m-%d_%H:%M:%S` timestamps embedded in backup, export and snapshot
 * names (`HeavyScript--2024-05-01_12:00:00`, `Export--2024-05-01_12:00:00`),
 * their rendering, their parsing as `datetime.strptime` does (one- or
 * two-digit fields after the year), their order, and the regular-expression search
 * `HeavyScript--\d{4}-\d{2}-\d{2}_\d{2}:\d{2}:\d{2}` used to find them inside
 * snapshot names.
 */
module Timestamps {
  import opened Wrappers
  import opened Strings
  import Sorting

  datatype Timestamp = Timestamp(year: nat, month: nat, day: nat, hour: nat, minute: nat, second: nat)

  predicate IsLeap(y: nat) { y % 4 == 0 && (y % 100 != 0 || y % 400 == 0) }

  function DaysIn(y: nat, m: nat): nat {
    if m == 2 then (if IsLeap(y) then 29 else 28)
    else if m == 4 || m == 6 || m == 9 || m == 11 then 30
    else 31
  }

  /** The values `datetime` accepts. */
  predicate Valid(t: Timestamp) {
    1 <= t.year <= 9999 && 1 <= t.month <= 12 && 1 <= t.day <= DaysIn(t.year, t.month)
    && t.hour < 24 && t.minute < 60 && t.second < 60
  }

  /** Every field fits its width. */
  predicate Fits(t: Timestamp) {
    t.year < 10000 && t.month < 100 && t.day < 100 && t.hour < 100 && t.minute < 100 && t.second < 100
  }

  /** `strftime('%Y-%m-%d_%H:%M:%S')`, four-digit year and two-digit fields. */
  function Format(t: Timestamp): (r: string)
    requires Fits(t)
    ensures |r| == 19
  {
    [DigitChar(t.year / 1000), DigitChar(t.year / 100 % 10), DigitChar(t.year / 10 % 10),
     DigitChar(t.year % 10), '-', DigitChar(t.month / 10), DigitChar(t.month % 10), '-',
     DigitChar(t.day / 10), DigitChar(t.day % 10), '_', DigitChar(t.hour / 10),
     DigitChar(t.hour % 10), ':', DigitChar(t.minute / 10), DigitChar(t.minute % 10), ':',
     DigitChar(t.second / 10), DigitChar(t.second % 10)]
  }

  /** A formatted time is made of digits and the separators `-`, `_` and `:`. */
  lemma FormatNoLetter(t: Timestamp)
    requires Fits(t)
    ensures forall k :: 0 <= k < |Format(t)| ==> Format(t)[k] <= ':' || Format(t)[k] == '_'
  {
  }

  function DigitVal(c: char): nat
    requires IsDigit(c)
  {
    c as int - '0' as int
  }

  /** The 19-character layout `dddd-dd-dd_dd:dd:dd` with ASCII digits. */
  predicate Shape(s: string) {
    |s| == 19
    && IsDigit(s[0]) && IsDigit(s[1]) && IsDigit(s[2]) && IsDigit(s[3]) && s[4] == '-'
    && IsDigit(s[5]) && IsDigit(s[6]) && s[7] == '-' && IsDigit(s[8]) && IsDigit(s[9])
    && s[10] == '_' && IsDigit(s[11]) && IsDigit(s[12]) && s[13] == ':'
    && IsDigit(s[14]) && IsDigit(s[15]) && s[16] == ':' && IsDigit(s[17]) && IsDigit(s[18])
  }

  function Fields(s: string): Timestamp
    requires Shape(s)
  {
    Timestamp(
      DigitVal(s[0]) * 1000 + DigitVal(s[1]) * 100 + DigitVal(s[2]) * 10 + DigitVal(s[3]),
      DigitVal(s[5]) * 10 + DigitVal(s[6]), DigitVal(s[8]) * 10 + DigitVal(s[9]),
      DigitVal(s[11]) * 10 + DigitVal(s[12]), DigitVal(s[14]) * 10 + DigitVal(s[15]),
      DigitVal(s[17]) * 10 + DigitVal(s[18]))
  }

  /** `%Y`: exactly four ASCII digits. */
  predicate YearText(y: string) {
    |y| == 4 && IsDigit(y[0]) && IsDigit(y[1]) && IsDigit(y[2]) && IsDigit(y[3])
  }

  function YearValue(y: string): nat
    requires YearText(y)
  {
    DigitVal(y[0]) * 1000 + DigitVal(y[1]) * 100 + DigitVal(y[2]) * 10 + DigitVal(y[3])
  }

  /** `%m`, `%H`, `%M`, `%S`: one or two ASCII digits. */
  function Number(f: string): Option<nat> {
    if |f| == 1 && IsDigit(f[0]) then Some(DigitVal(f[0]))
    else if |f| == 2 && IsDigit(f[0]) && IsDigit(f[1]) then Some(DigitVal(f[0]) * 10 + DigitVal(f[1]))
    else None
  }

  /** `%d` also reads a blank before a non-zero digit. */
  function DayNumber(f: string): Option<nat> {
    if |f| == 2 && f[0] == ' ' && IsDigit(f[1]) && f[1] != '0' then Some(DigitVal(f[1])) else Number(f)
  }

  /**
   * One field and the separator after it, from the front of `s`: two
   * characters when the second is a digit, otherwise one. The field's
   * alternatives in the `strptime` pattern end in a digit and the separators
   * are not digits, so this is the only split the pattern can match.
   */
  function Take(s: string, sep: char): Option<(string, string)> {
    if |s| >= 2 && s[1] == sep then Some((s[..1], s[2..]))
    else if |s| >= 3 && IsDigit(s[1]) && s[2] == sep then Some((s[..2], s[3..]))
    else None
  }

  /** The fields' values, kept when `datetime` accepts them. */
  function Assemble(y: string, mo: string, d: string, h: string, mi: string, se: string): (r: Option<Timestamp>)
    requires YearText(y)
    ensures r.Some? ==> Valid(r.value)
  {
    match (Number(mo), DayNumber(d), Number(h), Number(mi), Number(se))
    case (Some(vm), Some(vd), Some(vh), Some(vmi), Some(vs)) =>
      var t := Timestamp(YearValue(y), vm, vd, vh, vmi, vs);
      if Valid(t) then Some(t) else None
    case _ => None
  }

  /**
   * `datetime.strptime(s, '%Y-%m-%d_%H:%M:%S')`, `None` where it raises: the
   * fields after the year may be written with one digit or two, the day also
   * as a blank and a digit, and nothing may follow the seconds.
   */
  function Parse(s: string): (r: Option<Timestamp>)
    ensures r.Some? ==> Valid(r.value)
  {
    if |s| < 5 || !YearText(s[..4]) || s[4] != '-' then None else FromMonth(s[..4], s[5..])
  }

  /** The text after `%Y-`. */
  function FromMonth(y: string, s: string): (r: Option<Timestamp>)
    requires YearText(y)
  {
    match Take(s, '-')
    case None => None
    case Some(p) => FromDay(y, p.0, p.1)
  }

  /** The text after `%m-`. */
  function FromDay(y: string, mo: string, s: string): (r: Option<Timestamp>)
    requires YearText(y)
  {
    match Take(s, '_')
    case None => None
    case Some(p) => FromHour(y, mo, p.0, p.1)
  }

  /** The text after `%d_`. */
  function FromHour(y: string, mo: string, d: string, s: string): (r: Option<Timestamp>)
    requires YearText(y)
  {
    match Take(s, ':')
    case None => None
    case Some(p) => FromMinute(y, mo, d, p.0, p.1)
  }

  /** The text after `%H:`; all that follows `%M:` is the seconds. */
  function FromMinute(y: string, mo: string, d: string, h: string, s: string): (r: Option<Timestamp>)
    requires YearText(y)
  {
    match Take(s, ':')
    case None => None
    case Some(p) => Assemble(y, mo, d, h, p.0, p.1)
  }

  /** A field text `strptime` can read: one or two characters ending in a digit. */
  predicate FieldText(f: string) {
    1 <= |f| <= 2 && IsDigit(f[|f| - 1])
  }

  /** The text with the given field spellings in the `%Y-%m-%d_%H:%M:%S` layout. */
  function Layout(y: string, mo: string, d: string, h: string, mi: string, se: string): string {
    Sep(y, '-', Sep(mo, '-', Sep(d, '_', Sep(h, ':', Sep(mi, ':', se)))))
  }

  /** Two texts with a separator between them. */
  function Sep(a: string, c: char, b: string): string {
    a + [c] + b
  }

  lemma TakeField(f: string, sep: char, rest: string)
    requires FieldText(f) && !IsDigit(sep)
    ensures Take(Sep(f, sep, rest), sep) == Some((f, rest))
  {
    var s := Sep(f, sep, rest);
    if |f| == 1 {
      assert s[1] == sep && s[..1] == f && s[2..] == rest;
    } else {
      assert s[1] == f[1] && s[2] == sep && s[..2] == f && s[3..] == rest;
    }
  }

  /** Any spelling of the fields reads as their values. */
  lemma ParseLayout(y: string, mo: string, d: string, h: string, mi: string, se: string)
    requires YearText(y) && FieldText(mo) && FieldText(d) && FieldText(h) && FieldText(mi)
    ensures Parse(Layout(y, mo, d, h, mi, se)) == Assemble(y, mo, d, h, mi, se)
  {
    var s := Layout(y, mo, d, h, mi, se);
    var r3 := Sep(mi, ':', se);
    var r2 := Sep(h, ':', r3);
    var r1 := Sep(d, '_', r2);
    assert s[..4] == y && s[4] == '-' && s[5..] == Sep(mo, '-', r1);
    TakeField(mi, ':', se);
    TakeField(h, ':', r3);
    TakeField(d, '_', r2);
    TakeField(mo, '-', r1);
  }

  lemma TakeParts(s: string, sep: char)
    requires Take(s, sep).Some?
    ensures s == Sep(Take(s, sep).value.0, sep, Take(s, sep).value.1)
    ensures 1 <= |Take(s, sep).value.0| <= 2
  {
  }

  lemma NumberText(f: string)
    ensures Number(f).Some? ==> FieldText(f)
    ensures DayNumber(f).Some? ==> FieldText(f)
  {
  }

  lemma AssembledText(y: string, mo: string, d: string, h: string, mi: string, se: string)
    requires YearText(y) && Assemble(y, mo, d, h, mi, se).Some?
    ensures FieldText(mo) && FieldText(d) && FieldText(h) && FieldText(mi) && FieldText(se)
  {
    NumberText(mo); NumberText(d); NumberText(h); NumberText(mi); NumberText(se);
  }

  lemma FromMinuteParts(y: string, mo: string, d: string, h: string, s: string) returns (mi: string, se: string)
    requires YearText(y) && FromMinute(y, mo, d, h, s).Some?
    ensures s == Sep(mi, ':', se) && FromMinute(y, mo, d, h, s) == Assemble(y, mo, d, h, mi, se)
  {
    TakeParts(s, ':');
    mi, se := Take(s, ':').value.0, Take(s, ':').value.1;
  }

  lemma FromHourParts(y: string, mo: string, d: string, s: string) returns (h: string, mi: string, se: string)
    requires YearText(y) && FromHour(y, mo, d, s).Some?
    ensures s == Sep(h, ':', Sep(mi, ':', se)) && FromHour(y, mo, d, s) == Assemble(y, mo, d, h, mi, se)
  {
    TakeParts(s, ':');
    var rest;
    h, rest := Take(s, ':').value.0, Take(s, ':').value.1;
    mi, se := FromMinuteParts(y, mo, d, h, rest);
  }

  lemma FromDayParts(y: string, mo: string, s: string) returns (d: string, h: string, mi: string, se: string)
    requires YearText(y) && FromDay(y, mo, s).Some?
    ensures s == Sep(d, '_', Sep(h, ':', Sep(mi, ':', se))) && FromDay(y, mo, s) == Assemble(y, mo, d, h, mi, se)
  {
    TakeParts(s, '_');
    var rest;
    d, rest := Take(s, '_').value.0, Take(s, '_').value.1;
    h, mi, se := FromHourParts(y, mo, d, rest);
  }

  /** A parsed text is such a spelling: the converse of `ParseLayout`. */
  lemma ParsedLayout(s: string) returns (mo: string, d: string, h: string, mi: string, se: string)
    requires Parse(s).Some?
    ensures YearText(s[..4]) && FieldText(mo) && FieldText(d) && FieldText(h) && FieldText(mi) && FieldText(se)
    ensures s == Layout(s[..4], mo, d, h, mi, se)
    ensures Parse(s) == Assemble(s[..4], mo, d, h, mi, se)
  {
    var y := s[..4];
    TakeParts(s[5..], '-');
    var rest;
    mo, rest := Take(s[5..], '-').value.0, Take(s[5..], '-').value.1;
    d, h, mi, se := FromDayParts(y, mo, rest);
    AssembledText(y, mo, d, h, mi, se);
    assert s == Sep(y, '-', s[5..]);
  }

  lemma DigitCharVal(d: nat)
    requires d < 10
    ensures IsDigit(DigitChar(d)) && DigitVal(DigitChar(d)) == d
  {
  }

  lemma ValDigitChar(c: char)
    requires IsDigit(c)
    ensures DigitVal(c) < 10 && DigitChar(DigitVal(c)) == c
  {
  }

  lemma Split2(n: nat)
    requires n < 100
    ensures (n / 10) * 10 + n % 10 == n && n / 10 < 10
  {
  }

  lemma Split4(n: nat)
    requires n < 10000
    ensures (n / 1000) * 1000 + (n / 100 % 10) * 100 + (n / 10 % 10) * 10 + n % 10 == n
    ensures n / 1000 < 10
  {
    var a, b, c, d := n / 1000, n / 100 % 10, n / 10 % 10, n % 10;
    assert n / 100 == a * 10 + b;
    assert n / 10 == (n / 100) * 10 + c;
    assert n == (n / 10) * 10 + d;
  }

  lemma Join2(a: nat, b: nat)
    requires a < 10 && b < 10
    ensures (a * 10 + b) / 10 == a && (a * 10 + b) % 10 == b
  {
  }

  lemma Join4(a: nat, b: nat, c: nat, d: nat)
    requires a < 10 && b < 10 && c < 10 && d < 10
    ensures (a * 1000 + b * 100 + c * 10 + d) / 1000 == a
    ensures (a * 1000 + b * 100 + c * 10 + d) / 100 % 10 == b
    ensures (a * 1000 + b * 100 + c * 10 + d) / 10 % 10 == c
    ensures (a * 1000 + b * 100 + c * 10 + d) % 10 == d
  {
    var n := a * 1000 + b * 100 + c * 10 + d;
    assert n / 10 == a * 100 + b * 10 + c;
    assert n / 100 == a * 10 + b;
  }

  lemma Field2(s: string, i: nat, n: nat)
    requires n < 100 && i + 1 < |s| && s[i] == DigitChar(n / 10) && s[i + 1] == DigitChar(n % 10)
    ensures IsDigit(s[i]) && IsDigit(s[i + 1]) && DigitVal(s[i]) * 10 + DigitVal(s[i + 1]) == n
  {
    Split2(n); DigitCharVal(n / 10); DigitCharVal(n % 10);
  }

  lemma Field4(s: string, n: nat)
    requires n < 10000 && 3 < |s|
    requires s[0] == DigitChar(n / 1000) && s[1] == DigitChar(n / 100 % 10)
    requires s[2] == DigitChar(n / 10 % 10) && s[3] == DigitChar(n % 10)
    ensures IsDigit(s[0]) && IsDigit(s[1]) && IsDigit(s[2]) && IsDigit(s[3])
    ensures DigitVal(s[0]) * 1000 + DigitVal(s[1]) * 100 + DigitVal(s[2]) * 10 + DigitVal(s[3]) == n
  {
    Split4(n);
    DigitCharVal(n / 1000); DigitCharVal(n / 100 % 10); DigitCharVal(n / 10 % 10); DigitCharVal(n % 10);
  }

  /** A zero-padded text parses as the values its digits spell, when they make a date and time. */
  lemma ParseShape(s: string)
    requires Shape(s)
    ensures Parse(s) == if Valid(Fields(s)) then Some(Fields(s)) else None
  {
    var y, mo, d, h, mi, se := s[..4], s[5..7], s[8..10], s[11..13], s[14..16], s[17..19];
    assert s == Layout(y, mo, d, h, mi, se);
    ParseLayout(y, mo, d, h, mi, se);
    assert Number(mo) == Some(Fields(s).month);
    assert DayNumber(d) == Some(Fields(s).day);
    assert Number(h) == Some(Fields(s).hour);
    assert Number(mi) == Some(Fields(s).minute);
    assert Number(se) == Some(Fields(s).second);
    assert YearValue(y) == Fields(s).year;
  }

  /** Rendering then parsing gives the timestamp back. */
  lemma ParseFormat(t: Timestamp)
    requires Valid(t)
    ensures Parse(Format(t)) == Some(t)
  {
    var s := Format(t);
    FormatShape(t);
    ParseShape(s);
  }

  /** A rendering has the zero-padded layout and spells the timestamp's values. */
  lemma FormatShape(t: Timestamp)
    requires Fits(t)
    ensures Shape(Format(t)) && Fields(Format(t)) == t
  {
    var s := Format(t);
    Field4(s, t.year);
    Field2(s, 5, t.month); Field2(s, 8, t.day); Field2(s, 11, t.hour);
    Field2(s, 14, t.minute); Field2(s, 17, t.second);
  }

  lemma Unfield2(a: char, b: char)
    requires IsDigit(a) && IsDigit(b)
    ensures DigitVal(a) * 10 + DigitVal(b) < 100
    ensures DigitChar((DigitVal(a) * 10 + DigitVal(b)) / 10) == a
    ensures DigitChar((DigitVal(a) * 10 + DigitVal(b)) % 10) == b
  {
    ValDigitChar(a); ValDigitChar(b); Join2(DigitVal(a), DigitVal(b));
  }

  lemma Unfield4(a: char, b: char, c: char, d: char)
    requires IsDigit(a) && IsDigit(b) && IsDigit(c) && IsDigit(d)
    ensures var n := DigitVal(a) * 1000 + DigitVal(b) * 100 + DigitVal(c) * 10 + DigitVal(d);
      n < 10000 && DigitChar(n / 1000) == a && DigitChar(n / 100 % 10) == b
      && DigitChar(n / 10 % 10) == c && DigitChar(n % 10) == d
  {
    ValDigitChar(a); ValDigitChar(b); ValDigitChar(c); ValDigitChar(d);
    Join4(DigitVal(a), DigitVal(b), DigitVal(c), DigitVal(d));
  }

  /** The zero-padded layout renders back to itself. */
  lemma ShapeFormat(s: string)
    requires Shape(s)
    ensures Fits(Fields(s)) && Format(Fields(s)) == s
  {
    var t := Fields(s);
    Unfield4(s[0], s[1], s[2], s[3]);
    Unfield2(s[5], s[6]); Unfield2(s[8], s[9]); Unfield2(s[11], s[12]);
    Unfield2(s[14], s[15]); Unfield2(s[17], s[18]);
    var y := DigitVal(s[0]) * 1000 + DigitVal(s[1]) * 100 + DigitVal(s[2]) * 10 + DigitVal(s[3]);
    var mo, d := DigitVal(s[5]) * 10 + DigitVal(s[6]), DigitVal(s[8]) * 10 + DigitVal(s[9]);
    var h, mi := DigitVal(s[11]) * 10 + DigitVal(s[12]), DigitVal(s[14]) * 10 + DigitVal(s[15]);
    var se := DigitVal(s[17]) * 10 + DigitVal(s[18]);
    assert t == Timestamp(y, mo, d, h, mi, se);
    assert Fits(t);
    var r := Format(t);
    assert r == [s[0], s[1], s[2], s[3], '-', s[5], s[6], '-', s[8], s[9], '_',
                 s[11], s[12], ':', s[14], s[15], ':', s[17], s[18]];
    assert s == [s[0], s[1], s[2], s[3], s[4], s[5], s[6], s[7], s[8], s[9], s[10],
                 s[11], s[12], s[13], s[14], s[15], s[16], s[17], s[18]];
  }

  /**
   * Parsing then rendering gives the text back exactly when it is written in
   * the zero-padded layout: `strptime` also reads other spellings of the same
   * time, which render differently.
   */
  lemma FormatParse(s: string, t: Timestamp)
    requires Parse(s) == Some(t)
    ensures Format(t) == s <==> Shape(s)
  {
    FormatShape(t);
    if Shape(s) {
      ParseShape(s);
      ShapeFormat(s);
    }
  }

  /** Leading zeros may be left out for the same time. */
  lemma UnpaddedMonth()
    ensures Parse("2024-1-05_12:00:00") == Some(Timestamp(2024, 1, 5, 12, 0, 0))
  {
    assert Layout("2024", "1", "05", "12", "00", "00") == "2024-1-05_12:00:00" by {
      assert Sep("00", ':', "00") == "00:00";
      assert Sep("12", ':', "00:00") == "12:00:00";
      assert Sep("05", '_', "12:00:00") == "05_12:00:00";
      assert Sep("1", '-', "05_12:00:00") == "1-05_12:00:00";
    }
    assert Assemble("2024", "1", "05", "12", "00", "00") == Some(Timestamp(2024, 1, 5, 12, 0, 0));
    ParseLayout("2024", "1", "05", "12", "00", "00");
  }

  /** The day may be written with a blank, and the time fields with one digit. */
  lemma BlankDay()
    ensures Parse("2024-01- 5_1:2:3") == Some(Timestamp(2024, 1, 5, 1, 2, 3))
  {
    assert Layout("2024", "01", " 5", "1", "2", "3") == "2024-01- 5_1:2:3" by {
      assert Sep("2", ':', "3") == "2:3";
      assert Sep("1", ':', "2:3") == "1:2:3";
      assert Sep(" 5", '_', "1:2:3") == " 5_1:2:3";
      assert Sep("01", '-', " 5_1:2:3") == "01- 5_1:2:3";
    }
    assert Assemble("2024", "01", " 5", "1", "2", "3") == Some(Timestamp(2024, 1, 5, 1, 2, 3));
    ParseLayout("2024", "01", " 5", "1", "2", "3");
  }

  /** A field of three digits is refused. */
  lemma LongFieldRefused()
    ensures Parse("2024-001-05_12:00:00").None?
  {
    var bad := "2024-001-05_12:00:00";
    assert bad[..4] == "2024" && bad[4] == '-';
    assert bad[5..] == "001-05_12:00:00";
    assert Take(bad[5..], '-').None?;
  }

  /** Nothing may follow the seconds. */
  lemma TrailingRefused()
    ensures Parse("2024-01-05_12:00:00 ").None?
  {
    assert Layout("2024", "01", "05", "12", "00", "00 ") == "2024-01-05_12:00:00 " by {
      assert Sep("00", ':', "00 ") == "00:00 ";
      assert Sep("12", ':', "00:00 ") == "12:00:00 ";
      assert Sep("05", '_', "12:00:00 ") == "05_12:00:00 ";
      assert Sep("01", '-', "05_12:00:00 ") == "01-05_12:00:00 ";
    }
    assert Number("00 ").None?;
    ParseLayout("2024", "01", "05", "12", "00", "00 ");
  }

  /** Each field written at its shortest, as `str(n)` gives it. */
  function Short(n: nat): string
    requires n < 100
  {
    if n < 10 then [DigitChar(n)] else [DigitChar(n / 10), DigitChar(n % 10)]
  }

  lemma NumberShort(n: nat)
    requires n < 100
    ensures FieldText(Short(n)) && Number(Short(n)) == Some(n) && DayNumber(Short(n)) == Some(n)
  {
    DigitCharVal(n % 10);
    if n >= 10 {
      Split2(n); DigitCharVal(n / 10);
    }
  }

  /** A timestamp written without leading zeros reads back as itself. */
  lemma ParseShort(t: Timestamp)
    requires Valid(t)
    ensures Parse(Layout(Format(t)[..4], Short(t.month), Short(t.day), Short(t.hour), Short(t.minute), Short(t.second))) == Some(t)
  {
    var y := Format(t)[..4];
    FormatShape(t);
    assert YearText(y) && YearValue(y) == t.year;
    NumberShort(t.month); NumberShort(t.day); NumberShort(t.hour); NumberShort(t.minute); NumberShort(t.second);
    ParseLayout(y, Short(t.month), Short(t.day), Short(t.hour), Short(t.minute), Short(t.second));
  }

  /** Chronological order (lexicographic on the fields). */
  predicate Le(a: Timestamp, b: Timestamp) {
    if a.year != b.year then a.year < b.year
    else if a.month != b.month then a.month < b.month
    else if a.day != b.day then a.day < b.day
    else if a.hour != b.hour then a.hour < b.hour
    else if a.minute != b.minute then a.minute < b.minute
    else a.second <= b.second
  }

  lemma LeOrder()
    ensures Sorting.TotalPreorder(Le)
    ensures forall a, b :: Le(a, b) && Le(b, a) ==> a == b
  {
  }

  /** The literal part of every backup and snapshot name. */
  const Prefix: string := "HeavyScript--"

  /** The regular expression matches at `i`: the literal prefix followed by a 19-character timestamp layout. */
  predicate TokenAt(s: string, i: int) {
    0 <= i && i + 32 <= |s| && s[i..i + 13] == Prefix && Shape(s[i + 13..i + 32])
  }

  /** The leftmost match at or after `k`, as `re.search` finds it. */
  function SearchFrom(s: string, k: nat): (r: Option<nat>)
    ensures r.Some? ==> k <= r.value && TokenAt(s, r.value)
                        && forall j :: k <= j < r.value ==> !TokenAt(s, j)
    ensures r.None? ==> forall j :: k <= j ==> !TokenAt(s, j)
    decreases |s| - k
  {
    if k + 32 > |s| then None
    else if TokenAt(s, k) then Some(k)
    else SearchFrom(s, k + 1)
  }

  /**
   * `datetime.strptime(re.search(pattern, s).group(), 'HeavyScript--%Y-%m-%d_%H:%M:%S')`:
   * `None` when there is no match (the `.group()` call raises) or the matched fields are not a date.
   */
  function EmbeddedTimestamp(s: string): Option<Timestamp> {
    match SearchFrom(s, 0)
    case None => None
    case Some(i) => Parse(s[i + 13..i + 32])
  }

  /** A name built as `HeavyScript--` + rendered timestamp carries that timestamp. */
  lemma EmbeddedOfName(head: string, t: Timestamp)
    requires Valid(t)
    requires forall j :: 0 <= j < |head| ==> !TokenAt(head + Prefix + Format(t), j)
    ensures EmbeddedTimestamp(head + Prefix + Format(t)) == Some(t)
  {
    var f := Format(t);
    FormatShape(t);
    ParseFormat(t);
    SpliceToken(head, f);
    FirstMatch(head + Prefix + f, |head|);
  }

  /** `head` + `HeavyScript--` + a timestamp-shaped text has a match right after `head`. */
  lemma SpliceToken(head: string, f: string)
    requires Shape(f)
    ensures var s := head + Prefix + f; TokenAt(s, |head|) && s[|head| + 13..|head| + 32] == f
  {
    var s := head + Prefix + f;
    var i := |head|;
    assert s[i..i + 13] == Prefix;
    assert s[i + 13..i + 32] == f;
  }

  /** The search stops at the first match. */
  lemma FirstMatch(s: string, i: nat)
    requires TokenAt(s, i) && forall j :: 0 <= j < i ==> !TokenAt(s, j)
    ensures EmbeddedTimestamp(s) == Parse(s[i + 13..i + 32])
  {
    var r := SearchFrom(s, 0);
    assert r.Some? && r.value == i;
  }
}
