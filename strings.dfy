/**
 * String operations the program relies on, with Python's meaning:
 * `startswith`, `endswith`, `in` on strings, `split(c)`, `c.join(...)`,
 * `replace(old, new)`, `strip()` and `lower()` (the last two on the characters
 * that decide a "yes" answer), decimal rendering of integers and `int(s)` on decimal literals.
 */
module Strings {
  import opened Wrappers

  predicate StartsWith(s: string, p: string) { |p| <= |s| && s[..|p|] == p }

  predicate EndsWith(s: string, p: string) { |p| <= |s| && s[|s| - |p|..] == p }

  /** `sub` occurs in `s` at index `i`. */
  predicate OccursAt(s: string, sub: string, i: int) {
    0 <= i && i + |sub| <= |s| && s[i..i + |sub|] == sub
  }

  /** Python's `sub in s`. */
  predicate Contains(s: string, sub: string) {
    exists i | 0 <= i <= |s| :: OccursAt(s, sub, i)
  }

  lemma PrefixOccurs(s: string, p: string)
    requires StartsWith(s, p)
    ensures Contains(s, p)
  {
    assert OccursAt(s, p, 0);
  }

  lemma OccursInSuffix(s: string, sub: string, i: int, k: nat)
    requires k <= |s| && OccursAt(s[k..], sub, i)
    ensures OccursAt(s, sub, i + k)
  {
    assert s[i + k..i + k + |sub|] == s[k..][i..i + |sub|];
  }

  lemma OccursInAppendLeft(a: string, b: string, sub: string, i: int)
    requires OccursAt(b, sub, i)
    ensures OccursAt(a + b, sub, |a| + i)
  {
    assert (a + b)[|a| + i..|a| + i + |sub|] == b[i..i + |sub|];
  }

  lemma OccursInAppendRight(a: string, b: string, sub: string, i: int)
    requires OccursAt(a, sub, i)
    ensures OccursAt(a + b, sub, i)
  {
    assert (a + b)[i..i + |sub|] == a[i..i + |sub|];
  }

  /** `sub in s`, searched from the left. */
  function Finds(s: string, sub: string): bool
    decreases |s|
  {
    if |s| < |sub| then false
    else s[..|sub|] == sub || Finds(s[1..], sub)
  }

  /** The search finds exactly the substrings `Contains` describes. */
  lemma {:induction false} FindsContains(s: string, sub: string)
    ensures Finds(s, sub) == Contains(s, sub)
    decreases |s|
  {
    if |s| < |sub| {
      assert !Contains(s, sub);
    } else if s[..|sub|] == sub {
      assert OccursAt(s, sub, 0);
    } else {
      FindsContains(s[1..], sub);
      if Contains(s[1..], sub) {
        var i :| 0 <= i <= |s[1..]| && OccursAt(s[1..], sub, i);
        OccursInSuffix(s, sub, i, 1);
      }
      if Contains(s, sub) {
        var i :| 0 <= i <= |s| && OccursAt(s, sub, i);
        assert i != 0;
        assert s[1..][i - 1..i - 1 + |sub|] == s[i..i + |sub|];
        assert OccursAt(s[1..], sub, i - 1);
      }
    }
  }

  /** Python's `s.split(c)` for a single-character separator: never empty, and "" splits to [""]. */
  function Split(s: string, c: char): (r: seq<string>)
    ensures |r| >= 1
    ensures forall k :: 0 <= k < |r| ==> c !in r[k]
    decreases |s|
  {
    if s == [] then [""]
    else if s[0] == c then [""] + Split(s[1..], c)
    else
      var rest := Split(s[1..], c);
      [[s[0]] + rest[0]] + rest[1..]
  }

  /** The first piece of a split is the text up to the first separator, or all of it. */
  lemma {:induction false} SplitFirst(s: string, c: char)
    ensures var f := Split(s, c)[0]; f <= s && (|f| == |s| || s[|f|] == c)
    decreases |s|
  {
    if s != [] && s[0] != c {
      SplitFirst(s[1..], c);
      var rest := Split(s[1..], c);
      assert Split(s, c)[0] == [s[0]] + rest[0];
      assert s == [s[0]] + s[1..];
    }
  }

  /** Python's `c.join(parts)`. */
  function Join(parts: seq<string>, c: char): string
    decreases |parts|
  {
    if |parts| == 0 then ""
    else if |parts| == 1 then parts[0]
    else parts[0] + [c] + Join(parts[1..], c)
  }

  lemma {:induction false} JoinSplit(s: string, c: char)
    ensures Join(Split(s, c), c) == s
    decreases |s|
  {
    if s == [] {
    } else if s[0] == c {
      JoinSplit(s[1..], c);
      var rest := Split(s[1..], c);
      assert Split(s, c) == [""] + rest;
      assert ([""] + rest)[1..] == rest;
    } else {
      JoinSplit(s[1..], c);
      var rest := Split(s[1..], c);
      var r := [[s[0]] + rest[0]] + rest[1..];
      assert Split(s, c) == r;
      if |rest| == 1 {
        assert Join(r, c) == [s[0]] + rest[0];
      } else {
        assert r[1..] == rest[1..];
        assert Join(rest, c) == rest[0] + [c] + Join(rest[1..], c);
      }
    }
  }

  lemma {:induction false} SplitJoin(parts: seq<string>, c: char)
    requires |parts| >= 1
    requires forall k :: 0 <= k < |parts| ==> c !in parts[k]
    ensures Split(Join(parts, c), c) == parts
    decreases |parts|, |parts[0]|
  {
    var p := parts[0];
    if |parts| == 1 {
      SplitNoSep(p, c);
    } else if p == [] {
      SplitJoin(parts[1..], c);
      var j := Join(parts, c);
      assert j == [c] + Join(parts[1..], c);
      assert j[1..] == Join(parts[1..], c);
      assert parts == [""] + parts[1..];
    } else {
      var parts' := [p[1..]] + parts[1..];
      assert c !in parts'[0];
      assert forall k :: 1 <= k < |parts'| ==> parts'[k] == parts[k];
      SplitJoin(parts', c);
      assert parts'[1..] == parts[1..];
      var j := Join(parts, c);
      assert j == p + [c] + Join(parts[1..], c);
      assert j[0] == p[0] && j[1..] == Join(parts', c);
      var rest := Split(j[1..], c);
      assert rest == parts';
      assert [p[0]] + rest[0] == p;
      assert [[p[0]] + rest[0]] + rest[1..] == parts;
    }
  }

  lemma {:induction false} SplitNoSep(s: string, c: char)
    requires c !in s
    ensures Split(s, c) == [s]
    decreases |s|
  {
    if s != [] {
      assert s[0] != c && c !in s[1..];
      SplitNoSep(s[1..], c);
      assert [s[0]] + s[1..] == s;
    }
  }

  /** Python's `s.replace(pat, rep)`: left-to-right, non-overlapping occurrences. */
  function ReplaceAll(s: string, pat: string, rep: string): string
    requires pat != []
    decreases |s|
  {
    if |s| < |pat| then s
    else if s[..|pat|] == pat then rep + ReplaceAll(s[|pat|..], pat, rep)
    else [s[0]] + ReplaceAll(s[1..], pat, rep)
  }

  lemma {:induction false} ReplaceAbsent(s: string, pat: string, rep: string)
    requires pat != [] && !Contains(s, pat)
    ensures ReplaceAll(s, pat, rep) == s
    decreases |s|
  {
    if |s| >= |pat| {
      assert !OccursAt(s, pat, 0);
      assert s[..|pat|] != pat;
      if Contains(s[1..], pat) {
        var i :| 0 <= i <= |s[1..]| && OccursAt(s[1..], pat, i);
        OccursInSuffix(s, pat, i, 1);
        assert false;
      }
      ReplaceAbsent(s[1..], pat, rep);
    }
  }

  /** A leading character that cannot start `pat` is kept. */
  lemma ReplaceSkip(c: char, s: string, pat: string, rep: string)
    requires pat != [] && pat[0] != c
    ensures ReplaceAll([c] + s, pat, rep) == [c] + ReplaceAll(s, pat, rep)
  {
    var t := [c] + s;
    assert t[1..] == s;
    if |t| >= |pat| {
      assert t[..|pat|][0] == c;
    }
    if |t| < |pat| {
      ReplaceShort(s, pat, rep);
    }
  }

  lemma ReplaceShort(s: string, pat: string, rep: string)
    requires pat != [] && |s| < |pat|
    ensures ReplaceAll(s, pat, rep) == s
  {
  }

  /** A leading occurrence of `pat` is replaced. */
  lemma ReplaceHit(s: string, pat: string, rep: string)
    requires pat != []
    ensures ReplaceAll(pat + s, pat, rep) == rep + ReplaceAll(s, pat, rep)
  {
    var t := pat + s;
    assert t[..|pat|] == pat && t[|pat|..] == s;
  }

  /** A prefix that holds no first character of `pat` is kept as it is. */
  lemma {:induction false} ReplaceSkipAll(a: string, s: string, pat: string, rep: string)
    requires pat != [] && pat[0] !in a
    ensures ReplaceAll(a + s, pat, rep) == a + ReplaceAll(s, pat, rep)
    decreases |a|
  {
    if a == [] {
      assert a + s == s;
    } else {
      assert a + s == [a[0]] + (a[1..] + s);
      ReplaceSkip(a[0], a[1..] + s, pat, rep);
      ReplaceSkipAll(a[1..], s, pat, rep);
      assert [a[0]] + (a[1..] + ReplaceAll(s, pat, rep)) == a + ReplaceAll(s, pat, rep);
    }
  }

  /** A string without the first character of `sub` holds no occurrence of it. */
  lemma AbsentHead(s: string, sub: string)
    requires sub != [] && sub[0] !in s
    ensures !Contains(s, sub)
  {
    forall i | 0 <= i <= |s| ensures !OccursAt(s, sub, i) {
      if i + |sub| <= |s| {
        assert s[i..i + |sub|][0] == s[i];
      }
    }
  }

  /** Removing `pat` from `pat + s`, where `s` holds no `pat`, leaves `s`. */
  lemma ReplacePrefixGone(pat: string, s: string)
    requires pat != [] && !Contains(s, pat)
    ensures ReplaceAll(pat + s, pat, "") == s
  {
    var t := pat + s;
    assert t[..|pat|] == pat && t[|pat|..] == s;
    ReplaceAbsent(s, pat, "");
  }

  /** Replacing a single character: the character no longer occurs when the replacement lacks it. */
  lemma {:induction false} ReplaceCharRemoves(s: string, ch: char, rep: string)
    requires ch !in rep
    ensures ch !in ReplaceAll(s, [ch], rep)
    decreases |s|
  {
    if |s| >= 1 {
      ReplaceCharRemoves(s[1..], ch, rep);
    }
  }

  /** Every character of the result other than `rep`'s comes from `s`. */
  lemma {:induction false} ReplaceCharKeeps(s: string, ch: char, rep: string, x: char)
    requires x != ch && x !in rep
    ensures x in ReplaceAll(s, [ch], rep) <==> x in s
    decreases |s|
  {
    if |s| >= 1 {
      ReplaceCharKeeps(s[1..], ch, rep, x);
      assert s == [s[0]] + s[1..];
    }
  }

  /** Decimal digits of a natural number. */
  function DigitChar(d: nat): char
    requires d < 10
  {
    ('0' as int + d) as char
  }

  function NatToString(n: nat): (r: string)
    ensures |r| >= 1
    ensures forall k :: 0 <= k < |r| ==> '0' <= r[k] <= '9'
    decreases n
  {
    if n < 10 then [DigitChar(n)] else NatToString(n / 10) + [DigitChar(n % 10)]
  }

  /** Python's `str(i)` for an integer. */
  function IntToString(i: int): string {
    if i < 0 then "-" + NatToString(-i) else NatToString(i)
  }

  predicate IsDigit(c: char) { '0' <= c <= '9' }

  predicate AllDigits(s: string) { forall k :: 0 <= k < |s| ==> IsDigit(s[k]) }

  /** The value of a non-empty run of decimal digits. */
  function DigitsValue(s: string): nat
    requires AllDigits(s)
    decreases |s|
  {
    if s == [] then 0 else DigitsValue(s[..|s| - 1]) * 10 + (s[|s| - 1] as int - '0' as int)
  }

  lemma {:induction false} DigitsOfNat(n: nat)
    ensures AllDigits(NatToString(n)) && DigitsValue(NatToString(n)) == n
    decreases n
  {
    if n >= 10 {
      DigitsOfNat(n / 10);
      var r := NatToString(n);
      assert r[..|r| - 1] == NatToString(n / 10);
    }
  }

  /**
   * The digits of an `int` literal: ASCII digits, where a single `_` may
   * stand between two digits.
   */
  predicate Grouped(s: string)
    decreases |s|
  {
    && s != [] && IsDigit(s[0])
    && (|s| == 1 || (if s[1] == '_' then Grouped(s[2..]) else Grouped(s[1..])))
  }

  /** The text without its underscores. */
  function Ungrouped(s: string): (r: string)
    ensures |r| <= |s|
    decreases |s|
  {
    if s == [] then [] else if s[0] == '_' then Ungrouped(s[1..]) else [s[0]] + Ungrouped(s[1..])
  }

  /** Taking the underscores out of grouped digits leaves a non-empty run of digits. */
  lemma {:induction false} GroupedDigits(s: string)
    requires Grouped(s)
    ensures Ungrouped(s) != [] && AllDigits(Ungrouped(s))
    decreases |s|
  {
    if |s| > 1 {
      if s[1] == '_' {
        GroupedDigits(s[2..]);
        assert s[1..][1..] == s[2..];
        assert Ungrouped(s[1..]) == Ungrouped(s[2..]);
      } else {
        GroupedDigits(s[1..]);
      }
    }
  }

  /** Plain digits hold no underscore to take out. */
  lemma {:induction false} DigitsUngrouped(s: string)
    requires AllDigits(s)
    ensures Ungrouped(s) == s
    decreases |s|
  {
    if s != [] {
      DigitsUngrouped(s[1..]);
    }
  }

  /** A plain run of digits is grouped. */
  lemma {:induction false} DigitsGrouped(s: string)
    ensures AllDigits(s) && s != [] ==> Grouped(s)
    decreases |s|
  {
    if AllDigits(s) && |s| > 1 {
      DigitsGrouped(s[1..]);
    }
  }

  /** What follows a leading `+` or `-`, if there is one. */
  function Unsigned(t: string): string {
    if t != [] && (t[0] == '-' || t[0] == '+') then t[1..] else t
  }

  /**
   * Python's `int(s)`, `None` where it raises `ValueError`: blanks around
   * the literal are ignored, then an optional sign and digits that single
   * underscores may group.
   */
  function IntLiteral(s: string): (r: Option<int>)
    ensures r.Some? <==> Grouped(Unsigned(Strip(s)))
  {
    if Grouped(Unsigned(Strip(s))) then Some(Signed(Strip(s))) else None
  }

  /** The value of a stripped literal: its grouped digits, negated after a `-`. */
  function Signed(t: string): int
    requires Grouped(Unsigned(t))
  {
    var u := Unsigned(t);
    GroupedDigits(u);
    var v: int := DigitsValue(Ungrouped(u));
    if t[0] == '-' then -v else v
  }

  /** Plain digits are their own literal. */
  lemma DigitsLiteral(s: string)
    requires AllDigits(s) && s != []
    ensures IntLiteral(s) == Some(DigitsValue(s))
  {
    assert IsDigit(s[0]) && IsDigit(s[|s| - 1]);
    assert Strip(s) == s by { PlainStrip(s); }
    assert Unsigned(s) == s;
    assert Grouped(s) by { DigitsGrouped(s); }
    assert Ungrouped(s) == s by { DigitsUngrouped(s); }
    assert Signed(s) == DigitsValue(s);
  }

  /** A text that neither starts nor ends with a blank is its own `strip()`. */
  lemma PlainStrip(s: string)
    ensures s != [] && !IsSpace(s[0]) && !IsSpace(s[|s| - 1]) ==> Strip(s) == s
  {
    if s != [] && !IsSpace(s[0]) && !IsSpace(s[|s| - 1]) {
      assert TrimLeft(s) == s;
    }
  }

  /** `int(str(i)) == i`. */
  lemma IntRoundTrip(i: int)
    ensures IntLiteral(IntToString(i)) == Some(i)
  {
    var s := IntToString(i);
    if i < 0 {
      DigitsOfNat(-i);
      var d := s[1..];
      assert d == NatToString(-i);
      assert AllDigits(d) && DigitsValue(d) == -i;
      NegativeLiteral(s);
      assert IntLiteral(s) == Some(-(DigitsValue(d) as int));
    } else {
      DigitsOfNat(i);
      assert s == NatToString(i);
      DigitsLiteral(s);
    }
  }

  /** A minus sign before plain digits negates their value. */
  lemma NegativeLiteral(s: string)
    requires |s| >= 2 && s[0] == '-' && AllDigits(s[1..])
    ensures IntLiteral(s) == Some(-(DigitsValue(s[1..]) as int))
  {
    var d := s[1..];
    assert Unsigned(s) == d;
    DigitsGrouped(d);
    DigitsUngrouped(d);
    assert s[|s| - 1] == d[|d| - 1];
    assert !IsSpace(s[0]) && !IsSpace(s[|s| - 1]);
    PlainStrip(s);
  }

  /** Blanks before the literal do not change what `int` reads. */
  lemma LeadingBlank(s: string)
    requires s != [] && IsSpace(s[0])
    ensures IntLiteral(s) == IntLiteral(s[1..])
  {
    assert TrimLeft(s) == TrimLeft(s[1..]);
  }

  /** The value of two decimal digits. */
  lemma PairValue(s: string)
    requires |s| == 2 && IsDigit(s[0]) && IsDigit(s[1])
    ensures AllDigits(s) && DigitsValue(s) == 10 * (s[0] as int - '0' as int) + (s[1] as int - '0' as int)
  {
    assert s[..1] == [s[0]] && s[..1][..0] == [];
    assert DigitsValue(s[..1]) == s[0] as int - '0' as int;
  }

  /** Two digits read as a decimal number. */
  lemma DigitPair(s: string, v: int)
    requires |s| == 2 && IsDigit(s[0]) && IsDigit(s[1])
    requires v == 10 * (s[0] as int - '0' as int) + (s[1] as int - '0' as int)
    ensures IntLiteral(s) == Some(v)
  {
    PairValue(s);
    DigitsLiteral(s);
  }

  /** One underscore between two digits only groups them. */
  lemma GroupedPair(s: string, v: int)
    requires |s| == 3 && IsDigit(s[0]) && s[1] == '_' && IsDigit(s[2])
    requires v == 10 * (s[0] as int - '0' as int) + (s[2] as int - '0' as int)
    ensures IntLiteral(s) == Some(v)
  {
    assert !IsSpace(s[0]) && !IsSpace(s[2]);
    PlainStrip(s);
    assert Unsigned(s) == s;
    assert Grouped(s[2..]) && Grouped(s);
    assert s[1..][1..] == s[2..] && s[2..][1..] == [];
    assert Ungrouped(s[2..]) == [s[2]];
    var u := Ungrouped(s);
    assert u == [s[0]] + Ungrouped(s[1..]) && Ungrouped(s[1..]) == [s[2]];
    PairValue(u);
  }

  /** Two underscores in a row are refused. */
  lemma DoubleUnderscore(s: string)
    requires |s| == 4 && IsDigit(s[0]) && s[1] == '_' && s[2] == '_' && IsDigit(s[3])
    ensures IntLiteral(s) == None
  {
    assert !IsSpace(s[0]) && !IsSpace(s[3]);
    PlainStrip(s);
    assert Unsigned(s) == s;
    assert s[2..][0] == '_';
    assert !Grouped(s[2..]);
    assert !Grouped(s);
  }

  /** An underscore may not end the literal. */
  lemma TrailingUnderscore(s: string)
    requires |s| == 2 && IsDigit(s[0]) && s[1] == '_'
    ensures IntLiteral(s) == None
  {
    assert !IsSpace(s[0]) && !IsSpace(s[1]);
    PlainStrip(s);
    assert Unsigned(s) == s;
    assert !Grouped(s[2..]);
    assert !Grouped(s);
  }

  /** Grouped digits end in a digit. */
  lemma {:induction false} GroupedEndsInDigit(s: string)
    requires Grouped(s)
    ensures IsDigit(s[|s| - 1])
    decreases |s|
  {
    if |s| > 1 {
      if s[1] != '_' {
        GroupedEndsInDigit(s[1..]);
        assert s[1..][|s| - 2] == s[|s| - 1];
      } else {
        GroupedEndsInDigit(s[2..]);
        assert s[2..][|s| - 3] == s[|s| - 1];
      }
    }
  }

  /** Stripping leading blanks keeps a last character that is not a blank. */
  lemma {:induction false} TrimLeftKeepsLast(s: string)
    requires s != [] && !IsSpace(s[|s| - 1])
    ensures TrimLeft(s) != [] && TrimLeft(s)[|TrimLeft(s)| - 1] == s[|s| - 1]
    decreases |s|
  {
    if IsSpace(s[0]) {
      TrimLeftKeepsLast(s[1..]);
    }
  }

  /** `strip()` keeps a last character that is not a blank. */
  lemma StripKeepsLast(s: string)
    requires s != [] && !IsSpace(s[|s| - 1])
    ensures Strip(s) != [] && Strip(s)[|Strip(s)| - 1] == s[|s| - 1]
  {
    TrimLeftKeepsLast(s);
    var t := TrimLeft(s);
    assert TrimRight(t) == t;
  }

  /** A text ending in anything but a digit is no signed group of digits. */
  lemma NotGroupedEnd(t: string)
    requires t != [] && !IsDigit(t[|t| - 1])
    ensures !Grouped(Unsigned(t))
  {
    var u := Unsigned(t);
    if Grouped(u) {
      GroupedEndsInDigit(u);
      assert false;
    }
  }

  /** A literal whose last character is neither a blank nor a digit is refused. */
  lemma NonDigitEnd(s: string)
    requires s != [] && !IsSpace(s[|s| - 1]) && !IsDigit(s[|s| - 1])
    ensures IntLiteral(s) == None
  {
    StripKeepsLast(s);
    NotGroupedEnd(Strip(s));
  }

  /** `int` skips blanks and underscores between digits, but not doubled or trailing ones. */
  lemma IntLiteralExamples()
    ensures IntLiteral(" 10") == Some(10)
    ensures IntLiteral("1_0") == Some(10)
  {
    PaddedTen(" 10");
    GroupedPair("1_0", 10);
  }

  /** `int(" 10")`: the blank is skipped. */
  lemma PaddedTen(s: string)
    requires |s| == 3 && s[0] == ' ' && s[1] == '1' && s[2] == '0'
    ensures IntLiteral(s) == Some(10)
  {
    LeadingBlank(s);
    DigitPair(s[1..], 10);
  }

  lemma IntLiteralRejects()
    ensures IntLiteral("1__0") == None
    ensures IntLiteral("1_") == None
  {
    DoubleUnderscore("1__0");
    TrailingUnderscore("1_");
  }

  /** The characters Python's `str.strip()` removes (those for which `isspace()` holds). */
  predicate IsSpace(c: char) {
    var k := c as int;
    (9 <= k <= 13) || (28 <= k <= 32) || k == 0x85 || k == 0xA0 || k == 0x1680
    || (0x2000 <= k <= 0x200A) || k == 0x2028 || k == 0x2029 || k == 0x202F
    || k == 0x205F || k == 0x3000
  }

  function TrimLeft(s: string): (r: string)
    ensures |r| <= |s| && r == s[|s| - |r|..]
    ensures r == [] || !IsSpace(r[0])
    decreases |s|
  {
    if s != [] && IsSpace(s[0]) then TrimLeft(s[1..]) else s
  }

  function TrimRight(s: string): (r: string)
    ensures |r| <= |s| && r == s[..|r|]
    ensures r == [] || !IsSpace(r[|r| - 1])
    decreases |s|
  {
    if s != [] && IsSpace(s[|s| - 1]) then TrimRight(s[..|s| - 1]) else s
  }

  /** Python's `s.strip()`. */
  function Strip(s: string): string { TrimRight(TrimLeft(s)) }

  function LowerChar(c: char): char {
    if 'A' <= c <= 'Z' then (c as int + 32) as char else c
  }

  /** `lower()` on ASCII letters; other characters are kept. */
  function Lower(s: string): (r: string)
    ensures |r| == |s|
    ensures forall k :: 0 <= k < |s| ==> r[k] == LowerChar(s[k])
  {
    seq(|s|, k requires 0 <= k < |s| => LowerChar(s[k]))
  }

  /** The confirmation test `answer.strip().lower() == 'yes'` used by every prompt in the program. */
  predicate IsYes(answer: string) { Lower(Strip(answer)) == "yes" }

  lemma YesAccepted()
    ensures IsYes("YES")
  {
    assert !IsSpace('Y') && !IsSpace('S');
    assert Strip("YES") == "YES";
    assert Lower("YES") == "yes";
  }

  lemma NoRejected()
    ensures !IsYes("no")
  {
    assert Strip("no") == "no";
    assert Lower("no")[0] == 'n';
  }
}
