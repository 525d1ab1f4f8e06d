/** The few Python string operations the workflow relies on: `str.strip()`,
    `str.split(sep)`, `sep.join(items)` and `int(text)`. */
module Text {
  import opened Wrappers

  /** The characters for which Python's `str.isspace()` holds: those
      `str.strip()` with no argument removes. */
  const WhitespaceChars: set<char> := {' ', '\t', '\n', '\U{0B}', '\U{0C}', '\r', '\U{1C}', '\U{1D}', '\U{1E}', '\U{1F}',
    '\U{85}', '\U{A0}', '\U{1680}', '\U{2000}', '\U{2001}', '\U{2002}', '\U{2003}', '\U{2004}', '\U{2005}',
    '\U{2006}', '\U{2007}', '\U{2008}', '\U{2009}', '\U{200A}', '\U{2028}', '\U{2029}', '\U{202F}', '\U{205F}', '\U{3000}'}

  /** `c.isspace()`. */
  predicate IsWhitespace(c: char) {
    c in WhitespaceChars
  }

  /** Every character of `s` is in `cs`. */
  predicate AllIn(s: string, cs: set<char>) {
    forall i :: 0 <= i < |s| ==> s[i] in cs
  }

  predicate AllWhitespace(s: string) {
    AllIn(s, WhitespaceChars)
  }

  /** `s.lstrip(cs)`: drops the leading characters in `cs` and nothing else. */
  function StripLeft(s: string, cs: set<char>): string {
    if s != [] && s[0] in cs then StripLeft(s[1..], cs) else s
  }

  /** What `lstrip` removes is a prefix of characters in `cs`, and what it
      keeps does not begin with one. */
  lemma {:induction false} StripLeftShape(s: string, cs: set<char>)
    ensures var r := StripLeft(s, cs);
      && |r| <= |s| && r == s[|s| - |r|..]
      && AllIn(s[..|s| - |r|], cs)
      && (r != [] ==> r[0] !in cs)
  {
    if s != [] && s[0] in cs {
      StripLeftShape(s[1..], cs);
      var r := StripLeft(s[1..], cs);
      assert s[..|s| - |r|] == [s[0]] + s[1..][..|s| - 1 - |r|];
    }
  }

  /** `s.rstrip(cs)`: drops the trailing characters in `cs` and nothing else. */
  function StripRight(s: string, cs: set<char>): string {
    if s != [] && s[|s| - 1] in cs then StripRight(s[..|s| - 1], cs) else s
  }

  /** What `rstrip` removes is a suffix of characters in `cs`, and what it
      keeps does not end with one. */
  lemma {:induction false} StripRightShape(s: string, cs: set<char>)
    ensures var r := StripRight(s, cs);
      && |r| <= |s| && r == s[..|r|]
      && AllIn(s[|r|..], cs)
      && (r != [] ==> r[|r| - 1] !in cs)
  {
    if s != [] && s[|s| - 1] in cs {
      var init := s[..|s| - 1];
      StripRightShape(init, cs);
      var r := StripRight(init, cs);
      assert s[|r|..] == init[|r|..] + [s[|s| - 1]];
      assert r == init[..|r|] == s[..|r|];
    }
  }

  /** A string `strip()` leaves unchanged: empty, or not beginning or ending
      with whitespace. */
  predicate IsStripped(s: string) {
    s == [] || (!IsWhitespace(s[0]) && !IsWhitespace(s[|s| - 1]))
  }

  /** `s.strip()`. */
  function Strip(s: string): string {
    StripRight(StripLeft(s, WhitespaceChars), WhitespaceChars)
  }

  /** `strip()` removes only whitespace, and only from the two ends: the
      result is a slice of `s` with whitespace on either side of it. */
  lemma StripIsSlice(s: string)
    ensures var r, lead := Strip(s), |s| - |StripLeft(s, WhitespaceChars)|;
      && 0 <= lead && lead + |r| <= |s|
      && r == s[lead..lead + |r|]
      && AllWhitespace(s[..lead])
      && AllWhitespace(s[lead + |r|..])
  {
    StripBothIsSlice(s, WhitespaceChars);
    assert Strip(s) == StripRight(StripLeft(s, WhitespaceChars), WhitespaceChars);
  }

  /** `lstrip(cs)` then `rstrip(cs)` keeps a slice of `s` with characters of
      `cs` on either side of it. */
  lemma StripBothIsSlice(s: string, cs: set<char>)
    ensures var l := StripLeft(s, cs);
      var r, lead := StripRight(l, cs), |s| - |l|;
      && 0 <= lead && lead + |r| <= |s|
      && r == s[lead..lead + |r|]
      && AllIn(s[..lead], cs)
      && AllIn(s[lead + |r|..], cs)
  {
    StripLeftShape(s, cs);
    var l := StripLeft(s, cs);
    StripRightShape(l, cs);
    var r, lead := StripRight(l, cs), |s| - |l|;
    assert r == s[lead..lead + |r|];
    var tail := s[lead + |r|..];
    forall i | 0 <= i < |tail| ensures tail[i] in cs {
      assert tail[i] == l[|r| + i];
    }
  }

  /** The result of `strip()` neither begins nor ends with whitespace, and it
      is empty exactly when `s` is all whitespace. */
  lemma StripResult(s: string)
    ensures IsStripped(Strip(s))
    ensures Strip(s) == [] <==> AllWhitespace(s)
  {
    StripLeftShape(s, WhitespaceChars);
    var l := StripLeft(s, WhitespaceChars);
    StripRightShape(l, WhitespaceChars);
    var r := Strip(s);
    if r != [] {
      assert r[0] == l[0];
    }
    if r == [] {
      assert s[..|s|] == s;
    }
  }

  /** Every character of `strip(s)` is a character of `s`. */
  lemma StripKeepsCharacters(s: string, c: char)
    requires c in Strip(s)
    ensures c in s
  {
    StripIsSlice(s);
    var lead := |s| - |StripLeft(s, WhitespaceChars)|;
    var i :| 0 <= i < |Strip(s)| && Strip(s)[i] == c;
    assert s[lead + i] == c;
  }

  /** Stripping an already stripped string changes nothing; in particular
      `strip()` is idempotent. */
  lemma StripStripped(s: string)
    requires IsStripped(s)
    ensures Strip(s) == s
  {
    assert StripLeft(s, WhitespaceChars) == s;
  }

  lemma StripIdempotent(s: string)
    ensures Strip(Strip(s)) == Strip(s)
  {
    StripResult(s);
    StripStripped(Strip(s));
  }

  /** `lstrip` removes a leading run of characters in `cs` up to the first
      character that is not one. */
  lemma {:induction false} StripLeftPadding(w: string, t: string, cs: set<char>)
    requires AllIn(w, cs)
    requires t != [] ==> t[0] !in cs
    ensures StripLeft(w + t, cs) == t
  {
    if w == [] {
      assert w + t == t;
    } else {
      assert (w + t)[0] == w[0];
      assert (w + t)[1..] == w[1..] + t;
      StripLeftPadding(w[1..], t, cs);
    }
  }

  /** `rstrip` removes a trailing run of characters in `cs` back to the last
      character that is not one. */
  lemma {:induction false} StripRightPadding(t: string, w: string, cs: set<char>)
    requires AllIn(w, cs)
    requires t != [] ==> t[|t| - 1] !in cs
    ensures StripRight(t + w, cs) == t
  {
    if w == [] {
      assert t + w == t;
    } else {
      var u := t + w;
      assert u[|u| - 1] == w[|w| - 1];
      assert u[..|u| - 1] == t + w[..|w| - 1];
      StripRightPadding(t, w[..|w| - 1], cs);
    }
  }

  /** `strip()` of a stripped string padded with whitespace on both sides
      gives that string back. */
  lemma StripPadded(lead: string, core: string, trail: string)
    requires AllWhitespace(lead) && AllWhitespace(trail) && IsStripped(core)
    ensures Strip(lead + core + trail) == core
  {
    var s := lead + core + trail;
    if core == [] {
      assert s == lead + trail;
      assert AllWhitespace(s) by {
        forall i | 0 <= i < |s| ensures IsWhitespace(s[i]) {
          if i >= |lead| {
            assert s[i] == trail[i - |lead|];
          }
        }
      }
      StripResult(s);
    } else {
      assert s == lead + (core + trail);
      StripLeftPadding(lead, core + trail, WhitespaceChars);
      StripRightPadding(core, trail, WhitespaceChars);
    }
  }

  /** `sep.join(items)`. */
  function Join(items: seq<string>, sep: string): (r: string)
    ensures |items| == 1 ==> r == items[0]
  {
    if |items| == 0 then ""
    else if |items| == 1 then items[0]
    else items[0] + sep + Join(items[1..], sep)
  }

  /** `s.split(sep)` for a one-character separator; there is always at
      least one piece. */
  function Split(s: string, sep: char): (pieces: seq<string>)
    ensures |pieces| >= 1
  {
    if s == [] then [""]
    else
      var rest := Split(s[1..], sep);
      if s[0] == sep then [""] + rest
      else [[s[0]] + rest[0]] + rest[1..]
  }

  /** No piece holds the separator, and every character of a piece comes
      from `s`. */
  lemma {:induction false} SplitPieces(s: string, sep: char)
    ensures forall p :: p in Split(s, sep) ==> sep !in p && forall c :: c in p ==> c in s
  {
    if s != [] {
      SplitPieces(s[1..], sep);
      var rest := Split(s[1..], sep);
      forall p, c | p in rest && c in p ensures c in s {
        assert c in s[1..];
      }
      if s[0] != sep {
        assert rest[0] in rest;
        forall c | c in [s[0]] + rest[0] ensures c in s {
          if c != s[0] { assert c in rest[0]; }
        }
        forall p | p in rest[1..] ensures p in rest {
          var j :| 0 <= j < |rest[1..]| && rest[1..][j] == p;
          assert rest[j + 1] == p;
        }
      }
    }
  }

  /** An empty first piece puts a separator in front of the rest. */
  lemma JoinEmptyFirst(rest: seq<string>, sep: char)
    requires |rest| >= 1
    ensures Join([""] + rest, [sep]) == [sep] + Join(rest, [sep])
  {
    assert ([""] + rest)[1..] == rest;
  }

  lemma AppendAssoc(a: string, b: string, c: string)
    ensures (a + b) + c == a + (b + c)
  {
  }

  /** A character put in front of the first piece comes first in the join. */
  lemma JoinCharFirst(c: char, rest: seq<string>, sep: char)
    requires |rest| >= 1
    ensures Join([[c] + rest[0]] + rest[1..], [sep]) == [c] + Join(rest, [sep])
  {
    var pieces := [[c] + rest[0]] + rest[1..];
    if |rest| > 1 {
      var j := Join(rest[1..], [sep]);
      assert pieces[0] == [c] + rest[0] && pieces[1..] == rest[1..];
      assert Join(pieces, [sep]) == ([c] + rest[0]) + ([sep] + j) by {
        AppendAssoc([c] + rest[0], [sep], j);
      }
      AppendAssoc([c], rest[0], [sep] + j);
      AppendAssoc(rest[0], [sep], j);
    }
  }

  /** Joining the pieces back with the separator gives `s` again. */
  lemma {:induction false} SplitJoinsBack(s: string, sep: char)
    ensures Join(Split(s, sep), [sep]) == s
  {
    if s != [] {
      SplitJoinsBack(s[1..], sep);
      if s[0] == sep {
        JoinEmptyFirst(Split(s[1..], sep), sep);
      } else {
        JoinCharFirst(s[0], Split(s[1..], sep), sep);
      }
      assert [s[0]] + s[1..] == s;
    }
  }

  /** A string without the separator splits into itself alone. */
  lemma {:induction false} SplitWithoutSeparator(s: string, sep: char)
    requires sep !in s
    ensures Split(s, sep) == [s]
  {
    if s != [] {
      assert s == [s[0]] + s[1..];
      SplitWithoutSeparator(s[1..], sep);
    }
  }

  /** Splitting `a + sep + b`, where `a` holds no separator, yields `a` and then the pieces of `b`. */
  lemma {:induction false} SplitAfterPiece(a: string, sep: char, b: string)
    requires sep !in a
    ensures Split(a + [sep] + b, sep) == [a] + Split(b, sep)
  {
    if a == [] {
      assert a + [sep] + b == [sep] + b;
      assert ([sep] + b)[1..] == b;
    } else {
      SplitAfterPiece(a[1..], sep, b);
      assert (a + [sep] + b)[1..] == a[1..] + [sep] + b;
      assert [a[0]] + a[1..] == a;
    }
  }

  /** `split` undoes `join` when no item holds the separator. */
  lemma {:induction false} SplitJoin(items: seq<string>, sep: char)
    requires |items| >= 1
    requires forall p :: p in items ==> sep !in p
    ensures Split(Join(items, [sep]), sep) == items
  {
    if |items| == 1 {
      SplitWithoutSeparator(items[0], sep);
    } else {
      SplitJoin(items[1..], sep);
      SplitAfterPiece(items[0], sep, Join(items[1..], [sep]));
    }
  }

  // ----- int(text) -----

  predicate IsDigit(c: char) {
    '0' <= c <= '9'
  }

  predicate AllDigits(s: string) {
    forall i :: 0 <= i < |s| ==> IsDigit(s[i])
  }

  function DigitValue(c: char): nat
    requires IsDigit(c)
  {
    (c as int) - ('0' as int)
  }

  function DigitChar(d: nat): (c: char)
    requires d < 10
    ensures IsDigit(c) && DigitValue(c) == d
  {
    ('0' as int + d) as char
  }

  /** The value of a string of decimal digits, most significant first. */
  function DigitsValue(ds: string): nat
    requires AllDigits(ds)
  {
    if ds == [] then 0 else DigitsValue(ds[..|ds| - 1]) * 10 + DigitValue(ds[|ds| - 1])
  }

  /** The characters `int(text)` skips around the number. CPython first
      turns every `isspace` character at or above U+0080 into a space and
      leaves every other character as it is, then skips space, tab, newline,
      vertical tab, form feed and carriage return: so every `isspace`
      character except U+001C..U+001F is skipped. */
  const IntSpace: set<char> := WhitespaceChars - {'\U{1C}', '\U{1D}', '\U{1E}', '\U{1F}'}

  /** CPython's default limit on the digits of a base-10 `int(text)`
      (`sys.get_int_max_str_digits()`); longer text raises `ValueError`. */
  const MaxIntDigits := 4300

  /** The number `int()` reads once the surrounding space is gone: one
      optional sign, then at least one and at most `MaxIntDigits` digits. */
  function ParseSigned(t: string): Option<int> {
    if t == [] then None
    else
      var digits := if t[0] == '-' || t[0] == '+' then t[1..] else t;
      if digits != [] && AllDigits(digits) && |digits| <= MaxIntDigits then
        Some(if t[0] == '-' then -(DigitsValue(digits) as int) else DigitsValue(digits))
      else None
  }

  /** Python's `int(text)` for base-10 text: surrounding `IntSpace`
      characters are ignored, then a signed number; anything else raises
      `ValueError`, modelled as `None`. */
  function ParseInt(text: string): Option<int> {
    ParseSigned(StripRight(StripLeft(text, IntSpace), IntSpace))
  }

  /** `str(n)` for a natural number: its decimal digits. */
  function NatToString(n: nat): (s: string)
    ensures s != [] && AllDigits(s) && DigitsValue(s) == n
  {
    if n < 10 then [DigitChar(n)]
    else
      var s := NatToString(n / 10) + [DigitChar(n % 10)];
      assert s[..|s| - 1] == NatToString(n / 10);
      s
  }

  /** `str(i)` for any integer. */
  function IntToString(i: int): string {
    if i < 0 then "-" + NatToString(-i) else NatToString(i)
  }

  lemma DigitNotWhitespace(c: char)
    requires IsDigit(c)
    ensures !IsWhitespace(c) && c != '-' && c != '+'
  {
  }

  /** Text that neither begins nor ends with whitespace is what `int()`
      reads, whitespace or not inside. */
  lemma IntSpaceNoop(text: string)
    requires text != [] && !IsWhitespace(text[0]) && !IsWhitespace(text[|text| - 1])
    ensures StripRight(StripLeft(text, IntSpace), IntSpace) == text
  {
    assert StripLeft(text, IntSpace) == text;
  }

  /** A digit string parses to its value exactly when it has at most
      `MaxIntDigits` digits. */
  lemma ParseIntDigits(d: string)
    requires d != [] && AllDigits(d)
    ensures ParseInt(d) == if |d| <= MaxIntDigits then Some(DigitsValue(d)) else None
  {
    DigitNotWhitespace(d[0]);
    DigitNotWhitespace(d[|d| - 1]);
    IntSpaceNoop(d);
  }

  lemma ParseSignedNegative(d: string)
    requires d != [] && AllDigits(d)
    ensures ParseSigned("-" + d) == if |d| <= MaxIntDigits then Some(-(DigitsValue(d) as int)) else None
  {
    assert ("-" + d)[1..] == d;
  }

  /** A digit string after a minus sign parses to its value negated, within
      the digit limit. */
  lemma ParseIntNegativeDigits(d: string)
    requires d != [] && AllDigits(d)
    ensures ParseInt("-" + d) == if |d| <= MaxIntDigits then Some(-(DigitsValue(d) as int)) else None
  {
    var m := "-" + d;
    DigitNotWhitespace(d[|d| - 1]);
    assert m[0] == '-' && m[|m| - 1] == d[|d| - 1];
    IntSpaceNoop(m);
    ParseSignedNegative(d);
  }

  /** A control character U+001C..U+001F in front of the text is never
      skipped, so `int()` rejects it whatever follows, although `strip()`
      would remove it. */
  lemma ParseIntSeparatorRejected(c: char, rest: string)
    requires '\U{1C}' <= c <= '\U{1F}'
    ensures IsWhitespace(c)
    ensures ParseInt([c] + rest) == None
  {
    var text := [c] + rest;
    assert StripLeft(text, IntSpace) == text;
    StripRightShape(text, IntSpace);
    var t := StripRight(text, IntSpace);
    if t != [] {
      assert t[0] == c;
    }
  }

  /** `int(str(i)) == i` while `str(i)` has at most `MaxIntDigits` digits;
      beyond the limit `int` raises. */
  lemma ParseIntToString(i: int)
    ensures ParseInt(IntToString(i)) ==
      if |NatToString(if i < 0 then -i else i)| <= MaxIntDigits then Some(i) else None
  {
    if i < 0 {
      ParseIntNegativeDigits(NatToString(-i));
    } else {
      ParseIntDigits(NatToString(i));
    }
  }

  /** Text made only of whitespace is never an integer. */
  lemma ParseIntBlank(text: string)
    requires AllWhitespace(text)
    ensures ParseInt(text) == None
  {
    var cs := IntSpace;
    StripLeftShape(text, cs);
    var l := StripLeft(text, cs);
    StripRightShape(l, cs);
    var t := StripRight(l, cs);
    if t != [] {
      assert t[0] == text[|text| - |l|];
      assert IsWhitespace(t[0]);
      assert !IsDigit(t[0]) && t[0] != '-' && t[0] != '+';
    }
  }
}
