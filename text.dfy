/** The Python string operations the core relies on: character classes, `str.split`,
    `in` on strings, `str(int)` and `int(str)`. Digits, letters and case are ASCII;
    whitespace is Python's full set. */
module Text {
  import opened Wrappers

  predicate IsDigit(c: char) { '0' <= c <= '9' }
  predicate IsUpper(c: char) { 'A' <= c <= 'Z' }
  predicate IsLowerLetter(c: char) { 'a' <= c <= 'z' }

  /** A word character of a regular expression other than `_`. */
  predicate IsAlnum(c: char) { IsDigit(c) || IsUpper(c) || IsLowerLetter(c) }

  /** The whitespace C's `isspace` accepts. */
  predicate IsAsciiSpace(c: char) {
    c == ' ' || c == '\t' || c == '\n' || c == '\r' || c == '\U{0B}' || c == '\U{0C}'
  }

  /** The whitespace class `\s` of a `str` pattern, which is also what `str.isspace()`
      accepts: the ASCII spaces, the separators `\x1c`-`\x1f`, and the Unicode spaces. */
  predicate IsSpace(c: char) {
    || IsAsciiSpace(c)
    || '\U{1C}' <= c <= '\U{1F}'
    || c == '\U{85}' || c == '\U{A0}' || c == '\U{1680}' || '\U{2000}' <= c <= '\U{200A}'
    || c == '\U{2028}' || c == '\U{2029}' || c == '\U{202F}' || c == '\U{205F}' || c == '\U{3000}'
  }

  /** The whitespace `int()` skips around the digits: it maps non-ASCII whitespace to a
      space, keeps ASCII as it is and then skips what C's `isspace` accepts, so the
      separators `\x1c`-`\x1f` are not skipped. */
  predicate IsIntSpace(c: char) {
    IsSpace(c) && !('\U{1C}' <= c <= '\U{1F}')
  }

  /** `str.lower()` on one character. */
  function Lower(c: char): (r: char)
    ensures IsAlnum(c) ==> IsDigit(r) || IsLowerLetter(r)
    ensures !IsUpper(c) ==> r == c
  {
    if IsUpper(c) then (c as int + 32) as char else c
  }

  // ---------------------------------------------------------------------------
  // Substrings

  /** `p` occurs in `s` at position `i`. */
  predicate OccursAt(s: string, p: string, i: int) {
    0 <= i && i + |p| <= |s| && s[i..i + |p|] == p
  }

  /** Python's `p in s` for strings. */
  function Contains(s: string, p: string): (r: bool)
    ensures r <==> exists i :: OccursAt(s, p, i)
    decreases |s|
  {
    if p <= s then
      assert OccursAt(s, p, 0);
      true
    else if s == [] then
      false
    else
      var r := Contains(s[1..], p);
      assert forall i :: OccursAt(s[1..], p, i) <==> OccursAt(s, p, i + 1) by {
        forall i ensures OccursAt(s[1..], p, i) <==> OccursAt(s, p, i + 1) {
          if 0 <= i && i + |p| <= |s| - 1 {
            assert s[1..][i..i + |p|] == s[i + 1..i + 1 + |p|];
          }
        }
      }
      assert OccursAt(s, p, 0) ==> p <= s;
      assert forall i :: OccursAt(s, p, i) && i != 0 ==> OccursAt(s[1..], p, i - 1);
      r
  }

  // ---------------------------------------------------------------------------
  // str.split(sep) and its inverse sep.join(parts)

  /** Python's `s.split(sep)` for a one-character separator. */
  function Split(s: string, sep: char): (parts: seq<string>)
    ensures |parts| >= 1
    ensures forall k :: 0 <= k < |parts| ==> sep !in parts[k]
    decreases |s|
  {
    if s == [] then [[]]
    else
      var rest := Split(s[1..], sep);
      if s[0] == sep then [[]] + rest else [[s[0]] + rest[0]] + rest[1..]
  }

  /** Python's `sep.join(parts)`. */
  function Join(parts: seq<string>, sep: char): string
    requires |parts| >= 1
    decreases |parts|
  {
    if |parts| == 1 then parts[0] else parts[0] + [sep] + Join(parts[1..], sep)
  }

  /** Splitting and joining again gives the original string back. */
  lemma {:induction false} JoinSplit(s: string, sep: char)
    ensures Join(Split(s, sep), sep) == s
    decreases |s|
  {
    if s != [] {
      JoinSplit(s[1..], sep);
      var rest := Split(s[1..], sep);
      if s[0] == sep {
        assert Split(s, sep) == [[]] + rest;
        assert Split(s, sep)[1..] == rest;
      } else {
        var parts := Split(s, sep);
        assert parts == [[s[0]] + rest[0]] + rest[1..];
        if |rest| == 1 {
          assert parts == [[s[0]] + rest[0]];
        } else {
          assert parts[1..] == rest[1..];
          assert Join(rest, sep) == rest[0] + [sep] + Join(rest[1..], sep);
        }
      }
    }
  }

  /** Joining separator-free parts and splitting again gives the parts back. */
  lemma {:induction false} SplitJoin(parts: seq<string>, sep: char)
    requires |parts| >= 1
    requires forall k :: 0 <= k < |parts| ==> sep !in parts[k]
    ensures Split(Join(parts, sep), sep) == parts
    decreases |parts|, |parts[0]|
  {
    var p := parts[0];
    if p == [] {
      if |parts| > 1 {
        SplitJoin(parts[1..], sep);
        assert Join(parts, sep) == [sep] + Join(parts[1..], sep);
        SplitSeparatorFirst(Join(parts[1..], sep), sep);
        assert parts == [[]] + parts[1..];
      }
    } else {
      var parts' := [p[1..]] + parts[1..];
      assert sep !in p[1..] by { assert forall c :: c in p[1..] ==> c in p; }
      SplitJoin(parts', sep);
      assert [p[0]] + p[1..] == p;
      JoinCharFirst(p[0], p[1..], parts[1..], sep);
      assert [[p[0]] + p[1..]] + parts[1..] == parts;
      SplitCharFirst(p[0], Join(parts', sep), sep);
    }
  }

  /** A leading separator splits off an empty part. */
  lemma SplitSeparatorFirst(t: string, sep: char)
    ensures Split([sep] + t, sep) == [[]] + Split(t, sep)
  {
    assert ([sep] + t)[1..] == t;
  }

  /** A leading non-separator joins the first part. */
  lemma SplitCharFirst(c: char, t: string, sep: char)
    requires c != sep
    ensures Split([c] + t, sep) == [[c] + Split(t, sep)[0]] + Split(t, sep)[1..]
  {
    assert ([c] + t)[1..] == t;
  }

  /** A character at the start of the first part is the first character of the join. */
  lemma JoinCharFirst(c: char, q: string, rest: seq<string>, sep: char)
    ensures Join([[c] + q] + rest, sep) == [c] + Join([q] + rest, sep)
  {
    assert ([[c] + q] + rest)[1..] == rest == ([q] + rest)[1..];
  }

  // ---------------------------------------------------------------------------
  // str(int)

  function DigitChar(d: nat): (c: char)
    requires d < 10
    ensures IsDigit(c)
  {
    ('0' as int + d) as char
  }

  function DigitOf(c: char): nat
    requires IsDigit(c)
  {
    c as int - '0' as int
  }

  /** Decimal digits of `n` with no leading zero. */
  function NatToString(n: nat): (r: string)
    ensures r != []
    ensures forall k :: 0 <= k < |r| ==> IsDigit(r[k])
    decreases n
  {
    if n < 10 then [DigitChar(n)] else NatToString(n / 10) + [DigitChar(n % 10)]
  }

  /** Python's `str(i)` for an integer. */
  function IntToString(i: int): string {
    if i < 0 then "-" + NatToString(-i) else NatToString(i)
  }

  // ---------------------------------------------------------------------------
  // int(str)

  function StripLeft(s: string): (r: string)
    ensures |r| <= |s|
    decreases |s|
  {
    if s != [] && IsIntSpace(s[0]) then StripLeft(s[1..]) else s
  }

  function StripRight(s: string): (r: string)
    ensures |r| <= |s|
    decreases |s|
  {
    if s != [] && IsIntSpace(s[|s| - 1]) then StripRight(s[..|s| - 1]) else s
  }

  /** The whitespace `int()` ignores on both sides of its argument. */
  function Strip(s: string): string {
    StripRight(StripLeft(s))
  }

  /** The digits of a Python integer literal: digits, with single underscores between them. */
  predicate IsDigitGroup(s: string) {
    && s != []
    && IsDigit(s[0])
    && IsDigit(s[|s| - 1])
    && (forall k :: 0 <= k < |s| ==> IsDigit(s[k]) || s[k] == '_')
    && (forall k :: 0 <= k < |s| - 1 ==> !(s[k] == '_' && s[k + 1] == '_'))
  }

  function RemoveUnderscores(s: string): (r: string)
    ensures forall c :: c in r ==> c in s && c != '_'
    decreases |s|
  {
    if s == [] then [] else (if s[0] == '_' then [] else [s[0]]) + RemoveUnderscores(s[1..])
  }

  /** The value of a string of decimal digits, most significant first. */
  function DigitsValue(ds: string): nat
    requires forall c :: c in ds ==> IsDigit(c)
    decreases |ds|
  {
    if ds == [] then 0
    else
      assert forall c :: c in ds[..|ds| - 1] ==> c in ds;
      DigitsValue(ds[..|ds| - 1]) * 10 + DigitOf(ds[|ds| - 1])
  }

  /** Python's `int(s)` in base 10: surrounding whitespace, an optional sign, then a digit
      group; `None` where Python raises `ValueError`. */
  function ParseInt(s: string): Option<int> {
    ParseSigned(Strip(s))
  }

  /** An optional sign, then a digit group. */
  function ParseSigned(t: string): Option<int> {
    if t == [] then None
    else
      var body := if t[0] == '-' || t[0] == '+' then t[1..] else t;
      if !IsDigitGroup(body) then None
      else
        var v: int := DigitsValue(RemoveUnderscores(body));
        Some(if t[0] == '-' then -v else v)
  }

  lemma {:induction false} DigitsValueOfNatToString(n: nat)
    ensures DigitsValue(NatToString(n)) == n
    decreases n
  {
    var r := NatToString(n);
    if n < 10 {
      assert r[..0] == [];
    } else {
      DigitsValueOfNatToString(n / 10);
      assert r[..|r| - 1] == NatToString(n / 10);
    }
  }

  lemma {:induction false} RemoveUnderscoresNoOp(s: string)
    requires forall k :: 0 <= k < |s| ==> IsDigit(s[k])
    ensures RemoveUnderscores(s) == s
    decreases |s|
  {
    if s != [] {
      RemoveUnderscoresNoOp(s[1..]);
      assert [s[0]] + s[1..] == s;
    }
  }

  /** `str(i)` has no surrounding whitespace. */
  lemma StripIntToString(i: int)
    ensures Strip(IntToString(i)) == IntToString(i)
  {
    var n: nat := if i < 0 then -i else i;
    var ds := NatToString(n);
    var s := IntToString(i);
    assert !IsIntSpace(s[0]);
    assert StripLeft(s) == s;
    assert s[|s| - 1] == ds[|ds| - 1];
    assert StripRight(s) == s;
  }

  /** `int()` skips Unicode whitespace around the digits but not the separators
      `\x1c`-`\x1f`, which `\s` and `str.isspace()` do count as whitespace. */
  lemma IntSkipsSpacesNotSeparators()
    ensures ParseInt("\U{3000}7\n") == Some(7)
    ensures IsSpace('\U{1F}') && ParseInt("\U{1F}7") == None
  {
    assert StripLeft("\U{3000}7\n") == "7\n" by {
      assert "\U{3000}7\n"[1..] == "7\n";
    }
    assert StripRight("7\n") == "7" by {
      assert "7\n"[..1] == "7";
    }
    assert RemoveUnderscores("7") == "7" by {
      assert "7"[1..] == [];
    }
    assert DigitsValue("7") == 7 by {
      assert "7"[..0] == [];
    }
    assert Strip("\U{1F}7") == "\U{1F}7" by {
      assert StripLeft("\U{1F}7") == "\U{1F}7";
      assert StripRight("\U{1F}7") == "\U{1F}7";
    }
  }

  /** The decimal digits of a natural number form a digit group. */
  lemma NatToStringIsDigitGroup(n: nat)
    ensures IsDigitGroup(NatToString(n))
  {
    var ds := NatToString(n);
    assert IsDigit(ds[0]) && IsDigit(ds[|ds| - 1]);
  }

  /** A string of digits is a digit group with no underscore to remove. */
  lemma DigitsAreGroup(ds: string)
    requires ds != [] && forall c :: c in ds ==> IsDigit(c)
    ensures IsDigitGroup(ds) && RemoveUnderscores(ds) == ds
  {
    RemoveUnderscoresNoOp(ds);
    assert ds[0] in ds && ds[|ds| - 1] in ds;
  }

  /** A string of digits parses to its value. */
  lemma ParseSignedDigits(ds: string)
    requires ds != [] && forall c :: c in ds ==> IsDigit(c)
    ensures ParseSigned(ds) == Some(DigitsValue(ds))
  {
    DigitsAreGroup(ds);
    assert ds[0] in ds;
  }

  /** A minus sign and a string of digits parse to the negated value. */
  lemma ParseSignedNegatedDigits(ds: string)
    requires ds != [] && forall c :: c in ds ==> IsDigit(c)
    ensures ParseSigned("-" + ds) == Some(-(DigitsValue(ds) as int))
  {
    DigitsAreGroup(ds);
    var t := "-" + ds;
    assert t[0] == '-' && t[1..] == ds;
  }

  /** A natural number's digits parse back to it, with or without a minus sign. */
  lemma ParseSignedOfNatToString(n: nat)
    ensures ParseSigned(NatToString(n)) == Some(n)
    ensures ParseSigned("-" + NatToString(n)) == Some(-(n as int))
  {
    var ds := NatToString(n);
    assert forall c :: c in ds ==> IsDigit(c);
    ParseSignedDigits(ds);
    ParseSignedNegatedDigits(ds);
    DigitsValueOfNatToString(n);
  }

  /** `int(str(i)) == i`. */
  lemma ParseIntOfIntToString(i: int)
    ensures ParseInt(IntToString(i)) == Some(i)
  {
    StripIntToString(i);
    ParseSignedOfNatToString(if i < 0 then -i else i);
  }
}
