/** String operations of the JavaScript runtime that the honeypot relies on, over strings
    as sequences of characters: ASCII case folding (what a regular expression with the `i`
    flag does for ASCII patterns), the `\s` class and `trim`, `includes`, `split`/`join`
    on one separator, number formatting and `parseInt`. */
module Text {
  import opened Common

  // ---------------------------------------------------------------- characters

  function LowerChar(c: char): char {
    if 'A' <= c <= 'Z' then (c as int + 32) as char else c
  }

  function UpperChar(c: char): char {
    if 'a' <= c <= 'z' then (c as int - 32) as char else c
  }

  /** ASCII lower-casing. A non-unicode JavaScript regular expression with the `i` flag
      never folds a non-ASCII character onto an ASCII letter, so matching an ASCII pattern
      case-insensitively is matching it against this. */
  function Lower(s: string): (r: string)
    ensures |r| == |s|
    ensures forall i | 0 <= i < |s| :: r[i] == LowerChar(s[i])
  {
    seq(|s|, i requires 0 <= i < |s| => LowerChar(s[i]))
  }

  /** `toUpperCase` on ASCII text. */
  function Upper(s: string): (r: string)
    ensures |r| == |s|
    ensures forall i | 0 <= i < |s| :: r[i] == UpperChar(s[i])
  {
    seq(|s|, i requires 0 <= i < |s| => UpperChar(s[i]))
  }

  /** The `\s` class of JavaScript regular expressions, which is also the set `trim` and
      `parseInt` skip: WhiteSpace and LineTerminator code points. */
  predicate IsSpace(c: char) {
    c == '\t' || c == '\n' || c == '\U{000B}' || c == '\U{000C}' || c == '\r' || c == ' '
    || c == '\U{00A0}' || c == '\U{1680}' || ('\U{2000}' <= c <= '\U{200A}')
    || c == '\U{2028}' || c == '\U{2029}' || c == '\U{202F}' || c == '\U{205F}'
    || c == '\U{3000}' || c == '\U{FEFF}'
  }

  /** The characters `.` does not match in a JavaScript regular expression. */
  predicate IsLineTerminator(c: char) {
    c == '\n' || c == '\r' || c == '\U{2028}' || c == '\U{2029}'
  }

  /** `\w` (and the sides of `\b`) in a non-unicode JavaScript regular expression. */
  predicate IsWordChar(c: char) {
    ('a' <= c <= 'z') || ('A' <= c <= 'Z') || ('0' <= c <= '9') || c == '_'
  }

  predicate IsDigit(c: char) {
    '0' <= c <= '9'
  }

  predicate IsHexDigit(c: char) {
    IsDigit(c) || ('a' <= c <= 'f') || ('A' <= c <= 'F')
  }

  // ---------------------------------------------------------------- searching

  predicate StartsWith(s: string, prefix: string) {
    |prefix| <= |s| && s[..|prefix|] == prefix
  }

  /** `s.includes(needle)`. */
  predicate Contains(s: string, needle: string) {
    exists i | 0 <= i <= |s| :: StartsWith(s[i..], needle)
  }

  /** A needle placed anywhere is found. */
  lemma ContainsAt(s: string, needle: string, i: nat)
    requires i + |needle| <= |s| && s[i..i + |needle|] == needle
    ensures Contains(s, needle)
  {
    assert s[i..][..|needle|] == s[i..i + |needle|];
    assert StartsWith(s[i..], needle);
  }

  lemma ContainsInfix(a: string, b: string, c: string)
    ensures Contains(a + b + c, b)
  {
    var s := a + b + c;
    assert s[|a|..|a| + |b|] == b;
    ContainsAt(s, b, |a|);
  }

  /** A string is at least as long as any needle it contains. */
  lemma ContainedIsShorter(s: string, needle: string)
    requires Contains(s, needle)
    ensures |needle| <= |s|
  {
    var i :| 0 <= i <= |s| && StartsWith(s[i..], needle);
  }

  /** Whatever contains a longer needle contains every prefix of it. */
  lemma ContainsPrefixOfNeedle(s: string, needle: string, prefix: string)
    requires Contains(s, needle) && StartsWith(needle, prefix)
    ensures Contains(s, prefix)
  {
    var i :| 0 <= i <= |s| && StartsWith(s[i..], needle);
    assert s[i..][..|prefix|] == needle[..|prefix|];
    assert StartsWith(s[i..], prefix);
  }

  // ---------------------------------------------------------------- trimming

  predicate AllSpace(s: string) {
    forall k | 0 <= k < |s| :: IsSpace(s[k])
  }

  function TrimStart(s: string): (r: string)
    ensures |r| <= |s| && r == s[|s| - |r|..]
    ensures r == [] || !IsSpace(r[0])
    ensures (s == [] || !IsSpace(s[0])) ==> r == s
    ensures AllSpace(s[..|s| - |r|])
  {
    if |s| > 0 && IsSpace(s[0]) then
      var r := TrimStart(s[1..]);
      assert s[..|s| - |r|] == [s[0]] + s[1..][..|s| - 1 - |r|];
      r
    else s
  }

  function TrimEnd(s: string): (r: string)
    ensures |r| <= |s| && r == s[..|r|]
    ensures r == [] || !IsSpace(r[|r| - 1])
    ensures (s == [] || !IsSpace(s[|s| - 1])) ==> r == s
    ensures AllSpace(s[|r|..])
  {
    if |s| > 0 && IsSpace(s[|s| - 1]) then
      var r := TrimEnd(s[..|s| - 1]);
      assert s[|r|..] == s[..|s| - 1][|r|..] + [s[|s| - 1]];
      r
    else s
  }

  /** `r` is the piece of `s` at offset `i`, with only spaces before it and after it. */
  predicate PaddedAt(s: string, i: int, r: string) {
    0 <= i <= |s| - |r| && r == s[i..i + |r|] && AllSpace(s[..i]) && AllSpace(s[i + |r|..])
  }

  /** `s.trim()`: `s` without its leading and trailing spaces, that is, the piece of `s`
      with only spaces around it and no space at either of its own ends. */
  function Trim(s: string): (r: string)
    ensures exists i :: PaddedAt(s, i, r)
    ensures Unpadded(r)
    ensures (s == [] || (!IsSpace(s[0]) && !IsSpace(s[|s| - 1]))) ==> r == s
  {
    var t := TrimStart(s);
    var r := TrimEnd(t);
    PaddedOfCuts(s, t, r);
    r
  }

  /** Spaces cut from the front of `s` and then from the back of what remains leave a
      padded piece of `s`. */
  lemma PaddedOfCuts(s: string, t: string, r: string)
    requires |t| <= |s| && t == s[|s| - |t|..] && AllSpace(s[..|s| - |t|])
    requires |r| <= |t| && r == t[..|r|] && AllSpace(t[|r|..])
    ensures PaddedAt(s, |s| - |t|, r)
  {
    var i := |s| - |t|;
    assert r == s[i..i + |r|];
    assert s[i + |r|..] == t[|r|..];
  }

  /** Neither end of `r` is a space. */
  predicate Unpadded(r: string) {
    r == [] || (!IsSpace(r[0]) && !IsSpace(r[|r| - 1]))
  }

  /** Only one piece of `s` has spaces around it and none at its own ends, so `Trim`
      removes exactly the leading and trailing spaces. */
  lemma TrimIsUnique(s: string, i: int, t: string)
    requires PaddedAt(s, i, t) && Unpadded(t)
    ensures t == Trim(s)
  {
    var r := Trim(s);
    var j :| PaddedAt(s, j, r);
    PaddedUnique(s, i, t, j, r);
  }

  lemma PaddedUnique(s: string, i: int, t: string, j: int, r: string)
    requires PaddedAt(s, i, t) && Unpadded(t)
    requires PaddedAt(s, j, r) && Unpadded(r)
    ensures t == r
  {
    if t != [] && r != [] {
      if i < j {
        SpaceOutside(s, j, r, i);
      } else if j < i {
        SpaceOutside(s, i, t, j);
      }
      if i + |t| < j + |r| {
        SpaceOutside(s, i, t, j + |r| - 1);
      } else if j + |r| < i + |t| {
        SpaceOutside(s, j, r, i + |t| - 1);
      }
    } else if t != [] {
      SpaceOutside(s, j, r, i);
    } else if r != [] {
      SpaceOutside(s, i, t, j);
    }
  }

  /** Around a padded piece every character is a space. */
  lemma SpaceOutside(s: string, i: int, t: string, k: int)
    requires PaddedAt(s, i, t) && 0 <= k < |s| && !(i <= k < i + |t|)
    ensures IsSpace(s[k])
  {
    if k < i {
      assert s[..i][k] == s[k];
    } else {
      assert s[i + |t|..][k - i - |t|] == s[k];
    }
  }

  // ---------------------------------------------------------------- split and join

  /** `s.split(sep)[0]`: everything before the first separator. */
  function TakeUntil(s: string, sep: char): (r: string)
    ensures StartsWith(s, r)
    ensures sep !in r
    ensures |r| < |s| ==> s[|r|] == sep
  {
    if s == [] || s[0] == sep then [] else [s[0]] + TakeUntil(s[1..], sep)
  }

  /** `s.split(sep)`. */
  function Split(s: string, sep: char): (r: seq<string>)
    ensures |r| >= 1 && r[0] == TakeUntil(s, sep)
    ensures forall k | 0 <= k < |r| :: sep !in r[k]
    decreases |s|
  {
    var head := TakeUntil(s, sep);
    if |head| == |s| then [s] else [head] + Split(s[|head| + 1..], sep)
  }

  /** `lines.join(sep)`. */
  function Join(lines: seq<string>, sep: char): (r: string)
    requires |lines| >= 1
  {
    if |lines| == 1 then lines[0] else lines[0] + [sep] + Join(lines[1..], sep)
  }

  lemma {:induction false} TakeUntilStopsAtSeparator(line: string, sep: char, rest: string)
    requires sep !in line
    ensures TakeUntil(line + [sep] + rest, sep) == line
  {
    if line != [] {
      assert (line + [sep] + rest)[1..] == line[1..] + [sep] + rest;
      TakeUntilStopsAtSeparator(line[1..], sep, rest);
    }
  }

  lemma {:induction false} TakeUntilWithoutSeparator(s: string, sep: char)
    requires sep !in s
    ensures TakeUntil(s, sep) == s
  {
    if s != [] {
      TakeUntilWithoutSeparator(s[1..], sep);
    }
  }

  /** Splitting undoes joining when no line contains the separator. */
  lemma {:induction false} SplitJoin(lines: seq<string>, sep: char)
    requires |lines| >= 1
    requires forall k | 0 <= k < |lines| :: sep !in lines[k]
    ensures Split(Join(lines, sep), sep) == lines
  {
    if |lines| == 1 {
      TakeUntilWithoutSeparator(lines[0], sep);
    } else {
      var rest := Join(lines[1..], sep);
      var s := lines[0] + [sep] + rest;
      assert Join(lines, sep) == s;
      TakeUntilStopsAtSeparator(lines[0], sep, rest);
      assert s[|lines[0]| + 1..] == rest;
      assert Split(s, sep) == [lines[0]] + Split(rest, sep);
      SplitJoin(lines[1..], sep);
      assert lines == [lines[0]] + lines[1..];
    }
  }

  // ---------------------------------------------------------------- numbers

  function DigitChar(d: nat): char
    requires d < 10
  {
    ('0' as int + d) as char
  }

  function DigitValue(c: char): nat
    requires IsDigit(c)
  {
    c as int - '0' as int
  }

  function HexDigitValue(c: char): nat
    requires IsHexDigit(c)
  {
    if IsDigit(c) then DigitValue(c)
    else if 'a' <= c <= 'f' then c as int - 'a' as int + 10
    else c as int - 'A' as int + 10
  }

  /** The decimal text of a natural number, as a template literal renders it. */
  function NatStr(n: nat): (r: string)
    ensures |r| >= 1
    ensures forall k | 0 <= k < |r| :: IsDigit(r[k])
    ensures r[0] == '0' ==> n == 0
  {
    if n < 10 then [DigitChar(n)] else NatStr(n / 10) + [DigitChar(n % 10)]
  }

  /** The longest prefix made of decimal digits. */
  function DecimalPrefix(s: string): (r: string)
    ensures StartsWith(s, r)
    ensures forall k | 0 <= k < |r| :: IsDigit(r[k])
    ensures |r| < |s| ==> !IsDigit(s[|r|])
  {
    if s != [] && IsDigit(s[0]) then [s[0]] + DecimalPrefix(s[1..]) else []
  }

  /** The longest prefix made of hexadecimal digits. */
  function HexPrefix(s: string): (r: string)
    ensures StartsWith(s, r)
    ensures forall k | 0 <= k < |r| :: IsHexDigit(r[k])
  {
    if s != [] && IsHexDigit(s[0]) then [s[0]] + HexPrefix(s[1..]) else []
  }

  function DecimalValue(ds: string): nat
    requires forall k | 0 <= k < |ds| :: IsDigit(ds[k])
  {
    if ds == [] then 0 else DecimalValue(ds[..|ds| - 1]) * 10 + DigitValue(ds[|ds| - 1])
  }

  function HexValue(ds: string): nat
    requires forall k | 0 <= k < |ds| :: IsHexDigit(ds[k])
  {
    if ds == [] then 0 else HexValue(ds[..|ds| - 1]) * 16 + HexDigitValue(ds[|ds| - 1])
  }

  /** The digits `parseInt` converts once spaces and sign are gone: a `0x`/`0X` prefix
      selects base 16, otherwise base 10; `None` when there is no digit. */
  function ParseUnsigned(u: string): (r: Option<nat>)
    ensures r.Some? ==> |u| > 0 && IsDigit(u[0])
  {
    if |u| >= 2 && u[0] == '0' && (u[1] == 'x' || u[1] == 'X') then
      var h := HexPrefix(u[2..]);
      if h == [] then None else Some(HexValue(h))
    else
      var d := DecimalPrefix(u);
      if d == [] then None else Some(DecimalValue(d))
  }

  /** `parseInt(s)` without a radix: leading spaces are skipped, an optional sign is read,
      and the digits after it are converted; `None` is NaN. */
  function ParseIntJs(s: string): (r: Option<int>)
    ensures r.Some? ==> exists k | 0 <= k < |s| :: IsDigit(s[k])
  {
    var t := TrimStart(s);
    var signed := |t| > 0 && (t[0] == '-' || t[0] == '+');
    var u := if signed then t[1..] else t;
    match ParseUnsigned(u)
    case None => None
    case Some(v) =>
      assert u[0] == s[|s| - |u|];
      var value: int := if |t| > 0 && t[0] == '-' then -(v as int) else v as int;
      Some(value)
  }

  lemma {:induction false} DecimalPrefixOfDigits(s: string)
    requires forall k | 0 <= k < |s| :: IsDigit(s[k])
    ensures DecimalPrefix(s) == s
  {
    if s != [] {
      DecimalPrefixOfDigits(s[1..]);
    }
  }

  lemma {:induction false} DecimalValueOfNatStr(n: nat)
    ensures DecimalValue(NatStr(n)) == n
  {
    if n >= 10 {
      var s := NatStr(n / 10) + [DigitChar(n % 10)];
      assert s[..|s| - 1] == NatStr(n / 10);
      DecimalValueOfNatStr(n / 10);
    }
  }

  /** Digits without a `0x` prefix are read in base 10. */
  lemma ParseUnsignedOfDigits(s: string)
    requires |s| >= 1 && forall k | 0 <= k < |s| :: IsDigit(s[k])
    requires |s| >= 2 ==> s[0] != '0'
    ensures ParseUnsigned(s) == Some(DecimalValue(s))
  {
    DecimalPrefixOfDigits(s);
  }

  /** A text starting with a digit has no leading space and no sign. */
  lemma ParseIntJsOfDigitFirst(s: string)
    requires |s| >= 1 && IsDigit(s[0])
    ensures ParseUnsigned(s).Some? ==> ParseIntJs(s) == Some(ParseUnsigned(s).value as int)
    ensures ParseUnsigned(s).None? ==> ParseIntJs(s).None?
  {
    assert !IsSpace(s[0]);
    var t := TrimStart(s);
    assert t == s;
    assert !(|t| > 0 && (t[0] == '-' || t[0] == '+'));
  }

  /** `parseInt` reads back what a template literal writes for a natural number. */
  lemma ParseIntOfNatStr(n: nat)
    ensures ParseIntJs(NatStr(n)) == Some(n)
  {
    var s := NatStr(n);
    DecimalValueOfNatStr(n);
    ParseUnsignedOfDigits(s);
    ParseIntJsOfDigitFirst(s);
  }
}
