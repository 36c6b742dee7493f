/** The JavaScript built-ins the commands lean on, with their edge cases:
    truthiness of optional values, `trim`, `parseInt(s, 10)`, number-to-string,
    `startsWith`/`endsWith`, `replace` with a string pattern (first match only),
    a global one-character replace, `join` and the negative-index `slice`. */
module Js {

  datatype Option<+T> = None | Some(value: T)

  /** `if (s)` on a string that may be undefined: the empty string is falsy. */
  predicate StrTruthy(s: Option<string>) {
    s.Some? && s.value != ""
  }

  /** `if (n)` on a number that may be undefined: zero is falsy. */
  predicate NumTruthy(n: Option<int>) {
    n.Some? && n.value != 0
  }

  /** ECMAScript WhiteSpace and LineTerminator code points: what `trim` strips
      and what `parseInt` skips before the number. */
  predicate IsSpace(c: char) {
    c == '\t' || c == '\n' || c == '\U{B}' || c == '\U{C}' || c == '\r' || c == ' '
    || c == '\U{A0}' || c == '\U{1680}' || ('\U{2000}' <= c <= '\U{200A}')
    || c == '\U{2028}' || c == '\U{2029}' || c == '\U{202F}' || c == '\U{205F}'
    || c == '\U{3000}' || c == '\U{FEFF}'
  }

  function TrimStart(s: string): (r: string)
    ensures |r| <= |s| && r == s[|s| - |r|..]
    ensures r == [] || !IsSpace(r[0])
    ensures forall i :: 0 <= i < |s| - |r| ==> IsSpace(s[i])
  {
    if s != [] && IsSpace(s[0]) then TrimStart(s[1..]) else s
  }

  function TrimEnd(s: string): (r: string)
    ensures |r| <= |s| && r == s[..|r|]
    ensures r == [] || !IsSpace(r[|r| - 1])
    ensures forall i :: |r| <= i < |s| ==> IsSpace(s[i])
  {
    if s != [] && IsSpace(s[|s| - 1]) then TrimEnd(s[..|s| - 1]) else s
  }

  /** `String.prototype.trim`. */
  function Trim(s: string): string {
    TrimEnd(TrimStart(s))
  }

  /** `trim` yields the empty string exactly when every character is white space. */
  lemma TrimEmptyIffBlank(s: string)
    ensures Trim(s) == "" <==> forall i :: 0 <= i < |s| ==> IsSpace(s[i])
  {
    var t := TrimStart(s);
    if Trim(s) == "" {
      assert t == [];
    } else {
      var r := Trim(s);
      assert r == t[..|r|];
      assert s[|s| - |t|] == r[0];
    }
  }

  /** Trimming keeps the text between the first and the last non-blank character. */
  lemma TrimKeepsInner(s: string)
    requires s != [] && !IsSpace(s[0]) && !IsSpace(s[|s| - 1])
    ensures Trim(s) == s
  {
  }

  predicate IsDigit(c: char) {
    '0' <= c <= '9'
  }

  function DigitValue(c: char): (d: nat)
    requires IsDigit(c)
    ensures d < 10
  {
    (c as int) - ('0' as int)
  }

  function DigitChar(d: nat): (c: char)
    requires d < 10
    ensures IsDigit(c) && DigitValue(c) == d
  {
    (('0' as int) + d) as char
  }

  predicate AllDigits(s: string) {
    forall i :: 0 <= i < |s| ==> IsDigit(s[i])
  }

  /** The longest prefix of `s` made of decimal digits. */
  function DigitPrefix(s: string): (r: string)
    ensures |r| <= |s| && r == s[..|r|]
    ensures AllDigits(r)
    ensures |r| == |s| || !IsDigit(s[|r|])
  {
    if s != [] && IsDigit(s[0]) then [s[0]] + DigitPrefix(s[1..]) else []
  }

  /** The value of a string of decimal digits, most significant first. */
  function DigitsValue(ds: string): nat
    requires AllDigits(ds)
  {
    if ds == [] then 0 else DigitsValue(ds[..|ds| - 1]) * 10 + DigitValue(ds[|ds| - 1])
  }

  /** `String(n)` for a non-negative integer: no sign and no leading zero. */
  function NatToString(n: nat): (s: string)
    ensures s != [] && AllDigits(s)
    ensures |s| > 1 ==> s[0] != '0'
  {
    if n < 10 then [DigitChar(n)] else NatToString(n / 10) + [DigitChar(n % 10)]
  }

  /** `String(n)` for an integer (numbers of 21 digits and more, which JavaScript
      prints in exponent form, are not modelled). */
  function IntToString(n: int): (s: string)
    ensures s != [] && (s[0] == '-' || IsDigit(s[0]))
    ensures n >= 0 <==> s[0] != '-'
  {
    if n < 0 then "-" + NatToString(-n) else NatToString(n)
  }

  /** `parseInt(s, 10)`: skip leading white space, take an optional sign and the
      longest run of digits after it; `None` stands for NaN (no digit there). */
  function ParseInt(s: string): Option<int> {
    ParseSigned(TrimStart(s))
  }

  function ParseSigned(t: string): Option<int> {
    if t != [] && t[0] == '-' then
      match ParseDigits(t[1..])
      case None => None
      case Some(v) => Some(-v)
    else if t != [] && t[0] == '+' then ParseDigits(t[1..])
    else ParseDigits(t)
  }

  function ParseDigits(b: string): Option<int> {
    var ds := DigitPrefix(b);
    if ds == [] then None else Some(DigitsValue(ds))
  }

  lemma {:induction false} DigitsValueOfNatToString(n: nat)
    ensures DigitsValue(NatToString(n)) == n
  {
    if n >= 10 {
      var s := NatToString(n);
      assert s[..|s| - 1] == NatToString(n / 10);
      DigitsValueOfNatToString(n / 10);
    }
  }

  lemma {:induction false} DigitPrefixOfDigits(ds: string, rest: string)
    requires AllDigits(ds)
    requires rest == [] || !IsDigit(rest[0])
    ensures DigitPrefix(ds + rest) == ds
  {
    if ds != [] {
      assert (ds + rest)[1..] == ds[1..] + rest;
      DigitPrefixOfDigits(ds[1..], rest);
    } else {
      assert ds + rest == rest;
    }
  }

  lemma NatToStringParses(m: nat, rest: string)
    requires rest == [] || !IsDigit(rest[0])
    ensures DigitPrefix(NatToString(m) + rest) == NatToString(m)
    ensures DigitsValue(NatToString(m)) == m
  {
    DigitPrefixOfDigits(NatToString(m), rest);
    DigitsValueOfNatToString(m);
  }

  lemma SignOrDigitIsNotSpace(c: char)
    requires IsDigit(c) || c == '-'
    ensures !IsSpace(c)
  {
  }

  lemma TrimStartOfUnspaced(s: string)
    requires s == [] || !IsSpace(s[0])
    ensures TrimStart(s) == s
  {
  }

  /** A run of digits followed by a non-digit reads as its value, with or
      without a minus sign before it. */
  lemma ParseSignedOfDigits(ds: string, rest: string, m: nat)
    requires ds != [] && AllDigits(ds)
    requires DigitPrefix(ds + rest) == ds && DigitsValue(ds) == m
    ensures ParseSigned(ds + rest) == Some(m)
    ensures ParseSigned("-" + ds + rest) == Some(-(m as int))
  {
    var t := ds + rest;
    assert t[0] == ds[0];
    var u := "-" + ds + rest;
    assert u[0] == '-' && u[1..] == t;
  }

  /** The digits `String(m)` writes read back as `m`, with or without a minus
      sign before them. */
  lemma ParseSignedOfNatToString(m: nat, rest: string)
    requires rest == [] || !IsDigit(rest[0])
    ensures ParseSigned(NatToString(m) + rest) == Some(m)
    ensures ParseSigned("-" + NatToString(m) + rest) == Some(-(m as int))
  {
    NatToStringParses(m, rest);
    ParseSignedOfDigits(NatToString(m), rest, m);
  }

  lemma ParseSignedOfIntToString(n: int, rest: string)
    requires rest == [] || !IsDigit(rest[0])
    ensures ParseSigned(IntToString(n) + rest) == Some(n)
  {
    if n < 0 {
      ParseSignedOfNatToString(-n, rest);
      assert IntToString(n) + rest == "-" + NatToString(-n) + rest;
    } else {
      ParseSignedOfNatToString(n, rest);
    }
  }

  /** `parseInt` reads back what `String(n)` wrote, whatever non-digit text follows. */
  lemma ParseIntOfIntToString(n: int, rest: string)
    requires rest == [] || !IsDigit(rest[0])
    ensures ParseInt(IntToString(n) + rest) == Some(n)
  {
    var s := IntToString(n) + rest;
    SignOrDigitIsNotSpace(s[0]);
    TrimStartOfUnspaced(s);
    ParseSignedOfIntToString(n, rest);
  }

  /** Different numbers have different decimal texts. */
  lemma {:induction false} IntToStringInjective(a: int, b: int)
    ensures IntToString(a) == IntToString(b) ==> a == b
  {
    ParseIntOfIntToString(a, "");
    ParseIntOfIntToString(b, "");
    assert IntToString(a) + "" == IntToString(a);
    assert IntToString(b) + "" == IntToString(b);
  }

  /** `parseInt` gives NaN when the text does not start with white space, a sign
      or a digit. */
  lemma ParseIntNaN(s: string)
    requires s == [] || (!IsSpace(s[0]) && !IsDigit(s[0]) && s[0] != '-' && s[0] != '+')
    ensures ParseInt(s) == None
  {
    assert TrimStart(s) == s;
    assert DigitPrefix(s) == [];
  }

  lemma TwelveText()
    ensures IntToString(12) + "abc" == "12abc"
  {
  }

  /** `parseInt("12abc")` is 12: the number prefix is read and the rest ignored. */
  lemma ParseIntReadsPrefix()
    ensures ParseInt("12abc") == Some(12)
  {
    ParseIntOfIntToString(12, "abc");
    TwelveText();
  }

  function StartsWith(s: string, prefix: string): bool {
    |prefix| <= |s| && s[..|prefix|] == prefix
  }

  function EndsWith(s: string, suffix: string): bool {
    |suffix| <= |s| && s[|s| - |suffix|..] == suffix
  }

  /** The escape character `\x1b` of terminal colour codes, and the code that
      ends a colour. */
  const Esc: char := 27 as char
  const ResetColor: string := [Esc] + "[0m"

  /** The index of the first `c` in `s`. */
  function IndexOf(s: string, c: char): (i: nat)
    requires c in s
    ensures i < |s| && s[i] == c && c !in s[..i]
  {
    if s[0] == c then 0 else 1 + IndexOf(s[1..], c)
  }

  /** `s.replace(c, repl)` with a one-character string pattern: only the first
      occurrence is replaced. */
  function ReplaceFirst(s: string, c: char, repl: string): string {
    if c in s then s[..IndexOf(s, c)] + repl + s[IndexOf(s, c) + 1..] else s
  }

  /** Replacing the first `c` by one character `d` changes that position
      only: the characters before it, and every later one, later `c`s
      included, are kept. */
  lemma ReplaceFirstChangesOnlyFirst(s: string, c: char, d: char)
    ensures var r := ReplaceFirst(s, c, [d]);
      && |r| == |s|
      && (c !in s ==> r == s)
      && (c in s ==>
            && r[IndexOf(s, c)] == d
            && c !in r[..IndexOf(s, c)]
            && (forall j :: 0 <= j < |s| && j != IndexOf(s, c) ==> r[j] == s[j]))
  {
    if c in s {
      var i := IndexOf(s, c);
      var r := ReplaceFirst(s, c, [d]);
      assert r == s[..i] + [d] + s[i + 1..];
      assert r[..i] == s[..i];
    }
  }

  /** `s.replace(/[...]/g, repl)`: every character of `cs` becomes `repl`. */
  function ReplaceAll(s: string, cs: set<char>, repl: char): (r: string)
    ensures |r| == |s|
    ensures forall i :: 0 <= i < |s| ==> r[i] == if s[i] in cs then repl else s[i]
  {
    if s == [] then [] else [if s[0] in cs then repl else s[0]] + ReplaceAll(s[1..], cs, repl)
  }

  /** `parts.join(sep)`. */
  function Join(parts: seq<string>, sep: string): (r: string)
    ensures |parts| == 1 ==> r == parts[0]
  {
    if parts == [] then ""
    else if |parts| == 1 then parts[0]
    else parts[0] + sep + Join(parts[1..], sep)
  }

  /** The start index `Array.prototype.slice(start)` and `String.prototype.slice`
      use: a negative index counts from the end, and both are clamped. */
  function SliceIndex(len: nat, i: int): (k: nat)
    ensures k <= len
  {
    if i < 0 then (if len + i < 0 then 0 else len + i)
    else if i > len then len
    else i
  }

  /** `a.slice(start)`. */
  function SliceFrom<T>(a: seq<T>, start: int): seq<T> {
    a[SliceIndex(|a|, start)..]
  }

  /** `s.slice(0, end)`. */
  function SliceTo<T>(a: seq<T>, end: int): seq<T> {
    a[..SliceIndex(|a|, end)]
  }

  /** `a.slice(-k)` for a positive `k` keeps the last `k` elements, or all of them
      when there are fewer; `a.slice(-0)` is `a.slice(0)` and keeps everything. */
  lemma SliceFromNegative<T>(a: seq<T>, k: int)
    ensures k > 0 ==> SliceFrom(a, -k) == a[|a| - (if k < |a| then k else |a|)..]
    ensures k == 0 ==> SliceFrom(a, -k) == a
  {
  }
}
