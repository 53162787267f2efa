/**
 * String helpers with the JavaScript meaning the core relies on: blank after
 * `trim()`, `startsWith`, `toUpperCase` on Basic Latin and Latin-1 letters,
 * the default string order of `Array.prototype.sort`, and decimal rendering
 * of integers.
 */
module Text {

  /** Characters `String.prototype.trim` removes and `\s` matches. */
  predicate IsWhitespace(c: char)
  {
    c == ' ' || c == '\t' || c == '\n' || c == '\r' || c == '\U{B}' || c == '\U{C}'
    || c == '\U{A0}' || c == '\U{1680}' || '\U{2000}' <= c <= '\U{200A}'
    || c == '\U{2028}' || c == '\U{2029}' || c == '\U{202F}' || c == '\U{205F}'
    || c == '\U{3000}' || c == '\U{FEFF}'
  }

  /** `!s.trim()`: the string is empty once surrounding whitespace is removed. */
  predicate IsBlank(s: string)
  {
    forall i :: 0 <= i < |s| ==> IsWhitespace(s[i])
  }

  predicate StartsWith(s: string, prefix: string)
  {
    |prefix| <= |s| && s[..|prefix|] == prefix
  }

  predicate IsDigit(c: char)
  {
    '0' <= c <= '9'
  }

  predicate AllDigits(s: string)
  {
    forall i :: 0 <= i < |s| ==> IsDigit(s[i])
  }

  /**
    * The upper-case partner of a Basic Latin or Latin-1 lower-case letter
    * (this covers the Spanish á é í ó ú ñ ü): U+0061..U+007A and
    * U+00E0..U+00FE (but not the sign ÷) are 32 below their capitals,
    * ÿ becomes Ÿ (U+0178) and the micro sign µ becomes Greek Μ (U+039C).
    */
  function UpperChar(c: char): char
  {
    if 'a' <= c <= 'z' then (c as int - 32) as char
    else if 0xE0 <= c as int <= 0xFE && c as int != 0xF7 then (c as int - 32) as char
    else if c as int == 0xFF then 0x178 as char
    else if c as int == 0xB5 then 0x39C as char
    else c
  }

  /** `s.toUpperCase()` on Basic Latin and Latin-1 text, one character for one. */
  function Upper(s: string): (r: string)
    ensures |r| == |s|
    ensures forall i :: 0 <= i < |s| ==> r[i] == UpperChar(s[i])
  {
    if s == [] then [] else [UpperChar(s[0])] + Upper(s[1..])
  }

  /** Upper-casing text that is already upper-cased changes nothing. */
  lemma UpperIdempotent(s: string)
    ensures Upper(Upper(s)) == Upper(s)
  {
    assert forall i :: 0 <= i < |s| ==> UpperChar(UpperChar(s[i])) == UpperChar(s[i]);
  }

  /** `s.split(sep)[0]`: the text before the first occurrence of `sep`. */
  function BeforeFirst(s: string, sep: string): string
    requires sep != []
    decreases |s|
  {
    if |s| < |sep| then s
    else if s[..|sep|] == sep then []
    else [s[0]] + BeforeFirst(s[1..], sep)
  }

  /** Strict code-point order on strings: the comparison the default `sort()` uses. */
  predicate StrLt(a: string, b: string)
    decreases |a|
  {
    if a == [] then b != []
    else if b == [] then false
    else if a[0] == b[0] then StrLt(a[1..], b[1..])
    else a[0] < b[0]
  }

  predicate StrLe(a: string, b: string)
  {
    a == b || StrLt(a, b)
  }

  lemma {:induction false} StrLtIrreflexive(a: string)
    ensures !StrLt(a, a)
    decreases |a|
  {
    if a != [] {
      StrLtIrreflexive(a[1..]);
    }
  }

  lemma {:induction false} StrLtTransitive(a: string, b: string, c: string)
    requires StrLt(a, b) && StrLt(b, c)
    ensures StrLt(a, c)
    decreases |a|
  {
    if a != [] && a[0] == b[0] && b[0] == c[0] {
      StrLtTransitive(a[1..], b[1..], c[1..]);
    }
  }

  lemma {:induction false} StrLtTotal(a: string, b: string)
    ensures a == b || StrLt(a, b) || StrLt(b, a)
    decreases |a|
  {
    if a != [] && b != [] && a[0] == b[0] {
      StrLtTotal(a[1..], b[1..]);
      if a[1..] == b[1..] {
        assert a == [a[0]] + a[1..] && b == [b[0]] + b[1..];
      }
    }
  }

  lemma {:induction false} StrLtAsymmetric(a: string, b: string)
    requires StrLt(a, b)
    ensures !StrLt(b, a)
  {
    if StrLt(b, a) {
      StrLtTransitive(a, b, a);
      StrLtIrreflexive(a);
    }
  }

  lemma StrLeTotal(a: string, b: string)
    ensures StrLe(a, b) || StrLe(b, a)
  {
    StrLtTotal(a, b);
  }

  lemma StrLeTransitive(a: string, b: string, c: string)
    requires StrLe(a, b) && StrLe(b, c)
    ensures StrLe(a, c)
  {
    if a != b && b != c {
      StrLtTransitive(a, b, c);
    }
  }

  /** Two strings each at most the other are equal. */
  lemma StrLeAntisymmetric(a: string, b: string)
    requires StrLe(a, b) && StrLe(b, a)
    ensures a == b
  {
    if a != b {
      StrLtAsymmetric(a, b);
    }
  }

  function DigitChar(d: int): char
    requires 0 <= d < 10
  {
    ('0' as int + d) as char
  }

  /** `n.toString()` for a non-negative integer. */
  function NatToString(n: nat): (r: string)
    ensures 1 <= |r|
    ensures AllDigits(r)
    decreases n
  {
    if n < 10 then [DigitChar(n)] else NatToString(n / 10) + [DigitChar(n % 10)]
  }

  /** Reads a string of decimal digits back as a number. */
  function DigitsValue(s: string): nat
    requires AllDigits(s)
  {
    if s == [] then 0 else 10 * DigitsValue(s[..|s| - 1]) + (s[|s| - 1] as int - '0' as int)
  }

  /** `n` zero digits. */
  function Zeros(n: nat): (z: string)
    ensures |z| == n
    ensures forall i :: 0 <= i < n ==> z[i] == '0'
  {
    seq(n, _ => '0')
  }

  /** `s.padStart(width, '0')`: zeros in front up to `width` characters; a longer `s` is kept whole. */
  function PadZero(s: string, width: nat): (r: string)
    ensures |r| == if |s| < width then width else |s|
    ensures r[|r| - |s|..] == s
    ensures forall i :: 0 <= i < |r| - |s| ==> r[i] == '0'
  {
    if |s| < width then Zeros(width - |s|) + s else s
  }
}
