/** The few JavaScript string operations the client relies on:
    `String.prototype.trim`, `String.prototype.includes` and the decimal
    rendering of an integer inside a template literal. */
module Strings {

  import opened Types

  /** The code points ECMAScript's `trim` strips: WhiteSpace (tab, vertical
      tab, form feed, space, no-break space, byte order mark and the Unicode
      space separators) and LineTerminator (LF, CR, U+2028, U+2029). */
  predicate IsWhitespace(c: char)
  {
    var n := c as int;
    n == 0x09 || n == 0x0A || n == 0x0B || n == 0x0C || n == 0x0D || n == 0x20
    || n == 0xA0 || n == 0x1680 || (0x2000 <= n <= 0x200A) || n == 0x2028
    || n == 0x2029 || n == 0x202F || n == 0x205F || n == 0x3000 || n == 0xFEFF
  }

  predicate AllWhitespace(s: string)
  {
    forall i :: 0 <= i < |s| ==> IsWhitespace(s[i])
  }

  /** Where `trim` starts cutting: the number of leading whitespace
      characters, that is the index of the first character that is not
      whitespace, or the length when there is none. */
  function LeadingWhitespace(s: string): (k: nat)
    ensures k <= |s|
    ensures forall i :: 0 <= i < k ==> IsWhitespace(s[i])
    ensures k == |s| || !IsWhitespace(s[k])
  {
    if |s| == 0 || !IsWhitespace(s[0]) then 0
    else 1 + LeadingWhitespace(s[1..])
  }

  /** Where `trim` stops keeping, scanning back from `hi` to no further
      than `lo`: every character from the result up to `hi` is whitespace,
      and the one just before the result is not (unless `lo` is reached). */
  function TrailingWhitespaceStart(s: string, lo: nat, hi: nat): (e: nat)
    requires lo <= hi <= |s|
    ensures lo <= e <= hi
    ensures forall i :: e <= i < hi ==> IsWhitespace(s[i])
    ensures e == lo || !IsWhitespace(s[e - 1])
    decreases hi
  {
    if hi == lo || !IsWhitespace(s[hi - 1]) then hi
    else TrailingWhitespaceStart(s, lo, hi - 1)
  }

  /** `s.trim()`: the slice between the leading and the trailing whitespace. */
  function Trim(s: string): (r: string)
    ensures LeadingWhitespace(s) + |r| <= |s|
    ensures r <= s[LeadingWhitespace(s)..]
    ensures forall i :: LeadingWhitespace(s) + |r| <= i < |s| ==> IsWhitespace(s[i])
  {
    var k := LeadingWhitespace(s);
    s[k..TrailingWhitespaceStart(s, k, |s|)]
  }

  /** The leading whitespace count is the only index before which all is
      whitespace and at which a non-whitespace character (or the end)
      stands. */
  lemma LeadingWhitespaceUnique(s: string, k: nat)
    requires k <= |s|
    requires forall i :: 0 <= i < k ==> IsWhitespace(s[i])
    requires k == |s| || !IsWhitespace(s[k])
    ensures LeadingWhitespace(s) == k
  {
  }

  /** `Trim(s)` neither starts nor ends with whitespace. */
  lemma TrimHasNoOuterWhitespace(s: string)
    ensures Trim(s) == [] || (!IsWhitespace(Trim(s)[0]) && !IsWhitespace(Trim(s)[|Trim(s)| - 1]))
  {
    var k := LeadingWhitespace(s);
    var e := TrailingWhitespaceStart(s, k, |s|);
    if e != k {
      assert Trim(s)[0] == s[k];
      assert Trim(s)[|Trim(s)| - 1] == s[e - 1];
    }
  }

  /** The text is blank exactly when trimming leaves nothing. */
  lemma TrimEmptyIffBlank(s: string)
    ensures Trim(s) == [] <==> AllWhitespace(s)
  {
    var k := LeadingWhitespace(s);
    var e := TrailingWhitespaceStart(s, k, |s|);
    if e != k {
      assert !IsWhitespace(s[e - 1]);
    }
  }

  /** Trimming twice is trimming once. */
  lemma TrimIdempotent(s: string)
    ensures Trim(Trim(s)) == Trim(s)
  {
    TrimHasNoOuterWhitespace(s);
    var r := Trim(s);
    assert LeadingWhitespace(r) == 0;
    assert TrailingWhitespaceStart(r, 0, |r|) == |r|;
    assert r[0..|r|] == r;
  }

  /** Whitespace in front of an already trimmed text is cut off again:
      trimming gives back that text. */
  lemma TrimPadded(pad: string, x: string)
    requires AllWhitespace(pad)
    requires Trim(x) == x
    ensures Trim(pad + x) == x
  {
    TrimHasNoOuterWhitespace(x);
    var s := pad + x;
    LeadingWhitespaceUnique(s, |pad|);
    assert TrailingWhitespaceStart(s, |pad|, |s|) == |s|;
    assert s[|pad|..|s|] == x;
  }

  /** What a form submit passes on: the trimmed text, unless that is empty
      (JavaScript treats the empty string as false). */
  function TrimmedIfNotBlank(s: string): (r: Option<string>)
    ensures r.Some? <==> !AllWhitespace(s)
    ensures r.Some? ==> r.value != [] && Trim(r.value) == r.value
    ensures r.Some? ==> r.value == Trim(s)
  {
    TrimEmptyIffBlank(s);
    TrimIdempotent(s);
    if Trim(s) != [] then Some(Trim(s)) else None
  }

  /** `s.includes(sub)`: `sub` occurs in `s` at some position. */
  predicate Contains(s: string, sub: string)
    ensures Contains(s, sub) ==> |sub| <= |s|
  {
    sub <= s || (|s| > 0 && Contains(s[1..], sub))
  }

  lemma ContainsPrefix(sub: string, rest: string)
    ensures Contains(sub + rest, sub)
  {
    assert (sub + rest)[..|sub|] == sub;
  }

  /** `Contains` means an occurrence at an explicit position `i`. */
  lemma {:induction false} ContainsAt(s: string, sub: string) returns (i: nat)
    requires Contains(s, sub)
    ensures i + |sub| <= |s| && s[i..i + |sub|] == sub
  {
    if sub <= s {
      i := 0;
    } else {
      var j := ContainsAt(s[1..], sub);
      assert s[1..][j..j + |sub|] == s[j + 1..j + 1 + |sub|];
      i := j + 1;
    }
  }

  /** The converse: an occurrence at any position `i` makes `Contains` hold,
      so `Contains` is exactly "occurs somewhere". */
  lemma {:induction false} ContainsFromAt(s: string, sub: string, i: nat)
    requires i + |sub| <= |s| && s[i..i + |sub|] == sub
    ensures Contains(s, sub)
  {
    if i == 0 {
      assert s[..|sub|] == sub;
    } else {
      assert s[1..][i - 1..i - 1 + |sub|] == s[i..i + |sub|];
      ContainsFromAt(s[1..], sub, i - 1);
    }
  }

  function DigitChar(d: nat): (c: char)
    requires d < 10
    ensures '0' <= c <= '9'
  {
    (('0' as int) + d) as char
  }

  function DigitValue(c: char): (d: nat)
    requires '0' <= c <= '9'
    ensures d < 10
  {
    (c as int) - ('0' as int)
  }

  predicate IsDigits(s: string)
  {
    forall i :: 0 <= i < |s| ==> '0' <= s[i] <= '9'
  }

  /** Decimal rendering of a natural number, as a template literal shows it. */
  function NatToString(n: nat): (r: string)
    ensures |r| > 0 && IsDigits(r)
    ensures r[0] != '0' || r == "0"
    ensures r == "0" ==> n == 0
    decreases n
  {
    if n < 10 then [DigitChar(n)] else NatToString(n / 10) + [DigitChar(n % 10)]
  }

  /** Reads a decimal numeral back: the partner of `NatToString`. */
  function ParseNat(s: string): nat
    requires IsDigits(s)
  {
    if |s| == 0 then 0 else ParseNat(s[..|s| - 1]) * 10 + DigitValue(s[|s| - 1])
  }

  /** Rendering loses nothing: reading the numeral back gives the number. */
  lemma {:induction false} ParseNatToString(n: nat)
    ensures ParseNat(NatToString(n)) == n
    decreases n
  {
    var r := NatToString(n);
    if n < 10 {
      assert r[..|r| - 1] == [];
    } else {
      var p := NatToString(n / 10);
      assert r[..|r| - 1] == p;
      ParseNatToString(n / 10);
    }
  }

  /** Decimal rendering of an integer, with a leading minus sign when negative. */
  function IntToString(i: int): string
  {
    if i < 0 then "-" + NatToString(-i) else NatToString(i)
  }

  /** A rendered integer starts with a minus sign exactly when it is negative. */
  lemma IntToStringSign(i: int)
    ensures |IntToString(i)| > 0 && (IntToString(i)[0] == '-' <==> i < 0)
  {
    if i >= 0 {
      var r := NatToString(i);
      assert '0' <= r[0] <= '9';
    }
  }

  /** Different integers render differently: a leading minus sign marks
      exactly the negative ones, and the digits read back to the magnitude. */
  lemma IntToStringInjective(a: int, b: int)
    requires IntToString(a) == IntToString(b)
    ensures a == b
  {
    IntToStringSign(a);
    IntToStringSign(b);
    if a < 0 && b < 0 {
      assert NatToString(-a) == IntToString(a)[1..] == NatToString(-b);
      ParseNatToString(-a);
      ParseNatToString(-b);
    } else if a >= 0 && b >= 0 {
      ParseNatToString(a);
      ParseNatToString(b);
    }
  }

  /** `${status}`: a status code in decimal, a named status as it is. */
  function StatusText(s: Status): string
  {
    match s
    case Code(c) => IntToString(c)
    case Named(n) => n
  }

  /** JavaScript truthiness of a status: the code 0 and the empty name are false. */
  predicate StatusTruthy(s: Status)
  {
    match s
    case Code(c) => c != 0
    case Named(n) => n != ""
  }
}
