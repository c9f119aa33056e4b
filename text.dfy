/** Character classes, decimal numerals, substring search, whitespace trimming
    and the few `fmt` verbs the checks use to build their messages. */
module Text {

  predicate IsDigit(c: char) {
    '0' <= c <= '9'
  }

  predicate AllDigits(s: string) {
    forall i :: 0 <= i < |s| ==> IsDigit(s[i])
  }

  /** Go's `unicode.IsSpace`, which `strings.TrimSpace` uses. */
  predicate IsSpace(c: char) {
    var n := c as int;
    (9 <= n <= 13) || n == 32 || n == 0x85 || n == 0xA0 || n == 0x1680
    || (0x2000 <= n <= 0x200A) || n == 0x2028 || n == 0x2029 || n == 0x202F
    || n == 0x205F || n == 0x3000
  }

  predicate AllSpace(s: string) {
    forall i :: 0 <= i < |s| ==> IsSpace(s[i])
  }

  /** The class `\s` of Go's regular expressions: `[\t\n\f\r ]`. */
  predicate IsRegexSpace(c: char) {
    c == ' ' || c == '\t' || c == '\n' || c == '\U{C}' || c == '\r'
  }

  function DigitValue(c: char): (d: nat)
    requires IsDigit(c)
    ensures d < 10
  {
    c as int - '0' as int
  }

  function DigitChar(d: nat): (c: char)
    requires d < 10
    ensures IsDigit(c) && DigitValue(c) == d
  {
    ('0' as int + d) as char
  }

  function Pow10(k: nat): (p: nat)
    ensures p >= 1
  {
    if k == 0 then 1 else 10 * Pow10(k - 1)
  }

  /** The value of a numeral written in decimal, most significant digit first. */
  function DecimalValue(s: string): (n: nat)
    requires AllDigits(s)
    ensures n < Pow10(|s|)
  {
    if s == [] then 0 else DecimalValue(s[..|s| - 1]) * 10 + DigitValue(s[|s| - 1])
  }

  /** `%d` of a non-negative integer: the shortest decimal numeral. */
  function NatToString(n: nat): (s: string)
    ensures |s| >= 1 && AllDigits(s)
    ensures |s| > 1 ==> s[0] != '0'
  {
    if n < 10 then [DigitChar(n)] else NatToString(n / 10) + [DigitChar(n % 10)]
  }

  lemma {:induction false} DecimalRoundTrip(n: nat)
    ensures DecimalValue(NatToString(n)) == n
  {
    var s := NatToString(n);
    if n >= 10 {
      DecimalRoundTrip(n / 10);
      assert s[..|s| - 1] == NatToString(n / 10);
    }
  }

  /** `%d` of any integer. */
  function IntToString(i: int): (s: string)
    ensures |s| >= 1
    ensures i >= 0 ==> AllDigits(s) && DecimalValue(s) == i
    ensures i < 0 ==> s[0] == '-' && AllDigits(s[1..]) && DecimalValue(s[1..]) == -i
  {
    DecimalRoundTrip(if i >= 0 then i else -i);
    if i >= 0 then NatToString(i) else "-" + NatToString(-i)
  }

  /** Go's `strings.Contains(s, sub)`. */
  predicate Contains(s: string, sub: string) {
    |sub| <= |s| && (s[..|sub|] == sub || Contains(s[1..], sub))
  }

  /** Every piece of a concatenation is contained in it. */
  lemma {:induction false} ContainsPiece(a: string, sub: string, b: string)
    ensures Contains(a + sub + b, sub)
  {
    if a == [] {
      assert (a + sub + b)[..|sub|] == sub;
    } else {
      assert (a + sub + b)[1..] == a[1..] + sub + b;
      ContainsPiece(a[1..], sub, b);
    }
  }

  lemma ContainsSelf(s: string)
    ensures Contains(s, s)
  {
  }

  lemma {:induction false} ContainsRight(x: string, y: string, sub: string)
    requires Contains(y, sub)
    ensures Contains(x + y, sub)
  {
    assert |sub| <= |y|;
    if x == [] {
      assert x + y == y;
    } else {
      assert (x + y)[1..] == x[1..] + y;
      ContainsRight(x[1..], y, sub);
    }
  }

  lemma {:induction false} ContainsLeft(x: string, y: string, sub: string)
    requires Contains(x, sub)
    ensures Contains(x + y, sub)
  {
    if x[..|sub|] != sub {
      assert (x + y)[1..] == x[1..] + y;
      ContainsLeft(x[1..], y, sub);
    } else {
      assert (x + y)[..|sub|] == x[..|sub|];
    }
  }

  function TrimLeft(s: string): string {
    if s != [] && IsSpace(s[0]) then TrimLeft(s[1..]) else s
  }

  function TrimRight(s: string): string {
    if s != [] && IsSpace(s[|s| - 1]) then TrimRight(s[..|s| - 1]) else s
  }

  /** Go's `strings.TrimSpace`: the text without its leading and trailing white space. */
  function TrimSpace(s: string): string {
    TrimRight(TrimLeft(s))
  }

  /** `TrimLeft` drops a prefix of white space and stops at the first other character. */
  lemma {:induction false} TrimLeftShape(s: string)
    ensures var r := TrimLeft(s);
      |r| <= |s| && r == s[|s| - |r|..] && AllSpace(s[..|s| - |r|]) && (r == [] || !IsSpace(r[0]))
  {
    if s != [] && IsSpace(s[0]) {
      TrimLeftShape(s[1..]);
      var r := TrimLeft(s);
      assert s[..|s| - |r|] == [s[0]] + s[1..][..|s[1..]| - |r|];
    }
  }

  /** `TrimRight` drops a suffix of white space and stops at the last other character. */
  lemma {:induction false} TrimRightShape(s: string)
    ensures var r := TrimRight(s);
      |r| <= |s| && r == s[..|r|] && AllSpace(s[|r|..]) && (r == [] || !IsSpace(r[|r| - 1]))
  {
    if s != [] && IsSpace(s[|s| - 1]) {
      var p := s[..|s| - 1];
      TrimRightShape(p);
      var r := TrimRight(s);
      assert s[|r|..] == p[|r|..] + [s[|s| - 1]];
    }
  }

  /** The trimmed text is the piece of the original that starts where the
      leading white space ends, with only white space around it, and it
      neither starts nor ends with white space. */
  lemma TrimSpaceShape(s: string)
    ensures var i, t := |s| - |TrimLeft(s)|, TrimSpace(s);
      && 0 <= i && i + |t| <= |s| && s[i..i + |t|] == t
      && AllSpace(s[..i]) && AllSpace(s[i + |t|..])
      && (t == [] || (!IsSpace(t[0]) && !IsSpace(t[|t| - 1])))
  {
    var l := TrimLeft(s);
    TrimLeftShape(s);
    TrimRightShape(l);
    var t := TrimRight(l);
    var i := |s| - |l|;
    assert l == s[i..];
    assert s[i..i + |t|] == t by {
      assert s[i..i + |t|] == s[i..][..|t|];
    }
    assert s[i + |t|..] == l[|t|..] by {
      assert s[i + |t|..] == s[i..][|t|..];
    }
  }

  lemma {:induction false} TrimLeftPadded(before: string, u: string)
    requires AllSpace(before)
    requires u == [] || !IsSpace(u[0])
    ensures TrimLeft(before + u) == u
  {
    if before != [] {
      assert (before + u)[1..] == before[1..] + u;
      TrimLeftPadded(before[1..], u);
    }
  }

  lemma {:induction false} TrimRightPadded(u: string, after: string)
    requires AllSpace(after)
    requires u == [] || !IsSpace(u[|u| - 1])
    ensures TrimRight(u + after) == u
  {
    if after != [] {
      assert (u + after)[..|u + after| - 1] == u + after[..|after| - 1];
      TrimRightPadded(u, after[..|after| - 1]);
    }
  }

  /** Trimming removes exactly the white space around a text that neither
      starts nor ends with white space. */
  lemma TrimPadded(before: string, t: string, after: string)
    requires AllSpace(before) && AllSpace(after)
    requires t == [] || (!IsSpace(t[0]) && !IsSpace(t[|t| - 1]))
    ensures TrimSpace(before + t + after) == t
  {
    if t == [] {
      assert before + t + after == before + after;
      TrimLeftPadded(before + after, []);
      assert before + after + [] == before + after;
    } else {
      assert before + t + after == before + (t + after);
      TrimLeftPadded(before, t + after);
    }
    TrimRightPadded(t, after);
  }

  lemma TrimIdempotent(s: string)
    ensures TrimSpace(TrimSpace(s)) == TrimSpace(s)
  {
    TrimSpaceShape(s);
    var t := TrimSpace(s);
    TrimPadded([], t, []);
    assert [] + t + [] == t;
  }

  function JoinInts(xs: seq<int>): string {
    if xs == [] then "" else if |xs| == 1 then IntToString(xs[0])
    else IntToString(xs[0]) + " " + JoinInts(xs[1..])
  }

  /** `%+v` of a slice of integers: the elements in brackets, separated by spaces. */
  function FormatInts(xs: seq<int>): (s: string)
    ensures |s| >= 2 && s[0] == '[' && s[|s| - 1] == ']'
  {
    "[" + JoinInts(xs) + "]"
  }
}
