/** The two fixed patterns of services.go, written as recognisers.
    `serviceListOutputRegex` = `([a-z-]+)[^\d]*(\d+)$` finds the pid at the end
    of an Upstart `status` line; `psOutputRegex` =
    `([^\s]+)\s+([^\s]+)\s+([^\s]+)` takes user, pid and etime from a `ps` line.
    Both are matched unanchored at the start. */
module Recognisers {
  import opened Wrappers
  import opened Text

  // ---------------------------------------------------------------- status line

  predicate IsNameChar(c: char) {
    ('a' <= c <= 'z') || c == '-'
  }

  /** Regex semantics of the status pattern, as a relation: group 1 covers
      [p, i), the `[^\d]*` part [i, q), group 2 [q, |s|). */
  predicate StatusMatch(s: string, p: nat, i: nat, q: nat) {
    p < i <= q < |s|
    && (forall k :: p <= k < i ==> IsNameChar(s[k]))
    && (forall k :: i <= k < q ==> !IsDigit(s[k]))
    && (forall k :: q <= k < |s| ==> IsDigit(s[k]))
  }

  /** Where the run of digits that ends the text begins. */
  function TrailingDigitsStart(s: string): (q: nat)
    ensures q <= |s|
    ensures forall k :: q <= k < |s| ==> IsDigit(s[k])
    ensures q == 0 || !IsDigit(s[q - 1])
  {
    if s != [] && IsDigit(s[|s| - 1]) then TrailingDigitsStart(s[..|s| - 1]) else |s|
  }

  /** Where the run of non-digits that ends at q begins. */
  function NonDigitsStart(s: string, q: nat): (m: nat)
    requires q <= |s|
    ensures m <= q
    ensures forall k :: m <= k < q ==> !IsDigit(s[k])
    ensures m == 0 || IsDigit(s[m - 1])
  {
    if q > 0 && !IsDigit(s[q - 1]) then NonDigitsStart(s, q - 1) else q
  }

  /** The last position in [m, q) holding a lower-case letter or '-', if any. */
  function LastNameChar(s: string, m: nat, q: nat): (r: Option<nat>)
    requires m <= q <= |s|
    ensures r.Some? ==> m <= r.value < q && IsNameChar(s[r.value])
    ensures r.None? ==> forall k :: m <= k < q ==> !IsNameChar(s[k])
    decreases q
  {
    if q <= m then None
    else if IsNameChar(s[q - 1]) then Some(q - 1)
    else LastNameChar(s, m, q - 1)
  }

  /** `serviceListOutputRegex.FindStringSubmatch(app)[2]`, or None when the
      pattern does not match: the pid is the run of digits that ends the text. */
  function StatusPid(s: string): (r: Option<string>)
    ensures r.Some? ==> |r.value| >= 1 && AllDigits(r.value)
    ensures r.Some? ==> |r.value| < |s| && r.value == s[|s| - |r.value|..]
    ensures r.Some? ==> !IsDigit(s[|s| - |r.value| - 1])
  {
    var q := TrailingDigitsStart(s);
    if q == |s| then None
    else
      var m := NonDigitsStart(s, q);
      if LastNameChar(s, m, q).Some? then Some(s[q..]) else None
  }

  /** Whatever match the regex engine picks, its group 2 is what StatusPid returns. */
  lemma StatusPidComplete(s: string, p: nat, i: nat, q: nat)
    requires StatusMatch(s, p, i, q)
    ensures StatusPid(s) == Some(s[q..])
  {
    assert !IsDigit(s[q - 1]);
    var t := TrailingDigitsStart(s);
    assert t == q;
    var m := NonDigitsStart(s, q);
    assert !IsDigit(s[p]);
    assert m <= p;
    assert IsNameChar(s[p]);
  }

  /** When StatusPid finds a pid, the pattern matches with that pid as group 2. */
  lemma StatusPidSound(s: string)
    requires StatusPid(s).Some?
    ensures StatusPid(s).value == s[TrailingDigitsStart(s)..]
    ensures exists p: nat, i: nat :: StatusMatch(s, p, i, TrailingDigitsStart(s))
  {
    var q := TrailingDigitsStart(s);
    var m := NonDigitsStart(s, q);
    var p := LastNameChar(s, m, q).value;
    assert StatusMatch(s, p, p + 1, q);
  }

  /** `serviceListOutputRegex.MatchString` exactly when StatusPid finds a pid. */
  lemma StatusMatchIff(s: string)
    ensures StatusPid(s).Some? <==> exists p: nat, i: nat, q: nat :: StatusMatch(s, p, i, q)
  {
    if StatusPid(s).Some? {
      StatusPidSound(s);
    }
    if exists p: nat, i: nat, q: nat :: StatusMatch(s, p, i, q) {
      var p: nat, i: nat, q: nat :| StatusMatch(s, p, i, q);
      StatusPidComplete(s, p, i, q);
    }
  }

  // ---------------------------------------------------------------- ps line

  datatype PsLine = PsLine(user: string, pid: string, etime: string)

  predicate NoSpace(t: string) {
    forall k :: 0 <= k < |t| ==> !IsRegexSpace(t[k])
  }

  /** The first position at or after i that is not `\s`. */
  function SkipSpace(s: string, i: nat): (j: nat)
    requires i <= |s|
    ensures i <= j <= |s|
    ensures forall k :: i <= k < j ==> IsRegexSpace(s[k])
    ensures j == |s| || !IsRegexSpace(s[j])
    decreases |s| - i
  {
    if i < |s| && IsRegexSpace(s[i]) then SkipSpace(s, i + 1) else i
  }

  /** The first position at or after i that is `\s`, or the end. */
  function TokenEnd(s: string, i: nat): (j: nat)
    requires i <= |s|
    ensures i <= j <= |s|
    ensures forall k :: i <= k < j ==> !IsRegexSpace(s[k])
    ensures j == |s| || IsRegexSpace(s[j])
    decreases |s| - i
  {
    if i < |s| && !IsRegexSpace(s[i]) then TokenEnd(s, i + 1) else i
  }

  /** Regex semantics of the ps pattern at the leftmost start, as positions:
      leading space [0, a), group 1 [a, b), space [b, c), group 2 [c, d),
      space [d, e), group 3 [e, f), and group 3 runs to a space or the end. */
  predicate FieldsAt(s: string, a: nat, b: nat, c: nat, d: nat, e: nat, f: nat) {
    a < b < c < d < e < f <= |s|
    && (forall k :: 0 <= k < a ==> IsRegexSpace(s[k]))
    && (forall k :: a <= k < b ==> !IsRegexSpace(s[k]))
    && (forall k :: b <= k < c ==> IsRegexSpace(s[k]))
    && (forall k :: c <= k < d ==> !IsRegexSpace(s[k]))
    && (forall k :: d <= k < e ==> IsRegexSpace(s[k]))
    && (forall k :: e <= k < f ==> !IsRegexSpace(s[k]))
    && (f == |s| || IsRegexSpace(s[f]))
  }

  /** `psOutputRegex.FindStringSubmatch(out)[1..4]`, or None when the pattern
      does not match: the first three white-space separated tokens. */
  function PsFields(s: string): (r: Option<PsLine>)
    ensures r.Some? ==> |r.value.user| >= 1 && |r.value.pid| >= 1 && |r.value.etime| >= 1
    ensures r.Some? ==> NoSpace(r.value.user) && NoSpace(r.value.pid) && NoSpace(r.value.etime)
  {
    var a := SkipSpace(s, 0);
    var b := TokenEnd(s, a);
    var c := SkipSpace(s, b);
    var d := TokenEnd(s, c);
    var e := SkipSpace(s, d);
    var f := TokenEnd(s, e);
    if a < b && b < c && c < d && d < e && e < f then Some(PsLine(s[a..b], s[c..d], s[e..f]))
    else None
  }

  /** The tokens PsFields returns sit where the pattern puts its groups. */
  lemma PsFieldsSound(s: string)
    requires PsFields(s).Some?
    ensures exists a: nat, b: nat, c: nat, d: nat, e: nat, f: nat ::
      FieldsAt(s, a, b, c, d, e, f) && PsFields(s).value == PsLine(s[a..b], s[c..d], s[e..f])
  {
    var a := SkipSpace(s, 0);
    var b := TokenEnd(s, a);
    var c := SkipSpace(s, b);
    var d := TokenEnd(s, c);
    var e := SkipSpace(s, d);
    var f := TokenEnd(s, e);
    assert FieldsAt(s, a, b, c, d, e, f);
  }

  /** Any text shaped like the pattern gives exactly those three groups. */
  lemma PsFieldsComplete(s: string, a: nat, b: nat, c: nat, d: nat, e: nat, f: nat)
    requires FieldsAt(s, a, b, c, d, e, f)
    ensures PsFields(s) == Some(PsLine(s[a..b], s[c..d], s[e..f]))
  {
    SkipSpaceIs(s, 0, a);
    TokenEndIs(s, a, b);
    SkipSpaceIs(s, b, c);
    TokenEndIs(s, c, d);
    SkipSpaceIs(s, d, e);
    TokenEndIs(s, e, f);
  }

  lemma SkipSpaceIs(s: string, i: nat, j: nat)
    requires i <= j <= |s|
    requires forall k :: i <= k < j ==> IsRegexSpace(s[k])
    requires j == |s| || !IsRegexSpace(s[j])
    ensures SkipSpace(s, i) == j
  {
    var r := SkipSpace(s, i);
    assert r == j;
  }

  lemma TokenEndIs(s: string, i: nat, j: nat)
    requires i <= j <= |s|
    requires forall k :: i <= k < j ==> !IsRegexSpace(s[k])
    requires j == |s| || IsRegexSpace(s[j])
    ensures TokenEnd(s, i) == j
  {
    var r := TokenEnd(s, i);
    assert r == j;
  }

  /** `psOutputRegex.MatchString` exactly when the text has three tokens. */
  lemma PsMatchIff(s: string)
    ensures PsFields(s).Some? <==>
      exists a: nat, b: nat, c: nat, d: nat, e: nat, f: nat :: FieldsAt(s, a, b, c, d, e, f)
  {
    if PsFields(s).Some? {
      PsFieldsSound(s);
    }
    if exists a: nat, b: nat, c: nat, d: nat, e: nat, f: nat :: FieldsAt(s, a, b, c, d, e, f) {
      var a: nat, b: nat, c: nat, d: nat, e: nat, f: nat :| FieldsAt(s, a, b, c, d, e, f);
      PsFieldsComplete(s, a, b, c, d, e, f);
    }
  }

  lemma NoSpaceIn(s: string, i: nat, j: nat)
    requires i <= j <= |s| && NoSpace(s[i..j])
    ensures forall k :: i <= k < j ==> !IsRegexSpace(s[k])
  {
    forall k | i <= k < j ensures !IsRegexSpace(s[k]) {
      assert s[k] == s[i..j][k - i];
    }
  }

  lemma TokensLayout(user: string, pid: string, etime: string)
    ensures var s := user + " " + pid + " " + etime;
      var b, d := |user|, |user| + 1 + |pid|;
      && |s| == d + 1 + |etime|
      && s[0..b] == user && s[b] == ' ' && s[b + 1..d] == pid && s[d] == ' ' && s[d + 1..] == etime
  {
  }

  /** Three tokens separated by single spaces read back as user, pid and
      elapsed time: the recogniser inverts the way `ps` lays out a line. */
  lemma PsFieldsOfTokens(user: string, pid: string, etime: string)
    requires |user| >= 1 && |pid| >= 1 && |etime| >= 1
    requires NoSpace(user) && NoSpace(pid) && NoSpace(etime)
    ensures PsFields(user + " " + pid + " " + etime) == Some(PsLine(user, pid, etime))
  {
    var s := user + " " + pid + " " + etime;
    var b := |user|;
    var d := b + 1 + |pid|;
    var f := |s|;
    TokensLayout(user, pid, etime);
    assert s[d + 1..f] == s[d + 1..];
    NoSpaceIn(s, 0, b);
    NoSpaceIn(s, b + 1, d);
    NoSpaceIn(s, d + 1, f);
    assert FieldsAt(s, 0, b, b + 1, d, d + 1, f);
    PsFieldsComplete(s, 0, b, b + 1, d, d + 1, f);
  }
}
