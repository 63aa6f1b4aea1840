/**
 * The string operations the source relies on: ASCII lower-casing,
 * substring search (`String.prototype.includes`), case-insensitive
 * matching of a literal pattern (`/word/i.test`), whitespace trimming
 * (`String.prototype.trim`) and decimal rendering of integers.
 */
module Text {

  function LowerChar(c: char): char {
    if 'A' <= c <= 'Z' then (c as int + 32) as char else c
  }

  function Lower(s: string): (r: string)
    ensures |r| == |s|
    ensures forall i :: 0 <= i < |s| ==> r[i] == LowerChar(s[i])
  {
    seq(|s|, i requires 0 <= i < |s| => LowerChar(s[i]))
  }

  /** `w` occurs in `s` starting at index `k`. */
  ghost predicate OccursAt(s: string, w: string, k: int) {
    0 <= k && k + |w| <= |s| && s[k..k + |w|] == w
  }

  /** `s.includes(w)`. */
  function Includes(s: string, w: string): (r: bool)
    ensures r <==> exists k :: OccursAt(s, w, k)
    decreases |s|
  {
    if |w| > |s| then false
    else if s[..|w|] == w then assert OccursAt(s, w, 0); true
    else
      var rest := Includes(s[1..], w);
      assert forall k :: OccursAt(s[1..], w, k) <==> OccursAt(s, w, k + 1);
      assert forall k :: OccursAt(s, w, k) ==> k == 0 || OccursAt(s[1..], w, k - 1);
      rest
  }

  /** Characters `s[k..k+|w|]` equal `w` up to ASCII case. */
  predicate MatchesIgnoringCaseAt(s: string, w: string, k: nat)
    requires k + |w| <= |s|
  {
    forall j :: 0 <= j < |w| ==> LowerChar(s[k + j]) == LowerChar(w[j])
  }

  /** `new RegExp(w, "i").test(s)` for a pattern `w` made of literal characters. */
  predicate TestIgnoringCase(s: string, w: string) {
    exists k :: 0 <= k <= |s| - |w| && MatchesIgnoringCaseAt(s, w, k)
  }

  /** A case-insensitive pattern test is a substring test on the lower-cased strings. */
  lemma {:induction false} TestIgnoringCaseIsLowerIncludes(s: string, w: string)
    ensures TestIgnoringCase(s, w) <==> Includes(Lower(s), Lower(w))
  {
    var ls, lw := Lower(s), Lower(w);
    forall k | 0 <= k <= |s| - |w|
      ensures MatchesIgnoringCaseAt(s, w, k) <==> OccursAt(ls, lw, k)
    {
      if MatchesIgnoringCaseAt(s, w, k) {
        assert forall j :: 0 <= j < |w| ==> ls[k..k + |w|][j] == lw[j];
      }
      if OccursAt(ls, lw, k) {
        forall j | 0 <= j < |w| ensures LowerChar(s[k + j]) == LowerChar(w[j]) {
          assert ls[k..k + |w|][j] == lw[j];
        }
      }
    }
    if TestIgnoringCase(s, w) {
      var k :| 0 <= k <= |s| - |w| && MatchesIgnoringCaseAt(s, w, k);
      assert OccursAt(ls, lw, k);
    }
    if Includes(ls, lw) {
      var k :| OccursAt(ls, lw, k);
      assert MatchesIgnoringCaseAt(s, w, k);
    }
  }

  /** Lower-casing leaves a string without upper-case ASCII letters unchanged. */
  lemma LowerOfLowerCase(w: string)
    requires forall i :: 0 <= i < |w| ==> !('A' <= w[i] <= 'Z')
    ensures Lower(w) == w
  {
  }

  /** The characters `String.prototype.trim` removes: WhiteSpace and LineTerminator of ECMAScript. */
  predicate IsJsWhitespace(c: char) {
    var n := c as int;
    n == 0x09 || n == 0x0A || n == 0x0B || n == 0x0C || n == 0x0D || n == 0x20
    || n == 0xA0 || n == 0x1680 || (0x2000 <= n <= 0x200A) || n == 0x2028 || n == 0x2029
    || n == 0x202F || n == 0x205F || n == 0x3000 || n == 0xFEFF
  }

  ghost predicate Blank(s: string) {
    forall i :: 0 <= i < |s| ==> IsJsWhitespace(s[i])
  }

  function TrimStart(s: string): (r: string)
    ensures r != [] ==> !IsJsWhitespace(r[0])
    decreases |s|
  {
    if |s| > 0 && IsJsWhitespace(s[0]) then TrimStart(s[1..]) else s
  }

  function TrimEnd(s: string): (r: string)
    ensures r != [] ==> !IsJsWhitespace(r[|r| - 1])
    decreases |s|
  {
    if |s| > 0 && IsJsWhitespace(s[|s| - 1]) then TrimEnd(s[..|s| - 1]) else s
  }

  /** `s.trim()`. */
  function Trim(s: string): string {
    TrimEnd(TrimStart(s))
  }

  lemma {:induction false} TrimStartEmptyIffBlank(s: string)
    ensures TrimStart(s) == [] <==> Blank(s)
    decreases |s|
  {
    if |s| > 0 && IsJsWhitespace(s[0]) {
      TrimStartEmptyIffBlank(s[1..]);
      assert Blank(s) <==> Blank(s[1..]) by {
        if Blank(s[1..]) {
          forall i | 0 <= i < |s| ensures IsJsWhitespace(s[i]) {
            if i > 0 { assert s[i] == s[1..][i - 1]; }
          }
        }
      }
    }
  }

  lemma {:induction false} TrimEndEmptyIffBlank(s: string)
    ensures TrimEnd(s) == [] <==> Blank(s)
    decreases |s|
  {
    if |s| > 0 && IsJsWhitespace(s[|s| - 1]) {
      TrimEndEmptyIffBlank(s[..|s| - 1]);
      assert Blank(s) <==> Blank(s[..|s| - 1]) by {
        if Blank(s[..|s| - 1]) {
          forall i | 0 <= i < |s| ensures IsJsWhitespace(s[i]) {
            if i < |s| - 1 { assert s[i] == s[..|s| - 1][i]; }
          }
        }
      }
    }
  }

  /** `s.trim()` is empty exactly when every character of `s` is whitespace. */
  lemma TrimEmptyIffBlank(s: string)
    ensures Trim(s) == [] <==> Blank(s)
  {
    TrimStartEmptyIffBlank(s);
    TrimEndEmptyIffBlank(TrimStart(s));
  }

  function DigitChar(d: nat): char
    requires d < 10
  {
    "0123456789"[d]
  }

  predicate IsDigit(c: char) {
    '0' <= c <= '9'
  }

  /** Decimal text of a natural number: at least one character, all of them digits. */
  function NatToString(n: nat): (r: string)
    ensures |r| >= 1 && (n < 10 <==> |r| == 1)
    ensures forall i :: 0 <= i < |r| ==> IsDigit(r[i])
    decreases n
  {
    if n < 10 then [DigitChar(n)] else NatToString(n / 10) + [DigitChar(n % 10)]
  }

  /** Distinct natural numbers have distinct decimal texts. */
  lemma {:induction false} NatToStringInjective(a: nat, b: nat)
    requires NatToString(a) == NatToString(b)
    ensures a == b
    decreases a
  {
    if a >= 10 && b >= 10 {
      var sa, sb := NatToString(a), NatToString(b);
      assert sa[..|sa| - 1] == NatToString(a / 10);
      assert sb[..|sb| - 1] == NatToString(b / 10);
      NatToStringInjective(a / 10, b / 10);
      assert DigitChar(a % 10) == sa[|sa| - 1] == DigitChar(b % 10);
    }
  }

  /** Decimal text of an integer, as template-literal interpolation renders it. */
  function IntToString(i: int): (r: string)
    ensures |r| >= 1 && (r[0] == '-' <==> i < 0)
    ensures forall k :: 0 < k < |r| ==> IsDigit(r[k])
    ensures forall k :: 0 <= k < |r| ==> r[k] == '-' || IsDigit(r[k])
  {
    if i < 0 then "-" + NatToString(-i) else NatToString(i)
  }

  /** Distinct integers have distinct decimal texts. */
  lemma IntToStringInjective(a: int, b: int)
    requires IntToString(a) == IntToString(b)
    ensures a == b
  {
    if a < 0 {
      assert IntToString(a)[1..] == NatToString(-a);
      assert IntToString(b)[1..] == NatToString(-b);
      NatToStringInjective(-a, -b);
    } else {
      NatToStringInjective(a, b);
    }
  }
}
