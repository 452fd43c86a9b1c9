/**
 * The JavaScript string operations the pages rely on: `trim`, `toLowerCase`,
 * `includes`, `padStart(2, '0')` and the decimal rendering of a
 * non-negative integer, stated over Dafny strings.
 */
module JsString {
  import opened Wrappers

  /** JavaScript truthiness of an optional string: present and non-empty. */
  predicate Truthy(s: Option<string>) {
    s.Some? && s.value != ""
  }

  /** The code points `String.prototype.trim` strips: the ECMAScript WhiteSpace
      and LineTerminator productions. */
  predicate IsWhiteSpace(c: char) {
    c == '\t' || c == '\n' || c == '\U{0B}' || c == '\U{0C}' || c == '\r' || c == ' '
    || c == '\U{A0}' || c == '\U{1680}' || ('\U{2000}' <= c <= '\U{200A}')
    || c == '\U{2028}' || c == '\U{2029}' || c == '\U{202F}' || c == '\U{205F}'
    || c == '\U{3000}' || c == '\U{FEFF}'
  }

  predicate AllWhiteSpace(s: string) {
    forall i :: 0 <= i < |s| ==> IsWhiteSpace(s[i])
  }

  /** The number of white-space characters `s` starts with. */
  function LeadingWhiteSpace(s: string): (k: nat)
    ensures k <= |s|
    ensures forall i :: 0 <= i < k ==> IsWhiteSpace(s[i])
    ensures k < |s| ==> !IsWhiteSpace(s[k])
  {
    if s != [] && IsWhiteSpace(s[0]) then
      var k := LeadingWhiteSpace(s[1..]);
      assert forall i :: 1 <= i < k + 1 ==> s[i] == s[1..][i - 1];
      k + 1
    else 0
  }

  /** The number of white-space characters `s` ends with. */
  function TrailingWhiteSpace(s: string): (k: nat)
    ensures k <= |s|
    ensures forall i :: |s| - k <= i < |s| ==> IsWhiteSpace(s[i])
    ensures k < |s| ==> !IsWhiteSpace(s[|s| - 1 - k])
  {
    if s != [] && IsWhiteSpace(s[|s| - 1]) then
      var k := TrailingWhiteSpace(s[..|s| - 1]);
      assert forall i :: |s| - 1 - k <= i < |s| - 1 ==> s[i] == s[..|s| - 1][i];
      k + 1
    else 0
  }

  /** `String.prototype.trim`: the part of `s` that starts after its leading
      white space, with only white space on either side of it and no white
      space at either of its ends. */
  function Trim(s: string): (r: string)
    ensures var k := LeadingWhiteSpace(s);
      && k + |r| <= |s| && r == s[k..k + |r|]
      && AllWhiteSpace(s[..k]) && AllWhiteSpace(s[k + |r|..])
    ensures r != [] ==> !IsWhiteSpace(r[0]) && !IsWhiteSpace(r[|r| - 1])
  {
    var k := LeadingWhiteSpace(s);
    var e := if k == |s| then k else |s| - TrailingWhiteSpace(s);
    MiddleSlice(s, k, e);
    s[k..e]
  }

  /** The slice `s[k..e]` between a white-space prefix and a white-space
      suffix, where `k` and `e` are the positions of the first and one past
      the last character that is not white space. */
  lemma MiddleSlice(s: string, k: nat, e: nat)
    requires k <= e <= |s|
    requires forall i :: 0 <= i < k ==> IsWhiteSpace(s[i])
    requires forall i :: e <= i < |s| ==> IsWhiteSpace(s[i])
    requires k < e ==> !IsWhiteSpace(s[k]) && !IsWhiteSpace(s[e - 1])
    ensures var r := s[k..e];
      && k + |r| <= |s| && r == s[k..k + |r|]
      && AllWhiteSpace(s[..k]) && AllWhiteSpace(s[k + |r|..])
      && (r != [] ==> !IsWhiteSpace(r[0]) && !IsWhiteSpace(r[|r| - 1]))
  {
    var r := s[k..e];
    assert k + |r| == e;
    forall i | 0 <= i < k
      ensures IsWhiteSpace(s[..k][i])
    {
      assert s[..k][i] == s[i];
    }
    forall i | 0 <= i < |s| - e
      ensures IsWhiteSpace(s[e..][i])
    {
      assert s[e..][i] == s[e + i];
    }
    if r != [] {
      assert r[0] == s[k] && r[|r| - 1] == s[e - 1];
    }
  }

  /** A string trims to the empty string exactly when it is all white space. */
  lemma TrimEmptyIff(s: string)
    ensures Trim(s) == [] <==> AllWhiteSpace(s)
  {
    var k := LeadingWhiteSpace(s);
    if Trim(s) == [] {
      assert s[..k] == s;
    } else {
      assert Trim(s)[0] == s[k];
    }
  }

  /** A string that neither starts nor ends with white space is its own trim. */
  lemma TrimNoEdgeWhiteSpace(s: string)
    requires s != [] && !IsWhiteSpace(s[0]) && !IsWhiteSpace(s[|s| - 1])
    ensures Trim(s) == s
  {
    assert LeadingWhiteSpace(s) == 0;
    assert TrailingWhiteSpace(s) == 0;
    assert s[0..|s|] == s;
  }

  /** Trimming twice is trimming once. */
  lemma TrimIdempotent(s: string)
    ensures Trim(Trim(s)) == Trim(s)
  {
    if Trim(s) != [] {
      TrimNoEdgeWhiteSpace(Trim(s));
    }
  }

  /** `toLowerCase` on one character; only the ASCII letters are mapped. */
  function LowerChar(c: char): char {
    if 'A' <= c <= 'Z' then (c as int + 32) as char else c
  }

  /** `String.prototype.toLowerCase`, restricted to ASCII letters. */
  function ToLower(s: string): (r: string)
    ensures |r| == |s|
    ensures forall i :: 0 <= i < |s| ==> r[i] == LowerChar(s[i])
  {
    seq(|s|, i requires 0 <= i < |s| => LowerChar(s[i]))
  }

  /** `s.includes(t)`: `t` occurs in `s` at some position. */
  predicate Includes(s: string, t: string) {
    t <= s || (s != [] && Includes(s[1..], t))
  }

  /** `t` occurs in `s` starting at index `i`. */
  predicate OccursAt(s: string, t: string, i: int) {
    0 <= i <= |s| - |t| && s[i..i + |t|] == t
  }

  /** `Includes` holds exactly when `t` occurs in `s` at some index. */
  lemma {:induction false} IncludesIff(s: string, t: string)
    ensures Includes(s, t) <==> exists i :: OccursAt(s, t, i)
  {
    if t <= s {
      assert OccursAt(s, t, 0);
    } else if s != [] {
      IncludesIff(s[1..], t);
      if Includes(s[1..], t) {
        var i :| OccursAt(s[1..], t, i);
        SliceOfTail(s, i, i + |t|);
        assert OccursAt(s, t, i + 1);
      } else {
        forall i | 0 <= i <= |s| - |t|
          ensures !OccursAt(s, t, i)
        {
          if i == 0 {
            assert s[i..i + |t|] == s[..|t|];
          } else {
            SliceOfTail(s, i - 1, i - 1 + |t|);
            assert !OccursAt(s[1..], t, i - 1);
          }
        }
      }
    }
  }

  lemma SliceOfTail(s: string, a: int, b: int)
    requires 0 <= a <= b <= |s| - 1
    ensures s[1..][a..b] == s[a + 1..b + 1]
  {
    assert |s[1..][a..b]| == |s[a + 1..b + 1]|;
    forall k | 0 <= k < b - a
      ensures s[1..][a..b][k] == s[a + 1..b + 1][k]
    {
    }
  }

  /** `padStart(2, '0')`. */
  function PadStart2(s: string): (r: string)
    ensures |r| == if |s| < 2 then 2 else |s|
    ensures r[|r| - |s|..] == s
    ensures forall i :: 0 <= i < |r| - |s| ==> r[i] == '0'
  {
    if |s| >= 2 then s else seq(2 - |s|, _ => '0') + s
  }

  predicate IsDigit(c: char) {
    '0' <= c <= '9'
  }

  predicate AllDigits(s: string) {
    forall i :: 0 <= i < |s| ==> IsDigit(s[i])
  }

  function DigitChar(d: nat): (c: char)
    requires d < 10
    ensures IsDigit(c)
  {
    ('0' as int + d) as char
  }

  function DigitValue(c: char): nat
    requires IsDigit(c)
  {
    c as int - '0' as int
  }

  /** `Number.prototype.toString()` of a non-negative integer: its decimal
      digits, with no leading zero. */
  function NatToString(n: nat): (r: string)
    ensures r != []
    ensures AllDigits(r)
    ensures r[0] == '0' ==> n == 0
    ensures n < 10 <==> |r| == 1
  {
    if n < 10 then [DigitChar(n)] else NatToString(n / 10) + [DigitChar(n % 10)]
  }

  /** The value of a string of decimal digits, the reference inverse of
      `NatToString`. */
  function ParseNat(s: string): nat
    requires AllDigits(s)
  {
    if s == [] then 0 else ParseNat(s[..|s| - 1]) * 10 + DigitValue(s[|s| - 1])
  }

  /** Reading the digits back gives the number. */
  lemma {:induction false} ParseNatToString(n: nat)
    ensures ParseNat(NatToString(n)) == n
  {
    var r := NatToString(n);
    if n >= 10 {
      ParseNatToString(n / 10);
      assert r[..|r| - 1] == NatToString(n / 10);
    }
  }
}
