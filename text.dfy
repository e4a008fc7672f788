/**
 * The string operations the components rely on: `toLowerCase`, `includes`,
 * `split('.').pop()` and the decimal rendering of a number in a template
 * literal. Strings are sequences of characters; case folding is ASCII only.
 */
module Text {
  import opened Wrappers

  /** `toLowerCase` on one character, restricted to ASCII letters. */
  function LowerChar(c: char): (r: char)
    ensures 'A' <= c <= 'Z' ==> 'a' <= r <= 'z' && r as int - c as int == 32
    ensures !('A' <= c <= 'Z') ==> r == c
  {
    if 'A' <= c <= 'Z' then (c as int + 32) as char else c
  }

  /** `toLowerCase` on a string. */
  function Lower(s: string): (r: string)
    ensures |r| == |s|
    ensures forall i :: 0 <= i < |s| ==> r[i] == LowerChar(s[i])
  {
    if s == [] then [] else [LowerChar(s[0])] + Lower(s[1..])
  }

  /** Lowering twice is lowering once. */
  lemma LowerIdempotent(s: string)
    ensures Lower(Lower(s)) == Lower(s)
  {
    var l := Lower(s);
    assert forall i :: 0 <= i < |l| ==> Lower(l)[i] == l[i];
  }

  /** JavaScript truthiness of a string that may be null or undefined. */
  predicate Truthy(s: Option<string>): (r: bool)
    ensures r ==> s.Some?
    ensures r <==> s.Some? && |s.value| > 0
  {
    s.Some? && s.value != ""
  }

  /** `t` occurs in `s` starting at position `i`. */
  predicate OccursAt(s: string, t: string, i: int)
  {
    0 <= i && i + |t| <= |s| && s[i..i + |t|] == t
  }

  predicate IsPrefix(t: string, s: string)
  {
    |t| <= |s| && s[..|t|] == t
  }

  /** `s.includes(t)`: true exactly when `t` occurs somewhere in `s`. */
  function Includes(s: string, t: string): (r: bool)
    ensures r <==> exists i :: OccursAt(s, t, i)
    decreases |s|
  {
    if IsPrefix(t, s) then
      assert OccursAt(s, t, 0);
      true
    else if s == [] then
      assert forall i :: !OccursAt(s, t, i);
      false
    else
      var r := Includes(s[1..], t);
      if r then
        var i :| OccursAt(s[1..], t, i);
        OccursShift(s, t, i);
        true
      else
        forall i | OccursAt(s, t, i) ensures false {
          assert i != 0;
          OccursShift(s, t, i - 1);
        }
        false
  }

  /** An occurrence one place into `s` is an occurrence in `s[1..]`, and back. */
  lemma OccursShift(s: string, t: string, i: nat)
    requires s != []
    ensures OccursAt(s, t, i + 1) <==> OccursAt(s[1..], t, i)
  {
    if i + 1 + |t| <= |s| {
      assert s[i + 1..i + 1 + |t|] == s[1..][i..i + |t|];
    }
  }

  /** Every string includes itself, and every string includes "". */
  lemma IncludesSelfAndEmpty(s: string)
    ensures Includes(s, s)
    ensures Includes(s, "")
  {
    assert OccursAt(s, s, 0);
    assert OccursAt(s, "", 0);
  }

  /**
   * `uri.split('.').pop()`: the text after the last '.', or the whole
   * string when it has no '.'.
   */
  function Extension(uri: string): (r: string)
    ensures '.' !in r
    ensures |r| <= |uri| && r == uri[|uri| - |r|..]
    ensures |r| < |uri| ==> uri[|uri| - |r| - 1] == '.'
    ensures '.' !in uri ==> r == uri
  {
    if uri == [] then []
    else if uri[|uri| - 1] == '.' then []
    else
      var init := uri[..|uri| - 1];
      assert uri == init + [uri[|uri| - 1]];
      Extension(init) + [uri[|uri| - 1]]
  }

  /** Appending ".ext" to any text makes `ext` its extension, when `ext` has no '.'. */
  lemma {:induction false} ExtensionOfDotted(base: string, ext: string)
    requires '.' !in ext
    ensures Extension(base + "." + ext) == ext
  {
    var s := base + "." + ext;
    assert s[|s| - |ext|..] == ext;
    assert s[|s| - |ext| - 1] == '.';
  }

  function DigitChar(d: nat): (c: char)
    requires d < 10
  {
    "0123456789"[d]
  }

  predicate IsDigit(c: char)
  {
    '0' <= c <= '9'
  }

  function DigitValue(c: char): (d: nat)
    requires IsDigit(c)
    ensures d < 10
  {
    c as int - '0' as int
  }

  /** The decimal text of `n`, as a template literal renders a non-negative integer. */
  function Decimal(n: nat): (r: string)
    ensures |r| >= 1
    ensures forall i :: 0 <= i < |r| ==> IsDigit(r[i])
    ensures '.' !in r
  {
    if n < 10 then [DigitChar(n)] else Decimal(n / 10) + [DigitChar(n % 10)]
  }

  /** The number a non-empty run of digits denotes. */
  function DigitsValue(s: string): nat
    requires forall i :: 0 <= i < |s| ==> IsDigit(s[i])
  {
    if s == [] then 0 else DigitsValue(s[..|s| - 1]) * 10 + DigitValue(s[|s| - 1])
  }

  /** Reading the decimal text of `n` back gives `n`. */
  lemma {:induction false} DecimalRoundTrip(n: nat)
    ensures DigitsValue(Decimal(n)) == n
  {
    var d := Decimal(n);
    if n >= 10 {
      DecimalRoundTrip(n / 10);
      assert d[..|d| - 1] == Decimal(n / 10);
    }
  }
}
