/** The few pieces of PHP string semantics the collectors rely on:
    truthiness of strings (for `?:` and `empty()`), `str_replace` with an
    empty replacement, the XPath `contains()` test, and decimal integers
    (string interpolation of a page number, numeric comparison of a label). */
module Php {

  /** A PHP string is falsy exactly when it is "" or "0". */
  predicate Falsy(s: string) {
    s == "" || s == "0"
  }

  /** `$s ?: ''` for a string `$s`. */
  function Elvis(s: string): (r: string)
    ensures r == "" <==> Falsy(s)
    ensures r != "" ==> r == s
  {
    if Falsy(s) then "" else s
  }

  predicate StartsWith(s: string, p: string) {
    |p| <= |s| && s[..|p|] == p
  }

  /** XPath `contains(s, p)`: `p` occurs somewhere in `s`. */
  predicate Contains(s: string, p: string)
    decreases |s|
  {
    StartsWith(s, p) || (|s| > 0 && Contains(s[1..], p))
  }

  /** `str_replace(p, "", s)`: scans `s` from the left and deletes every
      non-overlapping occurrence of `p`. An empty `p` leaves `s` unchanged. */
  function Remove(s: string, p: string): (r: string)
    ensures |r| <= |s|
    decreases |s|
  {
    if p == "" || |s| < |p| then s
    else if s[..|p|] == p then Remove(s[|p|..], p)
    else [s[0]] + Remove(s[1..], p)
  }

  /** Removing a pattern changes the string exactly when the pattern occurs in it. */
  lemma {:induction false} RemoveChangesIffContains(s: string, p: string)
    requires p != ""
    ensures Remove(s, p) == s <==> !Contains(s, p)
    ensures Contains(s, p) ==> |Remove(s, p)| < |s|
    decreases |s|
  {
    if |s| < |p| {
      assert !Contains(s, p) by { NoRoomNoOccurrence(s, p); }
    } else if s[..|p|] == p {
      assert Contains(s, p);
    } else {
      RemoveChangesIffContains(s[1..], p);
      assert Remove(s, p) == [s[0]] + Remove(s[1..], p);
      assert Contains(s, p) <==> Contains(s[1..], p);
      if !Contains(s[1..], p) {
        assert Remove(s, p) == [s[0]] + s[1..] == s;
      }
    }
  }

  lemma {:induction false} NoRoomNoOccurrence(s: string, p: string)
    requires |s| < |p|
    ensures !Contains(s, p)
    decreases |s|
  {
    if |s| > 0 { NoRoomNoOccurrence(s[1..], p); }
  }

  /** A leading occurrence of `p` and nothing else of it: `str_replace`
      leaves exactly the rest. */
  lemma RemoveLeading(p: string, u: string)
    requires p != ""
    requires !Contains(u, p)
    ensures Remove(p + u, p) == u
  {
    assert (p + u)[..|p|] == p;
    assert (p + u)[|p|..] == u;
    RemoveChangesIffContains(u, p);
  }

  predicate IsDigit(c: char) {
    '0' <= c <= '9'
  }

  /** A non-empty string of decimal digits: a numeric label. */
  predicate IsDecimal(s: string) {
    |s| > 0 && forall i :: 0 <= i < |s| ==> IsDigit(s[i])
  }

  /** The value of a numeric string of decimal digits. */
  function DecimalValue(s: string): nat
    requires forall i :: 0 <= i < |s| ==> IsDigit(s[i])
    decreases |s|
  {
    if s == [] then 0
    else
      assert IsDigit(s[|s| - 1]);
      DecimalValue(s[..|s| - 1]) * 10 + (s[|s| - 1] as int - '0' as int)
  }

  function DigitChar(d: nat): (c: char)
    requires d < 10
    ensures IsDigit(c) && c as int - '0' as int == d
  {
    ('0' as int + d) as char
  }

  /** PHP's decimal rendering of an integer, as in `"&page={$page}"`. */
  function NatToString(n: nat): (s: string)
    ensures IsDecimal(s)
    decreases n
  {
    if n < 10 then [DigitChar(n)] else NatToString(n / 10) + [DigitChar(n % 10)]
  }

  /** Reading back the rendered number gives the number. */
  lemma {:induction false} DecimalValueOfNatToString(n: nat)
    ensures DecimalValue(NatToString(n)) == n
    decreases n
  {
    var s := NatToString(n);
    if n < 10 {
      assert s[..|s| - 1] == [];
    } else {
      DecimalValueOfNatToString(n / 10);
      assert s[..|s| - 1] == NatToString(n / 10);
    }
  }
}
