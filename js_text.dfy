/**
 * The JavaScript string operations the pipeline relies on: truthiness of an
 * optional string, `a || b`, `toLowerCase` (ASCII letters only),
 * `String.prototype.includes` and `String(n)` for a non-negative integer.
 */
module JsText {
  import opened Wrappers

  /** A present, non-empty string: the values `if (s)` lets through. */
  predicate Truthy(s: Option<string>)
  {
    s.Some? && s.value != ""
  }

  /** `s || fallback` for an optional string. */
  function Or(s: Option<string>, fallback: string): (r: string)
    ensures Truthy(s) ==> r == s.value
    ensures !Truthy(s) ==> r == fallback
  {
    if Truthy(s) then s.value else fallback
  }

  function LowerChar(c: char): char
  {
    if 'A' <= c <= 'Z' then (c as int - 'A' as int + 'a' as int) as char else c
  }

  /** `s.toLowerCase()` restricted to ASCII: upper-case letters map to lower case, nothing else changes. */
  function ToLowerCase(s: string): (r: string)
    ensures |r| == |s|
    ensures forall i :: 0 <= i < |s| ==> r[i] == LowerChar(s[i])
  {
    seq(|s|, i requires 0 <= i < |s| => LowerChar(s[i]))
  }

  /** Lower-casing twice is lower-casing once. */
  lemma ToLowerCaseIdempotent(s: string)
    ensures ToLowerCase(ToLowerCase(s)) == ToLowerCase(s)
  {
    assert forall i :: 0 <= i < |s| ==> LowerChar(LowerChar(s[i])) == LowerChar(s[i]);
  }

  /** Lower-casing a capitalised word lower-cases its first letter only. */
  lemma ToLowerCaseCapitalized(s: string)
    requires s != [] && forall i :: 1 <= i < |s| ==> LowerChar(s[i]) == s[i]
    ensures ToLowerCase(s) == [LowerChar(s[0])] + s[1..]
  {
  }

  /** Lower-casing commutes with taking a prefix. */
  lemma ToLowerCasePrefix(s: string, n: nat)
    requires n <= |s|
    ensures ToLowerCase(s)[..n] == ToLowerCase(s[..n])
  {
  }

  /** `needle` occurs in `haystack` starting at index `i`. */
  ghost predicate OccursAt(haystack: string, needle: string, i: int)
  {
    0 <= i && i + |needle| <= |haystack| && haystack[i..i + |needle|] == needle
  }

  /** `haystack.includes(needle)`: tries each start position from the left. */
  function Includes(haystack: string, needle: string): bool
    decreases |haystack|
  {
    if |needle| > |haystack| then false
    else if haystack[..|needle|] == needle then true
    else Includes(haystack[1..], needle)
  }

  /** `includes` holds exactly when the needle occurs at some index. */
  lemma {:induction false} IncludesIff(haystack: string, needle: string)
    ensures Includes(haystack, needle) <==> exists i :: OccursAt(haystack, needle, i)
    decreases |haystack|
  {
    if |needle| > |haystack| {
      assert forall i :: !OccursAt(haystack, needle, i);
    } else if haystack[..|needle|] == needle {
      assert OccursAt(haystack, needle, 0);
    } else {
      var tail := haystack[1..];
      IncludesIff(tail, needle);
      if Includes(tail, needle) {
        var i :| OccursAt(tail, needle, i);
        assert haystack[i + 1..i + 1 + |needle|] == tail[i..i + |needle|];
        assert OccursAt(haystack, needle, i + 1);
      }
      if exists i :: OccursAt(haystack, needle, i) {
        var i :| OccursAt(haystack, needle, i);
        assert i != 0;
        assert tail[i - 1..i - 1 + |needle|] == haystack[i..i + |needle|];
        assert OccursAt(tail, needle, i - 1);
      }
    }
  }

  /** Every string includes the empty string, and a non-empty needle needs a non-empty haystack. */
  lemma {:induction false} IncludesLength(haystack: string, needle: string)
    ensures needle == "" ==> Includes(haystack, needle)
    ensures Includes(haystack, needle) ==> |needle| <= |haystack|
  {
    IncludesIff(haystack, needle);
    if needle == "" {
      assert OccursAt(haystack, needle, 0);
    }
  }

  function DigitChar(d: nat): char
    requires d < 10
  {
    "0123456789"[d]
  }

  function DigitValue(c: char): int
  {
    c as int - '0' as int
  }

  /** `String(n)` for a non-negative integer: its decimal digits, most significant first. */
  function NumberToString(n: nat): (r: string)
    ensures |r| >= 1
    ensures forall i :: 0 <= i < |r| ==> '0' <= r[i] <= '9'
    ensures r[0] == '0' ==> n == 0
  {
    if n < 10 then [DigitChar(n)] else NumberToString(n / 10) + [DigitChar(n % 10)]
  }

  /** The number a string of decimal digits denotes. */
  function DecimalValue(s: string): int
  {
    if s == [] then 0 else 10 * DecimalValue(s[..|s| - 1]) + DigitValue(s[|s| - 1])
  }

  /** Reading the decimal string back gives the number. */
  lemma {:induction false} NumberToStringRoundTrip(n: nat)
    ensures DecimalValue(NumberToString(n)) == n
  {
    var r := NumberToString(n);
    if n < 10 {
      assert r[..0] == [];
    } else {
      NumberToStringRoundTrip(n / 10);
      assert r[..|r| - 1] == NumberToString(n / 10);
    }
  }
}
