/** The host framework's value conventions that every calculator relies on:
    `flt` (None and blank read as 0), `flt(x, 2)` (rounding to cents) and the
    truthiness behind Python's `x or d`. */
module Frappe {
  import opened Wrappers

  /** `y` is a whole number of cents. */
  predicate IsCents(y: real)
  {
    (y * 100.0).Floor as real == y * 100.0
  }

  /** `r` is `x` rounded half up to cents. */
  predicate RoundsTo(x: real, r: real)
  {
    x - 0.005 < r <= x + 0.005 && IsCents(r)
  }

  lemma RoundsToUnique(x: real, r: real, r': real)
    requires RoundsTo(x, r) && RoundsTo(x, r')
    ensures r == r'
  {
    var k, k' := (r * 100.0).Floor, (r' * 100.0).Floor;
    assert k as real == r * 100.0 && k' as real == r' * 100.0;
    assert -1.0 < (k - k') as real < 1.0;
  }

  /** `flt(x, 2)`: `x` rounded half up to cents, the unique value `RoundsTo`
      allows. */
  function Round2(x: real): (r: real)
    ensures RoundsTo(x, r)
  {
    var w := (x * 100.0 + 0.5).Floor as real / 100.0;
    assert RoundsTo(x, w) by {
      var y := x * 100.0 + 0.5;
      assert w * 100.0 == y.Floor as real;
    }
    assert forall r, r' :: RoundsTo(x, r) && RoundsTo(x, r') ==> r == r' by {
      forall r, r' | RoundsTo(x, r) && RoundsTo(x, r') ensures r == r' { RoundsToUnique(x, r, r'); }
    }
    var r :| RoundsTo(x, r);
    r
  }

  /** Rounding moves an amount by at most half a cent. */
  lemma Round2Bounds(x: real)
    ensures x - 0.005 < Round2(x) <= x + 0.005
  {
  }

  /** A whole number of cents is left unchanged by rounding. */
  lemma Round2Cents(k: int)
    ensures Round2(k as real / 100.0) == k as real / 100.0
  {
    var x := k as real / 100.0;
    assert (x * 100.0).Floor == k;
    RoundsToUnique(x, Round2(x), x);
  }

  lemma Round2Zero()
    ensures Round2(0.0) == 0.0
  {
    Round2Cents(0);
  }

  /** Python truthiness of a numeric field: None, blank and 0 are falsy. */
  predicate Truthy(v: Option<real>)
  {
    v.Some? && v.value != 0.0
  }

  /** Python `v or d` on a numeric field. */
  function Or(v: Option<real>, d: real): real
  {
    if Truthy(v) then v.value else d
  }

  /** `flt(v)`: a missing or blank value reads as 0. */
  function Flt(v: Option<real>): real
  {
    if v.Some? then v.value else 0.0
  }

  /** Python `x or d` on a number that is always present. */
  function NonZeroOr(x: real, d: real): real
  {
    if x != 0.0 then x else d
  }

  /** Python truthiness of a text field: None and "" are falsy. */
  predicate Present(s: Option<string>)
  {
    s.Some? && s.value != ""
  }

  /** Python `a or b` on text fields. */
  function OrText(a: Option<string>, b: Option<string>): Option<string>
  {
    if Present(a) then a else b
  }

  /** Lower-casing of ASCII letters; other characters are kept. */
  function Lower(s: string): (r: string)
    ensures |r| == |s|
    ensures forall i :: 0 <= i < |s| && 'A' <= s[i] <= 'Z' ==> r[i] == (s[i] as int + 32) as char
    ensures forall i :: 0 <= i < |s| && !('A' <= s[i] <= 'Z') ==> r[i] == s[i]
  {
    if s == [] then []
    else
      var c := if 'A' <= s[0] <= 'Z' then (s[0] as int + 32) as char else s[0];
      [c] + Lower(s[1..])
  }
}
