/**
 * The stored form of the minimum and maximum RAM settings and its
 * conversion to the slider's gigabytes (settings.js:141-148, 194-201).
 * JavaScript numbers are modelled as exact reals.
 */
module RamSetting {
  datatype Unit = M | G

  /**
   * A stored RAM value: its number and its final letter. Loading treats
   * every value not ending in 'M' with parseFloat, so any other suffix
   * reads like 'G'.
   */
  datatype RamString = RamString(amount: real, unit: Unit)

  /** `Math.trunc`. */
  function Trunc(x: real): int {
    if x >= 0.0 then x.Floor else -((-x).Floor)
  }

  /** JavaScript's `x % 1`: the remainder keeps the sign of x. */
  function ModOne(x: real): real {
    x - Trunc(x) as real
  }

  /** `x % 1 > 0` holds exactly for positive numbers with a fractional part. */
  lemma ModOnePositiveIff(x: real)
    ensures ModOne(x) > 0.0 <==> x > 0.0 && x != x.Floor as real
  {
    if x < 0.0 {
      assert (-x).Floor as real <= -x;
    }
  }

  /** The slider value, in gigabytes, for a stored value. */
  function LoadRam(s: RamString): (gb: real)
    ensures s.unit == M ==> gb * 1024.0 == s.amount
    ensures s.unit == G ==> gb == s.amount
  {
    if s.unit == M then s.amount / 1024.0 else s.amount
  }

  /** The stored value for a slider value: megabytes when `val % 1 > 0`, whole gigabytes otherwise. */
  function SaveRam(gb: real): (s: RamString)
    ensures s.unit == M <==> gb > 0.0 && gb != gb.Floor as real
    ensures s.unit == M ==> s.amount == gb * 1024.0
    ensures s.unit == G ==> s.amount == gb
  {
    ModOnePositiveIff(gb);
    if ModOne(gb) > 0.0 then RamString(gb * 1024.0, M) else RamString(gb, G)
  }

  /** Every saved value reloads to the slider value it came from. */
  lemma SaveLoadRoundTrip(gb: real)
    ensures LoadRam(SaveRam(gb)) == gb
  {
  }

  /**
   * A whole number of megabytes reloads and saves back unchanged unless it
   * is a multiple of 1024, which comes back as whole gigabytes.
   */
  lemma {:induction false} MegabytesResaved(n: nat)
    ensures SaveRam(LoadRam(RamString(n as real, M))) ==
      if n % 1024 == 0 then RamString((n / 1024) as real, G) else RamString(n as real, M)
  {
    var q, r := n / 1024, n % 1024;
    var gb := (n as real) / 1024.0;
    assert gb == q as real + (r as real) / 1024.0;
    assert gb.Floor == q by {
      assert q as real <= gb < (q + 1) as real;
    }
    if r == 0 {
      assert gb == q as real;
    } else {
      assert gb != gb.Floor as real;
    }
  }

  /** A stored gigabyte value saves back as it was when whole, and as megabytes when it has a fraction. */
  lemma GigabytesResaved(g: real)
    ensures SaveRam(LoadRam(RamString(g, G))) ==
      if g > 0.0 && g != g.Floor as real then RamString(g * 1024.0, M) else RamString(g, G)
  {
  }
}
