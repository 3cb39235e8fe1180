/**
 * Wage units and the conversion of a wage amount to a yearly figure
 * (`to_annual` in app.py).
 *
 * Amounts are exact reals; the floating-point behaviour of app.py
 * (rounding, overflow, NaN) is not modelled.
 */
module Units {

  /** A pay period. The form offers the first four; any other spelling
      falls through to the identity branch of the conversion. */
  datatype Unit = Year | Hour | Week | Month | Other(name: string)

  /** The spellings the conversion recognises. */
  const KnownNames: set<string> := {"Year", "Hour", "Week", "Month"}

  /** The spelling of a unit, as it appears in the form and in the
      feature record. */
  function Name(u: Unit): string {
    match u
    case Year => "Year"
    case Hour => "Hour"
    case Week => "Week"
    case Month => "Month"
    case Other(s) => s
  }

  /** A unit value that some spelling produces: `Other` never carries a
      recognised name. */
  predicate Canonical(u: Unit) {
    u.Other? ==> u.name !in KnownNames
  }

  /** Reads a unit from its spelling, comparing the whole string exactly
      (no trimming, no case folding). */
  function Parse(s: string): (u: Unit)
    ensures Canonical(u)
    ensures Name(u) == s
    ensures u.Other? <==> s !in KnownNames
  {
    if s == "Year" then Year
    else if s == "Hour" then Hour
    else if s == "Week" then Week
    else if s == "Month" then Month
    else Other(s)
  }

  /** Spelling then reading gives back every canonical unit. */
  lemma ParseName(u: Unit)
    requires Canonical(u)
    ensures Parse(Name(u)) == u
  {
  }

  /** The fixed number of pay periods in a year: the reference table
      that the conversion is checked against. */
  function Multiplier(u: Unit): (m: real)
    ensures m >= 1.0
  {
    match u
    case Year => 1.0
    case Hour => 2080.0
    case Week => 52.0
    case Month => 12.0
    case Other(_) => 1.0
  }

  /** Converts an amount paid per `unit` to an amount per year, testing the
      units in the order the source does. */
  function ToAnnual(amount: real, unit: Unit): (r: real)
    ensures r == amount * Multiplier(unit)
  {
    if unit == Year then amount
    else if unit == Hour then amount * 2080.0
    else if unit == Week then amount * 52.0
    else if unit == Month then amount * 12.0
    else amount
  }

  /** The inverse conversion: an annual amount expressed per `unit`. */
  function FromAnnual(annual: real, unit: Unit): (a: real)
    ensures ToAnnual(a, unit) == annual
  {
    annual / Multiplier(unit)
  }

  /** Converting to annual and back returns the original amount. */
  lemma FromToAnnual(amount: real, unit: Unit)
    ensures FromAnnual(ToAnnual(amount, unit), unit) == amount
  {
    var m := Multiplier(unit);
    assert ToAnnual(amount, unit) / m == amount * m / m;
  }

  /** The multiplier table: Year and every unrecognised unit keep the
      amount, Hour, Week and Month multiply by 2080, 52 and 12. */
  lemma ToAnnualTable(amount: real, s: string)
    ensures ToAnnual(amount, Year) == amount
    ensures ToAnnual(amount, Hour) == amount * 2080.0
    ensures ToAnnual(amount, Week) == amount * 52.0
    ensures ToAnnual(amount, Month) == amount * 12.0
    ensures s !in KnownNames ==> ToAnnual(amount, Parse(s)) == amount
  {
  }

  /** The conversion keeps the sign of the amount. */
  lemma ToAnnualSign(amount: real, unit: Unit)
    ensures ToAnnual(amount, unit) > 0.0 <==> amount > 0.0
    ensures ToAnnual(amount, unit) == 0.0 <==> amount == 0.0
    ensures ToAnnual(amount, unit) >= 0.0 <==> amount >= 0.0
  {
  }

  /** The conversion is monotone in the amount, in both directions, for
      every unit; hence it is also injective. */
  lemma ToAnnualMonotone(a: real, b: real, unit: Unit)
    ensures a <= b <==> ToAnnual(a, unit) <= ToAnnual(b, unit)
    ensures a == b <==> ToAnnual(a, unit) == ToAnnual(b, unit)
  {
    var m := Multiplier(unit);
    assert ToAnnual(b, unit) - ToAnnual(a, unit) == (b - a) * m;
  }

  /** The mean of two amounts. */
  function Midpoint(lo: real, hi: real): (mid: real)
    ensures mid - lo == hi - mid
  {
    (lo + hi) / 2.0
  }

  /** Converting the midpoint of a range gives the midpoint of the
      converted range, and that lies between the converted ends. */
  lemma ToAnnualMidpoint(lo: real, hi: real, unit: Unit)
    ensures ToAnnual(Midpoint(lo, hi), unit) == Midpoint(ToAnnual(lo, unit), ToAnnual(hi, unit))
    ensures lo <= hi ==>
              ToAnnual(lo, unit) <= ToAnnual(Midpoint(lo, hi), unit) <= ToAnnual(hi, unit)
  {
    var m := Multiplier(unit);
    assert ToAnnual(Midpoint(lo, hi), unit) == (lo + hi) * m / 2.0;
    if lo <= hi {
      ToAnnualMonotone(lo, Midpoint(lo, hi), unit);
      ToAnnualMonotone(Midpoint(lo, hi), hi, unit);
    }
  }
}
