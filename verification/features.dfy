/**
 * The feature record handed to the approval classifier, and its
 * derivation from the form's inputs (app.py, "Convert to model features").
 */
module Features {
  import opened Wrappers
  import opened Units

  /** What the form collects. Unit fields keep the spelling the user
      chose; the categorical fields are free text. */
  datatype CaseInput = CaseInput(
    pwSocCode: string,
    naicsCode: string,
    pwWage: real,
    pwUnit: string,
    minEducation: string,
    worksiteState: string,
    wageFrom: real,
    wageTo: real,
    wageUnit: string,
    ownership: string)

  /** The ten features, in the order of the classifier's input columns. */
  datatype FeatureVector = FeatureVector(
    pwSocCode: string,
    naicsCode: string,
    pwUnitOfPay: string,
    wageOfferUnitOfPay: string,
    minimumEducation: string,
    worksiteState: string,
    fwOwnershipInterest: string,
    pwWageAnnual: real,
    offerWageAnnual: real,
    wageRatio: real)

  /** Offered over prevailing annual wage; exactly 1 when the prevailing
      wage is not strictly positive, so no division by zero happens. */
  function WageRatio(offerAnnual: real, pwAnnual: real): (r: real)
    ensures pwAnnual > 0.0 ==> r * pwAnnual == offerAnnual
    ensures pwAnnual <= 0.0 ==> r == 1.0
  {
    if pwAnnual > 0.0 then offerAnnual / pwAnnual else 1.0
  }

  /** Relational description of a correct feature record: the categorical
      inputs copied unchanged, the wages scaled by the unit table, and the
      ratio characterised by multiplication rather than division. */
  ghost predicate Describes(x: CaseInput, f: FeatureVector) {
    && f.pwSocCode == x.pwSocCode
    && f.naicsCode == x.naicsCode
    && f.pwUnitOfPay == x.pwUnit
    && f.wageOfferUnitOfPay == x.wageUnit
    && f.minimumEducation == x.minEducation
    && f.worksiteState == x.worksiteState
    && f.fwOwnershipInterest == x.ownership
    && f.pwWageAnnual == x.pwWage * Multiplier(Parse(x.pwUnit))
    && 2.0 * f.offerWageAnnual == (x.wageFrom + x.wageTo) * Multiplier(Parse(x.wageUnit))
    && (if f.pwWageAnnual > 0.0
        then f.wageRatio * f.pwWageAnnual == f.offerWageAnnual
        else f.wageRatio == 1.0)
  }

  /** Builds the feature record from the form's inputs. */
  function Derive(x: CaseInput): (f: FeatureVector)
    ensures Describes(x, f)
  {
    var pwAnnual := ToAnnual(x.pwWage, Parse(x.pwUnit));
    var offerAnnual := ToAnnual(Midpoint(x.wageFrom, x.wageTo), Parse(x.wageUnit));
    FeatureVector(
      x.pwSocCode, x.naicsCode, x.pwUnit, x.wageUnit, x.minEducation,
      x.worksiteState, x.ownership,
      pwAnnual, offerAnnual, WageRatio(offerAnnual, pwAnnual))
  }

  /** The description pins the record down: a record describes the input
      exactly when it is the derived one. */
  lemma DeriveCharacterised(x: CaseInput, f: FeatureVector)
    ensures Describes(x, f) <==> f == Derive(x)
  {
    if Describes(x, f) {
      var g := Derive(x);
      assert f.offerWageAnnual == g.offerWageAnnual;
      if f.pwWageAnnual > 0.0 {
        RatioUnique(f.wageRatio, g.wageRatio, f.pwWageAnnual, f.offerWageAnnual);
      }
    }
  }

  /** A positive divisor leaves at most one quotient. */
  lemma RatioUnique(r1: real, r2: real, d: real, n: real)
    requires d > 0.0
    requires r1 * d == n && r2 * d == n
    ensures r1 == r2
  {
    assert (r1 - r2) * d == 0.0;
  }

  /** The ratio defaults to exactly 1 precisely when the prevailing wage
      entered is not positive (zero or negative), whatever the offer;
      otherwise it is the quotient of the annual wages, unclamped. */
  lemma RatioGuard(x: CaseInput)
    ensures x.pwWage <= 0.0 ==> Derive(x).wageRatio == 1.0
    ensures x.pwWage > 0.0 <==> Derive(x).pwWageAnnual > 0.0
    ensures x.pwWage > 0.0 ==>
              Derive(x).wageRatio == Derive(x).offerWageAnnual / Derive(x).pwWageAnnual
  {
    ToAnnualSign(x.pwWage, Parse(x.pwUnit));
  }

  /** With a positive prevailing wage, the ratio is at least 1 exactly when
      the annual offer meets the annual prevailing wage. */
  lemma RatioMeetsPrevailing(x: CaseInput)
    requires x.pwWage > 0.0
    ensures Derive(x).wageRatio >= 1.0 <==> Derive(x).offerWageAnnual >= Derive(x).pwWageAnnual
  {
    var f := Derive(x);
    ToAnnualSign(x.pwWage, Parse(x.pwUnit));
    QuotientAtLeastOne(f.wageRatio, f.pwWageAnnual, f.offerWageAnnual);
  }

  /** A quotient by a positive divisor is at least 1 exactly when the
      dividend is at least the divisor. */
  lemma QuotientAtLeastOne(r: real, d: real, n: real)
    requires d > 0.0
    requires r * d == n
    ensures r >= 1.0 <==> n >= d
  {
    assert n - d == (r - 1.0) * d;
    if r < 1.0 {
      assert (1.0 - r) * d > 0.0;
    }
  }

  /** When both wages are quoted in the same unit the unit cancels: the
      ratio is the raw offer midpoint over the raw prevailing wage. */
  lemma RatioUnitFree(x: CaseInput)
    requires x.pwUnit == x.wageUnit
    requires x.pwWage > 0.0
    ensures Derive(x).wageRatio == Midpoint(x.wageFrom, x.wageTo) / x.pwWage
  {
    var f := Derive(x);
    var m := Multiplier(Parse(x.pwUnit));
    var q := Midpoint(x.wageFrom, x.wageTo) / x.pwWage;
    assert f.pwWageAnnual == x.pwWage * m;
    assert f.offerWageAnnual == Midpoint(x.wageFrom, x.wageTo) * m;
    assert q * f.pwWageAnnual == f.offerWageAnnual by {
      assert q * x.pwWage == Midpoint(x.wageFrom, x.wageTo);
    }
    ToAnnualSign(x.pwWage, Parse(x.pwUnit));
    RatioUnique(f.wageRatio, q, f.pwWageAnnual, f.offerWageAnnual);
  }

  /** The annual offer is the converted midpoint of the offered range and
      lies between the converted ends of that range. */
  lemma OfferWithinRange(x: CaseInput)
    requires x.wageFrom <= x.wageTo
    ensures ToAnnual(x.wageFrom, Parse(x.wageUnit)) <= Derive(x).offerWageAnnual
    ensures Derive(x).offerWageAnnual <= ToAnnual(x.wageTo, Parse(x.wageUnit))
  {
    ToAnnualMidpoint(x.wageFrom, x.wageTo, Parse(x.wageUnit));
  }

  /** Non-negative inputs, which the form's widgets enforce, give
      non-negative features. */
  lemma FeaturesNonNegative(x: CaseInput)
    requires x.pwWage >= 0.0 && x.wageFrom >= 0.0 && x.wageTo >= 0.0
    ensures Derive(x).pwWageAnnual >= 0.0
    ensures Derive(x).offerWageAnnual >= 0.0
    ensures Derive(x).wageRatio >= 0.0
  {
    var f := Derive(x);
    ToAnnualSign(x.pwWage, Parse(x.pwUnit));
    ToAnnualSign(Midpoint(x.wageFrom, x.wageTo), Parse(x.wageUnit));
    RatioGuard(x);
  }

  /** The inputs the form shows before the user edits anything. */
  function DefaultInput(): CaseInput {
    CaseInput("15-1252", "5415", 115000.0, "Year", "Bachelor's", "CA",
              130000.0, 140000.0, "Year", "N")
  }

  /** The default form: 115000 a year against an offer of 130000 to
      140000 a year. */
  lemma DefaultScenario()
    ensures Derive(DefaultInput()).pwWageAnnual == 115000.0
    ensures Derive(DefaultInput()).offerWageAnnual == 135000.0
    ensures Derive(DefaultInput()).wageRatio == 27.0 / 23.0
  {
  }

  /** Hourly wages: 50 an hour against an offer of 55 an hour. */
  lemma HourlyScenario(x: CaseInput)
    requires x.pwWage == 50.0 && x.pwUnit == "Hour"
    requires x.wageFrom == 55.0 && x.wageTo == 55.0 && x.wageUnit == "Hour"
    ensures Derive(x).pwWageAnnual == 104000.0
    ensures Derive(x).offerWageAnnual == 114400.0
    ensures Derive(x).wageRatio == 1.1
  {
  }

  /** A zero prevailing wage triggers the division guard. */
  lemma ZeroPrevailingScenario(x: CaseInput)
    requires x.pwWage == 0.0 && x.pwUnit == "Year"
    requires x.wageFrom == 100.0 && x.wageTo == 100.0 && x.wageUnit == "Year"
    ensures Derive(x).wageRatio == 1.0
  {
  }
}
