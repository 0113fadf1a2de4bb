/** The six-band progressive income tax of `calculateTax`, with the 9%
    surcharge above Rs. 10,000,000 and the final `Math.round`. */
module IncomeTax {
  import opened JsMath

  /** Income up to which no tax is due. */
  const ExemptLimit: real := 600000.0
  /** Income strictly above which the surcharge applies. */
  const SurchargeThreshold: real := 10000000.0

  /** The band tax before any surcharge: a fixed base at the band start plus
      the marginal rate on the excess; a boundary income belongs to the lower band. */
  function BandTax(annualIncome: real): (tax: real)
    ensures tax >= 0.0
    ensures annualIncome <= ExemptLimit ==> tax == 0.0
    ensures annualIncome > ExemptLimit ==> tax > 0.0
    ensures tax <= 0.35 * annualIncome || annualIncome <= ExemptLimit
  {
    if annualIncome <= 600000.0 then 0.0
    else if annualIncome <= 1200000.0 then (annualIncome - 600000.0) * 0.01
    else if annualIncome <= 2200000.0 then 6000.0 + (annualIncome - 1200000.0) * 0.11
    else if annualIncome <= 3200000.0 then 116000.0 + (annualIncome - 2200000.0) * 0.23
    else if annualIncome <= 4100000.0 then 346000.0 + (annualIncome - 3200000.0) * 0.30
    else 616000.0 + (annualIncome - 4100000.0) * 0.35
  }

  /** The tax after the surcharge step and before rounding. */
  function SurchargedTax(annualIncome: real): (tax: real)
    ensures annualIncome > SurchargeThreshold ==> tax == 1.09 * BandTax(annualIncome)
    ensures annualIncome <= SurchargeThreshold ==> tax == BandTax(annualIncome)
    ensures tax >= BandTax(annualIncome)
  {
    var tax := BandTax(annualIncome);
    if annualIncome > 10000000.0 then tax + tax * 0.09 else tax
  }

  /** `calculateTax`: the rounded total tax for an annual income. Negative
      incomes (a business loss) are taxed at zero like any exempt income. */
  function CalculateTax(annualIncome: real): (tax: int)
    ensures tax >= 0
    ensures annualIncome <= ExemptLimit ==> tax == 0
    ensures tax as real - 0.5 <= SurchargedTax(annualIncome) < tax as real + 0.5
  {
    Round(SurchargedTax(annualIncome))
  }

  /** The start of band `k` (0 to 5) of the schedule. */
  function BandStart(k: nat): real
    requires k < 6
  {
    match k
    case 0 => 0.0
    case 1 => 600000.0
    case 2 => 1200000.0
    case 3 => 2200000.0
    case 4 => 3200000.0
    case _ => 4100000.0
  }

  /** The tax already owed at the start of band `k` (0 to 5). */
  function BandBase(k: nat): real
    requires k < 6
  {
    match k
    case 0 => 0.0
    case 1 => 0.0
    case 2 => 6000.0
    case 3 => 116000.0
    case 4 => 346000.0
    case _ => 616000.0
  }

  /** The marginal rate of band `k` (0 to 5), as a fraction. */
  function BandRate(k: nat): real
    requires k < 6
  {
    match k
    case 0 => 0.0
    case 1 => 0.01
    case 2 => 0.11
    case 3 => 0.23
    case 4 => 0.30
    case _ => 0.35
  }

  /** The formula of band `k` applied to an income. */
  function BandFormula(k: nat, annualIncome: real): real
    requires k < 6
  {
    BandBase(k) + (annualIncome - BandStart(k)) * BandRate(k)
  }

  /** Adjacent band formulas agree at the boundary between them, so the
      schedule has no jump: 1.2M gives 6,000, 2.2M 116,000, 3.2M 346,000,
      4.1M 616,000. */
  lemma BandsMeetAtBoundaries(k: nat)
    requires 0 < k < 6
    ensures BandFormula(k - 1, BandStart(k)) == BandFormula(k, BandStart(k)) == BandBase(k)
    ensures BandTax(BandStart(k)) == BandBase(k)
  {
  }

  /** Above the exemption, the tax is the formula of the highest band
      whose start lies strictly below the income. */
  lemma BandTaxIsBandFormula(annualIncome: real, k: nat)
    requires 0 < k < 6
    requires BandStart(k) < annualIncome
    requires k < 5 ==> annualIncome <= BandStart(k + 1)
    ensures BandTax(annualIncome) == BandFormula(k, annualIncome)
  {
  }

  /** The band tax is non-decreasing and grows by at most the top marginal
      rate of 35%: it is monotone and continuous everywhere. */
  lemma BandTaxGrowth(x: real, y: real)
    requires x <= y
    ensures 0.0 <= BandTax(y) - BandTax(x) <= 0.35 * (y - x)
  {
  }

  /** The rounded tax never decreases as income grows, across the surcharge
      threshold too. */
  lemma CalculateTaxMonotone(x: real, y: real)
    requires x <= y
    ensures CalculateTax(x) <= CalculateTax(y)
  {
    BandTaxGrowth(x, y);
    assert SurchargedTax(x) <= SurchargedTax(y);
    RoundMonotone(SurchargedTax(x), SurchargedTax(y));
  }

  /** The surcharge changes the tax exactly when the income is strictly
      above Rs. 10,000,000; at exactly 10,000,000 there is none. */
  lemma SurchargeOnlyAboveThreshold(annualIncome: real)
    ensures SurchargedTax(annualIncome) != BandTax(annualIncome) <==> annualIncome > SurchargeThreshold
  {
    if annualIncome > SurchargeThreshold {
      assert BandTax(annualIncome) > 0.0;
    }
  }

  /** Crossing the surcharge threshold adds at least 9% of the tax due at
      the threshold (Rs. 241,290): the one jump of the schedule. */
  lemma SurchargeJump(annualIncome: real)
    requires annualIncome > SurchargeThreshold
    ensures BandTax(SurchargeThreshold) == 2681000.0
    ensures SurchargedTax(annualIncome) - SurchargedTax(SurchargeThreshold) >= 241290.0
  {
    BandTaxGrowth(SurchargeThreshold, annualIncome);
  }

  /** The rounded tax is at most 38.15% (35% with the 9% surcharge) of a
      taxable income, give or take the rounding, so it is always below an
      income that owes any tax. */
  lemma TaxShareBound(annualIncome: real)
    ensures CalculateTax(annualIncome) as real <= 0.3815 * annualIncome + 0.5 || annualIncome <= ExemptLimit
    ensures CalculateTax(annualIncome) > 0 ==> CalculateTax(annualIncome) as real < annualIncome
  {
    if annualIncome > ExemptLimit {
      var band := BandTax(annualIncome);
      assert band <= 0.35 * annualIncome;
      assert SurchargedTax(annualIncome) <= 1.09 * band;
      assert SurchargedTax(annualIncome) <= 0.3815 * annualIncome;
    }
  }

  /** Worked values at the band edges and just above the surcharge threshold. */
  lemma CalculateTaxExamples()
    ensures CalculateTax(600000.0) == 0
    ensures CalculateTax(1200000.0) == 6000
    ensures CalculateTax(2200000.0) == 116000
    ensures CalculateTax(3200000.0) == 346000
    ensures CalculateTax(4100000.0) == 616000
    ensures CalculateTax(10000000.0) == 2681000
    ensures CalculateTax(10000001.0) == 2922290
  {
    RoundOfInteger(6000);
    RoundOfInteger(116000);
    RoundOfInteger(346000);
    RoundOfInteger(616000);
    RoundOfInteger(2681000);
  }
}
