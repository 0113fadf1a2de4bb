/** `calculateAgriTax`: agricultural tax either on land area, at a flat
    per-acre rate chosen by the total area, or on agricultural income, by
    progressive slabs. */
module AgriTax {

  /** Which of the two forms the user chose. */
  datatype AgriMethod = LandBased | IncomeBased

  /** Barani (rain-fed) land pays half; every other land type pays in full. */
  datatype LandType = Barani | OtherLand

  /** Which rule fired, standing for the explanation the page shows. */
  datatype AgriRule =
    | LandExempt
    | PerAcre(ratePerAcre: nat)
    | IncomeExempt
    | IncomeSlab(base: nat, percent: nat, threshold: nat)

  /** The computed tax, the rule that produced it and whether the Barani
      reduction was applied. */
  datatype AgriResult = AgriResult(taxAmount: real, rule: AgriRule, baraniReduced: bool)

  /** The per-acre rate for a land area: the rate applies to the whole
      area, not to the part above a threshold. */
  function RatePerAcre(landArea: real): (rate: nat)
    ensures landArea <= 12.5 <==> rate == 0
    ensures rate in {0, 300, 450, 600}
  {
    if landArea <= 12.5 then 0
    else if landArea <= 25.0 then 300
    else if landArea <= 50.0 then 450
    else 600
  }

  /** The land-based branch. */
  function LandBasedTax(landArea: real, landType: LandType): (r: AgriResult)
    ensures r.rule == (if landArea <= 12.5 then LandExempt else PerAcre(RatePerAcre(landArea)))
    ensures r.baraniReduced <==> landType == Barani
    ensures landArea <= 12.5 ==> r.taxAmount == 0.0
    ensures landType == OtherLand ==> r.taxAmount == landArea * RatePerAcre(landArea) as real
    ensures landType == Barani ==> r.taxAmount == landArea * RatePerAcre(landArea) as real / 2.0
    ensures r.taxAmount >= 0.0
  {
    var rate := RatePerAcre(landArea);
    var taxAmount := landArea * rate as real;
    var rule := if rate == 0 then LandExempt else PerAcre(rate);
    if landType == Barani then AgriResult(taxAmount * 0.5, rule, true)
    else AgriResult(taxAmount, rule, false)
  }

  /** The income-based branch. */
  function IncomeBasedTax(agriIncome: real): (r: AgriResult)
    ensures agriIncome <= 400000.0 <==> r.rule == IncomeExempt
    ensures agriIncome <= 400000.0 ==> r.taxAmount == 0.0
    ensures agriIncome > 400000.0 ==> r.taxAmount > 0.0
    ensures !r.baraniReduced
  {
    if agriIncome <= 400000.0 then AgriResult(0.0, IncomeExempt, false)
    else if agriIncome <= 800000.0 then
      AgriResult((agriIncome - 400000.0) * 0.05, IncomeSlab(0, 5, 400000), false)
    else if agriIncome <= 1200000.0 then
      AgriResult(20000.0 + (agriIncome - 800000.0) * 0.10, IncomeSlab(20000, 10, 800000), false)
    else
      AgriResult(60000.0 + (agriIncome - 1200000.0) * 0.15, IncomeSlab(60000, 15, 1200000), false)
  }

  /** `calculateAgriTax` with the form already read; the inputs of the form
      not in use are ignored. */
  function CalculateAgriTax(agriMethod: AgriMethod, landArea: real, landType: LandType, agriIncome: real): (r: AgriResult)
    ensures agriMethod == LandBased ==> r == LandBasedTax(landArea, landType)
    ensures agriMethod == IncomeBased ==> r == IncomeBasedTax(agriIncome)
    ensures r.taxAmount >= 0.0
  {
    match agriMethod
    case LandBased => LandBasedTax(landArea, landType)
    case IncomeBased => IncomeBasedTax(agriIncome)
  }

  /** Barani land pays exactly half of what other land of the same area pays. */
  lemma BaraniHalvesLandTax(landArea: real)
    ensures LandBasedTax(landArea, Barani).taxAmount * 2.0 == LandBasedTax(landArea, OtherLand).taxAmount
    ensures LandBasedTax(landArea, Barani).rule == LandBasedTax(landArea, OtherLand).rule
  {
  }

  /** More land never costs less: the per-acre rate only rises with the area. */
  lemma LandTaxMonotone(a: real, b: real, landType: LandType)
    requires a <= b
    ensures LandBasedTax(a, landType).taxAmount <= LandBasedTax(b, landType).taxAmount
  {
    var ra := RatePerAcre(a) as real;
    var rb := RatePerAcre(b) as real;
    assert ra <= rb;
    if ra > 0.0 {
      assert a * ra <= b * ra by {
        assert (b - a) * ra >= 0.0;
      }
      assert b * ra <= b * rb by {
        assert b * (rb - ra) >= 0.0;
      }
    }
  }

  /** The income slabs meet at their boundaries (Rs. 20,000 at 800,000 and
      Rs. 60,000 at 1,200,000), and the tax grows by at most 15% of any
      increase in income: it is monotone and continuous. */
  lemma IncomeTaxContinuous(x: real, y: real)
    requires x <= y
    ensures IncomeBasedTax(800000.0).taxAmount == 20000.0
    ensures IncomeBasedTax(1200000.0).taxAmount == 60000.0
    ensures 0.0 <= IncomeBasedTax(y).taxAmount - IncomeBasedTax(x).taxAmount <= 0.15 * (y - x)
  {
  }

  /** Worked land examples: 20 acres pay Rs. 6,000, or Rs. 3,000 when Barani. */
  lemma LandExamples()
    ensures LandBasedTax(20.0, OtherLand).taxAmount == 6000.0
    ensures LandBasedTax(20.0, Barani).taxAmount == 3000.0
    ensures LandBasedTax(12.5, OtherLand).rule == LandExempt
  {
  }
}
