/** `calculatePension`: civil and military pensions grow with service up to
    a cap; any other scheme pays a fixed amount after fifteen years. */
module Pension {

  datatype PensionType = Civil | Military | OtherScheme

  datatype PensionResult = PensionResult(monthlyPension: real, annualPension: real, commutation: real, gratuity: real)

  /** The cap on the pension percentage. */
  const MaxPensionPercent: real := 70.0

  /** `Math.min(years * 2.33, 70)`: 2.33% of basic pay per year of service, capped. */
  function PensionPercent(years: real): (percent: real)
    ensures percent <= MaxPensionPercent
    ensures years >= 0.0 ==> percent >= 0.0
    ensures years * 2.33 <= MaxPensionPercent ==> percent == years * 2.33
    ensures years * 2.33 >= MaxPensionPercent ==> percent == MaxPensionPercent
  {
    if years * 2.33 <= 70.0 then years * 2.33 else 70.0
  }

  /** `calculatePension` with the form already read. */
  function CalculatePension(basicPay: real, years: real, pensionType: PensionType): (r: PensionResult)
    ensures r.annualPension == 12.0 * r.monthlyPension
    ensures (pensionType == Civil || pensionType == Military) ==>
      && r.monthlyPension == basicPay * PensionPercent(years) / 100.0
      && r.commutation == r.monthlyPension * 39.9
      && r.gratuity == basicPay * years
    ensures pensionType == OtherScheme ==>
      && (r.monthlyPension == 8500.0 <==> years >= 15.0)
      && (r.monthlyPension == 0.0 <==> years < 15.0)
      && r.commutation == 0.0 && r.gratuity == 0.0
  {
    var monthlyPension :=
      if pensionType == Civil || pensionType == Military then (basicPay * PensionPercent(years)) / 100.0
      else if years >= 15.0 then 8500.0 else 0.0;
    var commutation := if pensionType == Civil || pensionType == Military then (monthlyPension * 0.35) * 12.0 * 9.5 else 0.0;
    var gratuity := if pensionType == Civil || pensionType == Military then basicPay * years else 0.0;
    PensionResult(monthlyPension, monthlyPension * 12.0, commutation, gratuity)
  }

  /** With a non-negative basic pay, a civil or military pension is at most
      70% of it, reached after about thirty years (70 / 2.33) of service. */
  lemma PensionCapped(basicPay: real, years: real, pensionType: PensionType)
    requires basicPay >= 0.0 && years >= 0.0
    requires pensionType == Civil || pensionType == Military
    ensures 0.0 <= CalculatePension(basicPay, years, pensionType).monthlyPension <= basicPay * 0.7
    ensures years >= 30.05 ==> CalculatePension(basicPay, years, pensionType).monthlyPension == basicPay * 0.7
  {
    var p := PensionPercent(years);
    assert 0.0 <= p <= 70.0;
    assert basicPay * p <= basicPay * 70.0 by {
      assert basicPay * (70.0 - p) >= 0.0;
    }
    assert basicPay * p >= 0.0;
  }

  /** Civil and military pensions follow the same rules. */
  lemma CivilMatchesMilitary(basicPay: real, years: real)
    ensures CalculatePension(basicPay, years, Civil) == CalculatePension(basicPay, years, Military)
  {
  }
}
