/** `calculateDeductions` and the arithmetic of `calculateSalaryTax`:
    monthly deductions, gross and taxable annual income, the tax, the net
    monthly salary and the effective rate. */
module Salary {
  import opened JsMath
  import IncomeTax
  import TaxBreakdown

  /** The province selected on the form; only Sindh and Punjab change a rule. */
  datatype Province = Sindh | Punjab | OtherProvince

  /** The deduction options read from the form. */
  datatype DeductionOptions = DeductionOptions(
    includeEobi: bool,
    includeSocialSecurity: bool,
    providentFundPercent: real,
    province: Province)

  /** The four monthly deductions. */
  datatype Deductions = Deductions(eobi: real, socialSecurity: real, providentFund: real, professionalTax: real)

  /** What the salary calculator reports. `effectiveRate` is the exact
      percentage that the page shows to two decimals; `breakdown` is the slab
      table shown for a positive taxable income (empty otherwise). */
  datatype SalaryResult = SalaryResult(
    grossAnnual: real,
    deductions: Deductions,
    totalMonthlyDeductions: real,
    taxableIncome: real,
    annualTax: int,
    monthlyTax: real,
    netMonthly: real,
    effectiveRate: real,
    breakdown: seq<TaxBreakdown.Line>)

  /** Monthly salary above which Sindh levies professional tax. */
  const ProfessionalTaxThreshold: real := 12000.0

  /** `Object.values(deductions).reduce((a, b) => a + b, 0)`. */
  function Total(d: Deductions): (total: real)
    ensures d.eobi >= 0.0 && d.socialSecurity >= 0.0 && d.providentFund >= 0.0 && d.professionalTax >= 0.0 ==>
      total >= d.eobi && total >= d.socialSecurity && total >= d.providentFund && total >= d.professionalTax
  {
    d.eobi + d.socialSecurity + d.providentFund + d.professionalTax
  }

  /** `calculateDeductions`: each deduction is zero unless its option is on.
      EOBI is 1% of the salary capped at Rs. 200; social security is 6% in
      Sindh and Punjab and 5% elsewhere; the provident fund is the chosen
      percentage; Sindh charges Rs. 200 professional tax above Rs. 12,000. */
  function CalculateDeductions(monthlySalary: real, options: DeductionOptions): (d: Deductions)
    ensures !options.includeEobi ==> d.eobi == 0.0
    ensures d.eobi <= 200.0
    ensures options.includeEobi ==> d.eobi <= monthlySalary / 100.0
    ensures options.includeEobi && monthlySalary >= 0.0 ==> d.eobi >= 0.0
    ensures options.includeEobi && monthlySalary <= 20000.0 ==> d.eobi == monthlySalary / 100.0
    ensures options.includeEobi && monthlySalary >= 20000.0 ==> d.eobi == 200.0
    ensures !options.includeSocialSecurity ==> d.socialSecurity == 0.0
    ensures options.includeSocialSecurity && (options.province == Sindh || options.province == Punjab) ==> d.socialSecurity == monthlySalary * 0.06
    ensures options.includeSocialSecurity && options.province.OtherProvince? ==> d.socialSecurity == monthlySalary * 0.05
    ensures options.providentFundPercent <= 0.0 ==> d.providentFund == 0.0
    ensures options.providentFundPercent > 0.0 ==> d.providentFund == (monthlySalary * options.providentFundPercent) / 100.0
    ensures d.professionalTax == 200.0 <==> options.province == Sindh && monthlySalary > ProfessionalTaxThreshold
    ensures d.professionalTax == 0.0 || d.professionalTax == 200.0
  {
    var eobi := if options.includeEobi then Min(monthlySalary * 0.01, 200.0) else 0.0;
    var socialSecurity :=
      if !options.includeSocialSecurity then 0.0
      else if options.province == Sindh || options.province == Punjab then monthlySalary * 0.06
      else monthlySalary * 0.05;
    var providentFund :=
      if options.providentFundPercent > 0.0 then (monthlySalary * options.providentFundPercent) / 100.0 else 0.0;
    var professionalTax := if options.province == Sindh && monthlySalary > 12000.0 then 200.0 else 0.0;
    Deductions(eobi, socialSecurity, providentFund, professionalTax)
  }

  /** With a non-negative salary every deduction is non-negative. */
  lemma DeductionsNonNegative(monthlySalary: real, options: DeductionOptions)
    requires monthlySalary >= 0.0
    ensures var d := CalculateDeductions(monthlySalary, options);
      d.eobi >= 0.0 && d.socialSecurity >= 0.0 && d.providentFund >= 0.0 && d.professionalTax >= 0.0
      && Total(d) >= 0.0
  {
    var d := CalculateDeductions(monthlySalary, options);
    if options.providentFundPercent > 0.0 {
      assert monthlySalary * options.providentFundPercent >= 0.0;
    }
  }

  /** The arithmetic of `calculateSalaryTax`. */
  function CalculateSalaryTax(monthlySalary: real, annualBonus: real, options: DeductionOptions): (r: SalaryResult)
    ensures r.grossAnnual == 12.0 * monthlySalary + annualBonus
    ensures r.deductions == CalculateDeductions(monthlySalary, options)
    ensures r.totalMonthlyDeductions == Total(r.deductions)
    ensures r.taxableIncome == r.grossAnnual - 12.0 * r.totalMonthlyDeductions
    ensures r.annualTax == IncomeTax.CalculateTax(r.taxableIncome) && r.annualTax >= 0
    ensures r.monthlyTax * 12.0 == r.annualTax as real
    ensures r.netMonthly == monthlySalary - r.monthlyTax - r.totalMonthlyDeductions
    ensures r.effectiveRate == EffectiveRate(r.annualTax, r.grossAnnual)
    ensures r.taxableIncome <= 0.0 ==> r.breakdown == []
    ensures r.taxableIncome > 0.0 ==> r.breakdown == TaxBreakdown.Breakdown(r.taxableIncome)
  {
    var grossAnnualSalary := (monthlySalary * 12.0) + annualBonus;
    var deductions := CalculateDeductions(monthlySalary, options);
    var totalMonthlyDeductions := Total(deductions);
    var totalAnnualDeductions := totalMonthlyDeductions * 12.0;
    var taxableIncome := grossAnnualSalary - totalAnnualDeductions;
    var annualTax := IncomeTax.CalculateTax(taxableIncome);
    var monthlyTax := annualTax as real / 12.0;
    var netMonthlySalary := monthlySalary - monthlyTax - totalMonthlyDeductions;
    var effectiveRate := EffectiveRate(annualTax, grossAnnualSalary);
    var breakdown := if taxableIncome <= 0.0 then [] else TaxBreakdown.Breakdown(taxableIncome);
    SalaryResult(grossAnnualSalary, deductions, totalMonthlyDeductions, taxableIncome,
                 annualTax, monthlyTax, netMonthlySalary, effectiveRate, breakdown)
  }

  /** The tax as a percentage of the gross annual salary, zero when there
      is no gross salary. */
  function EffectiveRate(annualTax: int, grossAnnual: real): (rate: real)
    ensures grossAnnual <= 0.0 ==> rate == 0.0
    ensures grossAnnual > 0.0 ==> rate * grossAnnual == annualTax as real * 100.0
  {
    if grossAnnual > 0.0 then (annualTax as real / grossAnnual) * 100.0 else 0.0
  }

  /** Every rupee of the monthly salary is accounted for: net pay, the
      monthly share of the tax and the monthly deductions add up to it. */
  lemma SalaryIsFullyAccounted(monthlySalary: real, annualBonus: real, options: DeductionOptions)
    ensures var r := CalculateSalaryTax(monthlySalary, annualBonus, options);
      r.netMonthly + r.monthlyTax + r.totalMonthlyDeductions == monthlySalary
      && 12.0 * r.netMonthly + r.annualTax as real + 12.0 * r.totalMonthlyDeductions == 12.0 * monthlySalary
  {
  }

  /** For a non-negative salary, the deductions only lower the taxable
      income, the net pay never exceeds the salary, and the breakdown of the
      taxable income adds up to it. */
  lemma SalaryBounds(monthlySalary: real, annualBonus: real, options: DeductionOptions)
    requires monthlySalary >= 0.0
    ensures var r := CalculateSalaryTax(monthlySalary, annualBonus, options);
      && r.taxableIncome <= r.grossAnnual
      && r.netMonthly <= monthlySalary
      && (r.taxableIncome > 0.0 ==> TaxBreakdown.SumAmounts(r.breakdown) == r.taxableIncome)
  {
    var r := CalculateSalaryTax(monthlySalary, annualBonus, options);
    DeductionsNonNegative(monthlySalary, options);
    if r.taxableIncome > 0.0 {
      TaxBreakdown.BreakdownOfPositiveIncome(r.taxableIncome);
    }
  }

  /** For a non-negative salary, the effective rate lies in [0, 100): tax
      is owed only on income above Rs. 600,000 and always stays below it. */
  lemma EffectiveRateBelowHundred(monthlySalary: real, annualBonus: real, options: DeductionOptions)
    requires monthlySalary >= 0.0
    ensures var r := CalculateSalaryTax(monthlySalary, annualBonus, options);
      0.0 <= r.effectiveRate < 100.0
  {
    var r := CalculateSalaryTax(monthlySalary, annualBonus, options);
    DeductionsNonNegative(monthlySalary, options);
    assert r.taxableIncome <= r.grossAnnual;
    IncomeTax.TaxShareBound(r.taxableIncome);
    RateOfTaxBelowIncome(r.annualTax, r.grossAnnual, r.taxableIncome);
  }

  /** A tax that is zero or below a taxable income no larger than the gross
      is a share of the gross in [0, 100). */
  lemma RateOfTaxBelowIncome(annualTax: int, grossAnnual: real, taxableIncome: real)
    requires annualTax >= 0 && taxableIncome <= grossAnnual
    requires annualTax > 0 ==> annualTax as real < taxableIncome
    ensures 0.0 <= EffectiveRate(annualTax, grossAnnual) < 100.0
  {
    if grossAnnual > 0.0 {
      ShareBelowOne(annualTax as real, grossAnnual);
    }
  }

  /** A non-negative part of a positive whole, smaller than it unless it is
      zero, is a share in [0, 1). */
  lemma ShareBelowOne(part: real, whole: real)
    requires whole > 0.0 && 0.0 <= part && (part < whole || part == 0.0)
    ensures 0.0 <= part / whole < 1.0
  {
    var share := part / whole;
    assert share * whole == part;
    if share < 0.0 {
      ProductNonNegative(0.0 - share, whole);
    } else if share >= 1.0 {
      ProductNonNegative(share - 1.0, whole);
    }
  }

  lemma ProductNonNegative(a: real, b: real)
    requires a >= 0.0 && b >= 0.0
    ensures a * b >= 0.0
  {
  }
}
