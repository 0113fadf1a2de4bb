# Pakistan tax calculator: the rule engine

The calculator page offers eight calculators. Each one reads a form, applies a
fixed schedule of Pakistani tax rules and shows the figures. This project
models the rules and proves properties of them. The page, the forms and the
chart are not modelled.

- **Salary.** `calculateTax` is the six-band income tax: 0% up to
  Rs. 600,000, then 1%, 11%, 23%, 30% and 35% marginal rates. A 9% surcharge
  applies to incomes strictly above Rs. 10,000,000, and the result is rounded
  with `Math.round`. `generateTaxBreakdown` walks the slab table, allocates
  the income to the slabs and emits one line per slab used.
  `calculateDeductions` and `calculateSalaryTax` turn a monthly salary and
  bonus into taxable income, tax, net pay and an effective rate.
- **The other calculators.** PTA mobile duty, business tax by entity type,
  zakat, agricultural tax (by land or by income), sales tax, property tax and
  pensions.
- **`formatNumber`,** the thousands separator used for every displayed figure.

Money is an exact `real`. `Math.round(x)` is `floor(x + 0.5)`, and `Math.min`
is the smaller of two reals. A value read from a form becomes a parameter, and
a choice from a drop-down becomes a datatype.

Modules:

| module | file | models |
|---|---|---|
| `JsMath` | js_math.dfy | `Math.round`, `Math.min` |
| `IncomeTax` | income_tax.dfy | `calculateTax` |
| `TaxBreakdown` | tax_breakdown.dfy | `generateTaxBreakdown` (imperative loop) |
| `Salary` | salary.dfy | `calculateDeductions`, `calculateSalaryTax` |
| `MobileDuty` | mobile_duty.dfy | `calculatePTATax` |
| `BusinessTax` | business_tax.dfy | `calculateBusinessTax` |
| `Zakat` | zakat.dfy | `calculateZakat` |
| `AgriTax` | agri_tax.dfy | `calculateAgriTax` |
| `SalesTax` | sales_tax.dfy | `calculateSalesTax` |
| `PropertyTax` | property_tax.dfy | `calculatePropertyTax` |
| `Pension` | pension.dfy | `calculatePension` |
| `NumberFormat` | number_format.dfy | `formatNumber` on natural numbers |

### The breakdown loop

`generateTaxBreakdown` updates `remainingIncome`, `totalTax` and the
`breakdown` array step by step. It is modelled by two methods:

- `AllocateOverSlabs` holds the loop. It runs over any slab table with
  non-negative widths, and its
  loop invariants tie it to the recursive function `BreakdownFrom`.
- `GenerateTaxBreakdown` runs that loop over the constant six-slab table. It
  states that the running `totalTax` ends equal to the band tax of
  `calculateTax`.

The lemmas then relate the slab table to the band formulas. Every full slab
owes a whole number of rupees. So the rounded line taxes add up to the rounded
band tax, which is `calculateTax` up to Rs. 10,000,000. Above that, the
breakdown leaves out the surcharge, and its line taxes fall short of
`calculateTax` by at least Rs. 241,290.

## Model

| member | source | states |
|---|---|---|
| JsMath.Round | js/calculator.js:91 | `Math.round(x)` is an integer within half a rupee of `x`; a tie rounds up |
| JsMath.Min | js/calculator.js:112 | `Math.min` is one of its arguments and no larger than either |
| JsMath.RoundMonotone | js/calculator.js:91 | rounding keeps the order of two amounts |
| IncomeTax.BandTax | js/calculator.js:72-84 | the band tax is zero up to Rs. 600,000, positive above it and at most 35% of the income |
| IncomeTax.SurchargedTax | js/calculator.js:86-89 | strictly above Rs. 10,000,000 the tax is 109% of the band tax; at or below it the tax is the band tax unchanged |
| IncomeTax.CalculateTax | js/calculator.js:69-92 | the rounded tax is non-negative, zero up to Rs. 600,000 (and for losses), and within half a rupee of the surcharged tax |
| IncomeTax.BandsMeetAtBoundaries | js/calculator.js:72-84 | the formulas of adjacent bands agree at each band start (6,000 / 116,000 / 346,000 / 616,000) |
| IncomeTax.BandTaxIsBandFormula | js/calculator.js:72-84 | above the exemption, the tax is the formula of the band the income falls in; a boundary income belongs to the lower band |
| IncomeTax.BandTaxGrowth | js/calculator.js:72-84 | the band tax never decreases, and grows by at most 35% of any rise in income |
| IncomeTax.CalculateTaxMonotone | js/calculator.js:69-92 | more income never means less rounded tax, across the surcharge threshold too |
| IncomeTax.SurchargeOnlyAboveThreshold | js/calculator.js:87-89 | the surcharge changes the tax exactly when the income is strictly above Rs. 10,000,000 |
| IncomeTax.SurchargeJump | js/calculator.js:86-89 | the band tax at Rs. 10,000,000 is 2,681,000, and crossing the threshold adds at least Rs. 241,290 |
| IncomeTax.TaxShareBound | js/calculator.js:69-92 | the tax is at most 38.15% of a taxable income, give or take the rounding, and any positive tax is below the income |
| IncomeTax.CalculateTaxExamples | js/calculator.js:69-92 | the tax at every band start, at 10,000,000 and at 10,000,001 (2,922,290) |
| TaxBreakdown.Slabs | js/calculator.js:100-107 | the slab table: widths of Rs. 600,000, 600,000, 1,000,000, 1,000,000 and 900,000, then an unbounded top slab, at 0, 1, 11, 23, 30 and 35 percent |
| TaxBreakdown.Breakdown | js/calculator.js:95-130 | the lines `generateTaxBreakdown` returns: the slab walk `BreakdownFrom` over `Slabs` from the first slab with the whole income remaining |
| TaxBreakdown.SlabTax | js/calculator.js:113 | the unrounded tax on an amount at a slab's rate (`taxableAmount * slab.rate`) |
| TaxBreakdown.BreakdownFrom | js/calculator.js:109-127 | the lines the loop emits from slab `i` on with `remaining` income left: none once the table ends or the income is used up, a line for each positive `Math.min(remaining, limit)` |
| TaxBreakdown.TotalTaxFrom | js/calculator.js:109-127 | what the loop adds to `totalTax` from slab `i` on: each slab's unrounded tax on its share |
| TaxBreakdown.Take | js/calculator.js:112 | a slab takes the remaining income up to its limit, and the whole remainder from the top slab |
| TaxBreakdown.LinesWellFormed | js/calculator.js:109-127 | the lines name slabs in strictly increasing order; each amount is positive and within its slab's limit, and each line carries that slab's rate and its rounded tax |
| TaxBreakdown.LineCount | js/calculator.js:109-127 | there are never more lines than slabs |
| TaxBreakdown.AmountsSumToIncome | js/calculator.js:109-127 | over a table with non-negative widths and an unbounded top slab, the line amounts add up to a positive income exactly |
| TaxBreakdown.PositiveIncomeOver | js/calculator.js:109-127 | on such a table a positive income gives one line or more, in table order, summing to the income |
| TaxBreakdown.BreakdownOfPositiveIncome | js/calculator.js:100-127 | a positive income gives one to six lines over the six slabs, each positive and within its slab, summing to the income |
| TaxBreakdown.BreakdownOfNonPositiveIncome | js/calculator.js:110 | a zero or negative income gives no lines |
| TaxBreakdown.SlabsWellShaped | js/calculator.js:100-107 | the slab widths are non-negative and the top slab has no limit |
| TaxBreakdown.SlabsMatchBands | js/calculator.js:100-107 | slab `k` spans band `k` of `calculateTax` at band `k`'s rate, and its full tax is the step between consecutive band bases |
| TaxBreakdown.FullSlabTaxIsWhole | js/calculator.js:100-107 | every full slab below the top one owes a whole number of rupees |
| TaxBreakdown.EndsInBand | js/calculator.js:100-107 | an income ending inside band `k` owes, beyond band `k`'s base, exactly slab `k`'s tax on the part inside the band |
| TaxBreakdown.TotalTaxFollowsBands | js/calculator.js:109-127 | from slab `k` on, the loop's running total equals the band tax less band `k`'s base |
| TaxBreakdown.LineTaxesFollowBands | js/calculator.js:116-124 | from slab `k` on, the rounded line taxes add up to the rounded band tax less band `k`'s base |
| TaxBreakdown.TotalInLastSlab | js/calculator.js:112-114 | an income that fits in a slab adds only that slab's tax to the total |
| TaxBreakdown.TotalPastFullSlab | js/calculator.js:112-126 | a full slab adds the step between consecutive bases to the running total |
| TaxBreakdown.LinesPastFullSlab | js/calculator.js:116-124 | a full slab with a whole-rupee tax adds that step to the rounded line taxes |
| TaxBreakdown.LastLineTax | js/calculator.js:116-124 | an income ending inside band `k` gives one last line, whose rounded tax is the rounded tax owed beyond band `k`'s base |
| TaxBreakdown.FullLineTax | js/calculator.js:116-126 | a full slab gives a line taxed at its whole-rupee tax, followed by the lines of the rest |
| TaxBreakdown.LoopStep | js/calculator.js:109-127 | one turn of the loop: the slab's amount, its tax added to the total, and at most one line |
| TaxBreakdown.PushLine | js/calculator.js:117-123 | pushing a line adds its amount to the amount allocated |
| TaxBreakdown.TotalTaxIsBandTax | js/calculator.js:114 | the loop's unrounded `totalTax` is the band tax of `calculateTax` before the surcharge, for every income |
| TaxBreakdown.LineTaxesSumToCalculateTax | js/calculator.js:121 | the rounded line taxes add up to the rounded band tax, which is `calculateTax` up to Rs. 10,000,000 |
| TaxBreakdown.BreakdownOmitsSurcharge | js/calculator.js:109-127 | above Rs. 10,000,000 the line taxes fall short of `calculateTax` by at least Rs. 241,290 |
| TaxBreakdown.AllocateOverSlabs | js/calculator.js:109-127 | on any slab table with non-negative widths, the lines and the running total the loop produces are those of the slab walk `BreakdownFrom` / `TotalTaxFrom`; its invariant keeps allocated plus remaining income equal to the income |
| TaxBreakdown.GenerateTaxBreakdown | js/calculator.js:95-130 | the breakdown is empty for a non-positive income and otherwise sums to it, with at most one line per slab; the loop's `totalTax` ends equal to the band tax |
| Salary.Total | js/calculator.js:219 | the total monthly deduction, the sum of the four deductions (`reduce`); with non-negative deductions it is at least each of them |
| Salary.CalculateDeductions | js/calculator.js:177-203 | each deduction is zero when its option is off; EOBI is 1% of the salary up to Rs. 20,000 and exactly Rs. 200 from there on; social security is 6% in Sindh and Punjab and 5% elsewhere; the provident fund is the chosen percentage; Sindh's Rs. 200 professional tax applies exactly above Rs. 12,000 |
| Salary.DeductionsNonNegative | js/calculator.js:177-203 | for a non-negative salary every deduction, and their total, is non-negative |
| Salary.CalculateSalaryTax | js/calculator.js:216-228 | gross is 12 salaries plus the bonus; taxable income is gross less 12 months of deductions; the tax is `calculateTax` of it; the breakdown is shown only for a positive taxable income |
| Salary.EffectiveRate | js/calculator.js:228 | the effective rate is zero without a gross salary, and otherwise that rate of the gross is the tax |
| Salary.SalaryIsFullyAccounted | js/calculator.js:225-227 | net pay, the monthly tax and the monthly deductions add up to the salary |
| Salary.SalaryBounds | js/calculator.js:216-227 | for a non-negative salary, taxable income is at most gross and net pay at most the salary; the breakdown adds up to the taxable income |
| Salary.RateOfTaxBelowIncome | js/calculator.js:228 | a tax that is zero or below a taxable income no larger than the gross gives an effective rate in [0, 100) |
| Salary.EffectiveRateBelowHundred | js/calculator.js:228 | for a non-negative salary the effective rate is in [0, 100) |
| MobileDuty.DutyRatePercent | js/calculator.js:302-322 | passport rates run from 10% to 25% and CNIC rates from 15% to 30%; each bound belongs to the lower step |
| MobileDuty.CalculatePtaTax | js/calculator.js:291-326 | nothing is shown exactly when the price is zero; otherwise the rupee price, the duty at the table rate and the total are shown |
| MobileDuty.DutyRateMonotone | js/calculator.js:302-322 | for each channel, a higher price never has a lower rate |
| MobileDuty.DutyRateAtBounds | js/calculator.js:302-322 | every bound of both tables belongs to the lower step: passport 10/15/20% at 30,000/60,000/100,000 and the next rate just above; CNIC 15/20/25% at 50,000/100,000/200,000 and the next rate just above |
| MobileDuty.PassportNeverDearer | js/calculator.js:302-322 | at every price the passport rate is at most the CNIC rate |
| MobileDuty.TotalCostMonotone | js/calculator.js:324-325 | the total cost never decreases as a non-negative price grows |
| BusinessTax.EntityTax | js/calculator.js:346-361 | individuals pay `calculateTax`; an AOP pays nothing exactly up to Rs. 400,000 and 25% above it; both company types pay 29% |
| BusinessTax.CalculateBusinessTax | js/calculator.js:343-364 | taxable income is income less expenses; the tax is the entity's tax on it; net profit plus tax is the taxable income; the effective rate is the tax as a percentage of the taxable income |
| BusinessTax.EffectiveTaxRate | js/calculator.js:364 | the rate is zero without a profit, and otherwise that percentage of the taxable income is exactly the tax |
| BusinessTax.EffectiveRateIsShare | js/calculator.js:343-364 | for every income, expenses and entity, on a profit the effective rate times the taxable income is one hundred times the tax |
| BusinessTax.CompaniesAtFlatRate | js/calculator.js:357-364 | the two company types give identical results for every income and expenses, and on a profit the effective rate is 29% |
| BusinessTax.AopRateAboveExemption | js/calculator.js:350-364 | above its exemption an AOP's effective rate is 25% |
| BusinessTax.NoTaxOnLoss | js/calculator.js:346-363 | an individual with a loss or a profit up to Rs. 600,000, or an AOP with a loss or a profit up to Rs. 400,000, pays nothing and keeps the whole result |
| Zakat.CalculateZakat | js/calculator.js:383-393 | net wealth is the assets less debts; zakat is due exactly when net wealth reaches the nisab of Rs. 503,529, and it is then 1/40 of the net wealth |
| Zakat.ZakatBounds | js/calculator.js:388-389 | zakat is never negative and never more than 2.5% of a positive net wealth; once due it is at least Rs. 12,588.225 |
| Zakat.ZakatMonotone | js/calculator.js:383-393 | more wealth never means less zakat |
| Zakat.NisabEdge | js/calculator.js:384-389 | one rupee below the nisab nothing is due; at the nisab Rs. 12,588.225 is due |
| AgriTax.RatePerAcre | js/calculator.js:427-439 | the rate is zero exactly up to 12.5 acres and otherwise 300, 450 or 600 per acre |
| AgriTax.LandBasedTax | js/calculator.js:427-444 | the tax is the whole area at the area's rate, halved for Barani land; the Barani note is added for Barani land even when exempt |
| AgriTax.IncomeBasedTax | js/calculator.js:448-460 | agricultural income is exempt exactly up to Rs. 400,000 and taxed positively above it |
| AgriTax.CalculateAgriTax | js/calculator.js:423-461 | the chosen method decides which rule applies; the tax is never negative |
| AgriTax.BaraniHalvesLandTax | js/calculator.js:441-444 | Barani land pays exactly half of what other land of the same area pays, under the same rule |
| AgriTax.LandTaxMonotone | js/calculator.js:427-444 | more land never costs less |
| AgriTax.IncomeTaxContinuous | js/calculator.js:448-460 | the income slabs meet at Rs. 20,000 and Rs. 60,000, and the tax grows by at most 15% of any rise in income |
| AgriTax.LandExamples | js/calculator.js:427-444 | 20 acres pay Rs. 6,000, or Rs. 3,000 when Barani; 12.5 acres are exempt |
| SalesTax.CalculateSalesTax | js/calculator.js:476-485 | the total is the amount plus the tax; a zero rate adds nothing; non-negative inputs give a non-negative tax |
| SalesTax.TotalIsGrossedUp | js/calculator.js:484-485 | the total is the amount grossed up by the rate |
| SalesTax.SalesTaxAdditive | js/calculator.js:484 | the tax on two amounts together is the sum of their taxes |
| PropertyTax.AnnualRate | js/calculator.js:503-513 | every rate lies in (0, 1%]; commercial rates are at least 0.6% and residential at most 0.4% |
| PropertyTax.CalculatePropertyTax | js/calculator.js:515-517 | the annual tax is the value at the city's rate; capital-gains tax is a tenth of the value and stamp duty a fiftieth |
| PropertyTax.RateTableOrder | js/calculator.js:503-513 | commercial pays more than residential in every city; Lahore and Islamabad share rates; Karachi's are the highest |
| PropertyTax.TransferChargesIgnoreLocation | js/calculator.js:516-517 | the capital-gains tax and stamp duty do not depend on city or type |
| PropertyTax.KarachiCommercialExample | js/calculator.js:503-517 | a Rs. 10,000,000 commercial property in Karachi pays 100,000 a year, 1,000,000 capital-gains tax and 200,000 stamp duty |
| Pension.PensionPercent | js/calculator.js:538 | 2.33% per year of service, capped at 70% |
| Pension.CalculatePension | js/calculator.js:537-548 | civil and military pensions are the capped percentage of basic pay, with commutation of 39.9 monthly pensions and gratuity of pay times years; other schemes pay Rs. 8,500 exactly from 15 years; the annual pension is 12 monthly ones |
| Pension.PensionCapped | js/calculator.js:538-539 | a civil or military pension is at most 70% of basic pay, reached after 30.05 years |
| Pension.CivilMatchesMilitary | js/calculator.js:537-541 | civil and military pensions follow the same rules |
| NumberFormat.DecimalString | js/calculator.js:13 | `toString` of a natural number is a non-empty run of digits with no leading zero |
| NumberFormat.DecimalStringValue | js/calculator.js:13 | the digits of `toString` denote the number |
| NumberFormat.CommaBefore | js/calculator.js:13 | the pattern `\B(?=(\d{3})+(?!\d))` matches before a position inside the digits exactly when a positive multiple of three digits follows it up to the end |
| NumberFormat.InsertCommas | js/calculator.js:13 | the global replace: each digit in order, preceded by a comma where the pattern matches |
| NumberFormat.FormatNumber | js/calculator.js:12-14 | deleting the commas gives back the decimal digits; the commas fall every fourth character from the right, never first, so the first group has one to three digits and every later group three |
| NumberFormat.CommasRemoved | js/calculator.js:13 | the replacement only inserts commas |
| NumberFormat.CommaPositions | js/calculator.js:13 | after the first digit, the output has a comma exactly every fourth character from the end |
| NumberFormat.Grouped | js/calculator.js:13 | the whole output's length is not a multiple of four and its commas are exactly every fourth character from the end |
| NumberFormat.FormatExamples | js/calculator.js:12-14 | 0 is shown as "0" and 1000 as "1,000" |

## Left out

- The page itself is left out: reading the form (`parseFloat(...) || 0`),
  writing results into the DOM, `animateValue`, `showCalculator`,
  `toggleAgriMethod`, `window.onload` and the `window` exports. Form values
  are parameters of the modelled functions.
- `updateSalaryChart` only passes rounded figures to the charting library,
  which is not part of this model.
- `displayTaxBreakdown` renders HTML. Its one rule, hiding the table when the
  taxable income is not positive, is the `breakdown` field of
  `Salary.CalculateSalaryTax`.
- CalculatePtaTax: the default exchange rate of 278, used when the field
  is empty or zero, is not modelled; the rate in use is a parameter.
- Floating point: every amount is an exact real. IEEE-754 rounding of
  products such as `annualIncome * 0.35` is not modelled, so `Math.round`
  can differ from the page on an amount within rounding error of a half rupee.
- `toFixed(2)` and `toFixed(0)`: effective rates are kept as exact reals. A
  slab's rate label is its whole percentage (`ratePercent`), not a string.
- Messages and labels: explanation strings and slab names are not modelled.
  They are represented by the datatypes `AgriRule`, `Zakat.Status`,
  `MobileDuty.Outcome` and the line's `band` index.
- FormatNumber: only natural numbers below 2^53 are modelled as the page
  formats them. From 2^53 on, `toString` gives the shortest digits that read
  back as the same double, padded with zeros ("18446744073709552000" for
  2^64), and from 10^21 on it uses exponent notation; the page then shows
  the exponent form with the same pattern inserting commas among its
  mantissa's digits ("1.2,345e+25"). The model groups the exact decimal
  digits instead. Negative and fractional amounts (a loss, a slab amount
  with paise) are not modelled either: there `toString` produces a sign or
  a decimal point, and the pattern also groups digits after the point.
- DecimalString: only below 2^53 are the digits of `toString` the exact
  digits of the number; above it they are the shortest round-trip digits
  padded with zeros, and from 10^21 on exponent notation. The model always
  gives the exact decimal digits.
- EntityTax: the `switch` has no default, so an unknown entity
  type would pay zero. The entity type is restricted to the four values the
  form offers.
- GenerateTaxBreakdown: `totalTax` is computed but never
  returned by the page. The model computes it and proves it equal to the band
  tax, but does not return it either.
- CalculateSalaryTax: the contract says nothing about the effective
  rate's value beyond `Salary.EffectiveRate`; its bound is proved separately
  in `Salary.EffectiveRateBelowHundred`.
