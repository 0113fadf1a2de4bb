/** `calculateSalesTax`: a percentage of the amount, with the rate either
    picked from the preset options or typed in. */
module SalesTax {

  /** The rate selection: a preset option's percentage or a custom one. */
  datatype RateChoice = Preset(percent: real) | Custom(percent: real)

  datatype SalesResult = SalesResult(baseAmount: real, taxAmount: real, totalAmount: real)

  /** `calculateSalesTax` with the form already read. */
  function CalculateSalesTax(amount: real, choice: RateChoice): (r: SalesResult)
    ensures r.baseAmount == amount
    ensures r.totalAmount == r.baseAmount + r.taxAmount
    ensures choice.percent == 0.0 ==> r.taxAmount == 0.0 && r.totalAmount == amount
    ensures amount >= 0.0 && choice.percent >= 0.0 ==> r.taxAmount >= 0.0 && r.totalAmount >= amount
  {
    var rate := match choice
      case Custom(p) => p
      case Preset(p) => p;
    var taxAmount := (amount * rate) / 100.0;
    SalesResult(amount, taxAmount, amount + taxAmount)
  }

  /** The total is the amount grossed up by the rate. */
  lemma TotalIsGrossedUp(amount: real, choice: RateChoice)
    ensures CalculateSalesTax(amount, choice).totalAmount == amount * (1.0 + choice.percent / 100.0)
  {
  }

  /** Sales tax is linear: the tax on two amounts together is the sum of the
      taxes on each, at the same rate. */
  lemma SalesTaxAdditive(a: real, b: real, choice: RateChoice)
    ensures CalculateSalesTax(a + b, choice).taxAmount
         == CalculateSalesTax(a, choice).taxAmount + CalculateSalesTax(b, choice).taxAmount
  {
    assert (a + b) * choice.percent == a * choice.percent + b * choice.percent;
  }
}
