/** `calculateBusinessTax`: the tax on income less expenses, dispatched on
    the kind of business entity. */
module BusinessTax {
  import IncomeTax

  /** The entity types offered: an individual, an association of persons,
      a private company and a public company. */
  datatype EntityType = Individual | Aop | Company | PublicCompany

  /** The figures the page shows. `effectiveRate` is the exact percentage
      that the page shows to two decimals. */
  datatype BusinessResult = BusinessResult(taxableIncome: real, taxAmount: real, netProfit: real, effectiveRate: real)

  /** Taxable income up to which an association of persons pays nothing. */
  const AopExemptLimit: real := 400000.0

  /** The tax for an entity type on a taxable income that may be negative. */
  function EntityTax(entity: EntityType, taxableIncome: real): (tax: real)
    ensures entity == Individual ==> tax == IncomeTax.CalculateTax(taxableIncome) as real
    ensures entity == Aop ==> (tax == 0.0 <==> taxableIncome <= AopExemptLimit)
    ensures entity == Aop && taxableIncome > AopExemptLimit ==> tax == taxableIncome * 0.25
    ensures entity == Company || entity == PublicCompany ==> tax == taxableIncome * 0.29
    ensures entity != Company && entity != PublicCompany ==> tax >= 0.0
  {
    match entity
    case Individual => IncomeTax.CalculateTax(taxableIncome) as real
    case Aop => if taxableIncome <= 400000.0 then 0.0 else taxableIncome * 0.25
    case Company => taxableIncome * 0.29
    case PublicCompany => taxableIncome * 0.29
  }

  /** `calculateBusinessTax` with the form already read. */
  function CalculateBusinessTax(income: real, expenses: real, entity: EntityType): (r: BusinessResult)
    ensures r.taxableIncome == income - expenses
    ensures r.taxAmount == EntityTax(entity, r.taxableIncome)
    ensures r.netProfit + r.taxAmount == r.taxableIncome
    ensures r.taxableIncome <= 0.0 ==> r.effectiveRate == 0.0
    ensures r.effectiveRate == EffectiveTaxRate(r.taxAmount, r.taxableIncome)
  {
    var taxableIncome := income - expenses;
    var taxAmount := EntityTax(entity, taxableIncome);
    var netProfit := taxableIncome - taxAmount;
    var effectiveTaxRate := EffectiveTaxRate(taxAmount, taxableIncome);
    BusinessResult(taxableIncome, taxAmount, netProfit, effectiveTaxRate)
  }

  /** The tax as a percentage of the taxable income, zero without a profit. */
  function EffectiveTaxRate(taxAmount: real, taxableIncome: real): (rate: real)
    ensures taxableIncome <= 0.0 ==> rate == 0.0
    ensures taxableIncome > 0.0 ==> rate * taxableIncome == taxAmount * 100.0
  {
    if taxableIncome > 0.0 then (taxAmount / taxableIncome) * 100.0 else 0.0
  }

  /** On a profit the effective rate is the percentage of the taxable
      income that the tax amounts to. */
  lemma EffectiveRateIsShare(income: real, expenses: real, entity: EntityType)
    ensures var r := CalculateBusinessTax(income, expenses, entity);
      r.taxableIncome > 0.0 ==> r.effectiveRate * r.taxableIncome == r.taxAmount * 100.0
  {
    RateIsShare(CalculateBusinessTax(income, expenses, entity));
  }

  lemma RateIsShare(r: BusinessResult)
    requires r.effectiveRate == EffectiveTaxRate(r.taxAmount, r.taxableIncome)
    ensures r.taxableIncome > 0.0 ==> r.effectiveRate * r.taxableIncome == r.taxAmount * 100.0
  {
  }

  /** Companies and public companies are taxed alike on every input, and on
      a profit at an effective rate of 29%. */
  lemma CompaniesAtFlatRate(income: real, expenses: real)
    ensures CalculateBusinessTax(income, expenses, Company) == CalculateBusinessTax(income, expenses, PublicCompany)
    ensures income > expenses ==> CalculateBusinessTax(income, expenses, Company).effectiveRate == 29.0
  {
    if income > expenses {
      FlatShare(income - expenses, 0.29);
    }
  }

  /** An association of persons above its exemption pays 25% of the profit. */
  lemma AopRateAboveExemption(income: real, expenses: real)
    requires income - expenses > AopExemptLimit
    ensures CalculateBusinessTax(income, expenses, Aop).effectiveRate == 25.0
  {
    FlatShare(income - expenses, 0.25);
  }

  /** A flat-rate tax is that rate of the income it is charged on. */
  lemma FlatShare(taxableIncome: real, rate: real)
    requires taxableIncome > 0.0
    ensures (taxableIncome * rate) / taxableIncome * 100.0 == rate * 100.0
  {
    assert (taxableIncome * rate) / taxableIncome == rate;
  }

  /** An individual or an association of persons with a loss, or with a
      profit up to its exemption, pays nothing and keeps the whole result. */
  lemma NoTaxOnLoss(income: real, expenses: real, entity: EntityType)
    requires || (entity == Individual && income - expenses <= IncomeTax.ExemptLimit)
             || (entity == Aop && income - expenses <= AopExemptLimit)
    ensures CalculateBusinessTax(income, expenses, entity).taxAmount == 0.0
    ensures CalculateBusinessTax(income, expenses, entity).netProfit == income - expenses
  {
  }
}
