/** `calculatePropertyTax`: an annual tax at a rate looked up by city and
    property type, reported with a flat capital-gains tax and stamp duty. */
module PropertyTax {

  /** Any type other than commercial is taxed as residential. */
  datatype PropertyType = Residential | Commercial

  /** Cities with their own rates; the rest share the default rates. */
  datatype City = Lahore | Islamabad | Karachi | OtherCity

  datatype PropertyResult = PropertyResult(annualTax: real, capitalGainsTax: real, stampDuty: real)

  /** The annual rate, as a fraction of the property's value. */
  function AnnualRate(city: City, propertyType: PropertyType): (rate: real)
    ensures 0.0 < rate <= 0.01
    ensures propertyType == Commercial ==> rate >= 0.006
    ensures propertyType == Residential ==> rate <= 0.004
  {
    match city
    case Lahore => if propertyType == Commercial then 0.008 else 0.003
    case Islamabad => if propertyType == Commercial then 0.008 else 0.003
    case Karachi => if propertyType == Commercial then 0.01 else 0.004
    case OtherCity => if propertyType == Commercial then 0.006 else 0.0025
  }

  /** `calculatePropertyTax` with the form already read. The capital-gains
      tax (10%) and stamp duty (2%) do not depend on city or type. */
  function CalculatePropertyTax(value: real, propertyType: PropertyType, city: City): (r: PropertyResult)
    ensures r.annualTax == value * AnnualRate(city, propertyType)
    ensures r.capitalGainsTax == value / 10.0
    ensures r.stampDuty == value / 50.0
  {
    PropertyResult(value * AnnualRate(city, propertyType), value * 0.10, value * 0.02)
  }

  /** In every city commercial property pays a higher rate than residential;
      Lahore and Islamabad share their rates, and Karachi's are the highest. */
  lemma RateTableOrder(city: City)
    ensures AnnualRate(city, Residential) < AnnualRate(city, Commercial)
    ensures AnnualRate(Lahore, Commercial) == AnnualRate(Islamabad, Commercial)
    ensures AnnualRate(Lahore, Residential) == AnnualRate(Islamabad, Residential)
    ensures AnnualRate(city, Commercial) <= AnnualRate(Karachi, Commercial)
    ensures AnnualRate(city, Residential) <= AnnualRate(Karachi, Residential)
  {
  }

  /** The capital-gains tax and stamp duty are the same for every city and type. */
  lemma TransferChargesIgnoreLocation(value: real, t1: PropertyType, c1: City, t2: PropertyType, c2: City)
    ensures CalculatePropertyTax(value, t1, c1).capitalGainsTax == CalculatePropertyTax(value, t2, c2).capitalGainsTax
    ensures CalculatePropertyTax(value, t1, c1).stampDuty == CalculatePropertyTax(value, t2, c2).stampDuty
  {
  }

  /** A Rs. 10,000,000 commercial property in Karachi: Rs. 100,000 a year,
      Rs. 1,000,000 capital-gains tax and Rs. 200,000 stamp duty. */
  lemma KarachiCommercialExample()
    ensures CalculatePropertyTax(10000000.0, Commercial, Karachi) == PropertyResult(100000.0, 1000000.0, 200000.0)
  {
  }
}
