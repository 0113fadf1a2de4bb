/** The PTA mobile-registration duty of `calculatePTATax`: the price is
    converted to rupees and charged a flat rate chosen from a threshold
    table that depends on the registration channel. */
module MobileDuty {

  /** The registration channel; every value other than passport uses the
      CNIC table. */
  datatype Channel = Passport | Cnic

  /** The figures the page shows once a price is entered. */
  datatype Quote = Quote(pricePkr: real, ratePercent: nat, taxAmount: real, totalCost: real)

  /** A zero price produces no output at all. */
  datatype Outcome = NoOutput | Shown(quote: Quote)

  /** The duty rate, in whole percent, for a price in rupees. Each bound
      belongs to the lower step. */
  function DutyRatePercent(channel: Channel, pricePkr: real): (rate: nat)
    ensures channel == Passport ==> 10 <= rate <= 25
    ensures channel == Cnic ==> 15 <= rate <= 30
    ensures channel == Passport && pricePkr <= 30000.0 ==> rate == 10
    ensures channel == Passport && pricePkr > 100000.0 ==> rate == 25
    ensures channel == Cnic && pricePkr <= 50000.0 ==> rate == 15
    ensures channel == Cnic && pricePkr > 200000.0 ==> rate == 30
  {
    match channel
    case Passport =>
      if pricePkr <= 30000.0 then 10
      else if pricePkr <= 60000.0 then 15
      else if pricePkr <= 100000.0 then 20
      else 25
    case Cnic =>
      if pricePkr <= 50000.0 then 15
      else if pricePkr <= 100000.0 then 20
      else if pricePkr <= 200000.0 then 25
      else 30
  }

  /** `calculatePTATax` with the form already read: the price in foreign
      currency, the exchange rate in use and the channel. */
  function CalculatePtaTax(price: real, usdRate: real, channel: Channel): (r: Outcome)
    ensures r.NoOutput? <==> price == 0.0
    ensures r.Shown? ==> r.quote.pricePkr == price * usdRate
    ensures r.Shown? ==> r.quote.ratePercent == DutyRatePercent(channel, r.quote.pricePkr)
    ensures r.Shown? ==> r.quote.taxAmount == r.quote.pricePkr * (r.quote.ratePercent as real / 100.0)
    ensures r.Shown? ==> r.quote.totalCost == r.quote.pricePkr * (1.0 + r.quote.ratePercent as real / 100.0)
  {
    if price == 0.0 then NoOutput
    else
      var pricePkr := price * usdRate;
      var rate := DutyRatePercent(channel, pricePkr);
      var taxAmount := pricePkr * (rate as real / 100.0);
      Shown(Quote(pricePkr, rate, taxAmount, pricePkr + taxAmount))
  }

  /** For each channel the rate is a step function that never decreases as
      the price grows. */
  lemma DutyRateMonotone(channel: Channel, p: real, q: real)
    requires p <= q
    ensures DutyRatePercent(channel, p) <= DutyRatePercent(channel, q)
  {
  }

  /** Every bound of both tables belongs to the lower step. */
  lemma DutyRateAtBounds()
    ensures DutyRatePercent(Passport, 30000.0) == 10 && DutyRatePercent(Passport, 30000.5) == 15
    ensures DutyRatePercent(Passport, 60000.0) == 15 && DutyRatePercent(Passport, 60000.5) == 20
    ensures DutyRatePercent(Passport, 100000.0) == 20 && DutyRatePercent(Passport, 100000.5) == 25
    ensures DutyRatePercent(Cnic, 50000.0) == 15 && DutyRatePercent(Cnic, 50000.5) == 20
    ensures DutyRatePercent(Cnic, 100000.0) == 20 && DutyRatePercent(Cnic, 100000.5) == 25
    ensures DutyRatePercent(Cnic, 200000.0) == 25 && DutyRatePercent(Cnic, 200000.5) == 30
  {
  }

  /** At every price the passport channel charges no more than the CNIC channel. */
  lemma PassportNeverDearer(pricePkr: real)
    ensures DutyRatePercent(Passport, pricePkr) <= DutyRatePercent(Cnic, pricePkr)
  {
  }

  /** For a positive price the total cost never decreases as the price grows:
      the jumps in the rate only add to it. */
  lemma TotalCostMonotone(channel: Channel, p: real, q: real)
    requires 0.0 <= p <= q
    ensures p * (1.0 + DutyRatePercent(channel, p) as real / 100.0)
         <= q * (1.0 + DutyRatePercent(channel, q) as real / 100.0)
  {
    DutyRateMonotone(channel, p, q);
    var a := 1.0 + DutyRatePercent(channel, p) as real / 100.0;
    var b := 1.0 + DutyRatePercent(channel, q) as real / 100.0;
    assert a <= b;
    assert p * a <= q * a by {
      assert (q - p) * a >= 0.0;
    }
    assert q * a <= q * b by {
      assert q * (b - a) >= 0.0;
    }
  }
}
