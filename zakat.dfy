/** `calculateZakat`: 2.5% of net wealth once it reaches the nisab. */
module Zakat {

  /** Whether zakat is due; the page shows a message for each. */
  datatype Status = Obligatory | NotObligatory

  datatype ZakatResult = ZakatResult(netWealth: real, zakat: real, status: Status)

  /** The nisab threshold, in rupees. */
  const Nisab: real := 503529.0

  /** `calculateZakat` with the form already read. Debts are subtracted
      from the assets; nothing is clamped. */
  function CalculateZakat(cash: real, gold: real, silver: real, investments: real, debts: real): (r: ZakatResult)
    ensures r.netWealth == cash + gold + silver + investments - debts
    ensures r.status == Obligatory <==> r.netWealth >= Nisab
    ensures r.status == Obligatory ==> r.zakat == r.netWealth / 40.0
    ensures r.status == NotObligatory ==> r.zakat == 0.0
  {
    var totalWealth := cash + gold + silver + investments - debts;
    if totalWealth >= 503529.0 then ZakatResult(totalWealth, totalWealth * 0.025, Obligatory)
    else ZakatResult(totalWealth, 0.0, NotObligatory)
  }

  /** Zakat is never negative and never more than 2.5% of a positive net
      wealth; once due it is at least 2.5% of the nisab. */
  lemma ZakatBounds(cash: real, gold: real, silver: real, investments: real, debts: real)
    ensures var r := CalculateZakat(cash, gold, silver, investments, debts);
      && 0.0 <= r.zakat
      && (r.netWealth > 0.0 ==> r.zakat <= r.netWealth * 0.025)
      && (r.status == Obligatory ==> r.zakat >= 12588.225)
  {
  }

  /** Zakat never decreases as net wealth grows: below the nisab it is zero
      and from the nisab on it grows with the wealth. */
  lemma ZakatMonotone(w1: real, w2: real)
    requires w1 <= w2
    ensures CalculateZakat(w1, 0.0, 0.0, 0.0, 0.0).zakat <= CalculateZakat(w2, 0.0, 0.0, 0.0, 0.0).zakat
  {
  }

  /** One rupee below the nisab nothing is due; at the nisab Rs. 12,588.225
      is due, which the page rounds to 12,588. */
  lemma NisabEdge()
    ensures CalculateZakat(503528.0, 0.0, 0.0, 0.0, 0.0) == ZakatResult(503528.0, 0.0, NotObligatory)
    ensures CalculateZakat(503529.0, 0.0, 0.0, 0.0, 0.0) == ZakatResult(503529.0, 12588.225, Obligatory)
  {
  }
}
