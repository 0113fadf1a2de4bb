/** `generateTaxBreakdown`: the annual income split across the slab table,
    one line per slab that receives a positive amount. The breakdown does
    not apply the surcharge of `calculateTax`. */
module TaxBreakdown {
  import opened JsMath
  import IncomeTax

  /** How much of the remaining income a slab can take. */
  datatype Limit = Capped(cap: real) | Unbounded

  /** A slab of the table: its width and its rate in whole percent. */
  datatype Slab = Slab(limit: Limit, ratePercent: nat)

  /** One line of the breakdown. `band` is the slab's position in the
      table and stands for its display name. */
  datatype Line = Line(band: nat, amount: real, ratePercent: nat, tax: int, isActive: bool)

  /** The slab table of the current tax year. */
  const Slabs: seq<Slab> := [
    Slab(Capped(600000.0), 0),
    Slab(Capped(600000.0), 1),
    Slab(Capped(1000000.0), 11),
    Slab(Capped(1000000.0), 23),
    Slab(Capped(900000.0), 30),
    Slab(Unbounded, 35)
  ]

  /** `Math.min(remainingIncome, slab.limit)`. */
  function Take(remaining: real, limit: Limit): (amount: real)
    ensures amount <= remaining
    ensures limit.Capped? ==> amount <= limit.cap
    ensures limit.Capped? ==> amount == remaining || amount == limit.cap
    ensures limit.Unbounded? ==> amount == remaining
  {
    match limit
    case Capped(cap) => Min(remaining, cap)
    case Unbounded => remaining
  }

  /** The unrounded tax on an amount at a slab's rate (`taxableAmount * slab.rate`). */
  function SlabTax(amount: real, slab: Slab): real {
    amount * slab.ratePercent as real / 100.0
  }

  /** The lines the loop emits from slab `i` on, with `remaining` income
      still to allocate. */
  function BreakdownFrom(slabs: seq<Slab>, i: nat, remaining: real): seq<Line>
    requires i <= |slabs|
    decreases |slabs| - i
  {
    if i == |slabs| || remaining <= 0.0 then []
    else
      var amount := Take(remaining, slabs[i].limit);
      var rest := BreakdownFrom(slabs, i + 1, remaining - amount);
      if amount > 0.0 then
        [Line(i, amount, slabs[i].ratePercent, Round(SlabTax(amount, slabs[i])), true)] + rest
      else rest
  }

  /** What the loop adds to `totalTax` from slab `i` on. */
  function TotalTaxFrom(slabs: seq<Slab>, i: nat, remaining: real): real
    requires i <= |slabs|
    decreases |slabs| - i
  {
    if i == |slabs| || remaining <= 0.0 then 0.0
    else
      var amount := Take(remaining, slabs[i].limit);
      SlabTax(amount, slabs[i]) + TotalTaxFrom(slabs, i + 1, remaining - amount)
  }

  /** The breakdown of an annual income over the slab table. */
  function Breakdown(annualIncome: real): seq<Line> {
    BreakdownFrom(Slabs, 0, annualIncome)
  }

  /** The sum of the amounts of some lines. */
  function SumAmounts(lines: seq<Line>): real {
    if lines == [] then 0.0 else lines[0].amount + SumAmounts(lines[1..])
  }

  /** The sum of the rounded taxes of some lines. */
  function SumTaxes(lines: seq<Line>): int {
    if lines == [] then 0 else lines[0].tax + SumTaxes(lines[1..])
  }

  lemma {:induction false} SumAmountsAppend(a: seq<Line>, b: seq<Line>)
    ensures SumAmounts(a + b) == SumAmounts(a) + SumAmounts(b)
  {
    if a != [] {
      assert (a + b)[1..] == a[1..] + b;
      SumAmountsAppend(a[1..], b);
    } else {
      assert a + b == b;
    }
  }

  lemma {:induction false} SumTaxesAppend(a: seq<Line>, b: seq<Line>)
    ensures SumTaxes(a + b) == SumTaxes(a) + SumTaxes(b)
  {
    if a != [] {
      assert (a + b)[1..] == a[1..] + b;
      SumTaxesAppend(a[1..], b);
    } else {
      assert a + b == b;
    }
  }

  /** Every slab's width is non-negative. */
  ghost predicate NonNegativeCaps(slabs: seq<Slab>) {
    forall k :: 0 <= k < |slabs| && slabs[k].limit.Capped? ==> slabs[k].limit.cap >= 0.0
  }

  /** A non-empty table whose last slab has no limit. */
  ghost predicate OpenTopped(slabs: seq<Slab>) {
    |slabs| > 0 && slabs[|slabs| - 1].limit.Unbounded?
  }

  /** Each line names a slab from `i` on, the bands strictly increase, and
      so there are at most as many lines as slabs left. Each line's amount
      is positive, within its slab's limit, and carries that slab's rate and
      its rounded tax. */
  lemma {:induction false} LinesWellFormed(slabs: seq<Slab>, i: nat, remaining: real)
    requires i <= |slabs|
    ensures var lines := BreakdownFrom(slabs, i, remaining);
      && |lines| <= |slabs| - i
      && (forall k :: 0 <= k < |lines| ==>
            && i <= lines[k].band < |slabs|
            && 0.0 < lines[k].amount
            && (slabs[lines[k].band].limit.Capped? ==> lines[k].amount <= slabs[lines[k].band].limit.cap)
            && lines[k].ratePercent == slabs[lines[k].band].ratePercent
            && lines[k].tax == Round(SlabTax(lines[k].amount, slabs[lines[k].band]))
            && lines[k].isActive)
      && (forall k, l :: 0 <= k < l < |lines| ==> lines[k].band < lines[l].band)
    decreases |slabs| - i
  {
    if i < |slabs| && remaining > 0.0 {
      var amount := Take(remaining, slabs[i].limit);
      LinesWellFormed(slabs, i + 1, remaining - amount);
    }
  }

  /** There are at most as many lines as slabs from `i` on. */
  lemma {:induction false} LineCount(slabs: seq<Slab>, i: nat, remaining: real)
    requires i <= |slabs|
    ensures |BreakdownFrom(slabs, i, remaining)| <= |slabs| - i
    decreases |slabs| - i
  {
    if i < |slabs| && remaining > 0.0 {
      LineCount(slabs, i + 1, remaining - Take(remaining, slabs[i].limit));
    }
  }

  /** Over a table with non-negative widths and an unbounded last slab, a
      positive income is allocated in full: the amounts sum to it. */
  lemma {:induction false} AmountsSumToIncome(slabs: seq<Slab>, i: nat, remaining: real)
    requires i < |slabs|
    requires NonNegativeCaps(slabs) && OpenTopped(slabs)
    ensures SumAmounts(BreakdownFrom(slabs, i, remaining)) == if remaining > 0.0 then remaining else 0.0
    decreases |slabs| - i
  {
    if remaining > 0.0 {
      var amount := Take(remaining, slabs[i].limit);
      var rest := BreakdownFrom(slabs, i + 1, remaining - amount);
      if i + 1 < |slabs| {
        AmountsSumToIncome(slabs, i + 1, remaining - amount);
      } else {
        assert amount == remaining;
      }
      if amount > 0.0 {
        var line := Line(i, amount, slabs[i].ratePercent, Round(SlabTax(amount, slabs[i])), true);
        SumAmountsAppend([line], rest);
        assert SumAmounts([line]) == amount;
      }
    }
  }

  /** The breakdown of a positive income over the current table: at most six
      lines in table order, each positive and within its slab, summing to the
      income exactly. */
  lemma BreakdownOfPositiveIncome(annualIncome: real)
    requires annualIncome > 0.0
    ensures var lines := Breakdown(annualIncome);
      && 0 < |lines| <= 6
      && SumAmounts(lines) == annualIncome
      && (forall k :: 0 <= k < |lines| ==>
            && lines[k].band < 6
            && 0.0 < lines[k].amount
            && (Slabs[lines[k].band].limit.Capped? ==> lines[k].amount <= Slabs[lines[k].band].limit.cap))
      && (forall k, l :: 0 <= k < l < |lines| ==> lines[k].band < lines[l].band)
  {
    SlabsWellShaped();
    PositiveIncomeOver(Slabs, annualIncome);
  }

  /** The same over any table with non-negative widths and an unbounded
      last slab. */
  lemma PositiveIncomeOver(slabs: seq<Slab>, remaining: real)
    requires NonNegativeCaps(slabs) && OpenTopped(slabs)
    requires remaining > 0.0
    ensures var lines := BreakdownFrom(slabs, 0, remaining);
      && 0 < |lines| <= |slabs|
      && SumAmounts(lines) == remaining
      && (forall k :: 0 <= k < |lines| ==>
            && lines[k].band < |slabs|
            && 0.0 < lines[k].amount
            && (slabs[lines[k].band].limit.Capped? ==> lines[k].amount <= slabs[lines[k].band].limit.cap))
      && (forall k, l :: 0 <= k < l < |lines| ==> lines[k].band < lines[l].band)
  {
    LinesWellFormed(slabs, 0, remaining);
    AmountsSumToIncome(slabs, 0, remaining);
  }

  /** A zero or negative income has an empty breakdown. */
  lemma BreakdownOfNonPositiveIncome(annualIncome: real)
    requires annualIncome <= 0.0
    ensures Breakdown(annualIncome) == []
  {
  }

  /** The slab table and the band formulas of `calculateTax` describe the
      same schedule: slab `k` spans band `k`, at band `k`'s rate, and its full
      tax is the step between the bases of consecutive bands. */
  lemma SlabsMatchBands(k: nat)
    requires k < 6
    ensures |Slabs| == 6
    ensures Slabs[k].ratePercent as real / 100.0 == IncomeTax.BandRate(k)
    ensures k < 5 ==> Slabs[k].limit == Capped(IncomeTax.BandStart(k + 1) - IncomeTax.BandStart(k))
    ensures k < 5 ==> Slabs[k].limit.cap > 0.0
    ensures k < 5 ==> IncomeTax.BandBase(k + 1) == IncomeTax.BandBase(k) + SlabTax(Slabs[k].limit.cap, Slabs[k])
    ensures k == 5 ==> Slabs[k].limit.Unbounded?
  {
  }

  /** A full slab below the top one owes a whole number of rupees. */
  lemma FullSlabTaxIsWhole(k: nat)
    requires k < 5
    ensures Slabs[k].limit.Capped?
    ensures SlabTax(Slabs[k].limit.cap, Slabs[k]) == (IncomeTax.BandBase(k + 1) - IncomeTax.BandBase(k)).Floor as real
  {
    SlabsMatchBands(k);
  }

  /** An income that ends inside band `k` owes, beyond that band's base,
      exactly the slab tax on the part inside the band. */
  lemma EndsInBand(k: nat, remaining: real)
    requires k < 6
    requires remaining > 0.0
    requires k < 5 ==> Slabs[k].limit.Capped? && remaining <= Slabs[k].limit.cap
    ensures IncomeTax.BandTax(IncomeTax.BandStart(k) + remaining) - IncomeTax.BandBase(k)
         == SlabTax(remaining, Slabs[k])
  {
    SlabsMatchBands(k);
    if k == 0 {
      assert IncomeTax.BandTax(remaining) == 0.0;
    } else {
      IncomeTax.BandTaxIsBandFormula(IncomeTax.BandStart(k) + remaining, k);
    }
  }

  /** From slab `k` on, the loop's running `totalTax` follows the band
      formula: what the slabs from `k` on add for an income of
      `BandStart(k) + remaining` is that income's band tax less the base
      already owed at band `k`. */
  lemma {:induction false} TotalTaxFollowsBands(k: nat, remaining: real)
    requires k < 6
    requires remaining > 0.0
    ensures TotalTaxFrom(Slabs, k, remaining)
         == IncomeTax.BandTax(IncomeTax.BandStart(k) + remaining) - IncomeTax.BandBase(k)
    decreases 6 - k
  {
    SlabsMatchBands(k);
    if k == 5 || remaining <= Slabs[k].limit.cap {
      // The income ends inside band k.
      TotalInLastSlab(Slabs, k, remaining);
      EndsInBand(k, remaining);
    } else {
      // Band k is filled and the rest of the income moves on to band k + 1.
      var cap := Slabs[k].limit.cap;
      TotalTaxFollowsBands(k + 1, remaining - cap);
      assert IncomeTax.BandStart(k + 1) + (remaining - cap) == IncomeTax.BandStart(k) + remaining;
      TotalPastFullSlab(Slabs, k, remaining, IncomeTax.BandTax(IncomeTax.BandStart(k) + remaining),
                        IncomeTax.BandBase(k), IncomeTax.BandBase(k + 1));
    }
  }

  /** The same for the rounded line taxes: every slab below the one where the
      income ends is full and has a whole-rupee tax, so rounding each line
      comes to rounding the total. */
  lemma {:induction false} LineTaxesFollowBands(k: nat, remaining: real)
    requires k < 6
    requires remaining > 0.0
    ensures SumTaxes(BreakdownFrom(Slabs, k, remaining))
         == Round(IncomeTax.BandTax(IncomeTax.BandStart(k) + remaining) - IncomeTax.BandBase(k))
    decreases 6 - k
  {
    SlabsMatchBands(k);
    if k == 5 || remaining <= Slabs[k].limit.cap {
      LastLineTax(k, remaining);
    } else {
      FullSlabTaxIsWhole(k);
      var cap := Slabs[k].limit.cap;
      LineTaxesFollowBands(k + 1, remaining - cap);
      assert IncomeTax.BandStart(k + 1) + (remaining - cap) == IncomeTax.BandStart(k) + remaining;
      LinesPastFullSlab(Slabs, k, remaining, IncomeTax.BandTax(IncomeTax.BandStart(k) + remaining),
                        IncomeTax.BandBase(k), IncomeTax.BandBase(k + 1));
    }
  }

  /** On any table, an income that fits in slab `i` adds just that slab's
      tax on it. */
  lemma TotalInLastSlab(slabs: seq<Slab>, i: nat, remaining: real)
    requires i < |slabs| && remaining > 0.0
    requires slabs[i].limit.Capped? ==> remaining <= slabs[i].limit.cap
    ensures TotalTaxFrom(slabs, i, remaining) == SlabTax(remaining, slabs[i])
  {
    assert TotalTaxFrom(slabs, i + 1, 0.0) == 0.0;
  }

  /** One step of the above, on any table: if the slabs after a full slab
      `i` add `owed` beyond the next base, and slab `i`'s full tax is the
      step between the bases, the slabs from `i` on add `owed` beyond the
      base. */
  lemma TotalPastFullSlab(slabs: seq<Slab>, i: nat, remaining: real, owed: real, base: real, nextBase: real)
    requires i < |slabs| && slabs[i].limit.Capped?
    requires 0.0 < slabs[i].limit.cap < remaining
    requires SlabTax(slabs[i].limit.cap, slabs[i]) == nextBase - base
    requires TotalTaxFrom(slabs, i + 1, remaining - slabs[i].limit.cap) == owed - nextBase
    ensures TotalTaxFrom(slabs, i, remaining) == owed - base
  {
    LoopStep(slabs, i, remaining);
  }

  /** The same step for the rounded line taxes, when the step between the
      bases is a whole number of rupees. */
  lemma LinesPastFullSlab(slabs: seq<Slab>, i: nat, remaining: real, owed: real, base: real, nextBase: real)
    requires i < |slabs| && slabs[i].limit.Capped?
    requires 0.0 < slabs[i].limit.cap < remaining
    requires SlabTax(slabs[i].limit.cap, slabs[i]) == (nextBase - base).Floor as real == nextBase - base
    requires SumTaxes(BreakdownFrom(slabs, i + 1, remaining - slabs[i].limit.cap)) == Round(owed - nextBase)
    ensures SumTaxes(BreakdownFrom(slabs, i, remaining)) == Round(owed - base)
  {
    var n := (nextBase - base).Floor;
    FullLineTax(slabs, i, remaining, n);
    RoundPastWholeStep(n, owed, base, nextBase);
  }

  /** Rounding what is owed beyond a base comes to a whole step `n` plus
      rounding what is owed beyond the base `n` higher up. */
  lemma RoundPastWholeStep(n: int, owed: real, base: real, nextBase: real)
    requires n as real == nextBase - base
    ensures Round(owed - base) == n + Round(owed - nextBase)
  {
    RoundShift(n, owed - nextBase);
    assert n as real + (owed - nextBase) == owed - base;
  }

  /** When the income ends inside band `k`, the breakdown from `k` on is one
      line whose rounded tax is the rounded tax owed beyond the band's base. */
  lemma LastLineTax(k: nat, remaining: real)
    requires k < 6
    requires remaining > 0.0
    requires k < 5 ==> Slabs[k].limit.Capped? && remaining <= Slabs[k].limit.cap
    ensures SumTaxes(BreakdownFrom(Slabs, k, remaining))
         == Round(IncomeTax.BandTax(IncomeTax.BandStart(k) + remaining) - IncomeTax.BandBase(k))
  {
    var line := Line(k, remaining, Slabs[k].ratePercent, Round(SlabTax(remaining, Slabs[k])), true);
    assert BreakdownFrom(Slabs, k + 1, 0.0) == [];
    assert BreakdownFrom(Slabs, k, remaining) == [line];
    assert SumTaxes([line]) == line.tax;
    EndsInBand(k, remaining);
  }

  /** When the income goes past a capped slab whose full tax is a whole
      number `n`, the breakdown from that slab on is a full line taxed `n`
      followed by the breakdown of the rest. */
  lemma FullLineTax(slabs: seq<Slab>, i: nat, remaining: real, n: int)
    requires i < |slabs| && slabs[i].limit.Capped?
    requires 0.0 < slabs[i].limit.cap < remaining
    requires SlabTax(slabs[i].limit.cap, slabs[i]) == n as real
    ensures SumTaxes(BreakdownFrom(slabs, i, remaining))
         == n + SumTaxes(BreakdownFrom(slabs, i + 1, remaining - slabs[i].limit.cap))
  {
    var cap := slabs[i].limit.cap;
    var line := Line(i, cap, slabs[i].ratePercent, Round(SlabTax(cap, slabs[i])), true);
    var rest := BreakdownFrom(slabs, i + 1, remaining - cap);
    assert BreakdownFrom(slabs, i, remaining) == [line] + rest;
    SumTaxesAppend([line], rest);
    assert SumTaxes([line]) == line.tax;
    RoundOfInteger(n);
  }

  /** The loop's unrounded `totalTax` is exactly the band tax of
      `calculateTax` before its surcharge, for every income. */
  lemma TotalTaxIsBandTax(annualIncome: real)
    ensures TotalTaxFrom(Slabs, 0, annualIncome) == IncomeTax.BandTax(annualIncome)
  {
    if annualIncome > 0.0 {
      TotalTaxFollowsBands(0, annualIncome);
    }
  }

  /** Every slab's tax except the last is a whole number, so the rounded line
      taxes add up to the rounded band tax; up to Rs. 10,000,000 that is the
      total of `calculateTax`. */
  lemma LineTaxesSumToCalculateTax(annualIncome: real)
    ensures SumTaxes(Breakdown(annualIncome)) == Round(IncomeTax.BandTax(annualIncome))
    ensures annualIncome <= IncomeTax.SurchargeThreshold ==>
      SumTaxes(Breakdown(annualIncome)) == IncomeTax.CalculateTax(annualIncome)
  {
    if annualIncome > 0.0 {
      LineTaxesFollowBands(0, annualIncome);
    } else {
      RoundOfInteger(0);
    }
  }

  /** Above Rs. 10,000,000 the breakdown leaves the surcharge out: its line
      taxes fall short of `calculateTax` by at least Rs. 241,290. */
  lemma BreakdownOmitsSurcharge(annualIncome: real)
    requires annualIncome > IncomeTax.SurchargeThreshold
    ensures IncomeTax.CalculateTax(annualIncome) - SumTaxes(Breakdown(annualIncome)) >= 241290
  {
    LineTaxesSumToCalculateTax(annualIncome);
    var band := IncomeTax.BandTax(annualIncome);
    IncomeTax.BandTaxGrowth(IncomeTax.SurchargeThreshold, annualIncome);
    assert band >= 2681000.0;
    RoundShift(241290, band);
    RoundMonotone(band + 241290.0, IncomeTax.SurchargedTax(annualIncome));
  }

  /** The current table has non-negative widths and an unbounded top slab. */
  lemma SlabsWellShaped()
    ensures NonNegativeCaps(Slabs) && OpenTopped(Slabs)
  {
  }

  /** Pushing a line moves it from the lines still to come to the lines
      emitted, and adds its amount to the amount allocated. */
  lemma PushLine(emitted: seq<Line>, line: Line, rest: seq<Line>)
    ensures emitted + ([line] + rest) == (emitted + [line]) + rest
    ensures SumAmounts(emitted + [line]) == SumAmounts(emitted) + line.amount
  {
    SumAmountsAppend(emitted, [line]);
    assert SumAmounts([line]) == line.amount;
  }

  /** One turn of the loop, on any table: slab `i` takes its share of a
      positive remaining income, adds its tax, and contributes at most one line. */
  lemma LoopStep(slabs: seq<Slab>, i: nat, remaining: real)
    requires i < |slabs| && remaining > 0.0
    ensures var amount := Take(remaining, slabs[i].limit);
      && TotalTaxFrom(slabs, i, remaining) == SlabTax(amount, slabs[i]) + TotalTaxFrom(slabs, i + 1, remaining - amount)
      && BreakdownFrom(slabs, i, remaining)
         == (if amount > 0.0 then [Line(i, amount, slabs[i].ratePercent, Round(SlabTax(amount, slabs[i])), true)] else [])
            + BreakdownFrom(slabs, i + 1, remaining - amount)
  {
  }

  /** `generateTaxBreakdown`: the breakdown of an annual income over the
      current slab table. Its running `totalTax` ends equal to the band tax
      of `calculateTax` before the surcharge. */
  method GenerateTaxBreakdown(annualIncome: real) returns (breakdown: seq<Line>)
    ensures breakdown == Breakdown(annualIncome)
    ensures annualIncome <= 0.0 ==> breakdown == []
    ensures annualIncome > 0.0 ==> SumAmounts(breakdown) == annualIncome
    ensures |breakdown| <= |Slabs|
  {
    SlabsWellShaped();
    var totalTax;
    breakdown, totalTax := AllocateOverSlabs(Slabs, annualIncome);
    TotalTaxIsBandTax(annualIncome);
    assert totalTax == IncomeTax.BandTax(annualIncome);
    LineCount(Slabs, 0, annualIncome);
    if annualIncome > 0.0 {
      AmountsSumToIncome(Slabs, 0, annualIncome);
    }
  }

  /** The loop of `generateTaxBreakdown`, over a slab table: it walks the
      table while income remains, gives each slab `min(remaining, limit)`,
      adds that amount's tax to `totalTax`, and emits a line when the amount
      is positive. Allocated plus remaining income always equals the income. */
  method AllocateOverSlabs(slabs: seq<Slab>, annualIncome: real) returns (breakdown: seq<Line>, totalTax: real)
    requires NonNegativeCaps(slabs)
    ensures breakdown == BreakdownFrom(slabs, 0, annualIncome)
    ensures totalTax == TotalTaxFrom(slabs, 0, annualIncome)
  {
    breakdown := [];
    var remainingIncome := annualIncome;
    totalTax := 0.0;
    var i := 0;
    while i < |slabs|
      invariant 0 <= i <= |slabs|
      invariant breakdown + BreakdownFrom(slabs, i, remainingIncome) == BreakdownFrom(slabs, 0, annualIncome)
      invariant totalTax + TotalTaxFrom(slabs, i, remainingIncome) == TotalTaxFrom(slabs, 0, annualIncome)
      invariant SumAmounts(breakdown) + remainingIncome == annualIncome
    {
      if remainingIncome <= 0.0 {
        break;
      }
      var slab := slabs[i];
      var taxableAmount := Take(remainingIncome, slab.limit);
      var taxOnSlab := SlabTax(taxableAmount, slab);
      LoopStep(slabs, i, remainingIncome);
      totalTax := totalTax + taxOnSlab;
      if taxableAmount > 0.0 {
        var line := Line(i, taxableAmount, slab.ratePercent, Round(taxOnSlab), true);
        PushLine(breakdown, line, BreakdownFrom(slabs, i + 1, remainingIncome - taxableAmount));
        breakdown := breakdown + [line];
      }
      remainingIncome := remainingIncome - taxableAmount;
      i := i + 1;
    }
    assert BreakdownFrom(slabs, i, remainingIncome) == [] && TotalTaxFrom(slabs, i, remainingIncome) == 0.0;
  }
}
