/** The Delhi Jal Board domestic water tariff of lib/djb.js: the slab table,
    the slab-by-slab bill, the with/without-harvesting comparison, the
    twelve-month savings roll-up, the three what-if scenarios, the slab
    lookup and the input validation. */
module Djb {
  import opened Common

  // ---------------------------------------------------------------------------
  // The tariff table
  // ---------------------------------------------------------------------------

  datatype Slab = Slab(slabNo: int, minKl: real, maxKl: real, rate: real, sewerRate: real, serviceCharge: real)

  /** DJB_TARIFF_SLABS: the first 20 kL are free, and the open-ended last
      slab is capped at 999999 kL. */
  const Slabs: seq<Slab> := [
    Slab(1, 0.0, 20.0, 0.0, 0.0, 0.0),
    Slab(2, 20.0, 30.0, 28.0, 0.6, 280.0),
    Slab(3, 30.0, 50.0, 32.0, 0.6, 280.0),
    Slab(4, 50.0, 100.0, 38.0, 0.6, 280.0),
    Slab(5, 100.0, 999999.0, 45.0, 0.6, 280.0)]

  const FreeAllowanceKl: real := 20.0
  const OpenEndedMaxKl: real := 999999.0

  /** The slabs tile [0, 999999] without gaps, in order, and are numbered
      from 1. */
  lemma SlabsContiguous()
    ensures |Slabs| == 5
    ensures Slabs[0].minKl == 0.0 && Slabs[4].maxKl == OpenEndedMaxKl
    ensures forall i :: 0 < i < |Slabs| ==> Slabs[i].minKl == Slabs[i - 1].maxKl
    ensures forall i :: 0 <= i < |Slabs| ==> Slabs[i].minKl < Slabs[i].maxKl && Slabs[i].slabNo == i + 1
  {
  }

  // ---------------------------------------------------------------------------
  // The bill
  // ---------------------------------------------------------------------------

  datatype SlabLine = SlabLine(slab: int, consumption: real, rate: real, amount: real)

  /** The bill object. The zero-consumption bill has no isFreeWater field,
      which is `None` here. */
  datatype Bill = Bill(
    consumption: real,
    waterBill: int,
    sewerBill: int,
    serviceCharge: real,
    totalBill: int,
    slabDetails: seq<SlabLine>,
    isFreeWater: Option<bool>)

  /** The kL of a consumption of `c` that fall inside slab `s`. */
  function Overlap(s: Slab, c: real): real
  {
    Min(c, s.maxKl) - s.minKl
  }

  function LineFor(s: Slab, c: real): SlabLine
  {
    SlabLine(s.slabNo, Overlap(s, c), s.rate, Overlap(s, c) * s.rate)
  }

  /** The detail lines of the slabs among `ss` that a consumption of `c`
      reaches, in table order. */
  function TouchedLines(ss: seq<Slab>, c: real): seq<SlabLine>
  {
    if ss == [] then []
    else TouchedLines(ss[..|ss| - 1], c) + (if ss[|ss| - 1].minKl < c then [LineFor(ss[|ss| - 1], c)] else [])
  }

  function AmountSum(lines: seq<SlabLine>): real
  {
    if lines == [] then 0.0 else AmountSum(lines[..|lines| - 1]) + lines[|lines| - 1].amount
  }

  function ConsumptionSum(lines: seq<SlabLine>): real
  {
    if lines == [] then 0.0 else ConsumptionSum(lines[..|lines| - 1]) + lines[|lines| - 1].consumption
  }

  /** The unrounded water charge of a consumption above the free allowance. */
  function WaterCharge(c: real): real
  {
    AmountSum(TouchedLines(Slabs, c))
  }

  /** The bill calculateDJBBill returns. Above the free allowance the last
      slab reached is always a charged one, so the sewer rate is 60% and the
      service charge 280. */
  function BillSpec(c: real): Bill
  {
    if c <= 0.0 then Bill(0.0, 0, 0, 0.0, 0, [], None)
    else if c <= FreeAllowanceKl then Bill(c, 0, 0, 0.0, 0, [SlabLine(1, c, 0.0, 0.0)], Some(true))
    else
      var w := WaterCharge(c);
      Bill(c, Round(w), Round(w * 0.6), 280.0, Round(w + w * 0.6 + 280.0), TouchedLines(Slabs, c), Some(false))
  }

  lemma TouchedLinesStep(n: nat, c: real)
    requires n < |Slabs|
    ensures TouchedLines(Slabs[..n + 1], c)
      == TouchedLines(Slabs[..n], c) + (if Slabs[n].minKl < c then [LineFor(Slabs[n], c)] else [])
  {
    assert Slabs[..n + 1][..n] == Slabs[..n];
  }

  lemma AmountSumSnoc(lines: seq<SlabLine>, l: SlabLine)
    ensures AmountSum(lines + [l]) == AmountSum(lines) + l.amount
  {
    assert (lines + [l])[..|lines|] == lines;
  }

  lemma ConsumptionSumSnoc(lines: seq<SlabLine>, l: SlabLine)
    ensures ConsumptionSum(lines + [l]) == ConsumptionSum(lines) + l.consumption
  {
    assert (lines + [l])[..|lines|] == lines;
  }

  /** Once consumption stops inside slab n - 1, no later slab adds a line. */
  lemma {:induction false} UntouchedTail(n: nat, m: nat, c: real)
    requires 0 < n <= m <= |Slabs|
    requires c <= Slabs[n - 1].maxKl
    ensures TouchedLines(Slabs[..m], c) == TouchedLines(Slabs[..n], c)
    decreases m - n
  {
    SlabsContiguous();
    if m > n {
      UntouchedTail(n, m - 1, c);
      TouchedLinesStep(m - 1, c);
      assert Slabs[m - 1].minKl >= Slabs[n - 1].maxKl by {
        MinKlMonotone(n, m - 1);
      }
    }
  }

  lemma MinKlMonotone(i: nat, j: nat)
    requires 0 < i <= j < |Slabs|
    ensures Slabs[i - 1].maxKl <= Slabs[j].minKl
  {
  }

  /** What the billing loop leaves behind once it stops: at least two slabs
      were billed and every slab it did not visit is out of reach. */
  lemma LoopExit(i: nat, remaining: real, c: real)
    requires c > FreeAllowanceKl && 0 < i <= |Slabs|
    requires remaining == Max(0.0, c - Slabs[i - 1].maxKl)
    requires !(i < |Slabs| && remaining > 0.0)
    ensures 1 < i
    ensures TouchedLines(Slabs[..i], c) == TouchedLines(Slabs, c)
  {
    if i < |Slabs| {
      UntouchedTail(i, |Slabs|, c);
    }
    assert Slabs[..|Slabs|] == Slabs;
  }

  /** Billing a reached slab: what remains is the consumption above the
      slab's start, the slab takes its overlap, and what remains after it is
      the consumption above the slab's end. */
  lemma SlabStep(s: Slab, c: real, remaining: real)
    requires c > s.minKl && remaining == c - s.minKl
    ensures LineFor(s, c) == SlabLine(s.slabNo, Min(remaining, s.maxKl - s.minKl), s.rate, Min(remaining, s.maxKl - s.minKl) * s.rate)
    ensures remaining - Min(remaining, s.maxKl - s.minKl) == Max(0.0, c - s.maxKl)
  {
  }

  /** A slab the loop visits with consumption left to bill is reached: the
      consumption lies above the slab's start, all of it remains to be
      billed, and every slab after the first carries the 280 service charge
      and the 0.6 sewer rate. */
  lemma SlabReached(i: nat, slab: Slab, c: real, remaining: real)
    requires c > FreeAllowanceKl && i < |Slabs| && slab == Slabs[i] && remaining > 0.0
    requires i == 0 ==> remaining == c
    requires 0 < i ==> remaining == Max(0.0, c - Slabs[i - 1].maxKl)
    ensures c > slab.minKl && remaining == c - slab.minKl && slab.minKl < slab.maxKl
    ensures TouchedLines(Slabs[..i + 1], c) == TouchedLines(Slabs[..i], c) + [LineFor(slab, c)]
    ensures 0 < i ==> slab.serviceCharge == 280.0 && slab.sewerRate == 0.6
  {
    SlabsContiguous();
    TouchedLinesStep(i, c);
  }

  /** Billing a reached slab its overlap gives the slab's detail line, and
      what remains is the consumption above the slab's end. */
  lemma SlabBilled(slab: Slab, c: real, remaining: real, slabConsumption: real, slabAmount: real)
    requires slab.minKl < slab.maxKl && remaining == c - slab.minKl && remaining > 0.0
    requires slabConsumption == Min(remaining, slab.maxKl - slab.minKl)
    requires slabAmount == slabConsumption * slab.rate
    ensures SlabLine(slab.slabNo, slabConsumption, slab.rate, slabAmount) == LineFor(slab, c)
    ensures remaining - slabConsumption == Max(0.0, c - slab.maxKl)
  {
    SlabStep(slab, c, remaining);
  }

  /** The bill the loop's final state yields is the specified one. */
  lemma LoopBill(i: nat, remaining: real, c: real, waterBill: real, slabDetails: seq<SlabLine>,
                 serviceCharge: real, sewerRate: real)
    requires c > FreeAllowanceKl && 0 < i <= |Slabs|
    requires remaining == Max(0.0, c - Slabs[i - 1].maxKl)
    requires !(i < |Slabs| && remaining > 0.0)
    requires slabDetails == TouchedLines(Slabs[..i], c) && waterBill == AmountSum(slabDetails)
    requires 1 < i ==> serviceCharge == 280.0 && sewerRate == 0.6
    ensures Bill(c, Round(waterBill), Round(waterBill * sewerRate), serviceCharge,
                 Round(waterBill + waterBill * sewerRate + serviceCharge), slabDetails, Some(false))
      == BillSpec(c)
  {
    LoopExit(i, remaining, c);
  }

  /** calculateDJBBill, slab by slab as the source does it. The source
      breaks out of the loop as soon as nothing remains to bill, both before
      and after billing a slab; here that is the loop condition. */
  method CalculateDJBBill(consumptionKl: real) returns (b: Bill)
    ensures b == BillSpec(consumptionKl)
  {
    if consumptionKl <= 0.0 {
      return Bill(0.0, 0, 0, 0.0, 0, [], None);
    }
    if consumptionKl <= 20.0 {
      return Bill(consumptionKl, 0, 0, 0.0, 0, [SlabLine(1, consumptionKl, 0.0, 0.0)], Some(true));
    }
    var waterBill := 0.0;
    var remaining := consumptionKl;
    var slabDetails: seq<SlabLine> := [];
    var serviceCharge := 0.0;
    var sewerRate := 0.0;
    var i := 0;
    while i < |Slabs| && remaining > 0.0
      invariant consumptionKl > 20.0
      invariant 0 <= i <= |Slabs|
      invariant i == 0 ==> remaining == consumptionKl
      invariant 0 < i ==> remaining == Max(0.0, consumptionKl - Slabs[i - 1].maxKl)
      invariant slabDetails == TouchedLines(Slabs[..i], consumptionKl)
      invariant waterBill == AmountSum(slabDetails)
      invariant 1 < i ==> serviceCharge == 280.0 && sewerRate == 0.6
    {
      var slab := Slabs[i];
      SlabReached(i, slab, consumptionKl, remaining);
      if consumptionKl > slab.minKl {
        var slabConsumption := Min(remaining, slab.maxKl - slab.minKl);
        var slabAmount := slabConsumption * slab.rate;
        var line := SlabLine(slab.slabNo, slabConsumption, slab.rate, slabAmount);
        SlabBilled(slab, consumptionKl, remaining, slabConsumption, slabAmount);
        waterBill := waterBill + slabAmount;
        remaining := remaining - slabConsumption;
        AmountSumSnoc(slabDetails, line);
        slabDetails := slabDetails + [line];
        serviceCharge := slab.serviceCharge;
        sewerRate := slab.sewerRate;
        assert slabDetails == TouchedLines(Slabs[..i + 1], consumptionKl);
      }
      i := i + 1;
    }
    LoopBill(i, remaining, consumptionKl, waterBill, slabDetails, serviceCharge, sewerRate);
    var sewerBill := waterBill * sewerRate;
    var totalBill := waterBill + sewerBill + serviceCharge;
    b := Bill(consumptionKl, Round(waterBill), Round(sewerBill), serviceCharge, Round(totalBill), slabDetails, Some(false));
  }

  // ---------------------------------------------------------------------------
  // Properties of the bill
  // ---------------------------------------------------------------------------

  /** The detail lines above the free allowance, slab by slab. */
  lemma {:induction false} LinesAboveAllowance(c: real)
    requires c > FreeAllowanceKl
    ensures TouchedLines(Slabs, c)
      == [LineFor(Slabs[0], c), LineFor(Slabs[1], c)]
         + (if c > 30.0 then [LineFor(Slabs[2], c)] else [])
         + (if c > 50.0 then [LineFor(Slabs[3], c)] else [])
         + (if c > 100.0 then [LineFor(Slabs[4], c)] else [])
  {
    assert Slabs[..0] == [];
    TouchedLinesStep(0, c);
    TouchedLinesStep(1, c);
    TouchedLinesStep(2, c);
    TouchedLinesStep(3, c);
    TouchedLinesStep(4, c);
    assert Slabs[..5] == Slabs;
  }

  lemma {:induction false} AmountSumAppend(a: seq<SlabLine>, b: seq<SlabLine>)
    ensures AmountSum(a + b) == AmountSum(a) + AmountSum(b)
    decreases |b|
  {
    if b == [] {
      assert a + b == a;
    } else {
      var b' := b[..|b| - 1];
      assert a + b == (a + b') + [b[|b| - 1]];
      AmountSumSnoc(a + b', b[|b| - 1]);
      AmountSumAppend(a, b');
      AmountSumSnoc(b', b[|b| - 1]);
      assert b' + [b[|b| - 1]] == b;
    }
  }

  lemma {:induction false} ConsumptionSumAppend(a: seq<SlabLine>, b: seq<SlabLine>)
    ensures ConsumptionSum(a + b) == ConsumptionSum(a) + ConsumptionSum(b)
    decreases |b|
  {
    if b == [] {
      assert a + b == a;
    } else {
      var b' := b[..|b| - 1];
      assert a + b == (a + b') + [b[|b| - 1]];
      ConsumptionSumSnoc(a + b', b[|b| - 1]);
      ConsumptionSumAppend(a, b');
      ConsumptionSumSnoc(b', b[|b| - 1]);
      assert b' + [b[|b| - 1]] == b;
    }
  }

  /** The published tariff as a closed piecewise formula: 28/kL from 20 to
      30 kL, 32/kL to 50, 38/kL to 100 and 45/kL beyond, the first 20 kL
      free. */
  function TariffFormula(c: real): real
  {
    if c <= 20.0 then 0.0
    else if c <= 30.0 then 28.0 * (c - 20.0)
    else if c <= 50.0 then 280.0 + 32.0 * (c - 30.0)
    else if c <= 100.0 then 920.0 + 38.0 * (c - 50.0)
    else 2820.0 + 45.0 * (Min(c, OpenEndedMaxKl) - 100.0)
  }

  /** The slab-by-slab charge agrees with the closed formula. */
  lemma WaterChargeMatchesTariff(c: real)
    requires c > FreeAllowanceKl
    ensures WaterCharge(c) == TariffFormula(c)
  {
    LinesAboveAllowance(c);
    var l0 := [LineFor(Slabs[0], c), LineFor(Slabs[1], c)];
    var l2: seq<SlabLine> := if c > 30.0 then [LineFor(Slabs[2], c)] else [];
    var l3: seq<SlabLine> := if c > 50.0 then [LineFor(Slabs[3], c)] else [];
    var l4: seq<SlabLine> := if c > 100.0 then [LineFor(Slabs[4], c)] else [];
    AmountSumAppend(l0 + l2 + l3, l4);
    AmountSumAppend(l0 + l2, l3);
    AmountSumAppend(l0, l2);
    assert l0 == [LineFor(Slabs[0], c)] + [LineFor(Slabs[1], c)];
    AmountSumAppend([LineFor(Slabs[0], c)], [LineFor(Slabs[1], c)]);
    assert [LineFor(Slabs[0], c)][..0] == [];
    assert [LineFor(Slabs[1], c)][..0] == [];
    if c > 30.0 { assert l2[..0] == []; }
    if c > 50.0 { assert l3[..0] == []; }
    if c > 100.0 { assert l4[..0] == []; }
  }

  lemma TariffFormulaMonotone(a: real, b: real)
    requires a <= b
    ensures TariffFormula(a) <= TariffFormula(b)
  {
  }

  /** Every kL up to the open-ended cap lands in exactly one detail line;
      beyond the cap the lines stop at 999999 kL. */
  lemma ConsumptionIsConserved(c: real)
    requires c > FreeAllowanceKl
    ensures ConsumptionSum(BillSpec(c).slabDetails) == Min(c, OpenEndedMaxKl)
  {
    LinesAboveAllowance(c);
    var l0 := [LineFor(Slabs[0], c), LineFor(Slabs[1], c)];
    var l2: seq<SlabLine> := if c > 30.0 then [LineFor(Slabs[2], c)] else [];
    var l3: seq<SlabLine> := if c > 50.0 then [LineFor(Slabs[3], c)] else [];
    var l4: seq<SlabLine> := if c > 100.0 then [LineFor(Slabs[4], c)] else [];
    ConsumptionSumAppend(l0 + l2 + l3, l4);
    ConsumptionSumAppend(l0 + l2, l3);
    ConsumptionSumAppend(l0, l2);
    assert l0 == [LineFor(Slabs[0], c)] + [LineFor(Slabs[1], c)];
    ConsumptionSumAppend([LineFor(Slabs[0], c)], [LineFor(Slabs[1], c)]);
    assert [LineFor(Slabs[0], c)][..0] == [];
    assert [LineFor(Slabs[1], c)][..0] == [];
    if c > 30.0 { assert l2[..0] == []; }
    if c > 50.0 { assert l3[..0] == []; }
    if c > 100.0 { assert l4[..0] == []; }
  }

  /** Above the allowance the first 20 kL still appear as a free line. */
  lemma FirstSlabStaysFree(c: real)
    requires c > FreeAllowanceKl
    ensures |BillSpec(c).slabDetails| >= 2 && BillSpec(c).slabDetails[0] == SlabLine(1, 20.0, 0.0, 0.0)
  {
    LinesAboveAllowance(c);
  }

  /** The total bill never goes down as consumption grows. */
  lemma TotalBillMonotone(a: real, b: real)
    requires a <= b
    ensures BillSpec(a).totalBill <= BillSpec(b).totalBill
  {
    if a > FreeAllowanceKl {
      WaterChargeMatchesTariff(a);
      WaterChargeMatchesTariff(b);
      TariffFormulaMonotone(a, b);
      var wa := WaterCharge(a);
      var wb := WaterCharge(b);
      RoundMonotone(wa + wa * 0.6 + 280.0, wb + wb * 0.6 + 280.0);
    } else if b > FreeAllowanceKl {
      WaterChargeMatchesTariff(b);
      var wb := WaterCharge(b);
      RoundMonotone(0.0, wb + wb * 0.6 + 280.0);
    }
  }

  /** Leaving the free allowance by any amount costs at least the 280
      service charge: the bill is zero up to 20 kL and jumps past it. */
  lemma ChargeCliffAtAllowance(c: real)
    ensures c <= FreeAllowanceKl ==> BillSpec(c).totalBill == 0
    ensures c > FreeAllowanceKl ==> BillSpec(c).totalBill >= 280
  {
    if c > FreeAllowanceKl {
      WaterChargeMatchesTariff(c);
      var w := WaterCharge(c);
      RoundMonotone(280.0, w + w * 0.6 + 280.0);
      RoundOfInt(280);
    }
  }

  /** 25 kL: 5 kL in slab 2 at 28 gives 140, sewer 84, total 504. */
  lemma BillExample25()
    ensures BillSpec(25.0) == Bill(25.0, 140, 84, 280.0, 504,
      [SlabLine(1, 20.0, 0.0, 0.0), SlabLine(2, 5.0, 28.0, 140.0)], Some(false))
  {
    LinesAboveAllowance(25.0);
    WaterChargeMatchesTariff(25.0);
  }

  // ---------------------------------------------------------------------------
  // With and without rooftop harvesting
  // ---------------------------------------------------------------------------

  datatype Comparison = Comparison(
    monthlyNeed: real,
    rtrwhSupply: real,
    djbDrawWithout: real,
    djbDrawWith: real,
    billWithout: Bill,
    billWith: Bill,
    monthlySavings: int)

  /** calculateBillComparison: harvested water is drawn first, the rest
      comes from the Jal Board. The savings are already whole rupees, so the
      final rounding changes nothing. */
  function BillComparison(monthlyNeedKl: real, rtrwhSupplyKl: real): (r: Comparison)
    ensures r.monthlyNeed == monthlyNeedKl && r.rtrwhSupply == rtrwhSupplyKl
    ensures r.djbDrawWithout == monthlyNeedKl && r.billWithout == BillSpec(monthlyNeedKl)
    ensures r.djbDrawWith == Max(0.0, monthlyNeedKl - rtrwhSupplyKl) && r.billWith == BillSpec(r.djbDrawWith)
    ensures r.monthlySavings == r.billWithout.totalBill - r.billWith.totalBill
  {
    var drawWith := Max(0.0, monthlyNeedKl - rtrwhSupplyKl);
    var without := BillSpec(monthlyNeedKl);
    var with := BillSpec(drawWith);
    RoundOfInt(without.totalBill - with.totalBill);
    Comparison(monthlyNeedKl, rtrwhSupplyKl, monthlyNeedKl, drawWith, without, with,
      Round((without.totalBill - with.totalBill) as real))
  }

  /** Harvested water never makes the bill larger, and a supply that covers
      the whole need saves the entire bill. */
  lemma SavingsNonNegative(monthlyNeedKl: real, rtrwhSupplyKl: real)
    requires rtrwhSupplyKl >= 0.0
    ensures var r := BillComparison(monthlyNeedKl, rtrwhSupplyKl);
      0 <= r.monthlySavings <= r.billWithout.totalBill
      && (rtrwhSupplyKl >= monthlyNeedKl ==> r.monthlySavings == r.billWithout.totalBill)
  {
    var r := BillComparison(monthlyNeedKl, rtrwhSupplyKl);
    if monthlyNeedKl >= 0.0 {
      TotalBillMonotone(r.djbDrawWith, monthlyNeedKl);
    }
    TotalBillMonotone(0.0, r.djbDrawWith);
  }

  // ---------------------------------------------------------------------------
  // The twelve-month roll-up
  // ---------------------------------------------------------------------------

  const MonthNames: seq<string> := ["Jan", "Feb", "Mar", "Apr", "May", "Jun", "Jul", "Aug", "Sep", "Oct", "Nov", "Dec"]

  /** One month of the breakdown; past the twelfth entry the month name is
      undefined, which is `None` here. */
  datatype MonthSavings = MonthSavings(month: Option<string>, savings: int, rtrwhSupply: real, djbBill: int)

  datatype AnnualSavings = AnnualSavings(annualSavings: int, monthlyBreakdown: seq<MonthSavings>, averageMonthlySavings: int)

  function MonthName(index: nat): Option<string>
  {
    if index < |MonthNames| then Some(MonthNames[index]) else None
  }

  function SavingsSum(cs: seq<Comparison>): int
  {
    if cs == [] then 0 else SavingsSum(cs[..|cs| - 1]) + cs[|cs| - 1].monthlySavings
  }

  /** calculateAnnualSavings. */
  method CalculateAnnualSavings(monthlyComparisons: seq<Comparison>) returns (r: AnnualSavings)
    ensures r.annualSavings == SavingsSum(monthlyComparisons)
    ensures r.averageMonthlySavings == Round(SavingsSum(monthlyComparisons) as real / 12.0)
    ensures |r.monthlyBreakdown| == |monthlyComparisons|
    ensures forall i :: 0 <= i < |monthlyComparisons| ==>
      r.monthlyBreakdown[i] == MonthSavings(MonthName(i), monthlyComparisons[i].monthlySavings,
        monthlyComparisons[i].rtrwhSupply, monthlyComparisons[i].billWith.totalBill)
  {
    var annualSavings := 0;
    var monthlyBreakdown: seq<MonthSavings> := [];
    var index := 0;
    while index < |monthlyComparisons|
      invariant 0 <= index <= |monthlyComparisons|
      invariant annualSavings == SavingsSum(monthlyComparisons[..index])
      invariant |monthlyBreakdown| == index
      invariant forall i :: 0 <= i < index ==>
        monthlyBreakdown[i] == MonthSavings(MonthName(i), monthlyComparisons[i].monthlySavings,
          monthlyComparisons[i].rtrwhSupply, monthlyComparisons[i].billWith.totalBill)
    {
      var comparison := monthlyComparisons[index];
      assert monthlyComparisons[..index + 1][..index] == monthlyComparisons[..index];
      annualSavings := annualSavings + comparison.monthlySavings;
      monthlyBreakdown := monthlyBreakdown + [MonthSavings(MonthName(index), comparison.monthlySavings,
        comparison.rtrwhSupply, comparison.billWith.totalBill)];
      index := index + 1;
    }
    assert monthlyComparisons[..index] == monthlyComparisons;
    RoundOfInt(annualSavings);
    r := AnnualSavings(Round(annualSavings as real), monthlyBreakdown, Round(annualSavings as real / 12.0));
  }

  /** A year of months that each save the same amount averages exactly that
      amount. */
  lemma {:induction false} SteadySavings(cs: seq<Comparison>, s: int)
    requires forall i :: 0 <= i < |cs| ==> cs[i].monthlySavings == s
    ensures SavingsSum(cs) == |cs| * s
    ensures |cs| == 12 ==> Round(SavingsSum(cs) as real / 12.0) == s
  {
    if cs != [] {
      SteadySavings(cs[..|cs| - 1], s);
    }
    if |cs| == 12 {
      RoundOfInt(s);
    }
  }

  /** Months that each save something add up to a saving. */
  lemma {:induction false} SavingsSumNonNegative(cs: seq<Comparison>)
    requires forall i :: 0 <= i < |cs| ==> cs[i].monthlySavings >= 0
    ensures SavingsSum(cs) >= 0
  {
    if cs != [] {
      SavingsSumNonNegative(cs[..|cs| - 1]);
    }
  }

  // ---------------------------------------------------------------------------
  // What-if scenarios
  // ---------------------------------------------------------------------------

  /** A scenario row; the "Current Usage" row has no djbDraw field. */
  datatype Scenario = Scenario(name: string, consumption: real, rtrwhSupply: real, djbDraw: Option<real>, bill: Bill)

  /** calculateBillScenarios: current usage, harvesting, and harvesting with
      a 20% cut in consumption. */
  function BillScenarios(baseConsumptionKl: real, rtrwhSupplyKl: real): (r: seq<Scenario>)
    ensures |r| == 3
    ensures r[0].name == "Current Usage" && r[1].name == "With RTRWH" && r[2].name == "Conservative + RTRWH"
    ensures r[0].consumption == baseConsumptionKl
    ensures r[0].djbDraw == None && r[0].rtrwhSupply == 0.0 && r[0].bill == BillSpec(baseConsumptionKl)
    ensures r[1].consumption == baseConsumptionKl && r[1].djbDraw == Some(Max(0.0, baseConsumptionKl - rtrwhSupplyKl))
    ensures r[2].consumption == baseConsumptionKl * 0.8
      && r[2].djbDraw == Some(Max(0.0, baseConsumptionKl * 0.8 - rtrwhSupplyKl))
    ensures forall i :: 1 <= i < 3 ==> r[i].rtrwhSupply == rtrwhSupplyKl && r[i].bill == BillSpec(r[i].djbDraw.value)
  {
    var withRtrwh := Max(0.0, baseConsumptionKl - rtrwhSupplyKl);
    var conservative := baseConsumptionKl * 0.8;
    var conservativeWithRtrwh := Max(0.0, conservative - rtrwhSupplyKl);
    [ Scenario("Current Usage", baseConsumptionKl, 0.0, None, BillSpec(baseConsumptionKl)),
      Scenario("With RTRWH", baseConsumptionKl, rtrwhSupplyKl, Some(withRtrwh), BillSpec(withRtrwh)),
      Scenario("Conservative + RTRWH", conservative, rtrwhSupplyKl, Some(conservativeWithRtrwh), BillSpec(conservativeWithRtrwh)) ]
  }

  /** With a non-negative base and supply, each scenario costs no more than
      the one before it. */
  lemma ScenariosCheaperInOrder(baseConsumptionKl: real, rtrwhSupplyKl: real)
    requires baseConsumptionKl >= 0.0 && rtrwhSupplyKl >= 0.0
    ensures var r := BillScenarios(baseConsumptionKl, rtrwhSupplyKl);
      r[2].bill.totalBill <= r[1].bill.totalBill <= r[0].bill.totalBill
  {
    var r := BillScenarios(baseConsumptionKl, rtrwhSupplyKl);
    TotalBillMonotone(r[2].djbDraw.value, r[1].djbDraw.value);
    TotalBillMonotone(r[1].djbDraw.value, baseConsumptionKl);
  }

  // ---------------------------------------------------------------------------
  // Slab lookup
  // ---------------------------------------------------------------------------

  /** getTariffSlabInfo's object. The open-ended slab's upper end and its
      next-slab threshold are `None`; the free slab carries no service
      charge field. The displayed range and description text are not
      modelled. */
  datatype SlabInfo = SlabInfo(slabNo: int, minKl: real, maxKl: Option<real>, rate: real,
    serviceCharge: Option<real>, nextSlabAt: Option<real>)

  function InfoFor(s: Slab): SlabInfo
  {
    var upper := if s.maxKl == OpenEndedMaxKl then None else Some(s.maxKl);
    SlabInfo(s.slabNo, s.minKl, upper, s.rate, Some(s.serviceCharge), upper)
  }

  /** The slab whose half-open range (min, max] holds `c`. */
  predicate InSlab(c: real, k: int)
  {
    0 <= k < |Slabs| && Slabs[k].minKl < c <= Slabs[k].maxKl
  }

  /** getTariffSlabInfo: the free slab up to 20 kL, otherwise the first
      slab whose range holds the consumption, and nothing past the table. */
  method GetTariffSlabInfo(consumptionKl: real) returns (r: Option<SlabInfo>)
    ensures consumptionKl <= FreeAllowanceKl ==> r == Some(SlabInfo(1, 0.0, Some(20.0), 0.0, None, Some(20.0)))
    ensures consumptionKl > FreeAllowanceKl ==>
      (r.Some? <==> consumptionKl <= OpenEndedMaxKl)
      && (r.Some? ==> InSlab(consumptionKl, r.value.slabNo - 1) && r.value == InfoFor(Slabs[r.value.slabNo - 1]))
  {
    if consumptionKl <= 20.0 {
      return Some(SlabInfo(1, 0.0, Some(20.0), 0.0, None, Some(20.0)));
    }
    SlabsContiguous();
    var i := 0;
    while i < |Slabs|
      invariant 0 <= i <= |Slabs|
      invariant i == 0 || consumptionKl > Slabs[i - 1].maxKl
    {
      var slab := Slabs[i];
      if consumptionKl > slab.minKl && consumptionKl <= slab.maxKl {
        return Some(InfoFor(slab));
      }
      i := i + 1;
    }
    return None;
  }

  /** The slab the lookup reports is the slab of the bill's last detail
      line. */
  lemma LastLineIsCurrentSlab(c: real)
    requires FreeAllowanceKl < c <= OpenEndedMaxKl
    ensures var lines := BillSpec(c).slabDetails;
      |lines| > 0 && InSlab(c, lines[|lines| - 1].slab - 1)
  {
    LinesAboveAllowance(c);
  }

  // ---------------------------------------------------------------------------
  // Input validation
  // ---------------------------------------------------------------------------

  datatype DjbError = NegativeConsumption | NegativeSupply | SupplyExceedsConsumption | ConsumptionTooHigh

  function ErrorMessage(e: DjbError): string
  {
    match e
    case NegativeConsumption => "Consumption cannot be negative"
    case NegativeSupply => "RTRWH supply cannot be negative"
    case SupplyExceedsConsumption => "RTRWH supply cannot exceed total consumption"
    case ConsumptionTooHigh => "Consumption seems unusually high (>1000 kL/month)"
  }

  datatype Validation = Validation(isValid: bool, errors: seq<DjbError>)

  /** The position of each check in validateDJBInputs. */
  function CheckOrder(e: DjbError): int
  {
    match e
    case NegativeConsumption => 0
    case NegativeSupply => 1
    case SupplyExceedsConsumption => 2
    case ConsumptionTooHigh => 3
  }

  /** validateDJBInputs; an omitted supply is passed as 0. Errors are
      listed in the order the checks run. */
  function ValidateDJBInputs(consumptionKl: real, rtrwhSupplyKl: real): (v: Validation)
    ensures NegativeConsumption in v.errors <==> consumptionKl < 0.0
    ensures NegativeSupply in v.errors <==> rtrwhSupplyKl < 0.0
    ensures SupplyExceedsConsumption in v.errors <==> rtrwhSupplyKl > consumptionKl
    ensures ConsumptionTooHigh in v.errors <==> consumptionKl > 1000.0
    ensures forall i, j :: 0 <= i < j < |v.errors| ==> CheckOrder(v.errors[i]) < CheckOrder(v.errors[j])
    ensures v.isValid <==> v.errors == []
    ensures |v.errors| <= 3
  {
    var errors :=
      (if consumptionKl < 0.0 then [NegativeConsumption] else [])
      + (if rtrwhSupplyKl < 0.0 then [NegativeSupply] else [])
      + (if rtrwhSupplyKl > consumptionKl then [SupplyExceedsConsumption] else [])
      + (if consumptionKl > 1000.0 then [ConsumptionTooHigh] else []);
    Validation(|errors| == 0, errors)
  }

  /** Inputs that pass validation give a comparison whose draw lies within
      the need and whose saving lies within the original bill. */
  lemma ValidInputsCompareSensibly(consumptionKl: real, rtrwhSupplyKl: real)
    requires ValidateDJBInputs(consumptionKl, rtrwhSupplyKl).isValid
    ensures var r := BillComparison(consumptionKl, rtrwhSupplyKl);
      0.0 <= r.djbDrawWith <= consumptionKl <= 1000.0
      && 0 <= r.monthlySavings <= r.billWithout.totalBill
  {
    SavingsNonNegative(consumptionKl, rtrwhSupplyKl);
  }
}
