/** The bill of quantities and cost estimate of lib/cost.js: four roof-area
    templates, the quantity uplift for a recharge well, the priced estimate
    with overhead, contingency and GST, the payback period, the category
    breakdown and the input validation. */
module Cost {
  import opened Common

  // ---------------------------------------------------------------------------
  // Templates
  // ---------------------------------------------------------------------------

  datatype BoqItem = BoqItem(code: string, qty: real, unit: string)

  /** The four BOQ_TEMPLATES, in the order Object.values lists them. */
  datatype Template = Small | Medium | Large | XLarge

  const Templates: seq<Template> := [Small, Medium, Large, XLarge]

  /** The ten line items every template lists, in order, with their units. */
  const ItemCodes: seq<string> := ["EXC001", "BRK001", "BLD001", "GRV001", "SND001", "PGV001", "PVC001", "RCC001", "LAB001", "LAB002"]
  const ItemUnits: seq<string> := ["cum", "cum", "cum", "cum", "cum", "cum", "m", "cum", "day", "day"]

  function MinArea(t: Template): real
  {
    match t
    case Small => 0.0
    case Medium => 100.0
    case Large => 200.0
    case XLarge => 400.0
  }

  function MaxArea(t: Template): real
  {
    match t
    case Small => 100.0
    case Medium => 200.0
    case Large => 400.0
    case XLarge => 10000.0
  }

  /** The template quantities, item by item in ItemCodes order. */
  function Quantities(t: Template): (qs: seq<real>)
    ensures |qs| == 10
  {
    match t
    case Small => [12.0, 8.0, 2.0, 3.0, 2.0, 1.0, 15.0, 1.5, 8.0, 12.0]
    case Medium => [18.0, 12.0, 3.0, 4.0, 3.0, 2.0, 25.0, 2.5, 12.0, 18.0]
    case Large => [25.0, 18.0, 4.0, 6.0, 4.0, 3.0, 35.0, 4.0, 18.0, 25.0]
    case XLarge => [35.0, 25.0, 6.0, 8.0, 6.0, 4.0, 50.0, 6.0, 25.0, 35.0]
  }

  function Items(t: Template): (items: seq<BoqItem>)
    ensures |items| == 10
    ensures forall i :: 0 <= i < 10 ==> items[i] == BoqItem(ItemCodes[i], Quantities(t)[i], ItemUnits[i])
  {
    var qs := Quantities(t);
    seq(10, i requires 0 <= i < 10 => BoqItem(ItemCodes[i], qs[i], ItemUnits[i]))
  }

  predicate Covers(t: Template, area: real)
  {
    MinArea(t) <= area <= MaxArea(t)
  }

  /** The first template among `ts` whose inclusive area range holds `area`. */
  function FirstTemplate(ts: seq<Template>, area: real): (r: Option<Template>)
    ensures r.Some? ==> r.value in ts && Covers(r.value, area)
    ensures r.None? <==> forall i :: 0 <= i < |ts| ==> !Covers(ts[i], area)
  {
    if ts == [] then None
    else if Covers(ts[0], area) then Some(ts[0])
    else FirstTemplate(ts[1..], area)
  }

  function TemplateFor(area: real): Option<Template>
  {
    FirstTemplate(Templates, area)
  }

  /** getBOQTemplate. */
  method GetBOQTemplate(rooftopAreaSqm: real) returns (t: Option<Template>)
    ensures t == TemplateFor(rooftopAreaSqm)
  {
    var i := 0;
    while i < |Templates|
      invariant 0 <= i <= |Templates|
      invariant FirstTemplate(Templates[i..], rooftopAreaSqm) == TemplateFor(rooftopAreaSqm)
    {
      var template := Templates[i];
      assert Templates[i..][1..] == Templates[i + 1..];
      if rooftopAreaSqm >= MinArea(template) && rooftopAreaSqm <= MaxArea(template) {
        return Some(template);
      }
      i := i + 1;
    }
    return None;
  }

  /** The bands: a boundary area belongs to the smaller template, and
      there is a template exactly for areas in [0, 10000]. */
  lemma TemplateBands(area: real)
    ensures TemplateFor(area).None? <==> area < 0.0 || area > 10000.0
    ensures 0.0 <= area <= 100.0 ==> TemplateFor(area) == Some(Small)
    ensures 100.0 < area <= 200.0 ==> TemplateFor(area) == Some(Medium)
    ensures 200.0 < area <= 400.0 ==> TemplateFor(area) == Some(Large)
    ensures 400.0 < area <= 10000.0 ==> TemplateFor(area) == Some(XLarge)
  {
    assert Templates[1..] == [Medium, Large, XLarge];
    assert Templates[1..][1..] == [Large, XLarge];
    assert Templates[1..][1..][1..] == [XLarge];
    assert Templates[1..][1..][1..][1..] == [];
    var t3 := FirstTemplate(Templates[1..][1..][1..], area);
    assert t3 == if Covers(XLarge, area) then Some(XLarge) else None;
    var t2 := FirstTemplate(Templates[1..][1..], area);
    assert t2 == if Covers(Large, area) then Some(Large) else t3;
    var t1 := FirstTemplate(Templates[1..], area);
    assert t1 == if Covers(Medium, area) then Some(Medium) else t2;
    assert TemplateFor(area) ==
      if Covers(Small, area) then Some(Small)
      else if Covers(Medium, area) then Some(Medium)
      else if Covers(Large, area) then Some(Large)
      else if Covers(XLarge, area) then Some(XLarge)
      else None;
  }

  /** Every line item grows (weakly) from one template to the next. */
  lemma TemplatesGrowWithArea(k: int, i: int)
    requires 0 <= k < 3 && 0 <= i < 10
    ensures Items(Templates[k])[i].code == Items(Templates[k + 1])[i].code == ItemCodes[i]
    ensures Items(Templates[k])[i].qty <= Items(Templates[k + 1])[i].qty
  {
    assert i == 0 || i == 1 || i == 2 || i == 3 || i == 4 || i == 5 || i == 6 || i == 7 || i == 8 || i == 9;
  }

  // ---------------------------------------------------------------------------
  // The bill of quantities
  // ---------------------------------------------------------------------------

  datatype Result<T> = Success(value: T) | Failure(error: string)

  datatype Boq = Boq(template: Template, items: seq<BoqItem>, adjustmentFactor: real, recommendation: string)

  /** `Math.round(x * 100) / 100`: rounding to two decimals. */
  function RoundTo2(x: real): (r: real)
    ensures x - 0.005 < r <= x + 0.005
  {
    Round(x * 100.0) as real / 100.0
  }

  /** The quantity uplift: 30% more for a trench with a recharge well. */
  function AdjustmentFactor(recommendation: string): (f: real)
    ensures f == 1.3 <==> recommendation == "TRENCH_WITH_WELL"
    ensures f == 1.0 <==> recommendation != "TRENCH_WITH_WELL"
  {
    if recommendation == "TRENCH_WITH_WELL" then 1.3 else 1.0
  }

  /** One adjusted item: same code and unit, quantity scaled and rounded
      to two decimals. */
  function AdjustItem(item: BoqItem, f: real): BoqItem
  {
    item.(qty := RoundTo2(item.qty * f))
  }

  function AdjustItems(items: seq<BoqItem>, f: real): (r: seq<BoqItem>)
    ensures |r| == |items|
    ensures forall i :: 0 <= i < |items| ==> r[i] == AdjustItem(items[i], f)
  {
    if items == [] then [] else [AdjustItem(items[0], f)] + AdjustItems(items[1..], f)
  }

  /** generateBOQ; the error for an area no template covers is the thrown
      exception's message. */
  function GenerateBOQ(rooftopAreaSqm: real, recommendation: string): (r: Result<Boq>)
    ensures r.Failure? <==> TemplateFor(rooftopAreaSqm).None?
    ensures r.Success? ==>
      && r.value.template == TemplateFor(rooftopAreaSqm).value
      && r.value.adjustmentFactor == AdjustmentFactor(recommendation)
      && r.value.items == AdjustItems(Items(r.value.template), r.value.adjustmentFactor)
      && r.value.recommendation == recommendation
  {
    match TemplateFor(rooftopAreaSqm)
    case None => Failure("Unable to determine BOQ template for given area")
    case Some(template) =>
      var f := AdjustmentFactor(recommendation);
      Success(Boq(template, AdjustItems(Items(template), f), f, recommendation))
  }

  lemma RoundToTwoExact(k: int, f: real)
    requires f == 1.0 || f == 1.3
    ensures RoundTo2(k as real / 2.0 * f) == k as real / 2.0 * f
  {
    if f == 1.0 {
      assert k as real / 2.0 * f * 100.0 == (50 * k) as real;
      RoundOfInt(50 * k);
    } else {
      assert k as real / 2.0 * f * 100.0 == (65 * k) as real;
      RoundOfInt(65 * k);
    }
  }

  /** Every template quantity is a whole or half unit. */
  lemma TemplateQuantitiesInHalfUnits(t: Template, i: int)
    requires 0 <= i < 10
    ensures Quantities(t)[i] == (2.0 * Quantities(t)[i]).Floor as real / 2.0
  {
    assert i == 0 || i == 1 || i == 2 || i == 3 || i == 4 || i == 5 || i == 6 || i == 7 || i == 8 || i == 9;
  }

  lemma AdjustedQuantityExact(t: Template, f: real, i: int)
    requires f == 1.0 || f == 1.3
    requires 0 <= i < 10
    ensures RoundTo2(Quantities(t)[i] * f) == Quantities(t)[i] * f
  {
    var q := Quantities(t)[i];
    TemplateQuantitiesInHalfUnits(t, i);
    var k := (2.0 * q).Floor;
    assert q == k as real / 2.0;
    RoundToTwoExact(k, f);
  }

  /** The two-decimal rounding never disturbs a template quantity: the BOQ
      carries exactly the template's quantities, or exactly 1.3 times them
      for a recharge well. */
  lemma AdjustedQuantitiesExact(t: Template, recommendation: string)
    ensures var items := AdjustItems(Items(t), AdjustmentFactor(recommendation));
      |items| == 10 &&
      forall i :: 0 <= i < 10 ==> items[i].qty == Quantities(t)[i] * AdjustmentFactor(recommendation)
  {
    var f := AdjustmentFactor(recommendation);
    var items := Items(t);
    var adjusted := AdjustItems(items, f);
    forall i | 0 <= i < 10
      ensures adjusted[i].qty == Quantities(t)[i] * f
    {
      assert adjusted[i] == AdjustItem(items[i], f);
      AdjustedQuantityExact(t, f, i);
    }
  }

  // ---------------------------------------------------------------------------
  // The priced estimate
  // ---------------------------------------------------------------------------

  /** A row of the reference rate card. */
  datatype RefRate = RefRate(itemCode: string, kind: string, itemName: string, unit: string, unitRate: real)

  /** Array.prototype.find on the rate card: the first row for `code`. */
  function FindRate(rates: seq<RefRate>, code: string): (r: Option<RefRate>)
    ensures r.Some? ==> r.value in rates && r.value.itemCode == code
    ensures r.None? <==> forall i :: 0 <= i < |rates| ==> rates[i].itemCode != code
  {
    if rates == [] then None
    else if rates[0].itemCode == code then Some(rates[0])
    else FindRate(rates[1..], code)
  }

  /** A priced line; its `notes` field is always null and not modelled. */
  datatype CostItem = CostItem(lineNo: int, category: string, code: string, description: string,
    unit: string, qty: real, unitRate: real, amount: int)

  /** The priced lines for the BOQ items that have a rate, numbered from 1;
      items with no rate are skipped. */
  function CostLines(items: seq<BoqItem>, rates: seq<RefRate>): seq<CostItem>
  {
    if items == [] then [] else PriceItem(CostLines(items[..|items| - 1], rates), items[|items| - 1], rates)
  }

  /** One step of the pricing loop: append the item's line if it has a rate. */
  function PriceItem(prev: seq<CostItem>, item: BoqItem, rates: seq<RefRate>): seq<CostItem>
  {
    match FindRate(rates, item.code)
    case None => prev
    case Some(rate) => prev + [LineOf(|prev| + 1, item, rate)]
  }

  /** `qty * unitRate`, unrounded. */
  function Amount(item: BoqItem, rate: RefRate): real
  {
    item.qty * rate.unitRate
  }

  /** The priced line numbered `lineNo` for an item and its rate. */
  function LineOf(lineNo: int, item: BoqItem, rate: RefRate): CostItem
  {
    CostItem(lineNo, rate.kind, item.code, rate.itemName, rate.unit, item.qty, rate.unitRate, Round(Amount(item, rate)))
  }

  /** The unrounded amount of the items whose rate is of kind `kind`. */
  function KindSum(items: seq<BoqItem>, rates: seq<RefRate>, kind: string): real
  {
    if items == [] then 0.0 else KindSum(items[..|items| - 1], rates, kind) + KindAmount(items[|items| - 1], rates, kind)
  }

  /** What one item adds to the subtotal of `kind`. */
  function KindAmount(item: BoqItem, rates: seq<RefRate>, kind: string): real
  {
    match FindRate(rates, item.code)
    case None => 0.0
    case Some(rate) => if rate.kind == kind then Amount(item, rate) else 0.0
  }

  /** COST_PARAMETERS. */
  const ContractorMargin: real := 0.15
  const ContingencyRate: real := 0.1
  const GstRate: real := 0.18
  const RateCardVersion: string := "2024-Q4"

  datatype Estimate = Estimate(
    materialSubtotal: int,
    laborSubtotal: int,
    overhead: int,
    contingency: int,
    preGst: int,
    gst: int,
    grandTotal: int,
    currency: string,
    rateCardVersion: string,
    costItems: seq<CostItem>)

  /** The unrounded grand total of a subtotal. */
  function GrandTotalOf(subtotal: real): real
  {
    var preGst := subtotal + subtotal * ContractorMargin + subtotal * ContingencyRate;
    preGst + preGst * GstRate
  }

  /** The whole mark-up is one factor: 1.25 before tax, 1.475 after. */
  lemma GrandTotalFactor(subtotal: real)
    ensures GrandTotalOf(subtotal) == 1.475 * subtotal
    ensures subtotal + subtotal * ContractorMargin + subtotal * ContingencyRate == 1.25 * subtotal
  {
  }

  function EstimateFrom(items: seq<BoqItem>, rates: seq<RefRate>): Estimate
  {
    var material := KindSum(items, rates, "Material");
    var labor := KindSum(items, rates, "Labor");
    var subtotal := material + labor;
    var overhead := subtotal * ContractorMargin;
    var contingency := subtotal * ContingencyRate;
    var preGst := subtotal + overhead + contingency;
    var gst := preGst * GstRate;
    Estimate(Round(material), Round(labor), Round(overhead), Round(contingency), Round(preGst), Round(gst),
      Round(preGst + gst), "INR", RateCardVersion, CostLines(items, rates))
  }

  /** The estimate calculateCostEstimate resolves to, or the BOQ's error. */
  function EstimateSpec(rooftopAreaSqm: real, recommendation: string, refRates: seq<RefRate>): Result<Estimate>
  {
    match GenerateBOQ(rooftopAreaSqm, recommendation)
    case Failure(e) => Failure(e)
    case Success(boq) => Success(EstimateFrom(boq.items, refRates))
  }

  lemma CostLinesStep(items: seq<BoqItem>, n: nat, rates: seq<RefRate>)
    requires n < |items|
    ensures CostLines(items[..n + 1], rates) == PriceItem(CostLines(items[..n], rates), items[n], rates)
    ensures KindSum(items[..n + 1], rates, "Material") == KindSum(items[..n], rates, "Material") + KindAmount(items[n], rates, "Material")
    ensures KindSum(items[..n + 1], rates, "Labor") == KindSum(items[..n], rates, "Labor") + KindAmount(items[n], rates, "Labor")
  {
    assert items[..n + 1][..n] == items[..n];
  }

  lemma PriceItemFound(prev: seq<CostItem>, item: BoqItem, rates: seq<RefRate>, rate: RefRate)
    requires FindRate(rates, item.code) == Some(rate)
    ensures PriceItem(prev, item, rates) == prev + [LineOf(|prev| + 1, item, rate)]
    ensures KindAmount(item, rates, "Material") == if rate.kind == "Material" then Amount(item, rate) else 0.0
    ensures KindAmount(item, rates, "Labor") == if rate.kind == "Labor" then Amount(item, rate) else 0.0
  {
  }

  lemma PriceItemMissing(prev: seq<CostItem>, item: BoqItem, rates: seq<RefRate>)
    requires FindRate(rates, item.code).None?
    ensures PriceItem(prev, item, rates) == prev
    ensures KindAmount(item, rates, "Material") == 0.0 && KindAmount(item, rates, "Labor") == 0.0
  {
  }

  /** The pricing loop of calculateCostEstimate: price each BOQ item found
      on the rate card and accumulate material and labour separately (a
      rate of any other kind is listed but added to neither). */
  method PriceBoqItems(items: seq<BoqItem>, refRates: seq<RefRate>)
    returns (costItems: seq<CostItem>, materialSubtotal: real, laborSubtotal: real)
    ensures costItems == CostLines(items, refRates)
    ensures materialSubtotal == KindSum(items, refRates, "Material")
    ensures laborSubtotal == KindSum(items, refRates, "Labor")
  {
    materialSubtotal := 0.0;
    laborSubtotal := 0.0;
    costItems := [];
    var i := 0;
    while i < |items|
      invariant 0 <= i <= |items|
      invariant costItems == CostLines(items[..i], refRates)
      invariant materialSubtotal == KindSum(items[..i], refRates, "Material")
      invariant laborSubtotal == KindSum(items[..i], refRates, "Labor")
    {
      var boqItem := items[i];
      CostLinesStep(items, i, refRates);
      var rate := FindRate(refRates, boqItem.code);
      if rate.None? {
        PriceItemMissing(costItems, boqItem, refRates);
        i := i + 1;
        continue;
      }
      PriceItemFound(costItems, boqItem, refRates, rate.value);
      var amount := Amount(boqItem, rate.value);
      var costItem := CostItem(|costItems| + 1, rate.value.kind, boqItem.code, rate.value.itemName,
        rate.value.unit, boqItem.qty, rate.value.unitRate, Round(amount));
      assert costItem == LineOf(|costItems| + 1, boqItem, rate.value);
      costItems := costItems + [costItem];
      if rate.value.kind == "Material" {
        materialSubtotal := materialSubtotal + amount;
      } else if rate.value.kind == "Labor" {
        laborSubtotal := laborSubtotal + amount;
      }
      i := i + 1;
    }
    assert items[..|items|] == items;
  }

  /** The totals of calculateCostEstimate: overhead and contingency on the
      subtotal, GST on top, each rounded for the result. */
  method EstimateBoq(items: seq<BoqItem>, refRates: seq<RefRate>) returns (e: Estimate)
    ensures e == EstimateFrom(items, refRates)
  {
    var costItems, materialSubtotal, laborSubtotal := PriceBoqItems(items, refRates);
    var subtotal := materialSubtotal + laborSubtotal;
    var overhead := subtotal * ContractorMargin;
    var contingency := subtotal * ContingencyRate;
    var preGst := subtotal + overhead + contingency;
    var gst := preGst * GstRate;
    var grandTotal := preGst + gst;
    e := Estimate(Round(materialSubtotal), Round(laborSubtotal), Round(overhead), Round(contingency),
      Round(preGst), Round(gst), Round(grandTotal), "INR", RateCardVersion, costItems);
  }

  /** calculateCostEstimate: the BOQ (or its error), then its priced
      estimate. */
  method CalculateCostEstimate(rooftopAreaSqm: real, recommendation: string, refRates: seq<RefRate>)
    returns (r: Result<Estimate>)
    ensures r == EstimateSpec(rooftopAreaSqm, recommendation, refRates)
  {
    var boqResult := GenerateBOQ(rooftopAreaSqm, recommendation);
    if boqResult.Failure? {
      return Failure(boqResult.error);
    }
    var e := EstimateBoq(boqResult.value.items, refRates);
    r := Success(e);
  }

  // ---------------------------------------------------------------------------
  // Properties of the estimate
  // ---------------------------------------------------------------------------

  /** The BOQ items that have a rate on the card, in BOQ order; all of
      them when every item has a rate. */
  function RatedItems(items: seq<BoqItem>, rates: seq<RefRate>): (r: seq<BoqItem>)
    ensures |r| <= |items|
    ensures forall j :: 0 <= j < |r| ==> FindRate(rates, r[j].code).Some?
    ensures (forall k :: 0 <= k < |items| ==> FindRate(rates, items[k].code).Some?) ==> r == items
  {
    if items == [] then []
    else
      var init := items[..|items| - 1];
      var prev := RatedItems(init, rates);
      assert forall k :: 0 <= k < |init| ==> init[k] == items[k];
      assert init + [items[|items| - 1]] == items;
      if FindRate(rates, items[|items| - 1].code).Some? then prev + [items[|items| - 1]] else prev
  }

  /** Lines that price `rated` one by one: as many lines as items, line j
      numbered j + 1 with item j's code and quantity, its rate card entry's
      kind, name, unit and unit rate, and the rounded amount. */
  predicate LinesMatchRated(lines: seq<CostItem>, rated: seq<BoqItem>, rates: seq<RefRate>)
  {
    && |lines| == |rated|
    && (forall j :: 0 <= j < |lines| ==>
          && FindRate(rates, rated[j].code).Some?
          && lines[j] == LineOf(j + 1, rated[j], FindRate(rates, rated[j].code).value)
          && lines[j].lineNo == j + 1
          && lines[j].amount == Round(rated[j].qty * lines[j].unitRate))
  }

  lemma LinesMatchSnoc(lines: seq<CostItem>, rated: seq<BoqItem>, rates: seq<RefRate>, item: BoqItem, rate: RefRate)
    requires LinesMatchRated(lines, rated, rates)
    requires FindRate(rates, item.code) == Some(rate)
    ensures LinesMatchRated(lines + [LineOf(|lines| + 1, item, rate)], rated + [item], rates)
  {
    var l2 := lines + [LineOf(|lines| + 1, item, rate)];
    var r2 := rated + [item];
    forall j | 0 <= j < |l2|
      ensures FindRate(rates, r2[j].code).Some?
      ensures l2[j] == LineOf(j + 1, r2[j], FindRate(rates, r2[j].code).value)
    {
      if j < |lines| {
        assert l2[j] == lines[j] && r2[j] == rated[j];
      }
    }
  }

  /** The priced lines are the rated BOQ items in BOQ order, numbered 1, 2,
      3, ... with no gaps, each with its item's code and quantity, the rate
      card's kind, name, unit and unit rate, and the rounded amount. */
  lemma {:induction false} CostLinesNumbered(items: seq<BoqItem>, rates: seq<RefRate>)
    ensures LinesMatchRated(CostLines(items, rates), RatedItems(items, rates), rates)
  {
    if items != [] {
      var init := items[..|items| - 1];
      var last := items[|items| - 1];
      CostLinesNumbered(init, rates);
      var pl := CostLines(init, rates);
      var pr := RatedItems(init, rates);
      match FindRate(rates, last.code)
      case None =>
        assert CostLines(items, rates) == pl && RatedItems(items, rates) == pr;
      case Some(rate) =>
        assert CostLines(items, rates) == pl + [LineOf(|pl| + 1, last, rate)];
        assert RatedItems(items, rates) == pr + [last];
        LinesMatchSnoc(pl, pr, rates, last, rate);
    }
  }

  /** The rounded grand total is within a rupee of 1.475 times the priced
      material and labour. */
  lemma GrandTotalIsMarkedUpSubtotal(items: seq<BoqItem>, rates: seq<RefRate>)
    ensures var e := EstimateFrom(items, rates);
      var subtotal := KindSum(items, rates, "Material") + KindSum(items, rates, "Labor");
      1.475 * subtotal - 0.5 < e.grandTotal as real <= 1.475 * subtotal + 0.5
  {
    var subtotal := KindSum(items, rates, "Material") + KindSum(items, rates, "Labor");
    GrandTotalFactor(subtotal);
  }

  /** With non-negative quantities and unit rates, every subtotal is
      non-negative. */
  lemma {:induction false} KindSumNonNegative(items: seq<BoqItem>, rates: seq<RefRate>, kind: string)
    requires forall k :: 0 <= k < |items| ==> items[k].qty >= 0.0
    requires forall j :: 0 <= j < |rates| ==> rates[j].unitRate >= 0.0
    ensures KindSum(items, rates, kind) >= 0.0
  {
    if items != [] {
      KindSumNonNegative(items[..|items| - 1], rates, kind);
      var rate := FindRate(rates, items[|items| - 1].code);
      if rate.Some? {
        assert rate.value.unitRate >= 0.0;
      }
    }
  }

  /** calculateCostEstimate throws for the same areas generateBOQ rejects. */
  lemma EstimateFailsOnlyWithoutTemplate(rooftopAreaSqm: real, recommendation: string, refRates: seq<RefRate>)
    ensures EstimateSpec(rooftopAreaSqm, recommendation, refRates).Failure?
      <==> rooftopAreaSqm < 0.0 || rooftopAreaSqm > 10000.0
  {
    TemplateBands(rooftopAreaSqm);
  }

  // ---------------------------------------------------------------------------
  // Payback and breakdown
  // ---------------------------------------------------------------------------

  /** calculatePaybackPeriod: no payback without savings, otherwise the
      years to recover the cost, rounded to one decimal. */
  function PaybackPeriod(totalCost: real, annualSavings: real): (r: Option<real>)
    ensures r.None? <==> annualSavings <= 0.0
    ensures r.Some? ==> totalCost / annualSavings - 0.05 < r.value <= totalCost / annualSavings + 0.05
  {
    if annualSavings <= 0.0 then None
    else Some(Round(totalCost / annualSavings * 10.0) as real / 10.0)
  }

  /** More savings never lengthen the payback. */
  lemma PaybackShrinksWithSavings(totalCost: real, s1: real, s2: real)
    requires totalCost >= 0.0 && 0.0 < s1 <= s2
    ensures PaybackPeriod(totalCost, s2).value <= PaybackPeriod(totalCost, s1).value
  {
    assert totalCost / s2 <= totalCost / s1 by {
      assert totalCost / s2 * s2 == totalCost == totalCost / s1 * s1;
      assert totalCost / s2 * s1 <= totalCost / s2 * s2;
    }
    RoundMonotone(totalCost / s2 * 10.0, totalCost / s1 * 10.0);
  }

  /** A breakdown entry. Dividing by a zero grand total yields NaN or
      Infinity in the source; here that percentage is `None`. */
  datatype Share = Share(amount: int, percentage: Option<int>)

  datatype Breakdown = Breakdown(materials: Share, labor: Share, overhead: Share, contingency: Share, gst: Share)

  function ShareOf(amount: int, grandTotal: int): (s: Share)
    ensures s.amount == amount
    ensures s.percentage.None? <==> grandTotal == 0
    ensures grandTotal != 0 ==>
      var exact := amount as real / grandTotal as real * 100.0;
      exact - 0.5 < s.percentage.value as real <= exact + 0.5
  {
    if grandTotal == 0 then Share(amount, None)
    else Share(amount, Some(Round(amount as real / grandTotal as real * 100.0)))
  }

  /** getCostBreakdown. */
  function GetCostBreakdown(e: Estimate): (b: Breakdown)
    ensures b.materials == ShareOf(e.materialSubtotal, e.grandTotal)
    ensures b.labor == ShareOf(e.laborSubtotal, e.grandTotal)
    ensures b.overhead == ShareOf(e.overhead, e.grandTotal)
    ensures b.contingency == ShareOf(e.contingency, e.grandTotal)
    ensures b.gst == ShareOf(e.gst, e.grandTotal)
  {
    Breakdown(ShareOf(e.materialSubtotal, e.grandTotal), ShareOf(e.laborSubtotal, e.grandTotal),
      ShareOf(e.overhead, e.grandTotal), ShareOf(e.contingency, e.grandTotal), ShareOf(e.gst, e.grandTotal))
  }

  /** An amount that is a part of the grand total shows as 0..100 percent. */
  lemma ShareIsPercentage(amount: int, grandTotal: int)
    requires 0 <= amount <= grandTotal && 0 < grandTotal
    ensures 0 <= ShareOf(amount, grandTotal).percentage.value <= 100
  {
    var exact := amount as real / grandTotal as real * 100.0;
    assert 0.0 <= amount as real / grandTotal as real <= 1.0;
    RoundMonotone(0.0, exact);
    RoundMonotone(exact, 100.0);
    RoundOfInt(0);
    RoundOfInt(100);
  }

  // ---------------------------------------------------------------------------
  // Validation
  // ---------------------------------------------------------------------------

  datatype CostError = AreaNotPositive | RecommendationMissing | NoTemplate

  datatype Validation = Validation(isValid: bool, errors: seq<CostError>)

  /** The roof area as validateCostInputs may receive it. The function has
      no caller that fixes its form, so all three matter: `undefined` fails
      every comparison, `null` compares as 0, and a number is itself. */
  datatype AreaArg = Undefined | Null | Given(area: real)

  /** The template getBOQTemplate finds for the argument: none for
      `undefined`, the one for 0 for `null`. */
  function TemplateForArg(a: AreaArg): Option<Template>
  {
    match a
    case Undefined => None
    case Null => TemplateFor(0.0)
    case Given(area) => TemplateFor(area)
  }

  /** Whether `!rooftopAreaSqm || rooftopAreaSqm <= 0` holds. */
  predicate AreaMissingOrNotPositive(a: AreaArg)
  {
    a.Given? ==> a.area <= 0.0
  }

  /** The position of each check in validateCostInputs. */
  function CheckOrder(e: CostError): int
  {
    match e
    case AreaNotPositive => 0
    case RecommendationMissing => 1
    case NoTemplate => 2
  }

  /** validateCostInputs; a missing recommendation is the empty string.
      The errors come in the order of the checks, each at most once. */
  function ValidateCostInputs(rooftopAreaSqm: AreaArg, recommendation: string): (v: Validation)
    ensures AreaNotPositive in v.errors <==> AreaMissingOrNotPositive(rooftopAreaSqm)
    ensures RecommendationMissing in v.errors <==> recommendation == ""
    ensures NoTemplate in v.errors <==> TemplateForArg(rooftopAreaSqm).None?
    ensures forall i, j :: 0 <= i < j < |v.errors| ==> CheckOrder(v.errors[i]) < CheckOrder(v.errors[j])
    ensures v.isValid <==> v.errors == []
  {
    var errors :=
      (if AreaMissingOrNotPositive(rooftopAreaSqm) then [AreaNotPositive] else [])
      + (if recommendation == "" then [RecommendationMissing] else [])
      + (if TemplateForArg(rooftopAreaSqm).None? then [NoTemplate] else []);
    Validation(|errors| == 0, errors)
  }

  /** Inputs pass validation exactly when the area is a number in
      (0, 10000] and a recommendation is given; such inputs always get a
      BOQ. */
  lemma ValidInputsHaveBoq(rooftopAreaSqm: AreaArg, recommendation: string)
    ensures ValidateCostInputs(rooftopAreaSqm, recommendation).isValid
      <==> rooftopAreaSqm.Given? && 0.0 < rooftopAreaSqm.area <= 10000.0 && recommendation != ""
    ensures ValidateCostInputs(rooftopAreaSqm, recommendation).isValid
      ==> GenerateBOQ(rooftopAreaSqm.area, recommendation).Success?
  {
    if rooftopAreaSqm.Given? {
      TemplateBands(rooftopAreaSqm.area);
    }
  }

  /** A missing area: `undefined` also has no template, while `null` gets
      the smallest one and only the area error. */
  lemma MissingAreaErrors(recommendation: string)
    requires recommendation != ""
    ensures ValidateCostInputs(Undefined, recommendation).errors == [AreaNotPositive, NoTemplate]
    ensures ValidateCostInputs(Null, recommendation).errors == [AreaNotPositive]
  {
    TemplateBands(0.0);
  }
}
