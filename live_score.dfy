/** The roof step's live score and its form checks. The roof page and the
    client roof component define the same tables and the same two
    functions; they are modelled once. The area field is text: `None` is
    the empty field, `Some(a)` the number it parses to. */
module LiveScore {
  import opened Common
  import Runoff

  // ---------------------------------------------------------------------------
  // Tables
  // ---------------------------------------------------------------------------

  /** A roof-type option; only its runoff coefficient enters the score. */
  datatype RoofType = RoofType(value: string, coefficient: real)

  const RoofTypes: seq<RoofType> := [
    RoofType("RCC Flat", 0.85),
    RoofType("RCC Sloped", 0.8),
    RoofType("Metal Sheet", 0.9),
    RoofType("Tile", 0.75),
    RoofType("Asbestos", 0.85),
    RoofType("Mixed", 0.75)
  ]

  /** A surrounding land-use option and its score out of 25. */
  datatype SurroundingLandUse = SurroundingLandUse(value: string, score: int)

  const SurroundingLandUseTypes: seq<SurroundingLandUse> := [
    SurroundingLandUse("Open Park", 25),
    SurroundingLandUse("Garden", 23),
    SurroundingLandUse("Vegetation", 25),
    SurroundingLandUse("Residential Paving", 15),
    SurroundingLandUse("Heavy Traffic Road", 5),
    SurroundingLandUse("Commercial", 8),
    SurroundingLandUse("Industrial", 3)
  ]

  /** An option's value, the key the forms look options up by. */
  function RoofValue(r: RoofType): string { r.value }
  function LandUseValue(u: SurroundingLandUse): string { u.value }

  /** Array.prototype.find by option value: the first option whose key is
      the value, or none iff no option has it. */
  function Find<T>(options: seq<T>, key: T -> string, value: string): (r: Option<T>)
    ensures r.Some? ==> r.value in options && key(r.value) == value
    ensures r.None? <==> forall i :: 0 <= i < |options| ==> key(options[i]) != value
  {
    if options == [] then None
    else if key(options[0]) == value then Some(options[0])
    else Find(options[1..], key, value)
  }

  /** The option lists of a roof form. */
  datatype Tables = Tables(roofTypes: seq<RoofType>, landUses: seq<SurroundingLandUse>)

  /** The lists the roof page and the client roof component both define. */
  const RoofPageTables: Tables := Tables(RoofTypes, SurroundingLandUseTypes)

  /** What the score needs of the lists: non-negative coefficients and
      land-use scores out of 25. */
  predicate ValidTables(t: Tables)
  {
    && (forall i :: 0 <= i < |t.roofTypes| ==> 0.0 <= t.roofTypes[i].coefficient)
    && (forall i :: 0 <= i < |t.landUses| ==> 0 <= t.landUses[i].score <= 25)
  }

  /** The roof page's lists meet that, and every roof type they offer is
      one the runoff calculator knows, with the same coefficient: 0.75,
      0.8, 0.85 or 0.9. */
  lemma RoofPageTablesValid()
    ensures ValidTables(RoofPageTables)
    ensures forall i :: 0 <= i < |RoofTypes| ==>
      && RoofTypes[i].value in Runoff.RoofRunoffCoefficients
      && Runoff.RoofRunoffCoefficients[RoofTypes[i].value] == RoofTypes[i].coefficient
    ensures forall i :: 0 <= i < |RoofTypes| ==>
      RoofTypes[i].coefficient == 0.75 || RoofTypes[i].coefficient == 0.8
      || RoofTypes[i].coefficient == 0.85 || RoofTypes[i].coefficient == 0.9
  {
    var t := Runoff.RoofRunoffCoefficients;
    assert t["RCC Flat"] == 0.85;
    assert t["RCC Sloped"] == 0.8;
    assert t["Metal Sheet"] == 0.9;
    assert t["Tile"] == 0.75;
    assert t["Asbestos"] == 0.85;
    assert t["Mixed"] == 0.75;
  }

  /** A roof type found in the page's list, by the lemma above. */
  lemma FoundRoofType(value: string)
    requires Find(RoofTypes, RoofValue, value).Some?
    ensures value in Runoff.RoofRunoffCoefficients
    ensures Runoff.RoofRunoffCoefficients[value] == Find(RoofTypes, RoofValue, value).value.coefficient
    ensures var c := Find(RoofTypes, RoofValue, value).value.coefficient;
      c == 0.75 || c == 0.8 || c == 0.85 || c == 0.9
  {
    RoofPageTablesValid();
    var r := Find(RoofTypes, RoofValue, value).value;
    var i :| 0 <= i < |RoofTypes| && RoofTypes[i] == r;
  }

  // ---------------------------------------------------------------------------
  // Runoff potential
  // ---------------------------------------------------------------------------

  /** The runoff potential as written: area × rainfall (m) × coefficient,
      which is a volume in cubic metres. */
  function AsWrittenRunoffVolume(area: real, coefficient: real): real
  {
    area * (650.0 / 1000.0) * coefficient
  }

  /** The same potential in litres, the unit the score bands are stated in. */
  function RunoffVolumeLitres(area: real, coefficient: real): real
  {
    AsWrittenRunoffVolume(area, coefficient) * 1000.0
  }

  /** The unit a runoff volume is taken in before it is banded: the page
      computes cubic metres; the bands are stated in litres. */
  datatype VolumeUnit = CubicMetres | Litres

  function RunoffVolumeIn(u: VolumeUnit, area: real, coefficient: real): real
  {
    match u
    case CubicMetres => AsWrittenRunoffVolume(area, coefficient)
    case Litres => RunoffVolumeLitres(area, coefficient)
  }

  /** The runoff bands, each bound strict. */
  function RunoffPoints(volume: real): (p: int)
    ensures p == 25 <==> volume > 100000.0
    ensures p == 20 <==> 50000.0 < volume <= 100000.0
    ensures p == 15 <==> 20000.0 < volume <= 50000.0
    ensures p == 10 <==> 10000.0 < volume <= 20000.0
    ensures p == 5 <==> volume <= 10000.0
  {
    if volume > 100000.0 then 25
    else if volume > 50000.0 then 20
    else if volume > 20000.0 then 15
    else if volume > 10000.0 then 10
    else 5
  }

  lemma RunoffPointsMonotone(a: real, b: real)
    requires a <= b
    ensures RunoffPoints(a) <= RunoffPoints(b)
  {
  }

  lemma VolumeMonotone(a: real, b: real, coefficient: real)
    requires 0.0 <= a <= b && 0.0 <= coefficient
    ensures RunoffVolumeLitres(a, coefficient) <= RunoffVolumeLitres(b, coefficient)
  {
    assert a * coefficient <= b * coefficient;
  }

  /** As written, no roof the form accepts leaves the lowest band: even
      10000 m² of metal sheet give 5850 cubic metres, under the 10000 of the
      lowest bound. */
  lemma AsWrittenRunoffAlwaysLowest(area: real, roofType: string)
    requires 0.0 < area <= 10000.0
    requires Find(RoofTypes, RoofValue, roofType).Some?
    ensures RunoffPoints(AsWrittenRunoffVolume(area, Find(RoofTypes, RoofValue, roofType).value.coefficient)) == 5
  {
    var c := Find(RoofTypes, RoofValue, roofType).value.coefficient;
    FoundRoofType(roofType);
    assert c == 0.75 || c == 0.8 || c == 0.85 || c == 0.9;
  }

  /** In litres the bands are reached by ordinary roofs: 100 m² of RCC flat
      roof collect 55250 L and score 20, 200 m² of metal sheet 117000 L and
      score 25, 15 m² of tile 7312.5 L and score 5. */
  lemma LitreBandsReached()
    ensures RunoffVolumeLitres(100.0, 0.85) == 55250.0 && RunoffPoints(RunoffVolumeLitres(100.0, 0.85)) == 20
    ensures RunoffVolumeLitres(200.0, 0.9) == 117000.0 && RunoffPoints(RunoffVolumeLitres(200.0, 0.9)) == 25
    ensures RunoffPoints(RunoffVolumeLitres(15.0, 0.75)) == 5
  {
  }

  // ---------------------------------------------------------------------------
  // Live score
  // ---------------------------------------------------------------------------

  /** The roof form. `hasBasement` is `None` until the user answers. */
  datatype RoofData = RoofData(
    rooftopAreaSqm: Option<real>,
    roofType: string,
    surroundingLandUse: string,
    hasBasement: Option<bool>)

  datatype Breakdown = Breakdown(runoffVolume: real, landUse: real, basement: real)

  /** Whether the runoff part is scored: an area above zero and a listed
      roof type. */
  predicate RunoffScored(data: RoofData, t: Tables)
  {
    && data.rooftopAreaSqm.Some? && data.rooftopAreaSqm.value > 0.0
    && data.roofType != "" && Find(t.roofTypes, RoofValue, data.roofType).Some?
  }

  /** The runoff band points of a scored form, its volume taken in `u`. */
  function RunoffPointsOf(data: RoofData, t: Tables, u: VolumeUnit): int
    requires RunoffScored(data, t)
  {
    RunoffPoints(RunoffVolumeIn(u, data.rooftopAreaSqm.value, Find(t.roofTypes, RoofValue, data.roofType).value.coefficient))
  }

  /** 20 % of the runoff band's points, 0 when the part is not scored. */
  function RunoffContribution(data: RoofData, t: Tables, u: VolumeUnit): (c: real)
    ensures c == 0.0 <==> !RunoffScored(data, t)
    ensures RunoffScored(data, t) ==> c == 0.2 * RunoffPointsOf(data, t, u) as real
    ensures c == 0.0 || c == 1.0 || c == 2.0 || c == 3.0 || c == 4.0 || c == 5.0
  {
    if RunoffScored(data, t) then 0.2 * RunoffPointsOf(data, t, u) as real else 0.0
  }

  /** The listed surrounding land use's score, 0 when it is empty or not
      listed. */
  function LandUseScoreOf(data: RoofData, t: Tables): (s: int)
    ensures data.surroundingLandUse == "" || Find(t.landUses, LandUseValue, data.surroundingLandUse).None? ==> s == 0
    ensures data.surroundingLandUse != "" && Find(t.landUses, LandUseValue, data.surroundingLandUse).Some? ==>
      s == Find(t.landUses, LandUseValue, data.surroundingLandUse).value.score
    ensures ValidTables(t) ==> 0 <= s <= 25
  {
    if data.surroundingLandUse != "" && Find(t.landUses, LandUseValue, data.surroundingLandUse).Some? then
      var u := Find(t.landUses, LandUseValue, data.surroundingLandUse).value;
      assert ValidTables(t) ==> 0 <= u.score <= 25 by {
        var i :| 0 <= i < |t.landUses| && t.landUses[i] == u;
      }
      u.score
    else 0
  }

  /** 10 % of the listed surrounding land use's score, 0 when it is empty
      or not listed. */
  function LandUseContribution(data: RoofData, t: Tables): (c: real)
    ensures c == 0.1 * LandUseScoreOf(data, t) as real
    ensures ValidTables(t) ==> 0.0 <= c <= 2.5
  {
    if data.surroundingLandUse != "" && Find(t.landUses, LandUseValue, data.surroundingLandUse).Some? then
      0.1 * Find(t.landUses, LandUseValue, data.surroundingLandUse).value.score as real
    else 0.0
  }

  /** 2 for a basement, 0 for none or no answer yet. */
  function BasementContribution(data: RoofData): (c: real)
    ensures c == 2.0 <==> data.hasBasement == Some(true)
    ensures c == 0.0 <==> data.hasBasement != Some(true)
  {
    if data.hasBasement == Some(true) then 2.0 else 0.0
  }

  /** The breakdown a form's score is made of, the runoff volume taken in
      `u`. */
  function BreakdownOf(data: RoofData, t: Tables, u: VolumeUnit): Breakdown
  {
    Breakdown(RunoffContribution(data, t, u), LandUseContribution(data, t), BasementContribution(data))
  }

  function LiveTotal(b: Breakdown): real
  {
    b.runoffVolume + b.landUse + b.basement
  }

  /** calculateLiveScore: the breakdown is filled part by part while the
      running total collects the same amounts, and the total is rounded at
      the end. As on the page, the runoff volume is in cubic metres and is
      banded against the litre bounds (see the findings). */
  method CalculateLiveScore(data: RoofData, t: Tables) returns (total: int, breakdown: Breakdown)
    ensures breakdown == BreakdownOf(data, t, CubicMetres)
    ensures total == Round(LiveTotal(breakdown))
  {
    var totalScore := 0.0;
    breakdown := Breakdown(0.0, 0.0, 0.0);

    if data.rooftopAreaSqm.Some? && data.roofType != "" {
      var area := data.rooftopAreaSqm.value;
      var roofType := Find(t.roofTypes, RoofValue, data.roofType);
      if roofType.Some? && area > 0.0 {
        var annualRainfall := 650.0;
        var runoffVolume := area * (annualRainfall / 1000.0) * roofType.value.coefficient;
        var runoffScore := 0;
        if runoffVolume > 100000.0 {
          runoffScore := 25;
        } else if runoffVolume > 50000.0 {
          runoffScore := 20;
        } else if runoffVolume > 20000.0 {
          runoffScore := 15;
        } else if runoffVolume > 10000.0 {
          runoffScore := 10;
        } else {
          runoffScore := 5;
        }
        assert runoffScore == RunoffPointsOf(data, t, CubicMetres);
        breakdown := breakdown.(runoffVolume := runoffScore as real * 0.2);
        totalScore := totalScore + breakdown.runoffVolume;
      }
    }
    assert breakdown.runoffVolume == RunoffContribution(data, t, CubicMetres);
    assert totalScore == breakdown.runoffVolume;

    if data.surroundingLandUse != "" {
      var landUseType := Find(t.landUses, LandUseValue, data.surroundingLandUse);
      if landUseType.Some? {
        breakdown := breakdown.(landUse := landUseType.value.score as real * 0.1);
        totalScore := totalScore + breakdown.landUse;
      }
    }
    assert breakdown.landUse == LandUseContribution(data, t);
    assert totalScore == breakdown.runoffVolume + breakdown.landUse;

    if data.hasBasement.Some? {
      breakdown := breakdown.(basement := if data.hasBasement.value then 2.0 else 0.0);
      totalScore := totalScore + breakdown.basement;
    }

    total := Round(totalScore);
  }

  /** A land-use part is a whole tenth of a score out of 25: either the
      full 2.5 or at most 2.4. */
  lemma LandUseTenths(data: RoofData, t: Tables)
    requires ValidTables(t)
    ensures var l := LandUseContribution(data, t); 0.0 <= l <= 2.4 || l == 2.5
  {
  }

  /** In either unit, on valid lists the rounded score lies in 0..10, and
      it is 10 exactly when every part is at its best: the top runoff band,
      a land use scored 25 and a basement. */
  lemma LiveScoreRange(data: RoofData, t: Tables, u: VolumeUnit)
    requires ValidTables(t)
    ensures 0 <= Round(LiveTotal(BreakdownOf(data, t, u))) <= 10
    ensures Round(LiveTotal(BreakdownOf(data, t, u))) == 10
      <==> RunoffContribution(data, t, u) == 5.0 && LandUseContribution(data, t) == 2.5 && data.hasBasement == Some(true)
  {
    var r := RunoffContribution(data, t, u);
    var l := LandUseContribution(data, t);
    var b := BasementContribution(data);
    LandUseTenths(data, t);
    RoundMonotone(0.0, r + l + b);
    RoundMonotone(r + l + b, 9.5);
    if r + l + b >= 9.5 {
      assert r == 5.0 && l == 2.5 && b == 2.0;
    } else {
      assert r + l + b <= 9.4;
      RoundMonotone(r + l + b, 9.4);
    }
  }

  /** The score as the page computes it, for a form that handleNext lets
      through: a scored runoff part is always exactly 1.0, so the score
      never exceeds 6, and it is 6 exactly when the runoff part is scored,
      the land use is scored 25 and there is a basement. */
  lemma AsWrittenLiveScoreAtMostSix(data: RoofData)
    requires HandleNext(data).None?
    ensures RunoffScored(data, RoofPageTables) ==> RunoffContribution(data, RoofPageTables, CubicMetres) == 1.0
    ensures 0 <= Round(LiveTotal(BreakdownOf(data, RoofPageTables, CubicMetres))) <= 6
    ensures Round(LiveTotal(BreakdownOf(data, RoofPageTables, CubicMetres))) == 6 <==>
      RunoffScored(data, RoofPageTables) && LandUseContribution(data, RoofPageTables) == 2.5 && data.hasBasement == Some(true)
  {
    var t := RoofPageTables;
    RoofPageTablesValid();
    if RunoffScored(data, t) {
      AsWrittenRunoffAlwaysLowest(data.rooftopAreaSqm.value, data.roofType);
    }
    var r := RunoffContribution(data, t, CubicMetres);
    var l := LandUseContribution(data, t);
    var b := BasementContribution(data);
    LandUseTenths(data, t);
    assert r == 0.0 || r == 1.0;
    RoundMonotone(0.0, r + l + b);
    if r + l + b >= 5.5 {
      assert r == 1.0 && l == 2.5 && b == 2.0;
      assert r + l + b == 5.5;
    } else {
      assert r + l + b <= 5.4;
      RoundMonotone(r + l + b, 5.4);
    }
  }

  /** The discrepancy on one form: 100 m² of RCC flat roof next to an open
      park, with a basement, scores 6 as the page computes it and 9 with
      the volume in litres. */
  lemma LiveScoreExample()
    ensures var data := RoofData(Some(100.0), "RCC Flat", "Open Park", Some(true));
      && Round(LiveTotal(BreakdownOf(data, RoofPageTables, CubicMetres))) == 6
      && Round(LiveTotal(BreakdownOf(data, RoofPageTables, Litres))) == 9
  {
    var data := RoofData(Some(100.0), "RCC Flat", "Open Park", Some(true));
    RccFlatOption();
    OpenParkOption();
    assert RunoffPointsOf(data, RoofPageTables, CubicMetres) == 5;
    assert RunoffPointsOf(data, RoofPageTables, Litres) == 20;
  }

  /** The page's option lists resolve the values the examples select. */
  lemma RccFlatOption()
    ensures Find(RoofTypes, RoofValue, "RCC Flat") == Some(RoofTypes[0])
  {
  }

  lemma MetalSheetOption()
    ensures Find(RoofTypes, RoofValue, "Metal Sheet") == Some(RoofTypes[2])
  {
    assert RoofTypes[0].value != "Metal Sheet" && RoofTypes[1].value != "Metal Sheet";
  }

  lemma OpenParkOption()
    ensures Find(SurroundingLandUseTypes, LandUseValue, "Open Park") == Some(SurroundingLandUseTypes[0])
  {
  }

  /** With the volume in litres the page's own lists reach the top score:
      200 m² of metal sheet next to an open park, with a basement, score 10. */
  lemma CorrectedScoreReachesTen()
    ensures var data := RoofData(Some(200.0), "Metal Sheet", "Open Park", Some(true));
      && RunoffContribution(data, RoofPageTables, Litres) == 5.0
      && Round(LiveTotal(BreakdownOf(data, RoofPageTables, Litres))) == 10
  {
    var data := RoofData(Some(200.0), "Metal Sheet", "Open Park", Some(true));
    MetalSheetOption();
    OpenParkOption();
    assert RunoffPointsOf(data, RoofPageTables, Litres) == 25;
  }

  // ---------------------------------------------------------------------------
  // Form checks
  // ---------------------------------------------------------------------------

  /** The alerts handleNext raises, in the order it checks them. */
  datatype RoofFormError =
    | InvalidArea
    | MissingRoofType
    | MissingSurroundingLandUse
    | MissingBasementAnswer
    | AreaUnusuallyLarge

  function AlertText(e: RoofFormError): string
  {
    match e
    case InvalidArea => "Please enter a valid roof area"
    case MissingRoofType => "Please select a roof type"
    case MissingSurroundingLandUse => "Please select the land use of the immediate surrounding area"
    case MissingBasementAnswer => "Please specify if the property has a basement"
    case AreaUnusuallyLarge => "Roof area seems unusually large. Please verify."
  }

  /** handleNext: the first failing check, or `None` when the form may
      move on. */
  function HandleNext(data: RoofData): (r: Option<RoofFormError>)
    ensures r == Some(InvalidArea) <==> data.rooftopAreaSqm.None? || data.rooftopAreaSqm.value <= 0.0
    ensures r == Some(MissingRoofType) <==>
      data.rooftopAreaSqm.Some? && data.rooftopAreaSqm.value > 0.0 && data.roofType == ""
    ensures r == Some(MissingSurroundingLandUse) <==>
      data.rooftopAreaSqm.Some? && data.rooftopAreaSqm.value > 0.0 && data.roofType != ""
      && data.surroundingLandUse == ""
    ensures r == Some(MissingBasementAnswer) <==>
      data.rooftopAreaSqm.Some? && data.rooftopAreaSqm.value > 0.0 && data.roofType != ""
      && data.surroundingLandUse != "" && data.hasBasement.None?
    ensures r == Some(AreaUnusuallyLarge) <==>
      data.rooftopAreaSqm.Some? && data.rooftopAreaSqm.value > 10000.0 && data.roofType != ""
      && data.surroundingLandUse != "" && data.hasBasement.Some?
    ensures r.None? <==>
      data.rooftopAreaSqm.Some? && 0.0 < data.rooftopAreaSqm.value <= 10000.0 && data.roofType != ""
      && data.surroundingLandUse != "" && data.hasBasement.Some?
  {
    if data.rooftopAreaSqm.None? || data.rooftopAreaSqm.value <= 0.0 then Some(InvalidArea)
    else if data.roofType == "" then Some(MissingRoofType)
    else if data.surroundingLandUse == "" then Some(MissingSurroundingLandUse)
    else if data.hasBasement.None? then Some(MissingBasementAnswer)
    else if data.rooftopAreaSqm.value > 10000.0 then Some(AreaUnusuallyLarge)
    else None
  }

  /** A form that moves on with a listed roof type passes the runoff
      calculator's own validation, and its runoff part is scored. */
  lemma AcceptedFormPassesRunoffValidation(data: RoofData)
    requires HandleNext(data).None?
    requires Find(RoofTypes, RoofValue, data.roofType).Some?
    ensures Runoff.ValidateRunoffInputs(data.rooftopAreaSqm.value, data.roofType).isValid
    ensures RunoffScored(data, RoofPageTables)
  {
    FoundRoofType(data.roofType);
  }
}
