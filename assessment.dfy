/** The assessment request handler: it validates the request, locates the
    site, derives the safety distance from the four survey answers, builds
    the scorer's input, scores the site and prices it when it is worth
    building on. Persistence is not modelled; `refRates` is the rate card the
    handler reads from the database. */
module Assessment {
  import opened Common
  import Scoring
  import Runoff
  import Geo
  import Cost

  // ---------------------------------------------------------------------------
  // Safety survey
  // ---------------------------------------------------------------------------

  /** Whether each contamination source lies within 15 m of the pit. */
  datatype SafetySurvey = SafetySurvey(
    septicWithin15m: bool,
    sewerWithin15m: bool,
    openDrainWithin15m: bool,
    dumpWithin15m: bool)

  /** The assumed distance to each source: a fixed near distance when it is
      within 15 m, 20 m otherwise. */
  function SafetyDistances(s: SafetySurvey): (ds: seq<real>)
    ensures |ds| == 4
    ensures forall i :: 0 <= i < 4 ==> ds[i] == 20.0 || ds[i] < 20.0
  {
    [ if s.septicWithin15m then 10.0 else 20.0,
      if s.sewerWithin15m then 8.0 else 20.0,
      if s.openDrainWithin15m then 12.0 else 20.0,
      if s.dumpWithin15m then 15.0 else 20.0 ]
  }

  /** `Math.min(...safetyDistances)`. A septic tank, sewer or open drain
      nearby brings the distance under the 15 m veto threshold; a dump
      alone leaves it at exactly 15 m. */
  function MinDistance(s: SafetySurvey): (d: real)
    ensures d == 8.0 || d == 10.0 || d == 12.0 || d == 15.0 || d == 20.0
    ensures d < 15.0 <==> s.septicWithin15m || s.sewerWithin15m || s.openDrainWithin15m
    ensures d == 15.0 <==> s.dumpWithin15m && !s.septicWithin15m && !s.sewerWithin15m && !s.openDrainWithin15m
    ensures d == 20.0 <==> !s.septicWithin15m && !s.sewerWithin15m && !s.openDrainWithin15m && !s.dumpWithin15m
    ensures d == 8.0 <==> s.sewerWithin15m
  {
    var ds := SafetyDistances(s);
    var m := Geo.MinOf(ds);
    assert m <= ds[0] && m <= ds[1] && m <= ds[2] && m <= ds[3];
    var k :| 0 <= k < 4 && ds[k] == m;
    m
  }

  /** The survey alone decides the contamination veto: the scorer vetoes a
      site for nearness exactly when a septic tank, sewer or open drain lies
      within 15 m, whatever the water depth. */
  lemma SurveyDecidesContaminationVeto(s: SafetySurvey, waterDepth: real)
    ensures Scoring.CheckVeto(waterDepth, MinDistance(s)).Veto?
            && Scoring.CheckVeto(waterDepth, MinDistance(s)).reason.TooCloseToContamination?
      <==> s.septicWithin15m || s.sewerWithin15m || s.openDrainWithin15m
    ensures !s.septicWithin15m && !s.sewerWithin15m && !s.openDrainWithin15m ==>
      (Scoring.CheckVeto(waterDepth, MinDistance(s)).Veto? <==> waterDepth < Scoring.MinWaterDepth)
  {
    var d := MinDistance(s);
    var v := Scoring.CheckVeto(waterDepth, d);
    if d < Scoring.MinSafetyDistance {
      assert v == Scoring.Veto(Scoring.TooCloseToContamination(d));
    } else if waterDepth < Scoring.MinWaterDepth {
      assert v == Scoring.Veto(Scoring.ShallowWaterTable(waterDepth));
    } else {
      assert v == Scoring.NoVeto;
    }
  }

  // ---------------------------------------------------------------------------
  // The request
  // ---------------------------------------------------------------------------

  /** The property part of the request body. A missing number is 0 and a
      missing text is "", as both are falsy in the handler's checks. */
  datatype Property = Property(
    rooftopAreaSqm: real,
    roofType: string,
    lat: real,
    lon: real,
    pincode: int,
    landUse: string,
    surroundingLandUse: string)

  /** The 400 answers in the order the handler tests them, and the 500 answer
      every exception thrown while handling (here: pricing a roof without a
      BOQ template) ends in. */
  datatype RequestError =
    | MissingPropertyInformation
    | SafetySurveyRequired
    | UnknownLocation
    | CreationFailed

  function ErrorMessage(e: RequestError): string
  {
    match e
    case MissingPropertyInformation => "Missing required property information"
    case SafetySurveyRequired => "Safety survey is required"
    case UnknownLocation => "Unable to determine location characteristics"
    case CreationFailed => "Failed to create assessment"
  }

  /** `!area || !roofType || !lat || !lon`: a zero or absent field counts as
      missing (a negative area does not). */
  predicate HasRequiredFields(p: Property)
  {
    p.rooftopAreaSqm != 0.0 && p.roofType != "" && p.lat != 0.0 && p.lon != 0.0
  }

  /** The default slope assumed for every Delhi site, in percent. */
  const DelhiSlopePct: real := 2.0

  /** The scorer's input as the handler assembles it from the property, the
      district's geology, the survey distance and the annual runoff at the
      default rainfall. */
  function AssessmentData(p: Property, g: Geo.Geology, minDistanceM: real): (input: Scoring.SiteInput)
    ensures input.waterDepthPostM == g.waterDepth
    ensures input.soilClass == g.soilClass && input.lithoClass == g.lithoClass
    ensures input.landUse != ""
    ensures p.landUse != "" ==> input.landUse == p.landUse
    ensures input.surroundingLandUse == p.surroundingLandUse
    ensures input.safetyDistance == minDistanceM
    ensures input.annualRunoffLiters
      == Runoff.CalculateAnnualRunoff(p.rooftopAreaSqm, p.roofType, Runoff.DelhiAnnualRainfall).annualRunoffLiters as real
  {
    var runoff := Runoff.CalculateAnnualRunoff(p.rooftopAreaSqm, p.roofType, Runoff.DelhiAnnualRainfall);
    Scoring.SiteInput(
      g.waterDepth,
      g.soilClass,
      g.lithoClass,
      if p.landUse != "" then p.landUse else "Residential",
      p.surroundingLandUse,
      DelhiSlopePct,
      minDistanceM,
      runoff.annualRunoffLiters as real)
  }

  /** The land-use factor is scored on the surrounding land use when the
      request gives one, otherwise on the property's own, and on
      "Residential" when it gives neither; the slope factor always scores
      the 20 points of a gentle slope. */
  lemma AssessmentDataFactors(p: Property, g: Geo.Geology, minDistanceM: real)
    ensures var input := AssessmentData(p, g, minDistanceM);
      Scoring.LandUseKey(input)
        == (if p.surroundingLandUse != "" then p.surroundingLandUse
            else if p.landUse != "" then p.landUse else "Residential")
    ensures Scoring.SlopeScore(AssessmentData(p, g, minDistanceM).slopePct).points == 20
  {
  }

  /** `waterDepth > 15 ? "Deep" : waterDepth > 5 ? "Moderate" : "Shallow"`. */
  function DepthBand(waterDepth: real): (b: string)
    ensures b == "Deep" <==> waterDepth > 15.0
    ensures b == "Moderate" <==> 5.0 < waterDepth <= 15.0
    ensures b == "Shallow" <==> waterDepth <= 5.0
  {
    if waterDepth > 15.0 then "Deep" else if waterDepth > 5.0 then "Moderate" else "Shallow"
  }

  /** The stored band and the recommendation agree on the deep side (a
      well is recommended only for a "Deep" site), but at exactly 5 m the
      band says "Shallow" while the recommender, whose cut is `< 5`, still
      recommends a trench. */
  lemma DepthBandAgainstRecommendation(score: int, waterDepth: real)
    requires score >= 40
    ensures Scoring.GetRecommendation(score, waterDepth) == Scoring.TrenchWithWell
      <==> DepthBand(waterDepth) == "Deep"
    ensures DepthBand(5.0) == "Shallow" && Scoring.GetRecommendation(score, 5.0) == Scoring.TrenchOnly
  {
  }

  /** The stored survey result. */
  function SurveyResult(r: Scoring.FeasibilityResult): (s: string)
    ensures s == "FAIL" <==> r.isVeto
    ensures s == "PASS" <==> !r.isVeto
  {
    if r.isVeto then "FAIL" else "PASS"
  }

  /** Whether the handler prices the site. */
  predicate ShouldEstimateCost(r: Scoring.FeasibilityResult)
  {
    !r.isVeto && r.score >= 40
  }

  /** What the handler stores, without the database identifiers. */
  datatype Assessment = Assessment(
    districtInfo: Geo.DistrictInfo,
    geology: Geo.Geology,
    minDistanceM: real,
    runoff: Runoff.AnnualRunoff,
    scoring: Scoring.FeasibilityResult,
    costEstimate: Option<Cost.Estimate>,
    surveyResult: string,
    depthBand: string)

  datatype Outcome = Rejected(error: RequestError) | Assessed(assessment: Assessment)

  /** The handler, from the request body to the stored assessment. A
      request that passes the three checks and is priced on a roof area with
      no BOQ template throws, and the handler answers with its 500 error. */
  function CreateAssessment(p: Property, survey: Option<SafetySurvey>, refRates: seq<Cost.RefRate>): (o: Outcome)
    ensures o == Rejected(MissingPropertyInformation) <==> !HasRequiredFields(p)
    ensures o == Rejected(SafetySurveyRequired) <==> HasRequiredFields(p) && survey.None?
    ensures o == Rejected(UnknownLocation) <==>
      && HasRequiredFields(p) && survey.Some?
      && p.pincode !in Geo.PincodeToDistrict && !Geo.IsWithinDelhi(p.lat, p.lon)
    ensures o == Rejected(CreationFailed) ==> p.rooftopAreaSqm < 0.0 || p.rooftopAreaSqm > 10000.0
    ensures o.Assessed? ==>
      var a := o.assessment;
      && survey.Some?
      && Geo.GetDistrictInfo(p.lat, p.lon, p.pincode) == Some(a.districtInfo)
      && Geo.GetGeologicalInfo(a.districtInfo.district) == Some(a.geology)
      && a.minDistanceM == MinDistance(survey.value)
      && a.runoff == Runoff.CalculateAnnualRunoff(p.rooftopAreaSqm, p.roofType, Runoff.DelhiAnnualRainfall)
      && a.scoring == Scoring.CalculateFeasibilityScore(AssessmentData(p, a.geology, a.minDistanceM))
      && (a.costEstimate.Some? <==> ShouldEstimateCost(a.scoring))
      && (a.costEstimate.Some? ==>
            a.scoring.recommendation.Some?
            && Cost.EstimateSpec(p.rooftopAreaSqm, Scoring.RecommendationName(a.scoring.recommendation.value), refRates)
               == Cost.Success(a.costEstimate.value))
      && a.surveyResult == SurveyResult(a.scoring)
      && a.depthBand == DepthBand(a.geology.waterDepth)
  {
    if !HasRequiredFields(p) then Rejected(MissingPropertyInformation)
    else if survey.None? then Rejected(SafetySurveyRequired)
    else
      var info := Geo.GetDistrictInfo(p.lat, p.lon, p.pincode);
      if info.None? then Rejected(UnknownLocation)
      else
        var geology := Geo.GetGeologicalInfo(info.value.district);
        if geology.None? then Rejected(UnknownLocation)
        else
          var minDistanceM := MinDistance(survey.value);
          var runoff := Runoff.CalculateAnnualRunoff(p.rooftopAreaSqm, p.roofType, Runoff.DelhiAnnualRainfall);
          var scoring := Scoring.CalculateFeasibilityScore(AssessmentData(p, geology.value, minDistanceM));
          if ShouldEstimateCost(scoring) then
            match Cost.EstimateSpec(p.rooftopAreaSqm, Scoring.RecommendationName(scoring.recommendation.value), refRates)
            case Failure(_) =>
              Cost.EstimateFailsOnlyWithoutTemplate(p.rooftopAreaSqm, Scoring.RecommendationName(scoring.recommendation.value), refRates);
              Rejected(CreationFailed)
            case Success(estimate) =>
              Assessed(Assessment(info.value, geology.value, minDistanceM, runoff, scoring, Some(estimate),
                                  SurveyResult(scoring), DepthBand(geology.value.waterDepth)))
          else
            Assessed(Assessment(info.value, geology.value, minDistanceM, runoff, scoring, None,
                                SurveyResult(scoring), DepthBand(geology.value.waterDepth)))
  }

  /** Every located request on a roof the BOQ templates cover is assessed. */
  lemma CoveredRoofsAreAssessed(p: Property, survey: SafetySurvey, refRates: seq<Cost.RefRate>)
    requires HasRequiredFields(p)
    requires p.pincode in Geo.PincodeToDistrict || Geo.IsWithinDelhi(p.lat, p.lon)
    requires 0.0 <= p.rooftopAreaSqm <= 10000.0
    ensures CreateAssessment(p, Some(survey), refRates).Assessed?
  {
  }

  /** Every Delhi district has at least 5 m of water table, so the depth
      veto never fires: a site is vetoed exactly when the survey puts a
      septic tank, sewer or open drain within 15 m. */
  lemma OnlyTheSurveyVetoes(p: Property, survey: SafetySurvey, refRates: seq<Cost.RefRate>)
    requires CreateAssessment(p, Some(survey), refRates).Assessed?
    ensures CreateAssessment(p, Some(survey), refRates).assessment.scoring.isVeto
      <==> survey.septicWithin15m || survey.sewerWithin15m || survey.openDrainWithin15m
    ensures CreateAssessment(p, Some(survey), refRates).assessment.surveyResult == "FAIL"
      <==> survey.septicWithin15m || survey.sewerWithin15m || survey.openDrainWithin15m
  {
    var a := CreateAssessment(p, Some(survey), refRates).assessment;
    SurveyDecidesContaminationVeto(survey, a.geology.waterDepth);
  }

  /** A priced site is never one the scorer advises against: the score
      gate is the recommender's own cut, and no district is shallower than
      the 5 m below which it refuses a structure. */
  lemma PricedSitesGetAStructure(p: Property, survey: SafetySurvey, refRates: seq<Cost.RefRate>)
    requires CreateAssessment(p, Some(survey), refRates).Assessed?
    requires CreateAssessment(p, Some(survey), refRates).assessment.costEstimate.Some?
    ensures var a := CreateAssessment(p, Some(survey), refRates).assessment;
      && !a.scoring.isVeto && a.scoring.score >= 40
      && a.scoring.recommendation.Some?
      && a.scoring.recommendation.value != Scoring.Recommendation.NotRecommended
      && (a.scoring.recommendation.value == Scoring.TrenchWithWell <==> a.depthBand == "Deep")
  {
  }

  /** A request on a roof of "-10" m²: RCC, at New Delhi's pincode 110003,
      with a clean survey. */
  const NegativeAreaSite := Property(-10.0, "RCC Flat", 28.6, 77.2, 110003, "", "")
  const CleanSurvey := SafetySurvey(false, false, false, false)
  const NewDelhiGeology := Geo.Geology("Alluvium", "Sandy", 18.0)

  /** The site is located in New Delhi and the survey puts every source at
      20 m. */
  lemma NegativeAreaSiteLocated()
    ensures Geo.GetDistrictInfo(NegativeAreaSite.lat, NegativeAreaSite.lon, NegativeAreaSite.pincode).Some?
    ensures Geo.GetDistrictInfo(NegativeAreaSite.lat, NegativeAreaSite.lon, NegativeAreaSite.pincode).value.district
      == "New Delhi"
    ensures Geo.GetGeologicalInfo("New Delhi") == Some(NewDelhiGeology)
    ensures MinDistance(CleanSurvey) == 20.0
  {
    assert Geo.PincodeToDistrict[110003] == "New Delhi";
  }

  /** The scoring input of the site: the New Delhi geology, the default
      residential land use, the Delhi slope, and a negative annual runoff. */
  lemma NegativeAreaInput()
    ensures var input := AssessmentData(NegativeAreaSite, NewDelhiGeology, 20.0);
      && input == NewDelhiResidential(input.annualRunoffLiters)
      && input.annualRunoffLiters < 0.0
  {
    var input := AssessmentData(NegativeAreaSite, NewDelhiGeology, 20.0);
    assert input.annualRunoffLiters < 0.0;
  }

  /** A residential New Delhi site on sandy alluvium with the gentle Delhi
      slope, 20 m from the nearest hazard, with the given annual runoff. */
  function NewDelhiResidential(runoffLiters: real): Scoring.SiteInput
  {
    Scoring.SiteInput(18.0, "Sandy", "Alluvium", "Residential", "", DelhiSlopePct, 20.0, runoffLiters)
  }

  /** The table factors of a residential site on sandy alluvium: 25 for
      the soil, 25 for the geology, 15 for the land use. */
  lemma NewDelhiTablePoints()
    ensures Scoring.SoilScore("Sandy").points == 25
    ensures Scoring.GeologyScore("Alluvium").points == 25
    ensures Scoring.LandUseScore("Residential").points == 15
  {
    assert Scoring.SoilTable["Sandy"].points == 25 && Scoring.GeologyTable["Alluvium"].points == 25;
    assert Scoring.LandUseTable["Residential"].points == 15;
  }

  /** The banded factors of an 18 m water table, the Delhi slope and a
      negative runoff: 25, 20 and the lowest 5. */
  lemma NewDelhiBandPoints(runoffLiters: real)
    requires runoffLiters < 0.0
    ensures Scoring.WaterTableScore(18.0).points == 25
    ensures Scoring.SlopeScore(DelhiSlopePct).points == 20
    ensures Scoring.RunoffVolumeScore(runoffLiters).points == 5
  {
  }

  /** Such a site with a negative runoff scores 79: the runoff factor
      still gets its lowest 5 points, so the site is priced. */
  lemma NegativeRunoffScores(runoffLiters: real)
    requires runoffLiters < 0.0
    ensures var r := Scoring.CalculateFeasibilityScore(NewDelhiResidential(runoffLiters));
      !r.isVeto && r.score == 79 && ShouldEstimateCost(r)
  {
    NewDelhiTablePoints();
    NewDelhiBandPoints(runoffLiters);
    var fs := Scoring.FactorScores(NewDelhiResidential(runoffLiters));
    Scoring.SixFactorScore(fs);
    assert Scoring.ScaledPoints(fs) == 79;
  }

  /** The site scores 79 although its runoff is negative. */
  lemma NegativeAreaSiteScores()
    ensures var r := Scoring.CalculateFeasibilityScore(AssessmentData(NegativeAreaSite, NewDelhiGeology, 20.0));
      !r.isVeto && r.score == 79 && ShouldEstimateCost(r)
  {
    NegativeAreaInput();
    NegativeRunoffScores(AssessmentData(NegativeAreaSite, NewDelhiGeology, 20.0).annualRunoffLiters);
  }

  /** A negative area passes the field check (it is not falsy) and need not
      keep the site below the pricing gate, so the site above is priced,
      pricing finds no BOQ template, and the request ends in the 500
      answer. */
  lemma NegativeAreaFailsCreation(refRates: seq<Cost.RefRate>)
    ensures CreateAssessment(NegativeAreaSite, Some(CleanSurvey), refRates) == Rejected(CreationFailed)
  {
    var o := CreateAssessment(NegativeAreaSite, Some(CleanSurvey), refRates);
    NegativeAreaSiteLocated();
    NegativeAreaSiteScores();
    assert NegativeAreaSite.pincode in Geo.PincodeToDistrict by {
      assert Geo.PincodeToDistrict[110003] == "New Delhi";
    }
    if o.Assessed? {
      var a := o.assessment;
      assert a.geology == NewDelhiGeology && a.minDistanceM == 20.0;
      assert a.costEstimate.Some?;
      Cost.EstimateFailsOnlyWithoutTemplate(-10.0, Scoring.RecommendationName(a.scoring.recommendation.value), refRates);
      assert false;
    }
    assert o.error != MissingPropertyInformation && o.error != SafetySurveyRequired && o.error != UnknownLocation;
  }
}
