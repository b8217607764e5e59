/** The multi-criteria feasibility scorer of lib/scoring.js: a veto check that
    short-circuits everything, six table- or threshold-driven factor scores,
    their weighted sum scaled onto 0..100, the score band and the structure
    recommendation, and the two keyed text catalogues. */
module Scoring {
  import opened Common

  // ---------------------------------------------------------------------------
  // Constant tables
  // ---------------------------------------------------------------------------

  datatype FactorKey = WaterTable | Soil | Geology | LandUse | Slope | RunoffVolume

  /** SCORING_WEIGHTS. */
  function Weight(k: FactorKey): real
  {
    match k
    case WaterTable => 0.2
    case Soil => 0.25
    case Geology => 0.2
    case LandUse => 0.1
    case Slope => 0.05
    case RunoffVolume => 0.2
  }

  /** The order in which the scorer lists its six factors. */
  const FactorOrder: seq<FactorKey> := [WaterTable, Soil, Geology, LandUse, Slope, RunoffVolume]

  function WeightTotal(ks: seq<FactorKey>): real
  {
    if ks == [] then 0.0 else WeightTotal(ks[..|ks| - 1]) + Weight(ks[|ks| - 1])
  }

  lemma WeightsSumToOne()
    ensures WeightTotal(FactorOrder) == 1.0
  {
    var ks := FactorOrder;
    assert ks[..5] == [WaterTable, Soil, Geology, LandUse, Slope];
    assert ks[..5][..4] == [WaterTable, Soil, Geology, LandUse];
    assert ks[..5][..4][..3] == [WaterTable, Soil, Geology];
    assert ks[..5][..4][..3][..2] == [WaterTable, Soil];
    assert ks[..5][..4][..3][..2][..1] == [WaterTable];
    assert [WaterTable][..0] == [];
    assert WeightTotal([WaterTable]) == 0.2;
    assert WeightTotal([WaterTable, Soil]) == 0.45;
    assert WeightTotal([WaterTable, Soil, Geology]) == 0.65;
    assert WeightTotal([WaterTable, Soil, Geology, LandUse]) == 0.75;
    assert WeightTotal([WaterTable, Soil, Geology, LandUse, Slope]) == 0.8;
  }

  /** VETO_CRITERIA. */
  const MinSafetyDistance: real := 15.0
  const MinWaterDepth: real := 3.0

  // ---------------------------------------------------------------------------
  // Data model
  // ---------------------------------------------------------------------------

  /** The assessment record the scorer destructures. A missing or empty text
      field is the empty string: both are falsy and both miss every table. */
  datatype SiteInput = SiteInput(
    waterDepthPostM: real,
    soilClass: string,
    lithoClass: string,
    landUse: string,
    surroundingLandUse: string,
    slopePct: real,
    safetyDistance: real,
    annualRunoffLiters: real)

  /** The displayed raw value of a factor: a number with its unit, or the
      category text itself. */
  datatype RawValue = Measured(amount: real, unit: string) | Category(name: string)

  datatype FactorScore = FactorScore(
    key: FactorKey,
    rawValue: RawValue,
    band: string,
    points: int,
    weight: real,
    weighted: real)

  /** A table row: points and the band label shown with them. */
  datatype Band = Band(points: int, text: string)

  datatype VetoReason = TooCloseToContamination(distance: real) | ShallowWaterTable(depth: real)

  datatype VetoCheck = NoVeto | Veto(reason: VetoReason)

  datatype ScoreLevel = HighlyFeasible | ModeratelyFeasible | MarginallyFeasible | NotRecommended | VetoFail

  datatype Recommendation = NotRecommended | TrenchOnly | TrenchWithWell

  /** The scorer's result object; the vetoed object has no recommendation
      field, which is `None` here. */
  datatype FeasibilityResult = FeasibilityResult(
    isVeto: bool,
    vetoReason: Option<VetoReason>,
    score: int,
    scoreLevel: ScoreLevel,
    factorScores: seq<FactorScore>,
    recommendation: Option<Recommendation>)

  predicate ValidPoints(p: int)
  {
    p == 0 || p == 5 || p == 10 || p == 15 || p == 20 || p == 25
  }

  /** A factor record as every calculate*Score function builds it. */
  predicate WellFormed(f: FactorScore, k: FactorKey)
  {
    f.key == k && ValidPoints(f.points) && f.weight == Weight(k)
    && f.weighted == f.points as real * f.weight
  }

  function MakeFactor(k: FactorKey, raw: RawValue, b: Band): (f: FactorScore)
    requires ValidPoints(b.points)
    ensures WellFormed(f, k) && f.rawValue == raw && f.band == b.text && f.points == b.points
  {
    FactorScore(k, raw, b.text, b.points, Weight(k), b.points as real * Weight(k))
  }

  // ---------------------------------------------------------------------------
  // Veto check
  // ---------------------------------------------------------------------------

  /** checkVetoCriteria: the contamination distance is tested before the
      water-table depth, so at most one reason is reported. */
  function CheckVeto(waterDepth: real, safetyDistance: real): (v: VetoCheck)
    ensures v == Veto(TooCloseToContamination(safetyDistance)) <==> safetyDistance < MinSafetyDistance
    ensures v == Veto(ShallowWaterTable(waterDepth))
            <==> safetyDistance >= MinSafetyDistance && waterDepth < MinWaterDepth
    ensures v == NoVeto <==> safetyDistance >= MinSafetyDistance && waterDepth >= MinWaterDepth
  {
    if safetyDistance < MinSafetyDistance then Veto(TooCloseToContamination(safetyDistance))
    else if waterDepth < MinWaterDepth then Veto(ShallowWaterTable(waterDepth))
    else NoVeto
  }

  lemma VetoPrecedenceExample()
    ensures CheckVeto(2.0, 10.0) == Veto(TooCloseToContamination(10.0))
  {
  }

  // ---------------------------------------------------------------------------
  // The six factor scores
  // ---------------------------------------------------------------------------

  function WaterTableBand(depth: real): (b: Band)
    ensures ValidPoints(b.points)
    ensures b.points == 25 <==> depth > 5.0
    ensures b.points == 15 <==> 3.0 <= depth <= 5.0
    ensures b.points == 0 <==> depth < 3.0
  {
    if depth > 5.0 then Band(25, "Excellent (>5m)")
    else if depth >= 3.0 && depth <= 5.0 then Band(15, "Acceptable (3-5m)")
    else Band(0, "Fail (<3m - High risk)")
  }

  function WaterTableScore(depth: real): (f: FactorScore)
    ensures WellFormed(f, WaterTable) && f.rawValue == Measured(depth, "m")
    ensures f.points == WaterTableBand(depth).points
  {
    MakeFactor(WaterTable, Measured(depth, "m"), WaterTableBand(depth))
  }

  /** A deeper water table never scores lower. */
  lemma WaterTablePointsMonotone(a: real, b: real)
    requires a <= b
    ensures WaterTableBand(a).points <= WaterTableBand(b).points
  {
  }

  const SoilTable: map<string, Band> := map[
    "Sandy" := Band(25, "Excellent (High Infiltration)"),
    "Sandy Loam" := Band(20, "Good (Good Infiltration)"),
    "Loam" := Band(20, "Good (Good Infiltration)"),
    "Silty Loam" := Band(10, "Poor (Moderate Infiltration)"),
    "Silt" := Band(10, "Poor (Moderate Infiltration)"),
    "Clay Loam" := Band(0, "Unsuitable (Very Low Infiltration)"),
    "Clay" := Band(0, "Unsuitable (Very Low Infiltration)")]

  const GeologyTable: map<string, Band> := map[
    "Alluvium" := Band(25, "Excellent (Common in Delhi)"),
    "Sandy Formations" := Band(25, "Excellent for Recharge"),
    "Fractured Rock" := Band(15, "Good"),
    "Quartzite" := Band(15, "Good"),
    "Weathered Rock" := Band(10, "Acceptable"),
    "Sandstone" := Band(15, "Good"),
    "Hard Rock" := Band(0, "Unsuitable (Non-porous)"),
    "Granite" := Band(0, "Unsuitable (Non-porous)")]

  const LandUseTable: map<string, Band> := map[
    "Open Park" := Band(25, "Excellent (Low contamination risk)"),
    "Garden" := Band(25, "Excellent (Low contamination risk)"),
    "Vegetation" := Band(25, "Excellent (Low contamination risk)"),
    "Residential Paving" := Band(15, "Acceptable (Moderate risk)"),
    "Residential" := Band(15, "Acceptable (Moderate risk)"),
    "Heavy Traffic Road" := Band(5, "Poor (High risk)"),
    "Commercial" := Band(5, "Poor (High risk)"),
    "Industrial" := Band(5, "Poor (High risk)"),
    "Mixed" := Band(10, "Moderate")]

  predicate TableHasValidPoints(t: map<string, Band>)
  {
    forall k :: k in t ==> ValidPoints(t[k].points)
  }

  /** A table lookup with the `|| { points: 10, ... }` fallback. */
  function LookupBand(t: map<string, Band>, key: string, fallback: string): (b: Band)
    ensures key in t ==> b == t[key]
    ensures key !in t ==> b == Band(10, fallback)
  {
    if key in t then t[key] else Band(10, fallback)
  }

  function SoilScore(soilClass: string): (f: FactorScore)
    ensures WellFormed(f, Soil) && f.rawValue == Category(soilClass)
    ensures soilClass in SoilTable ==> f.points == SoilTable[soilClass].points
    ensures soilClass !in SoilTable ==> f.points == 10 && f.band == "Unknown"
  {
    assert TableHasValidPoints(SoilTable);
    MakeFactor(Soil, Category(soilClass), LookupBand(SoilTable, soilClass, "Unknown"))
  }

  function GeologyScore(lithoClass: string): (f: FactorScore)
    ensures WellFormed(f, Geology) && f.rawValue == Category(lithoClass)
    ensures lithoClass in GeologyTable ==> f.points == GeologyTable[lithoClass].points
    ensures lithoClass !in GeologyTable ==> f.points == 10 && f.band == "Moderate"
  {
    assert TableHasValidPoints(GeologyTable);
    MakeFactor(Geology, Category(lithoClass), LookupBand(GeologyTable, lithoClass, "Moderate"))
  }

  function LandUseScore(landUse: string): (f: FactorScore)
    ensures WellFormed(f, LandUse) && f.rawValue == Category(landUse)
    ensures landUse in LandUseTable ==> f.points == LandUseTable[landUse].points
    ensures landUse !in LandUseTable ==> f.points == 10 && f.band == "Average"
  {
    assert TableHasValidPoints(LandUseTable);
    MakeFactor(LandUse, Category(landUse), LookupBand(LandUseTable, landUse, "Average"))
  }

  /** `surroundingLandUse || landUse`: the surrounding land use wins when it
      is non-empty. */
  function LandUseKey(input: SiteInput): (k: string)
    ensures input.surroundingLandUse != "" ==> k == input.surroundingLandUse
    ensures input.surroundingLandUse == "" ==> k == input.landUse
  {
    if input.surroundingLandUse != "" then input.surroundingLandUse else input.landUse
  }

  function SlopeBand(slopePct: real): (b: Band)
    ensures ValidPoints(b.points)
    ensures b.points == 25 <==> 0.0 <= slopePct <= 1.0
    ensures b.points == 20 <==> 1.0 < slopePct <= 3.0
    ensures b.points == 10 <==> 3.0 < slopePct <= 5.0
    ensures b.points == 0 <==> slopePct < 0.0 || slopePct > 5.0
  {
    if slopePct >= 0.0 && slopePct <= 1.0 then Band(25, "Excellent (Nearly Flat 0-1%)")
    else if slopePct > 1.0 && slopePct <= 3.0 then Band(20, "Good (Gentle Slope 1-3%)")
    else if slopePct > 3.0 && slopePct <= 5.0 then Band(10, "Acceptable (Moderate Slope 3-5%)")
    else Band(0, "Poor (Steep Slope >5% - High runoff)")
  }

  function SlopeScore(slopePct: real): (f: FactorScore)
    ensures WellFormed(f, Slope) && f.rawValue == Measured(slopePct, "%")
    ensures f.points == SlopeBand(slopePct).points
  {
    MakeFactor(Slope, Measured(slopePct, "%"), SlopeBand(slopePct))
  }

  /** On non-negative slopes a steeper site never scores higher. */
  lemma SlopePointsAntitone(a: real, b: real)
    requires 0.0 <= a <= b
    ensures SlopeBand(b).points <= SlopeBand(a).points
  {
  }

  function RunoffBand(liters: real): (b: Band)
    ensures ValidPoints(b.points)
    ensures b.points == 25 <==> liters > 100000.0
    ensures b.points == 20 <==> 50000.0 <= liters <= 100000.0
    ensures b.points == 15 <==> 20000.0 <= liters < 50000.0
    ensures b.points == 5 <==> liters < 20000.0
  {
    if liters > 100000.0 then Band(25, "Excellent (>100,000 L/year)")
    else if liters >= 50000.0 then Band(20, "Good (50,000-100,000 L/year)")
    else if liters >= 20000.0 then Band(15, "Acceptable (20,000-50,000 L/year)")
    else Band(5, "Low Potential (<20,000 L/year)")
  }

  /** The displayed amount is the rounded volume; its locale formatting is
      not modelled. */
  function RunoffVolumeScore(liters: real): (f: FactorScore)
    ensures WellFormed(f, RunoffVolume) && f.rawValue == Measured(Round(liters) as real, " L/year")
    ensures f.points == RunoffBand(liters).points
  {
    MakeFactor(RunoffVolume, Measured(Round(liters) as real, " L/year"), RunoffBand(liters))
  }

  lemma RunoffPointsMonotone(a: real, b: real)
    requires a <= b
    ensures RunoffBand(a).points <= RunoffBand(b).points
  {
  }

  lemma RunoffBoundaryExample()
    ensures RunoffBand(100000.0).points == 20 && RunoffBand(100000.5).points == 25
  {
  }

  // ---------------------------------------------------------------------------
  // Aggregation
  // ---------------------------------------------------------------------------

  function FactorScores(input: SiteInput): (fs: seq<FactorScore>)
    ensures |fs| == 6
    ensures forall i :: 0 <= i < 6 ==> WellFormed(fs[i], FactorOrder[i])
  {
    [ WaterTableScore(input.waterDepthPostM),
      SoilScore(input.soilClass),
      GeologyScore(input.lithoClass),
      LandUseScore(LandUseKey(input)),
      SlopeScore(input.slopePct),
      RunoffVolumeScore(input.annualRunoffLiters) ]
  }

  function Keys(fs: seq<FactorScore>): (ks: seq<FactorKey>)
    ensures |ks| == |fs| && forall i :: 0 <= i < |fs| ==> ks[i] == fs[i].key
  {
    if fs == [] then [] else Keys(fs[..|fs| - 1]) + [fs[|fs| - 1].key]
  }

  /** Points lie in 0..25 and each weight is its factor's weight. */
  predicate Bounded(fs: seq<FactorScore>)
  {
    forall i :: 0 <= i < |fs| ==> 0 <= fs[i].points <= 25 && fs[i].weight == Weight(fs[i].key)
  }

  /** One factor's contribution to the `reduce`: points * weight. */
  function Term(f: FactorScore): real
  {
    f.points as real * f.weight
  }

  lemma ProductBounds(p: int, w: real)
    requires 0 <= p <= 25 && 0.0 <= w
    ensures 0.0 <= p as real * w <= 25.0 * w
  {
  }

  /** The `reduce` fold: sum of points * weight, left to right. Its value lies
      between 0 and 25 times the total weight of the listed factors. */
  function WeightedSum(fs: seq<FactorScore>): (s: real)
    ensures Bounded(fs) ==> 0.0 <= s <= 25.0 * WeightTotal(Keys(fs))
  {
    if fs == [] then 0.0
    else
      var init := fs[..|fs| - 1];
      var last := fs[|fs| - 1];
      assert Keys(fs)[..|fs| - 1] == Keys(init);
      assert Bounded(fs) ==> Bounded(init) && 0.0 <= Term(last) <= 25.0 * last.weight by {
        if Bounded(fs) {
          ProductBounds(last.points, last.weight);
        }
      }
      WeightedSum(init) + Term(last)
  }

  lemma FactorKeysInOrder(input: SiteInput)
    ensures Keys(FactorScores(input)) == FactorOrder
  {
  }

  /** getScoreLevel. */
  function ScoreLevelOf(score: int): (l: ScoreLevel)
    ensures l != VetoFail
  {
    if score >= 80 then HighlyFeasible
    else if score >= 60 then ModeratelyFeasible
    else if score >= 40 then MarginallyFeasible
    else ScoreLevel.NotRecommended
  }

  /** SCORE_BANDS: the inclusive [min, max] range each level documents. */
  function BandRange(l: ScoreLevel): (int, int)
  {
    match l
    case HighlyFeasible => (80, 100)
    case ModeratelyFeasible => (60, 79)
    case MarginallyFeasible => (40, 59)
    case NotRecommended => (0, 39)
    case VetoFail => (0, 0)
  }

  /** For every score in 0..100, getScoreLevel picks exactly the level whose
      SCORE_BANDS range contains the score. */
  lemma ScoreLevelMatchesBands(score: int, l: ScoreLevel)
    requires 0 <= score <= 100 && l != VetoFail
    ensures ScoreLevelOf(score) == l <==> BandRange(l).0 <= score <= BandRange(l).1
  {
  }

  /** getRecommendation. */
  function GetRecommendation(score: int, waterDepth: real): (r: Recommendation)
    ensures r == Recommendation.NotRecommended <==> score < 40 || waterDepth < 5.0
    ensures r == TrenchOnly <==> score >= 40 && 5.0 <= waterDepth <= 15.0
    ensures r == TrenchWithWell <==> score >= 40 && waterDepth > 15.0
  {
    if score < 40 then Recommendation.NotRecommended
    else if waterDepth < 5.0 then Recommendation.NotRecommended
    else if waterDepth <= 15.0 then TrenchOnly
    else TrenchWithWell
  }

  /** calculateFeasibilityScore. */
  function CalculateFeasibilityScore(input: SiteInput): (r: FeasibilityResult)
    ensures r.isVeto <==> CheckVeto(input.waterDepthPostM, input.safetyDistance).Veto?
    ensures r.isVeto ==>
      && r.vetoReason == Some(CheckVeto(input.waterDepthPostM, input.safetyDistance).reason)
      && r.score == 0 && r.scoreLevel == VetoFail
      && r.factorScores == [] && r.recommendation == None
    ensures !r.isVeto ==>
      && r.vetoReason == None
      && r.factorScores == FactorScores(input)
      && SixFactors(r.factorScores)
      && Keys(r.factorScores) == FactorOrder
      && r.score == FeasibilityPercent(r.factorScores)
      && 0 <= r.score <= 100
      && r.scoreLevel == ScoreLevelOf(r.score)
      && r.recommendation == Some(GetRecommendation(r.score, input.waterDepthPostM))
  {
    var veto := CheckVeto(input.waterDepthPostM, input.safetyDistance);
    if veto.Veto? then
      FeasibilityResult(true, Some(veto.reason), 0, VetoFail, [], None)
    else
      var fs := FactorScores(input);
      FeasibleResult(fs, input.waterDepthPostM)
  }

  /** The scaled score: the weighted sum of the factors (at most 25 for six
      well-formed ones) times four, rounded half up, out of 100. */
  function FeasibilityPercent(fs: seq<FactorScore>): int
  {
    Round(4.0 * WeightedSum(fs))
  }

  /** The result of a site that passes the veto check, from its six factors. */
  function FeasibleResult(fs: seq<FactorScore>, waterDepth: real): (r: FeasibilityResult)
    requires SixFactors(fs)
    ensures !r.isVeto && r.vetoReason == None && r.factorScores == fs
    ensures SixFactors(r.factorScores) && Keys(r.factorScores) == FactorOrder
    ensures r.score == FeasibilityPercent(fs) && 0 <= r.score <= 100
    ensures r.scoreLevel == ScoreLevelOf(r.score)
    ensures r.recommendation == Some(GetRecommendation(r.score, waterDepth))
  {
    SixFactorsFacts(fs);
    var score := FeasibilityPercent(fs);
    FeasibilityResult(false, None, score, ScoreLevelOf(score), fs, Some(GetRecommendation(score, waterDepth)))
  }

  // ---------------------------------------------------------------------------
  // Properties of the aggregate score
  // ---------------------------------------------------------------------------

  /** A list of the six factors in scorer order, each well formed. */
  predicate SixFactors(fs: seq<FactorScore>)
  {
    |fs| == 6 && forall i :: 0 <= i < 6 ==> WellFormed(fs[i], FactorOrder[i])
  }

  /** Six well-formed factors in scorer order carry the weight order's keys,
      and their score out of 100 lies in 0..100. */
  lemma SixFactorsFacts(fs: seq<FactorScore>)
    requires SixFactors(fs)
    ensures Keys(fs) == FactorOrder
    ensures 0 <= Round(4.0 * WeightedSum(fs)) <= 100
  {
    assert Keys(fs) == FactorOrder;
    WeightsSumToOne();
    assert Bounded(fs);
    var total := WeightedSum(fs);
    RoundMonotone(4.0 * total, 100.0);
    RoundMonotone(0.0, 4.0 * total);
  }

  /** The weighted sum of a six-factor list, written out in scorer order. */
  lemma WeightedSumOfSix(fs: seq<FactorScore>)
    requires |fs| == 6
    ensures WeightedSum(fs) == Term(fs[0]) + Term(fs[1]) + Term(fs[2]) + Term(fs[3]) + Term(fs[4]) + Term(fs[5])
  {
    var t := seq(6, i requires 0 <= i < 6 => Term(fs[i]));
    assert fs[..1][..0] == [];
    assert WeightedSum(fs[..1]) == t[0];
    assert fs[..2][..1] == fs[..1];
    assert WeightedSum(fs[..2]) == t[0] + t[1];
    assert fs[..3][..2] == fs[..2];
    assert WeightedSum(fs[..3]) == t[0] + t[1] + t[2];
    assert fs[..4][..3] == fs[..3];
    assert WeightedSum(fs[..4]) == t[0] + t[1] + t[2] + t[3];
    assert fs[..5][..4] == fs[..4];
    assert WeightedSum(fs[..5]) == t[0] + t[1] + t[2] + t[3] + t[4];
    assert fs[..6][..5] == fs[..5];
    assert fs[..6] == fs;
  }

  /** Four times a factor's weight, in points per 5 points scored. */
  function Scale(k: FactorKey): int
  {
    match k
    case WaterTable => 4
    case Soil => 5
    case Geology => 4
    case LandUse => 2
    case Slope => 1
    case RunoffVolume => 4
  }

  lemma ScaledTerm(f: FactorScore, k: FactorKey)
    requires WellFormed(f, k)
    ensures 4.0 * Term(f) == (Scale(k) * (f.points / 5)) as real
  {
  }

  /** Four times the weighted sum, in whole points. */
  function ScaledPoints(fs: seq<FactorScore>): int
    requires |fs| == 6
  {
    4 * (fs[0].points / 5) + 5 * (fs[1].points / 5) + 4 * (fs[2].points / 5)
    + 2 * (fs[3].points / 5) + fs[4].points / 5 + 4 * (fs[5].points / 5)
  }

  lemma WeightedSumExact(fs: seq<FactorScore>)
    requires SixFactors(fs)
    ensures 4.0 * WeightedSum(fs) == ScaledPoints(fs) as real
  {
    WeightedSumOfSix(fs);
    ScaledTerm(fs[0], WaterTable);
    ScaledTerm(fs[1], Soil);
    ScaledTerm(fs[2], Geology);
    ScaledTerm(fs[3], LandUse);
    ScaledTerm(fs[4], Slope);
    ScaledTerm(fs[5], RunoffVolume);
  }

  /** A factor's points are 0 to 5 fifths, and 25 is the only five-fifths value. */
  lemma TopPoints(p: int)
    requires ValidPoints(p)
    ensures 0 <= p / 5 <= 5
    ensures p / 5 == 5 <==> p == 25
  {
  }

  /** For six well-formed factors, the rounded score is the whole number
      `ScaledPoints`, and it is 100 exactly when every factor scores 25. */
  lemma SixFactorScore(fs: seq<FactorScore>)
    requires SixFactors(fs)
    ensures 4.0 * WeightedSum(fs) == ScaledPoints(fs) as real
    ensures Round(4.0 * WeightedSum(fs)) == ScaledPoints(fs)
    ensures ScaledPoints(fs) == 100 <==> forall i :: 0 <= i < 6 ==> fs[i].points == 25
  {
    WeightedSumExact(fs);
    RoundOfInt(ScaledPoints(fs));
    TopPoints(fs[0].points);
    TopPoints(fs[1].points);
    TopPoints(fs[2].points);
    TopPoints(fs[3].points);
    TopPoints(fs[4].points);
    TopPoints(fs[5].points);
  }

  /** Every factor pays a multiple of 5 points and every weight is a
      multiple of 0.05, so `total * 4` is already a whole number: the
      `Math.round` in the scorer never changes the value. */
  lemma ScoreIsExact(input: SiteInput)
    requires !CalculateFeasibilityScore(input).isVeto
    ensures var r := CalculateFeasibilityScore(input);
      SixFactors(r.factorScores) && r.score == ScaledPoints(r.factorScores)
  {
    var r := CalculateFeasibilityScore(input);
    assert SixFactors(r.factorScores);
    SixFactorScore(r.factorScores);
  }

  /** A non-vetoed site reaches 100 exactly when all six factors are at
      their best (25 points). */
  lemma PerfectScoreIffAllFactorsBest(input: SiteInput)
    requires !CalculateFeasibilityScore(input).isVeto
    ensures var r := CalculateFeasibilityScore(input);
      r.score == 100 <==> forall i :: 0 <= i < 6 ==> r.factorScores[i].points == 25
  {
    ScoreIsExact(input);
    SixFactorScore(CalculateFeasibilityScore(input).factorScores);
  }

  /** Raising no factor's points never lowers the score. */
  lemma ScoreMonotone(a: SiteInput, b: SiteInput)
    requires !CalculateFeasibilityScore(a).isVeto && !CalculateFeasibilityScore(b).isVeto
    requires forall i :: 0 <= i < 6 ==>
      CalculateFeasibilityScore(a).factorScores[i].points <= CalculateFeasibilityScore(b).factorScores[i].points
    ensures CalculateFeasibilityScore(a).score <= CalculateFeasibilityScore(b).score
  {
    var fa := CalculateFeasibilityScore(a).factorScores;
    var fb := CalculateFeasibilityScore(b).factorScores;
    ScoreIsExact(a);
    ScoreIsExact(b);
    assert forall i :: 0 <= i < 6 ==> fa[i].points / 5 <= fb[i].points / 5;
  }

  /** The documented end-to-end case: a deep water table under sandy
      alluvium in a park, on flat ground, with a large runoff volume. */
  lemma HighlyFeasibleExample()
    ensures var r := CalculateFeasibilityScore(SiteInput(20.0, "Sandy", "Alluvium", "Residential", "Open Park", 0.5, 25.0, 150000.0));
      !r.isVeto && r.score == 100 && r.scoreLevel == HighlyFeasible && r.recommendation == Some(TrenchWithWell)
  {
    var input := SiteInput(20.0, "Sandy", "Alluvium", "Residential", "Open Park", 0.5, 25.0, 150000.0);
    assert LandUseKey(input) == "Open Park";
    var fs := FactorScores(input);
    assert SoilTable["Sandy"].points == 25 && GeologyTable["Alluvium"].points == 25;
    assert LandUseTable["Open Park"].points == 25;
    assert fs[0].points == 25 && fs[1].points == 25 && fs[2].points == 25;
    assert fs[3].points == 25 && fs[4].points == 25 && fs[5].points == 25;
    SixFactorScore(fs);
  }

  /** A clay site over granite with the worst values that escape the veto
      lands in the lowest band and is not recommended. */
  lemma NotRecommendedExample()
    ensures var r := CalculateFeasibilityScore(SiteInput(3.0, "Clay", "Granite", "Industrial", "", 8.0, 15.0, 1000.0));
      !r.isVeto && r.score == 18 && r.scoreLevel == ScoreLevel.NotRecommended
      && r.recommendation == Some(Recommendation.NotRecommended)
  {
    var input := SiteInput(3.0, "Clay", "Granite", "Industrial", "", 8.0, 15.0, 1000.0);
    assert LandUseKey(input) == "Industrial";
    var fs := FactorScores(input);
    assert SoilTable["Clay"].points == 0 && GeologyTable["Granite"].points == 0;
    assert LandUseTable["Industrial"].points == 5;
    assert fs[0].points == 15 && fs[1].points == 0 && fs[2].points == 0;
    assert fs[3].points == 5 && fs[4].points == 0 && fs[5].points == 5;
    SixFactorScore(fs);
  }

  // ---------------------------------------------------------------------------
  // Text catalogues, keyed by the source's string constants
  // ---------------------------------------------------------------------------

  function RecommendationName(r: Recommendation): string
  {
    match r
    case NotRecommended => "NOT_RECOMMENDED"
    case TrenchOnly => "TRENCH_ONLY"
    case TrenchWithWell => "TRENCH_WITH_WELL"
  }

  function ScoreLevelName(l: ScoreLevel): string
  {
    match l
    case HighlyFeasible => "HIGHLY_FEASIBLE"
    case ModeratelyFeasible => "MODERATELY_FEASIBLE"
    case MarginallyFeasible => "MARGINALLY_FEASIBLE"
    case NotRecommended => "NOT_RECOMMENDED"
    case VetoFail => "VETO_FAIL"
  }

  datatype RecommendationDetails = RecommendationDetails(
    title: string,
    description: string,
    structure: Option<string>,
    dimensions: Option<string>)

  const LowScoreDescription: string :=
    "This site is not recommended for artificial recharge due to poor ground conditions (e.g., clay soil, low runoff). Consider using the harvested water for surface storage or gardening instead."

  /** getRecommendationDetails: an unknown key falls back to the
      NOT_RECOMMENDED entry, whose description depends on the score. */
  function GetRecommendationDetails(key: string, score: int): (d: RecommendationDetails)
    ensures d.structure.Some? <==> key == "TRENCH_ONLY" || key == "TRENCH_WITH_WELL"
    ensures d.structure.Some? <==> d.dimensions.Some?
    ensures key == "VETO_FAIL" ==> d.title == "Not Feasible"
    ensures key !in {"TRENCH_ONLY", "TRENCH_WITH_WELL", "VETO_FAIL"} ==>
      d.title == "Not Recommended" && (d.description == LowScoreDescription <==> score < 40)
  {
    if key == "TRENCH_ONLY" then
      RecommendationDetails("Infiltration Trench",
        "Shallow infiltration system suitable for moderate water table depth",
        Some("Infiltration Trench"), Some("3m \U{D7} 2m \U{D7} 2m"))
    else if key == "TRENCH_WITH_WELL" then
      RecommendationDetails("Trench with Recharge Well",
        "Combined system with deep recharge bore for maximum efficiency",
        Some("Trench + Recharge Well"), Some("3m \U{D7} 2m \U{D7} 2m + 150mm bore"))
    else if key == "VETO_FAIL" then
      RecommendationDetails("Not Feasible",
        "This site is UNSUITABLE for artificial recharge due to critical safety risks",
        None, None)
    else
      RecommendationDetails("Not Recommended",
        if score < 40 then LowScoreDescription
        else "Site conditions are not suitable for rainwater harvesting",
        None, None)
  }

  /** Every non-vetoed result proposes a buildable structure exactly when its
      recommendation is not NOT_RECOMMENDED. */
  lemma RecommendedStructurePresent(input: SiteInput)
    requires !CalculateFeasibilityScore(input).isVeto
    ensures var r := CalculateFeasibilityScore(input);
      GetRecommendationDetails(RecommendationName(r.recommendation.value), r.score).structure.Some?
      <==> r.recommendation.value != Recommendation.NotRecommended
  {
  }

  /** getFeasibilityMessage: five messages; an unknown level gets the
      NOT_RECOMMENDED one. */
  function GetFeasibilityMessage(level: string): (m: string)
    ensures level !in {"HIGHLY_FEASIBLE", "MODERATELY_FEASIBLE", "MARGINALLY_FEASIBLE", "VETO_FAIL"} ==>
      m == LowScoreDescription
  {
    if level == "HIGHLY_FEASIBLE" then
      "Excellent location! This site has a very high potential for successful rainwater harvesting and recharge. Proceed with detailed planning."
    else if level == "MODERATELY_FEASIBLE" then
      "Good location. This site is suitable for rainwater harvesting. Pay attention to soil conditions and ensure proper filtration during construction."
    else if level == "MARGINALLY_FEASIBLE" then
      "This site has some limitations. Recharge may be slow. Consider a smaller system or consult an expert. A detailed site survey is recommended."
    else if level == "VETO_FAIL" then
      "This site is UNSUITABLE for artificial recharge due to critical safety risks (e.g., proximity to contamination / shallow water table)."
    else LowScoreDescription
  }
}
