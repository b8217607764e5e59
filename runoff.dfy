/** Rooftop runoff arithmetic: the rational method with Delhi's rainfall,
    the monthly split of the annual yield, tank sizing, the month-by-month
    water balance and input validation. */
module Runoff {
  import opened Common

  /** Delhi's average annual rainfall, in millimetres. */
  const DelhiAnnualRainfall: real := 650.0

  /** Share of the rainfall that reaches the tank after losses. */
  const CollectionEfficiency: real := 0.85

  /** Fallback coefficient for a roof type missing from the table. */
  const DefaultCoefficient: real := 0.75

  const RoofRunoffCoefficients: map<string, real> := map[
    "RCC Flat" := 0.85,
    "RCC Sloped" := 0.8,
    "Tile" := 0.75,
    "Metal Sheet" := 0.9,
    "Asbestos" := 0.85,
    "Thatch" := 0.4,
    "Mixed" := 0.75
  ]

  /** Monthly share of the annual rainfall, in calendar order. */
  const MonthlyRainfallDistribution: seq<(string, real)> := [
    ("January", 0.02), ("February", 0.03), ("March", 0.02), ("April", 0.01),
    ("May", 0.02), ("June", 0.12), ("July", 0.35), ("August", 0.3),
    ("September", 0.1), ("October", 0.02), ("November", 0.01), ("December", 0.01)
  ]

  predicate CoefficientInRange(c: real)
  {
    0.4 <= c <= 0.9
  }

  lemma CoefficientsInRange()
    ensures forall t :: t in RoofRunoffCoefficients ==> CoefficientInRange(RoofRunoffCoefficients[t])
  {
  }

  /** getRunoffCoefficient: the table's value, or 0.75 for an unknown (or
      zero) entry, as the `||` fallback does. */
  function GetRunoffCoefficient(roofType: string): (c: real)
    ensures roofType in RoofRunoffCoefficients ==> c == RoofRunoffCoefficients[roofType]
    ensures roofType !in RoofRunoffCoefficients ==> c == DefaultCoefficient
    ensures CoefficientInRange(c)
  {
    if roofType in RoofRunoffCoefficients && RoofRunoffCoefficients[roofType] != 0.0
    then RoofRunoffCoefficients[roofType]
    else DefaultCoefficient
  }

  // ---------------------------------------------------------------------
  // Annual runoff
  // ---------------------------------------------------------------------

  datatype AnnualRunoff = AnnualRunoff(
    annualRunoffLiters: int,
    runoffCoeff: real,
    collectionEfficiency: real,
    rooftopAreaSqm: real,
    rainfallMm: real)

  /** Litres collected before rounding: area (m²) × rainfall (m) × runoff
      coefficient × collection efficiency × 1000 L/m³. */
  function RunoffVolume(area: real, rainfallMm: real, coeff: real): real
  {
    area * (rainfallMm / 1000.0) * coeff * CollectionEfficiency * 1000.0
  }

  lemma RunoffVolumeMonotone(a: real, b: real, rainfallMm: real, coeff: real)
    requires 0.0 <= a <= b && 0.0 <= rainfallMm && 0.0 <= coeff
    ensures 0.0 <= RunoffVolume(a, rainfallMm, coeff) <= RunoffVolume(b, rainfallMm, coeff)
  {
    var k := (rainfallMm / 1000.0) * coeff * CollectionEfficiency * 1000.0;
    assert 0.0 <= k;
    assert RunoffVolume(a, rainfallMm, coeff) == a * k;
    assert RunoffVolume(b, rainfallMm, coeff) == b * k;
    assert a * k <= b * k;
  }

  /** calculateAnnualRunoff; the caller passes DelhiAnnualRainfall for the
      default rainfall. The record echoes the inputs and the coefficient. */
  function CalculateAnnualRunoff(rooftopAreaSqm: real, roofType: string, rainfallMm: real): (r: AnnualRunoff)
    ensures r.runoffCoeff == GetRunoffCoefficient(roofType)
    ensures r.collectionEfficiency == 0.85
    ensures r.rooftopAreaSqm == rooftopAreaSqm && r.rainfallMm == rainfallMm
    ensures r.annualRunoffLiters == Round(RunoffVolume(rooftopAreaSqm, rainfallMm, r.runoffCoeff))
    ensures 0.0 <= rooftopAreaSqm && 0.0 <= rainfallMm ==> 0 <= r.annualRunoffLiters
  {
    var coeff := GetRunoffCoefficient(roofType);
    RunoffVolumeMonotone(0.0, if rooftopAreaSqm < 0.0 then 0.0 else rooftopAreaSqm,
                         if rainfallMm < 0.0 then 0.0 else rainfallMm, coeff);
    AnnualRunoff(Round(RunoffVolume(rooftopAreaSqm, rainfallMm, coeff)), coeff,
                 CollectionEfficiency, rooftopAreaSqm, rainfallMm)
  }

  /** A larger roof of the same type never collects less. */
  lemma AnnualRunoffMonotone(a: real, b: real, roofType: string, rainfallMm: real)
    requires 0.0 <= a <= b && 0.0 <= rainfallMm
    ensures CalculateAnnualRunoff(a, roofType, rainfallMm).annualRunoffLiters
         <= CalculateAnnualRunoff(b, roofType, rainfallMm).annualRunoffLiters
  {
    var c := GetRunoffCoefficient(roofType);
    RunoffVolumeMonotone(a, b, rainfallMm, c);
    RoundMonotone(RunoffVolume(a, rainfallMm, c), RunoffVolume(b, rainfallMm, c));
  }

  /** At Delhi's rainfall every square metre of roof yields between
      221 L (thatch) and 497.25 L (metal sheet) a year. */
  lemma AnnualRunoffPerSquareMetre(area: real, roofType: string)
    requires 0.0 <= area
    ensures Round(221.0 * area) <= CalculateAnnualRunoff(area, roofType, DelhiAnnualRainfall).annualRunoffLiters
    ensures CalculateAnnualRunoff(area, roofType, DelhiAnnualRainfall).annualRunoffLiters <= Round(497.25 * area)
  {
    var c := GetRunoffCoefficient(roofType);
    var v := RunoffVolume(area, DelhiAnnualRainfall, c);
    assert v == area * (552.5 * c);
    assert 221.0 <= 552.5 * c <= 497.25;
    assert area * 221.0 <= area * (552.5 * c) <= area * 497.25;
    RoundMonotone(221.0 * area, v);
    RoundMonotone(v, 497.25 * area);
  }

  /** A 100 m² flat concrete roof in Delhi: 46 962.5 L, rounded up. */
  lemma AnnualRunoffExample()
    ensures CalculateAnnualRunoff(100.0, "RCC Flat", DelhiAnnualRainfall).annualRunoffLiters == 46963
    ensures CalculateAnnualRunoff(100.0, "Unknown", DelhiAnnualRainfall).runoffCoeff == 0.75
  {
    assert RunoffVolume(100.0, 650.0, 0.85) == 46962.5;
  }

  // ---------------------------------------------------------------------
  // Monthly distribution
  // ---------------------------------------------------------------------

  function MonthName(k: nat): string
    requires k < |MonthlyRainfallDistribution|
  {
    MonthlyRainfallDistribution[k].0
  }

  function MonthShare(k: nat): real
    requires k < |MonthlyRainfallDistribution|
  {
    MonthlyRainfallDistribution[k].1
  }

  lemma MonthNamesDistinct()
    ensures forall j, k :: 0 <= j < k < |MonthlyRainfallDistribution| ==> MonthName(j) != MonthName(k)
  {
  }

  function Months(): (s: set<string>)
    ensures forall k :: 0 <= k < |MonthlyRainfallDistribution| ==> MonthName(k) in s
    ensures forall m :: m in s ==> exists k :: 0 <= k < |MonthlyRainfallDistribution| && MonthName(k) == m
  {
    set k | 0 <= k < |MonthlyRainfallDistribution| :: MonthName(k)
  }

  lemma TwelveMonths()
    ensures |Months()| == 12
  {
    var i := 0;
    while i < 12
      invariant 0 <= i <= 12
      invariant |MonthsBefore(i)| == i
    {
      MonthsBeforeStep(i);
      MonthNamesDistinct();
      i := i + 1;
    }
  }

  /** The names of the first `i` months. */
  function MonthsBefore(i: nat): set<string>
    requires i <= |MonthlyRainfallDistribution|
  {
    set k | 0 <= k < i :: MonthName(k)
  }

  lemma MonthsBeforeStep(i: nat)
    requires i < |MonthlyRainfallDistribution|
    ensures MonthsBefore(i + 1) == MonthsBefore(i) + {MonthName(i)}
    ensures MonthName(i) !in MonthsBefore(i)
  {
    MonthNamesDistinct();
    forall x | x in MonthsBefore(i + 1)
      ensures x in MonthsBefore(i) + {MonthName(i)}
    {
      var k :| 0 <= k < i + 1 && MonthName(k) == x;
      if k < i {
        assert x in MonthsBefore(i);
      }
    }
  }

  /** Running totals of the shares, month by month. */
  function PrefixShares(k: nat): real
  {
    [0.0, 0.02, 0.05, 0.07, 0.08, 0.10, 0.22, 0.57, 0.87, 0.97, 0.99, 1.00, 1.01]
      [if k <= 12 then k else 12]
  }

  /** Sum of the shares of a prefix of the distribution. */
  function ShareTotal(d: seq<(string, real)>): real
  {
    if d == [] then 0.0 else ShareTotal(d[..|d| - 1]) + d[|d| - 1].1
  }

  /** The twelve shares add up to 1.01, not 1: the months together account
      for one per cent more rain than the year. */
  lemma SharesSumToOnePointZeroOne()
    ensures ShareTotal(MonthlyRainfallDistribution) == 1.01
  {
    var d := MonthlyRainfallDistribution;
    var k := 0;
    while k < |d|
      invariant 0 <= k <= |d|
      invariant ShareTotal(d[..k]) == PrefixShares(k)
    {
      assert d[..k + 1][..k] == d[..k];
      k := k + 1;
    }
    assert d[..12] == d;
  }

  function MonthlyAmount(annualRunoffLiters: real, share: real): int
  {
    Round(annualRunoffLiters * share)
  }

  /** calculateMonthlyRunoff: one entry per month, each the rounded share of
      the annual figure. */
  method CalculateMonthlyRunoff(annualRunoffLiters: real) returns (monthlyRunoff: map<string, int>)
    ensures monthlyRunoff.Keys == Months()
    ensures forall k :: 0 <= k < |MonthlyRainfallDistribution| ==>
      monthlyRunoff[MonthName(k)] == MonthlyAmount(annualRunoffLiters, MonthShare(k))
  {
    MonthNamesDistinct();
    monthlyRunoff := map[];
    var i := 0;
    while i < |MonthlyRainfallDistribution|
      invariant 0 <= i <= |MonthlyRainfallDistribution|
      invariant monthlyRunoff.Keys == MonthsBefore(i)
      invariant forall k :: 0 <= k < i ==>
        monthlyRunoff[MonthName(k)] == MonthlyAmount(annualRunoffLiters, MonthShare(k))
    {
      var (month, percentage) := MonthlyRainfallDistribution[i];
      MonthsBeforeStep(i);
      monthlyRunoff := monthlyRunoff[month := MonthlyAmount(annualRunoffLiters, percentage)];
      i := i + 1;
    }
  }

  /** Sum of the rounded monthly amounts over a prefix of the distribution. */
  function MonthlyTotal(d: seq<(string, real)>, annualRunoffLiters: real): int
  {
    if d == [] then 0
    else MonthlyTotal(d[..|d| - 1], annualRunoffLiters) + MonthlyAmount(annualRunoffLiters, d[|d| - 1].1)
  }

  /** Each month's rounding moves the total by at most half a litre. */
  lemma {:induction false} MonthlyTotalNearShare(d: seq<(string, real)>, a: real)
    ensures a * ShareTotal(d) - 0.5 * |d| as real <= MonthlyTotal(d, a) as real
    ensures MonthlyTotal(d, a) as real <= a * ShareTotal(d) + 0.5 * |d| as real
  {
    if d != [] {
      var init := d[..|d| - 1];
      MonthlyTotalNearShare(init, a);
      assert a * ShareTotal(d) == a * ShareTotal(init) + a * d[|d| - 1].1;
    }
  }

  /** The monthly figures of any annual yield above 600 L add up to more
      than the yield itself. */
  lemma MonthlyTotalsOvercount(annualRunoffLiters: real)
    requires annualRunoffLiters > 600.0
    ensures MonthlyTotal(MonthlyRainfallDistribution, annualRunoffLiters) as real > annualRunoffLiters
  {
    SharesSumToOnePointZeroOne();
    MonthlyTotalNearShare(MonthlyRainfallDistribution, annualRunoffLiters);
  }

  /** July, the wettest month, gets the most runoff. */
  lemma JulyIsWettest(annualRunoffLiters: real, k: nat)
    requires 0.0 <= annualRunoffLiters && k < |MonthlyRainfallDistribution|
    ensures MonthlyAmount(annualRunoffLiters, MonthShare(k)) <= MonthlyAmount(annualRunoffLiters, MonthShare(6))
  {
    assert MonthShare(k) <= 0.35 by {
      assert k == 0 || k == 1 || k == 2 || k == 3 || k == 4 || k == 5 || k == 6
          || k == 7 || k == 8 || k == 9 || k == 10 || k == 11;
    }
    assert annualRunoffLiters * MonthShare(k) <= annualRunoffLiters * 0.35;
    RoundMonotone(annualRunoffLiters * MonthShare(k), annualRunoffLiters * MonthShare(6));
  }

  // ---------------------------------------------------------------------
  // First flush and storage
  // ---------------------------------------------------------------------

  /** The default depth of rain discarded by the first-flush diverter, mm. */
  const DefaultFirstFlushMm: real := 1.5

  /** calculateFirstFlushVolume: litres discarded, area × depth in mm. */
  function CalculateFirstFlushVolume(rooftopAreaSqm: real, firstFlushMm: real): (v: int)
    ensures 0.0 <= rooftopAreaSqm && 0.0 <= firstFlushMm ==> 0 <= v
    ensures rooftopAreaSqm * firstFlushMm - 0.5 < v as real <= rooftopAreaSqm * firstFlushMm + 0.5
  {
    assert 0.0 <= rooftopAreaSqm && 0.0 <= firstFlushMm ==> 0.0 <= rooftopAreaSqm * firstFlushMm;
    Round(rooftopAreaSqm * firstFlushMm)
  }

  /** With the default depth, the first flush never exceeds the year's
      runoff from the same roof at Delhi's rainfall. */
  lemma FirstFlushWithinAnnualRunoff(area: real, roofType: string)
    requires 0.0 <= area
    ensures CalculateFirstFlushVolume(area, DefaultFirstFlushMm)
         <= CalculateAnnualRunoff(area, roofType, DelhiAnnualRainfall).annualRunoffLiters
  {
    AnnualRunoffPerSquareMetre(area, roofType);
    RoundMonotone(area * 1.5, 221.0 * area);
  }

  const DailyNeedPerPerson: real := 150.0
  const StorageDays: int := 20
  const DefaultHouseholdSize: real := 4.0

  datatype TankSize = TankSize(recommendedSize: int, dailyNeed: real, storageDays: int, maxPracticalSize: int)

  /** calculateStorageTankSize: twenty days of household need, capped at 30 %
      of the annual runoff. */
  function CalculateStorageTankSize(annualRunoffLiters: real, householdSize: real): (t: TankSize)
    ensures t.recommendedSize <= t.maxPracticalSize
    ensures t.maxPracticalSize == Round(annualRunoffLiters * 0.3)
    ensures t.recommendedSize <= Round(householdSize * DailyNeedPerPerson * StorageDays as real)
    ensures t.recommendedSize == Round(householdSize * DailyNeedPerPerson * StorageDays as real)
         || t.recommendedSize == t.maxPracticalSize
    ensures t.dailyNeed == householdSize * 150.0 && t.storageDays == 20
  {
    var recommendedStorage := householdSize * DailyNeedPerPerson * StorageDays as real;
    var maxStorage := annualRunoffLiters * 0.3;
    var recommendedSize := Min(recommendedStorage, maxStorage);
    RoundMonotone(recommendedSize, maxStorage);
    RoundMonotone(recommendedSize, recommendedStorage);
    TankSize(Round(recommendedSize), householdSize * DailyNeedPerPerson, StorageDays, Round(maxStorage))
  }

  /** Which limit sets the tank: the household's need when the roof yields
      enough, otherwise 30 % of the yield. */
  lemma TankSizeLimits(annualRunoffLiters: real, householdSize: real)
    ensures householdSize * 3000.0 <= annualRunoffLiters * 0.3 ==>
      CalculateStorageTankSize(annualRunoffLiters, householdSize).recommendedSize == Round(householdSize * 3000.0)
    ensures annualRunoffLiters * 0.3 <= householdSize * 3000.0 ==>
      CalculateStorageTankSize(annualRunoffLiters, householdSize).recommendedSize
        == CalculateStorageTankSize(annualRunoffLiters, householdSize).maxPracticalSize
  {
    assert householdSize * DailyNeedPerPerson * StorageDays as real == householdSize * 3000.0;
  }

  /** A family of four with 46 963 L a year: 12 000 L of need, capped at
      14 089 L, so the need decides. */
  lemma TankSizeExample()
    ensures CalculateStorageTankSize(46963.0, DefaultHouseholdSize)
         == TankSize(12000, 600.0, 20, 14089)
  {
    assert 46963.0 * 0.3 == 14088.9;
  }

  // ---------------------------------------------------------------------
  // Water balance
  // ---------------------------------------------------------------------

  datatype MonthBalance = MonthBalance(runoff: int, consumption: real, surplus: real, deficit: real)

  /** Monthly household use: the given figure when truthy, otherwise
      150 L per person per day over 30 days. A missing figure is passed as 0. */
  function MonthlyConsumption(householdSize: real, monthlyConsumption: real): (c: real)
    ensures monthlyConsumption != 0.0 ==> c == monthlyConsumption
    ensures monthlyConsumption == 0.0 ==> c == householdSize * 4500.0
  {
    if monthlyConsumption != 0.0 then monthlyConsumption else householdSize * DailyNeedPerPerson * 30.0
  }

  /** One month's balance: what is left over, or what is missing, never both. */
  function BalanceOf(runoff: int, consumption: real): (b: MonthBalance)
    ensures b.runoff == runoff && b.consumption == consumption
    ensures 0.0 <= b.surplus && 0.0 <= b.deficit
    ensures b.surplus == 0.0 || b.deficit == 0.0
    ensures b.surplus - b.deficit == runoff as real - consumption
  {
    MonthBalance(runoff, consumption, Max(0.0, runoff as real - consumption), Max(0.0, consumption - runoff as real))
  }

  /** calculateWaterBalance: the monthly runoff set against the household's
      monthly use, month by month. */
  method CalculateWaterBalance(annualRunoffLiters: real, householdSize: real, monthlyConsumption: real)
    returns (balance: map<string, MonthBalance>)
    ensures balance.Keys == Months()
    ensures forall k :: 0 <= k < |MonthlyRainfallDistribution| ==>
      balance[MonthName(k)] == BalanceOf(MonthlyAmount(annualRunoffLiters, MonthShare(k)),
                                         MonthlyConsumption(householdSize, monthlyConsumption))
  {
    var monthlyRunoff := CalculateMonthlyRunoff(annualRunoffLiters);
    MonthNamesDistinct();
    balance := map[];
    var i := 0;
    while i < |MonthlyRainfallDistribution|
      invariant 0 <= i <= |MonthlyRainfallDistribution|
      invariant balance.Keys == MonthsBefore(i)
      invariant forall k :: 0 <= k < i ==>
        balance[MonthName(k)] == BalanceOf(MonthlyAmount(annualRunoffLiters, MonthShare(k)),
                                           MonthlyConsumption(householdSize, monthlyConsumption))
    {
      var month := MonthName(i);
      MonthsBeforeStep(i);
      var runoff := monthlyRunoff[month];
      var consumption := MonthlyConsumption(householdSize, monthlyConsumption);
      balance := balance[month := BalanceOf(runoff, consumption)];
      i := i + 1;
    }
  }

  /** A month whose runoff covers the household's use has no deficit, and
      one whose runoff falls short has no surplus. */
  lemma BalanceSides(runoff: int, consumption: real)
    ensures runoff as real >= consumption ==> BalanceOf(runoff, consumption).deficit == 0.0
    ensures runoff as real >= consumption ==> BalanceOf(runoff, consumption).surplus == runoff as real - consumption
    ensures runoff as real < consumption ==> BalanceOf(runoff, consumption).surplus == 0.0
    ensures runoff as real < consumption ==> BalanceOf(runoff, consumption).deficit == consumption - runoff as real
  {
  }

  // ---------------------------------------------------------------------
  // Validation
  // ---------------------------------------------------------------------

  datatype RunoffError = AreaNotPositive | AreaTooLarge | InvalidRoofType

  function ErrorMessage(e: RunoffError): string
  {
    match e
    case AreaNotPositive => "Rooftop area must be greater than 0"
    case AreaTooLarge => "Rooftop area seems unusually large (>10,000 sqm)"
    case InvalidRoofType => "Invalid roof type selected"
  }

  datatype Validation = Validation(isValid: bool, errors: seq<RunoffError>)

  /** The position of each check in validateRunoffInputs. */
  function CheckOrder(e: RunoffError): int
  {
    match e
    case AreaNotPositive => 0
    case AreaTooLarge => 1
    case InvalidRoofType => 2
  }

  const MaxRooftopAreaSqm: real := 10000.0

  /** validateRunoffInputs; a missing area is passed as 0 and a missing roof
      type as the empty string. Errors are listed in the order checked. */
  function ValidateRunoffInputs(rooftopAreaSqm: real, roofType: string): (v: Validation)
    ensures AreaNotPositive in v.errors <==> rooftopAreaSqm <= 0.0
    ensures AreaTooLarge in v.errors <==> rooftopAreaSqm > MaxRooftopAreaSqm
    ensures InvalidRoofType in v.errors <==> roofType !in RoofRunoffCoefficients
    ensures forall i, j :: 0 <= i < j < |v.errors| ==> CheckOrder(v.errors[i]) < CheckOrder(v.errors[j])
    ensures v.isValid <==> v.errors == []
    ensures |v.errors| <= 2
  {
    var e1: seq<RunoffError> := if rooftopAreaSqm == 0.0 || rooftopAreaSqm <= 0.0 then [AreaNotPositive] else [];
    var e2 := if rooftopAreaSqm > MaxRooftopAreaSqm then e1 + [AreaTooLarge] else e1;
    var known := roofType != "" && roofType in RoofRunoffCoefficients && RoofRunoffCoefficients[roofType] != 0.0;
    var errors := if !known then e2 + [InvalidRoofType] else e2;
    Validation(|errors| == 0, errors)
  }

  /** Inputs that pass validation use the table's own coefficient, and the
      yield at Delhi's rainfall lies between 0 and that of 10 000 m² of
      metal sheet. */
  lemma ValidInputsGiveBoundedRunoff(area: real, roofType: string)
    requires ValidateRunoffInputs(area, roofType).isValid
    ensures GetRunoffCoefficient(roofType) == RoofRunoffCoefficients[roofType]
    ensures 0 <= CalculateAnnualRunoff(area, roofType, DelhiAnnualRainfall).annualRunoffLiters <= 4972500
  {
    AnnualRunoffPerSquareMetre(area, roofType);
    RoundMonotone(497.25 * area, 4972500.0);
    RoundOfInt(4972500);
  }
}
