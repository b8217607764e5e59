# SIH-RTRWH feasibility core in Dafny

This project models the computational core of a rooftop rainwater harvesting
(RTRWH) assessment tool for Delhi, and proves properties of that model. A
household describes its roof, its location and its surroundings. The tool then:

- finds the district, the geology and the depth to groundwater for the location;
- estimates the annual roof runoff;
- applies two veto rules (contamination too close, water table too shallow);
- scores the site on six weighted factors and recommends a recharge structure;
- prices that structure from a bill of quantities and a rate card;
- compares Delhi Jal Board (DJB) water bills with and without harvesting.

There is one module per source file of the core:

| module | source | flavour |
|---|---|---|
| `Common` | (shared) | `Option`, `Math.round` as `Round`, `Min`/`Max`, substring search |
| `Scoring` | lib/scoring.js | pure: veto, six factor scores, weighted score, bands, recommendation |
| `Djb` | lib/djb.js | mixed: the slab-tariff loop is a method checked against a bill function |
| `Cost` | lib/cost.js | mixed: template search and pricing loops are methods checked against functions |
| `Runoff` | lib/runoff.js | mixed: the monthly loops are methods producing maps |
| `Geo` | lib/geo.js | pure: district lookup, geology, coordinate checks, address text, slope |
| `DelhiGeo` | lib/delhi-geo.js | pure: the larger pincode table and the second geology table |
| `Assessment` | src/app/api/assessments/route.js | pure: the POST pipeline from request to stored assessment |
| `Location` | app/assess/location/page.jsx | mixed: district and pincode detection loops |
| `LiveScore` | src/app/assess/roof/page.jsx, components/roof-page-client.jsx | mixed: the live preview score and the form checks |

Modelling conventions:

- JavaScript numbers are Dafny `real`s, which are exact. `Math.round(x)` is `Common.Round(x) = Floor(x + 0.5)`.
- A falsy input is written as its falsy value: `0` for a missing number and `""` for a missing string. The one exception is the area given to `validateCostInputs`: there `undefined`, `null` and 0 behave differently, so `Cost.AreaArg` keeps all three apart.
- `null` is `Option.None`. The unanswered basement question is `None`.
- Pincodes are `int`s. Every pincode in the source tables is a canonical six-digit numeral, and `0` stands for "no pincode".
- The rate card read from the database, and the distance function used by the location page, are parameters.
- Where two copies of a function are identical, they are modelled once:
  - the coordinate checks, address formatting and slope in lib/geo.js and lib/delhi-geo.js;
  - the live score in the roof page and the client component.

Where the code and its own comments disagree, the model follows the code:

- The comment at lib/djb.js:85 says that above 20 kL the entire consumption is charged, with no free portion. The loop at lib/djb.js:86-114 still bills the first 20 kL at slab 1's zero rate, and `Djb.BillSpec` models the loop.
- lib/delhi-geo.js lists some pincodes under two districts. It is an object literal, so the later listing wins. `DelhiGeo.RepeatedPincodesTakeLastDistrict` states which district keeps each repeated pincode.

## Model

| member | source | states |
|---|---|---|
| Scoring.WeightsSumToOne | lib/scoring.js:7-14 | the six factor weights sum to exactly 1 |
| Scoring.CheckVeto | lib/scoring.js:84-100 | a contamination veto iff the distance is below 15 m; otherwise a water-table veto iff the depth is below 3 m; no veto iff neither holds |
| Scoring.VetoPrecedenceExample | lib/scoring.js:84-100 | when both rules fail, the contamination reason is the one reported |
| Scoring.WaterTableBand | lib/scoring.js:102-125 | 25 points iff the depth is above 5 m; 15 iff 3-5 m; 0 iff below 3 m |
| Scoring.WaterTableScore | lib/scoring.js:102-125 | a well-formed water-table factor carrying the depth in metres and the band's points |
| Scoring.WaterTablePointsMonotone | lib/scoring.js:102-125 | a deeper water table never scores fewer points |
| Scoring.LookupBand | lib/scoring.js:127-197 | a table key gives its band; a missing key gives 10 points with the fallback label |
| Scoring.SoilScore | lib/scoring.js:127-148 | a listed soil gets its table points; an unlisted soil gets 10 points, labelled "Unknown" |
| Scoring.GeologyScore | lib/scoring.js:150-172 | a listed lithology gets its table points; otherwise 10 points, labelled "Moderate" |
| Scoring.LandUseScore | lib/scoring.js:174-197 | a listed land use gets its table points; otherwise 10 points, labelled "Average" |
| Scoring.LandUseKey | lib/scoring.js:60 | the surrounding land use is scored when it is present; otherwise the property's own land use |
| Scoring.SlopeBand | lib/scoring.js:199-225 | 25/20/10 points for slopes in [0,1], (1,3] and (3,5]; 0 for a negative slope or one above 5 % |
| Scoring.SlopeScore | lib/scoring.js:199-225 | a well-formed slope factor in percent with the band's points |
| Scoring.SlopePointsAntitone | lib/scoring.js:199-225 | for non-negative slopes, a steeper roof never scores more points |
| Scoring.RunoffBand | lib/scoring.js:227-253 | 25 iff above 100000 L; 20 iff 50000-100000 L; 15 iff 20000-50000 L; 5 below 20000 L |
| Scoring.RunoffVolumeScore | lib/scoring.js:227-253 | a well-formed runoff factor whose raw value is the rounded litres |
| Scoring.RunoffPointsMonotone | lib/scoring.js:227-253 | more runoff never scores fewer points |
| Scoring.RunoffBoundaryExample | lib/scoring.js:227-253 | exactly 100000 L is in the 20-point band, and 100000.5 L is in the 25-point band |
| Scoring.FactorScores | lib/scoring.js:56-63 | six factors, each well formed for its key in the fixed order |
| Scoring.FactorKeysInOrder | lib/scoring.js:56-63 | the factor keys are exactly the weight order |
| Scoring.WeightedSum | lib/scoring.js:65-68 | for factors of 0-25 points, the weighted sum is between 0 and 25 times the total weight |
| Scoring.ScoreLevelMatchesBands | lib/scoring.js:255-260 | a 0-100 score gets a level iff the score lies in that level's band |
| Scoring.GetRecommendation | lib/scoring.js:262-272 | not recommended iff the score is below 40 or the depth below 5 m; trench only iff the depth is 5-15 m; trench with well iff deeper |
| Scoring.CalculateFeasibilityScore | lib/scoring.js:32-82 | a veto gives score 0, level VETO_FAIL, no factors and no recommendation; otherwise six factors, score = round(4 × weighted sum) in 0..100, the level for that score and the recommendation |
| Scoring.FeasibleResult | lib/scoring.js:66-81 | a site past the veto keeps its six factors in weight order, scores round(4 × weighted sum) in 0..100, and gets the level and recommendation for that score |
| Scoring.SixFactorsFacts | lib/scoring.js:66-71 | six well-formed factors carry the weight order's keys and scale to a score in 0..100 |
| Scoring.SixFactorScore | lib/scoring.js:65-71 | for six well-formed factors, 4 × the weighted sum is already a whole number, so rounding leaves it unchanged; it is 100 iff every factor scores 25 |
| Scoring.ScoreIsExact | lib/scoring.js:65-71 | a non-vetoed score is exactly that whole number for its six factors |
| Scoring.PerfectScoreIffAllFactorsBest | lib/scoring.js:65-71 | the score is 100 iff every factor scores 25 |
| Scoring.ScoreMonotone | lib/scoring.js:65-71 | raising any factor's points never lowers the score |
| Scoring.HighlyFeasibleExample | lib/scoring.js:32-82 | an ideal site scores 100, is highly feasible and gets a trench with a well |
| Scoring.NotRecommendedExample | lib/scoring.js:32-82 | a clay, granite, industrial site scores 18 and is not recommended |
| Scoring.GetRecommendationDetails | lib/scoring.js:274-306 | a structure and its dimensions exactly for the two trench keys; "Not Feasible" for a veto; otherwise "Not Recommended", with the low-score text iff the score is below 40 |
| Scoring.RecommendedStructurePresent | lib/scoring.js:274-306 | a non-vetoed result has structure details iff its recommendation is not NOT_RECOMMENDED |
| Scoring.GetFeasibilityMessage | lib/scoring.js:308-323 | an unknown level falls back to the low-score message |
| Djb.SlabsContiguous | lib/djb.js:7-48 | five slabs numbered 1-5, from 0 kL to the open end, each starting where the last ends |
| Djb.CalculateDJBBill | lib/djb.js:53-128 | the loop's bill equals the slab-by-slab bill function |
| Djb.SlabReached | lib/djb.js:90-94 | a slab the loop visits with consumption left lies below the consumption, all of the consumption above its start remains, it adds its line, and every slab after the first carries the 280 service charge and the 0.6 sewer rate |
| Djb.SlabBilled | lib/djb.js:94-106 | billing a reached slab its overlap gives the slab's detail line and leaves the consumption above the slab's end |
| Djb.LoopBill | lib/djb.js:115-127 | the loop's final totals, rounded, give the bill function's bill |
| Djb.LinesAboveAllowance | lib/djb.js:86-114 | above 20 kL the bill lists slabs 1 and 2, plus slab 3, 4 or 5 for each threshold (30, 50, 100 kL) that is exceeded |
| Djb.WaterChargeMatchesTariff | lib/djb.js:86-117 | the summed slab charges equal the closed-form piecewise tariff |
| Djb.TariffFormulaMonotone | lib/djb.js:86-117 | the tariff never decreases with consumption |
| Djb.ConsumptionIsConserved | lib/djb.js:86-114 | the slab lines account for all the consumption, up to the open end |
| Djb.FirstSlabStaysFree | lib/djb.js:86-114 | above the allowance, the first line is 20 kL at zero cost |
| Djb.TotalBillMonotone | lib/djb.js:53-128 | using more water never lowers the total bill |
| Djb.ChargeCliffAtAllowance | lib/djb.js:53-128 | up to 20 kL the bill is 0; above it the bill is at least 280 |
| Djb.BillExample25 | lib/djb.js:53-128 | the full bill for 25 kL |
| Djb.BillComparison | lib/djb.js:133-151 | the need and supply echoed back, the bills with and without harvesting, where the DJB draw is max(0, need − supply), and the savings between them |
| Djb.SavingsNonNegative | lib/djb.js:133-151 | with a non-negative supply, the savings are between 0 and the original bill, and equal to it when the supply covers the need |
| Djb.CalculateAnnualSavings | lib/djb.js:156-177 | the annual total, its rounded monthly average and one entry per month |
| Djb.SteadySavings | lib/djb.js:156-177 | twelve equal months average back to the monthly figure |
| Djb.SavingsSumNonNegative | lib/djb.js:156-177 | non-negative months give a non-negative year |
| Djb.BillScenarios | lib/djb.js:182-215 | the three named scenarios in order: current usage and its bill, harvesting, and harvesting with 20 % less consumption, each with its consumption, supply, DJB draw and bill |
| Djb.ScenariosCheaperInOrder | lib/djb.js:182-215 | each scenario costs no more than the one before it |
| Djb.GetTariffSlabInfo | lib/djb.js:220-245 | up to 20 kL, the free slab; above it, the slab containing the consumption, or none beyond the open end |
| Djb.LastLineIsCurrentSlab | lib/djb.js:220-245 | the bill's last line is the slab that the slab-info lookup returns |
| Djb.ValidateDJBInputs | lib/djb.js:250-273 | each error iff its condition, listed in the order of the checks; valid iff there are no errors |
| Djb.ValidInputsCompareSensibly | lib/djb.js:250-273 | valid inputs give a draw within 0..consumption and savings within 0..the bill |
| Cost.Items | lib/cost.js:7-76 | every template lists the same ten item codes with its own quantities |
| Cost.FirstTemplate | lib/cost.js:182-189 | the first template covering the area, or none iff no template covers it |
| Cost.GetBOQTemplate | lib/cost.js:182-189 | the search loop returns the template-table lookup |
| Cost.TemplateBands | lib/cost.js:7-76 | small up to 100 m², medium up to 200, large up to 400, extra-large up to 10000; none iff outside 0..10000 |
| Cost.TemplatesGrowWithArea | lib/cost.js:7-76 | each larger template needs at least as much of every item |
| Cost.RoundTo2 | lib/cost.js:104 | rounding to 2 places moves the value by at most 0.005 |
| Cost.AdjustmentFactor | lib/cost.js:96-100 | quantities are scaled by 1.3 iff a well is recommended, otherwise kept |
| Cost.AdjustItems | lib/cost.js:102-105 | every item is adjusted, in order |
| Cost.GenerateBOQ | lib/cost.js:89-113 | fails iff no template covers the area; otherwise the template's items scaled by the factor |
| Cost.AdjustedQuantitiesExact | lib/cost.js:102-105 | rounding to 2 places never changes a scaled template quantity |
| Cost.FindRate | lib/cost.js:127 | the first rate with the item code, or none iff no rate has it |
| Cost.PriceBoqItems | lib/cost.js:121-155 | the pricing loop builds the cost lines and the material and labour subtotals |
| Cost.EstimateBoq | lib/cost.js:121-176 | the priced lines and the rounded subtotals, overhead, contingency, GST and grand total equal the estimate function |
| Cost.CalculateCostEstimate | lib/cost.js:118-177 | the estimate equals the estimate function |
| Cost.RatedItems | lib/cost.js:126-132 | the BOQ items with a rate, in BOQ order; all of them when every code has a rate |
| Cost.CostLinesNumbered | lib/cost.js:126-148 | line j prices the j-th rated BOQ item: numbered j + 1, with its code and quantity, the rate's kind, name, unit and unit rate, and amount round(quantity × unit rate) |
| Cost.GrandTotalFactor | lib/cost.js:79-84 | the grand total is 1.475 × subtotal, with overhead and contingency adding 25 % |
| Cost.GrandTotalIsMarkedUpSubtotal | lib/cost.js:157-172 | the rounded grand total is within 0.5 of 1.475 × subtotal |
| Cost.KindSumNonNegative | lib/cost.js:150-154 | with non-negative quantities and rates, a kind's subtotal is non-negative |
| Cost.EstimateFailsOnlyWithoutTemplate | lib/cost.js:118-119 | the estimate fails iff the area is below 0 or above 10000 |
| Cost.PaybackPeriod | lib/cost.js:194-200 | no payback iff the savings are not positive; otherwise cost / savings to one decimal |
| Cost.PaybackShrinksWithSavings | lib/cost.js:194-200 | more savings never lengthen the payback |
| Cost.ShareOf | lib/cost.js:205-230 | the amount, and its rounded percentage of the total unless the total is 0 |
| Cost.GetCostBreakdown | lib/cost.js:205-230 | the five shares of the grand total |
| Cost.ShareIsPercentage | lib/cost.js:205-230 | a part of the total is 0-100 % |
| Cost.ValidateCostInputs | lib/cost.js:235-255 | the area error iff the area is absent or not positive; the template error iff getBOQTemplate finds none for the argument (none for `undefined`, the small one for `null`); errors in the order of the checks; valid iff there are none |
| Cost.ValidInputsHaveBoq | lib/cost.js:235-255 | valid iff the area is a number in (0, 10000] and a recommendation is given; valid inputs always get a bill of quantities |
| Cost.MissingAreaErrors | lib/cost.js:182-189 | an `undefined` area also gets the template error; a `null` area only the area error |
| Runoff.CoefficientsInRange | lib/runoff.js:10-18 | every roof coefficient is in the accepted range |
| Runoff.GetRunoffCoefficient | lib/runoff.js:123-125 | a listed roof type's coefficient, otherwise 0.75 |
| Runoff.RunoffVolumeMonotone | lib/runoff.js:39-55 | a bigger roof never collects less |
| Runoff.CalculateAnnualRunoff | lib/runoff.js:39-55 | litres = round(area × rainfall × coefficient × 0.85), with the inputs echoed back |
| Runoff.AnnualRunoffMonotone | lib/runoff.js:39-55 | the rounded litres never decrease with area |
| Runoff.AnnualRunoffPerSquareMetre | lib/runoff.js:39-55 | at 650 mm, each m² yields between 221 and 497.25 L |
| Runoff.AnnualRunoffExample | lib/runoff.js:39-55 | 100 m² of RCC flat roof yields 46963 L; an unknown type uses 0.75 |
| Runoff.MonthNamesDistinct | lib/runoff.js:21-34 | the twelve month names are distinct |
| Runoff.TwelveMonths | lib/runoff.js:21-34 | there are exactly twelve months |
| Runoff.SharesSumToOnePointZeroOne | lib/runoff.js:21-34 | the monthly shares sum to 1.01, not 1 |
| Runoff.CalculateMonthlyRunoff | lib/runoff.js:60-68 | a map from each month to the rounded share of the annual runoff |
| Runoff.MonthlyTotalNearShare | lib/runoff.js:60-68 | the months sum to within half a litre per month of annual × total share |
| Runoff.MonthlyTotalsOvercount | lib/runoff.js:60-68 | above 600 L a year, the monthly figures add up to more than the annual runoff |
| Runoff.JulyIsWettest | lib/runoff.js:21-34 | no month collects more than July |
| Runoff.CalculateFirstFlushVolume | lib/runoff.js:74-76 | the rounded product of area and first-flush depth |
| Runoff.FirstFlushWithinAnnualRunoff | lib/runoff.js:74-76 | the default first flush never exceeds the annual runoff |
| Runoff.CalculateStorageTankSize | lib/runoff.js:81-98 | the recommended size is 20 days of need, capped at 30 % of the annual runoff |
| Runoff.TankSizeLimits | lib/runoff.js:81-98 | which of the two limits applies |
| Runoff.TankSizeExample | lib/runoff.js:81-98 | the tank for 46963 L and the default household |
| Runoff.MonthlyConsumption | lib/runoff.js:108 | the given consumption, or 4500 L per person when it is missing |
| Runoff.BalanceOf | lib/runoff.js:109-114 | exactly one of surplus and deficit is non-zero, and surplus − deficit = runoff − consumption |
| Runoff.CalculateWaterBalance | lib/runoff.js:103-118 | one balance per month from that month's runoff and the consumption |
| Runoff.BalanceSides | lib/runoff.js:109-114 | the surplus when runoff covers consumption, otherwise the deficit |
| Runoff.ValidateRunoffInputs | lib/runoff.js:130-149 | each error iff its condition, listed in the order of the checks; valid iff there are no errors |
| Runoff.ValidInputsGiveBoundedRunoff | lib/runoff.js:130-149 | valid inputs use a listed coefficient and yield 0..4972500 L |
| Geo.BoxIsInclusive | lib/geo.js:66-68 | the bounding box includes its edges and the centre |
| Geo.PincodeTableNamesKnownDistricts | lib/geo.js:30-61 | every pincode maps to a profiled district, and all lie in 110001..110030 |
| Geo.EstimateDistrict | lib/geo.js:107-120 | the coordinate rule for each of the five estimated districts |
| Geo.SouthernMeridianIsCentral | lib/geo.js:108-119 | a southern point exactly on 77.15° E falls back to Central Delhi |
| Geo.ProfileOf | lib/geo.js:15-27 | a profile iff the district is listed |
| Geo.DistrictInfoFrom | lib/geo.js:95-129 | a listed pincode decides; otherwise coordinates inside Delhi are estimated; none iff neither applies |
| Geo.DistrictInfoIsProfiled | lib/geo.js:95-129 | every answer carries its district's profile |
| Geo.GetDistrictInfo | lib/geo.js:95-129 | the rule over this file's pincode table |
| Geo.PincodeOverridesCoordinates | lib/geo.js:95-129 | a pincode beats coordinates, an unlisted pincode falls back to them, and a zero latitude gives none |
| Geo.GeologicalInfoFrom | lib/geo.js:134-154 | the table entry iff the district is listed in both tables |
| Geo.GetGeologicalInfo | lib/geo.js:134-154 | depth 5-25 m; deeper than 15 m iff the profile says "Deep"; quartzite iff the soil is quartzite |
| Geo.ValidateCoordinates | lib/geo.js:159-184 | a missing coordinate gives only "required"; otherwise each range error iff out of range, "outside Delhi" iff outside the box, in the order of the checks; valid iff inside Delhi |
| Geo.RangeErrorImpliesOutside | lib/geo.js:159-184 | a range error always comes with the outside-Delhi error |
| Geo.WithPartContains | lib/geo.js:210-226 | adding a part makes the text contain it, and a part already present is not added again |
| Geo.FormattedAddressProperties | lib/geo.js:210-226 | the address extends the input, ends in "Delhi", and contains the district and the pincode |
| Geo.FormatAddress | lib/geo.js:210-226 | the method builds the formatted-address function |
| Geo.FormatAddressExamples | lib/geo.js:210-226 | empty input gives "Delhi"; a district alone gives "Shahdara, Delhi" |
| Geo.MinOf | lib/geo.js:231-245 | the minimum of a non-empty list |
| Geo.MaxOf | lib/geo.js:231-245 | the maximum of a non-empty list |
| Geo.CalculateSlope | lib/geo.js:231-245 | zero for fewer than two points; otherwise max − min, which bounds every pairwise difference |
| DelhiGeo.FoldEntries | lib/delhi-geo.js:30-215 | the object literal's keys are exactly the listed pincodes |
| DelhiGeo.FoldKeepsLastEntry | lib/delhi-geo.js:30-215 | a pincode maps to its last listing |
| DelhiGeo.EntryFoldIsBlockFold | lib/delhi-geo.js:30-215 | reading the literal entry by entry equals overlaying district by district |
| DelhiGeo.BlockFoldLastListing | lib/delhi-geo.js:30-215 | a pincode listed last under a district maps to that district |
| DelhiGeo.BlockFoldSource | lib/delhi-geo.js:30-215 | a pincode is in the table iff some district lists it, and it maps to one that does |
| DelhiGeo.RepeatedPincodesTakeLastDistrict | lib/delhi-geo.js:30-215 | 110031 is Shahdara, 110001 New Delhi, 110003 South Delhi, 110006 North Delhi |
| DelhiGeo.PincodeTableNamesKnownDistricts | lib/delhi-geo.js:30-215 | every pincode maps to a profiled district |
| DelhiGeo.GetDistrictInfo | lib/delhi-geo.js:249-283 | the same rule as lib/geo.js over this file's table |
| DelhiGeo.TablesDisagree | lib/delhi-geo.js:30-215 | the two files place 110003 and 110006 in different districts |
| DelhiGeo.GetGeologicalInfo | lib/delhi-geo.js:288-308 | depth 4.65-60.8 m; quartzite iff the soil is quartzite |
| DelhiGeo.ShallowestDistricts | lib/delhi-geo.js:288-308 | only North East Delhi is shallower than 5 m |
| Assessment.MinDistance | src/app/api/assessments/route.js:80-86 | the minimum is one of 8/10/12/15/20; below 15 iff a septic tank, sewer or open drain is near; 15 iff only a dump is near; 20 iff nothing; 8 iff a sewer is near |
| Assessment.SurveyDecidesContaminationVeto | src/app/api/assessments/route.js:80-103 | a contamination veto iff a septic tank, sewer or drain is near; otherwise a veto iff the depth is below 3 m |
| Assessment.AssessmentData | src/app/api/assessments/route.js:89-100 | the scorer's input: the geology fields, land use defaulting to "Residential", surrounding land use, slope 2 %, the minimum distance, and the runoff at 650 mm |
| Assessment.AssessmentDataFactors | src/app/api/assessments/route.js:91-100 | the land use scored is the surrounding one, else the property's, else "Residential"; the fixed slope always scores 20 |
| Assessment.DepthBand | src/app/api/assessments/route.js:168 | "Deep" above 15 m, "Moderate" above 5 m, otherwise "Shallow" |
| Assessment.DepthBandAgainstRecommendation | src/app/api/assessments/route.js:168 | a well is recommended iff the band is "Deep"; at exactly 5 m the band is "Shallow" but a trench is recommended |
| Assessment.SurveyResult | src/app/api/assessments/route.js:148 | FAIL iff vetoed |
| Assessment.CreateAssessment | src/app/api/assessments/route.js:60-258 | each 400 error iff its condition, in order; a 500 only for an area no template covers; otherwise the full assessment, priced iff not vetoed and scoring at least 40 |
| Assessment.CoveredRoofsAreAssessed | src/app/api/assessments/route.js:60-123 | a complete request with a survey, a known location and an area in 0..10000 is assessed |
| Assessment.OnlyTheSurveyVetoes | src/app/api/assessments/route.js:80-148 | with lib/geo.js depths, a site is vetoed and fails iff a septic tank, sewer or drain is near |
| Assessment.NegativeAreaSiteLocated | src/app/api/assessments/route.js:60-86 | the request site is located in New Delhi through pincode 110003, and a clean survey gives 20 m |
| Assessment.NegativeAreaInput | src/app/api/assessments/route.js:89-100 | the site's scoring input is the New Delhi geology, residential land use, the 2 % slope, 20 m, and a negative runoff |
| Assessment.NewDelhiTablePoints | lib/scoring.js:127-197 | sandy soil and alluvium score 25, residential land use 15 |
| Assessment.NewDelhiBandPoints | lib/scoring.js:102-253 | an 18 m water table scores 25, the 2 % slope 20, a negative runoff 5 |
| Assessment.NegativeRunoffScores | lib/scoring.js:32-82 | such an input with any negative runoff passes the veto and scores 79, so it is priced |
| Assessment.NegativeAreaSiteScores | src/app/api/assessments/route.js:89-118 | that site scores 79 with a negative runoff, so it is priced |
| Assessment.NegativeAreaFailsCreation | src/app/api/assessments/route.js:60-258 | a negative area passes the field check, is priced, and the request ends in the 500 answer |
| Assessment.PricedSitesGetAStructure | src/app/api/assessments/route.js:118-123 | a priced site is not vetoed, scores at least 40, gets a structure, and gets a well iff the band is "Deep" |
| Location.DistrictTablesAgree | app/assess/location/page.jsx:26-129 | the tehsil and pincode tables name the same ten districts, each with a non-empty list |
| Location.FirstBox | app/assess/location/page.jsx:370-406 | the first box containing the point, or none iff no box contains it |
| Location.BoxGuess | app/assess/location/page.jsx:386-392 | a box's guess names that district, its first tehsil and first pincode, and "district, Delhi, India", and differs from the fallback |
| Location.FallbackListed | app/assess/location/page.jsx:399-405 | the fallback's district, tehsil and pincode are all listed in the page's tables |
| Location.GuessFor | app/assess/location/page.jsx:370-406 | the fallback iff no box matches; otherwise the district, its first tehsil and pincode, and "district, Delhi, India" |
| Location.GetDistrictFromCoordinates | app/assess/location/page.jsx:370-406 | the search loop returns the first-match guess |
| Location.OverlapAndFallbackExamples | app/assess/location/page.jsx:370-406 | a point in overlapping boxes takes the first (Central Delhi); a point outside every box takes the fallback |
| Location.Closest | app/assess/location/page.jsx:314-335 | the first index at minimum distance |
| Location.PincodeFor | app/assess/location/page.jsx:327-334 | the closest pincode if the district lists it; else the district's first pincode; 110001 for an unlisted district |
| Location.NearestPincode | app/assess/location/page.jsx:315-325 | the scan keeps the pincode at the first least distance, replacing it only on a strictly smaller one |
| Location.DetectPincodeFromCoordinates | app/assess/location/page.jsx:314-335 | the nearest-point loop returns the closest-pincode rule |
| Location.NearestOutsideDistrictFallsBack | app/assess/location/page.jsx:314-335 | a nearest pincode from another district is replaced by the district's first pincode |
| Location.DetectTehsilFromPincode | app/assess/location/page.jsx:348-368 | a mapped pincode gives exactly its mapped tehsil, an East Delhi one; otherwise the district's first tehsil; "" iff neither applies |
| Location.TehsilsNamed | app/assess/location/page.jsx:348-368 | a mapped pincode's tehsil is non-empty and is one of East Delhi's tehsils |
| Location.TehsilPincodesAreEastDelhi | app/assess/location/page.jsx:348-368 | every mapped pincode is listed for East Delhi, and its tehsil is an East Delhi tehsil |
| Location.FlatMembership | app/assess/location/page.jsx:288-289 | a pincode is in the flattened table iff some district lists it |
| Location.AllDelhiPincodesListed | app/assess/location/page.jsx:288-289 | the same, for the page's own table |
| Location.ValidateExtractedPincode | app/assess/location/page.jsx:277-298 | a matched pincode is accepted iff some district lists it |
| LiveScore.Find | src/app/assess/roof/page.jsx:231 | an option found by value has that value and is in the list; none is found iff no option has that value (the same lookup serves the land-use list at line 255) |
| LiveScore.RccFlatOption | src/app/assess/roof/page.jsx:60-63 | "RCC Flat" finds the first roof option |
| LiveScore.MetalSheetOption | src/app/assess/roof/page.jsx:60-81 | "Metal Sheet" finds the third roof option |
| LiveScore.OpenParkOption | src/app/assess/roof/page.jsx:165-168 | "Open Park" finds the first land-use option |
| LiveScore.RoofPageTablesValid | src/app/assess/roof/page.jsx:60-222 | the page's coefficients agree with lib/runoff.js and are 0.75/0.8/0.85/0.9; land-use scores are 0..25 |
| LiveScore.RunoffPoints | src/app/assess/roof/page.jsx:237-246 | 25/20/15/10 points above 100000/50000/20000/10000 L, else 5 |
| LiveScore.RunoffPointsMonotone | src/app/assess/roof/page.jsx:237-246 | more litres never score fewer points |
| LiveScore.VolumeMonotone | src/app/assess/roof/page.jsx:234-235 | a bigger roof never yields less |
| LiveScore.AsWrittenRunoffAlwaysLowest | src/app/assess/roof/page.jsx:233-249 | as written, every accepted roof scores the lowest runoff band |
| LiveScore.LitreBandsReached | src/app/assess/roof/page.jsx:233-249 | once converted to litres, real roofs reach the 20- and 25-point bands |
| LiveScore.RunoffContribution | src/app/assess/roof/page.jsx:229-250 | 0 iff the part is unscored; otherwise 0.2 × the band points of the volume, one of 1..5; with the volume in cubic metres this is the page's runoff part |
| LiveScore.LandUseScoreOf | src/app/assess/roof/page.jsx:254-260 | a listed option's own score, 0 if the value is empty or unlisted; 0..25 for valid tables |
| LiveScore.LandUseContribution | src/app/assess/roof/page.jsx:254-260 | a tenth of the land-use score, 0..2.5 |
| LiveScore.BasementContribution | src/app/assess/roof/page.jsx:263-266 | 2 iff the basement answer is yes, otherwise 0 |
| LiveScore.CalculateLiveScore | src/app/assess/roof/page.jsx:224-268 | with the volume in cubic metres, as the page computes it, the accumulated breakdown equals the per-part contributions, and the total is their rounded sum |
| LiveScore.LiveScoreRange | src/app/assess/roof/page.jsx:224-268 | in either unit, the total is 0..10, and 10 iff every part is at its best |
| LiveScore.AsWrittenLiveScoreAtMostSix | src/app/assess/roof/page.jsx:224-268 | for a form the page accepts, the page's runoff part is exactly 1.0 when scored, so its score is at most 6, and 6 iff runoff is scored, the land use scores 25 and there is a basement |
| LiveScore.LiveScoreExample | src/app/assess/roof/page.jsx:224-268 | 100 m² RCC flat, open park and a basement score 6 as the page computes it, and 9 in litres |
| LiveScore.CorrectedScoreReachesTen | src/app/assess/roof/page.jsx:224-268 | in litres, 200 m² of metal sheet, open park and a basement reach the top runoff part and the score 10 |
| LiveScore.HandleNext | src/app/assess/roof/page.jsx:285-314 | each alert iff its check is the first to fail, in order; none iff all pass |
| LiveScore.AcceptedFormPassesRunoffValidation | src/app/assess/roof/page.jsx:285-314 | an accepted form with a listed roof type passes lib/runoff.js validation and gets a runoff score |

components/roof-page-client.jsx repeats the roof page's two tables and two functions, 14 lines earlier: its roof types are at lines 46-101, its land uses at 151-208, `calculateLiveScore` at 210-254 and `handleNext` at 271-297. The `LiveScore` rows hold for that file too.

## Left out

- Persistence, HTTP and UI are not modelled: database reads and writes, the assessment transaction, session storage, routing, alerts as dialogs, and rendering. The rate card is a parameter of `Cost.CalculateCostEstimate`.
- `houseProfile` in the assessment request is only stored, so it is not modelled.
- The distance formulas are not modelled, because they need trigonometry on floating point. The location page's Haversine distance is an abstract parameter of `Location.Closest` and `Location.DetectPincodeFromCoordinates`. The distance functions at lib/geo.js:73-86 and lib/delhi-geo.js:227-240 are not modelled.
- Display-only helpers are not modelled: `formatCurrency` (lib/djb.js:278-285), `formatCoordinates` (lib/geo.js:189-195, lib/delhi-geo.js:343) and `getDelhiCenter` (lib/geo.js:200-205, lib/delhi-geo.js:354).
- Floating point is not modelled, because the model uses exact reals. For example, 0.1 + 0.2 is exact here.
- Non-numeric text in numeric fields is not modelled, because `parseFloat` returning NaN has no real counterpart. `LiveScore.HandleNext` takes the already-parsed area or `None`.
- The pincode regular expression in `extractPincodeFromAddress` is not modelled, because regular expressions have no Dafny counterpart. `Location.ValidateExtractedPincode` takes the matched candidate as input.
- The reverse-geocoding call and the composition that feeds it into district detection are not modelled, because they reach the network.
- The area names attached to the location page's pincode coordinates are not modelled, because nothing reads them.
- Other exceptions that end in the 500 "Failed to create assessment" are not modelled, such as database failures, because persistence is not modelled. The one throw the model has is pricing a roof that no template covers, which `Assessment.CreateAssessment` answers with `CreationFailed`. A negative area reaches it: `!area` is false for it, and the runoff factor still gets its lowest 5 points (lib/scoring.js:240-243), so the other factors can carry the score past 40. `Assessment.NegativeAreaFailsCreation` shows one such request.
- `console.warn` for a BOQ item without a rate (lib/cost.js:130) is not modelled, because it is logging; the item is skipped, as modelled.
- Lookups of inherited object keys are not modelled. A key such as "constructor" finds an inherited member in the source's score tables (lib/scoring.js:138, 162, 187, 305, 322); the model's maps hold only the listed keys, so such a key takes the fallback.
- The route uses lib/geo.js, where every district is at least 5 m deep. So the shallow-water veto cannot fire through the route (`Assessment.OnlyTheSurveyVetoes`). It is still modelled in `Scoring.CheckVeto`.

## Findings

| source | as written | input that shows it | evidently intended | confidence | as-written member | corrected member |
|---|---|---|---|---|---|---|
| src/app/assess/roof/page.jsx:233-249 | the live runoff volume is area × 0.65 × coefficient, which is in cubic metres, but it is compared against litre thresholds (100000, 50000, 20000, 10000) | a 100 m² RCC flat roof gives 55.25 and scores 5 points; as litres, 55250 scores 20 | multiply by 1000 before comparing, so the volume is in litres like the server-side score | not executed | LiveScore.AsWrittenRunoffAlwaysLowest | LiveScore.LitreBandsReached |
| components/roof-page-client.jsx:219-235 | the same cubic-metre volume compared against litre thresholds | a 100 m² RCC flat roof gives 55.25 and scores 5 points | multiply by 1000 | not executed | LiveScore.AsWrittenRunoffAlwaysLowest | LiveScore.LitreBandsReached |

`LiveScore.AsWrittenRunoffVolume` is the formula as written, and `LiveScore.CalculateLiveScore` uses it, as the page does. `LiveScore.RunoffVolumeLitres` is the corrected one. `LiveScore.VolumeUnit` selects between the two in the score's functions: `CubicMetres` is the page, and `Litres` is the correction. `LiveScore.AsWrittenLiveScoreAtMostSix` shows what the page's score can reach. `LiveScore.LiveScoreExample` gives both scores for one form, and `LiveScore.CorrectedScoreReachesTen` shows the corrected score reaching 10.
