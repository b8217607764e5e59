/** The location step's own lookup helpers: the district boxes scanned in
    listing order, the nearest known pincode, the tehsil of a pincode and the
    check that an extracted pincode is a Delhi one. Pincodes are the integers
    their six-digit numerals denote; the empty pincode is 0. */
module Location {
  import opened Common

  // ---------------------------------------------------------------------------
  // District tables
  // ---------------------------------------------------------------------------

  /** The tehsils of each district, first one first. */
  const DistrictTehsils: map<string, seq<string>> := map[
    "Central Delhi" := ["Darya Ganj", "Karol Bagh"],
    "East Delhi" := ["Gandhi Nagar", "Preet Vihar", "Shahdara"],
    "New Delhi" := ["Chanakyapuri", "Parliament Street"],
    "North Delhi" := ["Civil Lines", "Kotwali"],
    "North East Delhi" := ["Seelampur", "Shahdara"],
    "North West Delhi" := ["Kanjhawala", "Rohini"],
    "South Delhi" := ["Defence Colony", "Hauz Khas", "Kalkaji"],
    "South East Delhi" := ["Badarpur", "Kalkaji"],
    "South West Delhi" := ["Vasant Vihar", "Dwarka"],
    "West Delhi" := ["Patel Nagar", "Rajouri Garden"]
  ]

  const CentralPincodes: seq<int> := [110001, 110002, 110003, 110006, 110055]
  const EastPincodes: seq<int> := [110031, 110032, 110051, 110053, 110091, 110092, 110093, 110094, 110095]
  const NewDelhiPincodes: seq<int> := [110001, 110003, 110011, 110021, 110023]
  const NorthPincodes: seq<int> := [110006, 110007, 110009, 110033, 110035, 110054]
  const NorthEastPincodes: seq<int> := [110031, 110032, 110053, 110093, 110094, 110095]
  const NorthWestPincodes: seq<int> :=
    [110034, 110036, 110039, 110040, 110041, 110042, 110081, 110085, 110086, 110087, 110088, 110089]
  const SouthPincodes: seq<int> :=
    [110003, 110013, 110014, 110016, 110017, 110019, 110024, 110025, 110029, 110049, 110062]
  const SouthEastPincodes: seq<int> := [110013, 110014, 110019, 110025, 110044, 110076]
  const SouthWestPincodes: seq<int> :=
    [110016, 110023, 110030, 110037, 110045, 110046, 110056, 110057, 110058, 110059, 110070, 110075, 110077, 110078]
  const WestPincodes: seq<int> :=
    [110005, 110008, 110010, 110012, 110015, 110018, 110026, 110027, 110028, 110035,
     110063, 110064, 110065, 110066, 110067, 110071, 110072, 110074]

  /** The pincodes of each district, first one first. */
  const PincodeRanges: map<string, seq<int>> := map[
    "Central Delhi" := CentralPincodes,
    "East Delhi" := EastPincodes,
    "New Delhi" := NewDelhiPincodes,
    "North Delhi" := NorthPincodes,
    "North East Delhi" := NorthEastPincodes,
    "North West Delhi" := NorthWestPincodes,
    "South Delhi" := SouthPincodes,
    "South East Delhi" := SouthEastPincodes,
    "South West Delhi" := SouthWestPincodes,
    "West Delhi" := WestPincodes
  ]

  /** The order in which the district tables list their districts. */
  const DistrictOrder: seq<string> := [
    "Central Delhi", "East Delhi", "New Delhi", "North Delhi", "North East Delhi",
    "North West Delhi", "South Delhi", "South East Delhi", "South West Delhi", "West Delhi"
  ]

  /** Both tables list the same ten districts, and every list is non-empty. */
  lemma DistrictTablesAgree()
    ensures forall d :: d in DistrictOrder <==> d in PincodeRanges
    ensures forall d :: d in DistrictOrder <==> d in DistrictTehsils
    ensures forall d :: d in PincodeRanges ==> |PincodeRanges[d]| > 0
    ensures forall d :: d in DistrictTehsils ==> |DistrictTehsils[d]| > 0
  {
  }

  // ---------------------------------------------------------------------------
  // District from coordinates
  // ---------------------------------------------------------------------------

  /** An inclusive latitude/longitude box. */
  datatype Bounds = Bounds(minLat: real, maxLat: real, minLon: real, maxLon: real)

  predicate InBox(b: Bounds, lat: real, lon: real)
  {
    lat >= b.minLat && lat <= b.maxLat && lon >= b.minLon && lon <= b.maxLon
  }

  /** The district boxes in the order they are scanned. They overlap. */
  const DistrictBounds: seq<(string, Bounds)> := [
    ("Central Delhi", Bounds(28.63, 28.68, 77.2, 77.25)),
    ("East Delhi", Bounds(28.61, 28.7, 77.27, 77.35)),
    ("New Delhi", Bounds(28.57, 28.64, 77.18, 77.25)),
    ("North Delhi", Bounds(28.68, 28.75, 77.18, 77.25)),
    ("North East Delhi", Bounds(28.66, 28.73, 77.25, 77.32)),
    ("North West Delhi", Bounds(28.68, 28.78, 77.05, 77.2)),
    ("South Delhi", Bounds(28.52, 28.6, 77.18, 77.28)),
    ("South East Delhi", Bounds(28.5, 28.58, 77.25, 77.32)),
    ("South West Delhi", Bounds(28.47, 28.58, 77.05, 77.2)),
    ("West Delhi", Bounds(28.58, 28.68, 77.05, 77.18))
  ]

  /** The index of the first box containing the point, if any. */
  function FirstBox(bs: seq<(string, Bounds)>, lat: real, lon: real): (r: Option<nat>)
    ensures r.Some? ==>
      && r.value < |bs| && InBox(bs[r.value].1, lat, lon)
      && forall j :: 0 <= j < r.value ==> !InBox(bs[j].1, lat, lon)
    ensures r.None? <==> forall j :: 0 <= j < |bs| ==> !InBox(bs[j].1, lat, lon)
  {
    if bs == [] then None
    else if InBox(bs[0].1, lat, lon) then Some(0)
    else
      match FirstBox(bs[1..], lat, lon)
      case None => None
      case Some(k) => Some(k + 1)
  }

  /** The location guess the page fills its form with. */
  datatype LocationGuess = LocationGuess(
    district: string,
    tehsil: string,
    pincode: int,
    houseAddress: string,
    fullAddress: string)

  const NoAddress: string := "Address not available"

  /** The guess used when no box contains the point. */
  const FallbackGuess: LocationGuess := LocationGuess("East Delhi", "Preet Vihar", 110031, NoAddress, "Delhi, India")

  /** The first tehsil or first pincode of a district, "" and 0 when the
      district has none. */
  function FirstTehsil(district: string): string
  {
    if district in DistrictTehsils && |DistrictTehsils[district]| > 0 then DistrictTehsils[district][0] else ""
  }

  function FirstPincode(district: string): int
  {
    if district in PincodeRanges && |PincodeRanges[district]| > 0 then PincodeRanges[district][0] else 0
  }

  function GuessForDistrict(district: string): LocationGuess
  {
    LocationGuess(district, FirstTehsil(district), FirstPincode(district), NoAddress, district + ", Delhi, India")
  }

  /** The guess for a box's district: its first tehsil and pincode, and an
      address that is not the fallback's. */
  lemma BoxGuess(k: nat)
    requires k < |DistrictBounds|
    ensures var g := GuessForDistrict(DistrictBounds[k].0);
      && g != FallbackGuess
      && g.district == DistrictBounds[k].0
      && g.district in DistrictTehsils && |DistrictTehsils[g.district]| > 0
      && g.district in PincodeRanges && |PincodeRanges[g.district]| > 0
      && g.tehsil == DistrictTehsils[g.district][0]
      && g.pincode == PincodeRanges[g.district][0]
      && g.fullAddress == g.district + ", Delhi, India"
  {
    var g := GuessForDistrict(DistrictBounds[k].0);
    assert |g.fullAddress| > |"Delhi, India"|;
  }

  /** The fallback names East Delhi's second tehsil and first pincode. */
  lemma FallbackListed()
    ensures FallbackGuess.district in DistrictTehsils && FallbackGuess.tehsil in DistrictTehsils[FallbackGuess.district]
    ensures FallbackGuess.district in PincodeRanges && FallbackGuess.pincode in PincodeRanges[FallbackGuess.district]
  {
    assert EastPincodes[0] == 110031;
    assert DistrictTehsils["East Delhi"][1] == "Preet Vihar";
  }

  /** The guess for a point: the first district in listing order whose box
      contains it, with that district's first tehsil and pincode. */
  function GuessFor(lat: real, lon: real): (g: LocationGuess)
    ensures g == FallbackGuess <==> FirstBox(DistrictBounds, lat, lon).None?
    ensures FirstBox(DistrictBounds, lat, lon).Some? ==>
      && g.district == DistrictBounds[FirstBox(DistrictBounds, lat, lon).value].0
      && g.tehsil == DistrictTehsils[g.district][0]
      && g.pincode == PincodeRanges[g.district][0]
      && g.fullAddress == g.district + ", Delhi, India"
    ensures g.district in DistrictTehsils && g.tehsil in DistrictTehsils[g.district]
    ensures g.district in PincodeRanges && g.pincode in PincodeRanges[g.district]
  {
    match FirstBox(DistrictBounds, lat, lon)
    case None =>
      FallbackListed();
      FallbackGuess
    case Some(k) =>
      BoxGuess(k);
      GuessForDistrict(DistrictBounds[k].0)
  }

  /** getDistrictFromCoordinates: scans the boxes in order and answers with
      the first that contains the point. */
  method GetDistrictFromCoordinates(lat: real, lon: real) returns (g: LocationGuess)
    ensures g == GuessFor(lat, lon)
  {
    var i := 0;
    while i < |DistrictBounds|
      invariant 0 <= i <= |DistrictBounds|
      invariant forall j :: 0 <= j < i ==> !InBox(DistrictBounds[j].1, lat, lon)
    {
      var (district, bounds) := DistrictBounds[i];
      if InBox(bounds, lat, lon) {
        assert FirstBox(DistrictBounds, lat, lon) == Some(i);
        return GuessForDistrict(district);
      }
      i := i + 1;
    }
    return FallbackGuess;
  }

  /** The boxes overlap and the earlier one wins: a point in both the
      Central Delhi and New Delhi boxes is placed in Central Delhi. A point
      inside Delhi's outer box but in no district box falls back to East
      Delhi. */
  lemma OverlapAndFallbackExamples()
    ensures InBox(DistrictBounds[2].1, 28.635, 77.22)
    ensures GuessFor(28.635, 77.22).district == "Central Delhi"
    ensures GuessFor(28.45, 76.9) == FallbackGuess
  {
    assert FirstBox(DistrictBounds, 28.635, 77.22) == Some(0);
  }

  // ---------------------------------------------------------------------------
  // Nearest pincode
  // ---------------------------------------------------------------------------

  /** The pincodes with known coordinates, in the ascending key order in
      which an object's integer-like keys are enumerated. */
  const PincodeCoordinates: seq<(int, real, real)> := [
    (110001, 28.6562, 77.241), (110002, 28.6469, 77.2167), (110003, 28.6304, 77.2177),
    (110006, 28.6667, 77.2167), (110011, 28.6139, 77.209), (110021, 28.5833, 77.2167),
    (110023, 28.5667, 77.1833), (110031, 28.6358, 77.2781), (110032, 28.6167, 77.2833),
    (110051, 28.65, 77.29), (110053, 28.64, 77.31), (110055, 28.65, 77.23),
    (110091, 28.62, 77.3), (110092, 28.61, 77.32), (110093, 28.66, 77.3),
    (110094, 28.67, 77.295), (110095, 28.68, 77.31)
  ]

  /** A distance between two points given as (lat1, lon1, lat2, lon2). */
  type Distance = (real, real, real, real) -> real

  function DistanceTo(distance: Distance, lat: real, lon: real, c: (int, real, real)): real
  {
    distance(lat, lon, c.1, c.2)
  }

  /** The index of the first entry at the least distance: a later entry
      replaces the current one only when it is strictly closer. */
  function Closest(cs: seq<(int, real, real)>, distance: Distance, lat: real, lon: real): (k: nat)
    requires |cs| > 0
    ensures k < |cs|
    ensures forall j :: 0 <= j < |cs| ==> DistanceTo(distance, lat, lon, cs[k]) <= DistanceTo(distance, lat, lon, cs[j])
    ensures forall j :: 0 <= j < k ==> DistanceTo(distance, lat, lon, cs[j]) > DistanceTo(distance, lat, lon, cs[k])
  {
    if |cs| == 1 then 0
    else
      var k := Closest(cs[..|cs| - 1], distance, lat, lon);
      if DistanceTo(distance, lat, lon, cs[|cs| - 1]) < DistanceTo(distance, lat, lon, cs[k]) then |cs| - 1 else k
  }

  /** Every listed district has a first pincode, and it is not the empty one. */
  lemma PincodesListed(district: string)
    ensures district in PincodeRanges ==> |PincodeRanges[district]| > 0 && PincodeRanges[district][0] != 0
  {
  }

  /** The answer for a nearest pincode: kept when the district lists it,
      otherwise the district's first pincode, else 110001. */
  function PincodeFor(district: string, closest: int): (p: int)
    ensures district in PincodeRanges && closest in PincodeRanges[district] ==> p == closest
    ensures district in PincodeRanges && closest !in PincodeRanges[district] ==> p == PincodeRanges[district][0]
    ensures district in PincodeRanges ==> p in PincodeRanges[district]
    ensures district !in PincodeRanges ==> p == 110001
  {
    PincodesListed(district);
    if district in PincodeRanges && closest in PincodeRanges[district] then closest
    else if FirstPincode(district) != 0 then FirstPincode(district)
    else 110001
  }

  /** The scan in detectPincodeFromCoordinates: keeps the entry with the
      least distance so far, replacing it only on a strictly smaller one. */
  method NearestPincode(cs: seq<(int, real, real)>, lat: real, lon: real, distance: Distance) returns (closestPincode: int)
    requires |cs| > 0
    ensures closestPincode == cs[Closest(cs, distance, lat, lon)].0
  {
    var closest: Option<int> := None;
    var minDistance: Option<real> := None;  // None stands for +infinity
    var i := 0;
    while i < |cs|
      invariant 0 <= i <= |cs|
      invariant i == 0 <==> closest.None?
      invariant minDistance.None? <==> closest.None?
      invariant i > 0 ==>
        var k := Closest(cs[..i], distance, lat, lon);
        && closest == Some(cs[k].0)
        && minDistance == Some(DistanceTo(distance, lat, lon, cs[k]))
    {
      var entry := cs[i];
      var d := distance(lat, lon, entry.1, entry.2);
      assert cs[..i + 1][..i] == cs[..i];
      if minDistance.None? || d < minDistance.value {
        minDistance := Some(d);
        closest := Some(entry.0);
      }
      i := i + 1;
    }
    assert cs[..i] == cs;
    closestPincode := closest.value;
  }

  /** detectPincodeFromCoordinates, with the great-circle distance as a
      parameter. */
  method DetectPincodeFromCoordinates(lat: real, lon: real, district: string, distance: Distance) returns (pincode: int)
    ensures pincode == PincodeFor(district, PincodeCoordinates[Closest(PincodeCoordinates, distance, lat, lon)].0)
  {
    var closestPincode := NearestPincode(PincodeCoordinates, lat, lon, distance);
    PincodesListed(district);
    var validPincodes := if district in PincodeRanges then PincodeRanges[district] else [];
    if closestPincode in validPincodes {
      return closestPincode;
    }
    if |validPincodes| > 0 && validPincodes[0] != 0 {
      return validPincodes[0];
    }
    return 110001;
  }

  /** The nearest known pincode is not always one of the district's: when
      Connaught Place (110011) is nearest but the district is Central Delhi,
      the answer is Central Delhi's first pincode, 110001. */
  lemma NearestOutsideDistrictFallsBack()
    ensures 110011 in PincodeRanges["New Delhi"]
    ensures PincodeFor("Central Delhi", 110011) == 110001
  {
    assert NewDelhiPincodes[2] == 110011;
  }

  // ---------------------------------------------------------------------------
  // Tehsil from pincode
  // ---------------------------------------------------------------------------

  /** The pincodes with a tehsil of their own; all lie in East Delhi. */
  const PincodeToTehsil: map<int, string> := map[
    110031 := "Gandhi Nagar", 110032 := "Gandhi Nagar",
    110051 := "Preet Vihar", 110053 := "Preet Vihar", 110091 := "Preet Vihar", 110092 := "Preet Vihar",
    110093 := "Shahdara", 110094 := "Shahdara", 110095 := "Shahdara"
  ]

  /** A pincode's own tehsil is a named East Delhi tehsil. */
  lemma TehsilsNamed(pincode: int)
    ensures pincode in PincodeToTehsil ==>
      PincodeToTehsil[pincode] != "" && PincodeToTehsil[pincode] in DistrictTehsils["East Delhi"]
  {
    var east := DistrictTehsils["East Delhi"];
    assert east[0] == "Gandhi Nagar" && east[1] == "Preet Vihar" && east[2] == "Shahdara";
  }

  /** Every listed district has a named first tehsil. */
  lemma FirstTehsilsNamed(district: string)
    ensures district in DistrictTehsils ==>
      |DistrictTehsils[district]| > 0 && DistrictTehsils[district][0] != ""
  {
  }

  /** detectTehsilFromPincode: the pincode's own tehsil, else the
      district's first tehsil, else "". */
  function DetectTehsilFromPincode(pincode: int, district: string): (t: string)
    ensures pincode in PincodeToTehsil ==> t == PincodeToTehsil[pincode] && t in DistrictTehsils["East Delhi"]
    ensures pincode !in PincodeToTehsil && district in DistrictTehsils ==> t == DistrictTehsils[district][0]
    ensures t == "" <==> pincode !in PincodeToTehsil && district !in DistrictTehsils
  {
    TehsilsNamed(pincode);
    FirstTehsilsNamed(district);
    if pincode in PincodeToTehsil && PincodeToTehsil[pincode] != "" then PincodeToTehsil[pincode]
    else FirstTehsil(district)
  }

  /** Every pincode with a tehsil of its own is an East Delhi pincode, and
      its tehsil is one of East Delhi's. */
  lemma TehsilPincodesAreEastDelhi(pincode: int)
    requires pincode in PincodeToTehsil
    ensures pincode in PincodeRanges["East Delhi"]
    ensures PincodeToTehsil[pincode] in DistrictTehsils["East Delhi"]
  {
    var e := EastPincodes;
    assert e[0] == 110031 && e[1] == 110032 && e[2] == 110051 && e[3] == 110053 && e[4] == 110091;
    assert e[5] == 110092 && e[6] == 110093 && e[7] == 110094 && e[8] == 110095;
  }

  // ---------------------------------------------------------------------------
  // Validating an extracted pincode
  // ---------------------------------------------------------------------------

  /** `Object.values(t).flat()` for a table `t` listing the districts `ds`. */
  function Flat(t: map<string, seq<int>>, ds: seq<string>): (f: seq<int>)
    requires forall k :: 0 <= k < |ds| ==> ds[k] in t
  {
    if ds == [] then [] else Flat(t, ds[..|ds| - 1]) + t[ds[|ds| - 1]]
  }

  lemma {:induction false} FlatMembership(t: map<string, seq<int>>, ds: seq<string>, x: int)
    requires forall k :: 0 <= k < |ds| ==> ds[k] in t
    ensures x in Flat(t, ds) <==> exists k :: 0 <= k < |ds| && x in t[ds[k]]
  {
    if ds != [] {
      var init := ds[..|ds| - 1];
      FlatMembership(t, init, x);
      if x in Flat(t, ds) && x !in t[ds[|ds| - 1]] {
        var k :| 0 <= k < |init| && x in t[init[k]];
        assert ds[k] == init[k];
      }
      if x in t[ds[|ds| - 1]] {
        assert x in Flat(t, ds);
      } else if k :| 0 <= k < |ds| && x in t[ds[k]] {
        assert k < |init| && init[k] == ds[k];
      }
    }
  }

  function AllDelhiPincodes(): seq<int>
  {
    DistrictTablesAgree();
    Flat(PincodeRanges, DistrictOrder)
  }

  /** The flattened list holds exactly the pincodes some district lists. */
  lemma AllDelhiPincodesListed(x: int)
    ensures x in AllDelhiPincodes() <==> exists d :: d in PincodeRanges && x in PincodeRanges[d]
  {
    DistrictTablesAgree();
    FlatMembership(PincodeRanges, DistrictOrder, x);
    if exists d :: d in PincodeRanges && x in PincodeRanges[d] {
      var d :| d in PincodeRanges && x in PincodeRanges[d];
      assert d in DistrictOrder;
      var k :| 0 <= k < |DistrictOrder| && DistrictOrder[k] == d;
      assert x in PincodeRanges[DistrictOrder[k]];
    }
  }

  /** The validation step of extractPincodeFromAddress: the pincode the
      address text matched (None when it matched none) is kept only when
      some district lists it. */
  function ValidateExtractedPincode(matched: Option<int>): (r: Option<int>)
    ensures r.Some? ==> r == matched
    ensures r.Some? <==> matched.Some? && exists d :: d in PincodeRanges && matched.value in PincodeRanges[d]
  {
    if matched.Some? then
      AllDelhiPincodesListed(matched.value);
      if matched.value in AllDelhiPincodes() then matched else None
    else None
  }
}
