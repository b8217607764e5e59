/** Geography helpers for Delhi: the bounding box, the district profiles,
    the pincode and coordinate district lookups, the district geology table,
    coordinate validation, address formatting and slope from elevations.
    The rules here are shared with the extended tables of module DelhiGeo. */
module Geo {
  import opened Common

  // ---------------------------------------------------------------------
  // Bounding box
  // ---------------------------------------------------------------------

  const North: real := 28.88
  const South: real := 28.4
  const East: real := 77.35
  const West: real := 76.84

  /** isWithinDelhi: the inclusive latitude/longitude box. */
  predicate IsWithinDelhi(lat: real, lon: real)
  {
    lat >= South && lat <= North && lon >= West && lon <= East
  }

  /** getDelhiCenter. */
  const DelhiCenterLat: real := 28.6139
  const DelhiCenterLon: real := 77.209

  /** The published centre lies inside the box, and the box's own corners
      count as inside. */
  lemma BoxIsInclusive()
    ensures IsWithinDelhi(DelhiCenterLat, DelhiCenterLon)
    ensures IsWithinDelhi(South, West) && IsWithinDelhi(North, East)
    ensures !IsWithinDelhi(North + 0.01, DelhiCenterLon) && !IsWithinDelhi(DelhiCenterLat, West - 0.01)
  {
  }

  // ---------------------------------------------------------------------
  // Districts
  // ---------------------------------------------------------------------

  datatype DistrictProfile = DistrictProfile(tehsil: string, waterTable: string, soilType: string)

  const DelhiDistricts: map<string, DistrictProfile> := map[
    "Central Delhi" := DistrictProfile("Central Delhi", "Moderate", "Alluvial"),
    "East Delhi" := DistrictProfile("East Delhi", "Shallow", "Alluvial"),
    "New Delhi" := DistrictProfile("New Delhi", "Deep", "Alluvial"),
    "North Delhi" := DistrictProfile("North Delhi", "Moderate", "Alluvial"),
    "North East Delhi" := DistrictProfile("North East Delhi", "Shallow", "Alluvial"),
    "North West Delhi" := DistrictProfile("North West Delhi", "Moderate", "Alluvial"),
    "Shahdara" := DistrictProfile("Shahdara", "Shallow", "Alluvial"),
    "South Delhi" := DistrictProfile("South Delhi", "Deep", "Quartzite"),
    "South East Delhi" := DistrictProfile("South East Delhi", "Moderate", "Alluvial"),
    "South West Delhi" := DistrictProfile("South West Delhi", "Deep", "Quartzite"),
    "West Delhi" := DistrictProfile("West Delhi", "Moderate", "Alluvial")
  ]

  /** Pincodes are the canonical six-digit numerals the tables are keyed by;
      0 stands for a missing pincode. */
  const PincodeToDistrict: map<int, string> := map[
    110001 := "Central Delhi", 110002 := "Central Delhi", 110003 := "New Delhi",
    110004 := "New Delhi", 110005 := "Central Delhi", 110006 := "New Delhi",
    110007 := "Central Delhi", 110008 := "New Delhi", 110009 := "Central Delhi",
    110010 := "South West Delhi", 110011 := "Central Delhi", 110012 := "Central Delhi",
    110013 := "Central Delhi", 110014 := "South West Delhi", 110015 := "South West Delhi",
    110016 := "South West Delhi", 110017 := "South West Delhi", 110018 := "South West Delhi",
    110019 := "South West Delhi", 110020 := "South West Delhi", 110021 := "New Delhi",
    110022 := "South West Delhi", 110023 := "South West Delhi", 110024 := "South West Delhi",
    110025 := "South Delhi", 110026 := "South Delhi", 110027 := "South Delhi",
    110028 := "South Delhi", 110029 := "South Delhi", 110030 := "South Delhi"
  ]

  /** Every district a pincode table names has a profile. */
  predicate NamesKnownDistricts(pincodes: map<int, string>)
  {
    forall p :: p in pincodes ==> pincodes[p] in DelhiDistricts
  }

  lemma PincodeTableNamesKnownDistricts()
    ensures NamesKnownDistricts(PincodeToDistrict)
    ensures forall p :: p in PincodeToDistrict ==> 110001 <= p <= 110030
  {
  }

  /** The coordinate rules, tried in order; Central Delhi when none applies.
      The four rule regions do not overlap, so each estimate holds exactly
      on its own region. */
  function EstimateDistrict(lat: real, lon: real): (d: string)
    ensures d in DelhiDistricts
    ensures d == "North West Delhi" <==> lat > 28.7 && lon < 77.1
    ensures d == "North East Delhi" <==> lat > 28.7 && lon > 77.2
    ensures d == "South West Delhi" <==> lat < 28.55 && lon < 77.15
    ensures d == "South Delhi" <==> lat < 28.55 && lon > 77.15
    ensures d == "Central Delhi" <==>
      !(lat > 28.7 && (lon < 77.1 || lon > 77.2)) && !(lat < 28.55 && lon != 77.15)
  {
    if lat > 28.7 && lon < 77.1 then "North West Delhi"
    else if lat > 28.7 && lon > 77.2 then "North East Delhi"
    else if lat < 28.55 && lon < 77.15 then "South West Delhi"
    else if lat < 28.55 && lon > 77.15 then "South Delhi"
    else "Central Delhi"
  }

  /** The southern split is strict on both sides, so the meridian 77.15
      itself falls back to Central Delhi. */
  lemma SouthernMeridianIsCentral()
    ensures EstimateDistrict(28.5, 77.15) == "Central Delhi"
  {
  }

  datatype InfoSource = FromPincode | FromCoordinates

  /** The lookup result: the district, the spread-in profile (absent when
      the district has no profile) and where the answer came from. */
  datatype DistrictInfo = DistrictInfo(district: string, profile: Option<DistrictProfile>, source: InfoSource)

  function ProfileOf(district: string): (p: Option<DistrictProfile>)
    ensures p.Some? <==> district in DelhiDistricts
  {
    if district in DelhiDistricts then Some(DelhiDistricts[district]) else None
  }

  /** getDistrictInfo over a given pincode table: a known pincode wins;
      otherwise non-zero coordinates inside Delhi are estimated; otherwise
      there is no answer. A missing coordinate is passed as 0. */
  function DistrictInfoFrom(pincodes: map<int, string>, lat: real, lon: real, pincode: int): (r: Option<DistrictInfo>)
    ensures pincode != 0 && pincode in pincodes && pincodes[pincode] != "" ==>
      r == Some(DistrictInfo(pincodes[pincode], ProfileOf(pincodes[pincode]), FromPincode))
    ensures r.Some? && r.value.source == FromCoordinates ==>
      IsWithinDelhi(lat, lon) && r.value.district == EstimateDistrict(lat, lon)
    ensures r.None? <==>
      !(pincode != 0 && pincode in pincodes && pincodes[pincode] != "")
      && !(lat != 0.0 && lon != 0.0 && IsWithinDelhi(lat, lon))
  {
    if pincode != 0 && pincode in pincodes && pincodes[pincode] != "" then
      var district := pincodes[pincode];
      Some(DistrictInfo(district, ProfileOf(district), FromPincode))
    else if lat != 0.0 && lon != 0.0 && IsWithinDelhi(lat, lon) then
      var estimated := EstimateDistrict(lat, lon);
      Some(DistrictInfo(estimated, ProfileOf(estimated), FromCoordinates))
    else
      None
  }

  /** When every district the table names has a profile, any answer carries
      a profile, and a pincode answer names the table's district. */
  lemma DistrictInfoIsProfiled(pincodes: map<int, string>, lat: real, lon: real, pincode: int)
    requires NamesKnownDistricts(pincodes)
    ensures var r := DistrictInfoFrom(pincodes, lat, lon, pincode);
      r.Some? ==> r.value.district in DelhiDistricts && r.value.profile == Some(DelhiDistricts[r.value.district])
    ensures var r := DistrictInfoFrom(pincodes, lat, lon, pincode);
      r.Some? && r.value.source == FromPincode ==> pincode in pincodes && r.value.district == pincodes[pincode]
  {
  }

  /** getDistrictInfo with this file's pincode table. */
  function GetDistrictInfo(lat: real, lon: real, pincode: int): (r: Option<DistrictInfo>)
    ensures r.Some? ==> r.value.profile.Some?
    ensures pincode in PincodeToDistrict ==> r.Some? && r.value.source == FromPincode
    ensures pincode !in PincodeToDistrict ==>
      (r.Some? <==> lat != 0.0 && lon != 0.0 && IsWithinDelhi(lat, lon))
  {
    PincodeTableNamesKnownDistricts();
    DistrictInfoIsProfiled(PincodeToDistrict, lat, lon, pincode);
    DistrictInfoFrom(PincodeToDistrict, lat, lon, pincode)
  }

  /** A pincode in the table overrides coordinates that point elsewhere. */
  lemma PincodeOverridesCoordinates()
    ensures GetDistrictInfo(28.8, 77.0, 110025) == Some(DistrictInfo("South Delhi", Some(DelhiDistricts["South Delhi"]), FromPincode))
    ensures GetDistrictInfo(28.8, 77.0, 110099) == Some(DistrictInfo("North West Delhi", Some(DelhiDistricts["North West Delhi"]), FromCoordinates))
    ensures GetDistrictInfo(0.0, 77.0, 110099).None?
  {
  }

  // ---------------------------------------------------------------------
  // Geology
  // ---------------------------------------------------------------------

  datatype Geology = Geology(lithoClass: string, soilClass: string, waterDepth: real)

  const GeologicalData: map<string, Geology> := map[
    "Central Delhi" := Geology("Alluvium", "Sandy Loam", 12.0),
    "East Delhi" := Geology("Alluvium", "Clay Loam", 8.0),
    "New Delhi" := Geology("Alluvium", "Sandy", 18.0),
    "North Delhi" := Geology("Alluvium", "Loam", 15.0),
    "North East Delhi" := Geology("Alluvium", "Clay Loam", 6.0),
    "North West Delhi" := Geology("Alluvium", "Sandy Loam", 10.0),
    "Shahdara" := Geology("Alluvium", "Clay", 5.0),
    "South Delhi" := Geology("Quartzite", "Sandy", 25.0),
    "South East Delhi" := Geology("Alluvium", "Sandy Loam", 14.0),
    "South West Delhi" := Geology("Quartzite", "Sandy Loam", 20.0),
    "West Delhi" := Geology("Alluvium", "Loam", 12.0)
  ]

  /** getGeologicalInfo over a given geology table: nothing for a district
      without a profile or without a row. */
  function GeologicalInfoFrom(table: map<string, Geology>, district: string): (g: Option<Geology>)
    ensures g.Some? <==> district in DelhiDistricts && district in table
    ensures g.Some? ==> g.value == table[district]
  {
    if district !in DelhiDistricts then None
    else if district in table then Some(table[district])
    else None
  }

  /** getGeologicalInfo with this file's table: every district has a row,
      every depth is at least 5 m, and the depth agrees with the profile's
      label (Deep exactly when deeper than 15 m). */
  function GetGeologicalInfo(district: string): (g: Option<Geology>)
    ensures g.Some? <==> district in DelhiDistricts
    ensures g.Some? ==> 5.0 <= g.value.waterDepth <= 25.0
    ensures g.Some? ==> (g.value.waterDepth > 15.0 <==> DelhiDistricts[district].waterTable == "Deep")
    ensures g.Some? ==> (g.value.lithoClass == "Quartzite" <==> DelhiDistricts[district].soilType == "Quartzite")
  {
    assert GeologicalData.Keys == DelhiDistricts.Keys;
    GeologicalInfoFrom(GeologicalData, district)
  }

  // ---------------------------------------------------------------------
  // Coordinate validation
  // ---------------------------------------------------------------------

  datatype CoordinateError = CoordinatesRequired | LatitudeOutOfRange | LongitudeOutOfRange | OutsideDelhi

  function ErrorMessage(e: CoordinateError): string
  {
    match e
    case CoordinatesRequired => "Latitude and longitude are required"
    case LatitudeOutOfRange => "Latitude must be between -90 and 90"
    case LongitudeOutOfRange => "Longitude must be between -180 and 180"
    case OutsideDelhi => "Location must be within Delhi boundaries"
  }

  /** The position of each check in validateCoordinates. */
  function CheckOrder(e: CoordinateError): int
  {
    match e
    case CoordinatesRequired => 0
    case LatitudeOutOfRange => 1
    case LongitudeOutOfRange => 2
    case OutsideDelhi => 3
  }

  /** The early "required" answer carries no isWithinDelhi field. */
  datatype CoordinateCheck = CoordinateCheck(isValid: bool, errors: seq<CoordinateError>, isWithinDelhi: Option<bool>)

  /** validateCoordinates; a missing coordinate is passed as 0, which the
      source treats as missing too. */
  method ValidateCoordinates(lat: real, lon: real) returns (r: CoordinateCheck)
    ensures lat == 0.0 || lon == 0.0 ==> r == CoordinateCheck(false, [CoordinatesRequired], None)
    ensures lat != 0.0 && lon != 0.0 ==>
      && CoordinatesRequired !in r.errors
      && (LatitudeOutOfRange in r.errors <==> lat < -90.0 || lat > 90.0)
      && (LongitudeOutOfRange in r.errors <==> lon < -180.0 || lon > 180.0)
      && (OutsideDelhi in r.errors <==> !IsWithinDelhi(lat, lon))
      && r.isWithinDelhi == Some(IsWithinDelhi(lat, lon))
    ensures forall i, j :: 0 <= i < j < |r.errors| ==> CheckOrder(r.errors[i]) < CheckOrder(r.errors[j])
    ensures r.isValid <==> r.errors == []
    ensures r.isValid <==> lat != 0.0 && lon != 0.0 && IsWithinDelhi(lat, lon)
    ensures |r.errors| <= 3
  {
    var errors: seq<CoordinateError> := [];
    if lat == 0.0 || lon == 0.0 {
      errors := errors + [CoordinatesRequired];
      return CoordinateCheck(false, errors, None);
    }
    if lat < -90.0 || lat > 90.0 {
      errors := errors + [LatitudeOutOfRange];
    }
    if lon < -180.0 || lon > 180.0 {
      errors := errors + [LongitudeOutOfRange];
    }
    if !IsWithinDelhi(lat, lon) {
      errors := errors + [OutsideDelhi];
    }
    r := CoordinateCheck(|errors| == 0, errors, Some(IsWithinDelhi(lat, lon)));
  }

  /** A point off the globe is always also outside Delhi, so a range error
      never comes alone. */
  lemma RangeErrorImpliesOutside(lat: real, lon: real)
    requires lat < -90.0 || lat > 90.0 || lon < -180.0 || lon > 180.0
    ensures !IsWithinDelhi(lat, lon)
  {
  }

  // ---------------------------------------------------------------------
  // Address formatting
  // ---------------------------------------------------------------------

  /** Append a part, with ", " only after a non-empty prefix. */
  function Joined(prefix: string, part: string): (s: string)
    ensures prefix <= s
  {
    prefix + (if prefix != "" then ", " + part else part)
  }

  lemma JoinedEndsWithPart(prefix: string, part: string)
    ensures Contains(Joined(prefix, part), part)
    ensures |Joined(prefix, part)| >= |part| && Joined(prefix, part)[|Joined(prefix, part)| - |part|..] == part
  {
    var front := if prefix == "" then "" else prefix + ", ";
    assert front + part == Joined(prefix, part) by {
      if prefix == "" {
        assert prefix + part == part;
      } else {
        assert prefix + (", " + part) == prefix + ", " + part;
      }
    }
    ContainsSuffix(front, part);
  }

  /** Append a non-empty part unless it already occurs in the text. */
  function WithPart(text: string, part: string): (s: string)
    ensures text <= s
  {
    if part != "" && !Includes(text, part) then Joined(text, part) else text
  }

  /** A non-empty part always ends up in the text, and a part already
      present is not repeated. */
  lemma WithPartContains(text: string, part: string)
    ensures part != "" ==> Contains(WithPart(text, part), part)
    ensures Contains(text, part) ==> WithPart(text, part) == text
  {
    if part != "" && !Includes(text, part) {
      JoinedEndsWithPart(text, part);
    }
  }

  lemma ContainsPrefix(s: string, t: string, sub: string)
    requires s <= t && Contains(s, sub)
    ensures Contains(t, sub)
  {
    var i :| OccursAt(s, sub, i);
    assert t[i..i + |sub|] == s[i..i + |sub|];
    assert OccursAt(t, sub, i);
  }

  /** The address formatAddress builds. */
  function FormattedAddress(addressText: string, district: string, pincode: string): string
  {
    Joined(WithPart(WithPart(addressText, district), pincode), "Delhi")
  }

  /** The address keeps the given text as its start, names the district
      and the pincode, and ends in "Delhi". */
  lemma FormattedAddressProperties(addressText: string, district: string, pincode: string)
    ensures var s := FormattedAddress(addressText, district, pincode);
      addressText <= s && |s| >= 5 && s[|s| - 5..] == "Delhi"
      && (district != "" ==> Contains(s, district))
      && (pincode != "" ==> Contains(s, pincode))
  {
    var afterDistrict := WithPart(addressText, district);
    var afterPincode := WithPart(afterDistrict, pincode);
    var s := Joined(afterPincode, "Delhi");
    JoinedEndsWithPart(afterPincode, "Delhi");
    WithPartContains(addressText, district);
    WithPartContains(afterDistrict, pincode);
    if district != "" {
      ContainsPrefix(afterDistrict, afterPincode, district);
      ContainsPrefix(afterPincode, s, district);
    }
    if pincode != "" {
      ContainsPrefix(afterPincode, s, pincode);
    }
  }

  /** formatAddress: the text, then the district and the pincode when not
      already present, then "Delhi". A missing component is passed as "". */
  method FormatAddress(addressText: string, district: string, pincode: string) returns (formattedAddress: string)
    ensures formattedAddress == FormattedAddress(addressText, district, pincode)
  {
    formattedAddress := addressText;
    if district != "" && !Includes(formattedAddress, district) {
      formattedAddress := formattedAddress + (if formattedAddress != "" then ", " + district else district);
    }
    assert formattedAddress == WithPart(addressText, district);
    if pincode != "" && !Includes(formattedAddress, pincode) {
      formattedAddress := formattedAddress + (if formattedAddress != "" then ", " + pincode else pincode);
    }
    assert formattedAddress == WithPart(WithPart(addressText, district), pincode);
    assert ", " + "Delhi" == ", Delhi";
    formattedAddress := formattedAddress + (if formattedAddress != "" then ", Delhi" else "Delhi");
  }

  lemma FormatAddressExamples()
    ensures Joined(WithPart(WithPart("", ""), ""), "Delhi") == "Delhi"
    ensures Joined(WithPart(WithPart("", "Shahdara"), ""), "Delhi") == "Shahdara, Delhi"
  {
    assert WithPart("", "") == "";
    assert !Includes("", "Shahdara");
  }

  // ---------------------------------------------------------------------
  // Slope
  // ---------------------------------------------------------------------

  function MaxOf(s: seq<real>): (m: real)
    requires |s| > 0
    ensures forall i :: 0 <= i < |s| ==> s[i] <= m
    ensures exists i :: 0 <= i < |s| && s[i] == m
  {
    if |s| == 1 then s[0]
    else
      var m := MaxOf(s[..|s| - 1]);
      if s[|s| - 1] > m then s[|s| - 1] else m
  }

  function MinOf(s: seq<real>): (m: real)
    requires |s| > 0
    ensures forall i :: 0 <= i < |s| ==> m <= s[i]
    ensures exists i :: 0 <= i < |s| && s[i] == m
  {
    if |s| == 1 then s[0]
    else
      var m := MinOf(s[..|s| - 1]);
      if s[|s| - 1] < m then s[|s| - 1] else m
  }

  /** calculateSlope: the spread of the elevations over an assumed 100 m
      run, as a percentage; flat for fewer than two points (a missing list
      is passed as empty). The percentage is the largest rise between any
      two points. */
  function CalculateSlope(elevationPoints: seq<real>): (slope: real)
    ensures 0.0 <= slope
    ensures |elevationPoints| < 2 ==> slope == 0.0
    ensures forall i, j :: 0 <= i < |elevationPoints| && 0 <= j < |elevationPoints| ==>
      elevationPoints[i] - elevationPoints[j] <= slope
    ensures |elevationPoints| >= 2 ==>
      exists i, j :: 0 <= i < |elevationPoints| && 0 <= j < |elevationPoints| && elevationPoints[i] - elevationPoints[j] == slope
  {
    if |elevationPoints| < 2 then 0.0
    else
      var elevationDiff := MaxOf(elevationPoints) - MinOf(elevationPoints);
      var distance := 100.0;
      var slopePercent := (elevationDiff / distance) * 100.0;
      if slopePercent < 0.0 then -slopePercent else slopePercent
  }
}
