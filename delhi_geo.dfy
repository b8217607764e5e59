/** The extended geography tables: a pincode table written as district
    blocks in which the same pincode appears under several districts, and a
    geology table with survey-updated water depths. The rules themselves are
    those of module Geo. */
module DelhiGeo {
  import opened Common
  import Geo

  // ---------------------------------------------------------------------
  // Pincode table as an ordered fold
  // ---------------------------------------------------------------------

  /** One district block of the table, its pincodes in source order
      (repetitions included). */
  datatype Block = Block(district: string, pincodes: seq<int>)

  const CentralPincodes: seq<int> :=
    [110001, 110002, 110005, 110007, 110009, 110011, 110012, 110013, 110055, 110060, 110006]
  const CentralBlock := Block("Central Delhi", CentralPincodes)
  const NewDelhiPincodes: seq<int> :=
    [110003, 110004, 110008, 110021, 110001, 110011, 110001, 110002, 110003]
  const NewDelhiBlock := Block("New Delhi", NewDelhiPincodes)
  const EastPincodes: seq<int> :=
    [110031, 110032, 110051, 110053, 110091, 110092, 110093, 110094, 110095, 110096, 110097, 110098]
  const EastBlock := Block("East Delhi", EastPincodes)
  const NorthPincodes: seq<int> :=
    [110033, 110035, 110054, 110006, 110007, 110009, 110084, 110085, 110006]
  const NorthBlock := Block("North Delhi", NorthPincodes)
  const NorthEastPincodes: seq<int> :=
    [110031, 110032, 110053, 110093, 110094, 110095, 110096, 110097, 110098, 110053, 110031, 110032]
  const NorthEastBlock := Block("North East Delhi", NorthEastPincodes)
  const NorthWestPincodes: seq<int> :=
    [110033, 110034, 110035, 110036, 110039, 110040, 110041, 110042, 110043, 110044, 110045, 110046,
     110047, 110052, 110081, 110082, 110083, 110084, 110085, 110086, 110087, 110088, 110089]
  const NorthWestBlock := Block("North West Delhi", NorthWestPincodes)
  const ShahdaraPincodes: seq<int> :=
    [110031, 110032, 110053, 110093, 110094, 110095, 110096, 110097, 110098, 110031, 110032, 110053]
  const ShahdaraBlock := Block("Shahdara", ShahdaraPincodes)
  const SouthPincodes: seq<int> :=
    [110016, 110024, 110025, 110026, 110027, 110028, 110029, 110030, 110048, 110049, 110062, 110070,
     110003, 110021, 110023]
  const SouthBlock := Block("South Delhi", SouthPincodes)
  const SouthEastPincodes: seq<int> :=
    [110013, 110014, 110019, 110020, 110025, 110044, 110062, 110065, 110076, 110025, 110019, 110020]
  const SouthEastBlock := Block("South East Delhi", SouthEastPincodes)
  const SouthWestPincodes: seq<int> :=
    [110010, 110015, 110016, 110017, 110018, 110022, 110023, 110024, 110030, 110037, 110038, 110045,
     110046, 110056, 110057, 110058, 110059, 110061, 110062, 110063, 110064, 110066, 110067, 110068,
     110069, 110070, 110071, 110072, 110073, 110074, 110075, 110077, 110078]
  const SouthWestBlock := Block("South West Delhi", SouthWestPincodes)
  const WestPincodes: seq<int> :=
    [110015, 110018, 110022, 110026, 110027, 110041, 110045, 110056, 110058, 110059, 110063, 110064,
     110071, 110077, 110087]
  const WestBlock := Block("West Delhi", WestPincodes)

  const Blocks: seq<Block> := [CentralBlock, NewDelhiBlock, EastBlock, NorthBlock, NorthEastBlock,
    NorthWestBlock, ShahdaraBlock, SouthBlock, SouthEastBlock, SouthWestBlock, WestBlock]

  /** The table's (pincode, district) entries in source order. */
  function BlockEntries(b: Block): (es: seq<(int, string)>)
    ensures |es| == |b.pincodes|
    ensures forall i :: 0 <= i < |es| ==> es[i] == (b.pincodes[i], b.district)
    decreases |b.pincodes|
  {
    if b.pincodes == [] then []
    else
      var init := Block(b.district, b.pincodes[..|b.pincodes| - 1]);
      BlockEntries(init) + [(b.pincodes[|b.pincodes| - 1], b.district)]
  }

  function Entries(bs: seq<Block>): seq<(int, string)>
  {
    if bs == [] then [] else Entries(bs[..|bs| - 1]) + BlockEntries(bs[|bs| - 1])
  }

  /** An object literal: entries are assigned in order, so for a repeated
      key the last assignment stands. */
  function KeysOf(es: seq<(int, string)>): set<int>
  {
    set i | 0 <= i < |es| :: es[i].0
  }

  function FoldEntries(es: seq<(int, string)>): (m: map<int, string>)
    ensures m.Keys == KeysOf(es)
  {
    if es == [] then map[]
    else
      var init := es[..|es| - 1];
      var m := FoldEntries(init)[es[|es| - 1].0 := es[|es| - 1].1];
      assert KeysOf(es) == KeysOf(init) + {es[|es| - 1].0} by {
        forall x | x in KeysOf(es)
          ensures x in KeysOf(init) + {es[|es| - 1].0}
        {
          var i :| 0 <= i < |es| && es[i].0 == x;
          if i < |init| {
            assert init[i].0 == x;
          }
        }
      }
      m
  }

  /** The value a repeated key ends with is the one its last entry gives. */
  lemma {:induction false} FoldKeepsLastEntry(es: seq<(int, string)>, j: nat)
    requires j < |es|
    requires forall i :: j < i < |es| ==> es[i].0 != es[j].0
    ensures es[j].0 in FoldEntries(es) && FoldEntries(es)[es[j].0] == es[j].1
  {
    if j < |es| - 1 {
      var init := es[..|es| - 1];
      FoldKeepsLastEntry(init, j);
    }
  }

  /** Folding a block: each of its pincodes maps to its district. */
  function BlockTable(b: Block): (m: map<int, string>)
    ensures forall p :: p in m <==> p in b.pincodes
    ensures forall p :: p in m ==> m[p] == b.district
  {
    map p | p in b.pincodes :: b.district
  }

  lemma {:induction false} FoldAppend(a: seq<(int, string)>, b: seq<(int, string)>)
    ensures FoldEntries(a + b) == FoldEntries(a) + FoldEntries(b)
    decreases |b|
  {
    if b == [] {
      assert a + b == a;
    } else {
      var b' := b[..|b| - 1];
      assert (a + b)[..|a + b| - 1] == a + b';
      FoldAppend(a, b');
    }
  }

  lemma {:induction false} FoldBlock(b: Block)
    ensures FoldEntries(BlockEntries(b)) == BlockTable(b)
    decreases |b.pincodes|
  {
    if b.pincodes != [] {
      var init := Block(b.district, b.pincodes[..|b.pincodes| - 1]);
      var last := b.pincodes[|b.pincodes| - 1];
      FoldAppend(BlockEntries(init), [(last, b.district)]);
      FoldBlock(init);
      assert b.pincodes == init.pincodes + [last];
    }
  }

  /** Folding entry by entry is the same as overlaying block after block. */
  function BlockFold(bs: seq<Block>): map<int, string>
  {
    if bs == [] then map[] else BlockFold(bs[..|bs| - 1]) + BlockTable(bs[|bs| - 1])
  }

  lemma {:induction false} EntryFoldIsBlockFold(bs: seq<Block>)
    ensures FoldEntries(Entries(bs)) == BlockFold(bs)
  {
    if bs != [] {
      EntryFoldIsBlockFold(bs[..|bs| - 1]);
      FoldAppend(Entries(bs[..|bs| - 1]), BlockEntries(bs[|bs| - 1]));
      FoldBlock(bs[|bs| - 1]);
    }
  }

  /** A pincode maps to the district of the last block listing it. */
  lemma {:induction false} BlockFoldLastListing(bs: seq<Block>, j: nat, p: int)
    requires j < |bs| && p in bs[j].pincodes
    requires forall i :: j < i < |bs| ==> p !in bs[i].pincodes
    ensures p in BlockFold(bs) && BlockFold(bs)[p] == bs[j].district
  {
    if j < |bs| - 1 {
      BlockFoldLastListing(bs[..|bs| - 1], j, p);
    }
  }

  /** The keys are exactly the listed pincodes, and each value is the
      district of a block listing the key. */
  lemma {:induction false} BlockFoldSource(bs: seq<Block>, p: int)
    ensures p in BlockFold(bs) <==> exists i :: 0 <= i < |bs| && p in bs[i].pincodes
    ensures p in BlockFold(bs) ==>
      exists i :: 0 <= i < |bs| && p in bs[i].pincodes && BlockFold(bs)[p] == bs[i].district
  {
    if bs != [] {
      var init := bs[..|bs| - 1];
      BlockFoldSource(init, p);
      if exists i :: 0 <= i < |init| && p in init[i].pincodes {
        var i :| 0 <= i < |init| && p in init[i].pincodes;
        assert p in bs[i].pincodes;
      }
      if exists i :: 0 <= i < |bs| && p in bs[i].pincodes {
        var i :| 0 <= i < |bs| && p in bs[i].pincodes;
        if i < |init| {
          assert p in init[i].pincodes;
        }
      }
    }
  }

  /** PINCODE_TO_DISTRICT of this file. */
  function PincodeToDistrict(): map<int, string>
  {
    FoldEntries(Entries(Blocks))
  }

  /** A repeated pincode belongs to the last block listing it:
      110031 to Shahdara, 110001 to New Delhi, 110003 to South Delhi and
      110006 to North Delhi. */
  lemma RepeatedPincodesTakeLastDistrict()
    ensures 110031 in PincodeToDistrict() && PincodeToDistrict()[110031] == "Shahdara"
    ensures 110001 in PincodeToDistrict() && PincodeToDistrict()[110001] == "New Delhi"
    ensures 110003 in PincodeToDistrict() && PincodeToDistrict()[110003] == "South Delhi"
    ensures 110006 in PincodeToDistrict() && PincodeToDistrict()[110006] == "North Delhi"
  {
    EntryFoldIsBlockFold(Blocks);
    ShahdaraKeeps110031();
    NewDelhiKeeps110001();
    SouthKeeps110003();
    NorthKeeps110006();
  }

  /** None of a block's pincodes is one of `ps`. */
  predicate Avoids(pincodes: seq<int>, ps: set<int>)
  {
    forall k :: 0 <= k < |pincodes| ==> pincodes[k] !in ps
  }

  /** Which of the repeated pincodes each later block does not list. */
  lemma EastAvoidsRepeats()
    ensures Avoids(EastPincodes, {110001})
  {
  }

  lemma NorthAvoidsRepeats()
    ensures Avoids(NorthPincodes, {110001})
  {
  }

  lemma NorthEastAvoidsRepeats()
    ensures Avoids(NorthEastPincodes, {110001, 110006})
  {
  }

  lemma NorthWestAvoidsRepeats()
    ensures Avoids(NorthWestPincodes, {110001, 110006})
  {
  }

  lemma ShahdaraAvoidsRepeats()
    ensures Avoids(ShahdaraPincodes, {110001, 110006})
  {
  }

  lemma SouthAvoidsRepeats()
    ensures Avoids(SouthPincodes, {110001, 110006, 110031})
  {
  }

  lemma SouthEastAvoidsRepeats()
    ensures Avoids(SouthEastPincodes, {110001, 110006, 110031, 110003})
  {
  }

  lemma SouthWestAvoidsRepeats()
    ensures Avoids(SouthWestPincodes, {110001, 110006, 110031, 110003})
  {
  }

  lemma WestAvoidsRepeats()
    ensures Avoids(WestPincodes, {110001, 110006, 110031, 110003})
  {
  }

  lemma ShahdaraKeeps110031()
    ensures 110031 in BlockFold(Blocks) && BlockFold(Blocks)[110031] == "Shahdara"
  {
    EastAvoidsRepeats();
    NorthAvoidsRepeats();
    NorthEastAvoidsRepeats();
    NorthWestAvoidsRepeats();
    ShahdaraAvoidsRepeats();
    SouthAvoidsRepeats();
    SouthEastAvoidsRepeats();
    SouthWestAvoidsRepeats();
    WestAvoidsRepeats();
    forall i | 6 < i < |Blocks|
      ensures 110031 !in Blocks[i].pincodes
    {
    }
    BlockFoldLastListing(Blocks, 6, 110031);
  }

  lemma NewDelhiKeeps110001()
    ensures 110001 in BlockFold(Blocks) && BlockFold(Blocks)[110001] == "New Delhi"
  {
    EastAvoidsRepeats();
    NorthAvoidsRepeats();
    NorthEastAvoidsRepeats();
    NorthWestAvoidsRepeats();
    ShahdaraAvoidsRepeats();
    SouthAvoidsRepeats();
    SouthEastAvoidsRepeats();
    SouthWestAvoidsRepeats();
    WestAvoidsRepeats();
    forall i | 1 < i < |Blocks|
      ensures 110001 !in Blocks[i].pincodes
    {
    }
    BlockFoldLastListing(Blocks, 1, 110001);
  }

  lemma SouthKeeps110003()
    ensures 110003 in BlockFold(Blocks) && BlockFold(Blocks)[110003] == "South Delhi"
  {
    EastAvoidsRepeats();
    NorthAvoidsRepeats();
    NorthEastAvoidsRepeats();
    NorthWestAvoidsRepeats();
    ShahdaraAvoidsRepeats();
    SouthAvoidsRepeats();
    SouthEastAvoidsRepeats();
    SouthWestAvoidsRepeats();
    WestAvoidsRepeats();
    forall i | 7 < i < |Blocks|
      ensures 110003 !in Blocks[i].pincodes
    {
    }
    BlockFoldLastListing(Blocks, 7, 110003);
  }

  lemma NorthKeeps110006()
    ensures 110006 in BlockFold(Blocks) && BlockFold(Blocks)[110006] == "North Delhi"
  {
    EastAvoidsRepeats();
    NorthAvoidsRepeats();
    NorthEastAvoidsRepeats();
    NorthWestAvoidsRepeats();
    ShahdaraAvoidsRepeats();
    SouthAvoidsRepeats();
    SouthEastAvoidsRepeats();
    SouthWestAvoidsRepeats();
    WestAvoidsRepeats();
    forall i | 3 < i < |Blocks|
      ensures 110006 !in Blocks[i].pincodes
    {
    }
    BlockFoldLastListing(Blocks, 3, 110006);
  }

  /** Overlaying blocks of profiled districts names profiled districts only. */
  lemma BlockFoldNamesKnownDistricts(bs: seq<Block>)
    requires forall i :: 0 <= i < |bs| ==> bs[i].district in Geo.DelhiDistricts
    ensures Geo.NamesKnownDistricts(BlockFold(bs))
  {
    forall p | p in BlockFold(bs)
      ensures BlockFold(bs)[p] in Geo.DelhiDistricts
    {
      BlockFoldSource(bs, p);
    }
  }

  lemma BlocksNameKnownDistricts()
    ensures forall i :: 0 <= i < |Blocks| ==> Blocks[i].district in Geo.DelhiDistricts
  {
  }

  /** Every district this table names has a profile. */
  lemma PincodeTableNamesKnownDistricts()
    ensures Geo.NamesKnownDistricts(PincodeToDistrict())
  {
    EntryFoldIsBlockFold(Blocks);
    BlocksNameKnownDistricts();
    BlockFoldNamesKnownDistricts(Blocks);
  }

  // ---------------------------------------------------------------------
  // Lookups
  // ---------------------------------------------------------------------

  /** getDistrictInfo with this file's pincode table. */
  function GetDistrictInfo(lat: real, lon: real, pincode: int): (r: Option<Geo.DistrictInfo>)
    ensures r.Some? ==> r.value.profile.Some?
    ensures pincode != 0 && pincode in PincodeToDistrict() ==>
      r.Some? && r.value.source == Geo.FromPincode && r.value.district == PincodeToDistrict()[pincode]
    ensures pincode == 0 || pincode !in PincodeToDistrict() ==>
      (r.Some? <==> lat != 0.0 && lon != 0.0 && Geo.IsWithinDelhi(lat, lon))
  {
    PincodeTableNamesKnownDistricts();
    Geo.DistrictInfoIsProfiled(PincodeToDistrict(), lat, lon, pincode);
    Geo.DistrictInfoFrom(PincodeToDistrict(), lat, lon, pincode)
  }

  /** The two files disagree on 110003 and 110006. */
  lemma TablesDisagree()
    ensures Geo.GetDistrictInfo(0.0, 0.0, 110003).Some?
    ensures Geo.GetDistrictInfo(0.0, 0.0, 110003).value.district == "New Delhi"
    ensures GetDistrictInfo(0.0, 0.0, 110003).Some?
    ensures GetDistrictInfo(0.0, 0.0, 110003).value.district == "South Delhi"
    ensures Geo.GetDistrictInfo(0.0, 0.0, 110006).value.district == "New Delhi"
    ensures GetDistrictInfo(0.0, 0.0, 110006).Some?
    ensures GetDistrictInfo(0.0, 0.0, 110006).value.district == "North Delhi"
  {
    RepeatedPincodesTakeLastDistrict();
  }

  const GeologicalData: map<string, Geo.Geology> := map[
    "Central Delhi" := Geo.Geology("Alluvium", "Sandy Loam", 12.0),
    "East Delhi" := Geo.Geology("Alluvium", "Clay Loam", 5.25),
    "New Delhi" := Geo.Geology("Alluvium", "Sandy", 27.9),
    "North Delhi" := Geo.Geology("Alluvium", "Loam", 15.0),
    "North East Delhi" := Geo.Geology("Alluvium", "Clay Loam", 4.65),
    "North West Delhi" := Geo.Geology("Alluvium", "Sandy Loam", 39.85),
    "Shahdara" := Geo.Geology("Alluvium", "Clay", 5.0),
    "South Delhi" := Geo.Geology("Quartzite", "Sandy", 60.8),
    "South East Delhi" := Geo.Geology("Alluvium", "Sandy Loam", 14.0),
    "South West Delhi" := Geo.Geology("Quartzite", "Sandy Loam", 41.8),
    "West Delhi" := Geo.Geology("Alluvium", "Loam", 12.0)
  ]

  /** getGeologicalInfo with this file's table: every district has a row,
      depths run from 4.65 m to 60.8 m, and the lithology agrees with the
      profile's soil type. */
  function GetGeologicalInfo(district: string): (g: Option<Geo.Geology>)
    ensures g.Some? <==> district in Geo.DelhiDistricts
    ensures g.Some? ==> 4.65 <= g.value.waterDepth <= 60.8
    ensures g.Some? ==> (g.value.lithoClass == "Quartzite" <==> Geo.DelhiDistricts[district].soilType == "Quartzite")
  {
    assert GeologicalData.Keys == Geo.DelhiDistricts.Keys;
    Geo.GeologicalInfoFrom(GeologicalData, district)
  }

  /** North East Delhi is the only district shallower than 5 m, and East
      Delhi sits just above it. */
  lemma ShallowestDistricts(district: string)
    requires district in Geo.DelhiDistricts
    ensures GetGeologicalInfo(district).value.waterDepth < 5.0 <==> district == "North East Delhi"
    ensures GetGeologicalInfo("East Delhi").value.waterDepth == 5.25
  {
  }
}
