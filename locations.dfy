/** Lookups both forms perform on the location catalog (a constant list of
    regions, each with its sub-districts). The catalog itself is data from a
    module outside this model and is passed in as a parameter. */
module Locations {
  import opened Types

  /** Entry `i` is the first entry of the catalog for `region`, which is
      the one `Array.prototype.find` returns. */
  ghost predicate IsFirstMatch(locations: seq<LocationOption>, region: string, i: int)
  {
    && 0 <= i < |locations|
    && locations[i].region == region
    && forall j :: 0 <= j < i ==> locations[j].region != region
  }

  /** `LOCATION_DATA.find(l => l.region === region)`. */
  function FindLocation(locations: seq<LocationOption>, region: string): (found: Option<LocationOption>)
    ensures found.None? <==> forall i :: 0 <= i < |locations| ==> locations[i].region != region
    ensures found.Some? ==> exists i :: IsFirstMatch(locations, region, i) && locations[i] == found.value
  {
    if locations == [] then None
    else if locations[0].region == region then
      assert IsFirstMatch(locations, region, 0);
      Some(locations[0])
    else
      var rest := FindLocation(locations[1..], region);
      assert rest.Some? ==> exists i :: IsFirstMatch(locations, region, i) && locations[i] == rest.value by {
        if rest.Some? {
          var k :| IsFirstMatch(locations[1..], region, k) && locations[1..][k] == rest.value;
          assert IsFirstMatch(locations, region, k + 1);
        }
      }
      rest
  }

  /** `find(...)?.subDistricts || []`: the sub-districts of the region, or
      none when the region is not in the catalog. */
  function SubDistrictsOf(locations: seq<LocationOption>, region: string): (subs: seq<string>)
    ensures (forall i :: 0 <= i < |locations| ==> locations[i].region != region) ==> subs == []
    ensures subs != [] ==> exists i :: IsFirstMatch(locations, region, i) && locations[i].subDistricts == subs
    ensures forall i :: IsFirstMatch(locations, region, i) ==> subs == locations[i].subDistricts
  {
    FirstMatchIsUnique(locations, region);
    match FindLocation(locations, region)
    case Some(l) => l.subDistricts
    case None => []
  }

  /** A region has at most one first entry in the catalog. */
  lemma FirstMatchIsUnique(locations: seq<LocationOption>, region: string)
    ensures forall i, j :: IsFirstMatch(locations, region, i) && IsFirstMatch(locations, region, j) ==> i == j
  {
  }

  /** `find(...)?.subDistricts[0] || ''`: the sub-district a region change
      selects. */
  function FirstSubDistrict(locations: seq<LocationOption>, region: string): (sub: string)
    ensures SubDistrictsOf(locations, region) != [] ==> sub == SubDistrictsOf(locations, region)[0]
    ensures SubDistrictsOf(locations, region) == [] ==> sub == ""
  {
    match FindLocation(locations, region)
    case Some(l) => if l.subDistricts != [] && l.subDistricts[0] != "" then l.subDistricts[0] else ""
    case None => ""
  }

  /** The region / sub-district pair is one the catalog offers: the
      sub-district belongs to the region, or the region offers none and the
      sub-district is empty. */
  ghost predicate Consistent(locations: seq<LocationOption>, region: string, subDistrict: string)
  {
    subDistrict in SubDistrictsOf(locations, region) ||
    (SubDistrictsOf(locations, region) == [] && subDistrict == "")
  }

  /** Selecting a region always yields a consistent pair, whatever region is
      chosen (including one missing from the catalog). */
  lemma RegionChangeIsConsistent(locations: seq<LocationOption>, region: string)
    ensures Consistent(locations, region, FirstSubDistrict(locations, region))
  {
  }

  /** The initial draft (first region, its first sub-district) is
      consistent. */
  lemma InitialLocationIsConsistent(locations: seq<LocationOption>)
    requires |locations| > 0 && |locations[0].subDistricts| > 0
    ensures Consistent(locations, locations[0].region, locations[0].subDistricts[0])
  {
    assert IsFirstMatch(locations, locations[0].region, 0);
  }
}
