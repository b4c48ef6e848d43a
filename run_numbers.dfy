/** utils/runNumberGenerator.py: the constant angle tables of the radio
    production and the ID lookups built on them.  A table is the list of its
    values in ID order (the dictionaries map the IDs 0..8 to values and are
    iterated in that order); angles and particle codes are compared as
    numbers, so 65 and 65.0 are the same key. */
module RunNumbers {
  import opened Wrappers

  /** `zenithDict`: 65°, 67.5°, ..., 85° get the IDs 0..8. */
  const ZenithTable: seq<real> := [65.0, 67.5, 70.0, 72.5, 75.0, 77.5, 80.0, 82.5, 85.0]

  /** `azimuthDict`: 0°, 45°, ..., 360° get the IDs 0..8. */
  const AzimuthTable: seq<real> := [0.0, 45.0, 90.0, 135.0, 180.0, 225.0, 270.0, 315.0, 360.0]

  /** `primaryDict`: proton (14) gets 0, iron (5626) gets 1.  No lookup
      reads it. */
  const PrimaryTable: map<int, nat> := map[14 := 0, 5626 := 1]

  predicate DistinctValues(t: seq<real>)
  {
    forall i, j :: 0 <= i < j < |t| ==> t[i] != t[j]
  }

  /** The `for key, value in d.items(): if value == x: ... break` search:
      the first ID from `from` on whose value is x, or None. */
  function Lookup(t: seq<real>, x: real, from: nat): (r: Option<nat>)
    requires from <= |t|
    ensures r.Some? ==> from <= r.value < |t|
    decreases |t| - from
  {
    if from == |t| then None
    else if t[from] == x then Some(from)
    else Lookup(t, x, from + 1)
  }

  /** The search finds the first match, and finds nothing exactly when no
      value from `from` on is x. */
  lemma {:induction false} LookupMeaning(t: seq<real>, x: real, from: nat)
    requires from <= |t|
    ensures var r := Lookup(t, x, from);
            (r.Some? ==> t[r.value] == x && forall j :: from <= j < r.value ==> t[j] != x) &&
            (r.None? <==> forall j :: from <= j < |t| ==> t[j] != x)
    decreases |t| - from
  {
    if from < |t| && t[from] != x {
      LookupMeaning(t, x, from + 1);
    }
  }

  /** In a table without repeated values the search finds the ID of every
      value. */
  lemma LookupFindsIndex(t: seq<real>, k: nat)
    requires DistinctValues(t) && k < |t|
    ensures Lookup(t, t[k], 0) == Some(k)
  {
    var r := Lookup(t, t[k], 0);
    LookupMeaning(t, t[k], 0);
    assert r.Some? by { assert t[k] == t[k]; }
    assert r.value <= k;
  }

  /** `getZenithID` */
  function GetZenithID(angle: real): (id: Option<nat>)
    ensures id.Some? ==> id.value < 9 && ZenithTable[id.value] == angle
  {
    LookupMeaning(ZenithTable, angle, 0);
    Lookup(ZenithTable, angle, 0)
  }

  /** `getAzimuthID` */
  function GetAzimuthID(angle: real): (id: Option<nat>)
    ensures id.Some? ==> id.value < 9 && AzimuthTable[id.value] == angle
  {
    LookupMeaning(AzimuthTable, angle, 0);
    Lookup(AzimuthTable, angle, 0)
  }

  /** `getPrimaryID`: as written it searches the zenith table. */
  function GetPrimaryID(particle: real): (id: Option<nat>)
    ensures id.Some? ==> id.value < 9 && ZenithTable[id.value] == particle
  {
    LookupMeaning(ZenithTable, particle, 0);
    Lookup(ZenithTable, particle, 0)
  }

  /** A zenith ID names a table angle, and any other angle has none. */
  lemma ZenithIDMeaning(angle: real)
    ensures GetZenithID(angle).Some? ==>
              GetZenithID(angle).value < 9 && ZenithTable[GetZenithID(angle).value] == angle
    ensures GetZenithID(angle).None? <==> angle !in ZenithTable
  {
    var r := GetZenithID(angle);
    LookupMeaning(ZenithTable, angle, 0);
    if r.None? {
      forall j | 0 <= j < |ZenithTable| ensures ZenithTable[j] != angle { }
    }
  }

  /** An azimuth ID names a table angle, and any other angle has none. */
  lemma AzimuthIDMeaning(angle: real)
    ensures GetAzimuthID(angle).Some? ==>
              GetAzimuthID(angle).value < 9 && AzimuthTable[GetAzimuthID(angle).value] == angle
    ensures GetAzimuthID(angle).None? <==> angle !in AzimuthTable
  {
    var r := GetAzimuthID(angle);
    LookupMeaning(AzimuthTable, angle, 0);
    if r.None? {
      forall j | 0 <= j < |AzimuthTable| ensures AzimuthTable[j] != angle { }
    }
  }

  /** Both tables are free of repeats, so each lookup inverts its table. */
  lemma TablesRoundTrip(k: nat)
    requires k < 9
    ensures GetZenithID(ZenithTable[k]) == Some(k)
    ensures GetAzimuthID(AzimuthTable[k]) == Some(k)
  {
    assert DistinctValues(ZenithTable);
    assert DistinctValues(AzimuthTable);
    LookupFindsIndex(ZenithTable, k);
    LookupFindsIndex(AzimuthTable, k);
  }

  /** North counted as 0° and as 360° gets two different azimuth IDs. */
  lemma FullCircleTwoIDs()
    ensures GetAzimuthID(0.0) == Some(0)
    ensures GetAzimuthID(360.0) == Some(8)
  {
    TablesRoundTrip(0);
    TablesRoundTrip(8);
  }

  /** Because `getPrimaryID` reads the zenith table, the particle codes of
      `primaryDict` get no ID while the code 65 gets the ID 0. */
  lemma PrimaryIDReadsZenithTable()
    ensures forall p :: p in PrimaryTable ==> GetPrimaryID(p as real) == None
    ensures GetPrimaryID(65.0) == Some(0)
  {
    forall p | p in PrimaryTable ensures GetPrimaryID(p as real) == None {
      assert p == 14 || p == 5626;
      ZenithIDMeaning(p as real);
    }
    TablesRoundTrip(0);
  }
}
