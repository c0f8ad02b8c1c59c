/**
 * The physical hierarchy (`models/farm.py`): farm → sector → unit → house.
 *
 * The tables are sequences of records in the platform's record order; a
 * parent reference that names no record of the parent table plays the part
 * of an empty many-to-one field.
 */
module Farm {
  import opened Common

  datatype FarmRec = FarmRec(id: FarmId, name: string)
  datatype Sector = Sector(id: SectorId, name: string, farm: FarmId)
  datatype Unit = Unit(id: UnitId, name: string, sector: SectorId)
  datatype House = House(id: HouseId, name: string, unit: UnitId, area: real)

  datatype Hierarchy = Hierarchy(
    farms: seq<FarmRec>,
    sectors: seq<Sector>,
    units: seq<Unit>,
    houses: seq<House>)

  /** Record ids are primary keys: no two records of a table share one. */
  predicate UniqueIds(h: Hierarchy)
  {
    (forall i, j :: 0 <= i < j < |h.farms| ==> h.farms[i].id != h.farms[j].id) &&
    (forall i, j :: 0 <= i < j < |h.sectors| ==> h.sectors[i].id != h.sectors[j].id) &&
    UniqueUnitIds(h.units) &&
    (forall i, j :: 0 <= i < j < |h.houses| ==> h.houses[i].id != h.houses[j].id)
  }

  predicate UniqueUnitIds(us: seq<Unit>)
  {
    forall i, j :: 0 <= i < j < |us| ==> us[i].id != us[j].id
  }

  predicate UniqueSectorIds(ss: seq<Sector>)
  {
    forall i, j :: 0 <= i < j < |ss| ==> ss[i].id != ss[j].id
  }

  // ----- lookups (many-to-one fields) -----

  function FindFarm(fs: seq<FarmRec>, id: FarmId): (r: Option<FarmRec>)
    ensures r.Some? ==> r.value in fs && r.value.id == id
    ensures r.None? ==> forall f :: f in fs ==> f.id != id
  {
    if fs == [] then None else if fs[0].id == id then Some(fs[0]) else FindFarm(fs[1..], id)
  }

  function FindSector(ss: seq<Sector>, id: SectorId): (r: Option<Sector>)
    ensures r.Some? ==> r.value in ss && r.value.id == id
    ensures r.None? ==> forall s :: s in ss ==> s.id != id
  {
    if ss == [] then None else if ss[0].id == id then Some(ss[0]) else FindSector(ss[1..], id)
  }

  function FindUnit(us: seq<Unit>, id: UnitId): (r: Option<Unit>)
    ensures r.Some? ==> r.value in us && r.value.id == id
    ensures r.None? ==> forall u :: u in us ==> u.id != id
  {
    if us == [] then None else if us[0].id == id then Some(us[0]) else FindUnit(us[1..], id)
  }

  function FindHouse(hs: seq<House>, id: HouseId): (r: Option<House>)
    ensures r.Some? ==> r.value in hs && r.value.id == id
    ensures r.None? ==> forall x :: x in hs ==> x.id != id
  {
    if hs == [] then None else if hs[0].id == id then Some(hs[0]) else FindHouse(hs[1..], id)
  }

  /** A house's area, as read through its id (0 for an id naming no house). */
  function HouseArea(h: Hierarchy, id: HouseId): real
  {
    match FindHouse(h.houses, id)
    case Some(x) => x.area
    case None => 0.0
  }

  /** `farm.house._check_area`: the area of a house must be positive. */
  function CheckArea(area: real): (r: Outcome)
    ensures r.Pass? <==> area > 0.0
  {
    if area <= 0.0 then Fail(InvalidQuantity) else Pass
  }

  // ----- related fields -----

  /** `farm.house.sector_id`, related to `unit_id.sector_id`. */
  function HouseSector(h: Hierarchy, x: House): Option<SectorId>
  {
    match FindUnit(h.units, x.unit)
    case Some(u) => Some(u.sector)
    case None => None
  }

  /** `farm.house.farm_id`, related to `unit_id.farm_id`, itself `sector_id.farm_id`. */
  function HouseFarm(h: Hierarchy, x: House): Option<FarmId>
  {
    match FindUnit(h.units, x.unit)
    case Some(u) =>
      (match FindSector(h.sectors, u.sector)
       case Some(s) => Some(s.farm)
       case None => None)
    case None => None
  }

  // ----- one-to-many fields -----

  /** The houses whose unit is one of `us`. */
  function HousesOfUnits(hs: seq<House>, us: set<UnitId>): (r: seq<House>)
    ensures |r| <= |hs|
  {
    if hs == [] then []
    else (if hs[0].unit in us then [hs[0]] else []) + HousesOfUnits(hs[1..], us)
  }

  /** The units whose sector is one of `ss`. */
  function UnitsOfSectors(us: seq<Unit>, ss: set<SectorId>): (r: seq<Unit>)
    ensures |r| <= |us|
  {
    if us == [] then []
    else (if us[0].sector in ss then [us[0]] else []) + UnitsOfSectors(us[1..], ss)
  }

  function SectorsOfFarm(ss: seq<Sector>, f: FarmId): (r: seq<Sector>)
  {
    if ss == [] then []
    else (if ss[0].farm == f then [ss[0]] else []) + SectorsOfFarm(ss[1..], f)
  }

  function UnitIdsOf(us: seq<Unit>): set<UnitId>
  {
    if us == [] then {} else {us[0].id} + UnitIdsOf(us[1..])
  }

  function SectorIdsOf(ss: seq<Sector>): set<SectorId>
  {
    if ss == [] then {} else {ss[0].id} + SectorIdsOf(ss[1..])
  }

  lemma {:induction false} HousesOfUnitsMembers(hs: seq<House>, us: set<UnitId>)
    ensures forall x :: x in HousesOfUnits(hs, us) <==> x in hs && x.unit in us
  {
    if hs != [] { HousesOfUnitsMembers(hs[1..], us); }
  }

  lemma {:induction false} UnitsOfSectorsMembers(us: seq<Unit>, ss: set<SectorId>)
    ensures forall u :: u in UnitsOfSectors(us, ss) <==> u in us && u.sector in ss
  {
    if us != [] { UnitsOfSectorsMembers(us[1..], ss); }
  }

  lemma {:induction false} SectorsOfFarmMembers(ss: seq<Sector>, f: FarmId)
    ensures forall s :: s in SectorsOfFarm(ss, f) <==> s in ss && s.farm == f
  {
    if ss != [] { SectorsOfFarmMembers(ss[1..], f); }
  }

  lemma {:induction false} UnitIdsOfMembers(us: seq<Unit>)
    ensures forall id :: id in UnitIdsOf(us) <==> exists u :: u in us && u.id == id
  {
    if us != [] { UnitIdsOfMembers(us[1..]); }
  }

  lemma {:induction false} SectorIdsOfMembers(ss: seq<Sector>)
    ensures forall id :: id in SectorIdsOf(ss) <==> exists s :: s in ss && s.id == id
  {
    if ss != [] { SectorIdsOfMembers(ss[1..]); }
  }

  function TotalAreaOf(hs: seq<House>): real
  {
    if hs == [] then 0.0 else hs[0].area + TotalAreaOf(hs[1..])
  }

  // ----- aggregates (`_compute_counts`) -----

  datatype Counts = Counts(sectors: nat, units: nat, houses: nat, area: real)

  function UnitCounts(h: Hierarchy, u: UnitId): Counts
  {
    var houses := HousesOfUnits(h.houses, {u});
    Counts(0, 0, |houses|, TotalAreaOf(houses))
  }

  function SectorCounts(h: Hierarchy, s: SectorId): Counts
  {
    var units := UnitsOfSectors(h.units, {s});
    var houses := HousesOfUnits(h.houses, UnitIdsOf(units));
    Counts(0, |units|, |houses|, TotalAreaOf(houses))
  }

  function FarmCounts(h: Hierarchy, f: FarmId): Counts
  {
    var sectors := SectorsOfFarm(h.sectors, f);
    var units := UnitsOfSectors(h.units, SectorIdsOf(sectors));
    var houses := HousesOfUnits(h.houses, UnitIdsOf(units));
    Counts(|sectors|, |units|, |houses|, TotalAreaOf(houses))
  }

  /** Sums of the unit aggregates over a list of units. */
  function SumUnitHouses(h: Hierarchy, us: seq<Unit>): nat
  {
    if us == [] then 0 else UnitCounts(h, us[0].id).houses + SumUnitHouses(h, us[1..])
  }

  function SumUnitArea(h: Hierarchy, us: seq<Unit>): real
  {
    if us == [] then 0.0 else UnitCounts(h, us[0].id).area + SumUnitArea(h, us[1..])
  }

  function SumSectorUnits(h: Hierarchy, ss: seq<Sector>): nat
  {
    if ss == [] then 0 else SectorCounts(h, ss[0].id).units + SumSectorUnits(h, ss[1..])
  }

  function SumSectorHouses(h: Hierarchy, ss: seq<Sector>): nat
  {
    if ss == [] then 0 else SectorCounts(h, ss[0].id).houses + SumSectorHouses(h, ss[1..])
  }

  function SumSectorArea(h: Hierarchy, ss: seq<Sector>): real
  {
    if ss == [] then 0.0 else SectorCounts(h, ss[0].id).area + SumSectorArea(h, ss[1..])
  }

  /** Filtering houses by a disjoint union of units splits the count and the area. */
  lemma {:induction false} HousesOfDisjointUnits(hs: seq<House>, a: set<UnitId>, b: set<UnitId>)
    requires a !! b
    ensures |HousesOfUnits(hs, a + b)| == |HousesOfUnits(hs, a)| + |HousesOfUnits(hs, b)|
    ensures TotalAreaOf(HousesOfUnits(hs, a + b)) ==
            TotalAreaOf(HousesOfUnits(hs, a)) + TotalAreaOf(HousesOfUnits(hs, b))
  {
    if hs != [] {
      var x, t := hs[0], hs[1..];
      var ab, ra, rb := HousesOfUnits(t, a + b), HousesOfUnits(t, a), HousesOfUnits(t, b);
      HousesOfDisjointUnits(t, a, b);
      if x.unit in a {
        assert HousesOfUnits(hs, a + b) == [x] + ab;
        assert HousesOfUnits(hs, a) == [x] + ra;
        assert HousesOfUnits(hs, b) == rb;
        AreaPrepend(x, ab);
        AreaPrepend(x, ra);
      } else if x.unit in b {
        assert HousesOfUnits(hs, a + b) == [x] + ab;
        assert HousesOfUnits(hs, a) == ra;
        assert HousesOfUnits(hs, b) == [x] + rb;
        AreaPrepend(x, ab);
        AreaPrepend(x, rb);
      } else {
        assert HousesOfUnits(hs, a + b) == ab;
        assert HousesOfUnits(hs, a) == ra;
        assert HousesOfUnits(hs, b) == rb;
      }
    }
  }

  lemma AreaPrepend(x: House, hs: seq<House>)
    ensures TotalAreaOf([x] + hs) == x.area + TotalAreaOf(hs)
  {
    assert ([x] + hs)[1..] == hs;
  }

  lemma {:induction false} UnitsOfDisjointSectors(us: seq<Unit>, a: set<SectorId>, b: set<SectorId>)
    requires a !! b
    ensures |UnitsOfSectors(us, a + b)| == |UnitsOfSectors(us, a)| + |UnitsOfSectors(us, b)|
    ensures UnitIdsOf(UnitsOfSectors(us, a + b)) ==
            UnitIdsOf(UnitsOfSectors(us, a)) + UnitIdsOf(UnitsOfSectors(us, b))
  {
    if us != [] {
      var u, t := us[0], us[1..];
      UnitsOfDisjointSectors(t, a, b);
      var ab, ra, rb := UnitsOfSectors(t, a + b), UnitsOfSectors(t, a), UnitsOfSectors(t, b);
      if u.sector in a {
        assert UnitsOfSectors(us, a + b) == [u] + ab;
        assert UnitsOfSectors(us, a) == [u] + ra;
        assert UnitsOfSectors(us, b) == rb;
        UnitIdsCons(u, ab);
        UnitIdsCons(u, ra);
      } else if u.sector in b {
        assert UnitsOfSectors(us, a + b) == [u] + ab;
        assert UnitsOfSectors(us, a) == ra;
        assert UnitsOfSectors(us, b) == [u] + rb;
        UnitIdsCons(u, ab);
        UnitIdsCons(u, rb);
      } else {
        assert UnitsOfSectors(us, a + b) == ab;
        assert UnitsOfSectors(us, a) == ra;
        assert UnitsOfSectors(us, b) == rb;
      }
    }
  }

  lemma UnitIdsCons(u: Unit, rest: seq<Unit>)
    ensures UnitIdsOf([u] + rest) == {u.id} + UnitIdsOf(rest)
  {
    assert ([u] + rest)[1..] == rest;
  }

  /** Unit ids picked by two disjoint sector sets are disjoint when unit ids are unique. */
  lemma UnitIdsOfDisjointSectors(us: seq<Unit>, a: set<SectorId>, b: set<SectorId>)
    requires a !! b
    requires UniqueUnitIds(us)
    ensures UnitIdsOf(UnitsOfSectors(us, a)) !! UnitIdsOf(UnitsOfSectors(us, b))
  {
    UnitIdsOfMembers(UnitsOfSectors(us, a));
    UnitIdsOfMembers(UnitsOfSectors(us, b));
    UnitsOfSectorsMembers(us, a);
    UnitsOfSectorsMembers(us, b);
    forall id | id in UnitIdsOf(UnitsOfSectors(us, a))
      ensures id !in UnitIdsOf(UnitsOfSectors(us, b))
    {
      var u1 :| u1 in UnitsOfSectors(us, a) && u1.id == id;
      var i :| 0 <= i < |us| && us[i] == u1;
      forall u2 | u2 in UnitsOfSectors(us, b) ensures u2.id != id {
        var j :| 0 <= j < |us| && us[j] == u2;
        assert i != j ==> us[i].id != us[j].id;
      }
    }
  }

  lemma {:induction false} HousesOfNoUnits(hs: seq<House>)
    ensures HousesOfUnits(hs, {}) == []
  {
    if hs != [] { HousesOfNoUnits(hs[1..]); }
  }

  lemma {:induction false} UnitsOfNoSectors(us: seq<Unit>)
    ensures UnitsOfSectors(us, {}) == []
  {
    if us != [] { UnitsOfNoSectors(us[1..]); }
  }

  lemma {:induction false} UnitsSplitHouses(h: Hierarchy, us: seq<Unit>)
    requires UniqueUnitIds(us)
    ensures |HousesOfUnits(h.houses, UnitIdsOf(us))| == SumUnitHouses(h, us)
    ensures TotalAreaOf(HousesOfUnits(h.houses, UnitIdsOf(us))) == SumUnitArea(h, us)
  {
    if us == [] {
      HousesOfNoUnits(h.houses);
    } else {
      var rest := us[1..];
      UniqueTail(us);
      UnitsSplitHouses(h, rest);
      assert us[0].id !in UnitIdsOf(rest) by {
        UnitIdsOfMembers(rest);
        forall u | u in rest ensures u.id != us[0].id {
          var j :| 0 <= j < |rest| && rest[j] == u;
          assert us[j + 1] == u;
        }
      }
      var a: set<UnitId> := {us[0].id};
      assert UnitIdsOf(us) == a + UnitIdsOf(rest);
      HousesOfDisjointUnits(h.houses, a, UnitIdsOf(rest));
      assert SumUnitHouses(h, us) == |HousesOfUnits(h.houses, a)| + SumUnitHouses(h, rest);
      assert SumUnitArea(h, us) == TotalAreaOf(HousesOfUnits(h.houses, a)) + SumUnitArea(h, rest);
    }
  }

  lemma {:induction false} UniqueUnitsFiltered(us: seq<Unit>, ss: set<SectorId>)
    requires UniqueUnitIds(us)
    ensures UniqueUnitIds(UnitsOfSectors(us, ss))
    decreases |us|
  {
    if us != [] {
      var tail := us[1..];
      UniqueTail(us);
      UniqueUnitsFiltered(tail, ss);
      var rest := UnitsOfSectors(tail, ss);
      if us[0].sector in ss {
        UnitsOfSectorsMembers(tail, ss);
        forall x | x in rest ensures x.id != us[0].id {
          var j :| 0 <= j < |tail| && tail[j] == x;
          assert us[j + 1] == x;
        }
        UniqueCons(us[0], rest);
      } else {
        assert UnitsOfSectors(us, ss) == rest;
      }
    }
  }

  lemma UniqueTail(us: seq<Unit>)
    requires UniqueUnitIds(us) && us != []
    ensures UniqueUnitIds(us[1..])
  {
    forall i, j | 0 <= i < j < |us[1..]| ensures us[1..][i].id != us[1..][j].id {
      assert us[1..][i] == us[i + 1] && us[1..][j] == us[j + 1];
    }
  }

  lemma UniqueCons(u: Unit, rest: seq<Unit>)
    requires UniqueUnitIds(rest)
    requires forall x :: x in rest ==> x.id != u.id
    ensures UniqueUnitIds([u] + rest)
  {
    var r := [u] + rest;
    forall i, j | 0 <= i < j < |r| ensures r[i].id != r[j].id {
      assert r[j] == rest[j - 1];
      if i == 0 { assert r[j] in rest; }
      else { assert r[i] == rest[i - 1]; }
    }
  }

  /**
   * A sector's house count and area are the sums of those of its units:
   * `units.mapped('house_ids')` counts every house of the sector once.
   */
  lemma SectorAggregatesUnits(h: Hierarchy, s: SectorId)
    requires UniqueIds(h)
    ensures SectorCounts(h, s).houses == SumUnitHouses(h, UnitsOfSectors(h.units, {s}))
    ensures SectorCounts(h, s).area == SumUnitArea(h, UnitsOfSectors(h.units, {s}))
  {
    UniqueUnitsFiltered(h.units, {s});
    UnitsSplitHouses(h, UnitsOfSectors(h.units, {s}));
  }

  lemma {:induction false} SectorsSplitUnits(h: Hierarchy, ss: seq<Sector>)
    requires UniqueUnitIds(h.units)
    requires UniqueSectorIds(ss)
    ensures |UnitsOfSectors(h.units, SectorIdsOf(ss))| == SumSectorUnits(h, ss)
    ensures |HousesOfUnits(h.houses, UnitIdsOf(UnitsOfSectors(h.units, SectorIdsOf(ss))))| == SumSectorHouses(h, ss)
    ensures TotalAreaOf(HousesOfUnits(h.houses, UnitIdsOf(UnitsOfSectors(h.units, SectorIdsOf(ss))))) == SumSectorArea(h, ss)
  {
    if ss == [] {
      UnitsOfNoSectors(h.units);
      HousesOfNoUnits(h.houses);
    } else {
      var rest := ss[1..];
      assert UniqueSectorIds(rest) by {
        forall i, j | 0 <= i < j < |rest| ensures rest[i].id != rest[j].id {
          assert rest[i] == ss[i + 1] && rest[j] == ss[j + 1];
        }
      }
      SectorsSplitUnits(h, rest);
      assert ss[0].id !in SectorIdsOf(rest) by {
        SectorIdsOfMembers(rest);
        forall x | x in rest ensures x.id != ss[0].id {
          var j :| 0 <= j < |rest| && rest[j] == x;
          assert ss[j + 1] == x;
        }
      }
      var a: set<SectorId> := {ss[0].id};
      var b := SectorIdsOf(rest);
      assert SectorIdsOf(ss) == a + b;
      var ua, ub := UnitsOfSectors(h.units, a), UnitsOfSectors(h.units, b);
      UnitsOfDisjointSectors(h.units, a, b);
      UnitIdsOfDisjointSectors(h.units, a, b);
      HousesOfDisjointUnits(h.houses, UnitIdsOf(ua), UnitIdsOf(ub));
      var first := SectorCounts(h, ss[0].id);
      assert first.units == |ua|;
      assert first.houses == |HousesOfUnits(h.houses, UnitIdsOf(ua))|;
      assert first.area == TotalAreaOf(HousesOfUnits(h.houses, UnitIdsOf(ua)));
      assert SumSectorUnits(h, ss) == first.units + SumSectorUnits(h, rest);
      assert SumSectorHouses(h, ss) == first.houses + SumSectorHouses(h, rest);
      assert SumSectorArea(h, ss) == first.area + SumSectorArea(h, rest);
    }
  }

  lemma UniqueSectorsFiltered(ss: seq<Sector>, f: FarmId)
    requires UniqueSectorIds(ss)
    ensures UniqueSectorIds(SectorsOfFarm(ss, f))
    decreases |ss|
  {
    if ss != [] {
      UniqueSectorsFiltered(ss[1..], f);
      var rest := SectorsOfFarm(ss[1..], f);
      if ss[0].farm == f {
        SectorsOfFarmMembers(ss[1..], f);
        forall x | x in rest ensures x.id != ss[0].id {
          var j :| 0 <= j < |ss[1..]| && ss[1..][j] == x;
          assert ss[j + 1] == x;
        }
        var r := SectorsOfFarm(ss, f);
        assert r == [ss[0]] + rest;
        forall i, j | 0 <= i < j < |r| ensures r[i].id != r[j].id {
          if i == 0 { assert r[j] == rest[j - 1]; assert r[j] in rest; }
          else { assert r[i] == rest[i - 1] && r[j] == rest[j - 1]; }
        }
      }
    }
  }

  /**
   * A farm's unit count, house count and area are the sums of those of its
   * sectors: the chained `mapped` calls reach each unit and house once.
   */
  lemma FarmAggregatesSectors(h: Hierarchy, f: FarmId)
    requires UniqueIds(h)
    ensures FarmCounts(h, f).units == SumSectorUnits(h, SectorsOfFarm(h.sectors, f))
    ensures FarmCounts(h, f).houses == SumSectorHouses(h, SectorsOfFarm(h.sectors, f))
    ensures FarmCounts(h, f).area == SumSectorArea(h, SectorsOfFarm(h.sectors, f))
  {
    UniqueSectorsFiltered(h.sectors, f);
    SectorsSplitUnits(h, SectorsOfFarm(h.sectors, f));
  }

  lemma FindUnitUnique(us: seq<Unit>, u: Unit)
    requires UniqueUnitIds(us)
    requires u in us
    ensures FindUnit(us, u.id) == Some(u)
  {
    var r := FindUnit(us, u.id);
    var i :| 0 <= i < |us| && us[i] == u;
    var j :| 0 <= j < |us| && us[j] == r.value;
    assert i == j;
  }

  lemma FindSectorUnique(ss: seq<Sector>, s: Sector)
    requires UniqueSectorIds(ss)
    requires s in ss
    ensures FindSector(ss, s.id) == Some(s)
  {
    var r := FindSector(ss, s.id);
    var i :| 0 <= i < |ss| && ss[i] == s;
    var j :| 0 <= j < |ss| && ss[j] == r.value;
    assert i == j;
  }

  /**
   * The houses a farm counts are exactly the houses whose related `farm_id`
   * is that farm.
   */
  lemma HouseInFarmIffRelated(h: Hierarchy, f: FarmId, x: House)
    requires UniqueIds(h)
    requires x in h.houses
    ensures x in HousesOfUnits(h.houses, UnitIdsOf(UnitsOfSectors(h.units, SectorIdsOf(SectorsOfFarm(h.sectors, f)))))
            <==> HouseFarm(h, x) == Some(f)
  {
    var sids := SectorIdsOf(SectorsOfFarm(h.sectors, f));
    var units := UnitsOfSectors(h.units, sids);
    HousesOfUnitsMembers(h.houses, UnitIdsOf(units));
    UnitIdsOfMembers(units);
    UnitsOfSectorsMembers(h.units, sids);
    SectorIdsOfMembers(SectorsOfFarm(h.sectors, f));
    SectorsOfFarmMembers(h.sectors, f);
    if HouseFarm(h, x) == Some(f) {
      var u := FindUnit(h.units, x.unit).value;
      var s := FindSector(h.sectors, u.sector).value;
      assert s in SectorsOfFarm(h.sectors, f);
      assert u in units;
    }
    if x.unit in UnitIdsOf(units) {
      var u :| u in units && u.id == x.unit;
      FindUnitUnique(h.units, u);
      var s :| s in SectorsOfFarm(h.sectors, f) && s.id == u.sector;
      FindSectorUnique(h.sectors, s);
    }
  }

  // ----- full names -----

  function SectorFullName(h: Hierarchy, s: Sector): string
  {
    match FindFarm(h.farms, s.farm)
    case Some(f) => f.name + " / " + s.name
    case None => s.name
  }

  function UnitFullName(h: Hierarchy, u: Unit): string
  {
    match FindSector(h.sectors, u.sector)
    case Some(s) => SectorFullName(h, s) + " / " + u.name
    case None => u.name
  }

  function HouseFullName(h: Hierarchy, x: House): (r: string)
  {
    match FindUnit(h.units, x.unit)
    case Some(u) => UnitFullName(h, u) + " / " + x.name
    case None => x.name
  }

  /**
   * A house's full name spells the whole path from its farm; with a missing
   * parent the path starts at the first record that has none.
   */
  lemma HouseFullNamePath(h: Hierarchy, x: House)
    ensures FindUnit(h.units, x.unit).None? ==> HouseFullName(h, x) == x.name
    ensures forall u, s, f ::
              FindUnit(h.units, x.unit) == Some(u) &&
              FindSector(h.sectors, u.sector) == Some(s) &&
              FindFarm(h.farms, s.farm) == Some(f) ==>
              HouseFullName(h, x) == f.name + " / " + s.name + " / " + u.name + " / " + x.name
  {
  }

  // ----- record order -----

  /** Name `a` sorts no later than name `b`, character by character. */
  predicate NameLe(a: string, b: string)
  {
    a == [] || (b != [] && (a[0] < b[0] || (a[0] == b[0] && NameLe(a[1..], b[1..]))))
  }

  /** Any two names compare, and only equal names compare both ways. */
  lemma {:induction false} NameOrder(a: string, b: string)
    ensures NameLe(a, b) || NameLe(b, a)
    ensures NameLe(a, b) && NameLe(b, a) ==> a == b
  {
    if a != [] && b != [] && a[0] == b[0] {
      NameOrder(a[1..], b[1..]);
      assert a == [a[0]] + a[1..] && b == [b[0]] + b[1..];
    }
  }

  /** Key `a` sorts no later than key `b`: name by name, the first differing name deciding. */
  predicate KeyLe(a: seq<string>, b: seq<string>)
  {
    a == [] || (b != [] && ((NameLe(a[0], b[0]) && a[0] != b[0]) || (a[0] == b[0] && KeyLe(a[1..], b[1..]))))
  }

  /**
   * What a house sorts by: a house is ordered by its unit and then its
   * name, a unit by its sector and name, a sector by its farm and name and
   * a farm by its name, so the key is the farm, sector, unit and house
   * names. A missing record contributes an empty name.
   */
  function HouseSortKey(h: Hierarchy, y: HouseId): (r: seq<string>)
    ensures |r| == 4
    ensures forall x, u, s, f ::
              FindHouse(h.houses, y) == Some(x) && FindUnit(h.units, x.unit) == Some(u) &&
              FindSector(h.sectors, u.sector) == Some(s) && FindFarm(h.farms, s.farm) == Some(f) ==>
              r == [f.name, s.name, u.name, x.name]
  {
    var x := FindHouse(h.houses, y);
    var u := if x.Some? then FindUnit(h.units, x.value.unit) else None;
    var s := if u.Some? then FindSector(h.sectors, u.value.sector) else None;
    var f := if s.Some? then FindFarm(h.farms, s.value.farm) else None;
    [if f.Some? then f.value.name else "", if s.Some? then s.value.name else "",
     if u.Some? then u.value.name else "", if x.Some? then x.value.name else ""]
  }

  // ----- the source selection shared by costs and orders -----

  /** Recordset union `acc | xs`: `acc` followed by the new members of `xs`. */
  function Union(acc: seq<HouseId>, xs: seq<HouseId>): (r: seq<HouseId>)
    ensures forall y :: y in r <==> y in acc || y in xs
    ensures NoDup(acc) ==> NoDup(r)
    ensures acc <= r
    decreases xs
  {
    if xs == [] then acc
    else if xs[0] in acc then Union(acc, xs[1..])
    else Union(acc + [xs[0]], xs[1..])
  }

  function HouseIds(hs: seq<House>): (r: seq<HouseId>)
    ensures |r| == |hs|
    ensures forall i :: 0 <= i < |hs| ==> r[i] == hs[i].id
  {
    if hs == [] then [] else [hs[0].id] + HouseIds(hs[1..])
  }

  /** `unit.house_ids`, as ids. */
  function HousesOfUnit(h: Hierarchy, u: UnitId): seq<HouseId>
  {
    HouseIds(HousesOfUnits(h.houses, {u}))
  }

  /** The union over the houses of every unit of `us`, in order. */
  function UnionUnits(h: Hierarchy, acc: seq<HouseId>, us: seq<UnitId>): seq<HouseId>
    decreases us
  {
    if us == [] then acc else UnionUnits(h, Union(acc, HousesOfUnit(h, us[0])), us[1..])
  }

  function UnitIdList(us: seq<Unit>): seq<UnitId>
  {
    if us == [] then [] else [us[0].id] + UnitIdList(us[1..])
  }

  /** `sector.unit_ids`, as ids. */
  function UnitsOfSector(h: Hierarchy, s: SectorId): seq<UnitId>
  {
    UnitIdList(UnitsOfSectors(h.units, {s}))
  }

  function UnionSectors(h: Hierarchy, acc: seq<HouseId>, ss: seq<SectorId>): seq<HouseId>
    decreases ss
  {
    if ss == [] then acc else UnionSectors(h, UnionUnits(h, acc, UnitsOfSector(h, ss[0])), ss[1..])
  }

  /**
   * The houses named by a selection of sectors, units and houses, in the
   * order the union builds them.
   */
  function SelectedHouses(h: Hierarchy, sectors: seq<SectorId>, units: seq<UnitId>, houses: seq<HouseId>): seq<HouseId>
  {
    UnionSectors(h, UnionUnits(h, Union([], houses), units), sectors)
  }

  /** A house id is selected directly, through one of its units, or through a sector of its unit. */
  predicate Selected(h: Hierarchy, sectors: seq<SectorId>, units: seq<UnitId>, houses: seq<HouseId>, y: HouseId)
  {
    y in houses ||
    (exists x :: x in h.houses && x.id == y && x.unit in units) ||
    (exists x, u :: x in h.houses && u in h.units && x.id == y && x.unit == u.id && u.sector in sectors)
  }

  lemma {:induction false} UnionUnitsMembers(h: Hierarchy, acc: seq<HouseId>, us: seq<UnitId>)
    ensures NoDup(acc) ==> NoDup(UnionUnits(h, acc, us))
    ensures forall y :: y in UnionUnits(h, acc, us) <==>
              y in acc || exists x :: x in h.houses && x.id == y && x.unit in us
    decreases us
  {
    if us != [] {
      var acc' := Union(acc, HousesOfUnit(h, us[0]));
      UnionUnitsMembers(h, acc', us[1..]);
      forall y ensures y in HousesOfUnit(h, us[0]) <==> exists x :: x in h.houses && x.id == y && x.unit == us[0] {
        var hs := HousesOfUnits(h.houses, {us[0]});
        HousesOfUnitsMembers(h.houses, {us[0]});
        if y in HousesOfUnit(h, us[0]) {
          var i :| 0 <= i < |hs| && HouseIds(hs)[i] == y;
          assert hs[i] in hs;
        }
        if exists x :: x in h.houses && x.id == y && x.unit == us[0] {
          var x :| x in h.houses && x.id == y && x.unit == us[0];
          assert x in hs;
          var i :| 0 <= i < |hs| && hs[i] == x;
          assert HouseIds(hs)[i] == y;
        }
      }
    }
  }

  lemma UnitsOfSectorMembers(h: Hierarchy, s: SectorId)
    ensures forall u :: u in UnitsOfSector(h, s) <==> exists x :: x in h.units && x.id == u && x.sector == s
  {
    UnitIdListMembers(UnitsOfSectors(h.units, {s}));
    UnitsOfSectorsMembers(h.units, {s});
  }

  lemma {:induction false} UnitIdListMembers(us: seq<Unit>)
    ensures forall id :: id in UnitIdList(us) <==> exists u :: u in us && u.id == id
  {
    if us != [] {
      UnitIdListMembers(us[1..]);
    }
  }

  lemma {:induction false} UnionSectorsMembers(h: Hierarchy, acc: seq<HouseId>, ss: seq<SectorId>)
    ensures NoDup(acc) ==> NoDup(UnionSectors(h, acc, ss))
    ensures forall y :: y in UnionSectors(h, acc, ss) <==>
              y in acc || exists x, u :: x in h.houses && u in h.units && x.id == y && x.unit == u.id && u.sector in ss
    decreases ss
  {
    if ss != [] {
      var acc' := UnionUnits(h, acc, UnitsOfSector(h, ss[0]));
      UnionUnitsMembers(h, acc, UnitsOfSector(h, ss[0]));
      UnionSectorsMembers(h, acc', ss[1..]);
      UnitsOfSectorMembers(h, ss[0]);
    }
  }

  /** The selection holds no house twice and holds exactly the selected houses. */
  lemma SelectedHousesMembers(h: Hierarchy, sectors: seq<SectorId>, units: seq<UnitId>, houses: seq<HouseId>)
    ensures NoDup(SelectedHouses(h, sectors, units, houses))
    ensures forall y :: y in SelectedHouses(h, sectors, units, houses) <==> Selected(h, sectors, units, houses, y)
  {
    var a := Union([], houses);
    UnionUnitsMembers(h, a, units);
    UnionSectorsMembers(h, UnionUnits(h, a, units), sectors);
  }

  /**
   * The union loops shared by `_get_target_houses` of costs and of product
   * orders: the selected houses, then the houses of each selected unit, then
   * the houses of each unit of each selected sector.
   */
  method CollectHouses(h: Hierarchy, sectors: seq<SectorId>, units: seq<UnitId>, houses: seq<HouseId>)
    returns (r: seq<HouseId>)
    ensures r == SelectedHouses(h, sectors, units, houses)
    ensures NoDup(r)
    ensures forall y :: y in r <==> Selected(h, sectors, units, houses, y)
  {
    r := Union([], houses);
    var i := 0;
    while i < |units|
      invariant 0 <= i <= |units|
      invariant UnionUnits(h, r, units[i..]) == UnionUnits(h, Union([], houses), units)
    {
      assert units[i..][1..] == units[i + 1..];
      r := Union(r, HousesOfUnit(h, units[i]));
      i := i + 1;
    }
    var j := 0;
    while j < |sectors|
      invariant 0 <= j <= |sectors|
      invariant UnionSectors(h, r, sectors[j..]) == SelectedHouses(h, sectors, units, houses)
    {
      assert sectors[j..][1..] == sectors[j + 1..];
      var sectorUnits := UnitsOfSector(h, sectors[j]);
      var k := 0;
      ghost var start := r;
      while k < |sectorUnits|
        invariant 0 <= k <= |sectorUnits|
        invariant UnionUnits(h, r, sectorUnits[k..]) == UnionUnits(h, start, sectorUnits)
      {
        assert sectorUnits[k..][1..] == sectorUnits[k + 1..];
        r := Union(r, HousesOfUnit(h, sectorUnits[k]));
        k := k + 1;
      }
      j := j + 1;
    }
    SelectedHousesMembers(h, sectors, units, houses);
  }
}
