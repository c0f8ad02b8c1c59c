/**
 * Project costs and their allocation to houses (`models/farm_project_cost.py`),
 * the parts that compute values: which houses a cost reaches, how its amount
 * is split over them, the constraint a cost must meet and the journal lines
 * of its posting. The state changes of costs live in the `Store` module.
 */
module CostAllocation {
  import opened Common
  import opened Farm

  datatype CostKind = Direct | Indirect
  datatype CostState = Draft | Posted | Cancelled

  /** A journal item: one account, debited or credited. */
  datatype MoveLine = MoveLine(account: AccountId, debit: real, credit: real)

  /** The cost's own journal entry (`move_id`) and its state. */
  datatype Move = NoMove | PostedMove(lines: seq<MoveLine>) | CancelledMove(lines: seq<MoveLine>)

  datatype Cost = Cost(
    project: ProjectId,
    kind: CostKind,
    state: CostState,
    amount: real,
    date: Date,
    sectors: seq<SectorId>,             // source_sector_ids
    units: seq<UnitId>,                 // source_unit_ids
    houses: seq<HouseId>,               // source_house_ids
    payment: Option<AccountId>,         // payment_account_id, the account credited
    directAccount: Option<AccountId>,
    indirectAccount: Option<AccountId>,
    order: Option<OrderId>,             // the product order the cost comes from
    harvest: Option<EntryId>,           // the harvest entry the cost was recorded for
    move: Move)

  /** A `farm.cost.allocation` row: the share of one cost charged to one house. */
  datatype Alloc = Alloc(cost: CostId, house: HouseId, amount: real, percentage: real)

  // ----- target houses (`_get_target_houses`) -----

  /** Recordset intersection `xs & ys`, in the order of `xs`. */
  function Restrict(xs: seq<HouseId>, ys: seq<HouseId>): (r: seq<HouseId>)
    ensures forall y :: y in r <==> y in xs && y in ys
    ensures NoDup(xs) ==> NoDup(r)
  {
    if xs == [] then []
    else if xs[0] in ys then [xs[0]] + Restrict(xs[1..], ys)
    else Restrict(xs[1..], ys)
  }

  /**
   * The houses a cost is allocated to: every house of the project for an
   * indirect cost; for a direct cost, the selected houses, the houses of the
   * selected units and of the units of the selected sectors, kept only when
   * assigned to the project.
   */
  function TargetHouses(h: Hierarchy, c: Cost, projectHouses: seq<HouseId>): seq<HouseId>
  {
    if c.kind == Indirect then projectHouses
    else Restrict(SelectedHouses(h, c.sectors, c.units, c.houses), projectHouses)
  }

  lemma TargetHousesMembers(h: Hierarchy, c: Cost, projectHouses: seq<HouseId>)
    ensures forall y :: y in TargetHouses(h, c, projectHouses) ==> y in projectHouses
    ensures c.kind == Direct ==>
              forall y :: y in TargetHouses(h, c, projectHouses) <==>
                y in projectHouses && Selected(h, c.sectors, c.units, c.houses, y)
    ensures c.kind == Indirect ==> TargetHouses(h, c, projectHouses) == projectHouses
    ensures NoDup(projectHouses) ==> NoDup(TargetHouses(h, c, projectHouses))
  {
    SelectedHousesMembers(h, c.sectors, c.units, c.houses);
  }

  // ----- the split (`_compute_allocations`) -----

  function AreaSum(h: Hierarchy, ts: seq<HouseId>): real
  {
    if ts == [] then 0.0 else HouseArea(h, ts[0]) + AreaSum(h, ts[1..])
  }

  /** The part of `m` that an area takes of a total area. */
  function Portion(area: real, total: real, m: real): real
    requires total > 0.0
  {
    (area / total) * m
  }

  /** One row per house, in proportion to its share of the total area. */
  function RowsByArea(ci: CostId, amount: real, h: Hierarchy, ts: seq<HouseId>, total: real): seq<Alloc>
    requires total > 0.0
  {
    if ts == [] then []
    else
      var area := HouseArea(h, ts[0]);
      [Alloc(ci, ts[0], Portion(area, total, amount), Portion(area, total, 100.0))] + RowsByArea(ci, amount, h, ts[1..], total)
  }

  /** One row per house, each with the same share. */
  function RowsEqually(ci: CostId, amount: real, ts: seq<HouseId>, n: nat): seq<Alloc>
    requires n > 0
  {
    if ts == [] then []
    else [Alloc(ci, ts[0], amount / n as real, 100.0 / n as real)] + RowsEqually(ci, amount, ts[1..], n)
  }

  /**
   * The rows `_compute_allocations` creates for cost `ci` over the target
   * houses: by area when the total area is positive, in equal parts otherwise.
   */
  function AllocationRows(ci: CostId, amount: real, h: Hierarchy, ts: seq<HouseId>): seq<Alloc>
  {
    if ts == [] then []
    else
      var total := AreaSum(h, ts);
      if total <= 0.0 then RowsEqually(ci, amount, ts, |ts|) else RowsByArea(ci, amount, h, ts, total)
  }

  function SumAmounts(rows: seq<Alloc>): real
  {
    if rows == [] then 0.0 else rows[0].amount + SumAmounts(rows[1..])
  }

  function SumPercentages(rows: seq<Alloc>): real
  {
    if rows == [] then 0.0 else rows[0].percentage + SumPercentages(rows[1..])
  }

  lemma {:induction false} RowsByAreaSums(ci: CostId, amount: real, h: Hierarchy, ts: seq<HouseId>, total: real)
    requires total > 0.0
    ensures |RowsByArea(ci, amount, h, ts, total)| == |ts|
    ensures SumAmounts(RowsByArea(ci, amount, h, ts, total)) == Portion(AreaSum(h, ts), total, amount)
    ensures SumPercentages(RowsByArea(ci, amount, h, ts, total)) == Portion(AreaSum(h, ts), total, 100.0)
  {
    if ts != [] {
      RowsByAreaSums(ci, amount, h, ts[1..], total);
      var a, s := HouseArea(h, ts[0]), AreaSum(h, ts[1..]);
      ShareSum(a, s, total, amount);
      ShareSum(a, s, total, 100.0);
    }
  }

  /** Two shares of the same total add up as their areas do. */
  lemma ShareSum(a: real, s: real, total: real, m: real)
    requires total > 0.0
    ensures Portion(a, total, m) + Portion(s, total, m) == Portion(a + s, total, m)
  {
    assert a / total + s / total == (a + s) / total;
    assert (a / total) * m + (s / total) * m == (a / total + s / total) * m;
  }

  lemma {:induction false} RowsEquallySums(ci: CostId, amount: real, ts: seq<HouseId>, n: nat)
    requires n > 0
    ensures |RowsEqually(ci, amount, ts, n)| == |ts|
    ensures SumAmounts(RowsEqually(ci, amount, ts, n)) == |ts| as real * (amount / n as real)
    ensures SumPercentages(RowsEqually(ci, amount, ts, n)) == |ts| as real * (100.0 / n as real)
  {
    if ts != [] {
      RowsEquallySums(ci, amount, ts[1..], n);
      var k := |ts[1..]| as real;
      assert |ts| as real == k + 1.0;
      assert (k + 1.0) * (amount / n as real) == amount / n as real + k * (amount / n as real);
      assert (k + 1.0) * (100.0 / n as real) == 100.0 / n as real + k * (100.0 / n as real);
    }
  }

  /**
   * The allocation conserves the cost: the rows' amounts add up to the cost
   * amount and their percentages to 100, whichever split is used.
   */
  lemma AllocationConserves(ci: CostId, amount: real, h: Hierarchy, ts: seq<HouseId>)
    requires ts != []
    ensures |AllocationRows(ci, amount, h, ts)| == |ts|
    ensures SumAmounts(AllocationRows(ci, amount, h, ts)) == amount
    ensures SumPercentages(AllocationRows(ci, amount, h, ts)) == 100.0
  {
    var total := AreaSum(h, ts);
    if total <= 0.0 {
      var n := |ts| as real;
      RowsEquallySums(ci, amount, ts, |ts|);
      assert n * (amount / n) == amount;
      assert n * (100.0 / n) == 100.0;
    } else {
      RowsByAreaSums(ci, amount, h, ts, total);
      assert Portion(total, total, amount) == amount && Portion(total, total, 100.0) == 100.0 by {
        assert total / total == 1.0;
      }
    }
  }

  lemma AllocationRowsLength(ci: CostId, amount: real, h: Hierarchy, ts: seq<HouseId>)
    ensures |AllocationRows(ci, amount, h, ts)| == |ts|
  {
    if ts != [] {
      AllocationConserves(ci, amount, h, ts);
    }
  }

  /**
   * Each row belongs to the cost and to the house at the same position, and
   * its share is the house's fraction of the area (or an equal part).
   */
  lemma {:induction false} AllocationRowAt(ci: CostId, amount: real, h: Hierarchy, ts: seq<HouseId>, i: nat)
    requires i < |ts|
    ensures |AllocationRows(ci, amount, h, ts)| == |ts|
    ensures AllocationRows(ci, amount, h, ts)[i].cost == ci
    ensures AllocationRows(ci, amount, h, ts)[i].house == ts[i]
    ensures AreaSum(h, ts) > 0.0 ==>
              AllocationRows(ci, amount, h, ts)[i].amount == Portion(HouseArea(h, ts[i]), AreaSum(h, ts), amount) &&
              AllocationRows(ci, amount, h, ts)[i].percentage == Portion(HouseArea(h, ts[i]), AreaSum(h, ts), 100.0)
    ensures AreaSum(h, ts) <= 0.0 ==>
              AllocationRows(ci, amount, h, ts)[i].amount == amount / |ts| as real &&
              AllocationRows(ci, amount, h, ts)[i].percentage == 100.0 / |ts| as real
  {
    var total := AreaSum(h, ts);
    if total <= 0.0 {
      RowsEquallyAt(ci, amount, ts, |ts|, i);
    } else {
      RowsByAreaAt(ci, amount, h, ts, total, i);
    }
  }

  lemma {:induction false} RowsEquallyAt(ci: CostId, amount: real, ts: seq<HouseId>, n: nat, i: nat)
    requires n > 0 && i < |ts|
    ensures |RowsEqually(ci, amount, ts, n)| == |ts|
    ensures RowsEqually(ci, amount, ts, n)[i] == Alloc(ci, ts[i], amount / n as real, 100.0 / n as real)
  {
    RowsEquallySums(ci, amount, ts, n);
    if i > 0 {
      RowsEquallyAt(ci, amount, ts[1..], n, i - 1);
    }
  }

  lemma {:induction false} RowsByAreaAt(ci: CostId, amount: real, h: Hierarchy, ts: seq<HouseId>, total: real, i: nat)
    requires total > 0.0 && i < |ts|
    ensures |RowsByArea(ci, amount, h, ts, total)| == |ts|
    ensures RowsByArea(ci, amount, h, ts, total)[i] ==
            Alloc(ci, ts[i], Portion(HouseArea(h, ts[i]), total, amount), Portion(HouseArea(h, ts[i]), total, 100.0))
  {
    RowsByAreaSums(ci, amount, h, ts, total);
    if i > 0 {
      RowsByAreaAt(ci, amount, h, ts[1..], total, i - 1);
    }
  }

  /** When every target house passes the area constraint, the split is by area. */
  lemma {:induction false} PositiveAreasSplitByArea(h: Hierarchy, ts: seq<HouseId>)
    requires ts != []
    requires forall y :: y in ts ==> CheckArea(HouseArea(h, y)).Pass?
    ensures AreaSum(h, ts) > 0.0
  {
    if |ts| > 1 {
      PositiveAreasSplitByArea(h, ts[1..]);
    }
  }

  /** `farm.cost.allocation._compute_cost_per_sqm`. */
  function CostPerSqm(amount: real, area: real): real
  {
    if area > 0.0 then amount / area else 0.0
  }

  /**
   * In an area split every house bears the same cost per square metre: the
   * cost amount over the total area.
   */
  lemma UniformCostPerSqm(ci: CostId, amount: real, h: Hierarchy, ts: seq<HouseId>, i: nat)
    requires i < |ts|
    requires AreaSum(h, ts) > 0.0 && HouseArea(h, ts[i]) > 0.0
    ensures |AllocationRows(ci, amount, h, ts)| == |ts|
    ensures CostPerSqm(AllocationRows(ci, amount, h, ts)[i].amount, HouseArea(h, ts[i])) == amount / AreaSum(h, ts)
  {
    AllocationRowAt(ci, amount, h, ts, i);
    var a, t := HouseArea(h, ts[i]), AreaSum(h, ts);
    var x := AllocationRows(ci, amount, h, ts)[i].amount;
    assert x == Portion(a, t, amount);
    ShareOverArea(a, t, amount);
    assert CostPerSqm(x, a) == x / a;
  }

  lemma ShareOverArea(a: real, t: real, m: real)
    requires a > 0.0 && t > 0.0
    ensures Portion(a, t, m) / a == m / t
  {
    calc {
      ((a / t) * m) / a;
      == (a * m) / (t * a);
      == m / t;
    }
  }

  /** `_compute_allocated_amount`: the allocated total and the number of rows of a cost. */
  function RowsOf(rows: seq<Alloc>, ci: CostId): seq<Alloc>
  {
    if rows == [] then []
    else (if rows[0].cost == ci then [rows[0]] else []) + RowsOf(rows[1..], ci)
  }

  lemma {:induction false} RowsOfAllocationRows(ci: CostId, amount: real, h: Hierarchy, ts: seq<HouseId>)
    ensures RowsOf(AllocationRows(ci, amount, h, ts), ci) == AllocationRows(ci, amount, h, ts)
  {
    var rows := AllocationRows(ci, amount, h, ts);
    AllocationRowsLength(ci, amount, h, ts);
    forall i | 0 <= i < |rows| ensures rows[i].cost == ci {
      AllocationRowAt(ci, amount, h, ts, i);
    }
    RowsOfAll(rows, ci);
  }

  lemma {:induction false} RowsOfAll(rows: seq<Alloc>, ci: CostId)
    requires forall i :: 0 <= i < |rows| ==> rows[i].cost == ci
    ensures RowsOf(rows, ci) == rows
  {
    if rows != [] {
      RowsOfAll(rows[1..], ci);
    }
  }

  /** The rows left after `allocation_line_ids.unlink()` on cost `ci`. */
  function WithoutRowsOf(rows: seq<Alloc>, ci: CostId): (r: seq<Alloc>)
    ensures forall a :: a in r <==> a in rows && a.cost != ci
  {
    if rows == [] then []
    else (if rows[0].cost != ci then [rows[0]] else []) + WithoutRowsOf(rows[1..], ci)
  }

  lemma {:induction false} WithoutAbsentRows(rows: seq<Alloc>, ci: CostId)
    requires forall a :: a in rows ==> a.cost != ci
    ensures WithoutRowsOf(rows, ci) == rows
  {
    if rows != [] {
      assert rows[0] in rows;
      WithoutAbsentRows(rows[1..], ci);
      assert [rows[0]] + rows[1..] == rows;
    }
  }

  lemma {:induction false} RowsOfConcat(a: seq<Alloc>, b: seq<Alloc>, ci: CostId)
    ensures RowsOf(a + b, ci) == RowsOf(a, ci) + RowsOf(b, ci)
  {
    if a == [] {
      assert a + b == b;
    } else {
      var head := if a[0].cost == ci then [a[0]] else [];
      RowsOfConcat(a[1..], b, ci);
      ConsSplit(a, b);
      RowsOfCons(a[0], a[1..], ci);
      RowsOfCons(a[0], a[1..] + b, ci);
      ConcatAssoc(head, RowsOf(a[1..], ci), RowsOf(b, ci));
    }
  }

  lemma RowsOfCons(x: Alloc, rest: seq<Alloc>, ci: CostId)
    ensures RowsOf([x] + rest, ci) == (if x.cost == ci then [x] else []) + RowsOf(rest, ci)
  {
    assert ([x] + rest)[1..] == rest;
  }

  /** Unlinking a cost's rows removes all of them and leaves every other cost's rows. */
  lemma {:induction false} RowsOfWithout(rows: seq<Alloc>, ci: CostId, cj: CostId)
    ensures RowsOf(WithoutRowsOf(rows, ci), cj) == if cj == ci then [] else RowsOf(rows, cj)
  {
    if rows != [] {
      RowsOfWithout(rows[1..], ci, cj);
      var head := if rows[0].cost != ci then [rows[0]] else [];
      RowsOfConcat(head, WithoutRowsOf(rows[1..], ci), cj);
      if rows[0].cost != ci {
        assert RowsOf(head, cj) == (if rows[0].cost == cj then [rows[0]] else []) + RowsOf([], cj);
      }
    }
  }

  lemma {:induction false} RowsOfOtherCost(ci: CostId, amount: real, h: Hierarchy, ts: seq<HouseId>, cj: CostId)
    requires cj != ci
    ensures RowsOf(AllocationRows(ci, amount, h, ts), cj) == []
  {
    var rows := AllocationRows(ci, amount, h, ts);
    AllocationRowsLength(ci, amount, h, ts);
    forall i | 0 <= i < |rows| ensures rows[i].cost == ci {
      AllocationRowAt(ci, amount, h, ts, i);
    }
    NoRowsOf(rows, cj);
  }

  lemma {:induction false} NoRowsOf(rows: seq<Alloc>, cj: CostId)
    requires forall i :: 0 <= i < |rows| ==> rows[i].cost != cj
    ensures RowsOf(rows, cj) == []
  {
    if rows != [] {
      NoRowsOf(rows[1..], cj);
    }
  }

  /**
   * After `_compute_allocations` the cost's rows are exactly the new split:
   * with target houses they add up to the amount and to 100 %, one row per
   * house; without, the cost has no rows. Every other cost keeps its rows.
   */
  lemma Reallocated(rows: seq<Alloc>, ci: CostId, amount: real, h: Hierarchy, ts: seq<HouseId>, cj: CostId)
    ensures var after := WithoutRowsOf(rows, ci) + AllocationRows(ci, amount, h, ts);
            RowsOf(after, ci) == AllocationRows(ci, amount, h, ts) &&
            (ts != [] ==> |RowsOf(after, ci)| == |ts| && SumAmounts(RowsOf(after, ci)) == amount &&
                          SumPercentages(RowsOf(after, ci)) == 100.0) &&
            (ts == [] ==> RowsOf(after, ci) == []) &&
            (cj != ci ==> RowsOf(after, cj) == RowsOf(rows, cj))
  {
    var split := AllocationRows(ci, amount, h, ts);
    RowsOfConcat(WithoutRowsOf(rows, ci), split, ci);
    RowsOfWithout(rows, ci, ci);
    RowsOfAllocationRows(ci, amount, h, ts);
    if ts != [] {
      AllocationConserves(ci, amount, h, ts);
    }
    if cj != ci {
      RowsOfConcat(WithoutRowsOf(rows, ci), split, cj);
      RowsOfWithout(rows, ci, cj);
      RowsOfOtherCost(ci, amount, h, ts, cj);
    }
  }

  /** A harvest cost reaches its one house whole: a single row of the full amount at 100 %. */
  lemma SingleHouseRow(ci: CostId, amount: real, h: Hierarchy, x: HouseId)
    ensures AllocationRows(ci, amount, h, [x]) == [Alloc(ci, x, amount, 100.0)]
  {
    var ts := [x];
    assert ts[1..] == [];
    if AreaSum(h, ts) <= 0.0 {
      assert RowsEqually(ci, amount, ts, 1) == [Alloc(ci, x, amount / 1 as real, 100.0 / 1 as real)] + RowsEqually(ci, amount, ts[1..], 1);
    } else {
      var a := HouseArea(h, x);
      assert AreaSum(h, ts) == a + AreaSum(h, ts[1..]);
      assert Portion(a, a, amount) == amount && Portion(a, a, 100.0) == 100.0 by {
        assert a / a == 1.0;
      }
      assert RowsByArea(ci, amount, h, ts, a) == [Alloc(ci, x, Portion(a, a, amount), Portion(a, a, 100.0))] + RowsByArea(ci, amount, h, ts[1..], a);
    }
  }

  // ----- the house cost seen by the harvest ledger and by AVCO -----

  /** Row `a` charges house `x` of project `p` through a posted cost (`cost_state = 'posted'`). */
  predicate Charges(costs: seq<Cost>, a: Alloc, p: ProjectId, x: HouseId)
  {
    a.cost < |costs| && a.house == x && costs[a.cost].project == p && costs[a.cost].state == Posted
  }

  /** ... through a posted cost that was not recorded for a harvest (`harvest_entry_id = False`). */
  predicate ChargesReal(costs: seq<Cost>, a: Alloc, p: ProjectId, x: HouseId)
  {
    Charges(costs, a, p, x) && costs[a.cost].harvest.None?
  }

  function PostedRows(costs: seq<Cost>, rows: seq<Alloc>, p: ProjectId, x: HouseId): seq<Alloc>
  {
    if rows == [] then []
    else if Charges(costs, rows[0], p, x) then [rows[0]] + PostedRows(costs, rows[1..], p, x)
    else PostedRows(costs, rows[1..], p, x)
  }

  function RealRows(costs: seq<Cost>, rows: seq<Alloc>, p: ProjectId, x: HouseId): seq<Alloc>
  {
    if rows == [] then []
    else if ChargesReal(costs, rows[0], p, x) then [rows[0]] + RealRows(costs, rows[1..], p, x)
    else RealRows(costs, rows[1..], p, x)
  }

  /** The house-cost searches keep exactly the rows they match. */
  lemma {:induction false} ChargedRowsMembers(costs: seq<Cost>, rows: seq<Alloc>, p: ProjectId, x: HouseId)
    ensures forall a :: a in PostedRows(costs, rows, p, x) <==> a in rows && Charges(costs, a, p, x)
    ensures forall a :: a in RealRows(costs, rows, p, x) <==> a in rows && ChargesReal(costs, a, p, x)
  {
    if rows != [] {
      ChargedRowsMembers(costs, rows[1..], p, x);
      assert rows == [rows[0]] + rows[1..];
    }
  }

  /** `total_house_cost`: everything posted costs charge to the house, harvest costs included. */
  function HouseCost(costs: seq<Cost>, rows: seq<Alloc>, p: ProjectId, x: HouseId): real
  {
    SumAmounts(PostedRows(costs, rows, p, x))
  }

  /** The house cost without the costs recorded for harvests, as the AVCO update sums it. */
  function RealHouseCost(costs: seq<Cost>, rows: seq<Alloc>, p: ProjectId, x: HouseId): real
  {
    SumAmounts(RealRows(costs, rows, p, x))
  }

  lemma {:induction false} SumAmountsConcat(a: seq<Alloc>, b: seq<Alloc>)
    ensures SumAmounts(a + b) == SumAmounts(a) + SumAmounts(b)
  {
    if a == [] {
      assert a + b == b;
    } else {
      SumAmountsConcat(a[1..], b);
      assert (a + b)[0] == a[0];
      assert (a + b)[1..] == a[1..] + b;
    }
  }

  lemma {:induction false} PostedRowsConcat(costs: seq<Cost>, a: seq<Alloc>, b: seq<Alloc>, p: ProjectId, x: HouseId)
    ensures PostedRows(costs, a + b, p, x) == PostedRows(costs, a, p, x) + PostedRows(costs, b, p, x)
  {
    if a == [] {
      assert a + b == b;
    } else {
      PostedRowsConcat(costs, a[1..], b, p, x);
      assert (a + b)[0] == a[0];
      assert (a + b)[1..] == a[1..] + b;
      if Charges(costs, a[0], p, x) {
        assert [a[0]] + (PostedRows(costs, a[1..], p, x) + PostedRows(costs, b, p, x))
            == ([a[0]] + PostedRows(costs, a[1..], p, x)) + PostedRows(costs, b, p, x);
      }
    }
  }

  lemma {:induction false} RealRowsConcat(costs: seq<Cost>, a: seq<Alloc>, b: seq<Alloc>, p: ProjectId, x: HouseId)
    ensures RealRows(costs, a + b, p, x) == RealRows(costs, a, p, x) + RealRows(costs, b, p, x)
  {
    if a == [] {
      assert a + b == b;
    } else {
      RealRowsConcat(costs, a[1..], b, p, x);
      assert (a + b)[0] == a[0];
      assert (a + b)[1..] == a[1..] + b;
      if ChargesReal(costs, a[0], p, x) {
        assert [a[0]] + (RealRows(costs, a[1..], p, x) + RealRows(costs, b, p, x))
            == ([a[0]] + RealRows(costs, a[1..], p, x)) + RealRows(costs, b, p, x);
      }
    }
  }

  lemma {:induction false} NoRowsForOtherHouses(costs: seq<Cost>, more: seq<Alloc>, p: ProjectId, x: HouseId)
    requires forall a :: a in more ==> a.house != x
    ensures PostedRows(costs, more, p, x) == [] && RealRows(costs, more, p, x) == []
  {
    if more != [] {
      assert more[0] in more;
      NoRowsForOtherHouses(costs, more[1..], p, x);
    }
  }

  /** Rows appended for other houses leave a house's cost as it was. */
  lemma HouseCostOtherRows(costs: seq<Cost>, rows: seq<Alloc>, more: seq<Alloc>, p: ProjectId, x: HouseId)
    requires forall a :: a in more ==> a.house != x
    ensures HouseCost(costs, rows + more, p, x) == HouseCost(costs, rows, p, x)
    ensures RealHouseCost(costs, rows + more, p, x) == RealHouseCost(costs, rows, p, x)
  {
    PostedRowsConcat(costs, rows, more, p, x);
    RealRowsConcat(costs, rows, more, p, x);
    NoRowsForOtherHouses(costs, more, p, x);
    assert PostedRows(costs, rows, p, x) + [] == PostedRows(costs, rows, p, x);
    assert RealRows(costs, rows, p, x) + [] == RealRows(costs, rows, p, x);
  }

  /** A new cost changes nothing for the rows of the costs before it. */
  lemma {:induction false} NewCostKeepsRows(costs: seq<Cost>, c: Cost, rows: seq<Alloc>, p: ProjectId, x: HouseId)
    requires forall a :: a in rows ==> a.cost < |costs|
    ensures PostedRows(costs + [c], rows, p, x) == PostedRows(costs, rows, p, x)
    ensures RealRows(costs + [c], rows, p, x) == RealRows(costs, rows, p, x)
  {
    if rows != [] {
      assert rows[0] in rows;
      assert (costs + [c])[rows[0].cost] == costs[rows[0].cost];
      NewCostKeepsRows(costs, c, rows[1..], p, x);
    }
  }

  lemma {:induction false} RowsOfNewCost(costs: seq<Cost>, c: Cost, more: seq<Alloc>, p: ProjectId, x: HouseId)
    requires forall a :: a in more ==> a.cost == |costs| && a.house == x
    ensures c.project == p && c.state == Posted ==> PostedRows(costs + [c], more, p, x) == more
    ensures c.harvest.Some? ==> RealRows(costs + [c], more, p, x) == []
  {
    if more != [] {
      assert more[0] in more;
      RowsOfNewCost(costs, c, more[1..], p, x);
      assert [more[0]] + more[1..] == more;
    }
  }

  /**
   * A posted cost recorded for a harvest adds its rows to the house cost the
   * ledger splits, and nothing to the real house cost.
   */
  lemma HarvestCostCharges(costs: seq<Cost>, rows: seq<Alloc>, c: Cost, more: seq<Alloc>, p: ProjectId, x: HouseId)
    requires forall a :: a in rows ==> a.cost < |costs|
    requires forall a :: a in more ==> a.cost == |costs| && a.house == x
    requires c.project == p && c.state == Posted && c.harvest.Some?
    ensures HouseCost(costs + [c], rows + more, p, x) == HouseCost(costs, rows, p, x) + SumAmounts(more)
    ensures RealHouseCost(costs + [c], rows + more, p, x) == RealHouseCost(costs, rows, p, x)
  {
    PostedRowsConcat(costs + [c], rows, more, p, x);
    RealRowsConcat(costs + [c], rows, more, p, x);
    NewCostKeepsRows(costs, c, rows, p, x);
    RowsOfNewCost(costs, c, more, p, x);
    SumAmountsConcat(PostedRows(costs, rows, p, x), more);
    assert RealRows(costs, rows, p, x) + [] == RealRows(costs, rows, p, x);
  }

  // ----- the requirements constraint (`_check_cost_requirements`) -----

  predicate HasSource(c: Cost)
  {
    c.sectors != [] || c.units != [] || c.houses != []
  }

  /**
   * A cost recorded for a harvest is exempt; any other cost needs a payment
   * account unless it comes from an order, a direct cost needs a source and a
   * direct cost account, an indirect cost an indirect cost account.
   */
  function CheckRequirements(c: Cost): (r: Outcome)
    ensures r.Pass? <==>
              c.harvest.Some? ||
              ((c.order.Some? || c.payment.Some?) &&
               (c.kind == Direct ==> HasSource(c) && c.directAccount.Some?) &&
               (c.kind == Indirect ==> c.indirectAccount.Some?))
  {
    if c.harvest.Some? then Pass
    else if c.order.None? && c.payment.None? then Fail(MissingPaymentAccount)
    else if c.kind == Direct && !HasSource(c) then Fail(MissingSource)
    else if c.kind == Direct && c.directAccount.None? then Fail(MissingCostAccount)
    else if c.kind == Indirect && c.indirectAccount.None? then Fail(MissingCostAccount)
    else Pass
  }

  // ----- journal lines (`_prepare_move_lines`) -----

  function SumDebit(lines: seq<MoveLine>): real
  {
    if lines == [] then 0.0 else lines[0].debit + SumDebit(lines[1..])
  }

  function SumCredit(lines: seq<MoveLine>): real
  {
    if lines == [] then 0.0 else lines[0].credit + SumCredit(lines[1..])
  }

  /**
   * The two lines of a cost's journal entry: the payment account credited
   * and the cost account of the cost's kind debited with the amount.
   */
  function PrepareMoveLines(c: Cost, payment: AccountId): (r: Result<seq<MoveLine>>)
    ensures c.kind == Indirect && c.indirectAccount.None? ==> r == Err(MissingCostAccount)
    ensures c.kind == Direct && c.directAccount.None? ==> r == Err(MissingCostAccount)
    ensures r.Ok? ==> |r.value| == 2 && r.value[0] == MoveLine(payment, 0.0, c.amount)
    ensures r.Ok? && c.kind == Direct ==> c.directAccount.Some? && r.value[1] == MoveLine(c.directAccount.value, c.amount, 0.0)
    ensures r.Ok? && c.kind == Indirect ==> c.indirectAccount.Some? && r.value[1] == MoveLine(c.indirectAccount.value, c.amount, 0.0)
  {
    var account := if c.kind == Indirect then c.indirectAccount else c.directAccount;
    if account.None? then Err(MissingCostAccount)
    else Ok([MoveLine(payment, 0.0, c.amount), MoveLine(account.value, c.amount, 0.0)])
  }

  /** The entry balances: total debit equals total credit equals the cost amount. */
  lemma PostingBalances(c: Cost, payment: AccountId)
    requires PrepareMoveLines(c, payment).Ok?
    ensures SumDebit(PrepareMoveLines(c, payment).value) == c.amount
    ensures SumCredit(PrepareMoveLines(c, payment).value) == c.amount
  {
    var lines := PrepareMoveLines(c, payment).value;
    assert lines[1..][1..] == [];
    assert SumDebit(lines[1..]) == c.amount + SumDebit(lines[1..][1..]);
    assert SumCredit(lines[1..]) == 0.0 + SumCredit(lines[1..][1..]);
  }

  // ----- write (`write`) -----

  /** The values a write may carry; `None` leaves the field as it is. */
  datatype CostEdit = CostEdit(
    amount: Option<real>,
    kind: Option<CostKind>,
    sectors: Option<seq<SectorId>>,
    units: Option<seq<UnitId>>,
    houses: Option<seq<HouseId>>,
    project: Option<ProjectId>,
    date: Option<Date>,
    payment: Option<Option<AccountId>>,
    directAccount: Option<Option<AccountId>>,
    indirectAccount: Option<Option<AccountId>>)

  function Pick<T>(e: Option<T>, v: T): T
  {
    if e.Some? then e.value else v
  }

  function ApplyEdit(c: Cost, e: CostEdit): Cost
  {
    c.(amount := Pick(e.amount, c.amount), kind := Pick(e.kind, c.kind),
       sectors := Pick(e.sectors, c.sectors), units := Pick(e.units, c.units),
       houses := Pick(e.houses, c.houses), project := Pick(e.project, c.project),
       date := Pick(e.date, c.date), payment := Pick(e.payment, c.payment),
       directAccount := Pick(e.directAccount, c.directAccount),
       indirectAccount := Pick(e.indirectAccount, c.indirectAccount))
  }

  /** The fields whose change makes a draft cost recompute its allocation. */
  predicate TriggersReallocation(e: CostEdit)
  {
    e.amount.Some? || e.kind.Some? || e.sectors.Some? || e.units.Some? || e.houses.Some? || e.project.Some?
  }

  /** The fields the requirements constraint watches. */
  predicate TouchesRequirements(e: CostEdit)
  {
    e.kind.Some? || e.sectors.Some? || e.units.Some? || e.houses.Some? ||
    e.payment.Some? || e.directAccount.Some? || e.indirectAccount.Some?
  }
}
