/**
 * The records the cost engine, the harvest ledger and the AVCO update change
 * together: project costs and their allocation rows
 * (`models/farm_project_cost.py`), house assignments with their harvest
 * entries (`models/farm_harvest.py`, `models/farm_project.py`), product
 * prices, stock valuation layers and the landed-cost audit records. Creating
 * an allocation row of a posted cost recalculates the harvest entries of its
 * house, and creating a harvest entry creates a posted cost, so these tables
 * are one object whose methods follow the source's create, write, unlink and
 * action methods.
 */
module Store {
  import opened Common
  import opened Farm
  import CA = CostAllocation
  import HL = HarvestLedger
  import Projects

  /**
   * An assignment whose harvest entries are recalculated in order against
   * its current house cost. That cost counts the costs recorded for
   * harvests too, so each harvest's value feeds back into the cost it was
   * valued against (`HarvestCostFeedsBack`).
   */
  function Refreshed(a: Projects.Assignment, costs: seq<CA.Cost>, rows: seq<CA.Alloc>): Projects.Assignment
  {
    a.(entries := HL.Recalc(a.entries, 0, CA.HouseCost(costs, rows, a.project, a.house), a.expected))
  }

  /** The assignments after the entries of project `p`'s houses `xs` are recalculated. */
  function Refresh(asg: seq<Projects.Assignment>, costs: seq<CA.Cost>, rows: seq<CA.Alloc>, p: ProjectId, xs: seq<HouseId>): seq<Projects.Assignment>
  {
    seq(|asg|, k requires 0 <= k < |asg| =>
      if asg[k].project == p && asg[k].house in xs then Refreshed(asg[k], costs, rows) else asg[k])
  }

  class FarmStore {
    const h: Hierarchy
    var costs: seq<CA.Cost>                    // a cost's id is its index
    var allocs: seq<CA.Alloc>
    var assignments: seq<Projects.Assignment>
    var nextEntryId: EntryId
    var prices: map<ProductId, real>           // standard_price
    var layers: seq<Projects.Layer>            // stock valuation layers
    var landedCosts: seq<Projects.LandedCost>

    /**
     * Every allocation row belongs to a stored cost, a house is assigned at
     * most once to a project, and each assignment keeps its entries in
     * (date, id) order with ids below the next one to be given.
     */
    predicate Valid()
      reads this
    {
      (forall a :: a in allocs ==> a.cost < |costs|) &&
      Projects.UniqueAssignments(assignments) &&
      (forall k :: 0 <= k < |assignments| ==> HL.LedgerOk(assignments[k].entries, nextEntryId))
    }

    constructor (h: Hierarchy)
      ensures this.h == h && costs == [] && allocs == [] && assignments == []
      ensures nextEntryId == 0 && prices == map[] && layers == [] && landedCosts == []
      ensures Valid()
    {
      this.h := h;
      costs := [];
      allocs := [];
      assignments := [];
      nextEntryId := 0;
      prices := map[];
      layers := [];
      landedCosts := [];
    }

    /** Creating a house assignment, refused when the house is already assigned to the project. */
    method AddAssignment(p: ProjectId, x: HouseId, product: Option<ProductId>, expected: real) returns (r: Outcome)
      requires Valid()
      modifies this
      ensures Valid()
      ensures r.Fail? <==> exists k :: 0 <= k < |old(assignments)| && old(assignments)[k].project == p && old(assignments)[k].house == x
      ensures r.Fail? ==> r.error == DuplicateAssignment && assignments == old(assignments)
      ensures r.Pass? ==> assignments == old(assignments) + [Projects.Assignment(p, x, product, expected, [])]
      ensures costs == old(costs) && allocs == old(allocs) && nextEntryId == old(nextEntryId)
      ensures prices == old(prices) && layers == old(layers) && landedCosts == old(landedCosts)
    {
      var k := 0;
      while k < |assignments|
        invariant 0 <= k <= |assignments|
        invariant forall i :: 0 <= i < k ==> assignments[i].project != p || assignments[i].house != x
      {
        if assignments[k].project == p && assignments[k].house == x {
          return Fail(DuplicateAssignment);
        }
        k := k + 1;
      }
      assignments := assignments + [Projects.Assignment(p, x, product, expected, [])];
      r := Pass;
    }

    /**
     * Recalculating an assignment's entries from position `from` on, one
     * after the other in (date, id) order, each against the house cost and
     * the entries before it as they now stand: the loops of
     * `_trigger_harvest_recalculation` and `unlink` (from the first entry)
     * and of `write` (from the written entry).
     */
    method RecalculateFrom(i: nat, from: nat)
      requires Valid() && i < |assignments|
      modifies this
      ensures Valid()
      ensures var a := old(assignments)[i];
              assignments == old(assignments)[i := a.(entries := HL.Recalc(a.entries, from, CA.HouseCost(costs, allocs, a.project, a.house), a.expected))]
      ensures costs == old(costs) && allocs == old(allocs) && nextEntryId == old(nextEntryId)
      ensures prices == old(prices) && layers == old(layers) && landedCosts == old(landedCosts)
    {
      var a := assignments[i];
      var total := CA.HouseCost(costs, allocs, a.project, a.house);
      var es := a.entries;
      var j := from;
      while j < |es|
        invariant |es| == |a.entries|
        invariant HL.Recalc(es, j, total, a.expected) == HL.Recalc(a.entries, from, total, a.expected)
        decreases |es| - j
      {
        es := es[j := HL.CalcAt(es, j, total, a.expected)];
        j := j + 1;
      }
      HL.RecalcKeepsLedger(a.entries, from, total, a.expected, nextEntryId);
      assignments := assignments[i := a.(entries := es)];
    }

    /** `_trigger_harvest_recalculation` of a row of project `p` for house `x`. */
    method RecalculateHouse(p: ProjectId, x: HouseId)
      requires Valid()
      modifies this
      ensures Valid()
      ensures assignments == Refresh(old(assignments), costs, allocs, p, [x])
      ensures costs == old(costs) && allocs == old(allocs) && nextEntryId == old(nextEntryId)
      ensures prices == old(prices) && layers == old(layers) && landedCosts == old(landedCosts)
    {
      ghost var asg0 := assignments;
      var i := 0;
      while i < |assignments|
        invariant 0 <= i <= |assignments| == |asg0|
        invariant Valid()
        invariant forall k :: 0 <= k < |asg0| ==>
                    assignments[k] == if k < i then Refresh(asg0, costs, allocs, p, [x])[k] else asg0[k]
        invariant costs == old(costs) && allocs == old(allocs) && nextEntryId == old(nextEntryId)
        invariant prices == old(prices) && layers == old(layers) && landedCosts == old(landedCosts)
      {
        if assignments[i].project == p && assignments[i].house == x {
          RecalculateFrom(i, 0);
        }
        i := i + 1;
      }
    }

    /** The target houses of a stored cost. */
    function Targets(ci: CostId): seq<HouseId>
      reads this
      requires ci < |costs|
    {
      CA.TargetHouses(h, costs[ci], Projects.ProjectHouses(assignments, costs[ci].project))
    }

    /**
     * `_compute_allocations`: the cost's rows are deleted (without a
     * recalculation) and one row per target house is created; each created
     * row of a posted cost recalculates its house's harvest entries.
     */
    method AllocateCost(ci: CostId)
      requires Valid() && ci < |costs|
      modifies this
      ensures Valid() && costs == old(costs)
      ensures allocs == CA.WithoutRowsOf(old(allocs), ci) + CA.AllocationRows(ci, costs[ci].amount, h, old(Targets(ci)))
      ensures assignments == if costs[ci].state == CA.Posted
                             then Refresh(old(assignments), costs, allocs, costs[ci].project, old(Targets(ci)))
                             else old(assignments)
      ensures costs == old(costs) && nextEntryId == old(nextEntryId)
      ensures prices == old(prices) && layers == old(layers) && landedCosts == old(landedCosts)
    {
      var ts := Targets(ci);
      TargetsNoDup(h, costs[ci], assignments);
      allocs := CA.WithoutRowsOf(allocs, ci);
      AddRows(ci, ts);
    }

    /** The rows of cost `ci` over the houses `ts` are created one after the other. */
    method AddRows(ci: CostId, ts: seq<HouseId>)
      requires Valid() && ci < |costs| && NoDup(ts)
      modifies this
      ensures Valid() && costs == old(costs)
      ensures allocs == old(allocs) + CA.AllocationRows(ci, costs[ci].amount, h, ts)
      ensures assignments == if costs[ci].state == CA.Posted
                             then Refresh(old(assignments), costs, allocs, costs[ci].project, ts)
                             else old(assignments)
      ensures costs == old(costs) && nextEntryId == old(nextEntryId)
      ensures prices == old(prices) && layers == old(layers) && landedCosts == old(landedCosts)
    {
      var c := costs[ci];
      var rows := CA.AllocationRows(ci, c.amount, h, ts);
      CA.AllocationRowsLength(ci, c.amount, h, ts);
      ghost var base := allocs;
      ghost var asg0 := assignments;
      var j := 0;
      while j < |rows|
        invariant 0 <= j <= |rows| == |ts|
        invariant allocs == base + rows[..j]
        invariant Valid()
        invariant RefreshedUpTo(asg0, assignments, costs, allocs, c.state == CA.Posted, c.project, ts[..j])
        invariant costs == old(costs) && nextEntryId == old(nextEntryId)
        invariant prices == old(prices) && layers == old(layers) && landedCosts == old(landedCosts)
      {
        RowAt(ci, c.amount, h, ts, j);
        ghost var before := assignments;
        ghost var rowsBefore := allocs;
        AddRow(rows[j]);
        RefreshStep(asg0, before, costs, rowsBefore, rows[j], c.state == CA.Posted, c.project, ts, j);
        AppendNext(base, rows, j);
        j := j + 1;
      }
      assert rows[..j] == rows && ts[..j] == ts;
      RefreshedUpToAll(asg0, assignments, costs, allocs, c.state == CA.Posted, c.project, ts);
    }

    /**
     * The `create` of one allocation row: the row is stored and, when its
     * cost is posted, the entries of its house are recalculated.
     */
    method AddRow(row: CA.Alloc)
      requires Valid() && row.cost < |costs|
      modifies this
      ensures Valid()
      ensures allocs == old(allocs) + [row]
      ensures assignments == if costs[row.cost].state == CA.Posted
                             then Refresh(old(assignments), costs, allocs, costs[row.cost].project, [row.house])
                             else old(assignments)
      ensures costs == old(costs) && nextEntryId == old(nextEntryId)
      ensures prices == old(prices) && layers == old(layers) && landedCosts == old(landedCosts)
    {
      allocs := allocs + [row];
      if costs[row.cost].state == CA.Posted {
        RecalculateHouse(costs[row.cost].project, row.house);
      }
    }

    // ----- project costs (`farm.project.cost`) -----

    /**
     * `create`: the requirements constraint, then `_compute_allocations` of
     * the new cost (whose id is the next index).
     */
    method CreateCost(c: CA.Cost) returns (r: Outcome)
      requires Valid()
      modifies this
      ensures Valid()
      ensures r.Pass? <==> CA.CheckRequirements(c).Pass?
      ensures r.Fail? ==> r == CA.CheckRequirements(c) && unchanged(this)
      ensures r.Pass? ==>
                costs == old(costs) + [c] &&
                allocs == old(allocs) + CA.AllocationRows(|old(costs)|, c.amount, h,
                                          CA.TargetHouses(h, c, Projects.ProjectHouses(old(assignments), c.project))) &&
                assignments == if c.state == CA.Posted
                               then Refresh(old(assignments), costs, allocs, c.project,
                                            CA.TargetHouses(h, c, Projects.ProjectHouses(old(assignments), c.project)))
                               else old(assignments)
      ensures nextEntryId == old(nextEntryId) && prices == old(prices) && layers == old(layers) && landedCosts == old(landedCosts)
    {
      r := CA.CheckRequirements(c);
      if r.Fail? {
        return;
      }
      ghost var ts := CA.TargetHouses(h, c, Projects.ProjectHouses(assignments, c.project));
      var ci := |costs|;
      CA.WithoutAbsentRows(allocs, ci);
      costs := costs + [c];
      assert costs[ci] == c && Targets(ci) == ts;
      AllocateCost(ci);
      assert allocs == old(allocs) + CA.AllocationRows(ci, c.amount, h, ts);
    }

    /**
     * `write`: the requirements constraint when a field it watches is
     * written, then a new allocation when a field the split depends on is
     * written and the cost is a draft. Allocation rows of a draft cost
     * recalculate nothing.
     */
    method WriteCost(ci: CostId, e: CA.CostEdit) returns (r: Outcome)
      requires Valid() && ci < |costs|
      modifies this
      ensures Valid()
      ensures r.Fail? <==> CA.TouchesRequirements(e) && CA.CheckRequirements(CA.ApplyEdit(old(costs)[ci], e)).Fail?
      ensures r.Fail? ==> r == CA.CheckRequirements(CA.ApplyEdit(old(costs)[ci], e)) && unchanged(this)
      ensures r.Pass? ==>
                costs == old(costs)[ci := CA.ApplyEdit(old(costs)[ci], e)] &&
                allocs == (if CA.TriggersReallocation(e) && costs[ci].state == CA.Draft
                           then CA.WithoutRowsOf(old(allocs), ci) +
                                CA.AllocationRows(ci, costs[ci].amount, h,
                                                  CA.TargetHouses(h, costs[ci], Projects.ProjectHouses(old(assignments), costs[ci].project)))
                           else old(allocs))
      ensures assignments == old(assignments)
      ensures nextEntryId == old(nextEntryId) && prices == old(prices) && layers == old(layers) && landedCosts == old(landedCosts)
    {
      var c := CA.ApplyEdit(costs[ci], e);
      if CA.TouchesRequirements(e) && CA.CheckRequirements(c).Fail? {
        return CA.CheckRequirements(c);
      }
      costs := costs[ci := c];
      if CA.TriggersReallocation(e) && c.state == CA.Draft {
        AllocateCost(ci);
      }
      r := Pass;
    }

    /** `unlink`: deleting costs is always refused; only an empty selection passes. */
    method UnlinkCosts(ids: seq<CostId>) returns (r: Outcome)
      ensures r.Pass? <==> ids == []
      ensures r.Fail? ==> r.error == DeletionRefused
    {
      r := Pass;
      for k := 0 to |ids|
        invariant r.Pass? <==> k == 0
        invariant r.Fail? ==> r.error == DeletionRefused
      {
        r := Fail(DeletionRefused);
      }
    }

    /**
     * `action_post`: a draft cost is posted. Unless it comes from an order,
     * its journal entry is created first, which needs the payment account,
     * a general journal and the cost account of its kind. Posting
     * recalculates no harvest entry.
     */
    method PostCost(ci: CostId, journalFound: bool) returns (r: Outcome)
      requires Valid() && ci < |costs|
      modifies this
      ensures Valid()
      ensures var c := old(costs)[ci];
              r.Pass? <==> c.state == CA.Draft &&
                           (c.order.Some? || (c.payment.Some? && journalFound && CA.PrepareMoveLines(c, c.payment.value).Ok?))
      ensures var c := old(costs)[ci];
              r.Fail? ==> unchanged(this) &&
                          r.error == (if c.state != CA.Draft then WrongState
                                      else if c.payment.None? then MissingPaymentAccount
                                      else if !journalFound then MissingJournal
                                      else MissingCostAccount)
      ensures var c := old(costs)[ci];
              r.Pass? ==> costs == old(costs)[ci := c.(state := CA.Posted,
                                                      move := if c.order.Some? then c.move
                                                              else CA.PostedMove(CA.PrepareMoveLines(c, c.payment.value).value))]
      ensures allocs == old(allocs) && assignments == old(assignments)
      ensures nextEntryId == old(nextEntryId) && prices == old(prices) && layers == old(layers) && landedCosts == old(landedCosts)
    {
      var c := costs[ci];
      if c.state != CA.Draft {
        return Fail(WrongState);
      }
      var move := c.move;
      if c.order.None? {
        if c.payment.None? {
          return Fail(MissingPaymentAccount);
        }
        if !journalFound {
          return Fail(MissingJournal);
        }
        var lines := CA.PrepareMoveLines(c, c.payment.value);
        if lines.Err? {
          return Fail(lines.error);
        }
        move := CA.PostedMove(lines.value);
      }
      costs := costs[ci := c.(state := CA.Posted, move := move)];
      r := Pass;
    }

    /** `action_cancel`: any cost not yet cancelled is cancelled, with its journal entry. */
    method CancelCost(ci: CostId) returns (r: Outcome)
      requires Valid() && ci < |costs|
      modifies this
      ensures Valid()
      ensures r.Pass? <==> old(costs)[ci].state != CA.Cancelled
      ensures r.Fail? ==> r.error == WrongState && unchanged(this)
      ensures var c := old(costs)[ci];
              r.Pass? ==> costs == old(costs)[ci := c.(state := CA.Cancelled,
                                                      move := if c.move.PostedMove? then CA.CancelledMove(c.move.lines) else c.move)]
      ensures allocs == old(allocs) && assignments == old(assignments)
      ensures nextEntryId == old(nextEntryId) && prices == old(prices) && layers == old(layers) && landedCosts == old(landedCosts)
    {
      var c := costs[ci];
      if c.state == CA.Cancelled {
        return Fail(WrongState);
      }
      var move := if c.move.PostedMove? then CA.CancelledMove(c.move.lines) else c.move;
      costs := costs[ci := c.(state := CA.Cancelled, move := move)];
      r := Pass;
    }

    /** `action_draft`: only a cancelled cost returns to draft. */
    method ResetCostToDraft(ci: CostId) returns (r: Outcome)
      requires Valid() && ci < |costs|
      modifies this
      ensures Valid()
      ensures r.Pass? <==> old(costs)[ci].state == CA.Cancelled
      ensures r.Fail? ==> r.error == WrongState && unchanged(this)
      ensures r.Pass? ==> costs == old(costs)[ci := old(costs)[ci].(state := CA.Draft)]
      ensures allocs == old(allocs) && assignments == old(assignments)
      ensures nextEntryId == old(nextEntryId) && prices == old(prices) && layers == old(layers) && landedCosts == old(landedCosts)
    {
      if costs[ci].state != CA.Cancelled {
        return Fail(WrongState);
      }
      costs := costs[ci := costs[ci].(state := CA.Draft)];
      r := Pass;
    }

    /** `_compute_allocated_amount`: what a cost has allocated and to how many houses. */
    function AllocatedAmount(ci: CostId): real
      reads this
    {
      CA.SumAmounts(CA.RowsOf(allocs, ci))
    }

    function HouseCount(ci: CostId): nat
      reads this
    {
      |CA.RowsOf(allocs, ci)|
    }

    /**
     * The `write` of an allocation row's amount: when its cost is posted the
     * entries of its house are recalculated.
     */
    method WriteAllocationAmount(ri: nat, amount: real)
      requires Valid() && ri < |allocs|
      modifies this
      ensures Valid()
      ensures allocs == old(allocs)[ri := old(allocs)[ri].(amount := amount)]
      ensures old(allocs)[ri].cost < |costs|
      ensures var a := old(allocs)[ri];
              assignments == if costs[a.cost].state == CA.Posted
                             then Refresh(old(assignments), costs, allocs, costs[a.cost].project, [a.house])
                             else old(assignments)
      ensures costs == old(costs) && nextEntryId == old(nextEntryId)
      ensures prices == old(prices) && layers == old(layers) && landedCosts == old(landedCosts)
    {
      var a := allocs[ri];
      assert a in allocs;
      allocs := allocs[ri := a.(amount := amount)];
      if costs[a.cost].state == CA.Posted {
        RecalculateHouse(costs[a.cost].project, a.house);
      }
    }

    // ----- harvest entries (`farm.harvest.entry`) -----

    /**
     * `create`: the constraints, then the new entry, dated `date` and given
     * the next id, is stored in its (date, id) place and its own figures are
     * calculated (later entries are not recalculated); its receipt exists
     * when the stock transfer succeeds; finally, when the harvest's value at
     * its unit cost is positive, a posted direct cost of that value is
     * created for its house, linked to the entry, whose allocation row
     * recalculates every entry of the house with that value added to the
     * house cost.
     */
    method CreateEntry(ai: nat, date: Date, quantity: real, transferOk: bool) returns (r: Outcome)
      requires Valid() && ai < |assignments|
      modifies this
      ensures Valid()
      ensures var a := old(assignments)[ai];
              r == (if quantity <= 0.0 then Fail(InvalidQuantity)
                    else if a.product.None? then Fail(MissingProduct)
                    else if a.expected == 0.0 then Fail(MissingExpectedQuantity)
                    else Pass)
      ensures r.Fail? ==> unchanged(this)
      ensures r.Pass? ==> nextEntryId == old(nextEntryId) + 1
      ensures var a := old(assignments)[ai];
              var total := CA.HouseCost(old(costs), old(allocs), a.project, a.house);
              var es := CalcInserted(a.entries, NewEntry(old(nextEntryId), date, quantity, transferOk), total, a.expected);
              var value := HarvestValue(es[HL.InsertPos(a.entries, date)]);
              r.Pass? ==>
                if value > 0.0 then
                  costs == old(costs) + [HarvestCost(a, old(nextEntryId), date, value)] &&
                  allocs == old(allocs) + [CA.Alloc(|old(costs)|, a.house, value, 100.0)] &&
                  assignments == old(assignments)[ai := a.(entries := HL.Recalc(es, 0, total + value, a.expected))]
                else
                  costs == old(costs) && allocs == old(allocs) &&
                  assignments == old(assignments)[ai := a.(entries := es)]
      ensures prices == old(prices) && layers == old(layers) && landedCosts == old(landedCosts)
    {
      var a := assignments[ai];
      if quantity <= 0.0 {
        return Fail(InvalidQuantity);
      }
      if a.product.None? {
        return Fail(MissingProduct);
      }
      if a.expected == 0.0 {
        return Fail(MissingExpectedQuantity);
      }
      var e := NewEntry(nextEntryId, date, quantity, transferOk);
      var total := CA.HouseCost(costs, allocs, a.project, a.house);
      var pos := HL.InsertPos(a.entries, date);
      var es := HL.Insert(a.entries, e);
      es := es[pos := HL.CalcAt(es, pos, total, a.expected)];
      InsertedLedgerOk(a.entries, e, total, a.expected);
      nextEntryId := nextEntryId + 1;
      assignments := assignments[ai := a.(entries := es)];
      var value := HarvestValue(es[pos]);
      CreateHarvestCost(ai, e.id, date, value);
      r := Pass;
    }

    /**
     * `_create_harvest_cost`: nothing when the harvest's value is not
     * positive; otherwise a posted direct cost of that value on the entry's
     * house, linked to the entry. Its single allocation row recalculates
     * every entry of the house against a house cost grown by the value,
     * while the house cost without harvest costs stays as it was.
     */
    method CreateHarvestCost(ai: nat, id: EntryId, date: Date, value: real)
      requires Valid() && ai < |assignments|
      modifies this
      ensures Valid()
      ensures var a := old(assignments)[ai];
              if value > 0.0 then
                costs == old(costs) + [HarvestCost(a, id, date, value)] &&
                allocs == old(allocs) + [CA.Alloc(|old(costs)|, a.house, value, 100.0)] &&
                CA.HouseCost(costs, allocs, a.project, a.house) == CA.HouseCost(old(costs), old(allocs), a.project, a.house) + value &&
                CA.RealHouseCost(costs, allocs, a.project, a.house) == CA.RealHouseCost(old(costs), old(allocs), a.project, a.house) &&
                assignments == old(assignments)[ai := Refreshed(a, costs, allocs)]
              else
                costs == old(costs) && allocs == old(allocs) && assignments == old(assignments)
      ensures nextEntryId == old(nextEntryId) && prices == old(prices) && layers == old(layers) && landedCosts == old(landedCosts)
    {
      if value <= 0.0 {
        return;
      }
      var a := assignments[ai];
      ghost var costs0, allocs0 := costs, allocs;
      var c := HarvestCost(a, id, date, value);
      HarvestTargets(h, c, assignments, ai);
      CA.SingleHouseRow(|costs|, value, h, a.house);
      RefreshOne(assignments, costs + [c], allocs + [CA.Alloc(|costs|, a.house, value, 100.0)], ai);
      var created := CreateCost(c);
      assert CA.SumAmounts([CA.Alloc(|costs0|, a.house, value, 100.0)]) == value;
      CA.HarvestCostCharges(costs0, allocs0, c, [CA.Alloc(|costs0|, a.house, value, 100.0)], a.project, a.house);
    }

    /**
     * `write` of the quantity: the constraint, then the entry and every
     * later one recalculated in order; the entry's transfer is replaced,
     * so its receipt exists when the new transfer succeeds.
     */
    method WriteQuantity(ai: nat, k: nat, quantity: real, transferOk: bool) returns (r: Outcome)
      requires Valid() && ai < |assignments| && k < |assignments[ai].entries|
      modifies this
      ensures Valid()
      ensures r.Pass? <==> quantity > 0.0
      ensures r.Fail? ==> r.error == InvalidQuantity && unchanged(this)
      ensures var a := old(assignments)[ai];
              var es := a.entries[k := a.entries[k].(quantity := quantity, receipt := transferOk)];
              r.Pass? ==> assignments == old(assignments)[ai := a.(entries := HL.Recalc(es, k, CA.HouseCost(costs, allocs, a.project, a.house), a.expected))]
      ensures costs == old(costs) && allocs == old(allocs) && nextEntryId == old(nextEntryId)
      ensures prices == old(prices) && layers == old(layers) && landedCosts == old(landedCosts)
    {
      if quantity <= 0.0 {
        return Fail(InvalidQuantity);
      }
      var a := assignments[ai];
      var es := a.entries[k := a.entries[k].(quantity := quantity, receipt := transferOk)];
      FactsEditOk(a.entries, k, es[k], nextEntryId);
      assignments := assignments[ai := a.(entries := es)];
      RecalculateFrom(ai, k);
      r := Pass;
    }

    /**
     * `unlink`: the entries with the given ids are deleted, the harvest
     * costs linked to them lose the link (`ondelete='set null'`), and every
     * remaining entry of each assignment that lost an entry is recalculated
     * in order.
     */
    method UnlinkEntries(ids: set<EntryId>)
      requires Valid()
      modifies this
      ensures Valid()
      ensures costs == DetachHarvests(old(costs), ids)
      ensures assignments == AfterUnlink(old(assignments), costs, allocs, ids)
      ensures allocs == old(allocs) && nextEntryId == old(nextEntryId)
      ensures prices == old(prices) && layers == old(layers) && landedCosts == old(landedCosts)
    {
      costs := DetachHarvests(costs, ids);
      ghost var asg0 := assignments;
      var i := 0;
      while i < |assignments|
        invariant 0 <= i <= |assignments| == |asg0|
        invariant Valid()
        invariant forall k :: 0 <= k < |asg0| ==>
                    assignments[k] == if k < i then AfterUnlink(asg0, costs, allocs, ids)[k] else asg0[k]
        invariant costs == DetachHarvests(old(costs), ids)
        invariant allocs == old(allocs) && nextEntryId == old(nextEntryId)
        invariant prices == old(prices) && layers == old(layers) && landedCosts == old(landedCosts)
      {
        if Touched(assignments[i], ids) {
          RemoveEntries(i, ids);
        }
        i := i + 1;
      }
    }

    /** The entries `ids` leave one assignment, whose remaining entries are then recalculated in order. */
    method RemoveEntries(i: nat, ids: set<EntryId>)
      requires Valid() && i < |assignments|
      modifies this
      ensures Valid()
      ensures assignments == old(assignments)[i := Refreshed(old(assignments)[i].(entries := HL.Remove(old(assignments)[i].entries, ids)), costs, allocs)]
      ensures costs == old(costs) && allocs == old(allocs) && nextEntryId == old(nextEntryId)
      ensures prices == old(prices) && layers == old(layers) && landedCosts == old(landedCosts)
    {
      var a := assignments[i];
      HL.RemoveSorted(a.entries, ids);
      assignments := assignments[i := a.(entries := HL.Remove(a.entries, ids))];
      RecalculateFrom(i, 0);
    }

    /**
     * `action_cancel` of one entry: an entry already cancelled is left as it
     * is; otherwise its transfer, if any, is cancelled (a failure there
     * refuses the whole action) and the entry is cancelled. No figure is
     * recalculated.
     */
    method CancelEntry(ai: nat, k: nat, transferCancelled: bool) returns (r: Outcome)
      requires Valid() && ai < |assignments| && k < |assignments[ai].entries|
      modifies this
      ensures Valid()
      ensures var e := old(assignments)[ai].entries[k];
              r.Fail? <==> e.state == HL.Done && e.receipt && !transferCancelled
      ensures r.Fail? ==> r.error == TransferFailed
      ensures var a := old(assignments)[ai];
              assignments == if r.Pass? && a.entries[k].state == HL.Done
                             then old(assignments)[ai := a.(entries := a.entries[k := a.entries[k].(state := HL.Cancelled)])]
                             else old(assignments)
      ensures costs == old(costs) && allocs == old(allocs) && nextEntryId == old(nextEntryId)
      ensures prices == old(prices) && layers == old(layers) && landedCosts == old(landedCosts)
    {
      var a := assignments[ai];
      var e := a.entries[k];
      if e.state == HL.Cancelled {
        return Pass;
      }
      if e.receipt && !transferCancelled {
        return Fail(TransferFailed);
      }
      FactsEditOk(a.entries, k, e.(state := HL.Cancelled), nextEntryId);
      assignments := assignments[ai := a.(entries := a.entries[k := e.(state := HL.Cancelled)])];
      r := Pass;
    }

    /**
     * `action_set_to_done` of one entry: only a cancelled entry changes; it
     * is done again with a new transfer, whose receipt exists when the
     * transfer succeeds.
     */
    method SetEntryDone(ai: nat, k: nat, transferOk: bool)
      requires Valid() && ai < |assignments| && k < |assignments[ai].entries|
      modifies this
      ensures Valid()
      ensures var a := old(assignments)[ai];
              assignments == if a.entries[k].state == HL.Cancelled
                             then old(assignments)[ai := a.(entries := a.entries[k := a.entries[k].(state := HL.Done, receipt := transferOk)])]
                             else old(assignments)
      ensures costs == old(costs) && allocs == old(allocs) && nextEntryId == old(nextEntryId)
      ensures prices == old(prices) && layers == old(layers) && landedCosts == old(landedCosts)
    {
      var a := assignments[ai];
      var e := a.entries[k];
      if e.state == HL.Cancelled {
        FactsEditOk(a.entries, k, e.(state := HL.Done, receipt := transferOk), nextEntryId);
        assignments := assignments[ai := a.(entries := a.entries[k := e.(state := HL.Done, receipt := transferOk)])];
      }
    }

    // ----- AVCO (`farm.project`) -----

    /**
     * `_update_product_avco` of project `p`: without the cost product
     * nothing happens; without a general journal the update is refused;
     * otherwise each of the project's houses, in the order `order` gives
     * its assignments (by farm, sector, unit and house name), that has an
     * update sets its product's price to the target, revalues the product's
     * open layers at it and leaves a landed-cost record; the project is then
     * marked updated.
     */
    method UpdateAvco(p: Projects.Project, order: seq<nat>, costProductFound: bool, journalFound: bool, fallback: Option<AccountId>) returns (r: Outcome)
      requires Valid() && Projects.AssignmentOrder(h, assignments, p.id, order)
      modifies this, p
      ensures costs == old(costs) && allocs == old(allocs) && assignments == old(assignments) && nextEntryId == old(nextEntryId)
      ensures Valid()
      ensures r.Fail? <==> costProductFound && !journalFound
      ensures r.Fail? ==> r.error == MissingJournal
      ensures !costProductFound || r.Fail? ==> unchanged(this) && unchanged(p)
      ensures costProductFound && r.Pass? ==>
                var us := Projects.AvcoUpdates(costs, allocs, Projects.Ordered(assignments, order), p.id, fallback);
                prices == Projects.PricesAfter(old(prices), us) &&
                layers == Projects.LayersAfter(old(layers), us) &&
                landedCosts == old(landedCosts) + Projects.LandedCostsOf(p.id, us) &&
                p.avcoUpdated
      ensures p.status == old(p.status) && p.history == old(p.history) && p.actualStart == old(p.actualStart) &&
              p.actualFinish == old(p.actualFinish) && p.pausedDate == old(p.pausedDate) && p.totalPausedDays == old(p.totalPausedDays)
    {
      if !costProductFound {
        return Pass;
      }
      if !journalFound {
        return Fail(MissingJournal);
      }
      ApplyAvcoUpdates(p.id, Projects.Ordered(assignments, order), fallback);
      p.avcoUpdated := true;
      r := Pass;
    }

    /** The updates of the assignments `sel` of project `pid`, applied one after the other. */
    method ApplyAvcoUpdates(pid: ProjectId, sel: seq<Projects.Assignment>, fallback: Option<AccountId>)
      requires Valid()
      modifies this
      ensures Valid()
      ensures var us := Projects.AvcoUpdates(costs, allocs, sel, pid, fallback);
              prices == Projects.PricesAfter(old(prices), us) &&
              layers == Projects.LayersAfter(old(layers), us) &&
              landedCosts == old(landedCosts) + Projects.LandedCostsOf(pid, us)
      ensures costs == old(costs) && allocs == old(allocs) && assignments == old(assignments) && nextEntryId == old(nextEntryId)
    {
      var i := 0;
      while i < |sel|
        invariant 0 <= i <= |sel|
        invariant Valid()
        invariant prices == Projects.PricesAfter(old(prices), Projects.AvcoUpdates(costs, allocs, sel[..i], pid, fallback))
        invariant layers == Projects.LayersAfter(old(layers), Projects.AvcoUpdates(costs, allocs, sel[..i], pid, fallback))
        invariant landedCosts == old(landedCosts) + Projects.LandedCostsOf(pid, Projects.AvcoUpdates(costs, allocs, sel[..i], pid, fallback))
        invariant costs == old(costs) && allocs == old(allocs) && assignments == old(assignments) && nextEntryId == old(nextEntryId)
      {
        var u := Projects.UpdateOf(costs, allocs, sel[i], pid, fallback);
        ghost var us := Projects.AvcoUpdates(costs, allocs, sel[..i], pid, fallback);
        AvcoStep(costs, allocs, sel, i, pid, fallback);
        if u.Some? {
          ApplyAvcoUpdate(pid, u.value);
          AfterOneMore(old(prices), old(layers), old(landedCosts), us, u.value, pid);
          assert Projects.AvcoUpdates(costs, allocs, sel[..i + 1], pid, fallback) == us + [u.value];
        } else {
          assert Projects.AvcoUpdates(costs, allocs, sel[..i + 1], pid, fallback) == us;
        }
        i := i + 1;
      }
      assert sel[..i] == sel;
    }

    /** One house's update: the product's price, its open layers and a landed-cost record. */
    method ApplyAvcoUpdate(pid: ProjectId, v: Projects.AvcoUpdate)
      requires Valid()
      modifies this
      ensures Valid()
      ensures prices == old(prices)[v.product := v.target]
      ensures layers == Projects.Revalue(old(layers), v.product, v.target)
      ensures landedCosts == old(landedCosts) + [Projects.LandedCost(pid, v.house, v.product, v.cost, v.account)]
      ensures costs == old(costs) && allocs == old(allocs) && assignments == old(assignments) && nextEntryId == old(nextEntryId)
    {
      prices := prices[v.product := v.target];
      RevalueLayers(v.product, v.target);
      landedCosts := landedCosts + [Projects.LandedCost(pid, v.house, v.product, v.cost, v.account)];
    }

    /** `remaining_value = remaining_qty × target` on each open layer of the product. */
    method RevalueLayers(product: ProductId, target: real)
      requires Valid()
      modifies this
      ensures Valid()
      ensures layers == Projects.Revalue(old(layers), product, target)
      ensures costs == old(costs) && allocs == old(allocs) && assignments == old(assignments) && nextEntryId == old(nextEntryId)
      ensures prices == old(prices) && landedCosts == old(landedCosts)
    {
      var j := 0;
      while j < |layers|
        invariant 0 <= j <= |layers| == |old(layers)|
        invariant Valid()
        invariant forall k :: 0 <= k < j ==> layers[k] == Projects.RevalueLayer(old(layers)[k], product, target)
        invariant forall k :: j <= k < |layers| ==> layers[k] == old(layers)[k]
        invariant costs == old(costs) && allocs == old(allocs) && assignments == old(assignments) && nextEntryId == old(nextEntryId)
        invariant prices == old(prices) && landedCosts == old(landedCosts)
      {
        layers := layers[j := Projects.RevalueLayer(layers[j], product, target)];
        j := j + 1;
      }
    }

    /**
     * `_revert_avco` of project `p`: its landed-cost records go, each
     * product they concern is priced again from its open layers (value over
     * quantity, or 0 without any), and the project is no longer marked
     * updated. The layers themselves stay as they are.
     */
    method RevertAvco(p: Projects.Project)
      requires Valid()
      modifies this, p
      ensures Valid()
      ensures prices == Projects.ResetPrices(old(prices), layers, Projects.ResetProducts(old(landedCosts), p.id))
      ensures landedCosts == Projects.KeepOtherProjects(old(landedCosts), p.id)
      ensures !p.avcoUpdated
      ensures layers == old(layers) && costs == old(costs) && allocs == old(allocs) &&
              assignments == old(assignments) && nextEntryId == old(nextEntryId)
      ensures p.status == old(p.status) && p.history == old(p.history) && p.actualStart == old(p.actualStart) &&
              p.actualFinish == old(p.actualFinish) && p.pausedDate == old(p.pausedDate) && p.totalPausedDays == old(p.totalPausedDays)
    {
      var products := Projects.ResetProducts(landedCosts, p.id);
      landedCosts := Projects.KeepOtherProjects(landedCosts, p.id);
      var j := 0;
      while j < |products|
        invariant 0 <= j <= |products|
        invariant Valid()
        invariant prices == Projects.ResetPrices(old(prices), layers, products[..j])
        invariant landedCosts == Projects.KeepOtherProjects(old(landedCosts), p.id)
        invariant layers == old(layers) && costs == old(costs) && allocs == old(allocs) &&
                  assignments == old(assignments) && nextEntryId == old(nextEntryId)
        invariant unchanged(p)
      {
        assert products[..j + 1][..j] == products[..j];
        prices := prices[products[j] := Projects.LayerPrice(layers, products[j])];
        j := j + 1;
      }
      assert products[..j] == products;
      p.avcoUpdated := false;
    }

    /**
     * `action_update_avco`: only for a project in progress or completed;
     * the revert and the update then run as one transaction, so a missing
     * journal leaves everything as it was.
     */
    method ActionUpdateAvco(p: Projects.Project, order: seq<nat>, costProductFound: bool, journalFound: bool, fallback: Option<AccountId>) returns (r: Outcome)
      requires Valid() && Projects.AssignmentOrder(h, assignments, p.id, order)
      modifies this, p
      ensures costs == old(costs) && allocs == old(allocs) && assignments == old(assignments) && nextEntryId == old(nextEntryId)
      ensures Valid()
      ensures r.Fail? <==> (old(p.status) != Projects.InProgress && old(p.status) != Projects.Completed) || (costProductFound && !journalFound)
      ensures r.Fail? ==> unchanged(this) && unchanged(p)
      ensures r.Fail? && old(p.status) != Projects.InProgress && old(p.status) != Projects.Completed ==> r.error == WrongState
      ensures r.Pass? ==>
                var us := Projects.AvcoUpdates(costs, allocs, Projects.Ordered(assignments, order), p.id, fallback);
                var reset := Projects.ResetPrices(old(prices), old(layers), Projects.ResetProducts(old(landedCosts), p.id));
                (if costProductFound
                 then prices == Projects.PricesAfter(reset, us) &&
                      layers == Projects.LayersAfter(old(layers), us) &&
                      landedCosts == Projects.KeepOtherProjects(old(landedCosts), p.id) + Projects.LandedCostsOf(p.id, us)
                 else prices == reset && layers == old(layers) &&
                      landedCosts == Projects.KeepOtherProjects(old(landedCosts), p.id)) &&
                p.avcoUpdated == costProductFound
      ensures p.status == old(p.status) && p.history == old(p.history)
    {
      if p.status != Projects.InProgress && p.status != Projects.Completed {
        return Fail(WrongState);
      }
      if costProductFound && !journalFound {
        return Fail(MissingJournal);
      }
      RevertAvco(p);
      r := UpdateAvco(p, order, costProductFound, journalFound, fallback);
    }

    /**
     * `action_complete`: a project in progress is completed today and its
     * AVCO updated, in one transaction; a missing journal refuses the whole
     * action.
     */
    method CompleteProject(p: Projects.Project, order: seq<nat>, today: Date, costProductFound: bool, journalFound: bool, fallback: Option<AccountId>) returns (r: Outcome)
      requires Valid() && p.Valid() && Projects.AssignmentOrder(h, assignments, p.id, order)
      modifies this, p
      ensures costs == old(costs) && allocs == old(allocs) && assignments == old(assignments) && nextEntryId == old(nextEntryId)
      ensures Valid() && p.Valid()
      ensures r.Fail? <==> old(p.status) != Projects.InProgress || (costProductFound && !journalFound)
      ensures r.Fail? ==> unchanged(this) && unchanged(p)
      ensures r.Fail? && old(p.status) != Projects.InProgress ==> r.error == WrongState
      ensures r.Pass? ==>
                p.status == Projects.Completed && p.actualFinish == Some(today) &&
                p.history == old(p.history) + [Projects.StatusChange(Projects.InProgress, Projects.Completed, Projects.CompletedNote)] &&
                var us := Projects.AvcoUpdates(costs, allocs, Projects.Ordered(assignments, order), p.id, fallback);
                (if costProductFound
                 then prices == Projects.PricesAfter(old(prices), us) &&
                      layers == Projects.LayersAfter(old(layers), us) &&
                      landedCosts == old(landedCosts) + Projects.LandedCostsOf(p.id, us) &&
                      p.avcoUpdated
                 else prices == old(prices) && layers == old(layers) && landedCosts == old(landedCosts) &&
                      p.avcoUpdated == old(p.avcoUpdated))
    {
      if p.status != Projects.InProgress {
        return Fail(WrongState);
      }
      if costProductFound && !journalFound {
        return Fail(MissingJournal);
      }
      r := p.Complete(today);
      r := UpdateAvco(p, order, costProductFound, journalFound, fallback);
    }
  }

  /** The entry `create` stores, before its figures are calculated. */
  function NewEntry(id: EntryId, date: Date, quantity: real, receipt: bool): HL.Entry
  {
    HL.Entry(id, date, quantity, HL.Done, 0.0, 0.0, receipt)
  }

  /** The ledger after `create` inserts entry `e` in its place and calculates that entry alone. */
  function CalcInserted(es: seq<HL.Entry>, e: HL.Entry, total: real, expected: real): (r: seq<HL.Entry>)
    ensures |r| == |es| + 1
  {
    var p := HL.InsertPos(es, e.date);
    var s := HL.Insert(es, e);
    s[p := HL.CalcAt(s, p, total, expected)]
  }

  /** The value `_create_harvest_cost` gives a harvest: its quantity at its unit cost. */
  function HarvestValue(e: HL.Entry): real
  {
    e.quantity * HL.UnitCost(e)
  }

  /** The cost `_create_harvest_cost` records: posted, direct, on the entry's house, linked to the entry. */
  function HarvestCost(a: Projects.Assignment, id: EntryId, date: Date, value: real): CA.Cost
  {
    CA.Cost(a.project, CA.Direct, CA.Posted, value, date, [], [], [a.house], None, None, None, None, Some(id), CA.NoMove)
  }

  /** The costs after `unlink` of the entries `ids`: the harvest link of their costs is cleared. */
  function DetachHarvests(costs: seq<CA.Cost>, ids: set<EntryId>): seq<CA.Cost>
  {
    seq(|costs|, i requires 0 <= i < |costs| =>
      if costs[i].harvest.Some? && costs[i].harvest.value in ids then costs[i].(harvest := None) else costs[i])
  }

  /** Some of the entries `ids` belong to assignment `a`. */
  predicate Touched(a: Projects.Assignment, ids: set<EntryId>)
  {
    exists e :: e in a.entries && e.id in ids
  }

  /** The assignments after `unlink`: every assignment that lost an entry is recalculated. */
  function AfterUnlink(asg: seq<Projects.Assignment>, costs: seq<CA.Cost>, rows: seq<CA.Alloc>, ids: set<EntryId>): seq<Projects.Assignment>
  {
    seq(|asg|, k requires 0 <= k < |asg| =>
      if Touched(asg[k], ids)
      then Refreshed(asg[k].(entries := HL.Remove(asg[k].entries, ids)), costs, rows)
      else asg[k])
  }

  lemma InsertedLedgerOk(es: seq<HL.Entry>, e: HL.Entry, total: real, expected: real)
    requires HL.LedgerOk(es, e.id)
    ensures HL.InsertPos(es, e.date) < |HL.Insert(es, e)|
    ensures HL.LedgerOk(CalcInserted(es, e, total, expected), e.id + 1)
  {
    HL.InsertSorted(es, e);
    var p := HL.InsertPos(es, e.date);
    var s := HL.Insert(es, e);
    HL.CalcKeepsFacts(s[..p], s[p], total, expected);
    FactsEditOk(s, p, HL.CalcAt(s, p, total, expected), e.id + 1);
  }

  /** Changing an entry in place without touching its date or id keeps the ledger in order. */
  lemma FactsEditOk(es: seq<HL.Entry>, k: nat, x: HL.Entry, next: EntryId)
    requires k < |es| && HL.LedgerOk(es, next)
    requires x.date == es[k].date && x.id == es[k].id
    ensures HL.LedgerOk(es[k := x], next)
  {
    var r := es[k := x];
    forall i, j | 0 <= i < j < |r| ensures HL.Before(r[i], r[j]) {
      assert HL.Before(es[i], es[j]);
    }
    forall y | y in r ensures y.id < next {
      var i :| 0 <= i < |r| && r[i] == y;
      assert es[i] in es;
    }
  }

  /** The houses of a harvest cost: the entry's house alone. */
  lemma HarvestTargets(h: Hierarchy, c: CA.Cost, asg: seq<Projects.Assignment>, ai: nat)
    requires Projects.UniqueAssignments(asg) && ai < |asg|
    requires c.kind == CA.Direct && c.sectors == [] && c.units == [] && c.houses == [asg[ai].house]
    requires c.project == asg[ai].project
    ensures CA.TargetHouses(h, c, Projects.ProjectHouses(asg, c.project)) == [asg[ai].house]
  {
    var x := asg[ai].house;
    Projects.ProjectHousesMembers(asg, c.project);
    assert x in Projects.ProjectHouses(asg, c.project);
    assert Union([], [x]) == [x];
    assert SelectedHouses(h, [], [], [x]) == [x];
    assert CA.Restrict([x], Projects.ProjectHouses(asg, c.project)) == [x] + CA.Restrict([], Projects.ProjectHouses(asg, c.project));
  }

  /** With unique assignments, refreshing one (project, house) refreshes one assignment. */
  lemma RefreshOne(asg: seq<Projects.Assignment>, costs: seq<CA.Cost>, rows: seq<CA.Alloc>, ai: nat)
    requires Projects.UniqueAssignments(asg) && ai < |asg|
    ensures Refresh(asg, costs, rows, asg[ai].project, [asg[ai].house]) == asg[ai := Refreshed(asg[ai], costs, rows)]
  {
  }

  /**
   * A quantity written into a settled ledger: recalculating from the written
   * entry on, as `write` does, settles the whole ledger and equals a full
   * recalculation, since the entries before it saw nothing change.
   */
  lemma WriteSettles(es: seq<HL.Entry>, k: nat, x: HL.Entry, total: real, expected: real)
    requires k < |es| && HL.Settled(es, total, expected)
    ensures HL.Recalc(es[k := x], k, total, expected) == HL.Recalc(es[k := x], 0, total, expected)
    ensures HL.Settled(HL.Recalc(es[k := x], k, total, expected), total, expected)
  {
    var es1 := es[k := x];
    forall j | 0 <= j < k
      ensures es1[j] == HL.CalcAt(es1, j, total, expected)
    {
      assert es1[..j] == es[..j];
      assert es[j] == HL.CalcAt(es, j, total, expected);
    }
    assert HL.SettledBelow(es1, k, total, expected);
    HL.CascadeFromEdit(es1, k, total, expected);
    HL.RecalcSettles(es1, k, total, expected);
  }

  /**
   * A first harvest of 200 in a house whose posted costs come to 5000, with
   * 1000 expected, takes 1000 and is valued at 1000. Counting the harvest
   * cost recorded for it, as `total_house_cost` does, the house cost becomes
   * 6000 and the entry's recalculation 1200, no longer the value recorded;
   * without it the house cost stays 5000 and the entry keeps 1000.
   */
  lemma HarvestCostFeedsBack()
    ensures var es := ExampleLedger();
            HarvestValue(es[0]) == 1000.0 &&
            CA.HouseCost(ExampleCosts(), ExampleRows(), 1, 7) == 6000.0 &&
            HL.Recalc(es, 0, CA.HouseCost(ExampleCosts(), ExampleRows(), 1, 7), 1000.0)[0].allocatedCost == 1200.0 &&
            CA.RealHouseCost(ExampleCosts(), ExampleRows(), 1, 7) == 5000.0 &&
            HL.Recalc(es, 0, CA.RealHouseCost(ExampleCosts(), ExampleRows(), 1, 7), 1000.0) == es
  {
    ExampleHouseCosts();
    ExampleRecalc();
  }

  /** The ledger after the first harvest of 200 against a house cost of 5000 with 1000 expected. */
  function ExampleLedger(): seq<HL.Entry>
  {
    CalcInserted([], NewEntry(1, 10, 200.0, true), 5000.0, 1000.0)
  }

  /** A posted cost of 5000 on house 7 of project 1, then the harvest cost recorded for the harvest above. */
  function ExampleCosts(): seq<CA.Cost>
  {
    [CA.Cost(1, CA.Direct, CA.Posted, 5000.0, 1, [], [], [7], None, None, None, None, None, CA.NoMove),
     HarvestCost(Projects.Assignment(1, 7, Some(3), 1000.0, []), 1, 10, 1000.0)]
  }

  function ExampleRows(): seq<CA.Alloc>
  {
    [CA.Alloc(0, 7, 5000.0, 100.0), CA.Alloc(1, 7, 1000.0, 100.0)]
  }

  lemma ExampleHouseCosts()
    ensures CA.HouseCost(ExampleCosts(), ExampleRows(), 1, 7) == 6000.0
    ensures CA.RealHouseCost(ExampleCosts(), ExampleRows(), 1, 7) == 5000.0
  {
    var costs, rows := ExampleCosts(), ExampleRows();
    var r0, r1 := rows[0], rows[1];
    assert rows[1..] == [r1] && [r1][1..] == [];
    assert CA.Charges(costs, r0, 1, 7) && CA.Charges(costs, r1, 1, 7);
    assert CA.PostedRows(costs, [r1], 1, 7) == [r1];
    assert CA.PostedRows(costs, rows, 1, 7) == rows;
    assert !CA.ChargesReal(costs, r1, 1, 7);
    assert CA.RealRows(costs, [r1], 1, 7) == [];
    assert CA.RealRows(costs, rows, 1, 7) == [r0];
  }

  lemma ExampleRecalc()
    ensures |ExampleLedger()| == 1
    ensures HarvestValue(ExampleLedger()[0]) == 1000.0
    ensures HL.Recalc(ExampleLedger(), 0, 6000.0, 1000.0)[0].allocatedCost == 1200.0
    ensures HL.Recalc(ExampleLedger(), 0, 5000.0, 1000.0) == ExampleLedger()
  {
    var e1 := HL.Entry(1, 10, 200.0, HL.Done, 5000.0, 1000.0, true);
    ExampleLedgerIs();
    assert 200.0 * (1000.0 / 200.0) == 1000.0;
    var es := [e1];
    assert [e1][..0] == [];
    var c6 := HL.CalcAt(es, 0, 6000.0, 1000.0);
    assert 6000.0 * (200.0 / 1000.0) == 1200.0;
    assert c6.allocatedCost == 1200.0;
    assert HL.Recalc(es, 0, 6000.0, 1000.0) == HL.Recalc([c6], 1, 6000.0, 1000.0) == [c6];
    assert HL.CalcAt(es, 0, 5000.0, 1000.0) == e1;
    assert HL.Recalc(es, 0, 5000.0, 1000.0) == HL.Recalc([e1], 1, 5000.0, 1000.0);
  }

  lemma ExampleLedgerIs()
    ensures ExampleLedger() == [HL.Entry(1, 10, 200.0, HL.Done, 5000.0, 1000.0, true)]
  {
    var e := NewEntry(1, 10, 200.0, true);
    assert HL.InsertPos([], e.date) == 0;
    assert HL.Insert([], e) == [e];
    assert [e][..0] == [];
    assert 5000.0 * (200.0 / 1000.0) == 1000.0;
  }

  /** The updates of the first `i + 1` assignments extend those of the first `i` by the update of assignment `i`, if any. */
  lemma AvcoStep(costs: seq<CA.Cost>, rows: seq<CA.Alloc>, asg: seq<Projects.Assignment>, i: nat, p: ProjectId, fallback: Option<AccountId>)
    requires i < |asg|
    ensures var u := Projects.UpdateOf(costs, rows, asg[i], p, fallback);
            Projects.AvcoUpdates(costs, rows, asg[..i + 1], p, fallback) ==
            Projects.AvcoUpdates(costs, rows, asg[..i], p, fallback) + (if u.Some? then [u.value] else [])
  {
    assert asg[..i + 1][..i] == asg[..i];
  }

  /** Prices, layers and landed costs after one more update. */
  lemma AfterOneMore(prices: map<ProductId, real>, ls: seq<Projects.Layer>, lcs: seq<Projects.LandedCost>,
                     us: seq<Projects.AvcoUpdate>, v: Projects.AvcoUpdate, pid: ProjectId)
    ensures Projects.PricesAfter(prices, us + [v]) == Projects.PricesAfter(prices, us)[v.product := v.target]
    ensures Projects.LayersAfter(ls, us + [v]) == Projects.Revalue(Projects.LayersAfter(ls, us), v.product, v.target)
    ensures lcs + Projects.LandedCostsOf(pid, us + [v]) ==
            lcs + Projects.LandedCostsOf(pid, us) + [Projects.LandedCost(pid, v.house, v.product, v.cost, v.account)]
  {
    assert Projects.Init(us + [v]) == us;
  }

  lemma TargetsNoDup(h: Hierarchy, c: CA.Cost, asg: seq<Projects.Assignment>)
    requires Projects.UniqueAssignments(asg)
    ensures NoDup(CA.TargetHouses(h, c, Projects.ProjectHouses(asg, c.project)))
  {
    Projects.ProjectHousesMembers(asg, c.project);
    CA.TargetHousesMembers(h, c, Projects.ProjectHouses(asg, c.project));
  }

  lemma RowAt(ci: CostId, amount: real, h: Hierarchy, ts: seq<HouseId>, j: nat)
    requires j < |ts|
    ensures |CA.AllocationRows(ci, amount, h, ts)| == |ts|
    ensures CA.AllocationRows(ci, amount, h, ts)[j].cost == ci
    ensures CA.AllocationRows(ci, amount, h, ts)[j].house == ts[j]
  {
    CA.AllocationRowAt(ci, amount, h, ts, j);
  }

  lemma AppendNext<T>(base: seq<T>, xs: seq<T>, j: nat)
    requires j < |xs|
    ensures base + xs[..j] + [xs[j]] == base + xs[..j + 1]
  {
    assert xs[..j + 1] == xs[..j] + [xs[j]];
  }

  /**
   * The assignments `cur` are `asg` with the houses `xs` of project `p`
   * refreshed when `posted` holds, and `asg` otherwise.
   */
  predicate RefreshedUpTo(asg: seq<Projects.Assignment>, cur: seq<Projects.Assignment>, costs: seq<CA.Cost>, rows: seq<CA.Alloc>,
                          posted: bool, p: ProjectId, xs: seq<HouseId>)
  {
    |cur| == |asg| &&
    forall k :: 0 <= k < |asg| ==>
      cur[k] == if posted && asg[k].project == p && asg[k].house in xs then Refreshed(asg[k], costs, rows) else asg[k]
  }

  lemma RefreshedUpToAll(asg: seq<Projects.Assignment>, cur: seq<Projects.Assignment>, costs: seq<CA.Cost>, rows: seq<CA.Alloc>,
                         posted: bool, p: ProjectId, xs: seq<HouseId>)
    requires RefreshedUpTo(asg, cur, costs, rows, posted, p, xs)
    ensures cur == if posted then Refresh(asg, costs, rows, p, xs) else asg
  {
  }

  lemma RefreshStep(asg: seq<Projects.Assignment>, cur: seq<Projects.Assignment>, costs: seq<CA.Cost>, rows: seq<CA.Alloc>,
                    row: CA.Alloc, posted: bool, p: ProjectId, ts: seq<HouseId>, j: nat)
    requires j < |ts| && NoDup(ts) && row.house == ts[j]
    requires RefreshedUpTo(asg, cur, costs, rows, posted, p, ts[..j])
    ensures RefreshedUpTo(asg, if posted then Refresh(cur, costs, rows + [row], p, [row.house]) else cur,
                          costs, rows + [row], posted, p, ts[..j + 1])
  {
    assert ts[..j + 1] == ts[..j] + [ts[j]];
    var next := if posted then Refresh(cur, costs, rows + [row], p, [row.house]) else cur;
    forall k | 0 <= k < |asg|
      ensures next[k] == if posted && asg[k].project == p && asg[k].house in ts[..j + 1]
                         then Refreshed(asg[k], costs, rows + [row]) else asg[k]
    {
      if posted && asg[k].project == p && asg[k].house in ts[..j] {
        var i :| 0 <= i < j && ts[i] == asg[k].house;
        CA.HouseCostOtherRows(costs, rows, [row], asg[k].project, asg[k].house);
      }
    }
  }
}
