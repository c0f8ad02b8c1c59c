/**
 * Projects (`models/farm_project.py`): the status life cycle of a project,
 * its cost totals, the statistics of its house assignments and the
 * specification of the AVCO (average cost) update and of its revert. The
 * AVCO actions themselves change the store and live in the `Store` module.
 */
module Projects {
  import opened Common
  import opened Farm
  import CA = CostAllocation
  import HL = HarvestLedger

  datatype Status = Draft | InProgress | Paused | Completed | Cancelled

  /** What a logged status change says: the reason given in the wizard, or the fixed note of a direct action. */
  datatype Note = Reason(text: string) | StartedNote | CompletedNote | ResetNote

  /** A `farm.project.status.history` record. */
  datatype StatusChange = StatusChange(from: Status, to: Status, note: Note)

  class Project {
    const id: ProjectId
    var status: Status
    var actualStart: Option<Date>
    var actualFinish: Option<Date>
    var pausedDate: Option<Date>
    var totalPausedDays: int
    var history: seq<StatusChange>
    var avcoUpdated: bool

    /** The latest logged change names the current status; a project never changed is a draft. */
    predicate Valid()
      reads this
    {
      if history == [] then status == Draft else history[|history| - 1].to == status
    }

    constructor (id: ProjectId)
      ensures this.id == id && status == Draft && history == []
      ensures actualStart == None && actualFinish == None && pausedDate == None
      ensures totalPausedDays == 0 && !avcoUpdated
      ensures Valid()
    {
      this.id := id;
      status := Draft;
      actualStart := None;
      actualFinish := None;
      pausedDate := None;
      totalPausedDays := 0;
      history := [];
      avcoUpdated := false;
    }

    /** `action_start`: a draft project starts today. */
    method Start(today: Date) returns (r: Outcome)
      requires Valid()
      modifies this
      ensures Valid()
      ensures old(status) != Draft ==> r == Fail(WrongState) && unchanged(this)
      ensures old(status) == Draft ==>
                r == Pass && status == InProgress && actualStart == Some(today) &&
                history == old(history) + [StatusChange(Draft, InProgress, StartedNote)] &&
                actualFinish == old(actualFinish) && pausedDate == old(pausedDate) &&
                totalPausedDays == old(totalPausedDays) && avcoUpdated == old(avcoUpdated)
    {
      if status != Draft {
        return Fail(WrongState);
      }
      history := history + [StatusChange(Draft, InProgress, StartedNote)];
      status := InProgress;
      actualStart := Some(today);
      r := Pass;
    }

    /** `action_pause`: only a project in progress may open the pause wizard. */
    function PauseRequest(): (r: Outcome)
      reads this
      ensures r.Pass? <==> status == InProgress
      ensures r.Fail? ==> r.error == WrongState
    {
      if status != InProgress then Fail(WrongState) else Pass
    }

    /** `action_resume`: only a paused project may open the resume wizard. */
    function ResumeRequest(): (r: Outcome)
      reads this
      ensures r.Pass? <==> status == Paused
      ensures r.Fail? ==> r.error == WrongState
    {
      if status != Paused then Fail(WrongState) else Pass
    }

    /** `action_cancel`: a completed or cancelled project may not open the cancel wizard. */
    function CancelRequest(): (r: Outcome)
      reads this
      ensures r.Pass? <==> status != Completed && status != Cancelled
      ensures r.Fail? ==> r.error == WrongState
    {
      if status == Completed || status == Cancelled then Fail(WrongState) else Pass
    }

    /** The status part of `action_complete`: a project in progress completes today. */
    method Complete(today: Date) returns (r: Outcome)
      requires Valid()
      modifies this
      ensures Valid()
      ensures old(status) != InProgress ==> r == Fail(WrongState) && unchanged(this)
      ensures old(status) == InProgress ==>
                r == Pass && status == Completed && actualFinish == Some(today) &&
                history == old(history) + [StatusChange(InProgress, Completed, CompletedNote)] &&
                actualStart == old(actualStart) && pausedDate == old(pausedDate) &&
                totalPausedDays == old(totalPausedDays) && avcoUpdated == old(avcoUpdated)
    {
      if status != InProgress {
        return Fail(WrongState);
      }
      history := history + [StatusChange(InProgress, Completed, CompletedNote)];
      status := Completed;
      actualFinish := Some(today);
      r := Pass;
    }

    /**
     * `action_reset_to_draft`: any project but a completed one returns to
     * draft, losing its start and pause dates; the paused days are kept.
     */
    method ResetToDraft() returns (r: Outcome)
      requires Valid()
      modifies this
      ensures Valid()
      ensures old(status) == Completed ==> r == Fail(WrongState) && unchanged(this)
      ensures old(status) != Completed ==>
                r == Pass && status == Draft && actualStart == None && pausedDate == None &&
                history == old(history) + [StatusChange(old(status), Draft, ResetNote)] &&
                actualFinish == old(actualFinish) && totalPausedDays == old(totalPausedDays) &&
                avcoUpdated == old(avcoUpdated)
    {
      if status == Completed {
        return Fail(WrongState);
      }
      history := history + [StatusChange(status, Draft, ResetNote)];
      status := Draft;
      actualStart := None;
      pausedDate := None;
      r := Pass;
    }

    /** `_do_pause`: logs a change from in progress, whatever the status, and pauses today. */
    method DoPause(reason: string, today: Date)
      requires Valid()
      modifies this
      ensures Valid()
      ensures status == Paused && pausedDate == Some(today)
      ensures history == old(history) + [StatusChange(InProgress, Paused, Reason(reason))]
      ensures actualStart == old(actualStart) && actualFinish == old(actualFinish)
      ensures totalPausedDays == old(totalPausedDays) && avcoUpdated == old(avcoUpdated)
    {
      history := history + [StatusChange(InProgress, Paused, Reason(reason))];
      status := Paused;
      pausedDate := Some(today);
    }

    /**
     * `_do_resume`: back in progress; the days since the pause date (none
     * when it is unset) are added to the paused days and the date is cleared.
     */
    method DoResume(reason: string, today: Date)
      requires Valid()
      modifies this
      ensures Valid()
      ensures status == InProgress && pausedDate == None
      ensures old(pausedDate).Some? ==> totalPausedDays == old(totalPausedDays) + (today - old(pausedDate).value)
      ensures old(pausedDate).None? ==> totalPausedDays == old(totalPausedDays)
      ensures history == old(history) + [StatusChange(Paused, InProgress, Reason(reason))]
      ensures actualStart == old(actualStart) && actualFinish == old(actualFinish)
      ensures avcoUpdated == old(avcoUpdated)
    {
      var pausedDays := 0;
      if pausedDate.Some? {
        pausedDays := today - pausedDate.value;
      }
      history := history + [StatusChange(Paused, InProgress, Reason(reason))];
      status := InProgress;
      pausedDate := None;
      totalPausedDays := totalPausedDays + pausedDays;
    }

    /** `_do_cancel`: logs the change from the current status and cancels. */
    method DoCancel(reason: string)
      requires Valid()
      modifies this
      ensures Valid()
      ensures status == Cancelled
      ensures history == old(history) + [StatusChange(old(status), Cancelled, Reason(reason))]
      ensures actualStart == old(actualStart) && actualFinish == old(actualFinish)
      ensures pausedDate == old(pausedDate) && totalPausedDays == old(totalPausedDays)
      ensures avcoUpdated == old(avcoUpdated)
    {
      history := history + [StatusChange(status, Cancelled, Reason(reason))];
      status := Cancelled;
    }
  }

  // ----- project cost totals (`_compute_costs`) -----

  /** What one cost adds to the project's total of one kind: its amount when posted. */
  function Contribution(c: CA.Cost, p: ProjectId, kind: CA.CostKind): real
  {
    if c.project == p && c.state == CA.Posted && c.kind == kind then c.amount else 0.0
  }

  function PostedSum(costs: seq<CA.Cost>, p: ProjectId, kind: CA.CostKind): real
  {
    if costs == [] then 0.0 else Contribution(costs[0], p, kind) + PostedSum(costs[1..], p, kind)
  }

  datatype Totals = Totals(direct: real, indirect: real, total: real, perSqm: real)

  /**
   * The project's posted direct and indirect costs, their sum, and the cost
   * per square metre of its assigned area (0 when the area is 0).
   */
  function ProjectTotals(costs: seq<CA.Cost>, p: ProjectId, area: real): (r: Totals)
    ensures r.total == r.direct + r.indirect
    ensures area != 0.0 ==> r.perSqm * area == r.total
    ensures area == 0.0 ==> r.perSqm == 0.0
  {
    var direct := PostedSum(costs, p, CA.Direct);
    var indirect := PostedSum(costs, p, CA.Indirect);
    Totals(direct, indirect, direct + indirect, if area != 0.0 then (direct + indirect) / area else 0.0)
  }

  /** Replacing one cost changes a posted sum by the difference of the two contributions. */
  lemma {:induction false} PostedSumUpdate(costs: seq<CA.Cost>, i: nat, c: CA.Cost, p: ProjectId, kind: CA.CostKind)
    requires i < |costs|
    ensures PostedSum(costs[i := c], p, kind) ==
            PostedSum(costs, p, kind) - Contribution(costs[i], p, kind) + Contribution(c, p, kind)
  {
    if i > 0 {
      PostedSumUpdate(costs[1..], i - 1, c, p, kind);
      assert costs[i := c][1..] == costs[1..][i - 1 := c];
    } else {
      assert costs[i := c][1..] == costs[1..];
    }
  }

  /**
   * Only posted costs count: posting a draft cost of the project raises its
   * total by the amount, cancelling a posted one lowers it by the amount,
   * and any change to a cost that is not posted before or after leaves it.
   */
  lemma TotalsFollowPosting(costs: seq<CA.Cost>, i: nat, s: CA.CostState, p: ProjectId, area: real)
    requires i < |costs| && costs[i].project == p
    ensures costs[i].state != CA.Posted && s == CA.Posted ==>
              ProjectTotals(costs[i := costs[i].(state := s)], p, area).total == ProjectTotals(costs, p, area).total + costs[i].amount
    ensures costs[i].state == CA.Posted && s != CA.Posted ==>
              ProjectTotals(costs[i := costs[i].(state := s)], p, area).total == ProjectTotals(costs, p, area).total - costs[i].amount
  {
    PostedSumUpdate(costs, i, costs[i].(state := s), p, CA.Direct);
    PostedSumUpdate(costs, i, costs[i].(state := s), p, CA.Indirect);
  }

  lemma DraftEditsDoNotCount(costs: seq<CA.Cost>, i: nat, c: CA.Cost, p: ProjectId, area: real)
    requires i < |costs| && costs[i].state != CA.Posted && c.state != CA.Posted
    ensures ProjectTotals(costs[i := c], p, area) == ProjectTotals(costs, p, area)
  {
    PostedSumUpdate(costs, i, c, p, CA.Direct);
    PostedSumUpdate(costs, i, c, p, CA.Indirect);
  }

  // ----- house assignments (`farm.project.house`) -----

  /** A house assigned to a project, with its harvest plan and its harvest entries in (date, id) order. */
  datatype Assignment = Assignment(
    project: ProjectId,
    house: HouseId,
    product: Option<ProductId>,
    expected: real,                 // expected_qty
    entries: seq<HL.Entry>)

  /** The `UNIQUE(project_id, house_id)` constraint. */
  predicate UniqueAssignments(asg: seq<Assignment>)
  {
    forall i, j :: 0 <= i < j < |asg| ==> asg[i].project != asg[j].project || asg[i].house != asg[j].house
  }

  /** `house_assignment_ids.mapped('house_id')`. */
  function ProjectHouses(asg: seq<Assignment>, p: ProjectId): seq<HouseId>
  {
    if asg == [] then []
    else (if asg[0].project == p then [asg[0].house] else []) + ProjectHouses(asg[1..], p)
  }

  lemma {:induction false} ProjectHousesMembers(asg: seq<Assignment>, p: ProjectId)
    ensures forall x :: x in ProjectHouses(asg, p) <==> exists i :: 0 <= i < |asg| && asg[i].project == p && asg[i].house == x
    ensures UniqueAssignments(asg) ==> NoDup(ProjectHouses(asg, p))
  {
    if asg != [] {
      ProjectHousesMembers(asg[1..], p);
      forall x ensures x in ProjectHouses(asg, p) <==> exists i :: 0 <= i < |asg| && asg[i].project == p && asg[i].house == x {
        if exists i :: 0 <= i < |asg| && asg[i].project == p && asg[i].house == x {
          var i :| 0 <= i < |asg| && asg[i].project == p && asg[i].house == x;
          if i > 0 { assert asg[1..][i - 1] == asg[i]; }
        }
        if exists i :: 0 <= i < |asg[1..]| && asg[1..][i].project == p && asg[1..][i].house == x {
          var i :| 0 <= i < |asg[1..]| && asg[1..][i].project == p && asg[1..][i].house == x;
          assert asg[i + 1] == asg[1..][i];
        }
      }
      if UniqueAssignments(asg) {
        assert UniqueAssignments(asg[1..]) by {
          forall i, j | 0 <= i < j < |asg[1..]|
            ensures asg[1..][i].project != asg[1..][j].project || asg[1..][i].house != asg[1..][j].house
          {
            assert asg[1..][i] == asg[i + 1] && asg[1..][j] == asg[j + 1];
          }
        }
        if asg[0].project == p {
          forall i | 0 <= i < |asg[1..]| && asg[1..][i].project == p ensures asg[1..][i].house != asg[0].house {
            assert asg[1..][i] == asg[i + 1];
          }
          assert asg[0].house !in ProjectHouses(asg[1..], p);
          var r := ProjectHouses(asg, p);
          assert r == [asg[0].house] + ProjectHouses(asg[1..], p);
          forall i, j | 0 <= i < j < |r| ensures r[i] != r[j] {
            if i == 0 {
              assert r[j] in ProjectHouses(asg[1..], p);
            } else {
              assert r[i] == ProjectHouses(asg[1..], p)[i - 1];
            }
          }
        }
      }
    }
  }

  /** `total_area` of a project: the area of its assigned houses. */
  function ProjectArea(h: Hierarchy, asg: seq<Assignment>, p: ProjectId): real
  {
    CA.AreaSum(h, ProjectHouses(asg, p))
  }

  /** `_compute_harvest_stats`. */
  function TotalHarvested(a: Assignment): real
  {
    HL.SumQuantity(a.entries)
  }

  function HarvestProgress(a: Assignment): real
  {
    if a.expected != 0.0 then (TotalHarvested(a) / a.expected) * 100.0 else 0.0
  }

  /** `_compute_cost_stats`. */
  datatype CostStats = CostStats(houseCost: real, given: real, remaining: real, avgUnitCost: real)

  function AssignmentCostStats(costs: seq<CA.Cost>, rows: seq<CA.Alloc>, a: Assignment): (r: CostStats)
    ensures r.houseCost == CA.HouseCost(costs, rows, a.project, a.house)
    ensures r.given + r.remaining == r.houseCost
    ensures TotalHarvested(a) != 0.0 ==> r.avgUnitCost * TotalHarvested(a) == r.given
    ensures TotalHarvested(a) == 0.0 ==> r.avgUnitCost == 0.0
  {
    var total := CA.HouseCost(costs, rows, a.project, a.house);
    var given := HL.SumAllocated(a.entries);
    var harvested := TotalHarvested(a);
    CostStats(total, given, total - given, if harvested != 0.0 then given / harvested else 0.0)
  }

  /**
   * For a settled ledger the remaining cost of the assignment is what its
   * last entry left, the closed form `house cost × Π (1 − qᵢ / expected)`,
   * and the cumulative figures of the last entry are the assignment's totals.
   */
  lemma SettledAssignmentStats(costs: seq<CA.Cost>, rows: seq<CA.Alloc>, a: Assignment)
    requires a.expected != 0.0
    requires HL.Settled(a.entries, CA.HouseCost(costs, rows, a.project, a.house), a.expected)
    ensures AssignmentCostStats(costs, rows, a).remaining ==
            CA.HouseCost(costs, rows, a.project, a.house) * HL.Leftover(a.entries, a.expected)
    ensures a.entries != [] ==>
              var last := a.entries[|a.entries| - 1];
              AssignmentCostStats(costs, rows, a).remaining == last.remainingBefore - last.allocatedCost &&
              HL.CumulativeAllocated(a.entries, |a.entries| - 1) == AssignmentCostStats(costs, rows, a).given &&
              HL.CumulativeHarvested(a.entries, |a.entries| - 1) == TotalHarvested(a)
  {
    var total := CA.HouseCost(costs, rows, a.project, a.house);
    HL.SettledClosedForm(a.entries, total, a.expected, |a.entries|);
    assert a.entries[..|a.entries|] == a.entries;
    if a.entries != [] {
      HL.CumulativeConserves(a.entries, total, a.expected, |a.entries| - 1);
    }
  }

  // ----- AVCO (`_update_product_avco`, `_revert_avco`) -----

  /** A stock valuation layer of a product. */
  datatype Layer = Layer(product: ProductId, remainingQty: real, remainingValue: real)

  /** The audit record of one house's AVCO update (a `stock.landed.cost`). */
  datatype LandedCost = LandedCost(project: ProjectId, house: HouseId, product: ProductId, amount: real, account: AccountId)

  /** The update computed for one house: the product, its new average cost and what it was made of. */
  datatype AvcoUpdate = AvcoUpdate(house: HouseId, product: ProductId, target: real, cost: real, quantity: real, account: AccountId)

  /** The harvests that reached the stock: done entries with a receipt. */
  function Receipts(es: seq<HL.Entry>): (r: seq<HL.Entry>)
    ensures forall e :: e in r <==> e in es && e.state == HL.Done && e.receipt
  {
    if es == [] then []
    else (if es[0].state == HL.Done && es[0].receipt then [es[0]] else []) + Receipts(es[1..])
  }

  /** The account a cost books to: its direct account, else its indirect one. */
  function AccountOf(c: CA.Cost): Option<AccountId>
  {
    if c.directAccount.Some? then c.directAccount else c.indirectAccount
  }

  /** Cost `ci` is stored and books to an account. */
  predicate HasAccount(costs: seq<CA.Cost>, ci: CostId)
  {
    ci < |costs| && AccountOf(costs[ci]).Some?
  }

  /**
   * Cost `i` comes no later than cost `j` in `date, id` order, the order in
   * which a cost's allocation rows come under `cost_id desc` (the cost
   * order `date desc, id desc`, reversed).
   */
  predicate NotLater(costs: seq<CA.Cost>, i: CostId, j: CostId)
    requires i < |costs| && j < |costs|
  {
    costs[i].date < costs[j].date || (costs[i].date == costs[j].date && i <= j)
  }

  /**
   * The cost of the first row, in allocation order, whose cost books to an
   * account: the earliest such cost by date and then id.
   */
  function EarliestAccounted(costs: seq<CA.Cost>, rows: seq<CA.Alloc>): (r: Option<CostId>)
    ensures r.None? <==> forall a :: a in rows ==> !HasAccount(costs, a.cost)
    ensures r.Some? ==> HasAccount(costs, r.value) && exists a :: a in rows && a.cost == r.value
    ensures r.Some? ==> forall a :: a in rows && HasAccount(costs, a.cost) ==> NotLater(costs, r.value, a.cost)
  {
    if rows == [] then None
    else
      var rest := EarliestAccounted(costs, rows[1..]);
      if !HasAccount(costs, rows[0].cost) then rest
      else if rest.None? || NotLater(costs, rows[0].cost, rest.value) then Some(rows[0].cost)
      else rest
  }

  /**
   * The account of the landed-cost line: the account of the earliest cost
   * among the rows that books to one, otherwise the expense account of the
   * cost product, if any.
   */
  function CostAccount(costs: seq<CA.Cost>, rows: seq<CA.Alloc>, fallback: Option<AccountId>): (r: Option<AccountId>)
    ensures (forall a :: a in rows ==> !HasAccount(costs, a.cost)) ==> r == fallback
    ensures (exists a :: a in rows && HasAccount(costs, a.cost)) ==>
              exists a :: a in rows && HasAccount(costs, a.cost) && r == AccountOf(costs[a.cost]) &&
                forall b :: b in rows && HasAccount(costs, b.cost) ==> NotLater(costs, a.cost, b.cost)
  {
    match EarliestAccounted(costs, rows)
    case None => fallback
    case Some(ci) => AccountOf(costs[ci])
  }

  /** The AVCO update of one assignment, or `None` when the house is skipped. */
  function AvcoFor(costs: seq<CA.Cost>, rows: seq<CA.Alloc>, a: Assignment, fallback: Option<AccountId>): Option<AvcoUpdate>
  {
    var realRows := CA.RealRows(costs, rows, a.project, a.house);
    var cost := CA.SumAmounts(realRows);
    var receipts := Receipts(a.entries);
    var quantity := HL.SumQuantity(receipts);
    var account := CostAccount(costs, realRows, fallback);
    if cost <= 0.0 || receipts == [] || a.product.None? || quantity <= 0.0 || account.None? then None
    else Some(AvcoUpdate(a.house, a.product.value, cost / quantity, cost, quantity, account.value))
  }

  /**
   * A house is updated exactly when its real cost is positive, it has a
   * received done harvest, a product, a positive received quantity and an
   * account; its new average cost then spreads the real cost over the
   * received quantity.
   */
  lemma AvcoForMeaning(costs: seq<CA.Cost>, rows: seq<CA.Alloc>, a: Assignment, fallback: Option<AccountId>)
    ensures var u := AvcoFor(costs, rows, a, fallback);
            var receipts := Receipts(a.entries);
            (u.Some? <==>
              CA.RealHouseCost(costs, rows, a.project, a.house) > 0.0 && receipts != [] && a.product.Some? &&
              HL.SumQuantity(receipts) > 0.0 && CostAccount(costs, CA.RealRows(costs, rows, a.project, a.house), fallback).Some?) &&
            (u.Some? ==>
              u.value.house == a.house && u.value.product == a.product.value &&
              u.value.cost == CA.RealHouseCost(costs, rows, a.project, a.house) &&
              u.value.quantity == HL.SumQuantity(receipts) &&
              u.value.quantity > 0.0 && u.value.target == u.value.cost / u.value.quantity &&
              Some(u.value.account) == CostAccount(costs, CA.RealRows(costs, rows, a.project, a.house), fallback))
  {
  }

  /** The assignments `order` lists, in that order. */
  function Ordered(asg: seq<Assignment>, order: seq<nat>): (r: seq<Assignment>)
    requires forall k :: 0 <= k < |order| ==> order[k] < |asg|
    ensures |r| == |order|
    ensures forall k :: 0 <= k < |order| ==> r[k] == asg[order[k]]
  {
    if order == [] then [] else [asg[order[0]]] + Ordered(asg, order[1..])
  }

  /**
   * `project.house_assignment_ids` as `order` lists them: each of the
   * project's assignments once, sorted by their houses (`project_id,
   * house_id`, all of one project).
   */
  predicate AssignmentOrder(h: Hierarchy, asg: seq<Assignment>, p: ProjectId, order: seq<nat>)
  {
    (forall k :: 0 <= k < |order| ==> order[k] < |asg| && asg[order[k]].project == p) &&
    (forall j, k :: 0 <= j < k < |order| ==> order[j] != order[k]) &&
    (forall i :: 0 <= i < |asg| && asg[i].project == p ==> i in order) &&
    (forall j, k :: 0 <= j < k < |order| ==>
       KeyLe(HouseSortKey(h, asg[order[j]].house), HouseSortKey(h, asg[order[k]].house)))
  }

  /** The updates of a project's houses, in assignment order. */
  function AvcoUpdates(costs: seq<CA.Cost>, rows: seq<CA.Alloc>, asg: seq<Assignment>, p: ProjectId, fallback: Option<AccountId>): seq<AvcoUpdate>
  {
    if asg == [] then []
    else
      var last := asg[|asg| - 1];
      var u := UpdateOf(costs, rows, last, p, fallback);
      AvcoUpdates(costs, rows, asg[..|asg| - 1], p, fallback) + (if u.Some? then [u.value] else [])
  }

  /** The value of a quantity at a unit cost. */
  function ValueAt(qty: real, unitCost: real): real
  {
    qty * unitCost
  }

  /** `remaining_value = remaining_qty × target` on an open layer of the product. */
  function RevalueLayer(l: Layer, product: ProductId, target: real): Layer
  {
    if l.product == product && l.remainingQty > 0.0 then l.(remainingValue := ValueAt(l.remainingQty, target)) else l
  }

  function Revalue(ls: seq<Layer>, product: ProductId, target: real): (r: seq<Layer>)
    ensures |r| == |ls|
    ensures forall i :: 0 <= i < |ls| ==> r[i] == RevalueLayer(ls[i], product, target)
  {
    if ls == [] then [] else [RevalueLayer(ls[0], product, target)] + Revalue(ls[1..], product, target)
  }

  /** The update that comes last. */
  function Last(us: seq<AvcoUpdate>): AvcoUpdate
    requires us != []
  {
    us[|us| - 1]
  }

  function Init(us: seq<AvcoUpdate>): seq<AvcoUpdate>
    requires us != []
  {
    us[..|us| - 1]
  }

  function PricesAfter(prices: map<ProductId, real>, us: seq<AvcoUpdate>): map<ProductId, real>
    decreases |us|
  {
    if us == [] then prices else PricesAfter(prices, Init(us))[Last(us).product := Last(us).target]
  }

  function LayersAfter(ls: seq<Layer>, us: seq<AvcoUpdate>): (r: seq<Layer>)
    ensures |r| == |ls|
    decreases |us|
  {
    if us == [] then ls else Revalue(LayersAfter(ls, Init(us)), Last(us).product, Last(us).target)
  }

  /** One layer after the updates. */
  function LayerAfter(l: Layer, us: seq<AvcoUpdate>): Layer
    decreases |us|
  {
    if us == [] then l else RevalueLayer(LayerAfter(l, Init(us)), Last(us).product, Last(us).target)
  }

  lemma {:induction false} LayersAfterAt(ls: seq<Layer>, us: seq<AvcoUpdate>, i: nat)
    requires i < |ls|
    ensures LayersAfter(ls, us)[i] == LayerAfter(ls[i], us)
    decreases |us|
  {
    if us != [] {
      LayersAfterAt(ls, Init(us), i);
    }
  }

  function LandedCostsOf(p: ProjectId, us: seq<AvcoUpdate>): (r: seq<LandedCost>)
    ensures |r| == |us|
    ensures forall i :: 0 <= i < |us| ==>
              r[i] == LandedCost(p, us[i].house, us[i].product, us[i].cost, us[i].account)
  {
    if us == [] then []
    else LandedCostsOf(p, Init(us)) + [LandedCost(p, Last(us).house, Last(us).product, Last(us).cost, Last(us).account)]
  }

  /** The average cost the last update of a product sets, if any update concerns it. */
  function LastTarget(us: seq<AvcoUpdate>, product: ProductId): Option<real>
  {
    if us == [] then None
    else if Last(us).product == product then Some(Last(us).target)
    else LastTarget(Init(us), product)
  }

  /**
   * After the updates each updated product costs the target of its last
   * update; every other product keeps its price.
   */
  lemma {:induction false} PricesAfterMeaning(prices: map<ProductId, real>, us: seq<AvcoUpdate>, product: ProductId)
    ensures LastTarget(us, product).Some? ==>
              product in PricesAfter(prices, us) && PricesAfter(prices, us)[product] == LastTarget(us, product).value
    ensures LastTarget(us, product).None? ==>
              (product in PricesAfter(prices, us) <==> product in prices) &&
              (product in prices ==> PricesAfter(prices, us)[product] == prices[product])
    decreases |us|
  {
    if us != [] {
      PricesAfterMeaning(prices, Init(us), product);
    }
  }

  /** The update of assignment `a` when it belongs to project `p`. */
  function UpdateOf(costs: seq<CA.Cost>, rows: seq<CA.Alloc>, a: Assignment, p: ProjectId, fallback: Option<AccountId>): Option<AvcoUpdate>
  {
    if a.project == p then AvcoFor(costs, rows, a, fallback) else None
  }

  /** The update is there and concerns `product`. */
  predicate Concerns(o: Option<AvcoUpdate>, product: ProductId)
  {
    o.Some? && o.value.product == product
  }

  /** The updates present in `os`, in order. */
  function Present(os: seq<Option<AvcoUpdate>>): seq<AvcoUpdate>
  {
    if os == [] then [] else Present(os[..|os| - 1]) + (if os[|os| - 1].Some? then [os[|os| - 1].value] else [])
  }

  /**
   * The last update of a product among those present is the last present
   * one that concerns it, and there is none when none concerns it.
   */
  lemma {:induction false} LastTargetPresent(os: seq<Option<AvcoUpdate>>, product: ProductId)
    ensures var t := LastTarget(Present(os), product);
            (t.Some? ==>
               exists k :: 0 <= k < |os| && Concerns(os[k], product) && os[k].value.target == t.value &&
                 forall j :: k < j < |os| ==> !Concerns(os[j], product)) &&
            (t.None? ==> forall k :: 0 <= k < |os| ==> !Concerns(os[k], product))
    decreases |os|
  {
    if os != [] {
      var n := |os| - 1;
      var init := os[..n];
      LastTargetPresent(init, product);
      var us := Present(init);
      assert forall k :: 0 <= k < n ==> init[k] == os[k];
      if os[n].Some? {
        LastTargetSnoc(us, os[n].value, product);
      } else {
        assert Present(os) == us + [] == us;
      }
      if !Concerns(os[n], product) {
        var t := LastTarget(us, product);
        if t.Some? {
          var k :| 0 <= k < n && Concerns(init[k], product) && init[k].value.target == t.value &&
                   forall j :: k < j < n ==> !Concerns(init[j], product);
          assert forall j :: k < j < |os| ==> !Concerns(os[j], product) by {
            forall j | k < j < |os|
              ensures !Concerns(os[j], product)
            {
              if j < n {
                assert os[j] == init[j];
              }
            }
          }
        }
      }
    }
  }

  /** The update of each assignment, in order. */
  function UpdatesOf(costs: seq<CA.Cost>, rows: seq<CA.Alloc>, asg: seq<Assignment>, p: ProjectId, fallback: Option<AccountId>): (r: seq<Option<AvcoUpdate>>)
    ensures |r| == |asg|
    ensures forall k :: 0 <= k < |asg| ==> r[k] == UpdateOf(costs, rows, asg[k], p, fallback)
  {
    seq(|asg|, k requires 0 <= k < |asg| => UpdateOf(costs, rows, asg[k], p, fallback))
  }

  lemma {:induction false} AvcoUpdatesPresent(costs: seq<CA.Cost>, rows: seq<CA.Alloc>, asg: seq<Assignment>, p: ProjectId, fallback: Option<AccountId>)
    ensures AvcoUpdates(costs, rows, asg, p, fallback) == Present(UpdatesOf(costs, rows, asg, p, fallback))
    decreases |asg|
  {
    if asg != [] {
      var n := |asg| - 1;
      AvcoUpdatesPresent(costs, rows, asg[..n], p, fallback);
      assert UpdatesOf(costs, rows, asg, p, fallback)[..n] == UpdatesOf(costs, rows, asg[..n], p, fallback);
    }
  }

  /**
   * The price a product ends at comes from the last of the project's
   * houses, in processing order, whose update concerns the product; with no
   * such house no update sets it.
   */
  lemma LastTargetFrom(costs: seq<CA.Cost>, rows: seq<CA.Alloc>, asg: seq<Assignment>, p: ProjectId,
                       fallback: Option<AccountId>, product: ProductId)
    ensures var t := LastTarget(AvcoUpdates(costs, rows, asg, p, fallback), product);
            (t.Some? ==>
               exists k :: 0 <= k < |asg| && Concerns(UpdateOf(costs, rows, asg[k], p, fallback), product) &&
                 UpdateOf(costs, rows, asg[k], p, fallback).value.target == t.value &&
                 forall j :: k < j < |asg| ==> !Concerns(UpdateOf(costs, rows, asg[j], p, fallback), product)) &&
            (t.None? ==> forall k :: 0 <= k < |asg| ==> !Concerns(UpdateOf(costs, rows, asg[k], p, fallback), product))
  {
    var os := UpdatesOf(costs, rows, asg, p, fallback);
    AvcoUpdatesPresent(costs, rows, asg, p, fallback);
    LastTargetPresent(os, product);
  }

  lemma LastTargetSnoc(us: seq<AvcoUpdate>, v: AvcoUpdate, product: ProductId)
    ensures LastTarget(us + [v], product) == if v.product == product then Some(v.target) else LastTarget(us, product)
  {
    assert Init(us + [v]) == us;
  }

  /**
   * After the updates an open layer of an updated product is valued at its
   * remaining quantity times the product's last target; any other layer is
   * as it was.
   */
  lemma {:induction false} LayerAfterMeaning(l: Layer, us: seq<AvcoUpdate>)
    ensures LastTarget(us, l.product).Some? && l.remainingQty > 0.0 ==>
              LayerAfter(l, us) == l.(remainingValue := ValueAt(l.remainingQty, LastTarget(us, l.product).value))
    ensures !(LastTarget(us, l.product).Some? && l.remainingQty > 0.0) ==> LayerAfter(l, us) == l
    ensures LayerAfter(l, us).product == l.product && LayerAfter(l, us).remainingQty == l.remainingQty
    decreases |us|
  {
    if us != [] {
      LayerAfterMeaning(l, Init(us));
    }
  }

  // The revert.

  function OpenQty(ls: seq<Layer>, product: ProductId): real
  {
    if ls == [] then 0.0
    else (if ls[0].product == product && ls[0].remainingQty > 0.0 then ls[0].remainingQty else 0.0) + OpenQty(ls[1..], product)
  }

  function OpenValue(ls: seq<Layer>, product: ProductId): real
  {
    if ls == [] then 0.0
    else (if ls[0].product == product && ls[0].remainingQty > 0.0 then ls[0].remainingValue else 0.0) + OpenValue(ls[1..], product)
  }

  /** The price `_revert_avco` gives a product: value over quantity of its open layers, or 0. */
  function LayerPrice(ls: seq<Layer>, product: ProductId): (r: real)
    ensures OpenQty(ls, product) > 0.0 ==> r * OpenQty(ls, product) == OpenValue(ls, product)
    ensures OpenQty(ls, product) <= 0.0 ==> r == 0.0
  {
    if OpenQty(ls, product) > 0.0 then OpenValue(ls, product) / OpenQty(ls, product) else 0.0
  }

  /** The products of a project's landed costs, each once, in first-seen order. */
  function ResetProducts(lcs: seq<LandedCost>, p: ProjectId): (r: seq<ProductId>)
    ensures NoDup(r)
    ensures forall pr :: pr in r <==> exists i :: 0 <= i < |lcs| && lcs[i].project == p && lcs[i].product == pr
  {
    if lcs == [] then []
    else
      var init := ResetProducts(lcs[..|lcs| - 1], p);
      var last := lcs[|lcs| - 1];
      assert forall i :: 0 <= i < |lcs| - 1 ==> lcs[..|lcs| - 1][i] == lcs[i];
      if last.project == p && last.product !in init then init + [last.product] else init
  }

  function ResetPrices(prices: map<ProductId, real>, ls: seq<Layer>, products: seq<ProductId>): map<ProductId, real>
    decreases |products|
  {
    if products == [] then prices
    else
      var last := products[|products| - 1];
      ResetPrices(prices, ls, products[..|products| - 1])[last := LayerPrice(ls, last)]
  }

  /** The revert gives each listed product its layer price and leaves the others. */
  lemma {:induction false} ResetPricesMeaning(prices: map<ProductId, real>, ls: seq<Layer>, products: seq<ProductId>, product: ProductId)
    ensures product in products ==>
              product in ResetPrices(prices, ls, products) && ResetPrices(prices, ls, products)[product] == LayerPrice(ls, product)
    ensures product !in products ==>
              (product in ResetPrices(prices, ls, products) <==> product in prices) &&
              (product in prices ==> ResetPrices(prices, ls, products)[product] == prices[product])
    decreases |products|
  {
    if products != [] {
      ResetPricesMeaning(prices, ls, products[..|products| - 1], product);
      assert forall x :: x in products <==> x in products[..|products| - 1] || x == products[|products| - 1];
    }
  }

  function KeepOtherProjects(lcs: seq<LandedCost>, p: ProjectId): (r: seq<LandedCost>)
    ensures forall l :: l in r <==> l in lcs && l.project != p
  {
    if lcs == [] then []
    else (if lcs[0].project != p then [lcs[0]] else []) + KeepOtherProjects(lcs[1..], p)
  }

  lemma {:induction false} OpenValueAtTarget(ls: seq<Layer>, product: ProductId, target: real)
    requires forall i :: 0 <= i < |ls| && ls[i].product == product && ls[i].remainingQty > 0.0 ==>
               ls[i].remainingValue == ValueAt(ls[i].remainingQty, target)
    ensures OpenValue(ls, product) == target * OpenQty(ls, product)
  {
    if ls != [] {
      OpenValueAtTarget(ls[1..], product, target);
      assert forall i :: 0 <= i < |ls[1..]| ==> ls[1..][i] == ls[i + 1];
    }
  }

  /**
   * Reverting right after an update does not bring back the price from
   * before it: the update has revalued the open layers at the target, so the
   * layer price the revert computes is the target itself.
   */
  lemma RevertAfterUpdateKeepsTarget(ls: seq<Layer>, us: seq<AvcoUpdate>, product: ProductId)
    requires LastTarget(us, product).Some?
    requires OpenQty(LayersAfter(ls, us), product) > 0.0
    ensures LayerPrice(LayersAfter(ls, us), product) == LastTarget(us, product).value
  {
    var after := LayersAfter(ls, us);
    var target := LastTarget(us, product).value;
    assert OpenValue(after, product) == target * OpenQty(after, product) by {
      UpdatedLayersAtTarget(ls, us, product);
      OpenValueAtTarget(after, product, target);
    }
    PriceAtTarget(LayerPrice(after, product), OpenQty(after, product), OpenValue(after, product), target);
  }

  lemma UpdatedLayersAtTarget(ls: seq<Layer>, us: seq<AvcoUpdate>, product: ProductId)
    requires LastTarget(us, product).Some?
    ensures forall i :: 0 <= i < |LayersAfter(ls, us)| && LayersAfter(ls, us)[i].product == product && LayersAfter(ls, us)[i].remainingQty > 0.0 ==>
              LayersAfter(ls, us)[i].remainingValue == ValueAt(LayersAfter(ls, us)[i].remainingQty, LastTarget(us, product).value)
  {
    var after := LayersAfter(ls, us);
    forall i | 0 <= i < |after| && after[i].product == product && after[i].remainingQty > 0.0
      ensures after[i].remainingValue == ValueAt(after[i].remainingQty, LastTarget(us, product).value)
    {
      UpdatedLayerAtTarget(ls, us, product, i);
    }
  }

  lemma UpdatedLayerAtTarget(ls: seq<Layer>, us: seq<AvcoUpdate>, product: ProductId, i: nat)
    requires LastTarget(us, product).Some? && i < |ls|
    requires LayersAfter(ls, us)[i].product == product && LayersAfter(ls, us)[i].remainingQty > 0.0
    ensures LayersAfter(ls, us)[i].remainingValue == ValueAt(LayersAfter(ls, us)[i].remainingQty, LastTarget(us, product).value)
  {
    LayersAfterAt(ls, us, i);
    LayerAfterMeaning(ls[i], us);
  }

  /** A price that values a nonzero quantity like the target does is the target. */
  lemma PriceAtTarget(price: real, qty: real, value: real, target: real)
    requires qty != 0.0 && price * qty == value && value == target * qty
    ensures price == target
  {
    assert (price - target) * qty == 0.0;
  }
}
