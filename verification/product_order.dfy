/**
 * Product orders (`models/farm_product_order.py`): a request for products
 * for the houses of a project, approved by the farm owner (skipped for a
 * direct order), by the inventory and by the accounting. The accounting
 * approval books the order's journal entry and turns the order into one
 * posted direct cost per source account, charged to the order's target
 * houses.
 */
module ProductOrder {
  import opened Common
  import opened Farm
  import CA = CostAllocation
  import Projects
  import Store

  datatype OrderState = Draft | OwnerApproval | InventoryApproval | AccountingApproval | Done | Cancelled

  /**
   * An order line: the product's own order accounts and its category's
   * defaults, its price (`standard_price`) and the quantity on hand in
   * internal locations.
   */
  datatype Line = Line(
    product: ProductId,
    quantity: real,
    unitPrice: real,
    onHand: real,
    ownSource: Option<AccountId>,
    categorySource: Option<AccountId>,
    ownDestination: Option<AccountId>,
    categoryDestination: Option<AccountId>)

  /** `_compute_subtotal`. */
  function Subtotal(l: Line): real
  {
    l.quantity * l.unitPrice
  }

  /** `_compute_availability`: the quantity asked for is on hand. */
  predicate IsAvailable(l: Line)
  {
    l.onHand >= l.quantity
  }

  /** The product's own account, else its category's default. */
  function OrFallback(own: Option<AccountId>, fallback: Option<AccountId>): (r: Option<AccountId>)
    ensures r.Some? <==> own.Some? || fallback.Some?
    ensures own.Some? ==> r == own
  {
    if own.Some? then own else fallback
  }

  function SourceAccount(l: Line): Option<AccountId>
  {
    OrFallback(l.ownSource, l.categorySource)
  }

  function DestinationAccount(l: Line): Option<AccountId>
  {
    OrFallback(l.ownDestination, l.categoryDestination)
  }

  function Init<T>(s: seq<T>): seq<T>
    requires s != []
  {
    s[..|s| - 1]
  }

  function Last<T>(s: seq<T>): T
    requires s != []
  {
    s[|s| - 1]
  }

  /** `_compute_totals`: the sum of the line subtotals. */
  function Total(lines: seq<Line>): real
    decreases |lines|
  {
    if lines == [] then 0.0 else Total(Init(lines)) + Subtotal(Last(lines))
  }

  // ----- the journal entry (`_create_accounting_entry`) -----

  /**
   * The entry lines: per order line, a debit of its subtotal on its source
   * account and a credit of it on its destination account; a line missing
   * either account refuses the entry.
   */
  function EntryLines(lines: seq<Line>): (r: Result<seq<CA.MoveLine>>)
    decreases |lines|
  {
    if lines == [] then Ok([])
    else
      var prev := EntryLines(Init(lines));
      var l := Last(lines);
      if prev.Err? then prev
      else if SourceAccount(l).None? || DestinationAccount(l).None? then Err(MissingLineAccount)
      else Ok(prev.value + [CA.MoveLine(SourceAccount(l).value, Subtotal(l), 0.0),
                            CA.MoveLine(DestinationAccount(l).value, 0.0, Subtotal(l))])
  }

  predicate HasAccounts(l: Line)
  {
    SourceAccount(l).Some? && DestinationAccount(l).Some?
  }

  /**
   * The entry is refused exactly when some line lacks an account; otherwise
   * it has two lines per order line, the debit then the credit of that
   * line's subtotal.
   */
  lemma {:induction false} EntryLinesMeaning(lines: seq<Line>)
    ensures EntryLines(lines).Err? <==> exists i :: 0 <= i < |lines| && !HasAccounts(lines[i])
    ensures EntryLines(lines).Err? ==> EntryLines(lines).error == MissingLineAccount
    ensures EntryLines(lines).Ok? ==>
              |EntryLines(lines).value| == 2 * |lines| &&
              forall i :: 0 <= i < |lines| ==>
                EntryLines(lines).value[2 * i] == CA.MoveLine(SourceAccount(lines[i]).value, Subtotal(lines[i]), 0.0) &&
                EntryLines(lines).value[2 * i + 1] == CA.MoveLine(DestinationAccount(lines[i]).value, 0.0, Subtotal(lines[i]))
    decreases |lines|
  {
    if lines != [] {
      var init := Init(lines);
      EntryLinesMeaning(init);
      assert forall i :: 0 <= i < |init| ==> init[i] == lines[i];
      if exists i :: 0 <= i < |init| && !HasAccounts(init[i]) {
        var i :| 0 <= i < |init| && !HasAccounts(init[i]);
        assert !HasAccounts(lines[i]);
      }
    }
  }

  lemma {:induction false} SumDebitConcat(a: seq<CA.MoveLine>, b: seq<CA.MoveLine>)
    ensures CA.SumDebit(a + b) == CA.SumDebit(a) + CA.SumDebit(b)
    ensures CA.SumCredit(a + b) == CA.SumCredit(a) + CA.SumCredit(b)
  {
    if a != [] {
      assert (a + b)[0] == a[0];
      assert (a + b)[1..] == a[1..] + b;
      SumDebitConcat(a[1..], b);
    } else {
      assert a + b == b;
    }
  }

  /** The entry is balanced: its debits and its credits both come to the order total. */
  lemma {:induction false} EntryBalanced(lines: seq<Line>)
    requires EntryLines(lines).Ok?
    ensures CA.SumDebit(EntryLines(lines).value) == Total(lines)
    ensures CA.SumCredit(EntryLines(lines).value) == Total(lines)
    decreases |lines|
  {
    if lines != [] {
      var l := Last(lines);
      EntryBalanced(Init(lines));
      var pair := [CA.MoveLine(SourceAccount(l).value, Subtotal(l), 0.0), CA.MoveLine(DestinationAccount(l).value, 0.0, Subtotal(l))];
      assert EntryLines(lines).value == EntryLines(Init(lines)).value + pair;
      SumDebitConcat(EntryLines(Init(lines)).value, pair);
      assert pair[1..][1..] == [];
      assert CA.SumDebit(pair[1..]) == 0.0 && CA.SumCredit(pair[1..]) == Subtotal(l);
    }
  }

  /** The loop of `_create_accounting_entry` appending the lines one order line at a time. */
  method BuildEntryLines(lines: seq<Line>) returns (r: Result<seq<CA.MoveLine>>)
    ensures r == EntryLines(lines)
  {
    var acc: seq<CA.MoveLine> := [];
    var i := 0;
    while i < |lines|
      invariant 0 <= i <= |lines|
      invariant EntryLines(lines[..i]) == Ok(acc)
    {
      var l := lines[i];
      assert Init(lines[..i + 1]) == lines[..i] && Last(lines[..i + 1]) == l;
      var source := SourceAccount(l);
      var destination := DestinationAccount(l);
      if source.None? || destination.None? {
        ErrorPersists(lines, i + 1);
        return Err(MissingLineAccount);
      }
      acc := acc + [CA.MoveLine(source.value, Subtotal(l), 0.0), CA.MoveLine(destination.value, 0.0, Subtotal(l))];
      i := i + 1;
    }
    assert lines[..i] == lines;
    r := Ok(acc);
  }

  /** A refused prefix refuses the whole entry. */
  lemma {:induction false} ErrorPersists(lines: seq<Line>, k: nat)
    requires k <= |lines| && EntryLines(lines[..k]).Err?
    ensures EntryLines(lines) == Err(MissingLineAccount)
    decreases |lines| - k
  {
    if k == |lines| {
      assert lines[..k] == lines;
      EntryLinesMeaning(lines);
    } else {
      assert Init(lines[..k + 1]) == lines[..k];
      ErrorPersists(lines, k + 1);
    }
  }

  // ----- the farm costs (`_create_farm_costs`) -----

  /** The amount gathered for one source account. */
  datatype Group = Group(account: AccountId, amount: real)

  function Accounts(gs: seq<Group>): seq<AccountId>
  {
    if gs == [] then [] else [gs[0].account] + Accounts(gs[1..])
  }

  /** `account_groups[account]['amount'] += subtotal`, a new group at the end for a new account. */
  function AddTo(gs: seq<Group>, account: AccountId, amount: real): (r: seq<Group>)
  {
    if gs == [] then [Group(account, amount)]
    else if gs[0].account == account then [gs[0].(amount := gs[0].amount + amount)] + gs[1..]
    else [gs[0]] + AddTo(gs[1..], account, amount)
  }

  /** The groups of the lines with a source account, in the order their accounts first appear. */
  function GroupsOf(lines: seq<Line>): seq<Group>
    decreases |lines|
  {
    if lines == [] then []
    else
      var gs := GroupsOf(Init(lines));
      var l := Last(lines);
      if SourceAccount(l).None? then gs else AddTo(gs, SourceAccount(l).value, Subtotal(l))
  }

  /** The subtotals of the lines whose source account is `account`. */
  function AmountFor(lines: seq<Line>, account: AccountId): real
    decreases |lines|
  {
    if lines == [] then 0.0
    else AmountFor(Init(lines), account) + (if SourceAccount(Last(lines)) == Some(account) then Subtotal(Last(lines)) else 0.0)
  }

  /** The subtotals of the lines that have a source account. */
  function AccountedTotal(lines: seq<Line>): real
    decreases |lines|
  {
    if lines == [] then 0.0
    else AccountedTotal(Init(lines)) + (if SourceAccount(Last(lines)).Some? then Subtotal(Last(lines)) else 0.0)
  }

  function SumGroups(gs: seq<Group>): real
  {
    if gs == [] then 0.0 else gs[0].amount + SumGroups(gs[1..])
  }

  /** The amount looked up for `account` in the groups, 0 when it has none. */
  function GroupAmount(gs: seq<Group>, account: AccountId): real
  {
    if gs == [] then 0.0 else if gs[0].account == account then gs[0].amount else GroupAmount(gs[1..], account)
  }

  lemma {:induction false} AddToMeaning(gs: seq<Group>, account: AccountId, amount: real)
    requires NoDup(Accounts(gs))
    ensures NoDup(Accounts(AddTo(gs, account, amount)))
    ensures forall a :: a in Accounts(AddTo(gs, account, amount)) <==> a in Accounts(gs) || a == account
    ensures forall a :: GroupAmount(AddTo(gs, account, amount), a) == GroupAmount(gs, a) + (if a == account then amount else 0.0)
    ensures SumGroups(AddTo(gs, account, amount)) == SumGroups(gs) + amount
  {
    if gs != [] {
      assert Accounts(gs) == [gs[0].account] + Accounts(gs[1..]);
      assert NoDup(Accounts(gs[1..])) by {
        forall i, j | 0 <= i < j < |Accounts(gs[1..])| ensures Accounts(gs[1..])[i] != Accounts(gs[1..])[j] {
          assert Accounts(gs)[i + 1] == Accounts(gs[1..])[i] && Accounts(gs)[j + 1] == Accounts(gs[1..])[j];
        }
      }
      AccountsMembers(gs[1..]);
      if gs[0].account == account {
        var r := AddTo(gs, account, amount);
        assert Accounts(r) == [account] + Accounts(gs[1..]);
        forall a ensures GroupAmount(r, a) == GroupAmount(gs, a) + (if a == account then amount else 0.0) {
        }
      } else {
        AddToMeaning(gs[1..], account, amount);
        var rest := AddTo(gs[1..], account, amount);
        var r := AddTo(gs, account, amount);
        assert r == [gs[0]] + rest;
        assert Accounts(r) == [gs[0].account] + Accounts(rest);
        AccountsMembers(rest);
        assert gs[0].account !in Accounts(gs[1..]) by {
          forall k | 0 <= k < |Accounts(gs[1..])| ensures Accounts(gs[1..])[k] != gs[0].account {
            assert Accounts(gs)[k + 1] == Accounts(gs[1..])[k];
            assert Accounts(gs)[0] != Accounts(gs)[k + 1];
          }
        }
        forall i, j | 0 <= i < j < |Accounts(r)| ensures Accounts(r)[i] != Accounts(r)[j] {
          if i == 0 {
            assert Accounts(r)[j] == Accounts(rest)[j - 1];
            assert Accounts(r)[j] in Accounts(rest);
          } else {
            assert Accounts(r)[i] == Accounts(rest)[i - 1] && Accounts(r)[j] == Accounts(rest)[j - 1];
          }
        }
      }
    }
  }

  lemma {:induction false} AccountsMembers(gs: seq<Group>)
    ensures |Accounts(gs)| == |gs|
    ensures forall i :: 0 <= i < |gs| ==> Accounts(gs)[i] == gs[i].account
  {
    if gs != [] {
      AccountsMembers(gs[1..]);
    }
  }

  /**
   * One group per distinct source account, in order of first appearance, each
   * holding the subtotals of the lines booked on it; together they hold the
   * subtotals of every line that has a source account.
   */
  lemma {:induction false} GroupsMeaning(lines: seq<Line>)
    ensures NoDup(Accounts(GroupsOf(lines)))
    ensures forall a :: a in Accounts(GroupsOf(lines)) <==> exists i :: 0 <= i < |lines| && SourceAccount(lines[i]) == Some(a)
    ensures forall a :: GroupAmount(GroupsOf(lines), a) == AmountFor(lines, a)
    ensures SumGroups(GroupsOf(lines)) == AccountedTotal(lines)
    decreases |lines|
  {
    if lines != [] {
      var init := Init(lines);
      GroupsMeaning(init);
      assert forall i :: 0 <= i < |init| ==> init[i] == lines[i];
      var l := Last(lines);
      if SourceAccount(l).Some? {
        AddToMeaning(GroupsOf(init), SourceAccount(l).value, Subtotal(l));
      }
      forall a ensures a in Accounts(GroupsOf(lines)) <==> exists i :: 0 <= i < |lines| && SourceAccount(lines[i]) == Some(a) {
        if exists i :: 0 <= i < |lines| && SourceAccount(lines[i]) == Some(a) {
          var i :| 0 <= i < |lines| && SourceAccount(lines[i]) == Some(a);
          if i < |init| {
            assert SourceAccount(init[i]) == Some(a);
          }
        }
      }
    }
  }

  /** The loop of `_create_farm_costs` filling `account_groups` line by line. */
  method AccountGroups(lines: seq<Line>) returns (gs: seq<Group>)
    ensures gs == GroupsOf(lines)
  {
    gs := [];
    var i := 0;
    while i < |lines|
      invariant 0 <= i <= |lines|
      invariant gs == GroupsOf(lines[..i])
    {
      var l := lines[i];
      assert Init(lines[..i + 1]) == lines[..i] && Last(lines[..i + 1]) == l;
      var source := SourceAccount(l);
      if source.Some? {
        gs := AddTo(gs, source.value, Subtotal(l));
      }
      i := i + 1;
    }
    assert lines[..i] == lines;
  }

  /** The draft cost `_create_farm_costs` creates for one group, before it is posted. */
  function OrderCost(project: ProjectId, order: OrderId, g: Group, targets: seq<HouseId>, today: Date): CA.Cost
  {
    CA.Cost(project, CA.Direct, CA.Draft, g.amount, today, [], [], targets, None, Some(g.account), None, Some(order), None, CA.NoMove)
  }

  /** The costs of the groups, posted, in group order. */
  function OrderCosts(project: ProjectId, order: OrderId, gs: seq<Group>, targets: seq<HouseId>, today: Date): (r: seq<CA.Cost>)
    ensures |r| == |gs|
    decreases |gs|
  {
    if gs == [] then []
    else OrderCosts(project, order, Init(gs), targets, today) + [OrderCost(project, order, Last(gs), targets, today).(state := CA.Posted)]
  }

  /** The allocation rows of those costs, the first of them having id `base`. */
  function OrderRows(base: CostId, gs: seq<Group>, h: Hierarchy, ts: seq<HouseId>): seq<CA.Alloc>
    decreases |gs|
  {
    if gs == [] then []
    else OrderRows(base, Init(gs), h, ts) + CA.AllocationRows(base + |gs| - 1, Last(gs).amount, h, ts)
  }

  function SumCosts(cs: seq<CA.Cost>): real
  {
    if cs == [] then 0.0 else cs[0].amount + SumCosts(cs[1..])
  }

  lemma {:induction false} SumCostsConcat(a: seq<CA.Cost>, b: seq<CA.Cost>)
    ensures SumCosts(a + b) == SumCosts(a) + SumCosts(b)
  {
    if a != [] {
      assert (a + b)[0] == a[0];
      assert (a + b)[1..] == a[1..] + b;
      SumCostsConcat(a[1..], b);
    } else {
      assert a + b == b;
    }
  }

  lemma {:induction false} SumGroupsConcat(a: seq<Group>, b: seq<Group>)
    ensures SumGroups(a + b) == SumGroups(a) + SumGroups(b)
  {
    if a != [] {
      assert (a + b)[0] == a[0];
      assert (a + b)[1..] == a[1..] + b;
      SumGroupsConcat(a[1..], b);
    } else {
      assert a + b == b;
    }
  }

  /**
   * The order's costs are posted direct costs on the target houses, one per
   * source account, booked on that account, and together they come to the
   * subtotals of the lines that have a source account.
   */
  lemma {:induction false} OrderCostsMeaning(project: ProjectId, order: OrderId, lines: seq<Line>, targets: seq<HouseId>, today: Date)
    ensures var cs := OrderCosts(project, order, GroupsOf(lines), targets, today);
            (forall c :: c in cs ==>
               c.project == project && c.kind == CA.Direct && c.state == CA.Posted && c.houses == targets &&
               c.order == Some(order) && c.directAccount.Some? && c.payment.None?) &&
            SumCosts(cs) == AccountedTotal(lines)
  {
    GroupsMeaning(lines);
    CostsFollowGroups(project, order, GroupsOf(lines), targets, today);
  }

  lemma {:induction false} CostsFollowGroups(project: ProjectId, order: OrderId, gs: seq<Group>, targets: seq<HouseId>, today: Date)
    ensures var cs := OrderCosts(project, order, gs, targets, today);
            (forall c :: c in cs ==>
               c.project == project && c.kind == CA.Direct && c.state == CA.Posted && c.houses == targets &&
               c.order == Some(order) && c.directAccount.Some? && c.payment.None?) &&
            SumCosts(cs) == SumGroups(gs)
    decreases |gs|
  {
    if gs != [] {
      CostsFollowGroups(project, order, Init(gs), targets, today);
      var last := OrderCost(project, order, Last(gs), targets, today).(state := CA.Posted);
      SumCostsConcat(OrderCosts(project, order, Init(gs), targets, today), [last]);
      assert gs == Init(gs) + [Last(gs)];
      SumGroupsConcat(Init(gs), [Last(gs)]);
    }
  }

  /**
   * The houses a cost of the order is allocated to: exactly the order's
   * targets that the project has, each once.
   */
  lemma OrderCostTargets(h: Hierarchy, c: CA.Cost, targets: seq<HouseId>, ph: seq<HouseId>)
    requires c.kind == CA.Direct && c.sectors == [] && c.units == [] && c.houses == targets
    ensures forall y :: y in CA.TargetHouses(h, c, ph) <==> y in targets && y in ph
    ensures NoDup(ph) ==> NoDup(CA.TargetHouses(h, c, ph))
  {
    CA.TargetHousesMembers(h, c, ph);
  }

  /** `_get_target_houses`: the selected houses and those of the selected units and sectors. */
  function OrderTargets(h: Hierarchy, sectors: seq<SectorId>, units: seq<UnitId>, houses: seq<HouseId>): (r: seq<HouseId>)
    ensures NoDup(r)
    ensures forall y :: y in r <==> Selected(h, sectors, units, houses, y)
  {
    SelectedHousesMembers(h, sectors, units, houses);
    SelectedHouses(h, sectors, units, houses)
  }

  /**
   * The costs of the groups are created and posted one after the other.
   * Their rows are created while the costs are drafts, and posting changes
   * only the state, so no harvest entry is recalculated.
   */
  method CreateCosts(store: Store.FarmStore, project: ProjectId, order: OrderId, gs: seq<Group>, targets: seq<HouseId>, today: Date)
    requires store.Valid() && targets != []
    modifies store
    ensures store.Valid()
    ensures store.costs == old(store.costs) + OrderCosts(project, order, gs, targets, today)
    ensures store.allocs == old(store.allocs) +
              OrderRows(|old(store.costs)|, gs, store.h,
                        CA.Restrict(SelectedHouses(store.h, [], [], targets), Projects.ProjectHouses(old(store.assignments), project)))
    ensures store.assignments == old(store.assignments) && store.nextEntryId == old(store.nextEntryId)
    ensures store.prices == old(store.prices) && store.layers == old(store.layers) && store.landedCosts == old(store.landedCosts)
  {
    ghost var costs0, allocs0 := store.costs, store.allocs;
    ghost var ts := CA.Restrict(SelectedHouses(store.h, [], [], targets), Projects.ProjectHouses(store.assignments, project));
    var j := 0;
    while j < |gs|
      invariant 0 <= j <= |gs|
      invariant store.Valid()
      invariant Made(store.costs, store.allocs, costs0, allocs0, project, order, gs[..j], targets, today, store.h, ts)
      invariant store.assignments == old(store.assignments) && store.nextEntryId == old(store.nextEntryId)
      invariant store.prices == old(store.prices) && store.layers == old(store.layers) && store.landedCosts == old(store.landedCosts)
    {
      GroupsStep(project, order, gs, j, targets, today, |costs0|, store.h, ts);
      ghost var costs1, allocs1 := store.costs, store.allocs;
      CreateCost(store, project, order, gs[j], targets, today);
      MadeStep(store.costs, store.allocs, costs1, allocs1, costs0, allocs0, project, order, gs, j, targets, today, store.h, ts);
      j := j + 1;
    }
    assert gs[..j] == gs;
  }

  /** The costs and rows of the groups `gs` follow `costs0` and `allocs0`. */
  ghost predicate Made(costs: seq<CA.Cost>, allocs: seq<CA.Alloc>, costs0: seq<CA.Cost>, allocs0: seq<CA.Alloc>,
                       project: ProjectId, order: OrderId, gs: seq<Group>, targets: seq<HouseId>, today: Date,
                       h: Hierarchy, ts: seq<HouseId>)
  {
    costs == costs0 + OrderCosts(project, order, gs, targets, today) &&
    allocs == allocs0 + OrderRows(|costs0|, gs, h, ts)
  }

  lemma MadeStep(costs: seq<CA.Cost>, allocs: seq<CA.Alloc>, costs1: seq<CA.Cost>, allocs1: seq<CA.Alloc>,
                 costs0: seq<CA.Cost>, allocs0: seq<CA.Alloc>,
                 project: ProjectId, order: OrderId, gs: seq<Group>, j: nat, targets: seq<HouseId>, today: Date,
                 h: Hierarchy, ts: seq<HouseId>)
    requires j < |gs|
    requires Made(costs1, allocs1, costs0, allocs0, project, order, gs[..j], targets, today, h, ts)
    requires costs == costs1 + [OrderCost(project, order, gs[j], targets, today).(state := CA.Posted)]
    requires allocs == allocs1 + CA.AllocationRows(|costs1|, gs[j].amount, h, ts)
    ensures Made(costs, allocs, costs0, allocs0, project, order, gs[..j + 1], targets, today, h, ts)
  {
    AppendStep(costs, costs1, costs0, OrderCosts(project, order, gs[..j], targets, today),
               [OrderCost(project, order, gs[j], targets, today).(state := CA.Posted)]);
    AppendStep(allocs, allocs1, allocs0, OrderRows(|costs0|, gs[..j], h, ts), CA.AllocationRows(|costs1|, gs[j].amount, h, ts));
    GroupsStep(project, order, gs, j, targets, today, |costs0|, h, ts);
  }

  /** Appending in two steps is appending once. */
  lemma AppendStep<T>(s: seq<T>, s1: seq<T>, s0: seq<T>, xs: seq<T>, ys: seq<T>)
    requires s1 == s0 + xs && s == s1 + ys
    ensures s == s0 + (xs + ys)
  {
  }

  lemma GroupsStep(project: ProjectId, order: OrderId, gs: seq<Group>, j: nat, targets: seq<HouseId>, today: Date,
                    base: CostId, h: Hierarchy, ts: seq<HouseId>)
    requires j < |gs|
    ensures OrderCosts(project, order, gs[..j + 1], targets, today) ==
            OrderCosts(project, order, gs[..j], targets, today) + [OrderCost(project, order, gs[j], targets, today).(state := CA.Posted)]
    ensures OrderRows(base, gs[..j + 1], h, ts) == OrderRows(base, gs[..j], h, ts) + CA.AllocationRows(base + j, gs[j].amount, h, ts)
  {
    assert Init(gs[..j + 1]) == gs[..j] && Last(gs[..j + 1]) == gs[j];
  }

  /** One group's cost, created as a draft and then posted. */
  method CreateCost(store: Store.FarmStore, project: ProjectId, order: OrderId, g: Group, targets: seq<HouseId>, today: Date)
    requires store.Valid() && targets != []
    modifies store
    ensures store.Valid()
    ensures store.costs == old(store.costs) + [OrderCost(project, order, g, targets, today).(state := CA.Posted)]
    ensures store.allocs == old(store.allocs) +
              CA.AllocationRows(|old(store.costs)|, g.amount, store.h,
                                CA.Restrict(SelectedHouses(store.h, [], [], targets), Projects.ProjectHouses(old(store.assignments), project)))
    ensures store.assignments == old(store.assignments) && store.nextEntryId == old(store.nextEntryId)
    ensures store.prices == old(store.prices) && store.layers == old(store.layers) && store.landedCosts == old(store.landedCosts)
  {
    var c := OrderCost(project, order, g, targets, today);
    OrderCostTargets(store.h, c, targets, Projects.ProjectHouses(store.assignments, project));
    assert CA.HasSource(c);
    var created := store.CreateCost(c);
    var posted := store.PostCost(|store.costs| - 1, true);
  }

  // ----- the order and its approvals -----

  class Order {
    const id: OrderId
    const project: ProjectId
    const isDirect: bool
    const lines: seq<Line>
    const sectors: seq<SectorId>
    const units: seq<UnitId>
    const houses: seq<HouseId>
    var state: OrderState
    /** `move_id`: the order's journal entry, booked at accounting approval or linked by hand for a direct order. */
    var move: Option<seq<CA.MoveLine>>

    constructor (id: OrderId, project: ProjectId, isDirect: bool, lines: seq<Line>,
                 sectors: seq<SectorId>, units: seq<UnitId>, houses: seq<HouseId>)
      ensures this.id == id && this.project == project && this.isDirect == isDirect && this.lines == lines
      ensures this.sectors == sectors && this.units == units && this.houses == houses
      ensures state == Draft && move == None
    {
      this.id := id;
      this.project := project;
      this.isDirect := isDirect;
      this.lines := lines;
      this.sectors := sectors;
      this.units := units;
      this.houses := houses;
      state := Draft;
      move := None;
    }

    /**
     * `action_submit`: a draft order with lines and a selection goes to
     * the owner, or straight to the inventory when it is direct.
     */
    method Submit() returns (r: Outcome)
      modifies this
      ensures r == (if old(state) != Draft then Fail(WrongState)
                    else if lines == [] then Fail(NoLines)
                    else if sectors == [] && units == [] && houses == [] then Fail(NoTargets)
                    else Pass)
      ensures r.Fail? ==> unchanged(this)
      ensures r.Pass? ==> state == (if isDirect then InventoryApproval else OwnerApproval) && move == old(move)
    {
      if state != Draft {
        return Fail(WrongState);
      }
      if lines == [] {
        return Fail(NoLines);
      }
      if sectors == [] && units == [] && houses == [] {
        return Fail(NoTargets);
      }
      state := if isDirect then InventoryApproval else OwnerApproval;
      r := Pass;
    }

    /** `action_owner_approve`. */
    method OwnerApprove() returns (r: Outcome)
      modifies this
      ensures r.Pass? <==> old(state) == OwnerApproval
      ensures r.Fail? ==> r.error == WrongState && unchanged(this)
      ensures r.Pass? ==> state == InventoryApproval && move == old(move)
    {
      if state != OwnerApproval {
        return Fail(WrongState);
      }
      state := InventoryApproval;
      r := Pass;
    }

    /**
     * `action_inventory_approve`: every line must be available; the stock
     * transfer then needs its locations and operation type.
     */
    method InventoryApprove(stockConfigured: bool) returns (r: Outcome)
      modifies this
      ensures r == (if old(state) != InventoryApproval then Fail(WrongState)
                    else if exists i :: 0 <= i < |lines| && !IsAvailable(lines[i]) then Fail(Unavailable)
                    else if !stockConfigured then Fail(StockConfiguration)
                    else Pass)
      ensures r.Fail? ==> unchanged(this)
      ensures r.Pass? ==> state == AccountingApproval && move == old(move)
    {
      if state != InventoryApproval {
        return Fail(WrongState);
      }
      var i := 0;
      while i < |lines|
        invariant 0 <= i <= |lines|
        invariant forall k :: 0 <= k < i ==> IsAvailable(lines[k])
      {
        if !IsAvailable(lines[i]) {
          return Fail(Unavailable);
        }
        i := i + 1;
      }
      if !stockConfigured {
        return Fail(StockConfiguration);
      }
      state := AccountingApproval;
      r := Pass;
    }

    /**
     * `action_accounting_approve`: a direct order needs the entry linked by
     * hand; any other order books its entry (when it has lines). Then, when
     * the order has target houses and its project is in progress, one posted
     * cost per source account; the order is done.
     */
    method AccountingApprove(store: Store.FarmStore, projectStatus: Projects.Status, journalFound: bool, today: Date) returns (r: Outcome)
      requires store.Valid()
      modifies this, store
      ensures store.Valid()
      ensures r == (if old(state) != AccountingApproval then Fail(WrongState)
                    else if isDirect && old(move).None? then Fail(MissingMove)
                    else if !isDirect && !journalFound then Fail(MissingJournal)
                    else if !isDirect && EntryLines(lines).Err? then Fail(MissingLineAccount)
                    else Pass)
      ensures r.Fail? ==> unchanged(this) && unchanged(store)
      ensures r.Pass? ==> state == Done
      ensures r.Pass? ==> move == (if isDirect || EntryLines(lines).value == [] then old(move) else Some(EntryLines(lines).value))
      ensures r.Pass? ==>
                var targets := OrderTargets(store.h, sectors, units, houses);
                var gs := GroupsOf(lines);
                if targets != [] && projectStatus == Projects.InProgress && gs != [] then
                  store.costs == old(store.costs) + OrderCosts(project, id, gs, targets, today) &&
                  store.allocs == old(store.allocs) +
                    OrderRows(|old(store.costs)|, gs, store.h,
                              CA.Restrict(SelectedHouses(store.h, [], [], targets), Projects.ProjectHouses(old(store.assignments), project)))
                else
                  store.costs == old(store.costs) && store.allocs == old(store.allocs)
      ensures store.assignments == old(store.assignments) && store.nextEntryId == old(store.nextEntryId)
      ensures store.prices == old(store.prices) && store.layers == old(store.layers) && store.landedCosts == old(store.landedCosts)
    {
      if state != AccountingApproval {
        return Fail(WrongState);
      }
      if isDirect {
        if move.None? {
          return Fail(MissingMove);
        }
      } else {
        if !journalFound {
          return Fail(MissingJournal);
        }
        var entry := BuildEntryLines(lines);
        if entry.Err? {
          return Fail(MissingLineAccount);
        }
        if entry.value != [] {
          move := Some(entry.value);
        }
      }
      var targets := OrderTargets(store.h, sectors, units, houses);
      if targets != [] && projectStatus == Projects.InProgress {
        var gs := AccountGroups(lines);
        if gs != [] {
          CreateCosts(store, project, id, gs, targets, today);
        }
      }
      state := Done;
      r := Pass;
    }

    /** `action_cancel`: any order but a done one is cancelled. */
    method Cancel() returns (r: Outcome)
      modifies this
      ensures r.Pass? <==> old(state) != Done
      ensures r.Fail? ==> r.error == WrongState && unchanged(this)
      ensures r.Pass? ==> state == Cancelled && move == old(move)
    {
      if state == Done {
        return Fail(WrongState);
      }
      state := Cancelled;
      r := Pass;
    }

    /** `action_reset_to_draft`: only a cancelled order returns to draft. */
    method ResetToDraft() returns (r: Outcome)
      modifies this
      ensures r.Pass? <==> old(state) == Cancelled
      ensures r.Fail? ==> r.error == WrongState && unchanged(this)
      ensures r.Pass? ==> state == Draft && move == old(move)
    {
      if state != Cancelled {
        return Fail(WrongState);
      }
      state := Draft;
      r := Pass;
    }

    /** Linking a journal entry by hand (`move_id` written on a direct order). */
    method LinkEntry(entry: seq<CA.MoveLine>)
      modifies this
      ensures move == Some(entry) && state == old(state)
    {
      move := Some(entry);
    }
  }
}
