/**
 * The progressive cost allocation of harvest entries (`models/farm_harvest.py`).
 *
 * The entries of one house assignment are kept in their (date, id) order. An
 * entry takes `remaining × quantity / expected` of the house cost, where
 * `remaining` is the house cost minus what the entries before it have taken.
 * This module holds the per-entry computation, the in-order recomputation and
 * what they guarantee; the `Store` module applies them to the stored entries.
 */
module HarvestLedger {
  import opened Common

  datatype EntryState = Done | Cancelled

  datatype Entry = Entry(
    id: EntryId,
    date: Date,
    quantity: real,
    state: EntryState,
    remainingBefore: real,    // remaining_cost_before
    allocatedCost: real,          // allocated_cost
    receipt: bool)            // a stock receipt (picking) is linked

  /** The (date, id) order of the entry searches. */
  predicate Before(a: Entry, b: Entry)
  {
    a.date < b.date || (a.date == b.date && a.id < b.id)
  }

  predicate Sorted(es: seq<Entry>)
  {
    forall i, j :: 0 <= i < j < |es| ==> Before(es[i], es[j])
  }

  function SumAllocated(es: seq<Entry>): real
  {
    if es == [] then 0.0 else SumAllocated(es[..|es| - 1]) + es[|es| - 1].allocatedCost
  }

  function SumQuantity(es: seq<Entry>): real
  {
    if es == [] then 0.0 else SumQuantity(es[..|es| - 1]) + es[|es| - 1].quantity
  }

  /**
   * `_calculate_cost_allocation` of entry `e` given the entries before it:
   * nothing when the expected quantity is zero, otherwise the remaining cost
   * before it and its share of that remainder.
   */
  function Calc(previous: seq<Entry>, e: Entry, total: real, expected: real): Entry
  {
    if expected == 0.0 then e.(remainingBefore := 0.0, allocatedCost := 0.0)
    else
      var remaining := total - SumAllocated(previous);
      e.(remainingBefore := remaining, allocatedCost := remaining * (e.quantity / expected))
  }

  function CalcAt(es: seq<Entry>, i: nat, total: real, expected: real): Entry
    requires i < |es|
  {
    Calc(es[..i], es[i], total, expected)
  }

  /** Recomputing the entries from position `from` on, one after the other, in order. */
  function Recalc(es: seq<Entry>, from: nat, total: real, expected: real): (r: seq<Entry>)
    ensures |r| == |es|
    decreases |es| - from
  {
    if from >= |es| then es
    else Recalc(es[from := CalcAt(es, from, total, expected)], from + 1, total, expected)
  }

  /** The recorded facts of an entry, without the two computed figures. */
  function Facts(e: Entry): Entry
  {
    e.(remainingBefore := 0.0, allocatedCost := 0.0)
  }

  predicate SameFacts(a: seq<Entry>, b: seq<Entry>)
  {
    |a| == |b| && forall k :: 0 <= k < |a| ==> Facts(a[k]) == Facts(b[k])
  }

  /** Every entry of the ledger holds the figures its computation gives. */
  predicate Settled(es: seq<Entry>, total: real, expected: real)
  {
    forall k {:trigger CalcAt(es, k, total, expected)} :: 0 <= k < |es| ==> es[k] == CalcAt(es, k, total, expected)
  }

  predicate SettledBelow(es: seq<Entry>, p: nat, total: real, expected: real)
  {
    forall k {:trigger CalcAt(es, k, total, expected)} :: 0 <= k < p && k < |es| ==> es[k] == CalcAt(es, k, total, expected)
  }

  lemma CalcKeepsFacts(previous: seq<Entry>, e: Entry, total: real, expected: real)
    ensures Facts(Calc(previous, e, total, expected)) == Facts(e)
    ensures Calc(previous, Calc(previous, e, total, expected), total, expected) == Calc(previous, e, total, expected)
  {
  }

  lemma CalcOnFacts(previous: seq<Entry>, a: Entry, b: Entry, total: real, expected: real)
    requires Facts(a) == Facts(b)
    ensures Calc(previous, a, total, expected) == Calc(previous, b, total, expected)
  {
  }

  /** Recomputation changes only the computed figures, and only from `from` on. */
  lemma {:induction false} RecalcShape(es: seq<Entry>, from: nat, total: real, expected: real)
    ensures |Recalc(es, from, total, expected)| == |es|
    ensures SameFacts(Recalc(es, from, total, expected), es)
    ensures from <= |es| ==> Recalc(es, from, total, expected)[..from] == es[..from]
    decreases |es| - from
  {
    if from < |es| {
      var es' := es[from := CalcAt(es, from, total, expected)];
      CalcKeepsFacts(es[..from], es[from], total, expected);
      RecalcShape(es', from + 1, total, expected);
      assert es'[..from + 1][..from] == es[..from];
    }
  }

  /** Every recomputed entry holds the figures its final predecessors give it. */
  lemma {:induction false} RecalcSettles(es: seq<Entry>, from: nat, total: real, expected: real)
    requires from <= |es|
    requires SettledBelow(es, from, total, expected)
    ensures Settled(Recalc(es, from, total, expected), total, expected)
    decreases |es| - from
  {
    if from < |es| {
      var es' := es[from := CalcAt(es, from, total, expected)];
      assert es'[..from] == es[..from];
      forall k | 0 <= k < from + 1
        ensures es'[k] == CalcAt(es', k, total, expected)
      {
        assert es'[..k] == es[..k];
        if k < from {
          assert es[k] == CalcAt(es, k, total, expected);
        } else {
          CalcKeepsFacts(es[..from], es[from], total, expected);
        }
      }
      RecalcSettles(es', from + 1, total, expected);
    }
  }

  /** Two settled ledgers with the same recorded facts hold the same figures. */
  lemma {:induction false} SettledUnique(a: seq<Entry>, b: seq<Entry>, total: real, expected: real)
    requires SameFacts(a, b)
    requires Settled(a, total, expected) && Settled(b, total, expected)
    ensures a == b
  {
    forall k | 0 <= k <= |a| ensures a[..k] == b[..k] {
      SettledUniquePrefix(a, b, total, expected, k);
    }
    assert a == a[..|a|] && b == b[..|b|];
  }

  lemma {:induction false} SettledUniquePrefix(a: seq<Entry>, b: seq<Entry>, total: real, expected: real, k: nat)
    requires SameFacts(a, b)
    requires Settled(a, total, expected) && Settled(b, total, expected)
    requires k <= |a|
    ensures a[..k] == b[..k]
  {
    if k > 0 {
      SettledUniquePrefix(a, b, total, expected, k - 1);
      assert a[k - 1] == CalcAt(a, k - 1, total, expected);
      assert b[k - 1] == CalcAt(b, k - 1, total, expected);
      CalcOnFacts(a[..k - 1], a[k - 1], b[k - 1], total, expected);
      assert a[..k] == a[..k - 1] + [a[k - 1]];
      assert b[..k] == b[..k - 1] + [b[k - 1]];
    }
  }

  /**
   * Recomputing the whole ledger in (date, id) order settles it, keeps its
   * facts, and its result depends on nothing but those facts.
   */
  lemma FullRecalcIsFresh(es: seq<Entry>, other: seq<Entry>, total: real, expected: real)
    requires SameFacts(es, other)
    ensures Settled(Recalc(es, 0, total, expected), total, expected)
    ensures SameFacts(Recalc(es, 0, total, expected), es)
    ensures Recalc(es, 0, total, expected) == Recalc(other, 0, total, expected)
  {
    RecalcShape(es, 0, total, expected);
    RecalcShape(other, 0, total, expected);
    RecalcSettles(es, 0, total, expected);
    RecalcSettles(other, 0, total, expected);
    SettledUnique(Recalc(es, 0, total, expected), Recalc(other, 0, total, expected), total, expected);
  }

  /** Recomputing a settled ledger changes nothing; recomputing twice is recomputing once. */
  lemma RecalcIdempotent(es: seq<Entry>, total: real, expected: real)
    ensures Settled(es, total, expected) ==> Recalc(es, 0, total, expected) == es
    ensures Recalc(Recalc(es, 0, total, expected), 0, total, expected) == Recalc(es, 0, total, expected)
  {
    RecalcShape(es, 0, total, expected);
    RecalcSettles(es, 0, total, expected);
    if Settled(es, total, expected) {
      SettledUnique(Recalc(es, 0, total, expected), es, total, expected);
    }
    var r := Recalc(es, 0, total, expected);
    RecalcShape(r, 0, total, expected);
    RecalcSettles(r, 0, total, expected);
    SettledUnique(Recalc(r, 0, total, expected), r, total, expected);
  }

  /**
   * The cascade of an edit at position `p`: when the entries before `p` are
   * settled, recomputing from `p` on gives the same ledger as recomputing
   * everything.
   */
  lemma CascadeFromEdit(es: seq<Entry>, p: nat, total: real, expected: real)
    requires p <= |es|
    requires SettledBelow(es, p, total, expected)
    ensures Recalc(es, p, total, expected) == Recalc(es, 0, total, expected)
  {
    RecalcShape(es, p, total, expected);
    RecalcSettles(es, p, total, expected);
    FullRecalcIsFresh(es, es, total, expected);
    SettledUnique(Recalc(es, p, total, expected), Recalc(es, 0, total, expected), total, expected);
  }

  /**
   * The recurrence of a settled ledger: the first entry sees the whole house
   * cost, each entry takes its ratio of what remains, and the next entry sees
   * what remains after it.
   */
  lemma SettledChain(es: seq<Entry>, total: real, expected: real, k: nat)
    requires Settled(es, total, expected)
    requires expected != 0.0
    requires k < |es|
    ensures k == 0 ==> es[k].remainingBefore == total
    ensures es[k].allocatedCost == es[k].remainingBefore * (es[k].quantity / expected)
    ensures es[k].remainingBefore == total - SumAllocated(es[..k])
    ensures k + 1 < |es| ==> es[k + 1].remainingBefore == es[k].remainingBefore - es[k].allocatedCost
  {
    assert es[k] == CalcAt(es, k, total, expected);
    if k + 1 < |es| {
      assert es[k + 1] == CalcAt(es, k + 1, total, expected);
      assert es[..k + 1][..k] == es[..k];
    }
  }

  /** With no expected quantity every entry is charged nothing. */
  lemma SettledWithoutExpected(es: seq<Entry>, total: real, k: nat)
    requires Settled(es, total, 0.0)
    requires k < |es|
    ensures es[k].allocatedCost == 0.0 && es[k].remainingBefore == 0.0
  {
    assert es[k] == CalcAt(es, k, total, 0.0);
  }

  /** The product of the ratios left by the entries: Π (1 − quantity / expected). */
  function Leftover(es: seq<Entry>, expected: real): real
    requires expected != 0.0
  {
    if es == [] then 1.0 else Leftover(es[..|es| - 1], expected) * (1.0 - es[|es| - 1].quantity / expected)
  }

  lemma ScaleStep(x: real, t: real, f: real, r: real)
    requires x == t * f
    ensures x - x * r == t * (f * (1.0 - r))
  {
    assert x - x * r == x * (1.0 - r);
  }

  lemma ClosedStep(before: real, after: real, remaining: real, taken: real, total: real, left: real, left': real, ratio: real)
    requires remaining == total - before
    requires remaining == total * left
    requires taken == remaining * ratio
    requires after == before + taken
    requires left' == left * (1.0 - ratio)
    ensures total - after == total * left'
  {
    ScaleStep(remaining, total, left, ratio);
  }

  lemma SumAllocatedStep(es: seq<Entry>, k: nat)
    requires 0 < k <= |es|
    ensures SumAllocated(es[..k]) == SumAllocated(es[..k - 1]) + es[k - 1].allocatedCost
  {
    assert es[..k][..k - 1] == es[..k - 1];
  }

  lemma LeftoverStep(es: seq<Entry>, expected: real, k: nat)
    requires expected != 0.0
    requires 0 < k <= |es|
    ensures Leftover(es[..k], expected) == Leftover(es[..k - 1], expected) * (1.0 - es[k - 1].quantity / expected)
  {
    assert es[..k][..k - 1] == es[..k - 1];
  }

  lemma ClosedFormBase(es: seq<Entry>, total: real, expected: real)
    requires expected != 0.0
    ensures total - SumAllocated(es[..0]) == total * Leftover(es[..0], expected)
  {
    assert es[..0] == [];
    assert total - 0.0 == total * 1.0;
  }

  lemma ClosedFormStep(es: seq<Entry>, total: real, expected: real, k: nat)
    requires expected != 0.0
    requires 0 < k <= |es|
    requires total - SumAllocated(es[..k - 1]) == total * Leftover(es[..k - 1], expected)
    requires es[k - 1].remainingBefore == total - SumAllocated(es[..k - 1])
    requires es[k - 1].allocatedCost == es[k - 1].remainingBefore * (es[k - 1].quantity / expected)
    ensures total - SumAllocated(es[..k]) == total * Leftover(es[..k], expected)
  {
    SumAllocatedStep(es, k);
    LeftoverStep(es, expected, k);
    var e := es[k - 1];
    ClosedStep(SumAllocated(es[..k - 1]), SumAllocated(es[..k]), e.remainingBefore, e.allocatedCost, total,
               Leftover(es[..k - 1], expected), Leftover(es[..k], expected), e.quantity / expected);
  }

  /**
   * The closed form of the recurrence: after the first `k` entries of a
   * settled ledger the remaining cost is the house cost times the product of
   * the ratios those entries left.
   */
  lemma {:induction false} SettledClosedForm(es: seq<Entry>, total: real, expected: real, k: nat)
    requires Settled(es, total, expected)
    requires expected != 0.0
    requires k <= |es|
    ensures total - SumAllocated(es[..k]) == total * Leftover(es[..k], expected)
  {
    if k == 0 {
      ClosedFormBase(es, total, expected);
    } else {
      SettledClosedForm(es, total, expected, k - 1);
      SettledChain(es, total, expected, k - 1);
      ClosedFormStep(es, total, expected, k);
    }
  }

  lemma RatioIsOne(q: real, expected: real)
    requires expected != 0.0
    ensures 1.0 - q / expected == 0.0 <==> q == expected
  {
    if q / expected == 1.0 {
      assert q == (q / expected) * expected;
    }
  }

  lemma ExhaustedIffNoneLeft(total: real, handedOut: real, left: real)
    requires total != 0.0
    requires total - handedOut == total * left
    ensures handedOut == total <==> left == 0.0
  {
    ProductZero(total, left);
  }

  lemma ProductZero(a: real, b: real)
    ensures a * b == 0.0 <==> a == 0.0 || b == 0.0
  {
  }

  lemma {:induction false} LeftoverZero(es: seq<Entry>, expected: real)
    requires expected != 0.0
    ensures Leftover(es, expected) == 0.0 <==> exists j :: 0 <= j < |es| && es[j].quantity == expected
  {
    if es != [] {
      var init := es[..|es| - 1];
      LeftoverZero(init, expected);
      var f, q := Leftover(init, expected), es[|es| - 1].quantity;
      RatioIsOne(q, expected);
      ProductZero(f, 1.0 - q / expected);
      if exists j :: 0 <= j < |init| && init[j].quantity == expected {
        var j :| 0 <= j < |init| && init[j].quantity == expected;
        assert es[j] == init[j];
      }
      if exists j :: 0 <= j < |es| && es[j].quantity == expected {
        var j :| 0 <= j < |es| && es[j].quantity == expected;
        if j < |init| { assert init[j] == es[j]; }
      }
    }
  }

  /**
   * A settled ledger hands out the whole house cost only when some single
   * entry's quantity equals the expected quantity: the cumulative quantity
   * reaching the expectation is not enough.
   */
  lemma SettledExhaustsCostIff(es: seq<Entry>, total: real, expected: real)
    requires Settled(es, total, expected)
    requires expected != 0.0 && total != 0.0
    ensures SumAllocated(es) == total <==> exists j :: 0 <= j < |es| && es[j].quantity == expected
  {
    SettledClosedForm(es, total, expected, |es|);
    assert es[..|es|] == es;
    LeftoverZero(es, expected);
    ExhaustedIffNoneLeft(total, SumAllocated(es), Leftover(es, expected));
  }

  // ----- per-entry and cumulative figures -----

  /** `_compute_unit_cost`. */
  function UnitCost(e: Entry): real
  {
    if e.quantity != 0.0 then e.allocatedCost / e.quantity else 0.0
  }

  /** `_compute_progress`. */
  function EntryProgress(e: Entry, expected: real): real
  {
    if expected != 0.0 then (e.quantity / expected) * 100.0 else 0.0
  }

  /** The value of a harvest at its unit cost is its allocated cost. */
  lemma HarvestValueIsAllocated(e: Entry)
    requires e.quantity != 0.0
    ensures e.quantity * UnitCost(e) == e.allocatedCost
  {
  }

  /** `_compute_cumulative`: sums over the entries up to and including entry `i`. */
  function CumulativeHarvested(es: seq<Entry>, i: nat): real
    requires i < |es|
  {
    SumQuantity(es[..i + 1])
  }

  function CumulativeAllocated(es: seq<Entry>, i: nat): real
    requires i < |es|
  {
    SumAllocated(es[..i + 1])
  }

  function CumulativeProgress(es: seq<Entry>, i: nat, expected: real): real
    requires i < |es|
  {
    if expected != 0.0 then (CumulativeHarvested(es, i) / expected) * 100.0 else 0.0
  }

  /**
   * In a settled ledger what is cumulated up to an entry plus what remains
   * after it is the house cost.
   */
  lemma CumulativeConserves(es: seq<Entry>, total: real, expected: real, i: nat)
    requires Settled(es, total, expected)
    requires expected != 0.0
    requires i < |es|
    ensures CumulativeAllocated(es, i) + (es[i].remainingBefore - es[i].allocatedCost) == total
  {
    assert es[i] == CalcAt(es, i, total, expected);
    assert es[..i + 1][..i] == es[..i];
  }

  /** A ledger in (date, id) order whose entry ids are all below `next`, the id the next entry gets. */
  predicate LedgerOk(es: seq<Entry>, next: EntryId)
  {
    Sorted(es) && forall e :: e in es ==> e.id < next
  }

  /** Recomputation keeps the order of the ledger and the ids of its entries. */
  lemma RecalcKeepsLedger(es: seq<Entry>, from: nat, total: real, expected: real, next: EntryId)
    requires LedgerOk(es, next)
    ensures LedgerOk(Recalc(es, from, total, expected), next)
  {
    RecalcShape(es, from, total, expected);
    var r := Recalc(es, from, total, expected);
    assert forall k :: 0 <= k < |r| ==> Facts(r[k]) == Facts(es[k]);
    forall i, j | 0 <= i < j < |r| ensures Before(r[i], r[j]) {
      assert Facts(r[i]) == Facts(es[i]) && Facts(r[j]) == Facts(es[j]);
    }
    forall e | e in r ensures e.id < next {
      var k :| 0 <= k < |r| && r[k] == e;
      assert Facts(r[k]) == Facts(es[k]);
      assert es[k] in es;
    }
  }

  // ----- inserting and removing entries -----

  /** Where an entry dated `d` with an id above all others goes: after every entry dated `d` or earlier. */
  function InsertPos(es: seq<Entry>, d: Date): (p: nat)
    ensures p <= |es|
  {
    if es == [] || es[0].date > d then 0 else 1 + InsertPos(es[1..], d)
  }

  function Insert(es: seq<Entry>, e: Entry): seq<Entry>
  {
    var p := InsertPos(es, e.date);
    es[..p] + [e] + es[p..]
  }

  lemma {:induction false} InsertPosSplits(es: seq<Entry>, d: Date)
    requires Sorted(es)
    ensures forall k :: 0 <= k < InsertPos(es, d) ==> es[k].date <= d
    ensures forall k :: InsertPos(es, d) <= k < |es| ==> es[k].date > d
  {
    if es != [] && es[0].date <= d {
      InsertPosSplits(es[1..], d);
    }
  }

  /** A new entry, whose id is above every other, keeps the ledger sorted. */
  lemma InsertSorted(es: seq<Entry>, e: Entry)
    requires Sorted(es)
    requires forall x :: x in es ==> x.id < e.id
    ensures Sorted(Insert(es, e))
    ensures |Insert(es, e)| == |es| + 1
    ensures Insert(es, e)[InsertPos(es, e.date)] == e
    ensures Insert(es, e)[..InsertPos(es, e.date)] == es[..InsertPos(es, e.date)]
  {
    InsertPosSplits(es, e.date);
    var p := InsertPos(es, e.date);
    var r := Insert(es, e);
    forall i, j | 0 <= i < j < |r| ensures Before(r[i], r[j]) {
      if j < p || i > p {
      } else if i == p {
        assert r[j] == es[j - 1];
      } else if j == p {
        assert r[i] == es[i];
        assert es[i] in es;
      } else {
        assert r[i] == es[i] && r[j] == es[j - 1];
      }
    }
  }

  /** The entries left after deleting those with the given ids. */
  function Remove(es: seq<Entry>, ids: set<EntryId>): (r: seq<Entry>)
    ensures |r| <= |es|
    ensures forall x :: x in r <==> x in es && x.id !in ids
  {
    if es == [] then []
    else (if es[0].id in ids then [] else [es[0]]) + Remove(es[1..], ids)
  }

  lemma {:induction false} RemoveSorted(es: seq<Entry>, ids: set<EntryId>)
    requires Sorted(es)
    ensures Sorted(Remove(es, ids))
  {
    if es != [] {
      RemoveSorted(es[1..], ids);
      var rest := Remove(es[1..], ids);
      if es[0].id !in ids {
        var r := [es[0]] + rest;
        HeadBeforeRest(es);
        forall i, j | 0 <= i < j < |r| ensures Before(r[i], r[j]) {
          if i == 0 {
            assert r[j] in rest;
          } else {
            assert r[i] == rest[i - 1] && r[j] == rest[j - 1];
          }
        }
      }
    }
  }

  lemma HeadBeforeRest(es: seq<Entry>)
    requires Sorted(es) && es != []
    ensures forall x :: x in es[1..] ==> Before(es[0], x)
  {
    forall x | x in es[1..] ensures Before(es[0], x) {
      var k :| 0 <= k < |es[1..]| && es[1..][k] == x;
      assert es[k + 1] == x;
    }
  }

  // ----- the worked example -----

  /**
   * House cost 5000, expected 1000: a first harvest of 200 takes 1000 (unit
   * cost 5); a second of 300 sees 4000 remaining and takes 1200 (unit cost 4),
   * bringing the cumulative progress to 50 %.
   */
  lemma WorkedExample()
    ensures var r := Recalc([Entry(1, 10, 200.0, Done, 0.0, 0.0, true), Entry(2, 11, 300.0, Done, 0.0, 0.0, true)], 0, 5000.0, 1000.0);
            r == [Entry(1, 10, 200.0, Done, 5000.0, 1000.0, true), Entry(2, 11, 300.0, Done, 4000.0, 1200.0, true)] &&
            UnitCost(r[0]) == 5.0 && UnitCost(r[1]) == 4.0 &&
            CumulativeProgress(r, 1, 1000.0) == 50.0
  {
    var es := [Entry(1, 10, 200.0, Done, 0.0, 0.0, true), Entry(2, 11, 300.0, Done, 0.0, 0.0, true)];
    var e1 := Entry(1, 10, 200.0, Done, 5000.0, 1000.0, true);
    var e2 := Entry(2, 11, 300.0, Done, 4000.0, 1200.0, true);
    var r := [e1, e2];
    PairFacts(es[0], es[1], e1, e2);
    WorkedSteps();
    assert Recalc(es, 0, 5000.0, 1000.0) == Recalc([e1, es[1]], 1, 5000.0, 1000.0);
    assert Recalc([e1, es[1]], 1, 5000.0, 1000.0) == Recalc(r, 2, 5000.0, 1000.0);
    WorkedFigures();
  }

  /** The two steps of the worked example: 5000 * 200/1000 and (5000 - 1000) * 300/1000. */
  lemma WorkedSteps()
    ensures CalcAt([Entry(1, 10, 200.0, Done, 0.0, 0.0, true), Entry(2, 11, 300.0, Done, 0.0, 0.0, true)], 0, 5000.0, 1000.0)
            == Entry(1, 10, 200.0, Done, 5000.0, 1000.0, true)
    ensures CalcAt([Entry(1, 10, 200.0, Done, 5000.0, 1000.0, true), Entry(2, 11, 300.0, Done, 0.0, 0.0, true)], 1, 5000.0, 1000.0)
            == Entry(2, 11, 300.0, Done, 4000.0, 1200.0, true)
  {
    var e1 := Entry(1, 10, 200.0, Done, 5000.0, 1000.0, true);
    var x1 := Entry(1, 10, 200.0, Done, 0.0, 0.0, true);
    var x2 := Entry(2, 11, 300.0, Done, 0.0, 0.0, true);
    assert [x1, x2][..0] == [] && [e1, x2][..1] == [e1] && [e1][..0] == [];
    assert SumAllocated([e1]) == 1000.0;
    CalcOnce([], x1, 5000.0, 1000.0, 5000.0);
    CalcOnce([e1], x2, 5000.0, 1000.0, 4000.0);
    assert 5000.0 * (200.0 / 1000.0) == 1000.0;
    assert 4000.0 * (300.0 / 1000.0) == 1200.0;
  }

  lemma CalcOnce(previous: seq<Entry>, e: Entry, total: real, expected: real, remaining: real)
    requires expected != 0.0 && remaining == total - SumAllocated(previous)
    ensures Calc(previous, e, total, expected) == e.(remainingBefore := remaining, allocatedCost := remaining * (e.quantity / expected))
  {
  }

  /** The unit costs and the cumulative progress of the worked example's result. */
  lemma WorkedFigures()
    ensures var r := [Entry(1, 10, 200.0, Done, 5000.0, 1000.0, true), Entry(2, 11, 300.0, Done, 4000.0, 1200.0, true)];
            UnitCost(r[0]) == 5.0 && UnitCost(r[1]) == 4.0 && CumulativeProgress(r, 1, 1000.0) == 50.0
  {
    var r := [Entry(1, 10, 200.0, Done, 5000.0, 1000.0, true), Entry(2, 11, 300.0, Done, 4000.0, 1200.0, true)];
    assert UnitCost(r[0]) == 1000.0 / 200.0;
    assert UnitCost(r[1]) == 1200.0 / 300.0;
    assert r[..2] == r && r[..1] == [r[0]] && [r[0]][..0] == [];
    assert SumQuantity([r[0]]) == 200.0;
    assert CumulativeHarvested(r, 1) == 500.0;
    assert CumulativeProgress(r, 1, 1000.0) == (500.0 / 1000.0) * 100.0;
  }

  /** The sequence facts the worked example steps through. */
  lemma PairFacts<T>(a: T, b: T, c: T, d: T)
    ensures [a, b][0 := c] == [c, b] && [c, b][1 := d] == [c, d]
    ensures [c, b][..1] == [c] && [c, d][..1] == [c] && [c, d][..2] == [c, d] && [c][..0] == []
  {
  }

  /** Deleting the first harvest of the worked example leaves the second to take 1500. */
  lemma WorkedExampleAfterDeletion()
    ensures var r := [Entry(1, 10, 200.0, Done, 5000.0, 1000.0, true), Entry(2, 11, 300.0, Done, 4000.0, 1200.0, true)];
            Recalc(Remove(r, {1}), 0, 5000.0, 1000.0) == [Entry(2, 11, 300.0, Done, 5000.0, 1500.0, true)]
  {
    var r := [Entry(1, 10, 200.0, Done, 5000.0, 1000.0, true), Entry(2, 11, 300.0, Done, 4000.0, 1200.0, true)];
    var rest := Remove(r, {1});
    assert rest == [r[1]] by {
      assert Remove(r[1..], {1}) == [r[1]] + Remove(r[2..], {1});
    }
    assert 5000.0 * (300.0 / 1000.0) == 1500.0;
    assert CalcAt(rest, 0, 5000.0, 1000.0) == Entry(2, 11, 300.0, Done, 5000.0, 1500.0, true);
  }
}
