/** Stock valuation: the stored running totals, the totals over all items, and the weighted average. */
module Valuation {
  import opened Books
  import opened Inventory

  // ---------------------------------------------------------------- stored running totals

  /** Every movement carries the quantity and value of its item after itself. */
  predicate RunningTotals(ms: seq<Movement>) {
    forall i :: 0 <= i < |ms| ==>
      && ms[i].quantityAfter == StockOnHand(ms[..i + 1], ms[i].itemId)
      && ms[i].valueAfter == InventoryValue(ms[..i + 1], ms[i].itemId)
  }

  predicate NeverNegative(ms: seq<Movement>) { forall i :: 0 <= i < |ms| ==> ms[i].quantityAfter >= 0 }

  lemma FoldsAdd(ms: seq<Movement>, m: Movement, itemId: string)
    ensures StockOnHand(ms + [m], itemId) == StockOnHand(ms, itemId) + (if m.itemId == itemId then m.quantityDelta else 0)
    ensures InventoryValue(ms + [m], itemId) == InventoryValue(ms, itemId) + (if m.itemId == itemId then m.valueDelta else 0)
  {
    assert (ms + [m])[..|ms|] == ms;
  }

  /** Every committed movement keeps the stored totals equal to the folds, and no stock negative. */
  lemma MovementKeepsTotals(ms: seq<Movement>, c: StockCommand)
    requires RunningTotals(ms)
    ensures RunningTotals(ms + [MovementOf(ms, c)])
    ensures NeverNegative(ms) && StockOnHand(ms, c.itemId) + c.quantityDelta >= 0 ==>
      NeverNegative(ms + [MovementOf(ms, c)])
  {
    var m := MovementOf(ms, c);
    var all := ms + [m];
    FoldsAdd(ms, m, c.itemId);
    forall i | 0 <= i < |all|
      ensures all[i].quantityAfter == StockOnHand(all[..i + 1], all[i].itemId)
      ensures all[i].valueAfter == InventoryValue(all[..i + 1], all[i].itemId)
    {
      if i < |ms| {
        assert all[..i + 1] == ms[..i + 1];
      } else {
        assert all[..i + 1] == all;
      }
    }
  }

  /** The stock of an item is what its last movement says, so it is never negative either. */
  lemma {:induction false} StockIsLastTotal(ms: seq<Movement>, itemId: string)
    requires RunningTotals(ms) && NeverNegative(ms)
    ensures StockOnHand(ms, itemId) >= 0
  {
    if ms != [] {
      var n := |ms| - 1;
      assert ms[..n + 1] == ms;
      if ms[n].itemId != itemId {
        var before := ms[..n];
        assert forall i :: 0 <= i < n ==> before[..i + 1] == ms[..i + 1] && before[i] == ms[i];
        StockIsLastTotal(before, itemId);
      }
    }
  }

  /** The total value is the sum of the values of the items, for any list of the items that ever moved. */
  lemma TotalIsSumOverItems(ms: seq<Movement>, ids: seq<string>)
    requires Distinct(ids) && forall m :: m in ms ==> m.itemId in ids
    ensures SumPerKey(ms, ids, ItemOf(), Value()) == TotalValue(ms)
  {
    PartitionSum(ms, ids, ItemOf(), Value());
  }

  // ---------------------------------------------------------------- weighted average

  function Average(value: int, quantity: int): int
    requires quantity > 0
  {
    value / quantity
  }

  /** Floor division: the only a with a * q <= v < (a + 1) * q. */
  lemma FloorUnique(v: int, q: int, a: int)
    requires q > 0 && a * q <= v < (a + 1) * q
    ensures v / q == a
  {
    var d, r := v / q, v % q;
    assert v == d * q + r;
    if d < a {
      MulMono(d + 1, a, q);
    } else if d > a {
      MulMono(a + 1, d, q);
    }
  }

  lemma FloorBounds(v: int, q: int)
    requires q > 0
    ensures v / q * q <= v < (v / q + 1) * q
  {
    assert v == v / q * q + v % q;
  }

  lemma AtLeastFloor(v: int, q: int, a: int)
    requires q > 0 && a * q <= v
    ensures a <= v / q
  {
    FloorBounds(v, q);
    if v / q < a {
      MulMono(v / q + 1, a, q);
    }
  }

  lemma AtMostFloor(v: int, q: int, a: int)
    requires q > 0 && v < (a + 1) * q
    ensures v / q <= a
  {
    FloorBounds(v, q);
    if v / q > a {
      MulMono(a + 1, v / q, q);
    }
  }

  /** A stock-out at the floor average: the value that remains, and the average it leaves. */
  lemma StockOutAtAverage(v: int, q: int, out: int)
    requires 0 < out <= q
    ensures var rest := v - out * (v / q);
      && rest == (q - out) * (v / q) + v % q
      && (out == q ==> rest == v % q)
      && (out < q ==> rest / (q - out) == v / q + v % q / (q - out))
      && (out < q ==> Average(rest, q - out) >= Average(v, q))
      && (out < q ==> (Average(rest, q - out) == Average(v, q) <==> v % q < q - out))
  {
    var a, r := v / q, v % q;
    var rest := v - out * a;
    assert v == a * q + r;
    assert rest == (q - out) * a + r by {
      assert (q - out) * a == q * a - out * a;
    }
    if out == q {
      assert (q - out) * a == 0;
    } else {
      var left := q - out;
      FloorBounds(r, left);
      var b := r / left;
      assert (a + b) * left == left * a + b * left;
      assert (a + b + 1) * left == left * a + (b + 1) * left;
      FloorUnique(rest, left, a + b);
      if r < left {
        FloorUnique(r, left, 0);
      } else {
        AtLeastFloor(r, left, 1);
      }
    }
  }

  /** A stock-in at cost u to positive stock moves the average between its old value and u. */
  lemma StockInBetween(v: int, q: int, more: int, u: int)
    requires q > 0 && more > 0
    ensures var after := Average(v + more * u, q + more);
      && (if u <= Average(v, q) then u <= after <= Average(v, q) else Average(v, q) <= after <= u)
  {
    var a := v / q;
    FloorBounds(v, q);
    var low, high := if u <= a then u else a, if u <= a then a else u;
    assert low * (q + more) == low * q + low * more;
    assert low * q <= a * q by { MulMono(low, a, q); }
    assert low * more <= u * more by { MulMono(low, u, more); }
    AtLeastFloor(v + more * u, q + more, low);
    assert (high + 1) * (q + more) == (high + 1) * q + (high + 1) * more;
    assert (a + 1) * q <= (high + 1) * q by { MulMono(a + 1, high + 1, q); }
    assert u * more <= (high + 1) * more by { MulMono(u, high + 1, more); }
    AtMostFloor(v + more * u, q + more, high);
  }

  /** What a movement of an item in stock does to its value and its average. Out at the average it finds: the
      rest keeps the average's share and the remainder of the division, and the average stays or rises. In at
      any cost: the average moves towards that cost and not beyond it. */
  ghost predicate MovesAverage(ms: seq<Movement>, m: Movement) {
    var q, v := StockOnHand(ms, m.itemId), InventoryValue(ms, m.itemId);
    var before, after := AverageCost(ms, m.itemId), AverageCost(ms + [m], m.itemId);
    q > 0 ==>
      && (m.quantityDelta < 0 && q + m.quantityDelta >= 0 && m.unitCost == before ==>
            && InventoryValue(ms + [m], m.itemId) == (q + m.quantityDelta) * before + v % q
            && (q + m.quantityDelta > 0 ==> after >= before && (after == before <==> v % q < q + m.quantityDelta)))
      && (m.quantityDelta > 0 ==>
            if m.unitCost <= before then m.unitCost <= after <= before else before <= after <= m.unitCost)
  }

  lemma ValuedMovesAverage(ms: seq<Movement>, m: Movement)
    requires m.valueDelta == m.quantityDelta * m.unitCost
    ensures MovesAverage(ms, m)
  {
    FoldsAdd(ms, m, m.itemId);
    var q, v, delta := StockOnHand(ms, m.itemId), InventoryValue(ms, m.itemId), m.quantityDelta;
    hide StockOnHand, InventoryValue;
    if q > 0 {
      if delta < 0 && q + delta >= 0 && m.unitCost == v / q {
        StockOutAtAverage(v, q, -delta);
        assert delta * m.unitCost == -(-delta * m.unitCost);
      } else if delta > 0 {
        StockInBetween(v, q, delta, m.unitCost);
      }
    }
  }

  /** Every movement's value is its quantity at its unit cost. */
  predicate Valued(ms: seq<Movement>) { forall i :: 0 <= i < |ms| ==> ms[i].valueDelta == ms[i].quantityDelta * ms[i].unitCost }

  lemma MovementStaysValued(ms: seq<Movement>, c: StockCommand)
    requires Valued(ms)
    ensures Valued(ms + [MovementOf(ms, c)])
  {
    hide StockOnHand, InventoryValue, UnitCost, MovementPeriod;
  }

  lemma MulMono(x: int, y: int, q: int)
    requires x <= y && q >= 0
    ensures x * q <= y * q
  {
  }

  /** Decreases costed at the floor average keep quantity and value of the item non-negative. */
  predicate CostedAtAverage(ms: seq<Movement>, c: StockCommand) {
    c.quantityDelta < 0 ==> c.unitCost == 0 || c.unitCost == AverageCost(ms, c.itemId)
  }

  ghost predicate Solvent(ms: seq<Movement>) {
    forall itemId :: StockOnHand(ms, itemId) >= 0 && InventoryValue(ms, itemId) >= 0
  }

  /** An accepted movement at the average: what its stored form says about quantity and cost. */
  lemma MovementFacts(b: Books, c: StockCommand)
    requires MovementPlan(b, false, c).Succeeds() && CostedAtAverage(b.movements, c)
    ensures var m := MovementOf(b.movements, c);
      var q, v := StockOnHand(b.movements, c.itemId), InventoryValue(b.movements, c.itemId);
      && m.itemId == c.itemId && m.quantityDelta == c.quantityDelta != 0 && m.valueDelta == c.quantityDelta * m.unitCost
      && q + c.quantityDelta >= 0 && (c.quantityDelta > 0 ==> m.unitCost >= 0)
      && (c.quantityDelta < 0 ==> q > 0 && m.unitCost == v / q)
  {
    hide StockOnHand, InventoryValue, MovementSteps, HasMovement, CheckItem, MovementPeriod;
  }

  lemma ValueAfter(q: int, v: int, delta: int, cost: int)
    requires q >= 0 && v >= 0 && delta != 0 && q + delta >= 0
    requires (delta > 0 ==> cost >= 0) && (delta < 0 ==> q > 0 && cost == v / q)
    ensures v + delta * cost >= 0
  {
    if delta > 0 {
      MulMono(0, cost, delta);
    } else {
      var out := -delta;
      FloorBounds(v, q);
      FloorNonNegative(v, q);
      MulMono(out, q, cost);
      assert out * cost == -(delta * cost);
    }
  }

  lemma MovementKeepsSolvent(b: Books, c: StockCommand)
    requires Solvent(b.movements) && CostedAtAverage(b.movements, c)
    requires MovementPlan(b, false, c).Succeeds()
    ensures Solvent(b.movements + [MovementOf(b.movements, c)])
  {
    var ms, m := b.movements, MovementOf(b.movements, c);
    MovementFacts(b, c);
    hide StockOnHand, InventoryValue, MovementPlan, MovementOf, CostedAtAverage;
    ValueAfter(StockOnHand(ms, c.itemId), InventoryValue(ms, c.itemId), c.quantityDelta, m.unitCost);
    forall itemId
      ensures StockOnHand(ms + [m], itemId) >= 0 && InventoryValue(ms + [m], itemId) >= 0
    {
      FoldsAdd(ms, m, itemId);
    }
  }

  lemma FloorNonNegative(v: int, q: int)
    requires v >= 0 && q > 0
    ensures v / q >= 0 && v % q >= 0
  {
  }
}
