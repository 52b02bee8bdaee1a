/**
 * Line items, orders and the total an open order must carry: the sum of
 * price * quantity over the order's items that are not soft-deleted.
 * Money and quantities are integers (for example, prices in the smallest
 * currency unit); the source stores floats.
 */
module OrderTotals {

  /** A product; only its current unit price matters to the totals. */
  datatype Product = Product(price: int)

  /** An OrderItem row: the product it references, the captured unit price,
      the quantity and the soft-delete flag. */
  datatype Item = Item(product: nat, price: int, quantity: int, isDeleted: bool)

  /** An Order row: the ids of its items (a many-to-many set), the delivery
      date (days, as an integer), the delivered flag and the stored total. */
  datatype Order = Order(items: set<nat>, deliveryDate: int, isDelivered: bool, totalPrice: int)

  /** What one item adds to a total: nothing once it is soft-deleted. */
  function Contribution(it: Item): int
  {
    if it.isDeleted then 0 else it.price * it.quantity
  }

  /** The sum of Contribution over the rows of `items` whose id is in `members`. */
  function LiveTotal(items: seq<Item>, members: set<nat>): int
    decreases |items|
  {
    if items == [] then 0
    else
      var n := |items| - 1;
      LiveTotal(items[..n], members) + (if n in members then Contribution(items[n]) else 0)
  }

  /** The order after total_price_update: a delivered order is frozen; an open
      one gets the live total of its items. */
  function Recomputed(items: seq<Item>, o: Order): (r: Order)
    ensures r.items == o.items && r.deliveryDate == o.deliveryDate && r.isDelivered == o.isDelivered
    ensures o.isDelivered ==> r == o
    ensures Consistent(items, r)
  {
    if o.isDelivered then o else o.(totalPrice := LiveTotal(items, o.items))
  }

  /** An open order carries the live total of its items. */
  predicate Consistent(items: seq<Item>, o: Order)
  {
    !o.isDelivered ==> o.totalPrice == LiveTotal(items, o.items)
  }

  /**
   * The loop of total_price_update: walk the item rows in id order and add
   * price * quantity for every member that is not soft-deleted.
   */
  method SumLive(items: seq<Item>, members: set<nat>) returns (total: int)
    ensures total == LiveTotal(items, members)
  {
    total := 0;
    var i := 0;
    while i < |items|
      invariant 0 <= i <= |items|
      invariant total == LiveTotal(items[..i], members)
    {
      if i in members && !items[i].isDeleted {
        total := total + items[i].price * items[i].quantity;
      }
      assert items[..i + 1][..i] == items[..i];
      i := i + 1;
    }
    assert items[..|items|] == items;
  }

  // ---------------------------------------------------------------------
  // Properties of LiveTotal

  /** Only membership of ids below |items| matters. */
  lemma {:induction false} LiveTotalSameMembers(items: seq<Item>, m1: set<nat>, m2: set<nat>)
    requires forall k: nat :: k < |items| ==> (k in m1 <==> k in m2)
    ensures LiveTotal(items, m1) == LiveTotal(items, m2)
    decreases |items|
  {
    if items != [] {
      var n := |items| - 1;
      LiveTotalSameMembers(items[..n], m1, m2);
    }
  }

  /** Rows outside the member set do not matter: two tables that agree on the
      members have the same live total. */
  lemma {:induction false} LiveTotalFrame(a: seq<Item>, b: seq<Item>, members: set<nat>)
    requires |a| == |b|
    requires forall k: nat :: k < |a| && k in members ==> a[k] == b[k]
    ensures LiveTotal(a, members) == LiveTotal(b, members)
    decreases |a|
  {
    if a != [] {
      var n := |a| - 1;
      LiveTotalFrame(a[..n], b[..n], members);
    }
  }

  /** Adding a row that belongs to no member set leaves every live total as it was. */
  lemma LiveTotalAppend(items: seq<Item>, it: Item, members: set<nat>)
    requires |items| !in members
    ensures LiveTotal(items + [it], members) == LiveTotal(items, members)
  {
    assert (items + [it])[..|items|] == items;
  }

  /** Adding an item to an order adds exactly that item's contribution. */
  lemma {:induction false} LiveTotalAdd(items: seq<Item>, members: set<nat>, k: nat)
    requires k < |items| && k !in members
    ensures LiveTotal(items, members + {k}) == LiveTotal(items, members) + Contribution(items[k])
    decreases |items|
  {
    var n := |items| - 1;
    if k == n {
      LiveTotalSameMembers(items[..n], members + {k}, members);
    } else {
      LiveTotalAdd(items[..n], members, k);
      assert items[..n][k] == items[k];
    }
  }

  /** Removing an item from an order takes away exactly that item's contribution. */
  lemma LiveTotalRemove(items: seq<Item>, members: set<nat>, k: nat)
    requires k < |items| && k in members
    ensures LiveTotal(items, members - {k}) == LiveTotal(items, members) - Contribution(items[k])
  {
    LiveTotalAdd(items, members - {k}, k);
    assert members - {k} + {k} == members;
  }

  /** Replacing one row changes the live total by the change in that row's
      contribution, and only if the row is a member. */
  lemma {:induction false} LiveTotalUpdate(items: seq<Item>, members: set<nat>, k: nat, it: Item)
    requires k < |items|
    ensures LiveTotal(items[k := it], members)
         == LiveTotal(items, members) + (if k in members then Contribution(it) - Contribution(items[k]) else 0)
    decreases |items|
  {
    var n := |items| - 1;
    var upd := items[k := it];
    if k == n {
      assert upd[..n] == items[..n];
    } else {
      LiveTotalUpdate(items[..n], members, k, it);
      assert upd[..n] == items[..n][k := it];
    }
  }

  /** A soft-deleted item contributes nothing, whatever its price or quantity:
      dropping it from the member set does not change the total ... */
  lemma DeletedItemIgnored(items: seq<Item>, members: set<nat>, k: nat)
    requires k < |items| && items[k].isDeleted
    ensures LiveTotal(items, members - {k}) == LiveTotal(items, members)
  {
    if k in members {
      LiveTotalRemove(items, members, k);
    } else {
      assert members - {k} == members;
    }
  }

  /** ... and changing the price or quantity of a row that stays soft-deleted
      does not change it either. */
  lemma DeletedItemEditIgnored(items: seq<Item>, members: set<nat>, k: nat, price: int, quantity: int)
    requires k < |items| && items[k].isDeleted
    ensures LiveTotal(items[k := items[k].(price := price, quantity := quantity)], members)
         == LiveTotal(items, members)
  {
    LiveTotalUpdate(items, members, k, items[k].(price := price, quantity := quantity));
  }

  /** With non-negative prices and quantities (what the MinValueValidator on
      quantity asks for) the live total is non-negative, as the validator on
      total_price asks. */
  lemma {:induction false} LiveTotalNonNegative(items: seq<Item>, members: set<nat>)
    requires forall k :: 0 <= k < |items| ==> items[k].price >= 0 && items[k].quantity >= 0
    ensures LiveTotal(items, members) >= 0
    decreases |items|
  {
    if items != [] {
      var n := |items| - 1;
      LiveTotalNonNegative(items[..n], members);
      assert items[n].price * items[n].quantity >= 0;
    }
  }

  // ---------------------------------------------------------------------
  // Properties of a recompute

  /** Recomputing twice with nothing in between gives the same order as once. */
  lemma RecomputeIdempotent(items: seq<Item>, o: Order)
    ensures Recomputed(items, Recomputed(items, o)) == Recomputed(items, o)
  {
  }

  /** A recompute only depends on the item set, not on the previous total: this
      is why the pre- and post-change recomputes of one membership change give
      the same result as the post-change recompute alone. */
  lemma RecomputeForgetsTotal(items: seq<Item>, o: Order, s: set<nat>)
    ensures Recomputed(items, Recomputed(items, o).(items := s)) == Recomputed(items, o.(items := s))
  {
  }
}
