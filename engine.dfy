/**
 * The order-total engine as functions on a database value. Each function
 * gives the state after one persistence event and the signal receivers it
 * sets off, run synchronously in the order the receivers run them.
 */
module OrderEngine {
  import opened Wrappers
  import opened OrderTotals

  /** The three tables the engine touches; a row's id is its index. */
  datatype Db = Db(products: seq<Product>, items: seq<Item>, orders: seq<Order>)

  /** Referential integrity: every item references an existing product and
      every order holds existing items. */
  predicate WellFormed(db: Db)
  {
    (forall k :: 0 <= k < |db.items| ==> db.items[k].product < |db.products|) &&
    (forall j, k :: 0 <= j < |db.orders| && k in db.orders[j].items ==> k < |db.items|)
  }

  /** Every open order carries the live total of its items. */
  predicate AllConsistent(db: Db)
  {
    forall j :: 0 <= j < |db.orders| ==> Consistent(db.items, db.orders[j])
  }

  /** Every item belongs to at most one order (the many-to-many relation used one-to-many). */
  predicate SingleOwner(db: Db)
  {
    forall j1, j2, k ::
      0 <= j1 < |db.orders| && 0 <= j2 < |db.orders| && k in db.orders[j1].items && k in db.orders[j2].items
      ==> j1 == j2
  }

  /** Two order tables with the same item sets, delivery dates and delivered flags. */
  predicate SameShape(a: seq<Order>, b: seq<Order>)
  {
    |a| == |b| &&
    forall j :: 0 <= j < |a| ==>
      a[j].items == b[j].items && a[j].deliveryDate == b[j].deliveryDate && a[j].isDelivered == b[j].isDelivered
  }

  // ---------------------------------------------------------------------
  // last(): the one owning order the item receiver recomputes

  /**
   * `item.order_item.last()` under the ordering '-delivery_date': among the
   * orders holding item k, the one with the earliest delivery date. SQL leaves
   * ties unordered; the model picks the smallest id among them.
   */
  function LastOwner(orders: seq<Order>, k: nat): (r: Option<nat>)
    ensures r.None? <==> forall j :: 0 <= j < |orders| ==> k !in orders[j].items
    ensures r.Some? ==> r.value < |orders| && k in orders[r.value].items
    ensures r.Some? ==> forall j :: 0 <= j < |orders| && k in orders[j].items ==>
              orders[r.value].deliveryDate <= orders[j].deliveryDate
    ensures r.Some? ==> forall j :: 0 <= j < r.value && k in orders[j].items ==>
              orders[r.value].deliveryDate < orders[j].deliveryDate
    decreases |orders|
  {
    if orders == [] then None
    else
      var n := |orders| - 1;
      var best := LastOwner(orders[..n], k);
      if k in orders[n].items && (best.None? || orders[n].deliveryDate < orders[best.value].deliveryDate)
      then Some(n)
      else best
  }

  /** last() depends only on the item sets and delivery dates of the orders. */
  lemma LastOwnerFrame(a: seq<Order>, b: seq<Order>, k: nat)
    requires SameShape(a, b)
    ensures LastOwner(a, k) == LastOwner(b, k)
  {
  }

  /** With single ownership, last() is the one order that holds the item. */
  lemma LastOwnerSingle(db: Db, k: nat, j: nat)
    requires SingleOwner(db) && j < |db.orders| && k in db.orders[j].items
    ensures LastOwner(db.orders, k) == Some(j)
  {
  }

  // ---------------------------------------------------------------------
  // State transitions

  /** total_price_update on order j. */
  function RecomputeOrder(db: Db, j: nat): Db
    requires j < |db.orders|
  {
    db.(orders := db.orders[j := Recomputed(db.items, db.orders[j])])
  }

  /** Item k's stored price set to `price`. */
  function Repriced(db: Db, k: nat, price: int): Db
    requires k < |db.items|
  {
    db.(items := db.items[k := db.items[k].(price := price)])
  }

  /** Order j's item set replaced by s (the join-table change itself). */
  function WithMembers(db: Db, j: nat, s: set<nat>): Db
    requires j < |db.orders|
  {
    db.(orders := db.orders[j := db.orders[j].(items := s)])
  }

  /**
   * The lasting effect of the item receiver on a save that is not a creation:
   * if the item belongs to an order, its last() order is recomputed. (The
   * receiver also sets the in-memory instance's price without saving it, so
   * that assignment leaves no trace in the tables.)
   */
  function ItemSaved(db: Db, k: nat): (r: Db)
    ensures r.products == db.products && r.items == db.items && |r.orders| == |db.orders|
    ensures forall j :: 0 <= j < |db.orders| ==>
      r.orders[j] == if LastOwner(db.orders, k) == Some(j) then Recomputed(db.items, db.orders[j]) else db.orders[j]
  {
    match LastOwner(db.orders, k)
    case None => db
    case Some(j) => RecomputeOrder(db, j)
  }

  /** The orders other than j are the same in both tables. */
  predicate OthersUnchanged(a: seq<Order>, b: seq<Order>, j: nat)
  {
    |a| == |b| && forall i :: 0 <= i < |a| && i != j ==> a[i] == b[i]
  }

  /** Creating an item: the row is inserted, the receiver copies the product's
      current price into it and saves it again; the nested receiver call and
      the outer one find no owning order. */
  function ItemCreated(db: Db, product: nat, quantity: int, isDeleted: bool): (r: Db)
    requires product < |db.products|
    ensures r.products == db.products && r.orders == db.orders
    ensures |r.items| == |db.items| + 1 && r.items[..|db.items|] == db.items
    ensures r.items[|db.items|] == Item(product, db.products[product].price, quantity, isDeleted)
  {
    db.(items := db.items + [Item(product, db.products[product].price, quantity, isDeleted)])
  }

  /** Saving an existing item row with new field values, then its receiver:
      the row is stored as given and only the order last() picks is
      recomputed, from the stored rows. */
  function ItemStored(db: Db, k: nat, it: Item): (r: Db)
    requires k < |db.items|
    ensures r.products == db.products && r.items == db.items[k := it] && |r.orders| == |db.orders|
    ensures forall j :: 0 <= j < |db.orders| ==>
      r.orders[j] == if LastOwner(db.orders, k) == Some(j) then Recomputed(r.items, db.orders[j]) else db.orders[j]
  {
    ItemSaved(db.(items := db.items[k := it]), k)
  }

  /** `order.items.add(*ks)`: the m2m receiver recomputes on pre_add and on
      post_add; adding nothing returns before any signal. Afterwards the order
      holds the union and an open order carries the live total over it. */
  function ItemsAdded(db: Db, j: nat, ks: set<nat>): (r: Db)
    requires j < |db.orders|
    ensures r.products == db.products && r.items == db.items && OthersUnchanged(r.orders, db.orders, j)
    ensures ks == {} ==> r == db
    ensures r.orders[j].items == db.orders[j].items + ks
    ensures r.orders[j].isDelivered == db.orders[j].isDelivered
    ensures r.orders[j].deliveryDate == db.orders[j].deliveryDate
    ensures ks != {} ==> Consistent(r.items, r.orders[j])
    ensures db.orders[j].isDelivered ==> r.orders[j].totalPrice == db.orders[j].totalPrice
  {
    if ks == {} then db
    else RecomputeOrder(WithMembers(RecomputeOrder(db, j), j, db.orders[j].items + ks), j)
  }

  /** `order.items.remove(*ks)`: recompute on pre_remove and on post_remove;
      removing nothing returns before any signal. Afterwards the order holds
      the difference and an open order carries the live total over it. */
  function ItemsRemoved(db: Db, j: nat, ks: set<nat>): (r: Db)
    requires j < |db.orders|
    ensures r.products == db.products && r.items == db.items && OthersUnchanged(r.orders, db.orders, j)
    ensures ks == {} ==> r == db
    ensures r.orders[j].items == db.orders[j].items - ks
    ensures r.orders[j].isDelivered == db.orders[j].isDelivered
    ensures r.orders[j].deliveryDate == db.orders[j].deliveryDate
    ensures ks != {} ==> Consistent(r.items, r.orders[j])
    ensures db.orders[j].isDelivered ==> r.orders[j].totalPrice == db.orders[j].totalPrice
  {
    if ks == {} then db
    else RecomputeOrder(WithMembers(RecomputeOrder(db, j), j, db.orders[j].items - ks), j)
  }

  /** `order.items.clear()`: recompute on pre_clear and on post_clear. The order
      holds no items and an open order carries their live total. */
  function ItemsCleared(db: Db, j: nat): (r: Db)
    requires j < |db.orders|
    ensures r.products == db.products && r.items == db.items && OthersUnchanged(r.orders, db.orders, j)
    ensures r.orders[j].items == {}
    ensures r.orders[j].isDelivered == db.orders[j].isDelivered
    ensures r.orders[j].deliveryDate == db.orders[j].deliveryDate
    ensures Consistent(r.items, r.orders[j])
    ensures db.orders[j].isDelivered ==> r.orders[j].totalPrice == db.orders[j].totalPrice
  {
    RecomputeOrder(WithMembers(RecomputeOrder(db, j), j, {}), j)
  }

  /** `order.items.set(ks)`: remove the old items not in ks, then add the new
      ones. The order holds exactly ks; unless the set was already ks (then no
      signal is sent), an open order carries the live total over ks. */
  function ItemsSet(db: Db, j: nat, ks: set<nat>): (r: Db)
    requires j < |db.orders|
    ensures r.products == db.products && r.items == db.items && OthersUnchanged(r.orders, db.orders, j)
    ensures ks == db.orders[j].items ==> r == db
    ensures r.orders[j].items == ks
    ensures r.orders[j].isDelivered == db.orders[j].isDelivered
    ensures r.orders[j].deliveryDate == db.orders[j].deliveryDate
    ensures ks != db.orders[j].items ==> Consistent(r.items, r.orders[j])
    ensures db.orders[j].isDelivered ==> r.orders[j].totalPrice == db.orders[j].totalPrice
  {
    var current := db.orders[j].items;
    assert current - (current - ks) + (ks - current) == ks;
    assert ks == current ==> current - ks == {} && ks - current == {};
    assert ks != current && current - ks == {} ==> ks - current != {};
    ItemsAdded(ItemsRemoved(db, j, current - ks), j, ks - current)
  }

  /** Saving an order's own fields: no receiver listens to it, so only the
      delivery date and the delivered flag change. */
  function OrderStored(db: Db, j: nat, deliveryDate: int, isDelivered: bool): (r: Db)
    requires j < |db.orders|
    ensures r.products == db.products && r.items == db.items && OthersUnchanged(r.orders, db.orders, j)
    ensures r.orders[j] == Order(db.orders[j].items, deliveryDate, isDelivered, db.orders[j].totalPrice)
  {
    db.(orders := db.orders[j := db.orders[j].(deliveryDate := deliveryDate, isDelivered := isDelivered)])
  }

  /**
   * The loop of the product receiver from item id i on: every item that
   * references product p gets p's price and is saved, and that save runs the
   * item receiver (ItemSaved).
   */
  function PropagateFrom(db: Db, p: nat, i: nat): (r: Db)
    requires p < |db.products|
    ensures r.products == db.products && |r.items| == |db.items|
    ensures forall k :: 0 <= k < |db.items| ==>
      r.items[k] == if i <= k && db.items[k].product == p then db.items[k].(price := db.products[p].price) else db.items[k]
    ensures SameShape(r.orders, db.orders)
    decreases |db.items| - i
  {
    if i >= |db.items| then db
    else if db.items[i].product != p then PropagateFrom(db, p, i + 1)
    else PropagateFrom(ItemSaved(Repriced(db, i, db.products[p].price), i), p, i + 1)
  }

  /** Saving product p with a new price, then the product receiver: exactly
      the items referencing p take the new price, and no order changes its
      item set, delivery date or delivered flag. */
  function ProductStored(db: Db, p: nat, price: int): (r: Db)
    requires p < |db.products|
    ensures r.products == db.products[p := Product(price)] && |r.items| == |db.items|
    ensures forall k :: 0 <= k < |db.items| ==>
      r.items[k] == if db.items[k].product == p then db.items[k].(price := price) else db.items[k]
    ensures SameShape(r.orders, db.orders)
  {
    PropagateFrom(db.(products := db.products[p := Product(price)]), p, 0)
  }

  // ---------------------------------------------------------------------
  // The corrected propagation: recompute every order holding a repriced item

  /** Every order holding item k, recomputed. */
  function OwnersRecomputed(db: Db, k: nat): Db
  {
    db.(orders := seq(|db.orders|, j requires 0 <= j < |db.orders| =>
      if k in db.orders[j].items then Recomputed(db.items, db.orders[j]) else db.orders[j]))
  }

  /** As PropagateFrom, but each repriced item recomputes all of its orders. */
  function CascadeFrom(db: Db, p: nat, i: nat): (r: Db)
    requires p < |db.products|
    ensures r.products == db.products && |r.items| == |db.items|
    ensures forall k :: 0 <= k < |db.items| ==>
      r.items[k] == if i <= k && db.items[k].product == p then db.items[k].(price := db.products[p].price) else db.items[k]
    ensures SameShape(r.orders, db.orders)
    decreases |db.items| - i
  {
    if i >= |db.items| then db
    else if db.items[i].product != p then CascadeFrom(db, p, i + 1)
    else CascadeFrom(OwnersRecomputed(Repriced(db, i, db.products[p].price), i), p, i + 1)
  }

  /** Saving product p with a new price under the corrected propagation:
      the same items are repriced as by ProductStored. */
  function ProductStoredCascading(db: Db, p: nat, price: int): (r: Db)
    requires p < |db.products|
    ensures r.products == db.products[p := Product(price)] && |r.items| == |db.items|
    ensures forall k :: 0 <= k < |db.items| ==>
      r.items[k] == if db.items[k].product == p then db.items[k].(price := price) else db.items[k]
    ensures SameShape(r.orders, db.orders)
  {
    CascadeFrom(db.(products := db.products[p := Product(price)]), p, 0)
  }

  /** Saving an item under the corrected receiver: every order holding it is
      recomputed, not only the one last() picks. */
  function ItemStoredCascading(db: Db, k: nat, it: Item): (r: Db)
    requires k < |db.items|
    ensures r.products == db.products && r.items == db.items[k := it] && |r.orders| == |db.orders|
    ensures forall j :: 0 <= j < |db.orders| ==>
      r.orders[j] == if k in db.orders[j].items then Recomputed(r.items, db.orders[j]) else db.orders[j]
  {
    OwnersRecomputed(db.(items := db.items[k := it]), k)
  }

  // ---------------------------------------------------------------------
  // Creating and saving items

  /** A new item gets its product's current price, changes no order, and keeps
      the tables well formed and every open order consistent. */
  lemma ItemCreatedKeepsInvariants(db: Db, product: nat, quantity: int, isDeleted: bool)
    requires WellFormed(db) && product < |db.products|
    ensures var r := ItemCreated(db, product, quantity, isDeleted);
      WellFormed(r) && r.orders == db.orders && r.products == db.products &&
      |r.items| == |db.items| + 1 && r.items[..|db.items|] == db.items &&
      r.items[|db.items|].price == db.products[product].price &&
      (AllConsistent(db) ==> AllConsistent(r))
  {
    var r := ItemCreated(db, product, quantity, isDeleted);
    assert r.items[..|db.items|] == db.items;
    if AllConsistent(db) {
      forall j | 0 <= j < |r.orders| ensures Consistent(r.items, r.orders[j]) {
        LiveTotalAppend(db.items, r.items[|db.items|], db.orders[j].items);
      }
    }
  }

  /** Saving an item recomputes the order last() picks and no other; a
      delivered order, even when picked, keeps every field. This restates,
      for one order j, what the ensures of ItemStored and Recomputed give. */
  lemma ItemStoredTouchesOnlyLast(db: Db, k: nat, it: Item, j: nat)
    requires k < |db.items| && j < |db.orders|
    ensures var r := ItemStored(db, k, it);
      r.items == db.items[k := it] &&
      (LastOwner(db.orders, k) != Some(j) || db.orders[j].isDelivered ==> r.orders[j] == db.orders[j]) &&
      (LastOwner(db.orders, k) == Some(j) ==> Consistent(r.items, r.orders[j]))
  {
  }

  /** When every item belongs to at most one order, saving an item keeps every
      open order consistent. */
  lemma ItemStoredKeepsConsistency(db: Db, k: nat, it: Item)
    requires k < |db.items| && SingleOwner(db) && AllConsistent(db)
    ensures AllConsistent(ItemStored(db, k, it))
  {
    var r := ItemStored(db, k, it);
    forall j | 0 <= j < |r.orders| ensures Consistent(r.items, r.orders[j]) {
      if LastOwner(db.orders, k) != Some(j) {
        if k in db.orders[j].items {
          LastOwnerSingle(db, k, j);
        }
        LiveTotalUpdate(db.items, db.orders[j].items, k, it);
      }
    }
  }

  // ---------------------------------------------------------------------
  // Changing an order's item set

  /** After an order's items are cleared, an open order's total is zero. */
  lemma ItemsClearedTotal(db: Db, j: nat)
    requires j < |db.orders|
    ensures var r := ItemsCleared(db, j);
      r.items == db.items && |r.orders| == |db.orders| &&
      (forall i :: 0 <= i < |db.orders| && i != j ==> r.orders[i] == db.orders[i]) &&
      r.orders[j].items == {} &&
      r.orders[j].totalPrice == (if db.orders[j].isDelivered then db.orders[j].totalPrice else 0)
  {
    var r := ItemsCleared(db, j);
    if !db.orders[j].isDelivered {
      assert LiveTotal(db.items, {}) == 0 by {
        ZeroWithoutMembers(db.items);
      }
    }
  }

  /** An order that holds no items has a live total of zero. */
  lemma {:induction false} ZeroWithoutMembers(items: seq<Item>)
    ensures LiveTotal(items, {}) == 0
    decreases |items|
  {
    if items != [] {
      ZeroWithoutMembers(items[..|items| - 1]);
    }
  }

  /** Adding one item to a consistent open order raises its total by exactly
      that item's contribution. */
  lemma ItemAddedDelta(db: Db, j: nat, k: nat)
    requires j < |db.orders| && k < |db.items| && k !in db.orders[j].items
    requires !db.orders[j].isDelivered && Consistent(db.items, db.orders[j])
    ensures ItemsAdded(db, j, {k}).orders[j].totalPrice == db.orders[j].totalPrice + Contribution(db.items[k])
  {
    LiveTotalAdd(db.items, db.orders[j].items, k);
  }

  /** Removing one item from a consistent open order lowers its total by
      exactly that item's contribution. */
  lemma ItemRemovedDelta(db: Db, j: nat, k: nat)
    requires j < |db.orders| && k < |db.items| && k in db.orders[j].items
    requires !db.orders[j].isDelivered && Consistent(db.items, db.orders[j])
    ensures ItemsRemoved(db, j, {k}).orders[j].totalPrice == db.orders[j].totalPrice - Contribution(db.items[k])
  {
    LiveTotalRemove(db.items, db.orders[j].items, k);
  }

  /** Every change of an order's item set keeps every open order consistent. */
  lemma MembershipChangeKeepsConsistency(db: Db, j: nat, ks: set<nat>)
    requires j < |db.orders| && AllConsistent(db)
    ensures AllConsistent(ItemsAdded(db, j, ks))
    ensures AllConsistent(ItemsRemoved(db, j, ks))
    ensures AllConsistent(ItemsCleared(db, j))
    ensures AllConsistent(ItemsSet(db, j, ks))
  {
  }

  /** Saving an order's own fields keeps consistency unless it reopens a
      delivered order (whose frozen total may be stale). */
  lemma OrderStoredKeepsConsistency(db: Db, j: nat, deliveryDate: int, isDelivered: bool)
    requires j < |db.orders| && AllConsistent(db)
    requires !isDelivered ==> !db.orders[j].isDelivered
    ensures AllConsistent(OrderStored(db, j, deliveryDate, isDelivered))
  {
  }

  // ---------------------------------------------------------------------
  // Product price propagation

  /** Some item with id at least i that order j holds references product p. */
  ghost predicate Pending(db: Db, p: nat, i: nat, j: nat)
    requires j < |db.orders|
  {
    exists k :: i <= k < |db.items| && k in db.orders[j].items && db.items[k].product == p
  }

  /** Every open order is consistent or still holds an item referencing p
      that the loop has yet to reach. */
  ghost predicate Settled(db: Db, p: nat, i: nat)
  {
    forall j :: 0 <= j < |db.orders| ==> Consistent(db.items, db.orders[j]) || Pending(db, p, i, j)
  }

  /** The propagation loop leaves order j untouched when last() picks it for
      none of the items still to be repriced. */
  lemma {:induction false} PropagateLeavesOthers(db: Db, p: nat, i: nat, j: nat)
    requires p < |db.products| && j < |db.orders|
    requires forall k :: i <= k < |db.items| && db.items[k].product == p ==> LastOwner(db.orders, k) != Some(j)
    ensures PropagateFrom(db, p, i).orders[j] == db.orders[j]
    decreases |db.items| - i
  {
    if i < |db.items| {
      if db.items[i].product != p {
        PropagateLeavesOthers(db, p, i + 1, j);
      } else {
        var db2 := ItemSaved(Repriced(db, i, db.products[p].price), i);
        forall k | i + 1 <= k < |db2.items| && db2.items[k].product == p
          ensures LastOwner(db2.orders, k) != Some(j)
        {
          LastOwnerFrame(db2.orders, db.orders, k);
        }
        PropagateLeavesOthers(db2, p, i + 1, j);
      }
    }
  }

  /** A product no item references: its receiver's loop changes nothing. */
  lemma PropagateUnreferenced(db: Db, p: nat)
    requires p < |db.products|
    requires forall k :: 0 <= k < |db.items| ==> db.items[k].product != p
    ensures PropagateFrom(db, p, 0) == db
  {
    var r := PropagateFrom(db, p, 0);
    forall j | 0 <= j < |db.orders| ensures r.orders[j] == db.orders[j] {
      PropagateLeavesOthers(db, p, 0, j);
    }
    assert r.items == db.items;
  }

  /** The propagation loop never changes a delivered order. */
  lemma {:induction false} PropagateFreezesDelivered(db: Db, p: nat, i: nat, j: nat)
    requires p < |db.products| && j < |db.orders| && db.orders[j].isDelivered
    ensures PropagateFrom(db, p, i).orders[j] == db.orders[j]
    decreases |db.items| - i
  {
    if i < |db.items| {
      if db.items[i].product != p {
        PropagateFreezesDelivered(db, p, i + 1, j);
      } else {
        PropagateFreezesDelivered(ItemSaved(Repriced(db, i, db.products[p].price), i), p, i + 1, j);
      }
    }
  }

  /** Saving a product recomputes only orders that last() picks for one of the
      items referencing it, and never a delivered order. */
  lemma ProductStoredTouchesOnlyLast(db: Db, p: nat, price: int, j: nat)
    requires p < |db.products| && j < |db.orders|
    requires db.orders[j].isDelivered ||
      forall k :: 0 <= k < |db.items| && db.items[k].product == p ==> LastOwner(db.orders, k) != Some(j)
    ensures ProductStored(db, p, price).orders[j] == db.orders[j]
  {
    var db1 := db.(products := db.products[p := Product(price)]);
    if db.orders[j].isDelivered {
      PropagateFreezesDelivered(db1, p, 0, j);
    } else {
      PropagateLeavesOthers(db1, p, 0, j);
    }
  }

  /** Under the corrected propagation every open order ends consistent. */
  lemma {:induction false} CascadeSettles(db: Db, p: nat, i: nat)
    requires p < |db.products| && i <= |db.items| && Settled(db, p, i)
    ensures AllConsistent(CascadeFrom(db, p, i))
    decreases |db.items| - i
  {
    if i == |db.items| {
    } else if db.items[i].product != p {
      forall j | 0 <= j < |db.orders| ensures Consistent(db.items, db.orders[j]) || Pending(db, p, i + 1, j) {
        if !Consistent(db.items, db.orders[j]) {
          assert Pending(db, p, i, j);
          var k :| i <= k < |db.items| && k in db.orders[j].items && db.items[k].product == p;
          assert i + 1 <= k;
        }
      }
      CascadeSettles(db, p, i + 1);
    } else {
      var db1 := Repriced(db, i, db.products[p].price);
      var db2 := OwnersRecomputed(db1, i);
      forall j | 0 <= j < |db2.orders| ensures Consistent(db2.items, db2.orders[j]) || Pending(db2, p, i + 1, j) {
        if i !in db.orders[j].items {
          assert db2.orders[j] == db.orders[j];
          LiveTotalUpdate(db.items, db.orders[j].items, i, db1.items[i]);
          if !Consistent(db.items, db.orders[j]) {
            assert Pending(db, p, i, j);
            var k :| i <= k < |db.items| && k in db.orders[j].items && db.items[k].product == p;
            assert i + 1 <= k < |db2.items| && k in db2.orders[j].items && db2.items[k].product == p;
          }
        }
      }
      CascadeSettles(db2, p, i + 1);
    }
  }

  /** The intended behaviour: after a product's price changes, every open
      order is consistent again, however many orders share an item. */
  lemma ProductStoredCascadingKeepsConsistency(db: Db, p: nat, price: int)
    requires p < |db.products| && AllConsistent(db)
    ensures AllConsistent(ProductStoredCascading(db, p, price))
  {
    var db1 := db.(products := db.products[p := Product(price)]);
    assert Settled(db1, p, 0);
    CascadeSettles(db1, p, 0);
  }

  /** With single ownership, recomputing last() is recomputing every owner. */
  lemma SavedMatchesOwners(db: Db, k: nat)
    requires SingleOwner(db)
    ensures ItemSaved(db, k) == OwnersRecomputed(db, k)
  {
    var a, b := ItemSaved(db, k), OwnersRecomputed(db, k);
    forall j | 0 <= j < |db.orders| ensures a.orders[j] == b.orders[j] {
      if k in db.orders[j].items {
        LastOwnerSingle(db, k, j);
      }
    }
  }

  /** With single ownership the as-written propagation is the corrected one. */
  lemma {:induction false} PropagateMatchesCascade(db: Db, p: nat, i: nat)
    requires p < |db.products| && SingleOwner(db)
    ensures PropagateFrom(db, p, i) == CascadeFrom(db, p, i)
    decreases |db.items| - i
  {
    if i < |db.items| {
      if db.items[i].product != p {
        PropagateMatchesCascade(db, p, i + 1);
      } else {
        var db1 := Repriced(db, i, db.products[p].price);
        SavedMatchesOwners(db1, i);
        var db2 := ItemSaved(db1, i);
        assert SameShape(db2.orders, db.orders);
        PropagateMatchesCascade(db2, p, i + 1);
      }
    }
  }

  /** When every item belongs to at most one order, the as-written propagation
      leaves every open order consistent. */
  lemma ProductStoredKeepsConsistency(db: Db, p: nat, price: int)
    requires p < |db.products| && SingleOwner(db) && AllConsistent(db)
    ensures AllConsistent(ProductStored(db, p, price))
  {
    var db1 := db.(products := db.products[p := Product(price)]);
    PropagateMatchesCascade(db1, p, 0);
    ProductStoredCascadingKeepsConsistency(db, p, price);
  }

  /** An item held by two open orders: after its product's price changes from
      100 to 200, only the order with the earlier delivery date is recomputed
      and the other keeps a total of 100 while its items are worth 200. */
  lemma StaleTotalAfterPriceChange()
    ensures var db := Db([Product(100)], [Item(0, 100, 1, false)],
                         [Order({0}, 1, false, 100), Order({0}, 2, false, 100)]);
      var r := ProductStored(db, 0, 200);
      WellFormed(db) && AllConsistent(db) &&
      r.orders[0].totalPrice == 200 &&
      r.orders[1].totalPrice == 100 && LiveTotal(r.items, r.orders[1].items) == 200 &&
      !AllConsistent(r)
  {
    var db := Db([Product(100)], [Item(0, 100, 1, false)],
                 [Order({0}, 1, false, 100), Order({0}, 2, false, 100)]);
    var items := [Item(0, 100, 1, false)];
    assert items[..0] == [];
    assert LiveTotal(items, {0}) == 100;
    var db1 := db.(products := [Product(200)]);
    assert db.products[0 := Product(200)] == db1.products;
    var items2 := [Item(0, 200, 1, false)];
    assert items2[..0] == [];
    assert LiveTotal(items2, {0}) == 200;
    assert LastOwner(db1.orders, 0) == Some(0);
    var r := ProductStored(db, 0, 200);
    assert r == PropagateFrom(ItemSaved(Repriced(db1, 0, 200), 0), 0, 1);
  }

  /** An item held by two open orders: saving it with quantity 2 recomputes
      only the order with the earlier delivery date, and the other keeps a
      total of 100 while its items are worth 200. */
  lemma StaleTotalAfterItemSave()
    ensures var db := Db([Product(100)], [Item(0, 100, 1, false)],
                         [Order({0}, 1, false, 100), Order({0}, 2, false, 100)]);
      var r := ItemStored(db, 0, Item(0, 100, 2, false));
      WellFormed(db) && AllConsistent(db) &&
      r.orders[0].totalPrice == 200 &&
      r.orders[1].totalPrice == 100 && LiveTotal(r.items, r.orders[1].items) == 200 &&
      !AllConsistent(r)
  {
    var items := [Item(0, 100, 1, false)];
    assert items[..0] == [];
    assert LiveTotal(items, {0}) == 100;
    var items2 := [Item(0, 100, 2, false)];
    assert items2[..0] == [];
    assert LiveTotal(items2, {0}) == 200;
    assert LastOwner([Order({0}, 1, false, 100), Order({0}, 2, false, 100)], 0) == Some(0);
  }

  /** The intended item save: every order holding the saved item is
      recomputed, so every open order stays consistent, shared items included. */
  lemma ItemStoredCascadingKeepsConsistency(db: Db, k: nat, it: Item)
    requires k < |db.items| && AllConsistent(db)
    ensures AllConsistent(ItemStoredCascading(db, k, it))
  {
    var r := ItemStoredCascading(db, k, it);
    forall j | 0 <= j < |r.orders| ensures Consistent(r.items, r.orders[j]) {
      if k !in db.orders[j].items {
        LiveTotalUpdate(db.items, db.orders[j].items, k, it);
      }
    }
  }

  /** The live totals of a two-row table. */
  lemma LiveTotalOfPair(x: Item, y: Item)
    ensures LiveTotal([x, y], {0, 1}) == Contribution(x) + Contribution(y)
    ensures LiveTotal([x, y], {1}) == Contribution(y)
  {
    assert [x, y][..1] == [x] && [x][..0] == [];
    assert LiveTotal([x], {0, 1}) == Contribution(x);
    assert LiveTotal([x], {1}) == 0;
  }

  /** Two items of product 0 (price 100, quantity 1); order 0, dated 5, holds
      both and order 1, dated 1, holds item 1. Both totals are correct. */
  function SharedItemsDb(): Db
  {
    Db([Product(100)], [Item(0, 100, 1, false), Item(0, 100, 1, false)],
       [Order({0, 1}, 5, false, 200), Order({1}, 1, false, 100)])
  }

  /** Visiting item 0 first (ascending ids, as PropagateFrom does): order 0 is
      recomputed while item 1 still has the old price and is never recomputed
      again, because last() of item 1 is order 1. */
  lemma AscendingVisitLeavesStale()
    ensures AllConsistent(SharedItemsDb())
    ensures ProductStored(SharedItemsDb(), 0, 200).orders[0].totalPrice == 300
    ensures LiveTotal(ProductStored(SharedItemsDb(), 0, 200).items, {0, 1}) == 400
  {
    var db := SharedItemsDb();
    var a, b := Item(0, 100, 1, false), Item(0, 200, 1, false);
    LiveTotalOfPair(a, a);
    LiveTotalOfPair(b, a);
    LiveTotalOfPair(b, b);
    var db1 := db.(products := [Product(200)]);
    assert db.products[0 := Product(200)] == db1.products;
    assert LastOwner(db.orders, 0) == Some(0);
    var s1 := ItemSaved(Repriced(db1, 0, 200), 0);
    assert s1.items == [b, a];
    assert s1.orders[0].totalPrice == 300;
    assert LastOwner(s1.orders, 1) == Some(1) by {
      LastOwnerFrame(s1.orders, db.orders, 1);
    }
    var s2 := ItemSaved(Repriced(s1, 1, 200), 1);
    assert s2.orders[0] == s1.orders[0];
    assert ProductStored(db, 0, 200) == PropagateFrom(s2, 0, 2);
  }

  /** Visiting item 1 first: order 0 is recomputed last, with both new prices. */
  lemma DescendingVisitSettles()
    ensures var db1 := SharedItemsDb().(products := [Product(200)]);
      ItemSaved(Repriced(ItemSaved(Repriced(db1, 1, 200), 1), 0, 200), 0).orders[0].totalPrice == 400
  {
    var db := SharedItemsDb();
    var a, b := Item(0, 100, 1, false), Item(0, 200, 1, false);
    LiveTotalOfPair(b, b);
    var db1 := db.(products := [Product(200)]);
    assert LastOwner(db.orders, 1) == Some(1);
    var d1 := ItemSaved(Repriced(db1, 1, 200), 1);
    assert d1.items == [a, b];
    assert LastOwner(d1.orders, 0) == Some(0) by {
      LastOwnerFrame(d1.orders, db.orders, 0);
    }
    var d2 := ItemSaved(Repriced(d1, 0, 200), 0);
    assert d2.items == [b, b];
  }
}
