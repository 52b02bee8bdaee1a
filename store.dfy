/**
 * The database with its signal receivers wired in: a Store holds the
 * products, order items and orders tables, and each method performs one
 * persistence event followed, synchronously, by the receivers it triggers.
 * Every method is specified by the engine function it implements.
 */
module OrderStore {
  import opened Wrappers
  import opened OrderTotals
  import opened OrderEngine

  class Store {
    var products: seq<Product>
    var items: seq<Item>
    var orders: seq<Order>

    /** The tables as a value. */
    function State(): Db
      reads this
    {
      Db(products, items, orders)
    }

    ghost predicate Valid()
      reads this
    {
      WellFormed(State())
    }

    constructor ()
      ensures Valid() && State() == Db([], [], [])
    {
      products, items, orders := [], [], [];
    }

    /** Order.total_price_update: a delivered order is left alone; an open one
        gets the sum of price * quantity over its items that are not
        soft-deleted. */
    method TotalPriceUpdate(j: nat)
      requires Valid() && j < |orders|
      modifies this
      ensures Valid() && State() == RecomputeOrder(old(State()), j)
    {
      if !orders[j].isDelivered {
        var total := SumLive(items, orders[j].items);
        orders := orders[j := orders[j].(totalPrice := total)];
      }
    }

    /**
     * order_item_receiver, run after item k has been saved. On creation it
     * copies the product's price into the item and saves it again, which runs
     * this receiver once more with created = false. Then, if some order holds
     * the item, it sets the in-memory instance's price (without saving it)
     * and recomputes the order last() picks. Returns the in-memory instance.
     */
    method OrderItemSaved(k: nat, created: bool) returns (instance: Item)
      requires Valid() && k < |items|
      requires created ==> LastOwner(orders, k).None?
      modifies this
      ensures Valid()
      ensures State() == ItemSaved(
        if created then Repriced(old(State()), k, old(products)[old(items)[k].product].price) else old(State()), k)
      ensures instance == if created || LastOwner(old(orders), k).Some?
        then old(items)[k].(price := old(products)[old(items)[k].product].price)
        else old(items)[k]
      decreases if created then 1 else 0
    {
      instance := items[k];
      if created {
        instance := instance.(price := products[instance.product].price);
        items := items[k := instance];
        instance := OrderItemSaved(k, false);
      }
      var owner := LastOwner(orders, k);
      if owner.Some? {
        instance := instance.(price := products[instance.product].price);
        TotalPriceUpdate(owner.value);
      }
    }

    /** Creating an OrderItem: insert the row, then its receiver. The item
        takes its product's current price and no order is recomputed. */
    method CreateItem(product: nat, quantity: int, isDeleted: bool) returns (k: nat)
      requires Valid() && product < |products|
      modifies this
      ensures Valid() && k == |old(items)|
      ensures State() == ItemCreated(old(State()), product, quantity, isDeleted)
    {
      k := |items|;
      items := items + [Item(product, 0, quantity, isDeleted)];
      var instance := OrderItemSaved(k, true);
    }

    /** Saving item k with new field values, then its receiver. The returned
        in-memory instance carries the product's price when some order holds
        the item; the stored row keeps the saved price. */
    method SaveItem(k: nat, it: Item) returns (instance: Item)
      requires Valid() && k < |items| && it.product < |products|
      modifies this
      ensures Valid() && State() == ItemStored(old(State()), k, it)
      ensures instance == if LastOwner(old(orders), k).Some? then it.(price := old(products)[it.product].price) else it
    {
      items := items[k := it];
      instance := OrderItemSaved(k, false);
    }

    /** Creating a Product: insert the row, then its receiver, whose loop finds
        no item referencing the new product. */
    method CreateProduct(price: int) returns (p: nat)
      requires Valid()
      modifies this
      ensures Valid() && p == |old(products)|
      ensures State() == old(State()).(products := old(products) + [Product(price)])
    {
      p := |products|;
      products := products + [Product(price)];
      PropagateUnreferenced(State(), p);
      ProductSaved(p);
    }

    /** Saving product p with a new price, then its receiver. */
    method SaveProduct(p: nat, price: int)
      requires Valid() && p < |products|
      modifies this
      ensures Valid() && State() == ProductStored(old(State()), p, price)
    {
      products := products[p := Product(price)];
      ProductSaved(p);
    }

    /** order_item_receiver_for_update: copy product p's price into every item
        that references it and save each one, which runs the item receiver. */
    method ProductSaved(p: nat)
      requires Valid() && p < |products|
      modifies this
      ensures Valid() && State() == PropagateFrom(old(State()), p, 0)
    {
      var i := 0;
      while i < |items|
        invariant Valid() && p < |products| && i <= |items|
        invariant PropagateFrom(State(), p, i) == PropagateFrom(old(State()), p, 0)
        decreases |items| - i
      {
        if items[i].product == p {
          items := items[i := items[i].(price := products[p].price)];
          var saved := OrderItemSaved(i, false);
        }
        i := i + 1;
      }
    }

    /** Recompute every order that holds item k. */
    method RecomputeOwners(k: nat)
      requires Valid()
      modifies this
      ensures Valid() && State() == OwnersRecomputed(old(State()), k)
    {
      var j := 0;
      while j < |orders|
        invariant Valid() && j <= |orders| && |orders| == |old(orders)|
        invariant products == old(products) && items == old(items)
        invariant forall t :: 0 <= t < j ==>
          orders[t] == if k in old(orders)[t].items then Recomputed(items, old(orders)[t]) else old(orders)[t]
        invariant forall t :: j <= t < |orders| ==> orders[t] == old(orders)[t]
      {
        if k in orders[j].items {
          TotalPriceUpdate(j);
        }
        j := j + 1;
      }
      assert orders == OwnersRecomputed(old(State()), k).orders;
    }

    /** The corrected price propagation: as SaveProduct, but every order that
        holds a repriced item is recomputed, not only the one last() picks. */
    method SaveProductCascading(p: nat, price: int)
      requires Valid() && p < |products|
      modifies this
      ensures Valid() && State() == ProductStoredCascading(old(State()), p, price)
    {
      products := products[p := Product(price)];
      ghost var start := State();
      var i := 0;
      while i < |items|
        invariant Valid() && p < |products| && i <= |items|
        invariant CascadeFrom(State(), p, i) == CascadeFrom(start, p, 0)
        decreases |items| - i
      {
        if items[i].product == p {
          items := items[i := items[i].(price := products[p].price)];
          RecomputeOwners(i);
        }
        i := i + 1;
      }
    }

    /** The corrected item save: store the row, then recompute every order
        that holds the item. */
    method SaveItemCascading(k: nat, it: Item)
      requires Valid() && k < |items| && it.product < |products|
      modifies this
      ensures Valid() && State() == ItemStoredCascading(old(State()), k, it)
    {
      items := items[k := it];
      RecomputeOwners(k);
    }

    /** Creating an Order: an empty item set and a total of zero; no receiver
        listens to an order's own save. */
    method CreateOrder(deliveryDate: int, isDelivered: bool) returns (j: nat)
      requires Valid()
      modifies this
      ensures Valid() && j == |old(orders)|
      ensures State() == old(State()).(orders := old(orders) + [Order({}, deliveryDate, isDelivered, 0)])
    {
      j := |orders|;
      orders := orders + [Order({}, deliveryDate, isDelivered, 0)];
    }

    /** Saving an order's delivery date and delivered flag. */
    method SaveOrder(j: nat, deliveryDate: int, isDelivered: bool)
      requires Valid() && j < |orders|
      modifies this
      ensures Valid() && State() == OrderStored(old(State()), j, deliveryDate, isDelivered)
    {
      orders := orders[j := orders[j].(deliveryDate := deliveryDate, isDelivered := isDelivered)];
    }

    /** `order.items.add(*ks)` with order_receiver on pre_add and post_add. */
    method AddItems(j: nat, ks: set<nat>)
      requires Valid() && j < |orders|
      requires forall k :: k in ks ==> k < |items|
      modifies this
      ensures Valid() && State() == ItemsAdded(old(State()), j, ks)
    {
      if ks != {} {
        TotalPriceUpdate(j);
        orders := orders[j := orders[j].(items := orders[j].items + ks)];
        TotalPriceUpdate(j);
      }
    }

    /** `order.items.remove(*ks)` with order_receiver on pre_remove and post_remove. */
    method RemoveItems(j: nat, ks: set<nat>)
      requires Valid() && j < |orders|
      modifies this
      ensures Valid() && State() == ItemsRemoved(old(State()), j, ks)
    {
      if ks != {} {
        TotalPriceUpdate(j);
        orders := orders[j := orders[j].(items := orders[j].items - ks)];
        TotalPriceUpdate(j);
      }
    }

    /** `order.items.clear()` with order_receiver on pre_clear and post_clear. */
    method ClearItems(j: nat)
      requires Valid() && j < |orders|
      modifies this
      ensures Valid() && State() == ItemsCleared(old(State()), j)
    {
      TotalPriceUpdate(j);
      orders := orders[j := orders[j].(items := {})];
      TotalPriceUpdate(j);
    }

    /** `order.items.set(ks)`: remove what is no longer wanted, add what is new. */
    method SetItems(j: nat, ks: set<nat>)
      requires Valid() && j < |orders|
      requires forall k :: k in ks ==> k < |items|
      modifies this
      ensures Valid() && State() == ItemsSet(old(State()), j, ks)
    {
      var current := orders[j].items;
      RemoveItems(j, current - ks);
      AddItems(j, ks - current);
    }
  }

  /** A client of the store: a product priced 100 and an item of 3 of it,
      attached to an open order, whose total becomes 300. */
  method OpenOrderWithItem() returns (s: Store)
    ensures fresh(s) && s.Valid()
    ensures s.State() == Db([Product(100)], [Item(0, 100, 3, false)], [Order({0}, 20, false, 300)])
  {
    s := new Store();
    var p := s.CreateProduct(100);
    var k := s.CreateItem(p, 3, false);
    assert s.items == [Item(p, 100, 3, false)];
    var o := s.CreateOrder(20, false);
    s.AddItems(o, {k});
    assert s.orders[o].items == {k} && !s.orders[o].isDelivered;
    assert s.items[..0] == [];
    assert LiveTotal(s.items, {k}) == 300;
    assert s.orders[o].totalPrice == 300;
  }

  /** Continuing with that order: a quantity change, a soft delete, and a
      change after delivery. */
  method DeliveryScenario()
  {
    var s := OpenOrderWithItem();
    assert LastOwner(s.orders, 0) == Some(0);
    var it := s.SaveItem(0, Item(0, 100, 5, false));
    assert s.items == [Item(0, 100, 5, false)] && s.items[..0] == [];
    assert LiveTotal(s.items, {0}) == 500;
    assert s.orders[0].totalPrice == 500;

    it := s.SaveItem(0, Item(0, 100, 5, true));
    assert s.items == [Item(0, 100, 5, true)] && s.items[..0] == [];
    assert s.orders[0].totalPrice == 0;

    it := s.SaveItem(0, Item(0, 100, 5, false));
    s.SaveOrder(0, 20, true);
    assert s.orders[0].totalPrice == 500;
    it := s.SaveItem(0, Item(0, 100, 10, false));
    assert s.orders[0].totalPrice == 500;
  }
}
