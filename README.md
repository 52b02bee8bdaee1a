# Order-total engine of a retail order backend (Dafny model)

The backend keeps customers, addresses, a product catalogue and orders made of
line items (`OrderItem`). Each `Order` stores a denormalised `total_price`.
Three signal receivers keep it up to date:

- `order_item_receiver` runs after an item is saved. On creation it copies the product's current price into the item.
- On every save of an item that some order holds, `order_item_receiver` recomputes the order that `order_item.last()` returns.
- `order_receiver` runs when an order's item set changes and recomputes that order.
- `order_item_receiver_for_update` runs after a product is saved. It copies the product's price into every item that references it and saves each one, which runs `order_item_receiver` again.

`Order.total_price_update` does nothing on a delivered order. On an open order
it stores the sum of `price * quantity` over the items that are not soft-deleted.

The model has five files:

- `totals.dfy` (module `OrderTotals`): the records, the live total `LiveTotal`, the loop of `total_price_update` (`SumLive`) and the algebra of the live total.
- `engine.dfy` (module `OrderEngine`): the database as a value (`Db`). Each persistence event is a function giving the state after the event and its receivers, run in the source's order. The module also holds `last()` and the consistency results.
- `store.dfy` (module `OrderStore`): a `Store` class whose fields are the three tables. Its methods are the events, with the source's loops. Each method's `ensures` ties the new `State()` to the engine function of the old one.
- `users.dfy` (module `Users`): the empty-email guard of `create_user`, `get_full_name` and `Address.__str__`.
- `wrappers.dfy`: `Option` and `Result`.

Modelling choices:

- Ids are indices into the tables.
- An order's items are a set of ids, since a many-to-many relation has set semantics. `items.all()` is a scan of the item table in id order, filtered by membership. The sum does not depend on that order.
- Money, quantities and totals are integers.
- `last()` under `ordering = ['-delivery_date']` is the owning order with the earliest delivery date. SQL leaves ties unordered, so the model picks the smallest id among them.
- The `m2m_changed` receiver does not look at `action`. It therefore recomputes on the `pre_*` signal and again on the `post_*` signal.
- `add()` and `remove()` with no objects return before any signal. `clear()` always signals. `set()` is a `remove()` of the dropped ids followed by an `add()` of the new ones.

Three points where the code does something other than what its receivers appear to do at first reading; the model follows the code:

- A product price change does recompute totals, although the product receiver itself never calls `total_price_update`: each `item.save()` in it runs the item receiver. That recomputes only the `last()` order of each repriced item, though (see Findings).
- The item receiver recomputes on every save of an item that an order holds, not only on creation.
- On a save that is not a creation, the receiver sets `instance.price` without saving it. The stored row keeps the price it was saved with, and the total is computed from that stored price. `Store.SaveItem` returns the in-memory instance so that this difference is visible.

Main results:

- An open order's total is the live total after every recompute.
- Adding, removing, clearing or setting an order's items keeps every open order consistent.
- When each item belongs to at most one order, saving an item or a product keeps every open order consistent (`ItemStoredKeepsConsistency`, `ProductStoredKeepsConsistency`).
- When items are shared between orders, price propagation and plain item saves can leave an open order stale (`StaleTotalAfterPriceChange`, `StaleTotalAfterItemSave`). The corrected propagation and the corrected item save keep every open order consistent in all cases (`ProductStoredCascadingKeepsConsistency`, `ItemStoredCascadingKeepsConsistency`).

## Model

| member | source | states |
|---|---|---|
| `OrderTotals.SumLive` | app/core/models.py:295-298 | the loop returns the sum of price * quantity over the order's items that are not soft-deleted, i.e. the reference definition `OrderTotals.LiveTotal`, which sums `OrderTotals.Contribution` (price * quantity, or 0 for a soft-deleted row) |
| `OrderTotals.LiveTotalAdd` | app/core/models.py:296-298 | adding an item to the set raises the total by exactly that item's contribution |
| `OrderTotals.LiveTotalRemove` | app/core/models.py:296-298 | removing an item from the set lowers the total by exactly that item's contribution |
| `OrderTotals.LiveTotalUpdate` | app/core/models.py:296-298 | replacing one item row changes the total by the change in its contribution, and only if the order holds it |
| `OrderTotals.LiveTotalFrame` | app/core/models.py:296-298 | item rows the order does not hold do not affect its total |
| `OrderTotals.LiveTotalAppend` | app/core/models.py:311-313 | a new item row that no order holds leaves every total unchanged |
| `OrderTotals.DeletedItemIgnored` | app/core/models.py:297-298 | a soft-deleted item contributes nothing: dropping it from the set leaves the total unchanged |
| `OrderTotals.DeletedItemEditIgnored` | app/core/models.py:297-298 | changing the price or quantity of a soft-deleted item leaves the total unchanged |
| `OrderTotals.LiveTotalNonNegative` | app/core/models.py:217-220 | with non-negative prices and quantities the total is non-negative, as the validator on total_price expects |
| `OrderTotals.Recomputed` | app/core/models.py:293-302 | total_price_update: a delivered order comes back unchanged; an open order gets the live total of its items and keeps its items, date and flag |
| `OrderTotals.RecomputeIdempotent` | app/core/models.py:293-302 | two recomputes in a row give the same order as one |
| `OrderTotals.RecomputeForgetsTotal` | app/core/models.py:295-301 | recomputing, changing the item set and recomputing again gives the same order as changing the set and recomputing once (the pre-change recompute is overwritten, or both are no-ops on a delivered order) |
| `OrderEngine.LastOwner` | app/core/models.py:305-306 | last() is None exactly when no order holds the item; otherwise it is an owning order with the earliest delivery date (smallest id among ties) |
| `OrderEngine.LastOwnerFrame` | app/core/models.py:305-306 | last() depends only on item sets and delivery dates, so recomputing totals never changes its choice |
| `OrderEngine.LastOwnerSingle` | app/core/models.py:314 | when an item has one owner, last() returns that owner |
| `OrderEngine.ItemSaved` | app/core/models.py:314-316 | saving an item recomputes its last() order and changes no other row |
| `OrderEngine.ItemCreated` | app/core/models.py:311-313 | a created item is appended with its product's current price; products and orders are unchanged |
| `OrderEngine.ItemStored` | app/core/models.py:314-316 | an item save stores the row as given and recomputes, from the stored rows, only the order last() picks |
| `OrderEngine.ItemCreatedKeepsInvariants` | app/core/models.py:311-316 | a new item takes its product's current price, no order changes, and the tables stay well formed and consistent |
| `OrderEngine.ItemStoredTouchesOnlyLast` | app/core/models.py:314-316 | after an item save, only last()'s order may change and it ends consistent; delivered orders keep every field |
| `OrderEngine.ItemStoredKeepsConsistency` | app/core/models.py:314-316 | when every item has at most one owner, an item save keeps every open order consistent |
| `OrderEngine.StaleTotalAfterItemSave` | app/core/models.py:314-316 | an item shared by two open orders: after saving it with a new quantity the later-dated order keeps a stale total |
| `OrderEngine.ItemStoredCascading` | app/core/models.py:314-316 | the corrected item save: the row is stored and every order holding the item is recomputed |
| `OrderEngine.ItemStoredCascadingKeepsConsistency` | app/core/models.py:314-316 | the corrected item save keeps every open order consistent, shared items included |
| `OrderEngine.ItemsAdded` | app/core/models.py:319-322 | after add(), the order holds the union and an open order's total is the live total over it; other orders, items and products are unchanged; an empty add changes nothing; a delivered order keeps its total |
| `OrderEngine.ItemsRemoved` | app/core/models.py:319-322 | after remove(), the order holds the difference and an open order's total is the live total over it; an empty remove changes nothing; a delivered order keeps its total |
| `OrderEngine.ItemsCleared` | app/core/models.py:319-322 | after clear(), the order holds no items and an open order carries their live total; other orders are unchanged |
| `OrderEngine.ItemsSet` | app/core/models.py:319-322 | after set(ks), the order holds exactly ks and, unless it already held ks, an open order's total is the live total over ks |
| `OrderEngine.ItemsClearedTotal` | app/core/models.py:319-322 | after clear(), the order holds no items and an open order's total is zero |
| `OrderEngine.ItemAddedDelta` | app/core/models.py:319-322 | adding one item to a consistent open order raises its total by that item's contribution |
| `OrderEngine.ItemRemovedDelta` | app/core/models.py:319-322 | removing one item from a consistent open order lowers its total by that item's contribution |
| `OrderEngine.MembershipChangeKeepsConsistency` | app/core/models.py:319-322 | add, remove, clear and set all keep every open order consistent |
| `OrderEngine.OrderStoredKeepsConsistency` | app/core/models.py:258 | saving an order's fields keeps consistency unless it reopens a delivered order |
| `OrderEngine.OrderStored` | app/core/models.py:251-258 | saving an order changes only its delivery date and delivered flag; its items and stored total are kept |
| `OrderEngine.PropagateFrom` | app/core/models.py:325-329 | price propagation gives the product's price to exactly the items that reference it, changes no other item field, and changes no order's item set, date or flag |
| `OrderEngine.ProductStored` | app/core/models.py:325-329 | a product save sets the product's price and gives it to exactly the items that reference it; no order changes its item set, date or flag |
| `OrderEngine.PropagateLeavesOthers` | app/core/models.py:325-329 | an order that last() picks for none of the repriced items is left unchanged |
| `OrderEngine.PropagateFreezesDelivered` | app/core/models.py:325-329 | price propagation never changes a delivered order |
| `OrderEngine.PropagateUnreferenced` | app/core/models.py:327 | the receiver changes nothing when no item references the product |
| `OrderEngine.ProductStoredTouchesOnlyLast` | app/core/models.py:325-329 | a product save leaves unchanged every delivered order and every order that last() picks for none of its items |
| `OrderEngine.SavedMatchesOwners` | app/core/models.py:314-316 | when each item has at most one owner, recomputing last() is the same as recomputing every owner |
| `OrderEngine.PropagateMatchesCascade` | app/core/models.py:325-329 | when each item has at most one owner, the as-written propagation equals the corrected one |
| `OrderEngine.ProductStoredKeepsConsistency` | app/core/models.py:325-329 | when each item has at most one owner, a product price change keeps every open order consistent |
| `OrderEngine.StaleTotalAfterPriceChange` | app/core/models.py:325-329 | an item shared by two open orders: after a price change the later-dated order keeps a stale total |
| `OrderEngine.AscendingVisitLeavesStale` | app/core/models.py:327-329 | two items of one product, one of them shared: visiting items in ascending id order leaves an open order at 300 against a live total of 400 |
| `OrderEngine.DescendingVisitSettles` | app/core/models.py:327-329 | the same database visited in descending id order leaves that order at 400, so the outcome depends on the unordered query |
| `OrderEngine.CascadeFrom` | app/core/models.py:325-329 | the corrected loop reprices exactly the items referencing the product that it has yet to reach, and keeps every order's item set, date and flag |
| `OrderEngine.ProductStoredCascading` | app/core/models.py:325-329 | the corrected product save sets the product's price and gives it to exactly the items that reference it; no order changes its item set, date or flag |
| `OrderEngine.CascadeSettles` | app/core/models.py:325-329 | under the corrected propagation, each open order is consistent unless it still holds an item the loop has yet to reach |
| `OrderEngine.ProductStoredCascadingKeepsConsistency` | app/core/models.py:325-329 | the corrected propagation keeps every open order consistent, shared items included |
| `OrderStore.Store.TotalPriceUpdate` | app/core/models.py:293-303 | the stored state becomes `OrderEngine.RecomputeOrder` of the old state, the recompute of order j (frozen if delivered, live total if open) |
| `OrderStore.Store.OrderItemSaved` | app/core/models.py:309-316 | on creation, the item is repriced and saved again, and the nested call finds no owner; then last()'s order is recomputed; returns the in-memory instance |
| `OrderStore.Store.CreateItem` | app/core/models.py:311-313 | a created item is appended with its product's price, and no order changes |
| `OrderStore.Store.SaveItem` | app/core/models.py:314-316 | the row is stored as given and last()'s order is recomputed; the returned instance has the product's price only when an order holds it |
| `OrderStore.Store.SaveItemCascading` | app/core/models.py:314-316 | the state becomes the corrected item save, which recomputes every order holding the item |
| `OrderStore.Store.CreateProduct` | app/core/models.py:325-329 | a new product is appended and its receiver changes nothing |
| `OrderStore.Store.SaveProduct` | app/core/models.py:325-329 | the state becomes the price update followed by the as-written propagation |
| `OrderStore.Store.ProductSaved` | app/core/models.py:326-329 | the loop over the items referencing the product produces PropagateFrom of the old state |
| `OrderStore.Store.RecomputeOwners` | app/core/models.py:316 | the state becomes `OrderEngine.OwnersRecomputed` of the old state: every order holding the item is recomputed (used by the corrected propagation and the corrected item save) |
| `OrderStore.Store.SaveProductCascading` | app/core/models.py:325-329 | the state becomes the corrected propagation |
| `OrderStore.Store.CreateOrder` | app/core/models.py:246-265 | a new order starts with no items and total 0, and no receiver runs |
| `OrderStore.Store.SaveOrder` | app/core/models.py:251-258 | only the order's delivery date and delivered flag change |
| `OrderStore.Store.AddItems` | app/core/models.py:319-322 | the state becomes ItemsAdded of the old one: the order holds the union and an open order's total is the live total over it (ItemsAdded) |
| `OrderStore.Store.RemoveItems` | app/core/models.py:319-322 | the state becomes ItemsRemoved of the old one: the order holds the difference and an open order's total is the live total over it (ItemsRemoved) |
| `OrderStore.Store.ClearItems` | app/core/models.py:319-322 | the state becomes ItemsCleared of the old one: the order holds no items and an open order's total is zero (ItemsClearedTotal) |
| `OrderStore.Store.SetItems` | app/core/models.py:319-322 | the state becomes ItemsSet of the old one: the order holds exactly ks and an open order's total is the live total over ks (ItemsSet) |
| `Users.CreateUser` | app/core/models.py:12-20 | creation fails with MissingEmail exactly when the email is None or empty; otherwise the user has the normalised email and the given names |
| `Users.FullName` | app/core/models.py:50-53 | the full name is the first name, one space, then the last name |
| `Users.Upper` | app/core/models.py:129 | upper-casing keeps the length and maps each character on its own |
| `Users.FullNameSplitsBack` | app/core/models.py:50-53 | the full name is the first name, one space, then the last name: splitting at the first space recovers both when the first name has no space |
| `Users.UpperAppend` | app/core/models.py:129 | upper-casing distributes over concatenation |
| `Users.UpperIdempotent` | app/core/models.py:129 | upper-casing twice is upper-casing once |
| `Users.AddressText` | app/core/models.py:128-129 | fails exactly when the district or the neighbourhood is missing (the district is checked first) |
| `Users.AddressTextIsUpperOfJoined` | app/core/tests/test_models.py:50-52 | an address's text is the upper case of "district neighbourhood extra", and is already upper case |

## Left out

- Persistence, queries and signal dispatch are not modelled. Saves, `all()` and `last()` become synchronous operations on in-memory tables, and the receivers become method calls.
- Float arithmetic is not modelled. Prices, quantities and totals are integers, because rounding plays no part in the logic.
- `MinValueValidator` runs only at form or serializer validation, so quantities may be negative. Only `LiveTotalNonNegative` assumes non-negative values.
- `normalize_email`, `set_password` and password hashing are framework code. `Users.CreateUser` takes normalisation as a parameter and leaves the password out.
- `create_superuser`, `get_short_name`, `get_full_address` and the other `__str__` methods are not modelled. They have no rule beyond field access.
- The views, serializers, URL routing and admin are not modelled. They are generic CRUD wiring.
- The fields `received_money`, `remaining_debt`, `service_fee`, `is_paid`, `payment_method`, `nick`, `notes` and the Instagram fields are not modelled, because nothing computes them.
- Concurrent requests racing on `total_price` are not modelled (concurrency is out of scope).
- `total_price_update` saves the in-memory order as a whole, and a stale in-memory copy could overwrite other fields. The model writes only the total.
- Changing an order's items from the item side (`item.order_item.add(order)`) is not modelled. In the source it passes an `OrderItem` to a receiver that calls `total_price_update` on it.
- The debug `print` calls are not modelled.
- Hard deletion of an item or a product is not modelled. Deleting a product cascades to its items (`on_delete=CASCADE`), and deleting an item removes its join rows without any `m2m_changed` signal. No `post_delete` receiver exists, so an open order that held a deleted item keeps a stale total. The model has no delete operation and promises nothing about it.
- `OrderStore.Store.CreateOrder`, `OrderStore.Store.SaveOrder`: writing `total_price` directly is not modelled. The source lets `Order.objects.create` and `save` store any total; `CreateOrder` always starts at 0 and `SaveOrder` writes only the date and the delivered flag. A directly written total on an open order is inconsistent until the next recompute.
- `OrderEngine.PropagateFrom`: the product receiver's query (`orderitem_set.all()`) has no ordering, so the database may hand over the items in any order. The model visits them in ascending id order. When items are shared between orders, the final totals depend on that order (`AscendingVisitLeavesStale`, `DescendingVisitSettles`), so `ProductStored`, `Store.SaveProduct` and `Store.ProductSaved` describe one of the outcomes the source allows. The item prices and the single-owner consistency result do not depend on the order.
- `OrderEngine.LastOwner`: among orders with equal delivery dates, the database may return any of them. The model fixes the smallest id.
- `Users.Upper` maps only the ASCII small letters, the Latin-1 small letters `à` to `þ` (U+00E0 to U+00FE, except `÷`) and the Turkish dotless i, g with breve and s with cedilla. Python's `str.upper` covers all of Unicode: it also maps `ÿ` (U+00FF) to `Ÿ` (U+0178) and `µ` (U+00B5) to `Μ` (U+039C), and expands `ß` to `SS`. Those cases and the rest of Unicode are not modelled.

## Findings

| source | as written | input that shows it | evidently intended | confidence | as-written member | corrected member |
|---|---|---|---|---|---|---|
| app/core/models.py:325-329 | a product price change recomputes only the `last()` order of each repriced item | product priced 100 → 200; one item of quantity 1 held by two open orders with delivery dates 1 and 2; the order dated 2 keeps total 100 while its items are worth 200 | every open order holding a repriced item is recomputed | medium (the relation is many-to-many but used as one-to-many in practice); not executed | `OrderEngine.StaleTotalAfterPriceChange` | `OrderEngine.ProductStoredCascadingKeepsConsistency` |
| app/core/models.py:314-316 | an item save recomputes only the `last()` order of the saved item | one item of price 100 and quantity 1 held by two open orders dated 1 and 2, saved with quantity 2: the order dated 2 keeps total 100 while its items are worth 200 | every open order holding the saved item is recomputed | medium (as above); not executed | `OrderEngine.StaleTotalAfterItemSave` | `OrderEngine.ItemStoredCascadingKeepsConsistency` |

`Store.SaveProduct` and `Store.SaveItem` model the code as written. `Store.SaveProductCascading` and `Store.SaveItemCascading` are the corrected operations. When every item belongs to at most one order, the two coincide (`PropagateMatchesCascade`).
