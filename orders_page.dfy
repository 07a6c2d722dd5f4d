/** The order-history page: each card's status badge and item count, the
    grouping of orders by calendar day, the summary statistics, and re-ordering
    a past order into the cart. The locale date formatting is abstracted as a
    function `dateKey` from an order to its day label. */
module OrdersPage {
  import opened Util
  import opened Text
  import opened CartStore
  import opened OrderStore
  import ToastStore

  datatype Icon = CheckCircle | ChefHat | Package | Truck | Clock

  datatype StatusBadge = StatusBadge(icon: Icon, style: string, caption: string)

  /** `statusConfig[status]` with the card's fallbacks: the Clock icon, a grey
      style and the raw status as its caption. */
  function Badge(status: string): (r: StatusBadge)
    ensures status !in {"confirmed", "preparing", "ready", "delivered"} ==>
      r == StatusBadge(Clock, "text-gray-500 bg-gray-50", status)
    ensures status in {"confirmed", "preparing", "ready", "delivered"} ==> r.icon != Clock
    ensures status == "confirmed" ==> r == StatusBadge(CheckCircle, "text-green-500 bg-green-50", "Confirmed")
    ensures status == "preparing" ==> r == StatusBadge(ChefHat, "text-orange-500 bg-orange-50", "Preparing")
    ensures status == "ready" ==> r == StatusBadge(Package, "text-blue-500 bg-blue-50", "Ready")
    ensures status == "delivered" ==> r == StatusBadge(Truck, "text-primary-500 bg-primary-50", "Delivered")
  {
    if status == "confirmed" then StatusBadge(CheckCircle, "text-green-500 bg-green-50", "Confirmed")
    else if status == "preparing" then StatusBadge(ChefHat, "text-orange-500 bg-orange-50", "Preparing")
    else if status == "ready" then StatusBadge(Package, "text-blue-500 bg-blue-50", "Ready")
    else if status == "delivered" then StatusBadge(Truck, "text-primary-500 bg-primary-50", "Delivered")
    else StatusBadge(Clock, "text-gray-500 bg-gray-50", status)
  }

  /** A card's item count: the sum of its lines' quantities. */
  function ItemCount(items: seq<OrderItem>): int {
    if items == [] then 0 else items[0].quantity + ItemCount(items[1..])
  }

  /** The "Items" statistic: the item counts of all orders, added up. */
  function TotalUnits(orders: seq<Order>): int {
    if orders == [] then 0 else ItemCount(orders[0].items) + TotalUnits(orders[1..])
  }

  /** The "Total Spent" statistic: the order totals, added up. */
  function TotalSpent(orders: seq<Order>): int {
    if orders == [] then 0 else orders[0].total + TotalSpent(orders[1..])
  }

  /** The statistics are additive over any split of the order list. */
  lemma {:induction false} StatsConcat(a: seq<Order>, b: seq<Order>)
    ensures TotalUnits(a + b) == TotalUnits(a) + TotalUnits(b)
    ensures TotalSpent(a + b) == TotalSpent(a) + TotalSpent(b)
  {
    if a == [] {
      assert a + b == b;
    } else {
      assert (a + b)[0] == a[0];
      assert (a + b)[1..] == a[1..] + b;
      StatsConcat(a[1..], b);
    }
  }

  /** Placing an order adds one to the order count, its item count to the
      units and its total to the amount spent. */
  lemma StatsAfterAddOrder(orders: seq<Order>, d: OrderDraft, id: int, date: string)
    ensures var after := [Stamp(d, id, date)] + orders;
      |after| == |orders| + 1
      && TotalUnits(after) == TotalUnits(orders) + ItemCount(d.items)
      && TotalSpent(after) == TotalSpent(orders) + d.total
  {
    StatsConcat([Stamp(d, id, date)], orders);
  }

  // ---------------------------------------------------------------------------
  // Grouping by day

  /** The orders carrying the day label `key`, in list order. */
  function Group(orders: seq<Order>, dateKey: Order -> string, key: string): seq<Order> {
    Filter(orders, (o: Order) => dateKey(o) == key)
  }

  /** The day labels in order of first appearance: `Object.entries` of the
      grouped orders lists its keys in the order they were inserted. */
  function DayKeys(orders: seq<Order>, dateKey: Order -> string): seq<string>
    decreases |orders|
  {
    if orders == [] then []
    else
      var r := DayKeys(orders[..|orders| - 1], dateKey);
      var key := dateKey(orders[|orders| - 1]);
      if key in r then r else r + [key]
  }

  /** The day labels are exactly the days of the orders, each listed once. */
  lemma {:induction false} DayKeysSpec(orders: seq<Order>, dateKey: Order -> string)
    ensures NoDup(DayKeys(orders, dateKey))
    ensures forall k :: k in DayKeys(orders, dateKey) <==> exists o :: o in orders && dateKey(o) == k
    decreases |orders|
  {
    if orders != [] {
      var prefix := orders[..|orders| - 1];
      var last := orders[|orders| - 1];
      DayKeysSpec(prefix, dateKey);
      assert orders == prefix + [last];
      var r := DayKeys(prefix, dateKey);
      if dateKey(last) !in r {
        var f := r + [dateKey(last)];
        forall i, j | 0 <= i < j < |f| ensures f[i] != f[j] {
          if j == |f| - 1 { assert f[i] in r; }
        }
      }
    }
  }

  /** Every order lies in exactly one group: the one for its own day. */
  lemma EachOrderInOneGroup(orders: seq<Order>, dateKey: Order -> string, o: Order, key: string)
    requires o in orders
    ensures dateKey(o) in DayKeys(orders, dateKey)
    ensures o in Group(orders, dateKey, key) <==> key == dateKey(o)
  {
    DayKeysSpec(orders, dateKey);
  }

  /** The groups together hold each order exactly as often as the list does. */
  lemma GroupsPartition(orders: seq<Order>, dateKey: Order -> string, o: Order)
    ensures multiset(Group(orders, dateKey, dateKey(o)))[o] == multiset(orders)[o]
    ensures forall k :: k != dateKey(o) ==> o !in Group(orders, dateKey, k)
  {
  }

  /** Appending one order extends its own group by it and leaves the others. */
  lemma GroupAppend(prefix: seq<Order>, o: Order, dateKey: Order -> string, k: string)
    ensures Group(prefix + [o], dateKey, k) == Group(prefix, dateKey, k) + (if dateKey(o) == k then [o] else [])
  {
    FilterConcat(prefix, [o], (x: Order) => dateKey(x) == k);
  }

  /** Appending one order adds its day label to the keys when the label is new. */
  lemma DayKeysAppend(prefix: seq<Order>, o: Order, dateKey: Order -> string)
    ensures DayKeys(prefix + [o], dateKey) ==
      if dateKey(o) in DayKeys(prefix, dateKey) then DayKeys(prefix, dateKey) else DayKeys(prefix, dateKey) + [dateKey(o)]
  {
    var all := prefix + [o];
    assert all[..|all| - 1] == prefix;
  }

  /** `keys` and `groups` hold the grouping of `orders`: the day labels in
      order of first appearance, and for each label its orders in list order. */
  ghost predicate GroupedAs(orders: seq<Order>, dateKey: Order -> string, keys: seq<string>, groups: map<string, seq<Order>>) {
    keys == DayKeys(orders, dateKey)
    && (forall k :: k in groups <==> k in keys)
    && forall k :: k in groups ==> groups[k] == Group(orders, dateKey, k)
  }

  /** Appending an order to its day's list, opened empty when its day is new,
      keeps every list equal to its group. */
  lemma GroupsStep(prefix: seq<Order>, o: Order, dateKey: Order -> string, groups: map<string, seq<Order>>)
    requires forall k :: k in groups ==> groups[k] == Group(prefix, dateKey, k)
    requires dateKey(o) !in groups ==> Group(prefix, dateKey, dateKey(o)) == []
    ensures var key := dateKey(o);
      var groups' := groups[key := (if key in groups then groups[key] else []) + [o]];
      forall k :: k in groups' ==> groups'[k] == Group(prefix + [o], dateKey, k)
  {
    var key := dateKey(o);
    var groups' := groups[key := (if key in groups then groups[key] else []) + [o]];
    forall k | k in groups' ensures groups'[k] == Group(prefix + [o], dateKey, k) {
      GroupAppend(prefix, o, dateKey, k);
    }
  }

  /** One step of the reduce keeps the grouping exact. */
  lemma GroupedStep(prefix: seq<Order>, o: Order, dateKey: Order -> string, keys: seq<string>, groups: map<string, seq<Order>>)
    requires GroupedAs(prefix, dateKey, keys, groups)
    ensures var key := dateKey(o);
      GroupedAs(prefix + [o], dateKey,
        if key in groups then keys else keys + [key],
        groups[key := (if key in groups then groups[key] else []) + [o]])
  {
    var key := dateKey(o);
    DayKeysAppend(prefix, o, dateKey);
    if key !in groups {
      DayKeysSpec(prefix, dateKey);
      assert Group(prefix, dateKey, key) == [];
    }
    GroupsStep(prefix, o, dateKey, groups);
  }

  /** The `groupedOrders` reduce: one pass that appends every order to the
      list for its day label, opening a list the first time a label is seen. */
  method GroupByDate(orders: seq<Order>, dateKey: Order -> string)
    returns (keys: seq<string>, groups: map<string, seq<Order>>)
    ensures keys == DayKeys(orders, dateKey)
    ensures forall k :: k in groups <==> k in keys
    ensures forall k :: k in groups ==> groups[k] == Group(orders, dateKey, k)
  {
    keys, groups := [], map[];
    var i := 0;
    while i < |orders|
      invariant 0 <= i <= |orders|
      invariant GroupedAs(orders[..i], dateKey, keys, groups)
    {
      var o := orders[i];
      var key := dateKey(o);
      assert orders[..i + 1] == orders[..i] + [o];
      GroupedStep(orders[..i], o, dateKey, keys, groups);
      var current := if key in groups then groups[key] else [];
      if key !in groups {
        keys := keys + [key];
      }
      groups := groups[key := current + [o]];
      i := i + 1;
    }
    assert orders[..i] == orders;
  }

  // ---------------------------------------------------------------------------
  // Re-ordering

  /** How many units of `id` re-ordering `items` adds: each line loops
      `quantity` times, so a line with quantity zero or less adds none. */
  function ReorderUnits(items: seq<OrderItem>, id: int): int
    decreases |items|
  {
    if items == [] then 0
    else
      var last := items[|items| - 1];
      ReorderUnits(items[..|items| - 1], id) + (if last.id == id && last.quantity > 0 then last.quantity else 0)
  }

  /** The units of a line the inner loop adds: its quantity, or none when
      that is zero or less. */
  function LoopCount(item: OrderItem): nat {
    if item.quantity > 0 then item.quantity else 0
  }

  /** The cart lines after re-ordering `items`: for each line in order,
      `addItem` of that order line as often as the inner loop runs. */
  function Reordered(lines: seq<CartLine>, items: seq<OrderItem>): seq<CartLine>
    decreases |items|
  {
    if items == [] then lines
    else
      var last := items[|items| - 1];
      AddedTimes(Reordered(lines, items[..|items| - 1]), FromOrder(last), LoopCount(last))
  }

  lemma {:induction false} AddedTimesQuantity(lines: seq<CartLine>, p: Product, n: nat, id: int)
    ensures Quantity(AddedTimes(lines, p, n), id) == Quantity(lines, id) + (if id == p.Id() then n else 0)
  {
    if n > 0 {
      AddedTimesQuantity(lines, p, n - 1, id);
      AddedQuantity(AddedTimes(lines, p, n - 1), p, id);
    }
  }

  /** Re-ordering raises every id's quantity by the units the order holds of it. */
  lemma {:induction false} ReorderedQuantity(lines: seq<CartLine>, items: seq<OrderItem>, id: int)
    ensures Quantity(Reordered(lines, items), id) == Quantity(lines, id) + ReorderUnits(items, id)
    decreases |items|
  {
    if items != [] {
      var init, last := items[..|items| - 1], items[|items| - 1];
      ReorderedQuantity(lines, init, id);
      AddedTimesQuantity(Reordered(lines, init), FromOrder(last), LoopCount(last), id);
    }
  }

  /** Re-ordering keeps the cart well formed. */
  lemma {:induction false} ReorderedWellFormed(lines: seq<CartLine>, items: seq<OrderItem>)
    requires WellFormed(lines)
    ensures WellFormed(Reordered(lines, items))
    decreases |items|
  {
    if items != [] {
      var init, last := items[..|items| - 1], items[|items| - 1];
      ReorderedWellFormed(lines, init);
      AddedTimesSpec(Reordered(lines, init), FromOrder(last), LoopCount(last), last.id);
    }
  }

  /** `handleReorder(order)`: `addItem` once per unit of every line, then a toast. */
  method HandleReorder(order: Order, cart: Cart, toasts: ToastStore.Toasts, now: int)
    modifies cart, toasts
    ensures cart.items == Reordered(old(cart.items), order.items)
    ensures forall id :: Quantity(cart.items, id) == Quantity(old(cart.items), id) + ReorderUnits(order.items, id)
    ensures old(cart.Valid()) ==> cart.Valid()
    ensures toasts.toasts == ToastStore.Raised(old(toasts.toasts), now,
      Decimal(|order.items|) + " items added to cart", Some(ToastStore.Success))
  {
    var items := order.items;
    var n := 0;
    while n < |items|
      invariant 0 <= n <= |items|
      invariant cart.items == Reordered(old(cart.items), items[..n])
      invariant old(cart.Valid()) ==> cart.Valid()
      invariant toasts.toasts == old(toasts.toasts)
    {
      var item := items[n];
      var before := cart.items;
      var j := 0;
      while j < item.quantity
        invariant 0 <= j <= LoopCount(item)
        invariant cart.items == AddedTimes(before, FromOrder(item), j)
        invariant old(cart.Valid()) ==> cart.Valid()
        invariant toasts.toasts == old(toasts.toasts)
      {
        cart.AddItem(FromOrder(item));
        j := j + 1;
      }
      assert j == LoopCount(item);
      assert items[..n + 1][..n] == items[..n] && items[..n + 1][n] == item;
      n := n + 1;
    }
    assert items[..n] == items;
    forall id ensures Quantity(cart.items, id) == Quantity(old(cart.items), id) + ReorderUnits(items, id) {
      ReorderedQuantity(old(cart.items), items, id);
    }
    toasts.AddToast(Decimal(|items|) + " items added to cart", Some(ToastStore.Success), now);
  }
}
