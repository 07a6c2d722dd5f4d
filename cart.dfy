/** The cart store: a list of lines, each a product spread together with a
    quantity. The store's actions are methods of `Cart`; each is specified by
    a function on the list of lines, and the lemmas below say what those
    functions do to the quantity of every product and to the totals. */
module CartStore {
  import opened Util
  import Menu

  /** A line of a stored order, as the checkout projects it from a cart line. */
  datatype OrderItem = OrderItem(id: int, name: string, price: int, quantity: int, image: string)

  /** The object that was spread into a cart line: a menu item (from the menu,
      the item sheet or the favourites page) or an order line (re-ordering). */
  datatype Product = FromMenu(menuItem: Menu.MenuItem) | FromOrder(orderItem: OrderItem)
  {
    function Id(): int {
      match this
      case FromMenu(m) => m.id
      case FromOrder(o) => o.id
    }
    function Name(): string {
      match this
      case FromMenu(m) => m.name
      case FromOrder(o) => o.name
    }
    function Price(): int {
      match this
      case FromMenu(m) => m.price
      case FromOrder(o) => o.price
    }
    function Image(): string {
      match this
      case FromMenu(m) => m.image
      case FromOrder(o) => o.image
    }
  }

  /** `{ ...item, quantity }`: the line's own `quantity` replaces whatever the
      spread object carried. */
  datatype CartLine = CartLine(product: Product, quantity: int)
  {
    function Id(): int { product.Id() }
  }

  /** The invariant every reachable cart keeps: one line per product id, and
      every quantity at least one. */
  predicate WellFormed(lines: seq<CartLine>) {
    DistinctIds(lines) && forall i :: 0 <= i < |lines| ==> lines[i].quantity > 0
  }

  predicate DistinctIds(lines: seq<CartLine>) {
    forall i, j :: 0 <= i < j < |lines| ==> lines[i].Id() != lines[j].Id()
  }

  /** The position `items.find(i => i.id === id)` finds, or -1. */
  function IndexOf(lines: seq<CartLine>, id: int): (r: int)
    ensures -1 <= r < |lines|
    ensures r >= 0 ==> lines[r].Id() == id && forall j :: 0 <= j < r ==> lines[j].Id() != id
    ensures r < 0 ==> forall j :: 0 <= j < |lines| ==> lines[j].Id() != id
  {
    if lines == [] then -1
    else if lines[0].Id() == id then 0
    else
      var k := IndexOf(lines[1..], id);
      if k < 0 then -1 else k + 1
  }

  /** `getItemQuantity(id)`: the quantity of the first line with that id, or 0. */
  function Quantity(lines: seq<CartLine>, id: int): int {
    var k := IndexOf(lines, id);
    if k < 0 then 0 else lines[k].quantity
  }

  /** `getTotalItems()`: the sum of the quantities. */
  function TotalItems(lines: seq<CartLine>): int {
    if lines == [] then 0 else lines[0].quantity + TotalItems(lines[1..])
  }

  /** `getTotalPrice()`: the sum of price times quantity. */
  function TotalPrice(lines: seq<CartLine>): int {
    if lines == [] then 0 else lines[0].product.Price() * lines[0].quantity + TotalPrice(lines[1..])
  }

  /** `items.map(i => i.id === id ? { ...i, quantity: i.quantity + 1 } : i)`. */
  function Bump(lines: seq<CartLine>, id: int): (r: seq<CartLine>)
    ensures |r| == |lines|
    ensures forall i :: 0 <= i < |lines| ==>
      r[i] == if lines[i].Id() == id then lines[i].(quantity := lines[i].quantity + 1) else lines[i]
  {
    if lines == [] then []
    else
      var head := if lines[0].Id() == id then lines[0].(quantity := lines[0].quantity + 1) else lines[0];
      [head] + Bump(lines[1..], id)
  }

  /** `items.map(i => i.id === id ? { ...i, quantity } : i)`. */
  function SetQuantity(lines: seq<CartLine>, id: int, quantity: int): (r: seq<CartLine>)
    ensures |r| == |lines|
    ensures forall i :: 0 <= i < |lines| ==>
      r[i] == if lines[i].Id() == id then lines[i].(quantity := quantity) else lines[i]
  {
    if lines == [] then []
    else
      var head := if lines[0].Id() == id then lines[0].(quantity := quantity) else lines[0];
      [head] + SetQuantity(lines[1..], id, quantity)
  }

  /** `addItem(item)`: one more of an existing line (which keeps the product
      it was created with), or a new line with quantity 1 at the end. */
  function Added(lines: seq<CartLine>, p: Product): seq<CartLine> {
    if IndexOf(lines, p.Id()) >= 0 then Bump(lines, p.Id()) else lines + [CartLine(p, 1)]
  }

  /** `removeItem(id)`: every line with that id is dropped, the rest keep their order. */
  function Removed(lines: seq<CartLine>, id: int): (r: seq<CartLine>)
    ensures |r| <= |lines|
    ensures forall l :: l in r <==> l in lines && l.Id() != id
    ensures forall l :: multiset(r)[l] == if l.Id() != id then multiset(lines)[l] else 0
    ensures IsSubseq(r, lines)
  {
    if lines == [] then []
    else
      assert lines == [lines[0]] + lines[1..];
      if lines[0].Id() == id then Removed(lines[1..], id)
      else [lines[0]] + Removed(lines[1..], id)
  }

  /** `updateQuantity(id, quantity)`: a quantity of zero or less removes the
      line; otherwise the line with that id (if any) takes the quantity. */
  function Updated(lines: seq<CartLine>, id: int, quantity: int): seq<CartLine> {
    if quantity <= 0 then Removed(lines, id) else SetQuantity(lines, id, quantity)
  }

  /** `incrementQuantity(id)`: `updateQuantity(id, quantity + 1)` when the line exists. */
  function Incremented(lines: seq<CartLine>, id: int): seq<CartLine> {
    var k := IndexOf(lines, id);
    if k < 0 then lines else Updated(lines, id, lines[k].quantity + 1)
  }

  /** `decrementQuantity(id)`: `updateQuantity(id, quantity - 1)` when the line exists. */
  function Decremented(lines: seq<CartLine>, id: int): seq<CartLine> {
    var k := IndexOf(lines, id);
    if k < 0 then lines else Updated(lines, id, lines[k].quantity - 1)
  }

  // ---------------------------------------------------------------------------
  // Quantities

  /** Two carts whose lines carry the same ids position by position find every id at the same place. */
  lemma SameIdsSameIndex(a: seq<CartLine>, b: seq<CartLine>, id: int)
    requires |a| == |b| && forall i :: 0 <= i < |a| ==> a[i].Id() == b[i].Id()
    ensures IndexOf(a, id) == IndexOf(b, id)
  {
  }

  /** Adding a product raises its quantity by one and leaves every other quantity alone. */
  lemma AddedQuantity(lines: seq<CartLine>, p: Product, id: int)
    ensures Quantity(Added(lines, p), id) == Quantity(lines, id) + (if id == p.Id() then 1 else 0)
  {
    var r := Added(lines, p);
    if IndexOf(lines, p.Id()) >= 0 {
      SameIdsSameIndex(r, lines, id);
    } else {
      var k := IndexOf(lines, id);
      if k >= 0 {
        assert r[k].Id() == id;
        assert forall j :: 0 <= j < |lines| ==> r[j] == lines[j];
      } else {
        if id == p.Id() {
          assert r[|lines|].Id() == id;
        }
        assert forall j :: 0 <= j < |lines| ==> r[j] == lines[j];
        if IndexOf(r, id) >= 0 { assert IndexOf(r, id) == |lines|; }
      }
    }
  }

  /** A line appended after lines of other ids adds its own quantity to its id
      and nothing to any other. */
  lemma QuantityAppend(init: seq<CartLine>, last: CartLine, id: int)
    requires forall j :: 0 <= j < |init| ==> init[j].Id() != last.Id()
    ensures Quantity(init + [last], id) == Quantity(init, id) + (if last.Id() == id then last.quantity else 0)
  {
    var all := init + [last];
    var k0 := IndexOf(init, id);
    var k := IndexOf(all, id);
    if k0 >= 0 {
      assert all[k0].Id() == id;
      assert k == k0;
    } else if last.Id() == id {
      assert all[|init|].Id() == id;
      assert k == |init|;
    } else {
      assert forall j :: 0 <= j < |all| ==> all[j].Id() != id;
    }
  }

  /** Removing an id sets its quantity to 0 and leaves every other quantity alone. */
  lemma {:induction false} RemovedQuantity(lines: seq<CartLine>, id: int, x: int)
    ensures Quantity(Removed(lines, id), x) == if x == id then 0 else Quantity(lines, x)
  {
    if lines != [] {
      RemovedQuantity(lines[1..], id, x);
      var h, rest := lines[0], Removed(lines[1..], id);
      if h.Id() != id {
        assert Removed(lines, id) == [h] + rest;
        assert ([h] + rest)[1..] == rest;
      }
    }
  }

  /** `updateQuantity` sets a present line's quantity, removes the line for a
      quantity of zero or less, and never adds a line. */
  lemma UpdatedQuantity(lines: seq<CartLine>, id: int, quantity: int, x: int)
    ensures Quantity(Updated(lines, id, quantity), x) ==
      if x != id then Quantity(lines, x)
      else if quantity <= 0 || IndexOf(lines, id) < 0 then 0
      else quantity
  {
    if quantity <= 0 {
      RemovedQuantity(lines, id, x);
    } else {
      SameIdsSameIndex(SetQuantity(lines, id, quantity), lines, x);
    }
  }

  /** Incrementing raises a present line's quantity by one; an absent id changes nothing. */
  lemma IncrementedQuantity(lines: seq<CartLine>, id: int, x: int)
    requires WellFormed(lines)
    ensures Quantity(Incremented(lines, id), x) ==
      Quantity(lines, x) + (if x == id && IndexOf(lines, id) >= 0 then 1 else 0)
  {
    var k := IndexOf(lines, id);
    if k >= 0 {
      UpdatedQuantity(lines, id, lines[k].quantity + 1, x);
    }
  }

  /** Decrementing lowers a present line's quantity by one, and a line at
      quantity 1 leaves the cart; an absent id changes nothing. */
  lemma DecrementedQuantity(lines: seq<CartLine>, id: int, x: int)
    requires WellFormed(lines)
    ensures Quantity(Decremented(lines, id), x) ==
      Quantity(lines, x) - (if x == id && IndexOf(lines, id) >= 0 then 1 else 0)
    ensures IndexOf(lines, id) >= 0 && Quantity(lines, id) == 1 ==>
      IndexOf(Decremented(lines, id), id) < 0
  {
    var k := IndexOf(lines, id);
    if k >= 0 {
      var q := lines[k].quantity;
      if q == 1 {
        var r := Removed(lines, id);
        assert Decremented(lines, id) == r;
        RemovedQuantity(lines, id, x);
      } else {
        assert Decremented(lines, id) == SetQuantity(lines, id, q - 1);
        SameIdsSameIndex(SetQuantity(lines, id, q - 1), lines, x);
      }
    }
  }


  // ---------------------------------------------------------------------------
  // The invariant

  lemma AddedWellFormed(lines: seq<CartLine>, p: Product)
    requires WellFormed(lines)
    ensures WellFormed(Added(lines, p))
  {
    var r := Added(lines, p);
    if IndexOf(lines, p.Id()) < 0 {
      assert forall j :: 0 <= j < |lines| ==> r[j] == lines[j];
    }
  }

  lemma DistinctTail(lines: seq<CartLine>)
    requires DistinctIds(lines) && lines != []
    ensures DistinctIds(lines[1..])
    ensures forall l :: l in lines[1..] ==> l.Id() != lines[0].Id()
  {
    var tail := lines[1..];
    assert forall j :: 0 <= j < |tail| ==> tail[j] == lines[j + 1];
  }

  lemma DistinctCons(h: CartLine, rest: seq<CartLine>)
    requires DistinctIds(rest) && forall l :: l in rest ==> l.Id() != h.Id()
    ensures DistinctIds([h] + rest)
  {
    var r := [h] + rest;
    forall i, j | 0 <= i < j < |r| ensures r[i].Id() != r[j].Id() {
      assert r[j] == rest[j - 1] && r[j] in rest;
      if i > 0 { assert r[i] == rest[i - 1]; }
    }
  }

  lemma {:induction false} RemovedDistinct(lines: seq<CartLine>, id: int)
    requires DistinctIds(lines)
    ensures DistinctIds(Removed(lines, id))
  {
    if lines != [] {
      DistinctTail(lines);
      RemovedDistinct(lines[1..], id);
      if lines[0].Id() != id {
        DistinctCons(lines[0], Removed(lines[1..], id));
      }
    }
  }

  lemma RemovedWellFormed(lines: seq<CartLine>, id: int)
    requires WellFormed(lines)
    ensures WellFormed(Removed(lines, id))
  {
    RemovedDistinct(lines, id);
    var r := Removed(lines, id);
    forall i | 0 <= i < |r| ensures r[i].quantity > 0 {
      assert r[i] in r;
    }
  }

  lemma UpdatedWellFormed(lines: seq<CartLine>, id: int, quantity: int)
    requires WellFormed(lines)
    ensures WellFormed(Updated(lines, id, quantity))
  {
    if quantity <= 0 {
      RemovedWellFormed(lines, id);
    }
  }

  /** The cart actions the application can perform. */
  datatype CartOp =
    | AddItem(product: Product)
    | RemoveItem(id: int)
    | UpdateQuantity(id: int, quantity: int)
    | IncrementQuantity(id: int)
    | DecrementQuantity(id: int)
    | ClearCart

  function Apply(lines: seq<CartLine>, op: CartOp): seq<CartLine> {
    match op
    case AddItem(p) => Added(lines, p)
    case RemoveItem(id) => Removed(lines, id)
    case UpdateQuantity(id, q) => Updated(lines, id, q)
    case IncrementQuantity(id) => Incremented(lines, id)
    case DecrementQuantity(id) => Decremented(lines, id)
    case ClearCart => []
  }

  function ApplyAll(lines: seq<CartLine>, ops: seq<CartOp>): seq<CartLine>
    decreases |ops|
  {
    if ops == [] then lines else ApplyAll(Apply(lines, ops[0]), ops[1..])
  }

  /** Every action keeps the cart well formed. */
  lemma ApplyWellFormed(lines: seq<CartLine>, op: CartOp)
    requires WellFormed(lines)
    ensures WellFormed(Apply(lines, op))
  {
    match op
    case AddItem(p) => AddedWellFormed(lines, p);
    case RemoveItem(id) => RemovedWellFormed(lines, id);
    case UpdateQuantity(id, q) => UpdatedWellFormed(lines, id, q);
    case IncrementQuantity(id) =>
      var k := IndexOf(lines, id);
      if k >= 0 { UpdatedWellFormed(lines, id, lines[k].quantity + 1); }
    case DecrementQuantity(id) =>
      var k := IndexOf(lines, id);
      if k >= 0 { UpdatedWellFormed(lines, id, lines[k].quantity - 1); }
    case ClearCart =>
  }

  /** Starting from the empty cart, any sequence of actions yields a well-formed cart. */
  lemma {:induction false} ReachableWellFormed(lines: seq<CartLine>, ops: seq<CartOp>)
    requires WellFormed(lines)
    ensures WellFormed(ApplyAll(lines, ops))
    decreases |ops|
  {
    if ops != [] {
      ApplyWellFormed(lines, ops[0]);
      ReachableWellFormed(Apply(lines, ops[0]), ops[1..]);
    }
  }

  // ---------------------------------------------------------------------------
  // Totals

  lemma {:induction false} TotalsConcat(a: seq<CartLine>, b: seq<CartLine>)
    ensures TotalItems(a + b) == TotalItems(a) + TotalItems(b)
    ensures TotalPrice(a + b) == TotalPrice(a) + TotalPrice(b)
  {
    if a == [] {
      assert a + b == b;
    } else {
      assert (a + b)[0] == a[0];
      assert (a + b)[1..] == a[1..] + b;
      TotalsConcat(a[1..], b);
    }
  }

  /** In a well-formed cart every line holds at least one unit, so the item
      count is at least the number of lines and is zero only for the empty cart. */
  lemma {:induction false} TotalItemsBound(lines: seq<CartLine>)
    requires WellFormed(lines)
    ensures TotalItems(lines) >= |lines|
    ensures TotalItems(lines) == 0 <==> lines == []
  {
    if lines != [] {
      assert WellFormed(lines[1..]) by {
        assert forall i :: 0 <= i < |lines[1..]| ==> lines[1..][i] == lines[i + 1];
      }
      TotalItemsBound(lines[1..]);
    }
  }

  /** Bumping an id that no line carries changes nothing. */
  lemma {:induction false} BumpAbsent(lines: seq<CartLine>, id: int)
    requires IndexOf(lines, id) < 0
    ensures Bump(lines, id) == lines
  {
    if lines != [] {
      assert IndexOf(lines[1..], id) < 0 by {
        assert forall j :: 0 <= j < |lines[1..]| ==> lines[1..][j] == lines[j + 1];
      }
      BumpAbsent(lines[1..], id);
    }
  }

  /** Bumping the one line with an id adds one unit and that line's price. */
  lemma {:induction false} BumpTotals(lines: seq<CartLine>, id: int)
    requires WellFormed(lines) && IndexOf(lines, id) >= 0
    ensures TotalItems(Bump(lines, id)) == TotalItems(lines) + 1
    ensures TotalPrice(Bump(lines, id)) == TotalPrice(lines) + lines[IndexOf(lines, id)].product.Price()
  {
    var tail := lines[1..];
    assert forall j :: 0 <= j < |tail| ==> tail[j] == lines[j + 1];
    if lines[0].Id() == id {
      assert IndexOf(tail, id) < 0;
      BumpAbsent(tail, id);
    } else {
      assert WellFormed(tail);
      BumpTotals(tail, id);
    }
  }

  /** Adding a product adds one unit and the unit price of the line it lands on. */
  lemma AddedTotals(lines: seq<CartLine>, p: Product)
    requires WellFormed(lines)
    ensures TotalItems(Added(lines, p)) == TotalItems(lines) + 1
    ensures TotalPrice(Added(lines, p)) == TotalPrice(lines)
      + (var k := IndexOf(lines, p.Id()); if k >= 0 then lines[k].product.Price() else p.Price())
  {
    if IndexOf(lines, p.Id()) >= 0 {
      BumpTotals(lines, p.Id());
    } else {
      TotalsConcat(lines, [CartLine(p, 1)]);
    }
  }

  /** The unit price the cart charges for one more `p`: that of the line
      already holding its id, or its own price for a new line. */
  function UnitPrice(lines: seq<CartLine>, p: Product): int {
    var k := IndexOf(lines, p.Id());
    if k >= 0 then lines[k].product.Price() else p.Price()
  }

  /** Adding a product never changes the unit price of further copies of it. */
  lemma AddedUnitPrice(lines: seq<CartLine>, p: Product)
    ensures UnitPrice(Added(lines, p), p) == UnitPrice(lines, p)
  {
    var r := Added(lines, p);
    var k := IndexOf(lines, p.Id());
    if k >= 0 {
      SameIdsSameIndex(r, lines, p.Id());
    } else {
      assert r[|lines|].Id() == p.Id();
      assert forall j :: 0 <= j < |lines| ==> r[j] == lines[j];
      assert IndexOf(r, p.Id()) == |lines|;
    }
  }

  /** Adding a product `n` times in a row, as a loop over `addItem` does. */
  function AddedTimes(lines: seq<CartLine>, p: Product, n: nat): seq<CartLine> {
    if n == 0 then lines else Added(AddedTimes(lines, p, n - 1), p)
  }

  /** Adding `n` copies raises that id's quantity by `n`, leaves other ids
      alone, keeps the cart well formed, and adds `n` units at one unit price. */
  lemma {:induction false} AddedTimesSpec(lines: seq<CartLine>, p: Product, n: nat, id: int)
    requires WellFormed(lines)
    ensures WellFormed(AddedTimes(lines, p, n))
    ensures Quantity(AddedTimes(lines, p, n), id) == Quantity(lines, id) + (if id == p.Id() then n else 0)
    ensures TotalItems(AddedTimes(lines, p, n)) == TotalItems(lines) + n
    ensures TotalPrice(AddedTimes(lines, p, n)) == TotalPrice(lines) + n * UnitPrice(lines, p)
    ensures UnitPrice(AddedTimes(lines, p, n), p) == UnitPrice(lines, p)
  {
    if n > 0 {
      var before := AddedTimes(lines, p, n - 1);
      AddedTimesSpec(lines, p, n - 1, id);
      AddedWellFormed(before, p);
      AddedQuantity(before, p, id);
      AddedTotals(before, p);
      AddedUnitPrice(before, p);
      assert n * UnitPrice(lines, p) == (n - 1) * UnitPrice(lines, p) + UnitPrice(lines, p);
    }
  }

  /** Removing an id that no line carries changes nothing. */
  lemma {:induction false} RemovedAbsent(lines: seq<CartLine>, id: int)
    requires IndexOf(lines, id) < 0
    ensures Removed(lines, id) == lines
  {
    if lines != [] {
      assert IndexOf(lines[1..], id) < 0 by {
        assert forall j :: 0 <= j < |lines[1..]| ==> lines[1..][j] == lines[j + 1];
      }
      RemovedAbsent(lines[1..], id);
    }
  }

  /** Removing an id takes away exactly that line's units and cost. */
  lemma {:induction false} RemovedTotals(lines: seq<CartLine>, id: int)
    requires WellFormed(lines)
    ensures TotalItems(Removed(lines, id)) == TotalItems(lines) - Quantity(lines, id)
    ensures TotalPrice(Removed(lines, id)) == TotalPrice(lines)
      - (var k := IndexOf(lines, id); if k >= 0 then lines[k].product.Price() * lines[k].quantity else 0)
  {
    if lines != [] {
      var tail := lines[1..];
      assert forall j :: 0 <= j < |tail| ==> tail[j] == lines[j + 1];
      assert WellFormed(tail);
      RemovedTotals(tail, id);
      if lines[0].Id() == id {
        assert IndexOf(tail, id) < 0;
        RemovedAbsent(tail, id);
      } else {
        var rest := Removed(tail, id);
        assert Removed(lines, id) == [lines[0]] + rest;
        assert ([lines[0]] + rest)[1..] == rest;
      }
    }
  }

  // ---------------------------------------------------------------------------
  // The store

  class Cart {
    var items: seq<CartLine>

    ghost predicate Valid()
      reads this
    {
      WellFormed(items)
    }

    constructor()
      ensures items == [] && Valid()
    {
      items := [];
    }

    method AddItem(p: Product)
      modifies this
      ensures items == Added(old(items), p)
      ensures old(Valid()) ==> Valid()
    {
      if old(Valid()) { AddedWellFormed(items, p); }
      items := Added(items, p);
    }

    method RemoveItem(id: int)
      modifies this
      ensures items == Removed(old(items), id)
      ensures old(Valid()) ==> Valid()
    {
      if old(Valid()) { RemovedWellFormed(items, id); }
      items := Removed(items, id);
    }

    method UpdateQuantity(id: int, quantity: int)
      modifies this
      ensures items == Updated(old(items), id, quantity)
      ensures old(Valid()) ==> Valid()
    {
      if old(Valid()) { UpdatedWellFormed(items, id, quantity); }
      if quantity <= 0 {
        RemoveItem(id);
        return;
      }
      items := SetQuantity(items, id, quantity);
    }

    method IncrementQuantity(id: int)
      modifies this
      ensures items == Incremented(old(items), id)
      ensures old(Valid()) ==> Valid()
    {
      var k := IndexOf(items, id);
      if k >= 0 {
        UpdateQuantity(id, items[k].quantity + 1);
      }
    }

    method DecrementQuantity(id: int)
      modifies this
      ensures items == Decremented(old(items), id)
      ensures old(Valid()) ==> Valid()
    {
      var k := IndexOf(items, id);
      if k >= 0 {
        UpdateQuantity(id, items[k].quantity - 1);
      }
    }

    method ClearCart()
      modifies this
      ensures items == [] && Valid()
    {
      items := [];
    }
  }
}
