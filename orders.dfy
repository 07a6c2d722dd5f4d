/** The order store: the placed orders, newest first. An order's id and date
    come from the clock at the moment it is added; here they are parameters. */
module OrderStore {
  import opened Util
  import opened CartStore

  /** The checkout form as it is stored with an order (`customer: formData`). */
  datatype CustomerForm = CustomerForm(name: string, phone: string, email: string, notes: string, address: string)

  datatype PaymentStatus = Completed | Pending

  /** What the checkout hands to `addOrder`. Only the UPI path supplies a transaction id. */
  datatype OrderDraft = OrderDraft(
    items: seq<OrderItem>, subtotal: int, taxes: int, deliveryFee: int, total: int,
    customer: CustomerForm, paymentMethod: string, paymentStatus: PaymentStatus,
    transactionId: Option<string>)

  /** A stored order: the draft plus the id, date and status `addOrder` stamps on it. */
  datatype Order = Order(
    id: int, date: string, status: string,
    items: seq<OrderItem>, subtotal: int, taxes: int, deliveryFee: int, total: int,
    customer: CustomerForm, paymentMethod: string, paymentStatus: PaymentStatus,
    transactionId: Option<string>)

  const Confirmed := "confirmed"

  /** `{ ...order, id: Date.now(), date: new Date().toISOString(), status: 'confirmed' }`. */
  function Stamp(d: OrderDraft, id: int, date: string): (o: Order)
    ensures o.id == id && o.date == date && o.status == Confirmed
    ensures Unstamp(o) == d
  {
    Order(id, date, Confirmed, d.items, d.subtotal, d.taxes, d.deliveryFee, d.total,
          d.customer, d.paymentMethod, d.paymentStatus, d.transactionId)
  }

  /** The draft an order was made from: everything but id, date and status. */
  function Unstamp(o: Order): OrderDraft {
    OrderDraft(o.items, o.subtotal, o.taxes, o.deliveryFee, o.total,
               o.customer, o.paymentMethod, o.paymentStatus, o.transactionId)
  }

  /** `getOrderById(orderId)`: the first (newest) order with that id. */
  function OrderById(orders: seq<Order>, orderId: int): (r: Option<Order>)
    ensures r.None? <==> forall o :: o in orders ==> o.id != orderId
    ensures r.Some? ==> r.value in orders && r.value.id == orderId
  {
    Find(orders, (o: Order) => o.id == orderId)
  }

  function Ids(orders: seq<Order>): seq<int> {
    seq(|orders|, i requires 0 <= i < |orders| => orders[i].id)
  }

  /** The order just added is what `getOrderById` returns for its id; every
      other id finds what it found before. */
  lemma AddedOrderLookup(orders: seq<Order>, o: Order, orderId: int)
    ensures OrderById([o] + orders, orderId) ==
      if orderId == o.id then Some(o) else OrderById(orders, orderId)
  {
    assert ([o] + orders)[0] == o;
    assert ([o] + orders)[1..] == orders;
  }

  /** An id that is new to the store keeps the ids duplicate-free. */
  lemma FreshIdKeepsIdsUnique(orders: seq<Order>, o: Order)
    requires NoDup(Ids(orders)) && o.id !in Ids(orders)
    ensures NoDup(Ids([o] + orders))
  {
    var ids := Ids([o] + orders);
    assert ids == [o.id] + Ids(orders);
  }

  /** Two orders added in the same millisecond share an id, and the older one
      can no longer be found by `getOrderById`. */
  lemma SameIdShadowsOlder(orders: seq<Order>, older: Order, newer: Order)
    requires older in orders && newer.id == older.id && newer != older
    ensures OrderById([newer] + orders, older.id) != Some(older)
    ensures !NoDup(Ids([newer] + orders))
  {
    AddedOrderLookup(orders, newer, older.id);
    var k :| 0 <= k < |orders| && orders[k] == older;
    assert Ids([newer] + orders)[0] == Ids([newer] + orders)[k + 1];
  }

  class Orders {
    var orders: seq<Order>

    constructor()
      ensures orders == []
    {
      orders := [];
    }

    /** `addOrder(order)`: stamps the draft, puts it first and returns it. */
    method AddOrder(d: OrderDraft, id: int, date: string) returns (o: Order)
      modifies this
      ensures o == Stamp(d, id, date)
      ensures orders == [o] + old(orders)
    {
      o := Stamp(d, id, date);
      orders := [o] + orders;
    }
  }
}
