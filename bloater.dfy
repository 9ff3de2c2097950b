/**
 * The bloater refactoring: `BloatedOrder`, which keeps the items, the total and
 * three stage flags in one class, and the split `Order` whose statuses are
 * moved by `OrderProcessor` and `ShipmentManager`. Console lines become the
 * returned `line`.
 */
module Bloater {
  import opened JavaList

  const PROCESS_REFUSED := "Order cannot be processed because it is not paid yet."
  const PROCESSING := "Processing order..."
  const SHIP_REFUSED := "Order cannot be shipped because it is not paid yet."
  const ALREADY_SHIPPED := "Order is already shipped."
  const SHIPPING := "Shipping order..."
  const DELIVER_REFUSED := "Order cannot be delivered because it is not shipped yet."
  const ALREADY_DELIVERED := "Order is already delivered."
  const DELIVERING := "Delivering order..."

  /** The flags of a `BloatedOrder`: (isPaid, isShipped, isDelivered). */
  type Flags = (bool, bool, bool)

  /** Delivered implies shipped implies paid. */
  predicate Ordered(f: Flags)
  {
    (f.2 ==> f.1) && (f.1 ==> f.0)
  }

  /** The flags after `shipOrder`: shipped once paid, nothing else moves. */
  function ShipFlags(f: Flags): (r: Flags)
    ensures r.0 == f.0 && r.2 == f.2
    ensures r.1 <==> f.1 || f.0
  {
    if !f.0 || f.1 then f else (f.0, true, f.2)
  }

  /** The flags after `deliverOrder`: delivered once shipped, nothing else moves. */
  function DeliverFlags(f: Flags): (r: Flags)
    ensures r.0 == f.0 && r.1 == f.1
    ensures r.2 <==> f.2 || f.1
  {
    if !f.1 || f.2 then f else (f.0, f.1, true)
  }

  /** The calls that change the flags of a `BloatedOrder`. */
  datatype FlagCall = SetPaid(paid: bool) | SetShipped(shipped: bool) | SetDelivered(delivered: bool) | ShipCall | DeliverCall

  function After(f: Flags, calls: seq<FlagCall>): Flags
    decreases |calls|
  {
    if calls == [] then f
    else
      var g := match calls[0]
        case SetPaid(b) => (b, f.1, f.2)
        case SetShipped(b) => (f.0, b, f.2)
        case SetDelivered(b) => (f.0, f.1, b)
        case ShipCall => ShipFlags(f)
        case DeliverCall => DeliverFlags(f);
      After(g, calls[1..])
  }

  /** Paying, shipping and delivering through the guarded methods. */
  predicate Guarded(c: FlagCall)
  {
    c == SetPaid(true) || c == ShipCall || c == DeliverCall
  }

  /** As long as the flags move only by paying and the two guarded methods, they stay ordered. */
  lemma {:induction false} GuardedCallsKeepOrder(f: Flags, calls: seq<FlagCall>)
    requires Ordered(f)
    requires forall i :: 0 <= i < |calls| ==> Guarded(calls[i])
    ensures Ordered(After(f, calls))
    decreases |calls|
  {
    if calls != [] {
      var g := match calls[0]
        case SetPaid(b) => (b, f.1, f.2)
        case SetShipped(b) => (f.0, b, f.2)
        case SetDelivered(b) => (f.0, f.1, b)
        case ShipCall => ShipFlags(f)
        case DeliverCall => DeliverFlags(f);
      assert Guarded(calls[0]);
      assert Ordered(g);
      GuardedCallsKeepOrder(g, calls[1..]);
    }
  }

  /** The public setters bypass the guards: a fresh order can be delivered without being shipped or paid. */
  lemma SettersBreakOrder()
    ensures Ordered((false, false, false))
    ensures After((false, false, false), [SetDelivered(true)]) == (false, false, true)
    ensures After((false, false, false), [SetPaid(true), ShipCall, SetPaid(false)]) == (false, true, false)
  {
    assert [SetPaid(true), ShipCall, SetPaid(false)][1..] == [ShipCall, SetPaid(false)];
    assert [ShipCall, SetPaid(false)][1..] == [SetPaid(false)];
  }

  /** `BloatedOrder`: every responsibility in one class. */
  class BloatedOrder {
    const orderId: string
    const customerName: string
    const customerAddress: string
    /** The caller's list object itself, not a copy. */
    const items: JList<string>
    var totalAmount: real
    var isPaid: bool
    var isShipped: bool
    var isDelivered: bool

    function Flags(): Flags
      reads this
    {
      (isPaid, isShipped, isDelivered)
    }

    constructor (orderId: string, customerName: string, customerAddress: string, items: JList<string>, totalAmount: real)
      ensures this.orderId == orderId && this.customerName == customerName && this.customerAddress == customerAddress
      ensures this.items == items && this.totalAmount == totalAmount
      ensures Flags() == (false, false, false)
    {
      this.orderId := orderId;
      this.customerName := customerName;
      this.customerAddress := customerAddress;
      this.items := items;
      this.totalAmount := totalAmount;
      isPaid, isShipped, isDelivered := false, false, false;
    }

    method SetPaid(paid: bool)
      modifies this
      ensures Flags() == (paid, old(isShipped), old(isDelivered)) && totalAmount == old(totalAmount)
    {
      isPaid := paid;
    }

    method SetShipped(shipped: bool)
      modifies this
      ensures Flags() == (old(isPaid), shipped, old(isDelivered)) && totalAmount == old(totalAmount)
    {
      isShipped := shipped;
    }

    method SetDelivered(delivered: bool)
      modifies this
      ensures Flags() == (old(isPaid), old(isShipped), delivered) && totalAmount == old(totalAmount)
    {
      isDelivered := delivered;
    }

    /** `addItem`: appends to the shared list and adds the price. */
    method AddItem(item: string, price: real)
      modifies this, items
      ensures items.elems == old(items.elems) + [item]
      ensures totalAmount == old(totalAmount) + price && Flags() == old(Flags())
    {
      items.Add(item);
      totalAmount := totalAmount + price;
    }

    /** `removeItem`: removes the first equal item if any, and subtracts the price in every case. */
    method RemoveItem(item: string, price: real)
      modifies this, items
      ensures items.elems == RemoveFirst(old(items.elems), item)
      ensures totalAmount == old(totalAmount) - price && Flags() == old(Flags())
    {
      var _ := items.Remove(item);
      totalAmount := totalAmount - price;
    }

    /** `processOrder`: refuses an unpaid order; changes nothing either way. */
    method ProcessOrder() returns (line: string)
      ensures line == PROCESSING <==> isPaid
      ensures line == PROCESS_REFUSED <==> !isPaid
    {
      if !isPaid {
        return PROCESS_REFUSED;
      }
      line := PROCESSING;
    }

    /** `shipOrder`: sets `isShipped` only for a paid order not yet shipped. */
    method ShipOrder() returns (line: string)
      modifies this
      ensures Flags() == ShipFlags(old(Flags())) && totalAmount == old(totalAmount)
      ensures line == SHIP_REFUSED <==> !old(isPaid)
      ensures line == ALREADY_SHIPPED <==> old(isPaid) && old(isShipped)
      ensures line == SHIPPING <==> old(isPaid) && !old(isShipped)
    {
      if !isPaid {
        return SHIP_REFUSED;
      }
      if isShipped {
        return ALREADY_SHIPPED;
      }
      line := SHIPPING;
      SetShipped(true);
    }

    /** `deliverOrder`: sets `isDelivered` only for a shipped order not yet delivered. */
    method DeliverOrder() returns (line: string)
      modifies this
      ensures Flags() == DeliverFlags(old(Flags())) && totalAmount == old(totalAmount)
      ensures line == DELIVER_REFUSED <==> !old(isShipped)
      ensures line == ALREADY_DELIVERED <==> old(isShipped) && old(isDelivered)
      ensures line == DELIVERING <==> old(isShipped) && !old(isDelivered)
    {
      if !isShipped {
        return DELIVER_REFUSED;
      }
      if isDelivered {
        return ALREADY_DELIVERED;
      }
      line := DELIVERING;
      SetDelivered(true);
    }
  }

  /** `removeItem` of an item the order does not hold: the list stays as it was, yet the price is still subtracted. */
  method RemoveAbsentStillCharges(order: BloatedOrder, item: string, price: real)
    requires item !in order.items.elems
    modifies order, order.items
    ensures order.items.elems == old(order.items.elems)
    ensures order.totalAmount == old(order.totalAmount) - price
  {
    order.RemoveItem(item, price);
  }

  /** Adding an item the order does not hold and removing it again restores both the list and the total. */
  method AddRemoveRestores(order: BloatedOrder, item: string, price: real)
    requires item !in order.items.elems
    modifies order, order.items
    ensures order.items.elems == old(order.items.elems)
    ensures order.totalAmount == old(order.totalAmount) && order.Flags() == old(order.Flags())
  {
    order.AddItem(item, price);
    AddThenRemove(old(order.items.elems), item);
    order.RemoveItem(item, price);
  }

  datatype PaymentStatus = PAID | UNPAID
  datatype ShipmentStatus = SHIPPED | NOT_SHIPPED | DELIVERED

  /** `Customer` and `Item` show only their fields; `Item` keeps Java's identity equality. */
  class Customer {
    const name: string
    const address: string

    constructor (name: string, address: string)
      ensures this.name == name && this.address == address
    {
      this.name := name;
      this.address := address;
    }
  }

  class Item {
    const name: string
    const price: real

    constructor (name: string, price: real)
      ensures this.name == name && this.price == price
    {
      this.name := name;
      this.price := price;
    }
  }

  /** The split `Order`: items and two statuses; the managers move the statuses. */
  class Order {
    const orderId: string
    const customer: Customer
    const items: JList<Item>
    var paymentStatus: PaymentStatus
    var shipmentStatus: ShipmentStatus

    constructor (orderId: string, customer: Customer, items: JList<Item>)
      ensures this.orderId == orderId && this.customer == customer && this.items == items
      ensures paymentStatus == UNPAID && shipmentStatus == NOT_SHIPPED
    {
      this.orderId := orderId;
      this.customer := customer;
      this.items := items;
      paymentStatus := UNPAID;
      shipmentStatus := NOT_SHIPPED;
    }

    method AddItem(item: Item)
      modifies items
      ensures items.elems == old(items.elems) + [item]
    {
      items.Add(item);
    }

    /** `removeItem`: the first occurrence of that very object, if it is there. */
    method RemoveItem(item: Item)
      modifies items
      ensures items.elems == RemoveFirst(old(items.elems), item)
    {
      var _ := items.Remove(item);
    }
  }

  /** The shipment status after `ShipmentManager.shipOrder`: only SHIPPED is checked, so DELIVERED goes back. */
  function ShipStatus(p: PaymentStatus, s: ShipmentStatus): (r: ShipmentStatus)
    ensures p == UNPAID ==> r == s
    ensures p == PAID ==> r == SHIPPED
  {
    if p != PAID || s == SHIPPED then s else SHIPPED
  }

  /** The shipment status after `ShipmentManager.deliverOrder`. */
  function DeliverStatus(s: ShipmentStatus): (r: ShipmentStatus)
    ensures r == DELIVERED <==> s != NOT_SHIPPED
    ensures s != SHIPPED ==> r == s
  {
    match s
    case SHIPPED => DELIVERED
    case _ => s
  }

  /** `OrderProcessor.processOrder`: refuses unless PAID and changes nothing. */
  method ProcessOrder(order: Order) returns (line: string)
    ensures line == PROCESSING <==> order.paymentStatus == PAID
    ensures line == PROCESS_REFUSED <==> order.paymentStatus != PAID
  {
    if order.paymentStatus != PAID {
      return PROCESS_REFUSED;
    }
    line := PROCESSING;
  }

  /** `ShipmentManager.shipOrder`. */
  method ShipOrder(order: Order) returns (line: string)
    modifies order
    ensures order.paymentStatus == old(order.paymentStatus)
    ensures order.shipmentStatus == ShipStatus(old(order.paymentStatus), old(order.shipmentStatus))
    ensures line == SHIP_REFUSED <==> old(order.paymentStatus) == UNPAID
    ensures line == ALREADY_SHIPPED <==> old(order.paymentStatus) == PAID && old(order.shipmentStatus) == SHIPPED
    ensures line == SHIPPING <==> old(order.paymentStatus) == PAID && old(order.shipmentStatus) != SHIPPED
  {
    if order.paymentStatus != PAID {
      return SHIP_REFUSED;
    }
    if order.shipmentStatus == SHIPPED {
      return ALREADY_SHIPPED;
    }
    line := SHIPPING;
    order.shipmentStatus := SHIPPED;
  }

  /** `ShipmentManager.deliverOrder`: the "already delivered" line is never produced. */
  method DeliverOrder(order: Order) returns (line: string)
    modifies order
    ensures order.paymentStatus == old(order.paymentStatus)
    ensures order.shipmentStatus == DeliverStatus(old(order.shipmentStatus))
    ensures line == DELIVER_REFUSED <==> old(order.shipmentStatus) != SHIPPED
    ensures line == DELIVERING <==> old(order.shipmentStatus) == SHIPPED
    ensures line != ALREADY_DELIVERED
  {
    if order.shipmentStatus != SHIPPED {
      return DELIVER_REFUSED;
    }
    if order.shipmentStatus == DELIVERED {
      return ALREADY_DELIVERED;
    }
    line := DELIVERING;
    order.shipmentStatus := DELIVERED;
  }

  /** A paid, delivered order that is shipped again goes back to SHIPPED, and can be delivered again. */
  lemma ShippingUndoesDelivery()
    ensures ShipStatus(PAID, DELIVERED) == SHIPPED
    ensures DeliverStatus(ShipStatus(PAID, DELIVERED)) == DELIVERED
  {
  }

  /** The calls of the two managers. */
  datatype ManagerCall = Process | Ship | Deliver

  /** The shipment status after a series of manager calls; nothing changes the payment status. */
  function StatusAfter(p: PaymentStatus, s: ShipmentStatus, calls: seq<ManagerCall>): ShipmentStatus
    decreases |calls|
  {
    if calls == [] then s
    else
      var t := match calls[0]
        case Process => s
        case Ship => ShipStatus(p, s)
        case Deliver => DeliverStatus(s);
      StatusAfter(p, t, calls[1..])
  }

  /** An order as its constructor builds it stays UNPAID and NOT_SHIPPED whatever the managers do. */
  lemma {:induction false} FreshOrderNeverShips(calls: seq<ManagerCall>)
    ensures StatusAfter(UNPAID, NOT_SHIPPED, calls) == NOT_SHIPPED
    decreases |calls|
  {
    if calls != [] {
      FreshOrderNeverShips(calls[1..]);
    }
  }
}
