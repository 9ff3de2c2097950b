/**
 * The order lifecycle of the shotgun-surgery refactoring: the enum-driven `Order`
 * with `OrderService.updateOrder` and `EmailService.sendStatusUpdate`, and the
 * original `ShotgunOrder` that keeps one boolean flag per stage. The database
 * and the mailer are static calls with no result; here each call becomes an
 * `Effect` appended to an `Outbox`.
 */
module ShotgunSurgery {
  import opened Common

  datatype OrderStatus = NEW | PAID | SHIPPED | DELIVERED

  /** A call into `Database` or `EmailService`, with its arguments. */
  datatype Effect =
    | StatusWritten(orderId: string, status: string)
    | PaymentConfirmation(customerName: string, orderId: string)
    | ShippingConfirmation(customerName: string, orderId: string)
    | DeliveryConfirmation(customerName: string, orderId: string)

  /** The calls made to the database and the mailer, oldest first. */
  class Outbox {
    var sent: seq<Effect>

    constructor ()
      ensures sent == []
    {
      sent := [];
    }

    method Record(e: Effect)
      modifies this
      ensures sent == old(sent) + [e]
    {
      sent := sent + [e];
    }
  }

  /** `OrderStatus.toString()`. */
  function StatusName(s: OrderStatus): string
  {
    match s
    case NEW => "NEW"
    case PAID => "PAID"
    case SHIPPED => "SHIPPED"
    case DELIVERED => "DELIVERED"
  }

  /** The e-mail `EmailService.sendStatusUpdate` sends for a status; NEW has none and throws. */
  function StatusUpdateEmail(status: OrderStatus, customerName: string, orderId: string): (r: Result<Effect>)
    ensures r.Fail? <==> status == NEW
    ensures r.Fail? ==> r.fault == IllegalArgument("Unknown order status")
    ensures r.Ok? ==> !r.value.StatusWritten? && r.value.customerName == customerName && r.value.orderId == orderId
    ensures r.Ok? ==> (r.value.PaymentConfirmation? <==> status == PAID)
    ensures r.Ok? ==> (r.value.ShippingConfirmation? <==> status == SHIPPED)
    ensures r.Ok? ==> (r.value.DeliveryConfirmation? <==> status == DELIVERED)
  {
    match status
    case PAID => Ok(PaymentConfirmation(customerName, orderId))
    case SHIPPED => Ok(ShippingConfirmation(customerName, orderId))
    case DELIVERED => Ok(DeliveryConfirmation(customerName, orderId))
    case NEW => Fail(IllegalArgument("Unknown order status"))
  }

  /** The three transitions of `Order`. */
  datatype Operation = MarkAsPaid | ShipOrder | DeliverOrder

  /** The status each operation demands, and the one it moves to. */
  function Source(op: Operation): OrderStatus
  {
    match op
    case MarkAsPaid => NEW
    case ShipOrder => PAID
    case DeliverOrder => SHIPPED
  }

  function Target(op: Operation): OrderStatus
  {
    match op
    case MarkAsPaid => PAID
    case ShipOrder => SHIPPED
    case DeliverOrder => DELIVERED
  }

  /** The message of the `IllegalStateException` a refused operation throws. */
  function Refusal(op: Operation): string
  {
    match op
    case MarkAsPaid => "Order cannot be paid in its current state."
    case ShipOrder => "Order cannot be shipped until it is paid."
    case DeliverOrder => "Order cannot be delivered until it is shipped."
  }

  /** The status after an operation, or None when the guard refuses it. */
  function Step(status: OrderStatus, op: Operation): (r: Option<OrderStatus>)
    ensures r.Some? <==> status == Source(op)
    ensures r.Some? ==> Rank(r.value) == Rank(status) + 1
  {
    if status == Source(op) then Some(Target(op)) else None
  }

  /** The position of a status along NEW, PAID, SHIPPED, DELIVERED. */
  function Rank(s: OrderStatus): nat
  {
    match s
    case NEW => 0
    case PAID => 1
    case SHIPPED => 2
    case DELIVERED => 3
  }

  /** A status only ever advances, by exactly one stage. */
  lemma StepAdvances(status: OrderStatus, op: Operation)
    requires Step(status, op).Some?
    ensures Rank(Step(status, op).value) == Rank(status) + 1
  {
  }

  /** DELIVERED is terminal: every operation refuses it. */
  lemma DeliveredIsTerminal(op: Operation)
    ensures Step(DELIVERED, op).None?
  {
  }

  /** Exactly one operation is accepted from each status but DELIVERED. */
  lemma OneOperationPerStatus(status: OrderStatus, a: Operation, b: Operation)
    requires Step(status, a).Some? && Step(status, b).Some?
    ensures a == b
  {
  }

  /** The statuses a series of accepted operations passes through, stopping at the first refusal. */
  function Run(status: OrderStatus, ops: seq<Operation>): (r: OrderStatus)
    ensures Rank(status) <= Rank(r) <= Rank(status) + |ops|
    decreases |ops|
  {
    if ops == [] then status
    else
      var next := Step(status, ops[0]);
      if next.None? then status else Run(next.value, ops[1..])
  }

  /** Once delivered, no series of operations changes the status. */
  lemma {:induction false} RunFromDelivered(ops: seq<Operation>)
    ensures Run(DELIVERED, ops) == DELIVERED
  {
    if ops != [] {
      DeliveredIsTerminal(ops[0]);
    }
  }

  /** From NEW, pay, ship and deliver in that order reach DELIVERED, and nothing more can happen. */
  lemma LifecycleFromNew(more: seq<Operation>)
    ensures Run(NEW, [MarkAsPaid, ShipOrder, DeliverOrder] + more) == DELIVERED
  {
    var ops := [MarkAsPaid, ShipOrder, DeliverOrder] + more;
    assert ops[1..][1..][1..] == more;
    RunFromDelivered(more);
    assert Run(SHIPPED, ops[1..][1..]) == Run(DELIVERED, more);
  }

  /** Every status an accepted operation reaches has an e-mail: the throwing branch is unreachable. */
  lemma NoUnknownStatusAfterStep(status: OrderStatus, op: Operation, customerName: string, orderId: string)
    requires Step(status, op).Some?
    ensures StatusUpdateEmail(Step(status, op).value, customerName, orderId).Ok?
  {
  }

  /** The calls `OrderService.updateOrder` makes: the status write, then the e-mail for it. */
  function UpdateOrderEffects(orderId: string, customerName: string, status: OrderStatus): (r: seq<Effect>)
    ensures |r| >= 1 && r[0] == StatusWritten(orderId, StatusName(status))
    ensures |r| == 2 <==> status != NEW
  {
    var email := StatusUpdateEmail(status, customerName, orderId);
    [StatusWritten(orderId, StatusName(status))] + (if email.Ok? then [email.value] else [])
  }

  /** `Order` of the refactored version: the status moves only through the guarded methods. */
  class Order {
    const orderId: string
    const customerName: string
    const customerAddress: string
    const totalAmount: real
    var status: OrderStatus

    constructor (orderId: string, customerName: string, customerAddress: string, totalAmount: real)
      ensures this.orderId == orderId && this.customerName == customerName
      ensures this.customerAddress == customerAddress && this.totalAmount == totalAmount
      ensures status == NEW
    {
      this.orderId := orderId;
      this.customerName := customerName;
      this.customerAddress := customerAddress;
      this.totalAmount := totalAmount;
      status := NEW;
    }

    /** `OrderService.updateOrder`: writes the status, then sends its e-mail (throwing for NEW). */
    method UpdateOrder(out: Outbox) returns (o: Outcome)
      modifies out
      ensures out.sent == old(out.sent) + UpdateOrderEffects(orderId, customerName, status)
      ensures o.Threw? <==> status == NEW
      ensures o.Threw? ==> o.fault == IllegalArgument("Unknown order status")
    {
      out.Record(StatusWritten(orderId, StatusName(status)));
      var email := StatusUpdateEmail(status, customerName, orderId);
      if email.Fail? {
        return Threw(email.fault);
      }
      out.Record(email.value);
      o := Done;
    }

    /** The shared shape of `markAsPaid`, `shipOrder` and `deliverOrder`. */
    method Apply(op: Operation, out: Outbox) returns (o: Outcome)
      modifies this, out
      ensures Step(old(status), op).None? ==>
        o == Threw(IllegalState(Refusal(op))) && status == old(status) && out.sent == old(out.sent)
      ensures Step(old(status), op).Some? ==>
        o == Done && status == Step(old(status), op).value
        && out.sent == old(out.sent) + UpdateOrderEffects(orderId, customerName, status)
    {
      if status != Source(op) {
        return Threw(IllegalState(Refusal(op)));
      }
      status := Target(op);
      o := UpdateOrder(out);
    }

    /** `markAsPaid`: only from NEW. */
    method MarkAsPaid(out: Outbox) returns (o: Outcome)
      modifies this, out
      ensures old(status) != NEW ==>
        o == Threw(IllegalState("Order cannot be paid in its current state.")) && status == old(status) && out.sent == old(out.sent)
      ensures old(status) == NEW ==>
        o == Done && status == PAID
        && out.sent == old(out.sent) + [StatusWritten(orderId, "PAID"), PaymentConfirmation(customerName, orderId)]
    {
      o := Apply(Operation.MarkAsPaid, out);
    }

    /** `shipOrder`: only from PAID. */
    method ShipOrder(out: Outbox) returns (o: Outcome)
      modifies this, out
      ensures old(status) != PAID ==>
        o == Threw(IllegalState("Order cannot be shipped until it is paid.")) && status == old(status) && out.sent == old(out.sent)
      ensures old(status) == PAID ==>
        o == Done && status == SHIPPED
        && out.sent == old(out.sent) + [StatusWritten(orderId, "SHIPPED"), ShippingConfirmation(customerName, orderId)]
    {
      o := Apply(Operation.ShipOrder, out);
    }

    /** `deliverOrder`: only from SHIPPED. */
    method DeliverOrder(out: Outbox) returns (o: Outcome)
      modifies this, out
      ensures old(status) != SHIPPED ==>
        o == Threw(IllegalState("Order cannot be delivered until it is shipped.")) && status == old(status) && out.sent == old(out.sent)
      ensures old(status) == SHIPPED ==>
        o == Done && status == DELIVERED
        && out.sent == old(out.sent) + [StatusWritten(orderId, "DELIVERED"), DeliveryConfirmation(customerName, orderId)]
    {
      o := Apply(Operation.DeliverOrder, out);
    }
  }

  /**
   * `ShotgunOrder`: the original, with one flag per stage. The class shows no
   * constructor; here the id and name are given and the flags start false, as
   * Java's defaults leave them.
   */
  class ShotgunOrder {
    const orderId: string
    const customerName: string
    var isPaid: bool
    var isShipped: bool
    var isDelivered: bool

    /** No method clears a flag, so delivery implies shipping implies payment. */
    ghost predicate Valid()
      reads this
    {
      (isDelivered ==> isShipped) && (isShipped ==> isPaid)
    }

    constructor (orderId: string, customerName: string)
      ensures this.orderId == orderId && this.customerName == customerName
      ensures !isPaid && !isShipped && !isDelivered
      ensures Valid()
    {
      this.orderId := orderId;
      this.customerName := customerName;
      isPaid, isShipped, isDelivered := false, false, false;
    }

    /** `markAsPaid`: no guard; every call records "PAID" and sends the payment confirmation again. */
    method MarkAsPaid(out: Outbox)
      requires Valid()
      modifies this, out
      ensures Valid()
      ensures isPaid && isShipped == old(isShipped) && isDelivered == old(isDelivered)
      ensures out.sent == old(out.sent) + [StatusWritten(orderId, "PAID"), PaymentConfirmation(customerName, orderId)]
    {
      isPaid := true;
      out.Record(StatusWritten(orderId, "PAID"));
      out.Record(PaymentConfirmation(customerName, orderId));
    }

    /** `shipOrder`: throws unless paid; repeats are not refused and re-send the confirmation. */
    method ShipOrder(out: Outbox) returns (o: Outcome)
      requires Valid()
      modifies this, out
      ensures Valid()
      ensures !old(isPaid) ==>
        o == Threw(IllegalState("Order cannot be shipped until it is paid."))
        && isPaid == old(isPaid) && isShipped == old(isShipped) && isDelivered == old(isDelivered)
        && out.sent == old(out.sent)
      ensures old(isPaid) ==>
        o == Done && isPaid && isShipped && isDelivered == old(isDelivered)
        && out.sent == old(out.sent) + [StatusWritten(orderId, "SHIPPED"), ShippingConfirmation(customerName, orderId)]
    {
      if !isPaid {
        return Threw(IllegalState("Order cannot be shipped until it is paid."));
      }
      isShipped := true;
      out.Record(StatusWritten(orderId, "SHIPPED"));
      out.Record(ShippingConfirmation(customerName, orderId));
      o := Done;
    }

    /** `deliverOrder`: throws unless shipped; repeats are not refused and re-send the confirmation. */
    method DeliverOrder(out: Outbox) returns (o: Outcome)
      requires Valid()
      modifies this, out
      ensures Valid()
      ensures !old(isShipped) ==>
        o == Threw(IllegalState("Order cannot be delivered until it is shipped."))
        && isPaid == old(isPaid) && isShipped == old(isShipped) && isDelivered == old(isDelivered)
        && out.sent == old(out.sent)
      ensures old(isShipped) ==>
        o == Done && isPaid == old(isPaid) && isShipped && isDelivered
        && out.sent == old(out.sent) + [StatusWritten(orderId, "DELIVERED"), DeliveryConfirmation(customerName, orderId)]
    {
      if !isShipped {
        return Threw(IllegalState("Order cannot be delivered until it is shipped."));
      }
      isDelivered := true;
      out.Record(StatusWritten(orderId, "DELIVERED"));
      out.Record(DeliveryConfirmation(customerName, orderId));
      o := Done;
    }
  }

  /** The flags of a `ShotgunOrder`: (isPaid, isShipped, isDelivered). */
  type Flags = (bool, bool, bool)

  predicate Ordered(f: Flags)
  {
    (f.2 ==> f.1) && (f.1 ==> f.0)
  }

  /** The flags of a `ShotgunOrder` after a series of calls, stopping at the first one that throws. */
  function FlagsAfter(flags: Flags, ops: seq<Operation>): (r: Flags)
    requires Ordered(flags)
    ensures Ordered(r)
    ensures (flags.0 ==> r.0) && (flags.1 ==> r.1) && (flags.2 ==> r.2)
    decreases |ops|
  {
    if ops == [] then flags
    else
      var (paid, shipped, delivered) := flags;
      match ops[0]
      case MarkAsPaid => FlagsAfter((true, shipped, delivered), ops[1..])
      case ShipOrder => if paid then FlagsAfter((paid, true, delivered), ops[1..]) else flags
      case DeliverOrder => if shipped then FlagsAfter((paid, shipped, true), ops[1..]) else flags
  }

  /** The flags that stand for a status of the enum version. */
  function FlagsOf(s: OrderStatus): (f: Flags)
    ensures Ordered(f)
  {
    (Rank(s) >= 1, Rank(s) >= 2, Rank(s) >= 3)
  }

  /**
   * Every series of calls the enum version accepts, the flag version accepts too
   * and ends with the matching flags.
   */
  lemma {:induction false} FlagsRefineStatus(status: OrderStatus, ops: seq<Operation>)
    requires Rank(Run(status, ops)) == Rank(status) + |ops|
    ensures FlagsAfter(FlagsOf(status), ops) == FlagsOf(Run(status, ops))
    decreases |ops|
  {
    if ops != [] {
      var next := Step(status, ops[0]);
      assert next.Some?;
      FlagsRefineStatus(next.value, ops[1..]);
    }
  }

  /** The flag version is laxer: paying twice is refused by the enum version, not by the flags. */
  lemma FlagsAcceptRepeatedPayment()
    ensures Run(NEW, [MarkAsPaid, MarkAsPaid]) == PAID
    ensures FlagsAfter(FlagsOf(NEW), [MarkAsPaid, MarkAsPaid, ShipOrder]) == (true, true, false)
  {
    assert [MarkAsPaid, MarkAsPaid][1..] == [MarkAsPaid];
    assert [MarkAsPaid, MarkAsPaid, ShipOrder][1..] == [MarkAsPaid, ShipOrder];
    assert [MarkAsPaid, ShipOrder][1..] == [ShipOrder];
  }
}

/**
 * The live refactoring: a table from each target status to a handler whose
 * `validate` guards the change and whose `onEnter` runs after it.
 */
module ShotgunLive {
  import opened Common
  import opened ShotgunSurgery

  /** The three `OrderStatusHandler` implementations. */
  datatype Handler = PaidStatusHandler | ShippedStatusHandler | DeliveredStatusHandler

  /** `OrderService.handlers`: NEW has no handler. */
  const Handlers: map<OrderStatus, Handler> :=
    map[PAID := PaidStatusHandler, SHIPPED := ShippedStatusHandler, DELIVERED := DeliveredStatusHandler]

  /** `validate`: changes nothing, only passes or throws. */
  function Validate(h: Handler, status: OrderStatus): (o: Outcome)
    ensures h == PaidStatusHandler ==> (o == Done <==> status == NEW)
    ensures h == PaidStatusHandler && status != NEW ==> o == Threw(IllegalState("Wrong order status for PAID update."))
    ensures h != PaidStatusHandler ==> o == Threw(UnsupportedOperation("Unimplemented method 'validate'"))
  {
    match h
    case PaidStatusHandler =>
      if status != NEW then Threw(IllegalState("Wrong order status for PAID update.")) else Done
    case ShippedStatusHandler => Threw(UnsupportedOperation("Unimplemented method 'validate'"))
    case DeliveredStatusHandler => Threw(UnsupportedOperation("Unimplemented method 'validate'"))
  }

  /** `onEnter`: the calls it makes and whether it throws; it never touches the status. */
  function OnEnter(h: Handler, orderId: string, customerName: string): (r: (seq<Effect>, Outcome))
    ensures r.1 == Done <==> h == PaidStatusHandler
    ensures h == PaidStatusHandler ==> r.0 == [StatusWritten(orderId, "PAID"), PaymentConfirmation(customerName, orderId)]
    ensures h != PaidStatusHandler ==> r.0 == [] && r.1 == Threw(UnsupportedOperation("Unimplemented method 'onEnter'"))
  {
    match h
    case PaidStatusHandler => ([StatusWritten(orderId, "PAID"), PaymentConfirmation(customerName, orderId)], Done)
    case ShippedStatusHandler => ([], Threw(UnsupportedOperation("Unimplemented method 'onEnter'")))
    case DeliveredStatusHandler => ([], Threw(UnsupportedOperation("Unimplemented method 'onEnter'")))
  }

  /** How `changeStatus` ends for a current and a requested status. */
  function ChangeOutcome(current: OrderStatus, requested: OrderStatus): (r: Outcome)
    ensures requested == NEW ==> r == Threw(NullPointer)
    ensures r == Done <==> current == NEW && requested == PAID
  {
    if requested !in Handlers then Threw(NullPointer)
    else
      var v := Validate(Handlers[requested], current);
      if v.Threw? then v else OnEnter(Handlers[requested], "", "").1
  }

  /** The only change that succeeds is NEW to PAID. */
  lemma OnlyNewToPaid(current: OrderStatus, requested: OrderStatus)
    ensures ChangeOutcome(current, requested) == Done <==> current == NEW && requested == PAID
  {
  }

  /** Requesting NEW always dereferences the missing handler. */
  lemma NewHasNoHandler(current: OrderStatus)
    ensures ChangeOutcome(current, NEW) == Threw(NullPointer)
  {
  }

  /** The live `Order`: its class is not shown, so only the fields the handlers read and write. */
  class Order {
    const orderId: string
    const customerName: string
    var status: OrderStatus

    constructor (orderId: string, customerName: string, status: OrderStatus)
      ensures this.orderId == orderId && this.customerName == customerName && this.status == status
    {
      this.orderId := orderId;
      this.customerName := customerName;
      this.status := status;
    }
  }

  /**
   * `OrderService.changeStatus`: looks up the handler (null for NEW), validates,
   * assigns the status, then runs `onEnter`.
   */
  method ChangeStatus(order: Order, requested: OrderStatus, out: Outbox) returns (o: Outcome)
    modifies order, out
    ensures o == ChangeOutcome(old(order.status), requested)
    ensures o == Done ==> order.status == requested
    ensures requested !in Handlers ==> order.status == old(order.status) && out.sent == old(out.sent)
    ensures requested in Handlers && Validate(Handlers[requested], old(order.status)).Threw? ==>
      order.status == old(order.status) && out.sent == old(out.sent)
    ensures requested in Handlers && Validate(Handlers[requested], old(order.status)) == Done ==>
      order.status == requested
      && out.sent == old(out.sent) + OnEnter(Handlers[requested], order.orderId, order.customerName).0
  {
    if requested !in Handlers {
      return Threw(NullPointer);
    }
    var handler := Handlers[requested];
    var v := Validate(handler, order.status);
    if v.Threw? {
      return v;
    }
    order.status := requested;
    var (effects, entered) := OnEnter(handler, order.orderId, order.customerName);
    out.sent := out.sent + effects;
    o := entered;
  }
}
