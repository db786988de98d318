/**
 * The shape of an order (app/data/models/order.py), the order lines
 * (app/data/models/order_item.py) and the timestamps they carry.
 *
 * Timestamps are abstract instants in whole seconds. Some handlers store a
 * zero-argument lambda in a timestamp column instead of a datetime; that
 * stored value is `Deferred`: it is truthy, like any function object, and
 * subtracting anything from it (or it from anything) raises a TypeError.
 */
module OrderModel {
  import opened Wrappers

  const RECEIVED := "received"
  const PREPARING := "preparing"
  const READY := "ready"
  const SENT := "sent"
  const PAID := "paid"
  const CLOSED := "closed"
  const CANCELLED := "cancelled"

  /** A nullable DateTime column. */
  datatype Stamp = Unset | At(t: int) | Deferred {
    /** Python truthiness: None is falsy, a datetime and a lambda are truthy. */
    predicate IsSet() {
      !Unset?
    }
  }

  /**
   * `int((a - b).total_seconds())`: the difference of two datetimes, or None
   * where Python raises (an operand is a lambda, or None).
   */
  function Seconds(a: Stamp, b: Stamp): (r: Option<int>)
    ensures r.Some? <==> a.At? && b.At?
    ensures r.Some? ==> b.t + r.value == a.t
  {
    if a.At? && b.At? then Some(a.t - b.t) else None
  }

  /** One order line: a snapshot of the product taken when the order was made. */
  datatype OrderItem = OrderItem(
    productId: int,
    productName: string,
    quantity: int,
    unitPrice: int,      // hundredths
    subtotal: int,       // hundredths
    notes: Option<string>)

  /** The timestamp columns and the durations derived from them. */
  datatype Times = Times(
    acceptedAt: Stamp,
    preparingAt: Stamp,
    readyAt: Stamp,
    sentAt: Stamp,
    paidAt: Stamp,
    deliveredAt: Stamp,
    responseTimeSeconds: Option<int>,
    preparationTimeSeconds: Option<int>)

  /** A new order has no timestamp after created_at. */
  const NO_TIMES := Times(Unset, Unset, Unset, Unset, Unset, Unset, None, None)

  /** The value of every column of an order, plus its lines and its assigned workers. */
  datatype OrderRecord = OrderRecord(
    id: int,
    orderNumber: string,
    businessId: int,
    customerId: int,
    orderType: string,
    deliveryAddress: Option<string>,
    createdAt: Stamp,
    status: string,
    totalAmount: int,    // hundredths
    notes: Option<string>,
    updatedAt: Stamp,
    times: Times,
    items: seq<OrderItem>,
    assignedWorkers: seq<int>)

  /**
   * The ORM object for one order. The columns no code path reassigns are
   * constants; the others are fields that the handlers assign in place (the
   * timestamp columns as one `Times` value).
   */
  class Order {
    const id: int
    const orderNumber: string
    const businessId: int
    const customerId: int
    const orderType: string
    const deliveryAddress: Option<string>
    const createdAt: Stamp
    var status: string
    var totalAmount: int
    var notes: Option<string>
    var updatedAt: Stamp
    var times: Times
    var items: seq<OrderItem>
    var assignedWorkers: seq<int>

    /** The current column values. */
    function Value(): OrderRecord
      reads this
    {
      OrderRecord(id, orderNumber, businessId, customerId, orderType, deliveryAddress, createdAt,
                  status, totalAmount, notes, updatedAt, times, items, assignedWorkers)
    }

    constructor (r: OrderRecord)
      ensures Value() == r
    {
      id, orderNumber, businessId, customerId := r.id, r.orderNumber, r.businessId, r.customerId;
      orderType, deliveryAddress, createdAt := r.orderType, r.deliveryAddress, r.createdAt;
      status, totalAmount, notes, updatedAt := r.status, r.totalAmount, r.notes, r.updatedAt;
      times, items, assignedWorkers := r.times, r.items, r.assignedWorkers;
    }

    /** `db.session.rollback()` for this object: every column goes back to `r`. */
    method Restore(r: OrderRecord)
      requires r.id == id && r.orderNumber == orderNumber && r.businessId == businessId && r.customerId == customerId
      requires r.orderType == orderType && r.deliveryAddress == deliveryAddress && r.createdAt == createdAt
      modifies this
      ensures Value() == r
    {
      status, totalAmount, notes, updatedAt := r.status, r.totalAmount, r.notes, r.updatedAt;
      times, items, assignedWorkers := r.times, r.items, r.assignedWorkers;
    }
  }

  /** `Order.query.get(order_id)`: the order's columns, or None when there is no such order. */
  function Lookup(order: Order?): (r: Option<OrderRecord>)
    reads order
    ensures r.Some? <==> order != null
    ensures r.Some? ==> r.value == order.Value()
  {
    if order == null then None else Some(order.Value())
  }
}
