/**
 * OrderService (app/services/order_service.py): order creation with its
 * items, total and customer counter; the status update with set-once
 * timestamps; order numbering; cancellation; counts by status.
 *
 * The database is an `OrderStore` object: its tables are sequences and maps
 * that the service methods reassign. A failed operation rolls back, which
 * the model shows as "the tables are as before".
 */
module OrderService {
  import opened Wrappers
  import opened Text
  import opened OrderModel

  /** A catalog row (app/data/models/product.py); the price is in hundredths. */
  datatype Product = Product(id: int, businessId: int, name: string, price: int, isAvailable: bool)

  /** A customer row (app/data/models/customer.py). */
  datatype Customer = Customer(id: int, phone: string, name: string, totalOrders: int)

  /** One entry of `items_data`; `quantity` is None when the key is missing. */
  datatype ItemRequest = ItemRequest(productId: int, quantity: Option<int>, notes: Option<string>)

  /** `datetime.utcnow()` reduced to the calendar day that the order number uses. */
  datatype Date = Date(year: nat, month: nat, day: nat)

  const DEFAULT_CUSTOMER_NAME := "Cliente"
  const CREATED_MESSAGE := "Pedido creado exitosamente"
  const NOT_FOUND_MESSAGE := "Pedido no encontrado"
  const CANCEL_REFUSED_MESSAGE := "No se puede cancelar un pedido pagado o cerrado"
  const CANCELLED_MESSAGE := "Pedido cancelado exitosamente"
  /** The fixed part of the message of a caught exception; the exception text is not modelled. */
  const CREATE_ERROR_PREFIX := "Error al crear pedido: "
  const UPDATE_ERROR_PREFIX := "Error al actualizar pedido: "

  /** Python truthiness of an optional string. */
  predicate Truthy(s: Option<string>) {
    s.Some? && s.value != ""
  }

  // ---------------------------------------------------------------- items

  /** The outcome of the item loop of `create_order`. */
  datatype ItemsResult = Items(items: seq<OrderItem>) | ItemsError(message: string)

  function ProductNotFound(id: int): string {
    "Producto " + IntToString(id) + " no encontrado"
  }

  function ProductUnavailable(name: string): string {
    "Producto " + name + " no está disponible"
  }

  /**
   * The item loop: each request is checked in order (product exists, then
   * available, then has a quantity) and becomes a line that snapshots the
   * product's name and price; the first failing request decides the error.
   */
  function BuildItems(products: map<int, Product>, reqs: seq<ItemRequest>): ItemsResult
    decreases |reqs|
  {
    if reqs == [] then Items([])
    else
      match BuildItems(products, reqs[..|reqs| - 1])
      case ItemsError(m) => ItemsError(m)
      case Items(acc) =>
        var q := reqs[|reqs| - 1];
        if q.productId !in products then ItemsError(ProductNotFound(q.productId))
        else if !products[q.productId].isAvailable then ItemsError(ProductUnavailable(products[q.productId].name))
        else if q.quantity.None? then ItemsError(CREATE_ERROR_PREFIX + "'quantity'")
        else
          var p := products[q.productId];
          Items(acc + [OrderItem(p.id, p.name, q.quantity.value, p.price, p.price * q.quantity.value, q.notes)])
  }

  /** Request `q` can be turned into an order line. */
  predicate Acceptable(products: map<int, Product>, q: ItemRequest) {
    q.productId in products && products[q.productId].isAvailable && q.quantity.Some?
  }

  /** The line that an acceptable request becomes: the product's name and price at this moment. */
  predicate Snapshot(products: map<int, Product>, q: ItemRequest, it: OrderItem)
    requires Acceptable(products, q)
  {
    var p := products[q.productId];
    && it.productId == p.id && it.productName == p.name && it.unitPrice == p.price
    && it.quantity == q.quantity.value && it.subtotal == it.unitPrice * it.quantity
    && it.notes == q.notes
  }

  /** The loop succeeds exactly when every request is acceptable, and then each line snapshots its product. */
  lemma {:induction false} BuildItemsMeaning(products: map<int, Product>, reqs: seq<ItemRequest>)
    ensures BuildItems(products, reqs).Items? <==> forall i :: 0 <= i < |reqs| ==> Acceptable(products, reqs[i])
    ensures BuildItems(products, reqs).Items? ==>
      (var its := BuildItems(products, reqs).items;
       |its| == |reqs| && forall i :: 0 <= i < |reqs| ==> Snapshot(products, reqs[i], its[i]))
    decreases |reqs|
  {
    if reqs != [] {
      var init := reqs[..|reqs| - 1];
      BuildItemsMeaning(products, init);
      assert forall i :: 0 <= i < |init| ==> init[i] == reqs[i];
    }
  }

  /** Sum of the line subtotals; `order.total_amount` after the loop. */
  function Total(items: seq<OrderItem>): int
    decreases |items|
  {
    if items == [] then 0 else Total(items[..|items| - 1]) + items[|items| - 1].subtotal
  }

  /** The total is the sum over the requests of price times quantity. */
  lemma {:induction false} TotalIsSumOfPriceTimesQuantity(products: map<int, Product>, reqs: seq<ItemRequest>)
    requires BuildItems(products, reqs).Items?
    ensures Total(BuildItems(products, reqs).items) == PriceTimesQuantity(products, reqs)
    decreases |reqs|
  {
    if reqs != [] {
      TotalIsSumOfPriceTimesQuantity(products, reqs[..|reqs| - 1]);
      var acc := BuildItems(products, reqs[..|reqs| - 1]).items;
      var its := BuildItems(products, reqs).items;
      assert its[..|its| - 1] == acc;
    }
  }

  /** The reference definition of the total: the sum of price times quantity over acceptable requests. */
  function PriceTimesQuantity(products: map<int, Product>, reqs: seq<ItemRequest>): int
    decreases |reqs|
  {
    if reqs == [] then 0
    else
      var q := reqs[|reqs| - 1];
      PriceTimesQuantity(products, reqs[..|reqs| - 1])
        + (if Acceptable(products, q) then products[q.productId].price * q.quantity.value else 0)
  }

  // ---------------------------------------------------------------- customers

  /** `Customer.query.filter_by(phone=…).first()`: the first row with that phone. */
  function FindCustomer(customers: seq<Customer>, phone: string): (r: Option<nat>)
    ensures r.Some? ==> r.value < |customers| && customers[r.value].phone == phone
    ensures r.Some? ==> forall j :: 0 <= j < r.value ==> customers[j].phone != phone
    ensures r.None? ==> forall j :: 0 <= j < |customers| ==> customers[j].phone != phone
    decreases |customers|
  {
    if customers == [] then None
    else if customers[0].phone == phone then Some(0)
    else match FindCustomer(customers[1..], phone)
      case None => None
      case Some(k) => Some(k + 1)
  }

  /** `customer_name or 'Cliente'`. */
  function NameOrDefault(name: Option<string>): (r: string)
    ensures Truthy(name) ==> r == name.value
    ensures !Truthy(name) ==> r == DEFAULT_CUSTOMER_NAME
  {
    if Truthy(name) then name.value else DEFAULT_CUSTOMER_NAME
  }

  /**
   * The customer table after a successful creation: the customer with that
   * phone has one more order, or a new customer was added with one order.
   */
  function CountOrder(customers: seq<Customer>, phone: string, name: Option<string>, newId: int): (r: seq<Customer>)
    ensures FindCustomer(customers, phone).Some? ==>
      (var i := FindCustomer(customers, phone).value;
       |r| == |customers| && r[i].totalOrders == customers[i].totalOrders + 1
       && r[i] == customers[i].(totalOrders := customers[i].totalOrders + 1)
       && forall j :: 0 <= j < |r| && j != i ==> r[j] == customers[j])
    ensures FindCustomer(customers, phone).None? ==>
      r == customers + [Customer(newId, phone, NameOrDefault(name), 1)]
  {
    match FindCustomer(customers, phone)
    case Some(i) => customers[i := customers[i].(totalOrders := customers[i].totalOrders + 1)]
    case None => customers + [Customer(newId, phone, NameOrDefault(name), 1)]
  }

  // ---------------------------------------------------------------- order number

  /** `f"{business_id}{today.strftime('%Y%m%d')}"`. */
  function NumberPrefix(businessId: int, today: Date): string {
    IntToString(businessId) + ZeroPad(today.year, 4) + ZeroPad(today.month, 2) + ZeroPad(today.day, 2)
  }

  /** `Order.query.filter(Order.order_number.like(f"{prefix}%")).count()`. */
  function CountPrefixed(numbers: seq<string>, prefix: string): (n: nat)
    ensures n <= |numbers|
    decreases |numbers|
  {
    if numbers == [] then 0
    else CountPrefixed(numbers[..|numbers| - 1], prefix) + (if StartsWith(numbers[|numbers| - 1], prefix) then 1 else 0)
  }

  /** `_generate_order_number`: the prefix followed by the count plus one, zero-padded to four digits. */
  function GenerateOrderNumber(businessId: int, today: Date, numbers: seq<string>): (r: string)
    ensures var p := NumberPrefix(businessId, today);
      && StartsWith(r, p)
      && |r| == |p| + (if |NatToString(CountPrefixed(numbers, p) + 1)| < 4 then 4 else |NatToString(CountPrefixed(numbers, p) + 1)|)
      && AllDigits(r[|p|..]) && DigitsValue(r[|p|..]) == CountPrefixed(numbers, p) + 1
  {
    var p := NumberPrefix(businessId, today);
    var n := CountPrefixed(numbers, p) + 1;
    var z := ZeroPad(n, 4);
    var r := p + z;
    assert r[..|p|] == p;
    assert r[|p|..] == z;
    r
  }

  /**
   * The number is new as long as every existing number with today's prefix
   * carries a suffix no greater than the count (as numbers handed out one
   * by one do); it is not unique in general.
   */
  lemma GeneratedNumberIsFresh(businessId: int, today: Date, numbers: seq<string>)
    requires forall n | n in numbers && StartsWith(n, NumberPrefix(businessId, today)) ::
      var p := NumberPrefix(businessId, today);
      AllDigits(n[|p|..]) && DigitsValue(n[|p|..]) <= CountPrefixed(numbers, p)
    ensures GenerateOrderNumber(businessId, today, numbers) !in numbers
  {
  }

  // ---------------------------------------------------------------- store

  /**
   * The item loop of `create_order`: lines are built and subtotals summed
   * request by request; the first request that fails stops the loop.
   */
  method CollectItems(products: map<int, Product>, reqs: seq<ItemRequest>) returns (built: ItemsResult, total: int)
    ensures built == BuildItems(products, reqs)
    ensures built.Items? ==> total == Total(built.items)
  {
    var acc: seq<OrderItem> := [];
    total := 0;
    var i := 0;
    while i < |reqs|
      invariant 0 <= i <= |reqs|
      invariant BuildItems(products, reqs[..i]) == Items(acc)
      invariant total == Total(acc)
    {
      assert reqs[..i + 1][..i] == reqs[..i];
      var q := reqs[i];
      if q.productId !in products {
        PrefixError(products, reqs, i + 1);
        return ItemsError(ProductNotFound(q.productId)), total;
      }
      var p := products[q.productId];
      if !p.isAvailable {
        PrefixError(products, reqs, i + 1);
        return ItemsError(ProductUnavailable(p.name)), total;
      }
      if q.quantity.None? {
        PrefixError(products, reqs, i + 1);
        return ItemsError(CREATE_ERROR_PREFIX + "'quantity'"), total;
      }
      var subtotal := p.price * q.quantity.value;
      var it := OrderItem(p.id, p.name, q.quantity.value, p.price, subtotal, q.notes);
      assert (acc + [it])[..|acc|] == acc;
      acc := acc + [it];
      total := total + subtotal;
      i := i + 1;
    }
    assert reqs[..i] == reqs;
    return Items(acc), total;
  }

  /** The tables `create_order` reads and writes. */
  class OrderStore {
    var orders: seq<Order>
    var customers: seq<Customer>
    var products: map<int, Product>
    var nextOrderId: int
    var nextCustomerId: int

    /** Every order number in the orders table. */
    function Numbers(): seq<string>
      reads this, orders
    {
      seq(|orders|, i reads this, orders requires 0 <= i < |orders| => orders[i].orderNumber)
    }

    constructor (products: map<int, Product>)
      ensures this.products == products && orders == [] && customers == []
    {
      this.products := products;
      orders, customers := [], [];
      nextOrderId, nextCustomerId := 1, 1;
    }

    /**
     * `create_order`. On success the new order is received, carries the
     * lines and total of `BuildItems`, the generated number and the
     * customer's id, and the customer table counts it. On failure nothing
     * is added.
     */
    method CreateOrder(businessId: int, phone: string, reqs: seq<ItemRequest>, orderType: string,
                       address: Option<string>, notes: Option<string>, name: Option<string>,
                       today: Date, now: int)
      returns (success: bool, message: string, order: Order?)
      modifies this
      ensures products == old(products)
      ensures success <==> BuildItems(products, reqs).Items?
      ensures !success ==> order == null && message == BuildItems(products, reqs).message
      ensures !success ==> (orders == old(orders) && customers == old(customers)
        && nextOrderId == old(nextOrderId) && nextCustomerId == old(nextCustomerId))
      ensures success ==> message == CREATED_MESSAGE && order != null && fresh(order)
      ensures success ==> orders == old(orders) + [order]
      ensures success ==> customers == CountOrder(old(customers), phone, name, old(nextCustomerId))
      ensures success ==>
        (var items := BuildItems(products, reqs).items;
         var c := FindCustomer(old(customers), phone);
         order.Value() == OrderRecord(
          old(nextOrderId), GenerateOrderNumber(businessId, today, old(Numbers())), businessId,
          if c.Some? then old(customers)[c.value].id else old(nextCustomerId),
          orderType, address, At(now), RECEIVED, Total(items), notes, At(now), NO_TIMES, items, []))
    {
      var number := GenerateOrderNumber(businessId, today, Numbers());
      // Get or create the customer; a new one is only kept if the order is.
      var ci := FindCustomer(customers, phone);
      var customerId := if ci.Some? then customers[ci.value].id else nextCustomerId;
      var built, total := CollectItems(products, reqs);
      if built.ItemsError? {
        // Rollback: neither the customer nor the order is kept.
        return false, built.message, null;
      }
      var o := new Order(OrderRecord(nextOrderId, number, businessId, customerId, orderType, address, At(now),
                                     RECEIVED, total, notes, At(now), NO_TIMES, built.items, []));
      orders := orders + [o];
      customers := CountOrder(customers, phone, name, nextCustomerId);
      if ci.None? {
        nextCustomerId := nextCustomerId + 1;
      }
      nextOrderId := nextOrderId + 1;
      return true, CREATED_MESSAGE, o;
    }
  }

  /** Once a prefix of the requests fails, the whole loop fails with the same message. */
  lemma {:induction false} PrefixError(products: map<int, Product>, reqs: seq<ItemRequest>, k: nat)
    requires k <= |reqs| && BuildItems(products, reqs[..k]).ItemsError?
    ensures BuildItems(products, reqs) == BuildItems(products, reqs[..k])
    decreases |reqs| - k
  {
    if k < |reqs| {
      assert reqs[..k + 1][..k] == reqs[..k];
      PrefixError(products, reqs, k + 1);
    } else {
      assert reqs[..k] == reqs;
    }
  }

  // ---------------------------------------------------------------- status update

  /**
   * `update_order_status` on the order's columns: the status is written
   * whatever it was, and `accepted_at`, `ready_at` and `delivered_at` (with
   * the derived durations) are written only when unset. None stands for the
   * subtraction raising, after which the session rolls back.
   */
  function StatusUpdate(o: OrderRecord, newStatus: string, now: int): (r: Option<OrderRecord>)
    ensures r.Some? ==> r.value.status == newStatus && r.value.updatedAt == At(now)
    ensures r.None? <==>
      || (newStatus == PREPARING && !o.times.acceptedAt.IsSet() && o.createdAt == Deferred)
      || (newStatus == READY && !o.times.readyAt.IsSet() && o.times.acceptedAt == Deferred)
    ensures r.Some? && o.times.acceptedAt.IsSet() ==>
      r.value.times.acceptedAt == o.times.acceptedAt && r.value.times.responseTimeSeconds == o.times.responseTimeSeconds
    ensures r.Some? && o.times.readyAt.IsSet() ==>
      r.value.times.readyAt == o.times.readyAt && r.value.times.preparationTimeSeconds == o.times.preparationTimeSeconds
    ensures r.Some? && o.times.deliveredAt.IsSet() ==> r.value.times.deliveredAt == o.times.deliveredAt
    ensures r.Some? ==> (r.value.times.preparingAt == o.times.preparingAt && r.value.times.sentAt == o.times.sentAt
      && r.value.times.paidAt == o.times.paidAt)
    ensures r.Some? ==> r.value == o.(status := newStatus, updatedAt := At(now), times := r.value.times)
    ensures r.Some? && newStatus == PREPARING && !o.times.acceptedAt.IsSet() ==>
      r.value.times == o.times.(acceptedAt := At(now),
                                responseTimeSeconds := if o.createdAt.At? then Some(now - o.createdAt.t)
                                                       else o.times.responseTimeSeconds)
    ensures r.Some? && newStatus == READY && !o.times.readyAt.IsSet() ==>
      r.value.times == o.times.(readyAt := At(now),
                                preparationTimeSeconds := if o.times.acceptedAt.At? then Some(now - o.times.acceptedAt.t)
                                                          else o.times.preparationTimeSeconds)
    ensures r.Some? && newStatus in [SENT, PAID, CLOSED] && !o.times.deliveredAt.IsSet() ==>
      r.value.times == o.times.(deliveredAt := At(now))
    ensures r.Some? && !(newStatus == PREPARING && !o.times.acceptedAt.IsSet())
                    && !(newStatus == READY && !o.times.readyAt.IsSet())
                    && !(newStatus in [SENT, PAID, CLOSED] && !o.times.deliveredAt.IsSet()) ==>
      r.value.times == o.times
  {
    var o1 := o.(status := newStatus, updatedAt := At(now));
    var t := o.times;
    if newStatus == PREPARING && !t.acceptedAt.IsSet() then
      var t2 := t.(acceptedAt := At(now));
      if o.createdAt.IsSet() then
        match Seconds(At(now), o.createdAt)
        case None => None
        case Some(d) => Some(o1.(times := t2.(responseTimeSeconds := Some(d))))
      else Some(o1.(times := t2))
    else if newStatus == READY && !t.readyAt.IsSet() then
      var t2 := t.(readyAt := At(now));
      if t.acceptedAt.IsSet() then
        match Seconds(At(now), t.acceptedAt)
        case None => None
        case Some(d) => Some(o1.(times := t2.(preparationTimeSeconds := Some(d))))
      else Some(o1.(times := t2))
    else if newStatus in [SENT, PAID, CLOSED] && !t.deliveredAt.IsSet() then
      Some(o1.(times := t.(deliveredAt := At(now))))
    else Some(o1)
  }

  /** The first `preparing` records the response time from the creation stamp. */
  lemma StatusUpdateDurations(o: OrderRecord, now: int)
    requires o.createdAt.At? && o.times.acceptedAt.Unset?
    ensures StatusUpdate(o, PREPARING, now)
      == Some(o.(status := PREPARING, updatedAt := At(now),
                 times := o.times.(acceptedAt := At(now), responseTimeSeconds := Some(now - o.createdAt.t))))
  {
  }

  /** Repeating a status changes nothing but `updated_at`: the timestamps are set once. */
  lemma StatusUpdateRepeat(o: OrderRecord, newStatus: string, now: int, later: int)
    requires StatusUpdate(o, newStatus, now).Some?
    ensures var r := StatusUpdate(o, newStatus, now).value;
      StatusUpdate(r, newStatus, later) == Some(r.(updatedAt := At(later)))
  {
  }

  /** The handler: null is "not found"; a raise rolls the order back. */
  method UpdateOrderStatus(order: Order?, newStatus: string, now: int) returns (success: bool, message: string, result: Order?)
    modifies order
    ensures order == null ==> !success && message == NOT_FOUND_MESSAGE && result == null
    ensures order != null ==> success == StatusUpdate(old(order.Value()), newStatus, now).Some?
    ensures order != null && success ==> (result == order
      && order.Value() == StatusUpdate(old(order.Value()), newStatus, now).value
      && message == "Pedido actualizado de " + old(order.status) + " a " + newStatus)
    ensures order != null && !success ==> (result == null && order.Value() == old(order.Value())
      && message == UPDATE_ERROR_PREFIX)
  {
    if order == null {
      return false, NOT_FOUND_MESSAGE, null;
    }
    var saved := order.Value();
    var oldStatus := order.status;
    order.status := newStatus;
    order.updatedAt := At(now);
    if newStatus == PREPARING && !order.times.acceptedAt.IsSet() {
      order.times := order.times.(acceptedAt := At(now));
      if order.createdAt.IsSet() {
        var d := Seconds(order.times.acceptedAt, order.createdAt);
        if d.None? {
          order.Restore(saved);
          return false, UPDATE_ERROR_PREFIX, null;
        }
        order.times := order.times.(responseTimeSeconds := d);
      }
    } else if newStatus == READY && !order.times.readyAt.IsSet() {
      order.times := order.times.(readyAt := At(now));
      if order.times.acceptedAt.IsSet() {
        var d := Seconds(order.times.readyAt, order.times.acceptedAt);
        if d.None? {
          order.Restore(saved);
          return false, UPDATE_ERROR_PREFIX, null;
        }
        order.times := order.times.(preparationTimeSeconds := d);
      }
    } else if newStatus in [SENT, PAID, CLOSED] && !order.times.deliveredAt.IsSet() {
      order.times := order.times.(deliveredAt := At(now));
    }
    return true, "Pedido actualizado de " + oldStatus + " a " + newStatus, order;
  }

  // ---------------------------------------------------------------- cancellation

  /** The notes after a cancellation with a truthy reason. */
  function CancelNotes(notes: Option<string>, reason: string): (r: string)
    ensures Truthy(notes) ==> r == notes.value + "\nCancelado: " + reason
    ensures !Truthy(notes) ==> r == "Cancelado: " + reason
    ensures EndsWith(r, "Cancelado: " + reason)
  {
    if Truthy(notes) then notes.value + "\nCancelado: " + reason else "Cancelado: " + reason
  }

  /**
   * `cancel_order` on the columns: paid and closed orders are refused
   * (None), every other status is cancelled. The commit refreshes
   * `updated_at` (its `onupdate`) only when a column actually changed, so
   * not for an order already cancelled without a reason.
   */
  function Cancelled(o: OrderRecord, reason: Option<string>, now: int): (r: Option<OrderRecord>)
    ensures r.None? <==> o.status == PAID || o.status == CLOSED
    ensures r.Some? ==> r.value.status == CANCELLED
    ensures r.Some? && Truthy(reason) ==>
      r.value == o.(status := CANCELLED, notes := Some(CancelNotes(o.notes, reason.value)), updatedAt := At(now))
    ensures r.Some? && !Truthy(reason) && o.status != CANCELLED ==> r.value == o.(status := CANCELLED, updatedAt := At(now))
    ensures r.Some? && !Truthy(reason) && o.status == CANCELLED ==> r.value == o
  {
    if o.status in [PAID, CLOSED] then None
    else
      var c := if Truthy(reason) then o.(status := CANCELLED, notes := Some(CancelNotes(o.notes, reason.value)))
               else o.(status := CANCELLED);
      if c == o then Some(o) else Some(c.(updatedAt := At(now)))
  }

  /** A cancelled order can be cancelled again, later and without a reason, and stays as it is. */
  lemma CancelAgain(o: OrderRecord, reason: Option<string>, now: int, later: int)
    requires Cancelled(o, reason, now).Some?
    ensures Cancelled(Cancelled(o, reason, now).value, None, later) == Cancelled(o, reason, now)
  {
  }

  method CancelOrder(order: Order?, reason: Option<string>, now: int) returns (success: bool, message: string)
    modifies order
    ensures order == null ==> !success && message == NOT_FOUND_MESSAGE
    ensures order != null ==> success == Cancelled(old(order.Value()), reason, now).Some?
    ensures order != null && success ==> (message == CANCELLED_MESSAGE
      && order.Value() == Cancelled(old(order.Value()), reason, now).value)
    ensures order != null && !success ==> message == CANCEL_REFUSED_MESSAGE && order.Value() == old(order.Value())
  {
    if order == null {
      return false, NOT_FOUND_MESSAGE;
    }
    if order.status in [PAID, CLOSED] {
      return false, CANCEL_REFUSED_MESSAGE;
    }
    var before := order.Value();
    order.status := CANCELLED;
    if Truthy(reason) {
      order.notes := Some(CancelNotes(order.notes, reason.value));
    }
    if order.Value() != before {
      order.updatedAt := At(now);
    }
    return true, CANCELLED_MESSAGE;
  }

  // ---------------------------------------------------------------- counts by status

  /** The number of orders of `businessId` whose status is `s`. */
  function CountWith(orders: seq<OrderRecord>, businessId: int, s: string): nat
    decreases |orders|
  {
    if orders == [] then 0
    else
      var o := orders[|orders| - 1];
      CountWith(orders[..|orders| - 1], businessId, s) + (if o.businessId == businessId && o.status == s then 1 else 0)
  }

  /** The business has an order with status `s`. */
  predicate HasStatus(orders: seq<OrderRecord>, businessId: int, s: string) {
    exists i :: 0 <= i < |orders| && orders[i].businessId == businessId && orders[i].status == s
  }

  /**
   * `get_orders_by_status_count`: a GROUP BY over the business's orders.
   * The keys are exactly the statuses that occur, each with its count.
   */
  function StatusCounts(orders: seq<OrderRecord>, businessId: int): (m: map<string, nat>)
    ensures forall s :: s in m <==> HasStatus(orders, businessId, s)
    ensures forall s :: s in m ==> m[s] == CountWith(orders, businessId, s) && m[s] >= 1
    decreases |orders|
  {
    if orders == [] then map[]
    else
      var init := orders[..|orders| - 1];
      var o := orders[|orders| - 1];
      var m := StatusCounts(init, businessId);
      HasStatusLast(orders, businessId);
      assert o.status !in m ==> CountWith(init, businessId, o.status) == 0 by {
        if o.status !in m {
          CountWithoutStatus(init, businessId, o.status);
        }
      }
      if o.businessId == businessId then
        m[o.status := (if o.status in m then m[o.status] else 0) + 1]
      else m
  }

  lemma HasStatusLast(orders: seq<OrderRecord>, businessId: int)
    requires orders != []
    ensures var init, o := orders[..|orders| - 1], orders[|orders| - 1];
      forall s :: HasStatus(orders, businessId, s) <==> HasStatus(init, businessId, s) || (o.businessId == businessId && o.status == s)
  {
    var init, o := orders[..|orders| - 1], orders[|orders| - 1];
    forall s | HasStatus(init, businessId, s) ensures HasStatus(orders, businessId, s) {
      var i :| 0 <= i < |init| && init[i].businessId == businessId && init[i].status == s;
      assert orders[i] == init[i];
    }
    forall s | o.businessId == businessId && o.status == s ensures HasStatus(orders, businessId, s) {
      assert orders[|orders| - 1] == o;
    }
  }

  /** A status that does not occur has count zero. */
  lemma {:induction false} CountWithoutStatus(orders: seq<OrderRecord>, businessId: int, s: string)
    requires !HasStatus(orders, businessId, s)
    ensures CountWith(orders, businessId, s) == 0
    decreases |orders|
  {
    if orders != [] {
      var init := orders[..|orders| - 1];
      forall i | 0 <= i < |init|
        ensures !(init[i].businessId == businessId && init[i].status == s)
      {
        assert init[i] == orders[i];
      }
      CountWithoutStatus(init, businessId, s);
    }
  }
}
