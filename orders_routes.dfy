/**
 * The worker endpoints of the orders API (app/routes/api/orders_routes.py):
 * the kanban counts of `get_orders`, the role-gated single-step transitions,
 * the revert to the previous status and the transition-table PUT.
 *
 * Each endpoint is a rule on the order's columns (a function returning the
 * HTTP code and the columns after the request) and a method that carries the
 * rule out on the `Order` object, assigning its fields in place and rolling
 * them back when the handler's `except` path is taken.
 */
module OrdersRoutes {
  import opened Wrappers
  import opened OrderModel
  import JsonValues

  const PLANTA := "planta"
  const REPARTIDOR := "repartidor"

  /** `current_user`: a business owner account, or a Worker with its business and type. */
  datatype Principal = Owner | Staff(businessId: int, workerType: string)

  /** An endpoint's HTTP code and the order's columns after the request (None: no such order). */
  datatype Reply = Reply(code: int, after: Option<OrderRecord>)

  predicate IsStaffOfType(u: Principal, t: string) {
    u.Staff? && u.workerType == t
  }

  /** `o` exists and belongs to the worker's business. */
  predicate OwnOrder(u: Principal, o: Option<OrderRecord>) {
    u.Staff? && o.Some? && o.value.businessId == u.businessId
  }

  /**
   * The guards every worker endpoint starts with, in the handlers' order:
   * the caller's role (any worker when `role` is None), then the order
   * exists, then it is the worker's business. None means all passed.
   */
  function Rejection(u: Principal, role: Option<string>, o: Option<OrderRecord>): (c: Option<int>)
    ensures c.None? <==> OwnOrder(u, o) && (role.Some? ==> u.workerType == role.value)
    ensures c == Some(404) <==> u.Staff? && (role.Some? ==> u.workerType == role.value) && o.None?
    ensures c.Some? ==> c.value == 403 || c.value == 404
  {
    if !u.Staff? || (role.Some? && u.workerType != role.value) then Some(403)
    else if o.None? then Some(404)
    else if o.value.businessId != u.businessId then Some(403)
    else None
  }

  // ---------------------------------------------------------------- counts

  const BY_STATUS_KEYS := [RECEIVED, PREPARING, READY, SENT, PAID, CLOSED]

  /** The number of orders with status `s`. */
  function CountStatus(orders: seq<OrderRecord>, s: string): nat
    decreases |orders|
  {
    if orders == [] then 0
    else CountStatus(orders[..|orders| - 1], s) + (if orders[|orders| - 1].status == s then 1 else 0)
  }

  /** The number of orders whose status has no bucket (cancelled, or anything else). */
  function CountUnbucketed(orders: seq<OrderRecord>): nat
    decreases |orders|
  {
    if orders == [] then 0
    else CountUnbucketed(orders[..|orders| - 1]) + (if orders[|orders| - 1].status in BY_STATUS_KEYS then 0 else 1)
  }

  /** `by_status` of `get_orders`: six buckets, each counting the listed orders with that status. */
  method CountByStatus(orders: seq<OrderRecord>) returns (byStatus: map<string, int>)
    ensures forall k :: k in byStatus <==> k in BY_STATUS_KEYS
    ensures forall k :: k in byStatus ==> byStatus[k] == CountStatus(orders, k)
  {
    byStatus := map[RECEIVED := 0, PREPARING := 0, READY := 0, SENT := 0, PAID := 0, CLOSED := 0];
    var i := 0;
    while i < |orders|
      invariant 0 <= i <= |orders|
      invariant forall k :: k in byStatus <==> k in BY_STATUS_KEYS
      invariant forall k :: k in byStatus ==> byStatus[k] == CountStatus(orders[..i], k)
    {
      assert orders[..i + 1][..i] == orders[..i];
      var s := orders[i].status;
      if s in byStatus {
        byStatus := byStatus[s := byStatus[s] + 1];
      }
      i := i + 1;
    }
    assert orders[..i] == orders;
  }

  /** Every order lands in exactly one bucket or in none: the buckets add up to the orders that have one. */
  lemma {:induction false} BucketsAddUp(orders: seq<OrderRecord>)
    ensures CountStatus(orders, RECEIVED) + CountStatus(orders, PREPARING) + CountStatus(orders, READY)
      + CountStatus(orders, SENT) + CountStatus(orders, PAID) + CountStatus(orders, CLOSED)
      == |orders| - CountUnbucketed(orders)
    ensures CountUnbucketed(orders) >= CountStatus(orders, CANCELLED)
    decreases |orders|
  {
    if orders != [] {
      BucketsAddUp(orders[..|orders| - 1]);
    }
  }

  // ---------------------------------------------------------------- planta

  /**
   * `accept_to_preparing` as intended: a planta worker of the order's
   * business moves a received order to preparing, stamping `accepted_at`
   * and the response time.
   */
  function AcceptToPreparingRule(u: Principal, o: Option<OrderRecord>, now: int): (r: Reply)
    ensures r.code == 200 || r.code == 400 || r.code == 403 || r.code == 404 || r.code == 500
    ensures r.code != 200 ==> r.after == o
    ensures r.code == 200 <==> (IsStaffOfType(u, PLANTA) && OwnOrder(u, o) && o.value.status == RECEIVED
      && o.value.createdAt != Deferred)
    ensures r.code == 400 <==> IsStaffOfType(u, PLANTA) && OwnOrder(u, o) && o.value.status != RECEIVED
    ensures r.code == 200 ==> r.after == Some(o.value.(status := PREPARING, updatedAt := At(now),
      times := o.value.times.(acceptedAt := At(now),
                              responseTimeSeconds := if o.value.createdAt.At? then Some(now - o.value.createdAt.t)
                                                     else o.value.times.responseTimeSeconds)))
  {
    match Rejection(u, Some(PLANTA), o)
    case Some(c) => Reply(c, o)
    case None =>
      var v := o.value;
      if v.status != RECEIVED then Reply(400, o)
      else
        var t := v.times.(acceptedAt := At(now));
        if v.createdAt.IsSet() then
          match Seconds(At(now), v.createdAt)
          case None => Reply(500, o)
          case Some(d) => Reply(200, Some(v.(status := PREPARING, updatedAt := At(now),
                                             times := t.(responseTimeSeconds := Some(d)))))
        else Reply(200, Some(v.(status := PREPARING, updatedAt := At(now), times := t)))
  }

  /**
   * `accept_to_preparing` as written: `accepted_at` receives a lambda and
   * the response time is its difference with `created_at`.
   */
  function AcceptToPreparingAsWritten(u: Principal, o: Option<OrderRecord>, now: int): (r: Reply)
    ensures r.code != 200 ==> r.after == o
    ensures r.code == 200 <==> (IsStaffOfType(u, PLANTA) && OwnOrder(u, o) && o.value.status == RECEIVED
      && o.value.createdAt.Unset?)
    ensures r.code == 200 ==> r.after == Some(o.value.(status := PREPARING, updatedAt := At(now),
                                                       times := o.value.times.(acceptedAt := Deferred)))
  {
    match Rejection(u, Some(PLANTA), o)
    case Some(c) => Reply(c, o)
    case None =>
      var v := o.value;
      if v.status != RECEIVED then Reply(400, o)
      else
        var t := v.times.(acceptedAt := Deferred);
        if v.createdAt.IsSet() then
          match Seconds(Deferred, v.createdAt)
          case None => Reply(500, o)
          case Some(d) => Reply(200, Some(v.(status := PREPARING, updatedAt := At(now),
                                             times := t.(responseTimeSeconds := Some(d)))))
        else Reply(200, Some(v.(status := PREPARING, updatedAt := At(now), times := t)))
  }

  /**
   * As written, accepting any order that has a creation time (the column
   * default gives every order one) ends in the `except` path: 500 and the
   * order stays received; the intended rule accepts it.
   */
  lemma AcceptToPreparingAlwaysFails(u: Principal, o: Option<OrderRecord>, now: int)
    requires IsStaffOfType(u, PLANTA) && OwnOrder(u, o) && o.value.status == RECEIVED && o.value.createdAt.At?
    ensures AcceptToPreparingAsWritten(u, o, now) == Reply(500, o)
    ensures AcceptToPreparingRule(u, o, now).code == 200
  {
  }

  method AcceptToPreparing(u: Principal, order: Order?, now: int) returns (code: int)
    modifies order
    ensures code == AcceptToPreparingRule(u, old(Lookup(order)), now).code
    ensures Lookup(order) == AcceptToPreparingRule(u, old(Lookup(order)), now).after
  {
    if !(u.Staff? && u.workerType == PLANTA) {
      return 403;
    }
    if order == null {
      return 404;
    }
    if order.businessId != u.businessId {
      return 403;
    }
    if order.status != RECEIVED {
      return 400;
    }
    var saved := order.Value();
    order.status := PREPARING;
    order.updatedAt := At(now);
    order.times := order.times.(acceptedAt := At(now));
    if order.createdAt.IsSet() {
      var d := Seconds(order.times.acceptedAt, order.createdAt);
      if d.None? {
        order.Restore(saved);
        return 500;
      }
      order.times := order.times.(responseTimeSeconds := d);
    }
    return 200;
  }

  /**
   * `mark_order_ready` as intended: a planta worker of the order's business
   * moves a preparing order to ready, stamping `ready_at` and, when the order
   * was accepted, the preparation time.
   */
  function MarkReadyRule(u: Principal, o: Option<OrderRecord>, now: int): (r: Reply)
    ensures r.code == 200 || r.code == 400 || r.code == 403 || r.code == 404 || r.code == 500
    ensures r.code != 200 ==> r.after == o
    ensures r.code == 200 <==> (IsStaffOfType(u, PLANTA) && OwnOrder(u, o) && o.value.status == PREPARING
      && o.value.times.acceptedAt != Deferred)
    ensures r.code == 400 <==> IsStaffOfType(u, PLANTA) && OwnOrder(u, o) && o.value.status != PREPARING
    ensures r.code == 200 ==> r.after == Some(o.value.(status := READY, updatedAt := At(now),
      times := o.value.times.(readyAt := At(now),
                              preparationTimeSeconds := if o.value.times.acceptedAt.At?
                                                        then Some(now - o.value.times.acceptedAt.t)
                                                        else o.value.times.preparationTimeSeconds)))
  {
    match Rejection(u, Some(PLANTA), o)
    case Some(c) => Reply(c, o)
    case None =>
      var v := o.value;
      if v.status != PREPARING then Reply(400, o)
      else
        var t := v.times.(readyAt := At(now));
        if v.times.acceptedAt.IsSet() then
          match Seconds(At(now), v.times.acceptedAt)
          case None => Reply(500, o)
          case Some(d) => Reply(200, Some(v.(status := READY, updatedAt := At(now),
                                             times := t.(preparationTimeSeconds := Some(d)))))
        else Reply(200, Some(v.(status := READY, updatedAt := At(now), times := t)))
  }

  /** `mark_order_ready` as written: `ready_at` receives a lambda before the subtraction. */
  function MarkReadyAsWritten(u: Principal, o: Option<OrderRecord>, now: int): (r: Reply)
    ensures r.code != 200 ==> r.after == o
    ensures r.code == 200 <==> (IsStaffOfType(u, PLANTA) && OwnOrder(u, o) && o.value.status == PREPARING
      && o.value.times.acceptedAt.Unset?)
    ensures r.code == 200 ==> r.after == Some(o.value.(status := READY, updatedAt := At(now),
                                                       times := o.value.times.(readyAt := Deferred)))
  {
    match Rejection(u, Some(PLANTA), o)
    case Some(c) => Reply(c, o)
    case None =>
      var v := o.value;
      if v.status != PREPARING then Reply(400, o)
      else
        var t := v.times.(readyAt := Deferred);
        if v.times.acceptedAt.IsSet() then
          match Seconds(Deferred, v.times.acceptedAt)
          case None => Reply(500, o)
          case Some(d) => Reply(200, Some(v.(status := READY, updatedAt := At(now),
                                             times := t.(preparationTimeSeconds := Some(d)))))
        else Reply(200, Some(v.(status := READY, updatedAt := At(now), times := t)))
  }

  /** As written, marking ready an order that was accepted fails with 500; the intended rule marks it. */
  lemma MarkReadyFailsOnceAccepted(u: Principal, o: Option<OrderRecord>, now: int)
    requires IsStaffOfType(u, PLANTA) && OwnOrder(u, o) && o.value.status == PREPARING && o.value.times.acceptedAt.At?
    ensures MarkReadyAsWritten(u, o, now) == Reply(500, o)
    ensures MarkReadyRule(u, o, now).code == 200
  {
  }

  method MarkOrderReady(u: Principal, order: Order?, now: int) returns (code: int)
    modifies order
    ensures code == MarkReadyRule(u, old(Lookup(order)), now).code
    ensures Lookup(order) == MarkReadyRule(u, old(Lookup(order)), now).after
  {
    if !(u.Staff? && u.workerType == PLANTA) {
      return 403;
    }
    if order == null {
      return 404;
    }
    if order.businessId != u.businessId {
      return 403;
    }
    if order.status != PREPARING {
      return 400;
    }
    var saved := order.Value();
    order.status := READY;
    order.updatedAt := At(now);
    order.times := order.times.(readyAt := At(now));
    if order.times.acceptedAt.IsSet() {
      var d := Seconds(order.times.readyAt, order.times.acceptedAt);
      if d.None? {
        order.Restore(saved);
        return 500;
      }
      order.times := order.times.(preparationTimeSeconds := d);
    }
    // The WhatsApp notice that follows is a network call; its outcome does not change the reply code.
    return 200;
  }

  // ---------------------------------------------------------------- revert

  /** `cancel_map`: the status an order goes back to. */
  function RevertTarget(s: string): Option<string> {
    if s == PREPARING then Some(RECEIVED)
    else if s == READY then Some(PREPARING)
    else if s == SENT then Some(READY)
    else if s == PAID then Some(SENT)
    else None
  }

  /** The timestamps the revert clears, by the status it goes back to. */
  function Cleared(t: Times, target: string): (c: Times)
    ensures target == RECEIVED ==> c == t.(acceptedAt := Unset, responseTimeSeconds := None)
    ensures target == PREPARING ==> c == t.(readyAt := Unset, preparationTimeSeconds := None)
    ensures target == READY ==> c == t.(deliveredAt := Unset)
    ensures target !in [RECEIVED, PREPARING, READY] ==> c == t
    ensures c.preparingAt == t.preparingAt && c.sentAt == t.sentAt && c.paidAt == t.paidAt
  {
    if target == RECEIVED then t.(acceptedAt := Unset, responseTimeSeconds := None)
    else if target == PREPARING then t.(readyAt := Unset, preparationTimeSeconds := None)
    else if target == READY then t.(deliveredAt := Unset)
    else t
  }

  /** `cancel_to_previous`: any worker of the order's business moves it one step back. */
  function RevertRule(u: Principal, o: Option<OrderRecord>, now: int): (r: Reply)
    ensures r.code == 200 || r.code == 400 || r.code == 403 || r.code == 404
    ensures r.code != 200 ==> r.after == o
    ensures r.code == 200 <==> OwnOrder(u, o) && RevertTarget(o.value.status).Some?
    ensures r.code == 400 <==> OwnOrder(u, o) && RevertTarget(o.value.status).None?
    ensures r.code == 200 ==>
      (var p := RevertTarget(o.value.status).value;
       r.after == Some(o.value.(status := p, updatedAt := At(now), times := Cleared(o.value.times, p))))
  {
    match Rejection(u, None, o)
    case Some(c) => Reply(c, o)
    case None =>
      var v := o.value;
      match RevertTarget(v.status)
      case None => Reply(400, o)
      case Some(p) => Reply(200, Some(v.(status := p, updatedAt := At(now), times := Cleared(v.times, p))))
  }

  method CancelToPrevious(u: Principal, order: Order?, now: int) returns (code: int)
    modifies order
    ensures code == RevertRule(u, old(Lookup(order)), now).code
    ensures Lookup(order) == RevertRule(u, old(Lookup(order)), now).after
  {
    if !u.Staff? {
      return 403;
    }
    if order == null {
      return 404;
    }
    if order.businessId != u.businessId {
      return 403;
    }
    var previous := RevertTarget(order.status);
    if previous.None? {
      return 400;
    }
    order.status := previous.value;
    order.updatedAt := At(now);
    if previous.value == RECEIVED {
      order.times := order.times.(acceptedAt := Unset, responseTimeSeconds := None);
    } else if previous.value == PREPARING {
      order.times := order.times.(readyAt := Unset, preparationTimeSeconds := None);
    } else if previous.value == READY {
      order.times := order.times.(deliveredAt := Unset);
    }
    return 200;
  }

  /** The legacy `/cancel` route is the revert. */
  method CancelOrderWorker(u: Principal, order: Order?, now: int) returns (code: int)
    modifies order
    ensures code == RevertRule(u, old(Lookup(order)), now).code
    ensures Lookup(order) == RevertRule(u, old(Lookup(order)), now).after
  {
    code := CancelToPrevious(u, order, now);
  }

  // ---------------------------------------------------------------- repartidor

  /**
   * `accept_to_sent`: a repartidor of the order's business moves a ready
   * order to sent; `delivered_at` receives the handler's lambda.
   */
  function AcceptToSentRule(u: Principal, o: Option<OrderRecord>, now: int): (r: Reply)
    ensures r.code == 200 || r.code == 400 || r.code == 403 || r.code == 404
    ensures r.code != 200 ==> r.after == o
    ensures r.code == 200 <==> IsStaffOfType(u, REPARTIDOR) && OwnOrder(u, o) && o.value.status == READY
    ensures r.code == 200 ==>
      r.after == Some(o.value.(status := SENT, updatedAt := At(now), times := o.value.times.(deliveredAt := Deferred)))
  {
    match Rejection(u, Some(REPARTIDOR), o)
    case Some(c) => Reply(c, o)
    case None =>
      var v := o.value;
      if v.status != READY then Reply(400, o)
      else Reply(200, Some(v.(status := SENT, updatedAt := At(now), times := v.times.(deliveredAt := Deferred))))
  }

  method AcceptToSent(u: Principal, order: Order?, now: int) returns (code: int)
    modifies order
    ensures code == AcceptToSentRule(u, old(Lookup(order)), now).code
    ensures Lookup(order) == AcceptToSentRule(u, old(Lookup(order)), now).after
  {
    if !(u.Staff? && u.workerType == REPARTIDOR) {
      return 403;
    }
    if order == null {
      return 404;
    }
    if order.businessId != u.businessId {
      return 403;
    }
    if order.status != READY {
      return 400;
    }
    order.status := SENT;
    order.updatedAt := At(now);
    order.times := order.times.(deliveredAt := Deferred);
    return 200;
  }

  /** `mark_order_paid`: a repartidor of the order's business closes a sent order; it never becomes paid. */
  function MarkPaidRule(u: Principal, o: Option<OrderRecord>, now: int): (r: Reply)
    ensures r.code == 200 || r.code == 400 || r.code == 403 || r.code == 404
    ensures r.code != 200 ==> r.after == o
    ensures r.code == 200 <==> IsStaffOfType(u, REPARTIDOR) && OwnOrder(u, o) && o.value.status == SENT
    ensures r.code == 200 ==> r.after == Some(o.value.(status := CLOSED, updatedAt := At(now)))
  {
    match Rejection(u, Some(REPARTIDOR), o)
    case Some(c) => Reply(c, o)
    case None =>
      var v := o.value;
      if v.status != SENT then Reply(400, o)
      else Reply(200, Some(v.(status := CLOSED, updatedAt := At(now))))
  }

  method MarkOrderPaid(u: Principal, order: Order?, now: int) returns (code: int)
    modifies order
    ensures code == MarkPaidRule(u, old(Lookup(order)), now).code
    ensures Lookup(order) == MarkPaidRule(u, old(Lookup(order)), now).after
  {
    if !(u.Staff? && u.workerType == REPARTIDOR) {
      return 403;
    }
    if order == null {
      return 404;
    }
    if order.businessId != u.businessId {
      return 403;
    }
    if order.status != SENT {
      return 400;
    }
    order.status := CLOSED;
    order.updatedAt := At(now);
    return 200;
  }

  /** A paid-and-closed order cannot be reverted: the revert map has no entry for closed. */
  lemma PaidOrderCannotBeReverted(u: Principal, o: Option<OrderRecord>, now: int, later: int)
    requires MarkPaidRule(u, o, now).code == 200
    ensures RevertRule(u, MarkPaidRule(u, o, now).after, later).code == 400
  {
  }

  // ---------------------------------------------------------------- PUT /status

  /** The `allowed_transitions` table for a worker type; None for a type with no table. */
  function Transitions(workerType: string): Option<map<string, seq<string>>> {
    if workerType == PLANTA then Some(map[RECEIVED := [PREPARING], PREPARING := [READY]])
    else if workerType == REPARTIDOR then Some(map[READY := [SENT], SENT := [PAID]])
    else None
  }

  /** The transitions the PUT endpoint lets each worker type make, listed pair by pair. */
  predicate PutAllowed(workerType: string, from: string, to: string) {
    || (workerType == PLANTA && from == RECEIVED && to == PREPARING)
    || (workerType == PLANTA && from == PREPARING && to == READY)
    || (workerType == REPARTIDOR && from == READY && to == SENT)
    || (workerType == REPARTIDOR && from == SENT && to == PAID)
  }

  /** The timestamp column the PUT endpoint sets for a target status. */
  function Stamped(t: Times, target: string, now: int): (c: Times)
    ensures target == PREPARING ==> c == t.(preparingAt := At(now))
    ensures target == READY ==> c == t.(readyAt := At(now))
    ensures target == SENT ==> c == t.(sentAt := At(now))
    ensures target == PAID ==> c == t.(paidAt := At(now))
    ensures c.acceptedAt == t.acceptedAt && c.deliveredAt == t.deliveredAt
  {
    if target == PREPARING then t.(preparingAt := At(now))
    else if target == READY then t.(readyAt := At(now))
    else if target == SENT then t.(sentAt := At(now))
    else if target == PAID then t.(paidAt := At(now))
    else t
  }

  /** `data.get('status')` of a dict body: the value bound to `status`, None (JNull) when absent. */
  function BodyStatus(body: JsonValues.Json): JsonValues.Json
    requires body.JObj?
  {
    JsonValues.GetOr(body.fields, "status", JsonValues.JNull)
  }

  /**
   * `update_order_status_worker`: the worker's type decides which status
   * pairs it may move along. `body` is what `request.get_json()` parsed,
   * None when it raises; a body that is not a dict makes `data.get` raise,
   * and the `except` answers 500.
   */
  function PutStatusRule(u: Principal, body: Option<JsonValues.Json>, o: Option<OrderRecord>, now: int): (r: Reply)
    ensures r.code == 200 || r.code == 400 || r.code == 403 || r.code == 404 || r.code == 500
    ensures r.code != 200 ==> r.after == o
    ensures r.code == 500 <==> u.Staff? && !(body.Some? && body.value.JObj?)
    ensures r.code == 200 <==> (OwnOrder(u, o) && body.Some? && body.value.JObj? && BodyStatus(body.value).JStr?
      && PutAllowed(u.workerType, o.value.status, BodyStatus(body.value).s))
    ensures r.code == 200 ==> (var target := BodyStatus(body.value).s;
      r.after == Some(o.value.(status := target, updatedAt := At(now), times := Stamped(o.value.times, target, now))))
  {
    if !u.Staff? then Reply(403, o)
    else if body.None? || !body.value.JObj? then Reply(500, o)
    else
      var status := BodyStatus(body.value);
      if !JsonValues.Truthy(status) then Reply(400, o)
      else if o.None? then Reply(404, o)
      else if o.value.businessId != u.businessId then Reply(403, o)
      else
        match Transitions(u.workerType)
        case None => Reply(403, o)
        case Some(allowed) =>
          var v := o.value;
          if v.status !in allowed then Reply(400, o)
          // `in` on the list compares with ==: only a string can be one of the targets
          else if !status.JStr? || status.s !in allowed[v.status] then Reply(400, o)
          else Reply(200, Some(v.(status := status.s, updatedAt := At(now),
                                  times := Stamped(v.times, status.s, now))))
  }

  method UpdateOrderStatusWorker(u: Principal, body: Option<JsonValues.Json>, order: Order?, now: int) returns (code: int)
    modifies order
    ensures code == PutStatusRule(u, body, old(Lookup(order)), now).code
    ensures Lookup(order) == PutStatusRule(u, body, old(Lookup(order)), now).after
  {
    if !u.Staff? {
      return 403;
    }
    if body.None? || !body.value.JObj? {
      return 500;
    }
    var status := BodyStatus(body.value);
    if !JsonValues.Truthy(status) {
      return 400;
    }
    if order == null {
      return 404;
    }
    if order.businessId != u.businessId {
      return 403;
    }
    var allowed := Transitions(u.workerType);
    if allowed.None? {
      return 403;
    }
    var current := order.status;
    if current !in allowed.value {
      return 400;
    }
    if !status.JStr? || status.s !in allowed.value[current] {
      return 400;
    }
    var target := status.s;
    order.status := target;
    order.updatedAt := At(now);
    if target == PREPARING {
      order.times := order.times.(preparingAt := At(now));
    } else if target == READY {
      order.times := order.times.(readyAt := At(now));
    } else if target == SENT {
      order.times := order.times.(sentAt := At(now));
    } else if target == PAID {
      order.times := order.times.(paidAt := At(now));
    }
    return 200;
  }

  /** The revert map is exactly the inverse of the PUT transitions, over both worker types. */
  lemma RevertInvertsPut(from: string, to: string)
    ensures RevertTarget(to) == Some(from) <==> PutAllowed(PLANTA, from, to) || PutAllowed(REPARTIDOR, from, to)
  {
  }

  /**
   * On the columns, the revert is not an inverse: after a PUT to preparing
   * and a revert, the status is back to received but `preparing_at` stays.
   */
  lemma RevertKeepsPreparingAt(u: Principal, o: Option<OrderRecord>, now: int, later: int)
    requires IsStaffOfType(u, PLANTA) && OwnOrder(u, o) && o.value.status == RECEIVED
    ensures var fwd := PutStatusRule(u, Some(JsonValues.JObj([("status", JsonValues.JStr(PREPARING))])), o, now);
      var back := RevertRule(u, fwd.after, later);
      && fwd.code == 200 && back.code == 200
      && back.after.value.status == RECEIVED
      && back.after.value.times.preparingAt == At(now)
  {
  }
}
