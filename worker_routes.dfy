/**
 * The one-button "mark ready" endpoint of the workers API
 * (app/routes/api/worker_routes.py): its guard sequence, the order update
 * and the notification it leaves for the business owner.
 *
 * The WhatsApp send is an input saying whether it went through; the
 * worker's `can_mark_ready` permission is an input as well.
 */
module WorkerRoutes {
  import opened Wrappers
  import opened Text
  import opened OrderModel
  import opened WorkerService
  import OrdersRoutes

  /** A row of the notifications table, as this endpoint fills it. */
  datatype Notification = Notification(
    userId: int,
    title: string,
    message: string,
    notificationType: string,
    isRead: bool,
    relatedOrderId: int)

  /** The notifications committed so far. */
  class NotificationLog {
    var entries: seq<Notification>

    constructor ()
      ensures entries == []
    {
      entries := [];
    }
  }

  /**
   * What `request.json` gives the handler: no JSON at all (Flask raises),
   * JSON that is not an object (`data.get` raises), or an object with its
   * `worker_id`.
   */
  datatype ReadyBody = NotJson | NotObject | Object(workerId: Option<int>)

  /** `str(v)` for a value that a worker's name column may hold. */
  function Str(v: Value): (s: string)
    ensures v.VStr? ==> s == v.s
  {
    match v
    case VStr(s) => s
    case VBool(b) => if b then "True" else "False"
    case VInt(i) => IntToString(i)
    case VNone => "None"
  }

  /** `WorkerService.get_worker_by_id`. */
  function WorkerById(workers: seq<WorkerRecord>, id: int): (r: Option<WorkerRecord>)
    ensures r.Some? <==> exists j :: 0 <= j < |workers| && workers[j].id == id
    ensures r.Some? ==> r.value in workers && r.value.id == id
  {
    match FindById(workers, id)
    case None => None
    case Some(i) => Some(workers[i])
  }

  /**
   * The guards in the handler's order; the code of the first that fails,
   * or None. A falsy `worker_id` (absent or 0) is a 400, the worker is
   * looked up before the order, and the permission before the business.
   */
  function ReadyGuard(workerId: Option<int>, workers: seq<WorkerRecord>, canMarkReady: bool,
                      o: Option<OrderRecord>): (c: Option<int>)
    ensures (workerId.None? || workerId.value == 0) ==> c == Some(400)
    ensures c.None? <==> (workerId.Some? && workerId.value != 0 && WorkerById(workers, workerId.value).Some?
      && o.Some? && canMarkReady && o.value.businessId == WorkerById(workers, workerId.value).value.businessId
      && o.value.status == PREPARING)
    ensures c == Some(404) <==> (workerId.Some? && workerId.value != 0
      && (WorkerById(workers, workerId.value).None? || o.None?))
    ensures c == Some(403) <==> (workerId.Some? && workerId.value != 0 && WorkerById(workers, workerId.value).Some?
      && o.Some? && (!canMarkReady || o.value.businessId != WorkerById(workers, workerId.value).value.businessId))
  {
    if workerId.None? || workerId.value == 0 then Some(400)
    else
      match WorkerById(workers, workerId.value)
      case None => Some(404)
      case Some(w) =>
        if o.None? then Some(404)
        else if !canMarkReady then Some(403)
        else if o.value.businessId != w.businessId then Some(403)
        else if o.value.status != PREPARING then Some(400)
        else None
  }

  /**
   * The update as committed: `ready`, `ready_at` now and, when
   * `accepted_at` is set, the preparation time; the commit refreshes
   * `updated_at` (its `onupdate`). None where the subtraction raises (an
   * `accepted_at` holding a lambda).
   */
  function ReadyUpdate(o: OrderRecord, now: int): (r: Option<OrderRecord>)
    ensures r.None? <==> o.times.acceptedAt == Deferred
    ensures r.Some? ==> (r.value == o.(status := READY, updatedAt := At(now), times := r.value.times)
      && r.value.times == o.times.(readyAt := At(now), preparationTimeSeconds := r.value.times.preparationTimeSeconds)
      && (o.times.acceptedAt.At? ==> r.value.times.preparationTimeSeconds == Some(now - o.times.acceptedAt.t))
      && (o.times.acceptedAt.Unset? ==> r.value.times.preparationTimeSeconds == o.times.preparationTimeSeconds))
  {
    var t := o.times.(readyAt := At(now));
    if o.times.acceptedAt.IsSet() then
      match Seconds(At(now), o.times.acceptedAt)
      case None => None
      case Some(d) => Some(o.(status := READY, updatedAt := At(now), times := t.(preparationTimeSeconds := Some(d))))
    else Some(o.(status := READY, updatedAt := At(now), times := t))
  }

  /** The owner notification the endpoint commits after marking `o` ready. */
  function ReadyNotification(ownerUserId: int, worker: WorkerRecord, o: OrderRecord): (n: Notification)
    ensures n.userId == ownerUserId && n.relatedOrderId == o.id && n.title == "Pedido Listo"
    ensures n.notificationType == "success" && !n.isRead
    ensures Contains(n.message, o.orderNumber)
  {
    var prefix := "El trabajador " + Str(worker.fullName) + " marcó el pedido #";
    var m := prefix + o.orderNumber + " como listo";
    assert m[|prefix|..|prefix| + |o.orderNumber|] == o.orderNumber;
    assert OccursAt(m, o.orderNumber, |prefix|);
    ContainsAt(m, o.orderNumber);
    Notification(ownerUserId, "Pedido Listo", m, "success", false, o.id)
  }

  /**
   * `mark_order_ready`. A body that is not a JSON object is a 500 that
   * changes nothing; a rejected request changes nothing; a failing
   * subtraction is rolled back with 500. Otherwise the order is committed
   * as `ReadyUpdate` says, whether or not the WhatsApp message went out,
   * and then the owner notification is built: with the order's business
   * it is added and the reply is 200; without one (`order.business` is
   * None) building it raises, and the reply is 500 with the order already
   * committed and no notification.
   */
  method MarkOrderReady(body: ReadyBody, workers: seq<WorkerRecord>, canMarkReady: bool, order: Order?,
                        ownerUserId: Option<int>, whatsappOk: bool, now: int, log: NotificationLog)
    returns (code: int, notificationSent: bool)
    modifies order, log
    ensures !body.Object? ==> code == 500 && Lookup(order) == old(Lookup(order)) && log.entries == old(log.entries)
    ensures body.Object? ==>
      var g := ReadyGuard(body.workerId, workers, canMarkReady, old(Lookup(order)));
      if g.Some? then code == g.value && Lookup(order) == old(Lookup(order)) && log.entries == old(log.entries)
      else
        var u := ReadyUpdate(old(order.Value()), now);
        if u.None? then code == 500 && order.Value() == old(order.Value()) && log.entries == old(log.entries)
        else if ownerUserId.None? then code == 500 && order.Value() == u.value && log.entries == old(log.entries)
        else (code == 200 && order.Value() == u.value && notificationSent == whatsappOk
          && log.entries == old(log.entries)
               + [ReadyNotification(ownerUserId.value, WorkerById(workers, body.workerId.value).value, u.value)])
  {
    if !body.Object? {
      return 500, false;
    }
    var workerId := body.workerId;
    var before := Lookup(order);
    var g := ReadyGuard(workerId, workers, canMarkReady, before);
    if g.Some? {
      return g.value, false;
    }
    var worker := WorkerById(workers, workerId.value).value;
    var saved := order.Value();
    order.status := READY;
    order.updatedAt := At(now);
    order.times := order.times.(readyAt := At(now));
    if order.times.acceptedAt.IsSet() {
      var d := Seconds(order.times.readyAt, order.times.acceptedAt);
      if d.None? {
        order.Restore(saved);
        return 500, false;
      }
      order.times := order.times.(preparationTimeSeconds := Some(d.value));
    }
    notificationSent := whatsappOk;
    if ownerUserId.None? {
      // The rollback in the `except` comes after the first commit and undoes nothing.
      return 500, notificationSent;
    }
    log.entries := log.entries + [ReadyNotification(ownerUserId.value, worker, order.Value())];
    code := 200;
  }

  /**
   * Where both return 200, this endpoint and the planta endpoint of the
   * orders API leave the order in the same state.
   */
  lemma AgreesWithOrdersEndpoint(workers: seq<WorkerRecord>, workerId: int, o: OrderRecord, now: int)
    requires workerId != 0 && ReadyGuard(Some(workerId), workers, true, Some(o)).None?
    requires o.times.acceptedAt != Deferred
    ensures var w := WorkerById(workers, workerId).value;
      var r := OrdersRoutes.MarkReadyRule(OrdersRoutes.Staff(w.businessId, OrdersRoutes.PLANTA), Some(o), now);
      r.code == 200 && r.after == ReadyUpdate(o, now)
  {
  }
}
