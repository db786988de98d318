/**
 * WorkerService (app/services/worker_service.py): worker creation with its
 * ordered checks, the allowed-field update, deactivation, authentication,
 * assigning orders to workers, and the per-worker order listing and
 * statistics.
 *
 * The workers table is a `WorkerTable` object whose rows the methods
 * reassign. Password hashing is a pair of function parameters. A worker's
 * assigned orders are an input: the model classes declare no such relation.
 */
module WorkerService {
  import opened Wrappers
  import opened OrderModel
  import opened Seqs

  const PLANTA := "planta"
  const REPARTIDOR := "repartidor"

  const BUSINESS_NOT_FOUND := "Negocio no encontrado"
  const INVALID_TYPE := "Tipo de trabajador inválido. Debe ser \"planta\" o \"repartidor\""
  const EMAIL_TAKEN := "El email ya está registrado"
  const PHONE_TAKEN := "El teléfono ya está registrado"
  const CREATED := "Trabajador creado exitosamente"
  const WORKER_NOT_FOUND := "Trabajador no encontrado"
  const UPDATED := "Trabajador actualizado exitosamente"
  const DEACTIVATED := "Trabajador desactivado exitosamente"
  const BAD_CREDENTIALS := "Credenciales inválidas"
  const ACCOUNT_DISABLED := "La cuenta está desactivada"
  const AUTHENTICATED := "Autenticación exitosa"
  const ORDER_NOT_FOUND := "Pedido no encontrado"
  const OTHER_BUSINESS := "El trabajador no pertenece a este negocio"
  const ASSIGNED := "Pedido asignado exitosamente"
  const ALREADY_ASSIGNED := "El pedido ya está asignado a este trabajador"
  const NOT_FOUND_EITHER := "Pedido o trabajador no encontrado"
  const UNASSIGNED := "Pedido desasignado exitosamente"
  const NOT_ASSIGNED := "El pedido no está asignado a este trabajador"

  /** A Python value as it may arrive through `**kwargs` and be stored by `setattr`. */
  datatype Value = VStr(s: string) | VBool(b: bool) | VInt(i: int) | VNone {
    /** Python truthiness. */
    predicate Truthy() {
      match this
      case VStr(s) => s != ""
      case VBool(b) => b
      case VInt(i) => i != 0
      case VNone => false
    }
  }

  /** `worker_type in ['planta', 'repartidor']`. */
  predicate ValidType(v: Value) {
    v == VStr(PLANTA) || v == VStr(REPARTIDOR)
  }

  /** A workers row (app/data/models/worker.py); the fields `update_worker` may set hold any value. */
  datatype WorkerRecord = WorkerRecord(
    id: int,
    businessId: int,
    email: string,
    passwordHash: string,
    fullName: Value,
    phone: Value,
    workerType: Value,
    isActive: Value,
    updatedAt: Stamp,
    lastLogin: Stamp)

  /** `Worker.query.get(id)`: the row with that id. */
  function FindById(rows: seq<WorkerRecord>, id: int): (r: Option<nat>)
    ensures r.Some? ==> r.value < |rows| && rows[r.value].id == id
    ensures r.None? ==> forall j :: 0 <= j < |rows| ==> rows[j].id != id
    decreases |rows|
  {
    if rows == [] then None
    else if rows[0].id == id then Some(0)
    else match FindById(rows[1..], id)
      case None => None
      case Some(k) => Some(k + 1)
  }

  /** `Worker.query.filter_by(email=…).first()`. */
  function FindByEmail(rows: seq<WorkerRecord>, email: string): (r: Option<nat>)
    ensures r.Some? ==> r.value < |rows| && rows[r.value].email == email
    ensures r.Some? ==> forall j :: 0 <= j < r.value ==> rows[j].email != email
    ensures r.None? ==> forall j :: 0 <= j < |rows| ==> rows[j].email != email
    decreases |rows|
  {
    if rows == [] then None
    else if rows[0].email == email then Some(0)
    else match FindByEmail(rows[1..], email)
      case None => None
      case Some(k) => Some(k + 1)
  }

  predicate PhoneTaken(rows: seq<WorkerRecord>, phone: string) {
    exists j :: 0 <= j < |rows| && rows[j].phone == VStr(phone)
  }

  // ---------------------------------------------------------------- create

  /**
   * The checks of `create_worker`, in their order; the first that fails
   * gives the message, and None means the worker can be created.
   */
  function CreateRejection(businesses: set<int>, rows: seq<WorkerRecord>, businessId: int,
                           email: string, phone: string, workerType: string): (r: Option<string>)
    ensures r.None? <==> (businessId in businesses && ValidType(VStr(workerType))
      && FindByEmail(rows, email).None? && !PhoneTaken(rows, phone))
    ensures businessId !in businesses ==> r == Some(BUSINESS_NOT_FOUND)
    ensures businessId in businesses && !ValidType(VStr(workerType)) ==> r == Some(INVALID_TYPE)
    ensures businessId in businesses && ValidType(VStr(workerType)) && FindByEmail(rows, email).Some? ==> r == Some(EMAIL_TAKEN)
    ensures r == Some(PHONE_TAKEN) <==> (businessId in businesses && ValidType(VStr(workerType))
      && FindByEmail(rows, email).None? && PhoneTaken(rows, phone))
  {
    if businessId !in businesses then Some(BUSINESS_NOT_FOUND)
    else if workerType !in [PLANTA, REPARTIDOR] then Some(INVALID_TYPE)
    else if FindByEmail(rows, email).Some? then Some(EMAIL_TAKEN)
    else if PhoneTaken(rows, phone) then Some(PHONE_TAKEN)
    else None
  }

  /** The workers table and the ids of the businesses it may refer to. */
  class WorkerTable {
    var rows: seq<WorkerRecord>
    var businesses: set<int>
    var nextId: int

    constructor (businesses: set<int>)
      ensures rows == [] && this.businesses == businesses
    {
      rows, this.businesses, nextId := [], businesses, 1;
    }

    /** `create_worker`: on success the new row is active, of the requested type, with the hashed password. */
    method CreateWorker(businessId: int, email: string, password: string, fullName: string, phone: string,
                        workerType: string, hashOf: string -> string, now: int)
      returns (success: bool, message: string, worker: Option<WorkerRecord>)
      modifies this
      ensures businesses == old(businesses)
      ensures success <==> CreateRejection(businesses, old(rows), businessId, email, phone, workerType).None?
      ensures !success ==> (message == CreateRejection(businesses, old(rows), businessId, email, phone, workerType).value
        && worker.None? && rows == old(rows) && nextId == old(nextId))
      ensures success ==> (message == CREATED && worker.Some? && rows == old(rows) + [worker.value]
        && worker.value == WorkerRecord(old(nextId), businessId, email, hashOf(password), VStr(fullName), VStr(phone),
                                        VStr(workerType), VBool(true), At(now), Unset))
    {
      var rejection := CreateRejection(businesses, rows, businessId, email, phone, workerType);
      if rejection.Some? {
        return false, rejection.value, None;
      }
      var w := WorkerRecord(nextId, businessId, email, hashOf(password), VStr(fullName), VStr(phone),
                            VStr(workerType), VBool(true), At(now), Unset);
      rows := rows + [w];
      nextId := nextId + 1;
      return true, CREATED, Some(w);
    }

    /**
     * `update_worker`: an invalid `worker_type` is refused before anything
     * changes; otherwise the allowed fields among the keyword arguments are
     * set and `updated_at` receives the handler's lambda.
     */
    method UpdateWorker(workerId: int, kwargs: seq<(string, Value)>) returns (success: bool, message: string)
      modifies this
      ensures businesses == old(businesses) && nextId == old(nextId)
      ensures FindById(old(rows), workerId).None? ==> !success && message == WORKER_NOT_FOUND && rows == old(rows)
      ensures FindById(old(rows), workerId).Some? ==>
        (var i := FindById(old(rows), workerId).value;
         var t := Kwarg(kwargs, "worker_type");
         if t.Some? && !ValidType(t.value) then (!success && message == INVALID_TYPE && rows == old(rows))
         else (success && message == UPDATED
           && rows == old(rows)[i := SetFields(old(rows)[i], kwargs).(updatedAt := Deferred)]))
    {
      var found := FindById(rows, workerId);
      if found.None? {
        return false, WORKER_NOT_FOUND;
      }
      var t := Kwarg(kwargs, "worker_type");
      if t.Some? && !ValidType(t.value) {
        return false, INVALID_TYPE;
      }
      var i := found.value;
      var w := rows[i];
      var k := 0;
      while k < |kwargs|
        invariant 0 <= k <= |kwargs|
        invariant w == SetFields(rows[i], kwargs[..k])
      {
        assert kwargs[..k + 1][..k] == kwargs[..k];
        w := SetField(w, kwargs[k].0, kwargs[k].1);
        k := k + 1;
      }
      assert kwargs[..k] == kwargs;
      rows := rows[i := w.(updatedAt := Deferred)];
      return true, UPDATED;
    }

    /** `deactivate_worker`: a soft delete. */
    method DeactivateWorker(workerId: int) returns (success: bool, message: string)
      modifies this
      ensures businesses == old(businesses) && nextId == old(nextId)
      ensures success <==> FindById(old(rows), workerId).Some?
      ensures !success ==> message == WORKER_NOT_FOUND && rows == old(rows)
      ensures success ==> (message == DEACTIVATED &&
        var i := FindById(old(rows), workerId).value;
        rows == old(rows)[i := old(rows)[i].(isActive := VBool(false), updatedAt := Deferred)])
    {
      var found := FindById(rows, workerId);
      if found.None? {
        return false, WORKER_NOT_FOUND;
      }
      var i := found.value;
      rows := rows[i := rows[i].(isActive := VBool(false), updatedAt := Deferred)];
      return true, DEACTIVATED;
    }

    /**
     * `authenticate_worker`: on success `last_login` receives the handler's
     * lambda, and the commit of the changed row refreshes `updated_at` (its
     * `onupdate`).
     */
    method AuthenticateWorker(email: string, password: string, checkHash: (string, string) -> bool, now: int)
      returns (success: bool, message: string, worker: Option<WorkerRecord>)
      modifies this
      ensures businesses == old(businesses) && nextId == old(nextId)
      ensures (success, message) == AuthOutcome(old(rows), email, password, checkHash)
      ensures !success ==> worker.None? && rows == old(rows)
      ensures success ==>
        (var i := FindByEmail(old(rows), email).value;
         rows == old(rows)[i := old(rows)[i].(lastLogin := Deferred, updatedAt := At(now))] && worker == Some(rows[i]))
    {
      var found := FindByEmail(rows, email);
      if found.None? {
        return false, BAD_CREDENTIALS, None;
      }
      var i := found.value;
      if !rows[i].isActive.Truthy() {
        return false, ACCOUNT_DISABLED, None;
      }
      if !checkHash(rows[i].passwordHash, password) {
        return false, BAD_CREDENTIALS, None;
      }
      rows := rows[i := rows[i].(lastLogin := Deferred, updatedAt := At(now))];
      return true, AUTHENTICATED, Some(rows[i]);
    }
  }

  // ---------------------------------------------------------------- update

  /** The value of keyword `key`, as the dict holds it (the last one given), or None. */
  function Kwarg(kwargs: seq<(string, Value)>, key: string): (r: Option<Value>)
    ensures r.Some? ==> exists i :: 0 <= i < |kwargs| && kwargs[i] == (key, r.value)
    ensures r.None? ==> forall i :: 0 <= i < |kwargs| ==> kwargs[i].0 != key
    decreases |kwargs|
  {
    if kwargs == [] then None
    else if kwargs[|kwargs| - 1].0 == key then Some(kwargs[|kwargs| - 1].1)
    else
      var r := Kwarg(kwargs[..|kwargs| - 1], key);
      assert forall i :: 0 <= i < |kwargs| - 1 ==> kwargs[..|kwargs| - 1][i] == kwargs[i];
      r
  }

  /** `setattr(worker, field, value)` for the allowed fields; any other key is ignored. */
  function SetField(w: WorkerRecord, field: string, v: Value): WorkerRecord {
    if field == "full_name" then w.(fullName := v)
    else if field == "phone" then w.(phone := v)
    else if field == "worker_type" then w.(workerType := v)
    else if field == "is_active" then w.(isActive := v)
    else w
  }

  /** The setattr loop over the keyword arguments, in order. */
  function SetFields(w: WorkerRecord, kwargs: seq<(string, Value)>): WorkerRecord
    decreases |kwargs|
  {
    if kwargs == [] then w
    else SetField(SetFields(w, kwargs[..|kwargs| - 1]), kwargs[|kwargs| - 1].0, kwargs[|kwargs| - 1].1)
  }

  /**
   * The update sets exactly the four allowed fields that were given, each
   * to its keyword's value, and changes nothing else.
   */
  lemma {:induction false} SetFieldsMeaning(w: WorkerRecord, kwargs: seq<(string, Value)>)
    ensures var r := SetFields(w, kwargs);
      && r.id == w.id && r.businessId == w.businessId && r.email == w.email
      && r.passwordHash == w.passwordHash && r.updatedAt == w.updatedAt && r.lastLogin == w.lastLogin
      && r.fullName == Kwarg(kwargs, "full_name").GetOr(w.fullName)
      && r.phone == Kwarg(kwargs, "phone").GetOr(w.phone)
      && r.workerType == Kwarg(kwargs, "worker_type").GetOr(w.workerType)
      && r.isActive == Kwarg(kwargs, "is_active").GetOr(w.isActive)
    decreases |kwargs|
  {
    if kwargs != [] {
      SetFieldsMeaning(w, kwargs[..|kwargs| - 1]);
    }
  }

  /** After a successful update the worker's type is still one of the two valid ones. */
  lemma UpdateKeepsValidType(w: WorkerRecord, kwargs: seq<(string, Value)>)
    requires ValidType(w.workerType)
    requires Kwarg(kwargs, "worker_type").Some? ==> ValidType(Kwarg(kwargs, "worker_type").value)
    ensures ValidType(SetFields(w, kwargs).workerType)
  {
    SetFieldsMeaning(w, kwargs);
  }

  // ---------------------------------------------------------------- authenticate

  /** The outcome of `authenticate_worker`: (success, message). */
  function AuthOutcome(rows: seq<WorkerRecord>, email: string, password: string,
                       checkHash: (string, string) -> bool): (r: (bool, string))
    ensures r.0 <==> (FindByEmail(rows, email).Some? && rows[FindByEmail(rows, email).value].isActive.Truthy()
      && checkHash(rows[FindByEmail(rows, email).value].passwordHash, password))
    ensures r.0 ==> r.1 == AUTHENTICATED
    ensures !r.0 ==> r.1 == BAD_CREDENTIALS || r.1 == ACCOUNT_DISABLED
  {
    match FindByEmail(rows, email)
    case None => (false, BAD_CREDENTIALS)
    case Some(i) =>
      if !rows[i].isActive.Truthy() then (false, ACCOUNT_DISABLED)
      else if !checkHash(rows[i].passwordHash, password) then (false, BAD_CREDENTIALS)
      else (true, AUTHENTICATED)
  }

  /**
   * An unknown email and a wrong password get the same answer, and an
   * inactive account is refused whatever the password.
   */
  lemma AuthDoesNotTell(rows: seq<WorkerRecord>, email: string, other: string, password: string, password2: string,
                        checkHash: (string, string) -> bool)
    requires FindByEmail(rows, other).None?
    requires FindByEmail(rows, email).Some?
    requires var w := rows[FindByEmail(rows, email).value];
      w.isActive.Truthy() && !checkHash(w.passwordHash, password)
    ensures AuthOutcome(rows, email, password, checkHash) == AuthOutcome(rows, other, password2, checkHash)
  {
  }

  lemma InactiveRefusedBeforePassword(rows: seq<WorkerRecord>, email: string, password: string,
                                      checkHash: (string, string) -> bool)
    requires FindByEmail(rows, email).Some? && !rows[FindByEmail(rows, email).value].isActive.Truthy()
    ensures AuthOutcome(rows, email, password, checkHash) == (false, ACCOUNT_DISABLED)
  {
  }

  // ---------------------------------------------------------------- assignment

  /** `list.remove(x)`: drops the first occurrence. */
  function RemoveFirst(s: seq<int>, x: int): (r: seq<int>)
    requires x in s
    ensures |r| == |s| - 1
    ensures multiset(r) == multiset(s) - multiset{x}
    decreases |s|
  {
    assert s == [s[0]] + s[1..];
    if s[0] == x then s[1..]
    else [s[0]] + RemoveFirst(s[1..], x)
  }

  /** Appending an absent worker and removing it again gives back the list. */
  lemma {:induction false} RemoveAppended(s: seq<int>, x: int)
    requires x !in s
    ensures RemoveFirst(s + [x], x) == s
    decreases |s|
  {
    if s != [] {
      assert (s + [x])[1..] == s[1..] + [x];
      RemoveAppended(s[1..], x);
    }
  }

  /** `assign_order_to_worker` on the order's assigned workers (by worker id). */
  method AssignOrderToWorker(order: Order?, worker: Option<WorkerRecord>) returns (success: bool, message: string)
    modifies order
    ensures order == null ==> !success && message == ORDER_NOT_FOUND
    ensures order != null && worker.None? ==> !success && message == WORKER_NOT_FOUND
    ensures order != null ==> order.Value() == old(order.Value()).(assignedWorkers := order.assignedWorkers)
    ensures order != null && worker.Some? && order.businessId != worker.value.businessId ==>
      !success && message == OTHER_BUSINESS
    ensures order != null && worker.Some? && order.businessId == worker.value.businessId ==>
      (success <==> worker.value.id !in old(order.assignedWorkers))
    ensures success ==> message == ASSIGNED && order.assignedWorkers == old(order.assignedWorkers) + [worker.value.id]
    ensures !success ==> order != null ==> order.assignedWorkers == old(order.assignedWorkers)
    ensures order != null && worker.Some? && order.businessId == worker.value.businessId && !success ==>
      message == ALREADY_ASSIGNED
  {
    if order == null {
      return false, ORDER_NOT_FOUND;
    }
    if worker.None? {
      return false, WORKER_NOT_FOUND;
    }
    if order.businessId != worker.value.businessId {
      return false, OTHER_BUSINESS;
    }
    if worker.value.id !in order.assignedWorkers {
      order.assignedWorkers := order.assignedWorkers + [worker.value.id];
      return true, ASSIGNED;
    }
    return false, ALREADY_ASSIGNED;
  }

  /** `unassign_order_from_worker`: removes the worker when it is assigned. */
  method UnassignOrderFromWorker(order: Order?, worker: Option<WorkerRecord>) returns (success: bool, message: string)
    modifies order
    ensures order == null || worker.None? ==> !success && message == NOT_FOUND_EITHER
    ensures order != null ==> order.Value() == old(order.Value()).(assignedWorkers := order.assignedWorkers)
    ensures order != null && worker.Some? ==> (success <==> worker.value.id in old(order.assignedWorkers))
    ensures success ==> (message == UNASSIGNED
      && order.assignedWorkers == RemoveFirst(old(order.assignedWorkers), worker.value.id))
    ensures order != null && !success ==> order.assignedWorkers == old(order.assignedWorkers)
    ensures order != null && worker.Some? && !success ==> message == NOT_ASSIGNED
  {
    if order == null || worker.None? {
      return false, NOT_FOUND_EITHER;
    }
    if worker.value.id in order.assignedWorkers {
      order.assignedWorkers := RemoveFirst(order.assignedWorkers, worker.value.id);
      return true, UNASSIGNED;
    }
    return false, NOT_ASSIGNED;
  }

  /** Assigning and then unassigning the same worker leaves the order as it was. */
  method AssignThenUnassign(order: Order, worker: WorkerRecord)
    requires order.businessId == worker.businessId && worker.id !in order.assignedWorkers
    modifies order
    ensures order.Value() == old(order.Value())
  {
    var ok1, _ := AssignOrderToWorker(order, Some(worker));
    var ok2, _ := UnassignOrderFromWorker(order, Some(worker));
    RemoveAppended(old(order.assignedWorkers), worker.id);
  }

  // ---------------------------------------------------------------- listing

  /** `[o for o in orders if o.status == status]`, applied only when the filter is truthy. */
  function FilterStatus(orders: seq<OrderRecord>, status: Option<string>): (r: seq<OrderRecord>)
    ensures status.Some? && status.value != "" ==> forall i :: 0 <= i < |r| ==> r[i].status == status.value
    ensures multiset(r) <= multiset(orders)
    ensures (status.None? || status.value == "") ==> r == orders
    ensures forall o :: o in orders && (status.Some? && status.value != "" ==> o.status == status.value) ==> o in r
    decreases |orders|
  {
    if status.None? || status.value == "" || orders == [] then orders
    else
      var rest := FilterStatus(orders[..|orders| - 1], status);
      var o := orders[|orders| - 1];
      assert orders == orders[..|orders| - 1] + [o];
      if o.status == status.value then rest + [o] else rest
  }

  /**
   * The comprehension keeps every matching order, as many times as the list
   * holds it and in list order; the others not at all.
   */
  lemma {:induction false} FilterStatusExactly(orders: seq<OrderRecord>, status: Option<string>)
    ensures Subsequence(FilterStatus(orders, status), orders)
    ensures forall o :: multiset(FilterStatus(orders, status))[o]
                     == if status.None? || status.value == "" || o.status == status.value then multiset(orders)[o] else 0
    decreases |orders|
  {
    if orders != [] {
      var init := orders[..|orders| - 1];
      var last := orders[|orders| - 1];
      assert orders == init + [last];
      if status.None? || status.value == "" {
        SubsequenceOfItself(orders);
      } else {
        FilterStatusExactly(init, status);
        var r := FilterStatus(orders, status);
        if last.status == status.value {
          assert r[..|r| - 1] == FilterStatus(init, status);
        }
      }
    }
  }

  predicate AllStamped(orders: seq<OrderRecord>) {
    forall i :: 0 <= i < |orders| ==> orders[i].createdAt.At?
  }

  /** Newest first: no order is more recent than one before it. */
  predicate SortedNewestFirst(orders: seq<OrderRecord>)
    requires AllStamped(orders)
  {
    forall i, j :: 0 <= i < j < |orders| ==> orders[i].createdAt.t >= orders[j].createdAt.t
  }

  /** Each order is at least as recent as the next one. */
  predicate StepsNewestFirst(orders: seq<OrderRecord>)
    requires AllStamped(orders)
  {
    forall i :: 0 < i < |orders| ==> orders[i - 1].createdAt.t >= orders[i].createdAt.t
  }

  lemma {:induction false} StepsAreSorted(orders: seq<OrderRecord>)
    requires AllStamped(orders) && StepsNewestFirst(orders)
    ensures SortedNewestFirst(orders)
    decreases |orders|
  {
    if |orders| > 1 {
      var tail := orders[1..];
      assert forall i :: 0 <= i < |tail| ==> tail[i] == orders[i + 1];
      StepsAreSorted(tail);
      assert forall j :: 0 < j < |orders| ==> orders[0].createdAt.t >= orders[j].createdAt.t by {
        forall j | 0 < j < |orders|
          ensures orders[0].createdAt.t >= orders[j].createdAt.t
        {
          if j > 1 {
            assert tail[0].createdAt.t >= tail[j - 1].createdAt.t;
          }
        }
      }
    }
  }

  /** Inserts `o` after every order at least as recent, keeping equal keys in their original order. */
  function InsertNewestFirst(sorted: seq<OrderRecord>, o: OrderRecord): (r: seq<OrderRecord>)
    requires AllStamped(sorted) && o.createdAt.At? && StepsNewestFirst(sorted)
    ensures |r| == |sorted| + 1 && (r[0] == o || (sorted != [] && r[0] == sorted[0]))
    ensures AllStamped(r) && StepsNewestFirst(r)
    ensures multiset(r) == multiset(sorted) + multiset{o}
    decreases |sorted|
  {
    if sorted == [] then [o]
    else if sorted[0].createdAt.t < o.createdAt.t then
      assert ([o] + sorted)[1..] == sorted;
      [o] + sorted
    else
      var head := sorted[0];
      var tail := sorted[1..];
      assert sorted == [head] + tail;
      var rest := InsertNewestFirst(tail, o);
      var r := [head] + rest;
      assert r[1..] == rest;
      r
  }

  /** `sorted(orders, key=lambda x: x.created_at, reverse=True)` when every key is a datetime. */
  function SortNewestFirst(orders: seq<OrderRecord>): (r: seq<OrderRecord>)
    requires AllStamped(orders)
    ensures AllStamped(r) && StepsNewestFirst(r)
    ensures multiset(r) == multiset(orders)
    decreases |orders|
  {
    if orders == [] then []
    else
      var init := orders[..|orders| - 1];
      assert orders == init + [orders[|orders| - 1]];
      InsertNewestFirst(SortNewestFirst(init), orders[|orders| - 1])
  }

  /**
   * `get_worker_assigned_orders`: [] for an unknown worker; otherwise the
   * filtered orders, newest first. Sorting two or more orders compares each
   * key, and a key that is not a datetime raises, which the `except` turns
   * into [].
   */
  function AssignedOrders(worker: Option<WorkerRecord>, ordersOf: seq<OrderRecord>, status: Option<string>): (r: seq<OrderRecord>)
    ensures worker.None? ==> r == []
    ensures status.Some? && status.value != "" ==> forall i :: 0 <= i < |r| ==> r[i].status == status.value
    ensures AllStamped(r) || |r| <= 1
    ensures AllStamped(r) ==> SortedNewestFirst(r)
    ensures multiset(r) <= multiset(ordersOf)
    ensures worker.Some? && (AllStamped(FilterStatus(ordersOf, status)) || |FilterStatus(ordersOf, status)| <= 1) ==>
      multiset(r) == multiset(FilterStatus(ordersOf, status))
  {
    if worker.None? then []
    else
      var filtered := FilterStatus(ordersOf, status);
      if AllStamped(filtered) then
        var r := SortNewestFirst(filtered);
        assert forall i | 0 <= i < |r| :: r[i] in multiset(filtered);
        StepsAreSorted(r);
        r
      else if |filtered| <= 1 then filtered
      else []
  }

  /**
   * A known worker's listing holds every order with the status, as many
   * times as the worker's orders do, and no other, whenever it is sorted.
   */
  lemma AssignedOrdersCounts(worker: Option<WorkerRecord>, ordersOf: seq<OrderRecord>, status: Option<string>)
    requires worker.Some? && (AllStamped(FilterStatus(ordersOf, status)) || |FilterStatus(ordersOf, status)| <= 1)
    ensures forall o :: multiset(AssignedOrders(worker, ordersOf, status))[o]
                     == if status.None? || status.value == "" || o.status == status.value then multiset(ordersOf)[o] else 0
  {
    FilterStatusExactly(ordersOf, status);
  }

  // ---------------------------------------------------------------- statistics

  /** The dict `get_worker_statistics` returns (None stands for `{}`). */
  datatype WorkerStats = WorkerStats(
    workerId: int,
    fullName: Value,
    totalOrdersAssigned: nat,
    completedOrders: nat,
    preparingOrders: nat,
    readyOrders: nat,
    completionRate: real,
    lastLogin: Option<int>)

  function CountWhere(orders: seq<OrderRecord>, statuses: seq<string>): (n: nat)
    ensures n <= |orders|
    decreases |orders|
  {
    if orders == [] then 0
    else CountWhere(orders[..|orders| - 1], statuses) + (if orders[|orders| - 1].status in statuses then 1 else 0)
  }

  /** Orders counted under disjoint status lists add up to at most the total. */
  lemma {:induction false} DisjointCounts(orders: seq<OrderRecord>)
    ensures CountWhere(orders, [PAID, CLOSED]) + CountWhere(orders, [PREPARING]) + CountWhere(orders, [READY]) <= |orders|
    decreases |orders|
  {
    if orders != [] {
      DisjointCounts(orders[..|orders| - 1]);
    }
  }

  /** `completed / total * 100 if total > 0 else 0`. */
  function CompletionRate(completed: nat, total: nat): (r: real)
    ensures total == 0 ==> r == 0.0
    ensures total > 0 ==> r * (total as real) == (completed as real) * 100.0
    ensures completed <= total ==> 0.0 <= r <= 100.0
  {
    if total > 0 then completed as real / total as real * 100.0 else 0.0
  }

  /**
   * `get_worker_statistics`. `last_login.isoformat()` on the lambda that
   * authentication stores raises, so a worker who has logged in gets `{}`.
   */
  function WorkerStatistics(worker: Option<WorkerRecord>, ordersOf: seq<OrderRecord>): (r: Option<WorkerStats>)
    ensures r.Some? <==> worker.Some? && worker.value.lastLogin != Deferred
    ensures r.Some? ==> r.value.workerId == worker.value.id && r.value.fullName == worker.value.fullName
    ensures r.Some? ==> r.value.totalOrdersAssigned == |ordersOf|
    ensures r.Some? ==> r.value.completedOrders == CountWhere(ordersOf, [PAID, CLOSED])
    ensures r.Some? ==> r.value.preparingOrders == CountWhere(ordersOf, [PREPARING])
    ensures r.Some? ==> r.value.readyOrders == CountWhere(ordersOf, [READY])
    ensures r.Some? ==> r.value.completedOrders + r.value.preparingOrders + r.value.readyOrders <= r.value.totalOrdersAssigned
    ensures r.Some? ==> r.value.completionRate == CompletionRate(r.value.completedOrders, |ordersOf|)
    ensures r.Some? ==> 0.0 <= r.value.completionRate <= 100.0
    ensures r.Some? ==> r.value.lastLogin == (if worker.value.lastLogin.At? then Some(worker.value.lastLogin.t) else None)
  {
    if worker.None? || worker.value.lastLogin == Deferred then None
    else
      var w := worker.value;
      var total := |ordersOf|;
      var completed := CountWhere(ordersOf, [PAID, CLOSED]);
      DisjointCounts(ordersOf);
      Some(WorkerStats(w.id, w.fullName, total, completed, CountWhere(ordersOf, [PREPARING]),
                       CountWhere(ordersOf, [READY]),
                       CompletionRate(completed, total),
                       if w.lastLogin.At? then Some(w.lastLogin.t) else None))
  }
}
