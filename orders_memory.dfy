/**
 * The in-memory orders pseudo-backend (app/services/orders_service.py):
 * a class-level list of order dicts that lookups read and the status
 * update mutates in place.
 */
module OrdersMemory {
  import opened Wrappers
  import opened Seqs

  /** One entry of the `ORDERS` list. */
  datatype Entry = Entry(
    id: int,
    customer: string,
    items: string,
    status: string,
    assignedTo: string,
    createdAt: string,
    priority: string)

  /** The figures of `get_orders_summary`. */
  datatype Summary = Summary(total: nat, completed: nat, pending: int, highPriority: nat)

  /** The number of entries with the given status. */
  function CountStatus(orders: seq<Entry>, status: string): (n: nat)
    ensures n <= |orders|
    decreases |orders|
  {
    if orders == [] then 0
    else CountStatus(orders[..|orders| - 1], status) + (if orders[|orders| - 1].status == status then 1 else 0)
  }

  /** The number of entries with the given priority. */
  function CountPriority(orders: seq<Entry>, priority: string): (n: nat)
    ensures n <= |orders|
    decreases |orders|
  {
    if orders == [] then 0
    else CountPriority(orders[..|orders| - 1], priority) + (if orders[|orders| - 1].priority == priority then 1 else 0)
  }

  /** `[order for order in ORDERS if order['assigned_to'] == email]`. */
  function ByWorker(orders: seq<Entry>, email: string): (r: seq<Entry>)
    ensures forall i :: 0 <= i < |r| ==> r[i].assignedTo == email
    ensures |r| <= |orders|
    decreases |orders|
  {
    if orders == [] then []
    else
      var rest := ByWorker(orders[..|orders| - 1], email);
      if orders[|orders| - 1].assignedTo == email then rest + [orders[|orders| - 1]] else rest
  }

  /** The worker's list keeps entries of the list, in list order. */
  lemma {:induction false} ByWorkerSubsequence(orders: seq<Entry>, email: string)
    ensures Subsequence(ByWorker(orders, email), orders)
    decreases |orders|
  {
    if orders != [] {
      var init := orders[..|orders| - 1];
      ByWorkerSubsequence(init, email);
      var r := ByWorker(orders, email);
      if orders[|orders| - 1].assignedTo == email {
        assert r[..|r| - 1] == ByWorker(init, email);
      }
    }
  }

  /** An entry is in the worker's list exactly when it is in the list and assigned to the email. */
  lemma {:induction false} ByWorkerMembers(orders: seq<Entry>, email: string)
    ensures forall e :: e in ByWorker(orders, email) <==> e in orders && e.assignedTo == email
    decreases |orders|
  {
    if orders != [] {
      var init := orders[..|orders| - 1];
      var last := orders[|orders| - 1];
      ByWorkerMembers(init, email);
      assert orders == init + [last];
    }
  }

  /** Each entry assigned to the email appears as many times as the list holds it; the others not at all. */
  lemma {:induction false} ByWorkerCounts(orders: seq<Entry>, email: string)
    ensures forall e :: multiset(ByWorker(orders, email))[e] == if e.assignedTo == email then multiset(orders)[e] else 0
    decreases |orders|
  {
    if orders != [] {
      var init := orders[..|orders| - 1];
      assert orders == init + [orders[|orders| - 1]];
      ByWorkerCounts(init, email);
    }
  }

  /**
   * The worker's list holds exactly the entries assigned to that email, in
   * list order.
   */
  lemma ByWorkerExactly(orders: seq<Entry>, email: string)
    ensures Subsequence(ByWorker(orders, email), orders)
    ensures forall e :: e in orders && e.assignedTo == email ==> e in ByWorker(orders, email)
    ensures forall e :: e in ByWorker(orders, email) ==> e in orders
  {
    ByWorkerSubsequence(orders, email);
    ByWorkerMembers(orders, email);
  }

  /** The first index holding an entry with that id. */
  function FirstWithId(orders: seq<Entry>, id: int): (r: Option<nat>)
    ensures r.Some? ==> (r.value < |orders| && orders[r.value].id == id
      && forall j :: 0 <= j < r.value ==> orders[j].id != id)
    ensures r.None? ==> forall j :: 0 <= j < |orders| ==> orders[j].id != id
    decreases |orders|
  {
    if orders == [] then None
    else if orders[0].id == id then Some(0)
    else match FirstWithId(orders[1..], id)
      case None => None
      case Some(k) => Some(k + 1)
  }

  /** The summary's figures follow from the list. */
  function SummaryOf(orders: seq<Entry>): (s: Summary)
    ensures s.total == |orders|
    ensures s.completed == CountStatus(orders, "Listo")
    ensures s.pending == s.total - s.completed && s.pending >= 0
    ensures s.highPriority == CountPriority(orders, "alta") <= s.total
  {
    var total := |orders|;
    var completed := CountStatus(orders, "Listo");
    Summary(total, completed, total - completed, CountPriority(orders, "alta"))
  }

  /** The seeded list. */
  const SEED := [
    Entry(101, "Cliente A", "2x Arepa + 1x Jugo", "Recibido", "worker@prontoa.test", "2024-01-15 10:30", "normal"),
    Entry(102, "Cliente B", "3x Empanada", "En Preparación", "worker@prontoa.test", "2024-01-15 10:45", "alta"),
    Entry(103, "Cliente C", "1x Bandeja Paisa", "Listo", "worker@prontoa.test", "2024-01-15 11:00", "normal")]

  /** `OrdersService` and its `ORDERS` list. */
  class OrdersService {
    var orders: seq<Entry>

    constructor ()
      ensures orders == SEED
    {
      orders := SEED;
    }

    /** `get_all_orders`: the list itself. */
    function AllOrders(): (r: seq<Entry>)
      reads this
      ensures |r| == |orders| && forall i :: 0 <= i < |r| ==> r[i] == orders[i]
    {
      orders
    }

    /** `get_orders_by_worker`. */
    function OrdersByWorker(email: string): (r: seq<Entry>)
      reads this
      ensures forall i :: 0 <= i < |r| ==> r[i].assignedTo == email && r[i] in orders
      ensures r == ByWorker(orders, email)
      ensures Subsequence(r, orders)
      ensures forall e :: e in r <==> e in orders && e.assignedTo == email
      ensures forall e :: multiset(r)[e] == if e.assignedTo == email then multiset(orders)[e] else 0
    {
      ByWorkerExactly(orders, email);
      ByWorkerCounts(orders, email);
      ByWorker(orders, email)
    }

    /** `get_order_by_id`: the loop that returns the first entry with that id. */
    method GetOrderById(orderId: int) returns (r: Option<Entry>)
      ensures r.Some? <==> exists j :: 0 <= j < |orders| && orders[j].id == orderId
      ensures r.Some? ==> r.value == orders[FirstWithId(orders, orderId).value]
    {
      var i := 0;
      while i < |orders|
        invariant 0 <= i <= |orders|
        invariant forall j :: 0 <= j < i ==> orders[j].id != orderId
      {
        if orders[i].id == orderId {
          assert FirstWithId(orders, orderId) == Some(i) by {
            FirstWithIdIs(orders, orderId, i);
          }
          return Some(orders[i]);
        }
        i := i + 1;
      }
      return None;
    }

    /**
     * `update_order_status`: True iff an entry has that id; only the first
     * such entry's status changes.
     */
    method UpdateOrderStatus(orderId: int, newStatus: string) returns (updated: bool)
      modifies this
      ensures updated <==> FirstWithId(old(orders), orderId).Some?
      ensures !updated ==> orders == old(orders)
      ensures updated ==>
        (var i := FirstWithId(old(orders), orderId).value;
         orders == old(orders)[i := old(orders)[i].(status := newStatus)])
    {
      var found := FirstWithId(orders, orderId);
      if found.Some? {
        var i := found.value;
        orders := orders[i := orders[i].(status := newStatus)];
        return true;
      }
      return false;
    }

    /** `get_orders_summary`. */
    function OrdersSummary(): (s: Summary)
      reads this
      ensures s.total == |orders| && 0 <= s.pending <= s.total && s.highPriority <= s.total
      ensures s == SummaryOf(orders)
      ensures s.completed == CountStatus(orders, "Listo") && s.pending == s.total - s.completed
      ensures s.highPriority == CountPriority(orders, "alta")
    {
      SummaryOf(orders)
    }
  }

  /** An index whose predecessors all differ is the first one. */
  lemma {:induction false} FirstWithIdIs(orders: seq<Entry>, id: int, i: nat)
    requires i < |orders| && orders[i].id == id
    requires forall j :: 0 <= j < i ==> orders[j].id != id
    ensures FirstWithId(orders, id) == Some(i)
    decreases i
  {
    if i > 0 {
      FirstWithIdIs(orders[1..], id, i - 1);
    }
  }

  /** A status update changes the completed count by at most one. */
  lemma {:induction false} StatusUpdateMovesOneEntry(orders: seq<Entry>, i: nat, newStatus: string)
    requires i < |orders|
    ensures var after := orders[i := orders[i].(status := newStatus)];
      CountStatus(after, "Listo") - CountStatus(orders, "Listo")
        == (if newStatus == "Listo" then 1 else 0) - (if orders[i].status == "Listo" then 1 else 0)
      && CountPriority(after, "alta") == CountPriority(orders, "alta")
    decreases |orders|
  {
    var after := orders[i := orders[i].(status := newStatus)];
    var n := |orders| - 1;
    if i < n {
      StatusUpdateMovesOneEntry(orders[..n], i, newStatus);
      assert after[..n] == orders[..n][i := orders[i].(status := newStatus)];
    } else {
      assert after[..n] == orders[..n];
    }
  }
}
