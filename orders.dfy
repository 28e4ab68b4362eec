/** The order handlers of backend/controllers/ordersController.js over the store of module
    Schema. Each handler that writes runs as one transaction: every write lands or none
    does. Status notifications are an append-only event log. */
module Orders {
  import opened Common
  import opened Schema
  import opened Sorting

  // ---------------------------------------------------------------- notifications

  /** Where a notification is sent: the room of one order, or every connected client. */
  datatype Channel = OrderRoom(orderId: int) | Everyone

  datatype Event = Event(channel: Channel, name: string, orderId: int, status: string)

  /** The real-time feed. `attached` says whether a socket server is registered on the app;
      `events` is everything emitted so far. */
  class Feed {
    var attached: bool
    var events: seq<Event>

    constructor (attached: bool)
      ensures this.attached == attached && events == []
    {
      this.attached := attached;
      events := [];
    }
  }

  /** The notifications one status change produces: one to the order's room, one to everybody. */
  function Emission(orderId: int, status: string): (r: seq<Event>)
    ensures |r| == 2
    ensures r[0].channel == OrderRoom(orderId) && r[1].channel == Everyone
    ensures forall e :: e in r ==> e.orderId == orderId && e.status == status
  {
    [Event(OrderRoom(orderId), "order:status", orderId, status),
     Event(Everyone, "order:updated", orderId, status)]
  }

  /** emitOrderUpdate: emits both notifications when a socket server is attached, nothing otherwise. */
  method EmitOrderUpdate(feed: Feed, orderId: int, status: string)
    modifies feed`events
    ensures feed.events == old(feed.events) + (if feed.attached then Emission(orderId, status) else [])
  {
    if feed.attached {
      feed.events := feed.events + Emission(orderId, status);
    }
  }

  // ---------------------------------------------------------------- createOrder

  /** The checks createOrder makes before writing: the authenticated customer is the one the
      body names (`parseInt(customer_id)`, `None` when it is not a number), and a truthy
      vehicle_id names a vehicle that customer owns. */
  predicate MayCreate(principal: Option<int>, claimed: Option<int>, vehicleId: Field<int>,
                      vehicles: map<int, Vehicle>)
  {
    principal.Some? && claimed == principal &&
    (TruthyInt(vehicleId) ==> vehicleId.v in vehicles && vehicles[vehicleId.v].customerId == principal.value)
  }

  /** The row createOrder inserts. */
  function CreatedOrder(customerId: int, vehicleId: Field<int>, description: Field<string>,
                        price: Field<int>, receivedBy: Field<string>, now: int): (o: Order)
    ensures o.status == DefaultOrderStatus && o.customerId == customerId
    ensures o.vehicleId == IntOrNull(vehicleId) && o.description == StrOrNull(description)
    ensures o.totalAmount == Some(IntOr(price, 0))
    ensures o.receivedBy == Some(StrOr(receivedBy, "Customer"))
    ensures o.paymentStatus == DefaultOrderPaymentStatus && o.createdAt == now
    ensures o.assignedEmployeeId == None && o.completionNote == None
  {
    NewOrder(customerId, IntOrNull(vehicleId), StrOrNull(description), DefaultOrderStatus,
             Some(IntOr(price, 0)), Some(StrOr(receivedBy, "Customer")), now)
  }

  /** The order_services rows that attach each of `ids` to order `o`. */
  function Attached(o: int, ids: seq<int>): (r: set<(int, int)>)
    ensures forall p :: p in r <==> p.0 == o && p.1 in ids
  {
    if ids == [] then {} else Attached(o, ids[..|ids| - 1]) + {(o, ids[|ids| - 1])}
  }

  /** Every id names a service and none repeats: exactly when inserting the rows one by one
      meets neither the foreign key nor the unique key. */
  predicate Insertable(ids: seq<int>, services: set<int>) {
    (forall i :: 0 <= i < |ids| ==> ids[i] in services) &&
    (forall i, j :: 0 <= i < j < |ids| ==> ids[i] != ids[j])
  }

  /** The ids of a `service_ids` field: `None` when it is absent or not an array. */
  function IdsOf(serviceIds: Option<seq<int>>): seq<int> {
    if serviceIds.Some? then serviceIds.value else []
  }

  /** Inserts the order_services rows of order `o` one by one, as the loop of the source
      does, stopping at the first insert the foreign or unique key refuses. The caller rolls
      back when `ok` is false. */
  method InsertServiceRows(db: Db, o: int, ids: seq<int>) returns (ok: bool)
    requires forall p :: p in db.orderServices ==> p.0 != o
    modifies db`orderServices
    ensures ok <==> Insertable(ids, db.services.Keys)
    ensures ok ==> db.orderServices == old(db.orderServices) + Attached(o, ids)
  {
    var i := 0;
    ok := true;
    while i < |ids|
      invariant 0 <= i <= |ids|
      invariant Insertable(ids[..i], db.services.Keys)
      invariant db.orderServices == old(db.orderServices) + Attached(o, ids[..i])
    {
      if ids[i] !in db.services || (o, ids[i]) in db.orderServices {
        ok := false;
        if ids[i] in db.services {
          var k :| 0 <= k < i && ids[..i][k] == ids[i];
          assert ids[k] == ids[i];
        }
        return;
      }
      db.orderServices := db.orderServices + {(o, ids[i])};
      assert ids[..i + 1] == ids[..i] + [ids[i]];
      i := i + 1;
    }
    assert ids[..i] == ids;
  }

  /** createOrder. `principal` is the id the customer token carried, `claimed` the parsed
      customer_id of the body, `serviceIds` the service_ids array (`None` when absent or not
      an array). Answers 403 before writing anything; 500 when an insert fails, after
      rolling back (the AUTO_INCREMENT counter stays advanced); 201 with every row written
      and the "Received" notification emitted. */
  method CreateOrder(db: Db, feed: Feed, principal: Option<int>, claimed: Option<int>,
                     vehicleId: Field<int>, description: Field<string>, price: Field<int>,
                     serviceIds: Option<seq<int>>, receivedBy: Field<string>, now: int)
    returns (status: int, orderId: Option<int>)
    requires db.Valid()
    modifies db`orders, db`orderServices, db`nextOrder, feed`events
    ensures db.Valid()
    ensures status == 403 <==> !MayCreate(principal, claimed, vehicleId, old(db.vehicles))
    ensures status == 201 <==>
              MayCreate(principal, claimed, vehicleId, old(db.vehicles)) &&
              principal.value in old(db.customers) && Insertable(IdsOf(serviceIds), old(db.services.Keys))
    ensures status == 403 || status == 500 || status == 201
    ensures status != 201 ==>
              orderId == None && feed.events == old(feed.events) &&
              db.orders == old(db.orders) && db.orderServices == old(db.orderServices)
    ensures status == 403 ==> db.nextOrder == old(db.nextOrder)
    ensures status == 500 ==> db.nextOrder == old(db.nextOrder) + 1
    ensures status == 201 ==>
              var id := old(db.nextOrder);
              orderId == Some(id) && db.nextOrder == id + 1 &&
              db.orders == old(db.orders)[id := CreatedOrder(principal.value, vehicleId, description, price, receivedBy, now)] &&
              db.orderServices == old(db.orderServices) + Attached(id, IdsOf(serviceIds)) &&
              feed.events == old(feed.events) + (if feed.attached then Emission(id, DefaultOrderStatus) else [])
  {
    orderId := None;
    if principal.None? || claimed != principal {
      return 403, None;
    }
    if TruthyInt(vehicleId) && (vehicleId.v !in db.vehicles || db.vehicles[vehicleId.v].customerId != principal.value) {
      return 403, None;
    }
    var ok, id := InsertOrder(db, CreatedOrder(principal.value, vehicleId, description, price, receivedBy, now),
                              IdsOf(serviceIds));
    if !ok {
      return 500, None;
    }
    EmitOrderUpdate(feed, id, DefaultOrderStatus);
    return 201, Some(id);
  }

  /** The transaction of createOrder: the orders row takes the next id, then its services are
      attached. When the customer's foreign key refuses the row, or an attachment is refused,
      everything is rolled back and only the AUTO_INCREMENT counter stays advanced. */
  method InsertOrder(db: Db, row: Order, ids: seq<int>) returns (ok: bool, id: int)
    requires db.Valid()
    requires row.vehicleId.Some? ==> row.vehicleId.value in db.vehicles
    modifies db`orders, db`orderServices, db`nextOrder
    ensures db.Valid()
    ensures id == old(db.nextOrder) && db.nextOrder == id + 1 && id !in old(db.orders)
    ensures ok <==> row.customerId in old(db.customers) && Insertable(ids, old(db.services.Keys))
    ensures !ok ==> db.orders == old(db.orders) && db.orderServices == old(db.orderServices)
    ensures ok ==> db.orders == old(db.orders)[id := row] &&
                   db.orderServices == old(db.orderServices) + Attached(id, ids) &&
                   forall sid :: sid in db.ServicesOf(id) <==> sid in ids
  {
    id := db.nextOrder;
    assert id !in db.orders;
    db.nextOrder := db.nextOrder + 1;
    if row.customerId !in db.customers {
      return false, id;
    }
    var savedOrders, savedJoin := db.orders, db.orderServices;
    db.orders := db.orders[id := row];
    ok := InsertServiceRows(db, id, ids);
    if !ok {
      db.orders, db.orderServices := savedOrders, savedJoin;
      return;
    }
  }

  // ---------------------------------------------------------------- updateOrder

  /** The UPDATE of updateOrder: customer_id, status and received_by are replaced only by a
      truthy value; vehicle_id, description and total_amount whenever the field is present,
      `null` included; every other column is kept. */
  function Merged(existing: Order, customerId: Field<int>, vehicleId: Field<int>,
                  description: Field<string>, price: Field<int>, status: Field<string>,
                  receivedBy: Field<string>): (r: Order)
    ensures r.customerId == IntOr(customerId, existing.customerId)
    ensures r.vehicleId == Patch(vehicleId, existing.vehicleId)
    ensures r.description == Patch(description, existing.description)
    ensures r.totalAmount == Patch(price, existing.totalAmount)
    ensures r.status == StrOr(status, existing.status)
    ensures r.receivedBy == (if TruthyStr(receivedBy) then Some(receivedBy.v) else existing.receivedBy)
    ensures r.paymentStatus == existing.paymentStatus && r.createdAt == existing.createdAt
    ensures r.assignedEmployeeId == existing.assignedEmployeeId && r.completionNote == existing.completionNote
  {
    existing.(customerId := IntOr(customerId, existing.customerId),
              vehicleId := Patch(vehicleId, existing.vehicleId),
              description := Patch(description, existing.description),
              totalAmount := Patch(price, existing.totalAmount),
              status := StrOr(status, existing.status),
              receivedBy := if TruthyStr(receivedBy) then Some(receivedBy.v) else existing.receivedBy)
  }

  /** The UPDATE meets the foreign keys: the customer it names exists, and so does the vehicle
      when it names one. */
  predicate MergeLinked(merged: Order, customers: set<int>, vehicles: set<int>) {
    merged.customerId in customers && (merged.vehicleId.Some? ==> merged.vehicleId.value in vehicles)
  }

  /** The pairs of the join table that do not belong to order `o`. */
  function JoinWithout(orderServices: set<(int, int)>, o: int): (r: set<(int, int)>)
    ensures forall p :: p in r <==> p in orderServices && p.0 != o
  {
    set p | p in orderServices && p.0 != o
  }

  /** updateOrder, as reached by any staff role. Answers 404 for an unknown order; 500, after
      rolling back, when the UPDATE or a service insert is refused; otherwise 200 with the
      merged row, the service set replaced when `serviceIds` is an array, and a notification
      when a truthy status differs from the stored one. */
  method UpdateOrder(db: Db, feed: Feed, id: int, customerId: Field<int>, vehicleId: Field<int>,
                     description: Field<string>, price: Field<int>, serviceIds: Option<seq<int>>,
                     status: Field<string>, receivedBy: Field<string>)
    returns (code: int)
    requires db.Valid()
    modifies db`orders, db`orderServices, feed`events
    ensures db.Valid()
    ensures code == 404 <==> id !in old(db.orders)
    ensures code == 200 <==>
              id in old(db.orders) &&
              MergeLinked(Merged(old(db.orders)[id], customerId, vehicleId, description, price, status, receivedBy),
                          old(db.customers.Keys), old(db.vehicles.Keys)) &&
              (serviceIds.Some? ==> Insertable(serviceIds.value, old(db.services.Keys)))
    ensures code == 404 || code == 500 || code == 200
    ensures code != 200 ==>
              db.orders == old(db.orders) && db.orderServices == old(db.orderServices) && feed.events == old(feed.events)
    ensures code == 200 ==>
              var existing := old(db.orders)[id];
              db.orders == old(db.orders)[id := Merged(existing, customerId, vehicleId, description, price, status, receivedBy)] &&
              db.orderServices == (if serviceIds.Some?
                                   then JoinWithout(old(db.orderServices), id) + Attached(id, serviceIds.value)
                                   else old(db.orderServices)) &&
              feed.events == old(feed.events) +
                (if TruthyStr(status) && status.v != existing.status && feed.attached then Emission(id, status.v) else [])
  {
    if id !in db.orders {
      return 404;
    }
    var existing := db.orders[id];
    var merged := Merged(existing, customerId, vehicleId, description, price, status, receivedBy);
    if !MergeLinked(merged, db.customers.Keys, db.vehicles.Keys) {
      return 500;
    }
    var savedOrders, savedJoin := db.orders, db.orderServices;
    db.orders := db.orders[id := merged];
    if serviceIds.Some? {
      db.orderServices := JoinWithout(db.orderServices, id);
      var ok := InsertServiceRows(db, id, serviceIds.value);
      if !ok {
        db.orders, db.orderServices := savedOrders, savedJoin;
        return 500;
      }
    }
    if TruthyStr(status) && status.v != existing.status {
      EmitOrderUpdate(feed, id, status.v);
    }
    return 200;
  }

  /** Replacing the services of order `o` by delete-then-reinsert leaves `o` with exactly the
      ids given and every other order's rows as they were. */
  lemma ReplaceServices(orderServices: set<(int, int)>, o: int, ids: seq<int>)
    ensures forall s :: (o, s) in JoinWithout(orderServices, o) + Attached(o, ids) <==> s in ids
    ensures forall p: (int, int) :: p.0 != o ==> (p in JoinWithout(orderServices, o) + Attached(o, ids) <==> p in orderServices)
  {
  }

  /** An update whose fields are all absent leaves the order as it was. */
  lemma MergeNothing(existing: Order)
    ensures Merged(existing, Undefined, Undefined, Undefined, Undefined, Undefined, Undefined) == existing
  {
  }

  /** Sending the same update twice has the effect of sending it once. */
  lemma MergeIdempotent(existing: Order, customerId: Field<int>, vehicleId: Field<int>,
                        description: Field<string>, price: Field<int>, status: Field<string>,
                        receivedBy: Field<string>)
    ensures var once := Merged(existing, customerId, vehicleId, description, price, status, receivedBy);
            Merged(once, customerId, vehicleId, description, price, status, receivedBy) == once
  {
  }

  // ---------------------------------------------------------------- addServiceToOrder

  /** addServiceToOrder. `principal` is the id the customer token carried; when it is
      missing the ownership query gets an `undefined` parameter, which the driver refuses.
      A pair already attached breaks the unique key of order_services, and the duplicate
      entry is answered with 400. */
  method AddServiceToOrder(db: Db, principal: Option<int>, orderId: int, serviceId: Field<int>)
    returns (code: int)
    requires db.Valid()
    modifies db`orderServices
    ensures db.Valid()
    ensures code == 400 && !TruthyInt(serviceId) ==> db.orderServices == old(db.orderServices)
    ensures !TruthyInt(serviceId) ==> code == 400
    ensures TruthyInt(serviceId) && principal.None? ==> code == 500
    ensures TruthyInt(serviceId) && principal.Some? ==>
              (code == 404 <==> orderId !in old(db.orders) || old(db.orders)[orderId].customerId != principal.value ||
                                serviceId.v !in old(db.services))
    ensures code == 200 <==>
              TruthyInt(serviceId) && principal.Some? && orderId in old(db.orders) &&
              old(db.orders)[orderId].customerId == principal.value && serviceId.v in old(db.services) &&
              (orderId, serviceId.v) !in old(db.orderServices)
    ensures (TruthyInt(serviceId) && principal.Some? && orderId in old(db.orders) &&
             old(db.orders)[orderId].customerId == principal.value && serviceId.v in old(db.services) &&
             (orderId, serviceId.v) in old(db.orderServices)) ==> code == 400
    ensures code in {400, 404, 500, 200}
    ensures code == 200 ==> db.orderServices == old(db.orderServices) + {(orderId, serviceId.v)}
    ensures code != 200 ==> db.orderServices == old(db.orderServices)
  {
    if !TruthyInt(serviceId) {
      return 400;
    }
    if principal.None? {
      return 500;
    }
    if orderId !in db.orders || db.orders[orderId].customerId != principal.value {
      return 404;
    }
    if serviceId.v !in db.services {
      return 404;
    }
    if (orderId, serviceId.v) in db.orderServices {
      return 400;
    }
    db.orderServices := db.orderServices + {(orderId, serviceId.v)};
    return 200;
  }

  // ---------------------------------------------------------------- reads

  /** An order as the read endpoints return it: its row and the ids of its services. */
  datatype OrderView = OrderView(id: int, order: Order, services: set<int>)

  /** `ORDER BY o.created_at DESC`. */
  predicate NewerFirst(a: OrderView, b: OrderView) {
    a.order.createdAt >= b.order.createdAt
  }

  /** getOrderById: 404 for an unknown id, otherwise the row with its services. */
  method GetOrderById(db: Db, id: int) returns (code: int, view: Option<OrderView>)
    ensures code == 404 <==> id !in db.orders
    ensures code == 404 || code == 200
    ensures code == 404 ==> view == None
    ensures code == 200 ==> view == Some(OrderView(id, db.orders[id], db.ServicesOf(id)))
  {
    if id !in db.orders {
      return 404, None;
    }
    return 200, Some(OrderView(id, db.orders[id], db.ServicesOf(id)));
  }

  /** getAllOrders: every order once, each with its services, newest first. */
  method GetAllOrders(db: Db) returns (views: seq<OrderView>)
    ensures SortedBy(views, NewerFirst)
    ensures |views| == |db.orders|
    ensures forall v :: v in views ==> v.id in db.orders && v == OrderView(v.id, db.orders[v.id], db.ServicesOf(v.id))
    ensures forall id :: id in db.orders ==> exists v :: v in views && v.id == id
  {
    var rest := db.orders.Keys;
    var acc: seq<OrderView> := [];
    while rest != {}
      invariant rest <= db.orders.Keys
      invariant |acc| + |rest| == |db.orders|
      invariant forall v :: v in acc ==> v.id in db.orders && v.id !in rest && v == OrderView(v.id, db.orders[v.id], db.ServicesOf(v.id))
      invariant forall k :: k in db.orders && k !in rest ==> exists v :: v in acc && v.id == k
      decreases |rest|
    {
      var id := Pick(rest);
      acc := acc + [OrderView(id, db.orders[id], db.ServicesOf(id))];
      rest := rest - {id};
    }
    NewerFirstTotal();
    views := InsertionSort(acc, NewerFirst);
    assert forall v :: v in views <==> v in acc by {
      forall v ensures v in views <==> v in acc {
        assert v in views <==> v in multiset(views);
        assert v in acc <==> v in multiset(acc);
      }
    }
  }

  lemma NewerFirstTotal()
    ensures TotalPreorder(NewerFirst)
  {
  }
}
