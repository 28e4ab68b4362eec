/** The relational store created by backend/config/initDatabase.js: one map per table
    keyed by the AUTO_INCREMENT primary key, the `order_services` join table as a set of
    (order, service) pairs (its unique key makes it a set), the payments table in
    primary-key order, and the foreign-key and unique-key constraints the schema declares,
    including what each ON DELETE rule does. Money is held in integer cents. */
module Schema {
  import opened Common

  datatype User = User(email: string, password: string, name: Option<string>,
                       resetToken: Option<string>, resetExpires: Option<int>)

  datatype Customer = Customer(email: string, password: Option<string>, firstName: string, lastName: string,
                               phone: Option<string>, isActive: bool,
                               resetToken: Option<string>, resetExpires: Option<int>)

  datatype Vehicle = Vehicle(customerId: int, year: Option<int>, mileage: Option<int>)

  datatype Employee = Employee(email: string, password: string, firstName: string, lastName: string,
                               phone: Option<string>, role: Option<string>, isActive: Option<bool>)

  datatype Service = Service(name: string, description: Option<string>)

  datatype Order = Order(customerId: int, vehicleId: Option<int>, description: Option<string>,
                         status: string, totalAmount: Option<int>, receivedBy: Option<string>,
                         paymentStatus: string, assignedEmployeeId: Option<int>,
                         completionNote: Option<string>, createdAt: int)

  datatype Payment = Payment(id: int, orderId: int, customerId: int, amount: int, currency: string,
                             paymentMethod: string, intentId: Option<string>, status: string,
                             transactionId: Option<string>, createdAt: int)

  /** The column names of the schema. */
  datatype Column =
    | Id | Email | Password | Name | ResetToken | ResetTokenExpires | CreatedAt | UpdatedAt
    | FirstName | LastName | Phone | IsActive | CustomerId | Make | Model | Year | VehicleType | Vin
    | LicensePlate | Color | Mileage | Role | Description | VehicleId | Status | TotalAmount
    | ReceivedBy | ServiceType | OrderId | ServiceId | AssignedEmployeeId | CompletionNote | CompletedAt
    | PaymentStatus | Amount | Currency | PaymentMethod | PaymentIntentId | TransactionId | Metadata

  /** The columns of one table, or `None` while the table does not exist. */
  type TableColumns = Option<set<Column>>

  /** The columns of each table, as the information schema reports them. */
  datatype Catalogue = Catalogue(users: TableColumns, customers: TableColumns, vehicles: TableColumns,
                                 employees: TableColumns, services: TableColumns, orders: TableColumns,
                                 orderServices: TableColumns, payments: TableColumns)

  const NoTables := Catalogue(None, None, None, None, None, None, None, None)

  // Column defaults.
  const DefaultOrderStatus := "Received"
  const DefaultOrderPaymentStatus := "pending"
  const DefaultPaymentStatus := "pending"
  const DefaultCurrency := "USD"
  const DefaultEmployeeRole := "Employee"

  /** A new order row: the columns the INSERT leaves out take their defaults. */
  function NewOrder(customerId: int, vehicleId: Option<int>, description: Option<string>,
                    status: string, total: Option<int>, receivedBy: Option<string>, now: int): (o: Order)
    ensures o.paymentStatus == DefaultOrderPaymentStatus
    ensures o.assignedEmployeeId == None && o.completionNote == None
  {
    Order(customerId, vehicleId, description, status, total, receivedBy, DefaultOrderPaymentStatus, None, None, now)
  }

  predicate UniqueUserEmails(m: map<int, User>) {
    forall a, b :: a in m && b in m && m[a].email == m[b].email ==> a == b
  }

  predicate UniqueCustomerEmails(m: map<int, Customer>) {
    forall a, b :: a in m && b in m && m[a].email == m[b].email ==> a == b
  }

  predicate UniqueEmployeeEmails(m: map<int, Employee>) {
    forall a, b :: a in m && b in m && m[a].email == m[b].email ==> a == b
  }

  predicate IdsIncreasing(ps: seq<Payment>) {
    forall i, j :: 0 <= i < j < |ps| ==> ps[i].id < ps[j].id
  }

  /** The payment rows whose order and customer both survive a delete, in their
      original order. */
  function Surviving(ps: seq<Payment>, orderIds: set<int>, customerIds: set<int>): (r: seq<Payment>)
    ensures forall p :: p in r <==> p in ps && p.orderId in orderIds && p.customerId in customerIds
    ensures |r| <= |ps|
    ensures IdsIncreasing(ps) ==> IdsIncreasing(r)
  {
    if ps == [] then []
    else
      var rest := Surviving(ps[1..], orderIds, customerIds);
      assert IdsIncreasing(ps) ==> forall p :: p in ps[1..] ==> ps[0].id < p.id by {
        if IdsIncreasing(ps) {
          forall p | p in ps[1..] ensures ps[0].id < p.id {
            var k :| 0 <= k < |ps[1..]| && ps[1..][k] == p;
            assert ps[k + 1] == p;
          }
        }
      }
      if ps[0].orderId in orderIds && ps[0].customerId in customerIds then [ps[0]] + rest else rest
  }

  predicate KeysBelow<V>(m: map<int, V>, next: int) {
    1 <= next && forall id :: id in m ==> 1 <= id < next
  }

  predicate PaymentKeysBelow(ps: seq<Payment>, next: int) {
    1 <= next && (forall i :: 0 <= i < |ps| ==> 1 <= ps[i].id < next) && IdsIncreasing(ps)
  }

  /** vehicles.customer_id references customers. */
  predicate VehiclesOwned(vehicles: map<int, Vehicle>, customers: set<int>) {
    forall v :: v in vehicles ==> vehicles[v].customerId in customers
  }

  /** orders.customer_id references customers; orders.vehicle_id, when set, references vehicles. */
  predicate OrdersLinked(orders: map<int, Order>, customers: set<int>, vehicles: set<int>) {
    forall o :: o in orders ==>
      orders[o].customerId in customers &&
      (orders[o].vehicleId.Some? ==> orders[o].vehicleId.value in vehicles)
  }

  /** order_services references orders and services. */
  predicate JoinLinked(orderServices: set<(int, int)>, orders: set<int>, services: set<int>) {
    forall p :: p in orderServices ==> p.0 in orders && p.1 in services
  }

  /** payments.order_id references orders and payments.customer_id references customers. */
  predicate PaymentsLinked(ps: seq<Payment>, orders: set<int>, customers: set<int>) {
    forall i :: 0 <= i < |ps| ==> ps[i].orderId in orders && ps[i].customerId in customers
  }

  class Db {
    var users: map<int, User>
    var customers: map<int, Customer>
    var vehicles: map<int, Vehicle>
    var employees: map<int, Employee>
    var services: map<int, Service>
    var orders: map<int, Order>
    var orderServices: set<(int, int)>
    var payments: seq<Payment>
    // The next AUTO_INCREMENT value of each table; InnoDB does not give a value back
    // when the transaction that took it rolls back.
    var nextUser: int
    var nextCustomer: int
    var nextVehicle: int
    var nextEmployee: int
    var nextService: int
    var nextOrder: int
    var nextPayment: int
    /** The columns of each table, as the information schema reports them. */
    var catalogue: Catalogue

    /** Primary keys are positive and below their table's counter. */
    predicate KeysInRange()
      reads this
    {
      KeysBelow(users, nextUser) && KeysBelow(customers, nextCustomer) &&
      KeysBelow(vehicles, nextVehicle) && KeysBelow(employees, nextEmployee) &&
      KeysBelow(services, nextService) && KeysBelow(orders, nextOrder) &&
      PaymentKeysBelow(payments, nextPayment)
    }

    /** The UNIQUE email columns of users, customers and employees. */
    predicate EmailsUnique()
      reads this
    {
      UniqueUserEmails(users) && UniqueCustomerEmails(customers) && UniqueEmployeeEmails(employees)
    }

    /** The FOREIGN KEY constraints. */
    predicate ForeignKeys()
      reads this
    {
      VehiclesOwned(vehicles, customers.Keys) &&
      OrdersLinked(orders, customers.Keys, vehicles.Keys) &&
      JoinLinked(orderServices, orders.Keys, services.Keys) &&
      PaymentsLinked(payments, orders.Keys, customers.Keys)
    }

    predicate Valid()
      reads this
    {
      KeysInRange() && EmailsUnique() && ForeignKeys()
    }

    /** An empty database. */
    constructor ()
      ensures Valid()
      ensures users == map[] && customers == map[] && vehicles == map[] && employees == map[]
      ensures services == map[] && orders == map[] && orderServices == {} && payments == []
      ensures nextUser == 1 && nextCustomer == 1 && nextVehicle == 1 && nextEmployee == 1
      ensures nextService == 1 && nextOrder == 1 && nextPayment == 1
      ensures catalogue == NoTables
    {
      users, customers, vehicles, employees := map[], map[], map[], map[];
      services, orders, orderServices, payments := map[], map[], {}, [];
      nextUser, nextCustomer, nextVehicle, nextEmployee := 1, 1, 1, 1;
      nextService, nextOrder, nextPayment := 1, 1, 1;
      catalogue := NoTables;
    }

    /** The services attached to order `o`. */
    function ServicesOf(o: int): (s: set<int>)
      reads this
      ensures forall sid :: sid in s <==> (o, sid) in orderServices
    {
      set p | p in orderServices && p.0 == o :: p.1
    }
  }

  /** The order rows that survive when the vehicles in `gone` are deleted:
      `ON DELETE SET NULL` on orders.vehicle_id. */
  function DetachVehicles(orders: map<int, Order>, gone: set<int>): (r: map<int, Order>)
    ensures r.Keys == orders.Keys
    ensures forall o :: o in orders ==>
              r[o] == if orders[o].vehicleId.Some? && orders[o].vehicleId.value in gone
                      then orders[o].(vehicleId := None) else orders[o]
  {
    map o | o in orders :: if orders[o].vehicleId.Some? && orders[o].vehicleId.value in gone
                            then orders[o].(vehicleId := None) else orders[o]
  }

  /** Deleting vehicle `v`: the orders that named it keep existing with no vehicle. */
  method DeleteVehicleRow(db: Db, v: int)
    requires db.Valid() && v in db.vehicles
    modifies db`vehicles, db`orders
    ensures db.Valid()
    ensures db.vehicles == old(db.vehicles) - {v}
    ensures db.orders == DetachVehicles(old(db.orders), {v})
    ensures db.orders.Keys == old(db.orders.Keys)
  {
    db.orders := DetachVehicles(db.orders, {v});
    db.vehicles := db.vehicles - {v};
  }

  /** Deleting order `o`: its order_services rows and its payments go with it
      (`ON DELETE CASCADE`). */
  method DeleteOrderRow(db: Db, o: int)
    requires db.Valid() && o in db.orders
    modifies db`orders, db`orderServices, db`payments
    ensures db.Valid()
    ensures db.orders == old(db.orders) - {o}
    ensures db.orderServices == set p | p in old(db.orderServices) && p.0 != o
    ensures db.payments == Surviving(old(db.payments), old(db.orders).Keys - {o}, old(db.customers).Keys)
  {
    db.payments := Surviving(db.payments, db.orders.Keys - {o}, db.customers.Keys);
    db.orderServices := set p | p in db.orderServices && p.0 != o;
    db.orders := db.orders - {o};
  }

  /** `INSERT INTO services`: the row takes the next AUTO_INCREMENT id. */
  method InsertServiceRow(db: Db, s: Service) returns (id: int)
    requires db.Valid()
    modifies db`services, db`nextService
    ensures db.Valid()
    ensures id == old(db.nextService) && id !in old(db.services)
    ensures db.services == old(db.services)[id := s]
    ensures db.nextService == old(db.nextService) + 1
  {
    id := db.nextService;
    db.services := db.services[id := s];
    db.nextService := db.nextService + 1;
  }

  /** Deleting service `s`: it is detached from every order (`ON DELETE CASCADE`). */
  method DeleteServiceRow(db: Db, s: int)
    requires db.Valid() && s in db.services
    modifies db`services, db`orderServices
    ensures db.Valid()
    ensures db.services == old(db.services) - {s}
    ensures db.orderServices == set p | p in old(db.orderServices) && p.1 != s
  {
    db.orderServices := set p | p in db.orderServices && p.1 != s;
    db.services := db.services - {s};
  }

  /** The ids of the vehicles customer `c` owns. */
  function VehiclesOf(vehicles: map<int, Vehicle>, c: int): (r: set<int>)
    ensures forall v :: v in r <==> v in vehicles && vehicles[v].customerId == c
  {
    set v | v in vehicles && vehicles[v].customerId == c
  }

  /** The vehicle rows of every customer but `c`. */
  function VehiclesNotOf(vehicles: map<int, Vehicle>, c: int): (r: map<int, Vehicle>)
    ensures forall v :: v in r <==> v in vehicles && vehicles[v].customerId != c
    ensures forall v :: v in r ==> r[v] == vehicles[v]
  {
    map v | v in vehicles && vehicles[v].customerId != c :: vehicles[v]
  }

  /** The order rows of every customer but `c`. */
  function OrdersNotOf(orders: map<int, Order>, c: int): (r: map<int, Order>)
    ensures forall o :: o in r <==> o in orders && orders[o].customerId != c
    ensures forall o :: o in r ==> r[o] == orders[o]
  {
    map o | o in orders && orders[o].customerId != c :: orders[o]
  }

  /** The order_services rows whose order is in `orders`. */
  function JoinWithin(orderServices: set<(int, int)>, orders: set<int>): (r: set<(int, int)>)
    ensures forall p :: p in r <==> p in orderServices && p.0 in orders
  {
    set p | p in orderServices && p.0 in orders
  }

  /** Deleting customer `c`: their vehicles, orders and payments are deleted; the order
      services of the deleted orders go too; an order of another customer that named one
      of the deleted vehicles keeps existing with no vehicle. */
  method DeleteCustomerRow(db: Db, c: int)
    requires db.Valid() && c in db.customers
    modifies db`customers, db`vehicles, db`orders, db`orderServices, db`payments
    ensures db.Valid()
    ensures db.customers == old(db.customers) - {c}
    ensures db.vehicles == VehiclesNotOf(old(db.vehicles), c)
    ensures db.orders == DetachVehicles(OrdersNotOf(old(db.orders), c), VehiclesOf(old(db.vehicles), c))
    ensures db.orderServices == JoinWithin(old(db.orderServices), db.orders.Keys)
    ensures db.payments == Surviving(old(db.payments), db.orders.Keys, db.customers.Keys)
  {
    var customers := db.customers - {c};
    var vehicles := VehiclesNotOf(db.vehicles, c);
    var orders := DetachVehicles(OrdersNotOf(db.orders, c), VehiclesOf(db.vehicles, c));
    var orderServices := JoinWithin(db.orderServices, orders.Keys);
    var payments := Surviving(db.payments, orders.Keys, customers.Keys);
    CustomerCascadeLinks(db.customers, db.vehicles, db.orders, db.services.Keys, db.orderServices, c);
    db.customers, db.vehicles, db.orders, db.orderServices, db.payments :=
      customers, vehicles, orders, orderServices, payments;
  }

  /** The foreign keys still hold after the cascade that deleting customer `c` triggers. */
  lemma CustomerCascadeLinks(customers: map<int, Customer>, vehicles: map<int, Vehicle>, orders: map<int, Order>,
                             services: set<int>, orderServices: set<(int, int)>, c: int)
    requires VehiclesOwned(vehicles, customers.Keys)
    requires OrdersLinked(orders, customers.Keys, vehicles.Keys)
    requires JoinLinked(orderServices, orders.Keys, services)
    ensures var vehicles' := VehiclesNotOf(vehicles, c);
            var orders' := DetachVehicles(OrdersNotOf(orders, c), VehiclesOf(vehicles, c));
            VehiclesOwned(vehicles', (customers - {c}).Keys) &&
            OrdersLinked(orders', (customers - {c}).Keys, vehicles'.Keys) &&
            JoinLinked(JoinWithin(orderServices, orders'.Keys), orders'.Keys, services)
  {
  }

  /** After customer `c` is deleted nothing of theirs is left: no vehicle, order or payment
      row names them, and every order of another customer is still there. */
  lemma {:induction false} CustomerCascadeComplete(customers: map<int, Customer>, vehicles: map<int, Vehicle>,
                                                   orders: map<int, Order>, payments: seq<Payment>, c: int)
    ensures var vehicles' := VehiclesNotOf(vehicles, c);
            forall v :: v in vehicles' ==> vehicles'[v].customerId != c
    ensures var orders' := DetachVehicles(OrdersNotOf(orders, c), VehiclesOf(vehicles, c));
            (forall o :: o in orders' ==> orders'[o].customerId != c) &&
            (forall o :: o in orders && orders[o].customerId != c ==> o in orders')
    ensures var orders' := DetachVehicles(OrdersNotOf(orders, c), VehiclesOf(vehicles, c));
            var payments' := Surviving(payments, orders'.Keys, (customers - {c}).Keys);
            forall p :: p in payments' ==> p.customerId != c && p.orderId in orders'
  {
  }
}
