/** Start-up of the database in backend/config/initDatabase.js: `CREATE TABLE IF NOT
    EXISTS` for each table, `ALTER TABLE ... ADD COLUMN` migrations whose duplicate-column
    error is swallowed, the drop of the retired orders.service_type column, and the seeding
    of the default services when the services table is empty. */
module InitDatabase {
  import opened Common
  import opened Schema


  const UsersColumns: set<Column> :=
    {Id, Email, Password, Name, ResetToken, ResetTokenExpires, CreatedAt}
  const CustomersColumns: set<Column> :=
    {Id, Email, Password, FirstName, LastName, Phone, IsActive, ResetToken,
     ResetTokenExpires, CreatedAt, UpdatedAt}
  const VehiclesColumns: set<Column> :=
    {Id, CustomerId, Make, Model, Year, VehicleType, Vin, LicensePlate, Color,
     Mileage, CreatedAt}
  const EmployeesColumns: set<Column> :=
    {Id, Email, Password, FirstName, LastName, Phone, Role, IsActive, CreatedAt,
     UpdatedAt}
  const ServicesColumns: set<Column> := {Id, Name, Description, CreatedAt}
  const OrdersColumns: set<Column> :=
    {Id, CustomerId, VehicleId, Description, Status, TotalAmount, ReceivedBy,
     CreatedAt, UpdatedAt}
  const OrderServicesColumns: set<Column> := {Id, OrderId, ServiceId}
  const PaymentsColumns: set<Column> :=
    {Id, OrderId, CustomerId, Amount, Currency, PaymentMethod, PaymentIntentId,
     Status, TransactionId, Metadata, CreatedAt, UpdatedAt}

  const RetiredColumn := ServiceType

  /** The columns the `ADD COLUMN` migrations add to each table. */
  const UsersAdded: set<Column> := {ResetToken, ResetTokenExpires}
  const CustomersAdded: set<Column> := {ResetToken, ResetTokenExpires, Password}
  const VehiclesAdded: set<Column> := {VehicleType, Mileage}
  const OrdersAddedFirst: set<Column> := {ReceivedBy}
  const OrdersAddedLater: set<Column> := {AssignedEmployeeId, CompletionNote, CompletedAt, PaymentStatus}

  /** The columns of one table after start-up: an existing table keeps its columns and a
      missing one gets its declared columns; then the migrated columns are added. */
  function Final(t: TableColumns, declared: set<Column>, added: set<Column>): (r: TableColumns)
    ensures r.Some? && added <= r.value
    ensures t.None? ==> r == Some(declared + added)
    ensures t.Some? ==> r == Some(t.value + added)
  {
    Some((if t.Some? then t.value else declared) + added)
  }

  /** The catalogue after start-up: every table exists with its final columns, and orders
      has lost service_type. */
  function Migrated(cat: Catalogue): (r: Catalogue)
    ensures r.users == Final(cat.users, UsersColumns, UsersAdded)
    ensures r.customers == Final(cat.customers, CustomersColumns, CustomersAdded)
    ensures r.vehicles == Final(cat.vehicles, VehiclesColumns, VehiclesAdded)
    ensures r.employees == Final(cat.employees, EmployeesColumns, {})
    ensures r.services == Final(cat.services, ServicesColumns, {})
    ensures r.orders == Some(Final(cat.orders, OrdersColumns, OrdersAddedFirst).value - {RetiredColumn} + OrdersAddedLater)
    ensures r.orderServices == Final(cat.orderServices, OrderServicesColumns, {})
    ensures r.payments == Final(cat.payments, PaymentsColumns, {})
  {
    Catalogue(
      Final(cat.users, UsersColumns, UsersAdded),
      Final(cat.customers, CustomersColumns, CustomersAdded),
      Final(cat.vehicles, VehiclesColumns, VehiclesAdded),
      Final(cat.employees, EmployeesColumns, {}),
      Final(cat.services, ServicesColumns, {}),
      Some(Final(cat.orders, OrdersColumns, OrdersAddedFirst).value - {RetiredColumn} + OrdersAddedLater),
      Final(cat.orderServices, OrderServicesColumns, {}),
      Final(cat.payments, PaymentsColumns, {}))
  }

  // ---------------------------------------------------------------- the statements

  /** `CREATE TABLE IF NOT EXISTS`. */
  function CreateTableIfNotExists(t: TableColumns, columns: set<Column>): (r: TableColumns)
    ensures t.Some? ==> r == t
    ensures t.None? ==> r == Some(columns)
  {
    if t.Some? then t else Some(columns)
  }

  /** `ALTER TABLE ADD COLUMN` whose ER_DUP_FIELDNAME error is swallowed: either way the
      table ends up with the column and nothing else changes. */
  function AddColumn(t: TableColumns, column: Column): (r: TableColumns)
    requires t.Some?
    ensures r == Some(t.value + {column})
  {
    if column in t.value then
      assert t.value + {column} == t.value;
      t
    else Some(t.value + {column})
  }

  /** `ALTER TABLE DROP COLUMN` whose error for a missing column is swallowed. */
  function DropColumn(t: TableColumns, column: Column): (r: TableColumns)
    requires t.Some?
    ensures r == Some(t.value - {column})
  {
    if column in t.value then Some(t.value - {column})
    else
      assert t.value - {column} == t.value;
      t
  }

  /** The eight default services, inserted in this order. */
  const DefaultServices: seq<Service> := [
    Service("Oil change", Some("Every 5,000 miles or so, you need to change the oil in your car to keep your engine in the best possible shape.")),
    Service("Spark Plug replacement", Some("Spark plugs are a small part that can cause huge problems. Their job is to ignite the fuel in your engine, helping it start.")),
    Service("Fuel Cap tightening", Some("Loose fuel caps are actually a main reason why the \"check engine\" light in a car comes on.")),
    Service("Oxygen Sensor replacement", Some("Oxygen sensors measure the concentration of oxygen in the exhaust gabs in order to optimize engine performance and emissions.")),
    Service("Brake work", Some("We all know why brake work is important, especially because one quarter of all Canadian car accidents are caused by a failure to stop.")),
    Service("Tire repairs and changes", Some("Without good, inflated tires, you loose speed, control, and fuel efficiency, hence the need to get them patched if there's a leak (for example, if you run over a nail), or replaced if they're too worn.")),
    Service("The Ignition System", Some("A car's ignition system includes its battery, starter, and the ignition itself.")),
    Service("Programming the camera software", Some("Programming and updating camera software for vehicle safety systems."))
  ]

  /** The services table after the rows were inserted one by one into an empty table
      whose AUTO_INCREMENT counter stood at `start`. */
  function Seeded(start: int, rows: seq<Service>): map<int, Service>
  {
    if rows == [] then map[] else Seeded(start, rows[..|rows| - 1])[start + |rows| - 1 := rows[|rows| - 1]]
  }

  /** Seeding gives the rows consecutive ids from the counter, in order. */
  lemma {:induction false} SeededShape(start: int, rows: seq<Service>)
    ensures forall id :: id in Seeded(start, rows) <==> start <= id < start + |rows|
    ensures forall id :: id in Seeded(start, rows) ==> Seeded(start, rows)[id] == rows[id - start]
  {
    if rows != [] {
      var init := rows[..|rows| - 1];
      SeededShape(start, init);
      forall id | id in Seeded(start, init)
        ensures Seeded(start, rows)[id] == rows[id - start]
      {
        assert init[id - start] == rows[id - start];
      }
    }
  }

  /** Inserts the rows into the empty services table in order. */
  method SeedServices(db: Db, rows: seq<Service>)
    requires db.Valid() && db.services == map[]
    modifies db`services, db`nextService
    ensures db.Valid()
    ensures db.services == Seeded(old(db.nextService), rows)
    ensures db.nextService == old(db.nextService) + |rows|
  {
    ghost var start := db.nextService;
    var i := 0;
    while i < |rows|
      invariant 0 <= i <= |rows|
      invariant db.nextService == start + i
      invariant db.services == Seeded(start, rows[..i])
      invariant db.Valid()
    {
      var _ := InsertServiceRow(db, rows[i]);
      assert rows[..i + 1][..i] == rows[..i];
      i := i + 1;
    }
    assert rows[..i] == rows;
  }

  /** Issues the schema statements in the order the source does, table by table, and
      yields the catalogue they leave behind. */
  method RunStatements(cat0: Catalogue) returns (cat: Catalogue)
    ensures cat == Migrated(cat0)
  {
    var users := CreateTableIfNotExists(cat0.users, UsersColumns);
    users := AddColumn(users, ResetToken);
    users := AddColumn(users, ResetTokenExpires);
    var customers := CreateTableIfNotExists(cat0.customers, CustomersColumns);
    customers := AddColumn(customers, ResetToken);
    customers := AddColumn(customers, ResetTokenExpires);
    customers := AddColumn(customers, Password);
    var vehicles := CreateTableIfNotExists(cat0.vehicles, VehiclesColumns);
    vehicles := AddColumn(vehicles, VehicleType);
    vehicles := AddColumn(vehicles, Mileage);
    var employees := CreateTableIfNotExists(cat0.employees, EmployeesColumns);
    var services := CreateTableIfNotExists(cat0.services, ServicesColumns);
    var orders := CreateTableIfNotExists(cat0.orders, OrdersColumns);
    orders := AddColumn(orders, ReceivedBy);
    orders := DropColumn(orders, RetiredColumn);
    var orderServices := CreateTableIfNotExists(cat0.orderServices, OrderServicesColumns);
    orders := AddColumn(orders, AssignedEmployeeId);
    orders := AddColumn(orders, CompletionNote);
    orders := AddColumn(orders, CompletedAt);
    orders := AddColumn(orders, PaymentStatus);
    var payments := CreateTableIfNotExists(cat0.payments, PaymentsColumns);
    ghost var m := Migrated(cat0);
    assert users.value == m.users.value;
    assert customers.value == m.customers.value;
    assert vehicles.value == m.vehicles.value;
    assert orders.value == m.orders.value;
    assert employees.value == m.employees.value;
    assert services.value == m.services.value;
    assert orderServices.value == m.orderServices.value;
    assert payments.value == m.payments.value;
    cat := Catalogue(users, customers, vehicles, employees, services, orders, orderServices, payments);
  }

  /** Runs the start-up statements, then seeds the services table when it is empty. */
  method Initialize(db: Db)
    requires db.Valid()
    modifies db`catalogue, db`services, db`nextService
    ensures db.Valid()
    ensures db.catalogue == Migrated(old(db.catalogue))
    ensures old(db.services) != map[] ==> db.services == old(db.services) && db.nextService == old(db.nextService)
    ensures old(db.services) == map[] ==>
              db.services == Seeded(old(db.nextService), DefaultServices) &&
              db.nextService == old(db.nextService) + |DefaultServices|
  {
    ghost var cat0 := db.catalogue;
    var cat := RunStatements(db.catalogue);
    db.catalogue := cat;

    if |db.services| == 0 {
      assert db.services == map[];
      SeedServices(db, DefaultServices);
    }
  }

  // ---------------------------------------------------------------- properties

  /** Running the start-up a second time changes no table's columns. */
  lemma {:induction false} MigratedIdempotent(cat: Catalogue)
    ensures Migrated(Migrated(cat)) == Migrated(cat)
  {
    var once := Migrated(cat);
    FinalIdempotent(cat.users, UsersColumns, UsersAdded);
    FinalIdempotent(cat.customers, CustomersColumns, CustomersAdded);
    FinalIdempotent(cat.vehicles, VehiclesColumns, VehiclesAdded);
    FinalIdempotent(cat.employees, EmployeesColumns, {});
    FinalIdempotent(cat.services, ServicesColumns, {});
    FinalIdempotent(cat.orderServices, OrderServicesColumns, {});
    FinalIdempotent(cat.payments, PaymentsColumns, {});
    OrdersIdempotent(cat.orders);
  }

  lemma FinalIdempotent(t: TableColumns, declared: set<Column>, added: set<Column>)
    ensures Final(Final(t, declared, added), declared, added) == Final(t, declared, added)
  {
    var once := Final(t, declared, added).value;
    assert once + added == once;
  }

  /** The orders statements, run on their own result, change nothing. */
  lemma OrdersIdempotent(t: TableColumns)
    ensures var once := Some(Final(t, OrdersColumns, OrdersAddedFirst).value - {RetiredColumn} + OrdersAddedLater);
            Some(Final(once, OrdersColumns, OrdersAddedFirst).value - {RetiredColumn} + OrdersAddedLater) == once
  {
    var y := Final(t, OrdersColumns, OrdersAddedFirst).value - {RetiredColumn} + OrdersAddedLater;
    assert RetiredColumn !in OrdersAddedFirst && RetiredColumn !in OrdersAddedLater;
    assert OrdersAddedFirst <= y;
    assert y + OrdersAddedFirst == y;
    assert RetiredColumn !in y;
    assert y - {RetiredColumn} == y;
    assert y + OrdersAddedLater == y;
  }

  /** After start-up every table exists and every migrated column is present. */
  lemma {:induction false} MigratedTablesExist(cat: Catalogue)
    ensures var m := Migrated(cat);
            m.users.Some? && m.customers.Some? && m.vehicles.Some? && m.employees.Some? &&
            m.services.Some? && m.orders.Some? && m.orderServices.Some? && m.payments.Some?
    ensures UsersAdded <= Migrated(cat).users.value
    ensures CustomersAdded <= Migrated(cat).customers.value
    ensures VehiclesAdded <= Migrated(cat).vehicles.value
    ensures OrdersAddedLater <= Migrated(cat).orders.value
  {
  }

  /** The retired orders.service_type column is gone after start-up, every orders
      migration column is present, and a fresh orders table has exactly its declared
      columns plus the migrated ones. */
  lemma {:induction false} MigratedOrders(cat: Catalogue)
    ensures RetiredColumn !in Migrated(cat).orders.value
    ensures OrdersAddedFirst <= Migrated(cat).orders.value
    ensures cat.orders.None? ==> Migrated(cat).orders == Some(OrdersColumns + OrdersAddedFirst + OrdersAddedLater)
  {
    assert RetiredColumn !in OrdersAddedFirst && RetiredColumn !in OrdersAddedLater;
    if cat.orders.None? {
      assert RetiredColumn !in OrdersColumns;
      assert OrdersColumns + OrdersAddedFirst - {RetiredColumn} == OrdersColumns + OrdersAddedFirst;
    }
  }
}
