# A to Z Auto Repair: the verified core of the backend

This project models the server of a car-repair shop in Dafny and proves properties of the model.
The server is a Node/Express application over MySQL. Staff and customers sign in with JSON Web
Tokens. Customers create repair orders for their vehicles and pay for them through a payment
processor. Staff manage orders, employees and the service catalogue.

What is modelled:

- **The relational store** (`schema.dfy`). One class `Schema.Db` holds one map per table, keyed
  by the AUTO_INCREMENT id. The `order_services` join table is a set of (order, service) pairs,
  because its unique key makes it a set. The predicate `Db.Valid` collects the primary-key
  counters, the unique email columns and the foreign keys. Deleting a customer, vehicle, order
  or service follows the schema's `ON DELETE` rules. Money is integer cents.
- **Start-up** (`init_database.dfy`):
  - `CREATE TABLE IF NOT EXISTS`;
  - column migrations whose duplicate-column error is swallowed;
  - the drop of the retired column;
  - seeding of the default services into an empty table.
- **Orders** (`orders.dfy`):
  - creation with its ownership checks and the all-or-nothing insert of the service links;
  - the partial-update merge and service replacement;
  - attaching one service;
  - the two read endpoints;
  - status notifications as an append-only event log.
- **Payments** (`payments.dfy`):
  - intent creation, including the mock mode used when no processor is configured;
  - client confirmation, with every fail-closed check in source order;
  - payment history;
  - the processor webhook.

  The processor is an oracle: whether it is configured, what it returns and whether a signature
  verifies are all parameters.
- **Authentication and authorization**:
  - bearer-token extraction (`tokens.dfy`);
  - the customer-token middleware (`customer_auth.dfy`);
  - the case-insensitive role gate (`roles.dfy`);
  - the guard chains of the order, employee and customer routers, including the admin-or-customer
    fallback (`routes.dfy`);
  - staff accounts, including login-role normalisation (`staff_auth.dfy`);
  - customer accounts (`customer_accounts.dfy`).

  Both account modules model the reset-token lifecycle.
- **Employees and services** (`employees.dfy`, `services.dfy`): CRUD with email uniqueness,
  defaults and partial-update rules.
- **Rule engines**:
  - maintenance recommendations from mileage, age and service history, with de-duplication and
    high-priority-first ordering (`recommendations.dfy`);
  - the keyword fallback of the chat assistant (`chatbot.dfy`).
- **The browser client's API layer** (`client_config.dfy`): which stored token a request carries,
  and how a failed request becomes an error message.

Shared pieces:

- `common.dfy`: `Option`, and a request-body field `Field<T>` (undefined, null or a value) with
  JavaScript truthiness.
- `text.dfy`: trimming, ASCII case mapping, substring search and string order.
- `sorting.dfy`: an insertion sort against a total preorder, proved to return an ordered permutation.

Conventions of the model:

- Each handler answers with an HTTP status code. Its `ensures` ties that code and the new state
  of the store to the old state.
- Handlers that write are methods with `modifies` on exactly the table fields they touch.
- Clocks, hashing, token signing and verification, random tokens and the payment processor are
  all parameters.

## Model

| member | source | states |
|---|---|---|
| Common.StrOrNull | backend/controllers/servicesController.js:47 | `s \|\| null`: a value iff the string field is truthy, and then that non-empty string |
| Common.StrOr | backend/controllers/ordersController.js:170 | `s \|\| fallback`: the string when truthy, the fallback otherwise |
| Common.IntOrNull | backend/controllers/ordersController.js:167 | `n \|\| null`: a value iff the number field is truthy, and then that non-zero number |
| Common.IntOr | backend/controllers/ordersController.js:169 | `n \|\| fallback`: the number when truthy, the fallback otherwise |
| Common.Patch | backend/controllers/ordersController.js:274-276 | `f !== undefined ? f : current`: a missing field keeps the stored value, null clears it, a value replaces it |
| StaffAuth.Capitalize | backend/controllers/authController.js:50-51 | the capitalised role has the length of the trimmed role |
| Schema.Db.constructor | backend/config/initDatabase.js:51-393 | an empty store satisfies every key, uniqueness and foreign-key constraint |
| Schema.Db.ServicesOf | backend/config/initDatabase.js:298-305 | the services of an order are exactly the pairs of the join table with that order |
| Schema.NewOrder | backend/config/initDatabase.js:254-266 | a new order row has payment status 'pending' and no assigned employee or completion note |
| Schema.InsertServiceRow | backend/config/initDatabase.js:243-249 | an insert takes the next id, which was unused, adds exactly that row and keeps the store valid |
| Schema.DeleteServiceRow | backend/config/initDatabase.js:303 | deleting a service removes it and every join row naming it, and keeps the store valid |
| Schema.DeleteVehicleRow | backend/config/initDatabase.js:265 | deleting a vehicle keeps every order, setting vehicle_id to null where it named that vehicle |
| Schema.DetachVehicles | backend/config/initDatabase.js:265 | the same orders survive; exactly those naming a deleted vehicle lose it |
| Schema.DeleteOrderRow | backend/config/initDatabase.js:302-385 | deleting an order removes its join rows and its payments, and keeps the store valid |
| Schema.Surviving | backend/config/initDatabase.js:385-386 | the payments kept are exactly those whose order and customer remain, in their original order |
| Schema.DeleteCustomerRow | backend/config/initDatabase.js:173-386 | deleting a customer cascades to their vehicles, orders, the orders' join rows and payments; other customers' orders lose a deleted vehicle |
| Schema.CustomerCascadeLinks | backend/config/initDatabase.js:185-305 | after the customer cascade every foreign key still holds |
| Schema.CustomerCascadeComplete | backend/config/initDatabase.js:185-386 | after the customer cascade no vehicle, order or payment names the customer, and every other customer's order remains |
| Schema.VehiclesOf | backend/config/initDatabase.js:185 | the vehicles a customer owns |
| Schema.VehiclesNotOf | backend/config/initDatabase.js:185 | the vehicle rows of every other customer, unchanged |
| Schema.OrdersNotOf | backend/config/initDatabase.js:264 | the order rows of every other customer, unchanged |
| Schema.JoinWithin | backend/config/initDatabase.js:302 | the join rows whose order survives |
| InitDatabase.CreateTableIfNotExists | backend/config/initDatabase.js:52-61 | an existing table is untouched; a missing one is created with its declared columns |
| InitDatabase.AddColumn | backend/config/initDatabase.js:66-81 | adding a column, whether new or a swallowed duplicate, leaves the table with that column and nothing else changed |
| InitDatabase.DropColumn | backend/config/initDatabase.js:288-294 | dropping the retired column removes it, whether or not it was there |
| InitDatabase.Final | backend/config/initDatabase.js:51-393 | after start-up a table has its existing or declared columns plus every migrated column |
| InitDatabase.Migrated | backend/config/initDatabase.js:51-393 | the catalogue after start-up, table by table, with service_type gone from orders |
| InitDatabase.RunStatements | backend/config/initDatabase.js:51-393 | the statements, run in source order, produce the migrated catalogue |
| InitDatabase.MigratedIdempotent | backend/config/initDatabase.js:51-393 | running start-up a second time changes no table's columns |
| InitDatabase.FinalIdempotent | backend/config/initDatabase.js:66-217 | re-running a table's create and add-column statements changes nothing |
| InitDatabase.OrdersIdempotent | backend/config/initDatabase.js:254-362 | re-running the orders statements, drop included, changes nothing |
| InitDatabase.MigratedTablesExist | backend/config/initDatabase.js:51-393 | after start-up every table exists and carries every migrated column |
| InitDatabase.MigratedOrders | backend/config/initDatabase.js:270-362 | orders loses service_type, gains every migrated column, and a fresh table has exactly declared plus migrated columns |
| InitDatabase.SeededShape | backend/config/initDatabase.js:436-441 | seeding gives the rows consecutive ids from the counter, each id holding the row at that position |
| InitDatabase.SeedServices | backend/config/initDatabase.js:436-441 | the insert loop leaves exactly the seeded rows and advances the counter by their number |
| InitDatabase.Initialize | backend/config/initDatabase.js:51-443 | start-up migrates the catalogue; it seeds the eight default services only into an empty table, so a second run adds no service |
| Orders.Feed.constructor | backend/controllers/ordersController.js:4-6 | a feed starts with no events |
| Orders.Emission | backend/controllers/ordersController.js:4-15 | one status change yields two events for that order and status, to its room and to everyone |
| Orders.EmitOrderUpdate | backend/controllers/ordersController.js:4-15 | the log grows by exactly the two events when a socket server is attached, and not at all otherwise |
| Orders.CreatedOrder | backend/controllers/ordersController.js:162-172 | a created order is "Received", belongs to the caller, has vehicle null when absent, total price or 0, received_by defaulting to "Customer" |
| Orders.Attached | backend/controllers/ordersController.js:177-184 | the join rows inserted pair the order with exactly the given ids |
| Orders.InsertServiceRows | backend/controllers/ordersController.js:177-184 | the insert loop succeeds exactly when every id is a service and none repeats, and then adds exactly those rows |
| Orders.CreateOrder | backend/controllers/ordersController.js:122-236 | 403 with no write when the caller differs from customer_id or does not own the vehicle; 500 rolls back everything but the id counter; 201 inserts one order linked to exactly the ids and emits "Received" |
| Orders.InsertOrder | backend/controllers/ordersController.js:161-186 | the transaction commits iff the customer exists and the ids are insertable; then the order's service set is exactly the ids; otherwise orders and links are as before |
| Orders.Merged | backend/controllers/ordersController.js:268-281 | vehicle, description and price are replaced whenever present, null included; customer, status and received_by only when truthy; every other column is kept |
| Orders.JoinWithout | backend/controllers/ordersController.js:286-289 | the join rows of every other order |
| Orders.MergeLinked | backend/controllers/ordersController.js:268-281 | the update names an existing customer, and an existing vehicle when it names one |
| Orders.UpdateOrder | backend/controllers/ordersController.js:241-353 | 404 for an unknown order with nothing changed; 500 rolls back; 200 writes the merge, replaces the service set when an array is sent, and emits iff a truthy status differs from the stored one |
| Orders.ReplaceServices | backend/controllers/ordersController.js:284-298 | delete-then-reinsert leaves the order with exactly the sent ids and every other order's rows as they were |
| Orders.MergeNothing | backend/controllers/ordersController.js:268-281 | an update with no fields leaves the order unchanged |
| Orders.MergeIdempotent | backend/controllers/ordersController.js:268-281 | sending the same update twice has the effect of sending it once |
| Orders.AddServiceToOrder | backend/controllers/ordersController.js:357-405 | 400 without a service id; 404 for an order the caller does not own or an unknown service; 400 for an attached pair; 200 adds exactly one pair; nothing changes otherwise |
| Orders.GetOrderById | backend/controllers/ordersController.js:69-119 | 404 for an unknown order, otherwise the row with exactly its services |
| Orders.GetAllOrders | backend/controllers/ordersController.js:17-66 | every order exactly once, each with its services, newest first |
| Orders.NewerFirstTotal | backend/controllers/ordersController.js:44 | ordering by created_at descending is a total preorder |
| Payments.PendingRow | backend/controllers/paymentsController.js:82-86 | the inserted row is pending, in USD, by stripe, for the order total and the intent id, with no transaction |
| Payments.CreatePaymentIntent | backend/controllers/paymentsController.js:8-98 | 401, then 404 unless the caller owns the order, then 400 for a falsy or non-positive total before 400 for paid; mock mode returns a mock_ handle with no row; a processor error gives 500 with no row; success appends one pending row |
| Payments.AppendKeepsKeys | backend/controllers/paymentsController.js:82-86 | appending a row with the next id keeps payment ids increasing and in range |
| Payments.CompletedRow | backend/controllers/paymentsController.js:212-217 | a completed row carries the transaction id and keeps its keys and amount |
| Payments.SameKeysValid | backend/controllers/paymentsController.js:212-217 | rewriting rows without touching their keys keeps the payment constraints |
| Payments.CompleteMatching | backend/controllers/paymentsController.js:212-217 | every row matching order, intent and customer is completed and every other row is unchanged |
| Payments.ConfirmPayment | backend/controllers/paymentsController.js:100-260 | the answer follows the source's check order; only a 200 writes, completing the matching rows with the intent id and marking the order paid |
| Payments.ConfirmWithoutIntentId | backend/controllers/paymentsController.js:151-182 | with a processor configured, a missing or empty intent id answers 400, whatever the processor would return |
| Payments.ConfirmOrderIdAbsent | backend/controllers/paymentsController.js:102-119 | a missing orderId answers 500 and a null one 404 |
| Payments.SecondConfirmRejected | backend/controllers/paymentsController.js:123-128 | confirming an order already paid answers 400 |
| Payments.MockConfirmNeedsRow | backend/controllers/paymentsController.js:196-209 | a mock handle with no payment row carrying it never confirms |
| Payments.MockHandleIsMock | backend/controllers/paymentsController.js:49-56 | the handle mock mode returns is one that confirmation treats as a mock |
| Payments.ForeignIntentRejected | backend/controllers/paymentsController.js:151-173 | an intent whose metadata names another order answers 400, another customer 403 |
| Payments.ConfirmRequires | backend/controllers/paymentsController.js:100-234 | a 200 implies an owned unpaid order, a succeeded or mock intent, and an existing matching payment row |
| Payments.ConfirmCode | backend/controllers/paymentsController.js:100-209 | the answer of confirmPayment is one of 401, 500, 404, 400, 403 and 200; 401 exactly without a customer id, 500 exactly for a missing order id, and 403 only for a retrieved intent of another customer (`ConfirmRequires` states what a 200 needs) |
| Payments.IntentCheckOrder | backend/controllers/paymentsController.js:18-40 | intent creation refuses a foreign order with 404 and a bad total with 400 before the paid check, and succeeds only for an unpaid order with a positive total |
| Payments.IntentCode | backend/controllers/paymentsController.js:8-86 | the answer of createPaymentIntent is one of 401, 404, 400, 500 and 200; 401 exactly without a customer id, and 500 only when a configured processor fails to create the intent (`IntentCheckOrder` states the order of the checks) |
| Payments.OfOrder | backend/controllers/paymentsController.js:282-286 | exactly the payments of the order |
| Payments.NewerFirstTotal | backend/controllers/paymentsController.js:285 | ordering by created_at descending is a total preorder |
| Payments.GetPaymentHistory | backend/controllers/paymentsController.js:262-295 | 401, 404 unless the caller owns the order, otherwise a newest-first permutation of that order's payments |
| Payments.FirstOfIntent | backend/controllers/paymentsController.js:327-333 | the position of the first row with the intent id, or none when no row has it |
| Payments.HandleWebhook | backend/controllers/paymentsController.js:297-362 | 400 with no change before the signature passes; afterwards 200 always; only a succeeded event for a known intent completes its first row and marks its order paid |
| Roles.AllowedKeys | backend/middleware/authorizeRoles.js:18-20 | the allowed roles, each trimmed and lower-cased, position by position |
| Roles.AuthorizeRolesIff | backend/middleware/authorizeRoles.js:11-42 | a request passes iff its role is present, non-empty and equals an allowed role up to case and surrounding whitespace; otherwise it gets 403 and never reaches next |
| Roles.AuthorizeRoles | backend/middleware/authorizeRoles.js:3-44 | the gate answers only with 403, and a missing or empty role or an empty allowed list never passes (`AuthorizeRolesIff` states exactly when a request passes) |
| Roles.RoleKeyPadded | backend/middleware/authorizeRoles.js:17-22 | padding and case variants of a role have the same comparison key |
| Roles.AuthorizeIgnoresPaddingAndCase | backend/middleware/authorizeRoles.js:17-27 | " manager " is decided exactly as "Manager" |
| Roles.AuthorizeMonotone | backend/middleware/authorizeRoles.js:18-27 | adding allowed roles never turns an allow into a deny |
| Tokens.IndexOf | backend/middleware/customerAuth.js:5 | the first position of the separator, or the length when it is absent |
| Tokens.BearerToken | backend/middleware/customerAuth.js:4-5 | an extracted token is non-empty and has no space |
| Tokens.BearerRoundTrip | backend/middleware/customerAuth.js:4-5 | the header `<scheme> <token>` gives back exactly the token |
| CustomerAuth.AuthenticateCustomer | backend/middleware/customerAuth.js:3-32 | 401 iff no token; admitted iff the token verifies with role exactly "customer", with principal {customerId, email}; 403 otherwise |
| Routes.Mount | backend/routes/employees.js:14-30 | router-level middleware runs in front of each route's own guards |
| Routes.AuthenticateAdminOrCustomer | backend/routes/customers.js:19-44 | a verified token with a truthy userId is admitted as admin; everything else falls back to customer authentication and its answer |
| Routes.StaffChain | backend/routes/orders.js:15-38 | staff authentication runs first and its rejection wins; after it the request passes iff the role gate passes |
| Routes.Serve | backend/routes/orders.js:14-41 | a request reaches a handler iff every guard of its route admits it; an unguarded route always does, with no principal; a dispatching endpoint runs its admin or its customer handler |
| Routes.ServeStaffRoute | backend/routes/orders.js:15-27 | a staff-guarded route reaches its handler iff authentication accepts and the role is allowed |
| Routes.ServeCustomerRoute | backend/routes/orders.js:30 | a customer-guarded route reaches its handler iff customer authentication admits |
| Routes.ServeDispatchRoute | backend/routes/customers.js:59-77 | the admin handler runs for a verified staff token, otherwise the customer handler once customer authentication admits |
| Routes.ServeOpenRoute | backend/routes/customers.js:47-56 | an unguarded route always reaches its handler |
| Routes.OrderRoutesGuarded | backend/routes/orders.js:14-41 | order reads and the update need a staff token with role Admin, Manager or Employee; create and attach need a customer token |
| Routes.EmployeeRoutesAdminOnly | backend/routes/employees.js:14-30 | every employee route is reached iff staff authentication accepts and the role is Admin up to case and padding; Manager and Employee get 403 |
| Routes.AdminGate | backend/routes/employees.js:15 | the Admin gate passes exactly roles whose key is "admin" and answers everything else with 403 |
| Routes.CustomerRoutesGuarded | backend/routes/customers.js:46-77 | customer CRUD is open, vehicle and order listings dispatch between admin and customer, and vehicle creation needs a customer token |
| StaffAuth.NormalizeRole | backend/controllers/authController.js:48-54 | the issued role is never empty |
| StaffAuth.LoginRole | backend/controllers/authController.js:34-46 | "Admin" when the lookup throws, there is no employee row or its role is null |
| StaffAuth.CapitalizeIdempotent | backend/controllers/authController.js:50-51 | capitalising twice is capitalising once |
| StaffAuth.NormalizeIsCapitalizedKey | backend/controllers/authController.js:48-54 | a normalised role is trimmed and capitalised |
| StaffAuth.DefaultRoleNormal | backend/controllers/authController.js:53 | the default "Admin" is already normal |
| StaffAuth.NormalizeIdempotent | backend/controllers/authController.js:48-54 | normalising a normalised role changes nothing |
| StaffAuth.NormalizeKeepsKey | backend/controllers/authController.js:48-54 | normalisation keeps the role's case- and space-insensitive key |
| StaffAuth.NormalizeKeepsGate | backend/controllers/authController.js:48-54 | the role gate decides a normalised role exactly as the raw one |
| StaffAuth.NormalizeByKey | backend/controllers/authController.js:48-54 | roles with the same key normalise to the same spelling |
| StaffAuth.NormalizeCanonical | backend/controllers/authController.js:50-51 | every case and padding variant of admin, manager or employee normalises to Admin, Manager or Employee |
| StaffAuth.EmployeeRoleRow | backend/controllers/authController.js:37-43 | none iff no employee has the email, otherwise that employee's role column |
| StaffAuth.Login | backend/controllers/authController.js:7-78 | 400 without email or password; 401 alike for an unknown email and a wrong password; 200 iff a user with the email has a matching password, with a token carrying its id, email and the normalised employee role |
| StaffAuth.Register | backend/controllers/authController.js:80-135 | 400 without email or password or for a held email, with no insert; 201 inserts one user with the hashed password and issues role "Admin" |
| StaffAuth.WithResetToken | backend/controllers/authController.js:159-168 | an issued token expires one hour after now and nothing else of the row changes |
| StaffAuth.ForgotPassword | backend/controllers/authController.js:137-181 | 400 without email; an unknown email gets 200 with a null token and no change; a known one gets the token on its row |
| StaffAuth.AfterReset | backend/controllers/authController.js:216-220 | a reset sets the new hash and clears token and expiry |
| StaffAuth.ResetPassword | backend/controllers/authController.js:183-231 | 200 iff token and password are given, the password has at least 6 characters, and a user holds the token unexpired; only that row changes |
| StaffAuth.ResetIsSingleUse | backend/controllers/authController.js:216-220 | after a reset the row accepts no token at any time |
| StaffAuth.IssuedTokenWindow | backend/controllers/authController.js:159-203 | a fresh token is accepted until, and only until, one hour has passed |
| StaffAuth.ForgotUsername | backend/controllers/authController.js:233-265 | 400 without email; otherwise 200, revealing the email only when a user holds it |
| StaffAuth.ReportedRole | backend/controllers/authController.js:293 | the token's role, or "Admin" when it carries none |
| StaffAuth.UserViewOf | backend/controllers/authController.js:281-282 | the user as getMe returns it: id, email and name, with no password hash or reset token |
| StaffAuth.GetMe | backend/controllers/authController.js:267-300 | 401 without a token; 500 when verification fails or there is no user id; 404 for an unknown id; 200 with the user's id, email and name only, and the reported role |
| CustomerAccounts.CustomerClaims | backend/controllers/customerAuthController.js:45-53 | customer tokens carry the customer id, the email and role "customer", and no user id |
| CustomerAccounts.Registered | backend/controllers/customerAuthController.js:32-36 | a registered customer is active, with the hashed password and no reset token |
| CustomerAccounts.Register | backend/controllers/customerAuthController.js:7-65 | 400 without email, password, first or last name, or for a held email; 201 inserts exactly one active customer and issues a customer token |
| CustomerAccounts.Login | backend/controllers/customerAuthController.js:67-140 | 400 for missing fields; 401 for an unknown email, no password set or a wrong password; 403 iff the password matches but the account is inactive; 200 otherwise with a customer token |
| CustomerAccounts.WithResetToken | backend/controllers/customerAuthController.js:165-174 | an issued token expires one hour after now and nothing else of the row changes |
| CustomerAccounts.ForgotPassword | backend/controllers/customerAuthController.js:142-187 | an unknown email gets a null token and no change; a known one gets the token |
| CustomerAccounts.AfterReset | backend/controllers/customerAuthController.js:222-226 | a reset sets the new hash and clears token and expiry |
| CustomerAccounts.ResetPassword | backend/controllers/customerAuthController.js:189-237 | 200 iff token and password are given, the password has at least 6 characters, and a customer holds the token unexpired; only that row changes |
| CustomerAccounts.ResetIsSingleUse | backend/controllers/customerAuthController.js:222-226 | after a reset the row accepts no token at any time |
| CustomerAccounts.ResetThenLogin | backend/controllers/customerAuthController.js:92-104 | after a reset the new password passes the login password checks |
| CustomerAccounts.ForgotUsername | backend/controllers/customerAuthController.js:239-272 | 200 for any given email, revealing email and first name only when a customer holds it |
| CustomerAccounts.CustomerViewOf | backend/controllers/customerAuthController.js:292-293 | the customer as getMe returns it: id, email, names, phone and active flag, with no password hash or reset token |
| CustomerAccounts.GetMe | backend/controllers/customerAuthController.js:274-307 | 401 without a token; a token whose role is not "customer" gets 403; 404 for an unknown id; 200 with the customer's public columns only |
| CustomerAccounts.IssuedTokenAdmitted | backend/controllers/customerAuthController.js:114-122 | a token issued at login, sent back as a bearer header, passes the customer middleware with the same id and email |
| Employees.ViewOf | backend/controllers/employeesController.js:22 | the returned columns are the row without its password |
| Employees.GetAllEmployees | backend/controllers/employeesController.js:5-16 | every employee exactly once, without passwords |
| Employees.GetEmployeeById | backend/controllers/employeesController.js:18-35 | 404 for an unknown id, otherwise that employee |
| Employees.Created | backend/controllers/employeesController.js:63-73 | role defaults to "Employee", is_active to true when absent, phone to null when falsy |
| Employees.CreateEmployee | backend/controllers/employeesController.js:38-90 | 201 iff email, password, first and last name are given and the email is unheld; 400 changes nothing; emails stay unique |
| Employees.ChangesPassword | backend/controllers/employeesController.js:130 | the password is replaced only when it is non-blank |
| Employees.Updated | backend/controllers/employeesController.js:130-156 | the password changes only when non-blank, a falsy role keeps the stored one, an undefined is_active keeps the stored one, a falsy phone becomes null |
| Employees.UpdateEmployee | backend/controllers/employeesController.js:92-174 | 400 for missing fields; 404 for an unknown id; 400 for an email another employee holds, one's own allowed; 200 rewrites only that row |
| Employees.DeleteEmployee | backend/controllers/employeesController.js:176-195 | 404 for an unknown id; otherwise exactly that row is removed |
| Employees.UpdateKeepsUnsent | backend/controllers/employeesController.js:130-156 | an update without password, role or activity flag keeps the stored ones |
| Employees.BlankPasswordIgnored | backend/controllers/employeesController.js:130 | an all-whitespace password never replaces the stored hash |
| Services.ViewOf | backend/controllers/servicesController.js:6-7 | a service as returned: id, name and description; the row's `created_at` is not carried (see "Left out") |
| Services.ByNameTotal | backend/routes/services.js:9 | ordering by name is a total preorder |
| Services.GetAllServices | backend/controllers/servicesController.js:4-15 | every service exactly once, ordered by name |
| Services.GetServiceById | backend/controllers/servicesController.js:17-35 | 404 for an unknown id, otherwise the row |
| Services.CreateService | backend/controllers/servicesController.js:37-64 | 400 without a name and no insert; 201 inserts one row with a falsy description stored as null |
| Services.UpdateService | backend/controllers/servicesController.js:66-103 | 400 without a name, before the existence check; 404 for an unknown id; 200 replaces name and description |
| Services.DeleteService | backend/controllers/servicesController.js:105-124 | 404 for an unknown id; otherwise that service and its order links are gone |
| Recommendations.OfferedByRow | backend/controllers/recommendationsController.js:43-139 | a service with one rule is offered exactly when that rule fires |
| Recommendations.MileageOffered | backend/controllers/recommendationsController.js:43-94 | oil, tire, 30,000, 60,000 and brake services are each offered exactly when their own window fires; brake priority is high iff mileage exceeds 50,000 |
| Recommendations.AgeHistoryOffered | backend/controllers/recommendationsController.js:98-139 | battery iff age is at least 5, coolant iff at least 7, initial inspection iff never serviced, general inspection iff serviced and stale |
| Recommendations.Dedup | backend/controllers/recommendationsController.js:142-146 | the filter leaves distinct names, invents nothing and loses no name |
| Recommendations.DedupKeepsFirst | backend/controllers/recommendationsController.js:142-146 | every kept element is the first occurrence of its name |
| Recommendations.DedupDistinct | backend/controllers/recommendationsController.js:142-146 | a list with distinct names passes unchanged |
| Recommendations.HighFirstTotal | backend/controllers/recommendationsController.js:148-152 | high priority first, then by name, is a total preorder |
| Recommendations.CompletedOrders | backend/controllers/recommendationsController.js:27-33 | exactly the vehicle's orders with status "Completed" |
| Recommendations.Age | backend/controllers/recommendationsController.js:23-24 | a missing or zero year gives age 0, otherwise current year minus year |
| Recommendations.PushMileage | backend/controllers/recommendationsController.js:43-95 | the pushed recommendations are exactly those the mileage table makes due |
| Recommendations.PushDue | backend/controllers/recommendationsController.js:43-139 | the pushed recommendations are exactly the due ones |
| Recommendations.Arrange | backend/controllers/recommendationsController.js:142-152 | filter and sort keep exactly the due recommendations, with distinct names, high before medium, then by name |
| Recommendations.GetServiceRecommendations | backend/controllers/recommendationsController.js:3-167 | 400 without a vehicle id, 404 for an unknown vehicle; otherwise exactly the due recommendations, each name once, high first, then by name |
| Recommendations.DueNameDecides | backend/controllers/recommendationsController.js:43-139 | among due recommendations the service name fixes the priority |
| Recommendations.PermutationKeepsDistinct | backend/controllers/recommendationsController.js:148-152 | sorting keeps the names distinct |
| Chatbot.FirstMatchSpec | backend/controllers/chatbotController.js:60-106 | the table walk gives the help text iff no group matches, otherwise the topic of the first matching group |
| Chatbot.FirstMatchAt | backend/controllers/chatbotController.js:60-101 | a message goes to the first group in test order that it matches |
| Chatbot.FallbackIsFirstMatch | backend/controllers/chatbotController.js:60-106 | the if/else chain and the first-match table agree on every message |
| Chatbot.FallbackTopic | backend/controllers/chatbotController.js:56-104 | the hours answer is given iff the message mentions hours, open or time; the help text never when it mentions service or repair (`FallbackIsFirstMatch` ties the whole chain to the keyword table) |
| Chatbot.ChatWithBot | backend/controllers/chatbotController.js:16-116 | 400 iff the message is missing or blank; without a model the reply is the first matching group of the lower-cased message; with one, exactly the text it returns, or 500 when it fails |
| Chatbot.KeywordWins | backend/controllers/chatbotController.js:56-101 | a keyword of a group, in any case, picks that group's reply unless an earlier group matches |
| ClientConfig.HeaderChoice | frontend/src/api/config.js:24-59 | the customer token when the route needs it and none if it is missing, even with a staff token stored; otherwise the staff token, then the customer token, then none |
| ClientConfig.AuthorizationHeader | frontend/src/api/config.js:17-62 | a header, when set, is "Bearer " followed by a present staff or customer token, and a present customer token always yields a header |
| ClientConfig.MethodCaseInsensitive | frontend/src/api/config.js:25-32 | the header does not depend on the case of the method name |
| ClientConfig.OrderCreateUsesCustomerToken | frontend/src/api/config.js:32-45 | POST /orders in any case carries the customer token |
| ClientConfig.CustomerVehiclesRoute | frontend/src/api/config.js:29-31 | /customers/<digits>/vehicles needs the customer token |
| ClientConfig.HeaderReachesServer | frontend/src/api/config.js:43-59 | the server's bearer extraction recovers exactly the token the client chose |
| ClientConfig.Or | frontend/src/api/config.js:99 | the first operand when truthy, otherwise the second |
| ClientConfig.MapError | frontend/src/api/config.js:75-114 | the message is never empty; with a response it is data.message, else error.message, else "An error occurred", with the response's status; no response gives the network message; any other failure gives error.message, else "An unexpected error occurred"; both have a null status |

## Left out

- Presentation: the React pages and the realtime transport. Notifications are an event log, and
  response messages and display strings are not modelled.
- Libraries as oracles: bcrypt hashing and comparison, JSON Web Token signing and verification,
  random reset tokens, the payment processor and the language-model completion are parameters.
  The chat replies are represented by their topic, not their text.
- The staff `authenticateToken` middleware (backend/middleware/auth.js) is not part of this
  model. Its verdict is a parameter of the route guards.
- Clocks and floating point: "now" and the current year are integer parameters, and amounts are
  integer cents. `Math.round(total * 100)` and date formatting are not modelled.
- Text: case mapping is ASCII only. `trim` removes JavaScript's WhiteSpace and LineTerminator
  characters. String order is code-unit order, not `localeCompare` or a MySQL collation.
  Lengths count characters, not UTF-16 code units.
- SQL string comparison: no table declares a charset or collation, so MySQL's default collation
  applies. It ignores case and trailing spaces. The model compares every SQL string exactly:
  emails, order status, reset tokens and payment intent ids. Where the source would also match
  a value that differs in case or trailing spaces, the model does not.
- Recommendations.CompletedOrders: takes exactly the orders whose status is "Completed". Under
  the default collation the source also takes a status stored as "completed" or "COMPLETED ",
  which `updateOrder` accepts. The inspection rules can then differ for such an order.
- Inputs of the wrong JavaScript type (a non-string role or message, a non-array `service_ids`,
  a non-numeric id) are folded into "absent". The one exception is confirmPayment's body
  `orderId`. There a missing value gives 500, because the query throws on `undefined`. A JSON
  `null` gives 404, because it binds as NULL and finds no order. Route parameters are integers, and `parseInt` is
  a parameter of createOrder.
- Concurrency: every handler runs alone. The race between client confirmation and the webhook
  is not modelled.
- Database failures other than the constraint violations the model states are not modelled,
  except the webhook's rolled-back error, which is a parameter.
- The `affectedRows === 0` branch of confirmPayment is unreachable once a matching row exists,
  so it is not modelled.
- Read endpoints return ids and rows, not the display columns their JOINs add. User, customer
  and service rows carry no creation time, so the two getMe views and the service views
  (`SELECT *` in backend/controllers/servicesController.js:6-7, 20-21 and 50-51) leave out
  `created_at`.
- Services: backend/routes/services.js repeats the five handlers of
  backend/controllers/servicesController.js line for line, so they are modelled once.
- Employees.GetAllEmployees: does not state the `ORDER BY created_at DESC`, because employee
  rows carry no creation time in the model. It states each employee exactly once.
- Orders.GetAllOrders: ties between equal `created_at` values may come out in any order.
- Payments.GetPaymentHistory: ties between equal `created_at` values may come out in any order.
- Recommendations.GetServiceRecommendations: takes the services of the completed orders as a set
  rather than the rows of the JOIN, and staleness from every completed order. This is equivalent
  to testing the newest one.
- Orders.CreateOrder: an AUTO_INCREMENT value taken by a rolled-back insert stays consumed, as
  InnoDB does.
