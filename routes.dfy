/** The guard chains of backend/routes/orders.js, backend/routes/employees.js and
    backend/routes/customers.js: which middleware runs, in which order, before each
    handler, and which handler a request finally reaches. */
module Routes {
  import opened Common
  import opened Tokens
  import opened Roles
  import opened CustomerAuth

  /** The outcome of the staff middleware `authenticateToken` (backend/middleware/auth.js),
      which is not part of this model: it either sets `req.user` or answers. */
  datatype StaffAuthResult = StaffAccepted(user: Claims) | StaffRejected(status: int)

  datatype Guard =
    | StaffToken               // authenticateToken
    | RolesIn(allowed: seq<string>)  // authorizeRoles(...allowed)
    | CustomerToken            // authenticateCustomer
    | AdminOrCustomer          // authenticateAdminOrCustomer

  datatype Handler =
    | GetAllOrders | GetOrderById | CreateOrder | UpdateOrder | AddServiceToOrder
    | GetAllEmployees | GetEmployeeById | CreateEmployee | UpdateEmployee | DeleteEmployee
    | GetAllCustomers | GetCustomerById | CreateCustomer | UpdateCustomer
    | GetCustomerVehicles | GetAdminCustomerVehicles | CreateCustomerVehicle
    | GetCustomerOrders | GetAdminCustomerOrders

  /** A route either always calls one handler, or picks the admin or the customer
      handler depending on `req.isAdmin`. */
  datatype Endpoint = Direct(handler: Handler) | ByPrincipal(admin: Handler, customer: Handler)

  datatype Route = Route(verb: string, path: string, guards: seq<Guard>, endpoint: Endpoint)

  /** Everything the guards look at: the Authorization header, the verdict of the staff
      middleware and the token verifier. */
  datatype Request = Request(header: Option<string>, staff: StaffAuthResult, verify: string -> Verification)

  /** What the guards leave on the request: `req.user`, `req.customer`, `req.isAdmin`. */
  datatype Context = Context(user: Option<Claims>, customer: Option<CustomerPrincipal>, isAdmin: bool)

  datatype Served = Handled(handler: Handler, ctx: Context) | Answered(status: int)

  const StaffRoles: seq<string> := ["Admin", "Manager", "Employee"]

  // ---------------------------------------------------------------- the tables

  const OrderRoutes: seq<Route> := [
    Route("GET", "/", [StaffToken, RolesIn(StaffRoles)], Direct(GetAllOrders)),
    Route("GET", "/:id", [StaffToken, RolesIn(StaffRoles)], Direct(GetOrderById)),
    Route("POST", "/", [CustomerToken], Direct(CreateOrder)),
    Route("PUT", "/:id", [StaffToken, RolesIn(StaffRoles)], Direct(UpdateOrder)),
    Route("POST", "/:id/services", [CustomerToken], Direct(AddServiceToOrder))
  ]

  /** The middleware `router.use` installs in front of every employee route. */
  const EmployeeRouterGuards: seq<Guard> := [StaffToken, RolesIn(["Admin"])]

  /** Prefixes the router-level middleware to each route's own guards. */
  function Mount(prefix: seq<Guard>, routes: seq<Route>): (r: seq<Route>)
    ensures |r| == |routes|
    ensures forall i :: 0 <= i < |routes| ==>
              r[i] == routes[i].(guards := prefix + routes[i].guards)
  {
    if routes == [] then []
    else [routes[0].(guards := prefix + routes[0].guards)] + Mount(prefix, routes[1..])
  }

  const EmployeeRoutes: seq<Route> := Mount(EmployeeRouterGuards, [
    Route("GET", "/", [], Direct(GetAllEmployees)),
    Route("GET", "/:id", [], Direct(GetEmployeeById)),
    Route("POST", "/", [], Direct(CreateEmployee)),
    Route("PUT", "/:id", [], Direct(UpdateEmployee)),
    Route("DELETE", "/:id", [], Direct(DeleteEmployee))
  ])

  const CustomerRoutes: seq<Route> := [
    Route("GET", "/", [], Direct(GetAllCustomers)),
    Route("GET", "/:id", [], Direct(GetCustomerById)),
    Route("POST", "/", [], Direct(CreateCustomer)),
    Route("PUT", "/:id", [], Direct(UpdateCustomer)),
    Route("GET", "/:id/vehicles", [AdminOrCustomer], ByPrincipal(GetAdminCustomerVehicles, GetCustomerVehicles)),
    Route("POST", "/:id/vehicles", [CustomerToken], Direct(CreateCustomerVehicle)),
    Route("GET", "/:id/orders", [AdminOrCustomer], ByPrincipal(GetAdminCustomerOrders, GetCustomerOrders))
  ]

  // ---------------------------------------------------------------- running guards

  /** `authenticateAdminOrCustomer`: a token that verifies and carries a truthy `userId`
      is a staff token (`req.user`, `req.isAdmin`); anything else, including no token
      and a token that fails verification, falls back to `authenticateCustomer`. */
  function AuthenticateAdminOrCustomer(header: Option<string>, verify: string -> Verification, ctx: Context): (r: Auth<Context>)
    ensures r.Admit? && r.principal.isAdmin <==>
              BearerToken(header).Some? &&
              verify(BearerToken(header).value).Verified? &&
              PresentId(verify(BearerToken(header).value).claims.userId)
    ensures !(r.Admit? && r.principal.isAdmin) ==>
              match AuthenticateCustomer(header, verify)
              case Admit(p) => r == Admit(ctx.(customer := Some(p), isAdmin := false))
              case Reject(s) => r == Reject(s)
  {
    var token := BearerToken(header);
    if token.Some? && verify(token.value).Verified? && PresentId(verify(token.value).claims.userId) then
      Admit(ctx.(user := Some(verify(token.value).claims), isAdmin := true))
    else
      match AuthenticateCustomer(header, verify)
      case Admit(p) => Admit(ctx.(customer := Some(p), isAdmin := false))
      case Reject(s) => Reject(s)
  }

  function RunGuard(g: Guard, req: Request, ctx: Context): Auth<Context> {
    match g
    case StaffToken =>
      (match req.staff
       case StaffAccepted(user) => Admit(ctx.(user := Some(user)))
       case StaffRejected(s) => Reject(s))
    case RolesIn(allowed) =>
      var role := if ctx.user.Some? then ctx.user.value.role else None;
      (match AuthorizeRoles(role, allowed)
       case Next => Admit(ctx)
       case Respond(s) => Reject(s))
    case CustomerToken =>
      (match AuthenticateCustomer(req.header, req.verify)
       case Admit(p) => Admit(ctx.(customer := Some(p)))
       case Reject(s) => Reject(s))
    case AdminOrCustomer =>
      AuthenticateAdminOrCustomer(req.header, req.verify, ctx)
  }

  /** Express runs the middleware in order; the first that answers stops the chain. */
  function RunGuards(gs: seq<Guard>, req: Request, ctx: Context): Auth<Context> {
    if gs == [] then Admit(ctx)
    else
      match RunGuard(gs[0], req, ctx)
      case Admit(next) => RunGuards(gs[1..], req, next)
      case Reject(s) => Reject(s)
  }

  const Anonymous := Context(None, None, false)

  /** Serves a request on a route: run its guards, then call the endpoint's handler. */
  function Serve(route: Route, req: Request): (s: Served)
    ensures s.Handled? <==> RunGuards(route.guards, req, Anonymous).Admit?
    ensures route.guards == [] ==> s.Handled? && s.ctx == Anonymous
    ensures s.Handled? && route.endpoint.ByPrincipal? ==>
              s.handler in {route.endpoint.admin, route.endpoint.customer}
  {
    match RunGuards(route.guards, req, Anonymous)
    case Reject(s) => Answered(s)
    case Admit(ctx) =>
      match route.endpoint
      case Direct(h) => Handled(h, ctx)
      case ByPrincipal(admin, customer) => Handled(if ctx.isAdmin then admin else customer, ctx)
  }

  // ---------------------------------------------------------------- lemmas

  /** The staff chain `[authenticateToken, authorizeRoles(...allowed)]`: authentication
      runs first, so its answer wins; after it, the request goes on exactly when the
      role in the staff token passes the role gate. */
  lemma {:induction false} StaffChain(allowed: seq<string>, req: Request)
    ensures req.staff.StaffRejected? ==>
              RunGuards([StaffToken, RolesIn(allowed)], req, Anonymous) == Reject(req.staff.status)
    ensures req.staff.StaffAccepted? ==>
              (RunGuards([StaffToken, RolesIn(allowed)], req, Anonymous).Admit? <==>
               AuthorizeRoles(req.staff.user.role, allowed) == Next)
    ensures req.staff.StaffAccepted? && AuthorizeRoles(req.staff.user.role, allowed).Respond? ==>
              RunGuards([StaffToken, RolesIn(allowed)], req, Anonymous) ==
                Reject(AuthorizeRoles(req.staff.user.role, allowed).status)
    ensures RunGuards([StaffToken, RolesIn(allowed)], req, Anonymous).Admit? ==>
              RunGuards([StaffToken, RolesIn(allowed)], req, Anonymous).principal ==
                Anonymous.(user := Some(req.staff.user))
  {
    var gs := [StaffToken, RolesIn(allowed)];
    assert gs[1..] == [RolesIn(allowed)];
    assert gs[1..][1..] == [];
    match req.staff
    case StaffRejected(s) =>
      assert RunGuard(StaffToken, req, Anonymous) == Reject(s);
    case StaffAccepted(user) =>
      var ctx := Anonymous.(user := Some(user));
      assert RunGuard(StaffToken, req, Anonymous) == Admit(ctx);
      assert RunGuards(gs, req, Anonymous) == RunGuards([RolesIn(allowed)], req, ctx);
      assert RunGuards([], req, ctx) == Admit(ctx);
  }

  /** A route guarded by the staff chain reaches its handler exactly when the chain admits. */
  lemma {:induction false} ServeStaffRoute(route: Route, allowed: seq<string>, req: Request)
    requires route.guards == [StaffToken, RolesIn(allowed)] && route.endpoint.Direct?
    ensures Serve(route, req).Handled? <==>
              req.staff.StaffAccepted? && AuthorizeRoles(req.staff.user.role, allowed) == Next
    ensures req.staff.StaffRejected? ==> Serve(route, req) == Answered(req.staff.status)
    ensures req.staff.StaffAccepted? && AuthorizeRoles(req.staff.user.role, allowed).Respond? ==>
              Serve(route, req) == Answered(AuthorizeRoles(req.staff.user.role, allowed).status)
  {
    StaffChain(allowed, req);
  }

  /** A route guarded by `authenticateCustomer` alone reaches its handler exactly when
      customer authentication admits the request, and answers with its status otherwise. */
  lemma {:induction false} ServeCustomerRoute(route: Route, req: Request)
    requires route.guards == [CustomerToken] && route.endpoint.Direct?
    ensures Serve(route, req).Handled? <==> AuthenticateCustomer(req.header, req.verify).Admit?
    ensures AuthenticateCustomer(req.header, req.verify).Reject? ==>
              Serve(route, req) == Answered(AuthenticateCustomer(req.header, req.verify).status)
  {
    assert route.guards[1..] == [];
    match AuthenticateCustomer(req.header, req.verify)
    case Admit(p) =>
      var ctx := Anonymous.(customer := Some(p));
      assert RunGuard(CustomerToken, req, Anonymous) == Admit(ctx);
      assert RunGuards(route.guards, req, Anonymous) == RunGuards([], req, ctx) == Admit(ctx);
    case Reject(st) =>
      assert RunGuard(CustomerToken, req, Anonymous) == Reject(st);
  }

  /** A route guarded by `authenticateAdminOrCustomer` calls the admin handler for a
      verified token carrying a user id, and otherwise the customer handler once customer
      authentication admits. */
  lemma {:induction false} ServeDispatchRoute(route: Route, req: Request)
    requires route.guards == [AdminOrCustomer] && route.endpoint.ByPrincipal?
    ensures var token := BearerToken(req.header);
            var staffToken := token.Some? && req.verify(token.value).Verified? &&
                              PresentId(req.verify(token.value).claims.userId);
            (staffToken ==> Serve(route, req) == Handled(route.endpoint.admin,
                              Anonymous.(user := Some(req.verify(token.value).claims), isAdmin := true))) &&
            (!staffToken ==>
               (Serve(route, req).Handled? <==> AuthenticateCustomer(req.header, req.verify).Admit?) &&
               (Serve(route, req).Handled? ==> Serve(route, req).handler == route.endpoint.customer))
  {
    assert route.guards[1..] == [];
    var r := AuthenticateAdminOrCustomer(req.header, req.verify, Anonymous);
    assert RunGuard(AdminOrCustomer, req, Anonymous) == r;
    match r
    case Admit(ctx) =>
      assert RunGuards(route.guards, req, Anonymous) == RunGuards([], req, ctx) == Admit(ctx);
    case Reject(st) =>
  }

  /** A route without guards always reaches its handler. */
  lemma {:induction false} ServeOpenRoute(route: Route, req: Request)
    requires route.guards == [] && route.endpoint.Direct?
    ensures Serve(route, req) == Handled(route.endpoint.handler, Anonymous)
  {
  }

  /** Listing, reading and updating orders need a staff token whose role is Admin,
      Manager or Employee (any case, any surrounding whitespace); creating an order and
      attaching a service need a customer token. */
  lemma {:induction false} OrderRoutesGuarded(i: nat, req: Request)
    requires i < |OrderRoutes|
    ensures OrderRoutes[i].verb in {"GET", "PUT"} ==>
              (Serve(OrderRoutes[i], req).Handled? <==>
                 req.staff.StaffAccepted? && AuthorizeRoles(req.staff.user.role, StaffRoles) == Next)
    ensures OrderRoutes[i].verb == "POST" ==>
              (Serve(OrderRoutes[i], req).Handled? <==> AuthenticateCustomer(req.header, req.verify).Admit?)
  {
    var r := OrderRoutes[i];
    if r.verb == "POST" {
      assert i == 2 || i == 4;
      ServeCustomerRoute(r, req);
    } else {
      assert i == 0 || i == 1 || i == 3;
      ServeStaffRoute(r, StaffRoles, req);
    }
  }

  /** Every employee route answers unless staff authentication admits the request and
      its role is Admin up to case and surrounding whitespace; Manager and Employee are
      refused with 403 on reads and writes alike. */
  lemma {:induction false} EmployeeRoutesAdminOnly(i: nat, req: Request)
    requires i < |EmployeeRoutes|
    ensures Serve(EmployeeRoutes[i], req).Handled? <==>
              req.staff.StaffAccepted? && req.staff.user.role.Some? &&
              RoleKey(req.staff.user.role.value) == "admin"
    ensures req.staff.StaffAccepted? && req.staff.user.role.Some? &&
            RoleKey(req.staff.user.role.value) in {"manager", "employee"} ==>
              Serve(EmployeeRoutes[i], req) == Answered(403)
  {
    var r := EmployeeRoutes[i];
    assert r.guards == EmployeeRouterGuards + [];
    assert r.guards == [StaffToken, RolesIn(["Admin"])];
    ServeStaffRoute(r, ["Admin"], req);
    if req.staff.StaffAccepted? {
      AdminGate(req.staff.user.role);
    }
  }

  /** The gate `authorizeRoles('Admin')` passes exactly the roles whose key is "admin",
      and refuses everything else with 403. */
  lemma {:induction false} AdminGate(role: Option<string>)
    ensures AuthorizeRoles(role, ["Admin"]) == Next <==> role.Some? && RoleKey(role.value) == "admin"
    ensures AuthorizeRoles(role, ["Admin"]) != Next ==> AuthorizeRoles(role, ["Admin"]) == Respond(403)
  {
    AdminKey();
    assert AllowedKeys(["Admin"]) == ["admin"];
    assert RoleKey("") == "" by { assert Text.Trim("") == ""; }
  }

  lemma AdminKey()
    ensures RoleKey("Admin") == "admin"
  {
    assert Text.TrimStart("Admin") == "Admin";
    assert Text.TrimEnd("Admin") == "Admin";
  }

  /** On the customers router: listing, reading, creating and updating customers are
      unguarded; the vehicle and order listings dispatch between the admin and the
      customer handler; creating a vehicle needs a customer token. */
  lemma {:induction false} CustomerRoutesGuarded(i: nat, req: Request)
    requires i < |CustomerRoutes|
    ensures i < 4 ==> Serve(CustomerRoutes[i], req) == Handled(CustomerRoutes[i].endpoint.handler, Anonymous)
    ensures (i == 4 || i == 6) ==>
              var token := BearerToken(req.header);
              var staffToken := token.Some? && req.verify(token.value).Verified? &&
                                PresentId(req.verify(token.value).claims.userId);
              (staffToken <==> Serve(CustomerRoutes[i], req).Handled? && Serve(CustomerRoutes[i], req).ctx.isAdmin) &&
              (!staffToken ==>
                 (Serve(CustomerRoutes[i], req).Handled? <==> AuthenticateCustomer(req.header, req.verify).Admit?))
    ensures i == 5 ==>
              (Serve(CustomerRoutes[i], req).Handled? <==> AuthenticateCustomer(req.header, req.verify).Admit?)
  {
    var r := CustomerRoutes[i];
    if i < 4 {
      ServeOpenRoute(r, req);
    } else if i == 5 {
      ServeCustomerRoute(r, req);
    } else {
      ServeDispatchRoute(r, req);
    }
  }
}
