/** The customer account handlers of backend/controllers/customerAuthController.js over the
    customers table: registration, login of active customers, the reset-token lifecycle,
    username reminders and the current-customer lookup. Every token issued here carries
    role "customer", which is what the customer middleware admits. */
module CustomerAccounts {
  import opened Common
  import opened Tokens
  import opened CustomerAuth
  import opened Schema
  import StaffAuth

  /** The payload of every customer token. */
  function CustomerClaims(id: int, email: string): (c: Claims)
    ensures c.customerId == Some(id) && c.userId.None? && c.email == Some(email)
    ensures c.role == Some(CustomerRole)
  {
    Claims(None, Some(id), Some(email), Some(CustomerRole))
  }

  predicate HasCustomer(customers: map<int, Customer>, email: string) {
    exists id :: id in customers && customers[id].email == email
  }

  /** The stored password is present and non-empty and the given one matches it. */
  predicate PasswordMatches(c: Customer, password: string, compare: (string, string) -> bool) {
    c.password.Some? && c.password.value != "" && compare(password, c.password.value)
  }

  /** The row a registration inserts: active, the hashed password, `phone || null`. */
  function Registered(email: string, hashed: string, firstName: string, lastName: string,
                      phone: Field<string>): (c: Customer)
    ensures c.isActive && c.password == Some(hashed) && c.email == email
    ensures c.firstName == firstName && c.lastName == lastName && c.phone == StrOrNull(phone)
    ensures c.resetToken.None? && c.resetExpires.None?
  {
    Customer(email, Some(hashed), firstName, lastName, StrOrNull(phone), true, None, None)
  }

  /** register. 400 unless email, password, first and last name are all given, and for an
      email already held; otherwise 201, one new active customer, and a customer token. */
  method Register(db: Db, email: Field<string>, password: Field<string>, firstName: Field<string>,
                  lastName: Field<string>, phone: Field<string>, hash: string -> string)
    returns (code: int, claims: Option<Claims>)
    requires db.Valid()
    modifies db`customers, db`nextCustomer
    ensures db.Valid()
    ensures code == 400 || code == 201
    ensures code == 201 <==>
              TruthyStr(email) && TruthyStr(password) && TruthyStr(firstName) && TruthyStr(lastName) &&
              !HasCustomer(old(db.customers), email.v)
    ensures code == 400 ==> db.customers == old(db.customers) && db.nextCustomer == old(db.nextCustomer) && claims == None
    ensures code == 201 ==>
              var id := old(db.nextCustomer);
              db.customers == old(db.customers)[id := Registered(email.v, hash(password.v), firstName.v, lastName.v, phone)] &&
              db.nextCustomer == id + 1 &&
              claims == Some(CustomerClaims(id, email.v))
  {
    if !TruthyStr(email) || !TruthyStr(password) || !TruthyStr(firstName) || !TruthyStr(lastName) {
      return 400, None;
    }
    if HasCustomer(db.customers, email.v) {
      return 400, None;
    }
    var id := db.nextCustomer;
    db.customers := db.customers[id := Registered(email.v, hash(password.v), firstName.v, lastName.v, phone)];
    db.nextCustomer := id + 1;
    return 201, Some(CustomerClaims(id, email.v));
  }

  /** login. 400 without email or password; 401 for an unknown email, a customer without
      a password and a wrong password; 403 for a deactivated customer with the right
      password; 200 with a customer token otherwise. */
  method Login(db: Db, email: Field<string>, password: Field<string>, compare: (string, string) -> bool)
    returns (code: int, claims: Option<Claims>)
    requires db.Valid()
    ensures code == 400 || code == 401 || code == 403 || code == 200
    ensures code == 400 <==> !TruthyStr(email) || !TruthyStr(password)
    ensures code == 200 <==>
              TruthyStr(email) && TruthyStr(password) &&
              exists id :: id in db.customers && db.customers[id].email == email.v &&
                PasswordMatches(db.customers[id], password.v, compare) && db.customers[id].isActive
    ensures code == 403 <==>
              TruthyStr(email) && TruthyStr(password) &&
              exists id :: id in db.customers && db.customers[id].email == email.v &&
                PasswordMatches(db.customers[id], password.v, compare) && !db.customers[id].isActive
    ensures code != 200 ==> claims == None
    ensures code == 200 ==>
              exists id :: id in db.customers && db.customers[id].email == email.v &&
                claims == Some(CustomerClaims(id, email.v))
  {
    if !TruthyStr(email) || !TruthyStr(password) {
      return 400, None;
    }
    if !HasCustomer(db.customers, email.v) {
      return 401, None;
    }
    var id :| id in db.customers && db.customers[id].email == email.v;
    var c := db.customers[id];
    if c.password.None? || c.password.value == "" {
      return 401, None;
    }
    if !compare(password.v, c.password.value) {
      return 401, None;
    }
    if !c.isActive {
      return 403, None;
    }
    return 200, Some(CustomerClaims(id, c.email));
  }

  /** The customer row once a reset token was issued at `now`. */
  function WithResetToken(c: Customer, token: string, now: int): (r: Customer)
    ensures r.resetToken == Some(token) && r.resetExpires == Some(now + StaffAuth.ResetWindow)
    ensures r.email == c.email && r.password == c.password && r.isActive == c.isActive
  {
    c.(resetToken := Some(token), resetExpires := Some(now + StaffAuth.ResetWindow))
  }

  /** forgotPassword. 400 without an email; for an unknown email 200 with no token and no
      change; otherwise the customer gets the token, valid for one hour from `now`. */
  method ForgotPassword(db: Db, email: Field<string>, token: string, now: int)
    returns (code: int, issued: Option<string>)
    requires db.Valid()
    modifies db`customers
    ensures db.Valid()
    ensures code == (if TruthyStr(email) then 200 else 400)
    ensures issued.Some? <==> TruthyStr(email) && HasCustomer(old(db.customers), email.v)
    ensures issued.None? ==> db.customers == old(db.customers)
    ensures issued.Some? ==>
              issued.value == token &&
              exists id :: id in old(db.customers) && old(db.customers)[id].email == email.v &&
                db.customers == old(db.customers)[id := WithResetToken(old(db.customers)[id], token, now)]
  {
    if !TruthyStr(email) {
      return 400, None;
    }
    if !HasCustomer(db.customers, email.v) {
      return 200, None;
    }
    var id :| id in db.customers && db.customers[id].email == email.v;
    db.customers := db.customers[id := WithResetToken(db.customers[id], token, now)];
    return 200, Some(token);
  }

  /** `reset_token = ? AND reset_token_expires > NOW()`. */
  predicate ResetAccepts(c: Customer, token: string, now: int) {
    c.resetToken == Some(token) && c.resetExpires.Some? && c.resetExpires.value > now
  }

  /** The customer row once its password was reset: new hash, token and expiry cleared. */
  function AfterReset(c: Customer, hashed: string): (r: Customer)
    ensures r.password == Some(hashed) && r.resetToken.None? && r.resetExpires.None?
    ensures r.email == c.email && r.isActive == c.isActive
  {
    c.(password := Some(hashed), resetToken := None, resetExpires := None)
  }

  /** resetPassword. 400 without a token or a new password, for a new password shorter
      than six characters, and unless some customer holds the token unexpired; otherwise
      that customer's password is replaced and the token cleared. */
  method ResetPassword(db: Db, token: Field<string>, newPassword: Field<string>,
                       hash: string -> string, now: int)
    returns (code: int)
    requires db.Valid()
    modifies db`customers
    ensures db.Valid()
    ensures code == 400 || code == 200
    ensures code == 200 <==>
              TruthyStr(token) && TruthyStr(newPassword) && |newPassword.v| >= StaffAuth.MinPasswordLength &&
              exists id :: id in old(db.customers) && ResetAccepts(old(db.customers)[id], token.v, now)
    ensures code == 400 ==> db.customers == old(db.customers)
    ensures code == 200 ==>
              exists id :: id in old(db.customers) && ResetAccepts(old(db.customers)[id], token.v, now) &&
                db.customers == old(db.customers)[id := AfterReset(old(db.customers)[id], hash(newPassword.v))]
  {
    if !TruthyStr(token) || !TruthyStr(newPassword) {
      return 400;
    }
    if |newPassword.v| < StaffAuth.MinPasswordLength {
      return 400;
    }
    if !exists id :: id in db.customers && ResetAccepts(db.customers[id], token.v, now) {
      return 400;
    }
    var id :| id in db.customers && ResetAccepts(db.customers[id], token.v, now);
    db.customers := db.customers[id := AfterReset(db.customers[id], hash(newPassword.v))];
    return 200;
  }

  /** forgotUsername. 400 without an email; 200 otherwise, with the email and first name
      only when a customer holds the email. */
  method ForgotUsername(db: Db, email: Field<string>) returns (code: int, found: Option<(string, string)>)
    ensures code == (if TruthyStr(email) then 200 else 400)
    ensures found.Some? <==> TruthyStr(email) && HasCustomer(db.customers, email.v)
    ensures found.Some? ==>
              exists id :: id in db.customers && db.customers[id].email == email.v &&
                found.value == (email.v, db.customers[id].firstName)
  {
    if !TruthyStr(email) {
      return 400, None;
    }
    if !HasCustomer(db.customers, email.v) {
      return 200, None;
    }
    var id :| id in db.customers && db.customers[id].email == email.v;
    return 200, Some((db.customers[id].email, db.customers[id].firstName));
  }

  /** The columns getMe selects from customers: no password hash and no reset token. */
  datatype CustomerView = CustomerView(id: int, email: string, firstName: string, lastName: string,
                                       phone: Option<string>, isActive: bool)

  function CustomerViewOf(id: int, c: Customer): (v: CustomerView)
    ensures v.id == id && v.email == c.email && v.firstName == c.firstName && v.lastName == c.lastName
    ensures v.phone == c.phone && v.isActive == c.isActive
  {
    CustomerView(id, c.email, c.firstName, c.lastName, c.phone, c.isActive)
  }

  /** getMe. 401 without a bearer token; 500 when verification throws; 403 for a token
      whose role is not "customer"; 500 when it has no customer id; 404 for an unknown id;
      200 with the customer's public columns otherwise. */
  method GetMe(db: Db, header: Option<string>, verify: string -> Verification)
    returns (code: int, customer: Option<CustomerView>)
    ensures BearerToken(header).None? ==> code == 401
    ensures BearerToken(header).Some? ==>
              var v := verify(BearerToken(header).value);
              code == (if v.Invalid? then 500
                       else if v.claims.role != Some(CustomerRole) then 403
                       else if v.claims.customerId.None? then 500
                       else if v.claims.customerId.value !in db.customers then 404 else 200)
    ensures code != 200 ==> customer == None
    ensures code == 200 ==>
              var id := verify(BearerToken(header).value).claims.customerId.value;
              customer == Some(CustomerViewOf(id, db.customers[id]))
  {
    var token := BearerToken(header);
    if token.None? {
      return 401, None;
    }
    var v := verify(token.value);
    if v.Invalid? {
      return 500, None;
    }
    if v.claims.role != Some(CustomerRole) {
      return 403, None;
    }
    if v.claims.customerId.None? {
      return 500, None;
    }
    var id := v.claims.customerId.value;
    if id !in db.customers {
      return 404, None;
    }
    return 200, Some(CustomerViewOf(id, db.customers[id]));
  }

  // ---------------------------------------------------------------- properties

  /** A token issued at registration or login, sent back as `Bearer <token>`, passes the
      customer middleware, which then acts for exactly that customer. */
  lemma IssuedTokenAdmitted(id: int, email: string, token: string, verify: string -> Verification)
    requires token != "" && ' ' !in token
    requires verify(token) == Verified(CustomerClaims(id, email))
    ensures AuthenticateCustomer(Some("Bearer " + token), verify) == Admit(CustomerPrincipal(Some(id), Some(email)))
  {
    BearerRoundTrip("Bearer", token);
    assert "Bearer" + " " + token == "Bearer " + token;
    assert BearerToken(Some("Bearer " + token)) == Some(token);
  }

  /** A reset token works once: the row it reset no longer accepts it, at any time. */
  lemma ResetIsSingleUse(c: Customer, hashed: string, token: string, later: int)
    ensures !ResetAccepts(AfterReset(c, hashed), token, later)
  {
  }

  /** After a reset the customer can log in with the new password, provided the hash
      verifies against it and the account is active. */
  lemma ResetThenLogin(c: Customer, newPassword: string, hash: string -> string, compare: (string, string) -> bool)
    requires hash(newPassword) != "" && compare(newPassword, hash(newPassword))
    ensures PasswordMatches(AfterReset(c, hash(newPassword)), newPassword, compare)
  {
  }
}
