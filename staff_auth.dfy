/** The staff account handlers of backend/controllers/authController.js over the users
    table: login with the role taken from the employees table and normalised, registration,
    the reset-token lifecycle, username reminders and the current-user lookup. Password
    hashing and comparison (bcrypt), token signing and verification (jsonwebtoken) and
    the random reset token (crypto) are parameters. */
module StaffAuth {
  import opened Common
  import opened Text
  import opened Roles
  import opened Tokens
  import opened Schema

  const DefaultRole := "Admin"
  /** A reset token lives one hour, in milliseconds. */
  const ResetWindow := 3600000
  const MinPasswordLength := 6

  // ---------------------------------------------------------------- role normalisation

  /** The first character upper-cased, the rest lower-cased. */
  function Capitalize(t: string): (r: string)
    requires t != []
    ensures |r| == |t|
  {
    [UpperChar(t[0])] + ToLower(t[1..])
  }

  /** The role a login issues: trimmed and capitalised, "Admin" when blank. */
  function NormalizeRole(role: string): (r: string)
    ensures r != []
  {
    var t := Trim(role);
    if t != [] then Capitalize(t) else DefaultRole
  }

  /** The role read at login before normalisation: the employee row's role with the same
      email (`row`: `None` when there is no such row, `Some(None)` when its role is
      `NULL`), "Admin" when there is none, it is empty, or the lookup threw. */
  function LoginRole(row: Option<Option<string>>, lookupFails: bool): (r: string)
    ensures r != []
    ensures lookupFails || row.None? || row.value.None? ==> r == DefaultRole
  {
    if lookupFails || row.None? || row.value.None? || row.value.value == "" then DefaultRole
    else row.value.value
  }

  lemma UpperLower(c: char)
    ensures UpperChar(LowerChar(c)) == UpperChar(c)
    ensures LowerChar(UpperChar(c)) == LowerChar(c)
    ensures UpperChar(UpperChar(c)) == UpperChar(c)
    ensures IsSpace(UpperChar(c)) <==> IsSpace(c)
    ensures IsSpace(LowerChar(c)) <==> IsSpace(c)
  {
  }

  /** Index by index, a capitalised string is its first character upper-cased and the
      rest lower-cased. */
  lemma {:induction false} CapitalizeAt(t: string, i: int)
    requires t != [] && 0 <= i < |t|
    ensures Capitalize(t)[i] == if i == 0 then UpperChar(t[0]) else LowerChar(t[i])
  {
    if i > 0 {
      assert Capitalize(t)[i] == ToLower(t[1..])[i - 1];
    }
  }

  /** Capitalising ignores the case the string had. */
  lemma {:induction false} CapitalizeLower(t: string)
    requires t != []
    ensures Capitalize(ToLower(t)) == Capitalize(t)
  {
    var l := ToLower(t);
    forall i | 0 <= i < |t| ensures Capitalize(l)[i] == Capitalize(t)[i] {
      CapitalizeAt(l, i);
      CapitalizeAt(t, i);
      UpperLower(t[i]);
      LowerCharIdempotent(t[i]);
    }
  }

  /** Lower-casing a capitalised string gives the lower-cased string. */
  lemma {:induction false} LowerCapitalize(t: string)
    requires t != []
    ensures ToLower(Capitalize(t)) == ToLower(t)
  {
    var c := Capitalize(t);
    forall i | 0 <= i < |t| ensures ToLower(c)[i] == ToLower(t)[i] {
      CapitalizeAt(t, i);
      UpperLower(t[i]);
      LowerCharIdempotent(t[i]);
    }
  }

  lemma {:induction false} CapitalizeIdempotent(t: string)
    requires t != []
    ensures Capitalize(Capitalize(t)) == Capitalize(t)
  {
    var c := Capitalize(t);
    forall i | 0 <= i < |t| ensures Capitalize(c)[i] == c[i] {
      CapitalizeAt(c, i);
      CapitalizeAt(t, i);
      UpperLower(t[i]);
      LowerCharIdempotent(t[i]);
    }
  }

  lemma {:induction false} TrimmedIsFixed(s: string)
    requires Trimmed(s)
    ensures Trim(s) == s
  {
    assert [] + s + [] == s;
    TrimPadded([], s, []);
  }

  /** A capitalised trimmed string is still trimmed. */
  lemma {:induction false} CapitalizeTrimmed(t: string)
    requires t != [] && Trimmed(t)
    ensures Trimmed(Capitalize(t))
  {
    CapitalizeAt(t, 0);
    CapitalizeAt(t, |t| - 1);
    UpperLower(t[0]);
    UpperLower(t[|t| - 1]);
  }

  /** A non-blank role normalises to the capitalised form of its comparison key. */
  lemma {:induction false} NormalizeIsCapitalizedKey(role: string)
    requires Trim(role) != []
    ensures RoleKey(role) != [] && NormalizeRole(role) == Capitalize(RoleKey(role))
  {
    CapitalizeLower(Trim(role));
  }

  /** "Admin" is its own normal form. */
  lemma DefaultRoleNormal()
    ensures Trim(DefaultRole) == DefaultRole && Capitalize(DefaultRole) == DefaultRole
  {
    assert Trimmed(DefaultRole);
    TrimmedIsFixed(DefaultRole);
    forall i | 0 <= i < |DefaultRole| ensures Capitalize(DefaultRole)[i] == DefaultRole[i] {
      CapitalizeAt(DefaultRole, i);
    }
  }

  /** Normalising twice is normalising once. */
  lemma {:induction false} NormalizeIdempotent(role: string)
    ensures NormalizeRole(NormalizeRole(role)) == NormalizeRole(role)
  {
    var t := Trim(role);
    if t != [] {
      CapitalizeTrimmed(t);
      TrimmedIsFixed(Capitalize(t));
      CapitalizeIdempotent(t);
    } else {
      DefaultRoleNormal();
    }
  }

  /** Normalisation keeps the comparison key. */
  lemma {:induction false} NormalizeKeepsKey(role: string)
    requires Trim(role) != []
    ensures RoleKey(NormalizeRole(role)) == RoleKey(role)
  {
    var t := Trim(role);
    var n := Capitalize(t);
    assert NormalizeRole(role) == n;
    CapitalizeTrimmed(t);
    TrimmedIsFixed(n);
    LowerCapitalize(t);
    assert RoleKey(n) == ToLower(n) == ToLower(t) == RoleKey(role);
  }

  /** So a normalised role passes exactly the role gates the original role passes. */
  lemma {:induction false} NormalizeKeepsGate(role: string, allowed: seq<string>)
    requires Trim(role) != []
    ensures AuthorizeRoles(Some(NormalizeRole(role)), allowed) == AuthorizeRoles(Some(role), allowed)
  {
    NormalizeKeepsKey(role);
    assert role != [];
  }

  lemma {:induction false} CapitalizeSpelled(k: string, want: string)
    requires k != [] && |k| == |want| && UpperChar(k[0]) == want[0]
    requires forall i :: 1 <= i < |k| ==> LowerChar(k[i]) == want[i]
    ensures Capitalize(k) == want
  {
    forall i | 0 <= i < |k| ensures Capitalize(k)[i] == want[i] {
      CapitalizeAt(k, i);
    }
  }

  lemma {:induction false} NormalizeByKey(role: string, k: string, want: string)
    requires RoleKey(role) == k && k != [] && Capitalize(k) == want
    ensures NormalizeRole(role) == want
  {
    assert |Trim(role)| == |k|;
    NormalizeIsCapitalizedKey(role);
  }

  lemma AdminSpelled()
    ensures Capitalize("admin") == "Admin"
  {
    CapitalizeSpelled("admin", "Admin");
  }

  lemma ManagerSpelled()
    ensures Capitalize("manager") == "Manager"
  {
    CapitalizeSpelled("manager", "Manager");
  }

  lemma EmployeeSpelled()
    ensures Capitalize("employee") == "Employee"
  {
    CapitalizeSpelled("employee", "Employee");
  }

  /** Every case and whitespace variant of the three staff roles normalises to its
      canonical spelling. */
  lemma {:induction false} NormalizeCanonical(role: string)
    ensures RoleKey(role) == "admin" ==> NormalizeRole(role) == "Admin"
    ensures RoleKey(role) == "manager" ==> NormalizeRole(role) == "Manager"
    ensures RoleKey(role) == "employee" ==> NormalizeRole(role) == "Employee"
  {
    var k := RoleKey(role);
    if k == "admin" {
      AdminSpelled();
      NormalizeByKey(role, "admin", "Admin");
    } else if k == "manager" {
      ManagerSpelled();
      NormalizeByKey(role, "manager", "Manager");
    } else if k == "employee" {
      EmployeeSpelled();
      NormalizeByKey(role, "employee", "Employee");
    }
  }

  // ---------------------------------------------------------------- lookups

  predicate HasUser(users: map<int, User>, email: string) {
    exists id :: id in users && users[id].email == email
  }

  /** The role column of the employee with this email: `LIMIT 1`, on a unique column. */
  method EmployeeRoleRow(employees: map<int, Employee>, email: string) returns (row: Option<Option<string>>)
    requires UniqueEmployeeEmails(employees)
    ensures row.None? <==> !exists id :: id in employees && employees[id].email == email
    ensures row.Some? ==> forall id :: id in employees && employees[id].email == email ==> row.value == employees[id].role
  {
    if exists id :: id in employees && employees[id].email == email {
      var id :| id in employees && employees[id].email == email;
      return Some(employees[id].role);
    }
    return None;
  }

  // ---------------------------------------------------------------- handlers

  /** login. 400 without email or password; 401 for an unknown email and for a wrong
      password alike; 200 with a token for the user's id and email and the normalised
      employee role. */
  method Login(db: Db, email: Field<string>, password: Field<string>,
               compare: (string, string) -> bool, lookupFails: bool)
    returns (code: int, claims: Option<Claims>)
    requires db.Valid()
    ensures code == 400 <==> !TruthyStr(email) || !TruthyStr(password)
    ensures code == 200 <==>
              TruthyStr(email) && TruthyStr(password) &&
              exists id :: id in db.users && db.users[id].email == email.v && compare(password.v, db.users[id].password)
    ensures code == 400 || code == 401 || code == 200
    ensures code != 200 ==> claims == None
    ensures code == 200 ==>
              claims.Some? && claims.value.userId.Some? && claims.value.customerId.None? &&
              claims.value.userId.value in db.users && claims.value.email == Some(email.v) &&
              db.users[claims.value.userId.value].email == email.v &&
              (forall id :: id in db.employees && db.employees[id].email == email.v ==>
                 claims.value.role == Some(NormalizeRole(LoginRole(Some(db.employees[id].role), lookupFails)))) &&
              ((!exists id :: id in db.employees && db.employees[id].email == email.v) ==>
                 claims.value.role == Some(NormalizeRole(LoginRole(None, lookupFails))))
  {
    if !TruthyStr(email) || !TruthyStr(password) {
      return 400, None;
    }
    if !HasUser(db.users, email.v) {
      return 401, None;
    }
    var id :| id in db.users && db.users[id].email == email.v;
    if !compare(password.v, db.users[id].password) {
      return 401, None;
    }
    var row := EmployeeRoleRow(db.employees, email.v);
    var role := NormalizeRole(LoginRole(row, lookupFails));
    return 200, Some(Claims(Some(id), None, Some(db.users[id].email), Some(role)));
  }

  /** register. 400 without email or password and for an email already held; otherwise
      201, one new user with the hashed password, and a token with role "Admin". */
  method Register(db: Db, email: Field<string>, password: Field<string>, name: Field<string>,
                  hash: string -> string)
    returns (code: int, claims: Option<Claims>)
    requires db.Valid()
    modifies db`users, db`nextUser
    ensures db.Valid()
    ensures code == 201 <==> TruthyStr(email) && TruthyStr(password) && !HasUser(old(db.users), email.v)
    ensures code == 400 || code == 201
    ensures code == 400 ==> db.users == old(db.users) && db.nextUser == old(db.nextUser) && claims == None
    ensures code == 201 ==>
              var id := old(db.nextUser);
              db.users == old(db.users)[id := User(email.v, hash(password.v), StrOrNull(name), None, None)] &&
              db.nextUser == id + 1 &&
              claims == Some(Claims(Some(id), None, Some(email.v), Some(DefaultRole)))
  {
    if !TruthyStr(email) || !TruthyStr(password) {
      return 400, None;
    }
    if HasUser(db.users, email.v) {
      return 400, None;
    }
    var id := db.nextUser;
    db.users := db.users[id := User(email.v, hash(password.v), StrOrNull(name), None, None)];
    db.nextUser := id + 1;
    return 201, Some(Claims(Some(id), None, Some(email.v), Some(DefaultRole)));
  }

  /** The user row once a reset token was issued at `now`. */
  function WithResetToken(u: User, token: string, now: int): (r: User)
    ensures r.resetToken == Some(token) && r.resetExpires == Some(now + ResetWindow)
    ensures r.email == u.email && r.password == u.password && r.name == u.name
  {
    u.(resetToken := Some(token), resetExpires := Some(now + ResetWindow))
  }

  /** forgotPassword. 400 without an email; for an unknown email 200 with no token and no
      change; otherwise the user gets the token, valid for one hour from `now`. */
  method ForgotPassword(db: Db, email: Field<string>, token: string, now: int)
    returns (code: int, issued: Option<string>)
    requires db.Valid()
    modifies db`users
    ensures db.Valid()
    ensures code == (if TruthyStr(email) then 200 else 400)
    ensures issued.Some? <==> TruthyStr(email) && HasUser(old(db.users), email.v)
    ensures issued.None? ==> db.users == old(db.users)
    ensures issued.Some? ==>
              issued.value == token &&
              exists id :: id in old(db.users) && old(db.users)[id].email == email.v &&
                db.users == old(db.users)[id := WithResetToken(old(db.users)[id], token, now)]
  {
    if !TruthyStr(email) {
      return 400, None;
    }
    if !HasUser(db.users, email.v) {
      return 200, None;
    }
    var id :| id in db.users && db.users[id].email == email.v;
    db.users := db.users[id := WithResetToken(db.users[id], token, now)];
    return 200, Some(token);
  }

  /** `reset_token = ? AND reset_token_expires > NOW()`. */
  predicate ResetAccepts(u: User, token: string, now: int) {
    u.resetToken == Some(token) && u.resetExpires.Some? && u.resetExpires.value > now
  }

  /** The user row once its password was reset: new hash, token and expiry cleared. */
  function AfterReset(u: User, hashed: string): (r: User)
    ensures r.password == hashed && r.resetToken == None && r.resetExpires == None
    ensures r.email == u.email && r.name == u.name
  {
    u.(password := hashed, resetToken := None, resetExpires := None)
  }

  /** resetPassword. 400 without a token or a new password, for a new password shorter
      than six characters, and unless some user holds the token unexpired; otherwise that
      user's password is replaced and the token cleared. */
  method ResetPassword(db: Db, token: Field<string>, newPassword: Field<string>,
                       hash: string -> string, now: int)
    returns (code: int)
    requires db.Valid()
    modifies db`users
    ensures db.Valid()
    ensures code == 200 <==>
              TruthyStr(token) && TruthyStr(newPassword) && |newPassword.v| >= MinPasswordLength &&
              exists id :: id in old(db.users) && ResetAccepts(old(db.users)[id], token.v, now)
    ensures code == 400 || code == 200
    ensures code == 400 ==> db.users == old(db.users)
    ensures code == 200 ==>
              exists id :: id in old(db.users) && ResetAccepts(old(db.users)[id], token.v, now) &&
                db.users == old(db.users)[id := AfterReset(old(db.users)[id], hash(newPassword.v))]
  {
    if !TruthyStr(token) || !TruthyStr(newPassword) {
      return 400;
    }
    if |newPassword.v| < MinPasswordLength {
      return 400;
    }
    if !exists id :: id in db.users && ResetAccepts(db.users[id], token.v, now) {
      return 400;
    }
    var id :| id in db.users && ResetAccepts(db.users[id], token.v, now);
    db.users := db.users[id := AfterReset(db.users[id], hash(newPassword.v))];
    return 200;
  }

  /** forgotUsername. 400 without an email; 200 otherwise, with the email only when a user
      holds it. */
  method ForgotUsername(db: Db, email: Field<string>) returns (code: int, found: Option<string>)
    ensures code == (if TruthyStr(email) then 200 else 400)
    ensures found.Some? <==> TruthyStr(email) && HasUser(db.users, email.v)
    ensures found.Some? ==> found.value == email.v
  {
    if !TruthyStr(email) {
      return 400, None;
    }
    if !HasUser(db.users, email.v) {
      return 200, None;
    }
    return 200, Some(email.v);
  }

  /** `decoded.role || "Admin"`. */
  function ReportedRole(role: Option<string>): (r: string)
    ensures role.None? || role.value == "" ==> r == DefaultRole
    ensures role.Some? && role.value != "" ==> r == role.value
  {
    if role.None? || role.value == "" then DefaultRole else role.value
  }

  /** The columns getMe selects from users: no password hash and no reset token. */
  datatype UserView = UserView(id: int, email: string, name: Option<string>)

  function UserViewOf(id: int, u: User): (v: UserView)
    ensures v.id == id && v.email == u.email && v.name == u.name
  {
    UserView(id, u.email, u.name)
  }

  /** getMe. 401 without a bearer token; 500 when verification throws or the token has no
      user id (the query then gets an `undefined` parameter); 404 for an unknown id; 200
      with the user's public columns and the token's role, "Admin" when it has none. */
  method GetMe(db: Db, header: Option<string>, verify: string -> Verification)
    returns (code: int, user: Option<UserView>, role: Option<string>)
    ensures BearerToken(header).None? ==> code == 401
    ensures BearerToken(header).Some? ==>
              var v := verify(BearerToken(header).value);
              code == (if v.Invalid? || v.claims.userId.None? then 500
                       else if v.claims.userId.value !in db.users then 404 else 200)
    ensures code != 200 ==> user == None && role == None
    ensures code == 200 ==>
              var claims := verify(BearerToken(header).value).claims;
              var id := claims.userId.value;
              user == Some(UserViewOf(id, db.users[id])) && role == Some(ReportedRole(claims.role))
  {
    var token := BearerToken(header);
    if token.None? {
      return 401, None, None;
    }
    var v := verify(token.value);
    if v.Invalid? || v.claims.userId.None? {
      return 500, None, None;
    }
    var id := v.claims.userId.value;
    if id !in db.users {
      return 404, None, None;
    }
    return 200, Some(UserViewOf(id, db.users[id])), Some(ReportedRole(v.claims.role));
  }

  // ---------------------------------------------------------------- properties

  /** A reset token works once: the row it reset no longer accepts it, at any time. */
  lemma ResetIsSingleUse(u: User, hashed: string, token: string, later: int)
    ensures !ResetAccepts(AfterReset(u, hashed), token, later)
  {
  }

  /** A freshly issued token is accepted until, and only until, one hour has passed. */
  lemma IssuedTokenWindow(u: User, token: string, now: int, at: int)
    ensures ResetAccepts(WithResetToken(u, token, now), token, at) <==> at < now + ResetWindow
  {
  }
}
