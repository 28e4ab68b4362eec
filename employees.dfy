/** The employee administration handlers of backend/controllers/employeesController.js
    over the employees table: listing, lookup, creation with defaults, update with an
    optional password change, and deletion. The email column stays unique throughout. */
module Employees {
  import opened Common
  import opened Text
  import opened Schema

  /** The columns the handlers return: everything but the password hash. */
  datatype EmployeeView = EmployeeView(id: int, email: string, firstName: string, lastName: string,
                                       phone: Option<string>, role: Option<string>, isActive: Option<bool>)

  function ViewOf(id: int, e: Employee): (v: EmployeeView)
    ensures v.id == id && v.email == e.email && v.role == e.role && v.isActive == e.isActive
    ensures v.firstName == e.firstName && v.lastName == e.lastName && v.phone == e.phone
  {
    EmployeeView(id, e.email, e.firstName, e.lastName, e.phone, e.role, e.isActive)
  }

  /** Some employee other than `id` holds this email. */
  predicate EmailTakenByOther(employees: map<int, Employee>, email: string, id: int) {
    exists k :: k in employees && k != id && employees[k].email == email
  }

  /** getAllEmployees: every employee once. */
  method GetAllEmployees(db: Db) returns (views: seq<EmployeeView>)
    ensures |views| == |db.employees|
    ensures forall i :: 0 <= i < |views| ==> views[i].id in db.employees && views[i] == ViewOf(views[i].id, db.employees[views[i].id])
    ensures forall i, j :: 0 <= i < j < |views| ==> views[i].id != views[j].id
    ensures forall id :: id in db.employees ==> exists i :: 0 <= i < |views| && views[i].id == id
  {
    var rest := db.employees.Keys;
    views := [];
    while rest != {}
      invariant rest <= db.employees.Keys
      invariant |views| + |rest| == |db.employees|
      invariant forall i :: 0 <= i < |views| ==> views[i].id in db.employees && views[i].id !in rest && views[i] == ViewOf(views[i].id, db.employees[views[i].id])
      invariant forall i, j :: 0 <= i < j < |views| ==> views[i].id != views[j].id
      invariant forall k :: k in db.employees && k !in rest ==> exists i :: 0 <= i < |views| && views[i].id == k
      decreases |rest|
    {
      var id := Pick(rest);
      ghost var before := views;
      views := views + [ViewOf(id, db.employees[id])];
      rest := rest - {id};
      forall k | k in db.employees && k !in rest ensures exists i :: 0 <= i < |views| && views[i].id == k {
        if k == id {
          assert views[|before|].id == k;
        } else {
          var i :| 0 <= i < |before| && before[i].id == k;
          assert views[i].id == k;
        }
      }
    }
  }

  /** getEmployeeById: 404 for an unknown id, otherwise the employee. */
  method GetEmployeeById(db: Db, id: int) returns (code: int, view: Option<EmployeeView>)
    ensures code == (if id in db.employees then 200 else 404)
    ensures view.Some? <==> id in db.employees
    ensures view.Some? ==> view.value == ViewOf(id, db.employees[id])
  {
    if id !in db.employees {
      return 404, None;
    }
    return 200, Some(ViewOf(id, db.employees[id]));
  }

  /** The row a creation inserts: `phone || null`, `role || "Employee"`, and `is_active`
      as given, `true` when missing. */
  function Created(email: string, hashed: string, firstName: string, lastName: string,
                   phone: Field<string>, role: Field<string>, isActive: Field<bool>): (e: Employee)
    ensures e.email == email && e.password == hashed && e.firstName == firstName && e.lastName == lastName
    ensures e.phone == StrOrNull(phone)
    ensures e.role == Some(if TruthyStr(role) then role.v else DefaultEmployeeRole)
    ensures isActive.Undefined? ==> e.isActive == Some(true)
    ensures isActive.Null? ==> e.isActive == None
    ensures isActive.Value? ==> e.isActive == Some(isActive.v)
  {
    Employee(email, hashed, firstName, lastName, StrOrNull(phone), Some(StrOr(role, DefaultEmployeeRole)),
             Patch(isActive, Some(true)))
  }

  /** createEmployee. 400 unless email, password, first and last name are all given, and
      for an email already held; otherwise 201 and one new employee. */
  method CreateEmployee(db: Db, email: Field<string>, password: Field<string>, firstName: Field<string>,
                        lastName: Field<string>, phone: Field<string>, role: Field<string>,
                        isActive: Field<bool>, hash: string -> string)
    returns (code: int, view: Option<EmployeeView>)
    requires db.Valid()
    modifies db`employees, db`nextEmployee
    ensures db.Valid()
    ensures code == 400 || code == 201
    ensures code == 201 <==>
              TruthyStr(email) && TruthyStr(password) && TruthyStr(firstName) && TruthyStr(lastName) &&
              !EmailTakenByOther(old(db.employees), email.v, old(db.nextEmployee))
    ensures code == 400 ==> db.employees == old(db.employees) && db.nextEmployee == old(db.nextEmployee) && view == None
    ensures code == 201 ==>
              var id := old(db.nextEmployee);
              var e := Created(email.v, hash(password.v), firstName.v, lastName.v, phone, role, isActive);
              id !in old(db.employees) && db.employees == old(db.employees)[id := e] &&
              db.nextEmployee == id + 1 && view == Some(ViewOf(id, e))
  {
    if !TruthyStr(email) || !TruthyStr(password) || !TruthyStr(firstName) || !TruthyStr(lastName) {
      return 400, None;
    }
    if exists k :: k in db.employees && db.employees[k].email == email.v {
      return 400, None;
    }
    var id := db.nextEmployee;
    var e := Created(email.v, hash(password.v), firstName.v, lastName.v, phone, role, isActive);
    db.employees := db.employees[id := e];
    db.nextEmployee := id + 1;
    return 201, Some(ViewOf(id, e));
  }

  /** `password && password.trim() !== ""`: only then is the password replaced. */
  predicate ChangesPassword(password: Field<string>) {
    TruthyStr(password) && Trim(password.v) != ""
  }

  /** The row an update writes over `existing`. */
  function Updated(existing: Employee, email: string, password: Field<string>, firstName: string,
                   lastName: string, phone: Field<string>, role: Field<string>, isActive: Field<bool>,
                   hash: string -> string): (e: Employee)
    ensures e.email == email && e.firstName == firstName && e.lastName == lastName
    ensures e.password == (if ChangesPassword(password) then hash(password.v) else existing.password)
    ensures e.phone == StrOrNull(phone)
    ensures e.role == (if TruthyStr(role) then Some(role.v) else existing.role)
    ensures e.isActive == Patch(isActive, existing.isActive)
  {
    Employee(email, if ChangesPassword(password) then hash(password.v) else existing.password,
             firstName, lastName, StrOrNull(phone), if TruthyStr(role) then Some(role.v) else existing.role,
             Patch(isActive, existing.isActive))
  }

  /** updateEmployee. 400 unless email, first and last name are given; 404 for an unknown
      id; 400 when the email changes to one another employee holds; otherwise 200 and the
      row is rewritten. */
  method UpdateEmployee(db: Db, id: int, email: Field<string>, password: Field<string>,
                        firstName: Field<string>, lastName: Field<string>, phone: Field<string>,
                        role: Field<string>, isActive: Field<bool>, hash: string -> string)
    returns (code: int, view: Option<EmployeeView>)
    requires db.Valid()
    modifies db`employees
    ensures db.Valid()
    ensures code == 400 || code == 404 || code == 200
    ensures code == 404 <==> TruthyStr(email) && TruthyStr(firstName) && TruthyStr(lastName) && id !in old(db.employees)
    ensures code == 200 <==>
              TruthyStr(email) && TruthyStr(firstName) && TruthyStr(lastName) && id in old(db.employees) &&
              !EmailTakenByOther(old(db.employees), email.v, id)
    ensures code != 200 ==> db.employees == old(db.employees) && view == None
    ensures code == 200 ==>
              var e := Updated(old(db.employees)[id], email.v, password, firstName.v, lastName.v, phone, role, isActive, hash);
              db.employees == old(db.employees)[id := e] && view == Some(ViewOf(id, e))
  {
    if !TruthyStr(email) || !TruthyStr(firstName) || !TruthyStr(lastName) {
      return 400, None;
    }
    if id !in db.employees {
      return 404, None;
    }
    var existing := db.employees[id];
    if email.v != existing.email && EmailTakenByOther(db.employees, email.v, id) {
      return 400, None;
    }
    var e := Updated(existing, email.v, password, firstName.v, lastName.v, phone, role, isActive, hash);
    db.employees := db.employees[id := e];
    return 200, Some(ViewOf(id, e));
  }

  /** deleteEmployee. 404 for an unknown id; otherwise 200 and that row alone is gone. */
  method DeleteEmployee(db: Db, id: int) returns (code: int)
    requires db.Valid()
    modifies db`employees
    ensures db.Valid()
    ensures code == (if id in old(db.employees) then 200 else 404)
    ensures db.employees == old(db.employees) - {id}
  {
    if id !in db.employees {
      return 404;
    }
    db.employees := db.employees - {id};
    return 200;
  }

  // ---------------------------------------------------------------- properties

  /** An update that sends no password, role or activity flag keeps the stored ones. */
  lemma UpdateKeepsUnsent(existing: Employee, email: string, firstName: string, lastName: string,
                          phone: Field<string>, hash: string -> string)
    ensures var e := Updated(existing, email, Undefined, firstName, lastName, phone, Undefined, Undefined, hash);
            e.password == existing.password && e.role == existing.role && e.isActive == existing.isActive
  {
  }

  /** A password of only whitespace never replaces the stored hash. */
  lemma {:induction false} BlankPasswordIgnored(existing: Employee, email: string, blank: string, firstName: string,
                                                lastName: string, phone: Field<string>, role: Field<string>,
                                                isActive: Field<bool>, hash: string -> string)
    requires AllSpace(blank)
    ensures Updated(existing, email, Value(blank), firstName, lastName, phone, role, isActive, hash).password == existing.password
  {
    assert blank == blank + [];
    TrimStartSkipsSpaces(blank, []);
    assert TrimStart([]) == [];
  }
}
