/** The service catalogue handlers. backend/controllers/servicesController.js and the
    inline handlers of backend/routes/services.js (the copy the server mounts) are the
    same five operations on the services table, modelled once here. */
module Services {
  import opened Common
  import opened Text
  import opened Schema
  import opened Sorting

  /** A services row as `SELECT *` returns it. */
  datatype ServiceView = ServiceView(id: int, name: string, description: Option<string>)

  function ViewOf(id: int, s: Service): (v: ServiceView)
    ensures v.id == id && v.name == s.name && v.description == s.description
  {
    ServiceView(id, s.name, s.description)
  }

  /** `ORDER BY name`. */
  predicate ByName(a: ServiceView, b: ServiceView) {
    LessEq(a.name, b.name)
  }

  lemma {:induction false} ByNameTotal()
    ensures TotalPreorder(ByName)
  {
    forall a: ServiceView, b: ServiceView ensures ByName(a, b) || ByName(b, a) {
      LessEqTotal(a.name, b.name);
    }
    forall a: ServiceView, b: ServiceView, c: ServiceView | ByName(a, b) && ByName(b, c) ensures ByName(a, c) {
      LessEqTransitive(a.name, b.name, c.name);
    }
  }

  /** GET /: every service once, ordered by name. */
  method GetAllServices(db: Db) returns (views: seq<ServiceView>)
    ensures SortedBy(views, ByName)
    ensures |views| == |db.services|
    ensures forall v :: v in views ==> v.id in db.services && v == ViewOf(v.id, db.services[v.id])
    ensures forall id :: id in db.services ==> exists v :: v in views && v.id == id
  {
    var rest := db.services.Keys;
    var acc: seq<ServiceView> := [];
    while rest != {}
      invariant rest <= db.services.Keys
      invariant |acc| + |rest| == |db.services|
      invariant forall v :: v in acc ==> v.id in db.services && v.id !in rest && v == ViewOf(v.id, db.services[v.id])
      invariant forall k :: k in db.services && k !in rest ==> exists v :: v in acc && v.id == k
      decreases |rest|
    {
      var id := Pick(rest);
      acc := acc + [ViewOf(id, db.services[id])];
      rest := rest - {id};
    }
    ByNameTotal();
    views := InsertionSort(acc, ByName);
    assert forall v :: v in views <==> v in acc by {
      forall v ensures v in views <==> v in acc {
        assert v in views <==> v in multiset(views);
        assert v in acc <==> v in multiset(acc);
      }
    }
  }

  /** GET /:id: 404 for an unknown id, otherwise the row. */
  method GetServiceById(db: Db, id: int) returns (code: int, view: Option<ServiceView>)
    ensures code == (if id in db.services then 200 else 404)
    ensures view.Some? <==> id in db.services
    ensures view.Some? ==> view.value == ViewOf(id, db.services[id])
  {
    if id !in db.services {
      return 404, None;
    }
    return 200, Some(ViewOf(id, db.services[id]));
  }

  /** POST /: 400 without a name and nothing inserted; otherwise 201 and one new row with
      `description || null`. */
  method CreateService(db: Db, name: Field<string>, description: Field<string>)
    returns (code: int, view: Option<ServiceView>)
    requires db.Valid()
    modifies db`services, db`nextService
    ensures db.Valid()
    ensures code == (if TruthyStr(name) then 201 else 400)
    ensures code == 400 ==> db.services == old(db.services) && db.nextService == old(db.nextService) && view == None
    ensures code == 201 ==>
              var id := old(db.nextService);
              id !in old(db.services) &&
              db.services == old(db.services)[id := Service(name.v, StrOrNull(description))] &&
              db.nextService == id + 1 &&
              view == Some(ServiceView(id, name.v, StrOrNull(description)))
  {
    if !TruthyStr(name) {
      return 400, None;
    }
    var s := Service(name.v, StrOrNull(description));
    var id := InsertServiceRow(db, s);
    return 201, Some(ViewOf(id, s));
  }

  /** PUT /:id: 400 without a name, whether or not the id exists; 404 for an unknown id;
      otherwise 200 and name and description are replaced. */
  method UpdateService(db: Db, id: int, name: Field<string>, description: Field<string>)
    returns (code: int, view: Option<ServiceView>)
    requires db.Valid()
    modifies db`services
    ensures db.Valid()
    ensures code == (if !TruthyStr(name) then 400 else if id !in old(db.services) then 404 else 200)
    ensures code != 200 ==> db.services == old(db.services) && view == None
    ensures code == 200 ==>
              db.services == old(db.services)[id := Service(name.v, StrOrNull(description))] &&
              view == Some(ServiceView(id, name.v, StrOrNull(description)))
  {
    if !TruthyStr(name) {
      return 400, None;
    }
    if id !in db.services {
      return 404, None;
    }
    var s := Service(name.v, StrOrNull(description));
    db.services := db.services[id := s];
    return 200, Some(ViewOf(id, s));
  }

  /** DELETE /:id: 404 for an unknown id; otherwise 200, that service is gone and so are
      its links to orders. */
  method DeleteService(db: Db, id: int) returns (code: int)
    requires db.Valid()
    modifies db`services, db`orderServices
    ensures db.Valid()
    ensures code == (if id in old(db.services) then 200 else 404)
    ensures db.services == old(db.services) - {id}
    ensures code == 404 ==> db.orderServices == old(db.orderServices)
    ensures code == 200 ==> forall p :: p in db.orderServices <==> p in old(db.orderServices) && p.1 != id
  {
    if id !in db.services {
      return 404;
    }
    DeleteServiceRow(db, id);
    return 200;
  }
}
