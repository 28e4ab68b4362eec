/** getServiceRecommendations of backend/controllers/recommendationsController.js: the
    maintenance rules over a vehicle's mileage, age and completed service history, the
    removal of repeated service names, and the high-priority-first ordering. The current
    year and the current time are parameters; the reasons and price ranges are display
    text and are not modelled. */
module Recommendations {
  import opened Common
  import opened Text
  import opened Schema
  import opened Sorting

  datatype Priority = High | Medium

  datatype Recommendation = Recommendation(service: string, priority: Priority)

  const OilChange := "Oil change"
  const TireRotation := "Tire Rotation"
  const Mile30000 := "30,000 Mile Service"
  const Mile60000 := "60,000 Mile Service"
  const BrakeInspection := "Brake Inspection"
  const BatteryCheck := "Battery Check"
  const CoolantFlush := "Coolant System Flush"
  const GeneralInspection := "General Inspection"
  const InitialInspection := "Initial Inspection"
  /** Completed services that suppress a recommendation. */
  const MajorService := "Major Service"
  const BrakeRepair := "Brake Repair & Service"
  const CompletedStatus := "Completed"
  const DayMs := 86400000
  const StaleDays := 180

  // ---------------------------------------------------------------- the rules

  predicate OilDue(m: int) { m > 0 && (m % 5000 < 500 || m % 5000 > 4500) }
  predicate TireDue(m: int) { m > 0 && (m % 15000 < 1000 || m % 15000 > 14000) }
  predicate Mile30000Due(m: int, done: set<string>) { 30000 <= m < 35000 && MajorService !in done }
  predicate Mile60000Due(m: int, done: set<string>) { 60000 <= m < 65000 && Mile60000 !in done }
  predicate BrakeDue(m: int, done: set<string>) {
    m > 0 && (m % 20000 < 2000 || m > 50000) && BrakeRepair !in done
  }

  /** The mileage rules as a table: each rule names its own service. */
  predicate MileageDue(r: Recommendation, m: int, done: set<string>) {
    (r == Recommendation(OilChange, High) && OilDue(m)) ||
    (r == Recommendation(TireRotation, Medium) && TireDue(m)) ||
    (r == Recommendation(Mile30000, High) && Mile30000Due(m, done)) ||
    (r == Recommendation(Mile60000, High) && Mile60000Due(m, done)) ||
    (r == Recommendation(BrakeInspection, if m > 50000 then High else Medium) && BrakeDue(m, done))
  }

  predicate AgeDue(r: Recommendation, age: int) {
    (r == Recommendation(BatteryCheck, Medium) && age >= 5) ||
    (r == Recommendation(CoolantFlush, Medium) && age >= 7)
  }

  /** `serviced`: the vehicle has a completed order; `stale`: the newest one is more than
      180 days old. */
  predicate HistoryDue(r: Recommendation, serviced: bool, stale: bool) {
    (r == Recommendation(GeneralInspection, Medium) && serviced && stale) ||
    (r == Recommendation(InitialInspection, High) && !serviced)
  }

  /** The recommendations due for a vehicle with mileage `m` and age `age` whose
      completed orders include the services `done`, independent of the order the rules
      are tried in. */
  predicate Due(r: Recommendation, m: int, age: int, done: set<string>, serviced: bool, stale: bool) {
    MileageDue(r, m, done) || AgeDue(r, age) || HistoryDue(r, serviced, stale)
  }

  /** Some due recommendation names this service. */
  ghost predicate Offered(name: string, m: int, age: int, done: set<string>, serviced: bool, stale: bool) {
    exists r :: Due(r, m, age, done, serviced, stale) && r.service == name
  }

  /** A service whose only row in the table is `r0` under condition `c` is offered
      exactly when `c` holds. */
  lemma {:induction false} OfferedByRow(r0: Recommendation, c: bool, m: int, age: int, done: set<string>,
                                        serviced: bool, stale: bool)
    requires forall r :: Due(r, m, age, done, serviced, stale) && r.service == r0.service ==> r == r0 && c
    requires c ==> Due(r0, m, age, done, serviced, stale)
    ensures Offered(r0.service, m, age, done, serviced, stale) <==> c
  {
  }

  /** Each mileage service is offered exactly when its own rule fires, whatever the other
      rules do; the brake inspection is high priority exactly above 50,000 miles. */
  lemma {:induction false} MileageOffered(m: int, age: int, done: set<string>, serviced: bool, stale: bool)
    ensures Offered(OilChange, m, age, done, serviced, stale) <==> OilDue(m)
    ensures Offered(TireRotation, m, age, done, serviced, stale) <==> TireDue(m)
    ensures Offered(Mile30000, m, age, done, serviced, stale) <==> Mile30000Due(m, done)
    ensures Offered(Mile60000, m, age, done, serviced, stale) <==> Mile60000Due(m, done)
    ensures Offered(BrakeInspection, m, age, done, serviced, stale) <==> BrakeDue(m, done)
    ensures forall r :: Due(r, m, age, done, serviced, stale) && r.service == BrakeInspection ==>
              (r.priority == High <==> m > 50000)
  {
    OfferedByRow(Recommendation(OilChange, High), OilDue(m), m, age, done, serviced, stale);
    OfferedByRow(Recommendation(TireRotation, Medium), TireDue(m), m, age, done, serviced, stale);
    OfferedByRow(Recommendation(Mile30000, High), Mile30000Due(m, done), m, age, done, serviced, stale);
    OfferedByRow(Recommendation(Mile60000, High), Mile60000Due(m, done), m, age, done, serviced, stale);
    OfferedByRow(Recommendation(BrakeInspection, if m > 50000 then High else Medium), BrakeDue(m, done),
                 m, age, done, serviced, stale);
  }

  /** The age and history services likewise. */
  lemma {:induction false} AgeHistoryOffered(m: int, age: int, done: set<string>, serviced: bool, stale: bool)
    ensures Offered(BatteryCheck, m, age, done, serviced, stale) <==> age >= 5
    ensures Offered(CoolantFlush, m, age, done, serviced, stale) <==> age >= 7
    ensures Offered(GeneralInspection, m, age, done, serviced, stale) <==> serviced && stale
    ensures Offered(InitialInspection, m, age, done, serviced, stale) <==> !serviced
  {
    OfferedByRow(Recommendation(BatteryCheck, Medium), age >= 5, m, age, done, serviced, stale);
    OfferedByRow(Recommendation(CoolantFlush, Medium), age >= 7, m, age, done, serviced, stale);
    OfferedByRow(Recommendation(GeneralInspection, Medium), serviced && stale, m, age, done, serviced, stale);
    OfferedByRow(Recommendation(InitialInspection, High), !serviced, m, age, done, serviced, stale);
  }

  // ---------------------------------------------------------------- dedup and order

  predicate NameIn(s: seq<Recommendation>, name: string) {
    exists j :: 0 <= j < |s| && s[j].service == name
  }

  predicate DistinctNames(s: seq<Recommendation>) {
    forall i, j :: 0 <= i < j < |s| ==> s[i].service != s[j].service
  }

  lemma {:induction false} NameInSnoc(s: seq<Recommendation>, x: Recommendation, name: string)
    ensures NameIn(s + [x], name) <==> NameIn(s, name) || x.service == name
  {
    if NameIn(s + [x], name) && x.service != name {
      var j :| 0 <= j < |s| + 1 && (s + [x])[j].service == name;
      assert s[j].service == name;
    }
    if NameIn(s, name) {
      var j :| 0 <= j < |s| && s[j].service == name;
      assert (s + [x])[j].service == name;
    }
    if x.service == name {
      assert (s + [x])[|s|].service == name;
    }
  }

  lemma {:induction false} DistinctSnoc(s: seq<Recommendation>, x: Recommendation)
    requires DistinctNames(s) && !NameIn(s, x.service)
    ensures DistinctNames(s + [x])
  {
    forall i, j | 0 <= i < j < |s| + 1 ensures (s + [x])[i].service != (s + [x])[j].service {
      if j == |s| {
        assert s[i].service != x.service;
      }
    }
  }

  /** `filter((rec, index, self) => index === self.findIndex(r => r.service === rec.service))`:
      an element stays iff no earlier element has its service name. */
  function Dedup(s: seq<Recommendation>): (r: seq<Recommendation>)
    ensures DistinctNames(r)
    ensures forall x :: x in r ==> x in s
    ensures forall name :: NameIn(s, name) ==> NameIn(r, name)
  {
    if s == [] then []
    else
      var init := s[..|s| - 1];
      var last := s[|s| - 1];
      var kept := Dedup(init);
      assert s == init + [last];
      if NameIn(init, last.service) then
        assert forall name :: NameIn(s, name) ==> NameIn(init, name) by {
          forall name ensures NameIn(s, name) ==> NameIn(init, name) {
            NameInSnoc(init, last, name);
          }
        }
        kept
      else
        assert !NameIn(kept, last.service) by {
          forall k | 0 <= k < |kept| ensures kept[k].service != last.service {
            assert kept[k] in init;
            var j :| 0 <= j < |init| && init[j] == kept[k];
          }
        }
        DistinctSnoc(kept, last);
        assert forall name :: NameIn(s, name) ==> NameIn(kept + [last], name) by {
          forall name ensures NameIn(s, name) ==> NameIn(kept + [last], name) {
            NameInSnoc(init, last, name);
            NameInSnoc(kept, last, name);
          }
        }
        kept + [last]
  }

  /** The filter keeps exactly the first element of each service name. */
  lemma {:induction false} DedupKeepsFirst(s: seq<Recommendation>)
    ensures forall x :: x in Dedup(s) ==> exists i :: 0 <= i < |s| && s[i] == x && !NameIn(s[..i], x.service)
  {
    if s != [] {
      var init := s[..|s| - 1];
      var last := s[|s| - 1];
      DedupKeepsFirst(init);
      forall x | x in Dedup(s) ensures exists i :: 0 <= i < |s| && s[i] == x && !NameIn(s[..i], x.service) {
        if x in Dedup(init) {
          var i :| 0 <= i < |init| && init[i] == x && !NameIn(init[..i], x.service);
          assert s[..i] == init[..i];
          assert s[i] == x;
        } else {
          assert x == last && !NameIn(init, last.service);
          assert s[..|s| - 1] == init;
        }
      }
    }
  }

  /** A list whose names are already distinct passes the filter unchanged. */
  lemma {:induction false} DedupDistinct(s: seq<Recommendation>)
    requires DistinctNames(s)
    ensures Dedup(s) == s
  {
    if s != [] {
      var init := s[..|s| - 1];
      var last := s[|s| - 1];
      DedupDistinct(init);
      if NameIn(init, last.service) {
        assert false;
      }
      assert s == init + [last];
    }
  }

  /** The sort comparator: high priority first, then by service name. */
  predicate HighFirst(a: Recommendation, b: Recommendation) {
    (a.priority == High && b.priority != High) ||
    ((a.priority == High) == (b.priority == High) && LessEq(a.service, b.service))
  }

  lemma {:induction false} HighFirstTotal()
    ensures TotalPreorder(HighFirst)
  {
    forall a: Recommendation, b: Recommendation ensures HighFirst(a, b) || HighFirst(b, a) {
      LessEqTotal(a.service, b.service);
    }
    forall a: Recommendation, b: Recommendation, c: Recommendation | HighFirst(a, b) && HighFirst(b, c)
      ensures HighFirst(a, c)
    {
      if (a.priority == High) == (b.priority == High) && (b.priority == High) == (c.priority == High) {
        LessEqTransitive(a.service, b.service, c.service);
      }
    }
  }

  // ---------------------------------------------------------------- the handler

  /** The completed orders of vehicle `v`. */
  function CompletedOrders(orders: map<int, Order>, v: int): (r: set<int>)
    ensures forall o :: o in r <==> o in orders && orders[o].vehicleId == Some(v) && orders[o].status == CompletedStatus
  {
    set o | o in orders && orders[o].vehicleId == Some(v) && orders[o].status == CompletedStatus
  }

  /** `new Set(orders.map(o => o.service_name).filter(Boolean))`: the non-empty names of
      the services linked to those orders. */
  function CompletedNames(db: Db, completed: set<int>): (r: set<string>)
    reads db
  {
    set p | p in db.orderServices && p.0 in completed && p.1 in db.services && db.services[p.1].name != "" :: db.services[p.1].name
  }

  /** More than 180 days have passed since the newest of the orders, that is, since
      every one of them: whole days are `floor((now - createdAt) / day)`, which only
      shrinks as `createdAt` grows. */
  predicate Stale(orders: map<int, Order>, completed: set<int>, now: int) {
    forall o :: o in completed && o in orders ==> (now - orders[o].createdAt) / DayMs > StaleDays
  }

  /** `vehicle.year || currentYear`, subtracted from the current year. */
  function Age(year: Option<int>, currentYear: int): (a: int)
    ensures year.None? || year.value == 0 ==> a == 0
    ensures year.Some? && year.value != 0 ==> a == currentYear - year.value
  {
    if year.None? || year.value == 0 then 0 else currentYear - year.value
  }

  /** The rule evaluation of the handler: each rule that fires pushes its
      recommendation, in the order the rules are written. */
  method PushDue(m: int, age: int, done: set<string>, serviced: bool, stale: bool)
    returns (pushed: seq<Recommendation>)
    ensures forall r :: r in pushed <==> Due(r, m, age, done, serviced, stale)
  {
    var mileage := PushMileage(m, done);
    pushed := mileage;
    if age >= 5 {
      pushed := pushed + [Recommendation(BatteryCheck, Medium)];
    }
    if age >= 7 {
      pushed := pushed + [Recommendation(CoolantFlush, Medium)];
    }
    assert forall r :: r in pushed <==> MileageDue(r, m, done) || AgeDue(r, age);
    if serviced {
      if stale {
        pushed := pushed + [Recommendation(GeneralInspection, Medium)];
      }
    } else {
      pushed := pushed + [Recommendation(InitialInspection, High)];
    }
  }

  /** The mileage rules, which fire only for a positive mileage. */
  method PushMileage(m: int, done: set<string>) returns (pushed: seq<Recommendation>)
    ensures forall r :: r in pushed <==> MileageDue(r, m, done)
  {
    pushed := [];
    if m > 0 {
      if m % 5000 < 500 || m % 5000 > 4500 {
        pushed := pushed + [Recommendation(OilChange, High)];
      }
      if m % 15000 < 1000 || m % 15000 > 14000 {
        pushed := pushed + [Recommendation(TireRotation, Medium)];
      }
      if m >= 30000 && m < 35000 && MajorService !in done {
        pushed := pushed + [Recommendation(Mile30000, High)];
      }
      if m >= 60000 && m < 65000 && Mile60000 !in done {
        pushed := pushed + [Recommendation(Mile60000, High)];
      }
      if m % 20000 < 2000 || m > 50000 {
        if BrakeRepair !in done {
          pushed := pushed + [Recommendation(BrakeInspection, if m > 50000 then High else Medium)];
        }
      }
    }
  }

  /** The filter and the sort: the same recommendations, each name once, high priority
      first and then by name. */
  method Arrange(pushed: seq<Recommendation>, m: int, age: int, done: set<string>, serviced: bool, stale: bool)
    returns (recs: seq<Recommendation>)
    requires forall r :: r in pushed <==> Due(r, m, age, done, serviced, stale)
    ensures forall r :: r in recs <==> Due(r, m, age, done, serviced, stale)
    ensures DistinctNames(recs)
    ensures SortedBy(recs, HighFirst)
    ensures forall i, j :: 0 <= i < j < |recs| && recs[j].priority == High ==> recs[i].priority == High
  {
    var unique := Dedup(pushed);
    assert forall r :: r in unique <==> r in pushed by {
      forall r | r in pushed ensures r in unique {
        assert NameIn(pushed, r.service) by {
          var j :| 0 <= j < |pushed| && pushed[j] == r;
        }
        var k :| 0 <= k < |unique| && unique[k].service == r.service;
        DueNameDecides(unique[k], r, m, age, done, serviced, stale);
      }
    }
    HighFirstTotal();
    recs := InsertionSort(unique, HighFirst);
    assert forall r :: r in recs <==> r in unique by {
      forall r ensures r in recs <==> r in unique {
        assert r in recs <==> r in multiset(recs);
        assert r in unique <==> r in multiset(unique);
      }
    }
    PermutationKeepsDistinct(unique, recs);
  }

  /** getServiceRecommendations. 400 without a vehicle id; 404 for an unknown vehicle;
      otherwise exactly the due recommendations, each service named once, high priority
      first and then by name. */
  method GetServiceRecommendations(db: Db, vehicleId: Option<int>, currentYear: int, now: int)
    returns (code: int, recs: seq<Recommendation>)
    ensures code == (if vehicleId.None? then 400 else if vehicleId.value !in db.vehicles then 404 else 200)
    ensures code != 200 ==> recs == []
    ensures code == 200 ==>
              var v := db.vehicles[vehicleId.value];
              var completed := CompletedOrders(db.orders, vehicleId.value);
              forall r :: r in recs <==>
                Due(r, v.mileage.GetOr(0), Age(v.year, currentYear), CompletedNames(db, completed), completed != {},
                    Stale(db.orders, completed, now))
    ensures DistinctNames(recs)
    ensures SortedBy(recs, HighFirst)
    ensures forall i, j :: 0 <= i < j < |recs| && recs[j].priority == High ==> recs[i].priority == High
  {
    if vehicleId.None? {
      return 400, [];
    }
    if vehicleId.value !in db.vehicles {
      return 404, [];
    }
    var vehicle := db.vehicles[vehicleId.value];
    var mileage := vehicle.mileage.GetOr(0);
    var age := Age(vehicle.year, currentYear);
    var completed := CompletedOrders(db.orders, vehicleId.value);
    var done := CompletedNames(db, completed);
    var stale := Stale(db.orders, completed, now);
    var pushed := PushDue(mileage, age, done, completed != {}, stale);
    recs := Arrange(pushed, mileage, age, done, completed != {}, stale);
    return 200, recs;
  }

  /** Among the due recommendations a service name fixes the whole recommendation. */
  lemma DueNameDecides(a: Recommendation, b: Recommendation, m: int, age: int, done: set<string>,
                       serviced: bool, stale: bool)
    requires Due(a, m, age, done, serviced, stale) && Due(b, m, age, done, serviced, stale)
    requires a.service == b.service
    ensures a == b
  {
  }

  lemma {:induction false} CountedTwice(t: seq<Recommendation>, i: int, j: int)
    requires 0 <= i < j < |t| && t[i] == t[j]
    ensures multiset(t)[t[i]] >= 2
  {
    assert t == t[..j] + [t[j]] + t[j + 1..];
    assert t[..j][i] == t[i];
  }

  lemma {:induction false} TwoPositions(s: seq<Recommendation>, x: Recommendation)
    requires multiset(s)[x] >= 2
    ensures exists p, q :: 0 <= p < q < |s| && s[p] == x && s[q] == x
  {
    assert x in multiset(s);
    var p :| 0 <= p < |s| && s[p] == x;
    assert s == s[..p] + [s[p]] + s[p + 1..];
    if x in s[..p] {
      var q :| 0 <= q < p && s[..p][q] == x;
      assert s[q] == x;
    } else {
      assert x in multiset(s[p + 1..]);
      var q :| 0 <= q < |s| - p - 1 && s[p + 1..][q] == x;
      assert s[p + 1 + q] == x;
    }
  }

  lemma {:induction false} DistinctElements(s: seq<Recommendation>, x: Recommendation, y: Recommendation)
    requires DistinctNames(s) && x in s && y in s && x != y
    ensures x.service != y.service
  {
    var p :| 0 <= p < |s| && s[p] == x;
    var q :| 0 <= q < |s| && s[q] == y;
    if p < q {
      assert s[p].service != s[q].service;
    } else {
      assert s[q].service != s[p].service;
    }
  }

  /** Reordering keeps the service names distinct. */
  lemma {:induction false} PermutationKeepsDistinct(s: seq<Recommendation>, t: seq<Recommendation>)
    requires DistinctNames(s) && multiset(s) == multiset(t)
    ensures DistinctNames(t)
  {
    forall i, j | 0 <= i < j < |t| ensures t[i].service != t[j].service {
      if t[i] == t[j] {
        CountedTwice(t, i, j);
        TwoPositions(s, t[i]);
      } else {
        assert t[i] in multiset(t) && t[j] in multiset(t);
        DistinctElements(s, t[i], t[j]);
      }
    }
  }
}
