/** The payment handlers of backend/controllers/paymentsController.js: a payment row is
    created pending for a processor intent, and becomes completed, with its order marked
    paid, either when the customer confirms it or when the processor's webhook reports it.
    The processor is an oracle: whether it is configured, what creating or retrieving an
    intent returns, and whether a webhook signature verifies are parameters. */
module Payments {
  import opened Common
  import opened Text
  import opened Schema
  import opened Sorting

  const Paid := "paid"
  const Completed := "completed"
  const Succeeded := "succeeded"
  const MockPrefix := "mock_"
  const StripeMethod := "stripe"
  const IntentSucceededEvent := "payment_intent.succeeded"

  /** The ids an intent was created with. */
  datatype IntentMetadata = IntentMetadata(orderId: Option<int>, customerId: Option<int>)

  /** A processor intent as retrieved: its id, its status and its metadata, if any. */
  datatype Intent = Intent(id: string, status: string, metadata: Option<IntentMetadata>)

  /** Order `o` exists and belongs to customer `c`: `WHERE id = ? AND customer_id = ?`. */
  predicate Owns(orders: map<int, Order>, o: int, c: int) {
    o in orders && orders[o].customerId == c
  }

  // ---------------------------------------------------------------- createPaymentIntent

  /** The answer createPaymentIntent gives, from the caller, the order row and the processor:
      401 without a customer id, 404 unless the caller owns the order, 400 for a missing or
      non-positive total and then for an order already paid, 200 with a mock handle when the
      processor is not configured, 500 when creating the intent fails, 200 otherwise. */
  function IntentCode(orders: map<int, Order>, customerId: Option<int>, orderId: int,
                      configured: bool, created: Option<string>): (code: int)
    ensures code in {401, 404, 400, 500, 200}
    ensures code == 401 <==> !PresentId(customerId)
    ensures code == 500 ==> configured && created.None?
  {
    if !PresentId(customerId) then 401
    else if !Owns(orders, orderId, customerId.value) then 404
    else if orders[orderId].totalAmount.None? || orders[orderId].totalAmount.value <= 0 then 400
    else if orders[orderId].paymentStatus == Paid then 400
    else if !configured then 200
    else if created.None? then 500
    else 200
  }

  /** The row createPaymentIntent inserts for a created intent. */
  function PendingRow(id: int, orderId: int, customerId: int, amount: int, intentId: string, now: int): (p: Payment)
    ensures p.status == DefaultPaymentStatus && p.currency == DefaultCurrency && p.paymentMethod == StripeMethod
    ensures p.intentId == Some(intentId) && p.transactionId == None && p.amount == amount
  {
    Payment(id, orderId, customerId, amount, DefaultCurrency, StripeMethod, Some(intentId), DefaultPaymentStatus, None, now)
  }

  /** createPaymentIntent. `created` is the id of the intent the processor created, `None`
      when creating it threw; `now` is the clock the mock handle is named after. Only a
      created intent writes a row. */
  method CreatePaymentIntent(db: Db, customerId: Option<int>, orderId: int, configured: bool,
                             created: Option<string>, now: nat)
    returns (code: int, handle: Option<string>)
    requires db.Valid()
    modifies db`payments, db`nextPayment
    ensures db.Valid()
    ensures code == IntentCode(old(db.orders), customerId, orderId, configured, created)
    ensures code == 200 && !configured ==> handle == Some(MockPrefix + NatToString(now))
    ensures code == 200 && configured ==> handle == created
    ensures code != 200 ==> handle == None
    ensures code == 200 && configured ==>
              db.payments == old(db.payments) +
                [PendingRow(old(db.nextPayment), orderId, customerId.value,
                            old(db.orders)[orderId].totalAmount.value, created.value, now)] &&
              db.nextPayment == old(db.nextPayment) + 1
    ensures !(code == 200 && configured) ==>
              db.payments == old(db.payments) && db.nextPayment == old(db.nextPayment)
  {
    if !PresentId(customerId) {
      return 401, None;
    }
    var c := customerId.value;
    if !Owns(db.orders, orderId, c) {
      return 404, None;
    }
    var order := db.orders[orderId];
    if order.totalAmount.None? || order.totalAmount.value <= 0 {
      return 400, None;
    }
    if order.paymentStatus == Paid {
      return 400, None;
    }
    if !configured {
      return 200, Some(MockPrefix + NatToString(now));
    }
    if created.None? {
      return 500, None;
    }
    var row := PendingRow(db.nextPayment, orderId, c, order.totalAmount.value, created.value, now);
    AppendKeepsKeys(db.payments, row, db.nextPayment);
    db.payments := db.payments + [row];
    db.nextPayment := db.nextPayment + 1;
    return 200, created;
  }

  lemma AppendKeepsKeys(ps: seq<Payment>, row: Payment, next: int)
    requires PaymentKeysBelow(ps, next) && row.id == next
    ensures PaymentKeysBelow(ps + [row], next + 1)
  {
    var qs := ps + [row];
    forall i, j | 0 <= i < j < |qs| ensures qs[i].id < qs[j].id {
      if j == |ps| {
        assert qs[i] == ps[i];
      } else {
        assert qs[i] == ps[i] && qs[j] == ps[j];
      }
    }
  }

  // ---------------------------------------------------------------- confirmPayment

  /** The intent id names a mock handle and the processor is not configured. */
  predicate IsMock(intentId: Field<string>, configured: bool) {
    TruthyStr(intentId) && StartsWith(intentId.v, MockPrefix) && !configured
  }

  /** The intent confirmPayment fabricates for a mock handle. */
  function MockIntent(id: string, orderId: int, customerId: int): Intent {
    Intent(id, Succeeded, Some(IntentMetadata(Some(orderId), Some(customerId))))
  }

  /** A payment row of order `o` and customer `c` for intent `intentId`. */
  predicate Matches(p: Payment, o: int, intentId: string, c: int) {
    p.orderId == o && p.intentId == Some(intentId) && p.customerId == c
  }

  predicate AnyMatch(ps: seq<Payment>, o: int, intentId: string, c: int) {
    exists i :: 0 <= i < |ps| && Matches(ps[i], o, intentId, c)
  }

  /** The answer confirmPayment gives, check by check in the order the source makes them.
      A missing `orderId` makes the query throw on its `undefined` parameter (500); a JSON
      `null` is bound as NULL, matches no order and gives 404. `retrieved` is the intent the
      processor returned, `None` when retrieving threw; retrieving a missing or empty intent
      id always throws. */
  function ConfirmCode(payments: seq<Payment>, orders: map<int, Order>, customerId: Option<int>,
                       orderId: Field<int>, intentId: Field<string>, configured: bool,
                       retrieved: Option<Intent>): (code: int)
    ensures code in {401, 500, 404, 400, 403, 200}
    ensures code == 401 <==> !PresentId(customerId)
    ensures code == 500 <==> PresentId(customerId) && orderId.Undefined?
    ensures code == 403 ==> configured && TruthyStr(intentId) && retrieved.Some?
  {
    if !PresentId(customerId) then 401
    else if orderId.Undefined? then 500
    else if orderId.Null? || !Owns(orders, orderId.v, customerId.value) then 404
    else if orders[orderId.v].paymentStatus == Paid then 400
    else
      var o, c := orderId.v, customerId.value;
      if !IsMock(intentId, configured) && !configured then 400
      else if !IsMock(intentId, configured) && (!TruthyStr(intentId) || retrieved.None?) then 400
      else
        var intent := if IsMock(intentId, configured) then MockIntent(intentId.v, o, c) else retrieved.value;
        if !IsMock(intentId, configured) && intent.metadata.Some? && intent.metadata.value.orderId != Some(o) then 400
        else if !IsMock(intentId, configured) && intent.metadata.Some? && intent.metadata.value.customerId != Some(c) then 403
        else if intent.status != Succeeded then 400
        else if !AnyMatch(payments, o, intentId.v, c) then 404
        else 200
  }

  /** The intent whose id confirmPayment writes as the transaction id. */
  function UsedIntentId(intentId: Field<string>, configured: bool, retrieved: Option<Intent>): string
    requires IsMock(intentId, configured) || retrieved.Some?
  {
    if IsMock(intentId, configured) then intentId.v else retrieved.value.id
  }

  /** A completed payment row, carrying the processor's transaction id. */
  function CompletedRow(p: Payment, txn: string): (r: Payment)
    ensures r.status == Completed && r.transactionId == Some(txn)
    ensures r.id == p.id && r.orderId == p.orderId && r.customerId == p.customerId && r.amount == p.amount
  {
    p.(status := Completed, transactionId := Some(txn))
  }

  /** The key columns of two payment tables agree row by row. */
  predicate SameKeys(a: seq<Payment>, b: seq<Payment>) {
    |a| == |b| &&
    forall i :: 0 <= i < |a| ==> a[i].id == b[i].id && a[i].orderId == b[i].orderId && a[i].customerId == b[i].customerId
  }

  lemma SameKeysValid(a: seq<Payment>, b: seq<Payment>, next: int, orders: set<int>, customers: set<int>)
    requires SameKeys(a, b) && PaymentKeysBelow(a, next) && PaymentsLinked(a, orders, customers)
    ensures PaymentKeysBelow(b, next) && PaymentsLinked(b, orders, customers)
  {
  }

  /** `UPDATE payments SET status = 'completed', transaction_id = ? WHERE order_id = ? AND
      payment_intent_id = ? AND customer_id = ?`: every matching row is completed, every
      other row is left as it was. */
  method CompleteMatching(db: Db, o: int, intentId: string, c: int, txn: string)
    requires db.Valid()
    modifies db`payments
    ensures db.Valid()
    ensures |db.payments| == |old(db.payments)|
    ensures forall i :: 0 <= i < |db.payments| ==>
              db.payments[i] == if Matches(old(db.payments)[i], o, intentId, c)
                                then CompletedRow(old(db.payments)[i], txn) else old(db.payments)[i]
  {
    var ps := db.payments;
    var i := 0;
    while i < |ps|
      invariant 0 <= i <= |ps| && |ps| == |db.payments|
      invariant SameKeys(db.payments, ps)
      invariant forall k :: 0 <= k < i ==>
                  ps[k] == if Matches(db.payments[k], o, intentId, c) then CompletedRow(db.payments[k], txn) else db.payments[k]
      invariant forall k :: i <= k < |ps| ==> ps[k] == db.payments[k]
    {
      if Matches(ps[i], o, intentId, c) {
        ps := ps[i := CompletedRow(ps[i], txn)];
      }
      i := i + 1;
    }
    SameKeysValid(db.payments, ps, db.nextPayment, db.orders.Keys, db.customers.Keys);
    db.payments := ps;
  }

  /** confirmPayment. On 200, in one transaction, every payment row of the order, the intent
      and the caller is completed with the intent's id as transaction id and the order is
      marked paid; on any other answer nothing is written. */
  method ConfirmPayment(db: Db, customerId: Option<int>, orderId: Field<int>, intentId: Field<string>,
                        configured: bool, retrieved: Option<Intent>)
    returns (code: int)
    requires db.Valid()
    modifies db`payments, db`orders
    ensures db.Valid()
    ensures code == ConfirmCode(old(db.payments), old(db.orders), customerId, orderId, intentId, configured, retrieved)
    ensures code != 200 ==> db.payments == old(db.payments) && db.orders == old(db.orders)
    ensures code == 200 ==>
              var o, c := orderId.v, customerId.value;
              var txn := UsedIntentId(intentId, configured, retrieved);
              db.orders == old(db.orders)[o := old(db.orders)[o].(paymentStatus := Paid)] &&
              |db.payments| == |old(db.payments)| &&
              forall i :: 0 <= i < |db.payments| ==>
                db.payments[i] == if Matches(old(db.payments)[i], o, intentId.v, c)
                                  then CompletedRow(old(db.payments)[i], txn) else old(db.payments)[i]
  {
    if !PresentId(customerId) {
      return 401;
    }
    if orderId.Undefined? {
      return 500;
    }
    if orderId.Null? {
      return 404;
    }
    var o, c := orderId.v, customerId.value;
    if !Owns(db.orders, o, c) {
      return 404;
    }
    if db.orders[o].paymentStatus == Paid {
      return 400;
    }
    var intent: Intent;
    if IsMock(intentId, configured) {
      intent := MockIntent(intentId.v, o, c);
    } else if configured {
      if !TruthyStr(intentId) || retrieved.None? {
        return 400;
      }
      intent := retrieved.value;
      if intent.metadata.Some? && intent.metadata.value.orderId != Some(o) {
        return 400;
      }
      if intent.metadata.Some? && intent.metadata.value.customerId != Some(c) {
        return 403;
      }
    } else {
      return 400;
    }
    if intent.status != Succeeded {
      return 400;
    }
    if !(exists i :: 0 <= i < |db.payments| && Matches(db.payments[i], o, intentId.v, c)) {
      return 404;
    }
    CompleteMatching(db, o, intentId.v, c, intent.id);
    db.orders := db.orders[o := db.orders[o].(paymentStatus := Paid)];
    return 200;
  }

  // ---------------------------------------------------------------- getPaymentHistory

  /** The payments of order `o`, in table order. */
  function OfOrder(ps: seq<Payment>, o: int): (r: seq<Payment>)
    ensures forall p :: p in r <==> p in ps && p.orderId == o
    ensures |r| <= |ps|
  {
    if ps == [] then []
    else
      var rest := OfOrder(ps[1..], o);
      assert forall p :: p in ps <==> p == ps[0] || p in ps[1..];
      if ps[0].orderId == o then [ps[0]] + rest else rest
  }

  /** `ORDER BY created_at DESC`. */
  predicate NewerFirst(a: Payment, b: Payment) {
    a.createdAt >= b.createdAt
  }

  lemma NewerFirstTotal()
    ensures TotalPreorder(NewerFirst)
  {
  }

  /** getPaymentHistory: 401 without a customer id, 404 unless the caller owns the order,
      otherwise every payment of the order, newest first. */
  method GetPaymentHistory(db: Db, customerId: Option<int>, orderId: int)
    returns (code: int, history: seq<Payment>)
    ensures code == (if !PresentId(customerId) then 401
                     else if !Owns(db.orders, orderId, customerId.value) then 404 else 200)
    ensures code != 200 ==> history == []
    ensures code == 200 ==> SortedBy(history, NewerFirst) && multiset(history) == multiset(OfOrder(db.payments, orderId))
  {
    if !PresentId(customerId) {
      return 401, [];
    }
    if !Owns(db.orders, orderId, customerId.value) {
      return 404, [];
    }
    NewerFirstTotal();
    return 200, InsertionSort(OfOrder(db.payments, orderId), NewerFirst);
  }

  // ---------------------------------------------------------------- handleStripeWebhook

  /** A webhook event whose signature verified: its type and the id of its intent. */
  datatype WebhookEvent = WebhookEvent(kind: string, intentId: string)

  /** The index of the first payment row of the intent: `SELECT ... WHERE payment_intent_id = ?`
      then `payments[0]`. */
  function FirstOfIntent(ps: seq<Payment>, intentId: string): (r: Option<nat>)
    ensures r.Some? ==> r.value < |ps| && ps[r.value].intentId == Some(intentId) &&
                        forall k :: 0 <= k < r.value ==> ps[k].intentId != Some(intentId)
    ensures r.None? ==> forall k :: 0 <= k < |ps| ==> ps[k].intentId != Some(intentId)
  {
    if ps == [] then None
    else if ps[0].intentId == Some(intentId) then Some(0)
    else
      var rest := FirstOfIntent(ps[1..], intentId);
      if rest.Some? then Some(rest.value + 1) else None
  }

  /** handleStripeWebhook. `event` is the event the signature check produced, `None` when it
      threw; `processingFails` says the transaction hit a database error and rolled back.
      Answers 400 before the signature passes and 200 after, whatever happened. */
  method HandleWebhook(db: Db, configured: bool, secretSet: bool, event: Option<WebhookEvent>,
                       processingFails: bool)
    returns (code: int)
    requires db.Valid()
    modifies db`payments, db`orders
    ensures db.Valid()
    ensures code == (if !configured || !secretSet || event.None? then 400 else 200)
    ensures var hit := if event.Some? then FirstOfIntent(old(db.payments), event.value.intentId) else None;
            if code == 200 && event.value.kind == IntentSucceededEvent && hit.Some? && !processingFails then
              var p := old(db.payments)[hit.value];
              db.payments == old(db.payments)[hit.value := CompletedRow(p, event.value.intentId)] &&
              db.orders == old(db.orders)[p.orderId := old(db.orders)[p.orderId].(paymentStatus := Paid)]
            else
              db.payments == old(db.payments) && db.orders == old(db.orders)
  {
    if !configured || !secretSet || event.None? {
      return 400;
    }
    var e := event.value;
    if e.kind == IntentSucceededEvent && !processingFails {
      var hit := FirstOfIntent(db.payments, e.intentId);
      if hit.Some? {
        var p := db.payments[hit.value];
        var ps := db.payments[hit.value := CompletedRow(p, e.intentId)];
        SameKeysValid(db.payments, ps, db.nextPayment, db.orders.Keys, db.customers.Keys);
        db.payments := ps;
        db.orders := db.orders[p.orderId := db.orders[p.orderId].(paymentStatus := Paid)];
      }
    }
    return 200;
  }

  // ---------------------------------------------------------------- properties

  /** Once an order is paid, confirming it again answers 400. */
  lemma SecondConfirmRejected(payments: seq<Payment>, orders: map<int, Order>, customerId: Option<int>,
                              o: int, intentId: Field<string>, configured: bool, retrieved: Option<Intent>)
    requires PresentId(customerId) && Owns(orders, o, customerId.value) && orders[o].paymentStatus == Paid
    ensures ConfirmCode(payments, orders, customerId, Value(o), intentId, configured, retrieved) == 400
  {
  }

  /** A missing orderId throws in the query (500); a null one finds no order (404). */
  lemma ConfirmOrderIdAbsent(payments: seq<Payment>, orders: map<int, Order>, customerId: Option<int>,
                             intentId: Field<string>, configured: bool, retrieved: Option<Intent>)
    requires PresentId(customerId)
    ensures ConfirmCode(payments, orders, customerId, Undefined, intentId, configured, retrieved) == 500
    ensures ConfirmCode(payments, orders, customerId, Null, intentId, configured, retrieved) == 404
  {
  }

  /** With a processor configured, a missing, null or empty intent id makes retrieval throw,
      and confirmation answers 400 whatever the processor would have returned. */
  lemma ConfirmWithoutIntentId(payments: seq<Payment>, orders: map<int, Order>, customerId: Option<int>,
                               o: int, intentId: Field<string>, retrieved: Option<Intent>)
    requires PresentId(customerId) && Owns(orders, o, customerId.value) && orders[o].paymentStatus != Paid
    requires !TruthyStr(intentId)
    ensures ConfirmCode(payments, orders, customerId, Value(o), intentId, true, retrieved) == 400
  {
  }

  /** A mock handle confirms only against a payment row that carries it. */
  lemma MockConfirmNeedsRow(payments: seq<Payment>, orders: map<int, Order>, customerId: Option<int>,
                            o: int, intentId: Field<string>, retrieved: Option<Intent>)
    requires IsMock(intentId, false)
    requires forall i :: 0 <= i < |payments| ==> payments[i].intentId != Some(intentId.v)
    ensures ConfirmCode(payments, orders, customerId, Value(o), intentId, false, retrieved) != 200
  {
  }

  /** The handle createPaymentIntent returns without a configured processor is one that
      confirmPayment, still without a processor, takes for a mock. */
  lemma MockHandleIsMock(now: nat)
    ensures IsMock(Value(MockPrefix + NatToString(now)), false)
  {
    var h := MockPrefix + NatToString(now);
    assert h[..|MockPrefix|] == MockPrefix;
  }

  /** The processor's answer is trusted only when it names this order and this customer: a
      retrieved intent whose metadata names another order or another customer never
      confirms. */
  lemma ForeignIntentRejected(payments: seq<Payment>, orders: map<int, Order>, customerId: Option<int>,
                              o: int, intentId: Field<string>, intent: Intent)
    requires PresentId(customerId) && Owns(orders, o, customerId.value) && orders[o].paymentStatus != Paid
    requires TruthyStr(intentId)
    requires intent.metadata.Some? &&
             (intent.metadata.value.orderId != Some(o) || intent.metadata.value.customerId != Some(customerId.value))
    ensures ConfirmCode(payments, orders, customerId, Value(o), intentId, true, Some(intent)) ==
              (if intent.metadata.value.orderId != Some(o) then 400 else 403)
  {
  }

  /** Confirmation succeeds only for a succeeded intent and an existing pending payment row of
      the caller's unpaid order. */
  lemma ConfirmRequires(payments: seq<Payment>, orders: map<int, Order>, customerId: Option<int>,
                        orderId: Field<int>, intentId: Field<string>, configured: bool, retrieved: Option<Intent>)
    requires ConfirmCode(payments, orders, customerId, orderId, intentId, configured, retrieved) == 200
    ensures PresentId(customerId) && orderId.Value? && Owns(orders, orderId.v, customerId.value)
    ensures orders[orderId.v].paymentStatus != Paid
    ensures intentId.Value? && AnyMatch(payments, orderId.v, intentId.v, customerId.value)
    ensures IsMock(intentId, configured) || (configured && retrieved.Some? && retrieved.value.status == Succeeded)
  {
  }

  /** createPaymentIntent refuses before anything else an order the caller does not own,
      then a missing or non-positive total, and only then an order already paid. */
  lemma IntentCheckOrder(orders: map<int, Order>, customerId: Option<int>, orderId: int,
                         configured: bool, created: Option<string>)
    requires PresentId(customerId)
    ensures !Owns(orders, orderId, customerId.value) ==> IntentCode(orders, customerId, orderId, configured, created) == 404
    ensures Owns(orders, orderId, customerId.value) &&
            (orders[orderId].totalAmount.None? || orders[orderId].totalAmount.value <= 0) ==>
              IntentCode(orders, customerId, orderId, configured, created) == 400
    ensures IntentCode(orders, customerId, orderId, configured, created) == 200 ==>
              orders[orderId].paymentStatus != Paid && orders[orderId].totalAmount.Some? &&
              orders[orderId].totalAmount.value > 0
  {
  }
}
