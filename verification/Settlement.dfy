/** Settlement: create the gateway order of an authorized transaction, and ask the
    gateway about captures when no webhook came.  The gateway is an oracle that
    answers each call with an arbitrary value and keeps a record of the orders it
    created. */
module Settlement {
  import opened Models
  import opened Schema
  import opened Repository

  datatype Order = Order(txnId: string, amount: int, orderId: string)

  datatype Payment = Payment(status: string, amount: Option<int>, paymentId: Option<string>)

  datatype SettleStatus = ORDER_CREATED | ALREADY_SETTLED | ORDER_EXISTS | NOT_AUTHORIZED

  datatype SettlementResult =
    SettlementResult(status: SettleStatus, txnId: string, orderId: Option<string>, amount: Option<int>)

  /** None as an answer is an exception raised by the client. */
  class RazorpayClient {
    const orderAnswers: nat -> Option<string>
    const paymentAnswers: nat -> Option<seq<Payment>>
    var calls: nat
    var created: seq<Order>

    constructor (orderAnswers: nat -> Option<string>, paymentAnswers: nat -> Option<seq<Payment>>)
      ensures this.orderAnswers == orderAnswers && this.paymentAnswers == paymentAnswers
      ensures calls == 0 && created == []
    {
      this.orderAnswers, this.paymentAnswers := orderAnswers, paymentAnswers;
      calls, created := 0, [];
    }

    method CreateOrder(amount: int, receipt: string) returns (orderId: Option<string>)
      modifies this
      ensures orderId == orderAnswers(old(calls)) && calls == old(calls) + 1
      ensures created == old(created) + (if orderId.Some? then [Order(receipt, amount, orderId.value)] else [])
    {
      orderId := orderAnswers(calls);
      calls := calls + 1;
      if orderId.Some? {
        created := created + [Order(receipt, amount, orderId.value)];
      }
    }

    method OrderPayments(orderId: string) returns (payments: Option<seq<Payment>>)
      modifies this
      ensures payments == paymentAnswers(old(calls)) && calls == old(calls) + 1 && created == old(created)
    {
      payments := paymentAnswers(calls);
      calls := calls + 1;
    }
  }

  // ---- the specification ----

  /** The only rows an order is created for. */
  predicate NeedsOrder(t: Tables, txnId: string) {
    var i := ById(t.txns, txnId);
    i < |t.txns| && t.txns[i].decision == ALLOW && t.txns[i].status != REVIEW_HOLD
    && t.txns[i].status != SETTLED && !Truthy(t.txns[i].orderId)
  }

  /** What `settle` answers when it creates nothing. */
  function Declined(t: Tables, txnId: string): SettlementResult {
    var i := ById(t.txns, txnId);
    if i == |t.txns| || t.txns[i].decision != ALLOW then SettlementResult(NOT_AUTHORIZED, txnId, None, None)
    else if t.txns[i].status == REVIEW_HOLD then SettlementResult(NOT_AUTHORIZED, txnId, None, Some(t.txns[i].amount))
    else if t.txns[i].status == SETTLED
      then SettlementResult(ALREADY_SETTLED, txnId, t.txns[i].orderId, Some(t.txns[i].amount))
    else SettlementResult(ORDER_EXISTS, txnId, t.txns[i].orderId, Some(t.txns[i].amount))
  }

  function PendingEntry(txnId: string, orderId: string, amount: int): Event {
    SettlementEvent(txnId, orderId, None, Some(amount), PENDING_SETTLEMENT, false)
  }

  function Settled(codec: Codec, c: Conn, txnId: string, answer: Option<string>, eventId: string)
    : (Conn, Result<SettlementResult, Escape>)
  {
    if !NeedsOrder(c.view, txnId) then (c, Success(Declined(c.view, txnId)))
    else if answer.None? then (c, Failure(GATEWAY_ERROR))
    else
      var amount := c.view.txns[ById(c.view.txns, txnId)].amount;
      var c1 := Committed(c.(view := SettlementSet(c.view, txnId, PENDING_SETTLEMENT, answer, None)));
      var entry := PendingEntry(txnId, answer.value, amount);
      (Logged(codec, c1, entry, eventId),
       if Loggable(codec, c1.view, entry, eventId)
       then Success(SettlementResult(ORDER_CREATED, txnId, answer, Some(amount)))
       else Failure(LOG_HASH_TAKEN))
  }

  predicate Captures(p: Payment, amount: int) {
    p.status == "captured" && p.amount.GetOr(-1) == amount
  }

  /** The first payment that captures the amount, or the number of payments. */
  function FirstCapture(payments: seq<Payment>, amount: int): (i: nat)
    ensures i <= |payments|
    ensures i < |payments| ==> Captures(payments[i], amount)
    ensures forall k | 0 <= k < i :: !Captures(payments[k], amount)
  {
    if payments == [] || Captures(payments[0], amount) then 0 else 1 + FirstCapture(payments[1..], amount)
  }

  /** The gateway answered, and with a capture of the amount. */
  predicate ShowsCapture(answer: Option<seq<Payment>>, amount: int) {
    answer.Some? && FirstCapture(answer.value, amount) < |answer.value|
  }

  /** The n-th payment is the first one captured for exactly this amount. */
  predicate FirstCaptured(payments: seq<Payment>, n: nat, amount: int) {
    && n < |payments| && payments[n].status == "captured" && payments[n].amount == Some(amount)
    && forall k | 0 <= k < n :: payments[k].status != "captured" || payments[k].amount != Some(amount)
  }

  /** The rows `reconcile` asks the gateway about. */
  predicate Reconcilable(t: Tables, txnId: string) {
    var i := ById(t.txns, txnId);
    i < |t.txns| && Truthy(t.txns[i].orderId) && t.txns[i].status != SETTLED
  }

  function SettledEntry(txnId: string, orderId: string, paymentId: Option<string>, viaReconcile: bool): Event {
    SettlementEvent(txnId, orderId, paymentId, None, SETTLED, viaReconcile)
  }

  function Reconciled(codec: Codec, c: Conn, txnId: string, answer: Option<seq<Payment>>, eventId: string)
    : (Conn, Result<SettlementResult, Escape>)
  {
    var i := ById(c.view.txns, txnId);
    if !Reconcilable(c.view, txnId) then
      (c, Success(if i < |c.view.txns| && Truthy(c.view.txns[i].orderId)
                  then SettlementResult(ALREADY_SETTLED, txnId, c.view.txns[i].orderId, Some(c.view.txns[i].amount))
                  else SettlementResult(NOT_AUTHORIZED, txnId, None, None)))
    else if answer.None? then (c, Failure(GATEWAY_ERROR))
    else
      var row, payments := c.view.txns[i], answer.value;
      var k := FirstCapture(payments, row.amount);
      if k == |payments| then (c, Success(SettlementResult(ORDER_EXISTS, txnId, row.orderId, Some(row.amount))))
      else
        var c1 := Committed(c.(view := SettlementSet(c.view, txnId, SETTLED, None, payments[k].paymentId)));
        var entry := SettledEntry(txnId, row.orderId.value, payments[k].paymentId, true);
        (Logged(codec, c1, entry, eventId),
         if Loggable(codec, c1.view, entry, eventId)
         then Success(SettlementResult(ALREADY_SETTLED, txnId, row.orderId, Some(row.amount)))
         else Failure(LOG_HASH_TAKEN))
  }

  // ---- the programs ----

  method Settle(db: Database, txnId: string, client: RazorpayClient, codec: Codec, eventId: string)
    returns (r: Result<SettlementResult, Escape>)
    modifies db, client
    ensures var answer := client.orderAnswers(old(client.calls));
      && (db.State(), r) == Settled(codec, old(db.State()), txnId, answer, eventId)
      && client.created == old(client.created) +
           (if NeedsOrder(old(db.View()), txnId) && answer.Some?
            then [Order(txnId, old(db.txns)[ById(old(db.txns), txnId)].amount, answer.value)] else [])
  {
    hide ById;
    var i := ById(db.txns, txnId);
    if i == |db.txns| {
      return Success(SettlementResult(NOT_AUTHORIZED, txnId, None, None));
    }
    var row := db.txns[i];
    if row.decision != ALLOW {
      return Success(SettlementResult(NOT_AUTHORIZED, txnId, None, None));
    }
    if row.status == REVIEW_HOLD {
      return Success(SettlementResult(NOT_AUTHORIZED, txnId, None, Some(row.amount)));
    }
    if row.status == SETTLED {
      return Success(SettlementResult(ALREADY_SETTLED, txnId, row.orderId, Some(row.amount)));
    }
    if Truthy(row.orderId) {
      return Success(SettlementResult(ORDER_EXISTS, txnId, row.orderId, Some(row.amount)));
    }
    var order := client.CreateOrder(row.amount, txnId);
    if order.None? {
      return Failure(GATEWAY_ERROR);
    }
    db.SetTransactionSettlement(txnId, PENDING_SETTLEMENT, order, None);
    var ok := db.AppendEvent(codec, PendingEntry(txnId, order.value, row.amount), eventId);
    if !ok {
      return Failure(LOG_HASH_TAKEN);
    }
    return Success(SettlementResult(ORDER_CREATED, txnId, order, Some(row.amount)));
  }

  method Reconcile(db: Database, txnId: string, client: RazorpayClient, codec: Codec, eventId: string)
    returns (r: Result<SettlementResult, Escape>)
    modifies db, client
    ensures (db.State(), r)
         == Reconciled(codec, old(db.State()), txnId, client.paymentAnswers(old(client.calls)), eventId)
    ensures client.created == old(client.created)
  {
    hide ById, FirstCapture;
    var i := ById(db.txns, txnId);
    if i == |db.txns| || !Truthy(db.txns[i].orderId) {
      return Success(SettlementResult(NOT_AUTHORIZED, txnId, None, None));
    }
    var row := db.txns[i];
    if row.status == SETTLED {
      return Success(SettlementResult(ALREADY_SETTLED, txnId, row.orderId, Some(row.amount)));
    }
    var answer := client.OrderPayments(row.orderId.value);
    if answer.None? {
      return Failure(GATEWAY_ERROR);
    }
    var payments := answer.value;
    var n := 0;
    while n < |payments|
      invariant 0 <= n <= |payments|
      invariant forall k | 0 <= k < n :: !Captures(payments[k], row.amount)
      invariant db.State() == old(db.State()) && client.created == old(client.created)
    {
      var p := payments[n];
      if p.status == "captured" && p.amount.GetOr(-1) == row.amount {
        assert FirstCapture(payments, row.amount) == n;
        db.SetTransactionSettlement(txnId, SETTLED, None, p.paymentId);
        var ok := db.AppendEvent(codec, SettledEntry(txnId, row.orderId.value, p.paymentId, true), eventId);
        if !ok {
          return Failure(LOG_HASH_TAKEN);
        }
        return Success(SettlementResult(ALREADY_SETTLED, txnId, row.orderId, Some(row.amount)));
      }
      n := n + 1;
    }
    return Success(SettlementResult(ORDER_EXISTS, txnId, row.orderId, Some(row.amount)));
  }
}
