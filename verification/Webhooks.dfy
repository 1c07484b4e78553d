/** Webhook events, after their signature has been checked: state only moves
    forward, once, and only for the right order and the right amount. */
module Webhooks {
  import opened Models
  import opened Schema
  import opened Repository
  import opened Settlement

  /** The fields read from an event, each of which may be missing. */
  datatype WebhookEvent = WebhookEvent(
    etype: string, orderId: Option<string>, paymentId: Option<string>, amount: Option<int>)

  datatype Action = SETTLED_NOW | DUPLICATE_IGNORED | FAILED_NOW | UNKNOWN_ORDER | AMOUNT_MISMATCH

  datatype WebhookResult = WebhookResult(action: Action, txnId: Option<string>)

  predicate IsCapture(etype: string) {
    etype == "payment.captured" || etype == "order.paid"
  }

  /** What an event, taken on its own, says about a row of this amount. */
  datatype Meaning = CAPTURED | PAYMENT_FAILED | NOTHING

  function MeaningOf(ev: WebhookEvent, amount: int): Meaning {
    if IsCapture(ev.etype) && ev.amount == Some(amount) then CAPTURED
    else if ev.etype == "payment.failed" && (ev.amount.None? || ev.amount.value == amount) then PAYMENT_FAILED
    else NOTHING
  }

  function FailedEntry(txnId: string, orderId: string): Event {
    SettlementEvent(txnId, orderId, None, None, FAILED, false)
  }

  /** The row a status-changing event changes: an unsettled row of its order. */
  predicate Moves(t: Tables, ev: WebhookEvent) {
    Truthy(ev.orderId) &&
    var i := ByOrder(t.txns, ev.orderId.value);
    i < |t.txns| && t.txns[i].status != SETTLED && MeaningOf(ev, t.txns[i].amount) != NOTHING
  }

  /** The answer to an event that changes nothing. */
  function Ignored(t: Tables, ev: WebhookEvent): WebhookResult {
    if !Truthy(ev.orderId) || ByOrder(t.txns, ev.orderId.value) == |t.txns| then WebhookResult(UNKNOWN_ORDER, None)
    else
      var row := t.txns[ByOrder(t.txns, ev.orderId.value)];
      if ev.amount.Some? && ev.amount.value != row.amount then WebhookResult(AMOUNT_MISMATCH, Some(row.txnId))
      else if row.status == SETTLED && row.paymentId == ev.paymentId then
        WebhookResult(DUPLICATE_IGNORED, Some(row.txnId))
      else if IsCapture(ev.etype) then
        WebhookResult(if ev.amount.None? then AMOUNT_MISMATCH else DUPLICATE_IGNORED, Some(row.txnId))
      else if ev.etype == "payment.failed" then WebhookResult(FAILED_NOW, Some(row.txnId))
      else WebhookResult(UNKNOWN_ORDER, Some(row.txnId))
  }

  function Handled(codec: Codec, c: Conn, ev: WebhookEvent, eventId: string)
    : (Conn, Result<WebhookResult, Escape>)
  {
    if !Moves(c.view, ev) then (c, Success(Ignored(c.view, ev)))
    else
      var row := c.view.txns[ByOrder(c.view.txns, ev.orderId.value)];
      var captured := MeaningOf(ev, row.amount) == CAPTURED;
      var c1 := Committed(c.(view := SettlementSet(c.view, row.txnId, if captured then SETTLED else FAILED,
                                                   None, ev.paymentId)));
      var entry := if captured then SettledEntry(row.txnId, ev.orderId.value, ev.paymentId, false)
                   else FailedEntry(row.txnId, ev.orderId.value);
      (Logged(codec, c1, entry, eventId),
       if Loggable(codec, c1.view, entry, eventId)
       then Success(WebhookResult(if captured then SETTLED_NOW else FAILED_NOW, Some(row.txnId)))
       else Failure(LOG_HASH_TAKEN))
  }

  method HandleEvent(db: Database, ev: WebhookEvent, codec: Codec, eventId: string)
    returns (r: Result<WebhookResult, Escape>)
    modifies db
    ensures (db.State(), r) == Handled(codec, old(db.State()), ev, eventId)
  {
    hide ById, ByOrder, SettlementSet, Loggable, Logged;
    if !Truthy(ev.orderId) {
      return Success(WebhookResult(UNKNOWN_ORDER, None));
    }
    var i := ByOrder(db.txns, ev.orderId.value);
    if i == |db.txns| {
      return Success(WebhookResult(UNKNOWN_ORDER, None));
    }
    var row := db.txns[i];
    var txnId := row.txnId;

    if ev.amount.Some? && ev.amount.value != row.amount {
      return Success(WebhookResult(AMOUNT_MISMATCH, Some(txnId)));
    }
    if row.status == SETTLED && row.paymentId == ev.paymentId {
      return Success(WebhookResult(DUPLICATE_IGNORED, Some(txnId)));
    }
    if IsCapture(ev.etype) {
      if ev.amount.None? {
        return Success(WebhookResult(AMOUNT_MISMATCH, Some(txnId)));
      }
      if row.status == SETTLED {
        return Success(WebhookResult(DUPLICATE_IGNORED, Some(txnId)));
      }
      db.SetTransactionSettlement(txnId, SETTLED, None, ev.paymentId);
      var ok := db.AppendEvent(codec, SettledEntry(txnId, ev.orderId.value, ev.paymentId, false), eventId);
      if !ok {
        return Failure(LOG_HASH_TAKEN);
      }
      return Success(WebhookResult(SETTLED_NOW, Some(txnId)));
    }
    if ev.etype == "payment.failed" {
      if row.status != SETTLED {
        db.SetTransactionSettlement(txnId, FAILED, None, ev.paymentId);
        var ok := db.AppendEvent(codec, FailedEntry(txnId, ev.orderId.value), eventId);
        if !ok {
          return Failure(LOG_HASH_TAKEN);
        }
      }
      return Success(WebhookResult(FAILED_NOW, Some(txnId)));
    }
    return Success(WebhookResult(UNKNOWN_ORDER, Some(txnId)));
  }
}
