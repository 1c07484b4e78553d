/** What the answers of the settling calls tell about the row before and after them. */
module Answers {
  import opened Models
  import opened Schema
  import opened Service
  import opened Settlement
  import opened Webhooks
  import opened Runs

  /** The row with this transaction id, if there is one. */
  function RowById(t: Tables, txnId: string): Option<TxnRow> {
    if ById(t.txns, txnId) < |t.txns| then Some(t.txns[ById(t.txns, txnId)]) else None
  }

  function RowByOrder(t: Tables, orderId: Option<string>): Option<TxnRow> {
    if Truthy(orderId) && ByOrder(t.txns, orderId.value) < |t.txns|
    then Some(t.txns[ByOrder(t.txns, orderId.value)]) else None
  }

  lemma UpdatedRowFound(txns: seq<TxnRow>, i: nat, row: TxnRow)
    requires i < |txns| && ById(txns, txns[i].txnId) == i && row.txnId == txns[i].txnId
    ensures ById(txns[i := row], row.txnId) == i
  {
    assert txns[i := row][i] == row;
  }

  // ---- reconcile ----

  /** An answer of `reconcile` tells the state left behind: settled exactly when the row
      is settled after the call, still unpaid exactly when it has an order and is not,
      and nothing to reconcile exactly when there is no row or no order.  It carries the
      row's order id and amount.  An exception from the gateway leaves the row as it was. */
  lemma ReconcileAnswers(env: Env, c: Conn, txnId: string, payments: Option<seq<Payment>>, eventId: string)
    requires Inv(c)
    ensures var (c', r) := Reconciled(env.codec, c, txnId, payments, eventId);
      var row := RowById(c'.view, txnId);
      && (r.Success? ==>
            && r.value.txnId == txnId && r.value.status != ORDER_CREATED
            && (r.value.status == ALREADY_SETTLED <==> row.Some? && row.value.status == SETTLED)
            && (r.value.status == ORDER_EXISTS <==>
                  row.Some? && Truthy(row.value.orderId) && row.value.status != SETTLED)
            && (r.value.status == NOT_AUTHORIZED <==> row.None? || !Truthy(row.value.orderId))
            && (if r.value.status == NOT_AUTHORIZED then r.value.orderId == None && r.value.amount == None
                else r.value.orderId == row.value.orderId && r.value.amount == Some(row.value.amount)))
      && (r == Failure(GATEWAY_ERROR) ==> c' == c && payments.None?)
  {
    hide Loggable, EventRow, FirstCapture, RowOk;
    var i := ById(c.view.txns, txnId);
    if i < |c.view.txns| {
      assert RowOk(c.view, c.view.txns[i]);
      HasOrderWhenSettled(c.view, c.view.txns[i]);
      if Reconcilable(c.view, txnId) && payments.Some?
         && FirstCapture(payments.value, c.view.txns[i].amount) < |payments.value| {
        var pid := payments.value[FirstCapture(payments.value, c.view.txns[i].amount)].paymentId;
        UpdatedRowFound(c.view.txns, i, SettlementRow(c.view.txns[i], SETTLED, None, pid));
      }
    }
  }

  lemma HasOrderWhenSettled(t: Tables, row: TxnRow)
    requires RowOk(t, row)
    ensures row.status == SETTLED ==> Truthy(row.orderId) && row.decision == ALLOW
  {
  }

  // ---- settle ----

  /** An answer of `settle` tells the row: an order was created exactly when the row is
      allowed, not on hold, not settled and was without an order, and then it now waits
      for that order's payment; an order that exists, a row that is settled and a row that
      must not be settled are told exactly as they stand, unchanged.  An exception from
      the gateway leaves the row as it was. */
  lemma SettleAnswers(env: Env, c: Conn, txnId: string, answer: Option<string>, eventId: string)
    requires Inv(c)
    ensures var (c', r) := Settled(env.codec, c, txnId, answer, eventId);
      var before, after := RowById(c.view, txnId), RowById(c'.view, txnId);
      && (r.Success? ==>
            && r.value.txnId == txnId
            && (r.value.status == NOT_AUTHORIZED <==>
                  before.None? || before.value.decision != ALLOW || before.value.status == REVIEW_HOLD)
            && (r.value.status == ALREADY_SETTLED <==> after.Some? && after.value.status == SETTLED)
            && (r.value.status == ORDER_EXISTS <==>
                  before.Some? && Truthy(before.value.orderId) && before.value.status != SETTLED)
            && (r.value.status == ORDER_CREATED <==>
                  && before.Some? && before.value.decision == ALLOW && !Truthy(before.value.orderId)
                  && before.value.status != REVIEW_HOLD && before.value.status != SETTLED)
            && (if r.value.status == ORDER_CREATED
                then answer.Some?
                     && after == Some(before.value.(status := PENDING_SETTLEMENT, orderId := answer))
                else after == before && c' == c)
            && (if r.value.status == NOT_AUTHORIZED
                then r.value.orderId == None
                     && r.value.amount == (if before.Some? && before.value.decision == ALLOW
                                           then Some(before.value.amount) else None)
                else r.value.orderId == after.value.orderId && r.value.amount == Some(after.value.amount)))
      && (r == Failure(GATEWAY_ERROR) ==> c' == c && answer.None?)
  {
    hide Loggable, EventRow, RowOk;
    var i := ById(c.view.txns, txnId);
    if i < |c.view.txns| {
      assert RowOk(c.view, c.view.txns[i]);
      HasOrderWhenSettled(c.view, c.view.txns[i]);
      NoOrderMoreThanWaits(c.view, c.view.txns[i]);
      if NeedsOrder(c.view, txnId) && answer.Some? {
        UpdatedRowFound(c.view.txns, i, SettlementRow(c.view.txns[i], PENDING_SETTLEMENT, answer, None));
      }
    }
  }

  lemma NoOrderMoreThanWaits(t: Tables, row: TxnRow)
    requires RowOk(t, row)
    ensures row.orderId.Some? ==> row.decision == ALLOW && row.status != REVIEW_HOLD
  {
    assert row.decision != ALLOW ==> row.status == BLOCKED;
  }

  // ---- webhooks ----

  predicate SaysCaptured(ev: WebhookEvent) {
    ev.etype == "payment.captured" || ev.etype == "order.paid"
  }

  /** An answer to an event tells its row: settled now exactly when the event settled it;
      a duplicate only for a row that was and stays settled; a mismatch exactly for an
      amount that is not the row's, or for a capture without amount that is not the
      duplicate of a settled one; failed for a failure of this amount, which a settled row
      ignores; unknown without a row or for another kind of event. */
  lemma EventAnswers(env: Env, c: Conn, ev: WebhookEvent, eventId: string)
    requires Inv(c)
    ensures var (c', r) := Handled(env.codec, c, ev, eventId);
      var before := RowByOrder(c.view, ev.orderId);
      r.Success? ==>
        if before.None? then r.value == WebhookResult(UNKNOWN_ORDER, None) && c' == c
        else
          var row, other := before.value, ev.amount.Some? && ev.amount.value != before.value.amount;
          var known := row.status == SETTLED && row.paymentId == ev.paymentId;
          var after := RowById(c'.view, row.txnId);
          && r.value.txnId == Some(row.txnId) && after.Some?
          && (r.value.action == SETTLED_NOW <==> row.status != SETTLED && after.value.status == SETTLED)
          && (r.value.action == AMOUNT_MISMATCH <==> other || (SaysCaptured(ev) && ev.amount.None? && !known))
          && (r.value.action == DUPLICATE_IGNORED <==>
                row.status == SETTLED && !other && (known || (SaysCaptured(ev) && ev.amount.Some?)))
          && (r.value.action == FAILED_NOW <==> ev.etype == "payment.failed" && !other && !known)
          && (r.value.action == UNKNOWN_ORDER <==>
                !SaysCaptured(ev) && ev.etype != "payment.failed" && !other && !known)
          && (if r.value.action == SETTLED_NOW || (r.value.action == FAILED_NOW && row.status != SETTLED)
              then after.value == row.(status := if r.value.action == SETTLED_NOW then SETTLED else FAILED,
                                       paymentId := Named(ev.paymentId, row.paymentId))
              else c' == c && after == before)
  {
    hide Loggable, EventRow, RowOk, ById, ByOrder, SettledEntry, FailedEntry;
    if Truthy(ev.orderId) {
      var i := ByOrder(c.view.txns, ev.orderId.value);
      if i < |c.view.txns| {
        ByIdFound(c.view.txns, i);
        UpdatedRowFound(c.view.txns, i, SettlementRow(c.view.txns[i], SETTLED, None, ev.paymentId));
        UpdatedRowFound(c.view.txns, i, SettlementRow(c.view.txns[i], FAILED, None, ev.paymentId));
      }
    }
  }
}
