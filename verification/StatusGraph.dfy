/** Which way a stored row can move, in one call and over a whole run. */
module StatusGraph {
  import opened Models
  import opened Schema
  import opened Gate
  import opened Service
  import opened Settlement
  import opened Webhooks
  import opened Runs

  /** Identity, amount, nonce, key and verdict of a row never change. */
  predicate SameAttempt(r: TxnRow, r': TxnRow) {
    r' == r.(status := r'.status, orderId := r'.orderId, paymentId := r'.paymentId)
  }

  /** The edges of the status graph.  Staying in place but changing is possible in
      two ways only: a second failed payment renames the payment, and a gateway that
      handed out an empty order id is asked again. */
  predicate Edge(r: TxnRow, r': TxnRow) {
    SameAttempt(r, r') &&
    match (r.status, r'.status)
    case (AUTHORIZED, PENDING_SETTLEMENT) => r'.orderId.Some? && r'.paymentId == None
    case (PENDING_SETTLEMENT, PENDING_SETTLEMENT) => r.orderId == Some("") && r'.orderId.Some? && r'.paymentId == None
    case (PENDING_SETTLEMENT, FAILED) => r'.orderId == r.orderId
    case (PENDING_SETTLEMENT, SETTLED) => r'.orderId == r.orderId
    case (FAILED, FAILED) => r'.orderId == r.orderId
    case (FAILED, SETTLED) => r'.orderId == r.orderId
    case _ => false
  }

  /** One call leaves a row alone or moves it along one edge, and drops none. */
  lemma StepFollowsEdge(env: Env, c: Conn, step: Step, i: nat)
    requires Inv(c) && i < |c.view.txns|
    ensures var c' := After(env, c, step);
      |c.view.txns| <= |c'.view.txns|
      && (c'.view.txns[i] == c.view.txns[i] || Edge(c.view.txns[i], c'.view.txns[i]))
  {
    hide Apply, LogAfter, EffectOf;
    StepEffect(env, c, step);
    var e := EffectOf(env, c, step);
    assert RowOk(c.view, c.view.txns[i]);
    if e.Updated? {
      UpdateFacts(env, c, step);
    }
  }

  /** Not every event moves its row forward: it changes a row in place if and only if
      the row failed before, the event reports another failure for its order, and it
      names a payment the row does not carry. */
  lemma ChangedInPlaceIff(env: Env, c: Conn, ev: WebhookEvent, eventId: string, i: nat)
    requires Inv(c) && i < |c.view.txns|
    ensures var row, row' := c.view.txns[i], After(env, c, Step(Webhook(ev), eventId)).view.txns[i];
      (row' != row && row'.status == row.status) <==>
        && Truthy(ev.orderId) && ByOrder(c.view.txns, ev.orderId.value) == i
        && row.status == FAILED
        && ev.etype == "payment.failed" && (ev.amount.None? || ev.amount == Some(row.amount))
        && ev.paymentId.Some? && ev.paymentId != row.paymentId
  {
    hide Apply, LogAfter, ById, ByOrder, SettledEntry, FailedEntry;
    var step := Step(Webhook(ev), eventId);
    StepEffect(env, c, step);
    var e := EffectOf(env, c, step);
    assert RowOk(c.view, c.view.txns[i]);
    if e.Updated? {
      UpdateFacts(env, c, step);
    }
  }

  const FAILED_ROW := TxnRow("t", "m", "a", "s", "c", 5, MERCHANT_RECORD, "n", "k", ALLOW, OK, FAILED,
                             Some("order"), Some("first"))

  const AFTER_A_FAILURE := EMPTY.(
    agents := map["a" := false],
    mandates := map["m" := Mandate("m", "a", 10, ["c"], 0, 0, 9, "INR", "pk", "sig")],
    nonces := map["n" := "m"],
    txns := [FAILED_ROW])

  const SECOND_FAILURE := WebhookEvent("payment.failed", Some("order"), Some("second"), Some(5))

  lemma AfterAFailureInv()
    ensures Inv(Conn(AFTER_A_FAILURE, AFTER_A_FAILURE))
  {
    assert RowOk(AFTER_A_FAILURE, FAILED_ROW);
  }

  lemma SecondFailureEffect(env: Env, eventId: string)
    ensures EffectOf(env, Conn(AFTER_A_FAILURE, AFTER_A_FAILURE), Step(Webhook(SECOND_FAILURE), eventId))
         == Updated(0, FAILED_ROW.(paymentId := Some("second")), FailedEntry("t", "order"))
  {
    assert AFTER_A_FAILURE.txns[0] == FAILED_ROW;
    assert ByOrder(AFTER_A_FAILURE.txns, "order") == 0;
  }

  /** Such a second failure: only the payment id changes. */
  lemma SecondFailureExample(env: Env, eventId: string)
    ensures var c := Conn(AFTER_A_FAILURE, AFTER_A_FAILURE);
      Inv(c) && After(env, c, Step(Webhook(SECOND_FAILURE), eventId)).view.txns
                == [FAILED_ROW.(paymentId := Some("second"))]
  {
    hide Inv, Apply, EffectOf, LogAfter;
    AfterAFailureInv();
    SecondFailureEffect(env, eventId);
    StepEffect(env, Conn(AFTER_A_FAILURE, AFTER_A_FAILURE), Step(Webhook(SECOND_FAILURE), eventId));
    assert [FAILED_ROW][0 := FAILED_ROW.(paymentId := Some("second"))] == [FAILED_ROW.(paymentId := Some("second"))];
  }

  function Progress(s: Status): nat {
    match s
    case PENDING_SETTLEMENT => 1
    case FAILED => 2
    case SETTLED => 3
    case _ => 0
  }

  /** What remains of the graph over any number of calls. */
  predicate Reaches(r: TxnRow, r': TxnRow) {
    && SameAttempt(r, r')
    && Progress(r.status) <= Progress(r'.status)
    && (r.status == BLOCKED || r.status == REVIEW_HOLD || r.status == SETTLED ==> r' == r)
    && (r'.status == BLOCKED || r'.status == REVIEW_HOLD || r'.status == AUTHORIZED ==> r' == r)
    && (Truthy(r.orderId) ==> r'.orderId == r.orderId)
  }

  /** Over any run: blocked, held and settled rows are final, a settled row keeps
      its payment, an order once named is never exchanged, progress is never lost. */
  lemma {:induction false} RunFollowsGraph(env: Env, c: Conn, steps: seq<Step>, i: nat)
    requires Inv(c) && i < |c.view.txns|
    ensures var c' := Run(env, c, steps);
      |c.view.txns| <= |c'.view.txns| && Reaches(c.view.txns[i], c'.view.txns[i])
  {
    if steps != [] {
      var before := steps[..|steps| - 1];
      RunFollowsGraph(env, c, before, i);
      RunKeepsInv(env, c, before);
      StepFollowsEdge(env, Run(env, c, before), steps[|steps| - 1], i);
    }
  }

  /** The call ends with an approval that was stored. */
  predicate Buys(env: Env, c: Conn, call: AuthCall, eventId: string) {
    var r := Authorized(env, c, call, eventId).1;
    r.Success? && r.value.result.decision == ALLOW
  }

  /** After an approval, and whatever happens in between, no call with the same nonce
      or the same idempotency key is approved again. */
  lemma KeyBuysOnce(env: Env, c: Conn, first: AuthCall, e1: string, between: seq<Step>, second: AuthCall, e2: string)
    requires Inv(c) && Buys(env, c, first, e1)
    requires first.txn.nonce == second.txn.nonce || first.txn.idempotencyKey == second.txn.idempotencyKey
    ensures var later := Run(env, Authorized(env, c, first, e1).0, between);
      !Buys(env, later, second, e2)
      && Decide(env, later.view, second).decision == BLOCK
  {
    var c1 := Authorized(env, c, first, e1).0;
    var later := Run(env, c1, between);
    StoredApproval(env, c, first, e1);
    StepKeepsInv(env, c, Step(Authorize(first), e1));
    RunKeepsInv(env, c1, between);
    RunFollowsGraph(env, c1, between, |c.view.txns|);
    hide Run, Authorized, Valid, Verdict;
    var row := later.view.txns[|c.view.txns|];
    assert row.decision == ALLOW && row.nonce == first.txn.nonce && row.idempotencyKey == first.txn.idempotencyKey;
    NotApproved(env, later, second, e2, |c.view.txns|);
  }

  lemma StoredApproval(env: Env, c: Conn, call: AuthCall, eventId: string)
    requires Inv(c) && Buys(env, c, call, eventId)
    ensures var txns := Authorized(env, c, call, eventId).0.view.txns;
      |txns| == |c.view.txns| + 1
      && txns[|c.view.txns|].decision == ALLOW
      && txns[|c.view.txns|].nonce == call.txn.nonce && txns[|c.view.txns|].idempotencyKey == call.txn.idempotencyKey
  {
    hide Verdict, KeyAllowed, ById, Valid;
    OneAttemptOneRecord(env, c, call, eventId);
  }

  lemma NotApproved(env: Env, c: Conn, call: AuthCall, eventId: string, i: nat)
    requires Inv(c) && i < |c.view.txns| && c.view.txns[i].decision == ALLOW
    requires c.view.txns[i].nonce == call.txn.nonce || c.view.txns[i].idempotencyKey == call.txn.idempotencyKey
    ensures !Buys(env, c, call, eventId) && Decide(env, c.view, call).decision == BLOCK
  {
    assert RowOk(c.view, c.view.txns[i]);
    VerdictCases(env.verifies, call.txn, call.offer, ContextOf(env, c.view, call));
    OneAttemptOneRecord(env, c, call, eventId);
  }

  /** The hold of the risk signal, for an arbitrary signal: a new ALLOW row is stored
      as authorized exactly when the effective decision is ALLOW, and otherwise it
      is held, gains no order and does not settle in any later run. */
  lemma RiskHoldIsForEver(env: Env, c: Conn, call: AuthCall, eventId: string, later: seq<Step>)
    requires Inv(c)
    ensures var (c', r) := Authorized(env, c, call, eventId);
      var n := |c.view.txns|;
      r.Success? && r.value.result.decision == ALLOW ==>
        && n < |c'.view.txns| && n < |Run(env, c', later).view.txns|
        && (c'.view.txns[n].status == AUTHORIZED <==> r.value.effective == ALLOW)
        && (r.value.effective == ALLOW <==> call.risk.action == NORMAL)
        && (r.value.effective != ALLOW ==>
              var final := Run(env, c', later).view.txns[n];
              final == c'.view.txns[n] && final.status == REVIEW_HOLD && final.orderId == None)
  {
    hide Valid, Verdict, CommitPhase, Run, Clears, ById;
    var (c', r) := Authorized(env, c, call, eventId);
    if r.Success? && r.value.result.decision == ALLOW {
      OneAttemptOneRecord(env, c, call, eventId);
      RiskOnlyTightens(env.verifies, call.txn, call.offer, ContextOf(env, c.view, call), Some(call.risk));
      StepKeepsInv(env, c, Step(Authorize(call), eventId));
      RunFollowsGraph(env, c', later, |c.view.txns|);
    }
  }
}
