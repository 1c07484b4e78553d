/** Where settled money comes from: every stored row can be traced back through the
    run that produced it. */
module Money {
  import opened Models
  import opened Schema
  import opened Gate
  import opened Service
  import opened Settlement
  import opened Runs
  import opened StatusGraph
  import opened Orders

  /** The call that authorized a row: its amount is the price of the record shown
      at that moment and within the cap of the mandate presented, whose signature
      verifies under a key the service pins. */
  predicate AuthorizedBy(env: Env, step: Step, row: TxnRow) {
    step.op.Authorize? &&
    var call := step.op.call;
    var mandate := call.txn.mandate;
    && call.txn.txnId == row.txnId && call.txn.nonce == row.nonce
    && call.txn.idempotencyKey == row.idempotencyKey && mandate.mandateId == row.mandateId
    && call.offer.Some? && call.offer.value.active && call.offer.value.sku == row.sku
    && row.amount == call.offer.value.price
    && row.amount <= mandate.Body().maxAmount
    && call.offer.value.category in mandate.allowedCategories
    && mandate.agentId == row.agentId && call.at <= mandate.expiresAt
    && env.verifies(mandate.publicKey, mandate.Body(), mandate.signature)
    && (env.trustedIssuerKeys.Some? ==> mandate.publicKey in env.trustedIssuerKeys.value)
  }

  /** The call that got the row its order. */
  predicate OrderedBy(step: Step, row: TxnRow) {
    step.op.Settle? && step.op.txnId == row.txnId && step.op.answer.Some? && step.op.answer == row.orderId
  }

  /** The call that saw a capture of exactly the row's amount for its order, and left the
      row with the payment that capture names, or the former one if it names none. */
  predicate CapturedBy(step: Step, row: TxnRow, former: Option<string>) {
    match step.op
    case Webhook(ev) =>
      && ev.orderId == row.orderId && (ev.etype == "payment.captured" || ev.etype == "order.paid")
      && ev.amount == Some(row.amount) && row.paymentId == Named(ev.paymentId, former)
    case Reconcile(id, answer) =>
      && id == row.txnId && answer.Some?
      && exists n | 0 <= n < |answer.value| ::
           FirstCaptured(answer.value, n, row.amount) && row.paymentId == Named(answer.value[n].paymentId, former)
    case _ => false
  }

  /** The j-th call of the run authorized row i: the gate allowed it on the tables it
      found, and it added the row. */
  ghost predicate AuthorizedAt(env: Env, steps: seq<Step>, j: nat, i: nat, row: TxnRow) {
    && j < |steps| && AuthorizedBy(env, steps[j], row)
    && var t, t' := Run(env, OPENED, steps[..j]).view, Run(env, OPENED, steps[..j + 1]).view;
    && Decide(env, t, steps[j].op.call).decision == ALLOW
    && |t.txns| == i && |t'.txns| == i + 1 && t'.txns[i].txnId == row.txnId && t'.txns[i].decision == ALLOW
  }

  /** The m-th call of the run created the order of the row, for its amount. */
  ghost predicate OrderedAt(env: Env, steps: seq<Step>, m: nat, row: TxnRow) {
    && m < |steps| && row.orderId.Some? && OrderedBy(steps[m], row)
    && NewOrders(Run(env, OPENED, steps[..m]), steps[m]) == [Order(row.txnId, row.amount, row.orderId.value)]
  }

  /** The k-th call of the run saw the capture and settled row i. */
  ghost predicate CapturedAt(env: Env, steps: seq<Step>, k: nat, i: nat, row: TxnRow) {
    && k < |steps|
    && var txns, txns' := Run(env, OPENED, steps[..k]).view.txns, Run(env, OPENED, steps[..k + 1]).view.txns;
    && i < |txns| && i < |txns'| && txns[i].status != SETTLED && txns'[i].status == SETTLED
    && CapturedBy(steps[k], row, txns[i].paymentId)
  }

  /** Authorized, then ordered, then captured, as far as the row has come. */
  ghost predicate Story(env: Env, steps: seq<Step>, i: nat, row: TxnRow, j: nat, m: nat, k: nat) {
    && (row.decision == ALLOW ==> AuthorizedAt(env, steps, j, i, row))
    && (row.orderId.Some? ==> j < m && OrderedAt(env, steps, m, row))
    && (row.status == SETTLED ==> m < k && CapturedAt(env, steps, k, i, row))
  }

  /** Later calls, and how far the row has moved since, do not change what happened. */
  lemma AuthorizedStill(env: Env, steps: seq<Step>, last: Step, j: nat, i: nat, row: TxnRow, row': TxnRow)
    requires AuthorizedAt(env, steps, j, i, row) && SameAttempt(row, row')
    ensures AuthorizedAt(env, steps + [last], j, i, row')
  {
    hide Run, Decide;
    var all := steps + [last];
    assert all[..j] == steps[..j] && all[..j + 1] == steps[..j + 1] && all[j] == steps[j];
    assert AuthorizedBy(env, steps[j], row');
  }

  lemma OrderedStill(env: Env, steps: seq<Step>, last: Step, m: nat, row: TxnRow, row': TxnRow)
    requires OrderedAt(env, steps, m, row) && SameAttempt(row, row') && row'.orderId == row.orderId
    ensures OrderedAt(env, steps + [last], m, row')
  {
    hide Run, NewOrders;
    var all := steps + [last];
    assert all[..m] == steps[..m] && all[m] == steps[m];
  }

  lemma CapturedStill(env: Env, steps: seq<Step>, last: Step, k: nat, i: nat, row: TxnRow)
    requires CapturedAt(env, steps, k, i, row)
    ensures CapturedAt(env, steps + [last], k, i, row)
  {
    hide Run, CapturedBy;
    var all := steps + [last];
    assert all[..k] == steps[..k] && all[..k + 1] == steps[..k + 1] && all[k] == steps[k];
  }

  lemma StoryExtends(env: Env, steps: seq<Step>, last: Step, i: nat, row: TxnRow, j: nat, m: nat, k: nat)
    requires Story(env, steps, i, row, j, m, k)
    ensures Story(env, steps + [last], i, row, j, m, k)
  {
    hide AuthorizedAt, OrderedAt, CapturedAt;
    if row.decision == ALLOW { AuthorizedStill(env, steps, last, j, i, row, row); }
    if row.orderId.Some? { OrderedStill(env, steps, last, m, row, row); }
    if row.status == SETTLED { CapturedStill(env, steps, last, k, i, row); }
  }

  lemma AddedRowHasStory(env: Env, steps: seq<Step>, last: Step)
    requires var c := Run(env, OPENED, steps); Inv(c) && EffectOf(env, c, last).Added?
    ensures var c := Run(env, OPENED, steps);
      Story(env, steps + [last], |c.view.txns|, EffectOf(env, c, last).row, |steps|, 0, 0)
  {
    hide EffectOf, AuthorizedBy, Valid, Apply, LogAfter;
    var c, all := Run(env, OPENED, steps), steps + [last];
    var row := EffectOf(env, c, last).row;
    AddedFacts(env, c, last);
    StepEffect(env, c, last);
    assert all[|steps|] == last && all[..|steps|] == steps && all[..|steps| + 1] == all && all[..|all| - 1] == steps;
    if row.decision == ALLOW {
      AddedRowWasAllowed(env, c, last);
      assert Run(env, OPENED, all) == After(env, c, last);
    }
  }

  lemma AddedRowWasAllowed(env: Env, c: Conn, step: Step)
    requires Inv(c) && EffectOf(env, c, step).Added? && EffectOf(env, c, step).row.decision == ALLOW
    ensures Decide(env, c.view, step.op.call).decision == ALLOW && AuthorizedBy(env, step, EffectOf(env, c, step).row)
  {
    hide Valid, KeyAllowed;
    var call := step.op.call;
    VerdictCases(env.verifies, call.txn, call.offer, ContextOf(env, c.view, call));
  }

  lemma UpdatedRowHasStory(env: Env, steps: seq<Step>, last: Step, j: nat, m: nat, k: nat) returns (m': nat, k': nat)
    requires var c := Run(env, OPENED, steps); Inv(c) && EffectOf(env, c, last).Updated?
    requires var c := Run(env, OPENED, steps); var e := EffectOf(env, c, last);
      Story(env, steps, e.i, c.view.txns[e.i], j, m, k)
    ensures var c := Run(env, OPENED, steps); var e := EffectOf(env, c, last);
      Story(env, steps + [last], e.i, e.row, j, m', k')
  {
    hide EffectOf, CapturedBy, Valid, Apply, LogAfter;
    var c, all := Run(env, OPENED, steps), steps + [last];
    var e := EffectOf(env, c, last);
    var row := c.view.txns[e.i];
    assert all[|steps|] == last && all[..|steps|] == steps && all[..|steps| + 1] == all && all[..|all| - 1] == steps;
    UpdateFacts(env, c, last);
    AuthorizedStill(env, steps, last, j, e.i, row, e.row);
    m', k' := m, k;
    if last.op.Settle? {
      NewOrderIs(env, c, last);
      m' := |steps|;
    } else {
      OrderedStill(env, steps, last, m, row, e.row);
      if e.row.status == SETTLED {
        k' := |steps|;
        CaptureSeen(env, c, last);
        StepEffect(env, c, last);
        assert Run(env, OPENED, all) == After(env, c, last);
      }
    }
  }

  lemma NewOrderIs(env: Env, c: Conn, step: Step)
    requires Inv(c) && step.op.Settle? && EffectOf(env, c, step).Updated?
    ensures var row := EffectOf(env, c, step).row;
      row.orderId.Some? && NewOrders(c, step) == [Order(row.txnId, row.amount, row.orderId.value)]
  {
    hide Valid;
    NewOrdersTold(env, c, step);
    assert NewOrders(c, step) == [NewOrders(c, step)[0]];
  }

  lemma CaptureSeen(env: Env, c: Conn, step: Step)
    requires Inv(c) && EffectOf(env, c, step).Updated? && EffectOf(env, c, step).row.status == SETTLED
    ensures var e := EffectOf(env, c, step); CapturedBy(step, e.row, c.view.txns[e.i].paymentId)
  {
    hide EffectOf, Valid;
    UpdatesTellTheNews(env, c, step);
  }

  /** Every row of every reachable state has its story, each call of it judged in the
      state that call found. */
  lemma {:induction false} EveryRowHasStory(env: Env, steps: seq<Step>, i: nat) returns (j: nat, m: nat, k: nat)
    requires i < |Run(env, OPENED, steps).view.txns|
    ensures Story(env, steps, i, Run(env, OPENED, steps).view.txns[i], j, m, k)
  {
    hide Story, EffectOf, Apply, Inv, LogAfter;
    if steps != [] {
      var before, last := steps[..|steps| - 1], steps[|steps| - 1];
      var c := Run(env, OPENED, before);
      assert steps == before + [last];
      OpenedInv();
      RunKeepsInv(env, OPENED, before);
      StepEffect(env, c, last);
      var e := EffectOf(env, c, last);
      if e.Added? && i == |c.view.txns| {
        AddedRowHasStory(env, before, last);
        j, m, k := |before|, 0, 0;
      } else {
        j, m, k := EveryRowHasStory(env, before, i);
        if e.Updated? && i == e.i {
          m, k := UpdatedRowHasStory(env, before, last, j, m, k);
        } else {
          StoryExtends(env, before, last, i, c.view.txns[i], j, m, k);
        }
      }
    }
  }

  /** No signature verifies under a pinned key unless its holder signed that body. */
  ghost predicate Unforgeable(env: Env, issued: (string, SignedBody) -> bool) {
    env.trustedIssuerKeys.Some? &&
    forall pk, body, sig :: pk in env.trustedIssuerKeys.value && env.verifies(pk, body, sig) ==> issued(pk, body)
  }

  /** The money theorem.  In every reachable state of a pinned service a settled
      row was allowed and carries an order.  First a call, on which the gate said
      ALLOW, added it at the merchant's price under a mandate body that a pinned
      issuer had signed with a cap at least as high; then a call created its order,
      for that amount; then a call saw exactly that amount captured for that order
      and settled it, under the payment that the capture names. */
  lemma SettledMoneyIsBounded(env: Env, steps: seq<Step>, i: nat, issued: (string, SignedBody) -> bool)
    returns (j: nat, m: nat, k: nat)
    requires Unforgeable(env, issued)
    requires i < |Run(env, OPENED, steps).view.txns|
    requires Run(env, OPENED, steps).view.txns[i].status == SETTLED
    ensures var row := Run(env, OPENED, steps).view.txns[i];
      && row.decision == ALLOW && row.reason == OK && Truthy(row.orderId)
      && j < m < k < |steps|
      && AuthorizedAt(env, steps, j, i, row) && OrderedAt(env, steps, m, row) && CapturedAt(env, steps, k, i, row)
    ensures var call, row := steps[j].op.call, Run(env, OPENED, steps).view.txns[i];
      && row.amount == call.offer.value.price <= call.txn.mandate.Body().maxAmount
      && issued(call.txn.mandate.publicKey, call.txn.mandate.Body())
  {
    hide Run, Decide, NewOrders, CapturedBy, OrderedBy;
    var row := Run(env, OPENED, steps).view.txns[i];
    j, m, k := EveryRowHasStory(env, steps, i);
    OpenedInv();
    RunKeepsInv(env, OPENED, steps);
    assert RowOk(Run(env, OPENED, steps).view, row);
  }
}
