/** Orders created at the gateway over a run: what the guard on a stored order id
    achieves, and what it asks of the gateway's answers. */
module Orders {
  import opened Models
  import opened Schema
  import opened Service
  import opened Settlement
  import opened Webhooks
  import opened Runs
  import opened StatusGraph

  /** The order a call creates at the gateway, if any. */
  function NewOrders(c: Conn, step: Step): seq<Order> {
    if step.op.Settle? && NeedsOrder(c.view, step.op.txnId) && step.op.answer.Some?
    then [Order(step.op.txnId, c.view.txns[ById(c.view.txns, step.op.txnId)].amount, step.op.answer.value)]
    else []
  }

  /** Every order created over a run, in order. */
  function OrdersOf(env: Env, c: Conn, steps: seq<Step>): seq<Order> {
    if steps == [] then []
    else
      var before := steps[..|steps| - 1];
      OrdersOf(env, c, before) + NewOrders(Run(env, c, before), steps[|steps| - 1])
  }

  /** The row an order was created for: allowed, not on hold, of exactly its amount. */
  predicate Serves(row: TxnRow, o: Order) {
    row.txnId == o.txnId && row.orderId == Some(o.orderId) && row.amount == o.amount
    && row.decision == ALLOW && row.status != REVIEW_HOLD
  }

  /** The order a call creates is the one its effect writes into the row. */
  lemma NewOrdersTold(env: Env, c: Conn, step: Step)
    requires Inv(c)
    ensures var e := EffectOf(env, c, step);
      if step.op.Settle? && e.Updated?
      then |NewOrders(c, step)| == 1 && Serves(e.row, NewOrders(c, step)[0])
      else NewOrders(c, step) == []
  {
    hide Valid, ByOrder, FirstCapture;
    if step.op.Settle? && EffectOf(env, c, step).Updated? {
      UpdateFacts(env, c, step);
    }
  }

  /** No order of the run was created with an empty id. */
  predicate NonEmptyAnswers(env: Env, c: Conn, steps: seq<Step>) {
    forall n | 0 <= n < |OrdersOf(env, c, steps)| :: OrdersOf(env, c, steps)[n].orderId != ""
  }

  /** An order this call creates gets an id that no other row carries. */
  predicate UnusedAnswer(c: Conn, step: Step) {
    NewOrders(c, step) != [] ==>
      forall i | 0 <= i < |c.view.txns| && i != ById(c.view.txns, step.op.txnId) ::
        c.view.txns[i].orderId != step.op.answer
  }

  ghost predicate UnusedAnswers(env: Env, c: Conn, steps: seq<Step>) {
    forall n | 0 <= n < |steps| :: UnusedAnswer(Run(env, c, steps[..n]), steps[n])
  }

  predicate NoEmptyIds(txns: seq<TxnRow>) {
    forall i | 0 <= i < |txns| :: txns[i].orderId != Some("")
  }

  /** No order id is on two rows. */
  predicate DistinctOrders(txns: seq<TxnRow>) {
    forall i, j | 0 <= i < j < |txns| && txns[i].orderId.Some? :: txns[i].orderId != txns[j].orderId
  }

  /** Rows keep distinct order ids under a new row without one, and under an update
      if and only if the id it writes is on no other row. */
  lemma PatchKeepsDistinctIff(txns: seq<TxnRow>, e: Effect)
    requires DistinctOrders(txns) && (e.Updated? ==> e.i < |txns| && e.row.orderId.Some?)
    requires e.Added? ==> e.row.orderId.None?
    ensures DistinctOrders(Patch(txns, e)) <==>
      (e.Updated? ==> forall i | 0 <= i < |txns| && i != e.i :: txns[i].orderId != e.row.orderId)
  {
    if e.Updated? {
      var txns' := Patch(txns, e);
      assert txns'[e.i] == e.row;
      assert forall i | 0 <= i < |txns| && i != e.i :: txns'[i] == txns[i];
    }
  }

  lemma StepKeepsDistinctIff(env: Env, c: Conn, step: Step)
    requires Inv(c) && DistinctOrders(c.view.txns)
    ensures DistinctOrders(After(env, c, step).view.txns) <==> UnusedAnswer(c, step)
  {
    hide Apply, DistinctOrders, EffectOf, NewOrders, ById;
    StepEffect(env, c, step);
    NewOrdersTold(env, c, step);
    var e := EffectOf(env, c, step);
    if e.Added? {
      AddedFacts(env, c, step);
    } else if e.Updated? {
      UpdateFacts(env, c, step);
      ByIdFound(c.view.txns, e.i);
      if !step.op.Settle? {
        OwnIdIsDistinct(c.view.txns, e.i);
      }
    }
    PatchKeepsDistinctIff(c.view.txns, e);
  }

  lemma OwnIdIsDistinct(txns: seq<TxnRow>, i: nat)
    requires DistinctOrders(txns) && i < |txns| && txns[i].orderId.Some?
    ensures forall k | 0 <= k < |txns| && k != i :: txns[k].orderId != txns[i].orderId
  {
  }

  lemma {:induction false} RunKeepsDistinct(env: Env, c: Conn, steps: seq<Step>)
    requires Inv(c) && DistinctOrders(c.view.txns) && UnusedAnswers(env, c, steps)
    ensures DistinctOrders(Run(env, c, steps).view.txns)
  {
    hide UnusedAnswer, DistinctOrders;
    if steps != [] {
      var before := steps[..|steps| - 1];
      UnusedBefore(env, c, steps);
      RunKeepsDistinct(env, c, before);
      RunKeepsInv(env, c, before);
      StepKeepsDistinctIff(env, Run(env, c, before), steps[|steps| - 1]);
    }
  }

  lemma UnusedBefore(env: Env, c: Conn, steps: seq<Step>)
    requires UnusedAnswers(env, c, steps) && steps != []
    ensures UnusedAnswers(env, c, steps[..|steps| - 1])
    ensures UnusedAnswer(Run(env, c, steps[..|steps| - 1]), steps[|steps| - 1])
  {
    hide UnusedAnswer, Run;
    var before := steps[..|steps| - 1];
    forall n | 0 <= n < |before|
      ensures UnusedAnswer(Run(env, c, before[..n]), before[n])
    {
      assert before[..n] == steps[..n] && before[n] == steps[n];
    }
  }

  lemma {:induction false} RunKeepsNonEmpty(env: Env, c: Conn, steps: seq<Step>)
    requires Inv(c) && NoEmptyIds(c.view.txns) && NonEmptyAnswers(env, c, steps)
    ensures NoEmptyIds(Run(env, c, steps).view.txns)
  {
    hide Apply, EffectOf, NewOrders;
    if steps != [] {
      var before, last := steps[..|steps| - 1], steps[|steps| - 1];
      var c1 := Run(env, c, before);
      var orders := OrdersOf(env, c, before);
      assert forall n | 0 <= n < |orders| :: orders[n] == OrdersOf(env, c, steps)[n];
      assert forall n | 0 <= n < |NewOrders(c1, last)| ::
          NewOrders(c1, last)[n] == OrdersOf(env, c, steps)[|orders| + n];
      RunKeepsNonEmpty(env, c, before);
      RunKeepsInv(env, c, before);
      StepEffect(env, c1, last);
      if EffectOf(env, c1, last).Added? {
        AddedFacts(env, c1, last);
      } else if EffectOf(env, c1, last).Updated? {
        UpdateFacts(env, c1, last);
        NewOrdersTold(env, c1, last);
      }
    }
  }

  predicate Placed(txns: seq<TxnRow>, o: Order) {
    exists i | 0 <= i < |txns| :: Serves(txns[i], o)
  }

  predicate Accounted(row: TxnRow, orders: seq<Order>) {
    exists n | 0 <= n < |orders| :: Serves(row, orders[n])
  }

  /** Orders and rows with an order correspond one to one. */
  ghost predicate Matched(txns: seq<TxnRow>, orders: seq<Order>) {
    && (forall n | 0 <= n < |orders| :: Placed(txns, orders[n]))
    && (forall n, m | 0 <= n < m < |orders| :: orders[n].txnId != orders[m].txnId)
    && (forall i | 0 <= i < |txns| && txns[i].orderId.Some? ::
          Accounted(txns[i], orders))
  }

  /** The row keeps its order, or had none and has none. */
  predicate Carries(row: TxnRow, row': TxnRow) {
    row'.orderId == row.orderId &&
    (row.orderId.Some? ==> row'.txnId == row.txnId && row'.amount == row.amount && row'.decision == row.decision
                           && row'.status != REVIEW_HOLD)
  }

  lemma CarriedMatched(txns: seq<TxnRow>, txns': seq<TxnRow>, orders: seq<Order>)
    requires Matched(txns, orders) && |txns| <= |txns'|
    requires forall i | 0 <= i < |txns| :: Carries(txns[i], txns'[i])
    requires forall i | |txns| <= i < |txns'| :: txns'[i].orderId.None?
    ensures Matched(txns', orders)
  {
    forall n | 0 <= n < |orders|
      ensures Placed(txns', orders[n])
    {
      assert Placed(txns, orders[n]);
      var i :| 0 <= i < |txns| && Serves(txns[i], orders[n]);
      assert Carries(txns[i], txns'[i]);
      assert Serves(txns'[i], orders[n]);
    }
    forall i | 0 <= i < |txns'| && txns'[i].orderId.Some?
      ensures Accounted(txns'[i], orders)
    {
      assert Carries(txns[i], txns'[i]);
      assert Accounted(txns[i], orders);
      var n :| 0 <= n < |orders| && Serves(txns[i], orders[n]);
      assert Serves(txns'[i], orders[n]);
    }
  }

  lemma OrderedMatched(txns: seq<TxnRow>, orders: seq<Order>, i: nat, row: TxnRow, o: Order)
    requires Matched(txns, orders) && i < |txns| && txns[i].orderId.None?
    requires forall i, j | 0 <= i < j < |txns| :: txns[i].txnId != txns[j].txnId
    requires row.txnId == txns[i].txnId && Serves(row, o)
    ensures Matched(txns[i := row], orders + [o])
  {
    var txns', orders' := txns[i := row], orders + [o];
    forall n | 0 <= n < |orders'|
      ensures Placed(txns', orders'[n]) && (n < |orders| ==> orders[n].txnId != o.txnId)
    {
      if n < |orders| {
        assert Placed(txns, orders[n]);
        var k :| 0 <= k < |txns| && Serves(txns[k], orders[n]);
        assert k != i && Serves(txns'[k], orders'[n]);
      } else {
        assert Serves(txns'[i], orders'[n]);
      }
    }
    forall k | 0 <= k < |txns'| && txns'[k].orderId.Some?
      ensures Accounted(txns'[k], orders')
    {
      if k == i {
        assert Serves(txns'[k], orders'[|orders|]);
      } else {
        assert Accounted(txns[k], orders);
        var n :| 0 <= n < |orders| && Serves(txns[k], orders[n]);
        assert Serves(txns'[k], orders'[n]);
      }
    }
  }

  lemma StepKeepsMatched(env: Env, c: Conn, step: Step, orders: seq<Order>)
    requires Inv(c) && NoEmptyIds(c.view.txns) && Matched(c.view.txns, orders)
    ensures Matched(After(env, c, step).view.txns, orders + NewOrders(c, step))
  {
    hide Matched, Apply, LogAfter, EffectOf, NewOrders;
    StepEffect(env, c, step);
    NewOrdersTold(env, c, step);
    var e := EffectOf(env, c, step);
    var txns, txns' := c.view.txns, After(env, c, step).view.txns;
    if e.Updated? {
      UpdateFacts(env, c, step);
      assert RowOk(c.view, txns[e.i]);
    } else if e.Added? {
      AddedFacts(env, c, step);
    }
    if step.op.Settle? && e.Updated? {
      OrderedMatched(txns, orders, e.i, e.row, NewOrders(c, step)[0]);
      assert NewOrders(c, step) == [NewOrders(c, step)[0]];
    } else {
      assert orders + NewOrders(c, step) == orders;
      forall i | 0 <= i < |txns|
        ensures Carries(txns[i], txns'[i])
      {
        assert RowOk(c.view, txns[i]);
      }
      CarriedMatched(txns, txns', orders);
    }
  }

  lemma {:induction false} RunMatched(env: Env, steps: seq<Step>)
    requires NonEmptyAnswers(env, OPENED, steps)
    ensures Matched(Run(env, OPENED, steps).view.txns, OrdersOf(env, OPENED, steps))
  {
    if steps != [] {
      var before := steps[..|steps| - 1];
      var orders := OrdersOf(env, OPENED, before);
      assert forall n | 0 <= n < |orders| :: orders[n] == OrdersOf(env, OPENED, steps)[n];
      RunMatched(env, before);
      OpenedInv();
      RunKeepsInv(env, OPENED, before);
      RunKeepsNonEmpty(env, OPENED, before);
      StepKeepsMatched(env, Run(env, OPENED, before), steps[|steps| - 1], OrdersOf(env, OPENED, before));
    }
  }

  /** Never re-charge.  Over any run in which the gateway gives no empty order id,
      used ids or not, no transaction gets two orders; each order was created for
      exactly the authorized amount of a row that is allowed and not on hold, and
      every row with an order has exactly the one created for it. */
  lemma NeverRecharge(env: Env, steps: seq<Step>)
    requires NonEmptyAnswers(env, OPENED, steps)
    ensures var orders, txns := OrdersOf(env, OPENED, steps), Run(env, OPENED, steps).view.txns;
      && (forall n, m | 0 <= n < m < |orders| :: orders[n].txnId != orders[m].txnId)
      && (forall n | 0 <= n < |orders| :: Placed(txns, orders[n]))
      && (forall i | 0 <= i < |txns| && txns[i].orderId.Some? :: Accounted(txns[i], orders))
  {
    hide Run, OrdersOf;
    RunMatched(env, steps);
  }

  /** Every order id stays on one row throughout a run if and only if each order the
      run creates gets an id that no other row carries, empty ids or not. */
  lemma OneTransactionPerOrderIdIff(env: Env, steps: seq<Step>)
    ensures (forall n | 0 <= n <= |steps| :: DistinctOrders(Run(env, OPENED, steps[..n]).view.txns))
       <==> UnusedAnswers(env, OPENED, steps)
  {
    hide DistinctOrders, UnusedAnswer, Inv;
    forall n | 0 <= n <= |steps|
      ensures Inv(Run(env, OPENED, steps[..n]))
    {
      OpenedInv();
      RunKeepsInv(env, OPENED, steps[..n]);
    }
    if UnusedAnswers(env, OPENED, steps) {
      assert DistinctOrders(OPENED.view.txns) by { NoOrders(); }
      OpenedInv();
      forall n | 0 <= n <= |steps|
        ensures DistinctOrders(Run(env, OPENED, steps[..n]).view.txns)
      {
        UnusedUpTo(env, OPENED, steps, n);
        RunKeepsDistinct(env, OPENED, steps[..n]);
      }
    } else if forall n | 0 <= n <= |steps| :: DistinctOrders(Run(env, OPENED, steps[..n]).view.txns) {
      forall n | 0 <= n < |steps|
        ensures UnusedAnswer(Run(env, OPENED, steps[..n]), steps[n])
      {
        RunUnfolds(env, OPENED, steps, n);
        hide Run, After;
        StepKeepsDistinctIff(env, Run(env, OPENED, steps[..n]), steps[n]);
      }
    }
  }

  lemma NoOrders()
    ensures DistinctOrders(OPENED.view.txns)
  {
  }

  lemma UnusedUpTo(env: Env, c: Conn, steps: seq<Step>, n: nat)
    requires UnusedAnswers(env, c, steps) && n <= |steps|
    ensures UnusedAnswers(env, c, steps[..n])
  {
    hide UnusedAnswer, Run;
    forall k | 0 <= k < n
      ensures UnusedAnswer(Run(env, c, steps[..n][..k]), steps[..n][k])
    {
      assert steps[..n][..k] == steps[..k];
    }
  }

  /** With both, orders and transactions correspond one to one. */
  lemma OrdersAreDistinct(env: Env, steps: seq<Step>)
    requires NonEmptyAnswers(env, OPENED, steps) && UnusedAnswers(env, OPENED, steps)
    ensures var orders := OrdersOf(env, OPENED, steps);
      forall n, m | 0 <= n < m < |orders| ::
        orders[n].txnId != orders[m].txnId && orders[n].orderId != orders[m].orderId
  {
    hide Run, OrdersOf, UnusedAnswers;
    NeverRecharge(env, steps);
    OpenedInv();
    RunKeepsDistinct(env, OPENED, steps);
    var orders, txns := OrdersOf(env, OPENED, steps), Run(env, OPENED, steps).view.txns;
    forall n, m | 0 <= n < m < |orders|
      ensures orders[n].orderId != orders[m].orderId
    {
      assert Placed(txns, orders[n]) && Placed(txns, orders[m]);
      var i :| 0 <= i < |txns| && Serves(txns[i], orders[n]);
      var j :| 0 <= j < |txns| && Serves(txns[j], orders[m]);
      assert i != j;
    }
  }

  /** No later run creates another order for this transaction. */
  ghost predicate NeverOrderedAgain(env: Env, c: Conn, txnId: string) {
    forall later: seq<Step>, n: nat | n < |OrdersOf(env, c, later)| :: OrdersOf(env, c, later)[n].txnId != txnId
  }

  /** The guard of `settle` looks at the stored id's truth value, so one order is the
      only order, in every later run, if and only if the gateway's id is not empty. */
  lemma OrderedOnceIff(env: Env, c: Conn, txnId: string, answer: string, eventId: string)
    requires Inv(c) && NeedsOrder(c.view, txnId)
    ensures NewOrders(c, Step(Settle(txnId, Some(answer)), eventId)) != []
    ensures NeverOrderedAgain(env, After(env, c, Step(Settle(txnId, Some(answer)), eventId)), txnId)
       <==> answer != ""
  {
    var step := Step(Settle(txnId, Some(answer)), eventId);
    var c1, i := After(env, c, step), ById(c.view.txns, txnId);
    OrderStored(env, c, txnId, answer, eventId);
    hide After, NewOrders, NeedsOrder, Inv, ById;
    if answer == "" {
      EmptyOrderIdRecharges(env, c1, txnId);
    } else {
      forall later: seq<Step>, n: nat | n < |OrdersOf(env, c1, later)|
        ensures OrdersOf(env, c1, later)[n].txnId != txnId
      {
        NoFurtherOrder(env, c1, later, i, n);
      }
    }
  }

  lemma OrderStored(env: Env, c: Conn, txnId: string, answer: string, eventId: string)
    requires Inv(c) && NeedsOrder(c.view, txnId)
    ensures var step, i := Step(Settle(txnId, Some(answer)), eventId), ById(c.view.txns, txnId);
      var c1 := After(env, c, step);
      && NewOrders(c, step) != [] && Inv(c1) && i < |c1.view.txns|
      && c1.view.txns[i].txnId == txnId && c1.view.txns[i].orderId == Some(answer)
      && (answer == "" ==> NeedsOrder(c1.view, txnId))
  {
    hide Apply, LogAfter, PendingEntry;
    var step := Step(Settle(txnId, Some(answer)), eventId);
    StepEffect(env, c, step);
    StepKeepsInv(env, c, step);
    ByIdFound(After(env, c, step).view.txns, EffectOf(env, c, step).i);
  }

  /** The run that charges again after an empty order id: one more settle call. */
  lemma EmptyOrderIdRecharges(env: Env, c: Conn, txnId: string)
    requires NeedsOrder(c.view, txnId)
    ensures !NeverOrderedAgain(env, c, txnId)
  {
    var later := [Step(Settle(txnId, Some("again")), "")];
    assert later[..0] == [];
    assert OrdersOf(env, c, later) == NewOrders(c, later[0]);
    assert OrdersOf(env, c, later)[0].txnId == txnId;
  }

  lemma {:induction false} NoFurtherOrder(env: Env, c: Conn, later: seq<Step>, i: nat, n: nat)
    requires Inv(c) && i < |c.view.txns| && Truthy(c.view.txns[i].orderId) && n < |OrdersOf(env, c, later)|
    ensures OrdersOf(env, c, later)[n].txnId != c.view.txns[i].txnId
  {
    hide After;
    if later != [] {
      var before := later[..|later| - 1];
      if n < |OrdersOf(env, c, before)| {
        NoFurtherOrder(env, c, before, i, n);
      } else {
        RunFollowsGraph(env, c, before, i);
        RunKeepsInv(env, c, before);
        ByIdFound(Run(env, c, before).view.txns, i);
      }
    }
  }

  /** An event changes no row but one carrying the order it names. */
  lemma EventTouchesOnlyItsOrder(env: Env, c: Conn, ev: WebhookEvent, eventId: string, i: nat)
    requires Inv(c) && i < |c.view.txns|
    ensures var txns' := After(env, c, Step(Webhook(ev), eventId)).view.txns;
      |txns'| == |c.view.txns|
      && (txns'[i] != c.view.txns[i] ==> Truthy(ev.orderId) && c.view.txns[i].orderId == ev.orderId)
  {
    hide Apply, LogAfter, MeaningOf, ById, SettledEntry, FailedEntry;
    StepEffect(env, c, Step(Webhook(ev), eventId));
  }
}
