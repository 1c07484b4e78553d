/** Delivery order and duplication of payment news do not matter. */
module Delivery {
  import opened Models
  import opened Schema
  import opened Service
  import opened Settlement
  import opened Webhooks
  import opened Runs
  import opened StatusGraph
  import opened Orders

  /** pending_settlement < failed < settled */
  function Level(s: Status): nat {
    match s case FAILED => 1 case SETTLED => 2 case _ => 0
  }

  /** What one call implies for a row on its own, whatever came before. */
  function Implied(op: Op, row: TxnRow): nat {
    match op
    case Webhook(ev) =>
      if ev.orderId != row.orderId then 0
      else if (ev.etype == "payment.captured" || ev.etype == "order.paid") && ev.amount == Some(row.amount) then 2
      else if ev.etype == "payment.failed" && (ev.amount.None? || ev.amount == Some(row.amount)) then 1
      else 0
    case Reconcile(id, answer) =>
      if id == row.txnId && answer.Some? && exists n | 0 <= n < |answer.value| ::
           answer.value[n].status == "captured" && answer.value[n].amount == Some(row.amount)
      then 2 else 0
    case _ => 0
  }

  function Strongest(steps: seq<Step>, row: TxnRow): (m: nat) {
    if steps == [] then 0
    else Max(Strongest(steps[..|steps| - 1], row), Implied(steps[|steps| - 1].op, row))
  }

  /** A call that changes a row with an order raises it to what the call implies; a
      call that does not change it implies nothing above where it stands. */
  ghost predicate TakesMaximum(env: Env, c: Conn, step: Step, i: nat)
    requires i < |c.view.txns|
  {
    var row, e := c.view.txns[i], EffectOf(env, c, step);
    if e.Updated? && e.i == i then Level(e.row.status) == Max(Level(row.status), Implied(step.op, row))
    else Implied(step.op, row) <= Level(row.status)
  }

  lemma WebhookTakesMaximum(env: Env, c: Conn, step: Step, i: nat)
    requires DistinctOrders(c.view.txns) && step.op.Webhook?
    requires i < |c.view.txns| && Truthy(c.view.txns[i].orderId) && RowOk(c.view, c.view.txns[i])
    ensures TakesMaximum(env, c, step, i)
  {
    hide ById, SettledEntry, FailedEntry, RowOk;
    assert ByOrder(c.view.txns, c.view.txns[i].orderId.value) == i;
  }

  lemma CaptureShownIff(payments: seq<Payment>, amount: int)
    requires amount >= 0
    ensures FirstCapture(payments, amount) < |payments| <==>
      exists n | 0 <= n < |payments| :: payments[n].status == "captured" && payments[n].amount == Some(amount)
  {
    var k := FirstCapture(payments, amount);
    if n :| 0 <= n < |payments| && payments[n].status == "captured" && payments[n].amount == Some(amount) {
      assert Captures(payments[n], amount);
    } else if k < |payments| {
      assert Captures(payments[k], amount);
    }
  }

  lemma ReconcileTakesMaximum(env: Env, c: Conn, step: Step, i: nat)
    requires Inv(c) && step.op.Reconcile?
    requires i < |c.view.txns| && Truthy(c.view.txns[i].orderId)
    ensures TakesMaximum(env, c, step, i)
  {
    hide ById, SettledEntry;
    ByIdFound(c.view.txns, i);
    assert RowOk(c.view, c.view.txns[i]);
    if step.op.payments.Some? {
      CaptureShownIff(step.op.payments.value, c.view.txns[i].amount);
    }
  }

  lemma OthersTakeMaximum(env: Env, c: Conn, step: Step, i: nat)
    requires Inv(c) && !step.op.Webhook? && !step.op.Reconcile?
    requires i < |c.view.txns| && Truthy(c.view.txns[i].orderId)
    ensures TakesMaximum(env, c, step, i)
  {
    hide ById, CommitPhase, Decide, RowOk, PendingEntry, RowOf, StatusFor, AuthorizationEntry;
  }

  lemma UpdateTakesMaximum(env: Env, c: Conn, step: Step, i: nat)
    requires Inv(c) && DistinctOrders(c.view.txns)
    requires i < |c.view.txns| && Truthy(c.view.txns[i].orderId)
    ensures TakesMaximum(env, c, step, i)
  {
    hide TakesMaximum, DistinctOrders, RowOk;
    assert RowOk(c.view, c.view.txns[i]);
    match step.op
    case Webhook(_) => WebhookTakesMaximum(env, c, step, i);
    case Reconcile(_, _) => ReconcileTakesMaximum(env, c, step, i);
    case _ => OthersTakeMaximum(env, c, step, i);
  }

  lemma StepTakesMaximum(env: Env, c: Conn, step: Step, i: nat)
    requires Inv(c) && DistinctOrders(c.view.txns)
    requires i < |c.view.txns| && Truthy(c.view.txns[i].orderId)
    ensures var row := c.view.txns[i];
      i < |After(env, c, step).view.txns|
      && Level(After(env, c, step).view.txns[i].status) == Max(Level(row.status), Implied(step.op, row))
  {
    hide Inv, EffectOf, Implied, Apply, LogAfter;
    StepEffect(env, c, step);
    UpdateTakesMaximum(env, c, step, i);
  }

  /** After any run, whatever calls are mixed in, the status of a row with an order
      is the maximum of where it stood and what each call implies alone. */
  lemma {:induction false} StatusIsMaximum(env: Env, c: Conn, steps: seq<Step>, i: nat)
    requires Inv(c) && DistinctOrders(c.view.txns) && UnusedAnswers(env, c, steps)
    requires i < |c.view.txns| && Truthy(c.view.txns[i].orderId)
    ensures var row := c.view.txns[i];
      i < |Run(env, c, steps).view.txns|
      && HasOrder(Run(env, c, steps).view.txns[i].status)
      && Level(Run(env, c, steps).view.txns[i].status) == Max(Level(row.status), Strongest(steps, row))
  {
    hide UnusedAnswers, DistinctOrders, After;
    assert RowOk(c.view, c.view.txns[i]);
    if steps != [] {
      var before, last := steps[..|steps| - 1], steps[|steps| - 1];
      var mid := Run(env, c, before);
      UnusedBefore(env, c, steps);
      StatusIsMaximum(env, c, before, i);
      RunKeepsInv(env, c, before);
      RunKeepsDistinct(env, c, before);
      RunFollowsGraph(env, c, before, i);
      assert Implied(last.op, mid.view.txns[i]) == Implied(last.op, c.view.txns[i]);
      StepTakesMaximum(env, mid, last, i);
      RunFollowsGraph(env, c, steps, i);
      RunKeepsInv(env, c, steps);
      assert RowOk(Run(env, c, steps).view, Run(env, c, steps).view.txns[i]);
    }
  }

  /** The payment news in a run, without order or multiplicity. */
  function News(steps: seq<Step>): set<Op> {
    set s | s in steps && (s.op.Webhook? || s.op.Reconcile?) :: s.op
  }

  lemma {:induction false} StrongestIsAttained(steps: seq<Step>, row: TxnRow)
    ensures Strongest(steps, row) > 0 ==>
      exists op :: op in News(steps) && Implied(op, row) == Strongest(steps, row)
    ensures forall op | op in News(steps) :: Implied(op, row) <= Strongest(steps, row)
  {
    if steps != [] {
      var before, last := steps[..|steps| - 1], steps[|steps| - 1];
      assert steps == before + [last];
      StrongestIsAttained(before, row);
      forall op | op in News(steps)
        ensures Implied(op, row) <= Strongest(steps, row)
      {
        assert op in News(before) || op == last.op;
      }
      if Strongest(steps, row) > 0 {
        if Implied(last.op, row) == Strongest(steps, row) {
          assert last.op in News(steps);
        } else {
          var op :| op in News(before) && Implied(op, row) == Strongest(before, row);
          assert op in News(steps);
        }
      }
    }
  }

  /** Two runs that bring the same news, in any order and any number of times,
      leave the same status. */
  lemma SameNewsSameStatus(env: Env, c: Conn, steps: seq<Step>, other: seq<Step>, i: nat)
    requires Inv(c) && DistinctOrders(c.view.txns)
    requires UnusedAnswers(env, c, steps) && UnusedAnswers(env, c, other)
    requires i < |c.view.txns| && Truthy(c.view.txns[i].orderId)
    requires News(steps) == News(other)
    ensures i < |Run(env, c, steps).view.txns| && i < |Run(env, c, other).view.txns|
    ensures Run(env, c, steps).view.txns[i].status == Run(env, c, other).view.txns[i].status
  {
    var row := c.view.txns[i];
    StatusIsMaximum(env, c, steps, i);
    StatusIsMaximum(env, c, other, i);
    StrongestIsAttained(steps, row);
    StrongestIsAttained(other, row);
  }
}
