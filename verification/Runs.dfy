/** Runs: any sequence of calls, with the clock, the risk signal, the gateway and
    every random id left arbitrary, and the invariant all of them keep. */
module Runs {
  import opened Models
  import opened AuditLog
  import opened Schema
  import opened Gate
  import opened Service
  import opened Settlement
  import opened Webhooks

  /** One call, with the answers the outside world gives to it. */
  datatype Op =
    | RegisterAgent(agentId: string)
    | SetFrozen(agentId: string, frozen: bool)
    | SaveMandate(mandate: Mandate)
    | Authorize(call: AuthCall)
    | Settle(txnId: string, answer: Option<string>)
    | Reconcile(txnId: string, payments: Option<seq<Payment>>)
    | Webhook(event: WebhookEvent)

  /** A call and the random event id its log entry gets, if it writes one. */
  datatype Step = Step(op: Op, eventId: string)

  function ErrorOf<T>(r: Result<T, Escape>): Option<Escape> {
    match r case Success(_) => None case Failure(e) => Some(e)
  }

  /** The connection a call leaves behind, and the exception it ends with, if any. */
  function Apply(env: Env, c: Conn, step: Step): (Conn, Option<Escape>) {
    match step.op
    case RegisterAgent(a) => (AgentRegistered(c, a), None)
    case SetFrozen(a, f) => (AgentFrozenSet(c, a, f), None)
    case SaveMandate(m) =>
      (MandateSaved(c, m), if MandateStorable(c.view, m) then None else Some(INTEGRITY_ERROR))
    case Authorize(call) =>
      var (c', r) := Authorized(env, c, call, step.eventId);
      (c', ErrorOf(r))
    case Settle(id, answer) =>
      var (c', r) := Settled(env.codec, c, id, answer, step.eventId);
      (c', ErrorOf(r))
    case Reconcile(id, payments) =>
      var (c', r) := Reconciled(env.codec, c, id, payments, step.eventId);
      (c', ErrorOf(r))
    case Webhook(ev) =>
      var (c', r) := Handled(env.codec, c, ev, step.eventId);
      (c', ErrorOf(r))
  }

  function After(env: Env, c: Conn, step: Step): Conn {
    Apply(env, c, step).0
  }

  function Run(env: Env, c: Conn, steps: seq<Step>): Conn {
    if steps == [] then c
    else After(env, Run(env, c, steps[..|steps| - 1]), steps[|steps| - 1])
  }

  // ---- the invariant ----

  predicate HasOrder(s: Status) {
    s == PENDING_SETTLEMENT || s == FAILED || s == SETTLED
  }

  /** What every stored row looks like. */
  predicate RowOk(t: Tables, row: TxnRow) {
    && row.amount >= 0 && row.mandateId in t.mandates && row.agentId in t.agents
    && (row.decision == ALLOW ==> row.nonce in t.nonces && row.reason == OK && row.status != BLOCKED)
    && (row.decision != ALLOW ==> row.decision == BLOCK && row.reason != OK && row.status == BLOCKED)
    && (row.orderId.Some? <==> HasOrder(row.status))
    && (row.paymentId.Some? ==> row.status == FAILED || row.status == SETTLED)
    && (row.status == FAILED || row.status == SETTLED ==> Truthy(row.orderId))
  }

  ghost predicate Valid(t: Tables) {
    && (forall i | 0 <= i < |t.txns| :: RowOk(t, t.txns[i]))
    && (forall i, j | 0 <= i < j < |t.txns| :: t.txns[i].txnId != t.txns[j].txnId)
    && (forall i, j | 0 <= i < j < |t.txns| && t.txns[i].decision == ALLOW && t.txns[j].decision == ALLOW ::
          t.txns[i].nonce != t.txns[j].nonce && t.txns[i].idempotencyKey != t.txns[j].idempotencyKey)
  }

  /** Between calls only reserved nonces can be pending on the connection. */
  ghost predicate Inv(c: Conn) {
    Valid(c.view) && Valid(c.saved) && OnlyNoncesPending(c)
  }

  // ---- what one call does to rows and log ----

  datatype Effect =
    | Unchanged
    | Added(row: TxnRow, entry: Event)
    | Updated(i: nat, row: TxnRow, entry: Event)

  function Patch(txns: seq<TxnRow>, e: Effect): seq<TxnRow>
    requires e.Updated? ==> e.i < |txns|
  {
    match e
    case Unchanged => txns
    case Added(row, _) => txns + [row]
    case Updated(i, row, _) => txns[i := row]
  }

  function EffectOf(env: Env, c: Conn, step: Step): (e: Effect)
    ensures e.Updated? ==> e.i < |c.view.txns|
  {
    var t := c.view;
    match step.op
    case Authorize(call) =>
      var gate := Decide(env, t, call);
      (match CommitPhase(c, call, gate)
       case Escaped(_, _) => Unchanged
       case Recorded(_, result, persisted) =>
         Added(RowOf(call.txn, result, if persisted then StatusFor(gate, call.risk) else BLOCKED),
               AuthorizationEntry(call, result)))
    case Settle(id, answer) =>
      if NeedsOrder(t, id) && answer.Some? then
        var i := ById(t.txns, id);
        Updated(i, SettlementRow(t.txns[i], PENDING_SETTLEMENT, answer, None),
                PendingEntry(id, answer.value, t.txns[i].amount))
      else Unchanged
    case Reconcile(id, payments) =>
      var i := ById(t.txns, id);
      if Reconcilable(t, id) && ShowsCapture(payments, t.txns[i].amount) then
        var pid := payments.value[FirstCapture(payments.value, t.txns[i].amount)].paymentId;
        Updated(i, SettlementRow(t.txns[i], SETTLED, None, pid),
                SettledEntry(id, t.txns[i].orderId.value, pid, true))
      else Unchanged
    case Webhook(ev) =>
      if Moves(t, ev) then
        var i := ByOrder(t.txns, ev.orderId.value);
        var row := t.txns[i];
        if MeaningOf(ev, row.amount) == CAPTURED then
          Updated(i, SettlementRow(row, SETTLED, None, ev.paymentId),
                  SettledEntry(row.txnId, ev.orderId.value, ev.paymentId, false))
        else
          Updated(i, SettlementRow(row, FAILED, None, ev.paymentId), FailedEntry(row.txnId, ev.orderId.value))
      else Unchanged
    case _ => Unchanged
  }

  function LogAfter(codec: Codec, log: seq<AuditRow>, e: Effect, eventId: string): seq<AuditRow> {
    if e.Unchanged? || HashTaken(log, EventRow(codec, log, e.entry, eventId).entryHash) then log
    else log + [EventRow(codec, log, e.entry, eventId)]
  }

  lemma ByIdFound(txns: seq<TxnRow>, i: nat)
    requires i < |txns|
    requires forall i, j | 0 <= i < j < |txns| :: txns[i].txnId != txns[j].txnId
    ensures ById(txns, txns[i].txnId) == i
  {
    var k := ById(txns, txns[i].txnId);
  }

  ghost predicate EffectTold(env: Env, c: Conn, step: Step) {
    var c', e := After(env, c, step), EffectOf(env, c, step);
    && c'.view.txns == Patch(c.view.txns, e)
    && c'.view.log == LogAfter(env.codec, c.view.log, e, step.eventId)
    && (Apply(env, c, step).1 == Some(LOG_HASH_TAKEN) <==>
          !e.Unchanged? && HashTaken(c.view.log, EventRow(env.codec, c.view.log, e.entry, step.eventId).entryHash))
  }

  lemma PhaseEffect(c: Conn, call: AuthCall, gate: GateResult)
    requires OnlyNoncesPending(c)
    ensures var phase := CommitPhase(c, call, gate);
      && (phase.Escaped? ==> phase.escape != LOG_HASH_TAKEN)
      && phase.conn.view.log == c.view.log
      && phase.conn.view.txns ==
           if phase.Escaped? then c.view.txns
           else c.view.txns + [RowOf(call.txn, phase.result,
                                     if phase.persisted then StatusFor(gate, call.risk) else BLOCKED)]
  {
    hide ById, NonceInsertable, TxnInsertError, StatusFor;
  }

  lemma AuthorizeEffect(env: Env, c: Conn, step: Step)
    requires Inv(c) && step.op.Authorize?
    ensures EffectTold(env, c, step)
  {
    hide Decide, HashTaken, NextRow, Valid, ReceiptOf, CommitPhase, StatusFor, RowOf;
    PhaseEffect(c, step.op.call, Decide(env, c.view, step.op.call));
  }

  lemma SettleEffect(env: Env, c: Conn, step: Step)
    requires Inv(c) && step.op.Settle?
    ensures EffectTold(env, c, step)
  {
    hide ById, HashTaken, NextRow;
  }

  lemma ReconcileEffect(env: Env, c: Conn, step: Step)
    requires Inv(c) && step.op.Reconcile?
    ensures EffectTold(env, c, step)
  {
    hide ById, HashTaken, NextRow, FirstCapture;
  }

  lemma WebhookEffect(env: Env, c: Conn, step: Step)
    requires Inv(c) && step.op.Webhook?
    ensures EffectTold(env, c, step)
  {
    hide ById, HashTaken, NextRow, ByOrder, MeaningOf, RowOk, SettledEntry, FailedEntry;
    if Moves(c.view, step.op.event) {
      ByIdFound(c.view.txns, ByOrder(c.view.txns, step.op.event.orderId.value));
    }
  }

  /** Rows and log change by the effect of the call and by nothing else. */
  lemma StepEffect(env: Env, c: Conn, step: Step)
    requires Inv(c)
    ensures EffectTold(env, c, step)
  {
    match step.op
    case Authorize(_) => AuthorizeEffect(env, c, step);
    case Settle(_, _) => SettleEffect(env, c, step);
    case Reconcile(_, _) => ReconcileEffect(env, c, step);
    case Webhook(_) => WebhookEffect(env, c, step);
    case _ =>
  }

  // ---- every call keeps the invariant ----

  lemma AddedRowKeepsValid(t: Tables, row: TxnRow)
    requires Valid(t) && RowOk(t, row)
    requires ById(t.txns, row.txnId) == |t.txns|
    requires row.decision == ALLOW ==>
      !KeyAllowed(t.txns, row.idempotencyKey)
      && forall i | 0 <= i < |t.txns| :: t.txns[i].decision == ALLOW ==> t.txns[i].nonce != row.nonce
    ensures Valid(AddTxn(t, row))
  {
    var t' := AddTxn(t, row);
    forall i | 0 <= i < |t'.txns|
      ensures RowOk(t', t'.txns[i])
    {
      assert i < |t.txns| ==> RowOk(t, t.txns[i]);
    }
  }

  lemma BlockedKeepsInv(c: Conn, call: AuthCall, result: GateResult)
    requires Inv(c) && result.decision == BLOCK && result.reason != OK
    ensures Inv(RecordBlocked(c, call, result).conn)
  {
    var row := RowOf(call.txn, result, BLOCKED);
    if TxnInsertError(c.view, row).None? {
      AddedRowKeepsValid(c.view, row);
    }
  }

  lemma AttemptKeepsInv(c: Conn, call: AuthCall, gate: GateResult)
    requires Inv(c) && gate.decision == ALLOW && gate.reason == OK
    ensures Inv(TryCommit(c, call, gate).conn)
  {
    if NonceInsertable(c.view, call.txn.nonce, call.txn.mandate.mandateId) {
      var reserved := AddNonce(c.view, call.txn.nonce, call.txn.mandate.mandateId);
      var row := RowOf(call.txn, gate, StatusFor(gate, call.risk));
      assert Valid(reserved) by {
        forall i | 0 <= i < |reserved.txns|
          ensures RowOk(reserved, reserved.txns[i])
        {
          assert RowOk(c.view, c.view.txns[i]);
        }
      }
      if TxnInsertError(reserved, row).None? {
        forall i | 0 <= i < |reserved.txns|
          ensures reserved.txns[i].decision == ALLOW ==> reserved.txns[i].nonce != row.nonce
        {
          assert RowOk(c.view, c.view.txns[i]);
        }
        AddedRowKeepsValid(reserved, row);
      }
    }
  }

  /** The commit phase keeps the invariant whatever the gate's result rests on. */
  lemma PhaseKeepsInv(c: Conn, call: AuthCall, gate: GateResult)
    requires Inv(c)
    requires (gate.decision == ALLOW && gate.reason == OK) || (gate.decision == BLOCK && gate.reason != OK)
    ensures Inv(CommitPhase(c, call, gate).conn)
  {
    if gate.decision != ALLOW {
      BlockedKeepsInv(c, call, gate);
    } else {
      AttemptKeepsInv(c, call, gate);
      match TryCommit(c, call, gate)
      case Refused(c1, result) => BlockedKeepsInv(c1, call, result);
      case _ =>
    }
  }

  /** Receipts and log entries do not enter the invariant, nor do more agents or
      mandates disturb it. */
  lemma GrowthKeepsValid(t: Tables, t': Tables)
    requires Valid(t) && t'.txns == t.txns && t'.nonces == t.nonces
    requires t.agents.Keys <= t'.agents.Keys && t.mandates.Keys <= t'.mandates.Keys
    ensures Valid(t')
  {
    forall i | 0 <= i < |t'.txns|
      ensures RowOk(t', t'.txns[i])
    {
      assert RowOk(t, t.txns[i]);
    }
  }

  lemma FinishKeepsInv(env: Env, phase: Phase, call: AuthCall, eventId: string)
    requires Inv(phase.conn)
    ensures Inv(Finished(env, phase, call, eventId).0)
  {
    var c' := Finished(env, phase, call, eventId).0;
    if phase.Recorded? {
      GrowthKeepsValid(phase.conn.view, c'.view);
    }
  }

  /** The row a settling call writes: same identity, amount and verdict, and a
      status one step further on. */
  lemma UpdateFacts(env: Env, c: Conn, step: Step)
    requires Inv(c) && EffectOf(env, c, step).Updated?
    ensures var e := EffectOf(env, c, step);
      var row := c.view.txns[e.i];
      && RowOk(c.view, e.row)
      && row.decision == ALLOW && row.status != REVIEW_HOLD && row.status != SETTLED
      && e.row == row.(status := e.row.status, orderId := e.row.orderId, paymentId := e.row.paymentId)
      && (if step.op.Settle? then
            && !Truthy(row.orderId) && (row.status == AUTHORIZED || row.status == PENDING_SETTLEMENT)
            && row.txnId == step.op.txnId && step.op.answer.Some?
            && e.row.status == PENDING_SETTLEMENT && e.row.orderId == step.op.answer && e.row.paymentId == row.paymentId
          else
            && (row.status == PENDING_SETTLEMENT || row.status == FAILED) && Truthy(row.orderId)
            && (e.row.status == FAILED || e.row.status == SETTLED) && e.row.orderId == row.orderId
            && (step.op.Reconcile? || step.op.Webhook?))
  {
    var e := EffectOf(env, c, step);
    assert RowOk(c.view, c.view.txns[e.i]);
  }

  /** The id of the payment a piece of news names, or the one on file when it names none. */
  function Named(news: Option<string>, onFile: Option<string>): Option<string> {
    if news.Some? then news else onFile
  }

  /** What moves a row, in the terms of the news itself: the status, order and payment the
      row is left with, and the entry that goes to the log. */
  predicate MovedBy(op: Op, row: TxnRow, row': TxnRow, entry: Event) {
    match op
    case Settle(id, answer) =>
      && id == row.txnId && answer.Some?
      && row' == row.(status := PENDING_SETTLEMENT, orderId := answer)
      && entry == SettlementEvent(id, answer.value, None, Some(row.amount), PENDING_SETTLEMENT, false)
    case Reconcile(id, answer) =>
      && id == row.txnId && answer.Some? && row.orderId.Some?
      && exists n | 0 <= n < |answer.value| ::
           && FirstCaptured(answer.value, n, row.amount)
           && var pid := answer.value[n].paymentId;
           && row' == row.(status := SETTLED, paymentId := Named(pid, row.paymentId))
           && entry == SettlementEvent(id, row.orderId.value, pid, None, SETTLED, true)
    case Webhook(ev) =>
      && ev.orderId == row.orderId && row.orderId.Some?
      && row'.paymentId == Named(ev.paymentId, row.paymentId)
      && (if ev.etype == "payment.captured" || ev.etype == "order.paid" then
            && ev.amount == Some(row.amount)
            && row' == row.(status := SETTLED, paymentId := row'.paymentId)
            && entry == SettlementEvent(row.txnId, row.orderId.value, ev.paymentId, None, SETTLED, false)
          else
            && ev.etype == "payment.failed" && (ev.amount.None? || ev.amount == Some(row.amount))
            && row' == row.(status := FAILED, paymentId := row'.paymentId)
            && entry == SettlementEvent(row.txnId, row.orderId.value, None, None, FAILED, false))
    case _ => false
  }

  /** A row is moved by an order created for it, by the first exact capture the gateway
      shows, or by an event about exactly its order and amount; it is left with the
      payment that news names, and keeps its former one only if it names none. */
  lemma UpdatesTellTheNews(env: Env, c: Conn, step: Step)
    requires Inv(c) && EffectOf(env, c, step).Updated?
    ensures var e := EffectOf(env, c, step); MovedBy(step.op, c.view.txns[e.i], e.row, e.entry)
  {
    hide ById, ByOrder, FirstCapture, Apply;
    var e := EffectOf(env, c, step);
    assert RowOk(c.view, c.view.txns[e.i]);
    if step.op.Reconcile? {
      FirstCaptureIsFirst(step.op.payments.value, c.view.txns[e.i].amount);
    }
  }

  lemma FirstCaptureIsFirst(payments: seq<Payment>, amount: int)
    requires amount >= 0 && FirstCapture(payments, amount) < |payments|
    ensures FirstCaptured(payments, FirstCapture(payments, amount), amount)
  {
    var n := FirstCapture(payments, amount);
    forall k | 0 <= k < n
      ensures payments[k].status != "captured" || payments[k].amount != Some(amount)
    {
      assert !Captures(payments[k], amount);
    }
  }

  /** The row an authorization writes: a new id, the presented amount, no order, and
      a status that its own log entry tells. */
  lemma AddedFacts(env: Env, c: Conn, step: Step)
    requires Inv(c) && EffectOf(env, c, step).Added?
    ensures var e := EffectOf(env, c, step);
      && step.op.Authorize? && e.row.txnId == step.op.call.txn.txnId && e.row.amount == step.op.call.txn.amount
      && (forall i | 0 <= i < |c.view.txns| :: c.view.txns[i].txnId != e.row.txnId)
      && e.row.orderId == None && e.row.paymentId == None
      && e.entry == AuthorizationEvent(e.row.txnId, e.row.agentId, e.row.amount, e.row.decision, e.row.reason,
                                       e.entry.effective, e.entry.riskScore, e.entry.receiptId)
      && e.row.status == (if e.row.decision != ALLOW then BLOCKED
                          else if e.entry.effective == ALLOW then AUTHORIZED else REVIEW_HOLD)
  {
    var call := step.op.call;
    var gate := Decide(env, c.view, call);
    VerdictCases(env.verifies, call.txn, call.offer, ContextOf(env, c.view, call));
    PhaseFacts(c, call, gate);
    hide Decide, CommitPhase, Valid;
  }

  /** A recorded call has a new id; it carries the gate's approval exactly when its row
      was persisted as one. */
  lemma PhaseFacts(c: Conn, call: AuthCall, gate: GateResult)
    requires OnlyNoncesPending(c)
    ensures var phase := CommitPhase(c, call, gate);
      phase.Recorded? ==>
        && ById(c.view.txns, call.txn.txnId) == |c.view.txns|
        && (phase.persisted <==> phase.result.decision == ALLOW)
        && (phase.persisted ==> phase.result == gate)
  {
    hide KeyAllowed, ById, NonceInsertable, StatusFor;
  }

  lemma UpdateKeepsValid(t: Tables, t': Tables, i: nat, row: TxnRow)
    requires Valid(t) && i < |t.txns| && t' == t.(txns := t.txns[i := row]) && RowOk(t, row)
    requires row == t.txns[i].(status := row.status, orderId := row.orderId, paymentId := row.paymentId)
    ensures Valid(t')
  {
    forall k | 0 <= k < |t'.txns|
      ensures RowOk(t', t'.txns[k])
    {
      assert RowOk(t, t.txns[k]);
    }
  }

  lemma UpdateStepKeepsInv(env: Env, c: Conn, step: Step)
    requires Inv(c) && (step.op.Settle? || step.op.Reconcile? || step.op.Webhook?)
    ensures Inv(After(env, c, step))
  {
    hide ById, ByOrder, HashTaken, NextRow, FirstCapture, Valid, RowOk, MeaningOf;
    var e, c' := EffectOf(env, c, step), After(env, c, step);
    if e.Updated? {
      UpdateFacts(env, c, step);
      StepEffect(env, c, step);
      var t1 := c.view.(txns := c.view.txns[e.i := e.row]);
      UpdateKeepsValid(c.view, t1, e.i, e.row);
      GrowthKeepsValid(t1, c'.view);
    }
  }

  /** Every call, returning or raising, keeps the invariant. */
  lemma StepKeepsInv(env: Env, c: Conn, step: Step)
    requires Inv(c)
    ensures Inv(After(env, c, step))
  {
    hide Valid, Verdict, CommitPhase;
    match step.op
    case RegisterAgent(_) => GrowthKeepsValid(c.view, After(env, c, step).view);
    case SetFrozen(_, _) => GrowthKeepsValid(c.view, After(env, c, step).view);
    case SaveMandate(_) => GrowthKeepsValid(c.view, After(env, c, step).view);
    case Authorize(call) =>
      var gate := Decide(env, c.view, call);
      VerdictCases(env.verifies, call.txn, call.offer, ContextOf(env, c.view, call));
      PhaseKeepsInv(c, call, gate);
      FinishKeepsInv(env, CommitPhase(c, call, gate), call, step.eventId);
    case _ => UpdateStepKeepsInv(env, c, step);
  }

  lemma OpenedInv()
    ensures Inv(OPENED)
  {
  }

  lemma {:induction false} RunKeepsInv(env: Env, c: Conn, steps: seq<Step>)
    requires Inv(c)
    ensures Inv(Run(env, c, steps))
  {
    if steps != [] {
      RunKeepsInv(env, c, steps[..|steps| - 1]);
      StepKeepsInv(env, Run(env, c, steps[..|steps| - 1]), steps[|steps| - 1]);
    }
  }

  /** The state after the first n calls of a run, and the call that follows. */
  lemma RunUnfolds(env: Env, c: Conn, steps: seq<Step>, n: nat)
    requires n < |steps|
    ensures Run(env, c, steps[..n + 1]) == After(env, Run(env, c, steps[..n]), steps[n])
  {
    assert steps[..n + 1][..n] == steps[..n];
  }
}
