/** The nonces table against the ALLOW rows, when calls do not overlap. */
module Nonces {
  import opened Models
  import opened Schema
  import opened Gate
  import opened Service
  import opened Settlement
  import opened Webhooks
  import opened Runs
  import opened StatusGraph

  /** Some ALLOW row used this nonce. */
  predicate SpentBy(txns: seq<TxnRow>, nonce: string) {
    exists i | 0 <= i < |txns| :: txns[i].decision == ALLOW && txns[i].nonce == nonce
  }

  /** Every reserved nonce was spent.  With a valid table, where ALLOW rows have
      distinct nonces all of which are reserved, this makes the correspondence
      between nonces and ALLOW rows one to one. */
  ghost predicate NoncesExact(t: Tables) {
    forall n | n in t.nonces :: SpentBy(t.txns, n)
  }

  /** Nothing pending, and the nonces are exactly those of the ALLOW rows. */
  ghost predicate Exact(c: Conn) {
    c.view == c.saved && NoncesExact(c.view)
  }

  lemma ExactMeansOneToOne(t: Tables)
    requires Valid(t) && NoncesExact(t)
    ensures t.nonces.Keys == set i | 0 <= i < |t.txns| && t.txns[i].decision == ALLOW :: t.txns[i].nonce
    ensures forall i, j | 0 <= i < j < |t.txns| && t.txns[i].decision == ALLOW && t.txns[j].decision == ALLOW ::
              t.txns[i].nonce != t.txns[j].nonce && t.txns[i].idempotencyKey != t.txns[j].idempotencyKey
  {
    forall n | n in t.nonces
      ensures n in set i | 0 <= i < |t.txns| && t.txns[i].decision == ALLOW :: t.txns[i].nonce
    {
      assert SpentBy(t.txns, n);
      var i :| 0 <= i < |t.txns| && t.txns[i].decision == ALLOW && t.txns[i].nonce == n;
    }
    forall i | 0 <= i < |t.txns| && t.txns[i].decision == ALLOW
      ensures t.txns[i].nonce in t.nonces
    {
      assert RowOk(t, t.txns[i]);
    }
  }

  /** The branch of `authorize` that reserves a nonce and then dies on an error the
      service does not catch: an approval of a negative amount, or of a new
      transaction whose agent is not on file. */
  predicate Leaks(env: Env, t: Tables, call: AuthCall) {
    && Decide(env, t, call).decision == ALLOW
    && call.txn.mandate.mandateId in t.mandates
    && (call.txn.amount < 0
        || (ById(t.txns, call.txn.txnId) == |t.txns| && call.txn.agentId !in t.agents))
  }

  lemma MoreRowsSpendMore(txns: seq<TxnRow>, row: TxnRow, nonce: string)
    ensures SpentBy(txns + [row], nonce) <==> SpentBy(txns, nonce) || (row.decision == ALLOW && row.nonce == nonce)
  {
    if SpentBy(txns, nonce) {
      var i :| 0 <= i < |txns| && txns[i].decision == ALLOW && txns[i].nonce == nonce;
      assert (txns + [row])[i] == txns[i];
    }
    assert (txns + [row])[|txns|] == row;
  }

  lemma RecordBlockedKeepsExact(c: Conn, call: AuthCall, result: GateResult)
    requires Exact(c) && result.decision == BLOCK
    ensures Exact(RecordBlocked(c, call, result).conn)
  {
    forall n | n in c.view.nonces
      ensures SpentBy(c.view.txns + [RowOf(call.txn, result, BLOCKED)], n)
    {
      MoreRowsSpendMore(c.view.txns, RowOf(call.txn, result, BLOCKED), n);
    }
  }

  /** A persisted or refused attempt keeps the nonces exact, on any gate result. */
  lemma AttemptKeepsExact(c: Conn, call: AuthCall, gate: GateResult)
    requires Exact(c) && gate.decision == ALLOW
    requires !TryCommit(c, call, gate).Stuck?
    ensures Exact(TryCommit(c, call, gate).conn)
  {
    var row := RowOf(call.txn, gate, StatusFor(gate, call.risk));
    forall n | n in c.view.nonces || n == call.txn.nonce
      ensures SpentBy(c.view.txns + [row], n)
    {
      MoreRowsSpendMore(c.view.txns, row, n);
    }
  }

  /** A call leaves the nonces exact if and only if it does not take that branch. */
  lemma ExactUnlessLeak(env: Env, c: Conn, call: AuthCall, eventId: string)
    requires Inv(c) && Exact(c)
    ensures Exact(Authorized(env, c, call, eventId).0) <==> !Leaks(env, c.view, call)
    ensures Leaks(env, c.view, call) ==>
      var c' := Authorized(env, c, call, eventId).0;
      && Authorized(env, c, call, eventId).1 == Failure(INTEGRITY_ERROR)
      && call.txn.nonce in c'.view.nonces && !SpentBy(c'.view.txns, call.txn.nonce)
      && call.txn.nonce !in c'.saved.nonces
  {
    hide Verdict, KeyAllowed, StatusFor, ReceiptOf, AuthorizationEntry, Loggable, IsFrozen;
    var gate := Decide(env, c.view, call);
    VerdictCases(env.verifies, call.txn, call.offer, ContextOf(env, c.view, call));
    if gate.decision != ALLOW {
      RecordBlockedKeepsExact(c, call, gate);
    } else {
      var attempt := TryCommit(c, call, gate);
      if !attempt.Stuck? {
        AttemptKeepsExact(c, call, gate);
      } else {
        forall i | 0 <= i < |c.view.txns| && c.view.txns[i].decision == ALLOW
          ensures c.view.txns[i].nonce != call.txn.nonce
        {
          assert RowOk(c.view, c.view.txns[i]);
        }
      }
      if attempt.Refused? {
        RecordBlockedKeepsExact(attempt.conn, call, attempt.result);
      }
    }
  }

  ghost predicate ReservesNothing(c: Conn, c': Conn) {
    c'.view == c'.saved && c'.view.nonces == c.view.nonces
  }

  lemma OtherStepsReserveNothing(env: Env, c: Conn, step: Step)
    requires c.view == c.saved && !step.op.Authorize?
    ensures ReservesNothing(c, After(env, c, step))
  {
    match step.op
    case Settle(id, answer) => SettleReservesNothing(env, c, id, answer, step.eventId);
    case Reconcile(id, payments) => ReconcileReservesNothing(env, c, id, payments, step.eventId);
    case Webhook(ev) => WebhookReservesNothing(env, c, ev, step.eventId);
    case _ =>
  }

  lemma SettleReservesNothing(env: Env, c: Conn, id: string, answer: Option<string>, eventId: string)
    requires c.view == c.saved
    ensures ReservesNothing(c, Settled(env.codec, c, id, answer, eventId).0)
  {
    hide ById, Loggable, NeedsOrder;
  }

  lemma ReconcileReservesNothing(env: Env, c: Conn, id: string, payments: Option<seq<Payment>>, eventId: string)
    requires c.view == c.saved
    ensures ReservesNothing(c, Reconciled(env.codec, c, id, payments, eventId).0)
  {
    hide ById, Loggable, FirstCapture;
  }

  lemma WebhookReservesNothing(env: Env, c: Conn, ev: WebhookEvent, eventId: string)
    requires c.view == c.saved
    ensures ReservesNothing(c, Handled(env.codec, c, ev, eventId).0)
  {
    hide ById, ByOrder, Loggable, MeaningOf;
  }

  lemma OtherStepsKeepExact(env: Env, c: Conn, step: Step)
    requires Inv(c) && Exact(c) && !step.op.Authorize?
    ensures Exact(After(env, c, step)) && After(env, c, step).view.nonces == c.view.nonces
  {
    hide After;
    OtherStepsReserveNothing(env, c, step);
    var c' := After(env, c, step);
    forall n | n in c'.view.nonces
      ensures SpentBy(c'.view.txns, n)
    {
      assert SpentBy(c.view.txns, n);
      var i :| 0 <= i < |c.view.txns| && c.view.txns[i].decision == ALLOW && c.view.txns[i].nonce == n;
      StepFollowsEdge(env, c, step, i);
      assert c'.view.txns[i].decision == ALLOW && c'.view.txns[i].nonce == n;
    }
  }

  ghost predicate NeverLeaks(env: Env, c: Conn, steps: seq<Step>) {
    forall n | 0 <= n < |steps| && steps[n].op.Authorize? :: !Leaks(env, Run(env, c, steps[..n]).view, steps[n].op.call)
  }

  lemma StepExactIff(env: Env, c: Conn, step: Step)
    requires Inv(c) && Exact(c)
    ensures Exact(After(env, c, step)) <==> (step.op.Authorize? ==> !Leaks(env, c.view, step.op.call))
  {
    hide Inv, Exact, Leaks;
    if step.op.Authorize? {
      ExactUnlessLeak(env, c, step.op.call, step.eventId);
    } else {
      OtherStepsKeepExact(env, c, step);
    }
  }

  lemma {:induction false} ExactUpTo(env: Env, c: Conn, steps: seq<Step>, n: nat)
    requires Inv(c) && Exact(c) && NeverLeaks(env, c, steps) && n <= |steps|
    ensures Exact(Run(env, c, steps[..n]))
  {
    hide Run, Exact, Leaks, Inv, After;
    if n == 0 {
      assert steps[..0] == [];
      assert Run(env, c, []) == c by { NothingRun(env, c); }
    } else {
      ExactUpTo(env, c, steps, n - 1);
      RunKeepsInv(env, c, steps[..n - 1]);
      RunUnfolds(env, c, steps, n - 1);
      StepExactIff(env, Run(env, c, steps[..n - 1]), steps[n - 1]);
    }
  }

  lemma NothingRun(env: Env, c: Conn)
    ensures Run(env, c, []) == c
  {
  }

  /** The nonces table holds exactly the nonces of the ALLOW rows, with nothing left
      pending, after every call of a run if and only if no call takes that branch. */
  lemma NoncesStayExactIff(env: Env, c: Conn, steps: seq<Step>)
    requires Inv(c) && Exact(c)
    ensures (forall n | 0 <= n <= |steps| :: Exact(Run(env, c, steps[..n]))) <==> NeverLeaks(env, c, steps)
  {
    hide Run, Exact, Leaks, Inv, After;
    if NeverLeaks(env, c, steps) {
      forall n | 0 <= n <= |steps|
        ensures Exact(Run(env, c, steps[..n]))
      {
        ExactUpTo(env, c, steps, n);
      }
    } else {
      var n :| 0 <= n < |steps| && steps[n].op.Authorize? && Leaks(env, Run(env, c, steps[..n]).view, steps[n].op.call);
      RunKeepsInv(env, c, steps[..n]);
      RunUnfolds(env, c, steps, n);
      if Exact(Run(env, c, steps[..n])) {
        StepExactIff(env, Run(env, c, steps[..n]), steps[n]);
        assert !Exact(Run(env, c, steps[..n + 1]));
      }
    }
  }

  /** A leaked nonce does not stay pending: the next committing call, here freezing
      some agent, stores it for good, without any ALLOW row behind it. */
  lemma LeakBecomesPermanent(env: Env, c: Conn, call: AuthCall, eventId: string, agentId: string)
    requires Inv(c) && Exact(c) && Leaks(env, c.view, call)
    ensures var stored := AgentFrozenSet(Authorized(env, c, call, eventId).0, agentId, true).saved;
      call.txn.nonce in stored.nonces && !SpentBy(stored.txns, call.txn.nonce)
  {
    ExactUnlessLeak(env, c, call, eventId);
  }

  const STORED := Mandate("m", "a", 10, ["c"], 0, 0, 9, "INR", "pk", "sig")

  const SHOWN := TransactionRequest("t", STORED.(agentId := "b"), "b", "s", "c", 5, MERCHANT_RECORD, "n", "k")

  const LEAKING_CALL := AuthCall(SHOWN, Some(MerchantRecord("s", "shop", "c", 5, 0, 0, true)), 1,
                                 RiskSignal(0, NORMAL), "r", None, None)

  const LEAKING_RUN := [
    Step(RegisterAgent("a"), ""), Step(SaveMandate(STORED), ""), Step(Authorize(LEAKING_CALL), "")]

  /** A concrete leak: agent "a" and its mandate "m" are on file; a mandate with the
      same id for the unregistered agent "b" is presented, signed by the pinned
      issuer.  The run ends with a reserved nonce and no transaction at all. */
  lemma LeakExample(env: Env)
    requires env.trustedIssuerKeys == Some({"pk"}) && env.verifies("pk", SHOWN.mandate.Body(), "sig")
    ensures var c := Run(env, OPENED, LEAKING_RUN);
      !Exact(c) && "n" in c.view.nonces && c.view.txns == []
  {
    hide Verdict, ById, Leaks;
    var s := LEAKING_RUN;
    var c1 := After(env, OPENED, s[0]);
    var c2 := After(env, c1, s[1]);
    assert Run(env, OPENED, s) == After(env, c2, s[2]) by {
      RunUnfolds(env, OPENED, s, 0);
      RunUnfolds(env, OPENED, s, 1);
      RunUnfolds(env, OPENED, s, 2);
      assert s[..3] == s;
    }
    LeakState(env, c2);
  }

  lemma LeakState(env: Env, c: Conn)
    requires env.trustedIssuerKeys == Some({"pk"}) && env.verifies("pk", SHOWN.mandate.Body(), "sig")
    requires c.view == EMPTY.(agents := map["a" := false], mandates := map["m" := STORED]) && c.saved == c.view
    ensures var c' := After(env, c, LEAKING_RUN[2]);
      !Exact(c') && "n" in c'.view.nonces && c'.view.txns == []
  {
    hide Verdict, EffectOf;
    var ctx := ContextOf(env, c.view, LEAKING_CALL);
    assert Clears(env.verifies, SHOWN, LEAKING_CALL.offer, ctx);
    VerdictCases(env.verifies, SHOWN, LEAKING_CALL.offer, ctx);
    assert Leaks(env, c.view, LEAKING_CALL);
    ExactUnlessLeak(env, c, LEAKING_CALL, "");
    StepEffect(env, c, LEAKING_RUN[2]);
  }
}
