/** The authorization service: the pure gate run over live state, with the
    database constraints as the final word on replay and double charge. */
module Service {
  import opened Models
  import opened AuditLog
  import opened Schema
  import opened Gate
  import opened Repository

  datatype Env = Env(verifies: Verifies, trustedIssuerKeys: Option<set<string>>, codec: Codec)

  /** One call, with the clock reading, the advisory risk signal and the random
      receipt id that the program draws on the way. */
  datatype AuthCall = AuthCall(
    txn: TransactionRequest,
    offer: Option<MerchantRecord>,
    at: int,
    risk: RiskSignal,
    receiptId: string,
    orderRef: Option<string>,
    paymentRef: Option<string>)

  datatype AuthorizationOutcome = AuthorizationOutcome(
    result: GateResult, effective: Decision, receipt: Receipt, auditSeq: nat, persisted: bool)

  // ---- the specification, phase by phase ----

  function ContextOf(env: Env, t: Tables, call: AuthCall): Context {
    Context(NonceSeen(t, call.txn.nonce), KeyAllowed(t.txns, call.txn.idempotencyKey),
            IsFrozen(t, call.txn.agentId), env.trustedIssuerKeys, call.at)
  }

  /** The gate's verdict on what the tables show. */
  function Decide(env: Env, t: Tables, call: AuthCall): GateResult {
    Verdict(env.verifies, call.txn, call.offer, ContextOf(env, t, call))
  }

  function RowOf(txn: TransactionRequest, result: GateResult, status: Status): TxnRow {
    TxnRow(txn.txnId, txn.mandate.mandateId, txn.agentId, txn.sku, txn.category, txn.amount,
           txn.priceSource, txn.nonce, txn.idempotencyKey, result.decision, result.reason, status,
           None, None)
  }

  function StatusFor(gate: GateResult, risk: RiskSignal): Status {
    if ApplyRisk(gate, Some(risk)).decision != ALLOW then REVIEW_HOLD else AUTHORIZED
  }

  /** Where recording the attempt leads: a row with its result, or an exception. */
  datatype Phase =
    | Recorded(conn: Conn, result: GateResult, persisted: bool)
    | Escaped(conn: Conn, escape: Escape)

  function RecordBlocked(c: Conn, call: AuthCall, result: GateResult): Phase {
    var row := RowOf(call.txn, result, BLOCKED);
    match TxnInsertError(c.view, row)
    case None => Recorded(Committed(c.(view := AddTxn(c.view, row))), result, false)
    case Some(UNIQUE_FAILED) => Escaped(c, DUPLICATE_TRANSACTION_ERROR)
    case Some(_) => Escaped(c, INTEGRITY_ERROR)
  }

  /** How the one database transaction of an allowed call ends. */
  datatype Attempt =
    | Persisted(conn: Conn)
    | Refused(conn: Conn, result: GateResult)
    | Stuck(conn: Conn)

  /** Reserve the nonce and insert the row.  A refusal is rolled back and becomes a
      block; any other constraint error escapes with the reservation still pending.
      The gate's result may rest on reads made before other writers committed. */
  function TryCommit(c: Conn, call: AuthCall, gate: GateResult): Attempt {
    if !NonceInsertable(c.view, call.txn.nonce, call.txn.mandate.mandateId) then
      Refused(RolledBack(c), GateResult(BLOCK, NONCE_REPLAY, gate.checks))
    else
      var reserved := AddNonce(c.view, call.txn.nonce, call.txn.mandate.mandateId);
      var row := RowOf(call.txn, gate, StatusFor(gate, call.risk));
      match TxnInsertError(reserved, row)
      case None => Persisted(Committed(c.(view := AddTxn(reserved, row))))
      case Some(UNIQUE_FAILED) => Refused(RolledBack(c), GateResult(BLOCK, DUPLICATE_TRANSACTION, gate.checks))
      case Some(_) => Stuck(c.(view := reserved))
  }

  /** From the gate's result to a recorded row. */
  function CommitPhase(c: Conn, call: AuthCall, gate: GateResult): Phase {
    if gate.decision != ALLOW then RecordBlocked(c, call, gate)
    else
      match TryCommit(c, call, gate)
      case Persisted(c1) => Recorded(c1, gate, true)
      case Refused(c1, result) => RecordBlocked(c1, call, result)
      case Stuck(c1) => Escaped(c1, INTEGRITY_ERROR)
  }

  function ReceiptOf(call: AuthCall, result: GateResult): Receipt {
    var txn := call.txn;
    Receipt(call.receiptId, txn.txnId, txn.agentId, txn.mandate.mandateId, txn.mandate.maxAmount, txn.sku,
            if call.offer.Some? then call.offer.value.category else txn.category,
            txn.amount, txn.mandate.currency,
            if call.offer.Some? then Some(call.offer.value.merchantId) else None,
            txn.priceSource, result.decision, result.reason, call.orderRef, call.paymentRef)
  }

  function AuthorizationEntry(call: AuthCall, result: GateResult): Event {
    AuthorizationEvent(call.txn.txnId, call.txn.agentId, call.txn.amount, result.decision, result.reason,
                       ApplyRisk(result, Some(call.risk)).decision, call.risk.score, call.receiptId)
  }

  function WithReceipt(c: Conn, call: AuthCall, result: GateResult): Conn {
    Committed(c.(view := c.view.(receipts := c.view.receipts[call.receiptId := ReceiptOf(call, result)])))
  }

  /** Receipt and audit entry, on either decision. */
  function Finished(env: Env, phase: Phase, call: AuthCall, eventId: string)
    : (Conn, Result<AuthorizationOutcome, Escape>)
  {
    match phase
    case Escaped(c, e) => (c, Failure(e))
    case Recorded(c, result, persisted) =>
      var c1 := WithReceipt(c, call, result);
      var entry := AuthorizationEntry(call, result);
      (Logged(env.codec, c1, entry, eventId),
       if Loggable(env.codec, c1.view, entry, eventId)
       then Success(AuthorizationOutcome(result, entry.effective, ReceiptOf(call, result),
                                         |c1.view.log| + 1, persisted))
       else Failure(LOG_HASH_TAKEN))
  }

  function Authorized(env: Env, c: Conn, call: AuthCall, eventId: string)
    : (Conn, Result<AuthorizationOutcome, Escape>)
  {
    Finished(env, CommitPhase(c, call, Decide(env, c.view, call)), call, eventId)
  }

  // ---- the service ----

  class AuthorizationService {
    const db: Database
    const env: Env

    constructor (db: Database, env: Env)
      ensures this.db == db && this.env == env
    {
      this.db := db;
      this.env := env;
    }

    /** Issuer pinning fails closed: without a non-empty trusted set the service
        is refused unless running unpinned was asked for by name. */
    static method Create(db: Database, env: Env, allowUnpinned: bool) returns (r: Option<AuthorizationService>)
      ensures r.Some? <==> allowUnpinned || (env.trustedIssuerKeys.Some? && env.trustedIssuerKeys.value != {})
      ensures r.Some? ==> r.value.db == db && r.value.env == env
    {
      if (env.trustedIssuerKeys.None? || env.trustedIssuerKeys.value == {}) && !allowUnpinned {
        return None;
      }
      var service := new AuthorizationService(db, env);
      return Some(service);
    }

    method Authorize(call: AuthCall, eventId: string) returns (r: Result<AuthorizationOutcome, Escape>)
      modifies db
      ensures (db.State(), r) == Authorized(env, old(db.State()), call, eventId)
    {
      hide Verdict, CommitPhase, KeyAllowed, ById, IsFrozen, NonceSeen, ApplyRisk, Loggable, EventRow;
      var txn := call.txn;
      var frozen := IsFrozen(db.View(), txn.agentId);
      var nseen := NonceSeen(db.View(), txn.nonce);
      var iseen := KeyAllowed(db.txns, txn.idempotencyKey);
      var gate := Gate.Authorize(env.verifies, txn, call.offer,
                                 Context(nseen, iseen, frozen, env.trustedIssuerKeys, call.at));
      var recorded, result, persisted := Record(call, gate);
      match recorded {
        case Failure(e) => return Failure(e);
        case Success(_) =>
      }
      var effective := ApplyRisk(result, Some(call.risk)).decision;
      var receipt := ReceiptOf(call, result);
      db.SaveReceipt(receipt);
      var seqNo := |db.log| + 1;
      var ok := db.AppendEvent(env.codec, AuthorizationEntry(call, result), eventId);
      if !ok {
        return Failure(LOG_HASH_TAKEN);
      }
      return Success(AuthorizationOutcome(result, effective, receipt, seqNo, persisted));
    }

    /** The database part of a call: reserve and record, or roll back, downgrade
        and record the blocked attempt. */
    method Record(call: AuthCall, gate: GateResult)
      returns (r: Result<(), Escape>, result: GateResult, persisted: bool)
      modifies db
      ensures CommitPhase(old(db.State()), call, gate)
           == if r.Success? then Recorded(db.State(), result, persisted) else Escaped(db.State(), r.error)
      ensures r.Success? ==> ById(db.txns, call.txn.txnId) < |db.txns|
    {
      hide ById, KeyAllowed, ApplyRisk, NonceInsertable, TxnInsertError;
      var txn := call.txn;
      result, persisted := gate, false;
      if gate.decision == ALLOW {
        var held := ApplyRisk(gate, Some(call.risk)).decision != ALLOW;
        var status := if held then REVIEW_HOLD else AUTHORIZED;
        var reserved := db.ReserveNonce(txn.nonce, txn.mandate.mandateId);
        if !reserved {
          db.Rollback();
          result := GateResult(BLOCK, NONCE_REPLAY, gate.checks);
        } else {
          var error := db.RecordTransaction(RowOf(txn, gate, status));
          if error.None? {
            db.Commit();
            persisted := true;
          } else if error.value == UNIQUE_FAILED {
            db.Rollback();
            result := GateResult(BLOCK, DUPLICATE_TRANSACTION, gate.checks);
          } else {
            return Failure(INTEGRITY_ERROR), result, persisted;
          }
        }
      }
      if result.decision != ALLOW {
        var error := db.RecordTransaction(RowOf(txn, result, BLOCKED));
        if error.Some? {
          return Failure(if error.value == UNIQUE_FAILED then DUPLICATE_TRANSACTION_ERROR else INTEGRITY_ERROR),
                 result, persisted;
        }
        db.Commit();
      }
      assert db.txns[|db.txns| - 1].txnId == txn.txnId;
      return Success(()), result, persisted;
    }
  }

  // ---- what one call promises ----

  /** The decision after the advisory signal: a block stays one, and an approval stands
      only under a signal that asks for nothing. */
  function Effective(decision: Decision, action: RiskAction): Decision {
    if decision == BLOCK || action == RISK_BLOCK then BLOCK
    else if action == RISK_REVIEW then REVIEW
    else ALLOW
  }

  /** The tables after a completed call: one more row, one receipt and one log entry,
      column by column what was presented, decided and drawn, and nothing else but the
      nonce of an approval. */
  ghost predicate OneRecord(env: Env, t: Tables, t': Tables, call: AuthCall, o: AuthorizationOutcome, eventId: string) {
    var txn, decision, reason := call.txn, o.result.decision, o.result.reason;
    && o.effective == Effective(decision, call.risk.action)
    && t'.agents == t.agents && t'.mandates == t.mandates
    && t'.txns == t.txns + [TxnRow(
         txn.txnId, txn.mandate.mandateId, txn.agentId, txn.sku, txn.category, txn.amount, txn.priceSource,
         txn.nonce, txn.idempotencyKey, decision, reason,
         if decision != ALLOW then BLOCKED else if o.effective == ALLOW then AUTHORIZED else REVIEW_HOLD,
         None, None)]
    && o.receipt == Receipt(
         call.receiptId, txn.txnId, txn.agentId, txn.mandate.mandateId, txn.mandate.maxAmount, txn.sku,
         if call.offer.Some? then call.offer.value.category else txn.category, txn.amount, txn.mandate.currency,
         if call.offer.Some? then Some(call.offer.value.merchantId) else None,
         txn.priceSource, decision, reason, call.orderRef, call.paymentRef)
    && t'.receipts == t.receipts[call.receiptId := o.receipt]
    && |t'.log| == |t.log| + 1 && t.log <= t'.log
    && t'.log[|t.log|] == EventRow(env.codec, t.log,
         AuthorizationEvent(txn.txnId, txn.agentId, txn.amount, decision, reason, o.effective, call.risk.score,
                            call.receiptId), eventId)
    && o.auditSeq == t'.log[|t.log|].seqNo
    && (if decision == ALLOW
        then o.persisted && txn.nonce !in t.nonces && t'.nonces == t.nonces[txn.nonce := txn.mandate.mandateId]
        else !o.persisted && t'.nonces == t.nonces)
  }

  /** Nothing is pending on the connection but, perhaps, reserved nonces. */
  predicate OnlyNoncesPending(c: Conn) {
    c.saved == c.view.(nonces := c.saved.nonces)
  }

  /** One attempt, one record.  With no other writer in between, a completed call
      carries exactly the gate's verdict on the current tables, so neither except
      branch changes it, and leaves exactly one record of it behind. */
  lemma OneAttemptOneRecord(env: Env, c: Conn, call: AuthCall, eventId: string)
    requires OnlyNoncesPending(c)
    ensures var (c', r) := Authorized(env, c, call, eventId);
      r.Success? ==>
        && r.value.result == Decide(env, c.view, call)
        && c'.view == c'.saved
        && OneRecord(env, c.view, c'.view, call, r.value, eventId)
  {
    hide Verdict, KeyAllowed, ById, IsFrozen, Loggable, NextRow;
    VerdictCases(env.verifies, call.txn, call.offer, ContextOf(env, c.view, call));
    EventRowSeq(env, c.view.log, AuthorizationEntry(call, Decide(env, c.view, call)), eventId);
  }

  lemma EventRowSeq(env: Env, log: seq<AuditRow>, e: Event, eventId: string)
    ensures EventRow(env.codec, log, e, eventId).seqNo == |log| + 1
  {
  }

  /** A call raises DuplicateTransaction exactly for a transaction id already used
      (with a storable amount), and then every stored table is as before, and with
      nothing pending beforehand so is the connection, the nonce it had reserved
      included. */
  lemma ReusedTransactionIdRaises(env: Env, c: Conn, call: AuthCall, eventId: string)
    requires OnlyNoncesPending(c)
    ensures var (c', r) := Authorized(env, c, call, eventId);
      && (r == Failure(DUPLICATE_TRANSACTION_ERROR) <==>
            call.txn.amount >= 0 && ById(c.view.txns, call.txn.txnId) < |c.view.txns|)
      && (r == Failure(DUPLICATE_TRANSACTION_ERROR) ==>
            c'.saved == c.saved && OnlyNoncesPending(c') && (c.view == c.saved ==> c' == c))
  {
    hide Verdict, KeyAllowed, IsFrozen, StatusFor, ReceiptOf, AuthorizationEntry, Loggable;
    VerdictCases(env.verifies, call.txn, call.offer, ContextOf(env, c.view, call));
  }

  /** A call completes, up to the uniqueness of the log hash, exactly when its
      amount is storable, its id is new and mandate and agent are on file. */
  lemma CompletesIff(env: Env, c: Conn, call: AuthCall, eventId: string)
    requires OnlyNoncesPending(c)
    ensures var r := Authorized(env, c, call, eventId).1;
      (r.Success? || r == Failure(LOG_HASH_TAKEN)) <==>
        && call.txn.amount >= 0
        && ById(c.view.txns, call.txn.txnId) == |c.view.txns|
        && call.txn.mandate.mandateId in c.view.mandates
        && call.txn.agentId in c.view.agents
  {
    hide Verdict, KeyAllowed, IsFrozen, StatusFor, ReceiptOf, AuthorizationEntry, Loggable;
    VerdictCases(env.verifies, call.txn, call.offer, ContextOf(env, c.view, call));
  }

  /** Without races the two except branches still fire, each on its exact condition:
      the one for used nonces when the mandate is not on file, the one for duplicates
      when the transaction id is used.  Then the blocked row cannot be stored either,
      and the call raises. */
  lemma ExceptBranchesFireIff(env: Env, c: Conn, call: AuthCall)
    requires OnlyNoncesPending(c) && Decide(env, c.view, call).decision == ALLOW
    ensures var gate := Decide(env, c.view, call);
      var attempt := TryCommit(c, call, gate);
      && (attempt.Refused? && attempt.result.reason == NONCE_REPLAY <==>
            call.txn.mandate.mandateId !in c.view.mandates)
      && (attempt.Refused? && attempt.result.reason == Reason.DUPLICATE_TRANSACTION <==>
            && call.txn.mandate.mandateId in c.view.mandates
            && call.txn.amount >= 0 && ById(c.view.txns, call.txn.txnId) < |c.view.txns|)
      && (attempt.Refused? ==>
            attempt.result.reason in {NONCE_REPLAY, Reason.DUPLICATE_TRANSACTION} && CommitPhase(c, call, gate).Escaped?)
  {
    VerdictCases(env.verifies, call.txn, call.offer, ContextOf(env, c.view, call));
    hide Verdict;
  }
}
