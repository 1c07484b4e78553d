/** The tables behind one connection, and the helpers that read and write them.
    Each method is specified by the value it leaves the whole connection in. */
module Repository {
  import opened Models
  import opened AuditLog
  import opened Schema

  class Database {
    var agents: map<string, bool>
    var mandates: map<string, Mandate>
    var nonces: map<string, string>
    var txns: seq<TxnRow>
    var receipts: map<string, Receipt>
    var log: seq<AuditRow>
    var saved: Tables

    function View(): Tables
      reads this
    {
      Tables(agents, mandates, nonces, txns, receipts, log)
    }

    function State(): Conn
      reads this
    {
      Conn(View(), saved)
    }

    constructor ()
      ensures State() == OPENED
    {
      agents, mandates, nonces := map[], map[], map[];
      txns, receipts, log := [], map[], [];
      saved := EMPTY;
    }

    method Commit()
      modifies this
      ensures State() == Committed(old(State()))
    {
      saved := View();
    }

    method Rollback()
      modifies this
      ensures State() == RolledBack(old(State()))
    {
      agents, mandates, nonces := saved.agents, saved.mandates, saved.nonces;
      txns, receipts, log := saved.txns, saved.receipts, saved.log;
    }

    method RegisterAgent(agentId: string)
      modifies this
      ensures State() == AgentRegistered(old(State()), agentId)
    {
      if agentId !in agents {
        agents := agents[agentId := false];
      }
      Commit();
    }

    method SetAgentFrozen(agentId: string, frozen: bool)
      modifies this
      ensures State() == AgentFrozenSet(old(State()), agentId, frozen)
    {
      if agentId in agents {
        agents := agents[agentId := frozen];
      }
      Commit();
    }

    /** INSERT OR REPLACE: a stored mandate may be replaced by a later one. */
    method SaveMandate(m: Mandate) returns (ok: bool)
      modifies this
      ensures ok == MandateStorable(old(View()), m)
      ensures State() == MandateSaved(old(State()), m)
    {
      ok := m.maxAmount >= 0 && m.agentId in agents;
      if ok {
        mandates := mandates[m.mandateId := m];
        Commit();
      }
    }

    method ReserveNonce(nonce: string, mandateId: string) returns (ok: bool)
      modifies this
      ensures ok == NonceInsertable(old(View()), nonce, mandateId)
      ensures State() == if ok then old(State()).(view := AddNonce(old(View()), nonce, mandateId)) else old(State())
    {
      ok := nonce !in nonces && mandateId in mandates;
      if ok {
        nonces := nonces[nonce := mandateId];
      }
    }

    method RecordTransaction(row: TxnRow) returns (error: Option<DbError>)
      modifies this
      ensures error == TxnInsertError(old(View()), row)
      ensures State() == if error.None? then old(State()).(view := AddTxn(old(View()), row)) else old(State())
    {
      error := TxnInsertError(View(), row);
      if error.None? {
        txns := txns + [row];
      }
    }

    method SetTransactionSettlement(txnId: string, status: Status,
                                    orderId: Option<string>, paymentId: Option<string>)
      modifies this
      ensures State() == Committed(old(State()).(view := SettlementSet(old(View()), txnId, status, orderId, paymentId)))
    {
      var i := ById(txns, txnId);
      if i < |txns| {
        txns := txns[i := SettlementRow(txns[i], status, orderId, paymentId)];
      }
      Commit();
    }

    method SaveReceipt(r: Receipt)
      requires ById(txns, r.txnId) < |txns|
      modifies this
      ensures State() == Committed(old(State()).(view := old(View()).(receipts := old(receipts)[r.receiptId := r])))
    {
      receipts := receipts[r.receiptId := r];
      Commit();
    }

    method AppendEvent(codec: Codec, e: Event, eventId: string) returns (ok: bool)
      modifies this
      ensures ok == Loggable(codec, old(View()), e, eventId)
      ensures State() == Logged(codec, old(State()), e, eventId)
    {
      var body := codec.canon(eventId, e);
      var prevHash := if |log| > 0 then log[|log| - 1].entryHash else GENESIS_HASH;
      var entryHash := codec.hash(Message(prevHash, EventType(e), body));
      ok := !HashTaken(log, entryHash);
      if ok {
        log := log + [AuditRow(|log| + 1, EventType(e), body, prevHash, entryHash)];
        Commit();
      }
    }
  }
}
