/** The database as values: its tables, its constraints, and what one connection
    sees of it.  A connection sees its own uncommitted writes; `saved` is what a
    rollback returns to. */
module Schema {
  import opened Models
  import opened AuditLog

  datatype Status = AUTHORIZED | REVIEW_HOLD | BLOCKED | PENDING_SETTLEMENT | SETTLED | FAILED

  datatype TxnRow = TxnRow(
    txnId: string,
    mandateId: string,
    agentId: string,
    sku: string,
    category: string,
    amount: int,
    priceSource: PriceSource,
    nonce: string,
    idempotencyKey: string,
    decision: Decision,
    reason: Reason,
    status: Status,
    orderId: Option<string>,
    paymentId: Option<string>)

  datatype Receipt = Receipt(
    receiptId: string,
    txnId: string,
    agentId: string,
    mandateId: string,
    mandateCap: int,
    sku: string,
    category: string,
    amount: int,
    currency: string,
    merchantId: Option<string>,
    priceSource: PriceSource,
    decision: Decision,
    reason: Reason,
    orderRef: Option<string>,
    paymentRef: Option<string>)

  /** Agents map to their frozen flag, nonces to the mandate they were used under.
      Transactions and log rows are in insertion order and are never deleted. */
  datatype Tables = Tables(
    agents: map<string, bool>,
    mandates: map<string, Mandate>,
    nonces: map<string, string>,
    txns: seq<TxnRow>,
    receipts: map<string, Receipt>,
    log: seq<AuditRow>)

  const EMPTY := Tables(map[], map[], map[], [], map[], [])

  datatype Conn = Conn(view: Tables, saved: Tables)

  const OPENED := Conn(EMPTY, EMPTY)

  function Committed(c: Conn): Conn { Conn(c.view, c.view) }

  function RolledBack(c: Conn): Conn { Conn(c.saved, c.saved) }

  // ---- reads ----

  /** The row with this primary key, or the number of rows when there is none. */
  function ById(txns: seq<TxnRow>, txnId: string): (i: nat)
    ensures i <= |txns|
    ensures i < |txns| ==> txns[i].txnId == txnId
    ensures forall k | 0 <= k < i :: txns[k].txnId != txnId
  {
    if txns == [] || txns[0].txnId == txnId then 0 else 1 + ById(txns[1..], txnId)
  }

  /** The first row carrying this order id, or the number of rows. */
  function ByOrder(txns: seq<TxnRow>, orderId: string): (i: nat)
    ensures i <= |txns|
    ensures i < |txns| ==> txns[i].orderId == Some(orderId)
    ensures forall k | 0 <= k < i :: txns[k].orderId != Some(orderId)
  {
    if txns == [] || txns[0].orderId == Some(orderId) then 0 else 1 + ByOrder(txns[1..], orderId)
  }

  predicate IsFrozen(t: Tables, agentId: string) {
    agentId in t.agents && t.agents[agentId]
  }

  predicate NonceSeen(t: Tables, nonce: string) {
    nonce in t.nonces
  }

  predicate KeyAllowed(txns: seq<TxnRow>, key: string) {
    exists i | 0 <= i < |txns| :: txns[i].decision == ALLOW && txns[i].idempotencyKey == key
  }

  // ---- constraints ----

  datatype DbError = CHECK_FAILED | UNIQUE_FAILED | FOREIGN_KEY_FAILED

  /** Inserting a nonce fails on a taken primary key or an unknown mandate. */
  predicate NonceInsertable(t: Tables, nonce: string, mandateId: string) {
    nonce !in t.nonces && mandateId in t.mandates
  }

  /** The constraint an inserted transaction row violates first: the CHECK on the
      amount, then primary key and partial unique index, then the foreign keys. */
  function TxnInsertError(t: Tables, row: TxnRow): Option<DbError> {
    if row.amount < 0 then Some(CHECK_FAILED)
    else if ById(t.txns, row.txnId) < |t.txns| then Some(UNIQUE_FAILED)
    else if row.decision == ALLOW && KeyAllowed(t.txns, row.idempotencyKey) then Some(UNIQUE_FAILED)
    else if row.mandateId !in t.mandates || row.agentId !in t.agents then Some(FOREIGN_KEY_FAILED)
    else None
  }

  // ---- writes ----

  function AddTxn(t: Tables, row: TxnRow): Tables {
    t.(txns := t.txns + [row])
  }

  function AddNonce(t: Tables, nonce: string, mandateId: string): Tables {
    t.(nonces := t.nonces[nonce := mandateId])
  }

  function Coalesce(new_: Option<string>, old_: Option<string>): Option<string> {
    if new_.Some? then new_ else old_
  }

  function SettlementRow(row: TxnRow, status: Status, orderId: Option<string>, paymentId: Option<string>): TxnRow {
    row.(status := status,
         orderId := Coalesce(orderId, row.orderId),
         paymentId := Coalesce(paymentId, row.paymentId))
  }

  function SettlementSet(t: Tables, txnId: string, status: Status,
                         orderId: Option<string>, paymentId: Option<string>): Tables
  {
    var i := ById(t.txns, txnId);
    if i == |t.txns| then t
    else t.(txns := t.txns[i := SettlementRow(t.txns[i], status, orderId, paymentId)])
  }

  function AgentRegistered(c: Conn, agentId: string): Conn {
    if agentId in c.view.agents then Committed(c)
    else Committed(c.(view := c.view.(agents := c.view.agents[agentId := false])))
  }

  function AgentFrozenSet(c: Conn, agentId: string, frozen: bool): Conn {
    if agentId in c.view.agents
    then Committed(c.(view := c.view.(agents := c.view.agents[agentId := frozen])))
    else Committed(c)
  }

  predicate MandateStorable(t: Tables, m: Mandate) {
    m.maxAmount >= 0 && m.agentId in t.agents
  }

  function MandateSaved(c: Conn, m: Mandate): Conn {
    if MandateStorable(c.view, m)
    then Committed(c.(view := c.view.(mandates := c.view.mandates[m.mandateId := m])))
    else c
  }

  // ---- the audit log ----

  datatype Event =
    | AuthorizationEvent(
        txnId: string, agentId: string, amount: int, decision: Decision, reason: Reason,
        effective: Decision, riskScore: int, receiptId: string)
    | SettlementEvent(
        txnId: string, orderId: string, paymentId: Option<string>, orderAmount: Option<int>,
        status: Status, viaReconcile: bool)

  /** "authorization" and "settlement" in ASCII. */
  const AUTHORIZATION: Bytes := [97, 117, 116, 104, 111, 114, 105, 122, 97, 116, 105, 111, 110]
  const SETTLEMENT: Bytes := [115, 101, 116, 116, 108, 101, 109, 101, 110, 116]

  function EventType(e: Event): Bytes {
    if e.AuthorizationEvent? then AUTHORIZATION else SETTLEMENT
  }

  /** Library code the log relies on: the hash, the canonical form of an event
      under its random event id, and reading id and event back from that form. */
  datatype Codec = Codec(hash: Hash, canon: (string, Event) -> Bytes, parse: Bytes -> Option<(string, Event)>)

  /** The canonical form of section 3.2.2.2 of RFC 8785 escapes control characters, so
      a raw 0x1f never occurs in it. */
  ghost predicate ControlFree(codec: Codec) {
    forall id, e :: SEPARATOR !in codec.canon(id, e)
  }

  /** And it can be read back. */
  ghost predicate Readable(codec: Codec) {
    forall id, e :: codec.parse(codec.canon(id, e)) == Some((id, e))
  }

  function EventRow(codec: Codec, log: seq<AuditRow>, e: Event, eventId: string): AuditRow {
    NextRow(codec.hash, log, EventType(e), codec.canon(eventId, e))
  }

  /** The entry_hash column is UNIQUE. */
  predicate HashTaken(log: seq<AuditRow>, h: Bytes) {
    exists k | 0 <= k < |log| :: log[k].entryHash == h
  }

  predicate Loggable(codec: Codec, t: Tables, e: Event, eventId: string) {
    !HashTaken(t.log, EventRow(codec, t.log, e, eventId).entryHash)
  }

  function Logged(codec: Codec, c: Conn, e: Event, eventId: string): Conn {
    if Loggable(codec, c.view, e, eventId)
    then Committed(c.(view := c.view.(log := c.view.log + [EventRow(codec, c.view.log, e, eventId)])))
    else c
  }

  /** How a call can end other than by returning. */
  datatype Escape = INTEGRITY_ERROR | DUPLICATE_TRANSACTION_ERROR | LOG_HASH_TAKEN | GATEWAY_ERROR
}
