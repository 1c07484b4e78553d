/** Overlapping calls.  Each authorization reads and judges first, commits later and
    logs last, on its own connection, with any number of calls in between at any
    stage and all other traffic mixed in.  One database transaction is one action,
    and so is the reading of the log's tip, which the program does before the
    transaction that inserts the entry.  A call that settles a row changes the row in
    one action and then logs like any other.  An authorization whose insert dies on an
    uncaught error ends there and its connection's pending write with it. */
module Races {
  import opened Models
  import opened AuditLog
  import opened Schema
  import opened Gate
  import opened Service
  import opened StatusGraph
  import opened Runs
  import opened Nonces

  /** Where a call stands, with what it read and the tables it found when it first wrote. */
  datatype Flight =
    | Judged(call: AuthCall, seen: Context, gate: GateResult)
    | Downgraded(call: AuthCall, seen: Context, gate: GateResult, atCommit: Tables, result: GateResult)
    | Stored(call: AuthCall, seen: Context, gate: GateResult, atCommit: Tables, result: GateResult)
    | Logging(entry: Event)
    | Appending(entry: Event, eventId: string, tip: Bytes, length: nat)
    | Over

  datatype World = World(db: Tables, flights: seq<Flight>)

  datatype Action =
    | Begin(call: AuthCall)
    | Commit(i: nat)
    | StoreBlocked(i: nat)
    | SaveReceipt(i: nat)
    | ReadTip(i: nat, eventId: string)
    | InsertEntry(i: nat)
    | Other(step: Step)

  const START := World(EMPTY, [])

  function Clean(t: Tables): Conn { Conn(t, t) }

  /** Blocked on its reads or by a refusal, with the blocked row still to be stored. */
  predicate HasBlocked(f: Flight) {
    f.Downgraded? || (f.Judged? && f.gate.decision != ALLOW)
  }

  /** The flight this action moves on is at the stage the action is for. */
  predicate Fits(w: World, a: Action) {
    match a
    case Begin(_) => true
    case Commit(i) => i < |w.flights| && w.flights[i].Judged? && w.flights[i].gate.decision == ALLOW
    case StoreBlocked(i) => i < |w.flights| && HasBlocked(w.flights[i])
    case SaveReceipt(i) => i < |w.flights| && w.flights[i].Stored?
    case ReadTip(i, _) => i < |w.flights| && w.flights[i].Logging?
    case InsertEntry(i) => i < |w.flights| && w.flights[i].Appending?
    case Other(step) => !step.op.Authorize?
  }

  /** The row a flight inserts: chained to the tip it read. */
  function EntryRow(env: Env, log: seq<AuditRow>, f: Flight): AuditRow
    requires f.Appending?
  {
    var payload := env.codec.canon(f.eventId, f.entry);
    AuditRow(|log| + 1, EventType(f.entry), payload, f.tip,
             env.codec.hash(Message(f.tip, EventType(f.entry), payload)))
  }

  function CommitOf(t: Tables, f: Flight): (r: (Tables, Flight))
    requires f.Judged? && f.gate.decision == ALLOW
    ensures r.1.Over? || r.1.Downgraded? || r.1.Stored?
    ensures !r.1.Over? ==> r.1.call == f.call && r.1.seen == f.seen && r.1.gate == f.gate && r.1.atCommit == t
  {
    match TryCommit(Clean(t), f.call, f.gate)
    case Persisted(c) => (c.saved, Stored(f.call, f.seen, f.gate, t, f.gate))
    case Refused(c, result) => (c.saved, Downgraded(f.call, f.seen, f.gate, t, result))
    case Stuck(c) => (c.saved, Over)
  }

  function BlockedResult(f: Flight): GateResult
    requires HasBlocked(f)
  {
    if f.Downgraded? then f.result else f.gate
  }

  /** The tables at the call's first write, which for a call blocked on its reads is
      the insert of the blocked row. */
  function FirstWrite(t: Tables, f: Flight): Tables
    requires HasBlocked(f)
  {
    if f.Downgraded? then f.atCommit else t
  }

  function StoreOf(t: Tables, f: Flight): (r: (Tables, Flight))
    requires HasBlocked(f)
    ensures r.1.Over? || r.1.Stored?
    ensures !r.1.Over? ==>
      r.1.call == f.call && r.1.seen == f.seen && r.1.gate == f.gate && r.1.atCommit == FirstWrite(t, f)
  {
    match RecordBlocked(Clean(t), f.call, BlockedResult(f))
    case Recorded(c, result, _) => (c.saved, Stored(f.call, f.seen, f.gate, FirstWrite(t, f), result))
    case Escaped(c, _) => (c.saved, Over)
  }

  /** What a call that is no authorization does to the tables before it logs. */
  function TablesAfter(env: Env, t: Tables, step: Step): Tables {
    After(env, Clean(t), step).saved.(log := t.log)
  }

  /** One action; an action that does not fit does nothing. */
  function Act(env: Env, w: World, a: Action): World {
    if !Fits(w, a) then w
    else match a
      case Begin(call) =>
        World(w.db, w.flights + [Judged(call, ContextOf(env, w.db, call), Decide(env, w.db, call))])
      case Commit(i) =>
        var (t, f) := CommitOf(w.db, w.flights[i]);
        World(t, w.flights[i := f])
      case StoreBlocked(i) =>
        var (t, f) := StoreOf(w.db, w.flights[i]);
        World(t, w.flights[i := f])
      case SaveReceipt(i) =>
        var f := w.flights[i];
        World(WithReceipt(Clean(w.db), f.call, f.result).saved,
              w.flights[i := Logging(AuthorizationEntry(f.call, f.result))])
      case ReadTip(i, eventId) =>
        w.(flights := w.flights[i := Appending(w.flights[i].entry, eventId, Tip(w.db.log), |w.db.log|)])
      case InsertEntry(i) =>
        var row := EntryRow(env, w.db.log, w.flights[i]);
        World(if HashTaken(w.db.log, row.entryHash) then w.db else w.db.(log := w.db.log + [row]),
              w.flights[i := Over])
      case Other(step) =>
        var e := EffectOf(env, Clean(w.db), step);
        World(TablesAfter(env, w.db, step), if e.Unchanged? then w.flights else w.flights + [Logging(e.entry)])
  }

  function Race(env: Env, w: World, actions: seq<Action>): World {
    if actions == [] then w
    else Act(env, Race(env, w, actions[..|actions| - 1]), actions[|actions| - 1])
  }

  // ---- what rows can only do: grow ----

  /** Nonces and rows are never lost, and no row changes its verdict or identity. */
  ghost predicate Grows(t: Tables, t': Tables) {
    && t.nonces.Keys <= t'.nonces.Keys && |t.txns| <= |t'.txns|
    && forall i | 0 <= i < |t.txns| :: SameAttempt(t.txns[i], t'.txns[i])
  }

  lemma GrownReads(t: Tables, t': Tables, call: AuthCall)
    requires Grows(t, t')
    ensures NonceSeen(t, call.txn.nonce) ==> NonceSeen(t', call.txn.nonce)
    ensures KeyAllowed(t.txns, call.txn.idempotencyKey) ==> KeyAllowed(t'.txns, call.txn.idempotencyKey)
    ensures ById(t.txns, call.txn.txnId) < |t.txns| ==>
      ById(t'.txns, call.txn.txnId) < |t'.txns|
      && SameAttempt(t.txns[ById(t.txns, call.txn.txnId)], t'.txns[ById(t'.txns, call.txn.txnId)])
  {
    if KeyAllowed(t.txns, call.txn.idempotencyKey) {
      var i :| 0 <= i < |t.txns| && t.txns[i].decision == ALLOW && t.txns[i].idempotencyKey == call.txn.idempotencyKey;
      assert SameAttempt(t.txns[i], t'.txns[i]);
    }
    var k := ById(t.txns, call.txn.txnId);
    if k < |t.txns| {
      assert SameAttempt(t.txns[k], t'.txns[k]);
      forall i | 0 <= i < k
        ensures t'.txns[i].txnId != call.txn.txnId
      {
        assert SameAttempt(t.txns[i], t'.txns[i]);
      }
    }
  }

  // ---- what every flight carries ----

  /** A stored row with this call's id tells this result. */
  predicate RowTells(t: Tables, call: AuthCall, result: GateResult) {
    var i := ById(t.txns, call.txn.txnId);
    i < |t.txns| && t.txns[i].decision == result.decision && t.txns[i].reason == result.reason
  }

  /** The verdict rests on the reads, and what was used when read was used at commit. */
  predicate HistoryOk(env: Env, t: Tables, call: AuthCall, seen: Context, gate: GateResult) {
    && gate == Verdict(env.verifies, call.txn, call.offer, seen)
    && (seen.nonceSeen ==> NonceSeen(t, call.txn.nonce))
    && (seen.idempotencySeen ==> KeyAllowed(t.txns, call.txn.idempotencyKey))
  }

  /** Why an attempt on these tables was refused. */
  predicate RefusedFor(t: Tables, call: AuthCall, result: GateResult) {
    && result.decision == BLOCK
    && if !NonceInsertable(t, call.txn.nonce, call.txn.mandate.mandateId) then result.reason == NONCE_REPLAY
       else
         && result.reason == DUPLICATE_TRANSACTION
         && (KeyAllowed(t.txns, call.txn.idempotencyKey) || ById(t.txns, call.txn.txnId) < |t.txns|)
  }

  predicate FlightOk(env: Env, t: Tables, f: Flight) {
    match f
    case Judged(call, seen, gate) => HistoryOk(env, t, call, seen, gate)
    case Downgraded(call, seen, gate, atCommit, result) =>
      && HistoryOk(env, atCommit, call, seen, gate)
      && gate.decision == ALLOW && RefusedFor(atCommit, call, result)
      && (ById(atCommit.txns, call.txn.txnId) < |atCommit.txns| ==> ById(t.txns, call.txn.txnId) < |t.txns|)
    case Stored(call, seen, gate, atCommit, result) =>
      && HistoryOk(env, atCommit, call, seen, gate)
      && RowTells(t, call, result)
      && (gate.decision != ALLOW ==> result == gate)
      && (gate.decision == ALLOW ==>
            if result.decision == ALLOW
            then result == gate && !NonceSeen(atCommit, call.txn.nonce)
                 && call.txn.mandate.mandateId in atCommit.mandates
                 && !KeyAllowed(atCommit.txns, call.txn.idempotencyKey)
            else RefusedFor(atCommit, call, result) && ById(atCommit.txns, call.txn.txnId) == |atCommit.txns|)
    case _ => true
  }

  lemma FlightStaysOk(env: Env, t: Tables, t': Tables, f: Flight)
    requires FlightOk(env, t, f) && Grows(t, t')
    ensures FlightOk(env, t', f)
  {
    hide Verdict, RefusedFor, Grows;
    if f.Judged? || f.Downgraded? || f.Stored? {
      GrownReads(t, t', f.call);
    }
  }

  /** The constraints carry what stale reads cannot. */
  ghost predicate Safe(env: Env, w: World) {
    && Valid(w.db) && NoncesExact(w.db)
    && (forall i | 0 <= i < |w.flights| :: FlightOk(env, w.db, w.flights[i]))
  }

  lemma GateIsOk(verifies: Verifies, call: AuthCall, seen: Context)
    ensures var gate := Verdict(verifies, call.txn, call.offer, seen);
      if gate.decision == ALLOW then gate.reason == OK else gate.decision == BLOCK && gate.reason != OK
  {
    VerdictCases(verifies, call.txn, call.offer, seen);
  }

  lemma CommitKeepsTables(env: Env, t: Tables, f: Flight)
    requires Valid(t) && NoncesExact(t) && f.Judged? && f.gate.decision == ALLOW && FlightOk(env, t, f)
    ensures var t' := CommitOf(t, f).0;
      Valid(t') && NoncesExact(t') && Grows(t, t')
  {
    hide Verdict, ById, KeyAllowed, StatusFor;
    GateIsOk(env.verifies, f.call, f.seen);
    AttemptKeepsInv(Clean(t), f.call, f.gate);
    if !TryCommit(Clean(t), f.call, f.gate).Stuck? {
      AttemptKeepsExact(Clean(t), f.call, f.gate);
    }
  }

  lemma CommitKeepsFlight(env: Env, t: Tables, f: Flight)
    requires f.Judged? && f.gate.decision == ALLOW && FlightOk(env, t, f)
    ensures FlightOk(env, CommitOf(t, f).0, CommitOf(t, f).1)
  {
    GateIsOk(env.verifies, f.call, f.seen);
    hide Verdict;
    if TryCommit(Clean(t), f.call, f.gate).Persisted? {
      RowFound(t, RowOf(f.call.txn, f.gate, StatusFor(f.gate, f.call.risk)));
    }
  }

  lemma RowFound(t: Tables, row: TxnRow)
    requires ById(t.txns, row.txnId) == |t.txns|
    ensures ById(t.txns + [row], row.txnId) == |t.txns|
  {
    assert (t.txns + [row])[|t.txns|] == row;
  }

  lemma StoreKeepsTables(env: Env, t: Tables, f: Flight)
    requires Valid(t) && NoncesExact(t) && HasBlocked(f) && FlightOk(env, t, f)
    ensures var t' := StoreOf(t, f).0;
      Valid(t') && NoncesExact(t') && Grows(t, t')
  {
    hide Verdict, ById, KeyAllowed, NonceInsertable, TxnInsertError;
    GateIsOk(env.verifies, f.call, f.seen);
    BlockedKeepsInv(Clean(t), f.call, BlockedResult(f));
    RecordBlockedKeepsExact(Clean(t), f.call, BlockedResult(f));
  }

  lemma StoreKeepsFlight(env: Env, t: Tables, f: Flight)
    requires HasBlocked(f) && FlightOk(env, t, f)
    ensures FlightOk(env, StoreOf(t, f).0, StoreOf(t, f).1)
  {
    GateIsOk(env.verifies, f.call, f.seen);
    hide Verdict, KeyAllowed, NonceInsertable;
    var row := RowOf(f.call.txn, BlockedResult(f), BLOCKED);
    if TxnInsertError(t, row).None? {
      RowFound(t, row);
    }
  }

  lemma OtherIsSafe(env: Env, t: Tables, step: Step)
    requires Valid(t) && NoncesExact(t) && !step.op.Authorize?
    ensures var t' := TablesAfter(env, t, step);
      Valid(t') && NoncesExact(t') && Grows(t, t') && t' == After(env, Clean(t), step).view.(log := t.log)
  {
    hide Valid, After, NoncesExact;
    StepKeepsInv(env, Clean(t), step);
    OtherStepsKeepExact(env, Clean(t), step);
    var t' := After(env, Clean(t), step).view;
    SideTablesAreSafe(t', t'.(log := t.log));
    assert |t.txns| <= |t'.txns| by { RunKeepsRows(env, Clean(t), step); }
    forall i | 0 <= i < |t.txns|
      ensures SameAttempt(t.txns[i], t'.txns[i])
    {
      StepFollowsEdge(env, Clean(t), step, i);
    }
  }

  lemma RunKeepsRows(env: Env, c: Conn, step: Step)
    requires Inv(c)
    ensures |c.view.txns| <= |After(env, c, step).view.txns|
  {
    hide Apply, EffectOf;
    StepEffect(env, c, step);
  }

  /** Log and receipts are beside the constraints. */
  lemma SideTablesAreSafe(t: Tables, t': Tables)
    requires Valid(t) && NoncesExact(t) && t' == t.(log := t'.log, receipts := t'.receipts)
    ensures Valid(t') && NoncesExact(t') && Grows(t, t')
  {
    GrowthKeepsValid(t, t');
  }

  lemma ActKeepsSafe(env: Env, w: World, a: Action)
    requires Safe(env, w)
    ensures Safe(env, Act(env, w, a)) && Grows(w.db, Act(env, w, a).db)
  {
    var w' := Act(env, w, a);
    if Fits(w, a) {
      match a {
        case Commit(i) =>
          CommitKeepsTables(env, w.db, w.flights[i]);
          CommitKeepsFlight(env, w.db, w.flights[i]);
        case StoreBlocked(i) =>
          StoreKeepsTables(env, w.db, w.flights[i]);
          StoreKeepsFlight(env, w.db, w.flights[i]);
        case Other(step) => OtherIsSafe(env, w.db, step);
        case _ => SideTablesAreSafe(w.db, w'.db);
      }
    } else {
      SideTablesAreSafe(w.db, w.db);
    }
    hide Valid, NoncesExact, Grows, Verdict, CommitOf, StoreOf, TablesAfter, EffectOf;
    forall i | 0 <= i < |w'.flights|
      ensures FlightOk(env, w'.db, w'.flights[i])
    {
      if i < |w.flights| && w'.flights[i] == w.flights[i] {
        FlightStaysOk(env, w.db, w'.db, w.flights[i]);
      }
    }
  }

  lemma {:induction false} RaceStaysSafe(env: Env, actions: seq<Action>)
    ensures Safe(env, Race(env, START, actions))
  {
    hide Act;
    if actions != [] {
      RaceStaysSafe(env, actions[..|actions| - 1]);
      ActKeepsSafe(env, Race(env, START, actions[..|actions| - 1]), actions[|actions| - 1]);
    }
  }

  /** Races cannot double-authorize.  In every interleaving no nonce and no
      idempotency key appears in two ALLOW rows, and the nonces table is exactly the
      nonces of the ALLOW rows, one to one. */
  lemma RacesCannotDoubleAuthorize(env: Env, actions: seq<Action>)
    ensures var t := Race(env, START, actions).db;
      && (forall i, j | 0 <= i < j < |t.txns| && t.txns[i].decision == ALLOW && t.txns[j].decision == ALLOW ::
            t.txns[i].nonce != t.txns[j].nonce && t.txns[i].idempotencyKey != t.txns[j].idempotencyKey)
      && t.nonces.Keys == set i | 0 <= i < |t.txns| && t.txns[i].decision == ALLOW :: t.txns[i].nonce
  {
    hide Race;
    RaceStaysSafe(env, actions);
    ExactMeansOneToOne(Race(env, START, actions).db);
  }

  /** One record in every race too: the receipt a call saves and the entry it goes on to
      log tell the decision and reason of its stored row, and what the call presented. */
  lemma RacedRecordAgrees(env: Env, actions: seq<Action>, i: nat)
    requires Fits(Race(env, START, actions), SaveReceipt(i))
    ensures var w, w' := Race(env, START, actions), Race(env, START, actions + [SaveReceipt(i)]);
      var call, txn := w.flights[i].call, w.flights[i].call.txn;
      var k := ById(w.db.txns, txn.txnId);
      && w'.db == w.db.(receipts := w'.db.receipts) && k < |w.db.txns|
      && var row := w.db.txns[k];
      && w'.db.receipts == w.db.receipts[call.receiptId := Receipt(
           call.receiptId, txn.txnId, txn.agentId, txn.mandate.mandateId, txn.mandate.maxAmount, txn.sku,
           if call.offer.Some? then call.offer.value.category else txn.category, txn.amount, txn.mandate.currency,
           if call.offer.Some? then Some(call.offer.value.merchantId) else None,
           txn.priceSource, row.decision, row.reason, call.orderRef, call.paymentRef)]
      && w'.flights == w.flights[i := Logging(AuthorizationEvent(
           txn.txnId, txn.agentId, txn.amount, row.decision, row.reason, Effective(row.decision, call.risk.action),
           call.risk.score, call.receiptId))]
  {
    hide Verdict, Valid, NoncesExact;
    var w, a := Race(env, START, actions), SaveReceipt(i);
    RaceStaysSafe(env, actions);
    assert (actions + [a])[..|actions|] == actions;
    assert Race(env, START, actions + [a]) == Act(env, w, a);
    assert FlightOk(env, w.db, w.flights[i]);
    StoredDecision(env, w.db, w.flights[i]);
  }

  lemma StoredDecision(env: Env, t: Tables, f: Flight)
    requires f.Stored? && FlightOk(env, t, f)
    ensures f.result.decision == ALLOW || f.result.decision == BLOCK
  {
    GateIsOk(env.verifies, f.call, f.seen);
  }

  // ---- the reason a call ends with ----

  /** What the gate would see at commit time, clock and frozen flag unchanged. */
  function AtCommit(t: Tables, call: AuthCall, stale: Context): Context {
    stale.(nonceSeen := NonceSeen(t, call.txn.nonce), idempotencySeen := KeyAllowed(t.txns, call.txn.idempotencyKey))
  }

  /** When nothing comes between the attempt and the blocked row, an approval on stale
      reads is recorded exactly when schema and tables allow a row at all, and always
      with the decision and reason the gate gives on the tables at commit. */
  lemma DowngradeNamesTheRightReason(env: Env, t: Tables, call: AuthCall, stale: Context)
    requires Verdict(env.verifies, call.txn, call.offer, stale).decision == ALLOW
    ensures var gate := Verdict(env.verifies, call.txn, call.offer, stale);
      var now := Verdict(env.verifies, call.txn, call.offer, AtCommit(t, call, stale));
      var phase := CommitPhase(Clean(t), call, gate);
      && (phase.Recorded? <==>
            && call.txn.amount >= 0 && ById(t.txns, call.txn.txnId) == |t.txns|
            && call.txn.mandate.mandateId in t.mandates && call.txn.agentId in t.agents)
      && (phase.Recorded? ==>
            && phase.result.decision == now.decision && phase.result.reason == now.reason
            && phase.result.checks == gate.checks
            && (phase.persisted <==> now.decision == ALLOW))
  {
    VerdictCases(env.verifies, call.txn, call.offer, stale);
    VerdictOnLaterReads(env.verifies, call.txn, call.offer, stale, AtCommit(t, call, stale));
    hide Verdict;
  }

  /** The fields of a flight are what happened to it: it began with these reads at one
      action, and found these tables at its first write, a later one. */
  lemma {:induction false} HistoryIsTrue(env: Env, actions: seq<Action>, i: nat) returns (b: nat, n: nat)
    requires i < |Race(env, START, actions).flights|
    ensures b <= |actions| && n <= |actions|
    ensures var f := Race(env, START, actions).flights[i];
      && (f.Judged? || f.Downgraded? || f.Stored? ==>
            && b < |actions| && actions[b] == Begin(f.call)
            && f.seen == ContextOf(env, Race(env, START, actions[..b]).db, f.call)
            && f.gate == Decide(env, Race(env, START, actions[..b]).db, f.call))
      && (f.Downgraded? || f.Stored? ==>
            && b < n < |actions| && actions[n] == (if f.gate.decision == ALLOW then Commit(i) else StoreBlocked(i))
            && f.atCommit == Race(env, START, actions[..n]).db)
  {
    hide CommitOf, StoreOf, Decide, ContextOf, TablesAfter, EffectOf, EntryRow;
    b, n := 0, 0;
    if actions != [] {
      var before, last := actions[..|actions| - 1], actions[|actions| - 1];
      var w := Race(env, START, before);
      assert Race(env, START, actions) == Act(env, w, last);
      if i < |w.flights| {
        b, n := HistoryIsTrue(env, before, i);
        assert before[..b] == actions[..b] && before[..n] == actions[..n];
        if w.flights[i].Judged? && (last == Commit(i) || last == StoreBlocked(i)) {
          n := |before|;
        }
      } else {
        b := |before|;
      }
      assert actions[..|before|] == before;
    }
  }

  /** The condition under which a stored result is what the gate says at commit. */
  predicate RightReason(t: Tables, call: AuthCall, gate: GateResult) {
    if gate.decision == ALLOW
    then NonceSeen(t, call.txn.nonce) || call.txn.mandate.mandateId in t.mandates
    else gate.reason == DUPLICATE_TRANSACTION ==> !NonceSeen(t, call.txn.nonce)
  }

  /** In every race, a call that began at action b, first wrote at action n and has its
      row stored carries there exactly the decision and reason the gate gives on the
      tables at that write, clock and frozen flag as read, if and only if
      - allowed on its reads, it found its nonce used or its mandate on file;
      - blocked on its reads for the key, it did not find its nonce used by then;
      blocked for any other reason, always. */
  lemma RacedReasonIsRightIff(env: Env, actions: seq<Action>, i: nat) returns (b: nat, n: nat)
    requires i < |Race(env, START, actions).flights| && Race(env, START, actions).flights[i].Stored?
    ensures b < n < |actions| && actions[b].Begin? && (actions[n] == Commit(i) || actions[n] == StoreBlocked(i))
    ensures var call, t := actions[b].call, Race(env, START, actions[..n]).db;
      var gate := Decide(env, Race(env, START, actions[..b]).db, call);
      var seen := ContextOf(env, Race(env, START, actions[..b]).db, call);
      var now := Verdict(env.verifies, call.txn, call.offer, AtCommit(t, call, seen));
      var result := Race(env, START, actions).flights[i].result;
      && RowTells(Race(env, START, actions).db, call, result)
      && (actions[n].Commit? <==> gate.decision == ALLOW)
      && (result.decision == now.decision && result.reason == now.reason <==> RightReason(t, call, gate))
  {
    hide Race;
    b, n := HistoryIsTrue(env, actions, i);
    RaceStaysSafe(env, actions);
    hide Decide, ContextOf;
    StoredReason(env, Race(env, START, actions).db, Race(env, START, actions).flights[i]);
  }

  lemma StoredReason(env: Env, t: Tables, f: Flight)
    requires f.Stored? && FlightOk(env, t, f)
    ensures var now := Verdict(env.verifies, f.call.txn, f.call.offer, AtCommit(f.atCommit, f.call, f.seen));
      f.result.decision == now.decision && f.result.reason == now.reason <==> RightReason(f.atCommit, f.call, f.gate)
  {
    var later := AtCommit(f.atCommit, f.call, f.seen);
    GateIsOk(env.verifies, f.call, f.seen);
    if f.gate.decision == ALLOW {
      VerdictOnLaterReads(env.verifies, f.call.txn, f.call.offer, f.seen, later);
    } else {
      BlockOnLaterReads(env.verifies, f.call.txn, f.call.offer, f.seen, later);
    }
    hide Verdict;
  }

  /** The state after the first n actions of a race, and the action that follows. */
  lemma RaceUnfolds(env: Env, w: World, actions: seq<Action>, n: nat)
    requires n < |actions|
    ensures Race(env, w, actions[..n + 1]) == Act(env, Race(env, w, actions[..n]), actions[n])
  {
    assert actions[..n + 1][..n] == actions[..n];
  }

  const EARLY_CALL := AuthCall(
    TransactionRequest("t", STORED, "a", "s", "c", 5, MERCHANT_RECORD, "n", "k"),
    Some(MerchantRecord("s", "shop", "c", 5, 0, 0, true)), 1, RiskSignal(0, NORMAL), "r", None, None)

  const WRONG_REASON_RACE := [
    Other(Step(RegisterAgent("a"), "")), Begin(EARLY_CALL), Commit(0), Other(Step(SaveMandate(STORED), "")),
    StoreBlocked(0)]

  /** A concrete race that stores the wrong reason: the mandate is saved between the
      refused attempt and the blocked row.  The call ends as a replay of a nonce that
      nobody ever used, where the gate would have allowed it. */
  lemma WrongReasonExample(env: Env)
    requires env.trustedIssuerKeys == Some({"pk"}) && env.verifies("pk", STORED.Body(), "sig")
    ensures var w := Race(env, START, WRONG_REASON_RACE);
      && |w.flights| == 1 && w.flights[0].Stored? && w.flights[0].call == EARLY_CALL
      && w.flights[0].result.decision == BLOCK && w.flights[0].result.reason == NONCE_REPLAY
      && w.db.nonces == map[]
      && !RightReason(w.flights[0].atCommit, EARLY_CALL, w.flights[0].gate)
      && Verdict(env.verifies, EARLY_CALL.txn, EARLY_CALL.offer,
                 AtCommit(w.flights[0].atCommit, EARLY_CALL, w.flights[0].seen)).decision == ALLOW
  {
    EarlyCallIsAllowed(env);
    EarlyCallIsRefused(env);
    hide Race, ContextOf, Verdict, RowOf;
  }

  const ONE_AGENT := EMPTY.(agents := map["a" := false])

  lemma EarlyCallIsAllowed(env: Env)
    requires env.trustedIssuerKeys == Some({"pk"}) && env.verifies("pk", STORED.Body(), "sig")
    ensures var seen := ContextOf(env, ONE_AGENT, EARLY_CALL);
      !seen.nonceSeen && !seen.idempotencySeen && Decide(env, ONE_AGENT, EARLY_CALL).decision == ALLOW
      && Verdict(env.verifies, EARLY_CALL.txn, EARLY_CALL.offer, AtCommit(ONE_AGENT, EARLY_CALL, seen)).decision == ALLOW
  {
    hide Verdict, KeyAllowed;
    var seen := ContextOf(env, ONE_AGENT, EARLY_CALL);
    NoKeys("k");
    assert Clears(env.verifies, EARLY_CALL.txn, EARLY_CALL.offer, seen);
    VerdictCases(env.verifies, EARLY_CALL.txn, EARLY_CALL.offer, seen);
    assert AtCommit(ONE_AGENT, EARLY_CALL, seen) == seen;
  }

  lemma EarlyCallIsRefused(env: Env)
    requires Decide(env, ONE_AGENT, EARLY_CALL).decision == ALLOW
    ensures var seen, gate := ContextOf(env, ONE_AGENT, EARLY_CALL), Decide(env, ONE_AGENT, EARLY_CALL);
      var refused := GateResult(BLOCK, NONCE_REPLAY, gate.checks);
      Race(env, START, WRONG_REASON_RACE)
      == World(AddTxn(ONE_AGENT.(mandates := map["m" := STORED]), RowOf(EARLY_CALL.txn, refused, BLOCKED)),
               [Stored(EARLY_CALL, seen, gate, ONE_AGENT, refused)])
  {
    var s := WRONG_REASON_RACE;
    FiveActions(env, s);
    hide Decide, ContextOf, ById, KeyAllowed, Race;
    var seen, gate := ContextOf(env, ONE_AGENT, EARLY_CALL), Decide(env, ONE_AGENT, EARLY_CALL);
    var refused := GateResult(BLOCK, NONCE_REPLAY, gate.checks);
    var w1 := World(ONE_AGENT, []);
    var w2 := World(ONE_AGENT, [Judged(EARLY_CALL, seen, gate)]);
    var w3 := World(ONE_AGENT, [Downgraded(EARLY_CALL, seen, gate, ONE_AGENT, refused)]);
    var w4 := World(ONE_AGENT.(mandates := map["m" := STORED]), w3.flights);
    assert Act(env, START, s[0]) == w1;
    assert Act(env, w1, s[1]) == w2;
    assert Act(env, w2, s[2]) == w3;
    assert Act(env, w3, s[3]) == w4;
    NoRows("t");
  }

  lemma NoKeys(key: string)
    ensures !KeyAllowed([], key)
  {
  }

  lemma NoRows(id: string)
    ensures ById([], id) == 0
  {
  }

  lemma FiveActions(env: Env, s: seq<Action>)
    requires |s| == 5
    ensures Race(env, START, s)
         == Act(env, Act(env, Act(env, Act(env, Act(env, START, s[0]), s[1]), s[2]), s[3]), s[4])
  {
    hide Act;
    RaceUnfolds(env, START, s, 0);
    RaceUnfolds(env, START, s, 1);
    RaceUnfolds(env, START, s, 2);
    RaceUnfolds(env, START, s, 3);
    RaceUnfolds(env, START, s, 4);
    assert s[..0] == [] && s[..5] == s;
  }

  /** Two racing approvals of one nonce, or of one key: the later commit is blocked. */
  lemma SecondOfTwoIsBlocked(t: Tables, first: AuthCall, second: AuthCall, g1: GateResult, g2: GateResult)
    requires g1.decision == ALLOW && g2.decision == ALLOW
    requires TryCommit(Clean(t), first, g1).Persisted?
    requires first.txn.nonce == second.txn.nonce || first.txn.idempotencyKey == second.txn.idempotencyKey
    ensures var t' := TryCommit(Clean(t), first, g1).conn.saved;
      !TryCommit(Clean(t'), second, g2).Persisted?
  {
    var t' := TryCommit(Clean(t), first, g1).conn.saved;
    assert t'.txns[|t.txns|].decision == ALLOW && t'.txns[|t.txns|].idempotencyKey == first.txn.idempotencyKey;
  }
}
