/** Replaying the log of a race.  Calls log after they have written, so the entries of
    one transaction can stand in another order than the changes they tell. */
module RacedReplay {
  import opened Models
  import opened AuditLog
  import opened Schema
  import opened Service
  import opened StatusGraph
  import opened Runs
  import opened Replay
  import opened Races
  import opened RacedLog

  // ---- stages of a transaction ----

  /** How far a status and order id are; an empty order id can still be exchanged. */
  function StageOf(status: Status, orderId: Option<string>): nat {
    match status
    case PENDING_SETTLEMENT => if orderId == Some("") then 1 else 2
    case FAILED => 3
    case SETTLED => 4
    case _ => 0
  }

  /** The status and order id an entry tells of its transaction. */
  function Told(e: Event): (Status, Option<string>) {
    match e
    case AuthorizationEvent(_, _, _, decision, _, effective, _, _) =>
      (if decision != ALLOW then BLOCKED else if effective == ALLOW then AUTHORIZED else REVIEW_HOLD, None)
    case SettlementEvent(_, orderId, _, _, status, _) => (status, Some(orderId))
  }

  function Stage(e: Event): nat {
    StageOf(Told(e).0, Told(e).1)
  }

  // ---- entries in the log and in flight ----

  /** The k-th entry of the log, read back from its bytes. */
  function EntryAt(codec: Codec, log: seq<AuditRow>, k: nat): Option<Event>
    requires k < |log|
  {
    match codec.parse(log[k].payload) case None => None case Some((_, e)) => Some(e)
  }

  /** The entry a flight still has to log. */
  function EntryOf(f: Flight): Option<Event> {
    match f
    case Stored(call, _, _, _, result) => Some(AuthorizationEntry(call, result))
    case Logging(entry) => Some(entry)
    case Appending(entry, _, _, _) => Some(entry)
    case _ => None
  }

  ghost function InLog(codec: Codec, log: seq<AuditRow>): set<Option<Event>> {
    set k | 0 <= k < |log| :: EntryAt(codec, log, k)
  }

  ghost function InFlight(flights: seq<Flight>): set<Option<Event>> {
    set i | 0 <= i < |flights| && EntryOf(flights[i]).Some? :: EntryOf(flights[i])
  }

  ghost function Entries(env: Env, w: World): set<Option<Event>> {
    InLog(env.codec, w.db.log) + InFlight(w.flights)
  }

  // ---- entries against rows ----

  /** The entry is about this row, tells no later stage, and at its stage tells the row. */
  predicate IsAbout(e: Event, row: TxnRow) {
    && e.txnId == row.txnId
    && Stage(e) <= StageOf(row.status, row.orderId)
    && (Stage(e) == StageOf(row.status, row.orderId) ==> Told(e) == (row.status, row.orderId))
    && (e.AuthorizationEvent? ==>
          e.amount == row.amount && e.decision == row.decision && e.reason == row.reason)
    && (e.SettlementEvent? ==> Stage(e) > 0)
  }

  /** The entry could be read and is about some row. */
  predicate Known(txns: seq<TxnRow>, x: Option<Event>) {
    x.Some? && exists i | 0 <= i < |txns| :: IsAbout(x.value, txns[i])
  }

  predicate Opens(x: Option<Event>, row: TxnRow) {
    x.Some? && x.value.AuthorizationEvent? && x.value.txnId == row.txnId
  }

  predicate TellsNow(x: Option<Event>, row: TxnRow) {
    x.Some? && x.value.txnId == row.txnId && Told(x.value) == (row.status, row.orderId)
  }

  /** The row has the entries of its beginning and of where it is now. */
  ghost predicate Covered(entries: set<Option<Event>>, row: TxnRow) {
    (exists x | x in entries :: Opens(x, row)) && (exists x | x in entries :: TellsNow(x, row))
  }

  /** Every entry has its row and every row its entries. */
  ghost predicate Kept(entries: set<Option<Event>>, txns: seq<TxnRow>) {
    && (forall x {:trigger Known(txns, x)} | x in entries :: Known(txns, x))
    && (forall i {:trigger Covered(entries, txns[i])} | 0 <= i < |txns| :: Covered(entries, txns[i]))
  }

  ghost predicate UniqueIds(txns: seq<TxnRow>) {
    forall i, j | 0 <= i < j < |txns| :: txns[i].txnId != txns[j].txnId
  }

  lemma StillCovered(entries: set<Option<Event>>, more: set<Option<Event>>, row: TxnRow)
    requires entries <= more && Covered(entries, row)
    ensures Covered(more, row)
  {
    hide Told;
    var x :| x in entries && Opens(x, row);
    var y :| y in entries && TellsNow(y, row);
    assert x in more && y in more;
  }

  lemma StillKnown(txns: seq<TxnRow>, txns': seq<TxnRow>, x: Option<Event>)
    requires Known(txns, x) && |txns| <= |txns'|
    requires forall i | 0 <= i < |txns| :: txns'[i] == txns[i] || MovesOn(txns[i], txns'[i])
    ensures Known(txns', x)
  {
    var i :| 0 <= i < |txns| && IsAbout(x.value, txns[i]);
    hide StageOf, Told;
    assert IsAbout(x.value, txns'[i]);
  }

  lemma RowAdded(entries: set<Option<Event>>, txns: seq<TxnRow>, row: TxnRow, e: Event)
    requires Kept(entries, txns)
    requires e.AuthorizationEvent? && IsAbout(e, row) && Told(e) == (row.status, row.orderId)
    ensures Kept(entries + {Some(e)}, txns + [row])
  {
    var more, txns' := entries + {Some(e)}, txns + [row];
    assert IsAbout(e, txns'[|txns|]) && Known(txns', Some(e));
    assert Covered(more, row) by {
      assert Some(e) in more && Opens(Some(e), row) && TellsNow(Some(e), row);
    }
    hide Covered, Known, IsAbout, Told;
    forall x | x in more
      ensures Known(txns', x)
    {
      if x != Some(e) {
        assert Known(txns, x);
        StillKnown(txns, txns', x);
      }
    }
    forall i | 0 <= i < |txns'|
      ensures Covered(more, txns'[i])
    {
      if i < |txns| {
        assert Covered(entries, txns[i]);
        StillCovered(entries, more, txns[i]);
      }
    }
  }

  /** The row moves on, or stays at a stage that says all the log tells of it. */
  predicate MovesOn(row: TxnRow, row': TxnRow) {
    && SameAttempt(row, row')
    && StageOf(row.status, row.orderId) <= StageOf(row'.status, row'.orderId)
    && (StageOf(row.status, row.orderId) == StageOf(row'.status, row'.orderId) ==>
          row'.status == row.status && row'.orderId == row.orderId)
  }

  lemma RowUpdated(entries: set<Option<Event>>, txns: seq<TxnRow>, i: nat, row: TxnRow, e: Event)
    requires Kept(entries, txns) && i < |txns| && MovesOn(txns[i], row)
    requires e.SettlementEvent? && e.txnId == row.txnId && Told(e) == (row.status, row.orderId) && Stage(e) > 0
    ensures Kept(entries + {Some(e)}, txns[i := row])
  {
    var more, txns' := entries + {Some(e)}, txns[i := row];
    assert IsAbout(e, txns'[i]) && Known(txns', Some(e));
    assert Covered(entries, txns[i]);
    assert Covered(more, row) by {
      var x :| x in entries && Opens(x, txns[i]);
      assert x in more && Opens(x, row) && Some(e) in more && TellsNow(Some(e), row);
    }
    hide Covered, Known, IsAbout, Told, Stage;
    forall x | x in more
      ensures Known(txns', x)
    {
      if x != Some(e) {
        assert Known(txns, x);
        StillKnown(txns, txns', x);
      }
    }
    forall k | 0 <= k < |txns'|
      ensures Covered(more, txns'[k])
    {
      if k != i {
        assert Covered(entries, txns[k]);
        StillCovered(entries, more, txns[k]);
      }
    }
  }

  // ---- every action keeps them ----

  /** This action drops an entry, because the log already holds its hash. */
  predicate Refuses(env: Env, w: World, a: Action) {
    a.InsertEntry? && Fits(w, a) && HashTaken(w.db.log, EntryRow(env, w.db.log, w.flights[a.i]).entryHash)
  }

  lemma LoggedMore(codec: Codec, log: seq<AuditRow>, row: AuditRow)
    ensures InLog(codec, log + [row]) == InLog(codec, log) + {EntryAt(codec, [row], 0)}
  {
    var log' := log + [row];
    forall x | x in InLog(codec, log) + {EntryAt(codec, [row], 0)}
      ensures x in InLog(codec, log')
    {
      if x in InLog(codec, log) {
        var k :| 0 <= k < |log| && EntryAt(codec, log, k) == x;
        assert EntryAt(codec, log', k) == x;
      } else {
        assert EntryAt(codec, log', |log|) == x;
      }
    }
    forall x | x in InLog(codec, log')
      ensures x in InLog(codec, log) + {EntryAt(codec, [row], 0)}
    {
      var k :| 0 <= k < |log'| && EntryAt(codec, log', k) == x;
      if k < |log| {
        assert EntryAt(codec, log, k) == x;
      }
    }
  }

  lemma FlightAdded(flights: seq<Flight>, f: Flight)
    ensures InFlight(flights + [f]) == InFlight(flights) + (if EntryOf(f).Some? then {EntryOf(f)} else {})
  {
    var flights' := flights + [f];
    assert forall i | 0 <= i < |flights| :: flights'[i] == flights[i];
    assert flights'[|flights|] == f;
    forall x | x in InFlight(flights)
      ensures x in InFlight(flights')
    {
      var i :| 0 <= i < |flights| && EntryOf(flights[i]).Some? && EntryOf(flights[i]) == x;
      assert EntryOf(flights'[i]) == x;
    }
    assert EntryOf(flights'[|flights|]) == EntryOf(f);
  }

  /** A flight that had nothing to log, or keeps what it has, changes nothing but itself. */
  lemma FlightMoved(flights: seq<Flight>, i: nat, f: Flight)
    requires i < |flights| && (EntryOf(flights[i]).Some? ==> EntryOf(f) == EntryOf(flights[i]))
    ensures InFlight(flights[i := f]) == InFlight(flights) + (if EntryOf(f).Some? then {EntryOf(f)} else {})
  {
    var flights' := flights[i := f];
    forall x | x in InFlight(flights)
      ensures x in InFlight(flights')
    {
      var k :| 0 <= k < |flights| && EntryOf(flights[k]).Some? && EntryOf(flights[k]) == x;
      assert EntryOf(flights'[k]) == x;
    }
    assert EntryOf(flights'[i]) == EntryOf(f);
    forall x | x in InFlight(flights')
      ensures x in InFlight(flights) || x == EntryOf(f)
    {
      var k :| 0 <= k < |flights'| && EntryOf(flights'[k]).Some? && EntryOf(flights'[k]) == x;
      assert k != i ==> EntryOf(flights[k]) == x;
    }
  }

  /** A flight that has logged its entry takes at most that one out of the air. */
  lemma FlightDone(flights: seq<Flight>, i: nat)
    requires i < |flights| && EntryOf(flights[i]).Some?
    ensures InFlight(flights[i := Over]) + {EntryOf(flights[i])} == InFlight(flights)
  {
    var flights' := flights[i := Over];
    forall x | x in InFlight(flights)
      ensures x in InFlight(flights') + {EntryOf(flights[i])}
    {
      var k :| 0 <= k < |flights| && EntryOf(flights[k]).Some? && EntryOf(flights[k]) == x;
      assert k != i ==> EntryOf(flights'[k]) == x;
    }
    forall x | x in InFlight(flights')
      ensures x in InFlight(flights)
    {
      var k :| 0 <= k < |flights'| && EntryOf(flights'[k]).Some? && EntryOf(flights'[k]) == x;
      assert EntryOf(flights[k]) == x;
    }
  }

  lemma CommitKeepsKept(env: Env, w: World, i: nat)
    requires Fits(w, Commit(i)) && FlightOk(env, w.db, w.flights[i]) && Kept(Entries(env, w), w.db.txns)
    ensures var w' := Act(env, w, Commit(i)); Kept(Entries(env, w'), w'.db.txns)
  {
    var f, w' := w.flights[i], Act(env, w, Commit(i));
    var f' := w'.flights[i];
    CommitRows(w.db, f);
    FlightMoved(w.flights, i, f');
    hide Kept, CommitOf, FlightOk, RowOf, StatusFor;
    if f'.Stored? {
      var row := RowOf(f.call.txn, f.gate, StatusFor(f.gate, f.call.risk));
      StoredRowFits(f.call, f.gate, row);
      RowAdded(Entries(env, w), w.db.txns, row, EntryOf(f').value);
      assert Entries(env, w') == Entries(env, w) + {EntryOf(f')};
    } else {
      assert Entries(env, w') == Entries(env, w);
    }
  }

  /** A commit adds the authorized row and its entry, or neither. */
  lemma CommitRows(t: Tables, f: Flight)
    requires f.Judged? && f.gate.decision == ALLOW
    ensures var (t', f') := CommitOf(t, f);
      && t'.log == t.log
      && (if f'.Stored?
          then t'.txns == t.txns + [RowOf(f.call.txn, f.gate, StatusFor(f.gate, f.call.risk))]
               && EntryOf(f') == Some(AuthorizationEntry(f.call, f.gate))
          else t'.txns == t.txns && EntryOf(f') == None)
  {
    hide ById, KeyAllowed, StatusFor;
  }

  lemma StoreRows(t: Tables, f: Flight)
    requires HasBlocked(f)
    ensures var (t', f') := StoreOf(t, f);
      && t'.log == t.log
      && (if f'.Stored?
          then t'.txns == t.txns + [RowOf(f.call.txn, BlockedResult(f), BLOCKED)]
               && EntryOf(f') == Some(AuthorizationEntry(f.call, BlockedResult(f)))
          else t'.txns == t.txns && EntryOf(f') == None)
  {
    hide ById, KeyAllowed;
  }

  lemma StoredRowFits(call: AuthCall, result: GateResult, row: TxnRow)
    requires row == RowOf(call.txn, result, if result.decision == ALLOW then StatusFor(result, call.risk) else BLOCKED)
    ensures var e := AuthorizationEntry(call, result);
      e.AuthorizationEvent? && IsAbout(e, row) && Told(e) == (row.status, row.orderId)
  {
  }

  lemma StoreKeepsKept(env: Env, w: World, i: nat)
    requires Fits(w, StoreBlocked(i)) && FlightOk(env, w.db, w.flights[i]) && Kept(Entries(env, w), w.db.txns)
    ensures var w' := Act(env, w, StoreBlocked(i)); Kept(Entries(env, w'), w'.db.txns)
  {
    var f, w' := w.flights[i], Act(env, w, StoreBlocked(i));
    var f' := w'.flights[i];
    StoreRows(w.db, f);
    assert BlockedResult(f).decision == BLOCK by { GateIsOk(env.verifies, f.call, f.seen); }
    FlightMoved(w.flights, i, f');
    hide Kept, StoreOf, FlightOk, RowOf, BlockedResult;
    if f'.Stored? {
      var row := RowOf(f.call.txn, BlockedResult(f), BLOCKED);
      StoredRowFits(f.call, BlockedResult(f), row);
      RowAdded(Entries(env, w), w.db.txns, row, EntryOf(f').value);
      assert Entries(env, w') == Entries(env, w) + {EntryOf(f')};
    } else {
      assert Entries(env, w') == Entries(env, w);
    }
  }

  /** A settling call moves its row on and has the entry that tells it. */
  lemma UpdateMovesOn(env: Env, c: Conn, step: Step)
    requires Inv(c) && EffectOf(env, c, step).Updated?
    ensures var e := EffectOf(env, c, step);
      MovesOn(c.view.txns[e.i], e.row) && Told(e.entry) == (e.row.status, e.row.orderId) && Stage(e.entry) > 0
      && e.entry.SettlementEvent? && e.entry.txnId == e.row.txnId
  {
    hide EffectOf;
    UpdateFacts(env, c, step);
    UpdateEntry(env, c, step);
    assert RowOk(c.view, c.view.txns[EffectOf(env, c, step).i]);
  }

  /** The rows after a call that is no authorization are its effect's. */
  lemma OtherRows(env: Env, t: Tables, step: Step)
    requires Valid(t) && !step.op.Authorize?
    ensures var e := EffectOf(env, Clean(t), step);
      TablesAfter(env, t, step).txns == Patch(t.txns, e) && TablesAfter(env, t, step).log == t.log && !e.Added?
  {
    hide Apply, LogAfter, Valid;
    StepEffect(env, Clean(t), step);
    StepKeepsInv(env, Clean(t), step);
    NotAdded(env, Clean(t), step);
    hide EffectOf;
  }

  lemma NotAdded(env: Env, c: Conn, step: Step)
    requires !step.op.Authorize?
    ensures !EffectOf(env, c, step).Added?
  {
  }

  lemma OtherKeepsKept(env: Env, w: World, step: Step)
    requires Valid(w.db) && !step.op.Authorize? && Kept(Entries(env, w), w.db.txns)
    ensures var w' := Act(env, w, Other(step)); Kept(Entries(env, w'), w'.db.txns)
  {
    hide Kept, EffectOf, TablesAfter, Told, Stage, MovesOn, InFlight, InLog, Valid;
    var e, w' := EffectOf(env, Clean(w.db), step), Act(env, w, Other(step));
    OtherRows(env, w.db, step);
    if e.Updated? {
      assert Inv(Clean(w.db));
      UpdateMovesOn(env, Clean(w.db), step);
      FlightAdded(w.flights, Logging(e.entry));
      RowUpdated(Entries(env, w), w.db.txns, e.i, e.row, e.entry);
      assert Entries(env, w') == Entries(env, w) + {Some(e.entry)};
    } else {
      assert Entries(env, w') == Entries(env, w);
    }
  }

  lemma InsertKeepsKept(env: Env, w: World, i: nat)
    requires Readable(env.codec) && Fits(w, InsertEntry(i)) && !Refuses(env, w, InsertEntry(i))
    requires Kept(Entries(env, w), w.db.txns)
    ensures var w' := Act(env, w, InsertEntry(i)); Kept(Entries(env, w'), w'.db.txns)
  {
    var f, w' := w.flights[i], Act(env, w, InsertEntry(i));
    var row := EntryRow(env, w.db.log, f);
    LoggedMore(env.codec, w.db.log, row);
    FlightDone(w.flights, i);
    assert EntryAt(env.codec, [row], 0) == EntryOf(f);
    assert Entries(env, w') == Entries(env, w);
  }

  lemma QuietKeepsKept(env: Env, w: World, a: Action)
    requires a.Begin? || a.SaveReceipt? || a.ReadTip? || !Fits(w, a)
    requires Kept(Entries(env, w), w.db.txns)
    ensures var w' := Act(env, w, a); Kept(Entries(env, w'), w'.db.txns)
  {
    hide Kept;
    var w' := Act(env, w, a);
    if Fits(w, a) {
      if a.Begin? {
        FlightAdded(w.flights, w'.flights[|w.flights|]);
      } else {
        FlightMoved(w.flights, a.i, w'.flights[a.i]);
        assert EntryOf(w.flights[a.i]) in InFlight(w.flights);
      }
    }
    assert Entries(env, w') == Entries(env, w);
  }

  lemma ActKeepsKept(env: Env, w: World, a: Action)
    requires Readable(env.codec) && Safe(env, w) && !Refuses(env, w, a) && Kept(Entries(env, w), w.db.txns)
    ensures var w' := Act(env, w, a); Kept(Entries(env, w'), w'.db.txns)
  {
    hide Kept, Entries, Act;
    if !Fits(w, a) {
      QuietKeepsKept(env, w, a);
    } else {
      match a
      case Commit(i) => CommitKeepsKept(env, w, i);
      case StoreBlocked(i) => StoreKeepsKept(env, w, i);
      case InsertEntry(i) => InsertKeepsKept(env, w, i);
      case Other(step) => OtherKeepsKept(env, w, step);
      case _ => QuietKeepsKept(env, w, a);
    }
  }

  ghost predicate NeverRefuses(env: Env, actions: seq<Action>) {
    forall n | 0 <= n < |actions| :: !Refuses(env, Race(env, START, actions[..n]), actions[n])
  }

  lemma {:induction false} RaceKeepsEntries(env: Env, actions: seq<Action>)
    requires Readable(env.codec) && NeverRefuses(env, actions)
    ensures var w := Race(env, START, actions); Kept(Entries(env, w), w.db.txns)
  {
    hide Kept, Entries, Act, Refuses;
    if actions == [] {
      NothingKept(env);
    } else {
      var before, last := actions[..|actions| - 1], actions[|actions| - 1];
      assert forall n | 0 <= n < |before| :: before[..n] == actions[..n] && before[n] == actions[n];
      assert !Refuses(env, Race(env, START, actions[..|before|]), actions[|before|]);
      RaceKeepsEntries(env, before);
      RaceStaysSafe(env, before);
      ActKeepsKept(env, Race(env, START, before), last);
    }
  }

  lemma NothingKept(env: Env)
    ensures Kept(Entries(env, START), START.db.txns)
  {
  }

  // ---- folding the log ----

  /** The n-th entry is the last one about its transaction. */
  predicate IsLast(codec: Codec, log: seq<AuditRow>, n: nat)
    requires n < |log| && EntryAt(codec, log, n).Some?
  {
    forall k | n < k < |log| && EntryAt(codec, log, k).Some? ::
      EntryAt(codec, log, k).value.txnId != EntryAt(codec, log, n).value.txnId
  }

  /** The k-th entry opens this transaction. */
  predicate OpensAt(codec: Codec, log: seq<AuditRow>, k: nat, id: string) {
    k < |log| && EntryAt(codec, log, k).Some? && EntryAt(codec, log, k).value.txnId == id
    && EntryAt(codec, log, k).value.AuthorizationEvent?
  }

  predicate LastAt(codec: Codec, log: seq<AuditRow>, n: nat, id: string) {
    n < |log| && EntryAt(codec, log, n).Some? && EntryAt(codec, log, n).value.txnId == id && IsLast(codec, log, n)
  }

  predicate OpenedBy(codec: Codec, log: seq<AuditRow>, k: nat, id: string, s: Summary) {
    OpensAt(codec, log, k, id) &&
    var e := EntryAt(codec, log, k).value;
    s.amount == e.amount && s.decision == e.decision && s.reason == e.reason
  }

  predicate ToldBy(codec: Codec, log: seq<AuditRow>, n: nat, id: string, s: Summary) {
    LastAt(codec, log, n, id) && (s.status, s.orderId) == Told(EntryAt(codec, log, n).value)
  }

  /** What the fold makes of one transaction: it is there exactly when an authorization
      entry is, with that entry's amount and verdict, and with the status and order id
      of the last entry about it. */
  ghost predicate FoldTold(codec: Codec, log: seq<AuditRow>, id: string) {
    var m := ReplayLog(codec, log);
    && (id in m <==> exists k :: OpensAt(codec, log, k, id))
    && (id in m ==> (exists k :: OpenedBy(codec, log, k, id, m[id])) && (exists n :: ToldBy(codec, log, n, id, m[id])))
  }

  lemma SameEntries(codec: Codec, log: seq<AuditRow>, id: string)
    requires log != []
    ensures forall k: nat | k < |log| - 1 :: EntryAt(codec, log, k) == EntryAt(codec, log[..|log| - 1], k)
    ensures forall k: nat | k < |log| - 1 :: OpensAt(codec, log, k, id) == OpensAt(codec, log[..|log| - 1], k, id)
  {
  }

  /** An entry that is not about a transaction changes nothing about it. */
  lemma FoldSkips(codec: Codec, log: seq<AuditRow>, id: string)
    requires log != [] && FoldTold(codec, log[..|log| - 1], id)
    requires var x := EntryAt(codec, log, |log| - 1); x.None? || x.value.txnId != id
    ensures FoldTold(codec, log, id)
  {
    hide Told;
    var before := log[..|log| - 1];
    var m, m' := ReplayLog(codec, before), ReplayLog(codec, log);
    SameEntries(codec, log, id);
    assert id in m <==> id in m';
    if id in m {
      assert m'[id] == m[id];
      var k :| OpenedBy(codec, before, k, id, m[id]);
      assert OpenedBy(codec, log, k, id, m'[id]);
      var n :| ToldBy(codec, before, n, id, m[id]);
      assert LastAt(codec, log, n, id);
      assert ToldBy(codec, log, n, id, m'[id]);
    }
    if k :| OpensAt(codec, log, k, id) {
      assert OpensAt(codec, before, k, id);
    }
  }

  /** An authorization entry opens its transaction, whatever came before. */
  lemma FoldOpens(codec: Codec, log: seq<AuditRow>, id: string)
    requires log != [] && OpensAt(codec, log, |log| - 1, id)
    ensures FoldTold(codec, log, id)
  {
    var m' := ReplayLog(codec, log);
    assert OpenedBy(codec, log, |log| - 1, id, m'[id]);
    assert ToldBy(codec, log, |log| - 1, id, m'[id]);
  }

  /** A settlement entry moves a transaction that has been opened, and no other. */
  lemma FoldMoves(codec: Codec, log: seq<AuditRow>, id: string)
    requires log != [] && FoldTold(codec, log[..|log| - 1], id)
    requires var x := EntryAt(codec, log, |log| - 1); x.Some? && x.value.txnId == id && x.value.SettlementEvent?
    ensures FoldTold(codec, log, id)
  {
    var before := log[..|log| - 1];
    var m, m' := ReplayLog(codec, before), ReplayLog(codec, log);
    SameEntries(codec, log, id);
    if id in m {
      var k :| OpenedBy(codec, before, k, id, m[id]);
      assert OpenedBy(codec, log, k, id, m'[id]);
      assert OpensAt(codec, log, k, id);
      assert ToldBy(codec, log, |log| - 1, id, m'[id]);
    }
    if k :| OpensAt(codec, log, k, id) {
      assert OpensAt(codec, before, k, id);
    }
  }

  lemma {:induction false} FoldTells(codec: Codec, log: seq<AuditRow>, id: string)
    ensures FoldTold(codec, log, id)
  {
    if log == [] {
      assert forall k: nat :: !OpensAt(codec, log, k, id);
    } else {
      FoldTells(codec, log[..|log| - 1], id);
      hide FoldTold, ReplayLog;
      var x := EntryAt(codec, log, |log| - 1);
      if x.None? || x.value.txnId != id {
        FoldSkips(codec, log, id);
      } else if x.value.AuthorizationEvent? {
        FoldOpens(codec, log, id);
      } else {
        FoldMoves(codec, log, id);
      }
    }
  }

  /** The last entry about each transaction tells the latest of its stages. */
  ghost predicate LastIsLatest(codec: Codec, log: seq<AuditRow>) {
    forall k, n | 0 <= k < n < |log| && EntryAt(codec, log, k).Some? && EntryAt(codec, log, n).Some?
      && EntryAt(codec, log, k).value.txnId == EntryAt(codec, log, n).value.txnId && IsLast(codec, log, n) ::
        Stage(EntryAt(codec, log, k).value) <= Stage(EntryAt(codec, log, n).value)
  }

  lemma RowOfEntry(codec: Codec, log: seq<AuditRow>, txns: seq<TxnRow>, k: nat) returns (i: nat)
    requires Kept(InLog(codec, log), txns) && k < |log|
    ensures EntryAt(codec, log, k).Some? && i < |txns| && IsAbout(EntryAt(codec, log, k).value, txns[i])
  {
    var x := EntryAt(codec, log, k);
    hide IsAbout, Covered;
    assert x in InLog(codec, log);
    assert Known(txns, x);
    i :| 0 <= i < |txns| && IsAbout(x.value, txns[i]);
  }

  lemma EntriesOfRow(codec: Codec, log: seq<AuditRow>, txns: seq<TxnRow>, i: nat) returns (o: nat, t: nat)
    requires Kept(InLog(codec, log), txns) && i < |txns|
    ensures o < |log| && Opens(EntryAt(codec, log, o), txns[i])
    ensures t < |log| && TellsNow(EntryAt(codec, log, t), txns[i])
  {
    hide Opens, TellsNow, Known;
    assert Covered(InLog(codec, log), txns[i]);
    var x :| x in InLog(codec, log) && Opens(x, txns[i]);
    var y :| y in InLog(codec, log) && TellsNow(y, txns[i]);
    o :| 0 <= o < |log| && EntryAt(codec, log, o) == x;
    t :| 0 <= t < |log| && EntryAt(codec, log, t) == y;
  }

  /** The summary of a row, from the entry that opens it and the last one about it. */
  lemma SummaryFound(codec: Codec, log: seq<AuditRow>, txns: seq<TxnRow>, i: nat) returns (n: nat)
    requires Kept(InLog(codec, log), txns) && UniqueIds(txns) && i < |txns|
    ensures LastAt(codec, log, n, txns[i].txnId) && IsAbout(EntryAt(codec, log, n).value, txns[i])
    ensures var m, id := ReplayLog(codec, log), txns[i].txnId;
      && id in m && (m[id].status, m[id].orderId) == Told(EntryAt(codec, log, n).value)
      && m[id].amount == txns[i].amount && m[id].decision == txns[i].decision && m[id].reason == txns[i].reason
  {
    var m, id := ReplayLog(codec, log), txns[i].txnId;
    FoldTells(codec, log, id);
    var o, t := EntriesOfRow(codec, log, txns, i);
    hide ReplayLog, Kept, Told, IsLast;
    assert OpensAt(codec, log, o, id);
    var k :| OpenedBy(codec, log, k, id, m[id]);
    n :| ToldBy(codec, log, n, id, m[id]);
    var i1 := RowOfEntry(codec, log, txns, k);
    var i2 := RowOfEntry(codec, log, txns, n);
    assert i1 == i && i2 == i;
  }

  /** With every entry in the log, the fold rebuilds the rows if and only if the last
      entry about each transaction tells the latest of its stages. */
  lemma RebuiltIff(codec: Codec, log: seq<AuditRow>, txns: seq<TxnRow>)
    requires Kept(InLog(codec, log), txns) && UniqueIds(txns)
    ensures Rebuilt(ReplayLog(codec, log), txns) <==> LastIsLatest(codec, log)
  {
    if LastIsLatest(codec, log) {
      RebuiltIfLatest(codec, log, txns);
    } else {
      hide ReplayLog, Kept, Told;
      var k, n :| 0 <= k < n < |log| && EntryAt(codec, log, k).Some? && EntryAt(codec, log, n).Some?
        && EntryAt(codec, log, k).value.txnId == EntryAt(codec, log, n).value.txnId && IsLast(codec, log, n)
        && Stage(EntryAt(codec, log, k).value) > Stage(EntryAt(codec, log, n).value);
      NotRebuilt(codec, log, txns, k, n);
    }
  }

  lemma NotRebuilt(codec: Codec, log: seq<AuditRow>, txns: seq<TxnRow>, k: nat, n: nat)
    requires Kept(InLog(codec, log), txns) && UniqueIds(txns)
    requires k < n < |log| && EntryAt(codec, log, k).Some? && EntryAt(codec, log, n).Some?
    requires EntryAt(codec, log, k).value.txnId == EntryAt(codec, log, n).value.txnId && IsLast(codec, log, n)
    requires Stage(EntryAt(codec, log, k).value) > Stage(EntryAt(codec, log, n).value)
    ensures !Rebuilt(ReplayLog(codec, log), txns)
  {
    var i := RowOfEntry(codec, log, txns, n);
    var i1 := RowOfEntry(codec, log, txns, k);
    assert i1 == i;
    var l := SummaryFound(codec, log, txns, i);
    assert l == n by {
      hide Told, ReplayLog, Kept;
      assert LastAt(codec, log, n, txns[i].txnId);
      LastUnique(codec, log, n, l, txns[i].txnId);
    }
    hide ReplayLog, Kept, IsLast, LastAt;
  }

  lemma LastUnique(codec: Codec, log: seq<AuditRow>, n: nat, n': nat, id: string)
    requires LastAt(codec, log, n, id) && LastAt(codec, log, n', id)
    ensures n == n'
  {
  }

  lemma RebuiltIfLatest(codec: Codec, log: seq<AuditRow>, txns: seq<TxnRow>)
    requires Kept(InLog(codec, log), txns) && UniqueIds(txns) && LastIsLatest(codec, log)
    ensures Rebuilt(ReplayLog(codec, log), txns)
  {
    hide Kept, ReplayLog, LastIsLatest, IsAbout, UniqueIds;
    forall i | 0 <= i < |txns|
      ensures txns[i].txnId in ReplayLog(codec, log)
           && ReplayLog(codec, log)[txns[i].txnId] == SummaryOf(txns[i])
    {
      RowRebuilt(codec, log, txns, i);
    }
    forall id | id in ReplayLog(codec, log)
      ensures exists i | 0 <= i < |txns| :: txns[i].txnId == id
    {
      OnlyRows(codec, log, txns, id);
    }
  }

  lemma OnlyRows(codec: Codec, log: seq<AuditRow>, txns: seq<TxnRow>, id: string)
    requires Kept(InLog(codec, log), txns) && id in ReplayLog(codec, log)
    ensures exists i | 0 <= i < |txns| :: txns[i].txnId == id
  {
    FoldTells(codec, log, id);
    hide Kept, ReplayLog, Told;
    var k :| OpensAt(codec, log, k, id);
    var i := RowOfEntry(codec, log, txns, k);
    assert txns[i].txnId == id;
  }

  lemma RowRebuilt(codec: Codec, log: seq<AuditRow>, txns: seq<TxnRow>, i: nat)
    requires Kept(InLog(codec, log), txns) && UniqueIds(txns) && LastIsLatest(codec, log) && i < |txns|
    ensures var m := ReplayLog(codec, log); txns[i].txnId in m && m[txns[i].txnId] == SummaryOf(txns[i])
  {
    var n := SummaryFound(codec, log, txns, i);
    var o, t := EntriesOfRow(codec, log, txns, i);
    hide ReplayLog, Kept;
    assert t <= n;
    assert t < n ==> Stage(EntryAt(codec, log, t).value) <= Stage(EntryAt(codec, log, n).value);
  }

  /** No call has an entry left to log. */
  predicate Quiet(w: World) {
    forall i | 0 <= i < |w.flights| :: EntryOf(w.flights[i]) == None
  }

  /** When all calls of a race have logged and no entry was refused, the log replays to
      the tables if and only if the last entry about each transaction tells the latest of
      its stages. */
  lemma QuietRaceReplaysIff(env: Env, actions: seq<Action>)
    requires Readable(env.codec) && NeverRefuses(env, actions) && Quiet(Race(env, START, actions))
    ensures var t := Race(env, START, actions).db;
      Rebuilt(ReplayLog(env.codec, t.log), t.txns) <==> LastIsLatest(env.codec, t.log)
  {
    hide Kept, Race, Rebuilt, LastIsLatest, ReplayLog;
    var w := Race(env, START, actions);
    RaceKeepsEntries(env, actions);
    RaceStaysSafe(env, actions);
    assert Entries(env, w) == InLog(env.codec, w.db.log);
    RebuiltIff(env.codec, w.db.log, w.db.txns);
  }

  // ---- refused entries are collisions ----

  /** No two readings of the tip draw the same event id. */
  ghost predicate FreshDraws(env: Env, actions: seq<Action>) {
    forall n, m | 0 <= n < m < |actions| && Draws(env, actions, n) && Draws(env, actions, m) ::
      actions[n].eventId != actions[m].eventId
  }

  predicate Draws(env: Env, actions: seq<Action>, n: nat)
    requires n < |actions|
  {
    actions[n].ReadTip? && Fits(Race(env, START, actions[..n]), actions[n])
  }

  /** Every entry of the log was inserted by a flight, now over, under the id it drew. */
  lemma {:induction false} LogDrawn(env: Env, actions: seq<Action>, k: nat) returns (n: nat, e: Event)
    requires k < |Race(env, START, actions).db.log|
    ensures n < |actions| && Draws(env, actions, n)
    ensures var w := Race(env, START, actions);
      && w.db.log[k].payload == env.codec.canon(actions[n].eventId, e)
      && actions[n].i < |w.flights| && w.flights[actions[n].i].Over?
  {
    hide CommitOf, StoreOf, TablesAfter, EffectOf;
    if actions != [] {
      var before, last := actions[..|actions| - 1], actions[|actions| - 1];
      var w := Race(env, START, before);
      LogMoves(env, w, last);
      if k < |w.db.log| {
        n, e := LogDrawn(env, before, k);
        assert before[..n] == actions[..n];
      } else {
        n := TipWasRead(env, before, last.i);
        assert before[..n] == actions[..n];
        e := w.flights[last.i].entry;
      }
    }
  }

  /** Only the insert of a flight's entry adds to the log. */
  lemma LogMoves(env: Env, w: World, a: Action)
    ensures var log, log' := w.db.log, Act(env, w, a).db.log;
      if a.InsertEntry? && Fits(w, a) && !Refuses(env, w, a)
      then log' == log + [EntryRow(env, log, w.flights[a.i])] else log' == log
  {
    hide CommitOf, StoreOf, EffectOf;
    if Fits(w, a) {
      match a
      case Commit(i) => CommitRows(w.db, w.flights[i]);
      case StoreBlocked(i) => StoreRows(w.db, w.flights[i]);
      case _ =>
    }
  }

  /** What every log entry and every tip in flight has, whatever the order of events. */
  ghost predicate RowsHash(env: Env, w: World) {
    && (forall k | 0 <= k < |w.db.log| :: RowHashes(env.codec.hash, w.db.log[k]))
    && (forall i | 0 <= i < |w.flights| && w.flights[i].Appending? :: |w.flights[i].tip| == 64)
  }

  predicate RowHashes(hash: Hash, row: AuditRow) {
    && row.entryHash == hash(Message(row.prevHash, row.eventType, row.payload))
    && |row.prevHash| == 64 && |row.entryHash| == 64 && SeparatorFree(row)
  }

  lemma EntryRowHashes(env: Env, log: seq<AuditRow>, f: Flight)
    requires ControlFree(env.codec) && Digest(env.codec.hash) && f.Appending? && |f.tip| == 64
    ensures RowHashes(env.codec.hash, EntryRow(env, log, f))
  {
  }

  lemma ActKeepsHashes(env: Env, w: World, a: Action)
    requires ControlFree(env.codec) && Digest(env.codec.hash) && RowsHash(env, w)
    ensures RowsHash(env, Act(env, w, a))
  {
    LogMoves(env, w, a);
    if a.InsertEntry? && Fits(w, a) {
      EntryRowHashes(env, w.db.log, w.flights[a.i]);
    }
    hide CommitOf, StoreOf, TablesAfter, EffectOf, EntryRow, ControlFree, Digest;
    var w' := Act(env, w, a);
    forall i | 0 <= i < |w'.flights| && w'.flights[i].Appending?
      ensures |w'.flights[i].tip| == 64
    {
      assert |w.db.log| > 0 ==> RowHashes(env.codec.hash, w.db.log[|w.db.log| - 1]);
    }
  }

  lemma {:induction false} RaceKeepsHashes(env: Env, actions: seq<Action>)
    requires ControlFree(env.codec) && Digest(env.codec.hash)
    ensures RowsHash(env, Race(env, START, actions))
  {
    hide Act, RowsHash, ControlFree, Digest;
    if actions == [] {
      assert RowsHash(env, START) by { NothingHashed(env); }
    } else {
      RaceKeepsHashes(env, actions[..|actions| - 1]);
      ActKeepsHashes(env, Race(env, START, actions[..|actions| - 1]), actions[|actions| - 1]);
    }
  }

  lemma NothingHashed(env: Env)
    ensures RowsHash(env, START)
  {
  }

  /** The n-th action inserts an entry that hashes like the k-th entry of the log, from
      different bytes. */
  predicate InsertCollides(env: Env, actions: seq<Action>, n: nat, k: nat) {
    n < |actions| &&
    var w := Race(env, START, actions[..n]);
    && actions[n].InsertEntry? && Fits(w, actions[n]) && k < |w.db.log|
    && var row, old_ := EntryRow(env, w.db.log, w.flights[actions[n].i]), w.db.log[k];
    && Message(row.prevHash, row.eventType, row.payload) != Message(old_.prevHash, old_.eventType, old_.payload)
    && env.codec.hash(Message(row.prevHash, row.eventType, row.payload))
       == env.codec.hash(Message(old_.prevHash, old_.eventType, old_.payload))
  }

  lemma EqualMessages(hash: Hash, r: AuditRow, s: AuditRow)
    requires RowHashes(hash, r) && RowHashes(hash, s)
    requires Message(r.prevHash, r.eventType, r.payload) == Message(s.prevHash, s.eventType, s.payload)
    ensures r.payload == s.payload
  {
    var m, m' := Message(r.prevHash, r.eventType, r.payload), Message(s.prevHash, s.eventType, s.payload);
    assert m[64..] == r.eventType + [SEPARATOR] + r.payload;
    assert m'[64..] == s.eventType + [SEPARATOR] + s.payload;
    SplitUnique(r.eventType, r.payload, s.eventType, s.payload);
  }

  /** With fresh event ids the log refuses an entry only on an explicit collision. */
  lemma RefusalCollides(env: Env, actions: seq<Action>, n: nat) returns (k: nat)
    requires Readable(env.codec) && ControlFree(env.codec) && Digest(env.codec.hash) && FreshDraws(env, actions)
    requires n < |actions| && Refuses(env, Race(env, START, actions[..n]), actions[n])
    ensures InsertCollides(env, actions, n, k)
  {
    var w, i := Race(env, START, actions[..n]), actions[n].i;
    var row := EntryRow(env, w.db.log, w.flights[i]);
    RaceKeepsHashes(env, actions[..n]);
    EntryRowHashes(env, w.db.log, w.flights[i]);
    hide Race, RowHashes, Digest, ControlFree;
    k :| 0 <= k < |w.db.log| && w.db.log[k].entryHash == row.entryHash;
    assert RowHashes(env.codec.hash, w.db.log[k]);
    if Message(row.prevHash, row.eventType, row.payload)
       == Message(w.db.log[k].prevHash, w.db.log[k].eventType, w.db.log[k].payload) {
      EqualMessages(env.codec.hash, row, w.db.log[k]);
      FreshPayload(env, actions, n, k);
      assert false;
    }
    assert env.codec.hash(Message(row.prevHash, row.eventType, row.payload)) == w.db.log[k].entryHash;
    HashOfRow(env.codec.hash, w.db.log[k]);
  }

  lemma HashOfRow(hash: Hash, row: AuditRow)
    requires RowHashes(hash, row)
    ensures row.entryHash == hash(Message(row.prevHash, row.eventType, row.payload))
  {
  }

  lemma FreshPayload(env: Env, actions: seq<Action>, n: nat, k: nat)
    requires Readable(env.codec) && FreshDraws(env, actions) && n < |actions|
    requires var w := Race(env, START, actions[..n]);
      actions[n].InsertEntry? && Fits(w, actions[n]) && k < |w.db.log|
    ensures var w := Race(env, START, actions[..n]);
      w.db.log[k].payload != EntryRow(env, w.db.log, w.flights[actions[n].i]).payload
  {
    hide Race;
    var w, i := Race(env, START, actions[..n]), actions[n].i;
    var f := w.flights[i];
    var read := TipWasRead(env, actions[..n], i);
    var drawn, e := LogDrawn(env, actions[..n], k);
    assert actions[..n][..read] == actions[..read] && actions[..n][..drawn] == actions[..drawn];
    assert Draws(env, actions, read) && Draws(env, actions, drawn);
    assert env.codec.parse(env.codec.canon(f.eventId, f.entry)) == Some((f.eventId, f.entry));
    assert env.codec.parse(env.codec.canon(actions[drawn].eventId, e)) == Some((actions[drawn].eventId, e));
  }

  /** Replay over races.  When all calls of a race have logged, under fresh event ids,
      folding the stored entries rebuilds amount, decision, reason, status and order id
      of every transaction, and no others, if and only if the last entry about each
      transaction tells the latest of its stages; or an entry is an explicit hash
      collision with an earlier one. */
  lemma RacedLogReplaysIff(env: Env, actions: seq<Action>)
    requires Readable(env.codec) && ControlFree(env.codec) && Digest(env.codec.hash) && FreshDraws(env, actions)
    requires Quiet(Race(env, START, actions))
    ensures var t := Race(env, START, actions).db;
      (Rebuilt(ReplayLog(env.codec, t.log), t.txns) <==> LastIsLatest(env.codec, t.log))
      || exists n, k :: InsertCollides(env, actions, n, k)
  {
    hide Race, Rebuilt, LastIsLatest, ReplayLog, Refuses, InsertCollides;
    if n :| 0 <= n < |actions| && Refuses(env, Race(env, START, actions[..n]), actions[n]) {
      var k := RefusalCollides(env, actions, n);
    } else {
      QuietRaceReplaysIff(env, actions);
    }
  }
}
