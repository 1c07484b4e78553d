/** Two concrete races from the same beginning: an authorization and the settlement of
    its row, both with their entries still to log. */
module RaceExamples {
  import opened Models
  import opened AuditLog
  import opened Schema
  import opened Gate
  import opened Service
  import opened Settlement
  import opened Runs
  import opened Nonces
  import opened Replay
  import opened Races
  import opened RacedLog
  import opened RacedReplay

  const BEGINNING: seq<Action> := [
    Other(Step(RegisterAgent("a"), "")), Other(Step(SaveMandate(STORED), "")), Begin(EARLY_CALL), Commit(0),
    Other(Step(Settle("t", Some("order")), "")), SaveReceipt(0)]

  const ON_FILE := EMPTY.(agents := map["a" := false], mandates := map["m" := STORED])

  function Approval(env: Env): GateResult {
    Decide(env, ON_FILE, EARLY_CALL)
  }

  function AuthorizedRow(env: Env): TxnRow {
    RowOf(EARLY_CALL.txn, Approval(env), AUTHORIZED)
  }

  function PendingRow(env: Env): TxnRow {
    AuthorizedRow(env).(status := PENDING_SETTLEMENT, orderId := Some("order"))
  }

  /** Row authorized and settled for, receipt saved, nothing logged. */
  function Tables6(env: Env): Tables {
    ON_FILE.(nonces := map["n" := "m"], txns := [PendingRow(env)],
             receipts := map["r" := ReceiptOf(EARLY_CALL, Approval(env))])
  }

  function First(env: Env): Event {
    AuthorizationEntry(EARLY_CALL, Approval(env))
  }

  const SECOND := PendingEntry("t", "order", 5)

  lemma IsApproval(env: Env)
    requires env.trustedIssuerKeys == Some({"pk"}) && env.verifies("pk", STORED.Body(), "sig")
    ensures Approval(env).decision == ALLOW && Approval(env).reason == OK
  {
    hide Verdict, KeyAllowed;
    var seen := ContextOf(env, ON_FILE, EARLY_CALL);
    NoKeys("k");
    assert Clears(env.verifies, EARLY_CALL.txn, EARLY_CALL.offer, seen);
    VerdictCases(env.verifies, EARLY_CALL.txn, EARLY_CALL.offer, seen);
  }

  lemma CommitsFirst(env: Env)
    requires Approval(env).decision == ALLOW
    ensures var f := Judged(EARLY_CALL, ContextOf(env, ON_FILE, EARLY_CALL), Approval(env));
      CommitOf(ON_FILE, f) == (ON_FILE.(nonces := map["n" := "m"], txns := [AuthorizedRow(env)]),
                               Stored(f.call, f.seen, f.gate, ON_FILE, f.gate))
  {
    NoRows("t");
    NoKeys("k");
    hide Decide, ContextOf, ById, KeyAllowed;
    var reserved := AddNonce(ON_FILE, "n", "m");
    assert reserved == ON_FILE.(nonces := map["n" := "m"]);
    assert TxnInsertError(reserved, AuthorizedRow(env)) == None;
    assert [] + [AuthorizedRow(env)] == [AuthorizedRow(env)];
  }

  lemma SettlesFirst(env: Env)
    requires Approval(env).decision == ALLOW
    ensures var t := ON_FILE.(nonces := map["n" := "m"], txns := [AuthorizedRow(env)]);
      var step := Step(Settle("t", Some("order")), "");
      && TablesAfter(env, t, step) == t.(txns := [PendingRow(env)])
      && EffectOf(env, Clean(t), step) == Updated(0, PendingRow(env), SECOND)
  {
    hide Decide, ReceiptOf, HashTaken, NextRow;
    var t := ON_FILE.(nonces := map["n" := "m"], txns := [AuthorizedRow(env)]);
    assert ById(t.txns, "t") == 0;
    assert NeedsOrder(t, "t");
  }

  lemma RaceAppend(env: Env, s: seq<Action>, t: seq<Action>)
    ensures Race(env, START, s + t) == Race(env, Race(env, START, s), t)
    decreases |t|
  {
    hide Act;
    if t == [] {
      assert s + t == s;
    } else {
      var before := t[..|t| - 1];
      assert (s + t)[..|s + t| - 1] == s + before;
      RaceAppend(env, s, before);
    }
  }

  lemma FourActions(env: Env, w: World, s: seq<Action>)
    requires |s| == 4
    ensures Race(env, w, s) == Act(env, Act(env, Act(env, Act(env, w, s[0]), s[1]), s[2]), s[3])
  {
    hide Act;
    RaceUnfolds(env, w, s, 0);
    RaceUnfolds(env, w, s, 1);
    RaceUnfolds(env, w, s, 2);
    RaceUnfolds(env, w, s, 3);
    assert s[..0] == [] && s[..4] == s;
  }

  lemma Begins(env: Env)
    requires Approval(env).decision == ALLOW
    ensures Race(env, START, BEGINNING) == World(Tables6(env), [Logging(First(env)), Logging(SECOND)])
  {
    SixActions(env, BEGINNING);
    OnFile(env);
    BeginsAndCommits(env);
    SettlesAndSaves(env);
    hide *;
  }

  function Stored4(env: Env): World {
    World(ON_FILE.(nonces := map["n" := "m"], txns := [AuthorizedRow(env)]),
          [Stored(EARLY_CALL, ContextOf(env, ON_FILE, EARLY_CALL), Approval(env), ON_FILE, Approval(env))])
  }

  lemma BeginsAndCommits(env: Env)
    requires Approval(env).decision == ALLOW
    ensures Act(env, Act(env, World(ON_FILE, []), BEGINNING[2]), BEGINNING[3]) == Stored4(env)
  {
    hide Decide, ContextOf, CommitOf, RowOf;
    CommitsFirst(env);
    var judged := Judged(EARLY_CALL, ContextOf(env, ON_FILE, EARLY_CALL), Approval(env));
    assert Act(env, World(ON_FILE, []), BEGINNING[2]) == World(ON_FILE, [judged]);
  }

  lemma SettlesAndSaves(env: Env)
    requires Approval(env).decision == ALLOW
    ensures Act(env, Act(env, Stored4(env), BEGINNING[4]), BEGINNING[5])
         == World(Tables6(env), [Logging(First(env)), Logging(SECOND)])
  {
    hide Decide, ContextOf, TablesAfter, EffectOf, RowOf, ReceiptOf, AuthorizationEntry, Repeat;
    SettlesFirst(env);
    var w := Stored4(env);
    assert Act(env, w, BEGINNING[4]) == World(w.db.(txns := [PendingRow(env)]), w.flights + [Logging(SECOND)]);
  }

  lemma OnFile(env: Env)
    ensures Act(env, Act(env, START, BEGINNING[0]), BEGINNING[1]) == World(ON_FILE, [])
  {
    assert Act(env, START, BEGINNING[0]) == World(ONE_AGENT, []);
  }

  lemma SixActions(env: Env, s: seq<Action>)
    requires |s| == 6
    ensures Race(env, START, s)
         == Act(env, Act(env, Act(env, Act(env, Act(env, Act(env, START, s[0]), s[1]), s[2]), s[3]), s[4]), s[5])
  {
    hide Act;
    FiveActions(env, s[..5]);
    RaceUnfolds(env, START, s, 5);
    assert s[..6] == s;
  }

  // ---- two calls log ----

  function HashAt(env: Env, e: Event, id: string, tip: Bytes): Bytes {
    env.codec.hash(Message(tip, EventType(e), env.codec.canon(id, e)))
  }

  function RowAt(env: Env, seqNo: nat, e: Event, id: string, tip: Bytes): (row: AuditRow)
    ensures row.prevHash == tip && row.entryHash == HashAt(env, e, id, tip)
  {
    AuditRow(seqNo, EventType(e), env.codec.canon(id, e), tip, HashAt(env, e, id, tip))
  }

  lemma Reads(env: Env, w: World, i: nat, e: Event, id: string)
    requires i < |w.flights| && w.flights[i] == Logging(e)
    ensures Act(env, w, ReadTip(i, id)) == w.(flights := w.flights[i := Appending(e, id, Tip(w.db.log), |w.db.log|)])
  {
  }

  lemma Writes(env: Env, w: World, i: nat, e: Event, id: string, tip: Bytes, length: nat)
    requires i < |w.flights| && w.flights[i] == Appending(e, id, tip, length)
    requires !HashTaken(w.db.log, HashAt(env, e, id, tip))
    ensures Act(env, w, InsertEntry(i))
         == World(w.db.(log := w.db.log + [RowAt(env, |w.db.log| + 1, e, id, tip)]), w.flights[i := Over])
  {
  }

  const FORK: seq<Action> := [ReadTip(0, "e1"), ReadTip(1, "e2"), InsertEntry(0), InsertEntry(1)]

  const LATE: seq<Action> := [ReadTip(1, "e1"), InsertEntry(1), ReadTip(0, "e2"), InsertEntry(0)]

  lemma BothRead(env: Env, t: Tables, e: Event, f: Event)
    requires t.log == []
    requires HashAt(env, e, "e1", GENESIS_HASH) != HashAt(env, f, "e2", GENESIS_HASH)
    ensures Race(env, World(t, [Logging(e), Logging(f)]), FORK)
         == World(t.(log := [RowAt(env, 1, e, "e1", GENESIS_HASH), RowAt(env, 2, f, "e2", GENESIS_HASH)]), [Over, Over])
  {
    hide Race, Act, Repeat, RowAt, HashAt;
    var w := World(t, [Logging(e), Logging(f)]);
    FourActions(env, w, FORK);
    var w1 := w.(flights := w.flights[0 := Appending(e, "e1", GENESIS_HASH, 0)]);
    var w2 := w.(flights := w1.flights[1 := Appending(f, "e2", GENESIS_HASH, 0)]);
    Reads(env, w, 0, e, "e1");
    Reads(env, w1, 1, f, "e2");
    Writes(env, w2, 0, e, "e1", GENESIS_HASH, 0);
    var r := RowAt(env, 1, e, "e1", GENESIS_HASH);
    assert [] + [r] == [r];
    var w3 := World(t.(log := [r]), w2.flights[0 := Over]);
    Writes(env, w3, 1, f, "e2", GENESIS_HASH, 0);
    assert [r] + [RowAt(env, 2, f, "e2", GENESIS_HASH)] == [r, RowAt(env, 2, f, "e2", GENESIS_HASH)];
    assert w3.flights[1 := Over] == [Over, Over];
  }

  lemma SecondLogsFirst(env: Env, t: Tables, e: Event, f: Event)
    requires t.log == []
    requires var h := HashAt(env, f, "e1", GENESIS_HASH); HashAt(env, e, "e2", h) != h
    ensures var r := RowAt(env, 1, f, "e1", GENESIS_HASH);
      Race(env, World(t, [Logging(e), Logging(f)]), LATE)
      == World(t.(log := [r, RowAt(env, 2, e, "e2", r.entryHash)]), [Over, Over])
  {
    hide Race, Act, Repeat, RowAt, HashAt;
    var w := World(t, [Logging(e), Logging(f)]);
    FourActions(env, w, LATE);
    var r := RowAt(env, 1, f, "e1", GENESIS_HASH);
    var w1 := w.(flights := w.flights[1 := Appending(f, "e1", GENESIS_HASH, 0)]);
    Reads(env, w, 1, f, "e1");
    Writes(env, w1, 1, f, "e1", GENESIS_HASH, 0);
    assert [] + [r] == [r];
    var w2 := World(t.(log := [r]), w1.flights[1 := Over]);
    Reads(env, w2, 0, e, "e2");
    var w3 := w2.(flights := w2.flights[0 := Appending(e, "e2", r.entryHash, 1)]);
    Writes(env, w3, 0, e, "e2", r.entryHash, 1);
    assert [r] + [RowAt(env, 2, e, "e2", r.entryHash)] == [r, RowAt(env, 2, e, "e2", r.entryHash)];
    assert w3.flights[0 := Over] == [Over, Over];
  }

  lemma TwoLinked(env: Env, r: AuditRow, e: Event, id: string, tip: Bytes)
    requires exists f, id' :: r == RowAt(env, 1, f, id', GENESIS_HASH)
    ensures Accepted(env.codec.hash, [r, RowAt(env, 2, e, id, tip)]) <==> tip == r.entryHash
  {
    hide Accepted;
    var r' := RowAt(env, 2, e, id, tip);
    ExtendsIff(env.codec.hash, [], r);
    ExtendsIff(env.codec.hash, [r], r');
    assert Accepted(env.codec.hash, []) by { NothingLogged(env); }
    assert [] + [r] == [r] && [r] + [r'] == [r, r'];
  }

  /** A fork: the settlement reads the tip before the authorization has inserted.  Unless
      hashes coincide, the verifier rejects the log that results. */
  lemma ForkExample(env: Env)
    requires env.trustedIssuerKeys == Some({"pk"}) && env.verifies("pk", STORED.Body(), "sig")
    requires var h := HashAt(env, First(env), "e1", GENESIS_HASH);
      h != GENESIS_HASH && h != HashAt(env, SECOND, "e2", GENESIS_HASH)
    ensures var w := Race(env, START, BEGINNING + FORK);
      |w.db.log| == 2 && w.db.txns == [PendingRow(env)] && Quiet(w) && !Accepted(env.codec.hash, w.db.log)
  {
    hide Race, Approval, First, PendingRow, Accepted, ReceiptOf, Repeat, RowAt, HashAt;
    IsApproval(env);
    Begins(env);
    RaceAppend(env, BEGINNING, FORK);
    BothRead(env, Tables6(env), First(env), SECOND);
    TwoLinked(env, RowAt(env, 1, First(env), "e1", GENESIS_HASH), SECOND, "e2", GENESIS_HASH);
  }

  /** Entries out of order: the settlement logs before the authorization of its own row
      does.  Unless hashes coincide, the log passes the verifier, but folding it leaves
      the transaction authorized, without the order that its row has. */
  lemma OutOfOrderExample(env: Env)
    requires env.trustedIssuerKeys == Some({"pk"}) && env.verifies("pk", STORED.Body(), "sig")
    requires Readable(env.codec)
    requires var h := HashAt(env, SECOND, "e1", GENESIS_HASH); HashAt(env, First(env), "e2", h) != h
    ensures var w := Race(env, START, BEGINNING + LATE);
      && Quiet(w) && Accepted(env.codec.hash, w.db.log) && w.db.txns == [PendingRow(env)]
      && !LastIsLatest(env.codec, w.db.log)
      && !Rebuilt(ReplayLog(env.codec, w.db.log), w.db.txns)
  {
    hide Race, Approval, First, PendingRow, Accepted, ReceiptOf;
    hide Readable, LastIsLatest, Rebuilt, ReplayLog, Repeat, RowAt, HashAt;
    IsApproval(env);
    Begins(env);
    RaceAppend(env, BEGINNING, LATE);
    var r := RowAt(env, 1, SECOND, "e1", GENESIS_HASH);
    LateFold(env, r, RowAt(env, 2, First(env), "e2", r.entryHash));
    SecondLogsFirst(env, Tables6(env), First(env), SECOND);
    TwoLinked(env, r, First(env), "e2", r.entryHash);
  }

  lemma LateFold(env: Env, r: AuditRow, r': AuditRow)
    requires Readable(env.codec) && Approval(env).decision == ALLOW
    requires r == RowAt(env, 1, SECOND, "e1", GENESIS_HASH) && r' == RowAt(env, 2, First(env), "e2", r.entryHash)
    ensures !LastIsLatest(env.codec, [r, r'])
    ensures !Rebuilt(ReplayLog(env.codec, [r, r']), [PendingRow(env)])
  {
    hide ReplayLog, HashAt, Repeat, Decide, LastIsLatest, Rebuilt;
    assert env.codec.parse(r.payload) == Some(("e1", SECOND));
    assert env.codec.parse(r'.payload) == Some(("e2", First(env)));
    Backwards(env.codec, r, r', SECOND, First(env));
    assert First(env).txnId == "t" && PendingRow(env).txnId == "t" && PendingRow(env).orderId == Some("order");
    NoOrderNoRow(ReplayLog(env.codec, [r, r']), PendingRow(env));
  }

  lemma NoOrderNoRow(m: map<string, Summary>, row: TxnRow)
    requires row.txnId in m && m[row.txnId].orderId != row.orderId
    ensures !Rebuilt(m, [row])
  {
    assert [row][0] == row;
  }

  /** Folding a settlement entry and then the authorization entry of its transaction. */
  lemma Backwards(codec: Codec, r: AuditRow, r': AuditRow, f: Event, e: Event)
    requires codec.parse(r.payload).Some? && codec.parse(r.payload).value.1 == f
    requires codec.parse(r'.payload).Some? && codec.parse(r'.payload).value.1 == e
    requires f.SettlementEvent? && e.AuthorizationEvent? && f.txnId == e.txnId && Stage(f) > 0
    ensures !LastIsLatest(codec, [r, r'])
    ensures e.txnId in ReplayLog(codec, [r, r']) && ReplayLog(codec, [r, r'])[e.txnId].orderId == None
  {
    var log := [r, r'];
    assert EntryAt(codec, log, 0) == Some(f) && EntryAt(codec, log, 1) == Some(e);
    assert IsLast(codec, log, 1) && Stage(e) == 0;
    assert !LastIsLatest(codec, log) by {
      assert Stage(EntryAt(codec, log, 0).value) > Stage(EntryAt(codec, log, 1).value);
    }
    assert log[..1] == [r] && [r][..0] == [];
    assert ReplayLog(codec, [r]) == map[];
    assert ReplayLog(codec, log) == ReplayEvent(map[], e);
  }
}
