/** The audit log against the tables: the chain of every reachable log holds, and
    replaying it rebuilds the transactions. */
module Replay {
  import opened Models
  import opened AuditLog
  import opened Schema
  import opened Service
  import opened Settlement
  import opened Runs

  /** The columns of a transaction that its log entries determine. */
  datatype Summary = Summary(amount: int, decision: Decision, reason: Reason, status: Status, orderId: Option<string>)

  function SummaryOf(row: TxnRow): Summary {
    Summary(row.amount, row.decision, row.reason, row.status, row.orderId)
  }

  /** The map holds the summary of every row, and nothing else. */
  ghost predicate Rebuilt(m: map<string, Summary>, txns: seq<TxnRow>) {
    && (forall id | id in m :: exists i | 0 <= i < |txns| :: txns[i].txnId == id)
    && (forall i | 0 <= i < |txns| :: txns[i].txnId in m && m[txns[i].txnId] == SummaryOf(txns[i]))
  }

  /** Read one event into the map, knowing nothing but the event. */
  function ReplayEvent(m: map<string, Summary>, e: Event): map<string, Summary> {
    match e
    case AuthorizationEvent(id, _, amount, decision, reason, effective, _, _) =>
      m[id := Summary(amount, decision, reason,
                      if decision != ALLOW then BLOCKED else if effective == ALLOW then AUTHORIZED else REVIEW_HOLD,
                      None)]
    case SettlementEvent(id, orderId, _, _, status, _) =>
      if id in m then m[id := m[id].(status := status, orderId := Some(orderId))] else m
  }

  /** Fold the stored entries, parsed back from their bytes, from first to last. */
  function ReplayLog(codec: Codec, log: seq<AuditRow>): map<string, Summary> {
    if log == [] then map[]
    else
      var m := ReplayLog(codec, log[..|log| - 1]);
      match codec.parse(log[|log| - 1].payload)
      case None => m
      case Some((_, e)) => ReplayEvent(m, e)
  }

  /** This call ends in the log refusing an entry hash it already holds. */
  predicate RefusedAt(env: Env, steps: seq<Step>, n: nat)
    requires n < |steps|
  {
    Apply(env, Run(env, OPENED, steps[..n]), steps[n]).1 == Some(LOG_HASH_TAKEN)
  }

  /** The entry this call has for the log, if any. */
  function EffectAt(env: Env, steps: seq<Step>, n: nat): Effect
    requires n < |steps|
  {
    EffectOf(env, Run(env, OPENED, steps[..n]), steps[n])
  }

  /** No two calls with an entry for the log draw the same event id. */
  ghost predicate FreshEventIds(env: Env, steps: seq<Step>) {
    forall n, m | 0 <= n < m < |steps| && !EffectAt(env, steps, n).Unchanged? && !EffectAt(env, steps, m).Unchanged? ::
      steps[n].eventId != steps[m].eventId
  }

  /** The entry of the n-th call and the k-th entry of the log it found are an
      explicit collision. */
  predicate EntriesCollide(env: Env, steps: seq<Step>, n: nat, k: nat) {
    && n < |steps| && !EffectAt(env, steps, n).Unchanged?
    && var log := Run(env, OPENED, steps[..n]).view.log;
    && k < |log|
    && CollideAt(env.codec.hash, log,
                 log + [EventRow(env.codec, log, EffectAt(env, steps, n).entry, steps[n].eventId)], k, |log|)
  }

  lemma AddedReplays(m: map<string, Summary>, txns: seq<TxnRow>, row: TxnRow, e: Event)
    requires Rebuilt(m, txns) && (forall i | 0 <= i < |txns| :: txns[i].txnId != row.txnId)
    requires ReplayEvent(m, e) == m[row.txnId := SummaryOf(row)]
    ensures Rebuilt(ReplayEvent(m, e), txns + [row])
  {
    var txns' := txns + [row];
    forall id | id in ReplayEvent(m, e)
      ensures exists i | 0 <= i < |txns'| :: txns'[i].txnId == id
    {
      if id == row.txnId {
        assert txns'[|txns|].txnId == id;
      } else {
        var i :| 0 <= i < |txns| && txns[i].txnId == id;
        assert txns'[i].txnId == id;
      }
    }
  }

  lemma UpdatedReplays(m: map<string, Summary>, txns: seq<TxnRow>, i: nat, row: TxnRow, e: Event)
    requires Rebuilt(m, txns) && i < |txns|
    requires forall i, j | 0 <= i < j < |txns| :: txns[i].txnId != txns[j].txnId
    requires row == txns[i].(status := row.status, orderId := row.orderId, paymentId := row.paymentId)
    requires ReplayEvent(m, e) == m[row.txnId := SummaryOf(row)]
    ensures Rebuilt(ReplayEvent(m, e), txns[i := row])
  {
    var txns' := txns[i := row];
    forall id | id in ReplayEvent(m, e)
      ensures exists i | 0 <= i < |txns'| :: txns'[i].txnId == id
    {
      assert txns'[i].txnId == row.txnId;
      if id != row.txnId {
        var k :| 0 <= k < |txns| && txns[k].txnId == id;
        assert txns'[k].txnId == id;
      }
    }
  }

  /** The entry a call logs tells what the call does to its row. */
  lemma EffectReplays(env: Env, c: Conn, step: Step, m: map<string, Summary>)
    requires Inv(c) && Rebuilt(m, c.view.txns) && !EffectOf(env, c, step).Unchanged?
    ensures var e := EffectOf(env, c, step);
      Rebuilt(ReplayEvent(m, e.entry), Patch(c.view.txns, e))
  {
    hide EffectOf;
    var e := EffectOf(env, c, step);
    if e.Added? {
      AddedFacts(env, c, step);
      AddedReplays(m, c.view.txns, e.row, e.entry);
    } else {
      UpdateFacts(env, c, step);
      UpdateEntry(env, c, step);
      assert m[e.row.txnId] == SummaryOf(c.view.txns[e.i]);
      UpdatedReplays(m, c.view.txns, e.i, e.row, e.entry);
    }
  }

  /** The entry of a settling call names the row, its order and its new status. */
  lemma UpdateEntry(env: Env, c: Conn, step: Step)
    requires Inv(c) && EffectOf(env, c, step).Updated?
    ensures var e := EffectOf(env, c, step);
      e.entry.SettlementEvent? && e.entry.txnId == e.row.txnId
      && Some(e.entry.orderId) == e.row.orderId && e.entry.status == e.row.status
  {
    hide ById, ByOrder, FirstCapture;
    UpdateFacts(env, c, step);
  }

  /** Without a refused entry, folding the stored entries rebuilds the tables. */
  lemma {:induction false} ReplaysUnlessRefused(env: Env, steps: seq<Step>)
    requires Readable(env.codec) && forall n | 0 <= n < |steps| :: !RefusedAt(env, steps, n)
    ensures Rebuilt(ReplayLog(env.codec, Run(env, OPENED, steps).view.log), Run(env, OPENED, steps).view.txns)
  {
    hide ById, Rebuilt;
    if steps == [] {
      assert Rebuilt(map[], []) by { NothingRebuilt(); }
    } else {
      var before, last := steps[..|steps| - 1], steps[|steps| - 1];
      var c := Run(env, OPENED, before);
      assert forall n | 0 <= n < |before| :: before[..n] == steps[..n];
      assert forall n | 0 <= n < |before| :: RefusedAt(env, before, n) == RefusedAt(env, steps, n);
      ReplaysUnlessRefused(env, before);
      OpenedInv();
      RunKeepsInv(env, OPENED, before);
      StepEffect(env, c, last);
      assert !RefusedAt(env, steps, |before|);
      hide Apply, EffectOf, Inv, RefusedAt;
      var e := EffectOf(env, c, last);
      if !e.Unchanged? {
        var log' := After(env, c, last).view.log;
        assert log'[..|log'| - 1] == c.view.log;
        assert env.codec.parse(log'[|log'| - 1].payload) == Some((last.eventId, e.entry));
        EffectReplays(env, c, last, ReplayLog(env.codec, c.view.log));
      }
    }
  }

  /** Every entry of a reachable log is the entry of one call, under the id it drew. */
  lemma {:induction false} EntryOrigin(env: Env, steps: seq<Step>, k: nat) returns (m: nat)
    requires k < |Run(env, OPENED, steps).view.log|
    ensures m < |steps| && !EffectAt(env, steps, m).Unchanged?
    ensures Run(env, OPENED, steps).view.log[k].payload
         == env.codec.canon(steps[m].eventId, EffectAt(env, steps, m).entry)
  {
    hide Apply, EffectOf, Inv;
    if steps != [] {
      var before, last := steps[..|steps| - 1], steps[|steps| - 1];
      var c := Run(env, OPENED, before);
      OpenedInv();
      RunKeepsInv(env, OPENED, before);
      StepEffect(env, c, last);
      if k < |c.view.log| {
        m := EntryOrigin(env, before, k);
        assert before[..m] == steps[..m];
      } else {
        m := |before|;
      }
    }
  }

  /** Equal bytes in the log mean that an earlier call drew the same event id. */
  lemma SameBytesSameId(env: Env, steps: seq<Step>, n: nat, k: nat) returns (m: nat)
    requires Readable(env.codec) && n < |steps| && !EffectAt(env, steps, n).Unchanged?
    requires k < |Run(env, OPENED, steps[..n]).view.log|
    requires Run(env, OPENED, steps[..n]).view.log[k].payload
          == env.codec.canon(steps[n].eventId, EffectAt(env, steps, n).entry)
    ensures m < n && !EffectAt(env, steps, m).Unchanged? && steps[m].eventId == steps[n].eventId
  {
    hide Run, EffectOf;
    m := EntryOrigin(env, steps[..n], k);
    assert steps[..n][..m] == steps[..m] && steps[..n][m] == steps[m];
    assert EffectAt(env, steps[..n], m) == EffectAt(env, steps, m);
    var id, e := steps[n].eventId, EffectAt(env, steps, n).entry;
    assert env.codec.parse(env.codec.canon(id, e)) == Some((id, e));
  }

  /** The log replays to the tables.  After any run whose entries draw fresh event
      ids, folding the stored entries, and nothing else, rebuilds amount, decision,
      reason, status and order id of every transaction, and no others; or two of the
      run's entries are an explicit hash collision. */
  lemma LogReplaysToTables(env: Env, steps: seq<Step>)
    requires Readable(env.codec) && ControlFree(env.codec) && Digest(env.codec.hash) && FreshEventIds(env, steps)
    ensures Rebuilt(ReplayLog(env.codec, Run(env, OPENED, steps).view.log), Run(env, OPENED, steps).view.txns)
         || exists n, k :: EntriesCollide(env, steps, n, k)
  {
    hide Run, Apply, EffectOf, Rebuilt, ReplayLog;
    if n :| 0 <= n < |steps| && RefusedAt(env, steps, n) {
      var k := RefusedOnlyOnCollision(env, steps[..n], steps[n]);
      var log := Run(env, OPENED, steps[..n]).view.log;
      if log[k].payload == env.codec.canon(steps[n].eventId, EffectAt(env, steps, n).entry) {
        var m := SameBytesSameId(env, steps, n, k);
        assert false;
      }
      assert EntriesCollide(env, steps, n, k);
    } else {
      ReplaysUnlessRefused(env, steps);
    }
  }

  lemma NothingRebuilt()
    ensures Rebuilt(map[], [])
  {
  }

  /** Every reachable log passes the verifier, and separator-free entries pin it:
      no other log of its length and last hash passes, explicit collisions aside. */
  lemma {:induction false} ReachableLogIsPinned(env: Env, steps: seq<Step>)
    requires ControlFree(env.codec) && Digest(env.codec.hash)
    ensures var log := Run(env, OPENED, steps).view.log;
      Accepted(env.codec.hash, log) && Pinned(env.codec.hash, log)
  {
    ReachableLog(env, steps);
    PinnedIff(env.codec.hash, Run(env, OPENED, steps).view.log);
  }

  lemma {:induction false} ReachableLog(env: Env, steps: seq<Step>)
    requires ControlFree(env.codec)
    ensures var log := Run(env, OPENED, steps).view.log;
      Accepted(env.codec.hash, log) && forall k | 0 <= k < |log| :: SeparatorFree(log[k])
  {
    hide Inv, EffectOf, Apply, LinkHolds;
    if steps != [] {
      var before, last := steps[..|steps| - 1], steps[|steps| - 1];
      var c := Run(env, OPENED, before);
      ReachableLog(env, before);
      OpenedInv();
      RunKeepsInv(env, OPENED, before);
      StepEffect(env, c, last);
      var e := EffectOf(env, c, last);
      if !e.Unchanged? {
        AppendKeepsAccepted(env.codec.hash, c.view.log, EventType(e.entry), env.codec.canon(last.eventId, e.entry));
      }
    }
  }

  /** The log refuses an entry only on an explicit hash collision with an earlier
      entry, or when that entry has the very same bytes, event id included. */
  lemma RefusedOnlyOnCollision(env: Env, steps: seq<Step>, last: Step) returns (k: nat)
    requires ControlFree(env.codec) && Digest(env.codec.hash)
    requires Apply(env, Run(env, OPENED, steps), last).1 == Some(LOG_HASH_TAKEN)
    ensures var log, e := Run(env, OPENED, steps).view.log, EffectOf(env, Run(env, OPENED, steps), last);
      k < |log| && !e.Unchanged?
      && (CollideAt(env.codec.hash, log, log + [EventRow(env.codec, log, e.entry, last.eventId)], k, |log|)
          || log[k].payload == env.codec.canon(last.eventId, e.entry))
  {
    hide Run, EffectOf, Apply;
    var c := Run(env, OPENED, steps);
    OpenedInv();
    RunKeepsInv(env, OPENED, steps);
    StepEffect(env, c, last);
    ReachableLog(env, steps);
    k := RefusedRow(env.codec, c.view.log, EffectOf(env, c, last).entry, last.eventId);
  }

  lemma RefusedRow(codec: Codec, log: seq<AuditRow>, e: Event, eventId: string) returns (k: nat)
    requires Digest(codec.hash) && Accepted(codec.hash, log)
    requires forall k | 0 <= k < |log| :: SeparatorFree(log[k])
    requires HashTaken(log, EventRow(codec, log, e, eventId).entryHash)
    ensures k < |log|
    ensures CollideAt(codec.hash, log, log + [EventRow(codec, log, e, eventId)], k, |log|)
         || log[k].payload == codec.canon(eventId, e)
  {
    var row := EventRow(codec, log, e, eventId);
    var all := log + [row];
    k :| 0 <= k < |log| && log[k].entryHash == row.entryHash;
    assert LinkHolds(codec.hash, log, k);
    AppendKeepsAccepted(codec.hash, log, EventType(e), codec.canon(eventId, e));
    if MessageAt(log, k) == MessageAt(all, |log|) {
      MessageDeterminesEntry(codec.hash, log, all, k, |log|);
    }
  }
}
