/** The hash chain under overlapping calls, authorizing and settling ones alike.  The tip
    is read before the transaction that inserts the next entry begins, so two calls can
    chain to the same tip. */
module RacedLog {
  import opened Models
  import opened AuditLog
  import opened Schema
  import opened Service
  import opened Runs
  import opened Races

  /** This action adds a flight's entry to the log. */
  predicate Inserts(env: Env, w: World, a: Action) {
    a.InsertEntry? && Fits(w, a) && !HashTaken(w.db.log, EntryRow(env, w.db.log, w.flights[a.i]).entryHash)
  }

  /** An entry that hashes its own fields extends an accepted log if and only if it
      continues from the tip. */
  lemma ExtendsIff(hash: Hash, log: seq<AuditRow>, row: AuditRow)
    requires row.entryHash == hash(Message(row.prevHash, row.eventType, row.payload))
    ensures Accepted(hash, log + [row]) <==> Accepted(hash, log) && row.prevHash == Tip(log)
  {
    var log' := log + [row];
    if Accepted(hash, log') {
      PrefixAccepted(hash, log', |log|);
      assert log'[..|log|] == log;
      assert LinkHolds(hash, log', |log|);
    } else if Accepted(hash, log) && row.prevHash == Tip(log) {
      forall k | 0 <= k < |log'|
        ensures LinkHolds(hash, log', k)
      {
        if k < |log| {
          assert LinkHolds(hash, log, k);
        }
      }
    }
  }

  /** One action leaves the log or adds one entry of a new hash; an accepted log stays
      accepted unless the entry of a flight continues from an old tip. */
  ghost predicate LogTold(env: Env, w: World, a: Action) {
    var log, log' := w.db.log, Act(env, w, a).db.log;
    && (log' == log
        || (|log'| == |log| + 1 && log'[..|log|] == log && !HashTaken(log, log'[|log|].entryHash)))
    && (Accepted(env.codec.hash, log') <==>
          Accepted(env.codec.hash, log) && (Inserts(env, w, a) ==> w.flights[a.i].tip == Tip(log)))
  }

  lemma InsertTold(env: Env, w: World, i: nat)
    requires i < |w.flights| && w.flights[i].Appending?
    ensures LogTold(env, w, InsertEntry(i))
  {
    hide Accepted;
    ExtendsIff(env.codec.hash, w.db.log, EntryRow(env, w.db.log, w.flights[i]));
  }

  lemma ActTold(env: Env, w: World, a: Action)
    ensures LogTold(env, w, a)
  {
    if Fits(w, a) {
      match a
      case InsertEntry(i) => InsertTold(env, w, i);
      case Commit(i) => CommitLeavesLog(w.db, w.flights[i]);
      case StoreBlocked(i) => StoreLeavesLog(w.db, w.flights[i]);
      case _ =>
    }
  }

  lemma CommitLeavesLog(t: Tables, f: Flight)
    requires f.Judged? && f.gate.decision == ALLOW
    ensures CommitOf(t, f).0.log == t.log
  {
    hide ById, KeyAllowed;
  }

  lemma StoreLeavesLog(t: Tables, f: Flight)
    requires HasBlocked(f)
    ensures StoreOf(t, f).0.log == t.log
  {
    hide ById, KeyAllowed;
  }

  /** No two entries share a hash, and each tip in flight was the tip at its length. */
  ghost predicate TipsOk(w: World) {
    && (forall k, n | 0 <= k < n < |w.db.log| :: w.db.log[k].entryHash != w.db.log[n].entryHash)
    && (forall i | 0 <= i < |w.flights| && w.flights[i].Appending? :: TipOk(w.db.log, w.flights[i]))
  }

  predicate TipOk(log: seq<AuditRow>, f: Flight)
    requires f.Appending?
  {
    f.length <= |log| && f.tip == TipBefore(log, f.length)
  }

  lemma ActKeepsTips(env: Env, w: World, a: Action)
    requires TipsOk(w) && LogTold(env, w, a)
    ensures TipsOk(Act(env, w, a))
  {
    hide CommitOf, StoreOf, TablesAfter, EffectOf, Accepted, EntryRow;
    var log, w' := w.db.log, Act(env, w, a);
    forall i | 0 <= i < |w'.flights| && w'.flights[i].Appending?
      ensures TipOk(w'.db.log, w'.flights[i])
    {
      assert i < |w.flights| && w'.flights[i] == w.flights[i] ==> TipOk(log, w.flights[i]);
    }
    hide Act;
    forall k, n | 0 <= k < n < |w'.db.log|
      ensures w'.db.log[k].entryHash != w'.db.log[n].entryHash
    {
      assert w'.db.log[k] == log[k];
    }
  }

  lemma {:induction false} RaceKeepsTips(env: Env, actions: seq<Action>)
    ensures TipsOk(Race(env, START, actions))
  {
    hide Act, LogTold;
    if actions != [] {
      var w := Race(env, START, actions[..|actions| - 1]);
      RaceKeepsTips(env, actions[..|actions| - 1]);
      ActTold(env, w, actions[|actions| - 1]);
      ActKeepsTips(env, w, actions[|actions| - 1]);
    }
  }

  /** A tip is still the tip if and only if nothing was appended since it was read. */
  lemma StillTheTipIff(w: World, f: Flight)
    requires TipsOk(w) && f in w.flights && f.Appending? && !HashTaken(w.db.log, GENESIS_HASH)
    ensures f.tip == Tip(w.db.log) <==> f.length == |w.db.log|
  {
    assert TipOk(w.db.log, f);
    if f.length < |w.db.log| {
      assert w.db.log[|w.db.log| - 1].entryHash == Tip(w.db.log);
    }
  }

  /** Every entry a flight inserts finds the tip that the flight had read. */
  ghost predicate TipsHold(env: Env, actions: seq<Action>) {
    forall n | 0 <= n < |actions| && Inserts(env, Race(env, START, actions[..n]), actions[n]) ::
      Race(env, START, actions[..n]).flights[actions[n].i].tip == Tip(Race(env, START, actions[..n]).db.log)
  }

  /** Every entry a flight inserts finds the log as long as the flight had read it. */
  ghost predicate NoAppendBetween(env: Env, actions: seq<Action>) {
    forall n | 0 <= n < |actions| && Inserts(env, Race(env, START, actions[..n]), actions[n]) ::
      Race(env, START, actions[..n]).flights[actions[n].i].length == |Race(env, START, actions[..n]).db.log|
  }

  lemma SplitLast(env: Env, actions: seq<Action>)
    requires actions != []
    ensures var before, last := actions[..|actions| - 1], actions[|actions| - 1];
      var w := Race(env, START, before);
      && (TipsHold(env, actions) <==>
            TipsHold(env, before) && (Inserts(env, w, last) ==> w.flights[last.i].tip == Tip(w.db.log)))
      && (NoAppendBetween(env, actions) <==>
            NoAppendBetween(env, before) && (Inserts(env, w, last) ==> w.flights[last.i].length == |w.db.log|))
  {
    hide Race, Inserts;
    var before := actions[..|actions| - 1];
    assert forall n | 0 <= n < |before| :: before[..n] == actions[..n] && before[n] == actions[n];
  }

  /** The log of a race passes the verifier if and only if every inserted entry finds
      the tip its call had read. */
  lemma {:induction false} RacedLogAcceptedIff(env: Env, actions: seq<Action>)
    ensures Accepted(env.codec.hash, Race(env, START, actions).db.log) <==> TipsHold(env, actions)
  {
    hide Act, Accepted;
    if actions == [] {
      NothingLogged(env);
    } else {
      var before, last := actions[..|actions| - 1], actions[|actions| - 1];
      ActTold(env, Race(env, START, before), last);
      RacedLogAcceptedIff(env, before);
      SplitLast(env, actions);
    }
  }

  lemma NothingLogged(env: Env)
    ensures Accepted(env.codec.hash, START.db.log)
  {
  }

  /** And that is so if and only if no entry lands between the reading of the tip and
      the insert, as long as no entry hashes to the genesis hash of sixty-four zeros. */
  lemma {:induction false} NoAppendBetweenIff(env: Env, actions: seq<Action>)
    requires !HashTaken(Race(env, START, actions).db.log, GENESIS_HASH)
    ensures TipsHold(env, actions) <==> NoAppendBetween(env, actions)
  {
    hide Act, Accepted, TipsOk;
    if actions != [] {
      var before, last := actions[..|actions| - 1], actions[|actions| - 1];
      var w := Race(env, START, before);
      RaceKeepsTips(env, before);
      ActTold(env, w, last);
      LogGrows(env, w, last);
      NoAppendBetweenIff(env, before);
      SplitLast(env, actions);
      if Inserts(env, w, last) {
        StillTheTipIff(w, w.flights[last.i]);
      }
    }
  }

  lemma LogGrows(env: Env, w: World, a: Action)
    requires LogTold(env, w, a) && !HashTaken(Act(env, w, a).db.log, GENESIS_HASH)
    ensures !HashTaken(w.db.log, GENESIS_HASH)
  {
    hide Act, Accepted;
    var log, log' := w.db.log, Act(env, w, a).db.log;
    assert forall k | 0 <= k < |log| :: log'[k] == log[k];
  }

  /** The tip in flight is what the log showed when the flight read it. */
  lemma {:induction false} TipWasRead(env: Env, actions: seq<Action>, i: nat) returns (n: nat)
    requires i < |Race(env, START, actions).flights| && Race(env, START, actions).flights[i].Appending?
    ensures var f := Race(env, START, actions).flights[i];
      && n < |actions| && actions[n] == ReadTip(i, f.eventId) && Fits(Race(env, START, actions[..n]), actions[n])
      && f.length == |Race(env, START, actions[..n]).db.log| && f.tip == Tip(Race(env, START, actions[..n]).db.log)
  {
    hide CommitOf, StoreOf, TablesAfter, EffectOf, EntryRow;
    if actions != [] {
      var before, last := actions[..|actions| - 1], actions[|actions| - 1];
      var w := Race(env, START, before);
      if i < |w.flights| && w.flights[i].Appending? {
        n := TipWasRead(env, before, i);
        assert before[..n] == actions[..n];
      } else {
        n := |before|;
      }
    }
  }

  /** Two calls that read the same tip and both insert fork the chain, unless the first
      entry hashes to that very tip. */
  lemma TwoReadersFork(env: Env, w: World, i: nat, j: nat)
    requires i < |w.flights| && j < |w.flights| && i != j
    requires w.flights[i].Appending? && w.flights[j].Appending?
    requires w.flights[i].tip == w.flights[j].tip == Tip(w.db.log)
    requires Inserts(env, w, InsertEntry(i)) && Inserts(env, Act(env, w, InsertEntry(i)), InsertEntry(j))
    requires EntryRow(env, w.db.log, w.flights[i]).entryHash != Tip(w.db.log)
    ensures !Accepted(env.codec.hash, Act(env, Act(env, w, InsertEntry(i)), InsertEntry(j)).db.log)
  {
    InsertTold(env, Act(env, w, InsertEntry(i)), j);
  }
}
