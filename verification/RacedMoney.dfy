/** Where settled money comes from when calls overlap. */
module RacedMoney {
  import opened Models
  import opened Schema
  import opened Gate
  import opened Service
  import opened Settlement
  import opened StatusGraph
  import opened Runs
  import opened Orders
  import opened Money
  import opened Races
  import opened RacedReplay

  /** The call that began at action b was allowed on what it read there, and its commit,
      action n, added row i. */
  ghost predicate AuthorizedIn(env: Env, actions: seq<Action>, b: nat, n: nat, i: nat, row: TxnRow) {
    && b < n < |actions| && actions[b].Begin? && actions[n].Commit?
    && AuthorizedBy(env, Step(Authorize(actions[b].call), ""), row)
    && Decide(env, Race(env, START, actions[..b]).db, actions[b].call).decision == ALLOW
    && AddsRow(env, actions, n, i, row.txnId)
  }

  ghost predicate AddsRow(env: Env, actions: seq<Action>, n: nat, i: nat, txnId: string)
    requires n < |actions|
  {
    var txns, txns' := Race(env, START, actions[..n]).db.txns, Race(env, START, actions[..n + 1]).db.txns;
    |txns| == i && |txns'| == i + 1 && txns'[i].txnId == txnId && txns'[i].decision == ALLOW
  }

  /** Action m created the order of the row, for its amount. */
  ghost predicate OrderedIn(env: Env, actions: seq<Action>, m: nat, row: TxnRow) {
    && m < |actions| && actions[m].Other? && row.orderId.Some? && OrderedBy(actions[m].step, row)
    && NewOrders(Clean(Race(env, START, actions[..m]).db), actions[m].step)
       == [Order(row.txnId, row.amount, row.orderId.value)]
  }

  /** Action k saw the capture and settled row i. */
  ghost predicate CapturedIn(env: Env, actions: seq<Action>, k: nat, i: nat, row: TxnRow) {
    && k < |actions| && actions[k].Other?
    && var txns, txns' := Race(env, START, actions[..k]).db.txns, Race(env, START, actions[..k + 1]).db.txns;
    && i < |txns| && i < |txns'| && txns[i].status != SETTLED && txns'[i].status == SETTLED
    && CapturedBy(actions[k].step, row, txns[i].paymentId)
  }

  datatype Moments = Moments(begun: nat, committed: nat, ordered: nat, captured: nat)

  /** Authorized, then ordered, then captured, as far as the row has come. */
  ghost predicate RacedStory(env: Env, actions: seq<Action>, i: nat, row: TxnRow, at: Moments) {
    && (row.decision == ALLOW ==> AuthorizedIn(env, actions, at.begun, at.committed, i, row))
    && (row.orderId.Some? ==> at.committed < at.ordered && OrderedIn(env, actions, at.ordered, row))
    && (row.status == SETTLED ==> at.ordered < at.captured && CapturedIn(env, actions, at.captured, i, row))
  }

  lemma AuthorizedStays(env: Env, actions: seq<Action>, last: Action, i: nat, row: TxnRow, row': TxnRow, at: Moments)
    requires AuthorizedIn(env, actions, at.begun, at.committed, i, row) && SameAttempt(row, row')
    ensures AuthorizedIn(env, actions + [last], at.begun, at.committed, i, row')
  {
    hide Race, Decide;
    var all, b, n := actions + [last], at.begun, at.committed;
    assert all[..b] == actions[..b] && all[..n] == actions[..n] && all[..n + 1] == actions[..n + 1];
    assert AuthorizedBy(env, Step(Authorize(actions[b].call), ""), row');
  }

  lemma OrderedStays(env: Env, actions: seq<Action>, last: Action, m: nat, row: TxnRow, row': TxnRow)
    requires OrderedIn(env, actions, m, row) && SameAttempt(row, row') && row'.orderId == row.orderId
    ensures OrderedIn(env, actions + [last], m, row')
  {
    hide Race, NewOrders;
    assert (actions + [last])[..m] == actions[..m];
  }

  lemma CapturedStays(env: Env, actions: seq<Action>, last: Action, k: nat, i: nat, row: TxnRow)
    requires CapturedIn(env, actions, k, i, row)
    ensures CapturedIn(env, actions + [last], k, i, row)
  {
    hide Race, CapturedBy;
    var all := actions + [last];
    assert all[..k] == actions[..k] && all[..k + 1] == actions[..k + 1];
  }

  lemma StoryStays(env: Env, actions: seq<Action>, last: Action, i: nat, row: TxnRow, at: Moments)
    requires RacedStory(env, actions, i, row, at)
    ensures RacedStory(env, actions + [last], i, row, at)
  {
    hide AuthorizedIn, OrderedIn, CapturedIn;
    if row.decision == ALLOW { AuthorizedStays(env, actions, last, i, row, row, at); }
    if row.orderId.Some? { OrderedStays(env, actions, last, at.ordered, row, row); }
    if row.status == SETTLED { CapturedStays(env, actions, last, at.captured, i, row); }
  }

  lemma WholeAndBefore(env: Env, actions: seq<Action>, last: Action)
    ensures var all := actions + [last];
      && all[|actions|] == last && all[..|actions|] == actions && all[..|actions| + 1] == all
      && Race(env, START, all) == Act(env, Race(env, START, actions), last)
  {
    hide Act;
    assert (actions + [last])[..|actions|] == actions;
  }

  /** A commit that adds a row comes from a call that was allowed on its own reads. */
  lemma CommittedRowHasStory(env: Env, actions: seq<Action>, f: nat) returns (at: Moments)
    requires Fits(Race(env, START, actions), Commit(f))
    requires |Act(env, Race(env, START, actions), Commit(f)).db.txns| > |Race(env, START, actions).db.txns|
    ensures var txns := Race(env, START, actions).db.txns;
      RacedStory(env, actions + [Commit(f)], |txns|, Act(env, Race(env, START, actions), Commit(f)).db.txns[|txns|], at)
  {
    hide Race, CommitOf, Decide, ContextOf, AuthorizedBy, FlightOk;
    var w, all := Race(env, START, actions), actions + [Commit(f)];
    var flight := w.flights[f];
    var b, n := HistoryIsTrue(env, actions, f);
    CommitRows(w.db, flight);
    WholeAndBefore(env, actions, Commit(f));
    assert all[..b] == actions[..b] && all[b] == actions[b];
    at := Moments(b, |actions|, 0, 0);
    var row := RowOf(flight.call.txn, flight.gate, StatusFor(flight.gate, flight.call.risk));
    AllowedRow(env, flight.call, flight.seen, Race(env, START, actions[..b]).db);
    assert AddsRow(env, all, |actions|, |w.db.txns|, row.txnId);
  }

  lemma AllowedRow(env: Env, call: AuthCall, seen: Context, t: Tables)
    requires seen == ContextOf(env, t, call) && Decide(env, t, call).decision == ALLOW
    ensures var gate := Decide(env, t, call);
      AuthorizedBy(env, Step(Authorize(call), ""), RowOf(call.txn, gate, StatusFor(gate, call.risk)))
  {
    hide KeyAllowed;
    VerdictCases(env.verifies, call.txn, call.offer, seen);
    hide Verdict;
  }

  lemma UpdatedRowInRace(env: Env, actions: seq<Action>, step: Step, at: Moments) returns (at': Moments)
    requires !step.op.Authorize? && Valid(Race(env, START, actions).db)
    requires EffectOf(env, Clean(Race(env, START, actions).db), step).Updated?
    requires var t := Race(env, START, actions).db; var e := EffectOf(env, Clean(t), step);
      RacedStory(env, actions, e.i, t.txns[e.i], at)
    ensures var t := Race(env, START, actions).db; var e := EffectOf(env, Clean(t), step);
      RacedStory(env, actions + [Other(step)], e.i, e.row, at')
  {
    hide Race, EffectOf, TablesAfter, CapturedBy, Valid;
    var w, all := Race(env, START, actions), actions + [Other(step)];
    var c := Clean(w.db);
    var e := EffectOf(env, c, step);
    var row := w.db.txns[e.i];
    WholeAndBefore(env, actions, Other(step));
    assert Inv(c);
    UpdateFacts(env, c, step);
    AuthorizedStays(env, actions, Other(step), e.i, row, e.row, at);
    at' := at;
    if step.op.Settle? {
      NewOrderIs(env, c, step);
      at' := at.(ordered := |actions|);
    } else {
      OrderedStays(env, actions, Other(step), at.ordered, row, e.row);
      if e.row.status == SETTLED {
        at' := at.(captured := |actions|);
        CaptureSeen(env, c, step);
        OtherRows(env, w.db, step);
        assert Race(env, START, all).db.txns == w.db.txns[e.i := e.row];
      }
    }
  }

  /** What an action does to the rows. */
  lemma ActRows(env: Env, w: World, a: Action)
    requires Safe(env, w)
    ensures var txns, txns' := w.db.txns, Act(env, w, a).db.txns;
      if a.Commit? || a.StoreBlocked? then
        txns' == txns || (Fits(w, a) && |txns'| == |txns| + 1 && (forall k | 0 <= k < |txns| :: txns'[k] == txns[k])
                          && (a.StoreBlocked? ==> var row := txns'[|txns|];
                              row.decision == BLOCK && row.orderId == None && row.status == BLOCKED))
      else if a.Other? && Fits(w, a) then
        !EffectOf(env, Clean(w.db), a.step).Added? && txns' == Patch(txns, EffectOf(env, Clean(w.db), a.step))
      else txns' == txns
  {
    hide Valid, CommitOf, StoreOf, EffectOf, TablesAfter, Verdict;
    if Fits(w, a) {
      match a
      case Commit(i) => CommitRows(w.db, w.flights[i]);
      case StoreBlocked(i) =>
        StoreRows(w.db, w.flights[i]);
        assert FlightOk(env, w.db, w.flights[i]);
        GateIsOk(env.verifies, w.flights[i].call, w.flights[i].seen);
      case Other(step) => OtherRows(env, w.db, step);
      case _ =>
    }
  }

  /** Every row of every reachable state of every race has its story. */
  lemma {:induction false} EveryRacedRowHasStory(env: Env, actions: seq<Action>, i: nat) returns (at: Moments)
    requires i < |Race(env, START, actions).db.txns|
    ensures RacedStory(env, actions, i, Race(env, START, actions).db.txns[i], at)
  {
    hide RacedStory, EffectOf, Act, Valid, Fits;
    if actions != [] {
      var before, last := actions[..|actions| - 1], actions[|actions| - 1];
      var w := Race(env, START, before);
      assert actions == before + [last];
      RaceStaysSafe(env, before);
      ActRows(env, w, last);
      if i < |w.db.txns| {
        at := EveryRacedRowHasStory(env, before, i);
        if Race(env, START, actions).db.txns[i] == w.db.txns[i] {
          StoryStays(env, before, last, i, w.db.txns[i], at);
        } else {
          assert last.Other? by { OnlyOthersUpdate(env, w, last, i); }
          NoAuthorize(env, w, last);
          at := UpdatedRowInRace(env, before, last.step, at);
        }
      } else if last.Commit? {
        at := CommittedRowHasStory(env, before, last.i);
      } else {
        BlockedRowHasStory(env, actions, w, last, i);
        at := Moments(0, 0, 0, 0);
      }
    }
  }

  lemma OnlyOthersUpdate(env: Env, w: World, a: Action, i: nat)
    requires Safe(env, w) && i < |w.db.txns| && i < |Act(env, w, a).db.txns|
    requires Act(env, w, a).db.txns[i] != w.db.txns[i]
    ensures a.Other?
  {
    ActRows(env, w, a);
    hide Act;
  }

  lemma NoAuthorize(env: Env, w: World, a: Action)
    requires a.Other? && Act(env, w, a).db.txns != w.db.txns
    ensures !a.step.op.Authorize?
  {
  }

  lemma BlockedRowHasStory(env: Env, actions: seq<Action>, w: World, last: Action, i: nat)
    requires Safe(env, w) && !last.Commit? && |w.db.txns| <= i < |Act(env, w, last).db.txns|
    ensures RacedStory(env, actions, i, Act(env, w, last).db.txns[i], Moments(0, 0, 0, 0))
  {
    hide Act, AuthorizedIn, OrderedIn, CapturedIn, EffectOf, Valid;
    ActRows(env, w, last);
  }

  /** The money theorem over races.  However calls overlap, a settled row of a pinned
      service was added by the commit of a call that the gate had allowed on its own
      reads, at the merchant's price under a mandate body that a pinned issuer had signed
      with a cap at least as high; then its order was created for that amount; then
      exactly that amount was seen captured for that order, under the payment the row
      now carries. */
  lemma RacedMoneyIsBounded(env: Env, actions: seq<Action>, i: nat, issued: (string, SignedBody) -> bool)
    returns (at: Moments)
    requires Unforgeable(env, issued)
    requires i < |Race(env, START, actions).db.txns|
    requires Race(env, START, actions).db.txns[i].status == SETTLED
    ensures var row := Race(env, START, actions).db.txns[i];
      && row.decision == ALLOW && row.reason == OK && Truthy(row.orderId)
      && at.begun < at.committed < at.ordered < at.captured < |actions|
      && AuthorizedIn(env, actions, at.begun, at.committed, i, row)
      && OrderedIn(env, actions, at.ordered, row) && CapturedIn(env, actions, at.captured, i, row)
    ensures var call, row := actions[at.begun].call, Race(env, START, actions).db.txns[i];
      && row.amount == call.offer.value.price <= call.txn.mandate.Body().maxAmount
      && issued(call.txn.mandate.publicKey, call.txn.mandate.Body())
  {
    hide Race, Decide, NewOrders, CapturedBy, OrderedBy, AddsRow;
    var w := Race(env, START, actions);
    at := EveryRacedRowHasStory(env, actions, i);
    RaceStaysSafe(env, actions);
    assert RowOk(w.db, w.db.txns[i]);
  }
}
