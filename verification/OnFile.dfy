/** Agents and mandates on file over whole runs: the freeze switch, what the gate is told
    about an agent, and which version of a mandate is kept. */
module OnFile {
  import opened Models
  import opened Schema
  import opened Gate
  import opened Service
  import opened Settlement
  import opened Webhooks
  import opened Runs
  import opened StatusGraph

  predicate SameFiles(c: Conn, c': Conn) {
    c'.view.agents == c.view.agents && c'.view.mandates == c.view.mandates
  }

  /** One call changes the agents only by registering a new one or setting the flag of
      one on file. */
  lemma AgentsTold(env: Env, c: Conn, step: Step, agentId: string)
    requires Inv(c)
    ensures var c' := After(env, c, step);
      && (agentId in c'.view.agents <==> agentId in c.view.agents || step.op == RegisterAgent(agentId))
      && (agentId in c'.view.agents ==>
            c'.view.agents[agentId] ==
              if agentId !in c.view.agents then false
              else if step.op.SetFrozen? && step.op.agentId == agentId then step.op.frozen
              else c.view.agents[agentId])
  {
    hide Authorized, Settled, Reconciled, Handled, Valid;
    if !step.op.RegisterAgent? && !step.op.SetFrozen? && !step.op.SaveMandate? {
      OtherCallsKeepFiles(env, c, step);
    }
  }

  lemma OtherCallsKeepFiles(env: Env, c: Conn, step: Step)
    requires Inv(c) && !step.op.RegisterAgent? && !step.op.SetFrozen? && !step.op.SaveMandate?
    ensures SameFiles(c, After(env, c, step))
  {
    hide Authorized, Settled, Reconciled, Handled, Inv;
    match step.op
    case Authorize(call) => AuthorizeKeepsFiles(env, c, call, step.eventId);
    case Settle(id, answer) => SettleKeepsFiles(env, c, id, answer, step.eventId);
    case Reconcile(id, answer) => ReconcileKeepsFiles(env, c, id, answer, step.eventId);
    case Webhook(ev) => WebhookKeepsFiles(env, c, step);
    case _ =>
  }

  lemma AuthorizeKeepsFiles(env: Env, c: Conn, call: AuthCall, eventId: string)
    requires Inv(c)
    ensures SameFiles(c, Authorized(env, c, call, eventId).0)
  {
    hide Decide, ById, KeyAllowed, NonceInsertable, TxnInsertError, RowOf, StatusFor, ReceiptOf, EventRow, Valid;
  }

  lemma SettleKeepsFiles(env: Env, c: Conn, id: string, answer: Option<string>, eventId: string)
    ensures SameFiles(c, Settled(env.codec, c, id, answer, eventId).0)
  {
    hide ById, NeedsOrder, EventRow;
  }

  lemma ReconcileKeepsFiles(env: Env, c: Conn, id: string, answer: Option<seq<Payment>>, eventId: string)
    ensures SameFiles(c, Reconciled(env.codec, c, id, answer, eventId).0)
  {
    hide ById, Reconcilable, FirstCapture, EventRow;
  }

  lemma WebhookKeepsFiles(env: Env, c: Conn, step: Step)
    requires step.op.Webhook?
    ensures SameFiles(c, After(env, c, step))
  {
    hide ById, ByOrder, EventRow;
  }

  predicate RegisteredAt(steps: seq<Step>, agentId: string, r: nat) {
    r < |steps| && steps[r].op == RegisterAgent(agentId)
  }

  /** A freeze, call n, after a registration, call r, that no later unfreeze undoes. */
  predicate StandingFreeze(steps: seq<Step>, agentId: string, r: nat, n: nat) {
    && r < n < |steps| && RegisteredAt(steps, agentId, r) && steps[n].op == SetFrozen(agentId, true)
    && forall k | n < k < |steps| :: steps[k].op != SetFrozen(agentId, false)
  }

  ghost predicate Registered(steps: seq<Step>, agentId: string) {
    exists r :: RegisteredAt(steps, agentId, r)
  }

  ghost predicate FrozenBySteps(steps: seq<Step>, agentId: string) {
    exists r, n :: StandingFreeze(steps, agentId, r, n)
  }

  lemma RegisteredMore(before: seq<Step>, last: Step, agentId: string)
    ensures Registered(before + [last], agentId) <==>
      Registered(before, agentId) || last.op == RegisterAgent(agentId)
  {
    var steps := before + [last];
    if r: nat :| RegisteredAt(before, agentId, r) {
      assert RegisteredAt(steps, agentId, r);
    }
    if last.op == RegisterAgent(agentId) {
      assert RegisteredAt(steps, agentId, |before|);
    }
    if r: nat :| RegisteredAt(steps, agentId, r) && r < |before| {
      assert RegisteredAt(before, agentId, r);
    }
  }

  lemma FrozenMore(before: seq<Step>, last: Step, agentId: string)
    ensures FrozenBySteps(before + [last], agentId) <==>
      if last.op == SetFrozen(agentId, true) then Registered(before, agentId)
      else FrozenBySteps(before, agentId) && last.op != SetFrozen(agentId, false)
  {
    var steps := before + [last];
    if last.op == SetFrozen(agentId, true) {
      if r: nat :| RegisteredAt(before, agentId, r) {
        assert StandingFreeze(steps, agentId, r, |before|);
      }
      if r: nat, n: nat :| StandingFreeze(steps, agentId, r, n) {
        assert RegisteredAt(before, agentId, r);
      }
    } else {
      if last.op != SetFrozen(agentId, false) {
        if r: nat, n: nat :| StandingFreeze(before, agentId, r, n) {
          assert StandingFreeze(steps, agentId, r, n);
        }
      }
      if r: nat, n: nat :| StandingFreeze(steps, agentId, r, n) {
        assert steps[|before|] == last && n < |before|;
        assert forall k | 0 <= k < |before| :: before[k] == steps[k];
        assert RegisteredAt(before, agentId, r);
        assert StandingFreeze(before, agentId, r, n);
      }
    }
  }

  /** Over any run, whatever it mixes in, the gate is told that an agent is frozen exactly
      when some freeze since its first registration has not been undone by a later
      unfreeze: registering it again does not, and neither does a flag set on anyone else
      or before the agent was known. */
  lemma {:induction false} FrozenIff(env: Env, steps: seq<Step>, agentId: string)
    ensures var t := Run(env, OPENED, steps).view;
      && (agentId in t.agents <==> Registered(steps, agentId))
      && (IsFrozen(t, agentId) <==> FrozenBySteps(steps, agentId))
  {
    hide After, Inv, FrozenBySteps, Registered;
    if steps == [] {
      NothingFrozen(agentId);
    } else {
      var before, last := steps[..|steps| - 1], steps[|steps| - 1];
      FrozenIff(env, before, agentId);
      OpenedInv();
      RunKeepsInv(env, OPENED, before);
      AgentsTold(env, Run(env, OPENED, before), last, agentId);
      assert steps == before + [last];
      RegisteredMore(before, last, agentId);
      FrozenMore(before, last, agentId);
    }
  }

  lemma NothingFrozen(agentId: string)
    ensures !Registered([], agentId) && !FrozenBySteps([], agentId)
  {
  }

  lemma {:induction false} FlagStays(env: Env, c: Conn, steps: seq<Step>, agentId: string, frozen: bool)
    requires Inv(c) && agentId in c.view.agents && c.view.agents[agentId] == frozen
    requires forall n | 0 <= n < |steps| :: steps[n].op != SetFrozen(agentId, !frozen)
    ensures var t := Run(env, c, steps).view; agentId in t.agents && t.agents[agentId] == frozen
  {
    hide After, Inv;
    if steps != [] {
      FlagStays(env, c, steps[..|steps| - 1], agentId, frozen);
      RunKeepsInv(env, c, steps[..|steps| - 1]);
      AgentsTold(env, Run(env, c, steps[..|steps| - 1]), steps[|steps| - 1], agentId);
    }
  }

  /** A frozen agent authorizes nothing: from the freeze of an agent on file, and through
      any run that does not unfreeze it, no call of that agent is allowed, and one whose
      mandate is in order is blocked for the freeze. */
  lemma FrozenBuysNothing(env: Env, c: Conn, agentId: string, id: string, later: seq<Step>, call: AuthCall, e: string)
    requires Inv(c) && agentId in c.view.agents && call.txn.agentId == agentId
    requires forall n | 0 <= n < |later| :: later[n].op != SetFrozen(agentId, false)
    ensures var now := Run(env, After(env, c, Step(SetFrozen(agentId, true), id)), later);
      var gate := Decide(env, now.view, call);
      && gate.decision == BLOCK && !Buys(env, now, call, e)
      && (call.txn.mandate.VerifySignature(env.verifies)
          && IssuerTrusted(call.txn.mandate, ContextOf(env, now.view, call))
          && call.txn.mandate.agentId == agentId && call.at <= call.txn.mandate.expiresAt
          ==> gate.reason == AGENT_FROZEN)
  {
    hide Run, Verdict, Authorized, Valid;
    var c1 := After(env, c, Step(SetFrozen(agentId, true), id));
    StepKeepsInv(env, c, Step(SetFrozen(agentId, true), id));
    AgentsTold(env, c, Step(SetFrozen(agentId, true), id), agentId);
    FlagStays(env, c1, later, agentId, true);
    RunKeepsInv(env, c1, later);
    var now := Run(env, c1, later);
    VerdictCases(env.verifies, call.txn, call.offer, ContextOf(env, now.view, call));
    ReasonSpelledOut(env.verifies, call.txn, call.offer, ContextOf(env, now.view, call));
    OneAttemptOneRecord(env, now, call, e);
  }

  /** Unfreezing restores it: from then on, through any run that does not freeze the agent
      again, no call of the agent is blocked for a freeze. */
  lemma UnfrozenIsNotBlocked(env: Env, c: Conn, agentId: string, id: string, later: seq<Step>, call: AuthCall)
    requires Inv(c) && call.txn.agentId == agentId
    requires forall n | 0 <= n < |later| :: later[n].op != SetFrozen(agentId, true)
    ensures var now := Run(env, After(env, c, Step(SetFrozen(agentId, false), id)), later);
      !IsFrozen(now.view, agentId) && Decide(env, now.view, call).reason != AGENT_FROZEN
  {
    hide Run, Verdict, Authorized, Valid;
    var c1 := After(env, c, Step(SetFrozen(agentId, false), id));
    StepKeepsInv(env, c, Step(SetFrozen(agentId, false), id));
    AgentsTold(env, c, Step(SetFrozen(agentId, false), id), agentId);
    StaysUnfrozen(env, c1, later, agentId);
    var now := Run(env, c1, later);
    ReasonSpelledOut(env.verifies, call.txn, call.offer, ContextOf(env, now.view, call));
  }

  lemma {:induction false} StaysUnfrozen(env: Env, c: Conn, steps: seq<Step>, agentId: string)
    requires Inv(c) && !IsFrozen(c.view, agentId)
    requires forall n | 0 <= n < |steps| :: steps[n].op != SetFrozen(agentId, true)
    ensures !IsFrozen(Run(env, c, steps).view, agentId)
  {
    hide After, Inv;
    if steps != [] {
      StaysUnfrozen(env, c, steps[..|steps| - 1], agentId);
      RunKeepsInv(env, c, steps[..|steps| - 1]);
      AgentsTold(env, Run(env, c, steps[..|steps| - 1]), steps[|steps| - 1], agentId);
    }
  }

  // ---- mandates ----

  /** One call changes the mandates only by storing one whose cap is not negative and whose
      agent is on file, under its own id. */
  lemma MandatesTold(env: Env, c: Conn, step: Step)
    requires Inv(c)
    ensures var t := c.view;
      After(env, c, step).view.mandates ==
        if step.op.SaveMandate? && step.op.mandate.maxAmount >= 0 && step.op.mandate.agentId in t.agents
        then t.mandates[step.op.mandate.mandateId := step.op.mandate] else t.mandates
  {
    hide Authorized, Settled, Reconciled, Handled, Valid;
    if !step.op.RegisterAgent? && !step.op.SetFrozen? && !step.op.SaveMandate? {
      OtherCallsKeepFiles(env, c, step);
    }
  }

  /** Call n asks to store this mandate, and its cap and its agent allow it. */
  ghost predicate SavesAt(steps: seq<Step>, n: nat, m: Mandate) {
    && n < |steps| && steps[n].op == SaveMandate(m)
    && m.maxAmount >= 0 && Registered(steps[..n], m.agentId)
  }

  /** And no later call stores another one under its id. */
  ghost predicate SavedLast(steps: seq<Step>, n: nat, m: Mandate) {
    SavesAt(steps, n, m)
    && forall k, m' :: n < k && SavesAt(steps, k, m') ==> m'.mandateId != m.mandateId
  }

  lemma SavedLastMore(before: seq<Step>, last: Step, m: Mandate)
    ensures (exists n :: SavedLast(before + [last], n, m)) <==>
      if last.op == SaveMandate(m) && m.maxAmount >= 0 && Registered(before, m.agentId) then true
      else if last.op.SaveMandate? && last.op.mandate.mandateId == m.mandateId
              && last.op.mandate.maxAmount >= 0 && Registered(before, last.op.mandate.agentId) then false
      else exists n :: SavedLast(before, n, m)
  {
    hide Registered;
    var steps := before + [last];
    forall n: nat, m' | n < |before|
      ensures SavesAt(steps, n, m') <==> SavesAt(before, n, m')
    {
      assert steps[..n] == before[..n];
    }
    assert steps[..|before|] == before;
    assert forall m' :: SavesAt(steps, |before|, m') <==>
      last.op == SaveMandate(m') && m'.maxAmount >= 0 && Registered(before, m'.agentId);
    if SavesAt(steps, |before|, m) {
      assert SavedLast(steps, |before|, m);
    } else if last.op.SaveMandate? && last.op.mandate.mandateId == m.mandateId
              && SavesAt(steps, |before|, last.op.mandate) {
      assert forall n: nat :: SavedLast(steps, n, m) ==> n < |before|;
    } else {
      if n: nat :| SavedLast(before, n, m) {
        assert SavedLast(steps, n, m);
      }
      if n: nat :| SavedLast(steps, n, m) {
        assert SavedLast(before, n, m);
      }
    }
  }

  /** Over any run, whatever it mixes in, the mandate on file under an id is the one that
      was stored last under it: a mandate with a negative cap or for an agent not yet
      registered replaces nothing. */
  lemma {:induction false} MandateOnFileIff(env: Env, steps: seq<Step>, m: Mandate)
    ensures var mandates := Run(env, OPENED, steps).view.mandates;
      (m.mandateId in mandates && mandates[m.mandateId] == m) <==> exists n :: SavedLast(steps, n, m)
  {
    hide After, Inv, Registered, SavedLast;
    if steps == [] {
      NothingSaved(m);
    } else {
      var before, last := steps[..|steps| - 1], steps[|steps| - 1];
      MandateOnFileIff(env, before, m);
      FrozenIff(env, before, m.agentId);
      OpenedInv();
      RunKeepsInv(env, OPENED, before);
      MandatesTold(env, Run(env, OPENED, before), last);
      assert steps == before + [last];
      SavedLastMore(before, last, m);
      if last.op.SaveMandate? {
        FrozenIff(env, before, last.op.mandate.agentId);
      }
    }
  }

  lemma NothingSaved(m: Mandate)
    ensures !exists n :: SavedLast([], n, m)
  {
  }
}
