/** The deterministic authorization gate: eleven checks in a fixed order, the
    first failing one naming the reason. */
module Gate {
  import opened Models
  import opened Sorting

  /** The state and configuration the gate is handed instead of fetching it. */
  datatype Context = Context(
    nonceSeen: bool,
    idempotencySeen: bool,
    agentFrozen: bool,
    trustedIssuerKeys: Option<set<string>>,
    at: int)

  const CHECKLIST: seq<CheckName> := [
    MandateSignedByTrustedIssuer, MandateAgentMatches, MandateNotExpired, AgentNotFrozen,
    MoneyFieldFromMerchantRecord, MerchantRecordExists, PriceEqualsMerchantRecord,
    CategoryInAllowlist, AmountWithinCap, NonceUnused, IdempotencyKeyUnused]

  predicate IssuerTrusted(m: Mandate, ctx: Context) {
    ctx.trustedIssuerKeys.None? || m.publicKey in ctx.trustedIssuerKeys.value
  }

  /** What each check of the list demands, taken on its own. */
  predicate Passes(name: CheckName, verifies: Verifies, txn: TransactionRequest,
                   record: Option<MerchantRecord>, ctx: Context)
  {
    match name
    case MandateSignedByTrustedIssuer =>
      txn.mandate.VerifySignature(verifies) && IssuerTrusted(txn.mandate, ctx)
    case MandateAgentMatches => txn.mandate.agentId == txn.agentId
    case MandateNotExpired => !txn.mandate.IsExpired(ctx.at)
    case AgentNotFrozen => !ctx.agentFrozen
    case MoneyFieldFromMerchantRecord => txn.priceSource == MERCHANT_RECORD
    case MerchantRecordExists => record.Some? && record.value.active && record.value.sku == txn.sku
    case PriceEqualsMerchantRecord => record.Some? && txn.amount == record.value.price
    case CategoryInAllowlist => record.Some? && record.value.category in txn.mandate.allowedCategories
    case AmountWithinCap => txn.amount <= txn.mandate.maxAmount
    case NonceUnused => !ctx.nonceSeen
    case IdempotencyKeyUnused => !ctx.idempotencySeen
  }

  lemma ChecksSpelledOut(verifies: Verifies, txn: TransactionRequest, record: Option<MerchantRecord>, ctx: Context)
    ensures Passes(MandateSignedByTrustedIssuer, verifies, txn, record, ctx) ==
      (txn.mandate.VerifySignature(verifies) && IssuerTrusted(txn.mandate, ctx))
    ensures Passes(MandateAgentMatches, verifies, txn, record, ctx) == (txn.mandate.agentId == txn.agentId)
    ensures Passes(MandateNotExpired, verifies, txn, record, ctx) == !txn.mandate.IsExpired(ctx.at)
    ensures Passes(AgentNotFrozen, verifies, txn, record, ctx) == !ctx.agentFrozen
    ensures Passes(MoneyFieldFromMerchantRecord, verifies, txn, record, ctx) == (txn.priceSource == MERCHANT_RECORD)
    ensures Passes(MerchantRecordExists, verifies, txn, record, ctx) ==
      (record.Some? && record.value.active && record.value.sku == txn.sku)
    ensures Passes(PriceEqualsMerchantRecord, verifies, txn, record, ctx) ==
      (record.Some? && txn.amount == record.value.price)
    ensures Passes(CategoryInAllowlist, verifies, txn, record, ctx) ==
      (record.Some? && record.value.category in txn.mandate.allowedCategories)
    ensures Passes(AmountWithinCap, verifies, txn, record, ctx) == (txn.amount <= txn.mandate.maxAmount)
    ensures Passes(NonceUnused, verifies, txn, record, ctx) == !ctx.nonceSeen
    ensures Passes(IdempotencyKeyUnused, verifies, txn, record, ctx) == !ctx.idempotencySeen
  {
  }

  /** The reason code each check blocks with. */
  function ReasonOf(name: CheckName): Reason {
    match name
    case MandateSignedByTrustedIssuer => MANDATE_IMMUTABLE
    case MandateAgentMatches => MANDATE_IMMUTABLE
    case MandateNotExpired => MANDATE_EXPIRED
    case AgentNotFrozen => AGENT_FROZEN
    case MoneyFieldFromMerchantRecord => UNTRUSTED_INSTRUCTION
    case MerchantRecordExists => PRICE_MISMATCH_MERCHANT_RECORD
    case PriceEqualsMerchantRecord => PRICE_MISMATCH_MERCHANT_RECORD
    case CategoryInAllowlist => CATEGORY_OUTSIDE_MANDATE
    case AmountWithinCap => MANDATE_LIMIT_EXCEEDED
    case NonceUnused => NONCE_REPLAY
    case IdempotencyKeyUnused => DUPLICATE_TRANSACTION
  }

  /** How many of the first n checks pass before one fails. */
  function LeadingPasses(n: nat, verifies: Verifies, txn: TransactionRequest,
                         record: Option<MerchantRecord>, ctx: Context): (k: nat)
    requires n <= |CHECKLIST|
    ensures k <= n
    ensures forall i | 0 <= i < k :: Passes(CHECKLIST[i], verifies, txn, record, ctx)
    ensures k < n ==> !Passes(CHECKLIST[k], verifies, txn, record, ctx)
  {
    if n == 0 then 0
    else
      var k := LeadingPasses(n - 1, verifies, txn, record, ctx);
      if k == n - 1 && Passes(CHECKLIST[n - 1], verifies, txn, record, ctx) then n else k
  }

  /** The position of the first failing check, or 11 when all pass. */
  function FirstFailing(verifies: Verifies, txn: TransactionRequest,
                        record: Option<MerchantRecord>, ctx: Context): (k: nat)
    ensures k <= |CHECKLIST|
    ensures forall i | 0 <= i < k :: Passes(CHECKLIST[i], verifies, txn, record, ctx)
    ensures k < |CHECKLIST| ==> !Passes(CHECKLIST[k], verifies, txn, record, ctx)
  {
    LeadingPasses(|CHECKLIST|, verifies, txn, record, ctx)
  }

  /** The record of the first n checks. */
  function CheckedUpTo(n: nat, verifies: Verifies, txn: TransactionRequest,
                       record: Option<MerchantRecord>, ctx: Context): seq<Check>
    requires n <= |CHECKLIST|
  {
    if n == 0 then []
    else CheckedUpTo(n - 1, verifies, txn, record, ctx)
         + [Check(CHECKLIST[n - 1], Passes(CHECKLIST[n - 1], verifies, txn, record, ctx))]
  }

  /** The specification of the gate: allow when no check fails, otherwise block
      with the reason of the first one, having recorded the checks up to it. */
  function Verdict(verifies: Verifies, txn: TransactionRequest,
                   record: Option<MerchantRecord>, ctx: Context): GateResult
  {
    var k := FirstFailing(verifies, txn, record, ctx);
    if k == |CHECKLIST| then GateResult(ALLOW, OK, CheckedUpTo(k, verifies, txn, record, ctx))
    else GateResult(BLOCK, ReasonOf(CHECKLIST[k]), CheckedUpTo(k + 1, verifies, txn, record, ctx))
  }

  /** A run of the checklist that got past the first n checks with this record. */
  predicate Running(n: nat, checks: seq<Check>, verifies: Verifies, txn: TransactionRequest,
                    record: Option<MerchantRecord>, ctx: Context)
  {
    n <= FirstFailing(verifies, txn, record, ctx) && checks == CheckedUpTo(n, verifies, txn, record, ctx)
  }

  /** One more check: when it passes the run goes on, or ends after the last one, and
      when it fails the verdict is its reason with the record so far. */
  lemma NextCheck(name: CheckName, passed: bool, checks: seq<Check>, verifies: Verifies, txn: TransactionRequest,
                  record: Option<MerchantRecord>, ctx: Context)
    requires Running(Position(name), checks, verifies, txn, record, ctx)
    requires passed == Passes(name, verifies, txn, record, ctx)
    ensures passed ==>
      Running(Position(name) + 1, checks + [Check(name, passed)], verifies, txn, record, ctx)
    ensures !passed ==>
      Verdict(verifies, txn, record, ctx) == GateResult(BLOCK, ReasonOf(name), checks + [Check(name, passed)])
    ensures passed && name == IdempotencyKeyUnused ==>
      Verdict(verifies, txn, record, ctx) == GateResult(ALLOW, OK, checks + [Check(name, passed)])
  {
    var k, f := Position(name), FirstFailing(verifies, txn, record, ctx);
    AtPosition(name, k);
    assert f > k ==> Passes(CHECKLIST[k], verifies, txn, record, ctx);
  }

  /** The checklist as the program runs it, growing the record check by check and
      returning early; its first five checks, which need no merchant record, are
      kept in a method of their own. */
  method Authorize(verifies: Verifies, txn: TransactionRequest,
                   record: Option<MerchantRecord>, ctx: Context) returns (result: GateResult)
    ensures result == Verdict(verifies, txn, record, ctx)
  {
    var blocked, checks := CheckAuthority(verifies, txn, record, ctx);
    if blocked.Some? { return blocked.value; }
    ChecksSpelledOut(verifies, txn, record, ctx);
    hide Running, Verdict, Passes;

    var recordOk := record.Some? && record.value.active && record.value.sku == txn.sku;
    NextCheck(MerchantRecordExists, recordOk, checks, verifies, txn, record, ctx);
    checks := checks + [Check(MerchantRecordExists, recordOk)];
    if !recordOk { return GateResult(BLOCK, PRICE_MISMATCH_MERCHANT_RECORD, checks); }

    var priceOk := txn.amount == record.value.price;
    NextCheck(PriceEqualsMerchantRecord, priceOk, checks, verifies, txn, record, ctx);
    checks := checks + [Check(PriceEqualsMerchantRecord, priceOk)];
    if !priceOk { return GateResult(BLOCK, PRICE_MISMATCH_MERCHANT_RECORD, checks); }

    var categoryOk := record.value.category in txn.mandate.allowedCategories;
    NextCheck(CategoryInAllowlist, categoryOk, checks, verifies, txn, record, ctx);
    checks := checks + [Check(CategoryInAllowlist, categoryOk)];
    if !categoryOk { return GateResult(BLOCK, CATEGORY_OUTSIDE_MANDATE, checks); }

    var capOk := txn.amount <= txn.mandate.maxAmount;
    NextCheck(AmountWithinCap, capOk, checks, verifies, txn, record, ctx);
    checks := checks + [Check(AmountWithinCap, capOk)];
    if !capOk { return GateResult(BLOCK, MANDATE_LIMIT_EXCEEDED, checks); }

    NextCheck(NonceUnused, !ctx.nonceSeen, checks, verifies, txn, record, ctx);
    checks := checks + [Check(NonceUnused, !ctx.nonceSeen)];
    if ctx.nonceSeen { return GateResult(BLOCK, NONCE_REPLAY, checks); }

    NextCheck(IdempotencyKeyUnused, !ctx.idempotencySeen, checks, verifies, txn, record, ctx);
    checks := checks + [Check(IdempotencyKeyUnused, !ctx.idempotencySeen)];
    if ctx.idempotencySeen { return GateResult(BLOCK, DUPLICATE_TRANSACTION, checks); }

    return GateResult(ALLOW, OK, checks);
  }

  method CheckAuthority(verifies: Verifies, txn: TransactionRequest, ghost record: Option<MerchantRecord>, ctx: Context)
    returns (blocked: Option<GateResult>, checks: seq<Check>)
    ensures if blocked.Some? then blocked.value == Verdict(verifies, txn, record, ctx)
            else Running(5, checks, verifies, txn, record, ctx)
  {
    checks := [];
    assert Running(0, checks, verifies, txn, record, ctx);
    ChecksSpelledOut(verifies, txn, record, ctx);
    hide Running, Verdict, Passes;

    var sigOk := txn.mandate.VerifySignature(verifies);
    var issuerOk := ctx.trustedIssuerKeys.None? || txn.mandate.publicKey in ctx.trustedIssuerKeys.value;
    NextCheck(MandateSignedByTrustedIssuer, sigOk && issuerOk, checks, verifies, txn, record, ctx);
    checks := checks + [Check(MandateSignedByTrustedIssuer, sigOk && issuerOk)];
    if !sigOk { return Some(GateResult(BLOCK, MANDATE_IMMUTABLE, checks)), checks; }
    if !issuerOk { return Some(GateResult(BLOCK, MANDATE_IMMUTABLE, checks)), checks; }

    var agentOk := txn.mandate.agentId == txn.agentId;
    NextCheck(MandateAgentMatches, agentOk, checks, verifies, txn, record, ctx);
    checks := checks + [Check(MandateAgentMatches, agentOk)];
    if !agentOk { return Some(GateResult(BLOCK, MANDATE_IMMUTABLE, checks)), checks; }

    var expired := txn.mandate.IsExpired(ctx.at);
    NextCheck(MandateNotExpired, !expired, checks, verifies, txn, record, ctx);
    checks := checks + [Check(MandateNotExpired, !expired)];
    if expired { return Some(GateResult(BLOCK, MANDATE_EXPIRED, checks)), checks; }

    NextCheck(AgentNotFrozen, !ctx.agentFrozen, checks, verifies, txn, record, ctx);
    checks := checks + [Check(AgentNotFrozen, !ctx.agentFrozen)];
    if ctx.agentFrozen { return Some(GateResult(BLOCK, AGENT_FROZEN, checks)), checks; }

    var provenanceOk := txn.priceSource == MERCHANT_RECORD;
    NextCheck(MoneyFieldFromMerchantRecord, provenanceOk, checks, verifies, txn, record, ctx);
    checks := checks + [Check(MoneyFieldFromMerchantRecord, provenanceOk)];
    if !provenanceOk { return Some(GateResult(BLOCK, UNTRUSTED_INSTRUCTION, checks)), checks; }

    return None, checks;
  }

  /** Everything an approval rests on. */
  predicate Clears(verifies: Verifies, txn: TransactionRequest,
                   record: Option<MerchantRecord>, ctx: Context)
  {
    && txn.mandate.VerifySignature(verifies)
    && IssuerTrusted(txn.mandate, ctx)
    && txn.mandate.agentId == txn.agentId
    && ctx.at <= txn.mandate.expiresAt
    && !ctx.agentFrozen
    && txn.priceSource == MERCHANT_RECORD
    && record.Some? && record.value.active && record.value.sku == txn.sku
    && txn.amount == record.value.price <= txn.mandate.maxAmount
    && record.value.category in txn.mandate.allowedCategories
    && !ctx.nonceSeen && !ctx.idempotencySeen
  }

  lemma ClearsIsEveryCheck(verifies: Verifies, txn: TransactionRequest,
                           record: Option<MerchantRecord>, ctx: Context)
    ensures Clears(verifies, txn, record, ctx)
       <==> forall n: CheckName :: Passes(n, verifies, txn, record, ctx)
  {
    if forall n: CheckName :: Passes(n, verifies, txn, record, ctx) {
      assert Passes(MandateSignedByTrustedIssuer, verifies, txn, record, ctx);
      assert Passes(MandateAgentMatches, verifies, txn, record, ctx);
      assert Passes(MandateNotExpired, verifies, txn, record, ctx);
      assert Passes(AgentNotFrozen, verifies, txn, record, ctx);
      assert Passes(MoneyFieldFromMerchantRecord, verifies, txn, record, ctx);
      assert Passes(MerchantRecordExists, verifies, txn, record, ctx);
      assert Passes(PriceEqualsMerchantRecord, verifies, txn, record, ctx);
      assert Passes(CategoryInAllowlist, verifies, txn, record, ctx);
      assert Passes(AmountWithinCap, verifies, txn, record, ctx);
      assert Passes(NonceUnused, verifies, txn, record, ctx);
      assert Passes(IdempotencyKeyUnused, verifies, txn, record, ctx);
    }
  }

  /** The gate allows exactly when the transaction clears, says OK exactly when it
      allows, and never answers REVIEW. */
  lemma VerdictCases(verifies: Verifies, txn: TransactionRequest,
                     record: Option<MerchantRecord>, ctx: Context)
    ensures var v := Verdict(verifies, txn, record, ctx);
      && (v.decision == ALLOW <==> v.reason == OK)
      && (v.decision == ALLOW <==> Clears(verifies, txn, record, ctx))
      && (v.decision == ALLOW || v.decision == BLOCK)
      && v.reason != RISK_REVIEW_HOLD
  {
    ClearsIsEveryCheck(verifies, txn, record, ctx);
    var k := FirstFailing(verifies, txn, record, ctx);
    if k == |CHECKLIST| {
      forall n: CheckName
        ensures Passes(n, verifies, txn, record, ctx)
      {
        AtPosition(n, 0);
        assert Passes(CHECKLIST[Position(n)], verifies, txn, record, ctx);
      }
    }
  }

  function Position(n: CheckName): nat {
    match n
    case MandateSignedByTrustedIssuer => 0
    case MandateAgentMatches => 1
    case MandateNotExpired => 2
    case AgentNotFrozen => 3
    case MoneyFieldFromMerchantRecord => 4
    case MerchantRecordExists => 5
    case PriceEqualsMerchantRecord => 6
    case CategoryInAllowlist => 7
    case AmountWithinCap => 8
    case NonceUnused => 9
    case IdempotencyKeyUnused => 10
  }

  /** The checklist holds every check once, at its position. */
  lemma AtPosition(n: CheckName, i: nat)
    requires i < |CHECKLIST|
    ensures Position(n) < |CHECKLIST| && CHECKLIST[Position(n)] == n
    ensures Position(CHECKLIST[i]) == i
  {
  }

  lemma {:induction false} CheckedInOrder(n: nat, verifies: Verifies, txn: TransactionRequest,
                                          record: Option<MerchantRecord>, ctx: Context)
    requires n <= |CHECKLIST|
    ensures var checks := CheckedUpTo(n, verifies, txn, record, ctx);
      |checks| == n
      && forall i | 0 <= i < n :: checks[i] == Check(CHECKLIST[i], Passes(CHECKLIST[i], verifies, txn, record, ctx))
  {
    hide Passes;
    if n > 0 {
      CheckedInOrder(n - 1, verifies, txn, record, ctx);
    }
  }

  /** The returned record is the evidence: the names of the list in order, all passed
      on an approval, and on a block all but the last, whose reason is the verdict's. */
  lemma ChecksTellTheVerdict(verifies: Verifies, txn: TransactionRequest, record: Option<MerchantRecord>, ctx: Context)
    ensures var v := Verdict(verifies, txn, record, ctx);
      && 0 < |v.checks| <= |CHECKLIST|
      && (forall i | 0 <= i < |v.checks| :: v.checks[i].name == CHECKLIST[i])
      && (forall i | 0 <= i < |v.checks| - 1 :: v.checks[i].passed)
      && (var last := v.checks[|v.checks| - 1];
          if last.passed then |v.checks| == |CHECKLIST| && v.decision == ALLOW && v.reason == OK
          else v.decision == BLOCK && v.reason == ReasonOf(last.name))
  {
    hide Passes, CheckedUpTo, LeadingPasses;
    var k := FirstFailing(verifies, txn, record, ctx);
    CheckedInOrder(if k == |CHECKLIST| then k else k + 1, verifies, txn, record, ctx);
  }

  /** A failing check names the reason as soon as all checks before it pass. */
  lemma BlocksWith(name: CheckName, verifies: Verifies, txn: TransactionRequest,
                   record: Option<MerchantRecord>, ctx: Context)
    requires !Passes(name, verifies, txn, record, ctx)
    requires forall n: CheckName | Position(n) < Position(name) :: Passes(n, verifies, txn, record, ctx)
    ensures var v := Verdict(verifies, txn, record, ctx);
      v.decision == BLOCK && v.reason == ReasonOf(name)
  {
    hide Passes, LeadingPasses;
    var f := FirstFailing(verifies, txn, record, ctx);
    AtPosition(name, if f < |CHECKLIST| then f else 0);
  }

  /** An approval names no other state than an unused nonce and an unused key, so
      on later reads the two last checks alone can change it, nonce first. */
  lemma VerdictOnLaterReads(verifies: Verifies, txn: TransactionRequest,
                            record: Option<MerchantRecord>, ctx: Context, later: Context)
    requires Verdict(verifies, txn, record, ctx).decision == ALLOW
    requires later == ctx.(nonceSeen := later.nonceSeen, idempotencySeen := later.idempotencySeen)
    ensures var v := Verdict(verifies, txn, record, later);
      if later.nonceSeen then v.decision == BLOCK && v.reason == NONCE_REPLAY
      else if later.idempotencySeen then v.decision == BLOCK && v.reason == DUPLICATE_TRANSACTION
      else v.decision == ALLOW && v.reason == OK
  {
    VerdictCases(verifies, txn, record, ctx);
    VerdictCases(verifies, txn, record, later);
    if later.nonceSeen {
      ClearsIsEveryCheck(verifies, txn, record, ctx);
      BlocksWith(NonceUnused, verifies, txn, record, later);
    } else if later.idempotencySeen {
      BlocksWith(IdempotencyKeyUnused, verifies, txn, record, later);
    }
  }

  /** A block on earlier reads keeps its reason on later ones, where a used nonce and
      a used key stay used, unless it was for the key and the nonce is used by now. */
  lemma BlockOnLaterReads(verifies: Verifies, txn: TransactionRequest,
                          record: Option<MerchantRecord>, ctx: Context, later: Context)
    requires Verdict(verifies, txn, record, ctx).decision == BLOCK
    requires later == ctx.(nonceSeen := later.nonceSeen, idempotencySeen := later.idempotencySeen)
    requires (ctx.nonceSeen ==> later.nonceSeen) && (ctx.idempotencySeen ==> later.idempotencySeen)
    ensures var v, v' := Verdict(verifies, txn, record, ctx), Verdict(verifies, txn, record, later);
      (v'.decision == v.decision && v'.reason == v.reason)
      <==> (v.reason == DUPLICATE_TRANSACTION ==> !later.nonceSeen)
  {
    var k := FirstFailing(verifies, txn, record, ctx);
    forall n: CheckName | Position(n) < 9
      ensures Passes(n, verifies, txn, record, later) == Passes(n, verifies, txn, record, ctx)
    {
    }
    forall n: CheckName | Position(n) < k
      ensures Passes(n, verifies, txn, record, ctx)
    {
      AtPosition(n, 0);
    }
    assert Passes(NonceUnused, verifies, txn, record, ctx) == !ctx.nonceSeen;
    assert Passes(NonceUnused, verifies, txn, record, later) == !later.nonceSeen;
    assert Passes(IdempotencyKeyUnused, verifies, txn, record, ctx) == !ctx.idempotencySeen;
    assert Passes(IdempotencyKeyUnused, verifies, txn, record, later) == !later.idempotencySeen;
    AtPosition(NonceUnused, k);
    hide Passes, Verdict, LeadingPasses;
    var failing := if k == 10 && later.nonceSeen then NonceUnused else CHECKLIST[k];
    BlocksWith(CHECKLIST[k], verifies, txn, record, ctx);
    BlocksWith(failing, verifies, txn, record, later);
  }

  /** The signature covers every field of a mandate but key and signature: two mandates
      have the same signed body exactly when those fields agree, the categories up to
      their order. */
  lemma BodySignsEveryField(m: Mandate, n: Mandate)
    ensures m.Body() == n.Body() <==>
            && m.mandateId == n.mandateId && m.agentId == n.agentId
            && m.maxAmount == n.maxAmount && m.currency == n.currency
            && m.returnPolicyDays == n.returnPolicyDays
            && m.issuedAt == n.issuedAt && m.expiresAt == n.expiresAt
            && multiset(m.allowedCategories) == multiset(n.allowedCategories)
  {
    SortedIffPermutation(m.allowedCategories, n.allowedCategories);
  }

  /** Two mandates that agree on key, signature and signed body get the same
      verdict, reason and pass/fail list, whatever else is asked. */
  lemma OnlySignedFieldsMatter(verifies: Verifies, txn: TransactionRequest, other: Mandate,
                               record: Option<MerchantRecord>, ctx: Context)
    requires txn.mandate.publicKey == other.publicKey && txn.mandate.signature == other.signature
    requires txn.mandate.Body() == other.Body()
    ensures Verdict(verifies, txn, record, ctx)
         == Verdict(verifies, txn.(mandate := other), record, ctx)
  {
    var txn' := txn.(mandate := other);
    forall n: CheckName
      ensures Passes(n, verifies, txn, record, ctx) == Passes(n, verifies, txn', record, ctx)
    {
      if record.Some? {
        SortedSameMembers(txn.mandate.allowedCategories, record.value.category);
        SortedSameMembers(other.allowedCategories, record.value.category);
      }
    }
    SameFirstFailing(verifies, txn, txn', record, ctx, |CHECKLIST|);
    SameChecks(verifies, txn, txn', record, ctx, |CHECKLIST|);
  }

  /** In particular a reordered category list changes nothing. */
  lemma CategoryOrderIsIrrelevant(verifies: Verifies, txn: TransactionRequest, categories: seq<string>,
                                  record: Option<MerchantRecord>, ctx: Context)
    requires multiset(categories) == multiset(txn.mandate.allowedCategories)
    ensures var other := txn.mandate.(allowedCategories := categories);
      other.Body() == txn.mandate.Body()
      && Verdict(verifies, txn.(mandate := other), record, ctx) == Verdict(verifies, txn, record, ctx)
  {
    SortedIffPermutation(categories, txn.mandate.allowedCategories);
    OnlySignedFieldsMatter(verifies, txn, txn.mandate.(allowedCategories := categories), record, ctx);
  }

  lemma {:induction false} SameFirstFailing(verifies: Verifies, t: TransactionRequest, u: TransactionRequest,
                                            record: Option<MerchantRecord>, ctx: Context, n: nat)
    requires n <= |CHECKLIST|
    requires forall n: CheckName :: Passes(n, verifies, t, record, ctx) == Passes(n, verifies, u, record, ctx)
    ensures LeadingPasses(n, verifies, t, record, ctx) == LeadingPasses(n, verifies, u, record, ctx)
  {
    if n > 0 {
      SameFirstFailing(verifies, t, u, record, ctx, n - 1);
    }
  }

  lemma {:induction false} SameChecks(verifies: Verifies, t: TransactionRequest, u: TransactionRequest,
                                      record: Option<MerchantRecord>, ctx: Context, n: nat)
    requires n <= |CHECKLIST|
    requires forall n: CheckName :: Passes(n, verifies, t, record, ctx) == Passes(n, verifies, u, record, ctx)
    ensures forall k | 0 <= k <= n :: CheckedUpTo(k, verifies, t, record, ctx) == CheckedUpTo(k, verifies, u, record, ctx)
  {
    if n > 0 {
      SameChecks(verifies, t, u, record, ctx, n - 1);
    }
  }

  /** The advisory risk signal; None stands for no signal at all. */
  function ApplyRisk(base: GateResult, signal: Option<RiskSignal>): GateResult {
    if signal.None? || base.decision == BLOCK then base
    else if signal.value.action == RISK_BLOCK then GateResult(BLOCK, RISK_REVIEW_HOLD, base.checks)
    else if signal.value.action == RISK_REVIEW then GateResult(REVIEW, RISK_REVIEW_HOLD, base.checks)
    else base
  }

  function Strictness(d: Decision): nat {
    match d case ALLOW => 0 case REVIEW => 1 case BLOCK => 2
  }

  function Severity(signal: Option<RiskSignal>): nat {
    if signal.None? then 0
    else match signal.value.action case NORMAL => 0 case RISK_REVIEW => 1 case RISK_BLOCK => 2
  }

  /** The tightened decision is exactly the stricter of the gate's and the signal's, for
      any result to tighten: nothing changes without a signal that asks for it or below a
      block, and otherwise the reason is the hold and the checks stay. */
  lemma RiskTakesTheStricter(base: GateResult, signal: Option<RiskSignal>)
    ensures var w := ApplyRisk(base, signal);
      && Strictness(w.decision) == Max(Strictness(base.decision), Severity(signal))
      && w.checks == base.checks
      && (if base.decision == BLOCK || Severity(signal) == 0 then w == base else w.reason == RISK_REVIEW_HOLD)
  {
  }

  /** Risk never widens authority, and a gate block keeps its own reason: the effective
      decision is BLOCK, REVIEW or ALLOW exactly as gate and signal say together. */
  lemma RiskOnlyTightens(verifies: Verifies, txn: TransactionRequest, record: Option<MerchantRecord>,
                         ctx: Context, signal: Option<RiskSignal>)
    ensures var v := Verdict(verifies, txn, record, ctx);
      var w := ApplyRisk(v, signal);
      && Strictness(v.decision) <= Strictness(w.decision)
      && (v.decision == BLOCK ==> w == v)
      && w.checks == v.checks
      && (w.decision == ALLOW <==>
          Clears(verifies, txn, record, ctx) && (signal.None? || signal.value.action == NORMAL))
      && (w.decision == REVIEW <==>
          Clears(verifies, txn, record, ctx) && signal.Some? && signal.value.action == RISK_REVIEW)
      && (w.reason == RISK_REVIEW_HOLD <==>
          Clears(verifies, txn, record, ctx) && signal.Some? && signal.value.action != NORMAL)
  {
    VerdictCases(verifies, txn, record, ctx);
    hide Verdict, Clears;
    RiskTakesTheStricter(Verdict(verifies, txn, record, ctx), signal);
  }

  /** The reason, spelled out: the first of the eleven conditions that does not hold, in
      the order in which the gate takes them. */
  lemma ReasonSpelledOut(verifies: Verifies, txn: TransactionRequest, record: Option<MerchantRecord>, ctx: Context)
    ensures Verdict(verifies, txn, record, ctx).reason ==
      if !txn.mandate.VerifySignature(verifies) || !IssuerTrusted(txn.mandate, ctx) then MANDATE_IMMUTABLE
      else if txn.mandate.agentId != txn.agentId then MANDATE_IMMUTABLE
      else if ctx.at > txn.mandate.expiresAt then MANDATE_EXPIRED
      else if ctx.agentFrozen then AGENT_FROZEN
      else if txn.priceSource != MERCHANT_RECORD then UNTRUSTED_INSTRUCTION
      else if record.None? || !record.value.active || record.value.sku != txn.sku then PRICE_MISMATCH_MERCHANT_RECORD
      else if txn.amount != record.value.price then PRICE_MISMATCH_MERCHANT_RECORD
      else if record.value.category !in txn.mandate.allowedCategories then CATEGORY_OUTSIDE_MANDATE
      else if txn.amount > txn.mandate.maxAmount then MANDATE_LIMIT_EXCEEDED
      else if ctx.nonceSeen then NONCE_REPLAY
      else if ctx.idempotencySeen then DUPLICATE_TRANSACTION
      else OK
  {
    ChecksSpelledOut(verifies, txn, record, ctx);
    var k := FirstFailing(verifies, txn, record, ctx);
    FailsFirst(k, verifies, txn, record, ctx);
    hide Passes, Verdict, LeadingPasses;
  }

  /** The verdict's reason by the position of the first failing check. */
  lemma FailsFirst(k: nat, verifies: Verifies, txn: TransactionRequest, record: Option<MerchantRecord>, ctx: Context)
    requires k == FirstFailing(verifies, txn, record, ctx)
    ensures forall n: CheckName | Position(n) < k :: Passes(n, verifies, txn, record, ctx)
    ensures forall n: CheckName | Position(n) == k ::
              !Passes(n, verifies, txn, record, ctx)
              && Verdict(verifies, txn, record, ctx).reason == ReasonOf(n)
    ensures k == 11 ==> Verdict(verifies, txn, record, ctx).reason == OK
  {
    hide Passes, LeadingPasses;
    forall n: CheckName | Position(n) <= k
      ensures Position(n) < |CHECKLIST| && CHECKLIST[Position(n)] == n
    {
      AtPosition(n, 0);
    }
  }
}
