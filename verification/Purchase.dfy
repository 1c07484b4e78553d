/** The honest purchase: a human-confirmed mandate, a negotiated offer, and the
    transaction the buyer agent builds from it. */
module Purchase {
  import opened Models
  import opened Schema
  import opened Gate
  import opened Service
  import opened Catalog
  import opened Negotiation

  predicate IsConfirmable(maxAmount: int, categories: seq<string>) {
    maxAmount > 0 && |categories| > 0
  }

  /** The issuer signs confirmable drafts only; None is the exception it raises. */
  function ConfirmAndSign(sign: Sign, sk: string, pk: string, draft: Mandate): Option<Mandate> {
    if draft.maxAmount <= 0 || draft.allowedCategories == [] then None
    else Some(SignMandate(sign, sk, pk, draft))
  }

  /** What the issuer returns is the draft itself under a valid signature of the
      issuer's key, and it returns it exactly for what the human view calls
      confirmable. */
  lemma SignedMandateVerifies(sign: Sign, verifies: Verifies, sk: string, pk: string, draft: Mandate)
    requires KeyPair(sign, verifies, sk, pk)
    ensures ConfirmAndSign(sign, sk, pk, draft).Some? <==> IsConfirmable(draft.maxAmount, draft.allowedCategories)
    ensures ConfirmAndSign(sign, sk, pk, draft).Some? ==>
      var m := ConfirmAndSign(sign, sk, pk, draft).value;
      m.VerifySignature(verifies) && m.publicKey == pk && m.Body() == draft.Body()
      && m == draft.(publicKey := pk, signature := m.signature)
  {
    if ConfirmAndSign(sign, sk, pk, draft).Some? {
      var m := ConfirmAndSign(sign, sk, pk, draft).value;
      assert m.Body() == draft.Body();
    }
  }

  /** A missing or empty nonce or key is replaced by the freshly drawn one. */
  function BuildTransaction(agentId: string, mandate: Mandate, offer: MerchantRecord, txnId: string,
                            nonce: Option<string>, key: Option<string>,
                            freshNonce: string, freshKey: string): TransactionRequest
  {
    TransactionRequest(txnId, mandate, agentId, offer.sku, offer.category, offer.price, MERCHANT_RECORD,
                       if Truthy(nonce) then nonce.value else freshNonce,
                       if Truthy(key) then key.value else freshKey)
  }

  /** The built transaction is the offer bought under the mandate, and a nonce and a key
      that were given are kept. */
  lemma BuiltTransaction(agentId: string, mandate: Mandate, offer: MerchantRecord, txnId: string,
                         nonce: Option<string>, key: Option<string>, freshNonce: string, freshKey: string)
    requires freshNonce != "" && freshKey != ""
    ensures var txn := BuildTransaction(agentId, mandate, offer, txnId, nonce, key, freshNonce, freshKey);
      && txn.txnId == txnId && txn.mandate == mandate && txn.agentId == agentId
      && (txn.sku, txn.category, txn.amount, txn.priceSource) == (offer.sku, offer.category, offer.price, MERCHANT_RECORD)
      && txn.nonce != "" && txn.idempotencyKey != ""
      && (nonce.Some? && nonce.value != "" ==> txn.nonce == nonce.value)
      && (key.Some? && key.value != "" ==> txn.idempotencyKey == key.value)
      && (nonce.None? || nonce.value == "" ==> txn.nonce == freshNonce)
      && (key.None? || key.value == "" ==> txn.idempotencyKey == freshKey)
  {
  }

  /** Upsold or not, the offer has the category of the item asked for, and a price
      between the floor and both the list price and the cap. */
  lemma OfferStaysInsideMandate(items: seq<MerchantRecord>, cap: int, baseSku: string, upsell: bool)
    requires BySku(items) && NegotiatedOffer(items, cap, baseSku, upsell).Some?
    ensures var offer := NegotiatedOffer(items, cap, baseSku, upsell).value;
      var record := Get(items, offer.sku);
      && Get(items, baseSku).Some? && record.Some?
      && offer.category == Get(items, baseSku).value.category
      && offer.active
      && record.value.floorPrice <= offer.price <= Min(record.value.price, cap)
  {
    UpsellStaysInCategoryAndCap(items, baseSku, cap);
  }

  /** A purchase as the honest program makes it: a confirmable draft signed by a
      pinned issuer, an offer from one negotiation round for an item whose category
      the mandate allows, and the transaction built from both. */
  ghost predicate HonestCall(env: Env, items: seq<MerchantRecord>, baseSku: string, upsell: bool,
                             sign: Sign, sk: string, pk: string, draft: Mandate, call: AuthCall)
  {
    && BySku(items) && Get(items, baseSku).Some?
    && Get(items, baseSku).value.category in draft.allowedCategories
    && KeyPair(sign, env.verifies, sk, pk)
    && env.trustedIssuerKeys.Some? && pk in env.trustedIssuerKeys.value
    && ConfirmAndSign(sign, sk, pk, draft).Some?
    && call.offer.Some? && call.offer == NegotiatedOffer(items, draft.maxAmount, baseSku, upsell)
    && exists txnId, nonce, key, freshNonce, freshKey ::
         call.txn == BuildTransaction(draft.agentId, ConfirmAndSign(sign, sk, pk, draft).value, call.offer.value,
                                      txnId, nonce, key, freshNonce, freshKey)
  }

  /** What the moment has to give: an unexpired mandate, an unfrozen agent, and a
      nonce and a key nobody has used. */
  predicate Timely(t: Tables, draft: Mandate, call: AuthCall) {
    && call.at <= draft.expiresAt && !IsFrozen(t, draft.agentId)
    && !NonceSeen(t, call.txn.nonce) && !KeyAllowed(t.txns, call.txn.idempotencyKey)
  }

  /** Honest purchases clear: the gate allows every one of them, upsold or not, at a
      price within the signed cap. */
  lemma HonestPurchaseIsAllowed(env: Env, t: Tables, items: seq<MerchantRecord>, baseSku: string, upsell: bool,
                                sign: Sign, sk: string, pk: string, draft: Mandate, call: AuthCall)
    requires HonestCall(env, items, baseSku, upsell, sign, sk, pk, draft, call) && Timely(t, draft, call)
    ensures Decide(env, t, call).decision == ALLOW && Decide(env, t, call).reason == OK
    ensures call.txn.amount == call.offer.value.price <= draft.maxAmount
  {
    OfferStaysInsideMandate(items, draft.maxAmount, baseSku, upsell);
    SignedMandateVerifies(sign, env.verifies, sk, pk, draft);
    VerdictCases(env.verifies, call.txn, call.offer, ContextOf(env, t, call));
  }

  /** The agreed price can be stored if and only if three times the floor and the
      list price together are not negative. */
  lemma AgreedIsStorableIff(items: seq<MerchantRecord>, cap: int, baseSku: string, upsell: bool)
    requires cap > 0 && NegotiatedOffer(items, cap, baseSku, upsell).Some?
    ensures var offer := NegotiatedOffer(items, cap, baseSku, upsell).value;
      Get(items, offer.sku).Some?
      && var record := Get(items, offer.sku).value;
      offer.price >= 0 <==> 3 * record.floorPrice + record.price >= 0
  {
    hide ProposeUpsell;
  }

  /** From signing to a settleable row: with the mandate saved, a new transaction id,
      a registered agent and a quiet risk signal, the whole purchase ends with one
      authorized row at the agreed price, if and only if the row negotiated over does
      not have a floor so far below zero that the agreed price is negative. */
  lemma HonestPurchaseIsStoredIff(env: Env, c: Conn, items: seq<MerchantRecord>, baseSku: string, upsell: bool,
                                  sign: Sign, sk: string, pk: string, draft: Mandate, call: AuthCall, eventId: string)
    requires HonestCall(env, items, baseSku, upsell, sign, sk, pk, draft, call) && Timely(c.view, draft, call)
    requires c.view == c.saved && draft.agentId in c.view.agents
    requires ById(c.view.txns, call.txn.txnId) == |c.view.txns| && call.risk.action == NORMAL
    requires Authorized(env, MandateSaved(c, call.txn.mandate), call, eventId).1 != Failure(LOG_HASH_TAKEN)
    ensures var (c', r) := Authorized(env, MandateSaved(c, call.txn.mandate), call, eventId);
      && Get(items, call.txn.sku).Some?
      && (var record := Get(items, call.txn.sku).value;
          r.Success? <==> 3 * record.floorPrice + record.price >= 0)
      && (r.Success? ==>
            && |c'.view.txns| == |c.view.txns| + 1
            && var row := c'.view.txns[|c.view.txns|];
            && row.decision == ALLOW && row.status == AUTHORIZED && row.amount == call.offer.value.price)
      && (!r.Success? ==> r == Failure(INTEGRITY_ERROR) && c'.view.txns == c.view.txns)
  {
    hide Verdict, ById, NegotiatedOffer, MandateSaved, CommitPhase;
    var c1 := MandateSaved(c, call.txn.mandate);
    MandateOnFile(c, call.txn.mandate);
    AgreedIsStorableIff(items, draft.maxAmount, baseSku, upsell);
    HonestPurchaseIsAllowed(env, c1.view, items, baseSku, upsell, sign, sk, pk, draft, call);
    CompletesIff(env, c1, call, eventId);
    OneAttemptOneRecord(env, c1, call, eventId);
    if call.txn.amount < 0 {
      UncompletedApproval(env, c1, call, eventId);
    }
    RiskOnlyTightens(env.verifies, call.txn, call.offer, ContextOf(env, c1.view, call), Some(call.risk));
  }

  /** An approval that cannot be stored for its amount escapes and adds no row. */
  lemma UncompletedApproval(env: Env, c: Conn, call: AuthCall, eventId: string)
    requires Decide(env, c.view, call).decision == ALLOW && call.txn.amount < 0
    requires call.txn.mandate.mandateId in c.view.mandates && !NonceSeen(c.view, call.txn.nonce)
    ensures var (c', r) := Authorized(env, c, call, eventId);
      r == Failure(INTEGRITY_ERROR) && c'.view.txns == c.view.txns
  {
    hide Verdict, ById;
  }

  const SHELF: seq<MerchantRecord> := [MerchantRecord("s", "shop", "c", 5, 0, -100, true)]

  const DRAFT := Mandate("m", "a", 10, ["c"], 0, 0, 9, "INR", "", "")

  function ExampleCall(sign: Sign, sk: string, pk: string): AuthCall {
    var offer := SHELF[0].(price := -74);
    AuthCall(TransactionRequest("t", SignMandate(sign, sk, pk, DRAFT), "a", "s", "c", -74, MERCHANT_RECORD, "n", "k"),
             Some(offer), 1, RiskSignal(0, NORMAL), "r", None, None)
  }

  /** Such a shelf: list 5 and floor -100 are negotiated to -74.  The purchase is an
      honest one, the gate allows it, and its row is refused. */
  lemma NegativeFloorExample(env: Env, sign: Sign, sk: string, pk: string, eventId: string)
    requires KeyPair(sign, env.verifies, sk, pk) && env.trustedIssuerKeys == Some({pk})
    ensures HonestCall(env, SHELF, "s", false, sign, sk, pk, DRAFT, ExampleCall(sign, sk, pk))
    ensures var t, call := EMPTY.(agents := map["a" := false]), ExampleCall(sign, sk, pk);
      && Timely(t, DRAFT, call) && Decide(env, t, call).decision == ALLOW
      && Authorized(env, MandateSaved(Conn(t, t), call.txn.mandate), call, eventId).1 == Failure(INTEGRITY_ERROR)
  {
    var t, call := EMPTY.(agents := map["a" := false]), ExampleCall(sign, sk, pk);
    assert NegotiatedOffer(SHELF, 10, "s", false) == call.offer by {
      assert SHELF[0].sku == "s";
      assert Get(SHELF, "s") == Some(SHELF[0]);
      assert (3 * -100 + 5) / 4 == -74;
    }
    assert BySku(SHELF) && Get(SHELF, "s") == Some(SHELF[0]) && "c" in DRAFT.allowedCategories;
    assert call.txn == BuildTransaction(DRAFT.agentId, ConfirmAndSign(sign, sk, pk, DRAFT).value, call.offer.value,
                                        "t", Some("n"), Some("k"), "", "");
    assert HonestCall(env, SHELF, "s", false, sign, sk, pk, DRAFT, call);
    hide HonestCall, NegotiatedOffer, Verdict, KeyPair;
    HonestPurchaseIsAllowed(env, t, SHELF, "s", false, sign, sk, pk, DRAFT, call);
    var c1 := MandateSaved(Conn(t, t), call.txn.mandate);
    HonestPurchaseIsAllowed(env, c1.view, SHELF, "s", false, sign, sk, pk, DRAFT, call);
    UncompletedApproval(env, c1, call, eventId);
  }

  lemma MandateOnFile(c: Conn, m: Mandate)
    requires c.view == c.saved
    ensures var c' := MandateSaved(c, m);
      && c'.view == c'.saved && c'.view.txns == c.view.txns && c'.view.agents == c.view.agents
      && c'.view.nonces == c.view.nonces
      && (m.maxAmount >= 0 && m.agentId in c.view.agents ==> m.mandateId in c'.view.mandates)
  {
  }
}
