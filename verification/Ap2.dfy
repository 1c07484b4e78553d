/** The AP2 rail: a signed cart is checked, translated into a mandate and a
    transaction, and handed to the same gate. */
module Ap2 {
  import opened Models
  import opened Schema
  import opened Gate
  import opened Service
  import opened Runs
  import opened StatusGraph
  import opened Orders
  import opened Catalog
  import opened Purchase
  import opened Attestation

  datatype Header = Header(kid: Option<string>, alg: Option<string>)

  /** A numeric field of the token: missing, there but not convertible to an integer,
      or a number. */
  datatype Field = Absent | NotAnInteger | Number(n: int) {
    function Or(default: int): int {
      match this
      case Number(n) => n
      case _ => default
    }
  }

  datatype Item = Item(unitAmount: Field, quantity: Field, sku: Option<string>)

  datatype Claims = Claims(
    exp: int, vct: Option<string>, transactionId: Option<string>, subject: string,
    items: seq<Item>, totalAmount: Field, payee: string,
    allowedPayees: seq<string>, maxAmount: Field)

  datatype Decoding = ExpiredToken | InvalidToken | Decoded(claims: Claims)

  /** A token as the JWT library answers about it: unreadable, or a header and what
      decoding it with a given public key yields. */
  datatype Token = Unreadable | Token(header: Header, decode: string -> Decoding)

  datatype CartError =
    | MALFORMED | UNTRUSTED_ISSUER | BAD_ALG | EXPIRED | INVALID_SIGNATURE | WRONG_TYPE | UNSUPPORTED_CART
    | CART_TOTAL_MISMATCH | PAYEE_NOT_ALLOWED | MISSING_SKU | UNREADABLE_BUDGET | SKU_NOT_FOUND | NOT_CONFIRMABLE

  datatype CartMandate = CartMandate(
    transactionId: string, issuerKid: string, subject: string, payee: string, sku: string,
    unitAmount: int, quantity: int, totalAmount: int, maxAmount: int, allowedPayees: seq<string>, expiresAt: int)

  const CART_VCT := "mandate.cart.1"

  /** Verify a cart; an absent or empty transaction id is replaced by a fresh one. */
  function VerifyCart(token: Token, trusted: map<string, string>, freshId: string): Result<CartMandate, CartError> {
    if token.Unreadable? then Failure(MALFORMED)
    else if !Truthy(token.header.kid) || token.header.kid.value !in trusted then Failure(UNTRUSTED_ISSUER)
    else if token.header.alg != Some("ES256") then Failure(BAD_ALG)
    else match token.decode(trusted[token.header.kid.value])
      case ExpiredToken => Failure(EXPIRED)
      case InvalidToken => Failure(INVALID_SIGNATURE)
      case Decoded(claims) => ReadCart(claims, token.header.kid.value, freshId)
  }

  function ReadCart(claims: Claims, kid: string, freshId: string): Result<CartMandate, CartError> {
    if claims.vct != Some(CART_VCT) then Failure(WRONG_TYPE)
    else if |claims.items| != 1 then Failure(UNSUPPORTED_CART)
    else
      var item := claims.items[0];
      if !item.unitAmount.Number? || item.quantity.NotAnInteger? || !claims.totalAmount.Number? then Failure(MALFORMED)
      else
        var unit, qty, total := item.unitAmount.n, item.quantity.Or(1), claims.totalAmount.n;
        if total != unit * qty then Failure(CART_TOTAL_MISMATCH)
        else if claims.allowedPayees != [] && claims.payee !in claims.allowedPayees then Failure(PAYEE_NOT_ALLOWED)
        else if item.sku.None? then Failure(MISSING_SKU)
        else if claims.maxAmount.NotAnInteger? then Failure(UNREADABLE_BUDGET)
        else Success(CartMandate(
          if Truthy(claims.transactionId) then claims.transactionId.value else freshId,
          kid, claims.subject, claims.payee, item.sku.value, unit, qty, total,
          claims.maxAmount.Or(total), claims.allowedPayees, claims.exp))
  }

  /** The claims a registered signer's ES256 token decodes to under that signer's key. */
  function SignedClaims(token: Token, trusted: map<string, string>): Option<Claims> {
    if token.Token? && Truthy(token.header.kid) && token.header.kid.value in trusted
       && token.header.alg == Some("ES256") && token.decode(trusted[token.header.kid.value]).Decoded?
    then Some(token.decode(trusted[token.header.kid.value]).claims) else None
  }

  /** A cart is accepted if and only if it is a registered signer's token of the cart
      type with one complete line, a total that is its line arithmetic, an allowed
      payee and no unreadable number; and it carries exactly those claims, with
      quantity 1 and the total as budget where the token is silent. */
  lemma AcceptedCart(token: Token, trusted: map<string, string>, freshId: string)
    ensures var r, signed := VerifyCart(token, trusted, freshId), SignedClaims(token, trusted);
      && (r.Success? <==>
            signed.Some? &&
            var claims := signed.value;
            && claims.vct == Some(CART_VCT) && |claims.items| == 1
            && var item := claims.items[0];
            && item.unitAmount.Number? && !item.quantity.NotAnInteger? && item.sku.Some?
            && claims.totalAmount == Number(item.unitAmount.n * item.quantity.Or(1))
            && !claims.maxAmount.NotAnInteger?
            && (claims.allowedPayees == [] || claims.payee in claims.allowedPayees))
      && (r.Success? ==>
            var cart, claims := r.value, signed.value;
            && token.header.kid == Some(cart.issuerKid) && cart.issuerKid in trusted
            && Some(cart.sku) == claims.items[0].sku && Number(cart.unitAmount) == claims.items[0].unitAmount
            && cart.quantity == claims.items[0].quantity.Or(1)
            && cart.totalAmount == cart.unitAmount * cart.quantity
            && claims.totalAmount == Number(cart.totalAmount)
            && cart.payee == claims.payee && cart.subject == claims.subject
            && cart.allowedPayees == claims.allowedPayees
            && cart.maxAmount == claims.maxAmount.Or(cart.totalAmount)
            && cart.transactionId == (if Truthy(claims.transactionId) then claims.transactionId.value else freshId)
            && cart.expiresAt == claims.exp)
  {
  }

  /** A refusal names its fault: signer, algorithm, token, type, lines, numbers, total,
      payee, item and budget, in that order, each once everything before it is in order. */
  lemma RefusedCart(token: Token, trusted: map<string, string>, freshId: string)
    ensures var r := VerifyCart(token, trusted, freshId);
      r.Failure? ==>
        if token.Unreadable? then r.error == MALFORMED
        else if !Truthy(token.header.kid) || token.header.kid.value !in trusted then r.error == UNTRUSTED_ISSUER
        else if token.header.alg != Some("ES256") then r.error == BAD_ALG
        else if token.decode(trusted[token.header.kid.value]).ExpiredToken? then r.error == EXPIRED
        else if SignedClaims(token, trusted).None? then r.error == INVALID_SIGNATURE
        else
          var claims := SignedClaims(token, trusted).value;
          && (r.error == WRONG_TYPE <==> claims.vct != Some(CART_VCT))
          && (r.error == UNSUPPORTED_CART <==> claims.vct == Some(CART_VCT) && |claims.items| != 1)
          && (claims.vct == Some(CART_VCT) && |claims.items| == 1 ==>
                var item := claims.items[0];
                if !item.unitAmount.Number? || item.quantity.NotAnInteger? || !claims.totalAmount.Number?
                then r.error == MALFORMED
                else if item.unitAmount.n * item.quantity.Or(1) != claims.totalAmount.n
                then r.error == CART_TOTAL_MISMATCH
                else if claims.allowedPayees != [] && claims.payee !in claims.allowedPayees
                then r.error == PAYEE_NOT_ALLOWED
                else r.error == if item.sku.None? then MISSING_SKU else UNREADABLE_BUDGET)
  {
  }

  /** The merchant's side: registered signers, its own attestation key, and the
      bridge issuer the gate pins. */
  datatype Merchant = Merchant(
    cartKeys: map<string, string>,
    merchantId: string, attestationSign: AttestationSign, attestationVerifies: AttestationVerifies,
    merchantSk: string, merchantPk: string, merchantKeys: set<string>,
    sign: Sign, bridgeSk: string, bridgePk: string)

  ghost predicate WellKeyed(shop: Merchant, env: Env) {
    && MerchantKeyPair(shop.attestationSign, shop.attestationVerifies, shop.merchantSk, shop.merchantPk)
    && shop.merchantPk in shop.merchantKeys
    && KeyPair(shop.sign, env.verifies, shop.bridgeSk, shop.bridgePk)
    && env.trustedIssuerKeys.Some? && shop.bridgePk in env.trustedIssuerKeys.value
  }

  /** The random ids and the clock one checkout draws. */
  datatype Draws = Draws(
    cartId: string, txnId: string, nonce: string, attestationId: string, receiptId: string,
    at: int, risk: RiskSignal)

  /** The record the gate is shown: the stored row under the merchant's signature. */
  function AttestedRecord(shop: Merchant, items: seq<MerchantRecord>, sku: string, d: Draws): Option<MerchantRecord> {
    match Get(items, sku)
    case None => None
    case Some(record) =>
      var att := Attest(shop.attestationSign, shop.merchantSk, shop.merchantPk, shop.merchantId, record,
                        d.attestationId, d.at);
      if VerifyPriceAttestation(shop.attestationVerifies, att, shop.merchantKeys, d.at) == ACCEPTED
      then Some(SignedOffer(record, att)) else Some(record)
  }

  function ToBazaar(shop: Merchant, cart: CartMandate, record: Option<MerchantRecord>, d: Draws)
    : Result<TransactionRequest, CartError>
  {
    if record.None? || !record.value.active then Failure(SKU_NOT_FOUND)
    else
      var agentId := "ap2:" + cart.subject;
      var prefix := if |cart.transactionId| <= 8 then cart.transactionId else cart.transactionId[..8];
      var draft := Mandate("ap2-" + prefix, agentId, cart.maxAmount, [record.value.category],
                           record.value.returnPolicyDays, d.at, cart.expiresAt, "INR", "", "");
      match ConfirmAndSign(shop.sign, shop.bridgeSk, shop.bridgePk, draft)
      case None => Failure(NOT_CONFIRMABLE)
      case Some(mandate) =>
        Success(TransactionRequest("ap2-" + d.txnId, mandate, agentId, cart.sku, record.value.category,
                                   cart.totalAmount, MERCHANT_RECORD, d.nonce, cart.transactionId))
  }

  /** Everything a checkout does before it reaches the service. */
  function CheckoutCall(shop: Merchant, token: Token, items: seq<MerchantRecord>, d: Draws): Result<AuthCall, CartError> {
    match VerifyCart(token, shop.cartKeys, d.cartId)
    case Failure(e) => Failure(e)
    case Success(cart) =>
      var record := AttestedRecord(shop, items, cart.sku, d);
      match ToBazaar(shop, cart, record, d)
      case Failure(e) => Failure(e)
      case Success(txn) => Success(AuthCall(txn, record, d.at, d.risk, d.receiptId, None, None))
  }

  /** Register the agent, store the mandate, run the service. */
  function CheckoutSteps(call: AuthCall, eventId: string): seq<Step> {
    [Step(RegisterAgent(call.txn.agentId), ""), Step(SaveMandate(call.txn.mandate), ""), Step(Authorize(call), eventId)]
  }

  /** The claims an accepted token decodes to. */
  function ClaimsOf(shop: Merchant, token: Token, d: Draws): Claims
    requires VerifyCart(token, shop.cartKeys, d.cartId).Success?
  {
    AcceptedCart(token, shop.cartKeys, d.cartId);
    SignedClaims(token, shop.cartKeys).value
  }

  /** A checkout reaches the service if and only if its cart is accepted, the signed
      line's item is on sale and the signed budget is positive; otherwise it is refused
      for the first of the three. */
  lemma CheckoutReachesIff(shop: Merchant, token: Token, items: seq<MerchantRecord>, d: Draws)
    ensures var r, cart := CheckoutCall(shop, token, items, d), VerifyCart(token, shop.cartKeys, d.cartId);
      if cart.Failure? then r == Failure(cart.error)
      else
        var claims := ClaimsOf(shop, token, d);
        && |claims.items| == 1 && claims.items[0].sku.Some? && claims.totalAmount.Number?
        && var record := Get(items, claims.items[0].sku.value);
        && (r == Failure(SKU_NOT_FOUND) <==> record.None? || !record.value.active)
        && (r == Failure(NOT_CONFIRMABLE) <==>
              record.Some? && record.value.active && claims.maxAmount.Or(claims.totalAmount.n) <= 0)
        && (r.Success? <==>
              record.Some? && record.value.active && claims.maxAmount.Or(claims.totalAmount.n) > 0)
  {
    AcceptedCart(token, shop.cartKeys, d.cartId);
  }

  /** What the checkout presents, in terms of the signed claims: the signed line's item,
      the signed total, an agent named after the signed subject, and a mandate of the
      pinned bridge issuer that allows this item's category only, up to the signed budget
      and no longer than the token. */
  lemma CheckoutPresents(shop: Merchant, env: Env, token: Token, items: seq<MerchantRecord>, d: Draws)
    requires WellKeyed(shop, env) && CheckoutCall(shop, token, items, d).Success?
    ensures VerifyCart(token, shop.cartKeys, d.cartId).Success?
    ensures var call := CheckoutCall(shop, token, items, d).value;
      var claims, txn := ClaimsOf(shop, token, d), call.txn;
      && |claims.items| == 1 && claims.items[0].sku.Some? && claims.totalAmount.Number?
      && txn.sku == claims.items[0].sku.value && txn.agentId == "ap2:" + claims.subject
      && txn.amount == claims.totalAmount.n && txn.priceSource == MERCHANT_RECORD
      && txn.idempotencyKey == (if Truthy(claims.transactionId) then claims.transactionId.value else d.cartId)
      && txn.mandate.mandateId <= "ap2-" + txn.idempotencyKey
      && |txn.mandate.mandateId| == 4 + Min(8, |txn.idempotencyKey|) && txn.mandate.currency == "INR"
      && txn.nonce == d.nonce && txn.txnId == "ap2-" + d.txnId && call.at == d.at && call.risk == d.risk
      && call.receiptId == d.receiptId
      && (var record := Get(items, txn.sku);
          && record.Some? && record.value.active && call.offer == record && txn.category == record.value.category
          && txn.mandate.allowedCategories == [record.value.category]
          && txn.mandate.returnPolicyDays == record.value.returnPolicyDays)
      && txn.mandate.agentId == txn.agentId && txn.mandate.VerifySignature(env.verifies)
      && txn.mandate.publicKey == shop.bridgePk && txn.mandate.maxAmount > 0
      && txn.mandate.maxAmount == claims.maxAmount.Or(claims.totalAmount.n)
      && txn.mandate.issuedAt == d.at && txn.mandate.expiresAt == claims.exp
  {
    AcceptedCart(token, shop.cartKeys, d.cartId);
    var cart := VerifyCart(token, shop.cartKeys, d.cartId).value;
    var record := Get(items, cart.sku).value;
    AttestThenVerify(shop.attestationSign, shop.attestationVerifies, shop.merchantSk, shop.merchantPk,
                     shop.merchantId, record, d.attestationId, d.at, shop.merchantKeys, d.at);
    var prefix := if |cart.transactionId| <= 8 then cart.transactionId else cart.transactionId[..8];
    var draft := Mandate("ap2-" + prefix, "ap2:" + cart.subject, cart.maxAmount, [record.category],
                         record.returnPolicyDays, d.at, cart.expiresAt, "INR", "", "");
    SignedMandateVerifies(shop.sign, env.verifies, shop.bridgeSk, shop.bridgePk, draft);
  }

  /** When exactly a cart that reaches the gate is allowed, on whatever the gate is
      told about nonce, key and agent: when the signed total is the price of the catalog
      row under the signed line's sku and within the signed budget, before the token's
      end. */
  lemma CartClearsIff(shop: Merchant, env: Env, token: Token, items: seq<MerchantRecord>, d: Draws, ctx: Context)
    requires WellKeyed(shop, env) && CheckoutCall(shop, token, items, d).Success?
    requires ctx.trustedIssuerKeys == env.trustedIssuerKeys && ctx.at == d.at
    ensures VerifyCart(token, shop.cartKeys, d.cartId).Success?
    ensures var call := CheckoutCall(shop, token, items, d).value;
      var claims := ClaimsOf(shop, token, d);
      && |claims.items| == 1 && claims.items[0].sku.Some? && claims.totalAmount.Number?
      && Get(items, claims.items[0].sku.value).Some?
      && (Verdict(env.verifies, call.txn, call.offer, ctx).decision == ALLOW <==>
            && claims.totalAmount.n == Get(items, claims.items[0].sku.value).value.price
            && claims.totalAmount.n <= claims.maxAmount.Or(claims.totalAmount.n)
            && d.at <= claims.exp && !ctx.agentFrozen && !ctx.nonceSeen && !ctx.idempotencySeen)
  {
    hide CheckoutCall, VerifyCart, ClaimsOf, Verdict, WellKeyed, Get;
    CheckoutPresents(shop, env, token, items, d);
    assert env.trustedIssuerKeys.Some? && shop.bridgePk in env.trustedIssuerKeys.value by { BridgeIsPinned(shop, env); }
    var call := CheckoutCall(shop, token, items, d).value;
    GetIsItsSku(items, call.txn.sku);
    VerdictCases(env.verifies, call.txn, call.offer, ctx);
  }

  lemma BridgeIsPinned(shop: Merchant, env: Env)
    requires WellKeyed(shop, env)
    ensures env.trustedIssuerKeys.Some? && shop.bridgePk in env.trustedIssuerKeys.value
  {
  }

  lemma GetIsItsSku(items: seq<MerchantRecord>, sku: string)
    ensures Get(items, sku).Some? ==> Get(items, sku).value.sku == sku
  {
  }

  /** An allowed cart is two-sided: its signed total is the signed unit price times the
      signed quantity, equals the price that the merchant signs in this checkout for the
      signed line's sku, and is within the signed budget. */
  lemma AllowedCartIsTwoSided(shop: Merchant, env: Env, t: Tables, token: Token, items: seq<MerchantRecord>, d: Draws)
    requires WellKeyed(shop, env) && CheckoutCall(shop, token, items, d).Success?
    requires Decide(env, t, CheckoutCall(shop, token, items, d).value).decision == ALLOW
    ensures VerifyCart(token, shop.cartKeys, d.cartId).Success?
    ensures var claims := ClaimsOf(shop, token, d);
      && |claims.items| == 1 && claims.items[0].sku.Some? && claims.items[0].unitAmount.Number?
      && claims.totalAmount.Number?
      && Get(items, claims.items[0].sku.value).Some?
      && var att := Attest(shop.attestationSign, shop.merchantSk, shop.merchantPk, shop.merchantId,
                           Get(items, claims.items[0].sku.value).value, d.attestationId, d.at);
      && VerifyPriceAttestation(shop.attestationVerifies, att, shop.merchantKeys, d.at) == ACCEPTED
      && Some(att.body.sku) == claims.items[0].sku
      && claims.items[0].unitAmount.n * claims.items[0].quantity.Or(1) == claims.totalAmount.n
      && claims.totalAmount.n == att.body.price
      && claims.totalAmount.n <= claims.maxAmount.Or(claims.totalAmount.n)
  {
    CheckoutPresents(shop, env, token, items, d);
    CartClearsIff(shop, env, token, items, d, ContextOf(env, t, CheckoutCall(shop, token, items, d).value));
    AcceptedCart(token, shop.cartKeys, d.cartId);
    var record := Get(items, ClaimsOf(shop, token, d).items[0].sku.value).value;
    GetIsItsSku(items, ClaimsOf(shop, token, d).items[0].sku.value);
    AttestThenVerify(shop.attestationSign, shop.attestationVerifies, shop.merchantSk, shop.merchantPk,
                     shop.merchantId, record, d.attestationId, d.at, shop.merchantKeys, d.at);
  }

  /** A cart is spent at most once.  Over any run, whatever it mixes in, all ALLOW
      rows carrying one transaction id are one row, and all orders created for it are
      one order. */
  lemma CartSpentAtMostOnce(env: Env, steps: seq<Step>, cartId: string)
    requires NonEmptyAnswers(env, OPENED, steps)
    ensures var txns, orders := Run(env, OPENED, steps).view.txns, OrdersOf(env, OPENED, steps);
      && (forall i, j | 0 <= i < |txns| && 0 <= j < |txns|
             && txns[i].decision == ALLOW && txns[i].idempotencyKey == cartId
             && txns[j].decision == ALLOW && txns[j].idempotencyKey == cartId :: i == j)
      && (forall n, m, i, j | 0 <= n < |orders| && 0 <= m < |orders| && 0 <= i < |txns| && 0 <= j < |txns|
             && Serves(txns[i], orders[n]) && txns[i].idempotencyKey == cartId
             && Serves(txns[j], orders[m]) && txns[j].idempotencyKey == cartId :: n == m)
  {
    hide Run, OrdersOf;
    OpenedInv();
    RunKeepsInv(env, OPENED, steps);
    NeverRecharge(env, steps);
  }

  /** Two checkouts of carts with one transaction id, whatever their tokens, nonces,
      catalogs and the calls in between: once the first is approved the second is not. */
  lemma CartBuysOnce(shop: Merchant, env: Env, c: Conn, between: seq<Step>,
                     token: Token, items: seq<MerchantRecord>, d: Draws, e1: string,
                     token': Token, items': seq<MerchantRecord>, d': Draws, e2: string)
    requires Inv(c)
    requires CheckoutCall(shop, token, items, d).Success? && CheckoutCall(shop, token', items', d').Success?
    requires Truthy(ClaimsOf(shop, token, d).transactionId)
    requires ClaimsOf(shop, token, d).transactionId == ClaimsOf(shop, token', d').transactionId
    requires Buys(env, c, CheckoutCall(shop, token, items, d).value, e1)
    ensures var c1 := Authorized(env, c, CheckoutCall(shop, token, items, d).value, e1).0;
      !Buys(env, Run(env, c1, between), CheckoutCall(shop, token', items', d').value, e2)
  {
    KeyIsCartId(shop, token, items, d);
    KeyIsCartId(shop, token', items', d');
    hide CheckoutCall, ClaimsOf, Inv, Buys;
    KeyBuysOnce(env, c, CheckoutCall(shop, token, items, d).value, e1, between,
                CheckoutCall(shop, token', items', d').value, e2);
  }

  lemma KeyIsCartId(shop: Merchant, token: Token, items: seq<MerchantRecord>, d: Draws)
    requires CheckoutCall(shop, token, items, d).Success?
    ensures VerifyCart(token, shop.cartKeys, d.cartId).Success?
    ensures Truthy(ClaimsOf(shop, token, d).transactionId) ==>
      Some(CheckoutCall(shop, token, items, d).value.txn.idempotencyKey) == ClaimsOf(shop, token, d).transactionId
  {
    AcceptedCart(token, shop.cartKeys, d.cartId);
  }

  /** Presenting an accepted cart again, later and with a fresh nonce, while it is
      still unexpired at an unchanged price: the gate allows it a second time if and
      only if the cart carries no transaction id of its own. */
  lemma SecondPresentationIff(shop: Merchant, env: Env, t: Tables, t': Tables, token: Token,
                              items: seq<MerchantRecord>, d: Draws, d': Draws)
    requires WellKeyed(shop, env)
    requires CheckoutCall(shop, token, items, d).Success? && CheckoutCall(shop, token, items, d').Success?
    requires Decide(env, t, CheckoutCall(shop, token, items, d).value).decision == ALLOW
    requires KeyAllowed(t'.txns, CheckoutCall(shop, token, items, d).value.txn.idempotencyKey)
    requires !NonceSeen(t', d'.nonce) && !KeyAllowed(t'.txns, d'.cartId)
    requires !IsFrozen(t', CheckoutCall(shop, token, items, d').value.txn.agentId)
    requires VerifyCart(token, shop.cartKeys, d'.cartId).Success? ==>
      d'.at <= VerifyCart(token, shop.cartKeys, d'.cartId).value.expiresAt
    ensures VerifyCart(token, shop.cartKeys, d.cartId).Success?
    ensures var v := Decide(env, t', CheckoutCall(shop, token, items, d').value);
      && (v.decision == ALLOW <==> !Truthy(ClaimsOf(shop, token, d).transactionId))
      && (v.decision != ALLOW ==> v.reason == DUPLICATE_TRANSACTION)
  {
    var call, again := CheckoutCall(shop, token, items, d).value, CheckoutCall(shop, token, items, d').value;
    assert call.at == d.at && again.at == d'.at;
    hide KeyAllowed, Verdict, VerifyCart, CheckoutCall;
    var now := ContextOf(env, t', again);
    CartClearsIff(shop, env, token, items, d, ContextOf(env, t, call));
    CartClearsIff(shop, env, token, items, d', ContextOf(env, t', again));
    CartClearsIff(shop, env, token, items, d', now.(idempotencySeen := false));
    AcceptedCart(token, shop.cartKeys, d.cartId);
    SameCart(token, shop.cartKeys, d.cartId, d'.cartId);
    if now.idempotencySeen {
      VerdictOnLaterReads(env.verifies, again.txn, again.offer, now.(idempotencySeen := false), now);
    }
  }

  /** Reading a token twice gives the same cart, up to a transaction id it lacks. */
  lemma SameCart(token: Token, trusted: map<string, string>, freshId: string, freshId': string)
    requires VerifyCart(token, trusted, freshId).Success?
    ensures VerifyCart(token, trusted, freshId').Success?
    ensures var cart, cart' := VerifyCart(token, trusted, freshId).value, VerifyCart(token, trusted, freshId').value;
      && cart' == cart.(transactionId := cart'.transactionId)
      && SignedClaims(token, trusted).Some?
      && (var claims := SignedClaims(token, trusted).value;
          if Truthy(claims.transactionId) then cart'.transactionId == cart.transactionId
          else cart'.transactionId == freshId')
  {
  }

  /** A checkout registers its agent and stores its mandate before the service runs,
      so the service finds both on file: it can fail only for the amount. */
  lemma CheckoutIsGrounded(shop: Merchant, env: Env, c: Conn, token: Token, items: seq<MerchantRecord>,
                           d: Draws, eventId: string)
    requires WellKeyed(shop, env) && Inv(c) && CheckoutCall(shop, token, items, d).Success?
    ensures var call := CheckoutCall(shop, token, items, d).value;
      var steps := CheckoutSteps(call, eventId);
      var ready := After(env, After(env, c, steps[0]), steps[1]);
      && Run(env, c, steps) == After(env, ready, steps[2])
      && ready.view == ready.saved && ready.view.txns == c.view.txns
      && call.txn.agentId in ready.view.agents && call.txn.mandate.mandateId in ready.view.mandates
      && ready.view.mandates[call.txn.mandate.mandateId] == call.txn.mandate
  {
    hide CheckoutCall, ClaimsOf, WellKeyed, Get, Authorized, VerifyCart;
    var call := CheckoutCall(shop, token, items, d).value;
    CheckoutPresents(shop, env, token, items, d);
    var steps := CheckoutSteps(call, eventId);
    RunUnfolds(env, c, steps, 0);
    RunUnfolds(env, c, steps, 1);
    RunUnfolds(env, c, steps, 2);
    assert steps[..0] == [] && steps[..3] == steps;
  }
}
