/** Shared domain records of the authorization pipeline.

    Money is an integer number of paise and an instant is an integer, so that
    comparing two times is comparing two numbers.  Signatures come from library
    code: `verifies(key, body, signature)` and `sign(key, body)` are function
    values handed in by the caller, about which nothing is assumed here. */
module Models {
  import opened Sorting

  datatype Option<+T> = None | Some(value: T) {
    function GetOr(default: T): T {
      match this
      case Some(v) => v
      case None => default
    }
  }

  datatype Result<+T, +E> = Success(value: T) | Failure(error: E)

  /** Python's truth value of an optional string: absent and empty are both false. */
  predicate Truthy(s: Option<string>) {
    s.Some? && s.value != ""
  }

  function Min(a: int, b: int): int { if a <= b then a else b }

  function Max(a: int, b: int): int { if a >= b then a else b }

  datatype Decision = ALLOW | REVIEW | BLOCK

  datatype Reason =
    | OK
    | MANDATE_LIMIT_EXCEEDED
    | MANDATE_IMMUTABLE
    | PRICE_MISMATCH_MERCHANT_RECORD
    | NONCE_REPLAY
    | DUPLICATE_TRANSACTION
    | CATEGORY_OUTSIDE_MANDATE
    | UNTRUSTED_INSTRUCTION
    | AGENT_FROZEN
    | MANDATE_EXPIRED
    | RISK_REVIEW_HOLD

  datatype PriceSource = MERCHANT_RECORD | SELLER_CLAIM | DESCRIPTION | AGENT_INVENTED

  datatype RiskAction = NORMAL | RISK_REVIEW | RISK_BLOCK

  /** A row of the merchant of record. */
  datatype MerchantRecord = MerchantRecord(
    sku: string,
    merchantId: string,
    category: string,
    price: int,
    returnPolicyDays: int,
    floorPrice: int,
    active: bool)

  datatype Mandate = Mandate(
    mandateId: string,
    agentId: string,
    maxAmount: int,
    allowedCategories: seq<string>,
    returnPolicyDays: int,
    issuedAt: int,
    expiresAt: int,
    currency: string,
    publicKey: string,
    signature: string)
  {
    /** The immutable subset that is signed, categories in sorted order. */
    function Body(): SignedBody {
      SignedBody(mandateId, agentId, maxAmount, currency, Sorted(allowedCategories),
                 returnPolicyDays, issuedAt, expiresAt)
    }

    predicate VerifySignature(verifies: Verifies) {
      publicKey != "" && signature != "" && verifies(publicKey, Body(), signature)
    }

    predicate IsExpired(at: int) {
      at > expiresAt
    }
  }

  datatype SignedBody = SignedBody(
    mandateId: string,
    agentId: string,
    maxAmount: int,
    currency: string,
    allowedCategories: seq<string>,
    returnPolicyDays: int,
    issuedAt: int,
    expiresAt: int)

  type Verifies = (string, SignedBody, string) -> bool

  type Sign = (string, SignedBody) -> string

  /** What signing with `sk` and checking with `pk` promise about each other. */
  ghost predicate KeyPair(sign: Sign, verifies: Verifies, sk: string, pk: string) {
    pk != "" && forall body :: sign(sk, body) != "" && verifies(pk, body, sign(sk, body))
  }

  function SignMandate(sign: Sign, sk: string, pk: string, draft: Mandate): Mandate {
    draft.(publicKey := pk, signature := sign(sk, draft.Body()))
  }

  datatype TransactionRequest = TransactionRequest(
    txnId: string,
    mandate: Mandate,
    agentId: string,
    sku: string,
    category: string,
    amount: int,
    priceSource: PriceSource,
    nonce: string,
    idempotencyKey: string)

  /** The score is a 64-bit float, kept here as the number its bits spell: it is logged
      and displayed, and no decision computes with it. */
  datatype RiskSignal = RiskSignal(score: int, action: RiskAction)

  datatype CheckName =
    | MandateSignedByTrustedIssuer
    | MandateAgentMatches
    | MandateNotExpired
    | AgentNotFrozen
    | MoneyFieldFromMerchantRecord
    | MerchantRecordExists
    | PriceEqualsMerchantRecord
    | CategoryInAllowlist
    | AmountWithinCap
    | NonceUnused
    | IdempotencyKeyUnused

  datatype Check = Check(name: CheckName, passed: bool)

  datatype GateResult = GateResult(decision: Decision, reason: Reason, checks: seq<Check>)
}
