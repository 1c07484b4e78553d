/** Price attestations: the merchant signs the price it will honour. */
module Attestation {
  import opened Models

  datatype AttestedBody = AttestedBody(
    attestationId: string, sku: string, merchantId: string, price: int, category: string,
    issuedAt: int, expiresAt: int)

  datatype PriceAttestation = PriceAttestation(body: AttestedBody, publicKey: string, signature: string)

  type AttestationVerifies = (string, AttestedBody, string) -> bool

  type AttestationSign = (string, AttestedBody) -> string

  ghost predicate MerchantKeyPair(sign: AttestationSign, verifies: AttestationVerifies, sk: string, pk: string) {
    pk != "" && forall body :: sign(sk, body) != "" && verifies(pk, body, sign(sk, body))
  }

  datatype AttestationReason = ACCEPTED | UNSIGNED | UNTRUSTED_MERCHANT | TAMPERED | EXPIRED_ATTESTATION

  const TTL := 900

  function Attest(sign: AttestationSign, sk: string, pk: string, merchantId: string,
                  record: MerchantRecord, attestationId: string, issuedAt: int): PriceAttestation
  {
    var body := AttestedBody(attestationId, record.sku, merchantId, record.price, record.category,
                             issuedAt, issuedAt + TTL);
    PriceAttestation(body, pk, sign(sk, body))
  }

  function VerifyPriceAttestation(verifies: AttestationVerifies, att: PriceAttestation,
                                  trusted: set<string>, at: int): AttestationReason
  {
    if att.signature == "" || att.publicKey == "" then UNSIGNED
    else if att.publicKey !in trusted then UNTRUSTED_MERCHANT
    else if !verifies(att.publicKey, att.body, att.signature) then TAMPERED
    else if at > att.body.expiresAt then EXPIRED_ATTESTATION
    else ACCEPTED
  }

  /** The offer the gate authorizes against carries the signed price and category. */
  function SignedOffer(record: MerchantRecord, att: PriceAttestation): MerchantRecord {
    record.(price := att.body.price, category := att.body.category)
  }

  /** A fresh attestation of a pinned merchant is accepted for its whole lifetime and
      not after, and the signed offer is then the record itself. */
  lemma AttestThenVerify(sign: AttestationSign, verifies: AttestationVerifies, sk: string, pk: string,
                         merchantId: string, record: MerchantRecord, attestationId: string,
                         issuedAt: int, trusted: set<string>, at: int)
    requires MerchantKeyPair(sign, verifies, sk, pk)
    ensures var att := Attest(sign, sk, pk, merchantId, record, attestationId, issuedAt);
      && (VerifyPriceAttestation(verifies, att, trusted, at) == ACCEPTED <==> pk in trusted && at <= issuedAt + 900)
      && (VerifyPriceAttestation(verifies, att, trusted, at) == UNTRUSTED_MERCHANT <==> pk !in trusted)
      && (pk in trusted && at > issuedAt + 900 ==>
            VerifyPriceAttestation(verifies, att, trusted, at) == EXPIRED_ATTESTATION)
      && SignedOffer(record, att) == record
      && att.publicKey == pk && att.body.sku == record.sku && att.body.price == record.price
      && att.body.merchantId == merchantId && att.body.attestationId == attestationId
      && att.body.issuedAt == issuedAt
  {
    var att := Attest(sign, sk, pk, merchantId, record, attestationId, issuedAt);
    assert verifies(pk, att.body, sign(sk, att.body));
  }

  /** What a refusal says: the first of four faults. */
  lemma RefusalNamesTheFault(verifies: AttestationVerifies, att: PriceAttestation, trusted: set<string>, at: int)
    ensures var r := VerifyPriceAttestation(verifies, att, trusted, at);
      var signed := att.signature != "" && att.publicKey != "";
      && (r == UNSIGNED <==> !signed)
      && (r == UNTRUSTED_MERCHANT <==> signed && att.publicKey !in trusted)
      && (r == TAMPERED <==> signed && att.publicKey in trusted && !verifies(att.publicKey, att.body, att.signature))
      && (r == ACCEPTED ==> signed && att.publicKey in trusted && verifies(att.publicKey, att.body, att.signature))
      && (r == ACCEPTED ==> at <= att.body.expiresAt)
      && (r == EXPIRED_ATTESTATION ==> at > att.body.expiresAt)
  {
  }

  /** If no signature verifies on a body its key did not sign, an accepted
      attestation carries a price that a pinned merchant signed, unexpired. */
  lemma AcceptedPriceWasSigned(verifies: AttestationVerifies, att: PriceAttestation, record: MerchantRecord,
                               trusted: set<string>, at: int, signed: (string, AttestedBody) -> bool)
    requires forall pk, body, sig :: pk in trusted && verifies(pk, body, sig) ==> signed(pk, body)
    requires VerifyPriceAttestation(verifies, att, trusted, at) == ACCEPTED
    ensures att.publicKey in trusted && signed(att.publicKey, att.body) && at <= att.body.expiresAt
    ensures SignedOffer(record, att).price == att.body.price && SignedOffer(record, att).category == att.body.category
  {
    assert verifies(att.publicKey, att.body, att.signature);
  }
}
