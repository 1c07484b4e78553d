/** One bounded negotiation round between the buyer's signed cap and the seller's
    floor, finalized by the merchant of record. */
module Negotiation {
  import opened Models
  import opened Catalog

  datatype Actor = WALLS | SELLER | BUYER | MERCHANT_OF_RECORD

  datatype NegotiationStep = NegotiationStep(actor: Actor, price: int)

  datatype NegotiationOutcome = NegotiationOutcome(
    sku: string, listPrice: int, floorPrice: int, buyerCap: int, agreedPrice: int, upsold: bool,
    transcript: seq<NegotiationStep>)
  {
    predicate WithinWalls() {
      floorPrice <= agreedPrice <= Min(listPrice, buyerCap)
    }
  }

  /** A price exists that is neither above list or cap nor below the floor. */
  predicate Viable(record: MerchantRecord, cap: int) {
    record.active && record.floorPrice <= Min(record.price, cap)
  }

  /** A quarter of the way from floor to list, rounded down, and never above the cap. */
  function AgreedPrice(record: MerchantRecord, cap: int): int {
    Min(cap, (3 * record.floorPrice + record.price) / 4)
  }

  /** The offer a round ends with, if it ends with one. */
  function NegotiatedOffer(items: seq<MerchantRecord>, cap: int, baseSku: string, upsell: bool): Option<MerchantRecord> {
    var sku := if upsell then ProposeUpsell(items, baseSku, cap) else baseSku;
    match Get(items, sku)
    case None => None
    case Some(record) =>
      if Viable(record, cap) then Some(record.(price := AgreedPrice(record, cap))) else None
  }

  /** Two nested floor divisions and three clamps come to the closed form. */
  lemma ClosedForm(record: MerchantRecord, cap: int)
    requires record.floorPrice <= Min(record.price, cap)
    ensures var lower, upper := record.floorPrice, Min(record.price, cap);
      var agreed := Max(lower, Min((lower + Counter(record, lower)) / 2, upper));
      && Counter(record, lower) == (lower + record.price) / 2
      && Max(lower, Min(agreed, record.price)) == agreed == AgreedPrice(record, cap)
      && lower <= agreed <= upper
  {
    var lower, list := record.floorPrice, record.price;
    assert (lower + (lower + list) / 2) / 2 == (3 * lower + list) / 4;
  }

  /** The agreed price, through two nested floor divisions and three clamps, is the
      closed form, and the round ends without an offer exactly when the sku is
      unknown or no viable price exists. */
  method Negotiate(store: CatalogStore, cap: int, baseSku: string, upsell: bool)
    returns (r: Option<(MerchantRecord, NegotiationOutcome)>)
    ensures NegotiatedOffer(store.items, cap, baseSku, upsell) == if r.Some? then Some(r.value.0) else None
    ensures var sku := if upsell then ProposeUpsell(store.items, baseSku, cap) else baseSku;
      var record := Get(store.items, sku);
      && (r.Some? <==> record.Some? && Viable(record.value, cap))
      && (r.Some? ==>
            var (offer, outcome) := r.value;
            var list, floor := record.value.price, record.value.floorPrice;
            && offer == record.value.(price := AgreedPrice(record.value, cap))
            && outcome == NegotiationOutcome(sku, list, floor, cap, offer.price, sku != baseSku, outcome.transcript)
            && outcome.WithinWalls()
            && outcome.transcript ==
                 [NegotiationStep(WALLS, 0)]
                 + (if sku != baseSku then [NegotiationStep(SELLER, list)] else [])
                 + [NegotiationStep(BUYER, floor), NegotiationStep(SELLER, (floor + list) / 2),
                    NegotiationStep(MERCHANT_OF_RECORD, offer.price)])
  {
    var sku := if upsell then ProposeUpsell(store.items, baseSku, cap) else baseSku;
    var found := Get(store.items, sku);
    if found.None? {
      return None;
    }
    var record := found.value;
    var upper := Min(record.price, cap);
    var lower := record.floorPrice;
    if upper < lower {
      return None;
    }
    var transcript := [NegotiationStep(WALLS, 0)];
    if upsell && sku != baseSku {
      transcript := transcript + [NegotiationStep(SELLER, record.price)];
    }
    ClosedForm(record, cap);
    hide AgreedPrice, Counter;
    var buyerOpen := lower;
    transcript := transcript + [NegotiationStep(BUYER, buyerOpen)];
    var sellerCounter := Counter(record, buyerOpen);
    transcript := transcript + [NegotiationStep(SELLER, sellerCounter)];
    var midpoint := (buyerOpen + sellerCounter) / 2;
    var agreed := Max(lower, Min(midpoint, upper));
    var offer := MakeOffer(store.items, sku, Some(agreed));
    if offer.None? {
      return None;
    }
    transcript := transcript + [NegotiationStep(MERCHANT_OF_RECORD, offer.value.price)];
    return Some((offer.value,
                 NegotiationOutcome(sku, record.price, lower, cap, offer.value.price, sku != baseSku, transcript)));
  }

  /** The agreed price never falls as the cap rises, never concedes more than a
      quarter of the band, and stays inside both walls. */
  lemma AgreedPriceIsBounded(record: MerchantRecord, cap: int, higher: int)
    requires Viable(record, cap) && cap <= higher
    ensures Viable(record, higher) && AgreedPrice(record, cap) <= AgreedPrice(record, higher)
    ensures 4 * (AgreedPrice(record, cap) - record.floorPrice) <= record.price - record.floorPrice
    ensures record.floorPrice <= AgreedPrice(record, cap) <= Min(record.price, cap)
  {
  }
}
