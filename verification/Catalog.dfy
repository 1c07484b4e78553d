/** The merchant of record and the seller agent that reads from it. */
module Catalog {
  import opened Models
  import opened Sorting

  /** Catalog rows in the order of their primary key. */
  ghost predicate BySku(items: seq<MerchantRecord>) {
    forall i, j | 0 <= i < j < |items| :: items[i].sku != items[j].sku && Leq(items[i].sku, items[j].sku)
  }

  function Get(items: seq<MerchantRecord>, sku: string): (r: Option<MerchantRecord>)
    ensures r.Some? ==> r.value in items && r.value.sku == sku
    ensures r.None? ==> forall i | 0 <= i < |items| :: items[i].sku != sku
  {
    if items == [] then None
    else if items[0].sku == sku then Some(items[0])
    else Get(items[1..], sku)
  }

  function Upsert(items: seq<MerchantRecord>, r: MerchantRecord): seq<MerchantRecord> {
    if items == [] then [r]
    else if items[0].sku == r.sku then [r] + items[1..]
    else if Leq(r.sku, items[0].sku) then [r] + items
    else [items[0]] + Upsert(items[1..], r)
  }

  /** A write keeps the key order, shows up under its own sku and under no other. */
  lemma {:induction false} UpsertWritesOneRow(items: seq<MerchantRecord>, r: MerchantRecord, sku: string)
    requires BySku(items)
    ensures BySku(Upsert(items, r))
    ensures forall x :: x in Upsert(items, r) ==> x == r || (x in items && x.sku != r.sku)
    ensures Get(Upsert(items, r), sku) == if sku == r.sku then Some(r) else Get(items, sku)
  {
    if items == [] || items[0].sku == r.sku {
    } else if Leq(r.sku, items[0].sku) {
      forall j | 0 < j < |items|
        ensures Leq(r.sku, items[j].sku) && items[j].sku != r.sku
      {
        LeqTransitive(r.sku, items[0].sku, items[j].sku);
        if items[j].sku == r.sku {
          LeqAntisymmetric(items[0].sku, r.sku);
        }
      }
    } else {
      UpsertWritesOneRow(items[1..], r, sku);
      LeqTotal(r.sku, items[0].sku);
      var rest := Upsert(items[1..], r);
      forall j | 0 <= j < |rest|
        ensures Leq(items[0].sku, rest[j].sku) && items[0].sku != rest[j].sku
      {
        assert rest[j] in rest;
        assert rest[j] == r || rest[j] in items[1..];
      }
    }
  }

  /** The active rows, in sku order. */
  function ListActive(items: seq<MerchantRecord>): (r: seq<MerchantRecord>)
    ensures forall x :: x in r <==> x in items && x.active
  {
    if items == [] then []
    else (if items[0].active then [items[0]] else []) + ListActive(items[1..])
  }

  class CatalogStore {
    var items: seq<MerchantRecord>

    ghost predicate Valid()
      reads this
    {
      BySku(items) && forall i | 0 <= i < |items| :: items[i].price >= 0
    }

    constructor ()
      ensures Valid() && items == []
    {
      items := [];
    }

    /** INSERT OR REPLACE of one row; the CHECK on the price can refuse it. */
    method Write(r: MerchantRecord) returns (ok: bool)
      requires Valid()
      modifies this
      ensures Valid() && ok == (r.price >= 0)
      ensures items == if ok then Upsert(old(items), r) else old(items)
    {
      ok := r.price >= 0;
      if ok {
        UpsertWritesOneRow(items, r, r.sku);
        forall i | 0 <= i < |Upsert(items, r)|
          ensures Upsert(items, r)[i].price >= 0
        {
          assert Upsert(items, r)[i] in Upsert(items, r);
        }
        items := Upsert(items, r);
      }
    }

    /** The admin path: a changed price shows up under its own sku and no other. */
    method UpdatePrice(sku: string, newPrice: int) returns (ok: bool)
      requires Valid()
      modifies this
      ensures Valid()
      ensures ok == (Get(old(items), sku).Some? && newPrice >= 0)
      ensures forall s ::
                Get(items, s) == (if ok && s == sku then Some(Get(old(items), s).value.(price := newPrice))
                                  else Get(old(items), s))
    {
      var item := Get(items, sku);
      if item.None? {
        return false;
      }
      forall s {
        UpsertWritesOneRow(items, item.value.(price := newPrice), s);
      }
      ok := Write(item.value.(price := newPrice));
    }
  }

  /** The snapshotted offer: an active row with its price clamped into [floor, list]. */
  function MakeOffer(items: seq<MerchantRecord>, sku: string, requested: Option<int>): Option<MerchantRecord> {
    match Get(items, sku)
    case None => None
    case Some(item) =>
      if !item.active then None
      else Some(item.(price := if requested.None? then item.price
                               else Max(item.floorPrice, Min(requested.value, item.price))))
  }

  // ---- the seller agent, over a read-only view ----

  function Candidates(active: seq<MerchantRecord>, base: MerchantRecord, cap: int): (r: seq<MerchantRecord>)
    ensures forall x :: x in r <==>
      x in active && x.category == base.category && base.price <= x.price <= cap
  {
    if active == [] then []
    else
      var x := active[0];
      (if x.category == base.category && x.price <= cap && x.price >= base.price then [x] else [])
      + Candidates(active[1..], base, cap)
  }

  lemma PrependKeepsOrder(x: MerchantRecord, rest: seq<MerchantRecord>)
    requires BySku(rest) && forall y | y in rest :: y.sku != x.sku && Leq(x.sku, y.sku)
    ensures BySku([x] + rest)
  {
    hide Leq;
    assert forall k | 0 <= k < |rest| :: rest[k] in rest;
  }

  lemma AfterHead(items: seq<MerchantRecord>, y: MerchantRecord)
    requires BySku(items) && items != [] && y in items[1..]
    ensures y.sku != items[0].sku && Leq(items[0].sku, y.sku)
  {
  }

  lemma {:induction false} ListActiveKeepsOrder(items: seq<MerchantRecord>)
    requires BySku(items)
    ensures BySku(ListActive(items))
  {
    hide Leq;
    if items != [] {
      ListActiveKeepsOrder(items[1..]);
      var rest := ListActive(items[1..]);
      forall y | y in rest
        ensures y.sku != items[0].sku && Leq(items[0].sku, y.sku)
      {
        AfterHead(items, y);
      }
      hide BySku;
      PrependKeepsOrder(items[0], rest);
      assert [] + rest == rest;
    }
  }

  lemma {:induction false} CandidatesKeepOrder(active: seq<MerchantRecord>, base: MerchantRecord, cap: int)
    requires BySku(active)
    ensures BySku(Candidates(active, base, cap))
  {
    hide Leq;
    if active != [] {
      CandidatesKeepOrder(active[1..], base, cap);
      var rest := Candidates(active[1..], base, cap);
      forall y | y in rest
        ensures y.sku != active[0].sku && Leq(active[0].sku, y.sku)
      {
        AfterHead(active, y);
      }
      hide BySku;
      PrependKeepsOrder(active[0], rest);
      assert [] + rest == rest;
    }
  }

  /** The first row of the highest price. */
  function Dearest(items: seq<MerchantRecord>): (best: MerchantRecord)
    requires items != []
    ensures best in items && forall x | x in items :: x.price <= best.price
    ensures BySku(items) ==> forall x | x in items && x.price == best.price && x != best :: Leq(best.sku, x.sku)
  {
    if |items| == 1 then items[0]
    else
      var rest := Dearest(items[1..]);
      if items[0].price >= rest.price then items[0] else rest
  }

  function ProposeUpsell(items: seq<MerchantRecord>, baseSku: string, cap: int): string {
    match Get(items, baseSku)
    case None => baseSku
    case Some(base) =>
      var candidates := Candidates(ListActive(items), base, cap);
      if candidates == [] then baseSku else Dearest(candidates).sku
  }

  function Counter(record: MerchantRecord, opening: int): int {
    (Max(record.floorPrice, Min(record.price, opening)) + record.price) / 2
  }

  lemma {:induction false} GetsItself(items: seq<MerchantRecord>, x: MerchantRecord)
    requires BySku(items) && x in items
    ensures Get(items, x.sku) == Some(x)
  {
    if items[0] != x {
      var i :| 0 <= i < |items| && items[i] == x;
      assert items[1..][i - 1] == x;
      GetsItself(items[1..], x);
    }
  }

  /** A proposal is the base sku, or an active item of the base's category whose list
      price fits the cap, is no lower than the base's, and is the highest that fits;
      between equal prices the first sku wins. */
  lemma UpsellStaysInCategoryAndCap(items: seq<MerchantRecord>, baseSku: string, cap: int)
    requires BySku(items)
    ensures var sku := ProposeUpsell(items, baseSku, cap);
      sku != baseSku ==>
        && Get(items, baseSku).Some? && Get(items, sku).Some?
        && (var base, item := Get(items, baseSku).value, Get(items, sku).value;
            && item.active && item.category == base.category && base.price <= item.price <= cap
            && forall x | x in items && x.active && x.category == base.category && base.price <= x.price <= cap ::
                 x.price < item.price || (x.price == item.price && (x == item || Leq(item.sku, x.sku))))
  {
    var sku := ProposeUpsell(items, baseSku, cap);
    if sku != baseSku {
      var base := Get(items, baseSku).value;
      var candidates := Candidates(ListActive(items), base, cap);
      ListActiveKeepsOrder(items);
      CandidatesKeepOrder(ListActive(items), base, cap);
      GetsItself(items, Dearest(candidates));
    }
  }

  /** An upsell is proposed if and only if another active item of the base's category
      fits between the base's price and the cap, and the base itself is inactive, above
      the cap, cheaper, or of the same price and later in sku order. */
  lemma UpsellIsMadeIff(items: seq<MerchantRecord>, baseSku: string, cap: int)
    requires BySku(items)
    ensures ProposeUpsell(items, baseSku, cap) != baseSku <==>
            Get(items, baseSku).Some? &&
            var base := Get(items, baseSku).value;
            exists x | x in items ::
              && x.active && x.category == base.category && base.price <= x.price <= cap && x.sku != baseSku
              && (!base.active || base.price > cap || base.price < x.price || Leq(x.sku, baseSku))
  {
    if Get(items, baseSku).Some? {
      var base := Get(items, baseSku).value;
      var active := ListActive(items);
      var candidates := Candidates(active, base, cap);
      ListActiveKeepsOrder(items);
      CandidatesKeepOrder(active, base, cap);
      if candidates != [] {
        var best := Dearest(candidates);
        GetsItself(items, best);
        forall x | x in items && x.active && x.category == base.category && base.price <= x.price <= cap
                   && x.sku != baseSku
          ensures x in candidates && best.price >= x.price
        {
          assert x in active;
        }
        UpsellBetween(candidates, best, base);
      }
    }
  }

  lemma UpsellBetween(candidates: seq<MerchantRecord>, best: MerchantRecord, base: MerchantRecord)
    requires BySku(candidates) && candidates != [] && best == Dearest(candidates)
    ensures best == base ==>
      forall x | x in candidates && x.sku != base.sku :: base.price > x.price || !Leq(x.sku, base.sku)
    ensures base in candidates && best != base ==> base.price < best.price || Leq(best.sku, base.sku)
  {
    if best == base {
      forall x | x in candidates && x.sku != base.sku && x.price == base.price && Leq(x.sku, base.sku)
        ensures false
      {
        LeqAntisymmetric(x.sku, base.sku);
      }
    }
  }

  /** A snapshot is made of active rows only and changes nothing but the price: the list
      price unless one was asked for, and one asked for inside the band is granted. */
  lemma OfferStaysInBand(items: seq<MerchantRecord>, sku: string, requested: Option<int>)
    ensures var r, item := MakeOffer(items, sku, requested), Get(items, sku);
      && (r.Some? <==> item.Some? && item.value.active)
      && (r.Some? ==>
            var offer, list, floor := r.value, item.value.price, item.value.floorPrice;
            && offer == item.value.(price := offer.price) && offer.sku == sku
            && (requested.None? ==> offer.price == list)
            && (requested.Some? ==> offer.price >= floor)
            && (requested.Some? && floor <= list ==> offer.price <= list)
            && (requested.Some? && floor <= requested.value <= list ==> offer.price == requested.value))
  {
  }

  /** A counter-offer stays in the band, does not undercut an opening inside it, and
      never falls as the opening rises. */
  lemma CounterStaysInBand(record: MerchantRecord, opening: int, higher: int)
    requires record.floorPrice <= record.price && opening <= higher
    ensures record.floorPrice <= Counter(record, opening) <= record.price
    ensures opening <= record.price ==> opening <= Counter(record, opening)
    ensures Counter(record, opening) <= Counter(record, higher)
  {
  }
}
