/** The red-team case generators: every label they attach is the verdict of the gate,
    whatever the random draws. */
module RedTeam {
  import opened Models
  import opened Sorting
  import opened Gate

  datatype AttackClass =
    | BUDGET | POLICY | PRICE | REPLAY | DOUBLE_CHARGE | CATEGORY | INJECTION | STATE | EXPIRY

  const ATTACK_CLASSES: seq<AttackClass> :=
    [BUDGET, POLICY, PRICE, REPLAY, DOUBLE_CHARGE, CATEGORY, INJECTION, STATE, EXPIRY]

  function ReasonFor(cls: AttackClass): Reason {
    match cls
    case BUDGET => MANDATE_LIMIT_EXCEEDED
    case POLICY => MANDATE_IMMUTABLE
    case PRICE => PRICE_MISMATCH_MERCHANT_RECORD
    case REPLAY => NONCE_REPLAY
    case DOUBLE_CHARGE => Reason.DUPLICATE_TRANSACTION
    case CATEGORY => CATEGORY_OUTSIDE_MANDATE
    case INJECTION => UNTRUSTED_INSTRUCTION
    case STATE => AGENT_FROZEN
    case EXPIRY => MANDATE_EXPIRED
  }

  const CATEGORIES: seq<string> := ["footwear", "apparel", "wearables", "electronics", "grocery"]
  const CAP := 500_000
  const MANDATE_TTL := 900

  /** A stateful generator over an arbitrary tape of draws. */
  class Random {
    const tape: nat -> nat
    var position: nat

    constructor (tape: nat -> nat)
      ensures this.tape == tape && position == 0
    {
      this.tape := tape;
      position := 0;
    }

    method RandInt(lo: int, hi: int) returns (r: int)
      requires lo <= hi
      modifies this
      ensures lo <= r <= hi
    {
      r := lo + tape(position) % (hi - lo + 1);
      position := position + 1;
    }

    method Choice<T>(s: seq<T>) returns (x: T)
      requires s != []
      modifies this
      ensures x in s
    {
      var i := RandInt(0, |s| - 1);
      x := s[i];
    }

    /** k elements of a population, no position drawn twice. */
    method Sample(population: seq<string>, k: nat) returns (s: seq<string>)
      requires k <= |population|
      modifies this
      ensures |s| == k && multiset(s) <= multiset(population)
      ensures forall x | x in s :: x in population
    {
      s := [];
      var rest := population;
      while |s| < k
        invariant |s| <= k && |s| + |rest| == |population|
        invariant multiset(s) + multiset(rest) == multiset(population)
      {
        var i := RandInt(0, |rest| - 1);
        assert rest == rest[..i] + [rest[i]] + rest[i + 1..];
        s := s + [rest[i]];
        rest := rest[..i] + rest[i + 1..];
      }
      forall x | x in s
        ensures x in population
      {
        assert x in multiset(s) && x in multiset(population);
      }
    }
  }

  datatype Keys = Keys(sk: string, pk: string)

  /** The issuer's keys and the clock reading a batch shares, and the attacker's own
      pairs, a new one generated at every point of the tape that asks for one. */
  datatype Setup = Setup(
    sign: Sign, verifies: Verifies, sk: string, pk: string, generateKeypair: nat -> Keys, now: int)

  ghost predicate WellSetUp(u: Setup) {
    KeyPair(u.sign, u.verifies, u.sk, u.pk)
    && forall i: nat :: ForgersKeys(u, u.generateKeypair(i))
  }

  /** A pair that signs as well as any other, but is not the issuer's. */
  ghost predicate ForgersKeys(u: Setup, keys: Keys) {
    KeyPair(u.sign, u.verifies, keys.sk, keys.pk) && keys.pk != u.pk
  }

  datatype Case = Case(
    attackClass: Option<AttackClass>, txn: TransactionRequest, offer: MerchantRecord,
    expectedDecision: Decision, expectedReason: Reason,
    nonceSeen: bool, idemSeen: bool, agentFrozen: bool, trustedIssuerKeys: Option<set<string>>)

  function MakeMandate(u: Setup, sk: string, pk: string, cap: int, cats: seq<string>, ttl: int, offset: int): Mandate {
    SignMandate(u.sign, sk, pk,
                Mandate("m", "buyer-1", cap, cats, 30, u.now + offset, u.now + offset + ttl, "INR", "", ""))
  }

  function MakeRecord(sku: string, category: string, price: int): MerchantRecord {
    MerchantRecord(sku, "m", category, price, 0, Max(0, price - 50_000), true)
  }

  function MakeTxn(m: Mandate, offer: MerchantRecord, amount: int, source: PriceSource): TransactionRequest {
    TransactionRequest("t", m, "buyer-1", offer.sku, offer.category, amount, source, "nonce", "key")
  }

  function AttackCase(cls: AttackClass, txn: TransactionRequest, offer: MerchantRecord): Case {
    Case(Some(cls), txn, offer, BLOCK, ReasonFor(cls), cls == REPLAY, cls == DOUBLE_CHARGE, cls == STATE, None)
  }

  function VerdictOn(u: Setup, c: Case, at: int): GateResult {
    Verdict(u.verifies, c.txn, Some(c.offer), Context(c.nonceSeen, c.idemSeen, c.agentFrozen, c.trustedIssuerKeys, at))
  }

  /** The case, pinned to the issuer's key as the batch generators pin it, gets
      exactly its label from the gate throughout the lifetime of a mandate. */
  ghost predicate LabelIsRight(u: Setup, c: Case) {
    forall at | u.now <= at <= u.now + MANDATE_TTL ::
      var v := VerdictOn(u, c, at);
      v.decision == c.expectedDecision && v.reason == c.expectedReason
  }

  function Pinned(u: Setup, c: Case): Case {
    c.(trustedIssuerKeys := Some({u.pk}))
  }

  lemma SignedBy(u: Setup, sk: string, pk: string, cap: int, cats: seq<string>, ttl: int, offset: int)
    requires KeyPair(u.sign, u.verifies, sk, pk)
    ensures var m := MakeMandate(u, sk, pk, cap, cats, ttl, offset);
      && m.VerifySignature(u.verifies)
      && m.publicKey == pk && m.agentId == "buyer-1" && m.maxAmount == cap
      && m.allowedCategories == cats && m.expiresAt == u.now + offset + ttl
  {
    var m := MakeMandate(u, sk, pk, cap, cats, ttl, offset);
    var draft := Mandate("m", "buyer-1", cap, cats, 30, u.now + offset, u.now + offset + ttl, "INR", "", "");
    assert m.Body() == draft.Body();
  }

  /** How each class is engineered: everything the gate checks before the targeted
      field holds, and the targeted field does not. */
  predicate Engineered(u: Setup, cls: AttackClass, txn: TransactionRequest, offer: MerchantRecord) {
    var m := txn.mandate;
    && m.VerifySignature(u.verifies) && m.agentId == txn.agentId && offer.active && offer.sku == txn.sku
    && (m.publicKey == u.pk <==> cls != POLICY)
    && (if cls == EXPIRY then m.expiresAt < u.now else u.now + MANDATE_TTL <= m.expiresAt)
    && (txn.priceSource == MERCHANT_RECORD <==> cls != INJECTION)
    && (txn.amount == offer.price <==> cls != PRICE)
    && (offer.category in m.allowedCategories <==> cls != CATEGORY)
    && (cls == BUDGET ==> txn.amount > m.maxAmount)
    && (cls == REPLAY || cls == DOUBLE_CHARGE ==> txn.amount <= m.maxAmount)
  }

  function TargetOf(cls: AttackClass): CheckName {
    match cls
    case BUDGET => AmountWithinCap
    case POLICY => MandateSignedByTrustedIssuer
    case PRICE => PriceEqualsMerchantRecord
    case REPLAY => NonceUnused
    case DOUBLE_CHARGE => IdempotencyKeyUnused
    case CATEGORY => CategoryInAllowlist
    case INJECTION => MoneyFieldFromMerchantRecord
    case STATE => AgentNotFrozen
    case EXPIRY => MandateNotExpired
  }

  /** An engineered attack is blocked with exactly the reason of its class. */
  lemma EngineeredIsBlocked(u: Setup, cls: AttackClass, txn: TransactionRequest, offer: MerchantRecord)
    requires Engineered(u, cls, txn, offer)
    ensures var c := AttackCase(cls, txn, offer);
      c.attackClass == Some(cls) && c.expectedDecision == BLOCK && c.expectedReason == ReasonFor(cls)
      && LabelIsRight(u, Pinned(u, c))
  {
    var c := AttackCase(cls, txn, offer);
    var p := Pinned(u, c);
    forall at | u.now <= at <= u.now + MANDATE_TTL
      ensures VerdictOn(u, p, at).decision == BLOCK && VerdictOn(u, p, at).reason == c.expectedReason
    {
      var ctx := Context(p.nonceSeen, p.idemSeen, p.agentFrozen, p.trustedIssuerKeys, at);
      ChecksSpelledOut(u.verifies, p.txn, Some(p.offer), ctx);
      hide Passes;
      BlocksWith(TargetOf(cls), u.verifies, p.txn, Some(p.offer), ctx);
    }
  }

  method MakeAttack(cls: AttackClass, rng: Random, u: Setup) returns (c: Case)
    requires WellSetUp(u)
    modifies rng
    ensures c.attackClass == Some(cls) && c.expectedDecision == BLOCK && c.expectedReason == ReasonFor(cls)
    ensures LabelIsRight(u, Pinned(u, c))
  {
    hide LabelIsRight, MakeMandate, KeyPair, AttackCase, ReasonFor, Pinned;
    var cats := ["footwear"];
    var m := MakeMandate(u, u.sk, u.pk, CAP, cats, MANDATE_TTL, 0);
    SignedBy(u, u.sk, u.pk, CAP, cats, MANDATE_TTL, 0);
    var price, offer, txn;
    match cls {
      case BUDGET =>
        price := rng.RandInt(CAP + 1, CAP * 2);
        offer := MakeRecord("SKU-X", "footwear", price);
        txn := MakeTxn(m, offer, offer.price, MERCHANT_RECORD);
      case POLICY =>
        price := rng.RandInt(100_000, CAP);
        offer := MakeRecord("SKU-X", "footwear", price);
        var forger := u.generateKeypair(rng.position);
        SignedBy(u, forger.sk, forger.pk, CAP * 2, cats, MANDATE_TTL, 0);
        var forged := MakeMandate(u, forger.sk, forger.pk, CAP * 2, cats, MANDATE_TTL, 0);
        txn := MakeTxn(forged, offer, offer.price, MERCHANT_RECORD);
      case PRICE =>
        price := rng.RandInt(100_000, CAP);
        offer := MakeRecord("SKU-X", "footwear", price);
        var amount := rng.Choice([price - 10_000, price + 10_000]);
        txn := MakeTxn(m, offer, amount, MERCHANT_RECORD);
      case CATEGORY =>
        price := rng.RandInt(100_000, CAP);
        offer := MakeRecord("SKU-WATCH", "wearables", price);
        assert |"wearables"| != |"footwear"|;
        txn := MakeTxn(m, offer, offer.price, MERCHANT_RECORD);
      case INJECTION =>
        price := rng.RandInt(100_000, CAP);
        offer := MakeRecord("SKU-X", "footwear", price);
        var source := rng.Choice([DESCRIPTION, SELLER_CLAIM, AGENT_INVENTED]);
        txn := MakeTxn(m, offer, offer.price, source);
      case EXPIRY =>
        price := rng.RandInt(100_000, CAP);
        offer := MakeRecord("SKU-X", "footwear", price);
        SignedBy(u, u.sk, u.pk, CAP, cats, 10, -1000);
        txn := MakeTxn(MakeMandate(u, u.sk, u.pk, CAP, cats, 10, -1000), offer, offer.price, MERCHANT_RECORD);
      case _ =>
        price := rng.RandInt(100_000, CAP);
        offer := MakeRecord("SKU-X", "footwear", price);
        txn := MakeTxn(m, offer, offer.price, MERCHANT_RECORD);
    }
    c := AttackCase(cls, txn, offer);
    EngineeredIsBlocked(u, cls, txn, offer);
  }

  function Outside(pool: seq<string>, cats: seq<string>): (r: seq<string>)
    ensures forall x :: x in r <==> x in pool && x !in cats
  {
    if pool == [] then []
    else (if pool[0] in cats then [] else [pool[0]]) + Outside(pool[1..], cats)
  }

  predicate AllDifferent(s: seq<string>) {
    forall i, j | 0 <= i < j < |s| :: s[i] != s[j]
  }

  lemma CategoriesDiffer()
    ensures AllDifferent(CATEGORIES)
  {
    assert CATEGORIES[1][0] != CATEGORIES[4][0];
    assert |CATEGORIES[0]| == 8 && |CATEGORIES[1]| == 7 && |CATEGORIES[2]| == 9
      && |CATEGORIES[3]| == 11 && |CATEGORIES[4]| == 7;
  }

  /** A list that covers a pool of different strings is at least as long. */
  lemma {:induction false} Pigeonhole(pool: seq<string>, s: seq<string>)
    requires AllDifferent(pool) && forall x | x in pool :: x in s
    ensures |pool| <= |s|
  {
    if pool != [] {
      assert pool[0] in pool;
      var i :| 0 <= i < |s| && s[i] == pool[0];
      var rest := s[..i] + s[i + 1..];
      forall x | x in pool[1..]
        ensures x in rest
      {
        assert x in s;
      }
      Pigeonhole(pool[1..], rest);
    }
  }

  /** Fewer allowed categories than there are leaves some category off the mandate,
      so the off-mandate draw always has something to draw from. */
  lemma SomeCategoryIsOutside(cats: seq<string>)
    requires |cats| < |CATEGORIES|
    ensures Outside(CATEGORIES, cats) != []
  {
    CategoriesDiffer();
    var outside := Outside(CATEGORIES, cats);
    if outside == [] {
      forall x | x in CATEGORIES
        ensures x in cats
      {
        assert x in outside <==> x !in cats;
      }
      Pigeonhole(CATEGORIES, cats);
    }
  }

  /** Between lo and hi categories, and any wanted one besides, in sorted order. */
  method DrawCategories(rng: Random, lo: int, hi: int, wanted: Option<string>) returns (cats: seq<string>)
    requires 1 <= lo <= hi <= |CATEGORIES|
    modifies rng
    ensures lo <= |cats| <= hi + (if wanted.Some? then 1 else 0)
    ensures forall x | x in cats :: x in CATEGORIES || wanted == Some(x)
    ensures wanted.Some? ==> wanted.value in cats
  {
    var k := rng.RandInt(lo, hi);
    var drawn := rng.Sample(CATEGORIES, k);
    if wanted.Some? && wanted.value !in drawn {
      drawn := drawn + [wanted.value];
    }
    cats := Sorted(drawn);
    SortedLength(drawn);
    forall x
      ensures x in cats <==> x in drawn
    {
      SortedSameMembers(drawn, x);
    }
    hide Sorted;
  }

  method MakeAttackOod(cls: AttackClass, rng: Random, u: Setup) returns (c: Case)
    requires WellSetUp(u)
    modifies rng
    ensures c.attackClass == Some(cls) && c.expectedDecision == BLOCK && c.expectedReason == ReasonFor(cls)
    ensures LabelIsRight(u, Pinned(u, c))
  {
    hide LabelIsRight, Outside, MakeMandate, KeyPair, AttackCase, ReasonFor, Pinned;
    var cap := rng.Choice([300_000, 480_000, 750_000]);
    var cats := DrawCategories(rng, 1, 3, Some("footwear"));
    var m := MakeMandate(u, u.sk, u.pk, cap, cats, MANDATE_TTL, 0);
    SignedBy(u, u.sk, u.pk, cap, cats, MANDATE_TTL, 0);
    var price, offer, txn;
    match cls {
      case BUDGET =>
        price := rng.RandInt(cap + 1, cap + 40_000);
        offer := MakeRecord("SKU-X", "footwear", price);
        txn := MakeTxn(m, offer, offer.price, MERCHANT_RECORD);
      case POLICY =>
        price := rng.RandInt(50_000, cap);
        offer := MakeRecord("SKU-X", "footwear", price);
        var forger := u.generateKeypair(rng.position);
        var inflation := rng.RandInt(1, 150_000);
        SignedBy(u, forger.sk, forger.pk, cap + inflation, cats, MANDATE_TTL, 0);
        var forged := MakeMandate(u, forger.sk, forger.pk, cap + inflation, cats, MANDATE_TTL, 0);
        txn := MakeTxn(forged, offer, offer.price, MERCHANT_RECORD);
      case PRICE =>
        price := rng.RandInt(50_000, cap);
        offer := MakeRecord("SKU-X", "footwear", price);
        var delta := rng.Choice([-2500, -900, -300, 300, 900, 2500]);
        txn := MakeTxn(m, offer, price + delta, MERCHANT_RECORD);
      case CATEGORY =>
        SomeCategoryIsOutside(cats);
        var category := rng.Choice(Outside(CATEGORIES, cats));
        price := rng.RandInt(50_000, cap);
        offer := MakeRecord("SKU-OOD", category, price);
        txn := MakeTxn(m, offer, offer.price, MERCHANT_RECORD);
      case INJECTION =>
        price := rng.RandInt(50_000, cap);
        offer := MakeRecord("SKU-X", "footwear", price);
        var source := rng.Choice([DESCRIPTION, SELLER_CLAIM, AGENT_INVENTED]);
        txn := MakeTxn(m, offer, offer.price, source);
      case EXPIRY =>
        var ttl := rng.RandInt(5, 60);
        var offset := rng.RandInt(500, 3000);
        SignedBy(u, u.sk, u.pk, cap, cats, ttl, -offset);
        price := rng.RandInt(50_000, cap);
        offer := MakeRecord("SKU-X", "footwear", price);
        txn := MakeTxn(MakeMandate(u, u.sk, u.pk, cap, cats, ttl, -offset), offer, offer.price, MERCHANT_RECORD);
      case _ =>
        price := rng.RandInt(50_000, cap);
        offer := MakeRecord("SKU-X", "footwear", price);
        txn := MakeTxn(m, offer, offer.price, MERCHANT_RECORD);
    }
    c := AttackCase(cls, txn, offer);
    EngineeredIsBlocked(u, cls, txn, offer);
  }

  lemma SortedLength(s: seq<string>)
    ensures |Sorted(s)| == |s|
  {
    SortedIsPermutation(s);
    assert |multiset(Sorted(s))| == |Sorted(s)| && |multiset(s)| == |s|;
  }

  /** str.upper on ASCII letters. */
  function Upper(s: string): string {
    if s == "" then ""
    else [if 'a' <= s[0] <= 'z' then s[0] - 32 as char else s[0]] + Upper(s[1..])
  }

  function LegitCase(u: Setup, cap: int, cats: seq<string>, category: string, amount: int): Case {
    var offer := MakeRecord("SKU-" + Upper(if |category| <= 4 then category else category[..4]), category, amount);
    Case(None, MakeTxn(MakeMandate(u, u.sk, u.pk, cap, cats, MANDATE_TTL, 0), offer, amount, MERCHANT_RECORD),
         offer, ALLOW, OK, false, false, false, None)
  }

  /** A purchase of an allowed category within the cap is allowed. */
  lemma LegitIsAllowed(u: Setup, cap: int, cats: seq<string>, category: string, amount: int)
    requires WellSetUp(u) && amount <= cap && category in cats
    ensures LabelIsRight(u, Pinned(u, LegitCase(u, cap, cats, category, amount)))
  {
    hide Upper;
    SignedBy(u, u.sk, u.pk, cap, cats, MANDATE_TTL, 0);
    var p := Pinned(u, LegitCase(u, cap, cats, category, amount));
    forall at | u.now <= at <= u.now + MANDATE_TTL
      ensures VerdictOn(u, p, at).decision == ALLOW && VerdictOn(u, p, at).reason == OK
    {
      VerdictCases(u.verifies, p.txn, Some(p.offer),
                   Context(p.nonceSeen, p.idemSeen, p.agentFrozen, p.trustedIssuerKeys, at));
    }
  }

  method MakeLegit(rng: Random, u: Setup) returns (c: Case)
    requires WellSetUp(u)
    modifies rng
    ensures c.attackClass == None && c.expectedDecision == ALLOW && c.expectedReason == OK
    ensures LabelIsRight(u, Pinned(u, c))
  {
    var cap := rng.Choice([300_000, 500_000, 700_000, 1_000_000]);
    var cats := DrawCategories(rng, 1, 3, None);
    var category := rng.Choice(cats);
    var anywhere := rng.RandInt(1_000, cap);
    var near := rng.RandInt(Max(1, cap - 20_000), cap);
    var amount := rng.Choice([anywhere, cap - 5_000, cap - 100, cap, near]);
    c := LegitCase(u, cap, cats, category, Min(amount, cap));
    LegitIsAllowed(u, cap, cats, category, Min(amount, cap));
  }

  method MakeLegitOod(rng: Random, u: Setup) returns (c: Case)
    requires WellSetUp(u)
    modifies rng
    ensures c.attackClass == None && c.expectedDecision == ALLOW && c.expectedReason == OK
    ensures LabelIsRight(u, Pinned(u, c))
  {
    var cap := rng.Choice([250_000, 450_000, 850_000, 1_200_000, 2_000_000]);
    var cats := DrawCategories(rng, 2, 5, None);
    var category := rng.Choice(cats);
    var small := rng.RandInt(500, 20_000);
    var anywhere := rng.RandInt(1, cap);
    var near := rng.RandInt(Max(1, cap - 5_000), cap);
    var amount := rng.Choice([small, anywhere, cap, cap - 1, cap - 2_500, near]);
    c := LegitCase(u, cap, cats, category, Min(cap, amount));
    LegitIsAllowed(u, cap, cats, category, Min(cap, amount));
  }

  /** The classes of a batch in order, perClass cases of each of the first n. */
  function ClassOrder(n: nat, perClass: nat): (order: seq<AttackClass>)
    requires n <= |ATTACK_CLASSES|
    ensures |order| == n * perClass
  {
    if n == 0 then [] else ClassOrder(n - 1, perClass) + Times(ATTACK_CLASSES[n - 1], perClass)
  }

  function Times(cls: AttackClass, k: nat): (s: seq<AttackClass>)
    ensures |s| == k && forall x | x in s :: x == cls
  {
    if k == 0 then [] else Times(cls, k - 1) + [cls]
  }

  /** An attack labelled with its class, whose label is right. */
  ghost predicate Labelled(u: Setup, c: Case, cls: AttackClass) {
    c.attackClass == Some(cls) && c.expectedDecision == BLOCK && c.expectedReason == ReasonFor(cls)
    && LabelIsRight(u, c)
  }

  /** Labels are right for every draw: a batch holds perClass attacks of each class,
      in the order of the class list, and the gate gives every one of them exactly
      its expected verdict. */
  method GenerateAdversarial(rng: Random, u: Setup, perClass: nat, ood: bool) returns (cases: seq<Case>)
    requires WellSetUp(u)
    modifies rng
    ensures |cases| == 9 * perClass
    ensures forall i | 0 <= i < |cases| :: Labelled(u, cases[i], ClassOrder(9, perClass)[i])
  {
    cases := [];
    for n := 0 to |ATTACK_CLASSES|
      invariant |cases| == |ClassOrder(n, perClass)|
      invariant forall i | 0 <= i < |cases| :: Labelled(u, cases[i], ClassOrder(n, perClass)[i])
    {
      var before := cases;
      for k := 0 to perClass
        invariant |cases| == |before| + k && cases[..|before|] == before
        invariant forall i | |before| <= i < |cases| :: Labelled(u, cases[i], ATTACK_CLASSES[n])
      {
        hide LabelIsRight, WellSetUp, ClassOrder;
        var c;
        if ood {
          c := MakeAttackOod(ATTACK_CLASSES[n], rng, u);
        } else {
          c := MakeAttack(ATTACK_CLASSES[n], rng, u);
        }
        cases := cases + [Pinned(u, c)];
      }
      hide LabelIsRight, WellSetUp;
      assert ClassOrder(n + 1, perClass) == ClassOrder(n, perClass) + Times(ATTACK_CLASSES[n], perClass);
      forall i | 0 <= i < |cases|
        ensures Labelled(u, cases[i], ClassOrder(n + 1, perClass)[i])
      {
        if i < |before| {
          assert cases[i] == before[i];
        } else {
          assert ClassOrder(n + 1, perClass)[i] == Times(ATTACK_CLASSES[n], perClass)[i - |before|];
          assert ClassOrder(n + 1, perClass)[i] in Times(ATTACK_CLASSES[n], perClass);
        }
      }
    }
  }

  method GenerateLegitimate(rng: Random, u: Setup, n: nat, ood: bool) returns (cases: seq<Case>)
    requires WellSetUp(u)
    modifies rng
    ensures |cases| == n
    ensures forall i | 0 <= i < n ::
              cases[i].expectedDecision == ALLOW && cases[i].expectedReason == OK && LabelIsRight(u, cases[i])
  {
    cases := [];
    for k := 0 to n
      invariant |cases| == k
      invariant forall i | 0 <= i < k ::
                  cases[i].expectedDecision == ALLOW && cases[i].expectedReason == OK && LabelIsRight(u, cases[i])
    {
      var c;
      if ood {
        c := MakeLegitOod(rng, u);
      } else {
        c := MakeLegit(rng, u);
      }
      cases := cases + [Pinned(u, c)];
    }
  }

  /** The pin is what makes the policy label right: without it the gate allows the
      forged mandate. */
  lemma UnpinnedForgeryIsAllowed(u: Setup, txn: TransactionRequest, offer: MerchantRecord, at: int)
    requires Engineered(u, POLICY, txn, offer) && txn.amount <= txn.mandate.maxAmount
    requires u.now <= at <= u.now + MANDATE_TTL
    ensures VerdictOn(u, AttackCase(POLICY, txn, offer), at).decision == ALLOW
  {
    var c := AttackCase(POLICY, txn, offer);
    VerdictCases(u.verifies, c.txn, Some(c.offer),
                 Context(c.nonceSeen, c.idemSeen, c.agentFrozen, c.trustedIssuerKeys, at));
  }
}
