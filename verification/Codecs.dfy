/** A codec as the log needs it: hash, canonical form and reader that meet everything
    the theorems about the log ask for. */
module Codecs {
  import opened Models
  import opened AuditLog
  import opened Schema

  /** A number as so many ones and a zero. */
  function Unary(n: nat): Bytes {
    Repeat(1, n) + [0]
  }

  function Pack(s: seq<nat>): (bytes: Bytes)
    ensures SEPARATOR !in bytes
  {
    if s == [] then [] else Unary(s[0]) + Pack(s[1..])
  }

  lemma UnaryPrefix(a: nat, b: nat, r: Bytes, r': Bytes)
    requires Unary(a) + r == Unary(b) + r'
    ensures a == b && r == r'
  {
    var m, m' := Unary(a) + r, Unary(b) + r';
    assert m[a] == 0 && m'[b] == 0;
    assert forall i | 0 <= i < a :: m[i] == 1;
    assert forall i | 0 <= i < b :: m'[i] == 1;
    assert m[a + 1..] == r && m'[b + 1..] == r';
  }

  lemma {:induction false} PackInjective(s: seq<nat>, t: seq<nat>)
    requires Pack(s) == Pack(t)
    ensures s == t
  {
    if s != [] && t != [] {
      UnaryPrefix(s[0], t[0], Pack(s[1..]), Pack(t[1..]));
      PackInjective(s[1..], t[1..]);
      assert s == [s[0]] + s[1..] && t == [t[0]] + t[1..];
    }
  }

  function Text(s: string): seq<nat> {
    [|s|] + seq(|s|, i requires 0 <= i < |s| => s[i] as nat)
  }

  lemma TextPrefix(s: string, t: string, r: seq<nat>, r': seq<nat>)
    requires Text(s) + r == Text(t) + r'
    ensures s == t && r == r'
  {
    var m, m' := Text(s) + r, Text(t) + r';
    assert m[0] == |s| && m'[0] == |t|;
    forall i | 0 <= i < |s|
      ensures s[i] == t[i]
    {
      assert m[i + 1] == s[i] as nat && m'[i + 1] == t[i] as nat;
    }
    assert m[|s| + 1..] == r && m'[|t| + 1..] == r';
  }

  function Integer(n: int): seq<nat> {
    if n >= 0 then [0, n] else [1, -n]
  }

  function Optional(text: Option<string>): seq<nat> {
    match text case None => [0] case Some(s) => [1] + Text(s)
  }

  function OptionalInteger(n: Option<int>): seq<nat> {
    match n case None => [0, 0, 0] case Some(n) => if n >= 0 then [1, 0, n] else [1, 1, -n]
  }

  function DecisionCode(d: Decision): nat {
    match d case ALLOW => 0 case REVIEW => 1 case BLOCK => 2
  }

  function StatusCode(s: Status): nat {
    match s
    case AUTHORIZED => 0
    case REVIEW_HOLD => 1
    case BLOCKED => 2
    case PENDING_SETTLEMENT => 3
    case SETTLED => 4
    case FAILED => 5
  }

  function ReasonCode(r: Reason): nat {
    match r
    case OK => 0
    case MANDATE_LIMIT_EXCEEDED => 1
    case MANDATE_IMMUTABLE => 2
    case PRICE_MISMATCH_MERCHANT_RECORD => 3
    case NONCE_REPLAY => 4
    case DUPLICATE_TRANSACTION => 5
    case CATEGORY_OUTSIDE_MANDATE => 6
    case UNTRUSTED_INSTRUCTION => 7
    case AGENT_FROZEN => 8
    case MANDATE_EXPIRED => 9
    case RISK_REVIEW_HOLD => 10
  }

  function Fields(e: Event): seq<nat> {
    match e
    case AuthorizationEvent(txnId, agentId, amount, decision, reason, effective, riskScore, receiptId) =>
      [0, DecisionCode(decision), ReasonCode(reason), DecisionCode(effective)]
      + (Integer(amount) + (Integer(riskScore) + (Text(txnId) + (Text(agentId) + (Text(receiptId) + [])))))
    case SettlementEvent(txnId, orderId, paymentId, orderAmount, status, viaReconcile) =>
      [1, StatusCode(status), if viaReconcile then 1 else 0]
      + (OptionalInteger(orderAmount) + (Text(txnId) + (Text(orderId) + (Optional(paymentId) + []))))
  }

  function Canon(id: string, e: Event): (bytes: Bytes)
    ensures SEPARATOR !in bytes
  {
    Pack(Text(id) + Fields(e))
  }

  lemma IntegerPrefix(a: int, b: int, r: seq<nat>, r': seq<nat>)
    requires Integer(a) + r == Integer(b) + r'
    ensures a == b && r == r'
  {
    var m, m' := Integer(a) + r, Integer(b) + r';
    assert m[0] == m'[0] && m[1] == m'[1];
    assert m[2..] == r && m'[2..] == r';
  }

  lemma OptionalIntegerPrefix(a: Option<int>, b: Option<int>, r: seq<nat>, r': seq<nat>)
    requires OptionalInteger(a) + r == OptionalInteger(b) + r'
    ensures a == b && r == r'
  {
    var m, m' := OptionalInteger(a) + r, OptionalInteger(b) + r';
    assert m[0] == m'[0] && m[1] == m'[1] && m[2] == m'[2];
    assert m[3..] == r && m'[3..] == r';
  }

  lemma OptionalPrefix(a: Option<string>, b: Option<string>, r: seq<nat>, r': seq<nat>)
    requires Optional(a) + r == Optional(b) + r'
    ensures a == b && r == r'
  {
    hide Text;
    var m, m' := Optional(a) + r, Optional(b) + r';
    assert m[0] == (if a.Some? then 1 else 0) && m'[0] == (if b.Some? then 1 else 0);
    if a.Some? {
      assert m[1..] == Text(a.value) + r && m'[1..] == Text(b.value) + r';
      TextPrefix(a.value, b.value, r, r');
    } else {
      assert m[1..] == r && m'[1..] == r';
    }
  }

  lemma CodesDiffer(a: Decision, b: Decision, r: Reason, r': Reason, s: Status, s': Status)
    ensures DecisionCode(a) == DecisionCode(b) ==> a == b
    ensures ReasonCode(r) == ReasonCode(r') ==> r == r'
    ensures StatusCode(s) == StatusCode(s') ==> s == s'
  {
  }

  lemma FieldsInjective(e: Event, f: Event)
    requires Fields(e) == Fields(f)
    ensures e == f
  {
    hide Integer, Text, Optional, OptionalInteger, ReasonCode, StatusCode, DecisionCode;
    var m, m' := Fields(e), Fields(f);
    assert m[0] == m'[0];
    if e.AuthorizationEvent? {
      AuthorizationInjective(e, f);
    } else {
      SettlementInjective(e, f);
    }
  }

  lemma AuthorizationInjective(e: Event, f: Event)
    requires Fields(e) == Fields(f) && e.AuthorizationEvent? && f.AuthorizationEvent?
    ensures e == f
  {
    hide Integer, Text, ReasonCode, DecisionCode;
    var m, m' := Fields(e), Fields(f);
    assert m[1] == m'[1] && m[2] == m'[2] && m[3] == m'[3];
    CodesDiffer(e.decision, f.decision, e.reason, f.reason, SETTLED, SETTLED);
    CodesDiffer(e.effective, f.effective, e.reason, f.reason, SETTLED, SETTLED);
    var e4, f4 := Text(e.agentId) + (Text(e.receiptId) + []), Text(f.agentId) + (Text(f.receiptId) + []);
    var e3, f3 := Text(e.txnId) + e4, Text(f.txnId) + f4;
    var e2, f2 := Integer(e.riskScore) + e3, Integer(f.riskScore) + f3;
    assert m[4..] == Integer(e.amount) + e2 && m'[4..] == Integer(f.amount) + f2;
    IntegerPrefix(e.amount, f.amount, e2, f2);
    IntegerPrefix(e.riskScore, f.riskScore, e3, f3);
    TextPrefix(e.txnId, f.txnId, e4, f4);
    TextPrefix(e.agentId, f.agentId, Text(e.receiptId) + [], Text(f.receiptId) + []);
    TextPrefix(e.receiptId, f.receiptId, [], []);
  }

  lemma SettlementInjective(e: Event, f: Event)
    requires Fields(e) == Fields(f) && e.SettlementEvent? && f.SettlementEvent?
    ensures e == f
  {
    hide Integer, Text, Optional, OptionalInteger, StatusCode;
    var m, m' := Fields(e), Fields(f);
    assert m[1] == m'[1] && m[2] == m'[2];
    CodesDiffer(ALLOW, ALLOW, OK, OK, e.status, f.status);
    var e3, f3 := Text(e.orderId) + (Optional(e.paymentId) + []), Text(f.orderId) + (Optional(f.paymentId) + []);
    var e2, f2 := Text(e.txnId) + e3, Text(f.txnId) + f3;
    assert m[3..] == OptionalInteger(e.orderAmount) + e2 && m'[3..] == OptionalInteger(f.orderAmount) + f2;
    OptionalIntegerPrefix(e.orderAmount, f.orderAmount, e2, f2);
    TextPrefix(e.txnId, f.txnId, e3, f3);
    TextPrefix(e.orderId, f.orderId, Optional(e.paymentId) + [], Optional(f.paymentId) + []);
    OptionalPrefix(e.paymentId, f.paymentId, [], []);
  }

  lemma CanonInjective(id: string, e: Event, id': string, e': Event)
    requires Canon(id, e) == Canon(id', e')
    ensures id == id' && e == e'
  {
    hide Text, Fields, Pack;
    PackInjective(Text(id) + Fields(e), Text(id') + Fields(e'));
    TextPrefix(id, id', Fields(e), Fields(e'));
    FieldsInjective(e, e');
  }

  ghost function Parse(bytes: Bytes): Option<(string, Event)> {
    if exists p: (string, Event) :: Canon(p.0, p.1) == bytes
    then
      var p: (string, Event) :| Canon(p.0, p.1) == bytes;
      Some(p)
    else None
  }

  lemma DigestExists() returns (hash: Hash)
    ensures Digest(hash)
  {
    hash := _ => GENESIS_HASH;
  }

  /** Everything asked of canonical form and reader can be had together, with any hash. */
  lemma CodecExists(hash: Hash) returns (codec: Codec)
    ensures codec.hash == hash && Readable(codec) && ControlFree(codec)
  {
    codec := Codec(hash, Canon, Parse);
    forall id: string, e: Event
      ensures codec.parse(codec.canon(id, e)) == Some((id, e))
    {
      hide Canon;
      assert Canon((id, e).0, (id, e).1) == codec.canon(id, e);
      var p := Parse(codec.canon(id, e)).value;
      CanonInjective(p.0, p.1, id, e);
    }
  }
}
