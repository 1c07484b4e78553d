/** The append-only audit log.  Every entry commits to the hash of the previous
    one and to its own event type and payload, with byte 0x1f between the two.
    The hash is a function value about which nothing but its output length is
    assumed; tamper evidence is therefore stated as a reduction to two different
    messages, taken from the entries themselves, that hash to the same value. */
module AuditLog {
  newtype Byte = b: int | 0 <= b < 256

  type Bytes = seq<Byte>

  type Hash = Bytes -> Bytes

  const SEPARATOR: Byte := 0x1f

  function Repeat(b: Byte, n: nat): (s: Bytes)
    ensures |s| == n && forall i | 0 <= i < n :: s[i] == b
  {
    if n == 0 then [] else [b] + Repeat(b, n - 1)
  }

  /** Sixty-four characters '0'. */
  const GENESIS_HASH: Bytes := Repeat(48, 64)

  ghost predicate Digest(hash: Hash) {
    forall m: Bytes :: |hash(m)| == 64
  }

  datatype AuditRow = AuditRow(seqNo: nat, eventType: Bytes, payload: Bytes, prevHash: Bytes, entryHash: Bytes)

  datatype ChainFault = PREV_HASH_MISMATCH | ENTRY_HASH_MISMATCH

  datatype ChainResult =
    | Intact(length: nat)
    | Broken(length: nat, brokenAtSeq: nat, fault: ChainFault)

  function Message(prev: Bytes, eventType: Bytes, payload: Bytes): Bytes {
    prev + eventType + [SEPARATOR] + payload
  }

  /** The hash the k-th entry has to continue from. */
  function TipBefore(rows: seq<AuditRow>, k: nat): Bytes
    requires k <= |rows|
  {
    if k == 0 then GENESIS_HASH else rows[k - 1].entryHash
  }

  function Tip(rows: seq<AuditRow>): Bytes {
    TipBefore(rows, |rows|)
  }

  function MessageAt(rows: seq<AuditRow>, k: nat): Bytes
    requires k < |rows|
  {
    Message(TipBefore(rows, k), rows[k].eventType, rows[k].payload)
  }

  predicate LinkHolds(hash: Hash, rows: seq<AuditRow>, k: nat)
    requires k < |rows|
  {
    rows[k].prevHash == TipBefore(rows, k) && rows[k].entryHash == hash(MessageAt(rows, k))
  }

  predicate Accepted(hash: Hash, rows: seq<AuditRow>) {
    forall k | 0 <= k < |rows| :: LinkHolds(hash, rows, k)
  }

  /** What the verifier has to answer about a log whose first broken link is the
      k-th, or which has none when k is its length. */
  function Report(rows: seq<AuditRow>, k: nat): ChainResult
    requires k <= |rows|
  {
    if k == |rows| then Intact(|rows|)
    else Broken(|rows|, rows[k].seqNo,
                if rows[k].prevHash != TipBefore(rows, k) then PREV_HASH_MISMATCH else ENTRY_HASH_MISMATCH)
  }

  ghost predicate FirstBrokenIs(hash: Hash, rows: seq<AuditRow>, k: nat) {
    && k <= |rows|
    && (forall i | 0 <= i < k :: LinkHolds(hash, rows, i))
    && (k < |rows| ==> !LinkHolds(hash, rows, k))
  }

  /** Walk the log from the genesis hash and stop at the first entry that does not fit. */
  method VerifyChain(hash: Hash, rows: seq<AuditRow>) returns (r: ChainResult, ghost first: nat)
    ensures FirstBrokenIs(hash, rows, first) && r == Report(rows, first)
    ensures r.Intact? <==> Accepted(hash, rows)
    ensures r.length == |rows|
    ensures r.Broken? ==> first < |rows| && r.brokenAtSeq == rows[first].seqNo
    ensures r.Broken? ==>
              (r.fault == ENTRY_HASH_MISMATCH <==> rows[first].prevHash == TipBefore(rows, first))
  {
    var prev := GENESIS_HASH;
    var i := 0;
    while i < |rows|
      invariant 0 <= i <= |rows|
      invariant prev == TipBefore(rows, i)
      invariant forall k | 0 <= k < i :: LinkHolds(hash, rows, k)
    {
      var row := rows[i];
      var expected := hash(Message(prev, row.eventType, row.payload));
      if row.prevHash != prev {
        assert !LinkHolds(hash, rows, i);
        return Broken(|rows|, row.seqNo, PREV_HASH_MISMATCH), i;
      }
      if row.entryHash != expected {
        assert !LinkHolds(hash, rows, i);
        return Broken(|rows|, row.seqNo, ENTRY_HASH_MISMATCH), i;
      }
      prev := row.entryHash;
      i := i + 1;
    }
    return Intact(|rows|), i;
  }

  /** The entry that appending one event adds. */
  function NextRow(hash: Hash, rows: seq<AuditRow>, eventType: Bytes, payload: Bytes): AuditRow {
    AuditRow(|rows| + 1, eventType, payload, Tip(rows), hash(Message(Tip(rows), eventType, payload)))
  }

  function AppendAll(hash: Hash, rows: seq<AuditRow>, events: seq<(Bytes, Bytes)>): seq<AuditRow>
    decreases |events|
  {
    if events == [] then rows
    else AppendAll(hash, rows + [NextRow(hash, rows, events[0].0, events[0].1)], events[1..])
  }

  /** Entry k carries the row number k + 1. */
  predicate Numbered(rows: seq<AuditRow>) {
    forall k | 0 <= k < |rows| :: rows[k].seqNo == k + 1
  }

  lemma AppendKeepsAccepted(hash: Hash, rows: seq<AuditRow>, eventType: Bytes, payload: Bytes)
    requires Accepted(hash, rows)
    ensures Accepted(hash, rows + [NextRow(hash, rows, eventType, payload)])
  {
    var rows' := rows + [NextRow(hash, rows, eventType, payload)];
    forall k | 0 <= k < |rows'|
      ensures LinkHolds(hash, rows', k)
    {
      if k < |rows| {
        assert LinkHolds(hash, rows, k);
      }
    }
  }

  /** Any number of appends keeps an accepted log accepted and numbered, leaves the
      entries it had alone and adds the events in their order. */
  lemma {:induction false} AppendsKeepAccepted(hash: Hash, rows: seq<AuditRow>, events: seq<(Bytes, Bytes)>)
    requires Accepted(hash, rows)
    ensures Accepted(hash, AppendAll(hash, rows, events))
    ensures |AppendAll(hash, rows, events)| == |rows| + |events|
    ensures rows <= AppendAll(hash, rows, events)
    ensures Numbered(rows) ==> Numbered(AppendAll(hash, rows, events))
    ensures forall k | 0 <= k < |events| ::
              var row := AppendAll(hash, rows, events)[|rows| + k];
              (row.eventType, row.payload) == events[k]
    decreases |events|
  {
    if events != [] {
      AppendKeepsAccepted(hash, rows, events[0].0, events[0].1);
      AppendsKeepAccepted(hash, rows + [NextRow(hash, rows, events[0].0, events[0].1)], events[1..]);
    }
  }

  /** Every prefix of an accepted log is accepted: dropping the newest entries goes unseen. */
  lemma PrefixAccepted(hash: Hash, rows: seq<AuditRow>, n: nat)
    requires Accepted(hash, rows) && n <= |rows|
    ensures Accepted(hash, rows[..n])
  {
    forall k | 0 <= k < n
      ensures LinkHolds(hash, rows[..n], k)
    {
      assert LinkHolds(hash, rows, k);
    }
  }

  predicate SeparatorFree(row: AuditRow) {
    SEPARATOR !in row.eventType && SEPARATOR !in row.payload
  }

  /** Event type and payload can be read back from a message exactly when neither
      holds the separator: otherwise another pair makes the same message. */
  lemma SplitIsUniqueIff(eventType: Bytes, payload: Bytes)
    ensures (forall t: Bytes, p: Bytes ::
               t + [SEPARATOR] + p == eventType + [SEPARATOR] + payload ==> t == eventType && p == payload)
       <==> SEPARATOR !in eventType && SEPARATOR !in payload
  {
    if SEPARATOR in eventType || SEPARATOR in payload {
      var t, p := Resplit(eventType, payload);
    } else {
      forall t: Bytes, p: Bytes | t + [SEPARATOR] + p == eventType + [SEPARATOR] + payload
        ensures t == eventType && p == payload
      {
        SplitUnique(eventType, payload, t, p);
      }
    }
  }

  lemma SplitUnique(t: Bytes, p: Bytes, t': Bytes, p': Bytes)
    requires SEPARATOR !in t && SEPARATOR !in p
    requires t' + [SEPARATOR] + p' == t + [SEPARATOR] + p
    ensures t' == t && p' == p
  {
    var m, m' := t + [SEPARATOR] + p, t' + [SEPARATOR] + p';
    assert m[|t|] == SEPARATOR;
    assert m'[|t'|] == SEPARATOR;
    assert t' == m'[..|t'|] && t == m[..|t|];
    assert p' == m'[|t'| + 1..] && p == m[|t| + 1..];
  }

  lemma {:induction false} SplitAtSeparator(s: Bytes) returns (left: Bytes, right: Bytes)
    requires SEPARATOR in s
    ensures s == left + [SEPARATOR] + right
  {
    var i :| 0 <= i < |s| && s[i] == SEPARATOR;
    left, right := s[..i], s[i + 1..];
  }

  /** A different pair with the same message. */
  lemma Resplit(t: Bytes, p: Bytes) returns (t': Bytes, p': Bytes)
    requires SEPARATOR in t || SEPARATOR in p
    ensures t' + [SEPARATOR] + p' == t + [SEPARATOR] + p && t' != t
  {
    if SEPARATOR in t {
      var l, r := SplitAtSeparator(t);
      t', p' := l, r + [SEPARATOR] + p;
    } else {
      var l, r := SplitAtSeparator(p);
      t', p' := t + [SEPARATOR] + l, r;
    }
  }

  predicate SameEntry(r: AuditRow, s: AuditRow) {
    r.eventType == s.eventType && r.payload == s.payload && r.prevHash == s.prevHash && r.entryHash == s.entryHash
  }

  /** Same event type, payload and hashes in every position; the row numbers,
      which no hash covers, may differ. */
  predicate Agree(a: seq<AuditRow>, b: seq<AuditRow>) {
    |a| == |b| && forall k | 0 <= k < |a| :: SameEntry(a[k], b[k])
  }

  /** Entry k of one log and entry n of another are an explicit hash collision. */
  predicate CollideAt(hash: Hash, a: seq<AuditRow>, b: seq<AuditRow>, k: nat, n: nat)
    requires k < |a| && n < |b|
  {
    MessageAt(a, k) != MessageAt(b, n) && hash(MessageAt(a, k)) == hash(MessageAt(b, n))
  }

  lemma {:induction false} TipLength(hash: Hash, rows: seq<AuditRow>, k: nat)
    requires Digest(hash) && Accepted(hash, rows) && k <= |rows|
    ensures |TipBefore(rows, k)| == 64
  {
    if k > 0 {
      assert LinkHolds(hash, rows, k - 1);
    }
  }

  /** Equal messages of two accepted logs have equal parts once one of them is separator free. */
  lemma MessageDeterminesEntry(hash: Hash, a: seq<AuditRow>, b: seq<AuditRow>, k: nat, n: nat)
    requires Digest(hash) && Accepted(hash, a) && Accepted(hash, b)
    requires k < |a| && n < |b| && SeparatorFree(a[k])
    requires MessageAt(a, k) == MessageAt(b, n)
    ensures TipBefore(a, k) == TipBefore(b, n)
    ensures a[k].eventType == b[n].eventType && a[k].payload == b[n].payload
  {
    TipLength(hash, a, k);
    TipLength(hash, b, n);
    var m, m' := MessageAt(a, k), MessageAt(b, n);
    assert m[..64] == TipBefore(a, k) && m'[..64] == TipBefore(b, n);
    assert m[64..] == a[k].eventType + [SEPARATOR] + a[k].payload;
    assert m'[64..] == b[n].eventType + [SEPARATOR] + b[n].payload;
    SplitUnique(a[k].eventType, a[k].payload, b[n].eventType, b[n].payload);
  }

  /** From an equal hash after entry n, the first n entries agree or collide somewhere. */
  lemma {:induction false} BindingUpTo(hash: Hash, a: seq<AuditRow>, b: seq<AuditRow>, n: nat)
    requires Digest(hash) && Accepted(hash, a) && Accepted(hash, b) && |a| == |b|
    requires forall k | 0 <= k < |a| :: SeparatorFree(a[k])
    requires n <= |a| && TipBefore(a, n) == TipBefore(b, n)
    ensures (forall k | 0 <= k < n :: SameEntry(a[k], b[k]))
         || (exists k | 0 <= k < n :: CollideAt(hash, a, b, k, k))
  {
    if n > 0 {
      assert LinkHolds(hash, a, n - 1) && LinkHolds(hash, b, n - 1);
      if MessageAt(a, n - 1) != MessageAt(b, n - 1) {
        assert CollideAt(hash, a, b, n - 1, n - 1);
      } else {
        MessageDeterminesEntry(hash, a, b, n - 1, n - 1);
        BindingUpTo(hash, a, b, n - 1);
      }
    }
  }

  /** Chain binding by reduction: equally long accepted logs with the same last
      hash are the same log, or two of their entries are an explicit collision. */
  lemma ChainBinding(hash: Hash, a: seq<AuditRow>, b: seq<AuditRow>)
    requires Digest(hash) && Accepted(hash, a) && Accepted(hash, b)
    requires |a| == |b| && Tip(a) == Tip(b)
    requires forall k | 0 <= k < |a| :: SeparatorFree(a[k])
    ensures Agree(a, b) || exists k | 0 <= k < |a| :: CollideAt(hash, a, b, k, k)
  {
    BindingUpTo(hash, a, b, |a|);
  }

  /** The log a is pinned by its length and last hash, collisions aside. */
  ghost predicate Pinned(hash: Hash, a: seq<AuditRow>) {
    forall b: seq<AuditRow> | Accepted(hash, b) && |b| == |a| && Tip(b) == Tip(a) ::
      Agree(a, b) || exists k | 0 <= k < |a| :: CollideAt(hash, a, b, k, k)
  }

  /** The separator requirement is exact: one raw 0x1f anywhere in an accepted log
      and a different log passes the verifier with the same hashes throughout. */
  lemma PinnedIff(hash: Hash, a: seq<AuditRow>)
    requires Digest(hash) && Accepted(hash, a)
    ensures Pinned(hash, a) <==> forall k | 0 <= k < |a| :: SeparatorFree(a[k])
  {
    if k :| 0 <= k < |a| && !SeparatorFree(a[k]) {
      var t, p := Resplit(a[k].eventType, a[k].payload);
      var b := a[k := a[k].(eventType := t, payload := p)];
      var prev := TipBefore(a, k);
      assert Message(prev, t, p) == prev + (t + [SEPARATOR] + p);
      assert MessageAt(a, k) == prev + (a[k].eventType + [SEPARATOR] + a[k].payload);
      forall i | 0 <= i < |b|
        ensures LinkHolds(hash, b, i) && MessageAt(b, i) == MessageAt(a, i)
      {
        assert LinkHolds(hash, a, i);
        assert TipBefore(b, i) == TipBefore(a, i);
      }
      assert !Agree(a, b) by {
        assert !SameEntry(a[k], b[k]);
      }
      assert Tip(b) == Tip(a);
      assert !Pinned(hash, a);
    } else {
      forall b: seq<AuditRow> | Accepted(hash, b) && |b| == |a| && Tip(b) == Tip(a)
        ensures Agree(a, b) || exists k | 0 <= k < |a| :: CollideAt(hash, a, b, k, k)
      {
        ChainBinding(hash, a, b);
      }
    }
  }

  function Rewrite(rows: seq<AuditRow>, k: nat, eventType: Bytes, payload: Bytes): seq<AuditRow>
    requires k < |rows|
  {
    rows[k := rows[k].(eventType := eventType, payload := payload)]
  }

  /** Rewriting the event type or payload of entry k is reported at entry k, under
      that entry's number and as a wrong entry hash, unless old and new message are
      an explicit collision, and then it is not reported at all. */
  lemma RewriteIsReported(hash: Hash, rows: seq<AuditRow>, k: nat, eventType: Bytes, payload: Bytes)
    requires Digest(hash) && Accepted(hash, rows) && k < |rows| && SeparatorFree(rows[k])
    requires (eventType, payload) != (rows[k].eventType, rows[k].payload)
    ensures var rows' := Rewrite(rows, k, eventType, payload);
      && MessageAt(rows', k) != MessageAt(rows, k)
      && FirstBrokenIs(hash, rows', if CollideAt(hash, rows, rows', k, k) then |rows| else k)
      && Report(rows', |rows|) == Intact(|rows|)
      && Report(rows', k) == Broken(|rows|, rows[k].seqNo, ENTRY_HASH_MISMATCH)
  {
    var rows' := Rewrite(rows, k, eventType, payload);
    var prev := TipBefore(rows, k);
    if MessageAt(rows', k) == MessageAt(rows, k) {
      var m, m' := MessageAt(rows, k), MessageAt(rows', k);
      assert m[|prev|..] == rows[k].eventType + [SEPARATOR] + rows[k].payload;
      assert m'[|prev|..] == eventType + [SEPARATOR] + payload;
      SplitUnique(rows[k].eventType, rows[k].payload, eventType, payload);
    }
    assert LinkHolds(hash, rows, k);
    forall i | 0 <= i < |rows| && i != k
      ensures LinkHolds(hash, rows', i)
    {
      assert LinkHolds(hash, rows, i);
    }
  }
}
