/** The tamper-evident audit chain (core/audit_chain).  SHA-256 in hex is any function from
    strings to strings of 64 characters; entry ids and timestamps are inputs. */
module Audit {

  function Zeros(n: nat): (s: string)
    ensures |s| == n
  {
    seq(n, _ => '0')
  }

  const GENESIS := Zeros(64)

  type Digest = s: string | |s| == 64 witness GENESIS
  type Hash = string -> Digest

  datatype Entry = Entry(
    id: string,
    timestamp: int,
    eventType: string,
    payload: string,
    previousHash: string,
    currentHash: string)

  // ---- Specification -----------------------------------------------------------------

  function Digits(n: nat): string {
    if n < 10 then ["0123456789"[n]] else Digits(n / 10) + ["0123456789"[n % 10]]
  }

  function Decimal(n: int): string {
    if n < 0 then "-" + Digits(-n) else Digits(n)
  }

  /** The hashed text: the fields one after another, without separators. */
  function Preimage(e: Entry): string {
    e.id + Decimal(e.timestamp) + e.eventType + e.payload + e.previousHash
  }

  function Head(chain: seq<Entry>): string {
    if chain == [] then GENESIS else chain[|chain| - 1].currentHash
  }

  function Linked(h: Hash, id: string, timestamp: int, eventType: string, payload: string, previous: string): Entry {
    var draft := Entry(id, timestamp, eventType, payload, previous, "");
    draft.(currentHash := h(Preimage(draft)))
  }

  function Append(h: Hash, chain: seq<Entry>, id: string, timestamp: int, eventType: string, payload: string)
    : seq<Entry>
  {
    chain + [Linked(h, id, timestamp, eventType, payload, Head(chain))]
  }

  function Tamper(chain: seq<Entry>, index: nat, payload: string): seq<Entry> {
    if index < |chain| then chain[index := chain[index].(payload := payload)] else chain
  }

  /** Entry i rehashes to its stored hash and links to the entry before it, or to genesis. */
  predicate EntryOk(h: Hash, chain: seq<Entry>, i: nat)
    requires i < |chain|
  {
    && chain[i].currentHash == h(Preimage(chain[i]))
    && chain[i].previousHash == Head(chain[..i])
  }

  ghost predicate Accepted(h: Hash, chain: seq<Entry>) {
    forall i :: 0 <= i < |chain| ==> EntryOk(h, chain, i)
  }

  ghost predicate OkBefore(h: Hash, chain: seq<Entry>, n: nat)
    requires n <= |chain|
  {
    forall j :: 0 <= j < n ==> EntryOk(h, chain, j)
  }

  ghost predicate LeastBad(h: Hash, chain: seq<Entry>, i: nat) {
    && i < |chain|
    && !EntryOk(h, chain, i)
    && OkBefore(h, chain, i)
  }

  // ---- The head binds the history ----------------------------------------------------

  /** The hash has no collision among the entries of the two chains, and does not reach the
      genesis value there. */
  ghost predicate CollisionFree(h: Hash, a: seq<Entry>, b: seq<Entry>) {
    && (forall i, j :: 0 <= i < |a| && 0 <= j < |b| && h(Preimage(a[i])) == h(Preimage(b[j])) ==>
                         Preimage(a[i]) == Preimage(b[j]))
    && (forall i :: 0 <= i < |a| ==> h(Preimage(a[i])) != GENESIS)
    && (forall j :: 0 <= j < |b| ==> h(Preimage(b[j])) != GENESIS)
  }

  ghost predicate SameHistory(a: seq<Entry>, b: seq<Entry>) {
    && |a| == |b|
    && forall i :: 0 <= i < |a| ==>
                     a[i].currentHash == b[i].currentHash && Preimage(a[i]) == Preimage(b[i])
  }

  /** Entry i rehashes, and carries the stored hash of the entry before it or, in first place, 64
      zeros. */
  ghost predicate Sealed(h: Hash, chain: seq<Entry>, i: nat)
    requires i < |chain|
  {
    && chain[i].currentHash == h(Preimage(chain[i]))
    && (i == 0 ==> |chain[0].previousHash| == 64 && forall k :: 0 <= k < 64 ==> chain[0].previousHash[k] == '0')
    && (i > 0 ==> chain[i].previousHash == chain[i - 1].currentHash)
  }

  lemma OkIffSealed(h: Hash, chain: seq<Entry>, i: nat)
    requires i < |chain|
    ensures EntryOk(h, chain, i) <==> Sealed(h, chain, i)
  {
    if i > 0 {
      assert chain[..i][i - 1] == chain[i - 1];
    }
  }

  lemma AcceptedIffSealed(h: Hash, chain: seq<Entry>)
    ensures Accepted(h, chain) <==> forall i: nat :: i < |chain| ==> Sealed(h, chain, i)
  {
    forall i: nat | i < |chain| ensures EntryOk(h, chain, i) <==> Sealed(h, chain, i) {
      OkIffSealed(h, chain, i);
    }
  }

  lemma PrefixAccepted(h: Hash, chain: seq<Entry>, n: nat)
    requires Accepted(h, chain) && n <= |chain|
    ensures Accepted(h, chain[..n])
  {
    forall i | 0 <= i < n ensures EntryOk(h, chain[..n], i) {
      assert EntryOk(h, chain, i);
      assert chain[..n][..i] == chain[..i];
    }
  }

  lemma HeadLength(h: Hash, chain: seq<Entry>)
    requires Accepted(h, chain)
    ensures |Head(chain)| == 64
  {
    if chain != [] {
      assert EntryOk(h, chain, |chain| - 1);
    }
  }

  /** Equal pre-images whose previous hashes have equal length have equal previous hashes. */
  lemma PreimageSuffix(e: Entry, f: Entry)
    requires Preimage(e) == Preimage(f) && |e.previousHash| == |f.previousHash|
    ensures e.previousHash == f.previousHash
  {
    var p := Preimage(e);
    assert p[|p| - |e.previousHash|..] == e.previousHash;
    assert p[|p| - |f.previousHash|..] == f.previousHash;
  }

  /** Accepted chains with the same head agree on their last entry and on the head below it. */
  lemma SameHeadStep(h: Hash, a: seq<Entry>, b: seq<Entry>)
    requires Accepted(h, a) && Accepted(h, b) && CollisionFree(h, a, b)
    requires Head(a) == Head(b)
    ensures a == [] <==> b == []
    ensures a != [] ==> && Preimage(a[|a| - 1]) == Preimage(b[|b| - 1])
                        && a[|a| - 1].currentHash == b[|b| - 1].currentHash
                        && Head(a[..|a| - 1]) == Head(b[..|b| - 1])
  {
    if a != [] {
      assert EntryOk(h, a, |a| - 1);
    }
    if b != [] {
      assert EntryOk(h, b, |b| - 1);
    }
    if a != [] && b != [] {
      PrefixAccepted(h, a, |a| - 1);
      PrefixAccepted(h, b, |b| - 1);
      HeadLength(h, a[..|a| - 1]);
      HeadLength(h, b[..|b| - 1]);
      PreimageSuffix(a[|a| - 1], b[|b| - 1]);
    }
  }

  lemma PrefixCollisionFree(h: Hash, a: seq<Entry>, b: seq<Entry>)
    requires a != [] && b != [] && CollisionFree(h, a, b)
    ensures CollisionFree(h, a[..|a| - 1], b[..|b| - 1])
  {
  }

  lemma PeelLast(h: Hash, a: seq<Entry>, b: seq<Entry>)
    requires a != [] && b != []
    requires Accepted(h, a) && Accepted(h, b) && CollisionFree(h, a, b)
    ensures Accepted(h, a[..|a| - 1]) && Accepted(h, b[..|b| - 1])
    ensures CollisionFree(h, a[..|a| - 1], b[..|b| - 1])
  {
    PrefixAccepted(h, a, |a| - 1);
    PrefixAccepted(h, b, |b| - 1);
    PrefixCollisionFree(h, a, b);
  }

  lemma SameHistoryExtends(a: seq<Entry>, b: seq<Entry>)
    requires a != [] && b != []
    requires SameHistory(a[..|a| - 1], b[..|b| - 1])
    requires Preimage(a[|a| - 1]) == Preimage(b[|b| - 1])
    requires a[|a| - 1].currentHash == b[|b| - 1].currentHash
    ensures SameHistory(a, b)
  {
    forall i | 0 <= i < |a|
      ensures a[i].currentHash == b[i].currentHash && Preimage(a[i]) == Preimage(b[i])
    {
      if i < |a| - 1 {
        assert a[..|a| - 1][i] == a[i] && b[..|b| - 1][i] == b[i];
      }
    }
  }

  lemma {:induction false} SameHeadSameHistory(h: Hash, a: seq<Entry>, b: seq<Entry>)
    requires Accepted(h, a) && Accepted(h, b) && CollisionFree(h, a, b)
    requires Head(a) == Head(b)
    ensures SameHistory(a, b)
  {
    SameHeadStep(h, a, b);
    if a != [] {
      PeelLast(h, a, b);
      SameHeadSameHistory(h, a[..|a| - 1], b[..|b| - 1]);
      SameHistoryExtends(a, b);
    }
  }

  /** Two accepted chains have the same head hash exactly when they have the same length, the
      same stored hash at every index and the same hashed text at every index. */
  lemma HeadBindsHistory(h: Hash, a: seq<Entry>, b: seq<Entry>)
    requires Accepted(h, a) && Accepted(h, b) && CollisionFree(h, a, b)
    ensures Head(a) == Head(b) <==> SameHistory(a, b)
  {
    if Head(a) == Head(b) {
      SameHeadSameHistory(h, a, b);
    }
  }

  /** The head does not bind the individual fields: without separators, text may move from
      the payload to the event type.  Both chains are accepted, under any hash. */
  lemma FieldsAreNotBound(h: Hash, id: string, timestamp: int, eventType: string, moved: string, payload: string)
    requires moved != ""
    ensures var a := Append(h, [], id, timestamp, eventType, moved + payload);
            var b := Append(h, [], id, timestamp, eventType + moved, payload);
            Accepted(h, a) && Accepted(h, b) && Head(a) == Head(b) && a[0].eventType != b[0].eventType
  {
    AppendAccepted(h, [], id, timestamp, eventType, moved + payload);
    AppendAccepted(h, [], id, timestamp, eventType + moved, payload);
    var front := id + Decimal(timestamp);
    assert front + eventType + (moved + payload) + GENESIS == front + (eventType + moved) + payload + GENESIS;
    assert |eventType| != |eventType + moved|;
  }

  // ---- Runs with tampering -----------------------------------------------------------

  lemma AppendAccepted(h: Hash, chain: seq<Entry>, id: string, timestamp: int, eventType: string, payload: string)
    requires Accepted(h, chain)
    ensures Accepted(h, Append(h, chain, id, timestamp, eventType, payload))
  {
    var longer := Append(h, chain, id, timestamp, eventType, payload);
    forall i | 0 <= i < |longer| ensures EntryOk(h, longer, i) {
      if i < |chain| {
        assert EntryOk(h, chain, i);
        assert longer[..i] == chain[..i];
      } else {
        assert longer[..i] == chain;
      }
    }
  }

  /** A hashed field with a new value. */
  datatype Field =
    | Id(id: string)
    | Timestamp(timestamp: int)
    | EventType(eventType: string)
    | Payload(payload: string)
    | PreviousHash(previousHash: string)

  function Edited(e: Entry, f: Field): Entry {
    match f
    case Id(id) => e.(id := id)
    case Timestamp(timestamp) => e.(timestamp := timestamp)
    case EventType(eventType) => e.(eventType := eventType)
    case Payload(payload) => e.(payload := payload)
    case PreviousHash(previousHash) => e.(previousHash := previousHash)
  }

  /** Overwrite is tamper_entry_for_testing; Edit changes one hashed field of one entry in memory. */
  datatype Op =
    | Add(id: string, timestamp: int, eventType: string, payload: string)
    | Overwrite(index: nat, newPayload: string)
    | Edit(index: nat, field: Field)

  function Apply(h: Hash, chain: seq<Entry>, op: Op): seq<Entry> {
    match op
    case Add(id, timestamp, eventType, payload) => Append(h, chain, id, timestamp, eventType, payload)
    case Overwrite(index, newPayload) => Tamper(chain, index, newPayload)
    case Edit(index, field) => if index < |chain| then chain[index := Edited(chain[index], field)] else chain
  }

  function Run(h: Hash, ops: seq<Op>): seq<Entry> {
    if ops == [] then [] else Apply(h, Run(h, ops[..|ops| - 1]), ops[|ops| - 1])
  }

  /** The chain the same run builds when nobody overwrites or edits anything. */
  function Honest(h: Hash, ops: seq<Op>): seq<Entry> {
    if ops == [] then []
    else
      var before := Honest(h, ops[..|ops| - 1]);
      var op := ops[|ops| - 1];
      if op.Add? then Apply(h, before, op) else before
  }

  lemma {:induction false} HonestAccepted(h: Hash, ops: seq<Op>)
    ensures Accepted(h, Honest(h, ops))
  {
    if ops != [] {
      HonestAccepted(h, ops[..|ops| - 1]);
      var op := ops[|ops| - 1];
      if op.Add? {
        AppendAccepted(h, Honest(h, ops[..|ops| - 1]), op.id, op.timestamp, op.eventType, op.payload);
      }
    }
  }

  /** The entries differ in at most one field, and not in the stored hash. */
  ghost predicate OneField(e: Entry, e': Entry) {
    exists f :: e' == Edited(e, f)
  }

  ghost predicate HashesKept(run: seq<Entry>, honest: seq<Entry>) {
    |run| == |honest| && forall i :: 0 <= i < |run| ==> run[i].currentHash == honest[i].currentHash
  }

  lemma HashesKeptStep(h: Hash, run: seq<Entry>, honest: seq<Entry>, op: Op)
    requires HashesKept(run, honest) && (op.Add? ==> Head(run) == Head(honest))
    ensures HashesKept(Apply(h, run, op), if op.Add? then Apply(h, honest, op) else honest)
  {
  }

  /** Whatever is overwritten or edited, stored hashes stay what they were, also in entries added
      later. */
  lemma {:induction false} StoredHashesKept(h: Hash, ops: seq<Op>)
    ensures HashesKept(Run(h, ops), Honest(h, ops))
  {
    if ops != [] {
      StoredHashesKept(h, ops[..|ops| - 1]);
      HashesKeptStep(h, Run(h, ops[..|ops| - 1]), Honest(h, ops[..|ops| - 1]), ops[|ops| - 1]);
    }
  }

  ghost predicate PayloadsOnly(run: seq<Entry>, honest: seq<Entry>) {
    && |run| == |honest|
    && forall i :: 0 <= i < |run| ==> run[i] == honest[i].(payload := run[i].payload)
  }

  lemma PayloadsOnlyStep(h: Hash, run: seq<Entry>, honest: seq<Entry>, op: Op)
    requires PayloadsOnly(run, honest) && !op.Edit?
    ensures PayloadsOnly(Apply(h, run, op), if op.Add? then Apply(h, honest, op) else honest)
  {
    assert Head(run) == Head(honest);
  }

  /** tamper_entry_for_testing changes payloads and nothing else, also for entries added later: so
      after it every entry differs from its honest one in at most one field. */
  lemma {:induction false} OnlyPayloadsDiffer(h: Hash, ops: seq<Op>)
    requires forall i :: 0 <= i < |ops| ==> !ops[i].Edit?
    ensures PayloadsOnly(Run(h, ops), Honest(h, ops))
    ensures forall i :: 0 <= i < |Run(h, ops)| ==> OneField(Honest(h, ops)[i], Run(h, ops)[i])
  {
    if ops != [] {
      OnlyPayloadsDiffer(h, ops[..|ops| - 1]);
      PayloadsOnlyStep(h, Run(h, ops[..|ops| - 1]), Honest(h, ops[..|ops| - 1]), ops[|ops| - 1]);
    }
    PayloadsAreOneField(Run(h, ops), Honest(h, ops));
  }

  lemma PayloadsAreOneField(run: seq<Entry>, honest: seq<Entry>)
    requires PayloadsOnly(run, honest)
    ensures forall i :: 0 <= i < |run| ==> OneField(honest[i], run[i])
  {
    forall i | 0 <= i < |run| ensures OneField(honest[i], run[i]) {
      assert run[i] == Edited(honest[i], Payload(run[i].payload));
    }
  }

  // ---- What is hashed ----------------------------------------------------------------

  /** The number a string of digits stands for, and with a sign in front. */
  function NumberOf(s: string): int {
    if s == "" then 0 else 10 * NumberOf(s[..|s| - 1]) + (s[|s| - 1] as int - '0' as int)
  }

  function IntegerOf(s: string): int {
    if s != "" && s[0] == '-' then -NumberOf(s[1..]) else NumberOf(s)
  }

  lemma DigitValue(d: nat)
    requires d < 10
    ensures "0123456789"[d] as int - '0' as int == d && '0' <= "0123456789"[d] <= '9'
  {
  }

  lemma DigitAppended(s: string, d: char)
    requires s != ""
    ensures (s + [d])[..|s|] == s && (s + [d])[|s|] == d && (s + [d])[0] == s[0]
  {
  }

  lemma {:induction false} DigitsRead(n: nat)
    ensures var s := Digits(n);
            && s != "" && (forall i :: 0 <= i < |s| ==> '0' <= s[i] <= '9')
            && (n > 0 ==> s[0] != '0')
            && NumberOf(s) == n
  {
    var q, r := n / 10, n % 10;
    DigitValue(r);
    if n >= 10 {
      DigitsRead(q);
      DigitAppended(Digits(q), "0123456789"[r]);
      assert n == 10 * q + r;
    } else {
      assert Digits(n)[..0] == "";
    }
  }

  lemma SignedRead(s: string)
    ensures IntegerOf("-" + s) == -NumberOf(s)
  {
    assert ("-" + s)[1..] == s;
  }

  lemma UnsignedRead(s: string)
    requires s != "" && '0' <= s[0]
    ensures IntegerOf(s) == NumberOf(s)
  {
  }

  /** A timestamp is hashed as its decimal digits, without leading zeros, after a minus sign if it is
      negative: so two timestamps are hashed alike only if they are equal. */
  lemma DecimalRead(n: int)
    ensures IntegerOf(Decimal(n)) == n
    ensures Decimal(n) != "" && (n != 0 ==> Decimal(n)[0] != '0') && (Decimal(n)[0] == '-' <==> n < 0)
  {
    var s := Digits(if n < 0 then -n else n);
    DigitsRead(if n < 0 then -n else n);
    if n < 0 {
      SignedRead(s);
    } else {
      UnsignedRead(s);
    }
  }

  lemma Between(front: string, x: string, y: string, back: string)
    ensures front + x + back == front + y + back <==> x == y
  {
    var p, q := front + x + back, front + y + back;
    if p == q {
      assert |p| == |front| + |x| + |back| && |q| == |front| + |y| + |back|;
      assert x == p[|front|..|p| - |back|] && y == q[|front|..|q| - |back|];
    }
  }

  /** A change of any one hashed field, the others left alone, changes the hashed text. */
  lemma FieldInPreimage(e: Entry, f: Field)
    ensures Preimage(Edited(e, f)) == Preimage(e) <==> Edited(e, f) == e
  {
    var e' := Edited(e, f);
    var time, time' := Decimal(e.timestamp), Decimal(e'.timestamp);
    match f
    case Id(id) => Between("", e.id, id, time + e.eventType + e.payload + e.previousHash);
      InFive(e.id, time, e.eventType, e.payload, e.previousHash);
      InFive(id, time, e.eventType, e.payload, e.previousHash);
    case Timestamp(timestamp) =>
      DecimalRead(e.timestamp);
      DecimalRead(timestamp);
      Between(e.id, time, time', e.eventType + e.payload + e.previousHash);
      InFive(e.id, time, e.eventType, e.payload, e.previousHash);
      InFive(e.id, time', e.eventType, e.payload, e.previousHash);
    case EventType(eventType) =>
      Between(e.id + time, e.eventType, eventType, e.payload + e.previousHash);
      InFive(e.id, time, e.eventType, e.payload, e.previousHash);
      InFive(e.id, time, eventType, e.payload, e.previousHash);
    case Payload(payload) => Between(e.id + time + e.eventType, e.payload, payload, e.previousHash);
    case PreviousHash(previous) => Between(e.id + time + e.eventType + e.payload, e.previousHash, previous, "");
      InFive(e.id, time, e.eventType, e.payload, e.previousHash);
      InFive(e.id, time, e.eventType, e.payload, previous);
  }

  /** The hashed text is the id, the timestamp, the event type, the payload and the previous hash, in
      this order and with nothing in between. */
  lemma HashedInOrder(e: Entry, at: nat)
    requires at == |e.id| + |Decimal(e.timestamp)|
    ensures var p := Preimage(e);
            && |p| == at + |e.eventType| + |e.payload| + |e.previousHash|
            && p[..|e.id|] == e.id && p[|e.id|..at] == Decimal(e.timestamp)
            && p[at..at + |e.eventType|] == e.eventType
            && p[at + |e.eventType|..][..|e.payload|] == e.payload
            && p[at + |e.eventType| + |e.payload|..] == e.previousHash
  {
    InFive(e.id, Decimal(e.timestamp), e.eventType, e.payload, e.previousHash);
    assert Preimage(e)[at + |e.eventType|..] == e.payload + e.previousHash;
  }

  /** Five pieces put together, and each of them between what is before and after it. */
  lemma InFive(a: string, b: string, c: string, d: string, e: string)
    ensures a + b + c + d + e == "" + a + (b + c + d + e)
    ensures a + b + c + d + e == a + b + (c + d + e)
    ensures a + b + c + d + e == (a + b) + c + (d + e)
    ensures a + b + c + d + e == (a + b + c + d) + e + ""
  {
  }

  // ---- Tampering is located ----------------------------------------------------------

  /** The hash tells every altered entry from the entry as it was added. */
  ghost predicate Distinguishes(h: Hash, run: seq<Entry>, honest: seq<Entry>) {
    forall i :: 0 <= i < |run| && i < |honest| && h(Preimage(run[i])) == h(Preimage(honest[i])) ==>
                  Preimage(run[i]) == Preimage(honest[i])
  }

  lemma SameHeads(run: seq<Entry>, honest: seq<Entry>, i: nat)
    requires HashesKept(run, honest) && i <= |run|
    ensures Head(run[..i]) == Head(honest[..i])
  {
    if i > 0 {
      assert run[..i][i - 1] == run[i - 1] && honest[..i][i - 1] == honest[i - 1];
    }
  }

  /** What verification can see of an entry: its link and the hashed text as a whole. */
  predicate LooksSame(a: Entry, b: Entry) {
    a.previousHash == b.previousHash && Preimage(a) == Preimage(b)
  }

  lemma SeenEntry(h: Hash, run: seq<Entry>, honest: seq<Entry>, i: nat)
    requires HashesKept(run, honest) && Distinguishes(h, run, honest)
    requires i < |run| && EntryOk(h, honest, i)
    ensures EntryOk(h, run, i) <==> LooksSame(run[i], honest[i])
  {
    SameHeads(run, honest, i);
  }

  /** After any run whatever, with any number of fields edited, exactly the entries whose link or hashed
      text is not the original one are bad, and the chain is accepted exactly when there are none. */
  lemma EditsSeen(h: Hash, ops: seq<Op>)
    requires Distinguishes(h, Run(h, ops), Honest(h, ops))
    ensures var run, honest := Run(h, ops), Honest(h, ops);
            && |run| == |honest|
            && (forall i: nat :: i < |run| ==> (EntryOk(h, run, i) <==> LooksSame(run[i], honest[i])))
            && (Accepted(h, run) <==> forall i: nat :: i < |run| ==> LooksSame(run[i], honest[i]))
  {
    var run, honest := Run(h, ops), Honest(h, ops);
    StoredHashesKept(h, ops);
    HonestAccepted(h, ops);
    forall i: nat | i < |run| ensures EntryOk(h, run, i) <==> LooksSame(run[i], honest[i]) {
      SeenEntry(h, run, honest, i);
    }
  }

  lemma AlteredEntry(h: Hash, run: seq<Entry>, honest: seq<Entry>, i: nat)
    requires HashesKept(run, honest) && Distinguishes(h, run, honest)
    requires i < |run| && OneField(honest[i], run[i]) && EntryOk(h, honest, i)
    ensures EntryOk(h, run, i) <==> run[i] == honest[i]
  {
    SameHeads(run, honest, i);
    var f :| run[i] == Edited(honest[i], f);
    FieldInPreimage(honest[i], f);
  }

  lemma LeastAltered(h: Hash, run: seq<Entry>, honest: seq<Entry>, i: nat)
    requires HashesKept(run, honest) && Distinguishes(h, run, honest) && Accepted(h, honest)
    requires forall j :: 0 <= j < |run| ==> OneField(honest[j], run[j])
    ensures Accepted(h, run) <==> run == honest
    ensures LeastBad(h, run, i) <==> i < |run| && run[i] != honest[i] && run[..i] == honest[..i]
  {
    forall j | 0 <= j < |run| ensures EntryOk(h, run, j) <==> run[j] == honest[j] {
      AlteredEntry(h, run, honest, j);
    }
    if i < |run| && run[..i] == honest[..i] {
      forall j | 0 <= j < i ensures run[j] == honest[j] {
        assert run[..i][j] == honest[..i][j];
      }
    }
  }

  /** After any run of additions, overwrites and edits, an entry that differs from the one that was
      added in at most one field, whichever it is, is bad exactly when it does differ: so restoring a
      field repairs it, and nothing added afterwards hides a change. */
  lemma TamperingLocated(h: Hash, ops: seq<Op>, i: nat)
    requires Distinguishes(h, Run(h, ops), Honest(h, ops))
    requires i < |Run(h, ops)| && i < |Honest(h, ops)| && OneField(Honest(h, ops)[i], Run(h, ops)[i])
    ensures |Run(h, ops)| == |Honest(h, ops)|
    ensures EntryOk(h, Run(h, ops), i) <==> Run(h, ops)[i] == Honest(h, ops)[i]
  {
    StoredHashesKept(h, ops);
    HonestAccepted(h, ops);
    AlteredEntry(h, Run(h, ops), Honest(h, ops), i);
  }

  /** verify_chain's report if no entry was changed in two fields: the least index whose entry was
      changed. */
  lemma LeastTamperedReported(h: Hash, ops: seq<Op>, i: nat)
    requires Distinguishes(h, Run(h, ops), Honest(h, ops))
    requires forall j :: 0 <= j < |Run(h, ops)| && j < |Honest(h, ops)| ==>
                           OneField(Honest(h, ops)[j], Run(h, ops)[j])
    ensures Accepted(h, Run(h, ops)) <==> Run(h, ops) == Honest(h, ops)
    ensures LeastBad(h, Run(h, ops), i) <==>
              && i < |Run(h, ops)| == |Honest(h, ops)|
              && Run(h, ops)[i] != Honest(h, ops)[i]
              && Run(h, ops)[..i] == Honest(h, ops)[..i]
  {
    StoredHashesKept(h, ops);
    HonestAccepted(h, ops);
    LeastAltered(h, Run(h, ops), Honest(h, ops), i);
  }

  // ---- Implementation ----------------------------------------------------------------

  datatype Finding = Passed | Empty | GenesisLink | HashMismatch | LinkBroken

  datatype VerificationResult = VerificationResult(
    isValid: bool,
    finding: Finding,
    tamperedEntryIndex: int,
    expectedHash: string,
    actualHash: string)

  /** What is reported about a bad entry: the first of its faults in the order they are looked
      for, with the value that was called for and the value found. */
  function Report(h: Hash, chain: seq<Entry>, i: nat): VerificationResult
    requires i < |chain|
  {
    var e, head := chain[i], Head(chain[..i]);
    if i == 0 && e.previousHash != GENESIS then VerificationResult(false, GenesisLink, i, head, e.previousHash)
    else if e.currentHash != h(Preimage(e)) then
      VerificationResult(false, HashMismatch, i, h(Preimage(e)), e.currentHash)
    else VerificationResult(false, LinkBroken, i, head, e.previousHash)
  }

  /** What a report on entry i says: a first entry that does not begin from genesis comes first, then a
      hash that does not match the texts, and what is left is a broken link. */
  lemma ReportSays(h: Hash, chain: seq<Entry>, i: nat)
    requires i < |chain|
    ensures var r := Report(h, chain, i);
            && !r.isValid && r.tamperedEntryIndex == i
            && (r.finding == GenesisLink <==> i == 0 && chain[0].previousHash != GENESIS)
            && (r.finding == HashMismatch <==>
                  (i > 0 || chain[0].previousHash == GENESIS) && chain[i].currentHash != h(Preimage(chain[i])))
            && (r.finding == HashMismatch ==>
                  r.expectedHash == h(Preimage(chain[i])) && r.actualHash == chain[i].currentHash)
            && (r.finding != HashMismatch ==>
                  && r.finding in {GenesisLink, LinkBroken} && r.actualHash == chain[i].previousHash
                  && r.expectedHash == if i == 0 then GENESIS else chain[i - 1].currentHash)
  {
  }

  /** A report names two different values exactly when the entry is bad. */
  lemma ReportBad(h: Hash, chain: seq<Entry>, i: nat)
    requires i < |chain|
    ensures Report(h, chain, i).expectedHash != Report(h, chain, i).actualHash <==> !EntryOk(h, chain, i)
    ensures !EntryOk(h, chain, i) ==> !Accepted(h, chain)
  {
  }

  class AuditChain {
    const h: Hash
    var chain: seq<Entry>

    constructor (h: Hash)
      ensures this.h == h && chain == []
    {
      this.h := h;
      chain := [];
    }

    method AddEntry(id: string, timestamp: int, eventType: string, payload: string) returns (entryId: string)
      modifies this
      ensures chain == Append(h, old(chain), id, timestamp, eventType, payload)
      ensures entryId == id
      ensures |chain| == |old(chain)| + 1 && old(chain) < chain
      ensures var last := chain[|chain| - 1];
              && last == Entry(id, timestamp, eventType, payload, last.previousHash, h(Preimage(last)))
              && last.previousHash == if old(chain) == [] then GENESIS else old(chain)[|old(chain)| - 1].currentHash
      ensures old(Accepted(h, chain)) ==> Accepted(h, chain)
    {
      var entry := Entry(id, timestamp, eventType, payload, "", "");
      if |chain| == 0 {
        entry := entry.(previousHash := GENESIS);
      } else {
        entry := entry.(previousHash := chain[|chain| - 1].currentHash);
      }
      entry := entry.(currentHash := h(Preimage(entry)));
      if Accepted(h, chain) {
        AppendAccepted(h, chain, id, timestamp, eventType, payload);
      }
      chain := chain + [entry];
      return entry.id;
    }

    /** Accepts exactly the chains in which every entry rehashes and links back to genesis;
        otherwise names the least bad entry, with the mismatching values. */
    method VerifyChain() returns (r: VerificationResult)
      ensures r.isValid <==> Accepted(h, chain)
      ensures r.isValid ==> r.tamperedEntryIndex == -1 && r.finding == if chain == [] then Empty else Passed
      ensures !r.isValid ==>
                && r.tamperedEntryIndex >= 0
                && LeastBad(h, chain, r.tamperedEntryIndex)
                && r == Report(h, chain, r.tamperedEntryIndex)
                && r.expectedHash != r.actualHash
    {
      if |chain| == 0 {
        return VerificationResult(true, Empty, -1, "", "");
      }
      if chain[0].previousHash != GENESIS {
        ReportBad(h, chain, 0);
        return VerificationResult(false, GenesisLink, 0, GENESIS, chain[0].previousHash);
      }
      var i := 0;
      while i < |chain|
        invariant i <= |chain| && OkBefore(h, chain, i)
      {
        var entry := chain[i];
        var calculated := h(Preimage(entry));
        if entry.currentHash != calculated {
          ReportBad(h, chain, i);
          return VerificationResult(false, HashMismatch, i, calculated, entry.currentHash);
        }
        if i > 0 {
          var previous := chain[i - 1];
          assert Head(chain[..i]) == previous.currentHash;
          if entry.previousHash != previous.currentHash {
            ReportBad(h, chain, i);
            return VerificationResult(false, LinkBroken, i, previous.currentHash, entry.previousHash);
          }
        }
        assert EntryOk(h, chain, i);
        i := i + 1;
      }
      return VerificationResult(true, Passed, -1, "", "");
    }

    method GetChainHeadHash() returns (head: string)
      ensures head == if chain == [] then Zeros(64) else chain[|chain| - 1].currentHash
    {
      if |chain| == 0 {
        return GENESIS;
      }
      return chain[|chain| - 1].currentHash;
    }

    method TamperEntryForTesting(index: nat, newPayload: string) returns (ok: bool)
      modifies this
      ensures chain == Tamper(old(chain), index, newPayload)
      ensures ok <==> index < |old(chain)|
      ensures |chain| == |old(chain)| && forall i :: 0 <= i < |chain| ==>
                chain[i] == if i == index then old(chain)[i].(payload := newPayload) else old(chain)[i]
    {
      if index >= |chain| {
        return false;
      }
      chain := chain[index := chain[index].(payload := newPayload)];
      return true;
    }
  }
}
