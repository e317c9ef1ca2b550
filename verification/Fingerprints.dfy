/** Ledger fingerprints: a digest of one ledger's events in canonical order, recorded at first sight. */
module Fingerprints {
  import opened Events

  // ── The canonical order ──

  /** `str` comparison. */
  predicate StringLess(a: string, b: string) {
    if a == [] then b != []
    else b != [] && (a[0] < b[0] || (a[0] == b[0] && StringLess(a[1..], b[1..])))
  }

  predicate KeyLess(a: EventKey, b: EventKey) {
    StringLess(a.txHash, b.txHash) || (a.txHash == b.txHash && a.eventIndex < b.eventIndex)
  }

  lemma {:induction false} StringTotal(a: string, b: string)
    ensures a == b || StringLess(a, b) || StringLess(b, a)
    ensures !(StringLess(a, b) && StringLess(b, a)) && !StringLess(a, a)
  {
    if a != [] && b != [] {
      StringTotal(a[1..], b[1..]);
      assert a == [a[0]] + a[1..] && b == [b[0]] + b[1..];
    }
    if a != [] {
      StringTotal(a[1..], a[1..]);
    }
  }

  lemma {:induction false} StringTransitive(a: string, b: string, c: string)
    requires StringLess(a, b) && StringLess(b, c)
    ensures StringLess(a, c)
  {
    if a != [] && a[0] == b[0] && b[0] == c[0] {
      StringTransitive(a[1..], b[1..], c[1..]);
    }
  }

  lemma KeyTotal(a: EventKey, b: EventKey)
    ensures a == b || KeyLess(a, b) || KeyLess(b, a)
    ensures !(KeyLess(a, b) && KeyLess(b, a)) && !KeyLess(a, a)
  {
    StringTotal(a.txHash, b.txHash);
    StringTotal(a.txHash, a.txHash);
  }

  lemma KeyTransitive(a: EventKey, b: EventKey, c: EventKey)
    requires KeyLess(a, b) && KeyLess(b, c)
    ensures KeyLess(a, c)
  {
    if StringLess(a.txHash, b.txHash) && StringLess(b.txHash, c.txHash) {
      StringTransitive(a.txHash, b.txHash, c.txHash);
    }
  }

  // ── Sorting ──

  /** The events that satisfy `keep`, in order. */
  function Select(events: seq<RawEvent>, keep: RawEvent -> bool): seq<RawEvent> {
    if events == [] then []
    else Select(events[..|events| - 1], keep) +
         (if keep(events[|events| - 1]) then [events[|events| - 1]] else [])
  }

  function InLedger(ledger: nat, events: seq<RawEvent>): seq<RawEvent> {
    Select(events, OfLedger(ledger))
  }

  function OfLedger(ledger: nat): RawEvent -> bool {
    (e: RawEvent) => e.ledger == ledger
  }

  /** Insert after every event whose key is not greater: a stable insertion. */
  function Insert(sorted: seq<RawEvent>, e: RawEvent): seq<RawEvent> {
    if sorted == [] || !KeyLess(KeyOf(e), KeyOf(sorted[|sorted| - 1])) then sorted + [e]
    else Insert(sorted[..|sorted| - 1], e) + [sorted[|sorted| - 1]]
  }

  /** The stable `sort_by` on keys. */
  function Sort(events: seq<RawEvent>): seq<RawEvent> {
    if events == [] then []
    else Insert(Sort(events[..|events| - 1]), events[|events| - 1])
  }

  /** One ledger's events in canonical order. */
  function Canonical(ledger: nat, events: seq<RawEvent>): seq<RawEvent> {
    Sort(InLedger(ledger, events))
  }

  ghost predicate SortedByKey(events: seq<RawEvent>) {
    forall i, j :: 0 <= i < j < |events| ==> !KeyLess(KeyOf(events[j]), KeyOf(events[i]))
  }

  lemma {:induction false} InsertSorts(sorted: seq<RawEvent>, e: RawEvent)
    requires SortedByKey(sorted)
    ensures SortedByKey(Insert(sorted, e))
    ensures multiset(Insert(sorted, e)) == multiset(sorted) + multiset{e}
  {
    if sorted == [] {
    } else if !KeyLess(KeyOf(e), KeyOf(sorted[|sorted| - 1])) {
      var last := sorted[|sorted| - 1];
      forall i | 0 <= i < |sorted| ensures !KeyLess(KeyOf(e), KeyOf(sorted[i])) {
        NotLessTransitive(KeyOf(e), KeyOf(last), KeyOf(sorted[i]));
      }
    } else {
      var front, last := sorted[..|sorted| - 1], sorted[|sorted| - 1];
      InsertSorts(front, e);
      assert sorted == front + [last];
      var r := Insert(front, e);
      KeyTotal(KeyOf(e), KeyOf(last));
      forall i | 0 <= i < |r| ensures !KeyLess(KeyOf(last), KeyOf(r[i])) {
        assert r[i] in multiset(r);
        assert r[i] in front || r[i] == e;
      }
    }
  }

  /** The order is total, so "not less" composes. */
  lemma NotLessTransitive(a: EventKey, b: EventKey, c: EventKey)
    requires !KeyLess(a, b) && (b == c || !KeyLess(b, c))
    ensures !KeyLess(a, c)
  {
    KeyTotal(a, b);
    KeyTotal(b, c);
    if KeyLess(a, c) && b != c {
      KeyTransitive(a, c, b);
    }
  }

  lemma {:induction false} SortSorts(events: seq<RawEvent>)
    ensures SortedByKey(Sort(events))
    ensures multiset(Sort(events)) == multiset(events)
  {
    if events != [] {
      SortSorts(events[..|events| - 1]);
      InsertSorts(Sort(events[..|events| - 1]), events[|events| - 1]);
      assert events == events[..|events| - 1] + [events[|events| - 1]];
    }
  }

  // ── Fingerprints ──

  /** One round of the digest; only that it is a function matters here. */
  type Mix = (int, RawEvent) -> int

  const DIGEST_OFFSET: int := 0xcbf2_9ce4_8422_2325

  datatype LedgerFingerprint = LedgerFingerprint(ledger: nat, eventCount: nat, digest: int)

  function Digest(mix: Mix, events: seq<RawEvent>): int {
    if events == [] then DIGEST_OFFSET
    else mix(Digest(mix, events[..|events| - 1]), events[|events| - 1])
  }

  function FingerprintOf(mix: Mix, ledger: nat, events: seq<RawEvent>): LedgerFingerprint {
    var canonical := Canonical(ledger, events);
    LedgerFingerprint(ledger, |canonical|, Digest(mix, canonical))
  }

  /** A round that never loses anything: different inputs give different results, and none gives the offset. */
  ghost predicate Lossless(mix: Mix) {
    && (forall x, e, y, f :: mix(x, e) == mix(y, f) ==> x == y && e == f)
    && (forall x, e :: mix(x, e) != DIGEST_OFFSET)
  }

  /** The digest covers every event and their order: it collides only if some round of it does. */
  lemma {:induction false} DigestCoversEverything(mix: Mix, a: seq<RawEvent>, b: seq<RawEvent>)
    requires Lossless(mix) && Digest(mix, a) == Digest(mix, b)
    ensures a == b
    decreases |a|
  {
    if a != [] && b != [] {
      DigestCoversEverything(mix, a[..|a| - 1], b[..|b| - 1]);
      assert a == a[..|a| - 1] + [a[|a| - 1]] && b == b[..|b| - 1] + [b[|b| - 1]];
    }
  }

  /** Events with the same key are the same event. */
  ghost predicate Unambiguous(events: seq<RawEvent>) {
    forall a, b :: a in events && b in events && KeyOf(a) == KeyOf(b) ==> a == b
  }

  lemma SortedSameLast(a: seq<RawEvent>, b: seq<RawEvent>)
    requires SortedByKey(a) && SortedByKey(b) && multiset(a) == multiset(b) && Unambiguous(a) && a != []
    ensures b != [] && a[|a| - 1] == b[|b| - 1]
  {
    hide KeyLess;
    assert a[0] in multiset(b);
    var la, lb := a[|a| - 1], b[|b| - 1];
    assert lb in multiset(a) && la in multiset(b);
    var i :| 0 <= i < |a| && a[i] == lb;
    var j :| 0 <= j < |b| && b[j] == la;
    KeyTotal(KeyOf(la), KeyOf(lb));
  }

  lemma {:induction false} SortedUnique(a: seq<RawEvent>, b: seq<RawEvent>)
    requires SortedByKey(a) && SortedByKey(b) && multiset(a) == multiset(b) && Unambiguous(a)
    ensures a == b
    decreases |a|
  {
    hide SortedByKey, Unambiguous;
    if a == [] {
      assert |multiset(b)| == 0;
    } else {
      SortedSameLast(a, b);
      FrontSorted(a);
      FrontSorted(b);
      FrontUnambiguous(a);
      FrontMultiset(a);
      FrontMultiset(b);
      SortedUnique(a[..|a| - 1], b[..|b| - 1]);
    }
  }

  lemma FrontMultiset(a: seq<RawEvent>)
    requires a != []
    ensures a == a[..|a| - 1] + [a[|a| - 1]]
    ensures multiset(a[..|a| - 1]) == multiset(a) - multiset{a[|a| - 1]}
  {
    assert a == a[..|a| - 1] + [a[|a| - 1]];
  }

  lemma FrontSorted(a: seq<RawEvent>)
    requires a != [] && SortedByKey(a)
    ensures SortedByKey(a[..|a| - 1])
  {
    hide KeyLess;
  }

  lemma FrontUnambiguous(a: seq<RawEvent>)
    requires a != [] && Unambiguous(a)
    ensures Unambiguous(a[..|a| - 1])
  {
  }

  /** Two pages that report the same events for a ledger, in whatever order and with whatever in
      other ledgers, give it the same fingerprint. */
  lemma FingerprintIgnoresOrder(mix: Mix, ledger: nat, p: seq<RawEvent>, q: seq<RawEvent>)
    requires multiset(InLedger(ledger, p)) == multiset(InLedger(ledger, q))
    requires Unambiguous(InLedger(ledger, p))
    ensures FingerprintOf(mix, ledger, p) == FingerprintOf(mix, ledger, q)
  {
    SortSorts(InLedger(ledger, p));
    SortSorts(InLedger(ledger, q));
    forall e | e in Canonical(ledger, p) ensures e in InLedger(ledger, p) {
      assert e in multiset(Canonical(ledger, p));
    }
    SortedUnique(Canonical(ledger, p), Canonical(ledger, q));
  }

  lemma {:induction false} SelectConcat(a: seq<RawEvent>, b: seq<RawEvent>, keep: RawEvent -> bool)
    ensures Select(a + b, keep) == Select(a, keep) + Select(b, keep)
  {
    if b == [] {
      assert a + b == a;
    } else {
      SelectConcat(a, b[..|b| - 1], keep);
      assert (a + b)[..|a + b| - 1] == a + b[..|b| - 1];
    }
  }

  lemma {:induction false} SelectMembers(events: seq<RawEvent>, keep: RawEvent -> bool, e: RawEvent)
    ensures e in Select(events, keep) <==> e in events && keep(e)
  {
    if events != [] {
      SelectMembers(events[..|events| - 1], keep, e);
      assert events == events[..|events| - 1] + [events[|events| - 1]];
    }
  }

  lemma {:induction false} SelectMultiset(events: seq<RawEvent>, keep: RawEvent -> bool, e: RawEvent)
    ensures multiset(Select(events, keep))[e] == if keep(e) then multiset(events)[e] else 0
  {
    if events != [] {
      SelectMultiset(events[..|events| - 1], keep, e);
      assert events == events[..|events| - 1] + [events[|events| - 1]];
    }
  }

  function WithKey(key: EventKey): RawEvent -> bool {
    (e: RawEvent) => KeyOf(e) == key
  }

  /** The sort is stable: events with equal keys keep their order. */
  lemma {:induction false} InsertStable(sorted: seq<RawEvent>, e: RawEvent, key: EventKey)
    ensures Select(Insert(sorted, e), WithKey(key)) ==
            Select(sorted, WithKey(key)) + (if KeyOf(e) == key then [e] else [])
  {
    var keep := WithKey(key);
    if sorted == [] || !KeyLess(KeyOf(e), KeyOf(sorted[|sorted| - 1])) {
      SelectConcat(sorted, [e], keep);
      assert Select([e], keep) == if keep(e) then [e] else [];
    } else {
      var front, last := sorted[..|sorted| - 1], sorted[|sorted| - 1];
      InsertStable(front, e, key);
      KeyTotal(KeyOf(e), KeyOf(last));
      var r := Insert(front, e);
      assert (r + [last])[..|r|] == r;
    }
  }

  lemma {:induction false} SortStable(events: seq<RawEvent>, key: EventKey)
    ensures Select(Sort(events), WithKey(key)) == Select(events, WithKey(key))
  {
    if events != [] {
      SortStable(events[..|events| - 1], key);
      InsertStable(Sort(events[..|events| - 1]), events[|events| - 1], key);
    }
  }

  /** One ledger's events with one key, in page order. */
  function Rivals(ledger: nat, key: EventKey, events: seq<RawEvent>): seq<RawEvent> {
    Select(InLedger(ledger, events), WithKey(key))
  }

  lemma RivalsAt(ledger: nat, key: EventKey, events: seq<RawEvent>, i: nat)
    requires i < |events| && events[i].ledger == ledger && KeyOf(events[i]) == key
    ensures |Rivals(ledger, key, events[..i])| < |Rivals(ledger, key, events)|
    ensures Rivals(ledger, key, events)[|Rivals(ledger, key, events[..i])|] == events[i]
  {
    var a, b, c := events[..i], [events[i]], events[i + 1..];
    assert events == a + b + c;
    SelectConcat(a + b, c, OfLedger(ledger));
    SelectConcat(a, b, OfLedger(ledger));
    SelectConcat(InLedger(ledger, a + b), InLedger(ledger, c), WithKey(key));
    SelectConcat(InLedger(ledger, a), InLedger(ledger, b), WithKey(key));
    assert InLedger(ledger, b) == [events[i]];
    assert Select([events[i]], WithKey(key)) == [events[i]];
  }

  lemma InLedgerMembers(ledger: nat, events: seq<RawEvent>, e: RawEvent)
    ensures e in InLedger(ledger, events) <==> e in events && e.ledger == ledger
  {
    SelectMembers(events, OfLedger(ledger), e);
  }

  /** A page's canonical order is the same however the page is shuffled exactly when no two
      different events of the ledger share a key. */
  lemma OrderIrrelevantIffUnambiguous(ledger: nat, p: seq<RawEvent>)
    ensures (forall q :: multiset(q) == multiset(p) ==> Canonical(ledger, q) == Canonical(ledger, p))
            <==> Unambiguous(InLedger(ledger, p))
  {
    if Unambiguous(InLedger(ledger, p)) {
      forall q | multiset(q) == multiset(p) ensures Canonical(ledger, q) == Canonical(ledger, p) {
        forall e ensures multiset(InLedger(ledger, q))[e] == multiset(InLedger(ledger, p))[e] {
          SelectMultiset(p, OfLedger(ledger), e);
          SelectMultiset(q, OfLedger(ledger), e);
        }
        SortSorts(InLedger(ledger, p));
        SortSorts(InLedger(ledger, q));
        forall e | e in Canonical(ledger, p) ensures e in InLedger(ledger, p) {
          assert e in multiset(Canonical(ledger, p));
        }
        SortedUnique(Canonical(ledger, p), Canonical(ledger, q));
      }
    } else {
      var q := Shuffled(ledger, p);
      assert Canonical(ledger, q) != Canonical(ledger, p);
    }
  }

  lemma Shuffled(ledger: nat, p: seq<RawEvent>) returns (q: seq<RawEvent>)
    requires !Unambiguous(InLedger(ledger, p))
    ensures multiset(q) == multiset(p) && Canonical(ledger, q) != Canonical(ledger, p)
  {
    hide Sort, Select, OfLedger;
    var a, b :| a in InLedger(ledger, p) && b in InLedger(ledger, p) && KeyOf(a) == KeyOf(b) && a != b;
    InLedgerMembers(ledger, p, a);
    InLedgerMembers(ledger, p, b);
    var x :| 0 <= x < |p| && p[x] == a;
    var y :| 0 <= y < |p| && p[y] == b;
    var i, j := if x < y then x else y, if x < y then y else x;
    q := p[i := p[j]][j := p[i]];
    var key := KeyOf(a);
    RivalsAt(ledger, key, p, i);
    RivalsAt(ledger, key, q, i);
    assert q[..i] == p[..i];
    SortStable(InLedger(ledger, p), key);
    SortStable(InLedger(ledger, q), key);
  }
}
