/** Ingestion from a source that may answer anything: what is stored for a ledger comes only from
    pages that agree with the first fingerprint recorded for it. */
module ReorgRuns {
  import opened Events
  import opened Fingerprints
  import opened BackfillModel

  // ── Fingerprints are permanent ──

  ghost predicate FingerprintsKept(db: Db, db': Db) {
    forall l :: l in db.fingerprints ==> l in db'.fingerprints && db'.fingerprints[l] == db.fingerprints[l]
  }

  lemma StepKeepsFingerprints(c: Config, m: Machine, input: Input)
    requires c.pageSize >= 1
    ensures FingerprintsKept(m.db, Step(c, m, input).db)
    ensures m.db.rows <= Step(c, m, input).db.rows
  {
    hide FingerprintOf, LedgersOf;
  }

  /** No recorded fingerprint is ever changed or removed, and no stored row either, whatever the source says. */
  lemma {:induction false} NothingIsRewritten(c: Config, m: Machine, inputs: seq<Input>)
    requires c.pageSize >= 1
    ensures FingerprintsKept(m.db, Steps(c, m, inputs).db)
    ensures m.db.rows <= Steps(c, m, inputs).db.rows
  {
    if inputs != [] {
      hide Step;
      NothingIsRewritten(c, m, inputs[..|inputs| - 1]);
      StepKeepsFingerprints(c, Steps(c, m, inputs[..|inputs| - 1]), inputs[|inputs| - 1]);
    }
  }

  // ── A contradicting page ──

  /** The page reports the ledger differently from what was recorded. */
  ghost predicate Contradicts(c: Config, db: Db, page: seq<RawEvent>, ledger: nat) {
    ledger in db.fingerprints && db.fingerprints[ledger] != FingerprintOf(c.mix, ledger, page)
  }

  /** A page under check with a contradicted ledger still to come. */
  ghost predicate Doomed(c: Config, m: Machine) {
    m.proc.Checking? && exists i :: 0 <= i < |m.proc.todo| && Contradicts(c, m.db, m.proc.page, m.proc.todo[i])
  }

  /** A contradicting page stores nothing and moves no checkpoint: from here the pass can only go on
      checking the same page or end. */
  lemma ContradictionStoresNothing(c: Config, m: Machine, input: Input)
    requires c.pageSize >= 1 && Doomed(c, m)
    ensures var m' := Step(c, m, input);
            && m'.db.rows == m.db.rows && m'.db.checkpoint == m.db.checkpoint
            && (m'.proc.Idle? || Doomed(c, m'))
            && (input.Continue? && m'.proc.Checking? ==> |m'.proc.todo| < |m.proc.todo|)
  {
    hide FingerprintOf, LedgersOf;
    var i :| 0 <= i < |m.proc.todo| && Contradicts(c, m.db, m.proc.page, m.proc.todo[i]);
    var m' := Step(c, m, input);
    if m'.proc.Checking? && m' != m {
      assert m'.proc.todo[i - 1] == m.proc.todo[i];
    }
  }

  /** A page fetched against a contradicted ledger is doomed from the moment it arrives. */
  lemma ContradictingPageIsDoomed(c: Config, m: Machine, page: seq<RawEvent>, scanned: nat, e: RawEvent)
    requires c.pageSize >= 1 && m.proc.Walking? && m.proc.next <= m.proc.tip
    requires e in page && Contradicts(c, m.db, page, e.ledger)
    ensures Doomed(c, Step(c, m, Fetched(page, scanned)))
  {
    LedgersOfMembers(page, e.ledger);
  }

  // ── Where every row came from ──

  /** The recorded fingerprint of the ledger is the page's. */
  ghost predicate Attested(c: Config, db: Db, page: seq<RawEvent>, ledger: nat) {
    ledger in db.fingerprints && db.fingerprints[ledger] == FingerprintOf(c.mix, ledger, page)
  }

  ghost predicate WasFetched(inputs: seq<Input>, page: seq<RawEvent>) {
    exists i :: 0 <= i < |inputs| && inputs[i].Fetched? && inputs[i].page == page
  }

  /** Some fetched page contains the event and agrees with the recorded fingerprint of its ledger. */
  ghost predicate Sourced(c: Config, inputs: seq<Input>, db: Db, e: RawEvent) {
    exists page :: WasFetched(inputs, page) && e in page && Attested(c, db, page, e.ledger)
  }

  ghost predicate PageChecked(c: Config, inputs: seq<Input>, m: Machine) {
    match m.proc
    case Checking(_, _, _, page, _, todo) =>
      WasFetched(inputs, page) &&
      forall l :: l in LedgersOf(page) ==> l in todo || Attested(c, m.db, page, l)
    case Ingesting(_, _, _, page, _, _) =>
      WasFetched(inputs, page) && forall l :: l in LedgersOf(page) ==> Attested(c, m.db, page, l)
    case _ => true
  }

  ghost predicate AllSourced(c: Config, inputs: seq<Input>, m: Machine) {
    && (forall e :: e in m.db.rows ==> Sourced(c, inputs, m.db, e))
    && PageChecked(c, inputs, m)
  }

  lemma FetchedStays(inputs: seq<Input>, input: Input, page: seq<RawEvent>)
    ensures WasFetched(inputs, page) ==> WasFetched(inputs + [input], page)
    ensures input.Fetched? ==> WasFetched(inputs + [input], input.page)
  {
    if WasFetched(inputs, page) {
      var i :| 0 <= i < |inputs| && inputs[i].Fetched? && inputs[i].page == page;
      assert (inputs + [input])[i].page == page;
    }
    if input.Fetched? {
      assert (inputs + [input])[|inputs|].page == input.page;
    }
  }

  lemma SourcedStays(c: Config, inputs: seq<Input>, input: Input, db: Db, db': Db, e: RawEvent)
    requires Sourced(c, inputs, db, e) && FingerprintsKept(db, db')
    ensures Sourced(c, inputs + [input], db', e)
  {
    var page :| WasFetched(inputs, page) && e in page && Attested(c, db, page, e.ledger);
    FetchedStays(inputs, input, page);
    assert Attested(c, db', page, e.ledger);
  }

  lemma PageCheckedStep(c: Config, inputs: seq<Input>, m: Machine, input: Input)
    requires c.pageSize >= 1 && PageChecked(c, inputs, m)
    ensures PageChecked(c, inputs + [input], Step(c, m, input))
  {
    hide FingerprintOf, LedgersOf, WasFetched;
    if m.proc.Checking? || m.proc.Ingesting? {
      FetchedStays(inputs, input, m.proc.page);
    } else if input.Fetched? {
      FetchedStays(inputs, input, input.page);
    }
  }

  lemma StepSourced(c: Config, inputs: seq<Input>, m: Machine, input: Input)
    requires c.pageSize >= 1 && AllSourced(c, inputs, m)
    ensures AllSourced(c, inputs + [input], Step(c, m, input))
  {
    var m' := Step(c, m, input);
    StepKeepsFingerprints(c, m, input);
    PageCheckedStep(c, inputs, m, input);
    forall e | e in m'.db.rows ensures Sourced(c, inputs + [input], m'.db, e) {
      if e in m.db.rows {
        SourcedStays(c, inputs, input, m.db, m'.db, e);
      } else {
        NewRowSourced(c, inputs, m, input, e);
      }
    }
  }

  lemma NewRowSourced(c: Config, inputs: seq<Input>, m: Machine, input: Input, e: RawEvent)
    requires c.pageSize >= 1 && PageChecked(c, inputs, m)
    requires e in Step(c, m, input).db.rows && e !in m.db.rows
    ensures Sourced(c, inputs + [input], Step(c, m, input).db, e)
  {
    hide FingerprintOf, LedgersOf, WasFetched, HasKey;
    assert m.proc.Ingesting? && e == m.proc.page[m.proc.done];
    LedgersOfMembers(m.proc.page, e.ledger);
    FetchedStays(inputs, input, m.proc.page);
    assert Attested(c, Step(c, m, input).db, m.proc.page, e.ledger);
  }

  /** Against any source, every stored event came from a page whose view of that event's ledger is
      the first one recorded. */
  lemma {:induction false} EveryRowMatchesFirstSight(c: Config, inputs: seq<Input>)
    requires c.pageSize >= 1
    ensures AllSourced(c, inputs, Steps(c, Fresh, inputs))
  {
    if inputs != [] {
      hide Step, AllSourced;
      var front := inputs[..|inputs| - 1];
      EveryRowMatchesFirstSight(c, front);
      StepSourced(c, front, Steps(c, Fresh, front), inputs[|inputs| - 1]);
      assert inputs == front + [inputs[|inputs| - 1]];
    }
  }

  /** The digest tells any two canonical sequences apart. */
  ghost predicate Injective(mix: Mix) {
    forall a, b :: Digest(mix, a) == Digest(mix, b) ==> a == b
  }

  /** With a digest that does not collide, the database never mixes two views of a ledger: all its
      rows belong to one canonical list of that ledger's events. */
  lemma SingleViewPerLedger(c: Config, inputs: seq<Input>, ledger: nat) returns (view: seq<RawEvent>)
    requires c.pageSize >= 1 && Injective(c.mix)
    ensures forall e :: e in Steps(c, Fresh, inputs).db.rows && e.ledger == ledger ==> e in view
    ensures forall page :: Attested(c, Steps(c, Fresh, inputs).db, page, ledger) ==> Canonical(ledger, page) == view
  {
    hide Steps, Canonical;
    var db := Steps(c, Fresh, inputs).db;
    EveryRowMatchesFirstSight(c, inputs);
    view := [];
    if page0 :| Attested(c, db, page0, ledger) {
      view := Canonical(ledger, page0);
      forall page | Attested(c, db, page, ledger) ensures Canonical(ledger, page) == view {
        assert Digest(c.mix, Canonical(ledger, page)) == Digest(c.mix, view);
      }
    }
    forall e | e in db.rows && e.ledger == ledger ensures e in view {
      var page :| WasFetched(inputs, page) && e in page && Attested(c, db, page, e.ledger);
      CanonicalMembers(ledger, page, e);
    }
  }

  lemma CanonicalMembers(ledger: nat, events: seq<RawEvent>, e: RawEvent)
    requires e in events && e.ledger == ledger
    ensures e in Canonical(ledger, events)
  {
    InLedgerMembers(ledger, events, e);
    SortSorts(InLedger(ledger, events));
    assert e in multiset(InLedger(ledger, events));
  }
}
