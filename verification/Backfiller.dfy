/** The indexer's walk as the loops it is, proved to be a run of the machine in `BackfillModel`. */
module IndexerBackfill {
  import opened Common
  import opened Events
  import opened Fingerprints
  import opened BackfillModel

  // ── What the loops compute ──

  /** `check_page`'s loop: observe the ledgers in turn, stop at the first discrepancy. */
  function CheckAll(mix: Mix, db: Db, page: seq<RawEvent>, todo: seq<nat>): (bool, Db)
    decreases |todo|
  {
    if todo == [] then (true, db)
    else
      var (seen, db') := Observe(mix, db, todo[0], page);
      if seen.Discrepant? then (false, db') else CheckAll(mix, db', page, todo[1..])
  }

  /** `ingest_batch`'s loop from event `done` on: store what is known, stop at a malformed event. */
  function IngestAll(db: Db, page: seq<RawEvent>, done: nat): (bool, Db)
    requires done <= |page|
    decreases |page| - done
  {
    if done == |page| then (true, db)
    else match page[done].body
      case Malformed(_) => (false, db)
      case Unrecognised(_) => IngestAll(db, page, done + 1)
      case Recognised(_) => IngestAll(InsertEvent(db, page[done]), page, done + 1)
  }

  function Repeat(n: nat): seq<Input> {
    seq(n, _ => Continue)
  }

  lemma {:induction false} IdleStays(c: Config, db: Db, n: nat)
    requires c.pageSize >= 1
    ensures Steps(c, Machine(db, Idle), Repeat(n)) == Machine(db, Idle)
  {
    if n > 0 {
      IdleStays(c, db, n - 1);
      assert Repeat(n)[..n - 1] == Repeat(n - 1);
    }
  }

  lemma NoMore(c: Config, m: Machine)
    requires c.pageSize >= 1
    ensures Steps(c, m, Repeat(0)) == m
  {
  }

  lemma {:induction false} OneThenRest(c: Config, m: Machine, n: nat)
    requires c.pageSize >= 1
    ensures Steps(c, m, Repeat(n + 1)) == Steps(c, Proceed(c, m), Repeat(n))
  {
    assert Repeat(n + 1) == Repeat(1) + Repeat(n);
    StepsAppend(c, m, Repeat(1), Repeat(n));
    assert Repeat(1)[..0] == [];
    assert Steps(c, m, Repeat(1)) == Step(c, Steps(c, m, []), Continue);
  }

  /** Checking a page is one machine step per ledger, and one more to move on. */
  lemma {:induction false} MachineChecks(c: Config, db: Db, p: Proc)
    requires c.pageSize >= 1 && p.Checking?
    ensures var (ok, db') := CheckAll(c.mix, db, p.page, p.todo);
            Steps(c, Machine(db, p), Repeat(|p.todo| + 1)) ==
            Machine(db', if ok then Ingesting(p.next, p.tip, p.pages, p.page, p.scanned, 0) else Idle)
    decreases |p.todo|
  {
    hide Observe;
    OneThenRest(c, Machine(db, p), |p.todo|);
    if p.todo == [] {
      assert Repeat(0) == [];
    } else {
      var (seen, db') := Observe(c.mix, db, p.todo[0], p.page);
      if seen.Discrepant? {
        IdleStays(c, db', |p.todo|);
      } else {
        MachineChecks(c, db', p.(todo := p.todo[1..]));
      }
    }
  }

  /** Ingesting a page is one machine step per event, and one more to save the checkpoint. */
  lemma {:induction false} MachineIngests(c: Config, db: Db, p: Proc)
    requires c.pageSize >= 1 && p.Ingesting? && p.done <= |p.page|
    ensures var (ok, db') := IngestAll(db, p.page, p.done);
            var through := ScannedThrough(c, p.next, p.tip, p.scanned);
            Steps(c, Machine(db, p), Repeat(|p.page| - p.done + 1)) ==
            if ok then Machine(SaveCheckpoint(db', through, through >= p.tip),
                               Walking(SaturatingAddU32(through, 1), p.tip, p.pages + 1))
            else Machine(db', Idle)
    decreases |p.page| - p.done
  {
    hide InsertEvent, Steps, Repeat, SaveCheckpoint, ScannedThrough, SaturatingAddU32;
    OneThenRest(c, Machine(db, p), |p.page| - p.done);
    if p.done == |p.page| {
      NoMore(c, Proceed(c, Machine(db, p)));
    } else if p.page[p.done].body.Malformed? {
      IdleStays(c, db, |p.page| - p.done);
    } else if p.page[p.done].body.Unrecognised? {
      MachineIngests(c, db, p.(done := p.done + 1));
    } else {
      MachineIngests(c, InsertEvent(db, p.page[p.done]), p.(done := p.done + 1));
    }
  }

  /** The inputs that take the machine through one fetched page. */
  function PageInputs(page: seq<RawEvent>, scanned: nat): seq<Input> {
    [Fetched(page, scanned)] + Repeat(|LedgersOf(page)| + 1) + Repeat(|page| + 1)
  }

  /** What one page does to the database, and where it leaves the pass. */
  function AfterPage(c: Config, db: Db, p: Proc, page: seq<RawEvent>, scanned: nat): Machine
    requires c.pageSize >= 1 && p.Walking?
  {
    var (checked, db1) := CheckAll(c.mix, db, page, LedgersOf(page));
    if !checked then Machine(db1, Idle)
    else
      var (stored, db2) := IngestAll(db1, page, 0);
      var through := ScannedThrough(c, p.next, p.tip, scanned);
      if !stored then Machine(db2, Idle)
      else Machine(SaveCheckpoint(db2, through, through >= p.tip),
                   Walking(SaturatingAddU32(through, 1), p.tip, p.pages + 1))
  }

  lemma {:induction false} FetchStep(c: Config, db: Db, p: Proc, page: seq<RawEvent>, scanned: nat)
    requires c.pageSize >= 1 && p.Walking? && p.next <= p.tip
    ensures Steps(c, Machine(db, p), [Fetched(page, scanned)])
         == Machine(db, Checking(p.next, p.tip, p.pages, page, scanned, LedgersOf(page)))
  {
    hide LedgersOf;
    assert [Fetched(page, scanned)][..0] == [];
    assert Steps(c, Machine(db, p), []) == Machine(db, p);
  }

  lemma {:induction false} MachineTakesPage(c: Config, db: Db, p: Proc, page: seq<RawEvent>, scanned: nat)
    requires c.pageSize >= 1 && p.Walking? && p.next <= p.tip
    ensures Steps(c, Machine(db, p), PageInputs(page, scanned)) == AfterPage(c, db, p, page, scanned)
  {
    hide CheckAll, IngestAll, LedgersOf, Steps, ScannedThrough, SaveCheckpoint, SaturatingAddU32, Repeat;
    var fetched, check, ingest := [Fetched(page, scanned)], Repeat(|LedgersOf(page)| + 1), Repeat(|page| + 1);
    StepsAppend(c, Machine(db, p), fetched + check, ingest);
    StepsAppend(c, Machine(db, p), fetched, check);
    FetchStep(c, db, p, page, scanned);
    MachineChecks(c, db, Checking(p.next, p.tip, p.pages, page, scanned, LedgersOf(page)));
    var (checked, db1) := CheckAll(c.mix, db, page, LedgersOf(page));
    if checked {
      MachineIngests(c, db1, Ingesting(p.next, p.tip, p.pages, page, scanned, 0));
    } else {
      IdleStays(c, db1, |page| + 1);
    }
  }

  // ── A whole pass ──

  datatype IngestOutcome = IngestOutcome(stored: nat, duplicates: nat, unrecognised: nat)

  datatype BackfillReport = BackfillReport(stored: nat, duplicates: nat, unrecognised: nat, pages: nat, lastLedger: nat)

  datatype Page = Page(events: seq<RawEvent>, latestLedgerScanned: nat)

  /** What a page of these events adds when it takes the table from `before` to `after` rows: of the
      known events those not stored were there already, and the rest is unrecognised. */
  function CountsOf(before: nat, after: nat, events: seq<RawEvent>): IngestOutcome {
    var stored := SaturatingSub(after, before);
    IngestOutcome(stored, SaturatingSub(|Known(events)|, stored), SaturatingSub(|events|, |Known(events)|))
  }

  function Absorb(report: BackfillReport, counts: IngestOutcome, through: nat): BackfillReport {
    BackfillReport(report.stored + counts.stored, report.duplicates + counts.duplicates,
                   report.unrecognised + counts.unrecognised, report.pages + 1, through)
  }

  /** One pass from `next` on. `feed` is what the source answers, request by request: a page, or
      nothing when the request fails; the process ends when there is no further answer. */
  function Pass(c: Config, db: Db, next: nat, tip: nat, feed: seq<Option<Page>>, report: BackfillReport)
    : (Option<BackfillReport>, Db)
    requires c.pageSize >= 1
    decreases SaturatingSub(|feed|, report.pages)
  {
    if next > tip then (Some(report), if report.pages == 0 then SaveCheckpoint(db, report.lastLedger, true) else db)
    else if report.pages >= |feed| || feed[report.pages].None? then (None, db)
    else
      var page := feed[report.pages].value;
      var m := AfterPage(c, db, Walking(next, tip, report.pages), page.events, page.latestLedgerScanned);
      if !m.proc.Walking? then (None, m.db)
      else Pass(c, m.db, m.proc.next, tip, feed,
                Absorb(report, CountsOf(|db.rows|, |m.db.rows|, page.events),
                       ScannedThrough(c, next, tip, page.latestLedgerScanned)))
  }

  function FirstReport(next: nat): BackfillReport {
    BackfillReport(0, 0, 0, 0, SaturatingSub(next, 1))
  }

  /** `run_to_tip`: the pass from where the database says to resume. */
  function WholePass(c: Config, db: Db, tip: nat, feed: seq<Option<Page>>): (Option<BackfillReport>, Db)
    requires c.pageSize >= 1
  {
    Pass(c, db, ResumeLedger(c, db), tip, feed, FirstReport(ResumeLedger(c, db)))
  }

  /** The inputs that take the machine through the pass. */
  function PassInputs(c: Config, db: Db, next: nat, tip: nat, feed: seq<Option<Page>>, pages: nat): seq<Input>
    requires c.pageSize >= 1
    decreases SaturatingSub(|feed|, pages)
  {
    if next > tip then [Continue]
    else if pages >= |feed| || feed[pages].None? then [Stop]
    else
      var page := feed[pages].value;
      var m := AfterPage(c, db, Walking(next, tip, pages), page.events, page.latestLedgerScanned);
      PageInputs(page.events, page.latestLedgerScanned) +
      (if m.proc.Walking? then PassInputs(c, m.db, m.proc.next, tip, feed, pages + 1) else [])
  }

  lemma PageAdds(c: Config, db: Db, p: Proc, page: seq<RawEvent>, scanned: nat)
    requires c.pageSize >= 1 && p.Walking?
    ensures var m := AfterPage(c, db, p, page, scanned);
            var through := ScannedThrough(c, p.next, p.tip, scanned);
            && (m.proc.Idle? || m.proc == Walking(SaturatingAddU32(through, 1), p.tip, p.pages + 1))
            && (m.proc.Walking? ==> m.db.checkpoint == Some(Checkpoint(through, through >= p.tip)))
            && |db.rows| <= |m.db.rows|
  {
    hide LedgersOf, ScannedThrough;
    LedgersOfAscending(page);
    CheckAllIffAgrees(c.mix, db, page, LedgersOf(page));
    IngestAppends(CheckAll(c.mix, db, page, LedgersOf(page)).1, page, 0);
  }

  lemma {:induction false} IngestAppends(db: Db, page: seq<RawEvent>, done: nat)
    requires done <= |page|
    ensures db.rows <= IngestAll(db, page, done).1.rows
    decreases |page| - done
  {
    if done < |page| && page[done].body.Unrecognised? {
      IngestAppends(db, page, done + 1);
    } else if done < |page| && page[done].body.Recognised? {
      IngestAppends(InsertEvent(db, page[done]), page, done + 1);
    }
  }

  /** The pass is one run of the small-step machine, so whatever holds of all its runs holds of it. */
  lemma {:induction false} PassIsARun(c: Config, db: Db, next: nat, tip: nat, feed: seq<Option<Page>>,
                                      report: BackfillReport)
    requires c.pageSize >= 1 && (report.pages == 0 ==> report.lastLedger == SaturatingSub(next, 1))
    ensures Steps(c, Machine(db, Walking(next, tip, report.pages)), PassInputs(c, db, next, tip, feed, report.pages))
         == Machine(Pass(c, db, next, tip, feed, report).1, Idle)
    decreases SaturatingSub(|feed|, report.pages)
  {
    hide Steps, AfterPage, PageInputs, CountsOf, ScannedThrough;
    var p := Walking(next, tip, report.pages);
    if next > tip {
      FinishStep(c, Machine(db, p), []);
      NoSteps(c, Machine(db, p));
      assert [] + [Continue] == [Continue];
    } else if report.pages >= |feed| || feed[report.pages].None? {
      StopStep(c, Machine(db, p), []);
      NoSteps(c, Machine(db, p));
      assert [] + [Stop] == [Stop];
    } else {
      var page := feed[report.pages].value;
      var ins := PageInputs(page.events, page.latestLedgerScanned);
      var m := AfterPage(c, db, p, page.events, page.latestLedgerScanned);
      MachineTakesPage(c, db, p, page.events, page.latestLedgerScanned);
      PageAdds(c, db, p, page.events, page.latestLedgerScanned);
      if m.proc.Walking? {
        var through := ScannedThrough(c, next, tip, page.latestLedgerScanned);
        var report' := Absorb(report, CountsOf(|db.rows|, |m.db.rows|, page.events), through);
        PassIsARun(c, m.db, m.proc.next, tip, feed, report');
        StepsAppend(c, Machine(db, p), ins, PassInputs(c, m.db, m.proc.next, tip, feed, report.pages + 1));
      } else {
        assert ins + [] == ins;
      }
    }
  }

  lemma NoSteps(c: Config, m: Machine)
    requires c.pageSize >= 1
    ensures Steps(c, m, []) == m
  {
  }

  /** A report handed out tells the truth: the checkpoint is complete at its last ledger, which is at
      or past the tip, and the rows grew by as many as it says were stored. */
  lemma {:induction false} ReportsAreTrue(c: Config, db: Db, next: nat, tip: nat, feed: seq<Option<Page>>,
                                          report: BackfillReport)
    requires c.pageSize >= 1
    requires report.pages == 0 ==> report.lastLedger == SaturatingSub(next, 1)
    requires report.pages > 0 ==>
               && next == SaturatingAddU32(report.lastLedger, 1)
               && db.checkpoint == Some(Checkpoint(report.lastLedger, report.lastLedger >= tip))
    ensures var (r, db') := Pass(c, db, next, tip, feed, report);
            r.Some? ==>
              && db'.checkpoint == Some(Checkpoint(r.value.lastLedger, true)) && r.value.lastLedger >= tip
              && |db'.rows| - |db.rows| == r.value.stored - report.stored
    decreases SaturatingSub(|feed|, report.pages)
  {
    hide AfterPage, ScannedThrough, Known;
    if next <= tip && report.pages < |feed| && feed[report.pages].Some? {
      var page := feed[report.pages].value;
      var m := AfterPage(c, db, Walking(next, tip, report.pages), page.events, page.latestLedgerScanned);
      PageAdds(c, db, Walking(next, tip, report.pages), page.events, page.latestLedgerScanned);
      if m.proc.Walking? {
        var through := ScannedThrough(c, next, tip, page.latestLedgerScanned);
        var report' := Absorb(report, CountsOf(|db.rows|, |m.db.rows|, page.events), through);
        ReportsAreTrue(c, m.db, m.proc.next, tip, feed, report');
      }
    }
  }

  // ── When a pass ends ──

  /** With the tip at the last representable ledger no pass gets there, whatever and however long the
      source answers: the saturating successor of that ledger is that ledger. */
  lemma {:induction false} MaximumTipIsNeverReached(c: Config, db: Db, next: nat, tip: nat, feed: seq<Option<Page>>,
                                                    report: BackfillReport)
    requires c.pageSize >= 1 && next <= U32_MAX <= tip
    ensures Pass(c, db, next, tip, feed, report).0 == None
    decreases SaturatingSub(|feed|, report.pages)
  {
    hide AfterPage, ScannedThrough, CountsOf;
    if report.pages < |feed| && feed[report.pages].Some? {
      var page := feed[report.pages].value;
      var m := AfterPage(c, db, Walking(next, tip, report.pages), page.events, page.latestLedgerScanned);
      PageAdds(c, db, Walking(next, tip, report.pages), page.events, page.latestLedgerScanned);
      if m.proc.Walking? {
        var through := ScannedThrough(c, next, tip, page.latestLedgerScanned);
        var report' := Absorb(report, CountsOf(|db.rows|, |m.db.rows|, page.events), through);
        MaximumTipIsNeverReached(c, m.db, m.proc.next, tip, feed, report');
      }
    }
  }

  /** Every answer the pass consumes is a page that is neither refused nor malformed. */
  predicate Smooth(c: Config, db: Db, next: nat, tip: nat, feed: seq<Option<Page>>, pages: nat)
    requires c.pageSize >= 1
    decreases SaturatingSub(|feed|, pages)
  {
    next <= tip && pages < |feed| ==>
      && feed[pages].Some?
      && var page := feed[pages].value;
      && var m := AfterPage(c, db, Walking(next, tip, pages), page.events, page.latestLedgerScanned);
      && m.proc.Walking?
      && Smooth(c, m.db, m.proc.next, tip, feed, pages + 1)
  }

  lemma {:induction false} SmoothPassEnds(c: Config, db: Db, next: nat, tip: nat, feed: seq<Option<Page>>,
                                          report: BackfillReport)
    requires c.pageSize >= 1 && tip < U32_MAX && Smooth(c, db, next, tip, feed, report.pages)
    requires tip + 1 - next <= |feed| - report.pages
    ensures Pass(c, db, next, tip, feed, report).0.Some?
    decreases SaturatingSub(|feed|, report.pages)
  {
    hide AfterPage, CountsOf;
    if next <= tip {
      var page := feed[report.pages].value;
      var m := AfterPage(c, db, Walking(next, tip, report.pages), page.events, page.latestLedgerScanned);
      PageAdds(c, db, Walking(next, tip, report.pages), page.events, page.latestLedgerScanned);
      var through := ScannedThrough(c, next, tip, page.latestLedgerScanned);
      var report' := Absorb(report, CountsOf(|db.rows|, |m.db.rows|, page.events), through);
      SmoothPassEnds(c, m.db, m.proc.next, tip, feed, report');
    }
  }

  /** A pass whose pages go through, one answer per ledger at most, ends exactly when the tip lies
      below the last representable ledger. */
  lemma PassEndsIffTipBelowMaximum(c: Config, db: Db, tip: nat, feed: seq<Option<Page>>)
    requires ValidConfig(c) && tip <= U32_MAX && Smooth(c, db, ResumeLedger(c, db), tip, feed, 0)
    requires tip + 1 - ResumeLedger(c, db) <= |feed|
    ensures WholePass(c, db, tip, feed).0.Some? <==> tip < U32_MAX
  {
    var next := ResumeLedger(c, db);
    if tip < U32_MAX {
      SmoothPassEnds(c, db, next, tip, feed, FirstReport(next));
    } else {
      MaximumTipIsNeverReached(c, db, next, tip, feed, FirstReport(next));
    }
  }

  // ── What a page check catches ──

  predicate Ascending(ledgers: seq<nat>) {
    forall i, j :: 0 <= i < j < |ledgers| ==> ledgers[i] < ledgers[j]
  }

  lemma {:induction false} LedgersOfAscending(page: seq<RawEvent>)
    ensures Ascending(LedgersOf(page))
  {
    if page != [] {
      LedgersOfAscending(page[..|page| - 1]);
      InsertLedgerAscending(LedgersOf(page[..|page| - 1]), page[|page| - 1].ledger);
    }
  }

  lemma {:induction false} InsertLedgerAscending(ledgers: seq<nat>, ledger: nat)
    requires Ascending(ledgers)
    ensures Ascending(InsertLedger(ledgers, ledger))
  {
    if ledgers != [] && ledgers[|ledgers| - 1] > ledger {
      var front, last := ledgers[..|ledgers| - 1], ledgers[|ledgers| - 1];
      InsertLedgerAscending(front, ledger);
      var r := InsertLedger(front, ledger);
      forall i | 0 <= i < |r| ensures r[i] < last {
        InsertLedgerMembers(front, ledger, r[i]);
      }
    }
  }

  ghost predicate Agrees(mix: Mix, db: Db, page: seq<RawEvent>, ledger: nat) {
    ledger in db.fingerprints ==> db.fingerprints[ledger] == FingerprintOf(mix, ledger, page)
  }

  lemma {:induction false} CheckAllIffAgrees(mix: Mix, db: Db, page: seq<RawEvent>, todo: seq<nat>)
    requires Ascending(todo)
    ensures CheckAll(mix, db, page, todo).0 <==> forall l :: l in todo ==> Agrees(mix, db, page, l)
    ensures CheckAll(mix, db, page, todo).1.(fingerprints := db.fingerprints) == db
    decreases |todo|
  {
    hide FingerprintOf;
    if todo != [] {
      var (seen, db') := Observe(mix, db, todo[0], page);
      CheckAllIffAgrees(mix, db', page, todo[1..]);
      assert todo == [todo[0]] + todo[1..];
      assert seen.Discrepant? <==> !Agrees(mix, db, page, todo[0]);
      assert forall l :: l in todo <==> l == todo[0] || l in todo[1..];
      assert forall l :: l in todo[1..] ==> (Agrees(mix, db', page, l) <==> Agrees(mix, db, page, l));
    }
  }

  /** A page is refused exactly when some event in it lies in a ledger that was recorded differently. */
  lemma RefusedIffContradicted(mix: Mix, db: Db, page: seq<RawEvent>)
    ensures CheckAll(mix, db, page, LedgersOf(page)).0 <==> forall e :: e in page ==> Agrees(mix, db, page, e.ledger)
  {
    hide CheckAll, LedgersOf, Agrees;
    LedgersOfAscending(page);
    CheckAllIffAgrees(mix, db, page, LedgersOf(page));
    forall l ensures l in LedgersOf(page) <==> exists e :: e in page && e.ledger == l {
      LedgersOfMembers(page, l);
    }
  }

  /** A page is all or nothing: refused, it ends the pass with no row stored and no checkpoint moved. */
  lemma RefusedPageStoresNothing(c: Config, db: Db, p: Proc, page: seq<RawEvent>, scanned: nat, e: RawEvent)
    requires c.pageSize >= 1 && p.Walking? && e in page && !Agrees(c.mix, db, page, e.ledger)
    ensures var m := AfterPage(c, db, p, page, scanned);
            m.proc.Idle? && m.db.rows == db.rows && m.db.checkpoint == db.checkpoint
  {
    hide CheckAll, LedgersOf, Agrees;
    RefusedIffContradicted(c.mix, db, page);
    LedgersOfAscending(page);
    CheckAllIffAgrees(c.mix, db, page, LedgersOf(page));
  }

  /** The gap in that condition: a re-read from which a ledger's every event is gone mentions the
      ledger no more, so it passes although it disagrees with the record. */
  lemma EmptiedLedgerIsNotNoticed(mix: Mix, e: RawEvent)
    ensures var db := Observe(mix, EmptyDb, e.ledger, [e]).1;
            !Agrees(mix, db, [], e.ledger) && CheckAll(mix, db, [], LedgersOf([])).0
  {
    assert [e][..0] == [];
    assert OfLedger(e.ledger)(e);
    assert Select([], OfLedger(e.ledger)) == [];
    assert InLedger(e.ledger, [e]) == [e];
    assert Sort([]) == [] && Sort([e]) == [e];
    assert FingerprintOf(mix, e.ledger, [e]).eventCount == 1;
    assert FingerprintOf(mix, e.ledger, []).eventCount == 0;
  }

  // ── The object ──

  class Backfiller {
    const c: Config
    var rows: seq<RawEvent>
    var checkpoint: Option<Checkpoint>
    var fingerprints: map<nat, LedgerFingerprint>

    function State(): Db
      reads this
    {
      Db(rows, checkpoint, fingerprints)
    }

    constructor (c: Config)
      ensures this.c == c && State() == EmptyDb
    {
      this.c := c;
      rows, checkpoint, fingerprints := [], None, map[];
    }

    /** `fingerprint`: filter, sort, then fold the digest in canonical order. */
    method Fingerprint(ledger: nat, events: seq<RawEvent>) returns (f: LedgerFingerprint)
      ensures f == FingerprintOf(c.mix, ledger, events)
    {
      var inLedger: seq<RawEvent> := [];
      for i := 0 to |events|
        invariant inLedger == InLedger(ledger, events[..i])
      {
        assert events[..i + 1][..i] == events[..i];
        if events[i].ledger == ledger {
          inLedger := inLedger + [events[i]];
        }
      }
      assert events[..|events|] == events;
      inLedger := Sort(inLedger);
      var digest := DIGEST_OFFSET;
      for i := 0 to |inLedger|
        invariant digest == Digest(c.mix, inLedger[..i])
      {
        assert inLedger[..i + 1][..i] == inLedger[..i];
        digest := c.mix(digest, inLedger[i]);
      }
      assert inLedger[..|inLedger|] == inLedger;
      f := LedgerFingerprint(ledger, |inLedger|, digest);
    }

    method Observe(ledger: nat, events: seq<RawEvent>) returns (seen: Observation)
      modifies this`fingerprints
      ensures (seen, State()) == old(BackfillModel.Observe(c.mix, State(), ledger, events))
    {
      var observed := Fingerprint(ledger, events);
      if ledger !in fingerprints {
        fingerprints := fingerprints[ledger := observed];
        return FirstSight;
      }
      var recorded := fingerprints[ledger];
      if recorded == observed {
        return Consistent;
      }
      if observed.eventCount < recorded.eventCount {
        seen := Discrepant(EventsDisappeared);
      } else if observed.eventCount > recorded.eventCount {
        seen := Discrepant(EventsAppeared);
      } else {
        seen := Discrepant(ContentChanged);
      }
    }

    method CheckPage(events: seq<RawEvent>) returns (ok: bool)
      modifies this`fingerprints
      ensures (ok, State()) == old(CheckAll(c.mix, State(), events, LedgersOf(events)))
    {
      var ledgers := LedgersOf(events);
      for i := 0 to |ledgers|
        invariant rows == old(rows) && checkpoint == old(checkpoint)
        invariant CheckAll(c.mix, State(), events, ledgers[i..]) == old(CheckAll(c.mix, State(), events, ledgers))
      {
        assert ledgers[i..][0] == ledgers[i] && ledgers[i..][1..] == ledgers[i + 1..];
        var seen := Observe(ledgers[i], events);
        if seen.Discrepant? {
          return false;
        }
      }
      ok := true;
    }

    method IngestBatch(events: seq<RawEvent>) returns (outcome: Option<IngestOutcome>)
      modifies this`rows
      ensures (outcome.Some?, State()) == old(IngestAll(State(), events, 0))
      ensures outcome.Some? ==> |rows| >= old(|rows|) && outcome.value == CountsOf(old(|rows|), |rows|, events)
    {
      var stored, duplicates, unrecognised := 0, 0, 0;
      for i := 0 to |events|
        invariant checkpoint == old(checkpoint) && fingerprints == old(fingerprints)
        invariant IngestAll(State(), events, i) == old(IngestAll(State(), events, 0))
        invariant |rows| == old(|rows|) + stored
        invariant stored + duplicates == |Known(events[..i])| && stored + duplicates + unrecognised == i
      {
        assert events[..i + 1][..i] == events[..i];
        match events[i].body {
          case Malformed(_) => return None;
          case Unrecognised(_) => unrecognised := unrecognised + 1;
          case Recognised(_) =>
            if HasKey(rows, KeyOf(events[i])) {
              duplicates := duplicates + 1;
            } else {
              rows := rows + [events[i]];
              stored := stored + 1;
            }
        }
      }
      assert events[..|events|] == events;
      outcome := Some(IngestOutcome(stored, duplicates, unrecognised));
    }

    /** Walk from the checkpoint to `tip`. */
    method RunToTip(tip: nat, feed: seq<Option<Page>>) returns (r: Option<BackfillReport>)
      requires c.pageSize >= 1
      modifies this
      ensures (r, State()) == old(WholePass(c, State(), tip, feed))
    {
      hide CheckAll, IngestAll, LedgersOf, Known;
      var next: nat := if checkpoint.Some? then SaturatingAddU32(checkpoint.value.lastLedger, 1) else c.start;
      var report := BackfillReport(0, 0, 0, 0, SaturatingSub(next, 1));
      while next <= tip
        invariant Pass(c, State(), next, tip, feed, report) == old(WholePass(c, State(), tip, feed))
        decreases SaturatingSub(|feed|, report.pages)
      {
        if report.pages >= |feed| || feed[report.pages].None? {
          return None;
        }
        var page := feed[report.pages].value;
        var ok := CheckPage(page.events);
        if !ok {
          return None;
        }
        var outcome := IngestBatch(page.events);
        if outcome.None? {
          return None;
        }
        var through := Max(page.latestLedgerScanned, Min(SaturatingAddU32(next, c.pageSize - 1), tip));
        report := Absorb(report, outcome.value, through);
        checkpoint := Some(Checkpoint(through, through >= tip));
        next := SaturatingAddU32(through, 1);
      }
      if report.pages == 0 {
        checkpoint := Some(Checkpoint(report.lastLedger, true));
      }
      r := Some(report);
    }
  }

  lemma BeginStep(c: Config, db: Db, tip: nat)
    requires c.pageSize >= 1
    ensures Steps(c, Machine(db, Idle), [Begin(tip)]) == Machine(db, Walking(ResumeLedger(c, db), tip, 0))
  {
    assert [Begin(tip)][..0] == [];
    assert Steps(c, Machine(db, Idle), []) == Machine(db, Idle);
  }

  lemma FinishStep(c: Config, m: Machine, inputs: seq<Input>)
    requires c.pageSize >= 1
    ensures Steps(c, m, inputs + [Continue]) == Proceed(c, Steps(c, m, inputs))
  {
    assert (inputs + [Continue])[..|inputs|] == inputs;
  }

  lemma StopStep(c: Config, m: Machine, inputs: seq<Input>)
    requires c.pageSize >= 1
    ensures Steps(c, m, inputs + [Stop]) == Steps(c, m, inputs).(proc := Idle)
  {
    assert (inputs + [Stop])[..|inputs|] == inputs;
  }

  // ── What the small pieces mean ──

  /** What an observation reports, counted in events: nothing recorded yet, the same view, fewer events
      than recorded, more, or as many but different ones. */
  lemma ObservationMeans(mix: Mix, db: Db, ledger: nat, page: seq<RawEvent>)
    ensures var (seen, db') := Observe(mix, db, ledger, page);
            var count := |InLedger(ledger, page)|;
            && (seen == FirstSight <==> ledger !in db.fingerprints)
            && (seen == FirstSight ==> db'.fingerprints == db.fingerprints[ledger := FingerprintOf(mix, ledger, page)])
            && (seen != FirstSight ==> db' == db)
            && db'.rows == db.rows && db'.checkpoint == db.checkpoint
            && (ledger in db.fingerprints ==>
                  var recorded := db.fingerprints[ledger];
                  && (seen == Consistent <==> recorded == FingerprintOf(mix, ledger, page))
                  && (seen == Discrepant(EventsDisappeared) <==> count < recorded.eventCount)
                  && (seen == Discrepant(EventsAppeared) <==> count > recorded.eventCount)
                  && (seen == Discrepant(ContentChanged) <==>
                        count == recorded.eventCount && recorded != FingerprintOf(mix, ledger, page)))
  {
    SortSorts(InLedger(ledger, page));
    assert |multiset(Canonical(ledger, page))| == |multiset(InLedger(ledger, page))|;
  }

  /** How many events from `done` on are of a kind the indexer does not know. */
  function Unknowns(page: seq<RawEvent>, done: nat): nat
    requires done <= |page|
    decreases |page| - done
  {
    if done == |page| then 0 else (if page[done].body.Unrecognised? then 1 else 0) + Unknowns(page, done + 1)
  }

  /** How many known events from `done` on have a key that is stored by the time they come up. */
  function Repeats(db: Db, page: seq<RawEvent>, done: nat): nat
    requires done <= |page|
    decreases |page| - done
  {
    if done == |page| then 0
    else if !page[done].body.Recognised? then Repeats(db, page, done + 1)
    else (if HasKey(db.rows, KeyOf(page[done])) then 1 else 0) + Repeats(InsertEvent(db, page[done]), page, done + 1)
  }

  lemma {:induction false} IngestCounts(db: Db, page: seq<RawEvent>, done: nat)
    requires done <= |page| && IngestAll(db, page, done).0
    ensures |Known(page[..done])| + |page| - done - Unknowns(page, done) == |Known(page)|
    ensures |IngestAll(db, page, done).1.rows|
         == |db.rows| + |page| - done - Unknowns(page, done) - Repeats(db, page, done)
    decreases |page| - done
  {
    hide HasKey;
    if done == |page| {
      assert page[..done] == page;
    } else {
      assert page[..done + 1][..done] == page[..done];
      IngestCounts(if page[done].body.Recognised? then InsertEvent(db, page[done]) else db, page, done + 1);
    }
  }

  /** The counts a batch reports: rows added, known events that were there already, and unknown ones. */
  lemma CountsMean(db: Db, page: seq<RawEvent>)
    requires IngestAll(db, page, 0).0
    ensures var counts := CountsOf(|db.rows|, |IngestAll(db, page, 0).1.rows|, page);
            && counts.unrecognised == Unknowns(page, 0)
            && counts.duplicates == Repeats(db, page, 0)
            && counts.stored == |IngestAll(db, page, 0).1.rows| - |db.rows|
  {
    hide IngestAll, Known, Repeats, Unknowns;
    IngestCounts(db, page, 0);
    IngestAppends(db, page, 0);
    NoneKnown(page);
  }

  lemma NoneKnown(page: seq<RawEvent>)
    ensures |Known(page[..0])| == 0
  {
  }

  /** A page accounts for every ledger the source says it scanned and for the whole window asked for, as
      far as the tip. */
  lemma WindowIsScanned(c: Config, next: nat, tip: nat, scanned: nat, ledger: nat)
    requires c.pageSize >= 1
    ensures ledger <= ScannedThrough(c, next, tip, scanned) <==>
              ledger <= scanned || (ledger <= tip && ledger <= U32_MAX && ledger < next + c.pageSize)
  {
  }

  /** A first pass starts where it is configured to, and the pass after a successful one at the very next
      ledger: nothing is skipped and nothing read again. */
  lemma PassesFollowOn(c: Config, db: Db, tip: nat, feed: seq<Option<Page>>)
    requires c.pageSize >= 1
    ensures db.checkpoint.None? ==> ResumeLedger(c, db) == c.start
    ensures var (r, db') := WholePass(c, db, tip, feed);
            r.Some? && r.value.lastLedger < U32_MAX ==> ResumeLedger(c, db') == r.value.lastLedger + 1
  {
    hide Pass;
    ReportsAreTrue(c, db, ResumeLedger(c, db), tip, feed, FirstReport(ResumeLedger(c, db)));
  }
}
