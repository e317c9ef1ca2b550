/** With an honest source a pass gets to the tip: nothing but a failed request or a malformed event
    can end it early. */
module HonestProgress {
  import opened Common
  import opened Events
  import opened Fingerprints
  import opened BackfillModel
  import opened HonestRuns
  import opened IndexerBackfill

  ghost predicate Decodes(events: seq<RawEvent>) {
    forall e :: e in events ==> !e.body.Malformed?
  }

  lemma {:induction false} IngestsWhatDecodes(db: Db, page: seq<RawEvent>, done: nat)
    requires done <= |page| && Decodes(page)
    ensures IngestAll(db, page, done).0
    decreases |page| - done
  {
    hide InsertEvent;
    if done < |page| {
      assert page[done] in page;
      IngestsWhatDecodes(db, page, done + 1);
      IngestsWhatDecodes(InsertEvent(db, page[done]), page, done + 1);
    }
  }

  lemma HonestPageAgrees(c: Config, log: seq<RawEvent>, lo: nat, hi: nat, db: Db, e: RawEvent)
    requires ChainLog(log) && lo <= hi && FingerprintsTrue(c, log, db) && e in PageOf(log, lo, hi)
    ensures Agrees(c.mix, db, PageOf(log, lo, hi), e.ledger)
  {
    hide LedgersOf, PageOf, ChainLog, FingerprintOf;
    LedgersOfMembers(PageOf(log, lo, hi), e.ledger);
    HonestObservation(c, log, lo, hi, db, e.ledger);
  }

  /** An honest page whose events decode is checked, stored and checkpointed, and moves the walk on. */
  lemma HonestPageGoesThrough(c: Config, log: seq<RawEvent>, horizon: nat, db: Db, p: Proc,
                              page: seq<RawEvent>, scanned: nat)
    requires c.pageSize >= 1 && ChainLog(log) && Decodes(log) && horizon < U32_MAX
    requires FingerprintsTrue(c, log, db) && p.Walking? && p.next <= p.tip <= horizon
    requires HonestPage(c, log, horizon, p.next, p.tip, page, scanned)
    ensures var m := AfterPage(c, db, p, page, scanned);
            var through := ScannedThrough(c, p.next, p.tip, scanned);
            && m.proc == Walking(through + 1, p.tip, p.pages + 1) && through >= p.next
            && m.db.checkpoint == Some(Checkpoint(through, through >= p.tip))
  {
    hide FingerprintsTrue, Agrees, CheckAll, LedgersOf, IngestAll;
    var hi :| scanned < hi <= SaturatingAddU32(p.next, c.pageSize) && hi <= horizon + 1
              && page == PageOf(log, p.next, hi);
    forall e | e in page ensures Agrees(c.mix, db, page, e.ledger) && !e.body.Malformed? {
      HonestPageAgrees(c, log, p.next, hi, db, e);
      PageIsRange(log, p.next, hi, e);
    }
    RefusedIffContradicted(c.mix, db, page);
    IngestsWhatDecodes(CheckAll(c.mix, db, page, LedgersOf(page)).1, page, 0);
  }

  lemma ExtendHonest(c: Config, log: seq<RawEvent>, horizon: nat, inputs: seq<Input>, x: Input)
    requires c.pageSize >= 1 && HonestRun(c, log, horizon, inputs)
    requires HonestInput(c, log, horizon, Steps(c, Fresh, inputs), x)
    ensures HonestRun(c, log, horizon, inputs + [x])
  {
    assert (inputs + [x])[..|inputs|] == inputs;
  }

  lemma {:induction false} ExtendWaiting(c: Config, log: seq<RawEvent>, horizon: nat, inputs: seq<Input>, n: nat)
    requires c.pageSize >= 1 && HonestRun(c, log, horizon, inputs)
    ensures HonestRun(c, log, horizon, inputs + Repeat(n))
  {
    hide HonestRun, Steps;
    if n == 0 {
      assert inputs + Repeat(0) == inputs;
    } else {
      ExtendWaiting(c, log, horizon, inputs, n - 1);
      ExtendHonest(c, log, horizon, inputs + Repeat(n - 1), Continue);
      assert inputs + Repeat(n - 1) + [Continue] == inputs + Repeat(n);
    }
  }

  lemma ExtendPage(c: Config, log: seq<RawEvent>, horizon: nat, inputs: seq<Input>, page: seq<RawEvent>, scanned: nat)
    requires c.pageSize >= 1 && HonestRun(c, log, horizon, inputs)
    requires HonestInput(c, log, horizon, Steps(c, Fresh, inputs), Fetched(page, scanned))
    ensures HonestRun(c, log, horizon, inputs + PageInputs(page, scanned))
  {
    hide HonestRun, Steps, Repeat, LedgersOf, HonestInput;
    var fetched, check, ingest := [Fetched(page, scanned)], Repeat(|LedgersOf(page)| + 1), Repeat(|page| + 1);
    ExtendHonest(c, log, horizon, inputs, Fetched(page, scanned));
    ExtendWaiting(c, log, horizon, inputs + fetched, |LedgersOf(page)| + 1);
    ExtendWaiting(c, log, horizon, inputs + fetched + check, |page| + 1);
    assert inputs + fetched + check + ingest == inputs + PageInputs(page, scanned);
  }

  /** Every answer is an honest page for the request that the pass then makes. */
  ghost predicate HonestFeed(c: Config, log: seq<RawEvent>, horizon: nat, next: nat, tip: nat,
                             feed: seq<Option<Page>>, pages: nat)
    requires c.pageSize >= 1
    decreases SaturatingSub(|feed|, pages)
  {
    next <= tip && pages < |feed| ==>
      && feed[pages].Some?
      && var page := feed[pages].value;
      && HonestPage(c, log, horizon, next, tip, page.events, page.latestLedgerScanned)
      && HonestFeed(c, log, horizon, ScannedThrough(c, next, tip, page.latestLedgerScanned) + 1, tip, feed, pages + 1)
  }

  /** One page of the pass, as a run: it stays honest, and goes on where the page ended. */
  lemma OneMorePage(c: Config, log: seq<RawEvent>, horizon: nat, inputs: seq<Input>, page: Page)
    requires ValidConfig(c) && ChainLog(log) && Decodes(log) && horizon < U32_MAX
    requires HonestRun(c, log, horizon, inputs)
    requires var p := Steps(c, Fresh, inputs).proc;
             && p.Walking? && p.next <= p.tip <= horizon
             && HonestPage(c, log, horizon, p.next, p.tip, page.events, page.latestLedgerScanned)
    ensures var m := Steps(c, Fresh, inputs);
            var inputs' := inputs + PageInputs(page.events, page.latestLedgerScanned);
            var m' := AfterPage(c, m.db, m.proc, page.events, page.latestLedgerScanned);
            var through := ScannedThrough(c, m.proc.next, m.proc.tip, page.latestLedgerScanned);
            && HonestRun(c, log, horizon, inputs') && Steps(c, Fresh, inputs') == m'
            && m'.proc == Walking(through + 1, m.proc.tip, m.proc.pages + 1) && through >= m.proc.next
  {
    hide HonestRun, HonestPage, ChainLog, Decodes, Steps, PageInputs, AfterPage, FingerprintsTrue;
    var m := Steps(c, Fresh, inputs);
    UnderWayFacts(c, log, horizon, inputs);
    ExtendPage(c, log, horizon, inputs, page.events, page.latestLedgerScanned);
    StepsAppend(c, Fresh, inputs, PageInputs(page.events, page.latestLedgerScanned));
    MachineTakesPage(c, m.db, m.proc, page.events, page.latestLedgerScanned);
    HonestPageGoesThrough(c, log, horizon, m.db, m.proc, page.events, page.latestLedgerScanned);
  }

  /** The rest of a pass, from any point of it. */
  lemma {:induction false} RestOfPass(c: Config, log: seq<RawEvent>, horizon: nat, inputs: seq<Input>,
                                      feed: seq<Option<Page>>, report: BackfillReport)
    requires ValidConfig(c) && ChainLog(log) && Decodes(log) && horizon < U32_MAX
    requires HonestRun(c, log, horizon, inputs)
    requires var p := Steps(c, Fresh, inputs).proc;
             && p.Walking? && p.tip <= horizon && p.pages == report.pages
             && HonestFeed(c, log, horizon, p.next, p.tip, feed, report.pages)
             && p.tip + 1 - p.next <= |feed| - report.pages
    ensures var m := Steps(c, Fresh, inputs);
            && HonestRun(c, log, horizon,
                         inputs + PassInputs(c, m.db, m.proc.next, m.proc.tip, feed, report.pages))
            && Pass(c, m.db, m.proc.next, m.proc.tip, feed, report).0.Some?
    decreases |feed| - report.pages
  {
    hide HonestRun, HonestPage, ChainLog, Decodes, Steps, PageInputs, AfterPage, ScannedThrough, CountsOf;
    var m := Steps(c, Fresh, inputs);
    if m.proc.next > m.proc.tip {
      ExtendHonest(c, log, horizon, inputs, Continue);
    } else {
      var page := feed[report.pages].value;
      OneMorePage(c, log, horizon, inputs, page);
      var ins := PageInputs(page.events, page.latestLedgerScanned);
      var m' := AfterPage(c, m.db, m.proc, page.events, page.latestLedgerScanned);
      var through := ScannedThrough(c, m.proc.next, m.proc.tip, page.latestLedgerScanned);
      var report' := Absorb(report, CountsOf(|m.db.rows|, |m'.db.rows|, page.events), through);
      assert m.proc == Walking(m.proc.next, m.proc.tip, report.pages);
      RestOfPass(c, log, horizon, inputs + ins, feed, report');
      var rest := PassInputs(c, m'.db, m'.proc.next, m.proc.tip, feed, report.pages + 1);
      assert inputs + ins + rest == inputs + (ins + rest);
    }
  }

  lemma UnderWayFacts(c: Config, log: seq<RawEvent>, horizon: nat, inputs: seq<Input>)
    requires ValidConfig(c) && ChainLog(log) && horizon < U32_MAX && HonestRun(c, log, horizon, inputs)
    requires Steps(c, Fresh, inputs).proc.Walking?
    ensures FingerprintsTrue(c, log, Steps(c, Fresh, inputs).db)
  {
    hide Steps, HonestRun, ChainLog, FingerprintsTrue, StoredThrough;
    var k := RunCovered(c, log, horizon, inputs);
  }

  /** From any state an honest run can be idle in, `run_to_tip` over an honest source whose events
      decode, given an answer per ledger at most, succeeds with everything up to the tip stored, in
      order and once; and what it did is again an honest run, so passes can follow each other. */
  lemma HonestPassCompletes(c: Config, log: seq<RawEvent>, tip: nat, inputs: seq<Input>, feed: seq<Option<Page>>)
    requires ValidConfig(c) && ChainLog(log) && Decodes(log) && c.start <= tip + 1 && tip < U32_MAX
    requires HonestRun(c, log, tip, inputs) && Steps(c, Fresh, inputs).proc.Idle?
    requires var next := ResumeLedger(c, Steps(c, Fresh, inputs).db);
             HonestFeed(c, log, tip, next, tip, feed, 0) && tip + 1 - next <= |feed|
    ensures var db := Steps(c, Fresh, inputs).db;
            var (r, db') := WholePass(c, db, tip, feed);
            var inputs' := inputs + [Begin(tip)] + PassInputs(c, db, ResumeLedger(c, db), tip, feed, 0);
            && r.Some? && r.value.lastLedger >= tip
            && db'.rows == Known(PageOf(log, c.start, tip + 1))
            && |db'.rows| == |db.rows| + r.value.stored
            && db'.checkpoint == Some(Checkpoint(r.value.lastLedger, true))
            && HonestRun(c, log, tip, inputs') && Steps(c, Fresh, inputs') == Machine(db', Idle)
  {
    hide Steps, HonestRun, HonestFeed, ChainLog, Decodes, Known, PageOf, Pass, PassInputs;
    var db := Steps(c, Fresh, inputs).db;
    var next := ResumeLedger(c, db);
    var begun := inputs + [Begin(tip)];
    ExtendHonest(c, log, tip, inputs, Begin(tip));
    StepsAppend(c, Fresh, inputs, [Begin(tip)]);
    BeginStep(c, db, tip);
    RestOfPass(c, log, tip, begun, feed, FirstReport(next));
    PassIsARun(c, db, next, tip, feed, FirstReport(next));
    ReportsAreTrue(c, db, next, tip, feed, FirstReport(next));
    var ins := PassInputs(c, db, next, tip, feed, 0);
    StepsAppend(c, Fresh, begun, ins);
    CompleteRunsAgree(c, log, tip, begun + ins, begun + ins);
  }
}
