/** Ingestion from a chain that does not contradict itself: whatever is interrupted, resumed or
    rewound, the stored log is a prefix of the chain's log. */
module HonestRuns {
  import opened Common
  import opened Events
  import opened Fingerprints
  import opened BackfillModel

  // ── The chain ──

  ghost predicate Ascending(log: seq<RawEvent>) {
    forall i, j :: 0 <= i < j < |log| ==> log[i].ledger <= log[j].ledger
  }

  /** A chain's event log: in ledger order, no emission twice. */
  ghost predicate ChainLog(log: seq<RawEvent>) {
    Ascending(log) && DistinctKeys(log)
  }

  /** How many events of the log lie below `ledger`. */
  function Below(log: seq<RawEvent>, ledger: nat): (n: nat)
    ensures n <= |log|
  {
    if log == [] then 0
    else if log[|log| - 1].ledger < ledger then |log|
    else Below(log[..|log| - 1], ledger)
  }

  lemma {:induction false} BelowSplits(log: seq<RawEvent>, ledger: nat, i: nat)
    requires Ascending(log) && i < |log|
    ensures log[i].ledger < ledger <==> i < Below(log, ledger)
  {
    if log[|log| - 1].ledger >= ledger && i < |log| - 1 {
      BelowSplits(log[..|log| - 1], ledger, i);
    }
  }

  lemma {:induction false} BelowMonotone(log: seq<RawEvent>, a: nat, b: nat)
    requires a <= b
    ensures Below(log, a) <= Below(log, b)
  {
    if log != [] && log[|log| - 1].ledger >= b {
      BelowMonotone(log[..|log| - 1], a, b);
    }
  }

  /** The events of ledgers `lo` up to but not including `hi`. */
  function PageOf(log: seq<RawEvent>, lo: nat, hi: nat): seq<RawEvent>
    requires lo <= hi
  {
    BelowMonotone(log, lo, hi);
    log[Below(log, lo)..Below(log, hi)]
  }

  /** A page is exactly its ledger range of the log. */
  lemma PageIsRange(log: seq<RawEvent>, lo: nat, hi: nat, e: RawEvent)
    requires Ascending(log) && lo <= hi
    ensures e in PageOf(log, lo, hi) <==> e in log && lo <= e.ledger < hi
  {
    BelowMonotone(log, lo, hi);
    var a, b := Below(log, lo), Below(log, hi);
    if e in PageOf(log, lo, hi) {
      var i :| 0 <= i < b - a && log[a..b][i] == e;
      BelowSplits(log, lo, a + i);
      BelowSplits(log, hi, a + i);
    }
    if e in log && lo <= e.ledger < hi {
      var i :| 0 <= i < |log| && log[i] == e;
      BelowSplits(log, lo, i);
      BelowSplits(log, hi, i);
      assert log[a..b][i - a] == e;
    }
  }

  // ── Honest sources ──

  /** The source answers from the chain as it stands, some ledger `visible` at or past the pass's
      tip: the page is the requested range as far as it is visible. */
  ghost predicate HonestPage(c: Config, log: seq<RawEvent>, horizon: nat, next: nat, tip: nat,
                             page: seq<RawEvent>, scanned: nat)
    requires c.pageSize >= 1
  {
    var end := SaturatingAddU32(next, c.pageSize);
    && next <= scanned < end
    && Min(end - 1, tip) <= scanned <= horizon
    && exists hi :: scanned < hi <= end && hi <= horizon + 1 && page == PageOf(log, next, hi)
  }

  ghost predicate HonestInput(c: Config, log: seq<RawEvent>, horizon: nat, m: Machine, input: Input)
    requires c.pageSize >= 1
  {
    match input
    case Begin(tip) => tip <= horizon
    case Fetched(page, scanned) =>
      m.proc.Walking? && m.proc.next <= m.proc.tip ==>
        HonestPage(c, log, horizon, m.proc.next, m.proc.tip, page, scanned)
    case _ => true
  }

  ghost predicate HonestRun(c: Config, log: seq<RawEvent>, horizon: nat, inputs: seq<Input>)
    requires c.pageSize >= 1
  {
    inputs == [] ||
    (&& HonestRun(c, log, horizon, inputs[..|inputs| - 1])
     && HonestInput(c, log, horizon, Steps(c, Fresh, inputs[..|inputs| - 1]), inputs[|inputs| - 1]))
  }

  // ── The invariant ──

  /** The rows are the known events of the log from the start ledger, up to log position `k`. */
  ghost predicate StoredThrough(c: Config, log: seq<RawEvent>, db: Db, k: nat) {
    && Below(log, c.start) <= k <= |log|
    && db.rows == Known(log[Below(log, c.start)..k])
  }

  ghost predicate FingerprintsTrue(c: Config, log: seq<RawEvent>, db: Db) {
    forall l :: l in db.fingerprints ==> db.fingerprints[l] == FingerprintOf(c.mix, l, log)
  }

  /** Everything up to the checkpoint is stored. */
  ghost predicate CheckpointCovered(c: Config, log: seq<RawEvent>, db: Db, k: nat) {
    db.checkpoint.Some? ==>
      var last := db.checkpoint.value.lastLedger;
      c.start <= last + 1 && last < U32_MAX && Below(log, last + 1) <= k
  }

  ghost predicate PassCovered(c: Config, log: seq<RawEvent>, horizon: nat, proc: Proc, k: nat)
    requires c.pageSize >= 1
  {
    match proc
    case Idle => true
    case Walking(next, tip, _) => c.start <= next <= U32_MAX && tip <= horizon && Below(log, next) <= k
    case Checking(next, tip, _, page, scanned, todo) =>
      && c.start <= next <= tip <= horizon && Below(log, next) <= k
      && HonestPage(c, log, horizon, next, tip, page, scanned)
      && (forall l :: l in todo ==> l in LedgersOf(page))
    case Ingesting(next, tip, _, page, scanned, done) =>
      && c.start <= next <= tip <= horizon && done <= |page|
      && HonestPage(c, log, horizon, next, tip, page, scanned)
      && Below(log, next) + done <= k
  }

  ghost predicate Covered(c: Config, log: seq<RawEvent>, horizon: nat, m: Machine, k: nat)
    requires c.pageSize >= 1
  {
    && StoredThrough(c, log, m.db, k)
    && k <= Max(Below(log, c.start), Below(log, horizon + 1))
    && FingerprintsTrue(c, log, m.db)
    && CheckpointCovered(c, log, m.db, k)
    && PassCovered(c, log, horizon, m.proc, k)
  }

  // ── Fingerprinting an honest page ──

  lemma {:induction false} SelectNone(events: seq<RawEvent>, keep: RawEvent -> bool)
    requires forall e :: e in events ==> !keep(e)
    ensures Select(events, keep) == []
  {
    if events != [] {
      SelectNone(events[..|events| - 1], keep);
    }
  }

  lemma BelowPrefix(log: seq<RawEvent>, ledger: nat, e: RawEvent)
    requires Ascending(log)
    ensures e in log[..Below(log, ledger)] ==> e.ledger < ledger
    ensures e in log[Below(log, ledger)..] ==> e.ledger >= ledger
  {
    var a := Below(log, ledger);
    if e in log[..a] {
      var i :| 0 <= i < a && log[i] == e;
      BelowSplits(log, ledger, i);
    }
    if e in log[a..] {
      var i :| 0 <= i < |log| - a && log[a..][i] == e;
      BelowSplits(log, ledger, a + i);
    }
  }

  /** A page holds all of every ledger it covers. */
  lemma PageHoldsWholeLedgers(log: seq<RawEvent>, lo: nat, hi: nat, ledger: nat)
    requires Ascending(log) && lo <= ledger < hi
    ensures InLedger(ledger, PageOf(log, lo, hi)) == InLedger(ledger, log)
  {
    hide Select, Below, Ascending;
    BelowMonotone(log, lo, hi);
    var a, b := Below(log, lo), Below(log, hi);
    var before, within, after := log[..a], log[a..b], log[b..];
    assert log == before + within + after;
    forall e | e in before ensures !OfLedger(ledger)(e) { BelowPrefix(log, lo, e); }
    forall e | e in after ensures !OfLedger(ledger)(e) { BelowPrefix(log, hi, e); }
    SelectConcat(before + within, after, OfLedger(ledger));
    SelectConcat(before, within, OfLedger(ledger));
    SelectNone(before, OfLedger(ledger));
    SelectNone(after, OfLedger(ledger));
  }

  /** An honest page never contradicts what was recorded. */
  lemma HonestObservation(c: Config, log: seq<RawEvent>, lo: nat, hi: nat, db: Db, ledger: nat)
    requires ChainLog(log) && lo <= hi && FingerprintsTrue(c, log, db)
    requires ledger in LedgersOf(PageOf(log, lo, hi))
    ensures var (seen, db') := Observe(c.mix, db, ledger, PageOf(log, lo, hi));
            && !seen.Discrepant?
            && FingerprintsTrue(c, log, db')
            && db'.(fingerprints := db.fingerprints) == db
  {
    hide LedgersOf, PageOf, Ascending, DistinctKeys, Digest;
    LedgersOfMembers(PageOf(log, lo, hi), ledger);
    var e :| e in PageOf(log, lo, hi) && e.ledger == ledger;
    PageIsRange(log, lo, hi, e);
    PageHoldsWholeLedgers(log, lo, hi, ledger);
  }

  // ── Storing an honest page ──

  /** The next event of the log goes to the end of the rows. */
  lemma StoreNext(c: Config, log: seq<RawEvent>, db: Db, k: nat)
    requires ChainLog(log) && StoredThrough(c, log, db, k) && k < |log|
    ensures StoredThrough(c, log, if log[k].body.Recognised? then InsertEvent(db, log[k]) else db, k + 1)
  {
    var b0 := Below(log, c.start);
    var seen := log[b0..k];
    var grown := log[b0..k + 1];
    assert grown[..|grown| - 1] == seen && grown[|grown| - 1] == log[k];
    assert Known(grown) == Known(seen) + (if log[k].body.Recognised? then [log[k]] else []);
    forall i | 0 <= i < |db.rows| ensures KeyOf(db.rows[i]) != KeyOf(log[k]) {
      KnownMembers(seen, db.rows[i]);
      var j :| 0 <= j < |seen| && seen[j] == db.rows[i];
      assert log[b0 + j] == db.rows[i];
    }
  }

  /** An event already covered is recognised as stored. */
  lemma StoreAgain(c: Config, log: seq<RawEvent>, db: Db, k: nat, i: nat)
    requires StoredThrough(c, log, db, k) && Below(log, c.start) <= i < k && log[i].body.Recognised?
    ensures InsertEvent(db, log[i]) == db
  {
    var b0 := Below(log, c.start);
    assert log[b0..k][i - b0] == log[i];
    KnownMembers(log[b0..k], log[i]);
    var r :| 0 <= r < |db.rows| && db.rows[r] == log[i];
    assert HasKey(db.rows, KeyOf(log[i]));
  }

  lemma IngestCovered(c: Config, log: seq<RawEvent>, horizon: nat, m: Machine, k: nat) returns (k': nat)
    requires c.pageSize >= 1 && ChainLog(log) && Covered(c, log, horizon, m, k)
    requires m.proc.Ingesting? && m.proc.done < |m.proc.page|
    ensures k <= k' && Covered(c, log, horizon, Proceed(c, m), k')
  {
    hide Known, FingerprintsTrue, ChainLog, Covered, StoredThrough, InsertEvent;
    var p := m.proc;
    var at := NextOfPage(c, log, horizon, m, k);
    if p.page[p.done].body.Malformed? {
      k' := k;
      StopsCovered(c, log, horizon, m, k);
    } else if at < k {
      k' := k;
      if log[at].body.Recognised? { StoreAgain(c, log, m.db, k, at); }
      MovesOnCovered(c, log, horizon, m, k, k, m.db.rows);
    } else {
      k' := k + 1;
      StoreNext(c, log, m.db, k);
      OnlyRows(m.db, log[k]);
      var db := if log[k].body.Recognised? then InsertEvent(m.db, log[k]) else m.db;
      assert m.db.(rows := db.rows) == db;
      MovesOnCovered(c, log, horizon, m, k, k', db.rows);
    }
  }

  lemma OnlyRows(db: Db, e: RawEvent)
    ensures InsertEvent(db, e) == db.(rows := InsertEvent(db, e).rows)
  {
  }

  lemma StopsCovered(c: Config, log: seq<RawEvent>, horizon: nat, m: Machine, k: nat)
    requires c.pageSize >= 1 && Covered(c, log, horizon, m, k)
    ensures Covered(c, log, horizon, m.(proc := Idle), k)
  {
  }

  /** The event a pass ingests next, as a position in the log. */
  lemma NextOfPage(c: Config, log: seq<RawEvent>, horizon: nat, m: Machine, k: nat) returns (at: nat)
    requires c.pageSize >= 1 && Covered(c, log, horizon, m, k)
    requires m.proc.Ingesting? && m.proc.done < |m.proc.page|
    ensures at == Below(log, m.proc.next) + m.proc.done && at <= k <= |log|
    ensures Below(log, c.start) <= at < Below(log, horizon + 1)
    ensures m.proc.page[m.proc.done] == log[at]
    ensures StoredThrough(c, log, m.db, k)
  {
    hide Known, FingerprintsTrue, CheckpointCovered;
    var p := m.proc;
    var hi :| p.scanned < hi <= SaturatingAddU32(p.next, c.pageSize) && hi <= horizon + 1
              && p.page == PageOf(log, p.next, hi);
    BelowMonotone(log, p.next, hi);
    BelowMonotone(log, hi, horizon + 1);
    BelowMonotone(log, c.start, p.next);
    at := Below(log, p.next) + p.done;
  }

  lemma MovesOnCovered(c: Config, log: seq<RawEvent>, horizon: nat, m: Machine, k: nat, k': nat, rows: seq<RawEvent>)
    requires c.pageSize >= 1 && Covered(c, log, horizon, m, k)
    requires m.proc.Ingesting? && m.proc.done < |m.proc.page|
    requires k <= k' <= Max(k, Below(log, horizon + 1)) && Below(log, m.proc.next) + m.proc.done + 1 <= k'
    requires StoredThrough(c, log, m.db.(rows := rows), k')
    ensures Covered(c, log, horizon, Machine(m.db.(rows := rows), m.proc.(done := m.proc.done + 1)), k')
  {
    hide StoredThrough, HonestPage;
  }

  lemma SaveCovered(c: Config, log: seq<RawEvent>, horizon: nat, m: Machine, k: nat)
    requires c.pageSize >= 1 && horizon < U32_MAX && Covered(c, log, horizon, m, k)
    requires m.proc.Ingesting? && m.proc.done == |m.proc.page|
    ensures Covered(c, log, horizon, Proceed(c, m), k)
  {
    hide Known, FingerprintOf;
    var p := m.proc;
    var hi :| p.scanned < hi <= SaturatingAddU32(p.next, c.pageSize) && hi <= horizon + 1
              && p.page == PageOf(log, p.next, hi);
    var through := ScannedThrough(c, p.next, p.tip, p.scanned);
    BelowMonotone(log, p.next, hi);
    BelowMonotone(log, through + 1, hi);
  }

  lemma CheckCovered(c: Config, log: seq<RawEvent>, horizon: nat, m: Machine, k: nat)
    requires c.pageSize >= 1 && ChainLog(log) && Covered(c, log, horizon, m, k) && m.proc.Checking?
    ensures Covered(c, log, horizon, Proceed(c, m), k)
    ensures !Proceed(c, m).proc.Idle?
  {
    hide Known, FingerprintOf;
    var p := m.proc;
    if p.todo != [] {
      var hi :| p.scanned < hi <= SaturatingAddU32(p.next, c.pageSize) && hi <= horizon + 1
                && p.page == PageOf(log, p.next, hi);
      HonestObservation(c, log, p.next, hi, m.db, p.todo[0]);
    }
  }

  lemma OtherCovered(c: Config, log: seq<RawEvent>, horizon: nat, m: Machine, input: Input, k: nat)
    requires ValidConfig(c) && horizon < U32_MAX && Covered(c, log, horizon, m, k)
    requires HonestInput(c, log, horizon, m, input)
    requires input.Continue? ==> m.proc.Walking? || m.proc.Idle?
    ensures Covered(c, log, horizon, Step(c, m, input), k)
  {
    hide Known, FingerprintOf;
    if input.Rewind? && Step(c, m, input) != m {
      BelowMonotone(log, input.ledger + 1, m.db.checkpoint.value.lastLedger + 1);
    }
  }

  lemma StepCovered(c: Config, log: seq<RawEvent>, horizon: nat, m: Machine, input: Input, k: nat) returns (k': nat)
    requires ValidConfig(c) && ChainLog(log) && horizon < U32_MAX && Covered(c, log, horizon, m, k)
    requires HonestInput(c, log, horizon, m, input)
    ensures k <= k' && Covered(c, log, horizon, Step(c, m, input), k')
  {
    hide Covered, HonestInput, Proceed, ChainLog;
    k' := k;
    if input.Continue? && m.proc.Checking? {
      CheckCovered(c, log, horizon, m, k);
    } else if input.Continue? && m.proc.Ingesting? {
      DoneInRange(c, log, horizon, m, k);
      if m.proc.done < |m.proc.page| {
        k' := IngestCovered(c, log, horizon, m, k);
      } else {
        SaveCovered(c, log, horizon, m, k);
      }
    } else {
      OtherCovered(c, log, horizon, m, input, k);
    }
  }

  lemma DoneInRange(c: Config, log: seq<RawEvent>, horizon: nat, m: Machine, k: nat)
    requires c.pageSize >= 1 && Covered(c, log, horizon, m, k) && m.proc.Ingesting?
    ensures m.proc.done <= |m.proc.page|
  {
  }

  lemma {:induction false} RunCovered(c: Config, log: seq<RawEvent>, horizon: nat, inputs: seq<Input>) returns (k: nat)
    requires ValidConfig(c) && ChainLog(log) && horizon < U32_MAX && HonestRun(c, log, horizon, inputs)
    ensures Covered(c, log, horizon, Steps(c, Fresh, inputs), k)
  {
    hide Covered, HonestInput, Step, ChainLog;
    if inputs == [] {
      k := Below(log, c.start);
      FreshCovered(c, log, horizon);
    } else {
      var front := inputs[..|inputs| - 1];
      var k0 := RunCovered(c, log, horizon, front);
      k := StepCovered(c, log, horizon, Steps(c, Fresh, front), inputs[|inputs| - 1], k0);
    }
  }

  lemma FreshCovered(c: Config, log: seq<RawEvent>, horizon: nat)
    requires ValidConfig(c)
    ensures Covered(c, log, horizon, Fresh, Below(log, c.start))
  {
  }

  // ── Theorems ──

  /** In every honest run the rows are, in order, the known events of the log from the start ledger
      up to some point, and that point is past everything the checkpoint claims. */
  lemma StoredLogIsAPrefix(c: Config, log: seq<RawEvent>, horizon: nat, inputs: seq<Input>)
    requires ValidConfig(c) && ChainLog(log) && horizon < U32_MAX && HonestRun(c, log, horizon, inputs)
    ensures var db := Steps(c, Fresh, inputs).db;
            && db.rows <= Known(log[Below(log, c.start)..])
            && DistinctKeys(db.rows)
            && (db.checkpoint.Some? ==>
                  forall e ::
                    (e in log && e.body.Recognised? && c.start <= e.ledger <= db.checkpoint.value.lastLedger)
                    ==> e in db.rows)
  {
    hide Steps, HonestRun, PassCovered, FingerprintsTrue, StoredThrough, CheckpointCovered;
    hide ChainLog, Known, DistinctKeys;
    var db := Steps(c, Fresh, inputs).db;
    var k := RunCovered(c, log, horizon, inputs);
    RowsArePrefix(c, log, db, k);
    forall e | db.checkpoint.Some? && e in log && e.body.Recognised?
               && c.start <= e.ledger <= db.checkpoint.value.lastLedger
      ensures e in db.rows
    {
      CheckpointedIsStored(c, log, db, k, e);
    }
  }

  lemma RowsArePrefix(c: Config, log: seq<RawEvent>, db: Db, k: nat)
    requires ChainLog(log) && StoredThrough(c, log, db, k)
    ensures db.rows <= Known(log[Below(log, c.start)..]) && DistinctKeys(db.rows)
  {
    hide Known, DistinctKeys, Ascending;
    var b0 := Below(log, c.start);
    assert log[b0..][..k - b0] == log[b0..k];
    KnownPrefix(log[b0..], k - b0);
    SliceDistinct(log, b0, k);
    KnownDistinct(log[b0..k]);
  }

  lemma CheckpointedIsStored(c: Config, log: seq<RawEvent>, db: Db, k: nat, e: RawEvent)
    requires ChainLog(log) && StoredThrough(c, log, db, k) && CheckpointCovered(c, log, db, k)
    requires e in log && e.body.Recognised?
    requires db.checkpoint.Some? && c.start <= e.ledger <= db.checkpoint.value.lastLedger
    ensures e in db.rows
  {
    hide Known, DistinctKeys, Ascending;
    var b0 := Below(log, c.start);
    var i :| 0 <= i < |log| && log[i] == e;
    BelowSplits(log, c.start, i);
    BelowSplits(log, db.checkpoint.value.lastLedger + 1, i);
    assert log[b0..k][i - b0] == e;
    KnownMembers(log[b0..k], e);
  }

  lemma SliceDistinct(log: seq<RawEvent>, a: nat, b: nat)
    requires DistinctKeys(log) && a <= b <= |log|
    ensures DistinctKeys(log[a..b])
  {
  }

  /** Interrupted or not, any two runs that have reached the end of what was visible hold the same log. */
  lemma CompleteRunsAgree(c: Config, log: seq<RawEvent>, horizon: nat, inputs: seq<Input>, inputs': seq<Input>)
    requires ValidConfig(c) && ChainLog(log) && horizon < U32_MAX
    requires HonestRun(c, log, horizon, inputs) && HonestRun(c, log, horizon, inputs')
    requires var cp := Steps(c, Fresh, inputs).db.checkpoint; cp.Some? && cp.value.lastLedger >= horizon
    requires var cp := Steps(c, Fresh, inputs').db.checkpoint; cp.Some? && cp.value.lastLedger >= horizon
    ensures Steps(c, Fresh, inputs).db.rows == Steps(c, Fresh, inputs').db.rows
    ensures c.start <= horizon + 1 ==>
              Steps(c, Fresh, inputs).db.rows == Known(PageOf(log, c.start, horizon + 1))
  {
    hide Steps, HonestRun, PassCovered, FingerprintsTrue, Known;
    var k := RunCovered(c, log, horizon, inputs);
    var k' := RunCovered(c, log, horizon, inputs');
    BelowMonotone(log, horizon + 1, Steps(c, Fresh, inputs).db.checkpoint.value.lastLedger + 1);
    BelowMonotone(log, horizon + 1, Steps(c, Fresh, inputs').db.checkpoint.value.lastLedger + 1);
    if c.start <= horizon + 1 { BelowMonotone(log, c.start, horizon + 1); }
  }

  /** An honest source is never reported as contradicting itself: no step that checks a page ends the pass. */
  lemma HonestPagesAreNeverRefused(c: Config, log: seq<RawEvent>, horizon: nat, inputs: seq<Input>)
    requires ValidConfig(c) && ChainLog(log) && horizon < U32_MAX && HonestRun(c, log, horizon, inputs)
    requires Steps(c, Fresh, inputs).proc.Checking?
    ensures !Step(c, Steps(c, Fresh, inputs), Continue).proc.Idle?
  {
    hide Steps, HonestRun, Proceed, Covered;
    var k := RunCovered(c, log, horizon, inputs);
    CheckCovered(c, log, horizon, Steps(c, Fresh, inputs), k);
  }
}
