/** Ingestion as a machine of small steps: it can stop between any two durable writes and resume
    from what the database holds. */
module BackfillModel {
  import opened Common
  import opened Events
  import opened Fingerprints

  datatype Checkpoint = Checkpoint(lastLedger: nat, complete: bool)

  /** What survives a restart: the append-only event log, the checkpoint row and the fingerprint table. */
  datatype Db = Db(rows: seq<RawEvent>, checkpoint: Option<Checkpoint>, fingerprints: map<nat, LedgerFingerprint>)

  const EmptyDb: Db := Db([], None, map[])

  datatype Config = Config(start: nat, pageSize: nat, mix: Mix)

  predicate ValidConfig(c: Config) {
    c.start <= U32_MAX && 1 <= c.pageSize <= U32_MAX
  }

  // ── Store ──

  predicate HasKey(rows: seq<RawEvent>, key: EventKey) {
    exists i :: 0 <= i < |rows| && KeyOf(rows[i]) == key
  }

  /** `INSERT ... ON CONFLICT DO NOTHING`. */
  function InsertEvent(db: Db, e: RawEvent): Db {
    if HasKey(db.rows, KeyOf(e)) then db else db.(rows := db.rows + [e])
  }

  // ── Reorg detection ──

  datatype DiscrepancyKind = EventsDisappeared | EventsAppeared | ContentChanged

  datatype Observation = FirstSight | Consistent | Discrepant(kind: DiscrepancyKind)

  function Compare(recorded: LedgerFingerprint, observed: LedgerFingerprint): Observation {
    if recorded == observed then Consistent
    else if observed.eventCount < recorded.eventCount then Discrepant(EventsDisappeared)
    else if observed.eventCount > recorded.eventCount then Discrepant(EventsAppeared)
    else Discrepant(ContentChanged)
  }

  function Observe(mix: Mix, db: Db, ledger: nat, page: seq<RawEvent>): (Observation, Db) {
    var observed := FingerprintOf(mix, ledger, page);
    if ledger !in db.fingerprints then (FirstSight, db.(fingerprints := db.fingerprints[ledger := observed]))
    else (Compare(db.fingerprints[ledger], observed), db)
  }

  /** The ledgers a page mentions, ascending and without repetition. */
  function LedgersOf(page: seq<RawEvent>): seq<nat> {
    if page == [] then [] else InsertLedger(LedgersOf(page[..|page| - 1]), page[|page| - 1].ledger)
  }

  function InsertLedger(ledgers: seq<nat>, ledger: nat): seq<nat> {
    if ledgers == [] || ledgers[|ledgers| - 1] < ledger then ledgers + [ledger]
    else if ledgers[|ledgers| - 1] == ledger then ledgers
    else InsertLedger(ledgers[..|ledgers| - 1], ledger) + [ledgers[|ledgers| - 1]]
  }

  // ── One pass ──

  /** Where a pass is. `Checking` has ledgers left to fingerprint, `Ingesting` events left to store. */
  datatype Proc =
    | Idle
    | Walking(next: nat, tip: nat, pages: nat)
    | Checking(next: nat, tip: nat, pages: nat, page: seq<RawEvent>, scanned: nat, todo: seq<nat>)
    | Ingesting(next: nat, tip: nat, pages: nat, page: seq<RawEvent>, scanned: nat, done: nat)

  datatype Machine = Machine(db: Db, proc: Proc)

  /** What the world does: start a pass at a known tip, answer a fetch, let the process take its
      next step, end the process, or move the checkpoint back. */
  datatype Input =
    | Begin(tip: nat)
    | Fetched(page: seq<RawEvent>, scanned: nat)
    | Continue
    | Stop
    | Rewind(ledger: nat)

  function ResumeLedger(c: Config, db: Db): nat {
    if db.checkpoint.Some? then SaturatingAddU32(db.checkpoint.value.lastLedger, 1) else c.start
  }

  function ScannedThrough(c: Config, next: nat, tip: nat, scanned: nat): nat
    requires c.pageSize >= 1
  {
    Max(scanned, Min(SaturatingAddU32(next, c.pageSize - 1), tip))
  }

  function SaveCheckpoint(db: Db, last: nat, complete: bool): Db {
    db.(checkpoint := Some(Checkpoint(last, complete)))
  }

  function Proceed(c: Config, m: Machine): Machine
    requires c.pageSize >= 1
  {
    match m.proc
    case Idle => m
    case Walking(next, tip, pages) =>
      if next <= tip then m
      else Machine(if pages == 0 then SaveCheckpoint(m.db, SaturatingSub(next, 1), true) else m.db, Idle)
    case Checking(next, tip, pages, page, scanned, todo) =>
      if todo == [] then Machine(m.db, Ingesting(next, tip, pages, page, scanned, 0))
      else
        var (seen, db) := Observe(c.mix, m.db, todo[0], page);
        Machine(db, if seen.Discrepant? then Idle else m.proc.(todo := todo[1..]))
    case Ingesting(next, tip, pages, page, scanned, done) =>
      if done < |page| then
        match page[done].body
        case Malformed(_) => Machine(m.db, Idle)
        case Unrecognised(_) => Machine(m.db, m.proc.(done := done + 1))
        case Recognised(_) => Machine(InsertEvent(m.db, page[done]), m.proc.(done := done + 1))
      else
        var through := ScannedThrough(c, next, tip, scanned);
        Machine(SaveCheckpoint(m.db, through, through >= tip),
                Walking(SaturatingAddU32(through, 1), tip, pages + 1))
  }

  function Step(c: Config, m: Machine, input: Input): Machine
    requires c.pageSize >= 1
  {
    match input
    case Begin(tip) => if m.proc.Idle? then m.(proc := Walking(ResumeLedger(c, m.db), tip, 0)) else m
    case Fetched(page, scanned) =>
      if m.proc.Walking? && m.proc.next <= m.proc.tip
      then m.(proc := Checking(m.proc.next, m.proc.tip, m.proc.pages, page, scanned, LedgersOf(page)))
      else m
    case Continue => Proceed(c, m)
    case Stop => m.(proc := Idle)
    case Rewind(ledger) =>
      if && m.proc.Idle? && m.db.checkpoint.Some?
         && c.start <= ledger + 1 && ledger <= m.db.checkpoint.value.lastLedger
      then m.(db := SaveCheckpoint(m.db, ledger, false))
      else m
  }

  function Steps(c: Config, m: Machine, inputs: seq<Input>): Machine
    requires c.pageSize >= 1
  {
    if inputs == [] then m
    else Step(c, Steps(c, m, inputs[..|inputs| - 1]), inputs[|inputs| - 1])
  }

  const Fresh: Machine := Machine(EmptyDb, Idle)

  lemma {:induction false} StepsAppend(c: Config, m: Machine, a: seq<Input>, b: seq<Input>)
    requires c.pageSize >= 1
    ensures Steps(c, m, a + b) == Steps(c, Steps(c, m, a), b)
  {
    if b == [] {
      assert a + b == a;
    } else {
      assert (a + b)[..|a + b| - 1] == a + b[..|b| - 1];
      StepsAppend(c, m, a, b[..|b| - 1]);
    }
  }

  lemma {:induction false} LedgersOfMembers(page: seq<RawEvent>, ledger: nat)
    ensures ledger in LedgersOf(page) <==> exists e :: e in page && e.ledger == ledger
  {
    if page != [] {
      var front, last := page[..|page| - 1], page[|page| - 1];
      LedgersOfMembers(front, ledger);
      InsertLedgerMembers(LedgersOf(front), last.ledger, ledger);
      assert page == front + [last];
      if ledger == last.ledger {
        assert last in page && last.ledger == ledger;
      } else if ledger in LedgersOf(front) {
        var e :| e in front && e.ledger == ledger;
        assert e in page;
      }
    }
  }

  lemma {:induction false} InsertLedgerMembers(ledgers: seq<nat>, added: nat, ledger: nat)
    ensures ledger in InsertLedger(ledgers, added) <==> ledger in ledgers || ledger == added
  {
    if ledgers != [] {
      InsertLedgerMembers(ledgers[..|ledgers| - 1], added, ledger);
      assert ledgers == ledgers[..|ledgers| - 1] + [ledgers[|ledgers| - 1]];
    }
  }
}
