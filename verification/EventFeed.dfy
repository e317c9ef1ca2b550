/** Cursor paging over the event table, while the table grows. */
module EventFeed {
  import opened Common

  import opened Events
  import opened BackfillModel
  import opened ReorgRuns

  datatype Row = Row(cursor: int, event: RawEvent)

  datatype EventType =
    | InitializedType | PausedType | FeeUpdatedType | AdminTransferredType
    | MinRewardUpdatedType | FeesSweptType | UpgradedType | TaskType(kind: nat)

  datatype Filter = Filter(eventType: Option<EventType>, address: Option<Address>)

  datatype EventPage = EventPage(events: seq<Row>, nextCursor: Option<int>)

  /** The table in cursor order: cursors are assigned by the database, positive and ever larger. */
  ghost predicate Table(rows: seq<Row>) {
    && (forall i :: 0 <= i < |rows| ==> rows[i].cursor > 0)
    && (forall i, j :: 0 <= i < j < |rows| ==> rows[i].cursor < rows[j].cursor)
  }

  function TypeOf(p: EventPayload): EventType {
    match p
    case Initialized(_, _, _) => InitializedType
    case Paused(_) => PausedType
    case FeeUpdated(_, _) => FeeUpdatedType
    case AdminTransferred(_, _) => AdminTransferredType
    case MinRewardUpdated(_, _) => MinRewardUpdatedType
    case FeesSwept(_, _, _) => FeesSweptType
    case Upgraded(_, _) => UpgradedType
    case TaskEvent(kind, _, _, _) => TaskType(kind)
  }

  /** The `WHERE` clause besides the cursor. Only recognised events are ever stored. */
  predicate Matches(f: Filter, row: Row) {
    && row.event.body.Recognised?
    && var p := row.event.body.payload;
    && (f.eventType.None? || f.eventType.value == TypeOf(p))
    && (f.address.None? || (p.TaskEvent? && (p.owner == f.address || p.keeper == f.address)))
  }

  /** The addresses an event concerns. */
  function Parties(p: EventPayload): set<Address> {
    if !p.TaskEvent? then {}
    else (if p.owner.Some? then {p.owner.value} else {}) + (if p.keeper.Some? then {p.keeper.value} else {})
  }

  predicate SameKind(p: EventPayload, q: EventPayload) {
    || (p.Initialized? && q.Initialized?) || (p.Paused? && q.Paused?) || (p.FeeUpdated? && q.FeeUpdated?)
    || (p.AdminTransferred? && q.AdminTransferred?) || (p.MinRewardUpdated? && q.MinRewardUpdated?)
    || (p.FeesSwept? && q.FeesSwept?) || (p.Upgraded? && q.Upgraded?)
    || (p.TaskEvent? && q.TaskEvent? && p.kind == q.kind)
  }

  /** Without a filter every stored event is listed; an address lists the events whose owner or keeper it
      is; a type lists the events of that kind; both together list what each would. */
  lemma FilterMeans(row: Row, f: Filter, a: Address, like: EventPayload)
    requires row.event.body.Recognised?
    ensures Matches(Filter(None, None), row)
    ensures Matches(Filter(None, Some(a)), row) <==> a in Parties(row.event.body.payload)
    ensures Matches(Filter(Some(TypeOf(like)), None), row) <==> SameKind(row.event.body.payload, like)
    ensures Matches(f, row) <==> Matches(Filter(f.eventType, None), row) && Matches(Filter(None, f.address), row)
  {
  }

  /** The matching rows after a cursor, oldest first. */
  function Matching(f: Filter, after: int, rows: seq<Row>): seq<Row> {
    if rows == [] then []
    else
      var row := rows[|rows| - 1];
      Matching(f, after, rows[..|rows| - 1]) + (if row.cursor > after && Matches(f, row) then [row] else [])
  }

  /** `events_after`: select one row more than asked for, and hand out a cursor when it was there. */
  method EventsAfter(rows: seq<Row>, after: Option<int>, limit: nat, f: Filter) returns (page: EventPage)
    ensures page == ReadPage(rows, after, limit, f)
  {
    var found: seq<Row> := [];
    var i := 0;
    while i < |rows| && |found| < limit + 1
      invariant i <= |rows|
      invariant |found| <= limit + 1
      invariant found == Matching(f, Start(after), rows[..i])
    {
      assert rows[..i + 1][..i] == rows[..i];
      if rows[i].cursor > Start(after) && Matches(f, rows[i]) {
        found := found + [rows[i]];
      }
      i := i + 1;
    }
    assert rows[..|rows|] == rows;
    MatchingGrows(f, Start(after), rows[..i], rows);
    var events := found[..Min(limit, |found|)];
    var nextCursor := None;
    if |found| > limit && events != [] {
      nextCursor := Some(events[|events| - 1].cursor);
    }
    page := EventPage(events, nextCursor);
  }

  function Start(after: Option<int>): int {
    if after.Some? then after.value else 0
  }

  /** The first `limit` matches, and a cursor exactly when there are more (and any were asked for). */
  function ReadPage(rows: seq<Row>, after: Option<int>, limit: nat, f: Filter): EventPage {
    var all := Matching(f, Start(after), rows);
    EventPage(all[..Min(limit, |all|)], if 0 < limit < |all| then Some(all[limit - 1].cursor) else None)
  }

  lemma {:induction false} MatchingGrows(f: Filter, after: int, rows: seq<Row>, more: seq<Row>)
    requires rows <= more
    ensures Matching(f, after, rows) <= Matching(f, after, more)
  {
    if |rows| < |more| {
      MatchingGrows(f, after, rows, more[..|more| - 1]);
    } else {
      assert rows == more;
    }
  }

  lemma {:induction false} MatchingMembers(f: Filter, after: int, rows: seq<Row>, row: Row)
    ensures row in Matching(f, after, rows) <==> row in rows && row.cursor > after && Matches(f, row)
  {
    if rows != [] {
      MatchingMembers(f, after, rows[..|rows| - 1], row);
      assert rows == rows[..|rows| - 1] + [rows[|rows| - 1]];
    }
  }

  lemma {:induction false} MatchingIncreasing(f: Filter, after: int, rows: seq<Row>)
    requires Table(rows)
    ensures Table(Matching(f, after, rows))
  {
    if rows != [] {
      var front := rows[..|rows| - 1];
      MatchingIncreasing(f, after, front);
      var m := Matching(f, after, front);
      forall i | 0 <= i < |m| ensures 0 < m[i].cursor < rows[|rows| - 1].cursor {
        MatchingMembers(f, after, front, m[i]);
      }
    }
  }

  /** Asking after the last row handed out asks for exactly the rest. */
  lemma {:induction false} ResumeAfter(f: Filter, rows: seq<Row>, k: nat)
    requires Table(rows) && 0 < k <= |Matching(f, 0, rows)|
    ensures Matching(f, Matching(f, 0, rows)[k - 1].cursor, rows) == Matching(f, 0, rows)[k..]
  {
    var all := Matching(f, 0, rows);
    var front, last := rows[..|rows| - 1], rows[|rows| - 1];
    var m := Matching(f, 0, front);
    MatchingIncreasing(f, 0, rows);
    if k <= |m| {
      ResumeAfter(f, front, k);
      MatchingMembers(f, 0, front, m[k - 1]);
    } else {
      assert all[k - 1] == last;
      NothingAfter(f, last.cursor, front);
    }
  }

  lemma {:induction false} NothingAfter(f: Filter, after: int, rows: seq<Row>)
    requires forall i :: 0 <= i < |rows| ==> rows[i].cursor <= after
    ensures Matching(f, after, rows) == []
  {
    if rows != [] {
      NothingAfter(f, after, rows[..|rows| - 1]);
    }
  }

  /** A next cursor is handed out exactly when following it leads to more; without one the page holds all
      that was left. */
  lemma NextCursorLeadsOn(rows: seq<Row>, after: Option<int>, limit: nat, f: Filter)
    requires Table(rows) && limit > 0
    ensures var page := ReadPage(rows, after, limit, f);
            && (page.nextCursor.Some? ==>
                  && |page.events| == limit && page.nextCursor.value == page.events[limit - 1].cursor
                  && ReadPage(rows, page.nextCursor, limit, f).events != [])
            && (page.nextCursor.None? ==>
                  forall row :: row in page.events <==> row in rows && row.cursor > Start(after) && Matches(f, row))
            && (page.nextCursor.None? && page.events != [] ==>
                  ReadPage(rows, Some(page.events[|page.events| - 1].cursor), limit, f).events == [])
  {
    hide Matches, Matching, Table;
    var all := Matching(f, Start(after), rows);
    if limit < |all| {
      MoreLeft(f, Start(after), rows, limit);
    } else {
      assert all[..Min(limit, |all|)] == all;
      forall row ensures row in all <==> row in rows && row.cursor > Start(after) && Matches(f, row) {
        MatchingMembers(f, Start(after), rows, row);
      }
      if all != [] {
        NothingLeft(f, Start(after), rows);
      }
    }
  }

  lemma MoreLeft(f: Filter, after: int, rows: seq<Row>, k: nat)
    requires Table(rows) && 0 < k < |Matching(f, after, rows)|
    ensures Matching(f, Matching(f, after, rows)[k - 1].cursor, rows) != []
  {
    hide Matches, Matching;
    var all := Matching(f, after, rows);
    MatchingIncreasing(f, after, rows);
    MatchingMembers(f, after, rows, all[k]);
    MatchingMembers(f, all[k - 1].cursor, rows, all[k]);
  }

  lemma NothingLeft(f: Filter, after: int, rows: seq<Row>)
    requires Table(rows) && Matching(f, after, rows) != []
    ensures var all := Matching(f, after, rows); Matching(f, all[|all| - 1].cursor, rows) == []
  {
    hide Matches;
    var all := Matching(f, after, rows);
    var last := all[|all| - 1].cursor;
    MatchingIncreasing(f, after, rows);
    MatchingMembers(f, after, rows, all[|all| - 1]);
    var rest := Matching(f, last, rows);
    if rest != [] {
      var row := rest[0];
      MatchingMembers(f, last, rows, row);
      MatchingMembers(f, after, rows, row);
      assert false;
    }
  }

  // ── Following the cursors ──

  datatype Reader = Reader(got: seq<Row>, next: Option<int>, done: bool, pages: nat)

  /** Read page after page, each from the table as it stands then, until no cursor is handed out. */
  function Follow(tables: seq<seq<Row>>, limit: nat, f: Filter): Reader {
    if tables == [] then Reader([], None, false, 0)
    else
      var r := Follow(tables[..|tables| - 1], limit, f);
      if r.done then r
      else
        var page := ReadPage(tables[|tables| - 1], r.next, limit, f);
        Reader(r.got + page.events, page.nextCursor, page.nextCursor.None?, r.pages + 1)
  }

  ghost predicate Grows(tables: seq<seq<Row>>) {
    && (forall i :: 0 <= i < |tables| ==> Table(tables[i]))
    && (forall i, j :: 0 <= i < j < |tables| ==> tables[i] <= tables[j])
  }

  /** What a traversal holds after any number of pages. */
  ghost predicate Caught(tables: seq<seq<Row>>, limit: nat, f: Filter, r: Reader) {
    && r.pages <= |tables|
    && (r.pages == 0 ==> r == Reader([], None, false, 0))
    && (r.done ==> r.pages > 0 && r.got == Matching(f, 0, tables[r.pages - 1]))
    && (!r.done ==> r.pages == |tables| && |r.got| == r.pages * limit)
    && (!r.done && r.pages > 0 ==>
          && 0 < |r.got| && r.got <= Matching(f, 0, tables[r.pages - 1])
          && r.next == Some(r.got[|r.got| - 1].cursor))
  }

  lemma {:induction false} FollowCatches(tables: seq<seq<Row>>, limit: nat, f: Filter)
    requires Grows(tables) && limit >= 1
    ensures Caught(tables, limit, f, Follow(tables, limit, f))
  {
    hide Matching, Table;
    if tables != [] {
      var front, last := tables[..|tables| - 1], tables[|tables| - 1];
      FollowCatches(front, limit, f);
      var r := Follow(front, limit, f);
      if !r.done {
        if r.pages > 0 {
          assert front[r.pages - 1] == tables[r.pages - 1];
        }
        FollowRest(front, last, limit, f, r);
      }
    }
  }

  /** The next page starts where the last one ended, in the table as it has become. */
  lemma FollowRest(front: seq<seq<Row>>, last: seq<Row>, limit: nat, f: Filter, r: Reader)
    requires limit >= 1 && !r.done && Caught(front, limit, f, r) && Table(last)
    requires r.pages > 0 ==> front[r.pages - 1] <= last
    ensures r.got <= Matching(f, 0, last)
    ensures Matching(f, Start(r.next), last) == Matching(f, 0, last)[|r.got|..]
    ensures (r.pages + 1) * limit == r.pages * limit + limit
  {
    hide Matching, Table;
    if r.pages > 0 {
      MatchingGrows(f, 0, front[r.pages - 1], last);
      ResumeAfter(f, last, |r.got|);
    }
  }

  /** Ingestion gives such tables: whatever it is made to do, rows are only ever appended. */
  lemma IngestionGrowsTheTable(c: Config, m: Machine, inputs: seq<Input>, more: seq<Input>)
    requires c.pageSize >= 1
    ensures Grows([Numbered(Steps(c, m, inputs).db.rows), Numbered(Steps(c, m, inputs + more).db.rows)])
  {
    StepsAppend(c, m, inputs, more);
    NothingIsRewritten(c, Steps(c, m, inputs), more);
  }

  /** The stored events under the cursors 1, 2, 3, ... */
  function Numbered(rows: seq<RawEvent>): seq<Row> {
    seq(|rows|, i requires 0 <= i < |rows| => Row(i + 1, rows[i]))
  }

  /** Following the cursors of a table that grows underneath yields exactly the matching rows the
      table had when the last page was read, in order, none twice; and it ends once enough pages
      were read. A limit of zero is the exception: it ends at once, whatever there was to read. */
  lemma {:induction false} TraversalIsExact(tables: seq<seq<Row>>, limit: nat, f: Filter)
    requires Grows(tables)
    ensures var r := Follow(tables, limit, f);
            && r.pages <= |tables|
            && (r.done ==> r.pages > 0 && Table(Matching(f, 0, tables[r.pages - 1])))
            && (r.done ==> (r.got == Matching(f, 0, tables[r.pages - 1]) <==>
                            limit >= 1 || Matching(f, 0, tables[r.pages - 1]) == []))
            && (r.done && limit >= 1 ==> Matching(f, 0, tables[0]) <= r.got)
            && (tables != [] && |Matching(f, 0, tables[|tables| - 1])| < |tables| * limit ==> r.done)
  {
    hide Matching, Table;
    var r := Follow(tables, limit, f);
    if limit >= 1 {
      FollowCatches(tables, limit, f);
    } else {
      ZeroLimitReadsNothing(tables, f);
    }
    if r.done {
      MatchingIncreasing(f, 0, tables[r.pages - 1]);
      MatchingGrows(f, 0, tables[0], tables[r.pages - 1]);
    }
  }

  lemma {:induction false} ZeroLimitReadsNothing(tables: seq<seq<Row>>, f: Filter)
    ensures Follow(tables, 0, f) == if tables == [] then Reader([], None, false, 0) else Reader([], None, true, 1)
  {
    if tables != [] {
      ZeroLimitReadsNothing(tables[..|tables| - 1], f);
    }
  }
}
