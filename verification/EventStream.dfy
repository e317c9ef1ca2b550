/** The SDK's buffered polling reader over `getEvents`, and what it yields over whole runs. */
module EventStream {
  import opened Common
  import opened Events

  /** An event as the RPC returns it: its resume cursor, and its payload when it decodes. */
  datatype RawContractEvent = RawContractEvent(cursor: string, decoded: Option<EventPayload>)

  datatype Page = Page(events: seq<RawContractEvent>, cursor: string)

  /** How a page request, retries included, ends. */
  datatype Answer = Answered(page: Page) | Failed

  datatype EventStart = FromLedger(ledger: nat) | FromCursor(cursor: string)

  datatype Item = Event(cursor: string, event: EventPayload) | Undecodable(cursor: string)

  /** `Waiting`: the answers ran out before there was anything to return. */
  datatype NextResult = Yielded(item: Item) | RpcError | Waiting

  datatype StreamState = StreamState(
    startLedger: Option<nat>,
    requestCursor: Option<string>,
    currentCursor: Option<string>,
    buffered: seq<RawContractEvent>)

  function NewStream(start: EventStart): StreamState {
    match start
    case FromLedger(ledger) => StreamState(Some(ledger), None, None, [])
    case FromCursor(cursor) => StreamState(None, Some(cursor), Some(cursor), [])
  }

  function ItemOf(raw: RawContractEvent): Item {
    if raw.decoded.Some? then Event(raw.cursor, raw.decoded.value) else Undecodable(raw.cursor)
  }

  function AfterPage(s: StreamState, page: Page): StreamState {
    var s' := s.(startLedger := None, requestCursor := Some(page.cursor));
    if page.events == [] then s'.(currentCursor := Some(page.cursor)) else s'.(buffered := s.buffered + page.events)
  }

  /** One call of `next` that is given these answers, in order. */
  function Poll(s: StreamState, answers: seq<Answer>): (NextResult, StreamState)
    decreases |answers|, |s.buffered|
  {
    if s.buffered != [] then
      (Yielded(ItemOf(s.buffered[0])), s.(currentCursor := Some(s.buffered[0].cursor), buffered := s.buffered[1..]))
    else if answers == [] then (Waiting, s)
    else if answers[0].Failed? then (RpcError, s)
    else Poll(AfterPage(s, answers[0].page), answers[1..])
  }

  class RegistryEventStream {
    var startLedger: Option<nat>
    var requestCursor: Option<string>
    var currentCursor: Option<string>
    var buffered: seq<RawContractEvent>

    function State(): StreamState
      reads this
    {
      StreamState(startLedger, requestCursor, currentCursor, buffered)
    }

    constructor (start: EventStart)
      ensures State() == NewStream(start)
    {
      buffered := [];
      match start {
        case FromLedger(ledger) => startLedger, requestCursor, currentCursor := Some(ledger), None, None;
        case FromCursor(cursor) => startLedger, requestCursor, currentCursor := None, Some(cursor), Some(cursor);
      }
    }

    method Next(answers: seq<Answer>) returns (r: NextResult)
      modifies this
      ensures (r, State()) == old(Poll(State(), answers))
    {
      var i := 0;
      while true
        invariant i <= |answers|
        invariant Poll(State(), answers[i..]) == old(Poll(State(), answers))
        decreases |answers| - i, |buffered|
      {
        if buffered != [] {
          var raw := buffered[0];
          buffered := buffered[1..];
          currentCursor := Some(raw.cursor);
          return Yielded(ItemOf(raw));
        }
        if i == |answers| {
          return Waiting;
        }
        assert answers[i..][0] == answers[i] && answers[i..][1..] == answers[i + 1..];
        if answers[i].Failed? {
          return RpcError;
        }
        var page := answers[i].page;
        i := i + 1;
        startLedger := None;
        requestCursor := Some(page.cursor);
        if page.events == [] {
          currentCursor := Some(page.cursor);
        } else {
          buffered := buffered + page.events;
        }
      }
    }
  }

  /** A stream remembers its place: a saved cursor is current from the start, an item's cursor once the
      item is yielded, an empty page's cursor once it was seen; nothing is requested while anything is
      buffered, and a failed request leaves all as it was. */
  lemma StreamRemembersItsPlace(s: StreamState, answers: seq<Answer>, start: EventStart)
    ensures start.FromCursor? ==>
              && NewStream(start).currentCursor == Some(start.cursor)
              && NewStream(start).requestCursor == Some(start.cursor) && NewStream(start).startLedger == None
    ensures start.FromLedger? ==>
              && NewStream(start).currentCursor == None && NewStream(start).requestCursor == None
              && NewStream(start).startLedger == Some(start.ledger)
    ensures Poll(s, answers).0.Yielded? ==> Poll(s, answers).1.currentCursor == Some(Poll(s, answers).0.item.cursor)
    ensures s.buffered != [] ==>
              var (r, s') := Poll(s, answers);
              && r.Yielded? && s'.buffered == s.buffered[1..]
              && s'.requestCursor == s.requestCursor && s'.startLedger == s.startLedger
    ensures s.buffered == [] && answers != [] && answers[0].Failed? ==> Poll(s, answers) == (RpcError, s)
    ensures var (r, s') := Poll(s, answers);
            r.Waiting? && answers != [] ==>
              && answers[|answers| - 1].Answered?
              && s'.currentCursor == Some(answers[|answers| - 1].page.cursor)
              && s'.requestCursor == s'.currentCursor && s'.startLedger == None
    decreases |answers|
  {
    if s.buffered == [] && answers != [] && answers[0].Answered? {
      StreamRemembersItsPlace(AfterPage(s, answers[0].page), answers[1..], start);
    }
  }

  // ── The source ──

  /** The contract's event log as the node serves it. A cursor stands for a place in the log: the
      number of events before it. `firstAt` is where a start ledger stands. */
  datatype Source = Source(log: seq<RawContractEvent>, place: string -> nat, firstAt: nat -> nat)

  ghost predicate ValidSource(src: Source) {
    forall i :: 0 <= i < |src.log| ==> src.place(src.log[i].cursor) == i + 1
  }

  function StartPlace(src: Source, start: EventStart): nat {
    match start
    case FromLedger(ledger) => src.firstAt(ledger)
    case FromCursor(cursor) => src.place(cursor)
  }

  /** Where the next request asks from. */
  function RequestPlace(src: Source, s: StreamState): nat {
    if s.requestCursor.Some? then src.place(s.requestCursor.value)
    else if s.startLedger.Some? then src.firstAt(s.startLedger.value)
    else 0
  }

  /** A page holds the events that follow the place asked for, any number of them, and says where it ends. */
  ghost predicate HonestPage(src: Source, from: nat, page: Page) {
    && from + |page.events| <= |src.log|
    && page.events == src.log[from..from + |page.events|]
    && src.place(page.cursor) == from + |page.events|
  }

  /** Every answer that a call consumes is honest. */
  ghost predicate HonestCall(src: Source, s: StreamState, answers: seq<Answer>)
    decreases |answers|
  {
    s.buffered == [] && answers != [] && answers[0].Answered? ==>
      && HonestPage(src, RequestPlace(src, s), answers[0].page)
      && HonestCall(src, AfterPage(s, answers[0].page), answers[1..])
  }

  // ── Runs ──

  /** Call `next` once per element of `calls`, and keep what it yields. */
  function Consume(s: StreamState, calls: seq<seq<Answer>>): (seq<Item>, StreamState) {
    if calls == [] then ([], s)
    else
      var (items, s') := Consume(s, calls[..|calls| - 1]);
      var (r, s'') := Poll(s', calls[|calls| - 1]);
      (if r.Yielded? then items + [r.item] else items, s'')
  }

  ghost predicate HonestRun(src: Source, s: StreamState, calls: seq<seq<Answer>>) {
    calls != [] ==>
      && HonestRun(src, s, calls[..|calls| - 1])
      && HonestCall(src, Consume(s, calls[..|calls| - 1]).1, calls[|calls| - 1])
  }

  function ItemsOf(log: seq<RawContractEvent>): seq<Item> {
    seq(|log|, i requires 0 <= i < |log| => ItemOf(log[i]))
  }

  /** `at` events of the log have been yielded or skipped; `base` is where the stream began. */
  ghost predicate Positioned(src: Source, s: StreamState, base: nat, at: nat) {
    && base <= at && at + |s.buffered| <= |src.log|
    && s.buffered == src.log[at..at + |s.buffered|]
    && RequestPlace(src, s) == at + |s.buffered|
    && (s.currentCursor.Some? ==> src.place(s.currentCursor.value) == at)
    && (s.currentCursor.None? ==> at == base)
  }

  lemma NewPositioned(src: Source, start: EventStart)
    requires StartPlace(src, start) <= |src.log|
    ensures Positioned(src, NewStream(start), StartPlace(src, start), StartPlace(src, start))
  {
  }

  lemma PagePositioned(src: Source, s: StreamState, page: Page, base: nat, at: nat)
    requires Positioned(src, s, base, at) && s.buffered == [] && HonestPage(src, RequestPlace(src, s), page)
    ensures Positioned(src, AfterPage(s, page), base, at)
  {
  }

  lemma {:induction false} NextPositioned(src: Source, s: StreamState, answers: seq<Answer>, base: nat, at: nat)
    requires ValidSource(src) && Positioned(src, s, base, at) && HonestCall(src, s, answers)
    ensures var (r, s') := Poll(s, answers);
            if r.Yielded? then at < |src.log| && r.item == ItemOf(src.log[at]) && Positioned(src, s', base, at + 1)
            else Positioned(src, s', base, at)
    decreases |answers|
  {
    if s.buffered != [] {
      assert s.buffered[0] == src.log[at];
    } else if answers != [] && answers[0].Answered? {
      hide Positioned, ValidSource, AfterPage, RequestPlace, HonestPage;
      PagePositioned(src, s, answers[0].page, base, at);
      NextPositioned(src, AfterPage(s, answers[0].page), answers[1..], base, at);
    }
  }

  /** Over any calls, page sizes, empty pages and failures, the items yielded are the log from where
      the stream began, in order, each event once, undecodable ones included. */
  lemma {:induction false} YieldsTheLog(src: Source, start: EventStart, calls: seq<seq<Answer>>)
    requires ValidSource(src) && StartPlace(src, start) <= |src.log|
    requires HonestRun(src, NewStream(start), calls)
    ensures var base := StartPlace(src, start);
            var (items, s) := Consume(NewStream(start), calls);
            && Positioned(src, s, base, base + |items|)
            && items == ItemsOf(src.log[base..base + |items|])
  {
    hide Poll, ValidSource, HonestCall, Positioned, ItemsOf, ItemOf, NewStream, StartPlace;
    var base := StartPlace(src, start);
    if calls == [] {
      NewPositioned(src, start);
      NoItems();
      assert src.log[base..base] == [];
    } else {
      YieldsTheLog(src, start, calls[..|calls| - 1]);
      var (items, s) := Consume(NewStream(start), calls[..|calls| - 1]);
      var at := base + |items|;
      PositionedBounds(src, s, base, at);
      NextPositioned(src, s, calls[|calls| - 1], base, at);
      if at < |src.log| {
        OneMoreItem(src.log, base, at);
      }
    }
  }

  lemma NoItems()
    ensures ItemsOf([]) == []
  {
  }

  lemma OneMoreItem(log: seq<RawContractEvent>, base: nat, at: nat)
    requires base <= at < |log|
    ensures ItemsOf(log[base..at + 1]) == ItemsOf(log[base..at]) + [ItemOf(log[at])]
  {
  }

  lemma PositionedBounds(src: Source, s: StreamState, base: nat, at: nat)
    requires Positioned(src, s, base, at)
    ensures base <= at <= |src.log|
  {
  }

  /** Where a restarted consumer picks up: its saved cursor, or its old start if it has none yet. */
  function Restart(start: EventStart, s: StreamState): EventStart {
    if s.currentCursor.Some? then FromCursor(s.currentCursor.value) else start
  }

  /** A stream started from the saved cursor continues exactly where the items stopped, although
      whatever the first stream had buffered is gone: together they yield one run of the log. */
  lemma RestartLosesNothing(src: Source, start: EventStart, calls: seq<seq<Answer>>, more: seq<seq<Answer>>)
    requires ValidSource(src) && StartPlace(src, start) <= |src.log|
    requires HonestRun(src, NewStream(start), calls)
    requires HonestRun(src, NewStream(Restart(start, Consume(NewStream(start), calls).1)), more)
    ensures var base := StartPlace(src, start);
            var (items, s) := Consume(NewStream(start), calls);
            var (rest, _) := Consume(NewStream(Restart(start, s)), more);
            && base + |items| + |rest| <= |src.log|
            && items + rest == ItemsOf(src.log[base..base + |items| + |rest|])
  {
    hide HonestRun, Consume, ValidSource;
    YieldsTheLog(src, start, calls);
    var (items, s) := Consume(NewStream(start), calls);
    assert StartPlace(src, Restart(start, s)) == StartPlace(src, start) + |items|;
    YieldsTheLog(src, Restart(start, s), more);
  }

  /** And nothing is held back: a call that waits has consumed every answer and the whole log the
      node has shown, so a page with events always yields. */
  lemma {:induction false} WaitsOnlyAtTheEnd(s: StreamState, answers: seq<Answer>)
    ensures Poll(s, answers).0.Waiting? <==>
              s.buffered == [] && forall a :: a in answers ==> a.Answered? && a.page.events == []
    decreases |answers|
  {
    if s.buffered == [] && answers != [] && answers[0].Answered? {
      WaitsOnlyAtTheEnd(AfterPage(s, answers[0].page), answers[1..]);
      assert answers == [answers[0]] + answers[1..];
      assert forall a :: a in answers <==> a == answers[0] || a in answers[1..];
    }
  }
}
