/** Registry events, as the contract emits them, the RPC reports them and the indexer parses them. */
module Events {
  import opened Common

  /** A decoded event. The admin events carry their fields; every other recognised kind is a
      `TaskEvent`, which the admin fold ignores and of which the feed sees owner and keeper. */
  datatype EventPayload =
    | Initialized(admin: Address, rewardToken: Address, feeBps: nat)
    | Paused(paused: bool)
    | FeeUpdated(oldBps: nat, newBps: nat)
    | AdminTransferred(oldAdmin: Address, newAdmin: Address)
    | MinRewardUpdated(oldMin: int, newMin: int)
    | FeesSwept(treasury: Address, amount: int, remaining: int)
    | Upgraded(upgrader: Address, newWasmHash: nat)
    | TaskEvent(kind: nat, taskId: Option<nat>, owner: Option<Address>, keeper: Option<Address>)

  /** What `parse_event` makes of an event's topics and values. */
  datatype Body = Recognised(payload: EventPayload) | Unrecognised(tag: nat) | Malformed(tag: nat)

  datatype RawEvent = RawEvent(ledger: nat, closeTime: int, txHash: string, eventIndex: nat, body: Body)

  /** The pair the store's uniqueness constraint is on. */
  datatype EventKey = EventKey(txHash: string, eventIndex: nat)

  function KeyOf(e: RawEvent): EventKey {
    EventKey(e.txHash, e.eventIndex)
  }

  ghost predicate DistinctKeys(events: seq<RawEvent>) {
    forall i, j :: 0 <= i < j < |events| ==> KeyOf(events[i]) != KeyOf(events[j])
  }

  /** The events the indexer understands, in order. */
  function Known(events: seq<RawEvent>): seq<RawEvent> {
    if events == [] then []
    else Known(events[..|events| - 1]) + (if events[|events| - 1].body.Recognised? then [events[|events| - 1]] else [])
  }

  lemma {:induction false} KnownMembers(events: seq<RawEvent>, e: RawEvent)
    ensures e in Known(events) <==> e in events && e.body.Recognised?
  {
    if events != [] {
      KnownMembers(events[..|events| - 1], e);
      assert events == events[..|events| - 1] + [events[|events| - 1]];
    }
  }

  lemma {:induction false} KnownPrefix(events: seq<RawEvent>, k: nat)
    requires k <= |events|
    ensures Known(events[..k]) <= Known(events)
  {
    if k < |events| {
      KnownPrefix(events[..|events| - 1], k);
      assert events[..|events| - 1][..k] == events[..k];
    } else {
      assert events[..k] == events;
    }
  }

  lemma {:induction false} KnownDistinct(events: seq<RawEvent>)
    requires DistinctKeys(events)
    ensures DistinctKeys(Known(events))
  {
    if events != [] {
      var front, last := events[..|events| - 1], events[|events| - 1];
      KnownDistinct(front);
      forall i | 0 <= i < |Known(front)| ensures KeyOf(Known(front)[i]) != KeyOf(last) {
        KnownMembers(front, Known(front)[i]);
      }
    }
  }
}
