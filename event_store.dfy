/**
 * `InMemoryEventStore`: one append-only stream of events per aggregate id and
 * one global log of every saved event, with an optimistic-concurrency check on
 * the stream length when saving.
 */
module EventStore {
  import opened Wrappers
  import opened JsText
  import opened DomainEvents

  /** What `saveEvents` throws when the caller's expected version is stale. */
  datatype StoreError = ConcurrencyConflict(expected: int, found: nat)

  /** The thrown error's message. */
  function Message(e: StoreError): (m: string)
    ensures var prefix := "Concurrency conflict. Expected version ";
      |m| > |prefix| && m[..|prefix|] == prefix
  {
    "Concurrency conflict. Expected version " + IntToString(e.expected)
      + ", but found " + NatToString(e.found)
  }

  /** Length of the stream stored under `id`, 0 for an id never written to. */
  function StreamLength(m: map<string, seq<DomainEvent>>, id: string): (r: nat) {
    if id in m then |m[id]| else 0
  }

  /** Sum of the stream lengths of the ids in `ids`. */
  function TotalLength(ids: seq<string>, m: map<string, seq<DomainEvent>>): (r: nat) {
    if ids == [] then 0 else TotalLength(ids[..|ids| - 1], m) + StreamLength(m, ids[|ids| - 1])
  }

  predicate Distinct(ids: seq<string>) {
    forall i, j | 0 <= i < j < |ids| :: ids[i] != ids[j]
  }

  /** Changing the stream of an id outside `ids` does not change their total. */
  lemma {:induction false} TotalLengthFrame(ids: seq<string>, m: map<string, seq<DomainEvent>>,
                                            id: string, s: seq<DomainEvent>)
    requires id !in ids
    ensures TotalLength(ids, m[id := s]) == TotalLength(ids, m)
  {
    if ids != [] {
      TotalLengthFrame(ids[..|ids| - 1], m, id, s);
    }
  }

  /** Replacing the stream of one listed id changes the total by the length difference. */
  lemma {:induction false} TotalLengthUpdate(ids: seq<string>, m: map<string, seq<DomainEvent>>,
                                             id: string, s: seq<DomainEvent>)
    requires Distinct(ids) && id in ids
    ensures TotalLength(ids, m[id := s]) == TotalLength(ids, m) - StreamLength(m, id) + |s|
  {
    var init := ids[..|ids| - 1];
    assert Distinct(init);
    if ids[|ids| - 1] == id {
      assert id !in init;
      TotalLengthFrame(init, m, id, s);
    } else {
      assert id in init;
      TotalLengthUpdate(init, m, id, s);
    }
  }

  class InMemoryEventStore {
    var events: map<string, seq<DomainEvent>>
    var allEvents: seq<DomainEvent>
    /** The aggregate ids in the order of their first save. */
    ghost var ids: seq<string>

    /** The global log holds exactly as many events as all streams together. */
    ghost predicate Valid()
      reads this
    {
      && Distinct(ids)
      && (forall id :: id in events <==> id in ids)
      && |allEvents| == TotalLength(ids, events)
    }

    /** `this.events.get(id) || []`. */
    function Stream(id: string): (s: seq<DomainEvent>)
      reads this
      ensures id !in events ==> s == []
      ensures id in events ==> s == events[id]
    {
      if id in events then events[id] else []
    }

    constructor ()
      ensures Valid() && events == map[] && allEvents == []
    {
      events := map[];
      allEvents := [];
      ids := [];
    }

    /**
     * `saveEvents(aggregateId, batch, expectedVersion)`: appends `batch` to the
     * stream and to the global log, unless the stream's length is not
     * `expectedVersion`, in which case nothing changes.
     */
    method SaveEvents(aggregateId: string, batch: seq<DomainEvent>, expectedVersion: int)
      returns (r: Result<(), StoreError>)
      requires Valid()
      modifies this
      ensures Valid()
      ensures r.Failure? <==> |old(Stream(aggregateId))| != expectedVersion
      ensures r.Failure? ==> r.error == ConcurrencyConflict(expectedVersion, |old(Stream(aggregateId))|)
      ensures r.Failure? ==> events == old(events) && allEvents == old(allEvents)
      ensures aggregateId !in old(events) ==> (r.Success? <==> expectedVersion == 0)
      ensures r.Success? ==> events == old(events)[aggregateId := old(Stream(aggregateId)) + batch]
      ensures r.Success? ==> |Stream(aggregateId)| == expectedVersion + |batch|
      ensures r.Success? ==> allEvents == old(allEvents) + batch
      ensures forall other | other != aggregateId :: Stream(other) == old(Stream(other))
    {
      var existing := Stream(aggregateId);
      if |existing| != expectedVersion {
        return Failure(ConcurrencyConflict(expectedVersion, |existing|));
      }
      if aggregateId in events {
        TotalLengthUpdate(ids, events, aggregateId, existing + batch);
      } else {
        TotalLengthFrame(ids, events, aggregateId, existing + batch);
        ids := ids + [aggregateId];
        assert ids[..|ids| - 1] == old(ids);
      }
      events := events[aggregateId := existing + batch];
      allEvents := allEvents + batch;
      r := Success(());
    }

    /**
     * `getEvents(aggregateId, fromVersion)`: the stream, from position
     * `fromVersion` on when that is a non-zero number (a negative one counts
     * from the end, as `slice` does).
     */
    method GetEvents(aggregateId: string, fromVersion: Option<int>) returns (r: seq<DomainEvent>)
      ensures fromVersion == None || fromVersion == Some(0) ==> r == Stream(aggregateId)
      ensures fromVersion.Some? && 0 <= fromVersion.value <= |Stream(aggregateId)| ==>
                r == Stream(aggregateId)[fromVersion.value..]
      ensures fromVersion.Some? && fromVersion.value > |Stream(aggregateId)| ==> r == []
      ensures fromVersion.Some? && fromVersion.value < 0 ==>
                r == Stream(aggregateId)[ClampIndex(fromVersion.value, |Stream(aggregateId)|)..]
      ensures fromVersion.Some? && fromVersion.value < 0 && |Stream(aggregateId)| + fromVersion.value >= 0 ==>
                |r| == -fromVersion.value
    {
      var s := Stream(aggregateId);
      if fromVersion.Some? && fromVersion.value != 0 {
        r := SliceFrom(s, fromVersion.value);
      } else {
        r := s;
      }
    }

    /** `getAllEvents(fromVersion)`: the same reading of the global log. */
    method GetAllEvents(fromVersion: Option<int>) returns (r: seq<DomainEvent>)
      ensures fromVersion == None || fromVersion == Some(0) ==> r == allEvents
      ensures fromVersion.Some? && 0 <= fromVersion.value <= |allEvents| ==> r == allEvents[fromVersion.value..]
      ensures fromVersion.Some? && fromVersion.value > |allEvents| ==> r == []
      ensures fromVersion.Some? && fromVersion.value < 0 ==>
                r == allEvents[ClampIndex(fromVersion.value, |allEvents|)..]
    {
      if fromVersion.Some? && fromVersion.value != 0 {
        r := SliceFrom(allEvents, fromVersion.value);
      } else {
        r := allEvents;
      }
    }
  }

  /**
   * Two writers that both read version `v` of a stream: the first save
   * succeeds and the second is rejected, leaving only the first batch.
   */
  method ConflictingWriters(store: InMemoryEventStore, id: string, first: seq<DomainEvent>,
                            second: seq<DomainEvent>)
    returns (r1: Result<(), StoreError>, r2: Result<(), StoreError>)
    requires store.Valid()
    modifies store
    ensures store.Valid()
    ensures r1.Success?
    ensures |first| > 0 ==> r2.Failure?
    ensures |first| > 0 ==> store.Stream(id) == old(store.Stream(id)) + first
    ensures |first| > 0 ==> store.allEvents == old(store.allEvents) + first
  {
    var v := |store.Stream(id)|;
    r1 := store.SaveEvents(id, first, v);
    r2 := store.SaveEvents(id, second, v);
  }
}
