/**
 * The volatile repository: an append-only list of events searched by linear
 * scans.
 */
module InMemory {
  import opened Errors
  import opened Decimal
  import opened Events
  import opened Repository

  /** The events of `s` whose aggregate id is `id`, in the order of `s`. */
  function WithAggregateId(s: seq<StoreEvent>, id: string): (r: seq<StoreEvent>)
    ensures |r| <= |s|
    ensures forall i :: 0 <= i < |r| ==> r[i].aggregateId == id
  {
    if s == [] then []
    else WithAggregateId(s[..|s| - 1], id) + (if s[|s| - 1].aggregateId == id then [s[|s| - 1]] else [])
  }

  /** Filtering distributes over concatenation, so the filter keeps the order of the store. */
  lemma {:induction false} WithAggregateIdConcat(s: seq<StoreEvent>, t: seq<StoreEvent>, id: string)
    ensures WithAggregateId(s + t, id) == WithAggregateId(s, id) + WithAggregateId(t, id)
    decreases |t|
  {
    if t == [] {
      assert s + t == s;
    } else {
      var t' := t[..|t| - 1];
      assert (s + t)[..|s + t| - 1] == s + t';
      assert (s + t)[|s + t| - 1] == t[|t| - 1];
      WithAggregateIdConcat(s, t', id);
    }
  }

  /**
   * The filter holds every event with aggregate id `id` exactly as often as
   * the store does, and no other event.
   */
  lemma {:induction false} WithAggregateIdCount(s: seq<StoreEvent>, id: string, x: StoreEvent)
    ensures multiset(WithAggregateId(s, id))[x] == if x.aggregateId == id then multiset(s)[x] else 0
    decreases |s|
  {
    if s != [] {
      var s' := s[..|s| - 1];
      assert s == s' + [s[|s| - 1]];
      WithAggregateIdCount(s', id, x);
    }
  }

  /** An event is in the filter exactly when it is stored and has aggregate id `id`. */
  lemma WithAggregateIdMember(s: seq<StoreEvent>, id: string, x: StoreEvent)
    ensures x in WithAggregateId(s, id) <==> x in s && x.aggregateId == id
  {
    WithAggregateIdCount(s, id, x);
    assert x in WithAggregateId(s, id) <==> x in multiset(WithAggregateId(s, id));
    assert x in s <==> x in multiset(s);
  }

  /** The filter is empty exactly when no stored event has aggregate id `id`. */
  lemma {:induction false} WithAggregateIdEmpty(s: seq<StoreEvent>, id: string)
    ensures WithAggregateId(s, id) == [] <==> forall e :: e in s ==> e.aggregateId != id
    decreases |s|
  {
    if s != [] {
      var s' := s[..|s| - 1];
      assert s == s' + [s[|s| - 1]];
      WithAggregateIdEmpty(s', id);
    }
  }

  /** Events that all carry aggregate id `id` pass the filter unchanged. */
  lemma {:induction false} WithAggregateIdAllMatch(t: seq<StoreEvent>, id: string)
    requires forall i :: 0 <= i < |t| ==> t[i].aggregateId == id
    ensures WithAggregateId(t, id) == t
    decreases |t|
  {
    if t != [] {
      WithAggregateIdAllMatch(t[..|t| - 1], id);
      assert t == t[..|t| - 1] + [t[|t| - 1]];
    }
  }

  /** The first event of `s`, in insertion order, whose id renders in decimal as `id`. */
  function FirstWithId(s: seq<StoreEvent>, id: string): (r: Option<StoreEvent>)
    ensures r.Some? ==> r.value in s && Itoa(r.value.id as int) == id
    ensures r.None? <==> forall e :: e in s ==> Itoa(e.id as int) != id
  {
    if s == [] then None
    else if Itoa(s[0].id as int) == id then Some(s[0])
    else FirstWithId(s[1..], id)
  }

  /** The event found is the one at the first position whose id matches. */
  lemma {:induction false} FirstWithIdIsFirst(s: seq<StoreEvent>, id: string, k: nat)
    requires k < |s| && Itoa(s[k].id as int) == id
    requires forall j :: 0 <= j < k ==> Itoa(s[j].id as int) != id
    ensures FirstWithId(s, id) == Some(s[k])
    decreases k
  {
    if k > 0 {
      FirstWithIdIsFirst(s[1..], id, k - 1);
    }
  }

  /** Events appended after a match do not change which event an id lookup finds. */
  lemma {:induction false} FirstWithIdConcat(s: seq<StoreEvent>, t: seq<StoreEvent>, id: string)
    ensures FirstWithId(s + t, id) == if FirstWithId(s, id).Some? then FirstWithId(s, id) else FirstWithId(t, id)
    decreases |s|
  {
    if s == [] {
      assert s + t == t;
    } else {
      assert (s + t)[0] == s[0];
      assert (s + t)[1..] == s[1..] + t;
      FirstWithIdConcat(s[1..], t, id);
    }
  }

  /** A lookup by the decimal rendering of `n` finds an event whose id is `n`. */
  lemma FirstWithIdHasId(s: seq<StoreEvent>, n: int)
    requires FirstWithId(s, Itoa(n)).Some?
    ensures FirstWithId(s, Itoa(n)).value.id as int == n
  {
    ItoaInjective(FirstWithId(s, Itoa(n)).value.id as int, n);
  }

  /** The in-memory answer to a lookup by aggregate id. */
  function AggregateLookup(events: seq<StoreEvent>, id: string): (l: Lookup<seq<StoreEvent>>)
    ensures l.result == WithAggregateId(events, id)
    ensures l.found <==> exists e :: e in events && e.aggregateId == id
    ensures l.found <==> l.err == None
    ensures !l.found ==> l.result == [] && l.err == Some(NotFound)
  {
    var r := WithAggregateId(events, id);
    WithAggregateIdEmpty(events, id);
    if |r| > 0 then Lookup(r, true, None) else Lookup([], false, Some(NotFound))
  }

  /** The in-memory answer to a lookup by event id. */
  function EventLookup(events: seq<StoreEvent>, id: string): (l: Lookup<Option<StoreEvent>>)
    ensures l.result == FirstWithId(events, id)
    ensures l.found <==> exists e :: e in events && Itoa(e.id as int) == id
    ensures l.found <==> l.err == None
    ensures !l.found ==> l.err == Some(NotFound)
  {
    var r := FirstWithId(events, id);
    if r.Some? then Lookup(r, true, None) else Lookup(None, false, Some(NotFound))
  }

  /**
   * Appending never deduplicates: after appending events that all carry
   * aggregate id `id`, a lookup by `id` finds every one of them after the
   * earlier matches.
   */
  lemma NoDeduplication(s: seq<StoreEvent>, t: seq<StoreEvent>, id: string)
    requires forall i :: 0 <= i < |t| ==> t[i].aggregateId == id
    ensures AggregateLookup(s + t, id).result == AggregateLookup(s, id).result + t
    ensures |AggregateLookup(s + t, id).result| == |AggregateLookup(s, id).result| + |t|
  {
    WithAggregateIdConcat(s, t, id);
    WithAggregateIdAllMatch(t, id);
  }

  /**
   * The lookup by aggregate name compares aggregate ids: an event looked up
   * by its own aggregate name is not found when that name differs from its
   * aggregate id.
   */
  lemma NameLookupComparesAggregateId(e: StoreEvent)
    requires e.aggregateName != e.aggregateId
    ensures AggregateLookup([e, e, e], e.aggregateName) == Lookup([], false, Some(NotFound))
  {
    WithAggregateIdMember([e, e, e], e.aggregateName, e);
  }

  class InMemoryRepository {
    var events: seq<StoreEvent>

    constructor ()
      ensures events == []
    {
      events := [];
    }

    /** Appends at the end and always succeeds. */
    method Append(event: StoreEvent) returns (ok: bool, err: Option<Error>)
      modifies this
      ensures ok && err == None
      ensures events == old(events) + [event]
    {
      events := events + [event];
      ok, err := true, None;
    }

    method RetriveByID(id: string) returns (result: Option<StoreEvent>, found: bool, err: Option<Error>)
      ensures Lookup(result, found, err) == EventLookup(events, id)
    {
      var i := 0;
      while i < |events|
        invariant 0 <= i <= |events|
        invariant FirstWithId(events[i..], id) == FirstWithId(events, id)
      {
        var evt := events[i];
        if Itoa(evt.id as int) == id {
          return Some(evt), true, None;
        }
        assert events[i..][1..] == events[i + 1..];
        i := i + 1;
      }
      return None, false, Some(NotFound);
    }

    method RetriveByAggregateID(id: string) returns (result: seq<StoreEvent>, found: bool, err: Option<Error>)
      ensures Lookup(result, found, err) == AggregateLookup(events, id)
    {
      result := [];
      var i := 0;
      while i < |events|
        invariant 0 <= i <= |events|
        invariant result == WithAggregateId(events[..i], id)
      {
        var evt := events[i];
        assert events[..i + 1][..i] == events[..i];
        if evt.aggregateId == id {
          result := result + [evt];
        }
        i := i + 1;
      }
      assert events[..i] == events;
      if |result| > 0 {
        return result, true, None;
      }
      return [], false, Some(NotFound);
    }

    /** As written, this compares each event's aggregate id, not its aggregate name, with `name`. */
    method RetriveByAggregateName(name: string) returns (result: seq<StoreEvent>, found: bool, err: Option<Error>)
      ensures Lookup(result, found, err) == AggregateLookup(events, name)
    {
      result := [];
      var i := 0;
      while i < |events|
        invariant 0 <= i <= |events|
        invariant result == WithAggregateId(events[..i], name)
      {
        var evt := events[i];
        assert events[..i + 1][..i] == events[..i];
        if evt.aggregateId == name {
          result := result + [evt];
        }
        i := i + 1;
      }
      assert events[..i] == events;
      if |result| > 0 {
        return result, true, None;
      }
      return [], false, Some(NotFound);
    }
  }
}
