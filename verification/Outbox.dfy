// The watcher's event outbox: an order-preserving queue of bounded length.
module Outbox {
  import opened Wrappers

  const MAX_OUTBOX_EVENTS: nat := 1000
  const MAX_LIST: nat := 100

  datatype Event = Event(id: string, rootId: string, relativePath: string)

  predicate HasId(events: seq<Event>, id: string) {
    exists i :: 0 <= i < |events| && events[i].id == id
  }

  // The stored events are the accepted ones at these positions.
  ghost predicate Shows(accepted: seq<Event>, live: seq<nat>, events: seq<Event>) {
    && |live| == |events|
    && (forall i :: 0 <= i < |live| ==> live[i] < |accepted| && events[i] == accepted[live[i]])
    && (forall i, j :: 0 <= i < j < |live| ==> live[i] < live[j])
  }

  ghost predicate Distinct(events: seq<Event>) {
    forall i, j :: 0 <= i < j < |events| ==> events[i].id != events[j].id
  }

  // Every accepted event is still there, was acknowledged, or has `bound` newer ones.
  ghost predicate Accounted(accepted: seq<Event>, live: seq<nat>, acknowledged: set<nat>, bound: nat) {
    && (forall k: nat | k < |accepted| :: k in live || k in acknowledged || k + bound < |accepted|)
    && (forall k | k in acknowledged :: k < |accepted| && k !in live)
  }

  // `accepted` is everything ever queued, in order; `acknowledged` are positions in it.
  ghost predicate Consistent(accepted: seq<Event>, live: seq<nat>, acknowledged: set<nat>, events: seq<Event>) {
    && Shows(accepted, live, events) && |events| <= MAX_OUTBOX_EVENTS && Distinct(events)
    && Accounted(accepted, live, acknowledged, MAX_OUTBOX_EVENTS)
  }

  // The positions that survive an acknowledgement.
  function Remaining(events: seq<Event>, ids: set<string>): seq<Event> {
    if events == [] then []
    else Remaining(events[..|events| - 1], ids) + if events[|events| - 1].id in ids then [] else [events[|events| - 1]]
  }

  function RemainingAt(events: seq<Event>, live: seq<nat>, ids: set<string>): seq<nat>
    requires |live| == |events|
  {
    if events == [] then []
    else
      var last := |events| - 1;
      RemainingAt(events[..last], live[..last], ids) + if events[last].id in ids then [] else [live[last]]
  }

  lemma {:induction false} RemainingMembers(live: seq<nat>, events: seq<Event>, ids: set<string>)
    requires |live| == |events|
    ensures forall k :: k in RemainingAt(events, live, ids) <==> exists i :: 0 <= i < |live| && live[i] == k && events[i].id !in ids
  {
    if events != [] {
      var last := |events| - 1;
      RemainingMembers(live[..last], events[..last], ids);
      assert live == live[..last] + [live[last]];
    }
  }

  lemma {:induction false} RemainingShows(accepted: seq<Event>, live: seq<nat>, events: seq<Event>, ids: set<string>)
    requires Shows(accepted, live, events)
    ensures Shows(accepted, RemainingAt(events, live, ids), Remaining(events, ids))
  {
    if events != [] {
      var last := |events| - 1;
      RemainingShows(accepted, live[..last], events[..last], ids);
      RemainingMembers(live[..last], events[..last], ids);
      var kept := RemainingAt(events[..last], live[..last], ids);
      forall i | 0 <= i < |kept| ensures kept[i] < live[last] {
        assert kept[i] in kept;
      }
    }
  }

  lemma {:induction false} RemainingDistinct(events: seq<Event>, ids: set<string>)
    requires Distinct(events)
    ensures Distinct(Remaining(events, ids)) && |Remaining(events, ids)| <= |events|
    ensures forall e :: e in Remaining(events, ids) ==> e in events
  {
    if events != [] {
      var last := |events| - 1;
      RemainingDistinct(events[..last], ids);
      var rest := Remaining(events[..last], ids);
      forall i | 0 <= i < |rest| ensures rest[i].id != events[last].id {
        assert rest[i] in rest;
        var j :| 0 <= j < last && events[..last][j] == rest[i];
      }
    }
  }

  // Acknowledging keeps the account.
  lemma AcknowledgeKeeps(accepted: seq<Event>, live: seq<nat>, acknowledged: set<nat>, events: seq<Event>, ids: set<string>)
    requires Consistent(accepted, live, acknowledged, events)
    ensures var kept := RemainingAt(events, live, ids);
      Consistent(accepted, kept, acknowledged + (set k | k in live && k !in kept), Remaining(events, ids))
  {
    RemainingShows(accepted, live, events, ids);
    RemainingMembers(live, events, ids);
    RemainingDistinct(events, ids);
  }

  // So does queueing, with one event too many for a moment.
  lemma QueueKeeps(accepted: seq<Event>, live: seq<nat>, acknowledged: set<nat>, events: seq<Event>, event: Event)
    requires Consistent(accepted, live, acknowledged, events) && !HasId(events, event.id)
    ensures Shows(accepted + [event], live + [|accepted|], events + [event]) && Distinct(events + [event])
    ensures Accounted(accepted + [event], live + [|accepted|], acknowledged, MAX_OUTBOX_EVENTS)
  {
    var live' := live + [|accepted|];
    assert live'[|live|] == |accepted|;
    forall k: nat | k < |accepted| && k in live ensures k in live' {
      var i :| 0 <= i < |live| && live[i] == k;
      assert live'[i] == k;
    }
  }

  lemma EvictKeeps(accepted: seq<Event>, live: seq<nat>, acknowledged: set<nat>, events: seq<Event>)
    requires Shows(accepted, live, events) && Distinct(events) && |events| == MAX_OUTBOX_EVENTS + 1
    requires Accounted(accepted, live, acknowledged, MAX_OUTBOX_EVENTS)
    ensures Consistent(accepted, live[1..], acknowledged, events[1..])
  {
    LongAgo(accepted, live, |live|);
    forall k: nat | k < |accepted| && k in live ensures k in live[1..] || k + MAX_OUTBOX_EVENTS < |accepted| {
      var i :| 0 <= i < |live| && live[i] == k;
      if i > 0 { assert live[1..][i - 1] == k; }
    }
  }

  function Selected(events: seq<Event>, rootId: Option<string>): (selected: seq<Event>)
    ensures forall e :: e in selected <==> e in events && (rootId.Some? && rootId.value != "" ==> e.rootId == rootId.value)
  {
    if events == [] then []
    else
      var last := events[|events| - 1];
      assert events == events[..|events| - 1] + [last];
      Selected(events[..|events| - 1], rootId) + if rootId.Some? && rootId.value != "" && last.rootId != rootId.value then [] else [last]
  }

  function SelectedAt(events: seq<Event>, rootId: Option<string>): seq<nat> {
    if events == [] then []
    else
      var last := |events| - 1;
      SelectedAt(events[..last], rootId) + if rootId.Some? && rootId.value != "" && events[last].rootId != rootId.value then [] else [last]
  }

  // Selecting keeps the order of the outbox, and takes every event of the root once.
  lemma {:induction false} SelectedShows(events: seq<Event>, rootId: Option<string>)
    ensures Shows(events, SelectedAt(events, rootId), Selected(events, rootId))
  {
    if events != [] {
      var last := |events| - 1;
      SelectedShows(events[..last], rootId);
      ShowsMore(events, SelectedAt(events[..last], rootId), Selected(events[..last], rootId));
    }
  }

  lemma {:induction false} SelectedPositions(events: seq<Event>, rootId: Option<string>, k: nat)
    ensures k in SelectedAt(events, rootId) <==>
      k < |events| && (rootId.Some? && rootId.value != "" ==> events[k].rootId == rootId.value)
  {
    if events != [] { SelectedPositions(events[..|events| - 1], rootId, k); }
  }

  lemma ShowsMore(events: seq<Event>, at: seq<nat>, before: seq<Event>)
    requires events != [] && Shows(events[..|events| - 1], at, before)
    ensures Shows(events, at, before) && Shows(events, at + [|events| - 1], before + [events[|events| - 1]])
  {
  }

  class EventOutbox {
    var events: seq<Event>
    ghost var accepted: seq<Event>
    ghost var live: seq<nat>
    ghost var acknowledged: set<nat>

    ghost predicate Valid()
      reads this
    {
      Consistent(accepted, live, acknowledged, events)
    }

    constructor ()
      ensures Valid() && events == [] && accepted == []
    {
      events, accepted, live, acknowledged := [], [], [], {};
    }

    // A known id is ignored; beyond the bound the oldest event is given up.
    method Queue(event: Event)
      requires Valid()
      modifies this
      ensures Valid() && acknowledged == old(acknowledged)
      ensures if HasId(old(events), event.id) then events == old(events) && accepted == old(accepted)
        else
          && accepted == old(accepted) + [event] && |events| > 0 && events[|events| - 1] == event
          && events == if |old(events)| == 1000 then old(events)[1..] + [event] else old(events) + [event]
    {
      if exists i :: 0 <= i < |events| && events[i].id == event.id { return; }
      QueueKeeps(accepted, live, acknowledged, events, event);
      live := live + [|accepted|];
      accepted := accepted + [event];
      events := events + [event];
      if |events| > MAX_OUTBOX_EVENTS {
        EvictKeeps(accepted, live, acknowledged, events);
        events := events[|events| - MAX_OUTBOX_EVENTS..];
        live := live[1..];
      }
    }

    method List(limit: Option<int>, rootId: Option<string>) returns (listed: seq<Event>)
      requires Valid()
      ensures 0 <= |listed| <= 100 && listed <= Selected(events, rootId)
      ensures listed == [] ==> Selected(events, rootId) == []
      ensures var n := if limit.None? || limit.value >= 100 then 100 else if limit.value <= 1 then 1 else limit.value;
        |listed| == if |Selected(events, rootId)| <= n then |Selected(events, rootId)| else n
    {
      var selected := Selected(events, rootId);
      var n := Limit(limit);
      listed := if |selected| <= n then selected else selected[..n];
    }

    // Every event whose id is acknowledged goes, and nothing else; the others keep their order.
    method Acknowledge(ids: seq<string>)
      requires Valid()
      modifies this
      ensures Valid() && accepted == old(accepted) && events == Remaining(old(events), set id | id in ids)
      ensures forall k :: k in acknowledged ==> k in old(acknowledged) || (k < |accepted| && accepted[k].id in ids)
    {
      var gone := set id | id in ids;
      var next: seq<Event> := [];
      for i := 0 to |events|
        invariant next == Remaining(events[..i], gone)
      {
        assert events[..i + 1][..i] == events[..i];
        if events[i].id !in gone { next := next + [events[i]]; }
      }
      assert events[..|events|] == events;
      AcknowledgeKeeps(accepted, live, acknowledged, events, gone);
      RemainingMembers(live, events, gone);
      ghost var kept := RemainingAt(events, live, gone);
      acknowledged := acknowledged + (set k | k in live && k !in kept);
      events, live := next, kept;
    }

    // Other callers queue and acknowledge as they like.
    method Others()
      requires Valid()
      modifies this
      ensures Valid() && old(accepted) <= accepted
    {
      var calls: nat := *;
      while calls > 0
        invariant Valid() && old(accepted) <= accepted
      {
        var queueing: bool := *;
        if queueing {
          var event: Event := *;
          Queue(event);
        } else {
          var ids: seq<string> := *;
          Acknowledge(ids);
        }
        calls := calls - 1;
      }
    }

    // Lists and acknowledges, with other callers in between: what the caller is given was in the
    // outbox when listed and is not there afterwards, and of what was there `between` nothing else goes.
    method Take(rootId: string) returns (taken: seq<Event>, ghost between: seq<Event>)
      requires Valid()
      modifies this
      ensures Valid() && old(accepted) <= accepted && |taken| <= 100
      ensures |taken| == |Selected(old(events), Some(rootId))| || |taken| == 100
      ensures taken <= Selected(old(events), Some(rootId))
      ensures forall i, e :: 0 <= i < |taken| && e in events ==> e.id != taken[i].id
      ensures events == Remaining(between, set i | 0 <= i < |taken| :: taken[i].id)
    {
      hide Consistent, Selected, Remaining;
      taken := List(None, Some(rootId));
      var ids := seq(|taken|, i requires 0 <= i < |taken| => taken[i].id);
      assert (set id | id in ids) == set i | 0 <= i < |taken| :: taken[i].id by {
        assert forall i :: 0 <= i < |taken| ==> ids[i] == taken[i].id && ids[i] in ids;
      }
      Others();
      between := events;
      Acknowledge(ids);
      RemainingWithout(between, set id | id in ids);
    }
  }

  lemma {:induction false} RemainingWithout(events: seq<Event>, ids: set<string>)
    ensures forall e :: e in Remaining(events, ids) ==> e in events && e.id !in ids
  {
    if events != [] { RemainingWithout(events[..|events| - 1], ids); }
  }

  function Limit(limit: Option<int>): (n: nat)
    ensures 1 <= n <= MAX_LIST
  {
    var wanted := if limit.Some? then limit.value else 100;
    if wanted < 1 then 1 else if wanted > MAX_LIST then MAX_LIST else wanted
  }

  // In a list of n increasing positions the first is at least n - 1 before the end.
  lemma {:induction false} LongAgo(accepted: seq<Event>, live: seq<nat>, n: nat)
    requires 0 < n <= |live| && (forall i :: 0 <= i < |live| ==> live[i] < |accepted|)
    requires forall i, j :: 0 <= i < j < |live| ==> live[i] < live[j]
    ensures live[0] + n - 1 <= live[n - 1] < |accepted|
  {
    if n > 1 { LongAgo(accepted, live, n - 1); }
  }
}
