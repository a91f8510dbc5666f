/**
 * The in-memory telemetry store of the ingestion service
 * (backend/app/store.py): one bounded first-in-first-out buffer of events per
 * node, plus the latest event of each node.
 */
module Store {
  import opened Wrappers
  import opened Models

  /** The buffer size the service is created with. */
  const DefaultMaxEventsPerNode: nat := 2000

  /** The history length asked for when none is given. */
  const DefaultHistoryLimit: int := 100

  /** `r` is the last |r| elements of `s`, in order. */
  predicate IsSuffix(r: seq<Event>, s: seq<Event>)
  {
    |r| <= |s| && forall k :: 0 <= k < |r| ==> r[k] == s[|s| - |r| + k]
  }

  /**
   * What a buffer with room for `cap` events keeps of the events `s` appended
   * to it: the newest `cap` of them, oldest first.
   */
  function Bounded(s: seq<Event>, cap: nat): (r: seq<Event>)
    ensures |r| <= cap
    ensures |r| == cap || |r| == |s|
    ensures IsSuffix(r, s)
  {
    if |s| <= cap then s else s[|s| - cap..]
  }

  /** A buffer of one node's events keeps only that node's events, the newest last. */
  lemma BoundedOfOneNode(s: seq<Event>, cap: nat, node: string)
    requires s != [] && forall k :: 0 <= k < |s| ==> s[k].node == node
    ensures forall k :: 0 <= k < |Bounded(s, cap)| ==> Bounded(s, cap)[k].node == node
    ensures Bounded(s, cap) != [] ==> Bounded(s, cap)[|Bounded(s, cap)| - 1] == s[|s| - 1]
  {
    var r := Bounded(s, cap);
    forall k | 0 <= k < |r| ensures r[k].node == node {
      assert r[k] == s[|s| - |r| + k];
    }
  }

  /** Appending to a buffer that is not full keeps every event and adds the new one last. */
  lemma AppendWithRoom(b: seq<Event>, e: Event, cap: nat)
    requires |b| < cap
    ensures Bounded(b + [e], cap) == b + [e]
  {
  }

  /** Appending to a full buffer drops exactly the oldest event and adds the new one last. */
  lemma AppendWhenFull(b: seq<Event>, e: Event, cap: nat)
    requires 0 < cap && |b| == cap
    ensures Bounded(b + [e], cap) == b[1..] + [e]
  {
    assert (b + [e])[1..] == b[1..] + [e];
  }

  /** After an append to a buffer with room for at least one event, the newest event alone is the last one. */
  lemma NewestLast(b: seq<Event>, e: Event, cap: nat)
    requires 0 < cap
    ensures SliceFrom(Bounded(b + [e], cap), -1) == [e]
  {
    var r := Bounded(b + [e], cap);
    assert r[|r| - 1] == e;
  }

  /** A buffer with no room keeps nothing. */
  lemma AppendWithoutRoom(b: seq<Event>, e: Event)
    ensures Bounded(b + [e], 0) == []
  {
  }

  /**
   * `s[start:]` under Python's slicing rules: a negative
   * start counts from the end, and a start beyond either end stops there.
   */
  function SliceFrom(s: seq<Event>, start: int): (r: seq<Event>)
    ensures IsSuffix(r, s)
    ensures 0 <= start ==> |r| == if start <= |s| then |s| - start else 0
    ensures start < 0 ==> |r| == if -start <= |s| then -start else |s|
  {
    var i := if start < 0 then (if |s| + start < 0 then 0 else |s| + start)
             else (if start > |s| then |s| else start);
    s[i..]
  }

  /** The events in the order their keys appear in `order`. */
  function ValuesInOrder(order: seq<string>, m: map<string, Event>): (vs: seq<Event>)
    requires forall n :: n in order ==> n in m
    ensures |vs| == |order|
    ensures forall i :: 0 <= i < |order| ==> vs[i] == m[order[i]]
  {
    seq(|order|, i requires 0 <= i < |order| => m[order[i]])
  }

  /**
   * The position `max` picks in `s` by timestamp: it scans from the front and
   * replaces its candidate only on a strictly later timestamp, so the result is
   * the first event with the latest timestamp.
   */
  function MaxByTimestamp(s: seq<Event>): (i: nat)
    requires |s| > 0
    ensures i < |s|
    ensures forall j :: 0 <= j < |s| ==> s[j].timestamp <= s[i].timestamp
    ensures forall j :: 0 <= j < i ==> s[j].timestamp < s[i].timestamp
  {
    if |s| == 1 then 0
    else
      var best := MaxByTimestamp(s[..|s| - 1]);
      if s[|s| - 1].timestamp > s[best].timestamp then |s| - 1 else best
  }

  /** The failure raised by the store as written. */
  datatype StoreError = AttributeError

  /** Python's truth value of an optional node name: `None` and "" are false. */
  predicate Truthy(node: Option<string>)
  {
    node.Some? && node.value != ""
  }

  /** Every buffer holds at most `cap` events, all of its own node. */
  ghost predicate BuffersBounded(events: map<string, seq<Event>>, cap: nat)
  {
    forall n :: n in events ==> |events[n]| <= cap && forall k :: 0 <= k < |events[n]| ==> events[n][k].node == n
  }

  /** Nodes with a buffer are the nodes with a latest event, which is of that node and the newest buffered. */
  ghost predicate LatestMatches(events: map<string, seq<Event>>, latest: map<string, Event>)
  {
    && events.Keys == latest.Keys
    && (forall n :: n in latest ==> latest[n].node == n)
    && (forall n :: n in events && events[n] != [] ==> events[n][|events[n]| - 1] == latest[n])
  }

  /** `order` lists each node of `latest` exactly once. */
  ghost predicate OrderLists(latest: map<string, Event>, order: seq<string>)
  {
    && (forall i, j :: 0 <= i < j < |order| ==> order[i] != order[j])
    && (forall n :: n in latest <==> n in order)
  }

  ghost predicate StoreInvariant(events: map<string, seq<Event>>, latest: map<string, Event>, order: seq<string>, cap: nat)
  {
    BuffersBounded(events, cap) && LatestMatches(events, latest) && OrderLists(latest, order)
  }

  /** Adding an event keeps the store's invariant. */
  lemma AddKeepsInvariant(
    events: map<string, seq<Event>>, latest: map<string, Event>, order: seq<string>, cap: nat, e: Event,
    events': map<string, seq<Event>>, latest': map<string, Event>, order': seq<string>)
    requires StoreInvariant(events, latest, order, cap)
    requires events' == events[e.node := Bounded((if e.node in events then events[e.node] else []) + [e], cap)]
    requires latest' == latest[e.node := e]
    requires order' == if e.node in latest then order else order + [e.node]
    ensures StoreInvariant(events', latest', order', cap)
  {
    var b := if e.node in events then events[e.node] else [];
    BoundedOfOneNode(b + [e], cap, e.node);
    AddKeepsBuffersBounded(events, cap, e.node, Bounded(b + [e], cap));
    AddKeepsOrder(latest, order, e);
    AddKeepsLatest(events, latest, e, Bounded(b + [e], cap));
  }

  lemma AddKeepsLatest(events: map<string, seq<Event>>, latest: map<string, Event>, e: Event, kept: seq<Event>)
    requires LatestMatches(events, latest)
    requires kept != [] ==> kept[|kept| - 1] == e
    ensures LatestMatches(events[e.node := kept], latest[e.node := e])
  {
  }

  lemma AddKeepsBuffersBounded(events: map<string, seq<Event>>, cap: nat, node: string, kept: seq<Event>)
    requires BuffersBounded(events, cap)
    requires |kept| <= cap && forall k :: 0 <= k < |kept| ==> kept[k].node == node
    ensures BuffersBounded(events[node := kept], cap)
  {
  }

  lemma AddKeepsOrder(latest: map<string, Event>, order: seq<string>, e: Event)
    requires OrderLists(latest, order)
    ensures OrderLists(latest[e.node := e], if e.node in latest then order else order + [e.node])
  {
    if e.node !in latest {
      var order' := order + [e.node];
      assert e.node !in order;
      forall i, j | 0 <= i < j < |order'| ensures order'[i] != order'[j] {
        if j == |order| {
          assert order'[i] == order[i];
          assert order[i] in order;
        }
      }
    }
  }

  class TelemetryStore {
    /** The `maxlen` of every per-node buffer. */
    const maxEventsPerNode: nat
    /** Per-node buffers; a node has one from its first added event on. */
    var events: map<string, seq<Event>>
    /** The latest event added for each node. */
    var latestEvents: map<string, Event>
    /** The nodes of `latestEvents` in the order they were first added (the map's iteration order). */
    var latestOrder: seq<string>

    ghost predicate Valid()
      reads this
    {
      StoreInvariant(events, latestEvents, latestOrder, maxEventsPerNode)
    }

    /** The buffer of `node`, or no events when it has none. */
    function Buffer(node: string): (r: seq<Event>)
      reads this
      ensures node !in events ==> r == []
      ensures Valid() ==> |r| <= maxEventsPerNode && forall k :: 0 <= k < |r| ==> r[k].node == node
    {
      if node in events then events[node] else []
    }

    constructor (maxEventsPerNode: nat := DefaultMaxEventsPerNode)
      ensures Valid()
      ensures this.maxEventsPerNode == maxEventsPerNode
      ensures events == map[] && latestEvents == map[] && latestOrder == []
    {
      this.maxEventsPerNode := maxEventsPerNode;
      events := map[];
      latestEvents := map[];
      latestOrder := [];
    }

    /**
     * `add`: appends the event to its node's buffer, dropping that buffer's
     * oldest event when it is full, and makes it the node's latest event.
     * Every other node keeps its buffer and latest event.
     */
    method Add(e: Event)
      requires Valid()
      modifies this
      ensures Valid()
      ensures events == old(events)[e.node := Bounded(old(Buffer(e.node)) + [e], maxEventsPerNode)]
      ensures latestEvents == old(latestEvents)[e.node := e]
      ensures latestOrder == if e.node in old(latestEvents) then old(latestOrder) else old(latestOrder) + [e.node]
      ensures LatestOf(e.node) == Some(e)
      ensures Truthy(Some(e.node)) ==> Latest(Some(e.node)) == Some(e)
      ensures 0 < maxEventsPerNode ==> History(e.node, 1) == [e]
      ensures forall n :: n != e.node ==>
        && Buffer(n) == old(Buffer(n))
        && (n in latestEvents <==> n in old(latestEvents))
        && (n in latestEvents ==> latestEvents[n] == old(latestEvents)[n])
    {
      var buffer := if e.node in events then events[e.node] else [];
      var events' := events[e.node := Bounded(buffer + [e], maxEventsPerNode)];
      var latestOrder' := if e.node in latestEvents then latestOrder else latestOrder + [e.node];
      var latestEvents' := latestEvents[e.node := e];
      AddKeepsInvariant(events, latestEvents, latestOrder, maxEventsPerNode, e, events', latestEvents', latestOrder');
      events, latestEvents, latestOrder := events', latestEvents', latestOrder';
      assert Valid();
      assert Buffer(e.node) == Bounded(buffer + [e], maxEventsPerNode);
      assert LatestOf(e.node) == Some(e);
      if 0 < maxEventsPerNode {
        assert History(e.node, 1) == [e] by {
          NewestLast(buffer, e, maxEventsPerNode);
        }
      }
    }

    /**
     * The latest event of one node: absent for a node never added, otherwise
     * an event of that node, the newest in its buffer.
     */
    function LatestOf(node: string): (r: Option<Event>)
      reads this
      requires Valid()
      ensures r.Some? <==> node in events
      ensures r.Some? ==> r.value.node == node
      ensures r.Some? && Buffer(node) != [] ==> r.value == Buffer(node)[|Buffer(node)| - 1]
    {
      if node in latestEvents then Some(latestEvents[node]) else None
    }

    /**
     * The latest event across all nodes, as documented: absent when nothing
     * was added, otherwise a latest event of some node whose timestamp no
     * node's latest event exceeds, the first such in the order nodes were
     * first added.
     */
    function LatestOverall(): (r: Option<Event>)
      reads this
      requires Valid()
      ensures r.None? <==> latestEvents == map[]
      ensures r.Some? ==> exists n :: n in latestEvents && latestEvents[n] == r.value
      ensures r.Some? ==> forall n :: n in latestEvents ==> latestEvents[n].timestamp <= r.value.timestamp
      ensures r.Some? ==> exists i :: (0 <= i < |latestOrder| && latestEvents[latestOrder[i]] == r.value
        && forall j :: 0 <= j < i ==> latestEvents[latestOrder[j]].timestamp < r.value.timestamp)
    {
      if latestOrder == [] then
        assert latestEvents.Keys == {};
        None
      else
        var vs := ValuesInOrder(latestOrder, latestEvents);
        var i := MaxByTimestamp(vs);
        assert latestOrder[i] in latestEvents;
        assert forall n :: n in latestEvents ==> latestEvents[n].timestamp <= vs[i].timestamp by {
          forall n | n in latestEvents ensures latestEvents[n].timestamp <= vs[i].timestamp {
            var j :| 0 <= j < |latestOrder| && latestOrder[j] == n;
            assert vs[j] == latestEvents[n];
          }
        }
        Some(vs[i])
    }

    /**
     * `latest(node)` with the documented behaviour: a node name looks up that
     * node; no name, or the empty name, picks the latest event across all nodes.
     */
    function Latest(node: Option<string>): (r: Option<Event>)
      reads this
      requires Valid()
      ensures Truthy(node) ==> r == LatestOf(node.value)
      ensures !Truthy(node) ==> r == LatestOverall()
      ensures r.Some? ==> r.value in latestEvents.Values
    {
      if Truthy(node) then LatestOf(node.value) else LatestOverall()
    }

    /**
     * `latest(node)` as written: the all-nodes branch reads an attribute the
     * store never sets and fails.
     */
    function LatestAsWritten(node: Option<string>): (r: Result<Option<Event>, StoreError>)
      reads this
      requires Valid()
      ensures r.Success? <==> Truthy(node)
      ensures r.Success? ==> r.value == Latest(node)
    {
      if Truthy(node) then Success(LatestOf(node.value))
      else Failure(AttributeError)
    }

    /**
     * `history(node, limit)`: the last `limit` events of the node's buffer,
     * oldest first. A node never added has none. A limit of 0 gives the whole
     * buffer, and a negative limit drops that many events from the front.
     */
    function History(node: string, limit: int := DefaultHistoryLimit): (r: seq<Event>)
      reads this
      ensures node !in events ==> r == []
      ensures IsSuffix(r, Buffer(node))
      ensures 1 <= limit ==> |r| == if limit <= |Buffer(node)| then limit else |Buffer(node)|
      ensures limit == 0 ==> r == Buffer(node)
      ensures limit < 0 ==> |r| == if -limit <= |Buffer(node)| then |Buffer(node)| + limit else 0
    {
      SliceFrom(if node in events then events[node] else [], -limit)
    }
  }

  /**
   * The defect of `latest` as written: on a store holding events, asking with
   * no node fails, while the documented behaviour returns an event.
   */
  lemma LatestWithoutNodeFails(s: TelemetryStore)
    requires s.Valid() && s.latestOrder != []
    ensures s.LatestAsWritten(None).Failure?
    ensures s.Latest(None).Some?
  {
    assert s.latestOrder[0] in s.latestEvents;
  }
}
