/** cmd/event-tree: from a flat list of events to a tree of nodes, built in place. */
module EventTree {
  import opened Options

  datatype Ev = Ev(id: int, timestamp: int, parent: Option<int>, eventType: string, payload: Option<string>)

  /** A row of the events table with the slice of its children. */
  class Node {
    const ev: Ev
    var children: seq<Node>

    constructor (ev: Ev)
      ensures this.ev == ev && children == []
    {
      this.ev := ev;
      children := [];
    }
  }

  function Evs(nodes: seq<Node>): (evs: seq<Ev>)
    ensures |evs| == |nodes|
    ensures forall i :: 0 <= i < |nodes| ==> evs[i] == nodes[i].ev
  {
    seq(|nodes|, i requires 0 <= i < |nodes| => nodes[i].ev)
  }

  // ------------------------------------------------------------------ children

  /** `e` is listed under the event `id`: it names it as its parent, and not itself. */
  predicate IsChild(e: Ev, id: int) {
    e.parent == Some(id) && e.id != id
  }

  predicate Ascending(evs: seq<Ev>) {
    forall i, j :: 0 <= i < j < |evs| ==> evs[i].id < evs[j].id
  }

  /** The events under `id`, each once, strictly increasing by id. */
  ghost predicate IsKids(evs: seq<Ev>, id: int, kids: seq<Ev>) {
    && Ascending(kids)
    && forall e :: e in kids <==> e in evs && IsChild(e, id)
  }

  predicate DistinctIds(evs: seq<Ev>) {
    forall i, j :: 0 <= i < j < |evs| ==> evs[i].id != evs[j].id
  }

  /** Insertion into a list in ascending order. */
  function Insert(e: Ev, sorted: seq<Ev>): seq<Ev> {
    if sorted == [] then [e]
    else if e.id < sorted[0].id then [e] + sorted
    else [sorted[0]] + Insert(e, sorted[1..])
  }

  /** The events under `id`, in ascending order. */
  function Kids(evs: seq<Ev>, id: int): seq<Ev> {
    if evs == [] then []
    else
      var rest := Kids(evs[1..], id);
      if IsChild(evs[0], id) then Insert(evs[0], rest) else rest
  }

  lemma {:induction false} InsertMembers(e: Ev, sorted: seq<Ev>, x: Ev)
    ensures x in Insert(e, sorted) <==> x == e || x in sorted
  {
    if sorted != [] {
      InsertMembers(e, sorted[1..], x);
      assert sorted == [sorted[0]] + sorted[1..];
    }
  }

  lemma {:induction false} InsertKeepsOrder(e: Ev, sorted: seq<Ev>)
    requires Ascending(sorted) && forall i :: 0 <= i < |sorted| ==> sorted[i].id != e.id
    ensures Ascending(Insert(e, sorted))
  {
    if sorted != [] && sorted[0].id < e.id {
      var rest := Insert(e, sorted[1..]);
      InsertKeepsOrder(e, sorted[1..]);
      forall i | 0 <= i < |rest|
        ensures sorted[0].id < rest[i].id
      {
        InsertMembers(e, sorted[1..], rest[i]);
        assert rest[i] in rest;
      }
    } else if sorted != [] {
      assert sorted[0].id != e.id;
    }
  }

  lemma {:induction false} KidsMembers(evs: seq<Ev>, id: int, x: Ev)
    ensures x in Kids(evs, id) <==> x in evs && IsChild(x, id)
  {
    if evs != [] {
      KidsMembers(evs[1..], id, x);
      assert evs == [evs[0]] + evs[1..];
      InsertMembers(evs[0], Kids(evs[1..], id), x);
    }
  }

  /** With distinct ids `Kids` lists exactly the events under `id`, each once, strictly increasing by id. */
  lemma {:induction false} KidsAreKids(evs: seq<Ev>, id: int)
    requires DistinctIds(evs)
    ensures IsKids(evs, id, Kids(evs, id))
  {
    forall x
      ensures x in Kids(evs, id) <==> x in evs && IsChild(x, id)
    {
      KidsMembers(evs, id, x);
    }
    if evs != [] {
      KidsAreKids(evs[1..], id);
      var rest := Kids(evs[1..], id);
      forall i | 0 <= i < |rest|
        ensures rest[i].id != evs[0].id
      {
        assert rest[i] in rest;
        var k :| 0 <= k < |evs[1..]| && evs[1..][k] == rest[i];
        assert evs[k + 1] == rest[i];
      }
      if IsChild(evs[0], id) {
        InsertKeepsOrder(evs[0], rest);
      }
    }
  }

  // ------------------------------------------------------------------ buildTree

  /** sort.Slice by id, as a function of the slice. */
  function InsertNode(n: Node, sorted: seq<Node>): seq<Node> {
    if sorted == [] then [n]
    else if n.ev.id < sorted[0].ev.id then [n] + sorted
    else [sorted[0]] + InsertNode(n, sorted[1..])
  }

  function SortNodes(nodes: seq<Node>): seq<Node> {
    if nodes == [] then [] else InsertNode(nodes[0], SortNodes(nodes[1..]))
  }

  lemma {:induction false} InsertNodeEvs(n: Node, sorted: seq<Node>)
    ensures Evs(InsertNode(n, sorted)) == Insert(n.ev, Evs(sorted))
    ensures forall x :: x in InsertNode(n, sorted) ==> x == n || x in sorted
  {
    if sorted != [] {
      InsertNodeEvs(n, sorted[1..]);
      assert Evs(sorted)[1..] == Evs(sorted[1..]);
      assert Evs([n] + sorted) == [n.ev] + Evs(sorted);
      assert Evs([sorted[0]] + InsertNode(n, sorted[1..])) == [sorted[0].ev] + Evs(InsertNode(n, sorted[1..]));
    }
  }

  /** The nodes of a list that are under `id`, in list order. */
  function Under(nodes: seq<Node>, id: int): seq<Node> {
    if nodes == [] then []
    else (if IsChild(nodes[0].ev, id) then [nodes[0]] else []) + Under(nodes[1..], id)
  }

  lemma {:induction false} UnderAppend(nodes: seq<Node>, n: Node, id: int)
    ensures Under(nodes + [n], id) == Under(nodes, id) + (if IsChild(n.ev, id) then [n] else [])
  {
    hide IsChild;
    if nodes == [] {
      assert nodes + [n] == [n] && [n][1..] == [];
    } else {
      assert (nodes + [n])[1..] == nodes[1..] + [n];
      UnderAppend(nodes[1..], n, id);
      var first := if IsChild(nodes[0].ev, id) then [nodes[0]] else [];
      var last := if IsChild(n.ev, id) then [n] else [];
      assert first + (Under(nodes[1..], id) + last) == first + Under(nodes[1..], id) + last;
    }
  }

  /** Collecting the children and then sorting them gives the children in ascending order. */
  lemma {:induction false} SortedUnder(nodes: seq<Node>, id: int)
    ensures Evs(SortNodes(Under(nodes, id))) == Kids(Evs(nodes), id)
    ensures forall n :: n in SortNodes(Under(nodes, id)) ==> n in nodes
  {
    if nodes != [] {
      assert Evs(nodes[1..]) == Evs(nodes)[1..];
      SortedUnder(nodes[1..], id);
      var rest := Under(nodes[1..], id);
      if IsChild(nodes[0].ev, id) {
        assert ([nodes[0]] + rest)[1..] == rest;
        InsertNodeEvs(nodes[0], SortNodes(rest));
      } else {
        assert [] + rest == rest;
      }
    }
  }

  /** The map from ids to nodes. */
  method IndexById(events: seq<Node>) returns (byId: map<int, Node>)
    requires DistinctIds(Evs(events))
    ensures forall k :: 0 <= k < |events| ==> events[k].ev.id in byId && byId[events[k].ev.id] == events[k]
    ensures forall id :: id in byId ==> byId[id] in events && byId[id].ev.id == id
  {
    byId := map[];
    for i := 0 to |events|
      invariant forall id :: id in byId ==> byId[id] in events && byId[id].ev.id == id
      invariant forall k :: 0 <= k < i ==> events[k].ev.id in byId && byId[events[k].ev.id] == events[k]
    {
      assert forall k :: 0 <= k < i ==> Evs(events)[k].id != Evs(events)[i].id;
      byId := byId[events[i].ev.id := events[i]];
    }
  }

  /** Appends each event to the children of its parent, if the parent is in the list. */
  method Attach(events: seq<Node>, byId: map<int, Node>)
    requires forall k :: 0 <= k < |events| ==> events[k].ev.id in byId && byId[events[k].ev.id] == events[k]
    requires forall id :: id in byId ==> byId[id] in events && byId[id].ev.id == id
    requires forall k :: 0 <= k < |events| ==> events[k].children == []
    modifies set n | n in events
    ensures forall k :: 0 <= k < |events| ==> events[k].children == Under(events, events[k].ev.id)
  {
    for i := 0 to |events|
      invariant forall k :: 0 <= k < |events| ==> events[k].children == Under(events[..i], events[k].ev.id)
    {
      var ev := events[i].ev;
      forall k | 0 <= k < |events|
        ensures Under(events[..i + 1], events[k].ev.id)
                == Under(events[..i], events[k].ev.id) + (if IsChild(ev, events[k].ev.id) then [events[i]] else [])
      {
        assert events[..i + 1] == events[..i] + [events[i]];
        UnderAppend(events[..i], events[i], events[k].ev.id);
      }
      if ev.parent.Some? && ev.parent.value != ev.id {
        if ev.parent.value in byId {
          var parent := byId[ev.parent.value];
          parent.children := parent.children + [events[i]];
        }
      }
    }
    assert events[..|events|] == events;
  }

  /** Sorts the children of every node. */
  method SortAll(events: seq<Node>)
    requires DistinctIds(Evs(events))
    requires forall k :: 0 <= k < |events| ==> events[k].children == Under(events, events[k].ev.id)
    modifies set n | n in events
    ensures forall k :: 0 <= k < |events| ==> events[k].children == SortNodes(Under(events, events[k].ev.id))
  {
    for i := 0 to |events|
      invariant forall k :: 0 <= k < i ==> events[k].children == SortNodes(Under(events, events[k].ev.id))
      invariant forall k :: i <= k < |events| ==> events[k].children == Under(events, events[k].ev.id)
    {
      assert forall k :: 0 <= k < |events| && k != i ==> Evs(events)[k].id != Evs(events)[i].id;
      events[i].children := SortNodes(events[i].children);
    }
  }

  /**
   Organises freshly read events into a tree and returns the root, or null when the root is not among
   them. Every node ends up with exactly the nodes under it, in ascending order.
   */
  method BuildTree(events: seq<Node>, rootId: int) returns (root: Node?)
    requires DistinctIds(Evs(events))
    requires forall k :: 0 <= k < |events| ==> events[k].children == []
    modifies set n | n in events
    ensures root == null <==> forall k :: 0 <= k < |events| ==> events[k].ev.id != rootId
    ensures root != null ==> root in events && root.ev.id == rootId
    ensures Built(events)
  {
    var byId := IndexById(events);
    Attach(events, byId);
    SortAll(events);
    forall k | 0 <= k < |events|
      ensures Evs(events[k].children) == Kids(Evs(events), events[k].ev.id)
      ensures forall c :: c in events[k].children ==> c in events
    {
      SortedUnder(events, events[k].ev.id);
    }
    root := if rootId in byId then byId[rootId] else null;
  }

  /** Every node of the list has its children from the list, in ascending order. */
  ghost predicate Built(events: seq<Node>)
    reads set n | n in events
  {
    forall k :: 0 <= k < |events| ==>
      && Evs(events[k].children) == Kids(Evs(events), events[k].ev.id)
      && forall c :: c in events[k].children ==> c in events
  }
}
