/** The tree that buildTree leaves in the heap, as a value, and what it contains. */
module EventTreeShape {
  import opened Options
  import opened EventTree

  datatype Tree = Tree(ev: Ev, kids: seq<Tree>)

  /** Every event of the list was logged after the parent it names, if that is in the list too. */
  predicate ParentsEarlier(evs: seq<Ev>) {
    forall i, j :: 0 <= i < |evs| && 0 <= j < |evs| && IsChild(evs[i], evs[j].id) ==> evs[j].id < evs[i].id
  }

  predicate WellFormed(evs: seq<Ev>) {
    DistinctIds(evs) && ParentsEarlier(evs)
  }

  /** The largest id of the list. */
  function Top(evs: seq<Ev>): (top: int)
    ensures forall e :: e in evs ==> e.id <= top
  {
    if evs == [] then 0
    else
      var rest := Top(evs[1..]);
      assert evs == [evs[0]] + evs[1..];
      if rest < evs[0].id then evs[0].id else rest
  }

  lemma ChildrenAreLater(evs: seq<Ev>, ev: Ev)
    requires WellFormed(evs) && ev in evs
    ensures forall c :: c in Kids(evs, ev.id) ==> c in evs && ev.id < c.id
  {
    KidsAreKids(evs, ev.id);
  }

  /** The tree under an event of the list. */
  function TreeAt(evs: seq<Ev>, ev: Ev): Tree
    requires WellFormed(evs) && ev in evs
    decreases Top(evs) - ev.id
  {
    ChildrenAreLater(evs, ev);
    var kids := Kids(evs, ev.id);
    assert forall c :: c in kids ==> c.id <= Top(evs);
    Tree(ev, seq(|kids|, i requires 0 <= i < |kids| =>
      assert kids[i] in kids;
      TreeAt(evs, kids[i])))
  }

  /** The heap nodes hanging under `n` are the tree `t`. */
  ghost predicate Mirrors(nodes: seq<Node>, n: Node, t: Tree)
    reads set m | m in nodes
    decreases t
  {
    && n in nodes
    && n.ev == t.ev
    && |n.children| == |t.kids|
    && forall i :: 0 <= i < |t.kids| ==> Mirrors(nodes, n.children[i], t.kids[i])
  }

  lemma {:induction false} BuiltMirrors(nodes: seq<Node>, n: Node)
    requires WellFormed(Evs(nodes)) && n in nodes && Built(nodes)
    ensures n.ev in Evs(nodes) && Mirrors(nodes, n, TreeAt(Evs(nodes), n.ev))
    decreases Top(Evs(nodes)) - n.ev.id
  {
    var evs := Evs(nodes);
    var k :| 0 <= k < |nodes| && nodes[k] == n;
    assert evs[k] == n.ev;
    ChildrenAreLater(evs, n.ev);
    var kids := Kids(evs, n.ev.id);
    assert Evs(n.children) == kids;
    forall i | 0 <= i < |kids|
      ensures Mirrors(nodes, n.children[i], TreeAt(evs, n.ev).kids[i])
    {
      assert kids[i] in kids && n.children[i] in n.children;
      BuiltMirrors(nodes, n.children[i]);
    }
  }

  /** Runs buildTree on freshly read events: the root it returns carries the tree of the list. */
  method BuildShape(events: seq<Node>, rootId: int) returns (root: Node?)
    requires WellFormed(Evs(events))
    requires forall k :: 0 <= k < |events| ==> events[k].children == []
    modifies set n | n in events
    ensures root == null <==> forall e :: e in Evs(events) ==> e.id != rootId
    ensures root != null ==> root.ev.id == rootId && root.ev in Evs(events)
    ensures root != null ==> Mirrors(events, root, TreeAt(Evs(events), root.ev))
  {
    root := BuildTree(events, rootId);
    forall k | 0 <= k < |events|
      ensures events[k].ev in Evs(events)
    {
      assert Evs(events)[k] == events[k].ev;
    }
    if root != null {
      BuiltMirrors(events, root);
    }
  }

  // ------------------------------------------------------------------ preorder

  function Preorder(t: Tree): seq<Ev>
    decreases t
  {
    [t.ev] + PreorderAll(t.kids)
  }

  function PreorderAll(ts: seq<Tree>): seq<Ev>
    decreases ts
  {
    if ts == [] then [] else Preorder(ts[0]) + PreorderAll(ts[1..])
  }

  /** A walk down the parent links of the list: every event is listed under the one before it. */
  predicate Chain(evs: seq<Ev>, path: seq<Ev>) {
    && path != []
    && (forall i :: 0 <= i < |path| ==> path[i] in evs)
    && forall i :: 0 < i < |path| ==> IsChild(path[i], path[i - 1].id)
  }

  predicate Links(evs: seq<Ev>, path: seq<Ev>, a: Ev, e: Ev) {
    Chain(evs, path) && path[0] == a && path[|path| - 1] == e
  }

  /** `e` is `a` or a child of a child ... of `a`. */
  ghost predicate Descends(evs: seq<Ev>, a: Ev, e: Ev) {
    exists path :: Links(evs, path, a, e)
  }

  lemma {:induction false} InPreorderAll(ts: seq<Tree>, e: Ev)
    ensures e in PreorderAll(ts) <==> exists i :: 0 <= i < |ts| && e in Preorder(ts[i])
  {
    if ts != [] {
      InPreorderAll(ts[1..], e);
      if i :| 0 <= i < |ts| && e in Preorder(ts[i]) {
        if i > 0 {
          assert ts[1..][i - 1] == ts[i];
        }
      }
      if e in PreorderAll(ts[1..]) {
        var j :| 0 <= j < |ts[1..]| && e in Preorder(ts[1..][j]);
        assert ts[j + 1] == ts[1..][j];
      }
    }
  }

  lemma ChainCons(evs: seq<Ev>, a: Ev, c: Ev, rest: seq<Ev>, e: Ev) returns (path: seq<Ev>)
    requires a in evs && IsChild(c, a.id) && Links(evs, rest, c, e)
    ensures Links(evs, path, a, e)
  {
    path := [a] + rest;
  }

  lemma {:induction false} PreorderDescends(evs: seq<Ev>, a: Ev, e: Ev) returns (path: seq<Ev>)
    requires WellFormed(evs) && a in evs && e in Preorder(TreeAt(evs, a))
    ensures Links(evs, path, a, e)
    decreases Top(evs) - a.id
  {
    if e == a {
      path := [a];
    } else {
      var kids := Kids(evs, a.id);
      KidsAreKids(evs, a.id);
      ChildrenAreLater(evs, a);
      InPreorderAll(TreeAt(evs, a).kids, e);
      var i :| 0 <= i < |kids| && e in Preorder(TreeAt(evs, a).kids[i]);
      assert kids[i] in kids;
      var rest := PreorderDescends(evs, kids[i], e);
      path := ChainCons(evs, a, kids[i], rest, e);
    }
  }

  lemma {:induction false} DescendsPreorder(evs: seq<Ev>, path: seq<Ev>, a: Ev, e: Ev)
    requires WellFormed(evs) && Links(evs, path, a, e)
    ensures e in Preorder(TreeAt(evs, a))
    decreases |path|
  {
    if |path| > 1 {
      var kids := Kids(evs, a.id);
      KidsAreKids(evs, a.id);
      assert path[1] in kids;
      var i :| 0 <= i < |kids| && kids[i] == path[1];
      DescendsPreorder(evs, path[1..], path[1], e);
      assert TreeAt(evs, a).kids[i] == TreeAt(evs, path[1]);
      InPreorderAll(TreeAt(evs, a).kids, e);
    }
  }

  lemma {:induction false} ChainsMerge(evs: seq<Ev>, p: seq<Ev>, q: seq<Ev>)
    requires DistinctIds(evs) && Chain(evs, p) && Chain(evs, q)
    requires p[|p| - 1] == q[|q| - 1] && |p| <= |q|
    ensures p[0] == q[|q| - |p|]
    decreases |p|
  {
    if |p| > 1 {
      var e, f := p[|p| - 2], q[|q| - 2];
      assert e in evs && f in evs;
      assert IsChild(p[|p| - 1], e.id) && IsChild(q[|q| - 1], f.id);
      assert e == f;
      ChainsMerge(evs, p[..|p| - 1], q[..|q| - 1]);
    }
  }

  lemma {:induction false} ChainAscends(evs: seq<Ev>, q: seq<Ev>, k: nat)
    requires WellFormed(evs) && Chain(evs, q) && k < |q|
    ensures q[0].id <= q[k].id
  {
    if k > 0 {
      ChainAscends(evs, q, k - 1);
      assert q[k - 1] in evs && q[k] in evs && IsChild(q[k], q[k - 1].id);
    }
  }

  lemma StartsBefore(evs: seq<Ev>, q: seq<Ev>, k: nat, a: Ev)
    requires WellFormed(evs) && Chain(evs, q) && 0 < k < |q| && IsChild(q[k], a.id)
    ensures q[0].id <= a.id
  {
    ChainAscends(evs, q, k - 1);
  }

  /** Two children of one event share no descendant. */
  lemma SiblingsApart(evs: seq<Ev>, a: Ev, c: Ev, d: Ev, p: seq<Ev>, q: seq<Ev>, e: Ev)
    requires WellFormed(evs) && a in evs && IsChild(c, a.id) && IsChild(d, a.id)
    requires Links(evs, p, c, e) && Links(evs, q, d, e) && |p| <= |q|
    ensures c == d
  {
    ChainsMerge(evs, p, q);
    var k := |q| - |p|;
    assert q[0] in evs && a.id < d.id;
    if k > 0 {
      StartsBefore(evs, q, k, a);
    }
  }

  predicate Once(evs: seq<Ev>) {
    forall i, j :: 0 <= i < j < |evs| ==> evs[i] != evs[j]
  }

  lemma OnceConcat(a: seq<Ev>, b: seq<Ev>)
    requires Once(a) && Once(b) && forall x :: x in a ==> x !in b
    ensures Once(a + b)
  {
    forall i, j | 0 <= i < j < |a + b|
      ensures (a + b)[i] != (a + b)[j]
    {
      if i < |a| <= j {
        assert a[i] in a && b[j - |a|] in b;
      }
    }
  }

  lemma {:induction false} PreorderOnce(evs: seq<Ev>, a: Ev)
    requires WellFormed(evs) && a in evs
    ensures Once(Preorder(TreeAt(evs, a)))
    decreases Top(evs) - a.id, 1, 0
  {
    var kids := Kids(evs, a.id);
    var t := TreeAt(evs, a);
    KidsAreKids(evs, a.id);
    ChildrenAreLater(evs, a);
    assert t.kids[0..] == t.kids;
    ForestOnce(evs, a, 0);
    if a in PreorderAll(t.kids) {
      InPreorderAll(t.kids, a);
      var i :| 0 <= i < |kids| && a in Preorder(t.kids[i]);
      assert kids[i] in kids;
      var path := PreorderDescends(evs, kids[i], a);
      ChainAscends(evs, path, |path| - 1);
    }
    OnceConcat([a], PreorderAll(t.kids));
  }

  /** No event is under two children of one event. */
  lemma NotInBoth(evs: seq<Ev>, a: Ev, i: nat, j: nat, e: Ev)
    requires WellFormed(evs) && a in evs && i < |Kids(evs, a.id)| && j < |Kids(evs, a.id)|
    requires e in Preorder(TreeAt(evs, a).kids[i]) && e in Preorder(TreeAt(evs, a).kids[j])
    ensures i == j
  {
    var kids := Kids(evs, a.id);
    KidsAreKids(evs, a.id);
    assert kids[i] in kids && kids[j] in kids;
    var p := PreorderDescends(evs, kids[i], e);
    var q := PreorderDescends(evs, kids[j], e);
    hide Preorder, TreeAt, Links, Kids;
    if |p| <= |q| {
      SiblingsApart(evs, a, kids[i], kids[j], p, q, e);
    } else {
      SiblingsApart(evs, a, kids[j], kids[i], q, p, e);
    }
  }

  lemma {:induction false} ForestOnce(evs: seq<Ev>, a: Ev, from: nat)
    requires WellFormed(evs) && a in evs && from <= |Kids(evs, a.id)|
    ensures Once(PreorderAll(TreeAt(evs, a).kids[from..]))
    decreases Top(evs) - a.id, 0, |Kids(evs, a.id)| - from
  {
    var kids := Kids(evs, a.id);
    var ts := TreeAt(evs, a).kids;
    KidsAreKids(evs, a.id);
    ChildrenAreLater(evs, a);
    if from < |kids| {
      assert kids[from] in kids;
      PreorderOnce(evs, kids[from]);
      ForestOnce(evs, a, from + 1);
      assert ts[from..][1..] == ts[from + 1..] && ts[from..][0] == TreeAt(evs, kids[from]);
      forall e | e in Preorder(ts[from]) && e in PreorderAll(ts[from + 1..])
        ensures false
      {
        InPreorderAll(ts[from + 1..], e);
        var j :| 0 <= j < |ts[from + 1..]| && e in Preorder(ts[from + 1..][j]);
        NotInBoth(evs, a, from, from + 1 + j, e);
      }
      OnceConcat(Preorder(ts[from]), PreorderAll(ts[from + 1..]));
    }
  }

  /**
   The preorder of the tree under an event is exactly that event and its descendants in the list, each
   once.
   */
  lemma PreorderIsTheDescendants(evs: seq<Ev>, root: Ev)
    requires WellFormed(evs) && root in evs
    ensures Once(Preorder(TreeAt(evs, root)))
    ensures forall e :: e in Preorder(TreeAt(evs, root)) <==> Descends(evs, root, e)
  {
    PreorderOnce(evs, root);
    forall e
      ensures e in Preorder(TreeAt(evs, root)) <==> Descends(evs, root, e)
    {
      if e in Preorder(TreeAt(evs, root)) {
        var path := PreorderDescends(evs, root, e);
      }
      if path :| Links(evs, path, root, e) {
        DescendsPreorder(evs, path, root, e);
      }
    }
  }

  /** Every node of the tree has its children strictly increasing by id, each naming it as its parent. */
  predicate OrderedByParent(t: Tree)
    decreases t
  {
    && (forall i, j :: 0 <= i < j < |t.kids| ==> t.kids[i].ev.id < t.kids[j].ev.id)
    && (forall i :: 0 <= i < |t.kids| ==> IsChild(t.kids[i].ev, t.ev.id))
    && forall i :: 0 <= i < |t.kids| ==> OrderedByParent(t.kids[i])
  }

  lemma {:induction false} TreeIsOrdered(evs: seq<Ev>, ev: Ev)
    requires WellFormed(evs) && ev in evs
    ensures OrderedByParent(TreeAt(evs, ev))
    decreases Top(evs) - ev.id
  {
    var kids := Kids(evs, ev.id);
    KidsAreKids(evs, ev.id);
    ChildrenAreLater(evs, ev);
    forall i | 0 <= i < |kids|
      ensures IsChild(kids[i], ev.id) && OrderedByParent(TreeAt(evs, kids[i]))
    {
      assert kids[i] in kids;
      TreeIsOrdered(evs, kids[i]);
    }
  }
}
