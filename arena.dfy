/** The graph store as a value: the root node, the arena of child nodes keyed
    by id, and the id counter. Every node handle of the source is an id into
    this arena; the root has id 0 and is kept apart from the arena, exactly as
    the root `Node` is never inserted into its own store.

    The functions here specify the operations of a node handle; the class in
    module Gun performs them in place and is proved against them. */
module Arena {
  import opened Wrappers
  import opened Notify

  /** The id of the root node. */
  const RootId: nat := 0
  /** The first value the id counter hands out. */
  const FirstId: nat := 1
  /** What `put` stores when its input is not a string. */
  const Placeholder: string := "asdf"

  /** The shared state of one node. */
  datatype NodeState = NodeState(
    value: Option<string>,
    links: map<string, nat>,
    linkedBy: set<nat>,
    subscriptions: map<nat, Callback>)

  /** The whole graph: the root, the arena of every other node, and the next id. */
  datatype World = World(root: NodeState, store: map<nat, NodeState>, counter: nat)

  /** A node with no value, no links, no parents and no subscribers. */
  const Blank := NodeState(None, map[], {}, map[])

  /** `h` names a node of `w`: the root, or a key of the arena. */
  predicate IsHandle(w: World, h: nat)
  {
    h == RootId || h in w.store
  }

  /** The state of the node that handle `h` names. */
  function NodeAt(w: World, h: nat): NodeState
    requires IsHandle(w, h)
  {
    if h == RootId then w.root else w.store[h]
  }

  /** `w` with the node named `h` replaced by `n`. */
  function WithNode(w: World, h: nat, n: NodeState): (w': World)
    requires IsHandle(w, h)
    ensures w'.store.Keys == w.store.Keys && w'.counter == w.counter
    ensures IsHandle(w', h) && NodeAt(w', h) == n
    ensures forall k :: IsHandle(w, k) && k != h ==> NodeAt(w', k) == NodeAt(w, k)
  {
    if h == RootId then w.(root := n) else w.(store := w.store[h := n])
  }

  /** The counter has moved past the root id and past every id it handed out. */
  ghost predicate Counted(w: World)
  {
    && w.counter >= FirstId
    && RootId !in w.store
    && (forall k :: k in w.store ==> k < w.counter)
  }

  /** No link dangles. */
  ghost predicate LinksClosed(w: World)
  {
    forall h, p :: IsHandle(w, h) && p in NodeAt(w, h).links ==> NodeAt(w, h).links[p] in w.store
  }

  /** A node was linked only by nodes that exist and are older than it; the
      root was linked by nobody. */
  ghost predicate ParentsOlder(w: World)
  {
    && RootId !in w.root.linkedBy
    && (forall k, q {:trigger q in w.store[k].linkedBy} :: k in w.store && q in w.store[k].linkedBy ==> q < k && IsHandle(w, q))
  }

  /** Subscription ids come from the same counter and are never node ids. */
  ghost predicate SubscriptionsFresh(w: World)
  {
    forall h, s {:trigger s in NodeAt(w, h).subscriptions} :: IsHandle(w, h) && s in NodeAt(w, h).subscriptions ==>
      FirstId <= s < w.counter && s !in w.store
  }

  /** No subscription id is used on two nodes. */
  ghost predicate SubscriptionsDisjoint(w: World)
  {
    forall h1, h2, s {:trigger s in NodeAt(w, h1).subscriptions, s in NodeAt(w, h2).subscriptions} :: IsHandle(w, h1) && IsHandle(w, h2) && h1 != h2 && s in NodeAt(w, h1).subscriptions ==>
      s !in NodeAt(w, h2).subscriptions
  }

  /** The invariant of the graph store. */
  ghost predicate Wf(w: World)
  {
    Counted(w) && LinksClosed(w) && ParentsOlder(w) && SubscriptionsFresh(w) && SubscriptionsDisjoint(w)
  }

  /** The graph of a freshly constructed root node. */
  function Init(): (w: World)
    ensures Wf(w)
    ensures w.store == map[] && w.counter == FirstId
    ensures NodeAt(w, RootId).value == None && NodeAt(w, RootId).links == map[]
    ensures NodeAt(w, RootId).subscriptions == map[]
  {
    World(Blank, map[], FirstId)
  }

  /** What `put` stores for the host value `v`. */
  function Stored(v: Arg): string
  {
    match v
    case Some(s) => s
    case None => Placeholder
  }

  /** Creates a child of node `h` reached by `path`: the id is taken from the
      counter, the child enters the arena, and `h` links `path` to it. */
  function NewChild(w: World, h: nat, path: string): (r: (World, nat))
    requires Wf(w) && IsHandle(w, h)
    ensures Wf(r.0)
    ensures r.1 == w.counter && r.0.counter == w.counter + 1
    ensures r.1 != RootId && r.1 !in w.store && r.1 != h
    ensures r.0.store.Keys == w.store.Keys + {r.1}
    ensures IsHandle(r.0, r.1) && IsHandle(r.0, h)
    ensures NodeAt(r.0, r.1) == NodeState(None, map[], {h}, map[])
    ensures NodeAt(r.0, h) == NodeAt(w, h).(links := NodeAt(w, h).links[path := r.1])
    ensures forall k :: IsHandle(w, k) && k != h ==> NodeAt(r.0, k) == NodeAt(w, k)
  {
    var id := w.counter;
    var child := Blank.(linkedBy := {h});
    var w1 := w.(store := w.store[id := child], counter := w.counter + 1);
    assert NodeAt(w1, h) == NodeAt(w, h);
    var parent := NodeAt(w1, h);
    var w2 := WithNode(w1, h, parent.(links := parent.links[path := id]));
    NewChildKeepsWf(w, h, path, w2);
    (w2, id)
  }

  /** Creating a child as `NewChild` does keeps the invariant. */
  lemma NewChildKeepsWf(w: World, h: nat, path: string, w': World)
    requires Wf(w) && IsHandle(w, h)
    requires w'.counter == w.counter + 1
    requires w'.store.Keys == w.store.Keys + {w.counter}
    requires w'.store[w.counter] == NodeState(None, map[], {h}, map[])
    requires IsHandle(w', h) && NodeAt(w', h) == NodeAt(w, h).(links := NodeAt(w, h).links[path := w.counter])
    requires forall k :: IsHandle(w, k) && k != h ==> IsHandle(w', k) && NodeAt(w', k) == NodeAt(w, k)
    ensures Wf(w')
  {
    var id := w.counter;
    assert forall k :: IsHandle(w', k) <==> IsHandle(w, k) || k == id;
    assert id !in w.store && id != RootId && id != h;
    assert Counted(w');
    forall k, p | IsHandle(w', k) && p in NodeAt(w', k).links
      ensures NodeAt(w', k).links[p] in w'.store
    {
      if k != id && k != h {
        assert NodeAt(w', k) == NodeAt(w, k);
      }
    }
    assert NodeAt(w', RootId).linkedBy == w.root.linkedBy;
    forall k, q {:trigger q in w'.store[k].linkedBy} | k in w'.store && q in w'.store[k].linkedBy
      ensures q < k && IsHandle(w', q)
    {
      if k != id {
        assert k != RootId && k in w.store;
        assert w'.store[k].linkedBy == NodeAt(w', k).linkedBy == NodeAt(w, k).linkedBy == w.store[k].linkedBy;
        assert ParentsOlder(w);
      } else {
        assert q == h;
        assert Counted(w);
      }
    }
    forall k, s | IsHandle(w', k) && s in NodeAt(w', k).subscriptions
      ensures FirstId <= s < w'.counter && s !in w'.store
    {
      assert k != id;
      assert NodeAt(w', k).subscriptions == NodeAt(w, k).subscriptions;
      assert IsHandle(w, k) && s in NodeAt(w, k).subscriptions;
    }
    forall k1, k2, s | IsHandle(w', k1) && IsHandle(w', k2) && k1 != k2 && s in NodeAt(w', k1).subscriptions
      ensures s !in NodeAt(w', k2).subscriptions
    {
      assert k1 != id;
      assert NodeAt(w', k1).subscriptions == NodeAt(w, k1).subscriptions;
      if k2 != id {
        assert NodeAt(w', k2).subscriptions == NodeAt(w, k2).subscriptions;
      }
    }
  }

  /** Changing one node's value, links or subscriptions keeps the invariant
      when its links stay inside the arena and its new subscription ids are
      fresh. */
  lemma ReplaceNodeKeepsWf(w: World, h: nat, n: NodeState, w': World)
    requires Wf(w) && IsHandle(w, h)
    requires w' == WithNode(w, h, n).(counter := w'.counter) && w'.counter >= w.counter
    requires n.linkedBy == NodeAt(w, h).linkedBy
    requires forall p :: p in n.links ==> n.links[p] in w.store
    requires forall s :: s in n.subscriptions && s !in NodeAt(w, h).subscriptions ==>
               FirstId <= s < w'.counter && s !in w.store &&
               forall k :: IsHandle(w, k) ==> s !in NodeAt(w, k).subscriptions
    requires NodeAt(w, h).subscriptions.Keys <= n.subscriptions.Keys
    ensures Wf(w')
  {
    assert forall k :: IsHandle(w', k) <==> IsHandle(w, k);
    assert forall k :: IsHandle(w, k) && k != h ==> NodeAt(w', k) == NodeAt(w, k);
    assert NodeAt(w', h) == n;
    assert Counted(w');
    forall k, p | IsHandle(w', k) && p in NodeAt(w', k).links
      ensures NodeAt(w', k).links[p] in w'.store
    {
    }
    assert NodeAt(w', RootId).linkedBy == w.root.linkedBy;
    forall k, q {:trigger q in w'.store[k].linkedBy} | k in w'.store && q in w'.store[k].linkedBy
      ensures q < k && IsHandle(w', q)
    {
      assert k != RootId;
      assert w'.store[k] == NodeAt(w', k) && w.store[k] == NodeAt(w, k);
      assert NodeAt(w', k).linkedBy == NodeAt(w, k).linkedBy;
      assert ParentsOlder(w);
    }
    forall k, s | IsHandle(w', k) && s in NodeAt(w', k).subscriptions
      ensures FirstId <= s < w'.counter && s !in w'.store
    {
      if k != h || s in NodeAt(w, h).subscriptions {
        assert IsHandle(w, k) && s in NodeAt(w, k).subscriptions;
      }
    }
    forall k1, k2, s | IsHandle(w', k1) && IsHandle(w', k2) && k1 != k2 && s in NodeAt(w', k1).subscriptions
      ensures s !in NodeAt(w', k2).subscriptions
    {
    }
  }

  /** The id of the child of `h` reached by `path`: a node with no value reuses
      an existing link, and otherwise (a node holding a value, or a path not
      linked yet) a new child is created. */
  function GetChildId(w: World, h: nat, path: string): (r: (World, nat))
    requires Wf(w) && IsHandle(w, h)
    ensures Wf(r.0)
    ensures r.1 in r.0.store && w.store.Keys <= r.0.store.Keys
    ensures NodeAt(w, h).value == None && path in NodeAt(w, h).links ==>
              r.0 == w && r.1 == NodeAt(w, h).links[path]
    ensures NodeAt(w, h).value != None || path !in NodeAt(w, h).links ==>
              r == NewChild(w, h, path)
    ensures IsHandle(r.0, h) && NodeAt(r.0, h).value == NodeAt(w, h).value
  {
    var node := NodeAt(w, h);
    if node.value.Some? then NewChild(w, h, path)
    else if path in node.links then (w, node.links[path])
    else NewChild(w, h, path)
  }

  /** Replaces the value of `h` and clears its links; every other part of the
      graph stays as it was. */
  function Put(w: World, h: nat, v: Arg): (w': World)
    requires Wf(w) && IsHandle(w, h)
    ensures Wf(w')
    ensures w'.store.Keys == w.store.Keys && w'.counter == w.counter
    ensures IsHandle(w', h)
    ensures NodeAt(w', h).value == Some(if v.Some? then v.value else Placeholder)
    ensures NodeAt(w', h).links == map[]
    ensures NodeAt(w', h).linkedBy == NodeAt(w, h).linkedBy
    ensures NodeAt(w', h).subscriptions == NodeAt(w, h).subscriptions
    ensures forall k :: IsHandle(w, k) && k != h ==> NodeAt(w', k) == NodeAt(w, k)
  {
    var node := NodeAt(w, h);
    var n := node.(value := Some(Stored(v)), links := map[]);
    ReplaceNodeKeepsWf(w, h, n, WithNode(w, h, n));
    WithNode(w, h, n)
  }

  /** Registers `cb` on `h` under a fresh id taken from the counter. */
  function Subscribe(w: World, h: nat, cb: Callback): (r: (World, nat))
    requires Wf(w) && IsHandle(w, h)
    ensures Wf(r.0)
    ensures r.1 == w.counter && r.0.counter == w.counter + 1
    ensures r.1 != RootId && r.1 !in w.store
    ensures forall k :: IsHandle(w, k) ==> r.1 !in NodeAt(w, k).subscriptions
    ensures r.0.store.Keys == w.store.Keys && IsHandle(r.0, h)
    ensures NodeAt(r.0, h) == NodeAt(w, h).(subscriptions := NodeAt(w, h).subscriptions[r.1 := cb])
    ensures |NodeAt(r.0, h).subscriptions| == |NodeAt(w, h).subscriptions| + 1
    ensures forall k :: IsHandle(w, k) && k != h ==> NodeAt(r.0, k) == NodeAt(w, k)
  {
    var id := w.counter;
    var node := NodeAt(w, h);
    var n := node.(subscriptions := node.subscriptions[id := cb]);
    var w1 := WithNode(w, h, n).(counter := w.counter + 1);
    ReplaceNodeKeepsWf(w, h, n, w1);
    (w1, id)
  }
}
