/** What the operations of a node handle promise across several calls. */
module Properties {
  import opened Wrappers
  import opened Notify
  import opened Arena

  /** `n` successive `get(path)` calls on the handle `h`, with the ids they
      return. */
  function GetMany(w: World, h: nat, path: string, n: nat): (r: (World, seq<nat>))
    requires Wf(w) && IsHandle(w, h)
    ensures Wf(r.0) && |r.1| == n
    ensures IsHandle(r.0, h) && NodeAt(r.0, h).value == NodeAt(w, h).value
    ensures w.store.Keys <= r.0.store.Keys
    ensures forall i :: 0 <= i < n ==> r.1[i] in r.0.store
    decreases n
  {
    if n == 0 then (w, [])
    else
      var (w1, id) := GetChildId(w, h, path);
      var (w2, ids) := GetMany(w1, h, path, n - 1);
      (w2, [id] + ids)
  }

  /** On a node without a value whose `path` is already linked, any number of
      `get(path)` calls change nothing and all return the linked child. */
  lemma {:induction false} GetLinkedIsStable(w: World, h: nat, path: string, n: nat)
    requires Wf(w) && IsHandle(w, h)
    requires NodeAt(w, h).value == None && path in NodeAt(w, h).links
    ensures GetMany(w, h, path, n).0 == w
    ensures forall i :: 0 <= i < n ==> GetMany(w, h, path, n).1[i] == NodeAt(w, h).links[path]
    decreases n
  {
    if n > 0 {
      GetLinkedIsStable(w, h, path, n - 1);
    }
  }

  /** On a node without a value, repeated `get(path)` calls create at most
      one node, and every call returns the same id. */
  lemma RepeatedGetSameChild(w: World, h: nat, path: string, n: nat)
    requires Wf(w) && IsHandle(w, h)
    requires NodeAt(w, h).value == None
    requires n > 0
    ensures var (w', ids) := GetMany(w, h, path, n);
      && (forall i :: 0 <= i < n ==> ids[i] == ids[0])
      && w'.counter <= w.counter + 1
      && (path in NodeAt(w, h).links ==> w' == w)
      && (path !in NodeAt(w, h).links ==> w'.store.Keys == w.store.Keys + {ids[0]} && ids[0] !in w.store)
  {
    var (w1, id) := GetChildId(w, h, path);
    assert IsHandle(w1, h) && NodeAt(w1, h).value == None;
    assert path in NodeAt(w1, h).links && NodeAt(w1, h).links[path] == id;
    GetLinkedIsStable(w1, h, path, n - 1);
  }

  /** On a node that holds a value, `get(path)` always creates a new child,
      even when `path` is linked, and leaves the value alone; two successive
      calls return two different fresh ids. */
  lemma LeafGetAlwaysCreates(w: World, h: nat, path: string)
    requires Wf(w) && IsHandle(w, h)
    requires NodeAt(w, h).value != None
    ensures var (w1, a) := GetChildId(w, h, path);
      var (w2, b) := GetChildId(w1, h, path);
      && a != b && a !in w.store && b !in w1.store
      && w2.counter == w.counter + 2
      && NodeAt(w2, h).value == NodeAt(w, h).value
      && NodeAt(w2, h).links == NodeAt(w, h).links[path := b]
  {
  }

  /** After `put`, a `get` on any path, linked before or not, returns a newly
      created child without value, links or subscriptions, whose only parent
      is the node that was put. */
  lemma PutThenGetIsFresh(w: World, h: nat, v: Arg, path: string)
    requires Wf(w) && IsHandle(w, h)
    ensures var w1 := Put(w, h, v);
      var (w2, c) := GetChildId(w1, h, path);
      && c == w.counter && c !in w.store
      && NodeAt(w2, c) == NodeState(None, map[], {h}, map[])
      && NodeAt(w2, h).links == map[path := c]
  {
  }

  /** One operation of a node handle. */
  datatype Op = GetOp(h: nat, path: string) | PutOp(h: nat, v: Arg) | OnOp(h: nat, cb: Callback)

  /** The graph after one operation. */
  function Step(w: World, op: Op): (w': World)
    requires Wf(w) && IsHandle(w, op.h)
    ensures Wf(w')
    ensures w.store.Keys <= w'.store.Keys && w.counter <= w'.counter
    ensures forall k :: k in w'.store && k !in w.store ==> w.counter <= k < w'.counter
    ensures forall k :: IsHandle(w, k) ==> IsHandle(w', k) && NodeAt(w', k).linkedBy == NodeAt(w, k).linkedBy
    ensures forall k :: IsHandle(w, k) ==> NodeAt(w, k).subscriptions.Keys <= NodeAt(w', k).subscriptions.Keys
  {
    match op
    case GetOp(h, path) => GetChildId(w, h, path).0
    case PutOp(h, v) => Put(w, h, v)
    case OnOp(h, cb) => Subscribe(w, h, cb).0
  }

  /** Every operation of `ops` is called on a handle that exists when it runs. */
  ghost predicate Runnable(w: World, ops: seq<Op>)
    requires Wf(w)
    decreases |ops|
  {
    ops == [] || (IsHandle(w, ops[0].h) && Runnable(Step(w, ops[0]), ops[1..]))
  }

  /** The graph after the operations `ops`, one after the other. */
  function Run(w: World, ops: seq<Op>): World
    requires Wf(w) && Runnable(w, ops)
    decreases |ops|
  {
    if ops == [] then w else Run(Step(w, ops[0]), ops[1..])
  }

  /** Across any sequence of operations the invariant holds, the store only
      grows, every id it gains is one the counter had not handed out before
      (so no id is reused, and none is the root's), a node keeps the parents it
      was created with, and no subscription is ever removed. */
  lemma {:induction false} RunOnlyGrows(w: World, ops: seq<Op>)
    requires Wf(w) && Runnable(w, ops)
    ensures var w' := Run(w, ops);
      && Wf(w')
      && w.store.Keys <= w'.store.Keys && w.counter <= w'.counter
      && (forall k :: k in w'.store && k !in w.store ==> w.counter <= k < w'.counter && k != RootId)
      && (forall k :: IsHandle(w, k) ==> IsHandle(w', k) && NodeAt(w', k).linkedBy == NodeAt(w, k).linkedBy)
      && (forall k :: IsHandle(w, k) ==> NodeAt(w, k).subscriptions.Keys <= NodeAt(w', k).subscriptions.Keys)
    decreases |ops|
  {
    if ops != [] {
      var w1 := Step(w, ops[0]);
      RunOnlyGrows(w1, ops[1..]);
    }
  }
}
