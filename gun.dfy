/** The node handles of the graph store, performed in place.

    One `Graph` object is the state that every handle of one root shares: the
    root node, the store of every other node keyed by id, and the id counter
    (a process-wide atomic in the source, a field here). A handle is an id;
    the methods take the id of the handle they are called on. Every call of a
    host callback is appended to the ghost `log`. */
module Gun {
  import opened Wrappers
  import opened Notify
  import opened Arena

  class Graph {
    var root: NodeState
    var store: map<nat, NodeState>
    var counter: nat
    ghost var log: seq<Notification>

    /** The graph as a value, which module Arena specifies. */
    function State(): World
      reads this
    {
      World(root, store, counter)
    }

    ghost predicate Valid()
      reads this
    {
      Wf(State())
    }

    /** A new root node: id 0, no value, no links, an empty store; the
        counter starts at 1. */
    constructor ()
      ensures Valid()
      ensures State() == Init() && log == []
    {
      root := Blank;
      store := map[];
      counter := FirstId;
      log := [];
    }

    /** Hands out the current counter value and advances the counter. */
    method NextId() returns (id: nat)
      modifies this`counter
      ensures id == old(counter) && counter == old(counter) + 1
    {
      id := counter;
      counter := counter + 1;
    }

    /** Stores `n` as the state of the node named `h`. */
    method SetNode(h: nat, n: NodeState)
      requires IsHandle(State(), h)
      modifies this`root, this`store
      ensures State() == WithNode(old(State()), h, n)
    {
      if h == RootId {
        root := n;
      } else {
        store := store[h := n];
      }
    }

    /** Creates a child of `h` under `path` and returns its id. */
    method NewChild(h: nat, path: string) returns (id: nat)
      requires Valid() && IsHandle(State(), h)
      modifies this`root, this`store, this`counter
      ensures Valid()
      ensures (State(), id) == Arena.NewChild(old(State()), h, path)
      ensures log == old(log)
    {
      var linkedBy := {h};
      id := NextId();
      var node := NodeState(None, map[], linkedBy, map[]);
      store := store[id := node];
      var parent := NodeAt(State(), h);
      SetNode(h, parent.(links := parent.links[path := id]));
      assert State() == Arena.NewChild(old(State()), h, path).0;
    }

    /** The id of the child of `h` under `path`, created when needed. */
    method GetChildId(h: nat, path: string) returns (id: nat)
      requires Valid() && IsHandle(State(), h)
      modifies this`root, this`store, this`counter
      ensures Valid()
      ensures (State(), id) == Arena.GetChildId(old(State()), h, path)
      ensures log == old(log)
    {
      var node := NodeAt(State(), h);
      if node.value.Some? {
        id := NewChild(h, path);
      } else {
        var existing: Option<nat> := if path in node.links then Some(node.links[path]) else None;
        match existing
        case Some(child) =>
          id := child;
        case None =>
          id := NewChild(h, path);
      }
    }

    /** The handle of the child of `h` under `path`; the lookup of the id in
        the store always succeeds. */
    method Get(h: nat, path: string) returns (child: nat)
      requires Valid() && IsHandle(State(), h)
      modifies this`root, this`store, this`counter
      ensures Valid()
      ensures (State(), child) == Arena.GetChildId(old(State()), h, path)
      ensures child in store && IsHandle(State(), child)
      ensures log == old(log)
    {
      child := GetChildId(h, path);
      assert child in store;
    }

    /** Calls a host callback; whatever the callback does, including raising
        an error, the caller carries on. */
    method Call(cb: Callback, arg: Arg)
      modifies this`log
      ensures log == old(log) + [Notification(cb, arg)]
    {
      var outcome := Invoke(cb, arg);
      log := log + [Notification(cb, arg)];
    }

    /** Sets the value of `h` to what `put` stores for `v` and clears its links. */
    method Assign(h: nat, v: Arg)
      requires Valid() && IsHandle(State(), h)
      modifies this`root, this`store
      ensures State() == Arena.Put(old(State()), h, v)
    {
      var stored := Stored(v);
      var node := NodeAt(State(), h);
      SetNode(h, node.(value := Some(stored)));
      node := NodeAt(State(), h);
      SetNode(h, node.(links := map[]));
    }

    /** Calls every callback of `subs` once with `v`, in some order, and
        returns that order. */
    method CallAll(subs: map<nat, Callback>, v: Arg) returns (ghost order: seq<nat>)
      modifies this`log
      ensures EnumeratesOnce(order, subs.Keys)
      ensures log == old(log) + Fire(order, subs, v)
    {
      var remaining := subs.Keys;
      order := [];
      while remaining != {}
        invariant Visiting(order, remaining, subs.Keys)
        invariant log == old(log) + Fire(order, subs, v)
        decreases remaining
      {
        var k :| k in remaining;
        Call(subs[k], v);
        FireSnoc(order, k, subs, v);
        VisitOne(order, remaining, subs.Keys, k);
        order := order + [k];
        remaining := remaining - {k};
      }
    }

    /** Sets the value of `h` (the placeholder when `v` is not a string),
        clears its links, then calls every subscription of `h` once with `v`.
        `order` is the order in which the subscriptions were visited. */
    method Put(h: nat, v: Arg) returns (ghost order: seq<nat>)
      requires Valid() && IsHandle(State(), h)
      modifies this
      ensures Valid()
      ensures State() == Arena.Put(old(State()), h, v)
      ensures EnumeratesOnce(order, NodeAt(old(State()), h).subscriptions.Keys)
      ensures log == old(log) + Fire(order, NodeAt(old(State()), h).subscriptions, v)
    {
      Assign(h, v);
      var subs := NodeAt(State(), h).subscriptions;
      order := CallAll(subs, v);
    }

    /** Calls `cb` at once with the current value of `h` when there is one,
        then registers it on `h` under a fresh id, which it returns. */
    method On(h: nat, cb: Callback) returns (subscription: nat)
      requires Valid() && IsHandle(State(), h)
      modifies this
      ensures Valid()
      ensures (State(), subscription) == Subscribe(old(State()), h, cb)
      ensures log == old(log) + match NodeAt(old(State()), h).value
                                 case Some(s) => [Notification(cb, Some(s))]
                                 case None => []
    {
      var value := NodeAt(State(), h).value;
      if value.Some? {
        Call(cb, Some(value.value));
      }
      subscription := NextId();
      var node := NodeAt(State(), h);
      SetNode(h, node.(subscriptions := node.subscriptions[subscription := cb]));
      assert State() == Subscribe(old(State()), h, cb).0;
    }
  }
}
