/** Concrete uses of a graph, written as clients of the class. */
module Scenarios {
  import opened Wrappers
  import opened Notify
  import opened Arena
  import opened Gun

  /** A new root has id 0 and is never entered in the store; its first child
      gets id 1 and is stored. */
  method ItWorks() returns (rootStored: bool, childId: nat, childStored: bool)
    ensures !rootStored && childId == 1 && childId != RootId && childStored
  {
    var gun := new Graph();
    childId := gun.Get(RootId, "asdf");
    rootStored := RootId in gun.store;
    childStored := childId in gun.store;
  }

  /** Descend from the root to `a`, put "x", subscribe: the subscriber is
      called at once with "x", and its subscription id comes from the counter
      that gave `a` its id. */
  method ReplayOnSubscribe(cb: Callback) returns (a: nat, subscription: nat, ghost fired: seq<Notification>)
    ensures a == 1 && subscription == 2
    ensures fired == [Notification(cb, Some("x"))]
  {
    var gun := new Graph();
    a := gun.Get(RootId, "a");
    var order := gun.Put(a, Some("x"));
    assert gun.log == [] by {
      assert NodeAt(gun.State(), a).subscriptions == map[];
    }
    subscription := gun.On(a, cb);
    fired := gun.log;
  }

  /** A get on a node that holds a value creates a fresh child without value,
      links or subscriptions whose parent is that node, and the node keeps its
      value. */
  method GetOnLeaf() returns (a: nat, c: nat, parent: NodeState, child: NodeState)
    ensures a != RootId && c != a && c != RootId
    ensures parent.value == Some("x") && parent.links == map["b" := c]
    ensures child.value == None && child.links == map[] && child.linkedBy == {a}
    ensures child.subscriptions == map[]
  {
    var gun := new Graph();
    a := gun.Get(RootId, "a");
    var order := gun.Put(a, Some("x"));
    c := gun.Get(a, "b");
    parent := NodeAt(gun.State(), a);
    child := NodeAt(gun.State(), c);
  }

  /** A value that is not a string is stored as the placeholder, while the
      subscribers receive the value as it was given. */
  method PutUnconvertible(cb: Callback) returns (stored: Option<string>, ghost fired: seq<Notification>)
    ensures stored == Some("asdf")
    ensures fired == [Notification(cb, None)]
  {
    var gun := new Graph();
    var a := gun.Get(RootId, "a");
    var subscription := gun.On(a, cb);
    assert gun.log == [];
    ghost var subs := NodeAt(gun.State(), a).subscriptions;
    assert subs.Keys == {subscription};
    var order := gun.Put(a, None);
    FireSingle(order, subs, subscription, None);
    fired := gun.log;
    stored := NodeAt(gun.State(), a).value;
  }

  /** A fresh graph whose root links "a" to node 1, which holds "x". */
  method GraphWithValue() returns (gun: Graph, a: nat)
    ensures fresh(gun) && gun.Valid() && a == 1 && IsHandle(gun.State(), a)
    ensures NodeAt(gun.State(), a) == NodeState(Some("x"), map[], {RootId}, map[])
    ensures gun.counter == 2 && gun.log == []
  {
    gun := new Graph();
    a := gun.Get(RootId, "a");
    var order := gun.Put(a, Some("x"));
  }

  /** Subscribing `cb` to a node holding "x" and without subscriptions, then
      putting "y" on it, calls `cb` with "x" and then with "y". */
  method SubscribeThenPut(gun: Graph, a: nat, cb: Callback)
    requires gun.Valid() && IsHandle(gun.State(), a)
    requires NodeAt(gun.State(), a).value == Some("x") && NodeAt(gun.State(), a).subscriptions == map[]
    modifies gun
    ensures gun.Valid() && IsHandle(gun.State(), a)
    ensures NodeAt(gun.State(), a).value == Some("y") && NodeAt(gun.State(), a).links == map[]
    ensures gun.counter == old(gun.counter) + 1
    ensures gun.log == old(gun.log) + [Notification(cb, Some("x")), Notification(cb, Some("y"))]
  {
    var subscription := gun.On(a, cb);
    ghost var subs := NodeAt(gun.State(), a).subscriptions;
    assert subs.Keys == {subscription};
    var order := gun.Put(a, Some("y"));
    FireSingle(order, subs, subscription, Some("y"));
  }

  /** Put "x", subscribe, put "y", then get "b": the subscriber sees "x" at
      once and "y" on the second put, and "b" is a fresh child, id 3, of the
      node that holds "y". */
  method PutSubscribePutGet(cb: Callback) returns (a: nat, b: nat, ghost fired: seq<Notification>, value: Option<string>)
    ensures a == 1 && b == 3
    ensures fired == [Notification(cb, Some("x")), Notification(cb, Some("y"))]
    ensures value == Some("y")
  {
    var gun;
    gun, a := GraphWithValue();
    SubscribeThenPut(gun, a, cb);
    b := gun.Get(a, "b");
    fired := gun.log;
    value := NodeAt(gun.State(), a).value;
  }
}
