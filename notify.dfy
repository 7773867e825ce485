/** Host values, callbacks and the notification log.

    The host (a JavaScript engine) is outside the model: a value handed to
    `put` is either a string or some other host value, a callback is an opaque
    token, and every call of a callback is recorded as one `Notification`. */
module Notify {
  import opened Wrappers

  /** A host value: `Some(s)` when it is the string `s`, `None` when it is a
      host value that does not convert to a string. */
  type Arg = Option<string>

  /** An opaque host callback; `throws` says whether calling it raises. */
  datatype Callback = Callback(token: nat, throws: bool)

  /** What calling a host callback gives back to the caller. */
  datatype Outcome = Returned | Threw

  /** One call of a callback with an argument, as the host observes it. */
  datatype Notification = Notification(callback: Callback, arg: Arg)

  /** The outcome the host reports for calling `cb`; the graph store ignores it. */
  function Invoke(cb: Callback, arg: Arg): Outcome
  {
    if cb.throws then Threw else Returned
  }

  /** No subscription id is visited twice. */
  ghost predicate Distinct(order: seq<nat>)
  {
    forall i, j :: 0 <= i < j < |order| ==> order[i] != order[j]
  }

  /** `order` visits every id of `keys` exactly once and nothing else. */
  ghost predicate EnumeratesOnce(order: seq<nat>, keys: set<nat>)
  {
    && Distinct(order)
    && (forall i :: 0 <= i < |order| ==> order[i] in keys)
    && (forall k :: k in keys ==> k in order)
  }

  /** Part way through visiting `keys`: `order` holds the ids visited so far,
      each once, and `remaining` the ids still to visit. */
  ghost predicate Visiting(order: seq<nat>, remaining: set<nat>, keys: set<nat>)
  {
    && remaining <= keys
    && Distinct(order)
    && (forall i :: 0 <= i < |order| ==> order[i] in keys && order[i] !in remaining)
    && (forall k :: k in keys ==> k in order || k in remaining)
  }

  /** Visiting one more remaining id keeps the bookkeeping right, and once
      nothing remains the visit was an enumeration of `keys`. */
  lemma VisitOne(order: seq<nat>, remaining: set<nat>, keys: set<nat>, k: nat)
    requires Visiting(order, remaining, keys) && k in remaining
    ensures Visiting(order + [k], remaining - {k}, keys)
    ensures remaining - {k} == {} ==> EnumeratesOnce(order + [k], keys)
  {
    var order' := order + [k];
    assert forall i :: 0 <= i < |order| ==> order'[i] == order[i] && order[i] != k;
    assert order'[|order|] == k;
  }

  /** How many times `k` occurs in `order`. */
  function Count(order: seq<nat>, k: nat): nat
  {
    if order == [] then 0 else (if order[0] == k then 1 else 0) + Count(order[1..], k)
  }

  /** The notifications of calling, in the order `order`, the callbacks that
      `subs` registers, each with `arg`. */
  function Fire(order: seq<nat>, subs: map<nat, Callback>, arg: Arg): (log: seq<Notification>)
    requires forall i :: 0 <= i < |order| ==> order[i] in subs
    ensures |log| == |order|
    ensures forall i :: 0 <= i < |order| ==> log[i] == Notification(subs[order[i]], arg)
  {
    if order == [] then [] else [Notification(subs[order[0]], arg)] + Fire(order[1..], subs, arg)
  }

  /** Firing one more subscription appends exactly its notification. */
  lemma FireSnoc(order: seq<nat>, k: nat, subs: map<nat, Callback>, arg: Arg)
    requires forall i :: 0 <= i < |order| ==> order[i] in subs
    requires k in subs
    ensures Fire(order + [k], subs, arg) == Fire(order, subs, arg) + [Notification(subs[k], arg)]
  {
  }

  /** With one subscription, firing calls its callback once. */
  lemma FireSingle(order: seq<nat>, subs: map<nat, Callback>, k: nat, arg: Arg)
    requires subs.Keys == {k} && EnumeratesOnce(order, subs.Keys)
    ensures Fire(order, subs, arg) == [Notification(subs[k], arg)]
  {
  }

  /** Two successive puts on a node whose subscriptions are `subs`: every
      subscription is called with the first value and, later in the log, with
      the second. */
  lemma PutsNotifyInOrder(
    order1: seq<nat>, order2: seq<nat>, subs: map<nat, Callback>, v1: Arg, v2: Arg, log: seq<Notification>, k: nat)
    requires EnumeratesOnce(order1, subs.Keys) && EnumeratesOnce(order2, subs.Keys)
    requires log == Fire(order1, subs, v1) + Fire(order2, subs, v2)
    requires k in subs
    ensures exists i, j :: 0 <= i < j < |log| && log[i] == Notification(subs[k], v1) && log[j] == Notification(subs[k], v2)
  {
    var i :| 0 <= i < |order1| && order1[i] == k;
    var j :| 0 <= j < |order2| && order2[j] == k;
    var later := |order1| + j;
    assert 0 <= i < later < |log| && log[i] == Notification(subs[k], v1) && log[later] == Notification(subs[k], v2);
  }

  /** Dropping the first id of an enumeration leaves an enumeration of the
      other ids. */
  lemma EnumerationTail(order: seq<nat>, keys: set<nat>)
    requires EnumeratesOnce(order, keys) && order != []
    ensures order[0] in keys
    ensures EnumeratesOnce(order[1..], keys - {order[0]})
  {
  }

  /** An enumeration visits each id of `keys` exactly once and any other id
      never: each subscription fires once per `put`. */
  lemma {:induction false} EnumerationCounts(order: seq<nat>, keys: set<nat>)
    requires EnumeratesOnce(order, keys)
    ensures forall k :: Count(order, k) == if k in keys then 1 else 0
    decreases |order|
  {
    if order == [] {
      assert keys == {};
    } else {
      var rest := order[1..];
      var x := order[0];
      EnumerationTail(order, keys);
      EnumerationCounts(rest, keys - {x});
    }
  }

  /** An enumeration is exactly as long as the set it enumerates: one `put`
      makes as many calls as there are subscriptions. */
  lemma {:induction false} EnumerationSize(order: seq<nat>, keys: set<nat>)
    requires EnumeratesOnce(order, keys)
    ensures |order| == |keys|
    decreases |order|
  {
    if order == [] {
      assert keys == {};
    } else {
      var rest := order[1..];
      var x := order[0];
      EnumerationTail(order, keys);
      EnumerationSize(rest, keys - {x});
    }
  }
}
