# Graph store of gun-rs-wasm, modelled in Dafny

gun-rs-wasm keeps an in-memory graph of nodes. A node may hold a string value,
named links to child nodes, or both. A caller starts from a root node and
uses three operations on a node handle:

- `get(path)` finds or creates a child.
- `put(value)` sets the value, drops the links and calls every subscriber.
- `on(callback)` subscribes to value changes.

Every node lives in a shared store keyed by id. One global counter hands out
both node ids and subscription ids. The root has id 0 and is never entered in
the store.

The model has six modules:

- `Wrappers` (wrappers.dfy) holds the `Option` datatype.
- `Notify` (notify.dfy) covers host values, opaque callbacks and the
  notification log. Host values are either a string or something that is not
  a string. It also proves that visiting a node's subscriptions calls each one
  exactly once.
- `Arena` (arena.dfy) describes the graph as a value: the root, the store and
  the counter. It defines the store invariant `Wf` and one function per
  operation. Each function's contract states the new graph and proves that
  `Wf` still holds.
- `Gun` (gun.dfy) is the class `Graph`. It updates the root, the store and the
  counter in place, and appends every callback call to a ghost `log`. Each
  method is proved against the matching `Arena` function. `put` keeps the
  source's loop over the subscriptions, in the method `CallAll`.
- `Properties` (properties.dfy) holds properties that span several calls:
  repeated `get`, `get` on a leaf, `put` followed by `get`, and any run of
  operations.
- `Scenarios` (scenarios.dfy) holds concrete clients, including the
  repository's `it_works` test.

Two behaviours of the code are easy to miss:

- A node can hold a value and links at once. `get` on a node holding a value
  still creates and links a new child, and the node keeps its value
  (src/lib.rs:80-81, 64). `Scenarios.GetOnLeaf` shows such a node.
- `put` passes subscribers the host value as it was given (src/lib.rs:108).
  Only the stored value falls back to `"asdf"` (src/lib.rs:104).
  `Scenarios.PutUnconvertible` shows a subscriber that receives the
  unconverted value while `"asdf"` is stored.

## Model

| member | source | states |
|---|---|---|
| `Arena.Init` | src/lib.rs:40-48 | a new root has no value, no links and no subscriptions; the store is empty; the counter starts at 1; the invariant holds |
| `Gun.Graph.constructor` | src/lib.rs:40-48 | the object's state is the fresh root graph and the log is empty |
| `Gun.Graph.NextId` | src/lib.rs:16-17 | returns the current counter value and advances the counter by one |
| `Arena.NewChild` | src/lib.rs:51-66 | the child's id is the old counter value, which is neither the root nor an existing node, and the counter grows by one; the store gains exactly that key; the child has no value, no links and no subscriptions, and its only parent is the creating node; the parent's links gain `path -> id` and its other links are unchanged; every other node is unchanged; the invariant is kept |
| `Arena.NewChildKeepsWf` | src/lib.rs:51-66 | creating a child keeps every link inside the store, keeps every parent older than its child, and keeps subscription ids fresh and distinct |
| `Gun.Graph.NewChild` | src/lib.rs:51-66 | the in-place insertion into the store and the parent's links produces exactly the graph and id of `Arena.NewChild`; no callback is called |
| `Arena.GetChildId` | src/lib.rs:79-92 | on a node with no value whose path is linked, returns the linked id and changes nothing; otherwise, including on any node holding a value, creates a child as `NewChild` does; the id is always a key of the store; the store never shrinks; the node's value is untouched |
| `Gun.Graph.GetChildId` | src/lib.rs:79-92 | performs `Arena.GetChildId` in place, including the branch order (value first, then the link lookup) |
| `Gun.Graph.Get` | src/lib.rs:94-97 | returns the child's handle, whose lookup in the store always succeeds |
| `Arena.Put` | src/lib.rs:103-106 | the value becomes the input string, or `"asdf"` when the input is not a string; the links become empty; the node's parents and subscriptions, the store's keys, the counter and every other node are unchanged; the invariant is kept |
| `Arena.ReplaceNodeKeepsWf` | src/lib.rs:103-106 | replacing one node's value and links, or adding a fresh subscription to it, keeps the invariant |
| `Gun.Graph.Assign` | src/lib.rs:104-106 | writing the value and then clearing the links in place gives exactly `Arena.Put` |
| `Gun.Graph.Put` | src/lib.rs:103-110 | the new state is `Arena.Put`; every subscription of the node as it was before the call is visited exactly once, in some order, with one notification per visit that carries the input as given |
| `Gun.Graph.CallAll` | src/lib.rs:107-109 | the loop over the subscriptions visits every key exactly once, in some order, and logs one notification per visit with that key's callback and the value; nothing but the log changes |
| `Notify.VisitOne` | src/lib.rs:107-109 | visiting one remaining subscription keeps each id visited at most once and every id either visited or remaining; when none remain, every subscription was visited exactly once |
| `Gun.Graph.Call` | src/lib.rs:112-114 | one callback call is logged whether or not the callback throws; the error is ignored and the caller continues |
| `Notify.Fire` | src/lib.rs:107-109 | calling the subscriptions in a given order produces one notification per visit, and each carries that subscription's callback and the value |
| `Notify.FireSnoc` | src/lib.rs:107-109 | visiting one more subscription appends exactly its notification |
| `Notify.EnumerationCounts` | src/lib.rs:107-109 | during one `put`, each subscription is called exactly once and no other id is called |
| `Notify.EnumerationSize` | src/lib.rs:107-109 | one `put` makes exactly as many calls as the node has subscriptions |
| `Notify.FireSingle` | src/lib.rs:107-109 | a node with one subscription makes exactly one call per `put` |
| `Notify.PutsNotifyInOrder` | src/lib.rs:103-109 | after two `put`s, every subscriber gets the first value and later the second |
| `Arena.Subscribe` | src/lib.rs:74-76 | the subscription id is the old counter value and the counter grows by one; the id is not a node id and is not used by any node's subscriptions; the node's subscriptions grow by exactly that entry; the store's keys and every other node are unchanged; the invariant is kept |
| `Gun.Graph.On` | src/lib.rs:68-77 | if the node holds a value, the callback is called once with it, and otherwise not at all; then the callback is registered as `Arena.Subscribe` does and the new id is returned |
| `Properties.GetMany` | src/lib.rs:94-97 | repeated `get` calls keep the invariant and the node's value; each returned id is a key of the store |
| `Properties.GetLinkedIsStable` | src/lib.rs:83-88 | on a node with no value whose path is linked, any number of `get(path)` calls leave the graph unchanged and all return the linked id |
| `Properties.RepeatedGetSameChild` | src/lib.rs:79-92 | on a node with no value, repeated `get(path)` calls all return the same id; they create the child only if the path was not yet linked, and then only one child, with a fresh id |
| `Properties.LeafGetAlwaysCreates` | src/lib.rs:80-81 | on a node holding a value, two `get(path)` calls return two different fresh ids; the second id replaces the first in the links; the value is untouched |
| `Properties.PutThenGetIsFresh` | src/lib.rs:103-106 | after `put`, a `get` on any path creates a new child with the next id and no value, links or subscriptions, whose only parent is the node; that child is the node's only link |
| `Properties.Step` | src/lib.rs:68-110 | every operation keeps the invariant; the store never loses a key; every new key is an id the counter had not handed out; no node's parents change; no subscription is removed |
| `Properties.RunOnlyGrows` | src/lib.rs:51-66 | over any sequence of operations the invariant holds; the store only grows; new node ids are never reused and never equal the root's; parents are fixed at creation; subscriptions are never removed |
| `Scenarios.ItWorks` | src/lib.rs:119-125 | the root, id 0, is not in the store; its first child has id 1, which is not the root's, and is in the store |
| `Scenarios.ReplayOnSubscribe` | src/lib.rs:68-77 | subscribing to a node that holds "x" calls the callback once with "x"; the subscription gets id 2, the next value of the counter that gave the node id 1 |
| `Scenarios.GetOnLeaf` | src/lib.rs:79-81 | a `get` on a node holding a value creates a fresh child with no value whose only parent is that node; the node keeps its value and links the new child |
| `Scenarios.PutUnconvertible` | src/lib.rs:103-109 | a value that is not a string is stored as `"asdf"`, and the subscriber is called with the value as given |
| `Scenarios.GraphWithValue` | src/lib.rs:94-106 | `get("a")` on a new root and `put("x")` give node 1 holding "x", linked from the root only, with no links or subscriptions; the counter is at 2 and no callback was called |
| `Scenarios.SubscribeThenPut` | src/lib.rs:68-110 | subscribing to a node that holds "x" and then putting "y" on it calls the subscriber with "x" and then with "y"; the node ends holding "y" with no links |
| `Scenarios.PutSubscribePutGet` | src/lib.rs:68-110 | put "x", on, put "y", get "b" from a new root: the subscriber receives exactly "x" then "y"; the node holds "y"; "b" gets the fresh id 3 |

## Left out

- The `wasm_bindgen` bindings and the `wee_alloc` allocator are left out. They are binding and allocator plumbing with no behaviour of the store.
- Conversion between host values and strings through JSON is not modelled. A host value is `Some(s)` when it converts to the string `s` and `None` when it does not.
- Host callbacks are opaque tokens. Calling one only appends to the ghost log. Whether it throws is a flag that the caller ignores. A callback that calls back into the graph is not modelled. In the source, a callback that calls `on` on the node being put would block on that node's lock.
- Shared ownership through `Arc` and `RwLock`, the relaxed atomic counter, and the race between checking and inserting a link in `get` are not modelled. These are concurrency concerns; the model is one sequential store in which a handle is an id.
- The id counter is a field of each `Graph`. In the source it is process-wide, so two roots draw ids from the same counter.
- The counter is an unbounded `nat`. The source's `usize` counter would wrap around after `usize::MAX` allocations.
- `get` returns the child's id, not a copy of the node record. Every record shares its fields with the store, so a handle and its id carry the same information in a sequential model.
- `put` visits subscriptions in `HashMap` iteration order. The model allows any order; it fixes neither the order nor whether two `put`s use the same order.
- The method `map` is not modelled because it has an empty body.
