# Scope tree model

A Dafny model of the scope tree of `src/scope-tree/scope-tree.ts`. A scope
node owns one observable state cell, a mapping of named events, a mapping of
named actions and a mapping of named child nodes. It also has a bridge
callback subscribed to its own cell. On every change the bridge fires the
change emitter of the node held in the node's `_root` field, or the node's
own emitter while `_root` is still null. `create` builds a node, whose
children the model takes as already built by their own `create` (see the
modelling choices below), and then runs
`bindRootRecursively` from the new node to set `_root` on every node of the
tree.

Files:

- `observable.dfy`, module `Observable`: stand-ins for the two libraries
  the tree is built on. `Cell` is the state container (`ScopeState`, an
  `unstated` `Container` whose constructor stores the given state): it has a
  current `state` and a set of subscribed callbacks. `Emitter` is the
  payload-free emitter of `safe-single-emitter`, reduced to a count of its
  emissions.
- `scope_tree.dfy`, module `ScopeTree`: the class `ScopeNode` with its
  constructor, `GetState`, `SetState`, `Clear` and the bridge
  (`BridgeChange`); `BindStateToScope` and `UnbindStateToScope`; the
  root-binding walk `BindRootRecursively`; and `Create`. It also holds the
  shape-only specification of the walk (`ExpectedRoot`) with the lemmas that
  tie the walk to it, and the corrected walk described under Findings.
- `scenarios.dfy`, module `Scenarios`: small concrete trees built with
  `create`, with what their emitters record. Each holds for every merge
  function.

Modelling choices:

- `createScope(defaultState, creatorFunc)` is the value
  `ScopeType(defaultState, creatorFunc)`. Its `create` is `Create(kind, param)`.
- The suppliers are opaque closures. A result of `None` stands for a falsy
  return value, which the source replaces by `{}` just like a missing
  supplier. The actions supplier is applied to the node itself, which stands
  for the accessor pair bound to that node.
- The fields `sub`, `events`, `_initialState` and `_nodeEvents` are never
  reassigned after the constructor, so they are `const`. `_root` (`root`),
  `data` and `actions` are `var`. `actions` is a `var` only because Dafny
  needs the finished object to hand to the actions supplier.
- A subscribed callback is identified by the node that owns it, since the
  only subscriber in this code is a node's bridge.
- The tree shape is a precondition of the constructor (`Forest`): each child
  is a tree, and no node is in two children's subtrees. The source never
  checks this. Because `sub` is a `const` that can only name nodes built
  earlier, a cycle cannot be built at all.
- `param.sub` is a closure that returns nodes that already exist, so the
  children are built before the parent. In the source, `param.sub()` runs
  inside the constructor at `src/scope-tree/scope-tree.ts:121`. That is after
  `_initialState`, `data`, `events` and `actions` are set and before the
  bridge is subscribed at line 123, so a supplier that builds its children
  there does so while the parent object already exists. The model does not
  capture a children supplier that uses the half-built parent. The proved
  properties are about the tree after `create` and do not depend on this order.
- `Create`'s frame is the `root` field of the nodes already in the children's
  trees. The walk writes nothing else.

## Model

| member | source | states |
|---|---|---|
| Observable.Cell.constructor | src/scope-tree/scope-state.ts:4-7 | a new state cell holds exactly the state it is given and has no subscribers |
| ScopeTree.ScopeNode.constructor | src/scope-tree/scope-tree.ts:96-124 | a new node is unbound (`root` null, so its bridge targets itself); its initial state is `param.state` if given, otherwise the default, and its fresh cell holds exactly that state; events, actions and children come from their suppliers, or are empty maps when a supplier is missing or returns nothing; the bridge is the cell's only subscriber; the node and its children form a tree |
| ScopeTree.ScopeNode.GetState | src/scope-tree/scope-tree.ts:132-134 | returns the value of the node's live cell, reading nothing else |
| ScopeTree.ScopeNode.BridgeChange | src/scope-tree/scope-tree.ts:98-100 | the bridge re-reads `root` when it is called: it fires `root`'s change emitter once, or the node's own emitter while `root` is null, and touches no other emitter |
| ScopeTree.ScopeNode.SetState | src/scope-tree/scope-tree.ts:136-138 | the live cell's value becomes the merge of the change into the old value; the cell and its subscription are unchanged; the emitter of the bridge's current target fires exactly once |
| ScopeTree.ScopeNode.Clear | src/scope-tree/scope-tree.ts:126-130 | the bridge moves from the old cell to a fresh cell; the old cell keeps its value and loses the bridge; the state is the remembered initial state again; any other subscriber stays on the old cell and the new cell has the bridge alone; `root` and `actions` are unchanged; every child keeps its cell and its value, so children are not cleared |
| ScopeTree.BindStateToScope | src/scope-tree/scope-tree.ts:56-59 | adds the scope's bridge to the cell's subscribers and changes nothing else |
| ScopeTree.UnbindStateToScope | src/scope-tree/scope-tree.ts:61-64 | removes the scope's bridge from the cell's subscribers and changes nothing else |
| ScopeTree.BindRootRecursively | src/scope-tree/scope-tree.ts:66-83 | returns the node it was given; sets that node's `root` to the argument, or to the node itself when the argument is absent or null; leaves every child holding its immediate parent, at every depth; writes only `root` fields of the tree, so `data`, `actions`, `sub`, `events` and `_initialState` keep their values; assumes nothing about earlier bindings, so it overwrites them |
| ScopeTree.ExpectedRoot | src/scope-tree/scope-tree.ts:76-80 | the `root` the walk gives a node is determined by the tree shape alone: the top node gets the resolved root, and every other reachable node gets a reachable node whose children include it (its parent) |
| ScopeTree.BoundRootsFollowShape | src/scope-tree/scope-tree.ts:78-80 | in a tree the walk has bound, every reachable node's `root` equals `ExpectedRoot`, the shape-only value |
| ScopeTree.ChildBoundToParent | src/scope-tree/scope-tree.ts:79-80 | after the walk, for any reachable node m and any child c of m, `c.root` is m and c's bridge fires m's emitter |
| ScopeTree.GrandchildEmitsOnParent | src/scope-tree/scope-tree.ts:79-80 | after the walk, a grandchild of the top node sends its changes to its parent's emitter, which is not the top node's |
| ScopeTree.RebindLeavesRoots | src/scope-tree/scope-tree.ts:76-80 | running the walk again on a tree it has already bound from the top leaves every reachable `root` as it was (idempotence) |
| ScopeTree.Create | src/scope-tree/scope-tree.ts:141-151 | returns a fresh node that is its own root, so its bridge fires its own emitter; its children hold it and every deeper node holds its parent, as `ExpectedRoot` says; the node is built as the constructor says, with the bridge subscribed to a cell holding the initial state |
| ScopeTree.BindRootToTop | src/scope-tree/scope-tree.ts:66-83 | the corrected walk: every node of the tree ends up holding the resolved root (see Findings) |
| ScopeTree.BoundToReachesAll | src/scope-tree/scope-tree.ts:76-80 | after the corrected walk, every reachable node's bridge fires the top node's emitter |
| ScopeTree.CreateAsIntended | src/scope-tree/scope-tree.ts:142-150 | `create` with the corrected walk: every reachable node's bridge targets the new top node |
| Scenarios.CreateLeaf | src/scope-tree/scope-tree.ts:150 | `create` with no children gives a node that is alone in its tree, with a fresh emitter that has not fired |
| Scenarios.CreateParentOf | src/scope-tree/scope-tree.ts:150 | `create` with a one-child supplier gives a self-bound parent; the earlier self-bound child now holds the parent, and the child's own children still hold the child |
| Scenarios.CreateParentOfAsIntended | src/scope-tree/scope-tree.ts:150 | the same with the corrected walk: every node below the new parent targets it |
| Scenarios.FanInAsWritten | src/scope-tree/scope-tree.ts:79-80 | tree R, A, B (B under A under R) built by `create`: one `setState` on B fires A's emitter once and R's emitter never |
| Scenarios.FanInAsIntended | src/scope-tree/scope-tree.ts:79-80 | the same tree built with the corrected walk: the `setState` on B fires R's emitter once and A's never |
| Scenarios.UnboundFallback | src/scope-tree/scope-tree.ts:96-99 | a node changed before any binding fires its own emitter; after a parent's `create` has bound it, its next change fires the parent's emitter and not its own |
| Scenarios.ClearRestoresInitialState | src/scope-tree/scope-tree.ts:126-134 | initial state {count: 0}: after setting count to 5 and calling `clear`, the state is {count: 0} again; a later `setState` still reaches the node's emitter (two emissions in all) |
| Scenarios.ClearLeavesOutsideSubscriber | src/scope-tree/scope-tree.ts:126-130 | a callback subscribed directly to a node's cell is still on the old cell after `clear` and not on the new one, while the bridge has moved to the new cell |
| Scenarios.InstanceStateOverridesDefault | src/scope-tree/scope-tree.ts:108-109 | a state passed to `create` becomes both the remembered initial state and the current state, in place of the type's default |

## Findings

| source | as written | input that shows it | evidently intended | confidence | as-written member | corrected member |
|---|---|---|---|---|---|---|
| src/scope-tree/scope-tree.ts:79-80 | the walk passes the node it is visiting (`scopeNode`) to each child as that child's root, so every node below the first level holds its parent in `_root` | tree R, A, B built with `create` (B under A under R), then `setState` on B: A's emitter fires and R's does not, so a listener on R's change channel never hears of it | pass the resolved `root` down, so every node holds the top node and every change in the tree fires the top node's emitter | high (not executed) | Scenarios.FanInAsWritten | ScopeTree.BindRootToTop |

`BindRootRecursively` and `Create` model the code as it is written.
`BindRootToTop`, with `BoundToReachesAll`, `CreateAsIntended` and
`Scenarios.FanInAsIntended`, is the corrected walk and its proved property.
`ChildBoundToParent` and `GrandchildEmitsOnParent` state the as-written
behaviour for all trees.

## Left out

- The shallow merge inside `setState` belongs to `unstated`, which is not part of this model. `SetState` takes the merge as a function argument and says nothing about its result beyond "merge(old, change)".
- The `Promise` returned by `setState` and the timing of notification are left out. The update and the bridge call happen in one step.
- ScopeTree.ScopeNode.SetState: requires the bridge to be the cell's only subscriber, and notifies only the bridge. Other callbacks that outside code subscribes directly to a node's `data` are not modelled. Whether subscribing the same callback twice notifies it twice is not modelled either, since subscribers are a set.
- The internals of `safe-single-emitter` are left out. An emitter is a count of its emissions, and listeners on it are not modelled.
- The bodies of the events, actions and children suppliers are opaque. A supplier that throws, which would abort the constructor, is not modelled.
- The TypeScript type-level machinery (`RecordOrEmpty`, `ScopeNodeProto`, `Supplier`, the generic parameters) has no runtime behaviour and is left out.
- The walk visits children in an order the model leaves open, where the source follows `Object.values` order. In a tree the final `root` values do not depend on that order.
- ScopeTree.RebindLeavesRoots: states idempotence for nodes reachable from the top. Nodes are only ever in a tree's footprint if they are reachable (the constructor sets it to the children's subtrees).
- States are values here (`State` is a map), not shared objects. In the source, `src/scope-tree/scope-tree.ts:108-109` store the same object `param.state || defaultState` both as `_initialState` and as the live cell's `state` (`src/scope-tree/scope-state.ts:6`), and line 128 does so again on every `clear`. Every node created without `param.state` also shares its type's `defaultState` object. So mutating the object that `getState()` returns in place also changes that node's remembered initial state, and those of all nodes sharing the default, and a later `clear` restores the mutated object. A shallow merge leaves nested fields shared in the same way. `Clear`'s `GetState() == initialState` and `Scenarios.ClearRestoresInitialState` hold only when states are never mutated in place.
- The fields `sub`, `events`, `_initialState` and `_nodeEvents` are public in the source and could be reassigned by outside code. The model fixes them at construction, as the code itself does.
