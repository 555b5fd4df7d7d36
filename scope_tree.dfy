/**
 * The scope tree: nodes that each own one observable state cell, carry
 * caller-supplied events, actions and child nodes, and forward every local
 * change of their cell through a bridge callback to the change emitter of
 * the node recorded in their `root` field.
 */
module ScopeTree {
  import opened Observable

  datatype Option<T> = None | Some(value: T)

  /** Identity of a caller-defined emitter in a node's `events` mapping. */
  type EventRef = nat
  /** Identity of a caller-defined action closure in a node's `actions` mapping. */
  type ActionRef = nat

  /**
   * The optional suppliers given to `createScope`.  A supplier is an opaque
   * closure; `None` as its result stands for a falsy return value.  The
   * actions supplier is handed accessors bound to the node being built,
   * which the model represents by the node itself.
   */
  datatype Supplier = Supplier(
    events: Option<() -> Option<map<string, EventRef>>>,
    actions: Option<ScopeNode -> Option<map<string, ActionRef>>>)

  /** What `createScope(defaultState, creatorFunc)` closes over. */
  datatype ScopeType = ScopeType(defaultState: State, creatorFunc: Option<Supplier>)

  /** The optional argument of `create`: an instance state and a children supplier. */
  datatype Param = Param(
    state: Option<State>,
    sub: Option<() -> Option<map<string, ScopeNode>>>)

  /** `(param && param.state) || defaultState` */
  function InstanceState(kind: ScopeType, param: Option<Param>): State
  {
    if param.Some? && param.value.state.Some? then param.value.state.value
    else kind.defaultState
  }

  /** `(creatorFunc && creatorFunc.events && creatorFunc.events()) || {}` */
  function SuppliedEvents(kind: ScopeType): map<string, EventRef>
  {
    if kind.creatorFunc.Some? && kind.creatorFunc.value.events.Some?
       && kind.creatorFunc.value.events.value().Some?
    then kind.creatorFunc.value.events.value().value
    else map[]
  }

  /** The actions supplier applied to the accessors of `node`, or `{}`. */
  function SuppliedActions(kind: ScopeType, node: ScopeNode): map<string, ActionRef>
  {
    if kind.creatorFunc.Some? && kind.creatorFunc.value.actions.Some?
       && kind.creatorFunc.value.actions.value(node).Some?
    then kind.creatorFunc.value.actions.value(node).value
    else map[]
  }

  /** `(param && param.sub && param.sub()) || {}` */
  function SuppliedSub(param: Option<Param>): map<string, ScopeNode>
  {
    if param.Some? && param.value.sub.Some? && param.value.sub.value().Some?
    then param.value.sub.value().value
    else map[]
  }

  /** Every node of every tree in `children`. */
  ghost function ForestRepr(children: map<string, ScopeNode>): set<ScopeNode>
  {
    set k, n | k in children && n in children[k].Repr() :: n
  }

  /** `children` are trees, and no node is shared by two of them. */
  ghost predicate Forest(children: map<string, ScopeNode>)
  {
    (forall k :: k in children ==> children[k].Tree())
    && (forall k, j :: k in children && j in children && k != j ==>
          children[k].Repr() !! children[j].Repr())
  }

  /** `c` is one of the values of `p`'s children mapping. */
  ghost predicate IsChildOf(c: ScopeNode, p: ScopeNode)
  {
    exists k :: k in p.sub && p.sub[k] == c
  }

  /** `m` is `node` or lies below it along the children mappings. */
  ghost predicate Reaches(node: ScopeNode, m: ScopeNode)
    requires node.Tree()
    decreases node.Repr()
  {
    m == node || exists k :: k in node.sub && Reaches(node.sub[k], m)
  }

  class ScopeNode {
    /** `_root`: null until the root-binding walk reaches this node. */
    var root: ScopeNode?
    /** `_nodeEvents.change` */
    const changeEmitter: Emitter
    /** `_initialState`, kept so that `clear` can restore it. */
    const initialState: State
    /** The live state cell; `clear` replaces it. */
    var data: Cell
    const events: map<string, EventRef>
    var actions: map<string, ActionRef>
    const sub: map<string, ScopeNode>
    /** The nodes strictly below this one. */
    ghost const Below: set<ScopeNode>

    /** This node and every node below it. */
    ghost function Repr(): set<ScopeNode>
    {
      {this} + Below
    }

    /**
     * The nodes reachable through `sub` form a tree: no cycle, no node shared
     * by two children's subtrees, and `Below` covers every child's subtree.
     */
    ghost predicate Tree()
      decreases Repr()
    {
      this !in Below
      && (forall k :: k in sub ==> sub[k].Repr() <= Below && sub[k].Tree())
      && (forall k, j :: k in sub && j in sub && k != j ==> sub[k].Repr() !! sub[j].Repr())
    }

    /** The bridge callback is the one subscriber of the live cell. */
    ghost predicate Valid()
      reads this, data
    {
      Tree() && data.subscribers == {this}
    }

    /** Every child of this node holds this node in `root`, and so on down the tree. */
    ghost predicate ParentBound()
      requires Tree()
      reads Repr()
      decreases Repr()
    {
      forall k :: k in sub ==> sub[k].root == this && sub[k].ParentBound()
    }

    /** The node whose change emitter the bridge fires: `this._root || this`. */
    function BridgeTarget(): ScopeNode
      reads this
    {
      if root == null then this else root
    }

    /**
     * The constructor: picks and remembers the instance state, builds a cell
     * from it, fills events, actions and children from their suppliers (empty
     * when absent) and subscribes the bridge to the cell.  The node starts
     * unbound.
     */
    constructor (kind: ScopeType, param: Option<Param>)
      requires Forest(SuppliedSub(param))
      ensures root == null && BridgeTarget() == this
      ensures initialState == InstanceState(kind, param)
      ensures fresh(data) && GetState() == initialState
      ensures fresh(changeEmitter) && changeEmitter.emitted == 0
      ensures events == SuppliedEvents(kind)
      ensures actions == SuppliedActions(kind, this)
      ensures sub == SuppliedSub(param) && Below == ForestRepr(sub)
      ensures Valid()
    {
      var state := InstanceState(kind, param);
      initialState := state;
      data := new Cell(state);
      events := SuppliedEvents(kind);
      sub := SuppliedSub(param);
      Below := ForestRepr(SuppliedSub(param));
      changeEmitter := new Emitter();
      root := null;
      new;
      actions := SuppliedActions(kind, this);
      BindStateToScope(data, this);
    }

    /** `getState`: the live cell's current value. */
    function GetState(): (s: State)
      reads this, data
      ensures s == data.state
    {
      data.state
    }

    /**
     * `_nodeEventsBridge.change`: re-reads `root` at call time and fires the
     * change emitter of that node, or of this node while it is unbound.
     */
    method BridgeChange()
      modifies BridgeTarget().changeEmitter
      ensures root == null ==> changeEmitter.emitted == old(changeEmitter.emitted) + 1
      ensures root != null ==> root.changeEmitter.emitted == old(root.changeEmitter.emitted) + 1
    {
      (if root == null then this else root).changeEmitter.Emit();
    }

    /**
     * `setState`: the cell merges `change` into its value and notifies its
     * subscribers, here exactly the bridge, which fires the target's emitter.
     */
    method SetState(change: State, merge: (State, State) -> State)
      requires Valid()
      modifies data`state, BridgeTarget().changeEmitter
      ensures Valid() && data == old(data)
      ensures GetState() == merge(old(GetState()), change)
      ensures BridgeTarget().changeEmitter.emitted == old(BridgeTarget().changeEmitter.emitted) + 1
    {
      data.Update(change, merge);
      BridgeChange();
    }

    /**
     * `clear`: moves the bridge from the live cell to a fresh cell seeded with
     * the remembered initial state.  Any other subscriber of the old cell stays
     * behind on it, and the new cell has the bridge alone.  Nothing else
     * changes; children keep their own cells and values.
     */
    method Clear()
      requires Tree()
      modifies this`data, data`subscribers
      ensures Valid() && fresh(data)
      ensures GetState() == initialState
      ensures old(data).subscribers == old(data.subscribers) - {this}
      ensures old(data).state == old(data.state)
      ensures root == old(root) && actions == old(actions)
      ensures forall k :: k in sub ==>
                sub[k].data == old(sub[k].data) && sub[k].GetState() == old(sub[k].GetState())
    {
      UnbindStateToScope(data, this);
      data := new Cell(initialState);
      BindStateToScope(data, this);
    }
  }

  /** `bindStateToScope`: subscribe the scope's bridge to `state`. */
  method BindStateToScope(state: Cell, scope: ScopeNode)
    modifies state`subscribers
    ensures state.subscribers == old(state.subscribers) + {scope}
  {
    state.Subscribe(scope);
  }

  /** `unbindStateToScope`: unsubscribe the scope's bridge from `state`. */
  method UnbindStateToScope(state: Cell, scope: ScopeNode)
    modifies state`subscribers
    ensures state.subscribers == old(state.subscribers) - {scope}
  {
    state.Unsubscribe(scope);
  }

  /**
   * Where the root-binding walk leaves `m`'s `root` when it starts at `top`
   * with `resolved` as top's root: a function of the tree's shape alone.
   * The top node gets `resolved`; every other node gets its immediate parent.
   */
  ghost function ExpectedRoot(top: ScopeNode, resolved: ScopeNode, m: ScopeNode): (r: ScopeNode)
    requires top.Tree() && Reaches(top, m)
    decreases top.Repr()
    ensures m == top ==> r == resolved
    ensures m != top ==> Reaches(top, r) && IsChildOf(m, r)
  {
    if m == top then resolved
    else
      var k :| k in top.sub && Reaches(top.sub[k], m);
      TreeChild(top, k);
      ExpectedRoot(top.sub[k], top, m)
  }

  /**
   * `bindRootRecursively(scopeNode, root = scopeNode)`: sets the node's
   * `root` to `root || scopeNode`, then walks every child passing the node
   * itself (not the resolved root) as the child's root.  Only `root` fields
   * of the tree change, and any earlier binding is overwritten.
   */
  method BindRootRecursively(node: ScopeNode, root: ScopeNode? := node) returns (r: ScopeNode)
    requires node.Tree()
    modifies node.Repr()`root
    decreases node.Repr()
    ensures r == node
    ensures node.root == (if root == null then node else root)
    ensures node.ParentBound()
    ensures forall m :: m in node.Repr() ==> m.data == old(m.data) && m.actions == old(m.actions)
  {
    node.root := if root == null then node else root;
    TreeChildren(node);
    var pending := node.sub.Keys;
    while pending != {}
      invariant pending <= node.sub.Keys
      invariant node.root == (if root == null then node else root)
      invariant forall k :: k in node.sub && k !in pending ==>
                  node.sub[k].root == node && node.sub[k].ParentBound()
      decreases pending
    {
      var k :| k in pending;
      TreeDisjoint(node, k);
      var _ := BindRootRecursively(node.sub[k], node);
      pending := pending - {k};
    }
    r := node;
  }

  /**
   * A tree left by the walk has, at every node, exactly the root the shape
   * dictates: `resolved` at the top, the immediate parent everywhere else.
   */
  lemma BoundRootsFollowShape(top: ScopeNode, resolved: ScopeNode, m: ScopeNode)
    requires top.Tree() && top.root == resolved && top.ParentBound()
    requires Reaches(top, m)
    ensures m.root == ExpectedRoot(top, resolved, m)
  {
    if m != top {
      var parent := ExpectedRoot(top, resolved, m);
      var k :| k in parent.sub && parent.sub[k] == m;
      ChildBoundToParent(top, parent, k);
    }
  }

  /**
   * After the walk, every child of every node in the tree holds that node,
   * its immediate parent, in `root`; so its bridge fires the parent's emitter.
   */
  lemma {:induction false} ChildBoundToParent(top: ScopeNode, m: ScopeNode, k: string)
    requires top.Tree() && top.ParentBound()
    requires Reaches(top, m) && k in m.sub
    ensures m.sub[k].root == m && m.sub[k].BridgeTarget() == m
    decreases top.Repr()
  {
    if m != top {
      var j :| j in top.sub && Reaches(top.sub[j], m);
      TreeChild(top, j);
      ChildBoundToParent(top.sub[j], m, k);
    }
  }

  /**
   * A grandchild of the top node reports its changes to its parent's
   * emitter, which is not the top node's.
   */
  lemma GrandchildEmitsOnParent(top: ScopeNode, a: string, b: string)
    requires top.Tree() && top.ParentBound()
    requires a in top.sub && b in top.sub[a].sub
    ensures top.sub[a].sub[b].BridgeTarget() == top.sub[a]
    ensures top.sub[a].sub[b].BridgeTarget() != top
  {
    TreeChild(top, a);
    assert Reaches(top.sub[a], top.sub[a]);
    ChildBoundToParent(top.sub[a], top.sub[a], b);
  }

  /**
   * Running the walk again over a tree it has already bound changes no
   * `root` reachable from the top: the result depends only on the shape.
   */
  method RebindLeavesRoots(node: ScopeNode)
    requires node.Tree() && node.root == node && node.ParentBound()
    modifies node.Repr()`root
    ensures forall m :: m in node.Repr() && Reaches(node, m) ==> m.root == old(m.root)
  {
    forall m | Reaches(node, m) ensures m.root == ExpectedRoot(node, node, m) {
      BoundRootsFollowShape(node, node, m);
    }
    var _ := BindRootRecursively(node);
    forall m | Reaches(node, m) ensures m.root == ExpectedRoot(node, node, m) {
      BoundRootsFollowShape(node, node, m);
    }
  }

  /**
   * `create`: builds a node and binds the new tree from the top.  The
   * children supplier returns nodes that already exist (built, and bound to
   * themselves, by their own `create`); the source calls it inside the
   * constructor, after the state, events and actions are set and before the
   * bridge is subscribed.
   */
  method Create(kind: ScopeType, param: Option<Param>) returns (n: ScopeNode)
    requires Forest(SuppliedSub(param))
    modifies ForestRepr(SuppliedSub(param))`root
    ensures fresh(n) && fresh(n.data) && fresh(n.changeEmitter)
    ensures n.Valid()
    ensures n.root == n && n.BridgeTarget() == n && n.ParentBound()
    ensures forall m :: Reaches(n, m) ==> m.root == ExpectedRoot(n, n, m)
    ensures n.Below == ForestRepr(SuppliedSub(param))
    ensures n.sub == SuppliedSub(param)
    ensures n.initialState == InstanceState(kind, param) && n.GetState() == n.initialState
    ensures n.events == SuppliedEvents(kind) && n.actions == SuppliedActions(kind, n)
    ensures n.changeEmitter.emitted == 0
  {
    var node := new ScopeNode(kind, param);
    n := BindRootRecursively(node);
    forall m | Reaches(n, m) ensures m.root == ExpectedRoot(n, n, m) {
      BoundRootsFollowShape(n, n, m);
    }
  }

  /** Every node of the tree holds `target` in `root`. */
  ghost predicate BoundTo(node: ScopeNode, target: ScopeNode)
    requires node.Tree()
    reads node.Repr()
    decreases node.Repr()
  {
    node.root == target
    && forall k :: k in node.sub ==> BoundTo(node.sub[k], target)
  }

  /**
   * The walk as evidently intended: the resolved root, not the current
   * node, is handed down, so every node ends up holding the top node.
   */
  method BindRootToTop(node: ScopeNode, root: ScopeNode? := node) returns (r: ScopeNode)
    requires node.Tree()
    modifies node.Repr()`root
    decreases node.Repr()
    ensures r == node
    ensures BoundTo(node, if root == null then node else root)
  {
    var resolved := if root == null then node else root;
    node.root := resolved;
    TreeChildren(node);
    var pending := node.sub.Keys;
    while pending != {}
      invariant pending <= node.sub.Keys
      invariant node.root == resolved
      invariant forall k :: k in node.sub && k !in pending ==> BoundTo(node.sub[k], resolved)
      decreases pending
    {
      var k :| k in pending;
      TreeDisjoint(node, k);
      var _ := BindRootToTop(node.sub[k], resolved);
      pending := pending - {k};
    }
    r := node;
  }

  /** Under the intended walk every node of the tree reports to `target`. */
  lemma {:induction false} BoundToReachesAll(top: ScopeNode, target: ScopeNode, m: ScopeNode)
    requires top.Tree() && BoundTo(top, target)
    requires Reaches(top, m)
    ensures m.root == target && m.BridgeTarget() == target
    decreases top.Repr()
  {
    if m != top {
      var k :| k in top.sub && Reaches(top.sub[k], m);
      TreeChild(top, k);
      BoundToReachesAll(top.sub[k], target, m);
    }
  }

  /** `create` with the intended walk: every node's bridge fires the new top's emitter. */
  method CreateAsIntended(kind: ScopeType, param: Option<Param>) returns (n: ScopeNode)
    requires Forest(SuppliedSub(param))
    modifies ForestRepr(SuppliedSub(param))`root
    ensures fresh(n) && fresh(n.changeEmitter) && n.changeEmitter.emitted == 0
    ensures n.Valid() && n.sub == SuppliedSub(param) && n.Below == ForestRepr(SuppliedSub(param))
    ensures forall m :: Reaches(n, m) ==> m.BridgeTarget() == n
  {
    var node := new ScopeNode(kind, param);
    n := BindRootToTop(node);
    forall m | Reaches(n, m)
      ensures m.BridgeTarget() == n
    {
      BoundToReachesAll(n, n, m);
    }
  }

  // Facts about the tree shape, unfolded one level at a time.

  lemma ForestReprEmpty()
    ensures ForestRepr(map[]) == {}
  {
  }

  lemma ForestSingle(key: string, child: ScopeNode)
    requires child.Tree()
    ensures Forest(map[key := child])
  {
  }

  lemma ForestReprSingle(key: string, child: ScopeNode)
    ensures ForestRepr(map[key := child]) == child.Repr()
  {
    var f := ForestRepr(map[key := child]);
    forall n | n in child.Repr() ensures n in f {
      assert key in map[key := child] && n in map[key := child][key].Repr();
    }
  }

  lemma TreeChild(n: ScopeNode, k: string)
    requires n.Tree() && k in n.sub
    ensures n.sub[k].Tree() && n.sub[k].Repr() <= n.Below && n !in n.sub[k].Repr()
  {
  }

  lemma TreeChildren(n: ScopeNode)
    requires n.Tree()
    ensures forall k :: k in n.sub ==>
              n.sub[k].Tree() && n.sub[k].Repr() <= n.Below && n !in n.sub[k].Repr()
  {
  }

  lemma TreeDisjoint(n: ScopeNode, k: string)
    requires n.Tree() && k in n.sub
    ensures forall j :: j in n.sub && j != k ==> n.sub[j].Repr() !! n.sub[k].Repr()
  {
  }
}
