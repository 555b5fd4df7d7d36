/**
 * Small concrete trees built with `create`, stating what their emitters
 * record.  Each holds for every merge function the container library
 * might use.
 */
module Scenarios {
  import opened Observable
  import opened ScopeTree

  /** A scope type with the given default state and no event or action supplier. */
  function Plain(defaultState: State): ScopeType
  {
    ScopeType(defaultState, None)
  }

  /** The `create` argument that supplies exactly `children`. */
  function WithChildren(children: map<string, ScopeNode>): Option<Param>
  {
    Some(Param(None, Some(() => Some(children))))
  }

  /** `create` of a plain node with no children, by the walk as written or as intended. */
  method CreateLeaf(intended: bool) returns (n: ScopeNode)
    ensures fresh(n) && fresh(n.changeEmitter) && n.changeEmitter.emitted == 0
    ensures n.Valid() && n.sub == map[] && n.Repr() == {n}
  {
    ForestReprEmpty();
    if intended {
      n := CreateAsIntended(Plain(map[]), None);
    } else {
      n := Create(Plain(map[]), None);
    }
  }

  /** `create` of a plain node whose children supplier returns `{key: child}`. */
  method CreateParentOf(key: string, child: ScopeNode) returns (p: ScopeNode)
    requires child.Tree()
    modifies child.Repr()`root
    ensures fresh(p) && fresh(p.changeEmitter) && p.changeEmitter.emitted == 0
    ensures p.Valid() && p.root == p && p.sub == map[key := child]
    ensures p.Repr() == {p} + child.Repr()
    ensures child.root == p && child.ParentBound()
  {
    assert SuppliedSub(WithChildren(map[key := child])) == map[key := child];
    ForestReprSingle(key, child);
    ForestSingle(key, child);
    p := Create(Plain(map[]), WithChildren(map[key := child]));
    assert p.sub[key] == child;
  }

  /**
   * Root R with child A with child B, built as `create` builds them.  A
   * change on B fires A's emitter once and R's not at all.
   */
  method FanInAsWritten(merge: (State, State) -> State) returns (rootEmits: nat, parentEmits: nat)
    ensures rootEmits == 0 && parentEmits == 1
  {
    var b := CreateLeaf(false);
    var a := CreateParentOf("b", b);
    var r := CreateParentOf("a", a);
    assert a.sub["b"] == b;
    b.SetState(map["count" := 1], merge);
    rootEmits := r.changeEmitter.emitted;
    parentEmits := a.changeEmitter.emitted;
  }

  /** `create`, with the intended walk, of a plain node whose only child is `child`. */
  method CreateParentOfAsIntended(key: string, child: ScopeNode) returns (p: ScopeNode)
    requires child.Tree()
    modifies child.Repr()`root
    ensures fresh(p) && fresh(p.changeEmitter) && p.changeEmitter.emitted == 0
    ensures p.Valid() && p.sub == map[key := child]
    ensures p.Repr() == {p} + child.Repr()
    ensures forall m :: Reaches(p, m) ==> m.BridgeTarget() == p
  {
    assert SuppliedSub(WithChildren(map[key := child])) == map[key := child];
    ForestReprSingle(key, child);
    ForestSingle(key, child);
    p := CreateAsIntended(Plain(map[]), WithChildren(map[key := child]));
  }

  /** The same tree built with the intended walk: B's change reaches R only. */
  method FanInAsIntended(merge: (State, State) -> State) returns (rootEmits: nat, parentEmits: nat)
    ensures rootEmits == 1 && parentEmits == 0
  {
    var b := CreateLeaf(true);
    var a := CreateParentOfAsIntended("b", b);
    var r := CreateParentOfAsIntended("a", a);
    assert Reaches(r, b) by {
      assert r.sub["a"] == a && a.sub["b"] == b;
      assert Reaches(a, b) by { assert Reaches(b, b); }
    }
    b.SetState(map["count" := 1], merge);
    rootEmits := r.changeEmitter.emitted;
    parentEmits := a.changeEmitter.emitted;
  }

  /**
   * A node changed before any root binding fires its own emitter; once a
   * parent's `create` has bound it, its changes fire the parent's emitter.
   */
  method UnboundFallback(merge: (State, State) -> State)
    returns (ownBefore: nat, ownAfter: nat, parentAfter: nat)
    ensures ownBefore == 1 && ownAfter == 1 && parentAfter == 1
  {
    ForestReprEmpty();
    var child := new ScopeNode(Plain(map[]), None);
    child.SetState(map["count" := 1], merge);
    ownBefore := child.changeEmitter.emitted;
    var parent := CreateParentOf("c", child);
    child.SetState(map["count" := 2], merge);
    ownAfter := child.changeEmitter.emitted;
    parentAfter := parent.changeEmitter.emitted;
  }

  /**
   * With initial state {count: 0}: set count to 5, clear, read the state,
   * then set count to 1.  The read gives {count: 0} back and both changes
   * reach the node's emitter.
   */
  method ClearRestoresInitialState(merge: (State, State) -> State)
    returns (afterClear: State, emits: nat)
    ensures afterClear == map["count" := 0] && emits == 2
  {
    var n := Create(Plain(map["count" := 0]), None);
    n.SetState(map["count" := 5], merge);
    n.Clear();
    afterClear := n.GetState();
    n.SetState(map["count" := 1], merge);
    emits := n.changeEmitter.emitted;
  }

  /**
   * A callback subscribed directly to a node's cell stays on the discarded
   * cell when the node is cleared; only the bridge moves to the new cell.
   */
  method ClearLeavesOutsideSubscriber()
    returns (onOldCell: bool, onNewCell: bool, bridgeOnOldCell: bool, bridgeOnNewCell: bool)
    ensures onOldCell && !onNewCell && !bridgeOnOldCell && bridgeOnNewCell
  {
    var n := Create(Plain(map["count" := 0]), None);
    var listener := new Emitter();
    var before := n.data;
    before.Subscribe(listener);
    n.Clear();
    onOldCell := listener in before.subscribers;
    onNewCell := listener in n.data.subscribers;
    bridgeOnOldCell := n in before.subscribers;
    bridgeOnNewCell := n in n.data.subscribers;
  }

  /** An instance state given to `create` wins over the type's default. */
  method InstanceStateOverridesDefault() returns (initial: State, current: State)
    ensures initial == map["count" := 7] && current == initial
  {
    var n := Create(Plain(map["count" := 0]), Some(Param(Some(map["count" := 7]), None)));
    initial := n.initialState;
    current := n.GetState();
  }
}
