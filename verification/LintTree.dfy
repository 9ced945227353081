/** The lint checker's context tests: climb parent pointers to the nearest assignment, then search its
    targets downward. On well-formed trees the search only ever finds the child climbed through. */
module LintTree {

  datatype CollectionType = ListLiteral | TupleLiteral | SetLiteral | DictLiteral

  datatype Kind =
    | Assign
    | AnnAssign
    | NamedExpr
    | For
    | AssignName(isUpper: bool)
    | Collection(literal: CollectionType, size: nat)
    | Other

  class Node {
    var kind: Kind
    var parent: Node?
    var children: seq<Node>        // get_children()
    var targets: seq<Node>         // the target or targets of an assignment or a loop
    var annotations: seq<Node>     // the nodes its annotation attributes hold, in attribute order; children or not

    constructor (kind: Kind)
      ensures this.kind == kind && parent == null && children == targets == annotations == []
    {
      this.kind := kind;
      parent := null;
      children, targets, annotations := [], [], [];
    }
  }

  /** A forest: parents and children agree, and heights rule out cycles. A node its parent holds as an
      annotation need not be among the children, as a type comment is not. */
  datatype Shape = Shape(nodes: set<Node>, height: map<Node, nat>, bound: nat)

  ghost predicate WellFormed(t: Shape)
    reads t.nodes
  {
    && t.height.Keys == t.nodes
    && (forall n | n in t.nodes :: t.height[n] < t.bound)
    && (forall n | n in t.nodes && n.parent != null ::
          && n.parent in t.nodes && t.height[n] < t.height[n.parent]
          && (n in n.parent.children || n in n.parent.annotations))
    && (forall n, c | n in t.nodes && c in n.children :: c in t.nodes && c.parent == n)
    && (forall n, c | n in t.nodes && c in n.targets :: c in n.children)
    && (forall n, c | n in t.nodes && c in n.annotations :: c in t.nodes && c.parent == n)
  }

  /** `_contains_node`. */
  predicate ContainsNode(root: Node, needle: Node, ghost t: Shape)
    requires WellFormed(t) && root in t.nodes
    reads t.nodes
    decreases t.height[root]
  {
    root == needle ||
    exists i | 0 <= i < |root.children| :: ContainsNode(root.children[i], needle, t)
  }

  // ---------- the parent chain ----------

  /** `a` is `n` or one of its ancestors. */
  ghost predicate OnChain(a: Node, n: Node, t: Shape)
    requires WellFormed(t) && n in t.nodes
    reads t.nodes
    decreases t.bound - t.height[n]
  {
    a == n || (n.parent != null && OnChain(a, n.parent, t))
  }

  /** The same, with every step on the way one from a child. */
  ghost predicate Linked(a: Node, n: Node, t: Shape)
    requires WellFormed(t) && n in t.nodes
    reads t.nodes
    decreases t.bound - t.height[n]
  {
    a == n || (n.parent != null && n in n.parent.children && Linked(a, n.parent, t))
  }

  /** No node is held as an annotation only. */
  ghost predicate AllChildren(t: Shape)
    requires WellFormed(t)
    reads t.nodes
  {
    forall n | n in t.nodes && n.parent != null :: n in n.parent.children
  }

  lemma {:induction false} LinkedIsChain(a: Node, n: Node, t: Shape)
    requires WellFormed(t) && n in t.nodes
    ensures Linked(a, n, t) ==> OnChain(a, n, t)
    ensures AllChildren(t) && OnChain(a, n, t) ==> Linked(a, n, t)
    decreases t.bound - t.height[n]
  {
    if a != n && n.parent != null {
      LinkedIsChain(a, n.parent, t);
    }
  }

  lemma {:induction false} ChainGoesUp(a: Node, n: Node, t: Shape)
    requires WellFormed(t) && n in t.nodes && OnChain(a, n, t)
    ensures a in t.nodes && t.height[n] <= t.height[a]
    ensures a.parent != null ==> OnChain(a.parent, n, t)
    decreases t.bound - t.height[n]
  {
    if a == n {
      if a.parent != null {
        assert OnChain(a.parent, n.parent, t);
      }
    } else {
      ChainGoesUp(a, n.parent, t);
    }
  }

  lemma {:induction false} LinkGoesUp(a: Node, n: Node, t: Shape)
    requires WellFormed(t) && n in t.nodes && Linked(a, n, t)
    requires a.parent != null && a in a.parent.children
    ensures Linked(a.parent, n, t)
    decreases t.bound - t.height[n]
  {
    if a == n {
      assert Linked(a.parent, n.parent, t);
    } else {
      LinkGoesUp(a, n.parent, t);
    }
  }

  /** A linked ancestor is left through one of its children. */
  lemma {:induction false} LinkComesFromChild(a: Node, n: Node, t: Shape) returns (i: nat)
    requires WellFormed(t) && n in t.nodes && Linked(a, n, t) && a != n
    ensures a in t.nodes && i < |a.children| && Linked(a.children[i], n, t)
    decreases t.bound - t.height[n]
  {
    if n.parent == a {
      i :| 0 <= i < |a.children| && a.children[i] == n;
    } else {
      i := LinkComesFromChild(a, n.parent, t);
    }
  }

  /** The duality: searching down from `root` finds `n` exactly when climbing from `n` through children
      meets `root`; where every node is a child of its parent, that is the whole parent chain. */
  lemma {:induction false} SearchIsClimb(root: Node, n: Node, t: Shape)
    requires WellFormed(t) && root in t.nodes && n in t.nodes
    ensures ContainsNode(root, n, t) <==> Linked(root, n, t)
    ensures AllChildren(t) ==> (ContainsNode(root, n, t) <==> OnChain(root, n, t))
    decreases t.height[root]
  {
    LinkedIsChain(root, n, t);
    forall i | 0 <= i < |root.children|
      ensures ContainsNode(root.children[i], n, t) <==> Linked(root.children[i], n, t)
      ensures Linked(root.children[i], n, t) ==> Linked(root, n, t)
    {
      var child := root.children[i];
      assert child in root.children && child.parent == root;
      assert t.height[child] < t.height[child.parent];
      SearchIsClimb(child, n, t);
      if Linked(child, n, t) {
        LinkGoesUp(child, n, t);
      }
    }
    if Linked(root, n, t) && root != n {
      var i := LinkComesFromChild(root, n, t);
      assert ContainsNode(root.children[i], n, t);
    }
  }

  /** A node has one child on a chain at most. */
  lemma {:induction false} OneChildOnChain(a: Node, b: Node, n: Node, t: Shape)
    requires WellFormed(t) && n in t.nodes
    requires OnChain(a, n, t) && OnChain(b, n, t) && a.parent == b.parent != null
    ensures a == b
    decreases t.bound - t.height[n]
  {
    if a != n && b != n {
      OneChildOnChain(a, b, n.parent, t);
    } else if a == n && b != n {
      ChainGoesUp(b, n.parent, t);
    } else if b == n && a != n {
      ChainGoesUp(a, n.parent, t);
    }
  }

  /** So of a node's own nodes only the one climbed through can contain `n`, and does if it is linked. */
  lemma ContainingChild(child: Node, via: Node, n: Node, t: Shape)
    requires WellFormed(t) && n in t.nodes && child in t.nodes
    requires OnChain(via, n, t) && via.parent == child.parent != null
    ensures ContainsNode(child, n, t) <==> child == via && Linked(via, n, t)
  {
    SearchIsClimb(child, n, t);
    LinkedIsChain(child, n, t);
    if ContainsNode(child, n, t) {
      OneChildOnChain(child, via, n, t);
    }
  }

  // ---------- the nearest stop ----------

  datatype Stop = Nowhere | Stop(at: Node, via: Node)

  /** The nearest proper ancestor of one of the kinds, and the child the climb reaches it through. */
  ghost function Nearest(n: Node, kinds: set<Kind>, t: Shape): (s: Stop)
    requires WellFormed(t) && n in t.nodes
    reads t.nodes
    ensures s.Stop? ==> s.at in t.nodes && s.via in t.nodes && s.at.kind in kinds && s.via.parent == s.at
    decreases t.bound - t.height[n]
  {
    if n.parent == null then Nowhere
    else if n.parent.kind in kinds then Stop(n.parent, n)
    else Nearest(n.parent, kinds, t)
  }

  lemma {:induction false} NearestIsOnChain(n: Node, kinds: set<Kind>, t: Shape)
    requires WellFormed(t) && n in t.nodes
    ensures var s := Nearest(n, kinds, t);
            s.Stop? ==> s.at in t.nodes && s.at.kind in kinds && s.via.parent == s.at && OnChain(s.via, n, t)
    decreases t.bound - t.height[n]
  {
    if n.parent != null && n.parent.kind !in kinds {
      NearestIsOnChain(n.parent, kinds, t);
    }
  }

  /** The climb from `n` enters `a` through `via`, and meets no node of the kinds before. */
  ghost predicate Enters(n: Node, a: Node, via: Node, kinds: set<Kind>, t: Shape)
    requires WellFormed(t) && n in t.nodes
    reads t.nodes
  {
    && a in t.nodes && via in t.nodes && via.parent == a && a.kind in kinds && OnChain(via, n, t)
    && forall b | b in t.nodes && b != n && b.kind in kinds && OnChain(b, n, t) :: t.height[a] <= t.height[b]
  }

  lemma {:induction false} AboveIsHigher(a: Node, n: Node, t: Shape)
    requires WellFormed(t) && n in t.nodes && a != n && OnChain(a, n, t)
    ensures a in t.nodes && t.height[n] < t.height[a]
  {
    ChainGoesUp(a, n.parent, t);
  }

  lemma ViaIsSelf(n: Node, via: Node, t: Shape)
    requires WellFormed(t) && n in t.nodes && n.parent != null
    requires via in t.nodes && OnChain(via, n, t) && via.parent != null
    ensures via == n || t.height[n.parent] < t.height[via.parent]
  {
    if via != n {
      ChainGoesUp(via, n.parent, t);
    }
  }

  lemma EntersParent(n: Node, kinds: set<Kind>, t: Shape, via: Node)
    requires WellFormed(t) && n in t.nodes && n.parent != null && n.parent.kind in kinds
    ensures Enters(n, n.parent, n, kinds, t)
    ensures forall a | Enters(n, a, via, kinds, t) :: a == n.parent && via == n
  {
    assert OnChain(n.parent, n.parent, t) && OnChain(n.parent, n, t);
    forall b | b in t.nodes && b != n && OnChain(b, n, t) ensures t.height[n.parent] <= t.height[b] {
      ChainGoesUp(b, n.parent, t);
    }
    forall a | Enters(n, a, via, kinds, t) ensures a == n.parent && via == n {
      assert t.height[a] <= t.height[n.parent];
      ViaIsSelf(n, via, t);
    }
  }

  lemma EntersAbove(n: Node, a: Node, via: Node, kinds: set<Kind>, t: Shape)
    requires WellFormed(t) && n in t.nodes && n.parent != null && n.parent.kind !in kinds
    ensures Enters(n, a, via, kinds, t) <==> Enters(n.parent, a, via, kinds, t)
  {
    forall b | b in t.nodes && b != n.parent && OnChain(b, n.parent, t) ensures b != n && OnChain(b, n, t) {
      AboveIsHigher(b, n.parent, t);
    }
    if Enters(n.parent, a, via, kinds, t) {
      ChainGoesUp(via, n.parent, t);
    }
  }

  /** The nearest stop is the lowest node of the kinds above `n`, and the child below it on the chain. */
  lemma {:induction false} NearestIff(n: Node, kinds: set<Kind>, t: Shape, a: Node, via: Node)
    requires WellFormed(t) && n in t.nodes
    ensures Nearest(n, kinds, t) == Stop(a, via) <==> Enters(n, a, via, kinds, t)
    decreases t.bound - t.height[n]
  {
    if n.parent == null {
    } else if n.parent.kind in kinds {
      EntersParent(n, kinds, t, via);
    } else {
      EntersAbove(n, a, via, kinds, t);
      NearestIff(n.parent, kinds, t, a, via);
    }
  }

  const VALUE_STOPS := {Assign, AnnAssign, NamedExpr}
  const CONSTANT_STOPS := {Assign, AnnAssign}
  const TARGET_STOPS := {Assign, AnnAssign, For}

  /** The climb enters its nearest stop through a target. */
  ghost predicate ThroughTarget(n: Node, kinds: set<Kind>, t: Shape)
    requires WellFormed(t) && n in t.nodes
    reads t.nodes
  {
    var s := Nearest(n, kinds, t);
    s.Stop? && s.via in s.at.targets && Linked(s.via, n, t)
  }

  /** It enters it anywhere else. */
  ghost predicate BesideTargets(n: Node, kinds: set<Kind>, t: Shape)
    requires WellFormed(t) && n in t.nodes
    reads t.nodes
  {
    var s := Nearest(n, kinds, t);
    s.Stop? && !(s.via in s.at.targets && Linked(s.via, n, t))
  }

  /** Stopping at more kinds changes nothing when the stop is of a kind both climbs know. */
  lemma {:induction false} SameStop(n: Node, fewer: set<Kind>, more: set<Kind>, t: Shape)
    requires WellFormed(t) && n in t.nodes && fewer <= more
    requires Nearest(n, more, t).Stop? && Nearest(n, more, t).at.kind in fewer
    ensures Nearest(n, fewer, t) == Nearest(n, more, t)
    decreases t.bound - t.height[n]
  {
    if n.parent.kind !in more {
      SameStop(n.parent, fewer, more, t);
    }
  }

  /** Under a plain or annotated assignment a literal is in its value or in its targets, never in both. */
  lemma ValueOrTarget(n: Node, t: Shape)
    requires WellFormed(t) && n in t.nodes
    requires var s := Nearest(n, VALUE_STOPS + TARGET_STOPS, t); s.Stop? && s.at.kind in CONSTANT_STOPS
    ensures BesideTargets(n, VALUE_STOPS, t) <==> !ThroughTarget(n, TARGET_STOPS, t)
    ensures BesideTargets(n, VALUE_STOPS, t) <==> BesideTargets(n, CONSTANT_STOPS, t)
  {
    SameStop(n, VALUE_STOPS, VALUE_STOPS + TARGET_STOPS, t);
    SameStop(n, TARGET_STOPS, VALUE_STOPS + TARGET_STOPS, t);
    SameStop(n, CONSTANT_STOPS, VALUE_STOPS + TARGET_STOPS, t);
  }

  predicate ConstantTarget(n: Node)
    reads n
  {
    n.kind.AssignName? && n.kind.isUpper
  }

  /** One of the nearest stop's targets is an upper-case name. */
  ghost predicate StopIsConstant(n: Node, kinds: set<Kind>, t: Shape)
    requires WellFormed(t) && n in t.nodes
    reads t.nodes
  {
    var s := Nearest(n, kinds, t);
    s.Stop? && AnyConstantTarget(s.at, t)
  }

  /** `any(self._is_constant_assign_target(target) for target in parent.targets)`. */
  predicate AnyConstantTarget(parent: Node, ghost t: Shape)
    requires WellFormed(t) && parent in t.nodes
    reads t.nodes
  {
    exists i | 0 <= i < |parent.targets| :: ConstantTarget(parent.targets[i])
  }

  /** `any(self._contains_node(target, node) for target in parent.targets)`. */
  predicate AnyTargetContains(parent: Node, node: Node, ghost t: Shape)
    requires WellFormed(t) && parent in t.nodes
    reads t.nodes
  {
    exists i | 0 <= i < |parent.targets| :: ContainsNode(parent.targets[i], node, t)
  }

  lemma TargetClimbedThrough(parent: Node, node: Node, via: Node, t: Shape)
    requires WellFormed(t) && parent in t.nodes && node in t.nodes
    requires via.parent == parent && OnChain(via, node, t)
    ensures AnyTargetContains(parent, node, t) <==> via in parent.targets && Linked(via, node, t)
  {
    forall i | 0 <= i < |parent.targets|
      ensures ContainsNode(parent.targets[i], node, t) <==> parent.targets[i] == via && Linked(via, node, t)
    {
      assert parent.targets[i] in parent.targets && parent.targets[i] in parent.children;
      ContainingChild(parent.targets[i], via, node, t);
    }
    if via in parent.targets {
      var i :| 0 <= i < |parent.targets| && parent.targets[i] == via;
      assert ContainsNode(parent.targets[i], node, t) <==> Linked(via, node, t);
    }
  }

  /** Searching the targets of the nearest stop finds `n` exactly when the climb enters through one. */
  lemma TargetSearch(n: Node, kinds: set<Kind>, t: Shape)
    requires WellFormed(t) && n in t.nodes
    ensures var s := Nearest(n, kinds, t);
            s.Stop? ==> (ThroughTarget(n, kinds, t) <==> AnyTargetContains(s.at, n, t))
  {
    NearestIsOnChain(n, kinds, t);
    var s := Nearest(n, kinds, t);
    if s.Stop? {
      TargetClimbedThrough(s.at, n, s.via, t);
    }
  }

  /** `_is_inside_assignment_value`. */
  method IsInsideAssignmentValue(node: Node, ghost t: Shape) returns (r: bool)
    requires WellFormed(t) && node in t.nodes
    ensures r <==> BesideTargets(node, VALUE_STOPS, t)
  {
    var current := node;
    var parent := node.parent;
    while parent != null
      invariant current in t.nodes && parent == current.parent && OnChain(current, node, t)
      invariant Nearest(node, VALUE_STOPS, t) == Nearest(current, VALUE_STOPS, t)
      decreases t.bound - t.height[current]
    {
      if parent.kind.Assign? || parent.kind.AnnAssign? || parent.kind.NamedExpr? {
        TargetClimbedThrough(parent, node, current, t);
        return !AnyTargetContains(parent, node, t);
      }
      ChainGoesUp(current, node, t);
      current := parent;
      parent := current.parent;
    }
    return false;
  }

  /** `_is_inside_constant_assignment`. */
  method IsInsideConstantAssignment(node: Node, ghost t: Shape) returns (r: bool)
    requires WellFormed(t) && node in t.nodes
    ensures r <==> BesideTargets(node, CONSTANT_STOPS, t) && StopIsConstant(node, CONSTANT_STOPS, t)
  {
    var current := node;
    var parent := node.parent;
    while parent != null
      invariant current in t.nodes && parent == current.parent && OnChain(current, node, t)
      invariant Nearest(node, CONSTANT_STOPS, t) == Nearest(current, CONSTANT_STOPS, t)
      decreases t.bound - t.height[current]
    {
      if parent.kind.Assign? || parent.kind.AnnAssign? {
        TargetClimbedThrough(parent, node, current, t);
        if AnyTargetContains(parent, node, t) {
          return false;
        }
        return AnyConstantTarget(parent, t);
      }
      ChainGoesUp(current, node, t);
      current := parent;
      parent := current.parent;
    }
    return false;
  }

  /** `_is_assignment_target`. */
  method IsAssignmentTarget(node: Node, ghost t: Shape) returns (r: bool)
    requires WellFormed(t) && node in t.nodes
    ensures r <==> ThroughTarget(node, TARGET_STOPS, t)
  {
    var current := node;
    var parent := node.parent;
    while parent != null
      invariant current in t.nodes && parent == current.parent && OnChain(current, node, t)
      invariant Nearest(node, TARGET_STOPS, t) == Nearest(current, TARGET_STOPS, t)
      decreases t.bound - t.height[current]
    {
      if parent.kind.Assign? || parent.kind.AnnAssign? || parent.kind.For? {
        TargetClimbedThrough(parent, node, current, t);
        return AnyTargetContains(parent, node, t);
      }
      ChainGoesUp(current, node, t);
      current := parent;
      parent := current.parent;
    }
    return false;
  }

  // ---------- annotations ----------

  /** Some node on the chain is an annotation of its parent. */
  ghost predicate UnderAnnotation(n: Node, t: Shape)
    requires WellFormed(t) && n in t.nodes
    reads t.nodes
    decreases t.bound - t.height[n]
  {
    n.parent != null && (n in n.parent.annotations || UnderAnnotation(n.parent, t))
  }

  lemma AnnotationClimbedThrough(parent: Node, i: nat, node: Node, via: Node, t: Shape)
    requires WellFormed(t) && parent in t.nodes && node in t.nodes && i < |parent.annotations|
    requires via.parent == parent && Linked(via, node, t)
    ensures parent.annotations[i] in t.nodes
    ensures ContainsNode(parent.annotations[i], node, t) <==> parent.annotations[i] == via
  {
    assert parent.annotations[i] in parent.annotations;
    LinkedIsChain(via, node, t);
    ContainingChild(parent.annotations[i], via, node, t);
  }

  /** `_annotation_attr_contains`. */
  method AnnotationAttrContains(parent: Node, node: Node, ghost via: Node, ghost t: Shape) returns (found: bool)
    requires WellFormed(t) && parent in t.nodes && node in t.nodes
    requires via.parent == parent && Linked(via, node, t)
    ensures found <==> via in parent.annotations
  {
    for i := 0 to |parent.annotations|
      invariant forall j | 0 <= j < i :: parent.annotations[j] != via
    {
      AnnotationClimbedThrough(parent, i, node, via, t);
      if ContainsNode(parent.annotations[i], node, t) {
        return true;
      }
    }
    return false;
  }

  /** `_is_inside_type_annotation`. */
  method IsInsideTypeAnnotation(node: Node, ghost t: Shape) returns (r: bool)
    requires WellFormed(t) && node in t.nodes
    ensures r <==> UnderAnnotation(node, t)
  {
    var current := node;
    var parent := node.parent;
    while parent != null
      invariant current in t.nodes && parent == current.parent && Linked(current, node, t)
      invariant UnderAnnotation(node, t) <==> UnderAnnotation(current, t)
      decreases t.bound - t.height[current]
    {
      var found := AnnotationAttrContains(parent, node, current, t);
      if found {
        return true;
      }
      LinkGoesUp(current, node, t);
      current := parent;
      parent := current.parent;
    }
    return false;
  }

  // ---------- the check ----------

  datatype Context = AssignmentContext | ConstantContext | TargetContext | AnnotationContext

  datatype Config = Config(types: set<CollectionType>, ignored: set<Context>, maxItems: int)

  /** One of the ignored contexts holds. */
  ghost predicate Excused(node: Node, config: Config, t: Shape)
    requires WellFormed(t) && node in t.nodes
    reads t.nodes
  {
    || (AssignmentContext in config.ignored && BesideTargets(node, VALUE_STOPS, t))
    || (ConstantContext in config.ignored && BesideTargets(node, CONSTANT_STOPS, t)
        && StopIsConstant(node, CONSTANT_STOPS, t))
    || (TargetContext in config.ignored && ThroughTarget(node, TARGET_STOPS, t))
    || (AnnotationContext in config.ignored && UnderAnnotation(node, t))
  }

  /** The lowest node of the kinds above `n` holds it in its targets, or elsewhere. */
  ghost predicate HeldBy(n: Node, a: Node, via: Node, kinds: set<Kind>, asTarget: bool, t: Shape)
    requires WellFormed(t) && n in t.nodes
    reads t.nodes
  {
    Enters(n, a, via, kinds, t) && (asTarget <==> via in a.targets && Linked(via, n, t))
  }

  /** Some node of the kinds holds it so. */
  ghost predicate Held(n: Node, kinds: set<Kind>, asTarget: bool, t: Shape)
    requires WellFormed(t) && n in t.nodes
    reads t.nodes
  {
    exists a, via | a in t.nodes && via in t.nodes :: HeldBy(n, a, via, kinds, asTarget, t)
  }

  lemma HeldIff(n: Node, kinds: set<Kind>, t: Shape)
    requires WellFormed(t) && n in t.nodes
    ensures ThroughTarget(n, kinds, t) <==> Held(n, kinds, true, t)
    ensures BesideTargets(n, kinds, t) <==> Held(n, kinds, false, t)
  {
    var s := Nearest(n, kinds, t);
    if s.Stop? {
      NearestIff(n, kinds, t, s.at, s.via);
      assert ThroughTarget(n, kinds, t) ==> HeldBy(n, s.at, s.via, kinds, true, t);
      assert BesideTargets(n, kinds, t) ==> HeldBy(n, s.at, s.via, kinds, false, t);
    }
    forall a, via | a in t.nodes && via in t.nodes && Enters(n, a, via, kinds, t) ensures s == Stop(a, via) {
      NearestIff(n, kinds, t, a, via);
    }
  }

  lemma {:induction false} AnnotationIff(n: Node, t: Shape)
    requires WellFormed(t) && n in t.nodes
    ensures UnderAnnotation(n, t) <==>
            exists b | b in t.nodes :: OnChain(b, n, t) && b.parent != null && b in b.parent.annotations
    decreases t.bound - t.height[n]
  {
    assert OnChain(n, n, t);
    if n.parent != null {
      AnnotationIff(n.parent, t);
      forall b | b in t.nodes && OnChain(b, n.parent, t) ensures OnChain(b, n, t) {
      }
    }
  }

  ghost predicate ConstantAmong(a: Node, t: Shape)
    requires WellFormed(t) && a in t.nodes
    reads t.nodes
  {
    exists i | 0 <= i < |a.targets| :: a.targets[i].kind == AssignName(true)
  }

  /** The contexts, told from the tree alone: a literal is in an assigned value when the lowest plain, annotated
      or named assignment above holds it outside its targets; in a constant's when that assignment, plain or
      annotated, also has an upper-case target; in a target when the lowest assignment or loop holds it as one;
      in an annotation when it or some node above is one of its parent. */
  ghost predicate InContext(n: Node, c: Context, t: Shape)
    requires WellFormed(t) && n in t.nodes
    reads t.nodes
  {
    match c
    case AssignmentContext => Held(n, {Assign, AnnAssign, NamedExpr}, false, t)
    case ConstantContext =>
      exists a, via | a in t.nodes && via in t.nodes ::
        HeldBy(n, a, via, {Assign, AnnAssign}, false, t) && ConstantAmong(a, t)
    case TargetContext => Held(n, {Assign, AnnAssign, For}, true, t)
    case AnnotationContext =>
      exists b | b in t.nodes :: OnChain(b, n, t) && b.parent != null && b in b.parent.annotations
  }

  lemma ConstantIff(n: Node, t: Shape)
    requires WellFormed(t) && n in t.nodes
    ensures BesideTargets(n, CONSTANT_STOPS, t) && StopIsConstant(n, CONSTANT_STOPS, t) <==>
            InContext(n, ConstantContext, t)
  {
    var s := Nearest(n, CONSTANT_STOPS, t);
    if s.Stop? {
      NearestIff(n, CONSTANT_STOPS, t, s.at, s.via);
      assert BesideTargets(n, CONSTANT_STOPS, t) ==> HeldBy(n, s.at, s.via, {Assign, AnnAssign}, false, t);
      assert AnyConstantTarget(s.at, t) <==> ConstantAmong(s.at, t);
    }
    forall a, via | a in t.nodes && via in t.nodes && Enters(n, a, via, CONSTANT_STOPS, t) ensures s == Stop(a, via) {
      NearestIff(n, CONSTANT_STOPS, t, a, via);
    }
  }

  /** What the test of a context finds. */
  ghost predicate Noticed(n: Node, c: Context, t: Shape)
    requires WellFormed(t) && n in t.nodes
    reads t.nodes
  {
    match c
    case AssignmentContext => BesideTargets(n, VALUE_STOPS, t)
    case ConstantContext => BesideTargets(n, CONSTANT_STOPS, t) && StopIsConstant(n, CONSTANT_STOPS, t)
    case TargetContext => ThroughTarget(n, TARGET_STOPS, t)
    case AnnotationContext => UnderAnnotation(n, t)
  }

  lemma ContextIff(n: Node, c: Context, t: Shape)
    requires WellFormed(t) && n in t.nodes
    ensures Noticed(n, c, t) <==> InContext(n, c, t)
  {
    match c
    case AssignmentContext => HeldIff(n, VALUE_STOPS, t);
    case ConstantContext => ConstantIff(n, t);
    case TargetContext => HeldIff(n, TARGET_STOPS, t);
    case AnnotationContext => AnnotationIff(n, t);
  }

  lemma ExcusedWhere(n: Node, config: Config, t: Shape)
    requires WellFormed(t) && n in t.nodes
    ensures Excused(n, config, t) <==> exists c | c in config.ignored :: Noticed(n, c, t)
  {
    var ignored := config.ignored;
    if Excused(n, config, t) {
      var c := if AssignmentContext in ignored && Noticed(n, AssignmentContext, t) then AssignmentContext
               else if ConstantContext in ignored && Noticed(n, ConstantContext, t) then ConstantContext
               else if TargetContext in ignored && Noticed(n, TargetContext, t) then TargetContext
               else AnnotationContext;
      assert c in ignored && Noticed(n, c, t);
    }
    if c :| c in ignored && Noticed(n, c, t) {
      match c
      case AssignmentContext =>
      case ConstantContext =>
      case TargetContext =>
      case AnnotationContext =>
    }
  }

  /** A literal is excused exactly when one of the configured contexts holds. */
  lemma ExcusedIff(n: Node, config: Config, t: Shape)
    requires WellFormed(t) && n in t.nodes
    ensures Excused(n, config, t) <==> exists c | c in config.ignored :: InContext(n, c, t)
  {
    ExcusedWhere(n, config, t);
    forall c ensures Noticed(n, c, t) <==> InContext(n, c, t) {
      ContextIff(n, c, t);
    }
  }

  /** `_should_ignore_by_context`. */
  method ShouldIgnoreByContext(node: Node, config: Config, ghost t: Shape) returns (r: bool)
    requires WellFormed(t) && node in t.nodes
    ensures r <==> Excused(node, config, t)
  {
    if AssignmentContext in config.ignored {
      r := IsInsideAssignmentValue(node, t);
      if r { return; }
    }
    if ConstantContext in config.ignored {
      r := IsInsideConstantAssignment(node, t);
      if r { return; }
    }
    if TargetContext in config.ignored {
      r := IsAssignmentTarget(node, t);
      if r { return; }
    }
    if AnnotationContext in config.ignored {
      r := IsInsideTypeAnnotation(node, t);
      return;
    }
    return false;
  }

  /** `_check_collection`: whether the literal is reported. */
  method CheckCollection(node: Node, config: Config, ghost t: Shape) returns (reported: bool)
    requires WellFormed(t) && node in t.nodes && node.kind.Collection?
    ensures reported <==>
            && node.kind.literal in config.types
            && node.kind.size > config.maxItems
            && !exists c | c in config.ignored :: InContext(node, c, t)
  {
    ExcusedIff(node, config, t);
    if node.kind.literal !in config.types {
      return false;
    }
    var ignored := ShouldIgnoreByContext(node, config, t);
    if ignored {
      return false;
    }
    return node.kind.size > config.maxItems;
  }
}
