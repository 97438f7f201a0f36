/**
 The promotion walk: an explicit stack of heap nodes, each popped node relabelled in
 place from the ledger, its children pushed.  The same loop serves the experiments'
 `_insert_budgeted` (every node) and the cache's `promote_to_budgeted` (the nodes of
 one namespace fingerprint).
 */
module PromotionWalk {
  import opened Options
  import opened Ledger
  import opened CachePolicy

  class TreeNode {
    const key: Fingerprint
    const namespace: Option<Fingerprint>
    const children: seq<TreeNode>
    var tag: Label

    constructor (key: Fingerprint, namespace: Option<Fingerprint>, children: seq<TreeNode>, tag: Label)
      ensures this.key == key && this.namespace == namespace && this.children == children && this.tag == tag
    {
      this.key, this.namespace, this.children, this.tag := key, namespace, children, tag;
    }
  }

  datatype Filter = Every | Namespace(fp: Fingerprint)

  predicate Selects(filter: Filter, node: TreeNode) {
    filter.Every? || node.namespace == Some(filter.fp)
  }

  /** The unfolding of a node; a node that has one roots a finite tree. */
  datatype Shape = Shape(node: TreeNode, kids: seq<Shape>)

  ghost predicate Unfolds(s: Shape) {
    && |s.kids| == |s.node.children|
    && forall i | 0 <= i < |s.kids| :: s.kids[i].node == s.node.children[i] && Unfolds(s.kids[i])
  }

  ghost predicate Forest(shapes: seq<Shape>, nodes: seq<TreeNode>) {
    |shapes| == |nodes| && forall i | 0 <= i < |shapes| :: shapes[i].node == nodes[i] && Unfolds(shapes[i])
  }

  ghost predicate Occurs(n: TreeNode, s: Shape) {
    s.node == n || exists i | 0 <= i < |s.kids| :: Occurs(n, s.kids[i])
  }

  ghost function Size(shapes: seq<Shape>): nat {
    if shapes == [] then 0
    else var last := shapes[|shapes| - 1]; 1 + Size(last.kids) + Size(shapes[..|shapes| - 1])
  }

  lemma {:induction false} SizeConcat(a: seq<Shape>, b: seq<Shape>)
    ensures Size(a + b) == Size(a) + Size(b)
    decreases |b|
  {
    if b == [] {
      assert a + b == a;
    } else {
      assert (a + b)[..|a + b| - 1] == a + b[..|b| - 1];
      SizeConcat(a, b[..|b| - 1]);
    }
  }

  /** The order in which the stack discipline reaches the nodes. */
  ghost function Visit(stack: seq<Shape>): seq<TreeNode>
    decreases Size(stack)
  {
    if stack == [] then []
    else
      var top, below := stack[|stack| - 1], stack[..|stack| - 1];
      SizeConcat(below, top.kids);
      [top.node] + Visit(below + top.kids)
  }

  ghost predicate Among(n: TreeNode, stack: seq<Shape>) {
    exists i | 0 <= i < |stack| :: Occurs(n, stack[i])
  }

  lemma AmongConcat(n: TreeNode, a: seq<Shape>, b: seq<Shape>)
    ensures Among(n, a + b) <==> Among(n, a) || Among(n, b)
  {
    if Among(n, a) {
      var i :| 0 <= i < |a| && Occurs(n, a[i]);
      assert Occurs(n, (a + b)[i]);
    }
    if Among(n, b) {
      var i :| 0 <= i < |b| && Occurs(n, b[i]);
      assert Occurs(n, (a + b)[|a| + i]);
    }
  }

  /** The walk reaches exactly the nodes of the trees it starts from. */
  lemma {:induction false} VisitIsComplete(stack: seq<Shape>, n: TreeNode)
    ensures n in Visit(stack) <==> Among(n, stack)
    decreases Size(stack)
  {
    if stack == [] {
    } else {
      var top, below := stack[|stack| - 1], stack[..|stack| - 1];
      SizeConcat(below, top.kids);
      VisitIsComplete(below + top.kids, n);
      AmongConcat(n, below, top.kids);
      assert stack == below + [top];
      AmongConcat(n, below, [top]);
      AmongOne(n, top);
    }
  }

  lemma AmongOne(n: TreeNode, s: Shape)
    ensures Among(n, [s]) <==> n == s.node || Among(n, s.kids)
  {
    assert Among(n, [s]) <==> Occurs(n, [s][0]);
  }

  // ----- one parent per node: every node is visited once -----

  ghost predicate Distinct(nodes: seq<TreeNode>) {
    forall i, j | 0 <= i < j < |nodes| :: nodes[i] != nodes[j]
  }

  /** `up` gives the parent of every node below the root, and no child is listed twice. */
  ghost predicate Parented(s: Shape, up: map<TreeNode, TreeNode>) {
    && Distinct(s.node.children)
    && forall i | 0 <= i < |s.kids| ::
         s.kids[i].node in up && up[s.kids[i].node] == s.node && Parented(s.kids[i], up)
  }

  /** A forest in which every node has one parent and the roots, all different, have none. */
  ghost predicate OneParent(forest: seq<Shape>, roots: seq<TreeNode>, up: map<TreeNode, TreeNode>) {
    && Forest(forest, roots) && Distinct(roots)
    && forall i | 0 <= i < |roots| :: roots[i] !in up && Parented(forest[i], up)
  }

  /** A node below the root has its parent in the same tree. */
  lemma {:induction false} ParentOccurs(n: TreeNode, s: Shape, up: map<TreeNode, TreeNode>)
    requires Parented(s, up) && Occurs(n, s) && n != s.node
    ensures n in up && Occurs(up[n], s)
  {
    var i :| 0 <= i < |s.kids| && Occurs(n, s.kids[i]);
    if n == s.kids[i].node {
    } else {
      ParentOccurs(n, s.kids[i], up);
    }
  }

  lemma {:induction false} SameShape(s: Shape, t: Shape)
    requires Unfolds(s) && Unfolds(t) && s.node == t.node
    ensures s == t
  {
    forall i | 0 <= i < |s.kids|
      ensures s.kids[i] == t.kids[i]
    {
      SameShape(s.kids[i], t.kids[i]);
    }
    assert s.kids == t.kids;
  }

  lemma {:induction false} SizeOfOne(shapes: seq<Shape>, i: nat)
    requires i < |shapes|
    ensures Size([shapes[i]]) <= Size(shapes)
    decreases |shapes|
  {
    var n := |shapes| - 1;
    assert [shapes[n]][..0] == [];
    if i == n {
    } else {
      SizeOfOne(shapes[..n], i);
    }
  }

  /** The tree that hangs below an occurrence is no larger than the whole. */
  lemma {:induction false} SubShape(n: TreeNode, s: Shape) returns (t: Shape)
    requires Unfolds(s) && Occurs(n, s)
    ensures Unfolds(t) && t.node == n && Size([t]) <= Size([s])
  {
    if n == s.node {
      t := s;
    } else {
      var i :| 0 <= i < |s.kids| && Occurs(n, s.kids[i]);
      t := SubShape(n, s.kids[i]);
      SizeOfOne(s.kids, i);
      assert [s][..0] == [];
    }
  }

  lemma NotBelowItself(s: Shape, i: nat)
    requires Unfolds(s) && i < |s.kids|
    ensures !Occurs(s.node, s.kids[i])
  {
    SizeOfOne(s.kids, i);
    assert [s][..0] == [];
    if Occurs(s.node, s.kids[i]) {
      var t := SubShape(s.node, s.kids[i]);
      SameShape(s, t);
    }
  }

  /** The trees on the stack are apart: the root of none occurs in another. */
  ghost predicate Apart(stack: seq<Shape>, up: map<TreeNode, TreeNode>) {
    && (forall i | 0 <= i < |stack| :: Unfolds(stack[i]) && Parented(stack[i], up))
    && forall i, j | 0 <= i < |stack| && 0 <= j < |stack| && i != j :: !Occurs(stack[i].node, stack[j])
  }

  lemma RootsAreApart(forest: seq<Shape>, roots: seq<TreeNode>, up: map<TreeNode, TreeNode>)
    requires OneParent(forest, roots, up)
    ensures Apart(forest, up)
  {
    forall i, j | 0 <= i < |forest| && 0 <= j < |forest| && i != j
      ensures !Occurs(forest[i].node, forest[j])
    {
      assert roots[i] != roots[j];
      if Occurs(forest[i].node, forest[j]) {
        ParentOccurs(forest[i].node, forest[j], up);
      }
    }
  }

  /** A child of the top occurs in no other tree, nor in the tree of another child. */
  lemma ChildIsApart(stack: seq<Shape>, up: map<TreeNode, TreeNode>, k: nat, other: Shape)
    requires stack != [] && Apart(stack, up) && k < |stack[|stack| - 1].kids|
    requires Parented(other, up) && other.node != stack[|stack| - 1].kids[k].node
    requires !Occurs(stack[|stack| - 1].node, other)
    ensures !Occurs(stack[|stack| - 1].kids[k].node, other)
  {
    var top := stack[|stack| - 1];
    if Occurs(top.kids[k].node, other) {
      ParentOccurs(top.kids[k].node, other, up);
    }
  }

  lemma NextIsApart(stack: seq<Shape>, up: map<TreeNode, TreeNode>)
    requires stack != [] && Apart(stack, up)
    ensures var n := |stack| - 1;
            Apart(stack[..n] + stack[n].kids, up)
  {
    var n := |stack| - 1;
    var top, below := stack[n], stack[..n];
    var next := below + top.kids;
    forall i, j | 0 <= i < |next| && 0 <= j < |next| && i != j
      ensures !Occurs(next[i].node, next[j])
    {
      if i < n && j < n {
        assert next[i] == stack[i] && next[j] == stack[j];
      } else if i < n {
        assert next[i] == stack[i] && next[j] == top.kids[j - n];
        assert !Occurs(stack[i].node, top);
      } else {
        assert next[i] == top.kids[i - n];
        if j < n {
          assert next[j] == stack[j] && !Occurs(stack[j].node, top) && !Occurs(top.node, stack[j]);
          assert Occurs(top.kids[i - n].node, top.kids[i - n]);
        } else {
          assert next[j] == top.kids[j - n];
          NotBelowItself(top, j - n);
          assert top.node.children[i - n] != top.node.children[j - n];
        }
        ChildIsApart(stack, up, i - n, next[j]);
      }
    }
  }

  /** Trees that are apart are walked without visiting a node twice. */
  lemma {:induction false} VisitsOnce(stack: seq<Shape>, up: map<TreeNode, TreeNode>)
    requires Apart(stack, up)
    ensures Distinct(Visit(stack))
    decreases Size(stack)
  {
    if stack == [] {
    } else {
      var n := |stack| - 1;
      var top, next := stack[n], stack[..n] + stack[n].kids;
      SizeConcat(stack[..n], top.kids);
      NextIsApart(stack, up);
      VisitsOnce(next, up);
      TopIsNew(stack, up);
      VisitIsComplete(next, top.node);
      assert Visit(stack) == [top.node] + Visit(next);
    }
  }

  lemma TopIsNew(stack: seq<Shape>, up: map<TreeNode, TreeNode>)
    requires stack != [] && Apart(stack, up)
    ensures var n := |stack| - 1;
            !Among(stack[n].node, stack[..n] + stack[n].kids)
  {
    var n := |stack| - 1;
    AmongConcat(stack[n].node, stack[..n], stack[n].kids);
    forall i | 0 <= i < n
      ensures !Occurs(stack[n].node, stack[..n][i])
    {
      assert stack[..n][i] == stack[i];
    }
    forall i | 0 <= i < |stack[n].kids|
      ensures !Occurs(stack[n].node, stack[n].kids[i])
    {
      NotBelowItself(stack[n], i);
    }
  }

  // ----- the specification: a fold over the visited labels -----

  datatype View = View(tag: Label, fp: Fingerprint, selected: bool)

  datatype WalkOutcome = WalkOutcome(tags: seq<Label>, ledger: Instance, promoted: nat)

  predicate Affected(v: View) {
    v.selected && Promotable(v.tag)
  }

  function VisitOne(v: View, ledger: Instance, file: File, budget: nat): PromoteOutcome {
    if Affected(v) then Promote(v.tag, v.fp, ledger, file, budget) else PromoteOutcome(v.tag, ledger)
  }

  function PromoteAll(views: seq<View>, ledger: Instance, file: File, budget: nat): WalkOutcome {
    if views == [] then WalkOutcome([], ledger, 0)
    else
      var o := VisitOne(views[0], ledger, file, budget);
      var rest := PromoteAll(views[1..], o.ledger, file, budget);
      WalkOutcome([o.tag] + rest.tags, rest.ledger, (if Affected(views[0]) then 1 else 0) + rest.promoted)
  }

  function AffectedCount(views: seq<View>): nat {
    if views == [] then 0 else (if Affected(views[0]) then 1 else 0) + AffectedCount(views[1..])
  }

  lemma {:induction false} PromoteAllShape(views: seq<View>, ledger: Instance, file: File, budget: nat)
    ensures var o := PromoteAll(views, ledger, file, budget);
            |o.tags| == |views| && o.promoted == AffectedCount(views)
  {
    if views == [] {
    } else {
      var next := VisitOne(views[0], ledger, file, budget).ledger;
      PromoteAllShape(views[1..], next, file, budget);
    }
  }

  /** The label a single node must end up with when the ledger can be read, or is down. */
  function Expected(v: View, ledger: Instance, file: File, budget: nat): Label {
    if !Affected(v) then v.tag
    else if !ledger.Operational() then Exhaust(v.tag)
    else
      var charged := Charge(if file.Corrupt? || !ledger.backed then ledger.store else Entries(file), v.fp);
      if charged >= budget then Exhaust(v.tag.(accessBudget := charged))
      else v.tag.(visibility := BudgetedShared, accessBudget := charged)
  }

  /**
   Pointwise meaning of the walk: unless the ledger turns unreadable under it, each
   promotable node is decided by its own durable charge, whatever the visiting order;
   a ledger that is down retires every one of them.
   */
  lemma {:induction false} WalkIsPointwise(views: seq<View>, ledger: Instance, file: File, budget: nat, i: nat)
    requires i < |views|
    requires ledger.Operational() && ledger.backed ==> !file.Corrupt?
    ensures |PromoteAll(views, ledger, file, budget).tags| == |views|
    ensures PromoteAll(views, ledger, file, budget).tags[i] == Expected(views[i], ledger, file, budget)
    decreases |views|
  {
    PromoteAllShape(views, ledger, file, budget);
    if i == 0 {
    } else {
      var next := VisitOne(views[0], ledger, file, budget).ledger;
      WalkIsPointwise(views[1..], next, file, budget, i - 1);
    }
  }

  /**
   When the file turns unreadable under an operational ledger, only the first
   promotable node is still decided from the object's memory; all later ones are retired.
   */
  lemma {:induction false} WalkFailsClosed(views: seq<View>, ledger: Instance, file: File, budget: nat, i: nat)
    requires i < |views| && ledger.Operational() && ledger.backed && file.Corrupt?
    ensures |PromoteAll(views, ledger, file, budget).tags| == |views|
    ensures PromoteAll(views, ledger, file, budget).tags[i] ==
      if Affected(views[i]) && AffectedCount(views[..i]) > 0 then Exhaust(views[i].tag)
      else Expected(views[i], ledger, file, budget)
    decreases |views|
  {
    PromoteAllShape(views, ledger, file, budget);
    if i == 0 {
    } else {
      assert views[..i][1..] == views[1..][..i - 1];
      if Affected(views[0]) {
        var down := ledger.(ready := false);
        WalkIsPointwise(views[1..], down, file, budget, i - 1);
      } else {
        WalkFailsClosed(views[1..], ledger, file, budget, i - 1);
      }
    }
  }

  // ----- the walk itself -----

  ghost function Views(nodes: seq<TreeNode>, filter: Filter): (views: seq<View>)
    reads nodes
    ensures |views| == |nodes|
    ensures forall i | 0 <= i < |nodes| :: views[i] == View(nodes[i].tag, nodes[i].key, Selects(filter, nodes[i]))
  {
    if nodes == [] then []
    else [View(nodes[0].tag, nodes[0].key, Selects(filter, nodes[0]))] + Views(nodes[1..], filter)
  }

  /** The body of the loop for one popped node. */
  method VisitNode(node: TreeNode, ledger: DurableLedger, budget: nat, filter: Filter) returns (promoted: bool)
    modifies node, ledger
    ensures var v := View(old(node.tag), node.key, Selects(filter, node));
            var o := VisitOne(v, old(ledger.State()), old(ledger.OnDisk()), budget);
            node.tag == o.tag && ledger.State() == o.ledger && (promoted <==> Affected(v))
    ensures ledger.OnDisk() == old(ledger.OnDisk())
  {
    promoted := node.tag.visibility == Private && !node.tag.permanent && Selects(filter, node);
    if promoted {
      if !(ledger.available && ledger.ready) {
        node.tag := Exhaust(node.tag);
      } else {
        var charged := ledger.ChargedHits(node.key);
        node.tag := node.tag.(accessBudget := charged);
        if charged >= budget {
          node.tag := Exhaust(node.tag);
        } else {
          node.tag := node.tag.(visibility := BudgetedShared);
        }
      }
    }
  }

  /** Popping the top and pushing its children follows the visiting order. */
  lemma PopPush(todo: seq<Shape>, stack: seq<TreeNode>)
    requires Forest(todo, stack) && stack != []
    ensures var n := |stack| - 1;
            var next := todo[..n] + todo[n].kids;
            && Forest(next, stack[..n] + stack[n].children)
            && Size(next) < Size(todo)
            && Visit(todo) == [stack[n]] + Visit(next)
  {
    var n := |stack| - 1;
    SizeConcat(todo[..n], todo[n].kids);
  }

  /** The labels reached so far follow the fold, the rest are still the old ones. */
  ghost predicate Progress(order: seq<TreeNode>, done: nat, old_: seq<View>, tags: seq<Label>)
    reads order
  {
    && done <= |order| == |old_| == |tags|
    && (forall i | 0 <= i < done :: order[i].tag == tags[i])
    && (forall i | done <= i < |order| :: order[i].tag == old_[i].tag)
  }

  lemma {:induction false} CountIsCardinal(order: seq<TreeNode>, views: seq<View>, affected: set<TreeNode>)
    requires |order| == |views| && Distinct(order) && (forall n | n in affected :: n in order)
    requires forall i | 0 <= i < |order| :: order[i] in affected <==> Affected(views[i])
    ensures AffectedCount(views) == |affected|
  {
    if order == [] {
      assert affected == {};
    } else {
      var first := if Affected(views[0]) then {order[0]} else {};
      var rest := affected - {order[0]};
      assert affected == first + rest && |affected| == |first| + |rest|;
      forall i | 0 <= i < |order[1..]|
        ensures order[1..][i] in rest <==> Affected(views[1..][i])
      {
        assert order[1..][i] == order[i + 1] && views[1..][i] == views[i + 1] && order[0] != order[i + 1];
      }
      CountIsCardinal(order[1..], views[1..], rest);
    }
  }

  /**
   The walk over a tree in which every node has one parent: it terminates, visits each node
   once (`VisitIsComplete` says which), and does to the labels, the ledger and the count
   exactly what the fold over the visiting order does.  Unless the ledger file turns
   unreadable under an operational ledger, every node ends with the label that its own old
   label and its own durable charge call for.
   */
  method PromoteWalk(
    roots: seq<TreeNode>, ghost forest: seq<Shape>, ghost up: map<TreeNode, TreeNode>, ledger: DurableLedger,
    budget: nat, filter: Filter)
    returns (promoted: nat)
    requires OneParent(forest, roots, up)
    modifies Visit(forest), ledger
    ensures Distinct(Visit(forest))
    ensures var order := Visit(forest);
            var o := PromoteAll(old(Views(order, filter)), old(ledger.State()), old(ledger.OnDisk()), budget);
            && (forall i | 0 <= i < |order| && i < |o.tags| :: order[i].tag == o.tags[i])
            && |o.tags| == |order| && ledger.State() == o.ledger && promoted == o.promoted
    ensures !(old(ledger.State()).Operational() && old(ledger.State()).backed && old(ledger.OnDisk()).Corrupt?) ==>
      var order, views := Visit(forest), old(Views(Visit(forest), filter));
      && |views| == |order|
      && forall i | 0 <= i < |order| && i < |views| ::
           order[i].tag == Expected(views[i], old(ledger.State()), old(ledger.OnDisk()), budget)
    // no node of another namespace, and no node that is shared or retired, is touched
    ensures var order, before, after := Visit(forest), old(Labels(Visit(forest))), Labels(Visit(forest));
            && before.Keys == after.Keys == (set n | n in order)
            && forall n | n in order ::
                 || (filter.Namespace? && n.namespace != Some(filter.fp))
                 || before[n].visibility != Private || before[n].permanent
                 ==> after[n] == before[n]
    // every private node of the namespace is decided by its own durable charge, or retired when the ledger is down
    ensures !(old(ledger.State()).Operational() && old(ledger.State()).backed && old(ledger.OnDisk()).Corrupt?) ==>
      var order, before, after := Visit(forest), old(Labels(Visit(forest))), Labels(Visit(forest));
      forall n | n in order && (filter.Every? || n.namespace == Some(filter.fp)) ::
        n in before && n in after &&
        (before[n].visibility == Private && !before[n].permanent ==>
          if !old(ledger.State()).Operational() then
            after[n] == before[n].(visibility := ExhaustedPrivate, permanent := true)
          else
            var charged := Charge(if old(ledger.State()).backed then Entries(old(ledger.OnDisk()))
                                  else old(ledger.State()).store, n.key);
            after[n] == if charged < budget then before[n].(visibility := BudgetedShared, accessBudget := charged)
                        else before[n].(visibility := ExhaustedPrivate, permanent := true, accessBudget := charged))
    // the count is the number of those nodes, shared or retired
    ensures var order, before := Visit(forest), old(Labels(Visit(forest)));
            before.Keys == (set n | n in order) &&
            promoted == |set n | n in order && (filter.Every? || n.namespace == Some(filter.fp))
                                 && before[n].visibility == Private && !before[n].permanent|
  {
    RootsAreApart(forest, roots, up);
    VisitsOnce(forest, up);
    ghost var plan := MakePlan(forest, ledger, budget, filter);
    StartOnTrack(forest, roots, ledger, budget, filter);
    promoted := Drain(plan, forest, roots, ledger, budget, filter);
    FinishOnTrack(plan, ledger, budget, promoted, filter);
    AllExpected(plan.views, old(ledger.State()), plan.file, budget);
    WalkMeans(plan.order, plan.views, filter, old(Labels(Visit(forest))), Labels(plan.order), old(ledger.State()),
      plan.file, budget);
  }

  /** The labels of the nodes. */
  ghost function Labels(nodes: seq<TreeNode>): map<TreeNode, Label>
    reads nodes
  {
    map n | n in nodes :: n.tag
  }

  /** The views are those of the nodes with these labels. */
  ghost predicate ViewsOf(
    order: seq<TreeNode>, views: seq<View>, filter: Filter, before: map<TreeNode, Label>) {
    && |order| == |views| && before.Keys == (set n | n in order)
    && forall i | 0 <= i < |order| :: views[i] == View(before[order[i]], order[i].key, Selects(filter, order[i]))
  }

  lemma WalkMeans(
    order: seq<TreeNode>, views: seq<View>, filter: Filter, before: map<TreeNode, Label>,
    after: map<TreeNode, Label>, ledger: Instance, file: File, budget: nat)
    requires Distinct(order) && ViewsOf(order, views, filter, before) && after.Keys == before.Keys
    requires var o := PromoteAll(views, ledger, file, budget);
             |o.tags| == |order| && forall i | 0 <= i < |order| :: after[order[i]] == o.tags[i]
    ensures forall n | n in order ::
              || (filter.Namespace? && n.namespace != Some(filter.fp))
              || before[n].visibility != Private || before[n].permanent
              ==> after[n] == before[n]
    ensures !(ledger.Operational() && ledger.backed && file.Corrupt?) ==>
      forall n | n in order && (filter.Every? || n.namespace == Some(filter.fp)) ::
        before[n].visibility == Private && !before[n].permanent ==>
          if !ledger.Operational() then after[n] == before[n].(visibility := ExhaustedPrivate, permanent := true)
          else
            var charged := Charge(if ledger.backed then Entries(file) else ledger.store, n.key);
            after[n] == if charged < budget then before[n].(visibility := BudgetedShared, accessBudget := charged)
                        else before[n].(visibility := ExhaustedPrivate, permanent := true, accessBudget := charged)
    ensures PromoteAll(views, ledger, file, budget).promoted ==
      |set n | n in order && (filter.Every? || n.namespace == Some(filter.fp))
               && before[n].visibility == Private && !before[n].permanent|
  {
    PromoteAllSpares(views, ledger, file, budget);
    AllExpected(views, ledger, file, budget);
    PromoteAllShape(views, ledger, file, budget);
    CountIsCardinal(order, views,
      set n | n in order && (filter.Every? || n.namespace == Some(filter.fp))
              && before[n].visibility == Private && !before[n].permanent);
  }

  /**
   The count includes the nodes that the walk retires.  It is the number of nodes that end
   shared if and only if the ledger is up and every promotable node of the namespace has
   budget left, as far as the ledger can tell; and, when the file turns unreadable under the
   walk, there is at most one such node.
   */
  lemma CountIsSharedIff(
    order: seq<TreeNode>, views: seq<View>, filter: Filter, before: map<TreeNode, Label>,
    after: map<TreeNode, Label>, ledger: Instance, file: File, budget: nat)
    requires Distinct(order) && ViewsOf(order, views, filter, before) && after.Keys == before.Keys
    requires var o := PromoteAll(views, ledger, file, budget);
             |o.tags| == |order| && forall i | 0 <= i < |order| :: after[order[i]] == o.tags[i]
    ensures var all := Chosen(order, filter, before);
            PromoteAll(views, ledger, file, budget).promoted == |SharedOf(all, after)| <==>
              && (forall n | n in all :: HasRoom(n, ledger, file, budget))
              && (ledger.Operational() && ledger.backed && file.Corrupt? ==> |all| <= 1)
  {
    var all := Chosen(order, filter, before);
    ChosenAreCounted(order, views, filter, before, after, ledger, file, budget);
    SubsetIsAll(SharedOf(all, after), all);
    if ledger.Operational() && ledger.backed && file.Corrupt? {
      if |all| <= 1 {
        OneEndsShared(order, views, filter, before, after, ledger, file, budget);
      } else {
        var n := SecondIsRetired(order, views, filter, before, after, ledger, file, budget);
        assert n in all && n !in SharedOf(all, after);
      }
    } else {
      EndsShared(order, views, filter, before, after, ledger, file, budget);
    }
  }

  lemma {:induction false} AffectedBefore(views: seq<View>, n: nat)
    requires n <= |views|
    ensures AffectedCount(views[..n]) > 0 <==> exists i | 0 <= i < n :: Affected(views[i])
  {
    if n == 0 {
    } else if Affected(views[0]) {
      assert views[..n][0] == views[0];
    } else {
      assert views[..n][1..] == views[1..][..n - 1] && views[..n][0] == views[0];
      AffectedBefore(views[1..], n - 1);
      assert forall i | 0 <= i < n - 1 :: views[1..][i] == views[i + 1];
      if i :| 0 <= i < n && Affected(views[i]) {
        assert views[1..][i - 1] == views[i];
      }
    }
  }

  /** Under an unreadable file a single promotable node is decided from memory. */
  lemma OneEndsShared(
    order: seq<TreeNode>, views: seq<View>, filter: Filter, before: map<TreeNode, Label>,
    after: map<TreeNode, Label>, ledger: Instance, file: File, budget: nat)
    requires Distinct(order) && ViewsOf(order, views, filter, before) && after.Keys == before.Keys
    requires var o := PromoteAll(views, ledger, file, budget);
             |o.tags| == |order| && forall i | 0 <= i < |order| :: after[order[i]] == o.tags[i]
    requires ledger.Operational() && ledger.backed && file.Corrupt? && |Chosen(order, filter, before)| <= 1
    ensures forall n | n in Chosen(order, filter, before) ::
              after[n].visibility == BudgetedShared <==> HasRoom(n, ledger, file, budget)
  {
    forall n | n in Chosen(order, filter, before)
      ensures after[n].visibility == BudgetedShared <==> HasRoom(n, ledger, file, budget)
    {
      var j :| 0 <= j < |order| && order[j] == n;
      NoneBefore(order, views, filter, before, j);
      WalkFailsClosed(views, ledger, file, budget, j);
    }
  }

  lemma NoneBefore(
    order: seq<TreeNode>, views: seq<View>, filter: Filter, before: map<TreeNode, Label>, j: nat)
    requires Distinct(order) && ViewsOf(order, views, filter, before)
    requires j < |order| && order[j] in Chosen(order, filter, before) && |Chosen(order, filter, before)| <= 1
    ensures AffectedCount(views[..j]) == 0 && Affected(views[j])
  {
    AffectedBefore(views, j);
    if i :| 0 <= i < j && Affected(views[i]) {
      SubsetSize({order[i], order[j]}, Chosen(order, filter, before));
    }
  }

  lemma SubsetSize<T>(some: set<T>, all: set<T>)
    requires some <= all
    ensures |some| <= |all|
  {
    assert all == some + (all - some);
  }

  /** Under an unreadable file the second of two promotable nodes is retired. */
  lemma SecondIsRetired(
    order: seq<TreeNode>, views: seq<View>, filter: Filter, before: map<TreeNode, Label>,
    after: map<TreeNode, Label>, ledger: Instance, file: File, budget: nat)
    returns (n: TreeNode)
    requires Distinct(order) && ViewsOf(order, views, filter, before) && after.Keys == before.Keys
    requires var o := PromoteAll(views, ledger, file, budget);
             |o.tags| == |order| && forall i | 0 <= i < |order| :: after[order[i]] == o.tags[i]
    requires ledger.Operational() && ledger.backed && file.Corrupt? && |Chosen(order, filter, before)| > 1
    ensures n in Chosen(order, filter, before) && after[n].visibility == ExhaustedPrivate
  {
    var all := Chosen(order, filter, before);
    var a :| a in all;
    SubsetSize(all - {a}, all);
    assert |all - {a}| == |all| - 1;
    var b :| b in all - {a};
    var i :| 0 <= i < |order| && order[i] == a;
    var j :| 0 <= j < |order| && order[j] == b;
    n := if i < j then b else a;
    RetiredAfter(views, ledger, file, budget, if i < j then i else j, if i < j then j else i);
  }

  lemma RetiredAfter(views: seq<View>, ledger: Instance, file: File, budget: nat, i: nat, j: nat)
    requires i < j < |views| && Affected(views[i]) && Affected(views[j])
    requires ledger.Operational() && ledger.backed && file.Corrupt?
    ensures var o := PromoteAll(views, ledger, file, budget);
            |o.tags| == |views| && o.tags[j] == Exhaust(views[j].tag)
  {
    AffectedBefore(views, j);
    WalkFailsClosed(views, ledger, file, budget, j);
  }

  /** The nodes that are shared afterwards. */
  ghost function SharedOf(nodes: set<TreeNode>, after: map<TreeNode, Label>): set<TreeNode>
    requires forall n | n in nodes :: n in after
  {
    set n | n in nodes && after[n].visibility == BudgetedShared
  }

  /** The ledger is up, and the charge it knows for the node is below the budget. */
  ghost predicate HasRoom(n: TreeNode, ledger: Instance, file: File, budget: nat) {
    && ledger.Operational()
    && Charge(if ledger.backed && !file.Corrupt? then Entries(file) else ledger.store, n.key) < budget
  }

  lemma ChosenAreCounted(
    order: seq<TreeNode>, views: seq<View>, filter: Filter, before: map<TreeNode, Label>,
    after: map<TreeNode, Label>, ledger: Instance, file: File, budget: nat)
    requires Distinct(order) && ViewsOf(order, views, filter, before) && after.Keys == before.Keys
    requires var o := PromoteAll(views, ledger, file, budget);
             |o.tags| == |order| && forall i | 0 <= i < |order| :: after[order[i]] == o.tags[i]
    ensures PromoteAll(views, ledger, file, budget).promoted == |Chosen(order, filter, before)|
  {
    WalkMeans(order, views, filter, before, after, ledger, file, budget);
  }

  /** The private nodes that the filter asks for. */
  ghost function Chosen(order: seq<TreeNode>, filter: Filter, before: map<TreeNode, Label>): set<TreeNode>
    requires forall n | n in order :: n in before
  {
    set n | n in order && (filter.Every? || n.namespace == Some(filter.fp))
            && before[n].visibility == Private && !before[n].permanent
  }

  lemma EndsShared(
    order: seq<TreeNode>, views: seq<View>, filter: Filter, before: map<TreeNode, Label>,
    after: map<TreeNode, Label>, ledger: Instance, file: File, budget: nat)
    requires Distinct(order) && ViewsOf(order, views, filter, before) && after.Keys == before.Keys
    requires var o := PromoteAll(views, ledger, file, budget);
             |o.tags| == |order| && forall i | 0 <= i < |order| :: after[order[i]] == o.tags[i]
    requires !(ledger.Operational() && ledger.backed && file.Corrupt?)
    ensures forall n | n in Chosen(order, filter, before) ::
              after[n].visibility == BudgetedShared <==> HasRoom(n, ledger, file, budget)
  {
    WalkMeans(order, views, filter, before, after, ledger, file, budget);
  }

  lemma SubsetIsAll(some: set<TreeNode>, all: set<TreeNode>)
    requires some <= all
    ensures |some| == |all| <==> forall n | n in all :: n in some
  {
    assert all == some + (all - some);
    assert (forall n | n in all :: n in some) <==> all - some == {};
  }

  /** A single private node under a ledger that is down: counted, and retired. */
  lemma RetiredIsCounted(tag: Label, fp: Fingerprint, file: File, budget: nat)
    requires Promotable(tag)
    ensures var o := PromoteAll([View(tag, fp, true)], Instance(true, map[], false, true), file, budget);
            o.promoted == 1 && |o.tags| == 1 && o.tags[0].visibility == ExhaustedPrivate
  {
    assert [View(tag, fp, true)][1..] == [];
  }

  /** Only affected nodes get another label, whatever the ledger does. */
  lemma {:induction false} PromoteAllSpares(views: seq<View>, ledger: Instance, file: File, budget: nat)
    ensures var o := PromoteAll(views, ledger, file, budget);
            |o.tags| == |views| && forall i | 0 <= i < |views| && !Affected(views[i]) :: o.tags[i] == views[i].tag
    decreases |views|
  {
    PromoteAllShape(views, ledger, file, budget);
    if views == [] {
    } else {
      PromoteAllSpares(views[1..], VisitOne(views[0], ledger, file, budget).ledger, file, budget);
    }
  }

  lemma AllExpected(views: seq<View>, ledger: Instance, file: File, budget: nat)
    ensures var o := PromoteAll(views, ledger, file, budget);
            && |o.tags| == |views|
            && (!(ledger.Operational() && ledger.backed && file.Corrupt?) ==>
                forall i | 0 <= i < |views| && i < |o.tags| :: o.tags[i] == Expected(views[i], ledger, file, budget))
  {
    PromoteAllShape(views, ledger, file, budget);
    if !(ledger.Operational() && ledger.backed && file.Corrupt?) {
      forall i | 0 <= i < |views|
        ensures |PromoteAll(views, ledger, file, budget).tags| == |views|
        ensures PromoteAll(views, ledger, file, budget).tags[i] == Expected(views[i], ledger, file, budget)
      {
        WalkIsPointwise(views, ledger, file, budget, i);
      }
    }
  }

  /** The loop: pop, relabel, push, until the stack is empty. */
  method Drain(
    ghost plan: Plan, ghost forest: seq<Shape>, roots: seq<TreeNode>, ledger: DurableLedger, budget: nat,
    filter: Filter)
    returns (promoted: nat)
    requires OnTrack(plan, forest, roots, 0, ledger, budget, 0, filter)
    modifies plan.order, ledger
    ensures OnTrack(plan, [], [], |plan.order|, ledger, budget, promoted, filter)
  {
    ghost var todo := forest;
    ghost var done: nat := 0;
    var stack := roots;
    promoted := 0;
    while stack != []
      invariant OnTrack(plan, todo, stack, done, ledger, budget, promoted, filter)
      decreases Size(todo)
    {
      PopPush(todo, stack);
      stack, promoted := Iterate(plan, todo, stack, done, ledger, budget, promoted, filter);
      todo := todo[..|todo| - 1] + todo[|todo| - 1].kids;
      done := done + 1;
    }
    assert |plan.order[done..]| == 0;
  }

  lemma FinishOnTrack(plan: Plan, ledger: DurableLedger, budget: nat, promoted: nat, filter: Filter)
    requires OnTrack(plan, [], [], |plan.order|, ledger, budget, promoted, filter)
    ensures |plan.outcome.tags| == |plan.order|
    ensures forall i | 0 <= i < |plan.order| :: plan.order[i].tag == plan.outcome.tags[i]
    ensures ledger.State() == plan.outcome.ledger && promoted == plan.outcome.promoted
  {
    assert plan.views[|plan.order|..] == [];
  }

  /** What the walk is going to do, fixed when it starts. */
  datatype Plan = Plan(order: seq<TreeNode>, views: seq<View>, file: File, outcome: WalkOutcome)

  ghost function MakePlan(forest: seq<Shape>, ledger: DurableLedger, budget: nat, filter: Filter): Plan
    reads Visit(forest), ledger, ledger.Frame()
  {
    var views := Views(Visit(forest), filter);
    Plan(Visit(forest), views, ledger.OnDisk(), PromoteAll(views, ledger.State(), ledger.OnDisk(), budget))
  }

  lemma StartOnTrack(forest: seq<Shape>, roots: seq<TreeNode>, ledger: DurableLedger, budget: nat, filter: Filter)
    requires Forest(forest, roots) && Distinct(Visit(forest))
    ensures OnTrack(MakePlan(forest, ledger, budget, filter), forest, roots, 0, ledger, budget, 0, filter)
  {
    var plan := MakePlan(forest, ledger, budget, filter);
    PromoteAllShape(plan.views, ledger.State(), plan.file, budget);
    assert plan.order[0..] == plan.order && plan.views[0..] == plan.views &&
      plan.outcome.tags[0..] == plan.outcome.tags;
  }

  ghost predicate OnTrack(
    plan: Plan, todo: seq<Shape>, stack: seq<TreeNode>, done: nat, ledger: DurableLedger, budget: nat,
    promoted: nat, filter: Filter)
    reads plan.order, ledger, ledger.Frame()
  {
    && Forest(todo, stack) && Distinct(plan.order)
    && Progress(plan.order, done, plan.views, plan.outcome.tags)
    && (forall i | 0 <= i < |plan.order| ::
          plan.views[i] == View(plan.views[i].tag, plan.order[i].key, Selects(filter, plan.order[i])))
    && Visit(todo) == plan.order[done..]
    && ledger.OnDisk() == plan.file
    && Remaining(plan.views, done, ledger.State(), plan.file, budget, promoted, plan.outcome)
  }

  /** One turn of the loop: pop, relabel, push. */
  method Iterate(ghost plan: Plan, ghost todo: seq<Shape>, stack: seq<TreeNode>, ghost done: nat,
                 ledger: DurableLedger, budget: nat, promoted: nat, filter: Filter)
    returns (stack': seq<TreeNode>, promoted': nat)
    requires stack != [] && OnTrack(plan, todo, stack, done, ledger, budget, promoted, filter)
    modifies plan.order, ledger
    ensures OnTrack(plan, todo[..|todo| - 1] + todo[|todo| - 1].kids, stack', done + 1, ledger, budget, promoted',
      filter)
  {
    var node := stack[|stack| - 1];
    PopPush(todo, stack);
    FollowOrder(plan.order, done, node, Visit(todo[..|todo| - 1] + todo[|todo| - 1].kids));
    WalkStep(plan.views, done, ledger.State(), plan.file, budget, promoted, plan.outcome);
    var hit := VisitNode(node, ledger, budget, filter);
    promoted' := if hit then promoted + 1 else promoted;
    stack' := stack[..|stack| - 1] + node.children;
  }

  /** Folding over the nodes still to come, from the present ledger, completes `spec`. */
  ghost predicate Remaining(
    views: seq<View>, done: nat, ledger: Instance, file: File, budget: nat, promoted: nat, spec: WalkOutcome)
    requires done <= |views| == |spec.tags|
  {
    var rest := PromoteAll(views[done..], ledger, file, budget);
    rest.tags == spec.tags[done..] && rest.ledger == spec.ledger && promoted + rest.promoted == spec.promoted
  }

  lemma FollowOrder(order: seq<TreeNode>, done: nat, node: TreeNode, rest: seq<TreeNode>)
    requires done <= |order| && order[done..] == [node] + rest
    ensures done < |order| && order[done] == node && order[done + 1..] == rest
  {
    assert order[done..][0] == order[done];
    assert order[done..][1..] == order[done + 1..];
  }

  /** The fold from one visited node to the next. */
  lemma WalkStep(
    views: seq<View>, done: nat, ledger: Instance, file: File, budget: nat, promoted: nat, spec: WalkOutcome)
    requires done < |views| == |spec.tags| && Remaining(views, done, ledger, file, budget, promoted, spec)
    ensures var o := VisitOne(views[done], ledger, file, budget);
            && spec.tags[done] == o.tag
            && Remaining(views, done + 1, o.ledger, file, budget, promoted + (if Affected(views[done]) then 1 else 0),
              spec)
  {
    assert views[done..][0] == views[done] && views[done..][1..] == views[done + 1..];
    assert spec.tags[done..][0] == spec.tags[done] && spec.tags[done..][1..] == spec.tags[done + 1..];
  }
}
