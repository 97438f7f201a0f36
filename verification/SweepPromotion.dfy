/**
 The promotion walk over the heap and the promoted trees of the eviction sweep: what the walk
 does to the nodes of a tree is what the sweep's model says of the tree as a value.
 */
module SweepPromotion {
  import opened Ledger
  import opened CachePolicy
  import opened RadixTree
  import opened PromotionWalk
  import EvictionSweep

  /** The heap nodes of `s` form the tree `n`, with the labels given. */
  ghost predicate Mirrors(s: Shape, n: RadixTree.Node, labels: map<TreeNode, Label>) {
    && s.node.key == n.key && s.node in labels && labels[s.node] == n.tag
    && (forall i | 0 <= i < |s.kids| ::
          && s.kids[i].node.key != [] && Head(s.kids[i].node.key) in n.children
          && Mirrors(s.kids[i], n.children[Head(s.kids[i].node.key)], labels))
    && (forall t | t in n.children :: Under(s.kids, t))
  }

  /** Some tree of the list starts with this token. */
  ghost predicate Under(forest: seq<Shape>, t: Token) {
    exists i | 0 <= i < |forest| :: forest[i].node.key != [] && Head(forest[i].node.key) == t
  }

  ghost predicate MirrorsAll(forest: seq<Shape>, kids: Children, labels: map<TreeNode, Label>) {
    && (forall i | 0 <= i < |forest| ::
          && forest[i].node.key != [] && Head(forest[i].node.key) in kids
          && Mirrors(forest[i], kids[Head(forest[i].node.key)], labels))
    && (forall t | t in kids :: Under(forest, t))
  }

  /** The label of a node after the walk. */
  ghost predicate Relabelled(
    n: TreeNode, before: map<TreeNode, Label>, after: map<TreeNode, Label>, ledger: Instance, file: File, budget: nat) {
    n in before && n in after && after[n] == Expected(View(before[n], n.key, true), ledger, file, budget)
  }

  lemma {:induction false} PromotedMirrors(
    s: Shape, n: RadixTree.Node, before: map<TreeNode, Label>, after: map<TreeNode, Label>,
    ledger: Instance, file: File, budget: nat)
    requires Mirrors(s, n, before)
    requires forall m: TreeNode | Occurs(m, s) :: Relabelled(m, before, after, ledger, file, budget)
    ensures Mirrors(s, EvictionSweep.PromotedNode(n, ledger, file, budget), after)
  {
    assert Occurs(s.node, s);
    forall i | 0 <= i < |s.kids|
      ensures Mirrors(s.kids[i],
                EvictionSweep.PromotedNode(n.children[Head(s.kids[i].node.key)], ledger, file, budget), after)
    {
      assert forall m: TreeNode | Occurs(m, s.kids[i]) :: Occurs(m, s);
      PromotedMirrors(s.kids[i], n.children[Head(s.kids[i].node.key)], before, after, ledger, file, budget);
    }
  }

  /** The walk over a tree held on the heap leaves the promoted tree there. */
  method PromoteTree(
    roots: seq<TreeNode>, ghost forest: seq<Shape>, ghost up: map<TreeNode, TreeNode>, ghost kids: Children,
    ledger: DurableLedger, budget: nat)
    returns (promoted: nat)
    requires OneParent(forest, roots, up) && MirrorsAll(forest, kids, Labels(Visit(forest)))
    requires !(ledger.State().Operational() && ledger.State().backed && ledger.OnDisk().Corrupt?)
    modifies Visit(forest), ledger
    ensures MirrorsAll(forest, EvictionSweep.PromotedTree(kids, old(ledger.State()), old(ledger.OnDisk()), budget),
                       Labels(Visit(forest)))
  {
    ghost var order, state, file := Visit(forest), ledger.State(), ledger.OnDisk();
    ghost var before := Labels(order);
    promoted := PromoteWalk(roots, forest, up, ledger, budget, Every);
    forall m: TreeNode | m in order
      ensures Relabelled(m, before, Labels(order), state, file, budget)
    {
      var i :| 0 <= i < |order| && order[i] == m;
    }
    ForestMirrors(forest, kids, before, Labels(order), state, file, budget);
  }

  lemma ForestMirrors(
    forest: seq<Shape>, kids: Children, before: map<TreeNode, Label>, after: map<TreeNode, Label>,
    ledger: Instance, file: File, budget: nat)
    requires MirrorsAll(forest, kids, before)
    requires forall m: TreeNode | m in Visit(forest) :: Relabelled(m, before, after, ledger, file, budget)
    ensures MirrorsAll(forest, EvictionSweep.PromotedTree(kids, ledger, file, budget), after)
  {
    forall i | 0 <= i < |forest|
      ensures Mirrors(forest[i],
                EvictionSweep.PromotedNode(kids[Head(forest[i].node.key)], ledger, file, budget), after)
    {
      forall m: TreeNode | Occurs(m, forest[i])
        ensures Relabelled(m, before, after, ledger, file, budget)
      {
        VisitIsComplete(forest, m);
        assert Among(m, forest);
      }
      PromotedMirrors(forest[i], kids[Head(forest[i].node.key)], before, after, ledger, file, budget);
    }
  }
}
