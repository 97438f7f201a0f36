/**
 Eviction of one leaf of a radix tree, addressed by the token path it ends.  The cache
 evicts leaf after leaf, in the order of their last access across all trees; any choice of
 leaves is covered here.
 */
module LeafEviction {
  import opened Options
  import opened CachePolicy
  import opened RadixTree

  /** `path` leads through whole nodes to a leaf that holds its tokens from `above` on. */
  predicate LeafAt(kids: Children, path: seq<Token>, above: nat)
    decreases |path|
  {
    && path != [] && Head(path) in kids
    && var c := kids[Head(path)];
       0 < |c.key| <= |path| && c.key == path[..|c.key|] &&
       if |c.key| == |path| then above == 0 && c.children == map[]
       else |c.key| <= above && LeafAt(c.children, path[|c.key|..], above - |c.key|)
  }

  /** `_delete_leaf` */
  function Prune(kids: Children, path: seq<Token>, above: nat): Children
    requires LeafAt(kids, path, above)
    decreases |path|
  {
    var c := kids[Head(path)];
    if |c.key| == |path| then kids - {Head(path)}
    else kids[Head(path) := c.(children := Prune(c.children, path[|c.key|..], above - |c.key|))]
  }

  lemma {:induction false} PruneOk(kids: Children, path: seq<Token>, above: nat, creator: Creator)
    requires WellFormed(kids) && LeafAt(kids, path, above)
    ensures WellFormed(Prune(kids, path, above))
    ensures OwnedBy(kids, creator) ==> OwnedBy(Prune(kids, path, above), creator)
    decreases |path|
  {
    var c := kids[Head(path)];
    if |c.key| == |path| {
    } else {
      PruneOk(c.children, path[|c.key|..], above - |c.key|, creator);
    }
  }

  /** The paths that end inside the leaf, and no others, are no longer cached. */
  lemma {:induction false} PruneMeaning(kids: Children, path: seq<Token>, above: nat, p: seq<Token>)
    requires WellFormed(kids) && LeafAt(kids, path, above)
    ensures WellFormed(Prune(kids, path, above))
    ensures Lookup(Prune(kids, path, above), p) == if above < |p| && p <= path then None else Lookup(kids, p)
    decreases |path|
  {
    PruneOk(kids, path, above, Nobody);
    var c := kids[Head(path)];
    assert kids[Head(c.key) := c] == kids;
    LookupThrough(kids, c, p);
    if |c.key| == |path| {
      LeafRemoved(kids, c, p);
    } else {
      var rest := path[|c.key|..];
      var d := c.(children := Prune(c.children, rest, above - |c.key|));
      assert Prune(kids, path, above) == kids[Head(d.key) := d];
      PruneOk(c.children, rest, above - |c.key|, Nobody);
      LookupThrough(kids, d, p);
      PrefixSplit(p, path, |c.key|);
      if |p| > |c.key| && p[..|c.key|] == c.key {
        PruneMeaning(c.children, rest, above - |c.key|, p[|c.key|..]);
      }
    }
  }

  lemma LeafRemoved(kids: Children, c: Node, p: seq<Token>)
    requires WellFormed(kids) && WellFormedNode(c) && c.children == map[]
    requires Head(c.key) in kids && kids[Head(c.key)] == c
    ensures WellFormed(kids - {Head(c.key)})
    ensures Lookup(kids - {Head(c.key)}, p) == if 0 < |p| && p <= c.key then None else Lookup(kids, p)
  {
    if p != [] && Head(p) in kids && Head(p) != Head(c.key) {
      assert !(p <= c.key);
    } else if p != [] && Head(p) == Head(c.key) {
      assert |p| > |c.key| ==> Lookup(map[], p[|c.key|..]) == None;
      assert p <= c.key <==> |p| <= |c.key| && p == c.key[..|p|];
    }
  }
}
