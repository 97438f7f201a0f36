/**
 Trees that differ only in labels and counters.  What an owner does to its own tree does
 not depend on them, so such trees stay alike.
 */
module TreeShape {
  import opened Ledger
  import opened CachePolicy
  import opened RadixTree
  import opened RadixLookup
  import opened LeafEviction

  /** The same node with other labels and counters, here and below. */
  predicate SameNode(a: Node, b: Node) {
    && a.key == b.key && a.value == b.value && a.tag.creator == b.tag.creator
    && a.children.Keys == b.children.Keys
    && forall t | t in a.children :: SameNode(a.children[t], b.children[t])
  }

  predicate SameTree(a: Children, b: Children) {
    a.Keys == b.Keys && forall t | t in a :: SameNode(a[t], b[t])
  }

  lemma {:induction false} SameNodeTrans(a: Node, b: Node, c: Node)
    requires SameNode(a, b) && SameNode(b, c)
    ensures SameNode(a, c)
  {
    forall t | t in a.children
      ensures SameNode(a.children[t], c.children[t])
    {
      SameNodeTrans(a.children[t], b.children[t], c.children[t]);
    }
  }

  lemma SameTreeTrans(a: Children, b: Children, c: Children)
    requires SameTree(a, b) && SameTree(b, c)
    ensures SameTree(a, c)
  {
    forall t | t in a
      ensures SameNode(a[t], c[t])
    {
      SameNodeTrans(a[t], b[t], c[t]);
    }
  }

  lemma {:induction false} SameNodeSym(a: Node, b: Node)
    requires SameNode(a, b)
    ensures SameNode(b, a)
  {
    forall t | t in b.children
      ensures SameNode(b.children[t], a.children[t])
    {
      SameNodeSym(a.children[t], b.children[t]);
    }
  }

  lemma SameTreeSym(a: Children, b: Children)
    requires SameTree(a, b)
    ensures SameTree(b, a)
  {
    forall t | t in b
      ensures SameNode(b[t], a[t])
    {
      SameNodeSym(a[t], b[t]);
    }
  }

  lemma {:induction false} SameNodeRefl(a: Node)
    ensures SameNode(a, a)
  {
    forall t | t in a.children
      ensures SameNode(a.children[t], a.children[t])
    {
      SameNodeRefl(a.children[t]);
    }
  }

  lemma SameTreeRefl(a: Children)
    ensures SameTree(a, a)
  {
    forall t | t in a
      ensures SameNode(a[t], a[t])
    {
      SameNodeRefl(a[t]);
    }
  }

  lemma {:induction false} SameNodeOk(a: Node, b: Node, creator: Creator)
    requires SameNode(a, b)
    ensures WellFormedNode(a) ==> WellFormedNode(b)
    ensures OwnedNode(a, creator) ==> OwnedNode(b, creator)
  {
    forall t | t in a.children
      ensures WellFormedNode(a.children[t]) ==> WellFormedNode(b.children[t])
      ensures OwnedNode(a.children[t], creator) ==> OwnedNode(b.children[t], creator)
    {
      SameNodeOk(a.children[t], b.children[t], creator);
    }
  }

  lemma SameTreeOk(a: Children, b: Children, creator: Creator)
    requires SameTree(a, b) && WellFormed(a) && OwnedBy(a, creator)
    ensures WellFormed(b) && OwnedBy(b, creator)
  {
    forall t | t in a
      ensures WellFormedNode(b[t]) && OwnedNode(b[t], creator)
    {
      SameNodeOk(a[t], b[t], creator);
    }
  }

  lemma {:induction false} SameNodeLookup(a: Children, b: Children, path: seq<Token>)
    requires SameTree(a, b) && WellFormed(a) && WellFormed(b)
    ensures Lookup(a, path) == Lookup(b, path)
    decreases |path|
  {
    if path == [] || Head(path) !in a {
    } else {
      var c := a[Head(path)];
      assert SameNode(c, b[Head(path)]);
      if |path| > |c.key| {
        SameNodeLookup(c.children, b[Head(path)].children, path[|c.key|..]);
      }
    }
  }

  // ----- what the owner does -----

  lemma SameUpdate(a: Children, b: Children, t: Token, x: Node, y: Node)
    requires SameTree(a, b) && SameNode(x, y)
    ensures SameTree(a[t := x], b[t := y])
  {
  }

  lemma AlignedSame(a: Node, b: Node, key: seq<Token>)
    requires SameNode(a, b) && WellFormedNode(a) && WellFormedNode(b) && key != [] && Head(key) == Head(a.key)
    ensures SameNode(Aligned(a, key), Aligned(b, key))
  {
    var m := Common(a.key, key);
    if m < |a.key| {
      var x, y := a.(key := a.key[m..], value := a.value[m..]), b.(key := b.key[m..], value := b.value[m..]);
      assert SameNode(x, y);
      assert Aligned(a, key).children == map[a.key[m] := x] && Aligned(b, key).children == map[b.key[m] := y];
    }
  }

  /** The owner's lookup reads and splits its tree the same way whatever the labels. */
  lemma {:induction false} FindSame(
    a: Children, b: Children, key: seq<Token>, req: Request, req': Request,
    ledger: Instance, ledger': Instance, file: File, file': File, depth: nat)
    requires SameTree(a, b) && WellFormed(a) && WellFormed(b) && req.user == req'.user
    requires OwnedBy(a, By(req.user)) && OwnedBy(b, By(req.user))
    ensures SameTree(Find(a, key, req, ledger, file, depth).kids, Find(b, key, req', ledger', file', depth).kids)
    decreases |key|
  {
    if key == [] || Head(key) !in a {
    } else {
      var x, y := a[Head(key)], b[Head(key)];
      assert SameNode(x, y) && OwnedNode(x, By(req.user)) && OwnedNode(y, By(req.user));
      OwnFound(a, key, req, ledger, file, depth);
      OwnFound(b, key, req', ledger', file', depth);
      var m := Common(x.key, key);
      if m == |x.key| {
        FindSame(x.children, y.children, key[m..], req, req', ledger, ledger', file, file', depth + 1);
      }
      OwnNodeSame(x, y, key, req, req', ledger, ledger', file, file', depth);
      SameUpdate(a, b, Head(key), OwnNode(x, key, req, ledger, file, depth),
        OwnNode(y, key, req', ledger', file', depth));
    }
  }

  /** The node an owner's lookup leaves in place of `c`. */
  function OwnNode(c: Node, key: seq<Token>, req: Request, ledger: Instance, file: File, depth: nat): Node
    requires WellFormedNode(c) && key != [] && Head(key) == Head(c.key)
  {
    var m, hit := Common(c.key, key), c.(hits := c.hits + 1);
    if m < |c.key| then Aligned(hit, key)
    else hit.(children := Find(c.children, key[m..], req, ledger, file, depth + 1).kids)
  }

  lemma OwnFound(kids: Children, key: seq<Token>, req: Request, ledger: Instance, file: File, depth: nat)
    requires WellFormed(kids) && key != [] && Head(key) in kids && kids[Head(key)].tag.creator == By(req.user)
    ensures Find(kids, key, req, ledger, file, depth).kids ==
      kids[Head(key) := OwnNode(kids[Head(key)], key, req, ledger, file, depth)]
  {
  }

  lemma OwnNodeSame(
    x: Node, y: Node, key: seq<Token>, req: Request, req': Request,
    ledger: Instance, ledger': Instance, file: File, file': File, depth: nat)
    requires WellFormedNode(x) && WellFormedNode(y) && SameNode(x, y) && key != [] && Head(key) == Head(x.key)
    requires var m := Common(x.key, key);
             m == |x.key| ==>
               SameTree(Find(x.children, key[m..], req, ledger, file, depth + 1).kids,
                        Find(y.children, key[m..], req', ledger', file', depth + 1).kids)
    ensures SameNode(OwnNode(x, key, req, ledger, file, depth), OwnNode(y, key, req', ledger', file', depth))
  {
    var x', y' := x.(hits := x.hits + 1), y.(hits := y.hits + 1);
    assert SameNode(x', y');
    if Common(x.key, key) < |x.key| {
      AlignedSame(x', y', key);
    }
  }

  lemma {:induction false} ChainSame(key: seq<Token>, value: seq<Slot>, tag: Label, tag': Label)
    requires 0 < |key| == |value| && tag.creator == tag'.creator
    ensures SameNode(Chain(key, value, tag), Chain(key, value, tag'))
    decreases |key|
  {
    if |key| <= CHUNK {
    } else {
      ChainSame(key[CHUNK..], value[CHUNK..], tag, tag');
    }
  }

  lemma {:induction false} InsertSame(
    a: Children, b: Children, key: seq<Token>, value: seq<Slot>, tag: Label, tag': Label)
    requires SameTree(a, b) && WellFormed(a) && WellFormed(b) && |key| == |value| && tag.creator == tag'.creator
    ensures SameTree(Insert(a, key, value, tag).kids, Insert(b, key, value, tag').kids)
    decreases |key|
  {
    if key == [] {
    } else if Head(key) !in a {
      ChainSame(key, value, tag, tag');
      SameUpdate(a, b, Head(key), Chain(key, value, tag), Chain(key, value, tag'));
    } else {
      assert SameNode(a[Head(key)], b[Head(key)]);
      AlignedSame(a[Head(key)], b[Head(key)], key);
      AlignedOk(a[Head(key)], key, Nobody);
      AlignedOk(b[Head(key)], key, Nobody);
      var x, y := Aligned(a[Head(key)], key), Aligned(b[Head(key)], key);
      InsertSame(x.children, y.children, key[|x.key|..], value[|x.key|..], tag, tag');
      var p := Insert(x.children, key[|x.key|..], value[|x.key|..], tag).kids;
      var q := Insert(y.children, key[|x.key|..], value[|x.key|..], tag').kids;
      SameUpdate(a, b, Head(key), x.(children := p), y.(children := q));
    }
  }

  lemma {:induction false} PruneSame(a: Children, b: Children, path: seq<Token>, above: nat)
    requires SameTree(a, b) && LeafAt(a, path, above)
    ensures LeafAt(b, path, above) && SameTree(Prune(a, path, above), Prune(b, path, above))
    decreases |path|
  {
    var x, y := a[Head(path)], b[Head(path)];
    assert SameNode(x, y);
    if |x.key| == |path| {
      assert y.children == map[];
    } else {
      PruneSame(x.children, y.children, path[|x.key|..], above - |x.key|);
    }
  }
}
