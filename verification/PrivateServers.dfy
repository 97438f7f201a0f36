/**
 A Balanced server that shares nothing of its own accord: every tenant's entries stay its
 own until a label change opens them.
 */
module PrivateServers {
  import opened Options
  import opened Ledger
  import opened CachePolicy
  import opened RadixTree
  import opened RadixLookup
  import opened LeafEviction
  import opened TreeShape
  import opened SharedTrees
  import opened TenantCache
  import opened ResidualCache

  // ----- a server that keeps everything private -----

  predicate PrivateTop(kids: Children) {
    forall h | h in kids :: kids[h].tag.visibility == Private
  }

  /** Balanced mode without sharing, nothing charged, every cached first node private. */
  ghost predicate Quiet(c: Cache) {
    && Valid(c) && c.mode.Balanced? && !c.autoshare
    && c.ledger == Opened(true, Missing) && c.file == Missing
    && forall u | u in c.roots :: u in c.order && PrivateTop(c.roots[u])
  }

  /** `key` is cached for `u`. */
  predicate Holds(c: Cache, u: User, key: seq<Token>)
    requires Valid(c)
  {
    Lookup(Tree(c, u), key).Some?
  }

  /** A tenant's lookup in its own private tree. */
  lemma OwnLook(c: Cache, user: User, key: seq<Token>, saves: Oracle)
    requires Quiet(c) && user in c.roots && key != []
    ensures var out := LookIn(c, user, user, key, saves);
            && Valid(out.cache) && user in out.cache.roots && PrivateTop(out.cache.roots[user])
            && out.cache == c.(roots := c.roots[user := out.cache.roots[user]])
            && (forall p :: Lookup(out.cache.roots[user], p) == Lookup(c.roots[user], p))
            && (Head(key) in c.roots[user] ==> out.slots != [])
  {
    var tree, req := c.roots[user], RequestFor(c, user, user, saves);
    LookInValid(c, user, user, key, saves);
    OwnerIsNotCharged(tree, key, req, c.ledger, c.file, 0);
    forall p
      ensures Lookup(LookIn(c, user, user, key, saves).cache.roots[user], p) == Lookup(tree, p)
    {
      FindKeepsMeaning(tree, key, req, c.ledger, c.file, 0, p);
    }
    if Head(key) in tree {
      assert OwnedNode(tree[Head(key)], By(user));
      OwnStep(tree, key, req, c.ledger, c.file, 0);
      OwnFound(tree, key, req, c.ledger, c.file, 0);
    }
  }

  /** Any tenant's lookup touches at most its own tree, and that stays private. */
  lemma QuietLook(c: Cache, user: User, key: seq<Token>, saves: Oracle)
    requires Quiet(c) && user != "" && key != []
    ensures var c' := Look(c, user, key, saves).cache;
            && Quiet(c') && c'.budget == c.budget && c'.order == c.order && c'.roots.Keys == c.roots.Keys
            && (forall v | v in c.roots && v != user :: c'.roots[v] == c.roots[v])
            && (forall p :: Lookup(Tree(c', user), p) == Lookup(Tree(c, user), p))
            && (Tree(c, user) == map[] ==> Tree(c', user) == map[])
  {
    forall v | v in c.roots && v != user
      ensures Head(key) !in c.roots[v] || !VisibleTo(c.roots[v][Head(key)].tag, c.mode, user)
    {
      assert forall h | h in c.roots[v] :: OwnedNode(c.roots[v][h], By(v));
    }
    if user in c.roots {
      OwnLook(c, user, key, saves);
      if LookIn(c, user, user, key, saves).slots == [] {
        UnseenTree(c, user, user, key, saves);
        UnseenAmong(c, user, c.order, key, saves);
      }
    } else {
      UnseenAmong(c, user, c.order, key, saves);
    }
  }

  lemma InsertedTop(kids: Children, key: seq<Token>, value: seq<Slot>, tag: Label)
    requires WellFormed(kids) && |key| == |value| && PrivateTop(kids) && tag.visibility == Private
    ensures PrivateTop(Insert(kids, key, value, tag).kids)
  {
    if key != [] && Head(key) in kids {
      AlignedOk(kids[Head(key)], key, Nobody);
    }
  }

  /** A request caches its key, and what was cached stays cached. */
  lemma QuietServe(c: Cache, user: User, key: seq<Token>, value: seq<Slot>, saves: Oracle)
    requires Quiet(c) && user != "" && 0 < |key| == |value|
    ensures var c' := Serve(c, user, key, value, saves);
            && Quiet(c') && c'.budget == c.budget && (forall v | v != user :: Tree(c', v) == Tree(c, v))
            && (forall p | Lookup(Tree(c, user), p).Some? :: Lookup(Tree(c', user), p).Some?)
            && (forall p | 0 < |p| && p <= key :: Lookup(Tree(c', user), p).Some?)
            && (Tree(c, user) == map[] && |key| <= CHUNK ==>
                Tree(c', user) == map[Head(key) := Node(key, value, Label(By(user), Private, 0, false), 0, map[])])
  {
    QuietLook(c, user, key, saves);
    ServeValid(c, user, key, value, saves);
    var seen, c', tag := Look(c, user, key, saves).cache, Serve(c, user, key, value, saves),
      Label(By(user), Private, 0, false);
    InsertedTop(Tree(seen, user), key, value, tag);
    forall p
      ensures Lookup(Tree(seen, user), p).Some? ==> Lookup(Tree(c', user), p).Some?
      ensures 0 < |p| && p <= key ==> Lookup(Tree(c', user), p).Some?
    {
      InsertMeaning(Tree(seen, user), key, value, tag, p);
    }
  }

  /** Removing the one leaf that a request left. */
  lemma QuietEvict(c: Cache, user: User, n: Node)
    requires Quiet(c) && n.children == map[] && |n.key| > 0 && Tree(c, user) == map[Head(n.key) := n]
    ensures Enabled(c, EvictLeaf(user, n.key, 0))
    ensures var c' := Step(c, EvictLeaf(user, n.key, 0));
            && Quiet(c') && c'.budget == c.budget && Tree(c', user) == map[]
            && forall v | v != user :: Tree(c', v) == Tree(c, v)
  {
    assert Head(n.key) in Tree(c, user) && n.key == n.key[..|n.key|];
    assert LeafAt(c.roots[user], n.key, 0);
    StepValid(c, EvictLeaf(user, n.key, 0));
  }

  // ----- the moment of the false match -----

  /** A label change opens the tree of `owner`; a tenant without entries of its own is then served from it. */
  lemma OpenedAnswers(c: Cache, owner: User, user: User, key: seq<Token>, saves: Oracle)
    requires Quiet(c) && owner != user && user != "" && Tree(c, user) == map[] && 0 < |key| < c.budget
    requires Holds(c, owner, key) && forall u, d :: saves(u, d)
    ensures var op := Relabel(owner, ShareAll(Tree(c, owner)));
            Enabled(c, op) && Valid(Step(c, op)) && Full(Step(c, op), user, key, saves)
  {
    var shared, op := ShareAll(Tree(c, owner)), Relabel(owner, ShareAll(Tree(c, owner)));
    ShareAllOk(c.roots[owner], owner);
    StepValid(c, op);
    SameNodeLookup(c.roots[owner], shared, key);
    var c' := Step(c, op);
    forall v | v in c'.roots && v != owner
      ensures Head(key) !in c'.roots[v] || !VisibleTo(c'.roots[v][Head(key)].tag, c'.mode, user)
    {
      assert forall h | h in c.roots[v] :: OwnedNode(c.roots[v][h], By(v));
    }
    OneOpenTree(c', owner, user, key, saves);
  }

  /** Only one tree is visible, and it is shared. */
  lemma OneOpenTree(c: Cache, owner: User, user: User, key: seq<Token>, saves: Oracle)
    requires Valid(c) && c.mode.Balanced? && c.ledger == Opened(true, Missing) && c.file == Missing
    requires owner in c.roots && owner in c.order && SharedTree(c.roots[owner], owner)
    requires owner != user && user != "" && 0 < |key| < c.budget
    requires Lookup(c.roots[owner], key).Some? && forall u, d :: saves(u, d)
    requires forall v | v in c.roots && v != owner ::
               Head(key) !in c.roots[v] || !VisibleTo(c.roots[v][Head(key)].tag, c.mode, user)
    ensures Full(c, user, key, saves)
  {
    SharedAnswers(c, owner, user, key, saves);
    var before, after := SplitAtFirst(c.order, owner);
    FirstSeenDecides(c, user, before, owner, after, key, saves);
    if user in c.roots {
      UnseenTree(c, user, user, key, saves);
    }
  }

  lemma SharedAnswers(c: Cache, owner: User, user: User, key: seq<Token>, saves: Oracle)
    requires Valid(c) && c.mode.Balanced?
    requires c.ledger == Opened(true, Missing) && c.file == Missing
    requires owner in c.roots && SharedTree(c.roots[owner], owner) && owner != user && 0 < |key| < c.budget
    requires Lookup(c.roots[owner], key).Some? && forall u, d :: saves(u, d)
    ensures |LookIn(c, user, owner, key, saves).slots| == |key|
  {
    var tree, req := c.roots[owner], RequestFor(c, user, owner, saves);
    assert Plenty(c.ledger, c.file, c.budget, |key|);
    SharedFind(tree, key, req, c.ledger, c.file, 0, owner, |key|);
    var n := |Find(tree, key, req, c.ledger, c.file, 0).slots|;
    assert IsLongest(tree, key, n);
    if n < |key| {
      CachedPrefixes(tree, key, n + 1);
    }
  }

  lemma {:induction false} SplitAtFirst(order: seq<User>, u: User) returns (before: seq<User>, after: seq<User>)
    requires u in order
    ensures order == before + ([u] + after) && u !in before
  {
    if order[0] == u {
      before, after := [], order[1..];
    } else {
      before, after := SplitAtFirst(order[1..], u);
      before := [order[0]] + before;
    }
  }

  /** A tenant that holds the key itself is served from its own tree. */
  lemma OwnAnswers(c: Cache, user: User, key: seq<Token>, saves: Oracle)
    requires Quiet(c) && user != "" && key != [] && Holds(c, user, key)
    ensures Full(c, user, key, saves)
  {
    var tree := c.roots[user];
    OwnLook(c, user, key, saves);
    OwnerGetsLongest(tree, key, RequestFor(c, user, user, saves), c.ledger, c.file, 0);
    var n := |LookIn(c, user, user, key, saves).slots|;
    if n < |key| {
      CachedPrefixes(tree, key, n + 1);
    }
  }
}
