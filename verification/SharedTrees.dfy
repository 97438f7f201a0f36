/**
 Trees all of whose nodes are shared.  While there is budget, any other tenant finds in them
 everything that is cached.
 */
module SharedTrees {
  import opened Options
  import opened Ledger
  import opened CachePolicy
  import opened RadixTree
  import opened RadixLookup
  import opened TreeShape

  predicate SharedTag(tag: Label, owner: User) {
    tag.creator == By(owner) && tag.visibility == BudgetedShared && !tag.permanent
  }

  predicate SharedNode(n: Node, owner: User) {
    SharedTag(n.tag, owner) && forall t | t in n.children :: SharedNode(n.children[t], owner)
  }

  predicate SharedTree(kids: Children, owner: User) {
    forall t | t in kids :: SharedNode(kids[t], owner)
  }

  /** The same node with every label opened to sharing. */
  function Share(n: Node): Node {
    n.(tag := n.tag.(visibility := BudgetedShared, permanent := false),
       children := map t | t in n.children :: Share(n.children[t]))
  }

  function ShareAll(kids: Children): Children {
    map t | t in kids :: Share(kids[t])
  }

  lemma {:induction false} ShareOk(n: Node, owner: User)
    requires OwnedNode(n, By(owner))
    ensures SameNode(n, Share(n)) && SharedNode(Share(n), owner)
  {
    forall t | t in n.children
      ensures SameNode(n.children[t], Share(n.children[t])) && SharedNode(Share(n.children[t]), owner)
    {
      ShareOk(n.children[t], owner);
    }
  }

  lemma ShareAllOk(kids: Children, owner: User)
    requires OwnedBy(kids, By(owner))
    ensures SameTree(kids, ShareAll(kids)) && SharedTree(ShareAll(kids), owner)
  {
    forall t | t in kids
      ensures SameNode(kids[t], Share(kids[t])) && SharedNode(Share(kids[t]), owner)
    {
      ShareOk(kids[t], owner);
    }
  }

  lemma {:induction false} ChainIsShared(key: seq<Token>, value: seq<Slot>, tag: Label, owner: User)
    requires 0 < |key| == |value| && SharedTag(tag, owner)
    ensures SharedNode(Chain(key, value, tag), owner)
    decreases |key|
  {
    if |key| <= CHUNK {
    } else {
      ChainIsShared(key[CHUNK..], value[CHUNK..], tag, owner);
    }
  }

  /** The ledger works, and no charge can reach the budget within `n` more. */
  ghost predicate Plenty(ledger: Instance, file: File, budget: nat, n: nat) {
    && ledger.backed && ledger.Operational() && !file.Corrupt?
    && forall fp :: Charge(Entries(file), fp) + n < budget
  }

  ghost predicate Visitor(req: Request, owner: User) {
    req.user != owner && req.mode.Balanced? && forall d :: req.saves(d)
  }

  /** With plenty of budget a shared node is served and stays shared. */
  lemma AdmitPlenty(c: Node, req: Request, ledger: Instance, file: File, depth: nat, owner: User, n: nat)
    returns (o: HitOutcome)
    requires SharedTag(c.tag, owner) && Visitor(req, owner) && n > 0 && Plenty(ledger, file, req.budget, n)
    ensures o == Admit(c, req, ledger, file, depth) && VisibleTo(c.tag, req.mode, req.user)
    ensures o.granted && SharedTag(o.tag, owner) && Plenty(o.ledger, o.file, req.budget, n - 1)
    ensures forall fp :: Charge(Entries(o.file), fp) <= Charge(Entries(file), fp) + 1
  {
    assert Charge(Entries(file), c.key) + n < req.budget;
    ReserveEffect(ledger, file, c.key, req.budget, true);
    o := Admit(c, req, ledger, file, depth);
    forall fp
      ensures Charge(Entries(o.file), fp) <= Charge(Entries(file), fp) + 1
    {
      assert fp != c.key ==> Charge(Entries(o.file), fp) == Charge(Entries(file), fp);
    }
    forall fp
      ensures Charge(Entries(o.file), fp) + (n - 1) < req.budget
    {
      assert Charge(Entries(file), fp) + n < req.budget;
      assert Charge(Entries(o.file), fp) <= Charge(Entries(file), fp) + 1;
    }
  }

  /** What a visitor with plenty of budget does to a shared tree. */
  ghost predicate Welcomed(kids: Children, key: seq<Token>, out: FindOutcome, budget: nat, owner: User, n: nat)
    requires WellFormed(kids) && |key| <= n
  {
    && IsLongest(kids, key, |out.slots|) && SharedTree(out.kids, owner)
    && Plenty(out.ledger, out.file, budget, n - |key|)
  }

  lemma {:induction false} SharedFind(
    kids: Children, key: seq<Token>, req: Request, ledger: Instance, file: File, depth: nat, owner: User, n: nat)
    requires WellFormed(kids) && SharedTree(kids, owner) && Visitor(req, owner)
    requires |key| <= n && Plenty(ledger, file, req.budget, n)
    ensures Welcomed(kids, key, Find(kids, key, req, ledger, file, depth), req.budget, owner, n)
    decreases |key|
  {
    if key == [] || Head(key) !in kids {
      NothingThere(kids, key);
    } else {
      var c := kids[Head(key)];
      var o := AdmitPlenty(c, req, ledger, file, depth, owner, n);
      var m, out := Common(c.key, key), Find(kids, key, req, ledger, file, depth);
      FindGranted(kids, key, req, ledger, file, depth, o);
      if m == |c.key| {
        SharedFind(c.children, key[m..], req, o.ledger, o.file, depth + 1, owner, n - 1);
        var below := Find(c.children, key[m..], req, o.ledger, o.file, depth + 1);
        SharedGoesOn(kids, key, owner, o, below, out, req.budget, n);
      } else {
        SharedEndsInside(kids, key, owner, o, out, req.budget, n);
      }
    }
  }

  lemma LessPlenty(ledger: Instance, file: File, budget: nat, n: nat, m: nat)
    requires Plenty(ledger, file, budget, n) && m <= n
    ensures Plenty(ledger, file, budget, m)
  {
    forall fp
      ensures Charge(Entries(file), fp) + m < budget
    {
      assert Charge(Entries(file), fp) + n < budget;
    }
  }

  lemma SharedGoesOn(
    kids: Children, key: seq<Token>, owner: User, o: HitOutcome, below: FindOutcome, out: FindOutcome, budget: nat,
    n: nat)
    requires WellFormed(kids) && SharedTree(kids, owner) && key != [] && Head(key) in kids && |key| <= n
    requires SharedTag(o.tag, owner)
    requires var c := kids[Head(key)];
             && Common(c.key, key) == |c.key| && Welcomed(c.children, key[|c.key|..], below, budget, owner, n - 1)
             && out.kids == kids[Head(key) := c.(tag := o.tag, hits := c.hits + 1, children := below.kids)]
             && |out.slots| == |c.key| + |below.slots| && out.ledger == below.ledger && out.file == below.file
    ensures Welcomed(kids, key, out, budget, owner, n)
  {
    var c := kids[Head(key)];
    LongestBelow(kids, key, |below.slots|);
    assert SharedNode(c.(tag := o.tag, hits := c.hits + 1, children := below.kids), owner);
    LessPlenty(below.ledger, below.file, budget, n - 1 - |key[|c.key|..]|, n - |key|);
  }

  lemma SharedEndsInside(
    kids: Children, key: seq<Token>, owner: User, o: HitOutcome, out: FindOutcome, budget: nat, n: nat)
    requires WellFormed(kids) && SharedTree(kids, owner) && key != [] && Head(key) in kids && |key| <= n
    requires SharedTag(o.tag, owner) && Plenty(o.ledger, o.file, budget, n - 1)
    requires var c := kids[Head(key)];
             var hit := c.(tag := o.tag, hits := c.hits + 1);
             && Common(c.key, key) < |c.key| && |out.slots| == Common(c.key, key)
             && out.kids == kids[Head(key) := Aligned(hit, key)] && out.ledger == o.ledger && out.file == o.file
    ensures Welcomed(kids, key, out, budget, owner, n)
  {
    var c := kids[Head(key)];
    var m, hit := Common(c.key, key), c.(tag := o.tag, hits := c.hits + 1);
    var low := hit.(key := hit.key[m..], value := hit.value[m..]);
    assert SharedNode(low, owner) && Aligned(hit, key).children == map[hit.key[m] := low];
    assert SharedNode(Aligned(hit, key), owner);
    LongestInside(kids, key);
    LessPlenty(o.ledger, o.file, budget, n - 1, n - |key|);
  }
}
