/**
 Exactly which leftovers matter.  A tenant made a request; then, with the cache flushed or
 not, a victim requests the target and a prober probes it.
 */
module Leftovers {
  import opened Options
  import opened Ledger
  import opened CachePolicy
  import opened RadixTree
  import opened RadixLookup
  import opened TenantCache
  import opened ResidualCache
  import opened SharedTrees

  /** The leftover and who left it, the victim's request for the target, the prober, and the slots. */
  datatype Story = Story(
    leaver: User, left: seq<Token>, leftValue: seq<Slot>,
    victim: User, prober: User, target: seq<Token>, value: seq<Slot>)

  predicate Told(s: Story) {
    && s.leaver != "" && s.victim != "" && s.prober != "" && s.victim != s.leaver && s.victim != s.prober
    && 0 < |s.left| == |s.leftValue| && 0 < |s.target| == |s.value| <= CHUNK
  }

  /** The server after the leftover was made. */
  function WithLeftover(c: Cache, s: Story, saves: Oracle): Cache
    requires Valid(c) && Told(s)
  {
    Serve(c, s.leaver, s.left, s.leftValue, saves)
  }

  /** Whether the probe is a full match, with or without a flush between the leftover and the victim's request. */
  ghost function Matches(c: Cache, s: Story, flush: bool, saves: Oracle): bool
    requires Valid(c) && Told(s)
  {
    ServeValid(c, s.leaver, s.left, s.leftValue, saves);
    var c' := if flush then Emptied(WithLeftover(c, s, saves)) else WithLeftover(c, s, saves);
    ServeValid(c', s.victim, s.target, s.value, saves);
    Full(Serve(c', s.victim, s.target, s.value, saves), s.prober, s.target, saves)
  }

  /** A server that starts out empty, in a protected mode, with its ledger in a file. */
  predicate Started(c: Cache) {
    c.roots == map[] && c.order == [] && !c.mode.Open? && c.ledger.backed && c.budget > 0
  }

  /** Such a server on which every write of the file succeeds. */
  ghost predicate Server(c: Cache, saves: Oracle) {
    Started(c) && forall u, d :: saves(u, d)
  }

  /** Flushing makes no difference on any server whose writes succeed. */
  ghost predicate FlushIsIdle(s: Story)
    requires Told(s)
  {
    forall c: Cache, saves: Oracle | Server(c, saves) :: Matches(c, s, true, saves) == Matches(c, s, false, saves)
  }

  /** The segment that holds the first tokens of the leftover. */
  function FirstSegment(left: seq<Token>): seq<Token> {
    if |left| <= CHUNK then left else left[..CHUNK]
  }

  /** The first node of a leftover, as insertion makes it. */
  lemma LeftoverTree(c: Cache, s: Story, saves: Oracle)
    requires Valid(c) && Told(s) && c.roots == map[] && c.order == []
    ensures var c' := WithLeftover(c, s, saves);
            var visibility := if c.autoshare && c.mode.Balanced? then BudgetedShared else Private;
            var tag := Label(By(s.leaver), visibility, 0, false);
            var n := Chain(s.left, s.leftValue, tag);
            && Valid(c') && c' == c.(roots := map[s.leaver := map[Head(s.left) := n]], order := [s.leaver])
            && n.key == FirstSegment(s.left) && n.tag == tag && Head(n.key) == Head(s.left)
  {
    UnseenIsUntouched(c, s.leaver, s.left, saves);
    ServeValid(c, s.leaver, s.left, s.leftValue, saves);
  }

  // ----- a leftover that does not matter -----

  /** Nothing that the victim or the prober can see begins with the target's first token. */
  lemma UnrelatedLeftover(c: Cache, s: Story, saves: Oracle)
    requires Told(s) && c.roots == map[] && c.order == [] && !c.mode.Open?
    requires Head(s.left) != Head(s.target) || (s.leaver != s.prober && !(c.autoshare && c.mode.Balanced?))
    ensures Matches(c, s, true, saves) == Matches(c, s, false, saves)
  {
    LeftoverTree(c, s, saves);
    FlushDoesNotMatter(WithLeftover(c, s, saves), s.victim, s.prober, s.target, s.value, saves, saves);
  }

  // ----- a leftover of the prober -----

  lemma OneServerSuffices(c: Cache, s: Story, saves: Oracle)
    requires Told(s) && Server(c, saves) && Matches(c, s, true, saves) != Matches(c, s, false, saves)
    ensures !FlushIsIdle(s)
  {
  }

  lemma OwnLeftoverMatters(s: Story)
    requires Told(s) && s.leaver == s.prober && Head(s.left) == Head(s.target)
    ensures !FlushIsIdle(s)
  {
    var saves: Oracle := (_, _) => true;
    var c := if s.target <= s.left then Empty(Strict, 1, false, Opened(true, Missing), Missing)
             else Empty(Balanced, 1, true, Opened(true, Missing), Missing);
    if s.target <= s.left {
      StrictLeftover(c, s, saves);
    } else {
      BalancedLeftover(c, s, saves);
    }
    OneServerSuffices(c, s, saves);
  }

  lemma BalancedLeftover(c: Cache, s: Story, saves: Oracle)
    requires Told(s) && s.leaver == s.prober && Head(s.left) == Head(s.target) && !(s.target <= s.left)
    requires SharingServer(c) && Charge(Entries(c.file), s.target) < c.budget && forall u, d :: saves(u, d)
    ensures Matches(c, s, true, saves) && !Matches(c, s, false, saves)
  {
    SkippedFlushHidesHit(c, s.victim, s.prober, s.left, s.leftValue, s.target, s.value, saves);
  }

  lemma StrictLeftover(c: Cache, s: Story, saves: Oracle)
    requires Told(s) && s.leaver == s.prober && s.target <= s.left
    requires c.roots == map[] && c.order == [] && c.mode.Strict?
    ensures !Matches(c, s, true, saves) && Matches(c, s, false, saves)
  {
    var own := Extend(map[], s.left, s.leftValue);
    var theirs := Extend(map[], s.target, s.value);
    ServeRefines(c, map[], s.prober, s.left, s.leftValue, saves);
    var c' := WithLeftover(c, s, saves);
    ServeRefines(c', (map[])[s.prober := own], s.victim, s.target, s.value, saves);
    ServeRefines(Emptied(c'), map[], s.victim, s.target, s.value, saves);
    Extended(s.left, s.leftValue, s.target);
    FullNeedsEntry(Serve(c', s.victim, s.target, s.value, saves), (map[])[s.prober := own][s.victim := theirs],
                   s.prober, s.target, saves);
    FullNeedsEntry(Serve(Emptied(c'), s.victim, s.target, s.value, saves), (map[])[s.victim := theirs],
                   s.prober, s.target, saves);
  }

  // ----- a leftover of a third tenant: it hides the victim's entry -----

  /** A sharing server with more budget than two lookups of the target can use. */
  ghost predicate Rich(c: Cache, s: Story) {
    SharingServer(c) && Plenty(c.ledger, c.file, c.budget, 2 * |s.target|)
  }

  /**
   The tree of a third tenant was there first.  It shows the prober its first token, and as it
   does not hold the target, the prober gets less than that; after a flush it gets it all.
   */
  lemma ThirdTenantHides(c: Cache, s: Story, saves: Oracle)
    requires Told(s) && s.leaver != s.prober && Server(c, saves) && Rich(c, s)
    requires Head(s.left) == Head(s.target) && !(s.target <= s.left)
    ensures Matches(c, s, true, saves) && !Matches(c, s, false, saves)
  {
    LeftoverTree(c, s, saves);
    assert Charge(Entries(c.file), s.target) + 2 * |s.target| < c.budget;
    FlushedShowsIff(c, s, saves);
    LeftoverShares(c, s, saves);
    ServeRefines(c, map[], s.leaver, s.left, s.leftValue, saves);
    KeptHides(WithLeftover(c, s, saves), s, saves);
  }

  lemma LeftoverShares(c: Cache, s: Story, saves: Oracle)
    requires Told(s) && Server(c, saves) && Rich(c, s) && Head(s.left) == Head(s.target)
    ensures FirstShares(WithLeftover(c, s, saves), s, 2 * |s.target|)
    ensures WithLeftover(c, s, saves).roots.Keys == {s.leaver}
  {
    LeftoverTree(c, s, saves);
    ChainIsShared(s.left, s.leftValue, Label(By(s.leaver), BudgetedShared, 0, false), s.leaver);
  }

  /** The first tree in the order is shared, knows the first token of the target, and there is budget. */
  ghost predicate FirstShares(c: Cache, s: Story, n: nat) {
    && Valid(c) && c.mode.Balanced? && s.leaver in c.roots && |c.order| > 0 && c.order[0] == s.leaver
    && SharedTree(c.roots[s.leaver], s.leaver) && s.target != [] && Head(s.target) in c.roots[s.leaver]
    && Plenty(c.ledger, c.file, c.budget, n)
  }

  /** Such a tree answers any tenant without entries of its own, and goes on being shared. */
  lemma FirstAnswers(c: Cache, s: Story, user: User, n: nat, saves: Oracle)
    requires FirstShares(c, s, n) && |s.target| <= n && user != "" && user !in c.roots && user != s.leaver
    requires forall u, d :: saves(u, d)
    ensures var out := Look(c, user, s.target, saves);
            && out == LookIn(c, user, s.leaver, s.target, saves) && out.slots != []
            && FirstShares(out.cache, s, n - |s.target|)
            && out.cache.roots.Keys == c.roots.Keys && out.cache.order == c.order
  {
    var tree, req := c.roots[s.leaver], RequestFor(c, user, s.leaver, saves);
    SharedFind(tree, s.target, req, c.ledger, c.file, 0, s.leaver, n);
    var found := Find(tree, s.target, req, c.ledger, c.file, 0);
    SeesFirstToken(tree, s.target, |found.slots|);
    FirstSeenDecides(c, user, [], s.leaver, c.order[1..], s.target, saves);
    assert [] + ([s.leaver] + c.order[1..]) == c.order;
    HeadStays(tree, s.target, req, c.ledger, c.file, 0);
    LookInValid(c, user, s.leaver, s.target, saves);
  }

  /** A tree with a node for the first token holds at least that. */
  lemma SeesFirstToken(kids: Children, key: seq<Token>, n: nat)
    requires WellFormed(kids) && key != [] && Head(key) in kids && IsLongest(kids, key, n)
    ensures n > 0
  {
    assert key[..1] == kids[Head(key)].key[..1];
    assert Lookup(kids, key[..1]).Some?;
  }

  lemma HeadStays(kids: Children, key: seq<Token>, req: Request, ledger: Instance, file: File, depth: nat)
    requires WellFormed(kids) && key != []
    ensures Find(kids, key, req, ledger, file, depth).kids.Keys == kids.Keys
  {
  }

  lemma KeptHides(c: Cache, s: Story, saves: Oracle)
    requires Told(s) && s.leaver != s.prober && !(s.target <= s.left) && forall u, d :: saves(u, d)
    requires FirstShares(c, s, 2 * |s.target|) && c.roots.Keys == {s.leaver}
    requires Represents(c, (map[])[s.leaver := Extend(map[], s.left, s.leftValue)])
    ensures Valid(Serve(c, s.victim, s.target, s.value, saves))
    ensures !Full(Serve(c, s.victim, s.target, s.value, saves), s.prober, s.target, saves)
  {
    var own: Reference := (map[])[s.leaver := Extend(map[], s.left, s.leftValue)];
    ServeRefines(c, own, s.victim, s.target, s.value, saves);
    StillFirst(c, s, saves);
    var c' := Serve(c, s.victim, s.target, s.value, saves);
    FirstAnswers(c', s, s.prober, |s.target|, saves);
    NotHeld(c', own[s.victim := Extend(map[], s.target, s.value)], s, saves);
  }

  lemma StillFirst(c: Cache, s: Story, saves: Oracle)
    requires Told(s) && s.leaver != s.prober && forall u, d :: saves(u, d)
    requires FirstShares(c, s, 2 * |s.target|) && c.roots.Keys == {s.leaver}
    ensures var c' := Serve(c, s.victim, s.target, s.value, saves);
            FirstShares(c', s, |s.target|) && s.prober !in c'.roots
  {
    FirstAnswers(c, s, s.victim, 2 * |s.target|, saves);
    ServeValid(c, s.victim, s.target, s.value, saves);
    var seen, c' := Look(c, s.victim, s.target, saves).cache, Serve(c, s.victim, s.target, s.value, saves);
    assert c'.roots[s.leaver] == seen.roots[s.leaver] && c'.order == seen.order + [s.victim];
  }

  lemma NotHeld(c: Cache, ref: Reference, s: Story, saves: Oracle)
    requires Told(s) && !(s.target <= s.left) && Valid(c) && Represents(c, ref) && s.leaver in c.roots
    requires MapOf(ref, s.leaver) == Extend(map[], s.left, s.leftValue)
    ensures |LookIn(c, s.prober, s.leaver, s.target, saves).slots| != |s.target|
  {
    Extended(s.left, s.leftValue, s.target);
    if |LookIn(c, s.prober, s.leaver, s.target, saves).slots| == |s.target| {
      FullInTree(c, ref, s.prober, s.leaver, s.target, saves);
    }
  }

  // ----- a leftover of a third tenant that holds the target -----

  /** Whether a reservation is granted, all writes succeeding. */
  predicate Grantable(ledger: Instance, file: File, fp: Fingerprint, budget: nat) {
    ledger.Operational() && !file.Corrupt? && Charge(Entries(file), fp) < budget
  }

  predicate LastUnit(file: File, fp: Fingerprint, budget: nat) {
    !file.Corrupt? && Charge(Entries(file), fp) + 1 == budget
  }

  predicate Spent(tag: Label, owner: User) {
    tag.creator == By(owner) && tag.visibility == ExhaustedPrivate
  }

  ghost predicate OthersKeep(
    ledger: Instance, file: File, ledger': Instance, file': File, fp: Fingerprint, budget: nat) {
    forall other :: other != fp ==>
      (Grantable(ledger', file', other, budget) <==> Grantable(ledger, file, other, budget))
  }

  /** A shared node is granted exactly when its fingerprint has budget. */
  lemma AdmitGrantable(n: Node, req: Request, ledger: Instance, file: File, owner: User) returns (o: HitOutcome)
    requires SharedTag(n.tag, owner) && Visitor(req, owner) && ledger.backed
    ensures o == Admit(n, req, ledger, file, 0) && o.ledger.backed
    ensures o.granted <==> Grantable(ledger, file, n.key, req.budget)
    ensures if o.granted then SharedTag(o.tag, owner) || Spent(o.tag, owner) else Spent(o.tag, owner)
    ensures !o.granted || LastUnit(file, n.key, req.budget) ==> !Grantable(o.ledger, o.file, n.key, req.budget)
    ensures OthersKeep(ledger, file, o.ledger, o.file, n.key, req.budget)
  {
    ReserveEffect(ledger, file, n.key, req.budget, true);
    o := Admit(n, req, ledger, file, 0);
  }

  /** A lookup by another tenant that ends inside the first node, or at its end. */
  lemma HeadLookup(kids: Children, key: seq<Token>, req: Request, ledger: Instance, file: File, owner: User)
    requires WellFormed(kids) && key != [] && Head(key) in kids && key <= kids[Head(key)].key
    requires Visitor(req, owner) && ledger.backed
    requires var tag := kids[Head(key)].tag;
             SharedTag(tag, owner) || Spent(tag, owner)
    ensures var n, out := kids[Head(key)], Find(kids, key, req, ledger, file, 0);
            && out.ledger.backed && out.kids.Keys == kids.Keys
            && out.slots == (if SharedTag(n.tag, owner) && Grantable(ledger, file, n.key, req.budget)
                             then n.value[..|key|] else [])
            && OthersKeep(ledger, file, out.ledger, out.file, n.key, req.budget)
            && (out.slots == [] ==>
                Grantable(out.ledger, out.file, n.key, req.budget) == Grantable(ledger, file, n.key, req.budget))
            && (SharedTag(n.tag, owner) && LastUnit(file, n.key, req.budget) ==>
                !Grantable(out.ledger, out.file, n.key, req.budget))
            && var n' := out.kids[Head(key)];
               && (out.slots != [] ==> n'.key == key && (SharedTag(n'.tag, owner) || Spent(n'.tag, owner)))
               && (out.slots == [] ==> n'.key == n.key && Spent(n'.tag, owner))
  {
    var n := kids[Head(key)];
    assert n.key[..|key|] == key;
    Agreed(n.key, key);
    FindRefused(kids, key, req, ledger, file, 0);
    if SharedTag(n.tag, owner) {
      var o := AdmitGrantable(n, req, ledger, file, owner);
      if o.granted {
        FindGranted(kids, key, req, ledger, file, 0, o);
      }
    }
  }

  lemma Agreed(long: seq<Token>, key: seq<Token>)
    requires key <= long
    ensures Common(long, key) == |key|
  {
  }

  /** The leftover of another tenant begins with the target, inside or at the end of its first node. */
  ghost predicate HoldsTarget(s: Story) {
    Told(s) && s.leaver != s.prober && s.target <= FirstSegment(s.left)
  }

  /** The cache after the victim's request: the leaver's first node `n`, and the victim's one node. */
  ghost predicate TwoTrees(c: Cache, s: Story, n: Node) {
    && Told(s) && Valid(c) && c.mode.Balanced? && c.ledger.backed && c.order == [s.leaver, s.victim]
    && c.roots.Keys == {s.leaver, s.victim}
    && Head(s.target) in c.roots[s.leaver] && c.roots[s.leaver][Head(s.target)] == n
    && c.roots[s.victim] == map[Head(s.target) := Node(s.target, s.value,
                                                       Label(By(s.victim), BudgetedShared, 0, false), 0, map[])]
    && s.target <= n.key && (SharedTag(n.tag, s.leaver) || Spent(n.tag, s.leaver))
  }

  lemma OneAsked(c: Cache, user: User, owner: User, key: seq<Token>, saves: Oracle)
    requires Valid(c) && owner in c.roots && owner != user
    ensures var out := LookIn(c, user, owner, key, saves);
            var all := LookAmong(c, user, [owner], key, saves);
            Valid(out.cache) && all.slots == out.slots && all.cache == out.cache
  {
    LookInValid(c, user, owner, key, saves);
    assert [owner][1..] == [];
  }

  /** A tenant without a tree asks two others in turn. */
  lemma TwoAsked(c: Cache, user: User, a: User, b: User, key: seq<Token>, saves: Oracle)
    requires Valid(c) && c.mode.Balanced? && c.order == [a, b] && a in c.roots && b in c.roots && a != b
    requires user !in c.roots && user != "" && key != []
    ensures var first := LookIn(c, user, a, key, saves);
            && Valid(first.cache) && first.cache.roots[b] == c.roots[b]
            && Look(c, user, key, saves).slots ==
               if first.slots != [] then first.slots else LookIn(first.cache, user, b, key, saves).slots
  {
    LookInValid(c, user, a, key, saves);
    assert c.order[1..] == [b];
    OneAsked(LookIn(c, user, a, key, saves).cache, user, b, key, saves);
  }

  /** With the target in both trees the probe is a full match exactly when a charge can be made for it. */
  lemma ProbeOfTwo(c: Cache, s: Story, n: Node, saves: Oracle)
    requires TwoTrees(c, s, n) && s.leaver != s.prober && forall u, d :: saves(u, d)
    ensures Full(c, s.prober, s.target, saves) <==>
      (SharedTag(n.tag, s.leaver) && Grantable(c.ledger, c.file, n.key, c.budget))
      || Grantable(c.ledger, c.file, s.target, c.budget)
  {
    TwoAsked(c, s.prober, s.leaver, s.victim, s.target, saves);
    HeadLookup(c.roots[s.leaver], s.target, RequestFor(c, s.prober, s.leaver, saves), c.ledger, c.file, s.leaver);
    var c' := LookIn(c, s.prober, s.leaver, s.target, saves).cache;
    HeadLookup(c'.roots[s.victim], s.target, RequestFor(c', s.prober, s.victim, saves), c'.ledger, c'.file, s.victim);
  }

  /** The server before the victim's request: one tree, whose first node begins with the target. */
  ghost predicate OneTree(c: Cache, s: Story, n: Node) {
    && HoldsTarget(s) && Valid(c) && c.mode.Balanced? && c.autoshare && c.ledger.backed
    && c.order == [s.leaver] && c.roots == map[s.leaver := map[Head(s.target) := n]]
    && SharedTag(n.tag, s.leaver) && s.target <= n.key
  }

  /** The victim's request leaves two trees, the first with its node charged, spent, or cut to the target. */
  lemma RequestMakesTwo(c: Cache, s: Story, n: Node, saves: Oracle) returns (n': Node)
    requires OneTree(c, s, n) && forall u, d :: saves(u, d)
    ensures var c' := Serve(c, s.victim, s.target, s.value, saves);
            && TwoTrees(c', s, n') && c'.budget == c.budget
            && OthersKeep(c.ledger, c.file, c'.ledger, c'.file, n.key, c.budget)
            && (if Grantable(c.ledger, c.file, n.key, c.budget) then n'.key == s.target
                else !SharedTag(n'.tag, s.leaver) && !Grantable(c'.ledger, c'.file, n.key, c.budget))
            && (LastUnit(c.file, n.key, c.budget) ==> !Grantable(c'.ledger, c'.file, n.key, c.budget))
  {
    HeadLookup(c.roots[s.leaver], s.target, RequestFor(c, s.victim, s.leaver, saves), c.ledger, c.file, s.leaver);
    var first := LookIn(c, s.victim, s.leaver, s.target, saves);
    OneAsked(c, s.victim, s.leaver, s.target, saves);
    assert Look(c, s.victim, s.target, saves).cache == first.cache;
    ServeValid(c, s.victim, s.target, s.value, saves);
    n' := first.cache.roots[s.leaver][Head(s.target)];
    var tag := Label(By(s.victim), BudgetedShared, 0, false);
    assert Chain(s.target, s.value, tag) == Node(s.target, s.value, tag, 0, map[]);
    assert Serve(c, s.victim, s.target, s.value, saves).order == [s.leaver] + [s.victim];
  }

  /** If the leftover's first node goes on behind the target, the probe sees the target's own budget either way. */
  lemma LongerLeftoverIsIdle(c: Cache, s: Story, n: Node, saves: Oracle)
    requires OneTree(c, s, n) && n.key != s.target && forall u, d :: saves(u, d)
    ensures Valid(Serve(c, s.victim, s.target, s.value, saves))
    ensures Full(Serve(c, s.victim, s.target, s.value, saves), s.prober, s.target, saves) <==>
      Grantable(c.ledger, c.file, s.target, c.budget)
  {
    var n' := RequestMakesTwo(c, s, n, saves);
    ProbeOfTwo(Serve(c, s.victim, s.target, s.value, saves), s, n', saves);
  }

  /** If it is the target itself, the victim's request has a unit of that budget. */
  lemma EqualLeftoverSpends(c: Cache, s: Story, n: Node, saves: Oracle)
    requires OneTree(c, s, n) && n.key == s.target && forall u, d :: saves(u, d)
    requires LastUnit(c.file, s.target, c.budget)
    ensures Valid(Serve(c, s.victim, s.target, s.value, saves))
    ensures !Full(Serve(c, s.victim, s.target, s.value, saves), s.prober, s.target, saves)
  {
    var n' := RequestMakesTwo(c, s, n, saves);
    ProbeOfTwo(Serve(c, s.victim, s.target, s.value, saves), s, n', saves);
  }

  lemma VictimsTree(c: Cache, s: Story, saves: Oracle)
    requires Told(s) && Started(c) && c.mode.Balanced? && c.autoshare
    ensures var n := Node(s.target, s.value, Label(By(s.victim), BudgetedShared, 0, false), 0, map[]);
            var c' := Serve(c, s.victim, s.target, s.value, saves);
            && Valid(c') && c' == c.(roots := map[s.victim := map[Head(s.target) := n]], order := [s.victim])
  {
    UnseenIsUntouched(c, s.victim, s.target, saves);
    ServeValid(c, s.victim, s.target, s.value, saves);
    var tag := Label(By(s.victim), BudgetedShared, 0, false);
    assert Chain(s.target, s.value, tag) == Node(s.target, s.value, tag, 0, map[]);
  }

  lemma VictimShowsIff(c: Cache, s: Story, saves: Oracle)
    requires Told(s) && Started(c) && (forall d :: saves(s.victim, d)) && c.mode.Balanced? && c.autoshare
    ensures Valid(Serve(c, s.victim, s.target, s.value, saves))
    ensures Full(Serve(c, s.victim, s.target, s.value, saves), s.prober, s.target, saves) <==>
      Grantable(c.ledger, c.file, s.target, c.budget)
  {
    VictimsTree(c, s, saves);
    var c' := Serve(c, s.victim, s.target, s.value, saves);
    OneAsked(c', s.prober, s.victim, s.target, saves);
    HeadLookup(c'.roots[s.victim], s.target, RequestFor(c', s.prober, s.victim, saves), c'.ledger, c'.file, s.victim);
  }

  /** On the flushed server the probe finds the victim's one node. */
  lemma FlushedShowsIff(c: Cache, s: Story, saves: Oracle)
    requires Told(s) && Started(c) && (forall d :: saves(s.victim, d)) && c.mode.Balanced? && c.autoshare
    ensures Matches(c, s, true, saves) <==> Grantable(c.ledger, c.file, s.target, c.budget)
  {
    LeftoverTree(c, s, saves);
    assert Emptied(WithLeftover(c, s, saves)) == c;
    VictimShowsIff(c, s, saves);
  }

  lemma HeldIsOneTree(c: Cache, s: Story, saves: Oracle) returns (n: Node)
    requires HoldsTarget(s) && Started(c) && c.mode.Balanced? && c.autoshare
    ensures var c' := WithLeftover(c, s, saves);
            OneTree(c', s, n) && c'.ledger == c.ledger && c'.file == c.file && c'.budget == c.budget
    ensures n.key == FirstSegment(s.left)
  {
    LeftoverTree(c, s, saves);
    n := Chain(s.left, s.leftValue, Label(By(s.leaver), BudgetedShared, 0, false));
  }

  lemma HeldLeftoverIsIdle(c: Cache, s: Story, saves: Oracle)
    requires HoldsTarget(s) && Server(c, saves) && s.target != FirstSegment(s.left)
    ensures Matches(c, s, true, saves) == Matches(c, s, false, saves)
  {
    if c.autoshare && c.mode.Balanced? {
      FlushedShowsIff(c, s, saves);
      var n := HeldIsOneTree(c, s, saves);
      LongerLeftoverIsIdle(WithLeftover(c, s, saves), s, n, saves);
    } else {
      UnrelatedLeftover(c, s, saves);
    }
  }

  lemma EqualLeftoverMatters(s: Story)
    requires HoldsTarget(s) && s.target == FirstSegment(s.left)
    ensures !FlushIsIdle(s)
  {
    var c, saves: Oracle := Empty(Balanced, 1, true, Opened(true, Missing), Missing), (_, _) => true;
    FlushedShowsIff(c, s, saves);
    var n := HeldIsOneTree(c, s, saves);
    EqualLeftoverSpends(WithLeftover(c, s, saves), s, n, saves);
    OneServerSuffices(c, s, saves);
  }

  lemma ThirdTenantMatters(s: Story)
    requires Told(s) && s.leaver != s.prober && Head(s.left) == Head(s.target) && !(s.target <= s.left)
    ensures !FlushIsIdle(s)
  {
    var saves: Oracle := (_, _) => true;
    var c := Empty(Balanced, 2 * |s.target| + 1, true, Opened(true, Missing), Missing);
    ThirdTenantHides(c, s, saves);
    OneServerSuffices(c, s, saves);
  }

  /**
   Exactly which leftovers never matter, on whichever server can write its ledger: those with
   another first token than the target, and those of a third tenant whose first segment begins
   with the target and goes on behind it.  Any other leftover of the prober or of a third
   tenant turns a hit into a miss, or a miss into a hit, on some server.
   */
  lemma LeftoverMattersIff(s: Story)
    requires Told(s)
    ensures FlushIsIdle(s) <==>
      Head(s.left) != Head(s.target)
      || (s.leaver != s.prober && s.target <= s.left && s.target != FirstSegment(s.left))
  {
    if Head(s.left) != Head(s.target) {
      forall c: Cache, saves: Oracle | Server(c, saves)
        ensures Matches(c, s, true, saves) == Matches(c, s, false, saves)
      {
        UnrelatedLeftover(c, s, saves);
      }
    } else if s.leaver == s.prober {
      OwnLeftoverMatters(s);
    } else if !(s.target <= s.left) {
      ThirdTenantMatters(s);
    } else if s.target == FirstSegment(s.left) {
      EqualLeftoverMatters(s);
    } else {
      assert HoldsTarget(s);
      forall c: Cache, saves: Oracle | Server(c, saves)
        ensures Matches(c, s, true, saves) == Matches(c, s, false, saves)
      {
        HeldLeftoverIsIdle(c, s, saves);
      }
    }
  }

  // ----- writes that fail -----

  /** A charge that cannot be written retires the node and takes the ledger down. */
  lemma FailedCharge(n: Node, req: Request, ledger: Instance, file: File, owner: User) returns (o: HitOutcome)
    requires SharedTag(n.tag, owner) && req.user != owner && req.mode.Balanced? && ledger.backed && !req.saves(0)
    requires Grantable(ledger, file, n.key, req.budget)
    ensures o == Admit(n, req, ledger, file, 0) && VisibleTo(n.tag, req.mode, req.user)
    ensures !o.granted && Spent(o.tag, owner) && o.ledger.backed && !o.ledger.Operational()
  {
    o := Admit(n, req, ledger, file, 0);
  }

  lemma RequestTakesDown(c: Cache, s: Story, n: Node, saves: Oracle) returns (n': Node)
    requires OneTree(c, s, n) && Grantable(c.ledger, c.file, n.key, c.budget) && !saves(s.leaver, 0)
    ensures var c' := Serve(c, s.victim, s.target, s.value, saves);
            TwoTrees(c', s, n') && Spent(n'.tag, s.leaver) && !c'.ledger.Operational()
  {
    var req := RequestFor(c, s.victim, s.leaver, saves);
    var o := FailedCharge(n, req, c.ledger, c.file, s.leaver);
    n' := n.(tag := o.tag);
    FindRefused(c.roots[s.leaver], s.target, req, c.ledger, c.file, 0);
    OneAsked(c, s.victim, s.leaver, s.target, saves);
    ServeValid(c, s.victim, s.target, s.value, saves);
    var first := LookIn(c, s.victim, s.leaver, s.target, saves);
    assert c.order[1..] == [] && Look(c, s.victim, s.target, saves).cache == first.cache;
    var tag := Label(By(s.victim), BudgetedShared, 0, false);
    assert Chain(s.target, s.value, tag) == Node(s.target, s.value, tag, 0, map[]);
    assert Serve(c, s.victim, s.target, s.value, saves).order == [s.leaver] + [s.victim];
  }

  lemma ProbeOfDown(c: Cache, s: Story, n: Node, saves: Oracle)
    requires TwoTrees(c, s, n) && s.leaver != s.prober && (forall d :: saves(s.victim, d))
    requires Spent(n.tag, s.leaver) && !c.ledger.Operational()
    ensures !Full(c, s.prober, s.target, saves)
  {
    TwoAsked(c, s.prober, s.leaver, s.victim, s.target, saves);
    UnseenTree(c, s.prober, s.leaver, s.target, saves);
    HeadLookup(c.roots[s.victim], s.target, RequestFor(c, s.prober, s.victim, saves), c.ledger, c.file, s.victim);
  }

  /** The victim's lookup charges the leftover first; if that write fails, the probe finds the ledger down. */
  lemma FailedWriteHides(c: Cache, s: Story, saves: Oracle)
    requires HoldsTarget(s) && Started(c) && c.mode.Balanced? && c.autoshare
    requires forall u, d :: saves(u, d) <==> u != s.leaver
    requires forall fp :: Grantable(c.ledger, c.file, fp, c.budget)
    ensures Matches(c, s, true, saves) && !Matches(c, s, false, saves)
  {
    FlushedShowsIff(c, s, saves);
    var n := HeldIsOneTree(c, s, saves);
    var n' := RequestTakesDown(WithLeftover(c, s, saves), s, n, saves);
    ProbeOfDown(Serve(WithLeftover(c, s, saves), s.victim, s.target, s.value, saves), s, n', saves);
  }

  /** Flushing makes no difference whichever writes fail. */
  ghost predicate FlushIsAlwaysIdle(s: Story)
    requires Told(s)
  {
    forall c: Cache, saves: Oracle | Started(c) :: Matches(c, s, true, saves) == Matches(c, s, false, saves)
  }

  lemma SomeServerSuffices(c: Cache, s: Story, saves: Oracle)
    requires Told(s) && Started(c) && Matches(c, s, true, saves) != Matches(c, s, false, saves)
    ensures !FlushIsAlwaysIdle(s)
  {
  }

  lemma AlwaysIsStronger(s: Story)
    requires Told(s)
    ensures FlushIsAlwaysIdle(s) ==> FlushIsIdle(s)
  {
  }

  /** When writes may fail, only a leftover with another first token never matters. */
  lemma FailedWriteMattersIff(s: Story)
    requires Told(s)
    ensures FlushIsAlwaysIdle(s) <==> Head(s.left) != Head(s.target)
  {
    if Head(s.left) != Head(s.target) {
      forall c: Cache, saves: Oracle | Started(c)
        ensures Matches(c, s, true, saves) == Matches(c, s, false, saves)
      {
        UnrelatedLeftover(c, s, saves);
      }
    } else if HoldsTarget(s) {
      var c, saves: Oracle := Empty(Balanced, 1, true, Opened(true, Missing), Missing), (u, _) => u != s.leaver;
      FailedWriteHides(c, s, saves);
      SomeServerSuffices(c, s, saves);
    } else {
      LeftoverMattersIff(s);
      AlwaysIsStronger(s);
    }
  }
}
