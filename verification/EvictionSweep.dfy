/**
 Eviction and reinsertion cycles: insert and promote one prefix, let another tenant
 probe it more often than the budget allows, flush, evict, repeat.

 `Durable` keeps the ledger across evictions, `PerResidency` resets it after each one,
 and `StrictOnly` runs the same cycles in Strict mode.  Every cycle goes through the
 tenant cache of `TenantCache`.  A prefix of any length is cached as a chain of nodes, one
 for each segment of at most `CHUNK` tokens.
 */
module EvictionSweep {
  import opened Ledger
  import opened CachePolicy
  import opened RadixTree
  import opened RadixLookup
  import opened TenantCache
  import opened SegmentWalk
  import PromotionWalk

  datatype Policy = StrictOnly | Durable | PerResidency

  /** The prefix under test, its slots, the tenant that owns it and the one that probes. */
  datatype Setting = Setting(tokens: seq<Token>, slots: seq<Slot>, owner: User, prober: User, budget: nat)

  predicate Proper(x: Setting) {
    && 0 < |x.tokens| == |x.slots|
    && x.owner != "" && x.prober != "" && x.owner != x.prober && x.budget > 0
  }

  // ----- a prefix as a chain of nodes -----

  /** The segments of a prefix. */
  function Segments(tokens: seq<Token>): (fps: seq<Fingerprint>)
    ensures |fps| > 0
  {
    if |tokens| <= CHUNK then [tokens] else [tokens[..CHUNK]] + Segments(tokens[CHUNK..])
  }

  /** A label that is shared if `open`, and retired otherwise. */
  predicate TagIs(tag: Label, owner: User, open: bool) {
    && tag.creator == By(owner) && tag.permanent == !open
    && tag.visibility == if open then BudgetedShared else ExhaustedPrivate
  }

  function FirstSize(tokens: seq<Token>): nat {
    if |tokens| <= CHUNK then |tokens| else CHUNK
  }

  /** The tree is the chain of the prefix, its nodes open or retired as given. */
  predicate IsChain(kids: Children, tokens: seq<Token>, slots: seq<Slot>, owner: User, open: seq<bool>)
    requires 0 < |tokens| == |slots| && |open| == |Segments(tokens)|
    decreases |tokens|
  {
    && kids.Keys == {Head(tokens)}
    && var c, k := kids[Head(tokens)], FirstSize(tokens);
       && c.key == tokens[..k] && c.value == slots[..k] && TagIs(c.tag, owner, open[0])
       && if |tokens| <= CHUNK then c.children == map[]
          else IsChain(c.children, tokens[CHUNK..], slots[CHUNK..], owner, open[1..])
  }

  lemma {:induction false} ChainIsValid(
    kids: Children, tokens: seq<Token>, slots: seq<Slot>, owner: User, open: seq<bool>)
    requires 0 < |tokens| == |slots| && |open| == |Segments(tokens)| && IsChain(kids, tokens, slots, owner, open)
    ensures WellFormed(kids) && OwnedBy(kids, By(owner))
    decreases |tokens|
  {
    if |tokens| <= CHUNK {
    } else {
      ChainIsValid(kids[Head(tokens)].children, tokens[CHUNK..], slots[CHUNK..], owner, open[1..]);
    }
  }

  ghost predicate Up(ledger: Instance, file: File) {
    ledger.backed && ledger.Operational() && !file.Corrupt? && Behind(ledger.store, Entries(file))
  }

  /** The reservation that a prober makes at a node of the chain. */
  lemma ReserveAt(tag: Label, fp: Fingerprint, owner: User, ledger: Instance, file: File, budget: nat)
    requires Up(ledger, file) && TagIs(tag, owner, true) && budget > 0
    ensures var o := ReserveShared(tag, fp, ledger, file, budget, true);
            var used := Charge(Entries(file), fp);
            && Up(o.ledger, o.file) && (o.granted <==> used < budget)
            && TagIs(o.tag, owner, used + 1 < budget)
            && Entries(o.file) == if o.granted then Entries(file)[fp := used + 1] else Entries(file)
  {
  }

  // ----- one probe of the chain -----

  /** A prober in Balanced mode, with every write of the ledger succeeding. */
  ghost predicate IsProber(req: Request, owner: User, budget: nat) {
    && req.user != owner && req.mode.Balanced? && req.budget == budget > 0
    && forall d :: req.saves(d)
  }

  /** What the lookup of the whole prefix does, in terms of the walk over its segments. */
  ghost predicate FollowsWalk(
    out: FindOutcome, w: WalkState, i: nat, tokens: seq<Token>, slots: seq<Slot>, owner: User)
    requires 0 < |tokens| == |slots| && i <= |w.open| && |w.open[i..]| == |Segments(tokens)|
  {
    && IsChain(out.kids, tokens, slots, owner, w.open[i..])
    && Up(out.ledger, out.file) && Entries(out.file) == w.charges
    && (out.slots != [] <==> w.stop > i)
  }

  /** The chain from node `i` on. */
  predicate ChainAt(
    kids: Children, tokens: seq<Token>, slots: seq<Slot>, owner: User, fps: seq<Fingerprint>, open: seq<bool>, i: nat)
  {
    && 0 < |tokens| == |slots| && |open| == |fps| && i <= |fps| && Segments(tokens) == fps[i..]
    && WellFormed(kids) && IsChain(kids, tokens, slots, owner, open[i..])
  }

  /** The first node of the chain; the rest does not depend on whether it is open. */
  lemma FirstOfChain(
    kids: Children, tokens: seq<Token>, slots: seq<Slot>, owner: User, fps: seq<Fingerprint>, open: seq<bool>, i: nat,
    b: bool)
    requires ChainAt(kids, tokens, slots, owner, fps, open, i)
    ensures i < |fps| && kids.Keys == {Head(tokens)}
    ensures var c := kids[Head(tokens)];
            && fps[i] == c.key == tokens[..FirstSize(tokens)] && c.value == slots[..FirstSize(tokens)]
            && TagIs(c.tag, owner, open[i])
            && if |tokens| <= CHUNK then i + 1 == |fps| && c.children == map[] && c.key == tokens && c.value == slots
               else ChainAt(c.children, tokens[CHUNK..], slots[CHUNK..], owner, fps, open[i := b], i + 1)
  {
    assert fps[i..][0] == fps[i] && open[i..][0] == open[i];
    if |tokens| > CHUNK {
      assert open[i := b][i + 1..] == open[i..][1..];
      assert fps[i + 1..] == fps[i..][1..];
    } else {
      assert fps[i..] == [tokens];
    }
  }

  lemma {:induction false} FindFollowsWalk(
    kids: Children, tokens: seq<Token>, slots: seq<Slot>, owner: User, req: Request, ledger: Instance, file: File,
    depth: nat, fps: seq<Fingerprint>, open: seq<bool>, i: nat)
    requires ChainAt(kids, tokens, slots, owner, fps, open, i) && Up(ledger, file) && IsProber(req, owner, req.budget)
    ensures FollowsWalk(Find(kids, tokens, req, ledger, file, depth), Walk(fps, open, Entries(file), req.budget, i),
                        i, tokens, slots, owner)
    decreases |tokens|
  {
    var c := kids[Head(tokens)];
    var used := Charge(Entries(file), c.key);
    FirstOfChain(kids, tokens, slots, owner, fps, open, i, used + 1 < req.budget);
    if !open[i] || used >= req.budget {
      RefusedFollows(kids, tokens, slots, owner, req, ledger, file, depth, fps, open, i);
    } else if |tokens| <= CHUNK {
      LastFollows(kids, tokens, slots, owner, req, ledger, file, depth, fps, open, i);
    } else {
      var o := AdmitAt(c, owner, req, ledger, file, depth);
      FindFollowsWalk(c.children, tokens[CHUNK..], slots[CHUNK..], owner, req, o.ledger, o.file, depth + 1,
                      fps, open[i := used + 1 < req.budget], i + 1);
      MoreFollows(kids, tokens, slots, owner, req, ledger, file, depth, fps, open, i, o);
    }
  }

  lemma RefusedFollows(
    kids: Children, tokens: seq<Token>, slots: seq<Slot>, owner: User, req: Request, ledger: Instance, file: File,
    depth: nat, fps: seq<Fingerprint>, open: seq<bool>, i: nat)
    requires ChainAt(kids, tokens, slots, owner, fps, open, i) && Up(ledger, file) && IsProber(req, owner, req.budget)
    requires i < |fps| && fps[i] == kids[Head(tokens)].key && TagIs(kids[Head(tokens)].tag, owner, open[i])
    requires !open[i] || Charge(Entries(file), fps[i]) >= req.budget
    ensures FollowsWalk(Find(kids, tokens, req, ledger, file, depth), Walk(fps, open, Entries(file), req.budget, i),
                        i, tokens, slots, owner)
  {
    var out := Find(kids, tokens, req, ledger, file, depth);
    var w := WalkFrom(fps, open, Entries(file), req.budget, i);
    FindRefused(kids, tokens, req, ledger, file, depth);
    if open[i] {
      var o := AdmitAt(kids[Head(tokens)], owner, req, ledger, file, depth);
      Retired(kids, tokens, slots, owner, open, i, o, out);
      assert w == WalkState(i, open[i := false], Entries(o.file));
    }
  }

  lemma LastFollows(
    kids: Children, tokens: seq<Token>, slots: seq<Slot>, owner: User, req: Request, ledger: Instance, file: File,
    depth: nat, fps: seq<Fingerprint>, open: seq<bool>, i: nat)
    requires ChainAt(kids, tokens, slots, owner, fps, open, i) && Up(ledger, file) && IsProber(req, owner, req.budget)
    requires |tokens| <= CHUNK && i < |fps| && open[i] && Charge(Entries(file), kids[Head(tokens)].key) < req.budget
    ensures FollowsWalk(Find(kids, tokens, req, ledger, file, depth), Walk(fps, open, Entries(file), req.budget, i),
                        i, tokens, slots, owner)
  {
    FirstOfChain(kids, tokens, slots, owner, fps, open, i, true);
    var out := Find(kids, tokens, req, ledger, file, depth);
    var w := WalkFrom(fps, open, Entries(file), req.budget, i);
    var o := AdmitAt(kids[Head(tokens)], owner, req, ledger, file, depth);
    var below := ServedChunk(kids, tokens, req, ledger, file, depth, o);
    var open' := open[i := Charge(Entries(file), fps[i]) + 1 < req.budget];
    ServedFollows(kids, tokens, slots, owner, o, below, out, fps, open', req.budget, i);
    assert w == Walk(fps, open', Entries(o.file), req.budget, i + 1);
  }

  lemma MoreFollows(
    kids: Children, tokens: seq<Token>, slots: seq<Slot>, owner: User, req: Request, ledger: Instance, file: File,
    depth: nat, fps: seq<Fingerprint>, open: seq<bool>, i: nat, o: HitOutcome)
    requires ChainAt(kids, tokens, slots, owner, fps, open, i) && Up(ledger, file) && IsProber(req, owner, req.budget)
    requires |tokens| > CHUNK && i < |fps| && open[i] && Charge(Entries(file), kids[Head(tokens)].key) < req.budget
    requires o == Admit(kids[Head(tokens)], req, ledger, file, depth) && Up(o.ledger, o.file)
    requires var open' := open[i := Charge(Entries(file), kids[Head(tokens)].key) + 1 < req.budget];
             && ChainAt(kids[Head(tokens)].children, tokens[CHUNK..], slots[CHUNK..], owner, fps, open', i + 1)
             && FollowsWalk(Find(kids[Head(tokens)].children, tokens[CHUNK..], req, o.ledger, o.file, depth + 1),
                            Walk(fps, open', Entries(o.file), req.budget, i + 1),
                            i + 1, tokens[CHUNK..], slots[CHUNK..], owner)
    ensures FollowsWalk(Find(kids, tokens, req, ledger, file, depth), Walk(fps, open, Entries(file), req.budget, i),
                        i, tokens, slots, owner)
  {
    FirstOfChain(kids, tokens, slots, owner, fps, open, i, true);
    var out := Find(kids, tokens, req, ledger, file, depth);
    var w := WalkFrom(fps, open, Entries(file), req.budget, i);
    var o' := AdmitAt(kids[Head(tokens)], owner, req, ledger, file, depth);
    var below := ServedChunk(kids, tokens, req, ledger, file, depth, o);
    var open' := open[i := Charge(Entries(file), fps[i]) + 1 < req.budget];
    ServedFollows(kids, tokens, slots, owner, o, below, out, fps, open', req.budget, i);
    assert w == Walk(fps, open', Entries(o.file), req.budget, i + 1);
  }

  /** One step of the walk, spelled out. */
  lemma WalkFrom(fps: seq<Fingerprint>, open: seq<bool>, charges: Charges, budget: nat, i: nat) returns (w: WalkState)
    requires |open| == |fps| && i < |fps|
    ensures w == Walk(fps, open, charges, budget, i)
    ensures var used := Charge(charges, fps[i]);
            w == if !open[i] then WalkState(i, open, charges)
                 else if used >= budget then WalkState(i, open[i := false], charges)
                 else Walk(fps, open[i := used + 1 < budget], charges[fps[i] := used + 1], budget, i + 1)
  {
    w := Walk(fps, open, charges, budget, i);
  }

  /** The outcome of the reservation, detached from how it is computed. */
  lemma AdmitAt(c: Node, owner: User, req: Request, ledger: Instance, file: File, depth: nat) returns (o: HitOutcome)
    requires Up(ledger, file) && TagIs(c.tag, owner, true) && IsProber(req, owner, req.budget)
    ensures o == Admit(c, req, ledger, file, depth) && VisibleTo(c.tag, req.mode, req.user)
    ensures var used := Charge(Entries(file), c.key);
            && Up(o.ledger, o.file) && (o.granted <==> used < req.budget)
            && TagIs(o.tag, owner, used + 1 < req.budget)
            && Entries(o.file) == if o.granted then Entries(file)[c.key := used + 1] else Entries(file)
  {
    ReserveAt(c.tag, c.key, owner, ledger, file, req.budget);
    o := Admit(c, req, ledger, file, depth);
  }

  /** A served node keeps its place in the chain above what was found below it. */
  lemma ServedFollows(
    kids: Children, tokens: seq<Token>, slots: seq<Slot>, owner: User, o: HitOutcome, below: FindOutcome,
    out: FindOutcome, fps: seq<Fingerprint>, open: seq<bool>, budget: nat, i: nat)
    requires 0 < |tokens| == |slots| && |open| == |fps| && i < |fps| && Segments(tokens) == fps[i..]
    requires kids.Keys == {Head(tokens)} && Up(o.ledger, o.file) && TagIs(o.tag, owner, open[i])
    requires var c := kids[Head(tokens)];
             c.key == tokens[..FirstSize(tokens)] && c.value == slots[..FirstSize(tokens)]
    requires if |tokens| <= CHUNK then i + 1 == |fps| && below == FindOutcome(map[], [], [], o.ledger, o.file)
             else
               |fps[i + 1..]| == |Segments(tokens[CHUNK..])| &&
               FollowsWalk(below, Walk(fps, open, Entries(o.file), budget, i + 1), i + 1, tokens[CHUNK..],
                 slots[CHUNK..], owner)
    requires var c := kids[Head(tokens)];
             && out.kids == kids[Head(tokens) := c.(tag := o.tag, hits := c.hits + 1, children := below.kids)]
             && out.slots == c.value + below.slots && out.ledger == below.ledger && out.file == below.file
    ensures FollowsWalk(out, Walk(fps, open, Entries(o.file), budget, i + 1), i, tokens, slots, owner)
  {
    var w := Walk(fps, open, Entries(o.file), budget, i + 1);
    WalkCloses(fps, open, Entries(o.file), budget, i + 1, i);
    assert w.open[i..][0] == open[i] && w.open[i..][1..] == w.open[i + 1..];
  }

  /** A refused reservation retires the node. */
  lemma Retired(
    kids: Children, tokens: seq<Token>, slots: seq<Slot>, owner: User, open: seq<bool>, i: nat,
    o: HitOutcome, out: FindOutcome)
    requires 0 < |tokens| == |slots| && i < |open| && |open[i..]| == |Segments(tokens)|
    requires IsChain(kids, tokens, slots, owner, open[i..]) && TagIs(o.tag, owner, false) && Up(o.ledger, o.file)
    requires out == FindOutcome(kids[Head(tokens) := kids[Head(tokens)].(tag := o.tag)], [], [], o.ledger, o.file)
    ensures FollowsWalk(out, WalkState(i, open[i := false], Entries(o.file)), i, tokens, slots, owner)
  {
    assert open[i := false][i..] == open[i..][0 := false];
    assert open[i..][0 := false][1..] == open[i..][1..];
  }

  /** The whole chunk matches, and the rest of the key is looked up below it. */
  lemma ServedChunk(
    kids: Children, tokens: seq<Token>, req: Request, ledger: Instance, file: File, depth: nat, o: HitOutcome)
    returns (below: FindOutcome)
    requires WellFormed(kids) && tokens != [] && Head(tokens) in kids
    requires var c := kids[Head(tokens)];
             && c.key == tokens[..FirstSize(tokens)] && VisibleTo(c.tag, req.mode, req.user)
             && o == Admit(c, req, ledger, file, depth) && o.granted
    ensures var c, out := kids[Head(tokens)], Find(kids, tokens, req, ledger, file, depth);
            && below == Find(c.children, tokens[|c.key|..], req, o.ledger, o.file, depth + 1)
            && out.kids == kids[Head(tokens) := c.(tag := o.tag, hits := c.hits + 1, children := below.kids)]
            && out.slots == c.value + below.slots && out.ledger == below.ledger && out.file == below.file
            && (|tokens| <= CHUNK ==> below == FindOutcome(c.children, [], [], o.ledger, o.file))
  {
    var c := kids[Head(tokens)];
    assert forall m | 0 <= m < |c.key| :: c.key[m] == tokens[m];
    assert Common(c.key, tokens) == |c.key|;
    below := Find(c.children, tokens[|c.key|..], req, o.ledger, o.file, depth + 1);
    assert |tokens| <= CHUNK ==> tokens[|c.key|..] == [];
  }

  // ----- insertion and promotion -----

  /** The tree after the promotion walk; that the walk leaves it is `SweepPromotion.PromoteTree`. */
  function PromotedNode(n: Node, ledger: Instance, file: File, budget: nat): Node {
    n.(tag := PromotionWalk.Expected(PromotionWalk.View(n.tag, n.key, true), ledger, file, budget),
       children := map t | t in n.children :: PromotedNode(n.children[t], ledger, file, budget))
  }

  function PromotedTree(kids: Children, ledger: Instance, file: File, budget: nat): Children {
    map t | t in kids :: PromotedNode(kids[t], ledger, file, budget)
  }

  /** The walk of `_insert_budgeted` over the tree of the owner. */
  function Promoted(c: Cache, x: Setting): Cache {
    if x.owner !in c.roots || c.roots[x.owner] == map[] then c
    else
      c.(roots := c.roots[x.owner := PromotedTree(c.roots[x.owner], c.ledger, c.file, c.budget)],
         ledger := Consulted(c.ledger, c.file))
  }

  lemma {:induction false} ChainIsPromoted(
    tokens: seq<Token>, slots: seq<Slot>, owner: User, ledger: Instance, file: File, budget: nat)
    requires 0 < |tokens| == |slots| && Up(ledger, file)
    ensures var chain := map[Head(tokens) := Chain(tokens, slots, Label(By(owner), Private, 0, false))];
            var fps := Segments(tokens);
            IsChain(PromotedTree(chain, ledger, file, budget), tokens, slots, owner, Opens(fps, Entries(file), budget))
    decreases |tokens|
  {
    var private := Label(By(owner), Private, 0, false);
    var fps, open := Segments(tokens), Opens(Segments(tokens), Entries(file), budget);
    if |tokens| <= CHUNK {
      assert tokens[..|tokens|] == tokens && slots[..|slots|] == slots;
    } else {
      var rest := tokens[CHUNK..];
      ChainIsPromoted(rest, slots[CHUNK..], owner, ledger, file, budget);
      assert fps[1..] == Segments(rest);
      OpensRest(fps, Entries(file), budget);
      FirstIsPromoted(tokens, slots, owner, ledger, file, budget);
    }
  }

  lemma OpensRest(fps: seq<Fingerprint>, charges: Charges, budget: nat)
    requires fps != []
    ensures Opens(fps, charges, budget)[1..] == Opens(fps[1..], charges, budget)
  {
  }

  lemma FirstIsPromoted(
    tokens: seq<Token>, slots: seq<Slot>, owner: User, ledger: Instance, file: File, budget: nat)
    requires CHUNK < |tokens| == |slots| && Up(ledger, file)
    ensures var private := Label(By(owner), Private, 0, false);
            var c := PromotedNode(Chain(tokens, slots, private), ledger, file, budget);
            var below := map[Head(tokens[CHUNK..]) := Chain(tokens[CHUNK..], slots[CHUNK..], private)];
            && c.key == tokens[..CHUNK] && c.value == slots[..CHUNK]
            && TagIs(c.tag, owner, Charge(Entries(file), tokens[..CHUNK]) < budget)
            && c.children == PromotedTree(below, ledger, file, budget)
  {
  }

  /** The cache holds the chain of the prefix and nothing else. */
  ghost predicate Resident(c: Cache, x: Setting, open: seq<bool>)
    requires Proper(x) && |open| == |Segments(x.tokens)|
  {
    && c.roots.Keys == {x.owner} && IsChain(c.roots[x.owner], x.tokens, x.slots, x.owner, open)
    && c.order == [x.owner] && c.budget == x.budget && Up(c.ledger, c.file)
  }

  ghost predicate Evicted(c: Cache, x: Setting) {
    c.roots == map[] && c.order == [] && c.budget == x.budget && !c.autoshare && Up(c.ledger, c.file)
  }

  /** After insertion and promotion each node is open iff its segment has budget left. */
  lemma InsertAndPromote(c: Cache, x: Setting)
    requires Proper(x) && Evicted(c, x)
    ensures Valid(c)
    ensures var c' := Promoted(Put(c, x.owner, x.tokens, x.slots).0, x);
            && Resident(c', x, Opens(Segments(x.tokens), Entries(c.file), x.budget))
            && c'.file == c.file && c'.mode == c.mode && !c'.autoshare
  {
    var chain := map[Head(x.tokens) := Chain(x.tokens, x.slots, Label(By(x.owner), Private, 0, false))];
    assert Put(c, x.owner, x.tokens, x.slots).0.roots == map[x.owner := chain];
    ChainIsPromoted(x.tokens, x.slots, x.owner, c.ledger, c.file, x.budget);
  }

  lemma ResidentValid(c: Cache, x: Setting, open: seq<bool>)
    requires Proper(x) && |open| == |Segments(x.tokens)| && Resident(c, x, open)
    ensures Valid(c)
  {
    ChainIsValid(c.roots[x.owner], x.tokens, x.slots, x.owner, open);
  }

  /** A probe in Balanced mode is one walk over the segments; it is a hit iff the first was served. */
  lemma ProbeBalanced(c: Cache, x: Setting, open: seq<bool>)
    requires Proper(x) && |open| == |Segments(x.tokens)| && Resident(c, x, open) && c.mode.Balanced?
    ensures Valid(c)
    ensures var out := Look(c, x.prober, x.tokens, ALL_SAVE);
            var w := Walk(Segments(x.tokens), open, Entries(c.file), x.budget, 0);
            && Resident(out.cache, x, w.open) && Entries(out.cache.file) == w.charges
            && (out.slots != [] <==> w.stop > 0)
            && out.cache.mode == c.mode && out.cache.autoshare == c.autoshare
  {
    ResidentValid(c, x, open);
    var req := RequestFor(c, x.prober, x.owner, ALL_SAVE);
    var fps := Segments(x.tokens);
    assert open[0..] == open && fps[0..] == fps;
    FindFollowsWalk(c.roots[x.owner], x.tokens, x.slots, x.owner, req, c.ledger, c.file, 0, fps, open, 0);
    var w := Walk(fps, open, Entries(c.file), x.budget, 0);
    assert w.open[0..] == w.open;
    var first := LookIn(c, x.prober, x.owner, x.tokens, ALL_SAVE);
    LookInValid(c, x.prober, x.owner, x.tokens, ALL_SAVE);
    assert c.order[1..] == [];
    assert LookAmong(first.cache, x.prober, [], x.tokens, ALL_SAVE) == LookOutcome(first.cache, [], []);
    var out := Look(c, x.prober, x.tokens, ALL_SAVE);
    assert out.cache == first.cache && out.slots == first.slots;
  }

  /** In Strict mode a probe observes and changes nothing. */
  lemma ProbeStrict(c: Cache, x: Setting, open: seq<bool>)
    requires Proper(x) && |open| == |Segments(x.tokens)| && Resident(c, x, open) && c.mode.Strict?
    ensures Valid(c) && Look(c, x.prober, x.tokens, ALL_SAVE) == LookOutcome(c, [], [])
  {
    ResidentValid(c, x, open);
  }

  // ----- the sweep -----

  /** What `n` probes of the resident prefix come to. */
  function ProbesOf(x: Setting, mode: Mode, open: seq<bool>, charges: Charges, n: nat): ProbeState
    requires |open| == |Segments(x.tokens)|
  {
    if mode.Balanced? then Probes(Segments(x.tokens), open, charges, x.budget, n) else ProbeState(0, open, charges)
  }

  method SimulateCrossTenantHits(start: Cache, x: Setting, attempts: nat, ghost open: seq<bool>)
    returns (c: Cache, hits: nat)
    requires Proper(x) && !start.mode.Open? && |open| == |Segments(x.tokens)| && Resident(start, x, open)
    ensures var p := ProbesOf(x, start.mode, open, Entries(start.file), attempts);
            hits == p.hits && |p.open| == |open| && Resident(c, x, p.open) && Entries(c.file) == p.charges
    ensures c.mode == start.mode && c.autoshare == start.autoshare
  {
    c, hits := start, 0;
    for i := 0 to attempts
      invariant var p := ProbesOf(x, start.mode, open, Entries(start.file), i);
        hits == p.hits && |p.open| == |open| && Resident(c, x, p.open) && Entries(c.file) == p.charges
      invariant c.mode == start.mode && c.autoshare == start.autoshare
    {
      ghost var p := ProbesOf(x, start.mode, open, Entries(start.file), i);
      if c.mode.Balanced? {
        ProbeBalanced(c, x, p.open);
      } else {
        ProbeStrict(c, x, p.open);
      }
      var out := Look(c, x.prober, x.tokens, ALL_SAVE);
      c := out.cache;
      if |out.slots| > 0 {
        hits := hits + 1;
      }
    }
  }

  function Total(hits: seq<nat>): nat {
    if hits == [] then 0 else Total(hits[..|hits| - 1]) + hits[|hits| - 1]
  }

  /** The hits each policy must show in cycle `i`, given what a fresh budget yields. */
  function CycleHits(policy: Policy, gain: nat, i: nat): nat {
    match policy
    case StrictOnly => 0
    case Durable => if i == 0 then gain else 0
    case PerResidency => gain
  }

  /** The state between two cycles. */
  ghost predicate BetweenCycles(c: Cache, x: Setting, policy: Policy, i: nat)
    requires Proper(x)
  {
    && Evicted(c, x) && c.mode == (if policy == StrictOnly then Strict else Balanced)
    && (policy == PerResidency || i == 0 ==> Entries(c.file) == map[])
    && (policy == Durable && i > 0 ==> Charge(Entries(c.file), Segments(x.tokens)[0]) >= x.budget)
  }

  /** The sweep: `hits[i]` are the cross-tenant hits of cycle i, for a prefix of any length. */
  method RunEvictionSweep(policy: Policy, x: Setting, cycles: nat) returns (hits: seq<nat>)
    requires Proper(x)
    ensures |hits| == cycles
    ensures forall i | 0 <= i < cycles :: hits[i] == CycleHits(policy, Yield(Segments(x.tokens), x.budget), i)
  {
    var mode := if policy == StrictOnly then Strict else Balanced;
    var c := Empty(mode, x.budget, false, Opened(true, Missing), Missing);
    hits := [];
    for i := 0 to cycles
      invariant |hits| == i
      invariant forall k | 0 <= k < i :: hits[k] == CycleHits(policy, Yield(Segments(x.tokens), x.budget), k)
      invariant BetweenCycles(c, x, policy, i)
    {
      var found;
      c, found := RunCycle(c, x, policy, i);
      hits := hits + [found];
    }
  }

  method RunCycle(start: Cache, x: Setting, policy: Policy, ghost i: nat) returns (c: Cache, hits: nat)
    requires Proper(x) && BetweenCycles(start, x, policy, i)
    ensures BetweenCycles(c, x, policy, i + 1)
    ensures hits == CycleHits(policy, Yield(Segments(x.tokens), x.budget), i)
  {
    InsertAndPromote(start, x);
    c := Promoted(Put(start, x.owner, x.tokens, x.slots).0, x);
    ghost var open := Opens(Segments(x.tokens), Entries(start.file), x.budget);
    CycleYields(x, Entries(start.file));
    c, hits := SimulateCrossTenantHits(c, x, x.budget + 2, open);
    c := EndCycle(c, x, policy);
  }

  /** Flush and eviction; the residency-scoped policy then forgets the charges. */
  method EndCycle(start: Cache, x: Setting, policy: Policy) returns (c: Cache)
    requires Proper(x) && Up(start.ledger, start.file) && start.budget == x.budget && !start.autoshare
    ensures Evicted(c, x) && c.mode == start.mode
    ensures policy == PerResidency ==> Entries(c.file) == map[]
    ensures policy != PerResidency ==> forall fp :: Charge(Entries(c.file), fp) == Charge(Entries(start.file), fp)
  {
    c := FlushAndEvict(start, x);
    if policy == PerResidency {
      var (ledger, file) := Cleared(c.ledger, c.file, true);
      c := c.(ledger := ledger, file := file);
    }
  }

  /** A fresh first segment yields what it yields and is spent; a spent one yields nothing. */
  lemma CycleYields(x: Setting, charges: Charges)
    requires Proper(x)
    ensures var fps := Segments(x.tokens);
            var p := Probes(fps, Opens(fps, charges, x.budget), charges, x.budget, x.budget + 2);
            && (charges == map[] ==> p.hits == Yield(fps, x.budget) && Charge(p.charges, fps[0]) == x.budget)
            && (Charge(charges, fps[0]) >= x.budget ==> p.hits == 0 && p.charges == charges)
  {
    var fps := Segments(x.tokens);
    YieldIsWithinBudget(fps, x.budget);
    ProbesBounds(fps, Opens(fps, charges, x.budget), charges, x.budget, x.budget + 2);
  }

  method FlushAndEvict(c: Cache, x: Setting) returns (c': Cache)
    requires Up(c.ledger, c.file)
    ensures c'.roots == map[] && c'.order == [] && Up(c'.ledger, c'.file)
    ensures c'.mode == c.mode && c'.budget == c.budget && c'.autoshare == c.autoshare
    ensures forall fp :: Charge(Entries(c'.file), fp) == Charge(Entries(c.file), fp)
  {
    var (ledger, file) := Flushed(c.ledger, c.file, true);
    FlushOfBehind(c.ledger, c.file, true);
    c' := c.(ledger := ledger, file := file, roots := map[], order := []);
  }

  // ----- totals -----

  /**
   Over every number of cycles: the durable ledger yields what a fresh budget yields once
   and for all, the residency-scoped one yields it in every cycle, Strict mode nothing.
   */
  lemma {:induction false} SweepTotals(policy: Policy, gain: nat, hits: seq<nat>)
    requires forall i | 0 <= i < |hits| :: hits[i] == CycleHits(policy, gain, i)
    ensures Total(hits) == match policy
                           case StrictOnly => 0
                           case Durable => (if hits == [] then 0 else gain)
                           case PerResidency => |hits| * gain
    ensures forall i | 0 <= i < |hits| :: hits[i] <= gain
  {
    if hits == [] {
    } else {
      SweepTotals(policy, gain, hits[..|hits| - 1]);
    }
  }

  /**
   The durable ledger yields exactly the budget, over any number of cycles, if and only if
   the first segment does not recur at a place that the first probe reaches.
   */
  lemma DurableIsExactIff(x: Setting, hits: seq<nat>)
    requires Proper(x) && hits != []
    requires forall i | 0 <= i < |hits| :: hits[i] == CycleHits(Durable, Yield(Segments(x.tokens), x.budget), i)
    ensures Total(hits) <= x.budget
    ensures Total(hits) == x.budget <==> !Recurs(Segments(x.tokens), x.budget)
  {
    SweepTotals(Durable, Yield(Segments(x.tokens), x.budget), hits);
    YieldIsWithinBudget(Segments(x.tokens), x.budget);
    YieldIsBudgetIff(Segments(x.tokens), x.budget);
  }

  /** In particular for every prefix of at most `CHUNK` tokens, which is a single segment. */
  lemma ShortPrefixIsExact(x: Setting)
    requires Proper(x) && |x.tokens| <= CHUNK
    ensures Yield(Segments(x.tokens), x.budget) == x.budget
  {
    assert |Segments(x.tokens)| == 1;
    YieldIsBudgetIff(Segments(x.tokens), x.budget);
  }

  /** One token repeated 2048 times: two equal segments, and a budget of ten yields five hits. */
  lemma RepeatedTokenYieldsHalf(t: Token)
    ensures var tokens := seq(2 * CHUNK, _ => t);
            Yield(Segments(tokens), 10) == 5
  {
    var tokens := seq(2 * CHUNK, _ => t);
    var s := seq(CHUNK, _ => t);
    assert tokens[..CHUNK] == s && tokens[CHUNK..] == s;
    assert Segments(tokens) == [s, s];
    EqualSegmentsHalve(s, 10);
  }
}
