/**
 What entries left over from earlier requests can change in the answer to a probe.

 A request looks its tokens up and then caches them for its user.  A probe is a full match
 if the answer covers every token it asked for.
 */
module ResidualCache {
  import opened Options
  import opened Ledger
  import opened CachePolicy
  import opened RadixTree
  import opened RadixLookup
  import opened LeafEviction
  import opened TreeShape
  import opened TenantCache

  /** A request that was made. */
  datatype Asked = Asked(user: User, key: seq<Token>)

  function Full(c: Cache, user: User, key: seq<Token>, saves: Oracle): bool
    requires Valid(c)
  {
    key != [] && |Look(c, user, key, saves).slots| == |key|
  }

  // ----- everything cached was asked for -----

  /** Every cached path begins a request of its tenant. */
  ghost predicate From(ref: Reference, asked: seq<Asked>) {
    forall u: User, p: seq<Token> | p in MapOf(ref, u) :: Requested(asked, u, p)
  }

  ghost predicate Requested(asked: seq<Asked>, u: User, p: seq<Token>) {
    exists k | 0 <= k < |asked| :: asked[k].user == u && p <= asked[k].key
  }

  function Noted(asked: seq<Asked>, op: Op): seq<Asked> {
    if op.Ins? then asked + [Asked(op.user, op.key)] else asked
  }

  lemma RequestedMore(asked: seq<Asked>, more: Asked, u: User, p: seq<Token>)
    ensures Requested(asked, u, p) ==> Requested(asked + [more], u, p)
    ensures more.user == u && p <= more.key ==> Requested(asked + [more], u, p)
  {
    if Requested(asked, u, p) {
      var k :| 0 <= k < |asked| && asked[k].user == u && p <= asked[k].key;
      assert (asked + [more])[k] == asked[k];
    }
    assert (asked + [more])[|asked|] == more;
  }

  lemma StepFrom(ref: Reference, op: Op, asked: seq<Asked>)
    requires From(ref, asked) && WellSized(op)
    ensures From(RefStep(ref, op), Noted(asked, op))
  {
    forall u: User, p: seq<Token> | p in MapOf(RefStep(ref, op), u)
      ensures Requested(Noted(asked, op), u, p)
    {
      if op.Ins? {
        RequestedMore(asked, Asked(op.user, op.key), u, p);
        if u == op.user && p !in MapOf(ref, u) {
          assert p <= op.key;
        }
      } else {
        assert p in MapOf(ref, u);
      }
    }
  }

  /** All requests of a run. */
  function AllAsked(run: seq<Op>): seq<Asked> {
    if run == [] then [] else (if run[0].Ins? then [Asked(run[0].user, run[0].key)] else []) + AllAsked(run[1..])
  }

  lemma {:induction false} RunFrom(ref: Reference, run: seq<Op>, asked: seq<Asked>)
    requires From(ref, asked) && forall op | op in run :: WellSized(op)
    ensures From(RefExec(ref, run), asked + AllAsked(run))
    decreases |run|
  {
    if run == [] {
      assert asked + [] == asked;
    } else {
      assert run[0] in run && forall op | op in run[1..] :: op in run;
      StepFrom(ref, run[0], asked);
      RunFrom(RefStep(ref, run[0]), run[1..], Noted(asked, run[0]));
      NotedFirst(asked, run);
    }
  }

  lemma NotedFirst(asked: seq<Asked>, run: seq<Op>)
    requires run != []
    ensures Noted(asked, run[0]) + AllAsked(run[1..]) == asked + AllAsked(run)
  {
    var first := if run[0].Ins? then [Asked(run[0].user, run[0].key)] else [];
    var rest := AllAsked(run[1..]);
    assert Noted(asked, run[0]) == asked + first && AllAsked(run) == first + rest;
    Regroup(asked, first, rest);
  }

  lemma Regroup(a: seq<Asked>, b: seq<Asked>, c: seq<Asked>)
    ensures (a + b) + c == a + (b + c)
  {
  }

  // ----- a full match needs a request -----

  lemma {:induction false} CachedPrefixes(kids: Children, path: seq<Token>, j: nat)
    requires WellFormed(kids) && Lookup(kids, path).Some? && 1 <= j <= |path|
    ensures Lookup(kids, path[..j]).Some?
    decreases |path|
  {
    var c := kids[Head(path)];
    assert Head(path[..j]) == Head(path);
    if j <= |c.key| {
      if |path| <= |c.key| {
        assert path[..j] == c.key[..j];
      } else {
        assert path[..j] == path[..|c.key|][..j] == c.key[..j];
      }
    } else {
      CachedPrefixes(c.children, path[|c.key|..], j - |c.key|);
      assert path[..j][..|c.key|] == c.key;
      assert path[..j][|c.key|..] == path[|c.key|..][..j - |c.key|];
    }
  }

  lemma FullInTree(c: Cache, ref: Reference, user: User, owner: User, key: seq<Token>, saves: Oracle)
    requires Valid(c) && Represents(c, ref) && owner in c.roots && key != []
    requires |LookIn(c, user, owner, key, saves).slots| == |key|
    ensures key in MapOf(ref, owner)
  {
    var slots := LookIn(c, user, owner, key, saves).slots;
    FindReturnsCached(c.roots[owner], key, RequestFor(c, user, owner, saves), c.ledger, c.file, 0);
    assert key[..|key| - 1 + 1] == key;
    assert Lookup(c.roots[owner], key) == Some(slots[|key| - 1]);
    assert TreeRepresents(Tree(c, owner), MapOf(ref, owner));
  }

  lemma {:induction false} FullAmong(
    c: Cache, ref: Reference, user: User, owners: seq<User>, key: seq<Token>, saves: Oracle)
    requires Valid(c) && Represents(c, ref) && key != []
    requires |LookAmong(c, user, owners, key, saves).slots| == |key|
    ensures exists u: User :: key in MapOf(ref, u)
    decreases |owners|
  {
    if owners == [] {
    } else if owners[0] == user || owners[0] !in c.roots {
      FullAmong(c, ref, user, owners[1..], key, saves);
    } else {
      LookInRepresents(c, ref, user, owners[0], key, saves);
      var first := LookIn(c, user, owners[0], key, saves);
      if first.slots != [] {
        FullInTree(c, ref, user, owners[0], key, saves);
      } else {
        FullAmong(first.cache, ref, user, owners[1..], key, saves);
      }
    }
  }

  /**
   A full match needs the tokens in somebody's prefix map.  Outside Balanced mode, and
   whenever the prober has cached anything that begins the probe, it needs them, exactly, in
   the prober's own.
   */
  lemma FullNeedsEntry(c: Cache, ref: Reference, user: User, key: seq<Token>, saves: Oracle)
    requires Valid(c) && Represents(c, ref) && !c.mode.Open? && user != "" && key != []
    ensures Full(c, user, key, saves) ==> exists u: User :: key in MapOf(ref, u)
    ensures c.mode.Strict? || key[..1] in MapOf(ref, user) ==> (Full(c, user, key, saves) <==> key in MapOf(ref, user))
  {
    ProbeRefines(c, ref, user, key, saves);
    OwnAnswer(c, ref, user, key);
    if user in c.roots {
      LookInRepresents(c, ref, user, user, key, saves);
      var own := LookIn(c, user, user, key, saves);
      if own.slots != [] || !c.mode.Balanced? {
        if Full(c, user, key, saves) {
          FullInTree(c, ref, user, user, key, saves);
        }
      } else if Full(c, user, key, saves) {
        FullAmong(own.cache, ref, user, c.order, key, saves);
      }
    } else if c.mode.Balanced? && Full(c, user, key, saves) {
      FullAmong(c, ref, user, c.order, key, saves);
    }
  }

  /** How far the prober's own entries go. */
  lemma OwnAnswer(c: Cache, ref: Reference, user: User, key: seq<Token>)
    requires Valid(c) && Represents(c, ref) && key != []
    ensures var own := Longest(MapOf(ref, user), key, 0);
            && (own != [] <==> key[..1] in MapOf(ref, user))
            && (|own| == |key| <==> key in MapOf(ref, user))
  {
    assert TreeRepresents(Tree(c, user), MapOf(ref, user));
    if key in MapOf(ref, user) {
      forall j | 1 <= j <= |key|
        ensures key[..j] in MapOf(ref, user)
      {
        CachedPrefixes(Tree(c, user), key, j);
      }
    }
    LongestFull(MapOf(ref, user), key, 0);
  }

  lemma {:induction false} LongestFull(m: PrefixMap, key: seq<Token>, from: nat)
    requires from <= |key|
    ensures |Longest(m, key, from)| <= |key| - from
    ensures (forall j | from < j <= |key| :: key[..j] in m) ==> |Longest(m, key, from)| == |key| - from
    ensures |Longest(m, key, from)| == |key| - from && from < |key| ==> key in m
    decreases |key| - from
  {
    if from == |key| {
    } else {
      LongestFull(m, key, from + 1);
      assert key[..|key|] == key;
    }
  }

  /**
   Over every run from the empty cache, in either protected mode and whatever was flushed,
   evicted or relabelled: a probe is a full match only if some request began with its
   tokens, in Strict mode one of the prober's own.
   */
  lemma FullNeedsRequest(c: Cache, run: seq<Op>, user: User, key: seq<Token>, saves: Oracle)
    requires c.roots == map[] && !c.mode.Open? && Legal(c, run) && user != "" && key != []
    ensures Valid(Exec(c, run))
    ensures Full(Exec(c, run), user, key, saves) ==>
      exists u: User :: Requested(AllAsked(run), u, key) && (c.mode.Strict? ==> u == user)
  {
    LegalIsWellSized(c, run);
    RunRefines(c, map[], run);
    ExecMode(c, run);
    RunFrom(map[], run, []);
    assert [] + AllAsked(run) == AllAsked(run);
    FullNeedsEntry(Exec(c, run), RefExec(map[], run), user, key, saves);
  }

  lemma {:induction false} ExecMode(c: Cache, run: seq<Op>)
    requires Valid(c) && Legal(c, run)
    ensures Exec(c, run).mode == c.mode
    decreases |run|
  {
    if run == [] {
    } else {
      StepValid(c, run[0]);
      StepMode(c, run[0]);
      ExecMode(Step(c, run[0]), run[1..]);
    }
  }

  // ----- flushing or not -----

  /** One request: look the tokens up, then cache them. */
  function Serve(c: Cache, user: User, key: seq<Token>, value: seq<Slot>, saves: Oracle): Cache
    requires Valid(c) && |key| == |value|
  {
    LookValid(c, user, key, saves);
    Put(Look(c, user, key, saves).cache, user, key, value).0
  }

  function Emptied(c: Cache): Cache {
    c.(roots := map[], order := [])
  }

  /** In no tree does a node that `user` may see begin with the first token of `key`. */
  predicate Unseen(c: Cache, user: User, key: seq<Token>)
    requires key != []
  {
    forall u | u in c.roots ::
      Head(key) !in c.roots[u] || !VisibleTo(c.roots[u][Head(key)].tag, c.mode, user)
  }

  /** A lookup that may see nothing on its way observes nothing and leaves the whole cache as it is. */
  lemma UnseenIsUntouched(c: Cache, user: User, key: seq<Token>, saves: Oracle)
    requires Valid(c) && key != [] && Unseen(c, user, key)
    ensures Look(c, user, key, saves) == LookOutcome(c, [], [])
  {
    if user in c.roots {
      UnseenTree(c, user, user, key, saves);
    }
    UnseenAmong(c, user, c.order, key, saves);
  }

  lemma UnseenTree(c: Cache, user: User, owner: User, key: seq<Token>, saves: Oracle)
    requires Valid(c) && key != [] && owner in c.roots
    requires Head(key) !in c.roots[owner] || !VisibleTo(c.roots[owner][Head(key)].tag, c.mode, user)
    ensures LookIn(c, user, owner, key, saves) == LookOutcome(c, [], [])
  {
    assert c.roots[owner := c.roots[owner]] == c.roots;
  }

  lemma {:induction false} UnseenAmong(c: Cache, user: User, owners: seq<User>, key: seq<Token>, saves: Oracle)
    requires Valid(c) && key != [] && Unseen(c, user, key)
    ensures LookAmong(c, user, owners, key, saves) == LookOutcome(c, [], [])
    decreases |owners|
  {
    if owners == [] {
    } else {
      UnseenAmong(c, user, owners[1..], key, saves);
      if owners[0] != user && owners[0] in c.roots {
        UnseenTree(c, user, owners[0], key, saves);
      }
    }
  }

  /** The first tree that shows anything gives the answer, whatever later trees hold. */
  lemma {:induction false} FirstSeenDecides(
    c: Cache, user: User, before: seq<User>, owner: User, after: seq<User>, key: seq<Token>, saves: Oracle)
    requires Valid(c) && key != [] && owner in c.roots && owner != user
    requires forall u | u in before && u in c.roots && u != user ::
      Head(key) !in c.roots[u] || !VisibleTo(c.roots[u][Head(key)].tag, c.mode, user)
    requires LookIn(c, user, owner, key, saves).slots != []
    ensures LookAmong(c, user, before + ([owner] + after), key, saves) == LookIn(c, user, owner, key, saves)
    decreases |before|
  {
    if before == [] {
      assert [] + ([owner] + after) == [owner] + after;
    } else {
      var owners := before + ([owner] + after);
      assert owners[0] == before[0] && owners[1..] == before[1..] + ([owner] + after);
      FirstSeenDecides(c, user, before[1..], owner, after, key, saves);
      if before[0] != user && before[0] in c.roots {
        assert before[0] in before;
        UnseenTree(c, user, before[0], key, saves);
      }
    }
  }

  /** Only the tree of `owner`, asked last, has anything to show. */
  lemma {:induction false} OnlyOneSeen(
    c: Cache, user: User, owners: seq<User>, owner: User, key: seq<Token>, saves: Oracle)
    requires Valid(c) && key != [] && owner in c.roots && owner != user && owner !in owners
    requires forall u | u in c.roots && u != owner ::
      Head(key) !in c.roots[u] || !VisibleTo(c.roots[u][Head(key)].tag, c.mode, user)
    ensures LookAmong(c, user, owners + [owner], key, saves).slots == LookIn(c, user, owner, key, saves).slots
    decreases |owners|
  {
    if owners == [] {
      LookInValid(c, user, owner, key, saves);
      assert ([] + [owner])[1..] == [];
    } else {
      assert (owners + [owner])[1..] == owners[1..] + [owner];
      OnlyOneSeen(c, user, owners[1..], owner, key, saves);
      if owners[0] != user && owners[0] in c.roots {
        UnseenTree(c, user, owners[0], key, saves);
      }
    }
  }

  /**
   If no leftover that the victim or the prober may see begins with the first token of the
   target, then after the victim's request for the target the probe gets the same answer
   whether or not the cache was flushed before: in Strict mode nothing, in Balanced mode what
   the victim's tree gives.
   */
  lemma FlushDoesNotMatter(
    c: Cache, victim: User, prober: User, target: seq<Token>, value: seq<Slot>, saves: Oracle, probes: Oracle)
    requires Valid(c) && !c.mode.Open? && target != [] && |target| == |value|
    requires victim != "" && prober != "" && victim != prober && victim !in c.roots && victim !in c.order
    requires Unseen(c, victim, target) && Unseen(c, prober, target)
    ensures Valid(Serve(c, victim, target, value, saves)) && Valid(Serve(Emptied(c), victim, target, value, saves))
    ensures Look(Serve(c, victim, target, value, saves), prober, target, probes).slots ==
      Look(Serve(Emptied(c), victim, target, value, saves), prober, target, probes).slots
  {
    UnseenIsUntouched(c, victim, target, saves);
    UnseenIsUntouched(Emptied(c), victim, target, saves);
    StepValid(c, Ins(victim, target, value));
    StepValid(Emptied(c), Ins(victim, target, value));
    ProbeAfterVictim(c, victim, prober, target, value, probes);
    ProbeAfterVictim(Emptied(c), victim, prober, target, value, probes);
    var kept, emptied := Put(c, victim, target, value).0, Put(Emptied(c), victim, target, value).0;
    assert kept.roots[victim] == emptied.roots[victim];
  }

  lemma ProbeAfterVictim(
    c: Cache, victim: User, prober: User, target: seq<Token>, value: seq<Slot>, probes: Oracle)
    requires Valid(c) && !c.mode.Open? && target != [] && |target| == |value|
    requires victim != "" && prober != "" && victim != prober && victim !in c.roots && victim !in c.order
    requires Unseen(c, prober, target) && Valid(Put(c, victim, target, value).0)
    ensures var c' := Put(c, victim, target, value).0;
            Look(c', prober, target, probes).slots ==
              if c.mode.Balanced? then LookIn(c', prober, victim, target, probes).slots else []
  {
    var c' := Put(c, victim, target, value).0;
    if prober in c'.roots {
      UnseenTree(c', prober, prober, target, probes);
    }
    OnlyOneSeen(c', prober, c.order, victim, target, probes);
  }

  /**
   Otherwise a leftover can turn a hit into a miss: a prober that has cached the first token
   of the target but not the target is answered from its own tree, whoever else has it.
   */
  lemma OwnResidueShadows(c: Cache, ref: Reference, user: User, key: seq<Token>, saves: Oracle)
    requires Valid(c) && Represents(c, ref) && !c.mode.Open? && user != "" && key != []
    requires key[..1] in MapOf(ref, user) && key !in MapOf(ref, user)
    ensures !Full(c, user, key, saves)
  {
    FullNeedsEntry(c, ref, user, key, saves);
  }

  /**
   One request on an empty server in either protected mode: a later probe by the same user is
   a full match exactly when the request began with its tokens.
   */
  lemma OwnRequestServesIff(
    c: Cache, user: User, sent: seq<Token>, value: seq<Slot>, key: seq<Token>, saves: Oracle, probes: Oracle)
    requires !c.mode.Open? && c.roots == map[] && user != "" && |sent| == |value| && sent != [] && key != []
    ensures Valid(Serve(c, user, sent, value, saves))
    ensures Full(Serve(c, user, sent, value, saves), user, key, probes) <==> key <= sent
  {
    UnseenIsUntouched(c, user, sent, saves);
    PutRefines(c, map[], user, sent, value);
    StepMode(c, Ins(user, sent, value));
    ServedFromOwn(Serve(c, user, sent, value, saves), user, sent, value, key, probes);
  }

  lemma ServedFromOwn(
    c: Cache, user: User, sent: seq<Token>, value: seq<Slot>, key: seq<Token>, probes: Oracle)
    requires Valid(c) && !c.mode.Open? && user != "" && |sent| == |value| && key != []
    requires Represents(c, (map[])[user := Extend(map[], sent, value)])
    ensures Full(c, user, key, probes) <==> key <= sent
  {
    var ref: Reference := (map[])[user := Extend(map[], sent, value)];
    FullNeedsEntry(c, ref, user, key, probes);
    Extended(sent, value, key);
    Extended(sent, value, key[..1]);
    assert key <= sent ==> key[..1] <= sent;
    assert forall u: User :: u != user ==> MapOf(ref, u) == map[];
  }

  lemma Extended(sent: seq<Token>, value: seq<Slot>, p: seq<Token>)
    requires |sent| == |value| && p != []
    ensures p in Extend(map[], sent, value) <==> p <= sent
  {
    assert p <= sent ==> p == sent[..|p|];
  }

  // ----- one shared request -----

  /** A server that shares what it caches, empty and with a working ledger. */
  ghost predicate SharingServer(c: Cache) {
    && c.mode.Balanced? && c.autoshare && c.roots == map[] && c.order == [] && c.budget > 0
    && c.ledger.backed && c.ledger.Operational() && !c.file.Corrupt?
  }

  /**
   Exactly when a probe is a full match after one shared request with budget left: when the
   request begins with its tokens.  The ledger is charged for that request's tokens only.
   */
  lemma SharedRequestServesIff(
    c: Cache, victim: User, prober: User, sent: seq<Token>, value: seq<Slot>, key: seq<Token>,
    saves: Oracle, probes: Oracle)
    requires SharingServer(c) && 0 < |sent| == |value| <= CHUNK && key != [] && forall u, d :: probes(u, d)
    requires victim != "" && prober != "" && victim != prober
    ensures Valid(Serve(c, victim, sent, value, saves))
    ensures var c' := Serve(c, victim, sent, value, saves);
            Charge(Entries(c.file), sent) < c.budget ==> (Full(c', prober, key, probes) <==> key <= sent)
    ensures var after := Look(Serve(c, victim, sent, value, saves), prober, key, probes).cache;
            && after.ledger.backed && after.ledger.Operational() && !after.file.Corrupt?
            && after.mode == c.mode && after.budget == c.budget && after.autoshare == c.autoshare
            && forall fp :: fp != sent ==> Charge(Entries(after.file), fp) == Charge(Entries(c.file), fp)
  {
    var tag := Label(By(victim), BudgetedShared, 0, false);
    var n := Node(sent, value, tag, 0, map[]);
    UnseenIsUntouched(c, victim, sent, saves);
    StepValid(c, Ins(victim, sent, value));
    var c' := Serve(c, victim, sent, value, saves);
    assert Chain(sent, value, tag) == n;
    assert c'.roots == map[victim := map[Head(sent) := n]] && c'.order == [victim];
    var found := LookIn(c', prober, victim, key, probes);
    OnlyOneSeen(c', prober, [], victim, key, probes);
    assert [] + [victim] == [victim];
    LookInValid(c', prober, victim, key, probes);
    assert LookAmong(found.cache, prober, [], key, probes) == LookOutcome(found.cache, [], []);
    assert [victim][1..] == [];
    assert Look(c', prober, key, probes).cache == found.cache;
    OneNodeFound(n, victim, key, RequestFor(c', prober, victim, probes), c'.ledger, c'.file);
  }

  /** A lookup in a tree of one shared node. */
  lemma OneNodeFound(n: Node, owner: User, key: seq<Token>, req: Request, ledger: Instance, file: File)
    requires WellFormedNode(n) && n.children == map[] && key != [] && req.user != owner && req.mode.Balanced?
    requires n.tag == Label(By(owner), BudgetedShared, 0, false) && req.saves(0)
    requires ledger.backed && ledger.Operational() && !file.Corrupt?
    ensures WellFormed(map[Head(n.key) := n])
    ensures var out := Find(map[Head(n.key) := n], key, req, ledger, file, 0);
            && (Charge(Entries(file), n.key) < req.budget ==> out.slots == n.value[..Common(n.key, key)])
            && out.ledger.backed && out.ledger.Operational() && !out.file.Corrupt?
            && forall fp :: fp != n.key ==> Charge(Entries(out.file), fp) == Charge(Entries(file), fp)
    ensures Common(n.key, key) == |key| <==> key <= n.key
  {
    var m := Common(n.key, key);
    if Head(key) != Head(n.key) {
      assert m == 0 && !(key <= n.key);
    } else {
      ReserveEffect(ledger, file, n.key, req.budget, true);
      var o := Admit(n, req, ledger, file, 0);
      FindRefused(map[Head(n.key) := n], key, req, ledger, file, 0);
      if o.granted && m == |n.key| {
        assert Find(map[], key[m..], req, o.ledger, o.file, 1) == FindOutcome(map[], [], [], o.ledger, o.file);
        assert n.value[..m] == n.value;
      }
    }
    assert key <= n.key ==> forall k | 0 <= k < |key| :: n.key[k] == key[k];
  }

  /**
   A skipped flush does turn a hit into a miss: whatever leftover of the prober shares the
   target's first token without beginning with the target, the probe after the victim's
   request is no full match, but it is one after a flush.
   */
  lemma SkippedFlushHidesHit(
    c: Cache, victim: User, prober: User, left: seq<Token>, leftValue: seq<Slot>, target: seq<Token>, value: seq<Slot>,
    saves: Oracle)
    requires SharingServer(c) && forall u, d :: saves(u, d)
    requires victim != "" && prober != "" && victim != prober
    requires 0 < |left| == |leftValue| && 0 < |target| == |value| <= CHUNK
    requires Head(left) == Head(target) && !(target <= left) && Charge(Entries(c.file), target) < c.budget
    ensures Valid(Serve(c, prober, left, leftValue, saves))
    ensures var c' := Serve(c, prober, left, leftValue, saves);
            && Valid(Serve(c', victim, target, value, saves)) && Valid(Serve(Emptied(c'), victim, target, value, saves))
            && !Full(Serve(c', victim, target, value, saves), prober, target, saves)
            && Full(Serve(Emptied(c'), victim, target, value, saves), prober, target, saves)
  {
    UnseenIsUntouched(c, prober, left, saves);
    PutRefines(c, map[], prober, left, leftValue);
    var c' := Serve(c, prober, left, leftValue, saves);
    SharedRequestServesIff(Emptied(c'), victim, prober, target, value, target, saves, saves);
    LeftoverHides(c', victim, prober, left, leftValue, target, value, saves);
  }

  lemma LeftoverHides(
    c: Cache, victim: User, prober: User, left: seq<Token>, leftValue: seq<Slot>, target: seq<Token>, value: seq<Slot>,
    saves: Oracle)
    requires Valid(c) && c.mode.Balanced? && |left| == |leftValue| && 0 < |target| == |value| && left != []
    requires victim != "" && prober != "" && victim != prober && Head(left) == Head(target) && !(target <= left)
    requires Represents(c, (map[])[prober := Extend(map[], left, leftValue)])
    ensures Valid(Serve(c, victim, target, value, saves))
    ensures !Full(Serve(c, victim, target, value, saves), prober, target, saves)
  {
    var own: Reference := (map[])[prober := Extend(map[], left, leftValue)];
    ProbeRefines(c, own, victim, target, saves);
    StepMode(c, Probe(victim, target, saves));
    var seen := Look(c, victim, target, saves).cache;
    PutRefines(seen, own, victim, target, value);
    StepMode(seen, Ins(victim, target, value));
    Extended(left, leftValue, target);
    Extended(left, leftValue, target[..1]);
    assert target[..1] == left[..1];
    OwnResidueShadows(Serve(c, victim, target, value, saves), own[victim := Extend(map[], target, value)],
                      prober, target, saves);
  }

  // ----- requests and their effect -----

  lemma ServeValid(c: Cache, user: User, key: seq<Token>, value: seq<Slot>, saves: Oracle)
    requires Valid(c) && |key| == |value|
    ensures Valid(Serve(c, user, key, value, saves))
  {
    LookValid(c, user, key, saves);
    StepValid(Look(c, user, key, saves).cache, Ins(user, key, value));
  }

  lemma ServeRefines(c: Cache, ref: Reference, user: User, key: seq<Token>, value: seq<Slot>, saves: Oracle)
    requires Valid(c) && Represents(c, ref) && |key| == |value| && user != ""
    ensures var c' := Serve(c, user, key, value, saves);
            && Valid(c') && Represents(c', ref[user := Extend(MapOf(ref, user), key, value)]) && c'.mode == c.mode
  {
    ProbeRefines(c, ref, user, key, saves);
    StepMode(c, Probe(user, key, saves));
    var seen := Look(c, user, key, saves).cache;
    PutRefines(seen, ref, user, key, value);
    StepMode(seen, Ins(user, key, value));
  }
}
