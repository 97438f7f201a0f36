/**
 The cache of several tenants: one radix tree per principal, lookups that try the
 principal's own tree first and, in Balanced mode, the shared nodes of the others.

 Over whole runs, the trees are proved to represent one prefix map per tenant, Strict
 mode to be free of interference between tenants, and Balanced mode to charge the
 ledger for exactly the shared nodes it exposed.
 */
module TenantCache {
  import opened Options
  import opened Ledger
  import opened CachePolicy
  import opened RadixTree
  import opened RadixLookup
  import opened LeafEviction
  import opened TreeShape

  /** `order` lists the principals in the order their trees were created. */
  datatype Cache = Cache(
    mode: Mode, budget: nat, autoshare: bool,
    roots: map<User, Children>, order: seq<User>, ledger: Instance, file: File)

  datatype LookOutcome = LookOutcome(cache: Cache, slots: seq<Slot>, served: seq<Served>)

  /** Which writes of the ledger succeed, by the owner of the tree and the depth of the node. */
  type Oracle = (User, nat) -> bool

  const ALL_SAVE: Oracle := (u: User, d: nat) => true

  predicate Valid(c: Cache) {
    forall u | u in c.roots :: WellFormed(c.roots[u]) && OwnedBy(c.roots[u], By(u))
  }

  function Tree(c: Cache, u: User): Children {
    if u in c.roots then c.roots[u] else map[]
  }

  function RequestFor(c: Cache, user: User, owner: User, saves: Oracle): Request {
    Request(user, c.mode, c.budget, (d: nat) => saves(owner, d))
  }

  /** One lookup in the tree of `owner`. */
  function LookIn(c: Cache, user: User, owner: User, key: seq<Token>, saves: Oracle): LookOutcome
    requires Valid(c) && owner in c.roots
  {
    var out := Find(c.roots[owner], key, RequestFor(c, user, owner, saves), c.ledger, c.file, 0);
    LookOutcome(c.(roots := c.roots[owner := out.kids], ledger := out.ledger, file := out.file), out.slots, out.served)
  }

  lemma LookInValid(c: Cache, user: User, owner: User, key: seq<Token>, saves: Oracle)
    requires Valid(c) && owner in c.roots
    ensures Valid(LookIn(c, user, owner, key, saves).cache)
  {
    var req := RequestFor(c, user, owner, saves);
    FindWellFormed(c.roots[owner], key, req, c.ledger, c.file, 0);
    FindKeepsOwner(c.roots[owner], key, req, c.ledger, c.file, 0, By(owner));
  }

  /** The trees of the other principals in turn, up to the first that serves anything. */
  function LookAmong(c: Cache, user: User, owners: seq<User>, key: seq<Token>, saves: Oracle): LookOutcome
    requires Valid(c)
    decreases |owners|
  {
    if owners == [] then LookOutcome(c, [], [])
    else if owners[0] == user || owners[0] !in c.roots then LookAmong(c, user, owners[1..], key, saves)
    else
      LookInValid(c, user, owners[0], key, saves);
      var first := LookIn(c, user, owners[0], key, saves);
      if first.slots != [] then first else LookAmong(first.cache, user, owners[1..], key, saves)
  }

  /** `match_prefix` without a public authorization. */
  function Look(c: Cache, user: User, key: seq<Token>, saves: Oracle): LookOutcome
    requires Valid(c)
  {
    if key == [] || user == "" then LookOutcome(c, [], [])
    else
      var own := if user in c.roots then LookIn(c, user, user, key, saves) else LookOutcome(c, [], []);
      if own.slots != [] || !c.mode.Balanced? then own
      else
        assert Valid(own.cache) by { if user in c.roots { LookInValid(c, user, user, key, saves); } }
        LookAmong(own.cache, user, c.order, key, saves)
  }

  /** `insert` without a public authorization; a missing principal is refused. */
  function Put(c: Cache, user: User, key: seq<Token>, value: seq<Slot>): (Cache, nat)
    requires Valid(c) && |key| == |value|
  {
    if user == "" then (c, 0)
    else
      var visibility := if c.autoshare && c.mode.Balanced? then BudgetedShared else Private;
      var out := Insert(Tree(c, user), key, value, Label(By(user), visibility, 0, false));
      (c.(roots := c.roots[user := out.kids], order := if user in c.roots then c.order else c.order + [user]),
        out.matched)
  }

  /**
   `Relabel` stands for promotion, detection and any other change of labels; `Recover`
   for any change of the ledger object's own memory or availability.  `EvictLeaf` removes
   the leaf that ends `path` from the tree of one principal.
   */
  datatype Op =
    | Ins(user: User, key: seq<Token>, value: seq<Slot>)
    | Probe(user: User, key: seq<Token>, saves: Oracle)
    | Relabel(user: User, tree: Children)
    | Recover(ledger: Instance)
    | EvictLeaf(user: User, path: seq<Token>, above: nat)
    | EvictAll

  predicate Enabled(c: Cache, op: Op) {
    match op
    case Ins(_, key, value) => |key| == |value|
    case Probe(_, _, _) => true
    case Relabel(u, tree) => u in c.roots && SameTree(c.roots[u], tree)
    case Recover(ledger) => ledger.backed
    case EvictLeaf(u, path, above) => u in c.roots && LeafAt(c.roots[u], path, above)
    case EvictAll => true
  }

  /** What a principal sees of its own operation. */
  datatype Answer = Length(user: User, matched: nat) | Found(user: User, slots: seq<Slot>)

  function Step(c: Cache, op: Op): Cache
    requires Valid(c) && Enabled(c, op)
  {
    match op
    case Ins(u, key, value) => Put(c, u, key, value).0
    case Probe(u, key, saves) => Look(c, u, key, saves).cache
    case Relabel(u, tree) => c.(roots := c.roots[u := tree])
    case Recover(ledger) => c.(ledger := ledger)
    case EvictLeaf(u, path, above) => c.(roots := c.roots[u := Prune(c.roots[u], path, above)])
    case EvictAll => c.(roots := map[], order := [])
  }

  function Output(c: Cache, op: Op): seq<Answer>
    requires Valid(c) && Enabled(c, op)
  {
    match op
    case Ins(u, key, value) => [Length(u, Put(c, u, key, value).1)]
    case Probe(u, key, saves) => [Found(u, Look(c, u, key, saves).slots)]
    case _ => []
  }

  function Exposed(c: Cache, op: Op): seq<Served>
    requires Valid(c) && Enabled(c, op)
  {
    if op.Probe? then Look(c, op.user, op.key, op.saves).served else []
  }

  // ----- every operation keeps the trees valid -----

  lemma {:induction false} LookAmongValid(c: Cache, user: User, owners: seq<User>, key: seq<Token>, saves: Oracle)
    requires Valid(c)
    ensures Valid(LookAmong(c, user, owners, key, saves).cache)
    decreases |owners|
  {
    if owners == [] {
    } else {
      if owners[0] == user || owners[0] !in c.roots {
        LookAmongValid(c, user, owners[1..], key, saves);
      } else {
        LookInValid(c, user, owners[0], key, saves);
        LookAmongValid(LookIn(c, user, owners[0], key, saves).cache, user, owners[1..], key, saves);
      }
    }
  }

  lemma LookValid(c: Cache, user: User, key: seq<Token>, saves: Oracle)
    requires Valid(c)
    ensures Valid(Look(c, user, key, saves).cache)
  {
    if user in c.roots {
      LookInValid(c, user, user, key, saves);
      LookAmongValid(LookIn(c, user, user, key, saves).cache, user, c.order, key, saves);
    } else {
      LookAmongValid(c, user, c.order, key, saves);
    }
  }

  lemma StepValid(c: Cache, op: Op)
    requires Valid(c) && Enabled(c, op)
    ensures Valid(Step(c, op))
  {
    match op
    case Ins(u, key, value) =>
      var visibility := if c.autoshare && c.mode.Balanced? then BudgetedShared else Private;
      InsertOk(Tree(c, u), key, value, Label(By(u), visibility, 0, false));
    case Probe(u, key, saves) => LookValid(c, u, key, saves);
    case Relabel(u, tree) => SameTreeOk(c.roots[u], tree, By(u));
    case EvictLeaf(u, path, above) => PruneOk(c.roots[u], path, above, By(u));
    case Recover(_) =>
    case EvictAll =>
  }

  predicate Legal(c: Cache, run: seq<Op>)
    requires Valid(c)
    decreases |run|
  {
    run == [] || (Enabled(c, run[0]) && (StepValid(c, run[0]); Legal(Step(c, run[0]), run[1..])))
  }

  function Exec(c: Cache, run: seq<Op>): Cache
    requires Valid(c) && Legal(c, run)
    decreases |run|
  {
    if run == [] then c else StepValid(c, run[0]); Exec(Step(c, run[0]), run[1..])
  }

  function Answers(c: Cache, run: seq<Op>): seq<Answer>
    requires Valid(c) && Legal(c, run)
    decreases |run|
  {
    if run == [] then [] else StepValid(c, run[0]); Output(c, run[0]) + Answers(Step(c, run[0]), run[1..])
  }

  function AllExposed(c: Cache, run: seq<Op>): seq<Served>
    requires Valid(c) && Legal(c, run)
    decreases |run|
  {
    if run == [] then [] else StepValid(c, run[0]); Exposed(c, run[0]) + AllExposed(Step(c, run[0]), run[1..])
  }

  function Empty(mode: Mode, budget: nat, autoshare: bool, ledger: Instance, file: File): Cache {
    Cache(mode, budget, autoshare, map[], [], ledger, file)
  }

  // ----- the reference: one prefix map per tenant -----

  type PrefixMap = map<seq<Token>, Slot>

  type Reference = map<User, PrefixMap>

  function MapOf(ref: Reference, u: User): PrefixMap {
    if u in ref then ref[u] else map[]
  }

  /** Adds the missing non-empty prefixes of `key`; prefixes already present keep their slot. */
  function Extend(m: PrefixMap, key: seq<Token>, value: seq<Slot>): PrefixMap
    requires |key| == |value|
  {
    map p | p in m.Keys + (set j | 1 <= j <= |key| :: key[..j]) :: if p in m then m[p] else value[|p| - 1]
  }

  /** The slots of the longest prefix of `key` all of whose prefixes are present. */
  function Longest(m: PrefixMap, key: seq<Token>, from: nat): seq<Slot>
    requires from <= |key|
    decreases |key| - from
  {
    if from < |key| && key[..from + 1] in m then [m[key[..from + 1]]] + Longest(m, key, from + 1) else []
  }

  /** The map without the prefixes of `path` longer than `above`. */
  function Shortened(m: PrefixMap, path: seq<Token>, above: nat): PrefixMap {
    map p | p in m && !(above < |p| && p <= path) :: m[p]
  }

  predicate WellSized(op: Op) {
    op.Ins? ==> |op.key| == |op.value|
  }

  function RefStep(ref: Reference, op: Op): Reference
    requires WellSized(op)
  {
    match op
    case Ins(u, key, value) => if u == "" then ref else ref[u := Extend(MapOf(ref, u), key, value)]
    case EvictLeaf(u, path, above) => ref[u := Shortened(MapOf(ref, u), path, above)]
    case EvictAll => map[]
    case _ => ref
  }

  function RefOutput(ref: Reference, op: Op): seq<Answer> {
    match op
    case Ins(u, key, _) => [Length(u, if u == "" then 0 else |Longest(MapOf(ref, u), key, 0)|)]
    case Probe(u, key, _) => [Found(u, if u == "" then [] else Longest(MapOf(ref, u), key, 0))]
    case _ => []
  }

  function RefAnswers(ref: Reference, run: seq<Op>): seq<Answer>
    requires forall op | op in run :: WellSized(op)
    decreases run
  {
    if run == [] then []
    else
      assert run[0] in run;
      RefOutput(ref, run[0]) + RefAnswers(RefStep(ref, run[0]), run[1..])
  }

  function RefExec(ref: Reference, run: seq<Op>): Reference
    requires forall op | op in run :: WellSized(op)
    decreases run
  {
    if run == [] then ref
    else
      assert run[0] in run;
      RefExec(RefStep(ref, run[0]), run[1..])
  }

  ghost predicate TreeRepresents(tree: Children, m: PrefixMap)
    requires WellFormed(tree)
  {
    forall p: seq<Token> :: Lookup(tree, p) == if p in m then Some(m[p]) else None
  }

  ghost predicate Represents(c: Cache, ref: Reference)
    requires Valid(c)
  {
    && "" !in c.roots && "" !in ref
    && forall u: User :: TreeRepresents(Tree(c, u), MapOf(ref, u))
  }

  // ----- refinement, step by step -----

  lemma {:induction false} LongestUnique(m: PrefixMap, key: seq<Token>, from: nat, tree: Children, slots: seq<Slot>)
    requires WellFormed(tree) && TreeRepresents(tree, m)
    requires from <= |slots| <= |key| && Cached(tree, key, slots) && IsLongest(tree, key, |slots|)
    ensures Longest(m, key, from) == slots[from..]
    decreases |slots| - from
  {
    if from == |slots| {
    } else {
      assert Lookup(tree, key[..from + 1]) == Some(slots[from]);
      LongestUnique(m, key, from + 1, tree, slots);
    }
  }

  lemma OwnTreeAnswers(c: Cache, ref: Reference, user: User, key: seq<Token>, saves: Oracle)
    requires Valid(c) && Represents(c, ref) && user in c.roots
    ensures LookIn(c, user, user, key, saves).slots == Longest(MapOf(ref, user), key, 0)
  {
    var req := RequestFor(c, user, user, saves);
    FindReturnsCached(c.roots[user], key, req, c.ledger, c.file, 0);
    OwnerGetsLongest(c.roots[user], key, req, c.ledger, c.file, 0);
    assert TreeRepresents(Tree(c, user), MapOf(ref, user));
    LongestUnique(MapOf(ref, user), key, 0, c.roots[user], LookIn(c, user, user, key, saves).slots);
  }

  lemma LookInRepresents(c: Cache, ref: Reference, user: User, owner: User, key: seq<Token>, saves: Oracle)
    requires Valid(c) && Represents(c, ref) && owner in c.roots
    ensures var c' := LookIn(c, user, owner, key, saves).cache;
            Valid(c') && Represents(c', ref)
  {
    LookInValid(c, user, owner, key, saves);
    var c' := LookIn(c, user, owner, key, saves).cache;
    assert TreeRepresents(Tree(c, owner), MapOf(ref, owner));
    forall p: seq<Token>
      ensures Lookup(c'.roots[owner], p) == Lookup(c.roots[owner], p)
    {
      FindKeepsMeaning(c.roots[owner], key, RequestFor(c, user, owner, saves), c.ledger, c.file, 0, p);
    }
    forall u: User
      ensures TreeRepresents(Tree(c', u), MapOf(ref, u))
    {
      assert TreeRepresents(Tree(c, u), MapOf(ref, u));
    }
  }

  lemma {:induction false} LookAmongRepresents(
    c: Cache, ref: Reference, user: User, owners: seq<User>, key: seq<Token>, saves: Oracle)
    requires Valid(c) && Represents(c, ref)
    ensures var c' := LookAmong(c, user, owners, key, saves).cache;
            Valid(c') && Represents(c', ref)
    decreases |owners|
  {
    if owners == [] {
    } else {
      if owners[0] == user || owners[0] !in c.roots {
        LookAmongRepresents(c, ref, user, owners[1..], key, saves);
      } else {
        LookInRepresents(c, ref, user, owners[0], key, saves);
        LookAmongRepresents(LookIn(c, user, owners[0], key, saves).cache, ref, user, owners[1..], key, saves);
      }
    }
  }

  lemma NothingCached(c: Cache, ref: Reference, user: User, key: seq<Token>)
    requires Valid(c) && Represents(c, ref) && user !in c.roots
    ensures Longest(MapOf(ref, user), key, 0) == []
  {
    assert TreeRepresents(Tree(c, user), MapOf(ref, user));
    if key != [] {
      assert Lookup(Tree(c, user), key[..1]).None?;
    }
  }

  lemma ProbeRefines(c: Cache, ref: Reference, user: User, key: seq<Token>, saves: Oracle)
    requires Valid(c) && Represents(c, ref)
    ensures var out := Look(c, user, key, saves);
            var own := if user == "" then [] else Longest(MapOf(ref, user), key, 0);
            && Valid(out.cache) && Represents(out.cache, ref)
            && (own != [] ==> out.slots == own)
            && (!c.mode.Balanced? ==> out.slots == own)
  {
    if key != [] && user != "" {
      if user in c.roots {
        OwnTreeAnswers(c, ref, user, key, saves);
        LookInRepresents(c, ref, user, user, key, saves);
        LookAmongRepresents(LookIn(c, user, user, key, saves).cache, ref, user, c.order, key, saves);
      } else {
        NothingCached(c, ref, user, key);
        LookAmongRepresents(c, ref, user, c.order, key, saves);
      }
    }
  }

  lemma InsertRepresents(tree: Children, m: PrefixMap, key: seq<Token>, value: seq<Slot>, tag: Label)
    requires WellFormed(tree) && TreeRepresents(tree, m) && |key| == |value|
    ensures WellFormed(Insert(tree, key, value, tag).kids)
    ensures TreeRepresents(Insert(tree, key, value, tag).kids, Extend(m, key, value))
    ensures Insert(tree, key, value, tag).matched == |Longest(m, key, 0)|
  {
    InsertOk(tree, key, value, tag);
    var x := Extend(m, key, value);
    forall p: seq<Token>
      ensures Lookup(Insert(tree, key, value, tag).kids, p) == if p in x then Some(x[p]) else None
    {
      InsertRepresentsAt(tree, m, key, value, tag, p);
    }
    InsertMatched(tree, key, value, tag);
    MatchedIsLongest(tree, m, key, 0, Insert(tree, key, value, tag).matched);
  }

  lemma InsertRepresentsAt(
    tree: Children, m: PrefixMap, key: seq<Token>, value: seq<Slot>, tag: Label, p: seq<Token>)
    requires WellFormed(tree) && TreeRepresents(tree, m) && |key| == |value|
    requires WellFormed(Insert(tree, key, value, tag).kids)
    ensures var x := Extend(m, key, value);
            Lookup(Insert(tree, key, value, tag).kids, p) == if p in x then Some(x[p]) else None
  {
    InsertMeaning(tree, key, value, tag, p);
    assert Lookup(tree, p) == if p in m then Some(m[p]) else None;
    if p != [] && p <= key {
      assert p == key[..|p|];
    }
  }

  lemma {:induction false} MatchedIsLongest(tree: Children, m: PrefixMap, key: seq<Token>, from: nat, n: nat)
    requires WellFormed(tree) && TreeRepresents(tree, m) && IsLongest(tree, key, n) && from <= n
    ensures |Longest(m, key, from)| == n - from
    decreases n - from
  {
    if from == n {
    } else {
      assert Lookup(tree, key[..from + 1]).Some?;
      MatchedIsLongest(tree, m, key, from + 1, n);
    }
  }

  /** Replacing the tree of one tenant and its map together. */
  lemma TreeChangeRepresents(c: Cache, ref: Reference, user: User, tree: Children, m: PrefixMap, c': Cache)
    requires Valid(c) && Represents(c, ref) && user != ""
    requires WellFormed(tree) && TreeRepresents(tree, m)
    requires Valid(c') && c'.roots == c.roots[user := tree]
    ensures Represents(c', ref[user := m])
  {
    forall u: User
      ensures TreeRepresents(Tree(c', u), MapOf(ref[user := m], u))
    {
      assert TreeRepresents(Tree(c, u), MapOf(ref, u));
    }
  }

  lemma PutRefines(c: Cache, ref: Reference, user: User, key: seq<Token>, value: seq<Slot>)
    requires Valid(c) && Represents(c, ref) && |key| == |value| && user != ""
    ensures var (c', n) := Put(c, user, key, value);
            && Valid(c') && Represents(c', ref[user := Extend(MapOf(ref, user), key, value)])
            && n == |Longest(MapOf(ref, user), key, 0)|
  {
    StepValid(c, Ins(user, key, value));
    var (c', n) := Put(c, user, key, value);
    var visibility := if c.autoshare && c.mode.Balanced? then BudgetedShared else Private;
    assert TreeRepresents(Tree(c, user), MapOf(ref, user));
    InsertRepresents(Tree(c, user), MapOf(ref, user), key, value, Label(By(user), visibility, 0, false));
    TreeChangeRepresents(c, ref, user, c'.roots[user], Extend(MapOf(ref, user), key, value), c');
  }

  /** One operation, whatever it is: the trees go on representing the reference. */
  lemma StepRefines(c: Cache, ref: Reference, op: Op)
    requires Valid(c) && Represents(c, ref) && Enabled(c, op) && WellSized(op)
    ensures Valid(Step(c, op)) && Represents(Step(c, op), RefStep(ref, op))
    ensures !c.mode.Balanced? ==> Output(c, op) == RefOutput(ref, op)
  {
    StepValid(c, op);
    match op
    case Ins(u, key, value) =>
      if u != "" {
        PutRefines(c, ref, u, key, value);
      }
    case Probe(u, key, saves) =>
      ProbeRefines(c, ref, u, key, saves);
    case Relabel(u, tree) =>
      forall p: seq<Token>
        ensures Lookup(tree, p) == Lookup(c.roots[u], p)
      {
        SameNodeLookup(c.roots[u], tree, p);
      }
      forall v: User
        ensures TreeRepresents(Tree(Step(c, op), v), MapOf(ref, v))
      {
        assert TreeRepresents(Tree(c, v), MapOf(ref, v));
      }
    case Recover(_) =>
      forall v: User
        ensures TreeRepresents(Tree(Step(c, op), v), MapOf(ref, v))
      {
        assert TreeRepresents(Tree(c, v), MapOf(ref, v));
      }
    case EvictLeaf(u, path, above) => EvictRefines(c, ref, u, path, above);
    case EvictAll =>
  }

  /** Evicting a leaf takes exactly the paths that end in it out of its owner's prefix map. */
  lemma EvictRefines(c: Cache, ref: Reference, u: User, path: seq<Token>, above: nat)
    requires Valid(c) && Represents(c, ref) && Enabled(c, EvictLeaf(u, path, above))
    ensures Valid(Step(c, EvictLeaf(u, path, above)))
    ensures Represents(Step(c, EvictLeaf(u, path, above)), ref[u := Shortened(MapOf(ref, u), path, above)])
  {
    StepValid(c, EvictLeaf(u, path, above));
    var c', m := Step(c, EvictLeaf(u, path, above)), Shortened(MapOf(ref, u), path, above);
    assert TreeRepresents(Tree(c, u), MapOf(ref, u));
    forall p: seq<Token>
      ensures Lookup(c'.roots[u], p) == if p in m then Some(m[p]) else None
    {
      PruneMeaning(c.roots[u], path, above, p);
    }
    TreeChangeRepresents(c, ref, u, c'.roots[u], m, c');
  }

  lemma {:induction false} LegalIsWellSized(c: Cache, run: seq<Op>)
    requires Valid(c) && Legal(c, run)
    ensures forall op | op in run :: WellSized(op)
    decreases |run|
  {
    if run == [] {
    } else {
      StepValid(c, run[0]);
      LegalIsWellSized(Step(c, run[0]), run[1..]);
      assert run == [run[0]] + run[1..];
    }
  }

  // ----- main results -----

  lemma {:induction false} RunRefines(c: Cache, ref: Reference, run: seq<Op>)
    requires Valid(c) && Represents(c, ref) && Legal(c, run)
    requires forall op | op in run :: WellSized(op)
    ensures Valid(Exec(c, run)) && Represents(Exec(c, run), RefExec(ref, run))
    ensures !c.mode.Balanced? ==> Answers(c, run) == RefAnswers(ref, run)
    decreases |run|
  {
    if run == [] {
    } else {
      assert run[0] in run;
      StepRefines(c, ref, run[0]);
      StepMode(c, run[0]);
      RunRefines(Step(c, run[0]), RefStep(ref, run[0]), run[1..]);
    }
  }

  lemma StepMode(c: Cache, op: Op)
    requires Valid(c) && Enabled(c, op)
    ensures Step(c, op).mode == c.mode && Step(c, op).budget == c.budget
  {
    if op.Probe? && op.user in c.roots {
      LookInValid(c, op.user, op.user, op.key, op.saves);
      LookAmongMode(LookIn(c, op.user, op.user, op.key, op.saves).cache, op.user, c.order, op.key, op.saves);
    } else if op.Probe? {
      LookAmongMode(c, op.user, c.order, op.key, op.saves);
    }
  }

  lemma {:induction false} LookAmongMode(c: Cache, user: User, owners: seq<User>, key: seq<Token>, saves: Oracle)
    requires Valid(c)
    ensures var c' := LookAmong(c, user, owners, key, saves).cache;
            c'.mode == c.mode && c'.budget == c.budget
    decreases |owners|
  {
    if owners == [] {
    } else {
      if owners[0] == user || owners[0] !in c.roots {
        LookAmongMode(c, user, owners[1..], key, saves);
      } else {
        LookInValid(c, user, owners[0], key, saves);
        LookAmongMode(LookIn(c, user, owners[0], key, saves).cache, user, owners[1..], key, saves);
      }
    }
  }

  /**
   Strict mode, over every run: the cache answers every insertion and every lookup
   exactly as one private prefix map per tenant would.
   */
  lemma StrictIsPrefixMaps(c: Cache, run: seq<Op>)
    requires c.mode.Strict? && c.roots == map[] && Legal(c, run)
    ensures (forall op | op in run :: WellSized(op)) && Answers(c, run) == RefAnswers(map[], run)
  {
    LegalIsWellSized(c, run);
    RunRefines(c, map[], run);
  }

  /**
   An owner's view in either protected mode: after any run, whatever other tenants
   probed, split, exhausted or relabelled, a lookup for which the owner has anything
   cached returns exactly the longest prefix the owner itself has inserted.
   */
  lemma OwnerViewIsPreserved(c: Cache, run: seq<Op>, user: User, key: seq<Token>, saves: Oracle)
    requires !c.mode.Open? && c.roots == map[] && Legal(c, run) && user != ""
    ensures (forall op | op in run :: WellSized(op)) && Valid(Exec(c, run))
    ensures var mine := Longest(MapOf(RefExec(map[], run), user), key, 0);
            mine != [] ==> Look(Exec(c, run), user, key, saves).slots == mine
  {
    LegalIsWellSized(c, run);
    RunRefines(c, map[], run);
    ProbeRefines(Exec(c, run), RefExec(map[], run), user, key, saves);
  }
}
