/**
 How often the shared nodes of the cache are exposed to other tenants.

 The ledger counts exposures per segment: the key of the node that holds a token.  Over
 every run a segment is exposed at most as often as the budget allows.  A cached path may
 be exposed more often, because splitting its node gives it a new segment; the results at
 the end say exactly when it may not.
 */
module Exposure {
  import opened Options
  import opened Ledger
  import opened CachePolicy
  import opened RadixTree
  import opened RadixLookup
  import opened TreeShape
  import opened TenantCache

  // ----- accounting over runs -----

  lemma LookInAccounts(c: Cache, user: User, owner: User, key: seq<Token>, saves: Oracle, fp: Fingerprint)
    requires Valid(c) && owner in c.roots && c.ledger.backed
    ensures var out := LookIn(c, user, owner, key, saves);
            && out.cache.ledger.backed
            && Accounted(c.file, out.cache.file, Charges(out.served, fp), c.budget, fp)
            && (out.slots == [] ==> out.served == [])
            && Justified(out.served, RequestFor(c, user, owner, saves))
  {
    var req := RequestFor(c, user, owner, saves);
    FindAccounts(c.roots[owner], key, req, c.ledger, c.file, 0, fp);
    FindJustified(c.roots[owner], key, req, c.ledger, c.file, 0);
  }

  lemma {:induction false} LookAmongAccounts(
    c: Cache, user: User, owners: seq<User>, key: seq<Token>, saves: Oracle, fp: Fingerprint)
    requires Valid(c) && c.ledger.backed
    ensures var out := LookAmong(c, user, owners, key, saves);
            out.cache.ledger.backed && Accounted(c.file, out.cache.file, Charges(out.served, fp), c.budget, fp)
    decreases |owners|
  {
    if owners == [] {
    } else {
      if owners[0] == user || owners[0] !in c.roots {
        LookAmongAccounts(c, user, owners[1..], key, saves, fp);
      } else {
        LookInValid(c, user, owners[0], key, saves);
        LookInAccounts(c, user, owners[0], key, saves, fp);
        LookAmongAccounts(LookIn(c, user, owners[0], key, saves).cache, user, owners[1..], key, saves, fp);
      }
    }
  }

  lemma StepAccounts(c: Cache, op: Op, fp: Fingerprint)
    requires Valid(c) && Enabled(c, op) && c.ledger.backed
    ensures var c' := Step(c, op);
            c'.ledger.backed && Accounted(c.file, c'.file, Charges(Exposed(c, op), fp), c.budget, fp)
  {
    if op.Probe? {
      if op.user in c.roots {
        LookInValid(c, op.user, op.user, op.key, op.saves);
        LookInAccounts(c, op.user, op.user, op.key, op.saves, fp);
        LookAmongAccounts(LookIn(c, op.user, op.user, op.key, op.saves).cache, op.user, c.order, op.key, op.saves, fp);
      } else {
        LookAmongAccounts(c, op.user, c.order, op.key, op.saves, fp);
      }
    }
  }

  lemma {:induction false} LookAmongJustified(
    c: Cache, user: User, owners: seq<User>, key: seq<Token>, saves: Oracle, req: Request)
    requires Valid(c) && req.user == user && req.mode == c.mode
    ensures Justified(LookAmong(c, user, owners, key, saves).served, req)
    decreases |owners|
  {
    if owners == [] {
    } else if owners[0] == user || owners[0] !in c.roots {
      LookAmongJustified(c, user, owners[1..], key, saves, req);
    } else {
      LookInValid(c, user, owners[0], key, saves);
      FindJustified(c.roots[owners[0]], key, RequestFor(c, user, owners[0], saves), c.ledger, c.file, 0);
      LookAmongJustified(LookIn(c, user, owners[0], key, saves).cache, user, owners[1..], key, saves, req);
    }
  }

  /**
   What a lookup in a protected mode exposes, in any state of the cache: the user's own nodes and
   verified public ones free of charge, and in Balanced mode other tenants' shared nodes that are
   not retired, each of them charged for.
   */
  lemma EveryExposureIsJustified(c: Cache, op: Op)
    requires Valid(c) && Enabled(c, op) && op.Probe? && !c.mode.Open?
    ensures forall s | s in Exposed(c, op) ::
              || s.tag.creator == By(op.user) || s.tag.visibility == VerifiedPublic
              || (c.mode.Balanced? && s.tag.visibility == BudgetedShared && !s.tag.permanent && s.charged)
    ensures forall s | s in Exposed(c, op) && s.charged ::
              c.mode.Balanced? && s.tag.creator != By(op.user) && s.tag.visibility == BudgetedShared
  {
    var user, key, saves := op.user, op.key, op.saves;
    var req := RequestFor(c, user, user, saves);
    if user in c.roots {
      LookInValid(c, user, user, key, saves);
      FindJustified(c.roots[user], key, req, c.ledger, c.file, 0);
      LookAmongJustified(LookIn(c, user, user, key, saves).cache, user, c.order, key, saves, req);
    } else {
      LookAmongJustified(c, user, c.order, key, saves, req);
    }
    assert Justified(Exposed(c, op), req);
  }

  /**
   Every run of the cache against a readable ledger file: for each segment, the file gains
   exactly one unit per exposure of a shared node with that segment to another tenant, so
   those exposures never exceed what was left of its budget.
   */
  lemma {:induction false} ExposureIsBudgeted(c: Cache, run: seq<Op>, fp: Fingerprint)
    requires Valid(c) && Legal(c, run) && c.ledger.backed && !c.file.Corrupt?
    ensures var c' := Exec(c, run);
            var exposures := Charges(AllExposed(c, run), fp);
            && !c'.file.Corrupt?
            && Charge(Entries(c'.file), fp) == Charge(Entries(c.file), fp) + exposures
            && (exposures > 0 ==> Charge(Entries(c.file), fp) + exposures <= c.budget)
    decreases |run|
  {
    if run == [] {
    } else {
      StepValid(c, run[0]);
      StepMode(c, run[0]);
      StepAccounts(c, run[0], fp);
      ExposureIsBudgeted(Step(c, run[0]), run[1..], fp);
      ChargesConcat(Exposed(c, run[0]), AllExposed(Step(c, run[0]), run[1..]), fp);
    }
  }

  // ----- exposures of a path -----

  /** The served node that holds token `n` of the key. */
  function Covering(served: seq<Served>, n: nat): Option<Served> {
    if served == [] then None
    else if n < |served[0].fp| then Some(served[0])
    else Covering(served[1..], n - |served[0].fp|)
  }

  /** The segment under which an operation exposes `path` to another tenant. */
  function ExposedAs(c: Cache, op: Op, path: seq<Token>): Option<Fingerprint>
    requires Valid(c) && Enabled(c, op)
  {
    if !op.Probe? || path == [] || !(path <= op.key) then None
    else
      var out := Look(c, op.user, op.key, op.saves);
      if |out.slots| < |path| then None
      else
        match Covering(out.served, |path| - 1)
        case None => None
        case Some(s) => if s.charged then Some(s.fp) else None
  }

  /** The segments under which a run exposes `path`, one for each exposure. */
  function Exposures(c: Cache, run: seq<Op>, path: seq<Token>): seq<Fingerprint>
    requires Valid(c) && Legal(c, run)
    decreases |run|
  {
    if run == [] then []
    else
      StepValid(c, run[0]);
      var rest := Exposures(Step(c, run[0]), run[1..], path);
      match ExposedAs(c, run[0], path)
      case None => rest
      case Some(fp) => [fp] + rest
  }

  function Times(list: seq<Fingerprint>, fp: Fingerprint): nat {
    if list == [] then 0 else (if list[0] == fp then 1 else 0) + Times(list[1..], fp)
  }

  function Others(list: seq<Fingerprint>, fp: Fingerprint): seq<Fingerprint> {
    if list == [] then []
    else if list[0] == fp then Others(list[1..], fp)
    else [list[0]] + Others(list[1..], fp)
  }

  lemma {:induction false} CoveringIsCharged(served: seq<Served>, n: nat)
    ensures var s := Covering(served, n);
            s.Some? && s.value.charged ==> Charges(served, s.value.fp) >= 1
  {
    if served == [] {
    } else if n >= |served[0].fp| {
      CoveringIsCharged(served[1..], n - |served[0].fp|);
    }
  }

  lemma {:induction false} ExposuresAreCharged(c: Cache, run: seq<Op>, path: seq<Token>, fp: Fingerprint)
    requires Valid(c) && Legal(c, run)
    ensures Times(Exposures(c, run, path), fp) <= Charges(AllExposed(c, run), fp)
    decreases |run|
  {
    if run == [] {
    } else {
      StepValid(c, run[0]);
      ExposuresAreCharged(Step(c, run[0]), run[1..], path, fp);
      ChargesConcat(Exposed(c, run[0]), AllExposed(Step(c, run[0]), run[1..]), fp);
      if path != [] {
        CoveringIsCharged(Exposed(c, run[0]), |path| - 1);
      }
    }
  }

  lemma {:induction false} OthersSplit(list: seq<Fingerprint>, fp: Fingerprint, other: Fingerprint)
    ensures |list| == Times(list, fp) + |Others(list, fp)|
    ensures Times(Others(list, fp), other) <= Times(list, other)
    ensures forall x :: x in Others(list, fp) ==> x in list && x != fp
  {
    if list == [] {
    } else {
      OthersSplit(list[1..], fp, other);
    }
  }

  lemma {:induction false} BoundBySegments(list: seq<Fingerprint>, segments: set<Fingerprint>, bound: nat)
    requires forall x :: x in list ==> x in segments
    requires forall fp :: Times(list, fp) <= bound
    ensures |list| <= |segments| * bound
    decreases |segments|
  {
    assert list != [] ==> list[0] in list;
    if segments == {} {
    } else {
      var fp :| fp in segments;
      var rest := Others(list, fp);
      forall other
        ensures Times(rest, other) <= bound
      {
        OthersSplit(list, fp, other);
      }
      OthersSplit(list, fp, fp);
      BoundBySegments(rest, segments - {fp}, bound);
      OneMore(|segments - {fp}|, bound);
    }
  }

  lemma OneMore(n: nat, bound: nat)
    ensures (n + 1) * bound == n * bound + bound
  {
  }

  /**
   Over every run: a path is exposed at most as often as the budget allows, times the number
   of segments under which it was exposed.
   */
  lemma PathIsBudgetedPerSegment(c: Cache, run: seq<Op>, path: seq<Token>, segments: set<Fingerprint>)
    requires Valid(c) && Legal(c, run) && c.ledger.backed && !c.file.Corrupt?
    requires forall fp :: fp in Exposures(c, run, path) ==> fp in segments
    ensures |Exposures(c, run, path)| <= |segments| * c.budget
  {
    forall fp
      ensures Times(Exposures(c, run, path), fp) <= c.budget
    {
      ExposuresAreCharged(c, run, path, fp);
      ExposureIsBudgeted(c, run, fp);
    }
    BoundBySegments(Exposures(c, run, path), segments, c.budget);
  }

  // ----- segments of one tree -----

  /** The key of the node in which `path` ends. */
  function Segment(kids: Children, path: seq<Token>): Fingerprint
    requires WellFormed(kids)
    decreases |path|
  {
    if path == [] || Head(path) !in kids then []
    else
      var c := kids[Head(path)];
      if |path| <= |c.key| then c.key else Segment(c.children, path[|c.key|..])
  }

  /** A lookup of `key` ends between nodes, not inside one. */
  predicate Whole(kids: Children, key: seq<Token>)
    requires WellFormed(kids)
    decreases |key|
  {
    key == [] || Head(key) !in kids ||
    var c := kids[Head(key)];
    Common(c.key, key) == |c.key| && Whole(c.children, key[|c.key|..])
  }

  /** The first tokens of the key are held by served nodes, each by the node of its segment. */
  ghost predicate Covered(served: seq<Served>, count: nat, kids: Children, key: seq<Token>)
    requires WellFormed(kids)
  {
    && count <= |key|
    && forall n: nat | n < count ::
         var s := Covering(served, n);
         s.Some? && s.value.fp == Segment(kids, key[..n + 1])
  }

  lemma CoveredHere(kids: Children, key: seq<Token>, step: Served, m: nat)
    requires WellFormed(kids) && key != [] && Head(key) in kids && step.fp == kids[Head(key)].key
    requires m <= |step.fp| && m <= |key|
    ensures Covered([step], m, kids, key)
  {
    forall n: nat | n < m
      ensures var s := Covering([step], n);
              s.Some? && s.value.fp == Segment(kids, key[..n + 1])
    {
      assert Head(key[..n + 1]) == Head(key);
    }
  }

  lemma CoveredBelow(kids: Children, key: seq<Token>, step: Served, below: seq<Served>, count: nat)
    requires WellFormed(kids) && key != [] && Head(key) in kids && step.fp == kids[Head(key)].key
    requires |step.fp| <= |key| && Covered(below, count, kids[Head(key)].children, key[|step.fp|..])
    ensures Covered([step] + below, |step.fp| + count, kids, key)
  {
    forall n: nat | n < |step.fp| + count
      ensures var s := Covering([step] + below, n);
              s.Some? && s.value.fp == Segment(kids, key[..n + 1])
    {
      if n < |step.fp| {
        assert Head(key[..n + 1]) == Head(key);
      } else {
        CoverBelow(kids, key, n, below, step);
      }
    }
  }

  /** Each token returned was served by the node of its segment. */
  lemma {:induction false} FindCovers(
    kids: Children, key: seq<Token>, req: Request, ledger: Instance, file: File, depth: nat)
    requires WellFormed(kids)
    ensures var out := Find(kids, key, req, ledger, file, depth);
            Covered(out.served, |out.slots|, kids, key)
    decreases |key|
  {
    if key == [] || Head(key) !in kids || !VisibleTo(kids[Head(key)].tag, req.mode, req.user) {
    } else {
      FindRefused(kids, key, req, ledger, file, depth);
      var c := kids[Head(key)];
      var o := Admit(c, req, ledger, file, depth);
      var m, step := Common(c.key, key), Served(c.tag, c.key, MustReserve(c.tag, req.mode, req.user));
      if o.granted {
        FindGranted(kids, key, req, ledger, file, depth, o);
        if m < |c.key| {
          CoveredHere(kids, key, step, m);
        } else {
          FindCovers(c.children, key[m..], req, o.ledger, o.file, depth + 1);
          var below := Find(c.children, key[m..], req, o.ledger, o.file, depth + 1);
          CoveredBelow(kids, key, step, below.served, |below.slots|);
        }
      }
    }
  }

  /** A lookup that returns anything served the first node on the way, and returns no more than it asked for. */
  lemma FoundOnTheWay(kids: Children, key: seq<Token>, req: Request, ledger: Instance, file: File, depth: nat)
    requires WellFormed(kids) && Find(kids, key, req, ledger, file, depth).slots != []
    ensures key != [] && Head(key) in kids && |Find(kids, key, req, ledger, file, depth).slots| <= |key|
    ensures var c, out := kids[Head(key)], Find(kids, key, req, ledger, file, depth);
            out.served != [] && out.served[0] == Served(c.tag, c.key, MustReserve(c.tag, req.mode, req.user))
  {
    FindReturnsCached(kids, key, req, ledger, file, depth);
  }

  lemma ServedBelow(
    kids: Children, key: seq<Token>, req: Request, ledger: Instance, file: File, depth: nat, n: nat)
    requires WellFormed(kids) && key != [] && Head(key) in kids
    requires |kids[Head(key)].key| <= n < |Find(kids, key, req, ledger, file, depth).slots|
    ensures var c := kids[Head(key)];
            var o := Admit(c, req, ledger, file, depth);
            var below := Find(c.children, key[|c.key|..], req, o.ledger, o.file, depth + 1);
            && |c.key| <= |key| && n - |c.key| < |below.slots|
            && Find(kids, key, req, ledger, file, depth).served ==
               [Served(c.tag, c.key, MustReserve(c.tag, req.mode, req.user))] + below.served
  {
  }

  lemma CoverBelow(kids: Children, key: seq<Token>, n: nat, below: seq<Served>, step: Served)
    requires WellFormed(kids) && key != [] && Head(key) in kids && step.fp == kids[Head(key)].key
    requires |step.fp| <= n < |key|
    ensures Covering([step] + below, n) == Covering(below, n - |step.fp|)
    ensures Segment(kids, key[..n + 1]) ==
      Segment(kids[Head(key)].children, key[|step.fp|..][..n - |step.fp| + 1])
  {
    assert ([step] + below)[1..] == below;
    assert Head(key[..n + 1]) == Head(key);
    assert key[..n + 1][|step.fp|..] == key[|step.fp|..][..n - |step.fp| + 1];
  }

  lemma {:induction false} WholeSame(a: Children, b: Children, key: seq<Token>)
    requires WellFormed(a) && WellFormed(b) && SameTree(a, b)
    ensures Whole(a, key) <==> Whole(b, key)
    decreases |key|
  {
    if key == [] || Head(key) !in a {
    } else {
      var x, y := a[Head(key)], b[Head(key)];
      assert SameNode(x, y);
      if Common(x.key, key) == |x.key| {
        WholeSame(x.children, y.children, key[|x.key|..]);
      }
    }
  }

  lemma {:induction false} SegmentSame(a: Children, b: Children, path: seq<Token>)
    requires WellFormed(a) && WellFormed(b) && SameTree(a, b)
    ensures Segment(a, path) == Segment(b, path)
    decreases |path|
  {
    if path == [] || Head(path) !in a {
    } else {
      var x, y := a[Head(path)], b[Head(path)];
      assert SameNode(x, y);
      if |path| > |x.key| {
        SegmentSame(x.children, y.children, path[|x.key|..]);
      }
    }
  }

  /** A lookup that ends between nodes splits nothing. */
  lemma {:induction false} WholeSplitsNothing(
    kids: Children, key: seq<Token>, req: Request, ledger: Instance, file: File, depth: nat)
    requires WellFormed(kids) && Whole(kids, key)
    ensures SameTree(kids, Find(kids, key, req, ledger, file, depth).kids)
    decreases |key|
  {
    SameTreeRefl(kids);
    if key == [] || Head(key) !in kids || !VisibleTo(kids[Head(key)].tag, req.mode, req.user) {
    } else {
      var c := kids[Head(key)];
      var o := Admit(c, req, ledger, file, depth);
      AdmitKeepsCreator(c, req, ledger, file, depth);
      assert SameNode(c, c);
      if !o.granted {
        assert SameNode(c, c.(tag := o.tag));
        SameUpdate(kids, kids, Head(key), c, c.(tag := o.tag));
      } else {
        WholeSplitsNothing(c.children, key[|c.key|..], req, o.ledger, o.file, depth + 1);
        var below := Find(c.children, key[|c.key|..], req, o.ledger, o.file, depth + 1).kids;
        var d := c.(tag := o.tag, hits := c.hits + 1, children := below);
        assert SameNode(c, d);
        SameUpdate(kids, kids, Head(key), c, d);
        assert Find(kids, key, req, ledger, file, depth).kids == kids[Head(key) := d];
      }
      assert kids[Head(key) := c] == kids;
    }
  }

  // ----- one shared tree, any number of probing tenants -----

  /** The cache holds the tree of `owner` and no other. */
  predicate Solo(c: Cache, owner: User) {
    c.roots.Keys == {owner} && c.order == [owner] && owner != "" && c.mode.Balanced?
  }

  predicate ProbesOnly(run: seq<Op>) {
    forall i | 0 <= i < |run| :: run[i].Probe?
  }

  /** With one tree, a lookup is a walk of that tree. */
  lemma SoloLook(c: Cache, owner: User, user: User, key: seq<Token>, saves: Oracle)
    requires Valid(c) && Solo(c, owner) && key != [] && user != ""
    ensures var found := Find(c.roots[owner], key, RequestFor(c, user, owner, saves), c.ledger, c.file, 0);
            var out := Look(c, user, key, saves);
            && out.cache == c.(roots := map[owner := found.kids], ledger := found.ledger, file := found.file)
            && out.slots == found.slots && (found.slots != [] ==> out.served == found.served)
  {
    var first := LookIn(c, user, owner, key, saves);
    LookInValid(c, user, owner, key, saves);
    assert first.cache.roots == map[owner := first.cache.roots[owner]];
    assert c.order[1..] == [];
    if user != owner {
      assert LookAmong(first.cache, user, [], key, saves) == LookOutcome(first.cache, [], []);
    } else {
      assert LookAmong(first.cache, user, [], key, saves) == LookOutcome(first.cache, [], []);
      assert LookAmong(first.cache, user, c.order, key, saves) == LookAmong(first.cache, user, [], key, saves);
    }
  }

  /** What a probe finds in the only tree. */
  function SoloFound(c: Cache, owner: User, op: Op): FindOutcome
    requires Valid(c) && Solo(c, owner) && op.Probe?
  {
    Find(c.roots[owner], op.key, RequestFor(c, op.user, owner, op.saves), c.ledger, c.file, 0)
  }

  /** A probe keeps the cache solo. */
  lemma SoloStep(c: Cache, owner: User, op: Op)
    requires Valid(c) && Solo(c, owner) && op.Probe?
    ensures var c' := Step(c, op);
            && Valid(c') && Solo(c', owner) && c'.budget == c.budget
            && c'.roots[owner] == if op.user == "" then c.roots[owner] else SoloFound(c, owner, op).kids
  {
    StepValid(c, op);
    if op.key != [] && op.user != "" {
      SoloLook(c, owner, op.user, op.key, op.saves);
    }
  }

  /** The exposure of a path is that of the walk, under the path's segment. */
  lemma SoloExposed(c: Cache, owner: User, op: Op, path: seq<Token>)
    requires Valid(c) && Solo(c, owner) && op.Probe? && ExposedAs(c, op, path).Some?
    ensures op.user != "" && path != [] && path <= op.key && |path| <= |SoloFound(c, owner, op).slots|
    ensures ExposedAs(c, op, path).value == Segment(c.roots[owner], path)
    ensures var s := Covering(SoloFound(c, owner, op).served, |path| - 1);
            s.Some? && s.value.charged
  {
    SoloLook(c, owner, op.user, op.key, op.saves);
    var found := SoloFound(c, owner, op);
    assert Look(c, op.user, op.key, op.saves).served == found.served;
    SoloSegment(c, owner, op, path);
  }

  lemma SoloSegment(c: Cache, owner: User, op: Op, path: seq<Token>)
    requires Valid(c) && Solo(c, owner) && op.Probe? && path != [] && path <= op.key
    requires |path| <= |SoloFound(c, owner, op).slots|
    ensures var s := Covering(SoloFound(c, owner, op).served, |path| - 1);
            s.Some? && s.value.fp == Segment(c.roots[owner], path)
  {
    FindCovers(c.roots[owner], op.key, RequestFor(c, op.user, owner, op.saves), c.ledger, c.file, 0);
    assert op.key[..|path|] == path;
  }

  /** When no probe ends inside a node, a path is only ever exposed under its one segment. */
  lemma {:induction false} WholeProbesKeepSegment(
    c: Cache, owner: User, tree: Children, run: seq<Op>, path: seq<Token>)
    requires Valid(c) && Solo(c, owner) && ProbesOnly(run) && Legal(c, run)
    requires WellFormed(tree) && SameTree(tree, c.roots[owner])
    requires forall i | 0 <= i < |run| :: Whole(tree, run[i].key)
    ensures forall fp :: fp in Exposures(c, run, path) ==> fp == Segment(tree, path)
    decreases |run|
  {
    if run == [] {
    } else {
      WholeProbeExposes(c, owner, tree, run[0], path);
      WholeProbeKeepsTree(c, owner, tree, run[0]);
      WholeProbesKeepSegment(Step(c, run[0]), owner, tree, run[1..], path);
    }
  }

  /** What a whole probe exposes of a path is charged to the segment of the tree as it was first. */
  lemma WholeProbeExposes(c: Cache, owner: User, tree: Children, op: Op, path: seq<Token>)
    requires Valid(c) && Solo(c, owner) && op.Probe?
    requires WellFormed(tree) && SameTree(tree, c.roots[owner])
    ensures ExposedAs(c, op, path).Some? ==> ExposedAs(c, op, path).value == Segment(tree, path)
  {
    if ExposedAs(c, op, path).Some? {
      SoloExposed(c, owner, op, path);
      SegmentSame(tree, c.roots[owner], path);
    }
  }

  /** It leaves that tree as it was, up to labels and counters. */
  lemma WholeProbeKeepsTree(c: Cache, owner: User, tree: Children, op: Op)
    requires Valid(c) && Solo(c, owner) && op.Probe?
    requires WellFormed(tree) && SameTree(tree, c.roots[owner]) && Whole(tree, op.key)
    ensures Valid(Step(c, op)) && Solo(Step(c, op), owner) && SameTree(tree, Step(c, op).roots[owner])
  {
    SoloStep(c, owner, op);
    WholeSame(tree, c.roots[owner], op.key);
    WholeSplitsNothing(c.roots[owner], op.key, RequestFor(c, op.user, owner, op.saves), c.ledger, c.file, 0);
    SameTreeRefl(c.roots[owner]);
    SameTreeTrans(tree, c.roots[owner], Step(c, op).roots[owner]);
  }

  // ----- a budget of one -----

  predicate Hidden(tag: Label) {
    tag.visibility == ExhaustedPrivate && tag.permanent
  }

  /** Some node on the way to the end of `path` is retired. */
  predicate Blocked(kids: Children, path: seq<Token>)
    requires WellFormed(kids)
    decreases |path|
  {
    && path != [] && Head(path) in kids
    && var c := kids[Head(path)];
       Hidden(c.tag) || (|c.key| < |path| && c.key == path[..|c.key|] && Blocked(c.children, path[|c.key|..]))
  }

  lemma AlignedBlocked(kids: Children, c: Node, key: seq<Token>, path: seq<Token>)
    requires WellFormed(kids) && WellFormedNode(c) && key != [] && Head(key) == Head(c.key)
    requires Head(c.key) in kids && kids[Head(c.key)] == c && Blocked(kids, path)
    requires WellFormed(kids[Head(c.key) := Aligned(c, key)])
    ensures Blocked(kids[Head(c.key) := Aligned(c, key)], path)
  {
    var m := Common(c.key, key);
    if Head(path) != Head(c.key) || m == |c.key| || Hidden(c.tag) {
    } else {
      var low := c.(key := c.key[m..], value := c.value[m..]);
      var top := Aligned(c, key);
      assert top.children == map[Head(low.key) := low];
      var rest := path[m..];
      assert path[..m] == top.key && Head(rest) == Head(low.key);
      assert rest[..|low.key|] == low.key && rest[|low.key|..] == path[|c.key|..];
      assert Blocked(top.children, rest);
    }
  }

  /** No lookup unblocks a path. */
  lemma {:induction false} FindKeepsBlocked(
    kids: Children, key: seq<Token>, req: Request, ledger: Instance, file: File, depth: nat, path: seq<Token>)
    requires WellFormed(kids) && Blocked(kids, path)
    ensures WellFormed(Find(kids, key, req, ledger, file, depth).kids)
    ensures Blocked(Find(kids, key, req, ledger, file, depth).kids, path)
    decreases |key|
  {
    FindWellFormed(kids, key, req, ledger, file, depth);
    if key == [] || Head(key) != Head(path) || !VisibleTo(kids[Head(key)].tag, req.mode, req.user) {
    } else {
      var c := kids[Head(key)];
      var o := Admit(c, req, ledger, file, depth);
      var m := Common(c.key, key);
      if o.granted && m == |c.key| {
        var below := Find(c.children, key[m..], req, o.ledger, o.file, depth + 1).kids;
        var d := c.(tag := o.tag, hits := c.hits + 1, children := below);
        assert Find(kids, key, req, ledger, file, depth).kids == kids[Head(key) := d];
        if !Hidden(c.tag) {
          FindKeepsBlocked(c.children, key[m..], req, o.ledger, o.file, depth + 1, path[m..]);
        }
      } else {
        CutShortKeepsBlocked(kids, key, req, ledger, file, depth, path);
      }
    }
  }

  lemma CutShortKeepsBlocked(
    kids: Children, key: seq<Token>, req: Request, ledger: Instance, file: File, depth: nat, path: seq<Token>)
    requires WellFormed(kids) && Blocked(kids, path) && key != [] && Head(key) == Head(path)
    requires VisibleTo(kids[Head(key)].tag, req.mode, req.user)
    requires var c := kids[Head(key)];
             !Admit(c, req, ledger, file, depth).granted || Common(c.key, key) < |c.key|
    requires WellFormed(Find(kids, key, req, ledger, file, depth).kids)
    ensures Blocked(Find(kids, key, req, ledger, file, depth).kids, path)
  {
    var c := kids[Head(key)];
    var o := Admit(c, req, ledger, file, depth);
    if o.granted {
      var hit := c.(tag := o.tag, hits := c.hits + 1);
      assert WellFormed(kids[Head(key) := hit]) && Blocked(kids[Head(key) := hit], path);
      assert kids[Head(key) := hit][Head(key) := Aligned(hit, key)] == kids[Head(key) := Aligned(hit, key)];
      AlignedBlocked(kids[Head(key) := hit], hit, key, path);
    }
  }

  /** A blocked path is not exposed to another tenant. */
  lemma {:induction false} BlockedIsNotFound(
    kids: Children, key: seq<Token>, req: Request, ledger: Instance, file: File, depth: nat,
    path: seq<Token>, owner: User)
    requires WellFormed(kids) && OwnedBy(kids, By(owner)) && req.user != owner && req.mode.Balanced?
    requires Blocked(kids, path) && path <= key
    ensures |Find(kids, key, req, ledger, file, depth).slots| < |path|
    decreases |key|
  {
    var c := kids[Head(path)];
    assert Head(key) == Head(path) && OwnedNode(c, By(owner));
    if !VisibleTo(c.tag, req.mode, req.user) {
    } else {
      var o := Admit(c, req, ledger, file, depth);
      PrefixSplit(path, key, |c.key|);
      if o.granted && Common(c.key, key) == |c.key| {
        BlockedIsNotFound(c.children, key[|c.key|..], req, o.ledger, o.file, depth + 1, path[|c.key|..], owner);
      }
    }
  }

  /** With a budget of one, exposing a path blocks it. */
  lemma {:induction false} ExposureBlocks(
    kids: Children, key: seq<Token>, req: Request, ledger: Instance, file: File, depth: nat, path: seq<Token>)
    requires WellFormed(kids) && req.budget == 1 && path != [] && path <= key
    requires |path| <= |Find(kids, key, req, ledger, file, depth).slots|
    requires var s := Covering(Find(kids, key, req, ledger, file, depth).served, |path| - 1);
             s.Some? && s.value.charged
    ensures WellFormed(Find(kids, key, req, ledger, file, depth).kids)
    ensures Blocked(Find(kids, key, req, ledger, file, depth).kids, path)
    decreases |key|
  {
    FindWellFormed(kids, key, req, ledger, file, depth);
    FoundOnTheWay(kids, key, req, ledger, file, depth);
    var c := kids[Head(key)];
    assert Head(path) == Head(key);
    if |path| <= |c.key| {
      ExposureHides(kids, key, req, ledger, file, depth);
    } else {
      var o := Admit(c, req, ledger, file, depth);
      var below := Find(c.children, key[|c.key|..], req, o.ledger, o.file, depth + 1);
      ServedBelow(kids, key, req, ledger, file, depth, |path| - 1);
      PrefixSplit(path, key, |c.key|);
      CoverBelow(kids, key, |path| - 1, below.served, Served(c.tag, c.key, MustReserve(c.tag, req.mode, req.user)));
      ExposureBlocks(c.children, key[|c.key|..], req, o.ledger, o.file, depth + 1, path[|c.key|..]);
      WentBelow(kids, key, req, ledger, file, depth, |path| - 1);
    }
  }

  lemma ExposureHides(kids: Children, key: seq<Token>, req: Request, ledger: Instance, file: File, depth: nat)
    requires WellFormed(kids) && req.budget == 1 && Find(kids, key, req, ledger, file, depth).slots != []
    requires key != [] && Head(key) in kids && MustReserve(kids[Head(key)].tag, req.mode, req.user)
    ensures var kids' := Find(kids, key, req, ledger, file, depth).kids;
            Head(key) in kids' && Hidden(kids'[Head(key)].tag)
  {
    assert Hidden(Admit(kids[Head(key)], req, ledger, file, depth).tag);
  }

  lemma WentBelow(kids: Children, key: seq<Token>, req: Request, ledger: Instance, file: File, depth: nat, n: nat)
    requires WellFormed(kids) && key != [] && Head(key) in kids
    requires |kids[Head(key)].key| <= n < |Find(kids, key, req, ledger, file, depth).slots|
    ensures var c, kids' := kids[Head(key)], Find(kids, key, req, ledger, file, depth).kids;
            var o := Admit(c, req, ledger, file, depth);
            && |c.key| <= |key| && c.key == key[..|c.key|]
            && Head(key) in kids' && kids'[Head(key)].key == c.key
            && kids'[Head(key)].children == Find(c.children, key[|c.key|..], req, o.ledger, o.file, depth + 1).kids
  {
  }

  /** An owner's own lookups are never charged. */
  lemma {:induction false} OwnerIsNotExposed(
    kids: Children, key: seq<Token>, req: Request, ledger: Instance, file: File, depth: nat, n: nat)
    requires WellFormed(kids) && OwnedBy(kids, By(req.user))
    ensures var s := Covering(Find(kids, key, req, ledger, file, depth).served, n);
            s.Some? ==> !s.value.charged
    decreases |key|
  {
    if key == [] || Head(key) !in kids {
    } else {
      var c := kids[Head(key)];
      assert OwnedNode(c, By(req.user));
      if Common(c.key, key) == |c.key| && n >= |c.key| {
        var below := Find(c.children, key[|c.key|..], req, ledger, file, depth + 1);
        OwnerIsNotExposed(c.children, key[|c.key|..], req, ledger, file, depth + 1, n - |c.key|);
        var step := Served(c.tag, c.key, false);
        assert ([step] + below.served)[1..] == below.served;
      }
    }
  }

  lemma {:induction false} BlockedStaysUnexposed(c: Cache, owner: User, run: seq<Op>, path: seq<Token>)
    requires Valid(c) && Solo(c, owner) && ProbesOnly(run) && Legal(c, run) && Blocked(c.roots[owner], path)
    ensures Exposures(c, run, path) == []
    decreases |run|
  {
    if run == [] {
    } else {
      var op := run[0];
      var req := RequestFor(c, op.user, owner, op.saves);
      SoloStep(c, owner, op);
      if ExposedAs(c, op, path).Some? {
        SoloExposed(c, owner, op, path);
        if op.user == owner {
          OwnerIsNotExposed(c.roots[owner], op.key, req, c.ledger, c.file, 0, |path| - 1);
        } else {
          BlockedIsNotFound(c.roots[owner], op.key, req, c.ledger, c.file, 0, path, owner);
        }
        assert false;
      }
      FindKeepsBlocked(c.roots[owner], op.key, req, c.ledger, c.file, 0, path);
      BlockedStaysUnexposed(Step(c, op), owner, run[1..], path);
    }
  }

  lemma {:induction false} BudgetOfOne(c: Cache, owner: User, run: seq<Op>, path: seq<Token>)
    requires Valid(c) && Solo(c, owner) && ProbesOnly(run) && Legal(c, run) && c.budget == 1
    ensures |Exposures(c, run, path)| <= 1
    decreases |run|
  {
    if run == [] {
    } else {
      var op := run[0];
      var req := RequestFor(c, op.user, owner, op.saves);
      SoloStep(c, owner, op);
      if ExposedAs(c, op, path).Some? {
        SoloExposed(c, owner, op, path);
        ExposureBlocks(c.roots[owner], op.key, req, c.ledger, c.file, 0, path);
        BlockedStaysUnexposed(Step(c, op), owner, run[1..], path);
      } else {
        BudgetOfOne(Step(c, op), owner, run[1..], path);
      }
    }
  }

  /**
   A cached path is exposed to other tenants within the budget through any run of probes if
   no probe ends inside a node, or if the budget is one.
   */
  lemma PathStaysInBudget(c: Cache, owner: User, run: seq<Op>, path: seq<Token>)
    requires Valid(c) && Solo(c, owner) && ProbesOnly(run) && Legal(c, run)
    requires c.ledger.backed && !c.file.Corrupt?
    requires c.budget == 1 || forall i | 0 <= i < |run| :: Whole(c.roots[owner], run[i].key)
    ensures |Exposures(c, run, path)| <= c.budget
  {
    if c.budget == 1 {
      BudgetOfOne(c, owner, run, path);
    } else {
      SameTreeRefl(c.roots[owner]);
      WholeProbesKeepSegment(c, owner, c.roots[owner], run, path);
      PathIsBudgetedPerSegment(c, run, path, {Segment(c.roots[owner], path)});
    }
  }

  // ----- a split renews the budget -----

  /** The ledger can be read and written. */
  predicate LedgerUp(c: Cache) {
    c.ledger.backed && c.ledger.Operational() && !c.file.Corrupt?
  }

  function Used(c: Cache, fp: Fingerprint): nat
    requires !c.file.Corrupt?
  {
    Charge(Entries(c.file), fp)
  }

  /** The first node of the owner's tree under `t` is shared. */
  predicate SharedAt(c: Cache, owner: User, t: Token) {
    && owner in c.roots && t in c.roots[owner]
    && var tag := c.roots[owner][t].tag;
       tag.creator == By(owner) && tag.visibility == BudgetedShared && !tag.permanent
  }

  /** Another tenant probes one token. */
  function OneToken(user: User, t: Token): Op {
    Probe(user, [t], ALL_SAVE)
  }

  /** Probing the first token of a shared node: served, charged, and the token is now a node of its own. */
  lemma ProbeOneToken(c: Cache, owner: User, user: User, t: Token)
    requires Valid(c) && Solo(c, owner) && LedgerUp(c) && SharedAt(c, owner, t) && user != owner && user != ""
    requires Used(c, c.roots[owner][t].key) < c.budget
    ensures var c', fp := Step(c, OneToken(user, t)), c.roots[owner][t].key;
            && ExposedAs(c, OneToken(user, t), [t]) == Some(fp)
            && Valid(c') && Solo(c', owner) && LedgerUp(c') && c'.budget == c.budget
            && t in c'.roots[owner] && c'.roots[owner][t].key == [t]
            && (forall other :: Used(c', other) == Used(c, other) + if other == fp then 1 else 0)
            && (Used(c', fp) < c.budget ==> SharedAt(c', owner, t))
  {
    var op, n := OneToken(user, t), c.roots[owner][t];
    var req := RequestFor(c, user, owner, ALL_SAVE);
    SoloStep(c, owner, op);
    SoloLook(c, owner, user, [t], ALL_SAVE);
    ReserveEffect(c.ledger, c.file, n.key, c.budget, true);
    var o := Admit(n, req, c.ledger, c.file, 0);
    assert MustReserve(n.tag, req.mode, user) && o.granted;
    assert Head([t]) == t && Common(n.key, [t]) == 1 by { FirstTokenMatches(n.key, t); }
    var found := SoloFound(c, owner, op);
    OneTokenFound(c.roots[owner], t, req, c.ledger, c.file);
    assert Covering(found.served, 0) == Some(Served(n.tag, n.key, true));
  }

  lemma FirstTokenMatches(key: seq<Token>, t: Token)
    requires key != [] && key[0] == t
    ensures Common(key, [t]) == 1
  {
    assert Common(key[1..], [t][1..]) == 0;
  }

  lemma OneTokenFound(kids: Children, t: Token, req: Request, ledger: Instance, file: File)
    requires WellFormed(kids) && t in kids && VisibleTo(kids[t].tag, req.mode, req.user)
    requires Admit(kids[t], req, ledger, file, 0).granted
    ensures var n, out := kids[t], Find(kids, [t], req, ledger, file, 0);
            var o := Admit(n, req, ledger, file, 0);
            && |out.slots| == 1 && out.ledger == o.ledger && out.file == o.file
            && out.served == [Served(n.tag, n.key, MustReserve(n.tag, req.mode, req.user))]
            && t in out.kids && out.kids[t].key == [t] && out.kids[t].tag == o.tag
  {
    var n := kids[t];
    FirstTokenMatches(n.key, t);
    assert [t][1..] == [];
    assert n.key[..1] == [t];
    var o := Admit(n, req, ledger, file, 0);
    assert Find(n.children, [], req, o.ledger, o.file, 1).slots == [];
  }

  /** Probing it `k` times while the budget of the token lasts. */
  lemma {:induction false} ProbeRepeatedly(c: Cache, owner: User, user: User, t: Token, run: seq<Op>)
    requires Valid(c) && Solo(c, owner) && LedgerUp(c) && user != owner && user != ""
    requires run == seq(|run|, _ => OneToken(user, t))
    requires t in c.roots[owner] && c.roots[owner][t].key == [t]
    requires run != [] ==> SharedAt(c, owner, t)
    requires Used(c, [t]) + |run| <= c.budget
    ensures Legal(c, run) && |Exposures(c, run, [t])| == |run|
    decreases |run|
  {
    if run == [] {
    } else {
      ProbeOneToken(c, owner, user, t);
      assert run[0] == OneToken(user, t) && run[1..] == seq(|run[1..]|, _ => OneToken(user, t));
      ProbeRepeatedly(Step(c, run[0]), owner, user, t, run[1..]);
    }
  }

  /**
   A node of two or more tokens and a fresh budget of at least two: its first token is
   exposed once more than the budget allows.
   */
  lemma SplitRenewsBudget(c: Cache, owner: User, user: User, t: Token, run: seq<Op>)
    requires Valid(c) && Solo(c, owner) && LedgerUp(c) && SharedAt(c, owner, t) && user != owner && user != ""
    requires |c.roots[owner][t].key| >= 2 && c.budget >= 2
    requires Used(c, c.roots[owner][t].key) == 0 && Used(c, [t]) == 0
    requires run == seq(c.budget + 1, _ => OneToken(user, t))
    ensures Legal(c, run) && |Exposures(c, run, [t])| == c.budget + 1
  {
    ProbeOneToken(c, owner, user, t);
    assert run[0] == OneToken(user, t) && run[1..] == seq(|run[1..]|, _ => OneToken(user, t));
    assert c.roots[owner][t].key != [t];
    ProbeRepeatedly(Step(c, run[0]), owner, user, t, run[1..]);
  }

  /**
   The cache holds one prefix, shared, in the chain of segments that its insertion builds, and
   neither the first segment nor the first token is charged yet.
   */
  predicate OneFreshPrefix(c: Cache, owner: User, key: seq<Token>, value: seq<Slot>)
  {
    && Solo(c, owner) && LedgerUp(c) && 0 < |key| == |value| && c.budget >= 1
    && c.roots[owner] == map[Head(key) := Chain(key, value, Label(By(owner), BudgetedShared, 0, false))]
    && Used(c, c.roots[owner][Head(key)].key) == 0 && Used(c, [Head(key)]) == 0
  }

  ghost predicate EveryPathInBudget(c: Cache)
    requires Valid(c)
  {
    forall run: seq<Op>, path: seq<Token> | ProbesOnly(run) && Legal(c, run) :: |Exposures(c, run, path)| <= c.budget
  }

  /**
   The exact condition for one shared prefix: every path of it stays within the budget, in
   all runs of probes by any tenants, if and only if the budget is one or the prefix has a
   single token.
   */
  lemma PathBudgetIff(c: Cache, owner: User, key: seq<Token>, value: seq<Slot>)
    requires Valid(c) && OneFreshPrefix(c, owner, key, value)
    ensures EveryPathInBudget(c) <==> c.budget == 1 || |key| == 1
  {
    if c.budget == 1 || |key| == 1 {
      forall run: seq<Op>, path: seq<Token> | ProbesOnly(run) && Legal(c, run)
        ensures |Exposures(c, run, path)| <= c.budget
      {
        if |key| == 1 {
          forall i | 0 <= i < |run|
            ensures Whole(c.roots[owner], run[i].key)
          {
            OneTokenIsWhole(c.roots[owner], Head(key), run[i].key);
          }
        }
        PathStaysInBudget(c, owner, run, path);
      }
    } else {
      assert |c.roots[owner][Head(key)].key| >= 2;
      var user := if owner == "a" then "b" else "a";
      var run := seq(c.budget + 1, _ => OneToken(user, Head(key)));
      SplitRenewsBudget(c, owner, user, Head(key), run);
      assert ProbesOnly(run) && |Exposures(c, run, [Head(key)])| > c.budget;
    }
  }

  lemma OneTokenIsWhole(kids: Children, t: Token, key: seq<Token>)
    requires WellFormed(kids) && kids.Keys == {t} && kids[t].key == [t] && kids[t].children == map[]
    ensures Whole(kids, key)
  {
    if key != [] && Head(key) == t {
      assert Common([t], key) == 1 by { assert Common([t][1..], key[1..]) == 0; }
    }
  }
}
