/**
 Strict mode is free of interference: what a tenant observes depends on its own operations
 and on the evictions that hit its own tree, and on nothing else that others do.
 */
module NonInterference {
  import opened Options
  import opened Ledger
  import opened CachePolicy
  import opened RadixTree
  import opened RadixLookup
  import opened LeafEviction
  import opened TreeShape
  import opened TenantCache

  /** The operations of `u`, and the evictions that reach its tree. */
  predicate Concerns(op: Op, u: User) {
    op.EvictAll? || ((op.Ins? || op.Probe? || op.EvictLeaf?) && op.user == u)
  }

  /** The run without anything that does not concern `u`. */
  function Purge(run: seq<Op>, u: User): seq<Op> {
    if run == [] then []
    else if Concerns(run[0], u) then [run[0]] + Purge(run[1..], u)
    else Purge(run[1..], u)
  }

  function View(answers: seq<Answer>, u: User): seq<Answer> {
    if answers == [] then []
    else if answers[0].user == u then [answers[0]] + View(answers[1..], u)
    else View(answers[1..], u)
  }

  lemma {:induction false} ViewConcat(a: seq<Answer>, b: seq<Answer>, u: User)
    ensures View(a + b, u) == View(a, u) + View(b, u)
  {
    if a == [] {
      assert a + b == b;
    } else {
      assert (a + b)[1..] == a[1..] + b;
      ViewConcat(a[1..], b, u);
    }
  }

  // ----- the reference -----

  lemma {:induction false} PurgeWellSized(run: seq<Op>, u: User)
    requires forall op | op in run :: WellSized(op)
    ensures forall op | op in Purge(run, u) :: WellSized(op)
  {
    if run == [] {
    } else {
      assert run[0] in run && forall op | op in run[1..] :: op in run;
      PurgeWellSized(run[1..], u);
    }
  }

  lemma {:induction false} ReferenceIgnoresOthers(ref: Reference, ref': Reference, run: seq<Op>, u: User)
    requires forall op | op in run :: WellSized(op)
    requires MapOf(ref, u) == MapOf(ref', u)
    ensures forall op | op in Purge(run, u) :: WellSized(op)
    ensures View(RefAnswers(ref, run), u) == View(RefAnswers(ref', Purge(run, u)), u)
    decreases |run|
  {
    PurgeWellSized(run, u);
    if run == [] {
    } else {
      assert run[0] in run;
      var op, rest := run[0], run[1..];
      var purged := Purge(rest, u);
      ViewConcat(RefOutput(ref, op), RefAnswers(RefStep(ref, op), rest), u);
      if Concerns(op, u) {
        ReferenceIgnoresOthers(RefStep(ref, op), RefStep(ref', op), rest, u);
        PurgedAnswers(ref', op, purged);
        ViewConcat(RefOutput(ref', op), RefAnswers(RefStep(ref', op), purged), u);
        assert RefOutput(ref, op) == RefOutput(ref', op);
      } else {
        ReferenceIgnoresOthers(RefStep(ref, op), ref', rest, u);
        assert View(RefOutput(ref, op), u) == [];
      }
    }
  }

  lemma PurgedAnswers(ref: Reference, op: Op, rest: seq<Op>)
    requires WellSized(op) && forall other | other in rest :: WellSized(other)
    ensures forall other | other in [op] + rest :: WellSized(other)
    ensures RefAnswers(ref, [op] + rest) == RefOutput(ref, op) + RefAnswers(RefStep(ref, op), rest)
  {
    assert ([op] + rest)[1..] == rest;
  }

  // ----- the purged run can be made -----

  /** The two caches hold the same tree for `u`, up to labels and counters. */
  ghost predicate Alike(c: Cache, c': Cache, u: User) {
    && Valid(c) && Valid(c') && c.mode.Strict? && c'.mode.Strict?
    && (u in c.roots <==> u in c'.roots)
    && SameTree(Tree(c, u), Tree(c', u))
  }

  lemma StrictProbe(c: Cache, v: User, key: seq<Token>, saves: Oracle)
    requires Valid(c) && c.mode.Strict?
    ensures var c' := Look(c, v, key, saves).cache;
            && c'.mode == c.mode
            && c'.roots == if key == [] || v == "" || v !in c.roots then c.roots
                           else c.roots[v := Find(c.roots[v], key, RequestFor(c, v, v, saves), c.ledger, c.file,
                             0).kids]
  {
  }

  lemma OwnStepAlike(c: Cache, c': Cache, op: Op, u: User)
    requires Alike(c, c', u) && Enabled(c, op) && Concerns(op, u)
    ensures Enabled(c', op)
    ensures Alike(Step(c, op), Step(c', op), u)
  {
    match op
    case Ins(_, key, value) =>
      StepValid(c, op);
      StepValid(c', op);
      if u != "" {
        var tag := Label(By(u), Private, 0, false);
        InsertSame(Tree(c, u), Tree(c', u), key, value, tag, tag);
      }
    case Probe(_, key, saves) =>
      StepValid(c, op);
      StepValid(c', op);
      StrictProbe(c, u, key, saves);
      StrictProbe(c', u, key, saves);
      if u in c.roots {
        FindSame(c.roots[u], c'.roots[u], key, RequestFor(c, u, u, saves), RequestFor(c', u, u, saves),
                 c.ledger, c'.ledger, c.file, c'.file, 0);
      }
    case EvictLeaf(_, path, above) =>
      PruneSame(c.roots[u], c'.roots[u], path, above);
      StepValid(c, op);
      StepValid(c', op);
    case EvictAll =>
  }

  lemma OtherStepAlike(c: Cache, c': Cache, op: Op, u: User)
    requires Alike(c, c', u) && Enabled(c, op) && !Concerns(op, u)
    ensures Alike(Step(c, op), c', u)
  {
    StepValid(c, op);
    match op
    case Probe(v, key, saves) => StrictProbe(c, v, key, saves);
    case Relabel(v, tree) =>
      if v == u {
        SameTreeSym(c.roots[u], tree);
        SameTreeTrans(tree, c.roots[u], c'.roots[u]);
      }
    case _ =>
  }

  lemma {:induction false} PurgedIsLegal(c: Cache, c': Cache, run: seq<Op>, u: User)
    requires Alike(c, c', u) && Legal(c, run)
    ensures Legal(c', Purge(run, u))
    decreases |run|
  {
    if run == [] {
    } else {
      var op := run[0];
      StepValid(c, op);
      if Concerns(op, u) {
        OwnStepAlike(c, c', op, u);
        PurgedIsLegal(Step(c, op), Step(c', op), run[1..], u);
        assert Purge(run, u)[1..] == Purge(run[1..], u);
      } else {
        OtherStepAlike(c, c', op, u);
        PurgedIsLegal(Step(c, op), c', run[1..], u);
      }
    }
  }

  // ----- main results -----

  /**
   Non-interference of Strict mode: in any run a tenant observes what it would observe if
   every operation and relabelling of others, and every eviction from their trees, were
   removed; and the run that remains is one the cache can make.
   */
  lemma StrictNonInterference(c: Cache, run: seq<Op>, u: User)
    requires c.mode.Strict? && c.roots == map[] && Legal(c, run)
    ensures Legal(c, Purge(run, u))
    ensures View(Answers(c, run), u) == View(Answers(c, Purge(run, u)), u)
  {
    SameTreeRefl(Tree(c, u));
    PurgedIsLegal(c, c, run, u);
    StrictIsPrefixMaps(c, run);
    StrictIsPrefixMaps(c, Purge(run, u));
    ReferenceIgnoresOthers(map[], map[], run, u);
  }

  /** Two runs that agree on what concerns a tenant look the same to it. */
  lemma AgreeingRunsLookAlike(c: Cache, run: seq<Op>, run': seq<Op>, u: User)
    requires c.mode.Strict? && c.roots == map[] && Legal(c, run) && Legal(c, run')
    requires Purge(run, u) == Purge(run', u)
    ensures View(Answers(c, run), u) == View(Answers(c, run'), u)
  {
    StrictNonInterference(c, run, u);
    StrictNonInterference(c, run', u);
  }

  /**
   Evictions are the channel that remains: which leaves are evicted depends on what all
   tenants insert, and a tenant that loses one sees its match shortened.
   */
  lemma EvictionShows(c: Cache, u: User, t: Token, slot: Slot, saves: Oracle)
    requires c.mode.Strict? && c.roots == map[] && u != ""
    ensures var kept := [Ins(u, [t], [slot]), Probe(u, [t], saves)];
            Legal(c, kept) && Answers(c, kept) == [Length(u, 0), Found(u, [slot])]
    ensures var evicted := [Ins(u, [t], [slot]), EvictLeaf(u, [t], 0), Probe(u, [t], saves)];
            Legal(c, evicted) && Answers(c, evicted) == [Length(u, 0), Found(u, [])]
  {
    EvictionIsLegal(c, u, t, slot, saves);
    StrictIsPrefixMaps(c, [Ins(u, [t], [slot]), Probe(u, [t], saves)]);
    StrictIsPrefixMaps(c, [Ins(u, [t], [slot]), EvictLeaf(u, [t], 0), Probe(u, [t], saves)]);
    AnswersKept(u, t, slot, saves);
    AnswersEvicted(u, t, slot, saves);
  }

  lemma AnswersKept(u: User, t: Token, slot: Slot, saves: Oracle)
    requires u != ""
    ensures RefAnswers(map[], [Ins(u, [t], [slot]), Probe(u, [t], saves)]) == [Length(u, 0), Found(u, [slot])]
  {
    var ins, probe := Ins(u, [t], [slot]), Probe(u, [t], saves);
    AnswersWithOne(u, t, slot, saves);
    PurgedAnswers(map[], ins, [probe]);
    assert [ins] + [probe] == [ins, probe];
  }

  lemma AnswersEvicted(u: User, t: Token, slot: Slot, saves: Oracle)
    requires u != ""
    ensures RefAnswers(map[], [Ins(u, [t], [slot]), EvictLeaf(u, [t], 0), Probe(u, [t], saves)])
         == [Length(u, 0), Found(u, [])]
  {
    var ins, evict, probe := Ins(u, [t], [slot]), EvictLeaf(u, [t], 0), Probe(u, [t], saves);
    AnswersWithOne(u, t, slot, saves);
    PurgedAnswers(map[u := map[[t] := slot]], evict, [probe]);
    PurgedAnswers(map[], ins, [evict] + [probe]);
    assert [ins] + ([evict] + [probe]) == [ins, evict, probe];
  }

  lemma AnswersWithOne(u: User, t: Token, slot: Slot, saves: Oracle)
    requires u != ""
    ensures var full: Reference, none: Reference := map[u := map[[t] := slot]], map[u := map[]];
            && RefOutput(map[], Ins(u, [t], [slot])) == [Length(u, 0)]
            && RefStep(map[], Ins(u, [t], [slot])) == full
            && RefStep(full, EvictLeaf(u, [t], 0)) == none
            && RefAnswers(full, [Probe(u, [t], saves)]) == [Found(u, [slot])]
            && RefAnswers(none, [Probe(u, [t], saves)]) == [Found(u, [])]
  {
    var full: Reference, none: Reference := map[u := map[[t] := slot]], map[u := map[]];
    assert [t][..1] == [t];
    assert Extend(map[], [t], [slot]) == map[[t] := slot];
    assert Shortened(map[[t] := slot], [t], 0) == map[];
    var one: PrefixMap, empty: PrefixMap := map[[t] := slot], map[];
    assert [t][..1] in one && [t][..1] !in empty;
    assert Longest(one, [t], 0) == [one[[t][..1]]] + Longest(one, [t], 1);
    assert Longest(one, [t], 0) == [slot] && Longest(empty, [t], 0) == [];
    assert MapOf(full, u) == one && MapOf(none, u) == empty;
    assert RefOutput(full, Probe(u, [t], saves)) == [Found(u, [slot])];
    PurgedAnswers(full, Probe(u, [t], saves), []);
    PurgedAnswers(none, Probe(u, [t], saves), []);
    assert [Probe(u, [t], saves)] + [] == [Probe(u, [t], saves)];
  }

  lemma EvictionIsLegal(c: Cache, u: User, t: Token, slot: Slot, saves: Oracle)
    requires c.mode.Strict? && c.roots == map[] && u != ""
    ensures Legal(c, [Ins(u, [t], [slot]), Probe(u, [t], saves)])
    ensures Legal(c, [Ins(u, [t], [slot]), EvictLeaf(u, [t], 0), Probe(u, [t], saves)])
  {
    var ins, evict, probe := Ins(u, [t], [slot]), EvictLeaf(u, [t], 0), Probe(u, [t], saves);
    StepValid(c, ins);
    var c1 := Step(c, ins);
    assert c1.roots[u] == map[t := Node([t], [slot], Label(By(u), Private, 0, false), 0, map[])];
    assert LeafAt(c1.roots[u], [t], 0);
    StepValid(c1, evict);
    assert [ins, probe][1..] == [probe] && [probe][1..] == [];
    assert Legal(c1, [probe]);
    assert [ins, evict, probe][1..] == [evict, probe] && [evict, probe][1..] == [probe];
    assert Legal(c1, [evict, probe]);
  }
}
