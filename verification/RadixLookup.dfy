/**
 `_match_prefix_helper`: a lookup walks one tree on behalf of a user, checks the
 privacy label of every node on the way, reserves a ledger unit before exposing a
 node that another tenant shares, and may split the last node it reaches.
 */
module RadixLookup {
  import opened Options
  import opened Ledger
  import opened CachePolicy
  import opened RadixTree

  /** One node whose slots were returned; `charged` if a reservation paid for it. */
  datatype Served = Served(tag: Label, fp: Fingerprint, charged: bool)

  datatype FindOutcome = FindOutcome(
    kids: Children, slots: seq<Slot>, served: seq<Served>, ledger: Instance, file: File)

  /** Who asks, under which policy, and which of the ledger's writes succeed. */
  datatype Request = Request(user: User, mode: Mode, budget: nat, saves: nat -> bool)

  /** The decision taken at a visible node: serve it, charging first where required. */
  function Admit(c: Node, req: Request, ledger: Instance, file: File, depth: nat): HitOutcome {
    if MustReserve(c.tag, req.mode, req.user) then
      ReserveShared(c.tag, c.key, ledger, file, req.budget, req.saves(depth))
    else HitOutcome(c.tag, ledger, file, true)
  }

  function Find(kids: Children, key: seq<Token>, req: Request, ledger: Instance, file: File, depth: nat): FindOutcome
    requires WellFormed(kids)
    decreases |key|
  {
    if key == [] || Head(key) !in kids || !VisibleTo(kids[Head(key)].tag, req.mode, req.user) then
      FindOutcome(kids, [], [], ledger, file)
    else
      var c := kids[Head(key)];
      var o := Admit(c, req, ledger, file, depth);
      if !o.granted then FindOutcome(kids[Head(key) := c.(tag := o.tag)], [], [], o.ledger, o.file)
      else
        var hit := c.(tag := o.tag, hits := c.hits + 1);
        var step := Served(c.tag, c.key, MustReserve(c.tag, req.mode, req.user));
        var m := Common(c.key, key);
        if m < |c.key| then
          FindOutcome(kids[Head(key) := Aligned(hit, key)], c.value[..m], [step], o.ledger, o.file)
        else
          var below := Find(c.children, key[m..], req, o.ledger, o.file, depth + 1);
          FindOutcome(kids[Head(key) := hit.(children := below.kids)], c.value + below.slots, [step] + below.served,
            below.ledger, below.file)
  }

  /** A node that is not visible, or whose reservation is refused, ends the lookup with nothing. */
  lemma FindRefused(kids: Children, key: seq<Token>, req: Request, ledger: Instance, file: File, depth: nat)
    requires WellFormed(kids) && key != [] && Head(key) in kids
    ensures var c, out := kids[Head(key)], Find(kids, key, req, ledger, file, depth);
            var o := Admit(c, req, ledger, file, depth);
            && (!VisibleTo(c.tag, req.mode, req.user) ==> out == FindOutcome(kids, [], [], ledger, file))
            && (VisibleTo(c.tag, req.mode, req.user) && !o.granted ==>
                out == FindOutcome(kids[Head(key) := c.(tag := o.tag)], [], [], o.ledger, o.file))
  {
  }

  /** A node that is granted, matched whole or in part. */
  lemma FindGranted(
    kids: Children, key: seq<Token>, req: Request, ledger: Instance, file: File, depth: nat, o: HitOutcome)
    requires WellFormed(kids) && key != [] && Head(key) in kids
    requires var c := kids[Head(key)];
             VisibleTo(c.tag, req.mode, req.user) && o == Admit(c, req, ledger, file, depth) && o.granted
    ensures var c, out := kids[Head(key)], Find(kids, key, req, ledger, file, depth);
            var m, hit := Common(c.key, key), c.(tag := o.tag, hits := c.hits + 1);
            if m < |c.key| then
              && out.kids == kids[Head(key) := Aligned(hit, key)] && out.slots == c.value[..m]
              && out.ledger == o.ledger && out.file == o.file
            else
              var below := Find(c.children, key[m..], req, o.ledger, o.file, depth + 1);
              && out.kids == kids[Head(key) := hit.(children := below.kids)] && out.slots == c.value + below.slots
              && out.ledger == below.ledger && out.file == below.file
  {
  }

  /** Promotion, retirement and reservation leave the creator of a node alone. */
  lemma AdmitKeepsCreator(c: Node, req: Request, ledger: Instance, file: File, depth: nat)
    ensures Admit(c, req, ledger, file, depth).tag.creator == c.tag.creator
  {
  }

  lemma {:induction false} FindWellFormed(
    kids: Children, key: seq<Token>, req: Request, ledger: Instance, file: File, depth: nat)
    requires WellFormed(kids)
    ensures WellFormed(Find(kids, key, req, ledger, file, depth).kids)
    decreases |key|
  {
    if key == [] || Head(key) !in kids || !VisibleTo(kids[Head(key)].tag, req.mode, req.user) {
    } else {
      var c := kids[Head(key)];
      var o := Admit(c, req, ledger, file, depth);
      var out, m, hit := Find(kids, key, req, ledger, file, depth), Common(c.key, key),
        c.(tag := o.tag, hits := c.hits + 1);
      if !o.granted {
        WellFormedUpdate(kids, Head(key), c.(tag := o.tag));
      } else if m < |c.key| {
        AlignedOk(hit, key, Nobody);
        WellFormedUpdate(kids, Head(key), Aligned(hit, key));
      } else {
        var below := Find(c.children, key[m..], req, o.ledger, o.file, depth + 1).kids;
        FindWellFormed(c.children, key[m..], req, o.ledger, o.file, depth + 1);
        assert out.kids == kids[Head(key) := hit.(children := below)];
        WellFormedUpdate(kids, Head(key), hit.(children := below));
      }
    }
  }

  lemma WellFormedUpdate(kids: Children, t: Token, d: Node)
    requires WellFormed(kids) && WellFormedNode(d) && Head(d.key) == t
    ensures WellFormed(kids[t := d])
  {
  }

  lemma {:induction false} FindKeepsOwner(
    kids: Children, key: seq<Token>, req: Request, ledger: Instance, file: File, depth: nat, creator: Creator)
    requires WellFormed(kids) && OwnedBy(kids, creator)
    ensures OwnedBy(Find(kids, key, req, ledger, file, depth).kids, creator)
    decreases |key|
  {
    if key == [] || Head(key) !in kids || !VisibleTo(kids[Head(key)].tag, req.mode, req.user) {
    } else {
      var c := kids[Head(key)];
      assert OwnedNode(c, creator);
      var o := Admit(c, req, ledger, file, depth);
      AdmitKeepsCreator(c, req, ledger, file, depth);
      var out, m, hit := Find(kids, key, req, ledger, file, depth), Common(c.key, key),
        c.(tag := o.tag, hits := c.hits + 1);
      if !o.granted {
        OwnedUpdate(kids, Head(key), c.(tag := o.tag), creator);
      } else if m < |c.key| {
        AlignedOk(hit, key, creator);
        OwnedUpdate(kids, Head(key), Aligned(hit, key), creator);
      } else {
        var below := Find(c.children, key[m..], req, o.ledger, o.file, depth + 1).kids;
        FindKeepsOwner(c.children, key[m..], req, o.ledger, o.file, depth + 1, creator);
        assert out.kids == kids[Head(key) := hit.(children := below)];
        OwnedUpdate(kids, Head(key), hit.(children := below), creator);
      }
    }
  }

  lemma OwnedUpdate(kids: Children, t: Token, d: Node, creator: Creator)
    requires OwnedBy(kids, creator) && OwnedNode(d, creator)
    ensures OwnedBy(kids[t := d], creator)
  {
  }

  /**
   No lookup, by whomever and however it ends, changes what the tree means to its
   owner: splits and relabelling keep every cached path and its slot.
   */
  lemma {:induction false} FindKeepsMeaning(
    kids: Children, key: seq<Token>, req: Request, ledger: Instance, file: File, depth: nat, path: seq<Token>)
    requires WellFormed(kids)
    ensures WellFormed(Find(kids, key, req, ledger, file, depth).kids)
    ensures Lookup(Find(kids, key, req, ledger, file, depth).kids, path) == Lookup(kids, path)
    decreases |key|
  {
    FindWellFormed(kids, key, req, ledger, file, depth);
    var out := Find(kids, key, req, ledger, file, depth);
    if key == [] || Head(key) !in kids || !VisibleTo(kids[Head(key)].tag, req.mode, req.user) {
    } else {
      var c := kids[Head(key)];
      var o := Admit(c, req, ledger, file, depth);
      var m := Common(c.key, key);
      if o.granted && m == |c.key| {
        var d := c.(tag := o.tag, hits := c.hits + 1,
          children := Find(c.children, key[m..], req, o.ledger, o.file, depth + 1).kids);
        assert out.kids == kids[Head(key) := d];
        FindKeepsMeaning(c.children, key[m..], req, o.ledger, o.file, depth + 1, if m < |path| then path[m..] else []);
        BelowReplaced(kids, c, d, path);
      } else {
        CutShortKeepsMeaning(kids, key, req, ledger, file, depth, path);
      }
    }
  }

  /** The same for a lookup that ends at the first node, refused or inside its key. */
  lemma CutShortKeepsMeaning(
    kids: Children, key: seq<Token>, req: Request, ledger: Instance, file: File, depth: nat, path: seq<Token>)
    requires WellFormed(kids) && key != [] && Head(key) in kids && VisibleTo(kids[Head(key)].tag, req.mode, req.user)
    requires var c := kids[Head(key)];
             !Admit(c, req, ledger, file, depth).granted || Common(c.key, key) < |c.key|
    requires WellFormed(Find(kids, key, req, ledger, file, depth).kids)
    ensures Lookup(Find(kids, key, req, ledger, file, depth).kids, path) == Lookup(kids, path)
  {
    var out := Find(kids, key, req, ledger, file, depth);
    var c := kids[Head(key)];
    var o := Admit(c, req, ledger, file, depth);
    if !o.granted {
      RelabelAndAlign(kids, key, o.tag, c.hits, path);
      assert out.kids == kids[Head(key) := c.(tag := o.tag, hits := c.hits)];
    } else {
      RelabelAndAlign(kids, key, o.tag, c.hits + 1, path);
      assert out.kids == kids[Head(key) := Aligned(c.(tag := o.tag, hits := c.hits + 1), key)];
    }
  }

  lemma BelowReplaced(kids: Children, c: Node, d: Node, path: seq<Token>)
    requires WellFormed(kids) && WellFormedNode(c) && Head(c.key) in kids && kids[Head(c.key)] == c
    requires WellFormedNode(d) && c.key == d.key && c.value == d.value
    requires |path| > |c.key| ==> Lookup(c.children, path[|c.key|..]) == Lookup(d.children, path[|c.key|..])
    ensures WellFormed(kids[Head(c.key) := d])
    ensures Lookup(kids[Head(c.key) := d], path) == Lookup(kids, path)
  {
    SameBelow(kids, c, d, path);
    assert kids[Head(c.key) := c] == kids;
  }

  /** `slots` are the slots cached for the first tokens of `key`. */
  ghost predicate Cached(kids: Children, key: seq<Token>, slots: seq<Slot>)
    requires WellFormed(kids)
  {
    |slots| <= |key| && forall j | 0 <= j < |slots| :: Lookup(kids, key[..j + 1]) == Some(slots[j])
  }

  /** Slots found below the first node, prepended with the slots of that node. */
  lemma CachedBelow(kids: Children, key: seq<Token>, below: seq<Slot>)
    requires WellFormed(kids) && key != [] && Head(key) in kids
    requires var c := kids[Head(key)];
             var m := Common(c.key, key);
             if m < |c.key| then below == [] else Cached(c.children, key[m..], below)
    ensures var c := kids[Head(key)];
            Cached(kids, key, c.value[..Common(c.key, key)] + below)
  {
    var c := kids[Head(key)];
    var slots := c.value[..Common(c.key, key)] + below;
    var m := Common(c.key, key);
    assert |slots| <= |key|;
    forall j | 0 <= j < |slots|
      ensures Lookup(kids, key[..j + 1]) == Some(slots[j])
    {
      if j >= m {
        BelowAt(c.children, key[m..], below, j - m);
        assert j + 1 - m == j - m + 1;
      }
      CachedAt(kids, key, if j < m then c.value[j] else below[j - m], j);
    }
  }

  lemma CachedAt(kids: Children, key: seq<Token>, slot: Slot, j: nat)
    requires WellFormed(kids) && key != [] && Head(key) in kids && j < |key|
    requires var c := kids[Head(key)];
             var m := Common(c.key, key);
             if j < m then slot == c.value[j]
             else m == |c.key| && Lookup(c.children, key[m..][..j + 1 - m]) == Some(slot)
    ensures Lookup(kids, key[..j + 1]) == Some(slot)
  {
    LookupPrefix(kids, key, j + 1);
  }

  lemma BelowAt(kids: Children, key: seq<Token>, slots: seq<Slot>, i: nat)
    requires WellFormed(kids) && Cached(kids, key, slots) && i < |slots|
    ensures i < |key| && Lookup(kids, key[..i + 1]) == Some(slots[i])
  {
  }

  /** What a lookup returns is a prefix of the cached slots of the key it asked for. */
  lemma {:induction false} FindReturnsCached(
    kids: Children, key: seq<Token>, req: Request, ledger: Instance, file: File, depth: nat)
    requires WellFormed(kids)
    ensures Cached(kids, key, Find(kids, key, req, ledger, file, depth).slots)
    decreases |key|
  {
    if key == [] || Head(key) !in kids || !VisibleTo(kids[Head(key)].tag, req.mode, req.user) {
    } else {
      var c := kids[Head(key)];
      var o := Admit(c, req, ledger, file, depth);
      var m := Common(c.key, key);
      if o.granted && m < |c.key| {
        FoundInside(kids, key, req, ledger, file, depth);
      } else if o.granted {
        FindReturnsCached(c.children, key[m..], req, o.ledger, o.file, depth + 1);
        FoundBelow(kids, key, req, ledger, file, depth);
      }
    }
  }

  lemma FoundInside(kids: Children, key: seq<Token>, req: Request, ledger: Instance, file: File, depth: nat)
    requires WellFormed(kids) && key != [] && Head(key) in kids
    requires var c := kids[Head(key)];
             && VisibleTo(c.tag, req.mode, req.user) && Admit(c, req, ledger, file, depth).granted
             && Common(c.key, key) < |c.key|
    ensures Cached(kids, key, Find(kids, key, req, ledger, file, depth).slots)
  {
    var c := kids[Head(key)];
    var m := Common(c.key, key);
    assert c.value[..m] + [] == c.value[..m];
    CachedBelow(kids, key, []);
  }

  lemma FoundBelow(kids: Children, key: seq<Token>, req: Request, ledger: Instance, file: File, depth: nat)
    requires WellFormed(kids) && key != [] && Head(key) in kids
    requires var c := kids[Head(key)];
             var o := Admit(c, req, ledger, file, depth);
             && VisibleTo(c.tag, req.mode, req.user) && o.granted && Common(c.key, key) == |c.key|
             && Cached(c.children, key[|c.key|..],
                       Find(c.children, key[|c.key|..], req, o.ledger, o.file, depth + 1).slots)
    ensures Cached(kids, key, Find(kids, key, req, ledger, file, depth).slots)
  {
    var c := kids[Head(key)];
    var o := Admit(c, req, ledger, file, depth);
    var below := Find(c.children, key[|c.key|..], req, o.ledger, o.file, depth + 1).slots;
    assert c.value[..|c.key|] == c.value;
    CachedBelow(kids, key, below);
  }

  /** In its own tree a user sees every node and is never charged. */
  lemma OwnStep(kids: Children, key: seq<Token>, req: Request, ledger: Instance, file: File, depth: nat)
    requires WellFormed(kids) && key != [] && Head(key) in kids && kids[Head(key)].tag.creator == By(req.user)
    ensures var c := kids[Head(key)];
            var m := Common(c.key, key);
            var out := Find(kids, key, req, ledger, file, depth);
            && (m < |c.key| ==> |out.slots| == m && out.ledger == ledger && out.file == file)
            && (m == |c.key| ==>
                var below := Find(c.children, key[m..], req, ledger, file, depth + 1);
                |out.slots| == m + |below.slots| && out.ledger == below.ledger && out.file == below.file)
  {
  }

  lemma {:induction false} OwnerIsNotCharged(
    kids: Children, key: seq<Token>, req: Request, ledger: Instance, file: File, depth: nat)
    requires WellFormed(kids) && OwnedBy(kids, By(req.user))
    ensures var out := Find(kids, key, req, ledger, file, depth);
            out.ledger == ledger && out.file == file
    decreases |key|
  {
    if key == [] || Head(key) !in kids {
    } else {
      var c := kids[Head(key)];
      assert OwnedNode(c, By(req.user));
      OwnStep(kids, key, req, ledger, file, depth);
      OwnerIsNotCharged(c.children, key[Common(c.key, key)..], req, ledger, file, depth + 1);
    }
  }

  /** The owner of a tree always gets the longest cached prefix. */
  lemma {:induction false} OwnerGetsLongest(
    kids: Children, key: seq<Token>, req: Request, ledger: Instance, file: File, depth: nat)
    requires WellFormed(kids) && OwnedBy(kids, By(req.user))
    ensures IsLongest(kids, key, |Find(kids, key, req, ledger, file, depth).slots|)
    decreases |key|
  {
    if key == [] || Head(key) !in kids {
      NothingThere(kids, key);
    } else {
      var c := kids[Head(key)];
      assert OwnedNode(c, By(req.user));
      var m := Common(c.key, key);
      if m < |c.key| {
        OwnerEndsInside(kids, key, req, ledger, file, depth);
      } else {
        OwnerGetsLongest(c.children, key[m..], req, ledger, file, depth + 1);
        OwnerGoesOn(kids, key, req, ledger, file, depth);
      }
    }
  }

  lemma OwnerEndsInside(
    kids: Children, key: seq<Token>, req: Request, ledger: Instance, file: File, depth: nat)
    requires WellFormed(kids) && key != [] && Head(key) in kids && kids[Head(key)].tag.creator == By(req.user)
    requires Common(kids[Head(key)].key, key) < |kids[Head(key)].key|
    ensures IsLongest(kids, key, |Find(kids, key, req, ledger, file, depth).slots|)
  {
    OwnStep(kids, key, req, ledger, file, depth);
    LongestInside(kids, key);
  }

  lemma OwnerGoesOn(
    kids: Children, key: seq<Token>, req: Request, ledger: Instance, file: File, depth: nat)
    requires WellFormed(kids) && key != [] && Head(key) in kids && kids[Head(key)].tag.creator == By(req.user)
    requires Common(kids[Head(key)].key, key) == |kids[Head(key)].key|
    requires var c := kids[Head(key)];
             var below := key[|c.key|..];
             IsLongest(c.children, below, |Find(c.children, below, req, ledger, file, depth + 1).slots|)
    ensures IsLongest(kids, key, |Find(kids, key, req, ledger, file, depth).slots|)
  {
    var c := kids[Head(key)];
    OwnStep(kids, key, req, ledger, file, depth);
    LongestBelow(kids, key, |Find(c.children, key[|c.key|..], req, ledger, file, depth + 1).slots|);
  }

  lemma NothingThere(kids: Children, key: seq<Token>)
    requires WellFormed(kids) && (key == [] || Head(key) !in kids)
    ensures IsLongest(kids, key, 0)
  {
    if key != [] {
      assert Head(key[..1]) == Head(key);
    }
  }

  // ----- accounting -----

  function Charges(served: seq<Served>, fp: Fingerprint): nat {
    if served == [] then 0 else (if served[0].charged && served[0].fp == fp then 1 else 0) + Charges(served[1..], fp)
  }

  lemma {:induction false} ChargesConcat(a: seq<Served>, b: seq<Served>, fp: Fingerprint)
    ensures Charges(a + b, fp) == Charges(a, fp) + Charges(b, fp)
  {
    if a == [] {
      assert a + b == b;
    } else {
      assert (a + b)[1..] == a[1..] + b;
      ChargesConcat(a[1..], b, fp);
    }
  }

  /**
   Every node exposed by a lookup in a protected mode is the user's own, or verified public, or
   shared, not retired, and charged for; nothing else is ever charged for.
   */
  ghost predicate Justified(served: seq<Served>, req: Request) {
    forall i | 0 <= i < |served| ::
      var (tag, charged) := (served[i].tag, served[i].charged);
      && (charged <==> req.mode.Balanced? && tag.visibility == BudgetedShared && tag.creator != By(req.user))
      && (charged ==> !tag.permanent)
      && (!charged ==> req.mode.Open? || tag.visibility == VerifiedPublic || tag.creator == By(req.user))
  }

  lemma AdmitEffect(c: Node, req: Request, ledger: Instance, file: File, depth: nat, fp: Fingerprint)
    requires ledger.backed
    ensures var o := Admit(c, req, ledger, file, depth);
            var paid := o.granted && MustReserve(c.tag, req.mode, req.user) && fp == c.key;
            && o.ledger.backed && (o.file.Corrupt? <==> file.Corrupt?)
            && (file.Corrupt? ==> !paid)
            && (!file.Corrupt? ==> Charge(Entries(o.file), fp) == Charge(Entries(file), fp) + if paid then 1 else 0)
            && (!file.Corrupt? && paid ==> Charge(Entries(file), fp) < req.budget)
  {
    ReserveEffect(ledger, file, c.key, req.budget, req.saves(depth));
  }

  lemma {:induction false} FindJustified(
    kids: Children, key: seq<Token>, req: Request, ledger: Instance, file: File, depth: nat)
    requires WellFormed(kids)
    ensures Justified(Find(kids, key, req, ledger, file, depth).served, req)
    decreases |key|
  {
    if key == [] || Head(key) !in kids || !VisibleTo(kids[Head(key)].tag, req.mode, req.user) {
    } else {
      var c := kids[Head(key)];
      var o := Admit(c, req, ledger, file, depth);
      var m := Common(c.key, key);
      if o.granted && m == |c.key| {
        FindJustified(c.children, key[m..], req, o.ledger, o.file, depth + 1);
      }
    }
  }

  /** Durable charges before and after, and the charges they differ by. */
  ghost predicate Accounted(before: File, after: File, charges: nat, budget: nat, fp: Fingerprint) {
    && (before.Corrupt? <==> after.Corrupt?)
    && (before.Corrupt? ==> charges == 0)
    && (!before.Corrupt? ==>
        && Charge(Entries(after), fp) == Charge(Entries(before), fp) + charges
        && (charges > 0 ==> Charge(Entries(after), fp) <= budget))
  }

  /**
   Reserve-before-serve, exactly: for every fingerprint, the durable charge grows by
   the number of shared nodes with that fingerprint that the lookup exposed, and by
   nothing else; it never passes the budget.
   */
  lemma {:induction false} FindAccounts(
    kids: Children, key: seq<Token>, req: Request, ledger: Instance, file: File, depth: nat, fp: Fingerprint)
    requires WellFormed(kids) && ledger.backed
    ensures var out := Find(kids, key, req, ledger, file, depth);
            out.ledger.backed && Accounted(file, out.file, Charges(out.served, fp), req.budget, fp)
    decreases |key|
  {
    if key == [] || Head(key) !in kids || !VisibleTo(kids[Head(key)].tag, req.mode, req.user) {
    } else {
      var c := kids[Head(key)];
      var o := Admit(c, req, ledger, file, depth);
      AdmitEffect(c, req, ledger, file, depth, fp);
      var step := Served(c.tag, c.key, MustReserve(c.tag, req.mode, req.user));
      assert Charges([step], fp) == if step.charged && fp == c.key then 1 else 0;
      var m := Common(c.key, key);
      if o.granted && m == |c.key| {
        FindAccounts(c.children, key[m..], req, o.ledger, o.file, depth + 1, fp);
        var below := Find(c.children, key[m..], req, o.ledger, o.file, depth + 1);
        ChargesConcat([step], below.served, fp);
      }
    }
  }
}
