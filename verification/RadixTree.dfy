/**
 The radix tree of one namespace (page size 1).  Tree nodes are values here: a node
 holds a run of tokens, the KV slots cached for them, its privacy label, and its
 children indexed by their first token.

 `Lookup` gives a tree its meaning: a partial map from token paths to KV slots.
 Splitting a node must not change that meaning; inserting must extend it by exactly
 the missing prefixes of the inserted key.
 */
module RadixTree {
  import opened Options
  import opened CachePolicy

  type Token = int
  type Slot = int

  datatype Node = Node(key: seq<Token>, value: seq<Slot>, tag: Label, hits: nat, children: Children)

  type Children = map<Token, Node>

  /** Nodes are cut to at most this many tokens when they are created. */
  const CHUNK := 1024

  function Head(s: seq<Token>): Token
    requires s != []
  {
    s[0]
  }

  predicate WellFormedNode(n: Node) {
    && |n.key| > 0 && |n.value| == |n.key|
    && forall t | t in n.children :: WellFormedNode(n.children[t]) && Head(n.children[t].key) == t
  }

  predicate WellFormed(kids: Children) {
    forall t | t in kids :: WellFormedNode(kids[t]) && Head(kids[t].key) == t
  }

  /** The node and every node below it carry this creator. */
  predicate OwnedNode(n: Node, creator: Creator) {
    n.tag.creator == creator && forall t | t in n.children :: OwnedNode(n.children[t], creator)
  }

  predicate OwnedBy(kids: Children, creator: Creator) {
    forall t | t in kids :: OwnedNode(kids[t], creator)
  }

  /** The slot cached for the last token of `path`, in the context of the tokens before it. */
  function Lookup(kids: Children, path: seq<Token>): Option<Slot>
    requires WellFormed(kids)
    decreases |path|
  {
    if path == [] || Head(path) !in kids then None
    else
      var c := kids[Head(path)];
      if |path| <= |c.key| then
        if path == c.key[..|path|] then Some(c.value[|path| - 1]) else None
      else if c.key == path[..|c.key|] then Lookup(c.children, path[|c.key|..])
      else None
  }

  /** `n` is the length of the longest prefix of `key` whose tokens are all cached. */
  ghost predicate IsLongest(kids: Children, key: seq<Token>, n: nat)
    requires WellFormed(kids)
  {
    && n <= |key|
    && (forall j | 1 <= j <= n :: Lookup(kids, key[..j]).Some?)
    && (n < |key| ==> Lookup(kids, key[..n + 1]).None?)
  }

  // ----- key matching -----

  function Common(a: seq<Token>, b: seq<Token>): (m: nat)
    ensures m <= |a| && m <= |b| && a[..m] == b[..m]
    ensures m < |a| && m < |b| ==> a[m] != b[m]
  {
    if a == [] || b == [] || a[0] != b[0] then 0
    else
      var m := 1 + Common(a[1..], b[1..]);
      assert a[..m] == [a[0]] + a[1..][..m - 1];
      assert b[..m] == [b[0]] + b[1..][..m - 1];
      m
  }

  /** The loop of `_key_match_page_size1`: the longest common prefix, exactly. */
  method KeyMatch(a: seq<Token>, b: seq<Token>) returns (i: nat)
    ensures i <= |a| && i <= |b| && a[..i] == b[..i]
    ensures i < |a| && i < |b| ==> a[i] != b[i]
    ensures i == Common(a, b)
  {
    i := 0;
    while i < |a| && i < |b| && a[i] == b[i]
      invariant i <= |a| && i <= |b| && a[..i] == b[..i]
    {
      i := i + 1;
    }
  }

  /** A path is a prefix of a key iff both its part up to `m` and its part beyond are. */
  lemma PrefixSplit(path: seq<Token>, key: seq<Token>, m: nat)
    requires m <= |key|
    ensures |path| <= m ==> (path <= key <==> path == key[..m][..|path|])
    ensures |path| > m ==> (path <= key <==> path[..m] == key[..m] && path[m..] <= key[m..])
  {
    if |path| <= m {
      assert key[..m][..|path|] == key[..|path|];
    } else {
      assert path == path[..m] + path[m..];
      if |path| <= |key| {
        assert key[..|path|] == key[..m] + key[m..][..|path| - m];
      }
    }
  }

  // ----- splitting -----

  /** `_split_node`: the first `m` tokens move to a new parent with the same label. */
  function Split(c: Node, m: nat): Node
    requires 0 < m < |c.key| == |c.value|
  {
    Node(c.key[..m], c.value[..m], c.tag, c.hits, map[c.key[m] := c.(key := c.key[m..], value := c.value[m..])])
  }

  /** Split, if need be, so that the child on the way to `key` holds a prefix of `key`. */
  function Aligned(c: Node, key: seq<Token>): Node
    requires WellFormedNode(c) && key != [] && Head(key) == Head(c.key)
  {
    var m := Common(c.key, key);
    if m < |c.key| then Split(c, m) else c
  }

  lemma AlignedOk(c: Node, key: seq<Token>, creator: Creator)
    requires WellFormedNode(c) && key != [] && Head(key) == Head(c.key)
    ensures var d := Aligned(c, key);
            && WellFormedNode(d) && Head(d.key) == Head(c.key) && d.key == key[..|d.key|] &&
              |d.key| == Common(c.key, key)
            && (OwnedNode(c, creator) ==> OwnedNode(d, creator))
  {
  }

  /** Replacing what lies below one child changes only the paths through that child. */
  lemma LookupThrough(kids: Children, d: Node, path: seq<Token>)
    requires WellFormed(kids) && WellFormedNode(d)
    ensures WellFormed(kids[Head(d.key) := d])
    ensures var through := |path| > |d.key| && d.key == path[..|d.key|];
            Lookup(kids[Head(d.key) := d], path) ==
              if path != [] && |path| <= |d.key| && path == d.key[..|path|] then Some(d.value[|path| - 1])
              else if through then Lookup(d.children, path[|d.key|..])
              else if path != [] && Head(path) == Head(d.key) then None
              else Lookup(kids, path)
  {
  }

  /** Two nodes that differ only in what lies below them, and agree there on `path`. */
  lemma SameBelow(kids: Children, c: Node, d: Node, path: seq<Token>)
    requires WellFormed(kids) && WellFormedNode(c) && WellFormedNode(d) && c.key == d.key && c.value == d.value
    requires |path| > |c.key| ==> Lookup(c.children, path[|c.key|..]) == Lookup(d.children, path[|c.key|..])
    ensures WellFormed(kids[Head(c.key) := c]) && WellFormed(kids[Head(c.key) := d])
    ensures Lookup(kids[Head(c.key) := c], path) == Lookup(kids[Head(c.key) := d], path)
  {
    LookupThrough(kids, c, path);
    LookupThrough(kids, d, path);
  }

  /** One node, and the same node split after `m` tokens. */
  lemma SplitMeaning(kids: Children, c: Node, m: nat, path: seq<Token>)
    requires WellFormed(kids) && WellFormedNode(c) && 0 < m < |c.key|
    ensures WellFormedNode(Split(c, m)) && Head(Split(c, m).key) == Head(c.key)
    ensures WellFormed(kids[Head(c.key) := c]) && WellFormed(kids[Head(c.key) := Split(c, m)])
    ensures Lookup(kids[Head(c.key) := Split(c, m)], path) == Lookup(kids[Head(c.key) := c], path)
  {
    var d := Split(c, m);
    var low := c.(key := c.key[m..], value := c.value[m..]);
    assert WellFormedNode(low) && d.children == map[Head(low.key) := low];
    assert WellFormedNode(d);
    LookupThrough(kids, d, path);
    LookupThrough(kids, c, path);
    if |path| <= m {
      assert c.key[..|path|] == d.key[..|path|];
    } else {
      var rest := path[m..];
      LookupThrough(map[], low, rest);
      assert d.children == map[][Head(low.key) := low];
      if |path| <= |c.key| {
        PrefixSplit(path, c.key, m);
        assert path <= c.key <==> path == c.key[..|path|];
        assert rest <= low.key <==> rest == low.key[..|rest|];
      } else {
        PrefixSplit(c.key, path, m);
        assert c.key <= path <==> c.key == path[..|c.key|];
        assert low.key <= rest <==> low.key == rest[..|low.key|];
        assert rest[|low.key|..] == path[|c.key|..];
      }
    }
  }

  /** Splitting never changes what the tree means. */
  lemma AlignedKeepsLookup(kids: Children, key: seq<Token>, path: seq<Token>)
    requires WellFormed(kids) && key != [] && Head(key) in kids
    ensures WellFormed(kids[Head(key) := Aligned(kids[Head(key)], key)])
    ensures Lookup(kids[Head(key) := Aligned(kids[Head(key)], key)], path) == Lookup(kids, path)
  {
    var c := kids[Head(key)];
    var m := Common(c.key, key);
    assert kids[Head(key) := c] == kids;
    if m < |c.key| {
      SplitMeaning(kids, c, m, path);
    }
  }

  /** The same when the node is also relabelled. */
  lemma RelabelAndAlign(kids: Children, key: seq<Token>, tag: Label, hits: nat, path: seq<Token>)
    requires WellFormed(kids) && key != [] && Head(key) in kids
    ensures var c := kids[Head(key)].(tag := tag, hits := hits);
            && WellFormed(kids[Head(key) := c]) && Lookup(kids[Head(key) := c], path) == Lookup(kids, path)
            && WellFormed(kids[Head(key) := Aligned(c, key)]) &&
              Lookup(kids[Head(key) := Aligned(c, key)], path) == Lookup(kids, path)
  {
    var old_ := kids[Head(key)];
    var c := old_.(tag := tag, hits := hits);
    assert kids[Head(key) := old_] == kids;
    SameBelow(kids, old_, c, path);
    var marked := kids[Head(key) := c];
    AlignedKeepsLookup(marked, key, path);
    assert marked[Head(key) := Aligned(c, key)] == kids[Head(key) := Aligned(c, key)];
  }

  // ----- insertion -----

  datatype InsertOutcome = InsertOutcome(kids: Children, matched: nat)

  /** New nodes for a key of which nothing is cached yet, at most `CHUNK` tokens each. */
  function Chain(key: seq<Token>, value: seq<Slot>, tag: Label): Node
    requires 0 < |key| == |value|
    decreases |key|
  {
    if |key| <= CHUNK then Node(key, value, tag, 0, map[])
    else Node(key[..CHUNK], value[..CHUNK], tag, 0, map[key[CHUNK] := Chain(key[CHUNK..], value[CHUNK..], tag)])
  }

  /** `_insert_helper`; `matched` is its return value, the length already cached. */
  function Insert(kids: Children, key: seq<Token>, value: seq<Slot>, tag: Label): InsertOutcome
    requires WellFormed(kids) && |key| == |value|
    decreases |key|
  {
    if key == [] then InsertOutcome(kids, 0)
    else if Head(key) !in kids then InsertOutcome(kids[Head(key) := Chain(key, value, tag)], 0)
    else
      AlignedOk(kids[Head(key)], key, Nobody);
      var d := Aligned(kids[Head(key)], key);
      var below := Insert(d.children, key[|d.key|..], value[|d.key|..], tag);
      InsertOutcome(kids[Head(key) := d.(children := below.kids)], |d.key| + below.matched)
  }

  lemma {:induction false} ChainMeaning(key: seq<Token>, value: seq<Slot>, tag: Label, path: seq<Token>)
    requires 0 < |key| == |value|
    ensures WellFormedNode(Chain(key, value, tag)) && Head(Chain(key, value, tag).key) == Head(key)
    ensures OwnedNode(Chain(key, value, tag), tag.creator)
    ensures Lookup(map[Head(key) := Chain(key, value, tag)], path)
         == if path != [] && path <= key then Some(value[|path| - 1]) else None
    decreases |key|
  {
    var c := Chain(key, value, tag);
    if |key| <= CHUNK {
    } else {
      var rest := if |path| > CHUNK then path[CHUNK..] else [];
      ChainMeaning(key[CHUNK..], value[CHUNK..], tag, rest);
      PrefixSplit(path, key, CHUNK);
    }
  }

  lemma {:induction false} InsertOk(kids: Children, key: seq<Token>, value: seq<Slot>, tag: Label)
    requires WellFormed(kids) && |key| == |value|
    ensures WellFormed(Insert(kids, key, value, tag).kids)
    ensures OwnedBy(kids, tag.creator) ==> OwnedBy(Insert(kids, key, value, tag).kids, tag.creator)
    decreases |key|
  {
    if key == [] {
    } else if Head(key) !in kids {
      ChainMeaning(key, value, tag, []);
    } else {
      var d := Aligned(kids[Head(key)], key);
      AlignedOk(kids[Head(key)], key, tag.creator);
      InsertOk(d.children, key[|d.key|..], value[|d.key|..], tag);
    }
  }

  /**
   Insertion extends the meaning of the tree by exactly the prefixes of `key` that
   were missing: every path cached before keeps its slot, and nothing else appears.
   */
  lemma {:induction false} InsertMeaning(
    kids: Children, key: seq<Token>, value: seq<Slot>, tag: Label, path: seq<Token>)
    requires WellFormed(kids) && |key| == |value|
    ensures WellFormed(Insert(kids, key, value, tag).kids)
    ensures Lookup(Insert(kids, key, value, tag).kids, path)
         == if Lookup(kids, path).Some? then Lookup(kids, path)
            else if path != [] && path <= key then Some(value[|path| - 1])
            else None
    decreases |key|
  {
    InsertOk(kids, key, value, tag);
    if key == [] {
    } else if Head(key) !in kids {
      ChainMeaning(key, value, tag, path);
    } else {
      var c := kids[Head(key)];
      var d := Aligned(c, key);
      var m := |d.key|;
      AlignedOk(c, key, Nobody);
      AlignedKeepsLookup(kids, key, path);
      InsertMeaning(d.children, key[m..], value[m..], tag, if m < |path| then path[m..] else []);
      InsertBelow(kids, d, Insert(d.children, key[m..], value[m..], tag).kids, key, value, path);
    }
  }

  /** An extension below one node, seen from above it. */
  lemma InsertBelow(kids: Children, d: Node, below: Children, key: seq<Token>, value: seq<Slot>, path: seq<Token>)
    requires WellFormed(kids) && WellFormedNode(d) && WellFormed(below) && |key| == |value|
    requires |d.key| <= |key| && d.key == key[..|d.key|]
    requires var rest := if |d.key| < |path| then path[|d.key|..] else [];
             Lookup(below, rest) == if Lookup(d.children, rest).Some? then Lookup(d.children, rest)
                                    else if rest != [] && rest <= key[|d.key|..] then Some(value[|d.key|..][|rest| - 1])
                                    else None
    ensures WellFormed(kids[Head(d.key) := d]) && WellFormed(kids[Head(d.key) := d.(children := below)])
    ensures var before := Lookup(kids[Head(d.key) := d], path);
            Lookup(kids[Head(d.key) := d.(children := below)], path) ==
              if before.Some? then before
              else if path != [] && path <= key then Some(value[|path| - 1])
              else None
  {
    LookupThrough(kids, d, path);
    LookupThrough(kids, d.(children := below), path);
    PrefixSplit(path, key, |d.key|);
  }

  /** How the prefixes of `key` are looked up, in terms of the first node on the way. */
  lemma LookupPrefix(kids: Children, key: seq<Token>, j: nat)
    requires WellFormed(kids) && key != [] && Head(key) in kids && 1 <= j <= |key|
    ensures var c := kids[Head(key)];
            var m := Common(c.key, key);
            Lookup(kids, key[..j]) ==
              if j <= m then Some(c.value[j - 1])
              else if m == |c.key| then Lookup(c.children, key[m..][..j - m])
              else None
  {
    var c := kids[Head(key)];
    var m := Common(c.key, key);
    if j <= m {
      assert key[..j] == key[..m][..j] == c.key[..j];
    } else if m == |c.key| {
      assert key[..j][..m] == key[..m];
      assert key[..j][m..] == key[m..][..j - m];
    } else {
      assert key[..j][m] != c.key[m];
      if j <= |c.key| {
        assert c.key[..j][m] == c.key[m];
      } else {
        assert key[..j][..|c.key|][m] == key[m];
      }
    }
  }

  /** The longest cached prefix ends inside the first node on the way. */
  lemma LongestInside(kids: Children, key: seq<Token>)
    requires WellFormed(kids) && key != [] && Head(key) in kids
    requires Common(kids[Head(key)].key, key) < |kids[Head(key)].key|
    ensures IsLongest(kids, key, Common(kids[Head(key)].key, key))
  {
    var m := Common(kids[Head(key)].key, key);
    forall j | 1 <= j <= m
      ensures Lookup(kids, key[..j]).Some?
    {
      LookupPrefix(kids, key, j);
    }
    if m < |key| {
      LookupPrefix(kids, key, m + 1);
    }
  }

  lemma CachedBelowFirst(kids: Children, key: seq<Token>, n: nat, j: nat)
    requires WellFormed(kids) && key != [] && Head(key) in kids
    requires Common(kids[Head(key)].key, key) == |kids[Head(key)].key|
    requires IsLongest(kids[Head(key)].children, key[|kids[Head(key)].key|..], n)
    requires 1 <= j <= |key|
    ensures j <= |kids[Head(key)].key| + n ==> Lookup(kids, key[..j]).Some?
    ensures j == |kids[Head(key)].key| + n + 1 ==> Lookup(kids, key[..j]).None?
  {
    LookupPrefix(kids, key, j);
  }

  /** The longest cached prefix goes on below the first node. */
  lemma LongestBelow(kids: Children, key: seq<Token>, n: nat)
    requires WellFormed(kids) && key != [] && Head(key) in kids
    requires Common(kids[Head(key)].key, key) == |kids[Head(key)].key|
    requires IsLongest(kids[Head(key)].children, key[|kids[Head(key)].key|..], n)
    ensures IsLongest(kids, key, |kids[Head(key)].key| + n)
  {
    var total := |kids[Head(key)].key| + n;
    assert total <= |key|;
    forall j | 1 <= j <= total
      ensures Lookup(kids, key[..j]).Some?
    {
      CachedBelowFirst(kids, key, n, j);
    }
    if total < |key| {
      CachedBelowFirst(kids, key, n, total + 1);
    }
  }

  /** The number returned by insertion is the length of the prefix already cached. */
  lemma {:induction false} InsertMatched(kids: Children, key: seq<Token>, value: seq<Slot>, tag: Label)
    requires WellFormed(kids) && |key| == |value|
    ensures IsLongest(kids, key, Insert(kids, key, value, tag).matched)
    decreases |key|
  {
    if key != [] && Head(key) in kids {
      var c := kids[Head(key)];
      var d := Aligned(c, key);
      AlignedOk(c, key, Nobody);
      if |d.key| < |c.key| {
        LongestInside(kids, key);
        if key[|d.key|..] != [] {
          assert Head(key[|d.key|..]) !in d.children;
        }
      } else {
        InsertMatched(d.children, key[|d.key|..], value[|d.key|..], tag);
        LongestBelow(kids, key, Insert(d.children, key[|d.key|..], value[|d.key|..], tag).matched);
      }
    } else if key != [] {
      assert Head(key[..1]) !in kids;
    }
  }
}
