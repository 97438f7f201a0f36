/**
 What the probes of a run show.  A full match is honest unless some earlier request began
 with the target's tokens; on a flushed, sharing server the full matches are the bits.
 */
module ChallengeRuns {
  import opened Ledger
  import opened CachePolicy
  import opened RadixTree
  import opened TenantCache
  import opened ResidualCache
  import opened ChallengeSlots

  // ----- what the cache holds was requested -----

  /** Everything in the reference begins one of these requests of its owner. */
  ghost predicate Within(ref: Reference, asked: iset<Asked>) {
    forall u: User, p: seq<Token> | p in MapOf(ref, u) :: Sent(asked, u, p)
  }

  ghost predicate Sent(asked: iset<Asked>, u: User, p: seq<Token>) {
    exists a :: a in asked && a.user == u && p <= a.key
  }

  function AskedOf(x: Setup, r: Request): Asked
    requires Proper(x) && IsRequest(x, r)
  {
    Asked(UserOf(x, r), KeyOf(x, r))
  }

  /** The requests that can be made before the probe of trial (c, t) are among these. */
  ghost predicate Covers(asked: iset<Asked>, x: Setup, c: nat, t: nat)
    requires Proper(x)
  {
    forall r | IsRequest(x, r) && Precedes(r, c, t) :: AskedOf(x, r) in asked
  }

  /** The server is protected, and everything it holds was requested. */
  ghost predicate Filled(server: Cache, ref: Reference, asked: iset<Asked>) {
    Valid(server) && !server.mode.Open? && Represents(server, ref) && Within(ref, asked)
  }

  lemma AskFills(
    server: Cache, ref: Reference, asked: iset<Asked>, x: Setup, w: World, r: Request, saves: Oracle)
    returns (ref': Reference)
    requires Proper(x) && Possible(w) && IsRequest(x, r) && Filled(server, ref, asked) && AskedOf(x, r) in asked
    ensures var c' := Ask(server, x, w, r, saves);
            Filled(c', ref', asked) && c'.mode == server.mode
  {
    var user, key := UserOf(x, r), KeyOf(x, r);
    var value := w.slots(r, |key|);
    ServeRefines(server, ref, user, key, value, saves);
    ref' := ref[user := Extend(MapOf(ref, user), key, value)];
    forall u: User, p: seq<Token> | p in MapOf(ref', u)
      ensures Sent(asked, u, p)
    {
      if p !in MapOf(ref, u) {
        assert AskedOf(x, r) in asked && u == user && p <= key;
      }
    }
  }

  lemma ChangeFills(server: Cache, ref: Reference, asked: iset<Asked>, op: Op) returns (ref': Reference)
    requires Filled(server, ref, asked)
    ensures Filled(Changed(server, op), ref', asked) && Changed(server, op).mode == server.mode
  {
    ref' := ref;
    if IsChange(server, op) {
      StepRefines(server, ref, op);
      StepMode(server, op);
      ref' := RefStep(ref, op);
      forall u: User, p: seq<Token> | p in MapOf(ref', u)
        ensures Sent(asked, u, p)
      {
        assert p in MapOf(ref, u);
      }
    }
  }

  lemma EventFills(
    server: Cache, ref: Reference, asked: iset<Asked>, x: Setup, w: World, e: Event, c: nat, t: nat)
    returns (ref': Reference)
    requires Proper(x) && Possible(w) && Filled(server, ref, asked) && Covers(asked, x, c, t) && Timely(x, e, c, t)
    ensures var c' := After(server, x, w, e);
            Filled(c', ref', asked) && c'.mode == server.mode
  {
    match e
    case Flush => ref' := map[];
    case Send(r, saves) => ref' := AskFills(server, ref, asked, x, w, r, saves);
    case Change(change) => ref' := ChangeFills(server, ref, asked, change(server));
  }

  lemma {:induction false} PlayFills(
    server: Cache, ref: Reference, asked: iset<Asked>, x: Setup, w: World, es: History, c: nat, t: nat)
    returns (ref': Reference)
    requires Proper(x) && Possible(w) && Filled(server, ref, asked) && Covers(asked, x, c, t) && AllTimely(x, es, c, t)
    ensures var c' := Play(server, x, w, es);
            Filled(c', ref', asked) && c'.mode == server.mode
    decreases es
  {
    match es
    case Nothing => ref' := ref;
    case Then(past, last) =>
      ref' := PlayFills(server, ref, asked, x, w, past, c, t);
      ref' := EventFills(Play(server, x, w, past), ref', asked, x, w, last, c, t);
  }

  // ----- full matches are honest -----

  /** A server for the run: empty at first, in a protected mode. */
  predicate Fresh(start: Cache) {
    start.roots == map[] && start.order == [] && !start.mode.Open?
  }

  /** No request that can precede the probe begins with the target, but for the victim's if it sends the target. */
  ghost predicate Clear(x: Setup, c: nat, t: nat)
    requires Proper(x) && IsTrial(x.n, c, t)
  {
    forall r | IsRequest(x, r) && Precedes(r, c, t) && !(r == VictimOf(c, t) && x.bits[c][t]) ::
      !(Text(x, c, t, 0) <= KeyOf(x, r))
  }

  ghost function AskedBefore(x: Setup, c: nat, t: nat): iset<Asked>
    requires Proper(x)
  {
    iset r | IsRequest(x, r) && Precedes(r, c, t) :: AskedOf(x, r)
  }

  /**
   Whichever flushes succeed, whatever the traffic, the evictions and the labels: if the trial
   is clear, its probe is a full match only if the victim sent the target, and never in Strict
   mode.
   */
  lemma ClearIsHonest(start: Cache, x: Setup, w: World, c: nat, t: nat)
    requires Fresh(start) && Proper(x) && Possible(w) && IsTrial(x.n, c, t) && Clear(x, c, t)
    ensures Hit(start, x, w, c, t) ==> x.bits[c][t] && start.mode.Balanced?
  {
    var server, asked := StateAt(start, x, w, c, t), AskedBefore(x, c, t);
    ScriptIsTimely(x, w, c, t, c, t);
    UpToProbeIsTimely(x, w, c, t, c, t);
    var ref := PlayFills(start, map[], asked, x, w, Script(x.n, w, c, t), c, t);
    ref := PlayFills(server, ref, asked, x, w, UpToProbe(w, c, t), c, t);
    if Hit(start, x, w, c, t) {
      HitHasCause(Probed(server, x, w, c, t), ref, x, w, c, t);
    }
  }

  lemma HitHasCause(server: Cache, ref: Reference, x: Setup, w: World, c: nat, t: nat)
    requires Proper(x) && IsTrial(x.n, c, t) && Filled(server, ref, AskedBefore(x, c, t)) && Clear(x, c, t)
    requires Shows(server, x, w, c, t)
    ensures x.bits[c][t] && server.mode.Balanced?
  {
    var user, target := UserOf(x, ProbeOf(c, t)), Text(x, c, t, 0);
    KeySize(x, ProbeOf(c, t));
    FullNeedsEntry(server, ref, user, target, w.saves(ProbeOf(c, t)));
    var u :| target in MapOf(ref, u) && (server.mode.Strict? ==> u == user);
    assert Sent(AskedBefore(x, c, t), u, target);
    var r :| IsRequest(x, r) && Precedes(r, c, t) && UserOf(x, r) == u && target <= KeyOf(x, r);
    assert r == VictimOf(c, t) && x.bits[c][t];
  }

  // ----- undisturbed runs -----

  /** A server that shares what it caches and can always write its ledger. */
  predicate Sharing(c: Cache) {
    && c.mode.Balanced? && c.autoshare && c.budget > 0
    && c.ledger.backed && c.ledger.Operational() && !c.file.Corrupt?
  }

  /** Every flush succeeds, nothing else happens, and every write of the ledger succeeds. */
  ghost predicate Undisturbed(w: World) {
    && Possible(w) && (forall i: nat :: w.calibFlushed(i) && w.calibNoise(i) == Nothing)
    && (forall c: nat, t: nat :: w.flushed(c, t))
    && (forall c: nat, t: nat, p: nat :: w.noise(c, t, p) == Nothing)
    && forall r: Request, u, d :: w.saves(r)(u, d)
  }

  /** What changed between two states of a sharing server: at most the charge of one text. */
  ghost predicate ChargedOnly(c: Cache, c': Cache, key: Prefix) {
    && Sharing(c) && Sharing(c') && c'.budget == c.budget
    && forall fp :: fp != key ==> Charge(Entries(c'.file), fp) == Charge(Entries(c.file), fp)
  }

  /** A request on the flushed server, and another user's. */
  lemma PairOnFlushed(server: Cache, x: Setup, w: World, r: Request, q: Request)
    requires Valid(server) && Sharing(server) && Proper(x) && Undisturbed(w)
    requires IsRequest(x, r) && IsRequest(x, q) && UserOf(x, r) != UserOf(x, q)
    ensures var c := Ask(Emptied(server), x, w, r, w.saves(r));
            && (Charge(Entries(server.file), KeyOf(x, r)) < server.budget && KeyOf(x, q) <= KeyOf(x, r) ==>
                Full(c, UserOf(x, q), KeyOf(x, q), w.saves(q)))
            && ChargedOnly(server, Ask(c, x, w, q, w.saves(q)), KeyOf(x, r))
  {
    KeySize(x, r);
    KeySize(x, q);
    var sent := KeyOf(x, r);
    SharedRequestServesIff(Emptied(server), UserOf(x, r), UserOf(x, q), sent, w.slots(r, |sent|), KeyOf(x, q),
                           w.saves(r), w.saves(q));
  }

  lemma OneOnFlushed(server: Cache, x: Setup, w: World, r: Request)
    requires Valid(server) && Sharing(server) && Proper(x) && Undisturbed(w) && IsRequest(x, r)
    ensures ChargedOnly(server, Ask(Emptied(server), x, w, r, w.saves(r)), KeyOf(x, r))
  {
    KeySize(x, r);
    UnseenIsUntouched(Emptied(server), UserOf(x, r), KeyOf(x, r), w.saves(r));
  }

  ghost predicate AllClear(x: Setup)
    requires Proper(x)
  {
    forall c, t | IsTrial(x.n, c, t) :: Clear(x, c, t)
  }

  /** The targets from trial (c, t) on have budget. */
  ghost predicate BudgetFrom(server: Cache, x: Setup, c: nat, t: nat)
    requires Proper(x)
  {
    && Valid(server) && Sharing(server)
    && forall d, s | IsTrial(x.n, d, s) && !Earlier(d, s, c, t) ::
         Charge(Entries(server.file), Text(x, d, s, 0)) < server.budget
  }

  /** A text that is no later target was charged. */
  lemma BudgetGoesOn(server: Cache, after: Cache, x: Setup, key: Prefix, c: nat, t: nat, c': nat, t': nat)
    requires Proper(x) && BudgetFrom(server, x, c, t) && Valid(after) && ChargedOnly(server, after, key)
    requires Earlier(c, t, c', t') || (c == c' && t == t')
    requires forall d, s | IsTrial(x.n, d, s) && !Earlier(d, s, c', t') :: Text(x, d, s, 0) != key
    ensures BudgetFrom(after, x, c', t')
  {
  }

  /** An earlier request is not for a later target. */
  lemma NotATarget(x: Setup, r: Request, d: nat, s: nat)
    requires Proper(x) && AllClear(x) && IsTrial(x.n, d, s) && IsRequest(x, r) && Precedes(r, d, s)
    requires r != VictimOf(d, s)
    ensures Text(x, d, s, 0) != KeyOf(x, r)
  {
    assert Clear(x, d, s);
  }

  lemma CalibrationBudget(server: Cache, x: Setup, w: World, i: nat)
    requires Proper(x) && Undisturbed(w) && AllClear(x) && BudgetFrom(server, x, 0, 0) && i < CALIBRATIONS
    ensures Events(x, Calibration(w, i)) && BudgetFrom(Play(server, x, w, Calibration(w, i)), x, 0, 0)
  {
    var r := if i < HALF then MissOf(i) else WarmOf(i - HALF);
    forall d, s | IsTrial(x.n, d, s)
      ensures Text(x, d, s, 0) != KeyOf(x, r)
    {
      NotATarget(x, r, d, s);
    }
    if i < HALF {
      BothShort(One(Flush), Send(r, w.saves(r)), Flush);
      assert Calibration(w, i) == Two(Flush, Send(r, w.saves(r)));
      PlayTwo(server, x, w, Flush, Send(r, w.saves(r)));
      OneOnFlushed(server, x, w, r);
    } else {
      var q := HitOf(i - HALF);
      BothShort(One(Flush), Send(r, w.saves(r)), Send(q, w.saves(q)));
      assert Calibration(w, i) == Three(Flush, Send(r, w.saves(r)), Send(q, w.saves(q)));
      PlayThree(server, x, w, Flush, Send(r, w.saves(r)), Send(q, w.saves(q)));
      assert RoleOf(r) != RoleOf(q);
      PairOnFlushed(server, x, w, r, q);
    }
    BudgetGoesOn(server, Play(server, x, w, Calibration(w, i)), x, KeyOf(x, r), 0, 0, 0, 0);
  }

  /** One trial: a target that is sent is seen, and only what the victim sent is charged. */
  lemma UndisturbedTrial(server: Cache, x: Setup, w: World, c: nat, t: nat)
    requires Proper(x) && Undisturbed(w) && AllClear(x) && IsTrial(x.n, c, t) && BudgetFrom(server, x, c, t)
    ensures x.bits[c][t] ==> Shows(Probed(server, x, w, c, t), x, w, c, t)
    ensures Events(x, Trial(w, c, t)) && BudgetFrom(Play(server, x, w, Trial(w, c, t)), x, c, t + 1)
  {
    var r, q := VictimOf(c, t), ProbeOf(c, t);
    var sendR, sendQ := Send(r, w.saves(r)), Send(q, w.saves(q));
    assert UpToProbe(w, c, t) == Two(Flush, sendR);
    assert Trial(w, c, t) == Three(Flush, sendR, sendQ);
    PlayTwo(server, x, w, Flush, sendR);
    PlayThree(server, x, w, Flush, sendR, sendQ);
    assert RoleOf(r) != RoleOf(q);
    PairOnFlushed(server, x, w, r, q);
    forall d, s | IsTrial(x.n, d, s) && !Earlier(d, s, c, t + 1)
      ensures Text(x, d, s, 0) != KeyOf(x, r)
    {
      NotATarget(x, r, d, s);
    }
    BudgetGoesOn(server, Play(server, x, w, Trial(w, c, t)), x, KeyOf(x, r), c, t, c, t + 1);
  }

  lemma UndisturbedStart(start: Cache, x: Setup, w: World)
    requires Proper(x) && Undisturbed(w) && AllClear(x) && BudgetFrom(start, x, 0, 0)
    ensures BudgetFrom(CalibratedAt(start, x, w, CALIBRATIONS), x, 0, 0)
  {
    var inv := (k: Cache, i: nat) => BudgetFrom(k, x, 0, 0);
    forall server: Cache, i: nat | i < CALIBRATIONS
      ensures PrefixKeeps(x, w, inv, server, i)
    {
      if inv(server, i) {
        CalibrationBudget(server, x, w, i);
      }
    }
    CalibrationKeeps(start, x, w, inv, CALIBRATIONS);
  }

  lemma UndisturbedState(start: Cache, x: Setup, w: World, c: nat, t: nat)
    requires Proper(x) && Undisturbed(w) && AllClear(x) && BudgetFrom(start, x, 0, 0) && IsTrial(x.n, c, t)
    ensures BudgetFrom(StateAt(start, x, w, c, t), x, c, t)
  {
    var inv := (k: Cache, d: nat, s: nat) => BudgetFrom(k, x, d, s);
    UndisturbedStart(start, x, w);
    forall server: Cache, d: nat, s: nat | Earlier(d, s, c, t)
      ensures TrialKeeps(x, w, inv, server, d, s)
    {
      if IsTrial(x.n, d, s) && inv(server, d, s) {
        UndisturbedTrial(server, x, w, d, s);
      }
    }
    RunKeeps(start, x, w, inv, c, t);
  }

  /** On a sharing server that is flushed and otherwise left alone, the full matches are exactly the bits. */
  lemma UndisturbedHitsAreBits(start: Cache, x: Setup, w: World, c: nat, t: nat)
    requires Fresh(start) && Proper(x) && Undisturbed(w) && AllClear(x) && BudgetFrom(start, x, 0, 0)
    requires IsTrial(x.n, c, t)
    ensures Hit(start, x, w, c, t) <==> x.bits[c][t]
  {
    UndisturbedState(start, x, w, c, t);
    UndisturbedTrial(StateAt(start, x, w, c, t), x, w, c, t);
    assert Clear(x, c, t);
    ClearIsHonest(start, x, w, c, t);
  }

  // ----- running it -----

  /** Lets the events happen one after the other. */
  method LetHappen(server: Cache, x: Setup, w: World, es: History) returns (cache: Cache)
    requires Valid(server) && Proper(x) && Possible(w) && Events(x, es)
    ensures cache == Play(server, x, w, es)
    decreases es
  {
    match es
    case Nothing => cache := server;
    case Then(past, last) =>
      cache := LetHappen(server, x, w, past);
      cache := After(cache, x, w, last);
  }

  /** Attempts a flush before each calibration prefix, and requests it. */
  method Calibrate(start: Cache, x: Setup, w: World) returns (cache: Cache)
    requires Valid(start) && Proper(x) && Possible(w)
    ensures cache == CalibratedAt(start, x, w, CALIBRATIONS)
  {
    cache := start;
    for i := 0 to CALIBRATIONS
      invariant cache == CalibratedAt(start, x, w, i)
    {
      CalibratedNext(start, x, w, i);
      cache := LetHappen(cache, x, w, Calibration(w, i));
    }
  }

  /** One trial: the events up to the probe, the probe, and what happens after it. */
  method RunTrial(server: Cache, x: Setup, w: World, c: nat, t: nat) returns (cache: Cache, full: bool)
    requires Valid(server) && Proper(x) && Possible(w) && IsTrial(x.n, c, t)
    ensures full == Shows(Probed(server, x, w, c, t), x, w, c, t)
    ensures Events(x, Trial(w, c, t)) && cache == Play(server, x, w, Trial(w, c, t))
  {
    TrialEvents(x, w, c, t);
    cache := LetHappen(server, x, w, UpToProbe(w, c, t));
    full := Shows(cache, x, w, c, t);
    PlayBoth(server, x, w, UpToProbe(w, c, t), FromProbe(w, c, t));
    cache := LetHappen(cache, x, w, FromProbe(w, c, t));
  }

  method NextTrial(ghost start: Cache, server: Cache, x: Setup, w: World, c: nat, t: nat)
    returns (cache: Cache, full: bool)
    requires Valid(start) && Proper(x) && Possible(w) && IsTrial(x.n, c, t) && server == StateAt(start, x, w, c, t)
    ensures cache == StateAt(start, x, w, c, t + 1) && full == Hit(start, x, w, c, t)
  {
    StateNext(start, x, w, c, t);
    cache, full := RunTrial(server, x, w, c, t);
  }

  /** The first `m` answers of a condition. */
  ghost predicate Row(start: Cache, x: Setup, w: World, c: nat, m: nat, row: seq<bool>)
    requires Valid(start) && Proper(x) && Possible(w) && c < CONDITIONS && m <= x.n
  {
    |row| == m && forall t | 0 <= t < m :: row[t] == Hit(start, x, w, c, t)
  }

  method RunCondition(ghost start: Cache, server: Cache, x: Setup, w: World, c: nat)
    returns (cache: Cache, row: seq<bool>)
    requires Valid(start) && Proper(x) && Possible(w) && c < CONDITIONS && server == StateAt(start, x, w, c, 0)
    ensures cache == StateAt(start, x, w, c, x.n) && Row(start, x, w, c, x.n, row)
  {
    cache, row := server, [];
    for t := 0 to x.n
      invariant cache == StateAt(start, x, w, c, t) && Row(start, x, w, c, t, row)
    {
      var full;
      cache, full := NextTrial(start, cache, x, w, c, t);
      row := row + [full];
    }
  }

  /** The answers of the first conditions. */
  ghost predicate Rows(start: Cache, x: Setup, w: World, hits: seq<seq<bool>>)
    requires Valid(start) && Proper(x) && Possible(w)
  {
    |hits| <= CONDITIONS && forall c | 0 <= c < |hits| :: Row(start, x, w, c, x.n, hits[c])
  }

  /** The server when condition `c` begins. */
  ghost predicate Begins(start: Cache, x: Setup, w: World, c: nat, cache: Cache)
    requires Valid(start) && Proper(x) && Possible(w) && c <= CONDITIONS
  {
    cache == if c == 0 then CalibratedAt(start, x, w, CALIBRATIONS) else StateAt(start, x, w, c - 1, x.n)
  }

  /** The conditions run so far and the server after them. */
  ghost predicate Progress(start: Cache, x: Setup, w: World, cache: Cache, hits: seq<seq<bool>>) {
    && Valid(start) && Proper(x) && Possible(w) && Rows(start, x, w, hits)
    && Begins(start, x, w, |hits|, cache)
  }

  method NextCondition(ghost start: Cache, server: Cache, x: Setup, w: World, before: seq<seq<bool>>)
    returns (cache: Cache, hits: seq<seq<bool>>)
    requires Progress(start, x, w, server, before) && |before| < CONDITIONS
    ensures Progress(start, x, w, cache, hits) && |hits| == |before| + 1
  {
    StateFirst(start, x, w, |before|);
    var row;
    cache, row := RunCondition(start, server, x, w, |before|);
    RowsGrow(start, x, w, before, row);
    hits := before + [row];
  }

  /** In clear trials no full match without the victim's target, and none at all in Strict mode. */
  ghost predicate Honest(x: Setup, mode: Mode, c: nat, row: seq<bool>)
    requires Proper(x) && c < CONDITIONS
  {
    |row| == x.n && forall t: nat | t < x.n && Clear(x, c, t) :: row[t] ==> x.bits[c][t] && mode.Balanced?
  }

  /**
   The whole run on a fresh server, whichever flushes succeed and whatever happens between the
   requests.  In a clear trial a probe is a full match only if the victim sent the target, and
   never in Strict mode.  On a sharing server that is flushed and otherwise left alone, with
   budget for the targets, the full matches are exactly the challenge bits.
   */
  method RunMatrix(start: Cache, x: Setup, w: World) returns (hits: seq<seq<bool>>)
    requires Fresh(start) && Proper(x) && Possible(w)
    ensures |hits| == CONDITIONS && Rows(start, x, w, hits)
    ensures forall c | 0 <= c < CONDITIONS :: Honest(x, start.mode, c, hits[c])
    ensures Undisturbed(w) && AllClear(x) && BudgetFrom(start, x, 0, 0) ==> hits == x.bits
  {
    var cache := Calibrate(start, x, w);
    hits := [];
    for c := 0 to CONDITIONS
      invariant |hits| == c && Progress(start, x, w, cache, hits)
    {
      cache, hits := NextCondition(start, cache, x, w, hits);
    }
    Conclude(start, x, w, hits);
  }

  lemma RowsGrow(start: Cache, x: Setup, w: World, hits: seq<seq<bool>>, row: seq<bool>)
    requires Valid(start) && Proper(x) && Possible(w) && |hits| < CONDITIONS
    requires Rows(start, x, w, hits) && Row(start, x, w, |hits|, x.n, row)
    ensures Rows(start, x, w, hits + [row])
  {
    forall d | 0 <= d < |hits| + 1
      ensures Row(start, x, w, d, x.n, (hits + [row])[d])
    {
      assert (hits + [row])[d] == if d < |hits| then hits[d] else row;
    }
  }

  lemma Conclude(start: Cache, x: Setup, w: World, hits: seq<seq<bool>>)
    requires Fresh(start) && Proper(x) && Possible(w) && |hits| == CONDITIONS && Rows(start, x, w, hits)
    ensures forall c | 0 <= c < CONDITIONS :: Honest(x, start.mode, c, hits[c])
    ensures Undisturbed(w) && AllClear(x) && BudgetFrom(start, x, 0, 0) ==> hits == x.bits
  {
    forall c | 0 <= c < CONDITIONS
      ensures Honest(x, start.mode, c, hits[c])
      ensures Undisturbed(w) && AllClear(x) && BudgetFrom(start, x, 0, 0) ==> hits[c] == x.bits[c]
    {
      ConcludeRow(start, x, w, c, hits[c]);
    }
  }

  lemma ConcludeRow(start: Cache, x: Setup, w: World, c: nat, row: seq<bool>)
    requires Fresh(start) && Proper(x) && Possible(w) && c < CONDITIONS && Row(start, x, w, c, x.n, row)
    ensures Honest(x, start.mode, c, row)
    ensures Undisturbed(w) && AllClear(x) && BudgetFrom(start, x, 0, 0) ==> row == x.bits[c]
  {
    forall t: nat | t < x.n
      ensures Clear(x, c, t) ==> (row[t] ==> x.bits[c][t] && start.mode.Balanced?)
      ensures Undisturbed(w) && AllClear(x) && BudgetFrom(start, x, 0, 0) ==> row[t] == x.bits[c][t]
    {
      if Clear(x, c, t) {
        ClearIsHonest(start, x, w, c, t);
      }
      if Undisturbed(w) && AllClear(x) && BudgetFrom(start, x, 0, 0) {
        UndisturbedHitsAreBits(start, x, w, c, t);
      }
    }
  }
}
