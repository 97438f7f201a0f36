/**
 When a probe of the robustness experiment can be a full match although the victim sent its
 control: exactly when the trial is not clear.  The run that shows it is given.
 */
module FalseMatches {
  import opened Ledger
  import opened CachePolicy
  import opened RadixTree
  import opened SharedTrees
  import opened TenantCache
  import opened ResidualCache
  import opened ChallengeSlots
  import opened ChallengeRuns
  import opened PrivateServers

  // ----- the run that misleads -----

  /** A fresh server that shares nothing and can make every charge of a probe. */
  function PrivateServer(): Cache {
    Empty(Balanced, LONGEST + 1, false, Opened(true, Missing), Missing)
  }

  /** The attacker of a trial. */
  function Prober(x: Setup, t: nat): User {
    x.name(Attacker(t % 2))
  }

  /** In a trial whose victim sends its control: a request that can precede the probe and begins with the target. */
  ghost predicate Offends(x: Setup, r: Request, c: nat, t: nat) {
    && Proper(x) && IsTrial(x.n, c, t) && !x.bits[c][t] && IsRequest(x, r) && Precedes(r, c, t)
    && Text(x, c, t, 0) <= KeyOf(x, r)
  }

  /** The attacker loses what it cached in a probe. */
  function Forgotten(x: Setup, d: nat, s: nat): Event
    requires Proper(x) && IsTrial(x.n, d, s)
  {
    var op := EvictLeaf(Prober(x, s), Text(x, d, s, 0), 0);
    Change((k: Cache) => op)
  }

  /** Everything that the owner of the offending request has cached is shared. */
  function Exposed(owner: User): Event {
    Change((k: Cache) => Relabel(owner, ShareAll(Tree(k, owner))))
  }

  /**
   What happens beside the requests: if the prober is not itself the offender, its entries are
   evicted after each of its probes, and just before the probe in question the offender's
   entries are shared.
   */
  function Mischief(x: Setup, r: Request, c: nat, t: nat, d: nat, s: nat, p: nat): History
    requires Proper(x)
  {
    if RoleOf(r) == Attacker(t % 2) then Nothing
    else if p == 1 && d == c && s == t then
      Then(if r.TrafficOf? then One(Send(r, ALL_SAVE)) else Nothing, Exposed(UserOf(x, r)))
    else if p == 2 && IsTrial(x.n, d, s) && s % 2 == t % 2 then One(Forgotten(x, d, s))
    else Nothing
  }

  /** No flush succeeds, and every write of the ledger does. */
  function Misleading(x: Setup, r: Request, c: nat, t: nat): World
    requires Proper(x)
  {
    World((i: nat) => false, (i: nat) => Nothing, (d: nat, s: nat) => false,
          (d: nat, s: nat, p: nat) => Mischief(x, r, c, t, d, s, p),
          (q: Request) => ALL_SAVE, (q: Request, k: nat) => seq(k, (i: nat) => 0))
  }

  /** What is used of that world. */
  ghost predicate Misleads(w: World, x: Setup, r: Request, c: nat, t: nat) {
    && Offends(x, r, c, t) && Possible(w)
    && (forall i: nat :: !w.calibFlushed(i) && w.calibNoise(i) == Nothing)
    && (forall d: nat, s: nat :: !w.flushed(d, s))
    && (forall d: nat, s: nat, p: nat :: w.noise(d, s, p) == Mischief(x, r, c, t, d, s, p))
    && forall q: Request :: w.saves(q) == ALL_SAVE
  }

  lemma MischiefIsNoise(x: Setup, r: Request, c: nat, t: nat, d: nat, s: nat, p: nat)
    requires Offends(x, r, c, t)
    ensures AllNoise(Mischief(x, r, c, t, d, s, p), d)
  {
    assert AllNoise(Nothing, d);
    if p == 1 && d == c && s == t && r.TrafficOf? {
      assert AllNoise(One(Send(r, ALL_SAVE)), d);
    }
  }

  lemma MisleadingMisleads(x: Setup, r: Request, c: nat, t: nat)
    requires Offends(x, r, c, t)
    ensures Misleads(Misleading(x, r, c, t), x, r, c, t)
  {
    var w := Misleading(x, r, c, t);
    forall d: nat, s: nat, p: nat
      ensures AllNoise(w.noise(d, s, p), d)
    {
      MischiefIsNoise(x, r, c, t, d, s, p);
    }
  }

  /** Whether the offending request has been made when trial (d, s) begins. */
  predicate Done(r: Request, d: nat, s: nat) {
    match r
    case VictimOf(c, t) => Earlier(c, t, d, s)
    case ProbeOf(c, t) => Earlier(c, t, d, s)
    case TrafficOf(_, _) => false
    case _ => true
  }

  /** What every state of the run keeps. */
  ghost predicate Kept(server: Cache, x: Setup, r: Request, c: nat, t: nat, offended: bool) {
    && Offends(x, r, c, t) && Quiet(server) && server.budget == LONGEST + 1
    && (RoleOf(r) != Attacker(t % 2) ==> Tree(server, Prober(x, t)) == map[])
    && (offended ==> Holds(server, UserOf(x, r), Text(x, c, t, 0)))
  }

  lemma KeptLess(server: Cache, x: Setup, r: Request, c: nat, t: nat, more: bool, less: bool)
    requires Kept(server, x, r, c, t, more) && (less ==> more)
    ensures Kept(server, x, r, c, t, less)
  {
  }

  predicate MayKeep(r: Request, t: nat, q: Request) {
    RoleOf(q) != Attacker(t % 2) || RoleOf(r) == Attacker(t % 2)
  }

  /** A request by anyone but a prober whose entries must go. */
  lemma SendKeeps(server: Cache, x: Setup, r: Request, c: nat, t: nat, offended: bool, w: World, q: Request)
    requires Kept(server, x, r, c, t, offended) && Possible(w) && IsRequest(x, q)
    requires MayKeep(r, t, q)
    ensures Kept(Ask(server, x, w, q, ALL_SAVE), x, r, c, t, offended || q == r)
  {
    KeySize(x, q);
    KeySize(x, ProbeOf(c, t));
    var key := KeyOf(x, q);
    QuietServe(server, UserOf(x, q), key, w.slots(q, |key|), ALL_SAVE);
  }

  lemma ForgetIs(server: Cache, x: Setup, w: World, d: nat, s: nat)
    requires Valid(server) && Proper(x) && Possible(w) && IsTrial(x.n, d, s)
    requires Enabled(server, EvictLeaf(Prober(x, s), Text(x, d, s, 0), 0))
    ensures After(server, x, w, Forgotten(x, d, s)) == Step(server, EvictLeaf(Prober(x, s), Text(x, d, s, 0), 0))
  {
  }

  /** A probe of the prober, after which its entry is evicted. */
  lemma ProbeAndForget(
    server: Cache, x: Setup, r: Request, c: nat, t: nat, offended: bool, w: World, d: nat, s: nat)
    requires Kept(server, x, r, c, t, offended) && Possible(w) && IsTrial(x.n, d, s) && s % 2 == t % 2
    requires RoleOf(r) != Attacker(t % 2)
    ensures Kept(After(Ask(server, x, w, ProbeOf(d, s), ALL_SAVE), x, w, Forgotten(x, d, s)), x, r, c, t, offended)
  {
    var q, user := ProbeOf(d, s), Prober(x, t);
    KeySize(x, q);
    KeySize(x, ProbeOf(c, t));
    var key := KeyOf(x, q);
    var value := w.slots(q, |key|);
    QuietServe(server, user, key, value, ALL_SAVE);
    var n := Node(key, value, Label(By(user), Private, 0, false), 0, map[]);
    QuietEvict(Ask(server, x, w, q, ALL_SAVE), user, n);
    ForgetIs(Ask(server, x, w, q, ALL_SAVE), x, w, d, s);
  }

  /** The events of a trial before the one in question. */
  lemma TrialIs(w: World, x: Setup, r: Request, c: nat, t: nat, d: nat, s: nat)
    requires Misleads(w, x, r, c, t) && IsTrial(x.n, d, s) && (d != c || s != t)
    ensures var requests := Two(Send(VictimOf(d, s), ALL_SAVE), Send(ProbeOf(d, s), ALL_SAVE));
            Trial(w, d, s) ==
              if RoleOf(r) != Attacker(t % 2) && s % 2 == t % 2 then Then(requests, Forgotten(x, d, s)) else requests
  {
    var victim, probe := Send(VictimOf(d, s), ALL_SAVE), Send(ProbeOf(d, s), ALL_SAVE);
    BothShort(Nothing, victim, probe);
    BothShort(One(victim), probe, Forgotten(x, d, s));
    BothShort(One(probe), Forgotten(x, d, s), probe);
  }

  /** Two requests by tenants that may keep what they cache. */
  lemma TwoKeep(
    server: Cache, x: Setup, r: Request, c: nat, t: nat, offended: bool, w: World, a: Request, b: Request)
    requires Kept(server, x, r, c, t, offended) && Possible(w) && IsRequest(x, a) && IsRequest(x, b)
    requires MayKeep(r, t, a) && MayKeep(r, t, b)
    ensures var es := Two(Send(a, ALL_SAVE), Send(b, ALL_SAVE));
            Events(x, es) && Kept(Play(server, x, w, es), x, r, c, t, offended || a == r || b == r)
  {
    SendKeeps(server, x, r, c, t, offended, w, a);
    SendKeeps(Ask(server, x, w, a, ALL_SAVE), x, r, c, t, offended || a == r, w, b);
    PlayTwo(server, x, w, Send(a, ALL_SAVE), Send(b, ALL_SAVE));
  }

  lemma ThreeKeep(server: Cache, x: Setup, r: Request, c: nat, t: nat, offended: bool, w: World, d: nat, s: nat)
    requires Kept(server, x, r, c, t, offended) && Possible(w) && IsTrial(x.n, d, s)
    requires s % 2 == t % 2 && RoleOf(r) != Attacker(t % 2)
    ensures var es := Three(Send(VictimOf(d, s), ALL_SAVE), Send(ProbeOf(d, s), ALL_SAVE), Forgotten(x, d, s));
            Events(x, es) && Kept(Play(server, x, w, es), x, r, c, t, offended || VictimOf(d, s) == r)
  {
    var victim, probe := VictimOf(d, s), ProbeOf(d, s);
    SendKeeps(server, x, r, c, t, offended, w, victim);
    ProbeAndForget(Ask(server, x, w, victim, ALL_SAVE), x, r, c, t, offended || victim == r, w, d, s);
    PlayThree(server, x, w, Send(victim, ALL_SAVE), Send(probe, ALL_SAVE), Forgotten(x, d, s));
  }

  lemma DoneNext(r: Request, d: nat, s: nat)
    ensures Done(r, d, s + 1) <==> Done(r, d, s) || VictimOf(d, s) == r || ProbeOf(d, s) == r
  {
  }

  lemma PlainTrialKeeps(server: Cache, w: World, x: Setup, r: Request, c: nat, t: nat, d: nat, s: nat)
    requires Kept(server, x, r, c, t, Done(r, d, s)) && IsTrial(x.n, d, s) && Earlier(d, s, c, t)
    requires Misleads(w, x, r, c, t) && (RoleOf(r) == Attacker(t % 2) || s % 2 != t % 2)
    ensures Events(x, Trial(w, d, s)) && Kept(Play(server, x, w, Trial(w, d, s)), x, r, c, t, Done(r, d, s + 1))
  {
    var offended, es := Done(r, d, s), Two(Send(VictimOf(d, s), ALL_SAVE), Send(ProbeOf(d, s), ALL_SAVE));
    TrialIs(w, x, r, c, t, d, s);
    DoneNext(r, d, s);
    TwoKeep(server, x, r, c, t, offended, w, VictimOf(d, s), ProbeOf(d, s));
    KeptLess(Play(server, x, w, es), x, r, c, t, offended || VictimOf(d, s) == r || ProbeOf(d, s) == r,
             Done(r, d, s + 1));
  }

  lemma ProberTrialKeeps(server: Cache, w: World, x: Setup, r: Request, c: nat, t: nat, d: nat, s: nat)
    requires Kept(server, x, r, c, t, Done(r, d, s)) && IsTrial(x.n, d, s) && Earlier(d, s, c, t)
    requires Misleads(w, x, r, c, t) && RoleOf(r) != Attacker(t % 2) && s % 2 == t % 2
    ensures Events(x, Trial(w, d, s)) && Kept(Play(server, x, w, Trial(w, d, s)), x, r, c, t, Done(r, d, s + 1))
  {
    var offended := Done(r, d, s);
    var es := Three(Send(VictimOf(d, s), ALL_SAVE), Send(ProbeOf(d, s), ALL_SAVE), Forgotten(x, d, s));
    TrialIs(w, x, r, c, t, d, s);
    DoneNext(r, d, s);
    assert Trial(w, d, s) == es && ProbeOf(d, s) != r;
    ThreeKeep(server, x, r, c, t, offended, w, d, s);
    KeptLess(Play(server, x, w, es), x, r, c, t, offended || VictimOf(d, s) == r, Done(r, d, s + 1));
  }

  /** Whether the offending request is among the first `i` calibration prefixes. */
  predicate Calibrated(r: Request, i: nat) {
    match r
    case MissOf(k) => k < i
    case WarmOf(k) => HALF + k < i
    case HitOf(k) => HALF + k < i
    case _ => false
  }

  lemma MissKeeps(server: Cache, w: World, x: Setup, r: Request, c: nat, t: nat, i: nat)
    requires Kept(server, x, r, c, t, Calibrated(r, i)) && i < HALF && Misleads(w, x, r, c, t)
    ensures Events(x, Calibration(w, i))
    ensures Kept(Play(server, x, w, Calibration(w, i)), x, r, c, t, Calibrated(r, i + 1))
  {
    var miss := MissOf(i);
    BothShort(Nothing, Send(miss, ALL_SAVE), Send(miss, ALL_SAVE));
    assert Calibration(w, i) == One(Send(miss, ALL_SAVE));
    SendKeeps(server, x, r, c, t, Calibrated(r, i), w, miss);
    PlayOne(server, x, w, Send(miss, ALL_SAVE));
    KeptLess(Ask(server, x, w, miss, ALL_SAVE), x, r, c, t, Calibrated(r, i) || miss == r, Calibrated(r, i + 1));
  }

  lemma WarmKeeps(server: Cache, w: World, x: Setup, r: Request, c: nat, t: nat, i: nat)
    requires Kept(server, x, r, c, t, Calibrated(r, i)) && HALF <= i < CALIBRATIONS
    requires Misleads(w, x, r, c, t)
    ensures Events(x, Calibration(w, i))
    ensures Kept(Play(server, x, w, Calibration(w, i)), x, r, c, t, Calibrated(r, i + 1))
  {
    var warm, hit := WarmOf(i - HALF), HitOf(i - HALF);
    var es := Two(Send(warm, ALL_SAVE), Send(hit, ALL_SAVE));
    BothShort(Nothing, Send(warm, ALL_SAVE), Send(hit, ALL_SAVE));
    assert Calibration(w, i) == es;
    TwoKeep(server, x, r, c, t, Calibrated(r, i), w, warm, hit);
    KeptLess(Play(server, x, w, es), x, r, c, t, Calibrated(r, i) || warm == r || hit == r, Calibrated(r, i + 1));
  }

  // ----- the state when the trial begins -----

  lemma StartKept(start: Cache, w: World, x: Setup, r: Request, c: nat, t: nat)
    requires Misleads(w, x, r, c, t) && Kept(start, x, r, c, t, false)
    ensures Kept(CalibratedAt(start, x, w, CALIBRATIONS), x, r, c, t, Calibrated(r, CALIBRATIONS))
  {
    var inv := (k: Cache, i: nat) => Kept(k, x, r, c, t, Calibrated(r, i));
    KeptLess(start, x, r, c, t, false, Calibrated(r, 0));
    forall server: Cache, i: nat | i < CALIBRATIONS
      ensures PrefixKeeps(x, w, inv, server, i)
    {
      if inv(server, i) && i < HALF {
        MissKeeps(server, w, x, r, c, t, i);
      } else if inv(server, i) {
        WarmKeeps(server, w, x, r, c, t, i);
      }
    }
    CalibrationKeeps(start, x, w, inv, CALIBRATIONS);
  }

  lemma DoneTurn(x: Setup, r: Request, d: nat)
    requires IsRequest(x, r)
    ensures Done(r, d + 1, 0) ==> Done(r, d, x.n)
    ensures Done(r, 0, 0) ==> Calibrated(r, CALIBRATIONS)
  {
  }

  ghost function Invariant(x: Setup, r: Request, c: nat, t: nat): (Cache, nat, nat) -> bool {
    (k: Cache, d: nat, s: nat) => Kept(k, x, r, c, t, Done(r, d, s))
  }

  lemma TrialsKeep(w: World, x: Setup, r: Request, c: nat, t: nat)
    requires Misleads(w, x, r, c, t)
    ensures forall server: Cache, d: nat, s: nat | Earlier(d, s, c, t) ::
              TrialKeeps(x, w, Invariant(x, r, c, t), server, d, s)
  {
    var inv := Invariant(x, r, c, t);
    forall server: Cache, d: nat, s: nat | Earlier(d, s, c, t)
      ensures TrialKeeps(x, w, inv, server, d, s)
    {
      if IsTrial(x.n, d, s) && inv(server, d, s) {
        NextKept(server, w, x, r, c, t, d, s);
      }
    }
  }

  lemma TurnsKeep(x: Setup, r: Request, c: nat, t: nat)
    requires IsRequest(x, r)
    ensures forall server: Cache, d: nat | d < c :: TurnKeeps(x.n, Invariant(x, r, c, t), server, d)
  {
    var inv := Invariant(x, r, c, t);
    forall server: Cache, d: nat | d < c
      ensures TurnKeeps(x.n, inv, server, d)
    {
      DoneTurn(x, r, d);
      assert inv(server, d, x.n) ==> Kept(server, x, r, c, t, Done(r, d + 1, 0));
    }
  }

  lemma StateKept(start: Cache, w: World, x: Setup, r: Request, c: nat, t: nat)
    requires Misleads(w, x, r, c, t) && Kept(start, x, r, c, t, false)
    ensures Kept(StateAt(start, x, w, c, t), x, r, c, t, Done(r, c, t))
  {
    StartKept(start, w, x, r, c, t);
    DoneTurn(x, r, 0);
    KeptLess(CalibratedAt(start, x, w, CALIBRATIONS), x, r, c, t, Calibrated(r, CALIBRATIONS), Done(r, 0, 0));
    TrialsKeep(w, x, r, c, t);
    TurnsKeep(x, r, c, t);
    RunKeeps(start, x, w, Invariant(x, r, c, t), c, t);
  }

  lemma NextKept(server: Cache, w: World, x: Setup, r: Request, c: nat, t: nat, d: nat, s: nat)
    requires Misleads(w, x, r, c, t) && IsTrial(x.n, d, s) && Earlier(d, s, c, t)
    requires Kept(server, x, r, c, t, Done(r, d, s))
    ensures Events(x, Trial(w, d, s)) && Kept(Play(server, x, w, Trial(w, d, s)), x, r, c, t, Done(r, d, s + 1))
  {
    if RoleOf(r) != Attacker(t % 2) && s % 2 == t % 2 {
      ProberTrialKeeps(server, w, x, r, c, t, d, s);
    } else {
      PlainTrialKeeps(server, w, x, r, c, t, d, s);
    }
  }

  // ----- the trial in question -----

  /** The offending request is made before the probe. */
  lemma OffenceIsMade(x: Setup, r: Request, c: nat, t: nat)
    requires Offends(x, r, c, t)
    ensures Done(r, c, t) || r == VictimOf(c, t) || r.TrafficOf?
    ensures RoleOf(r) == Attacker(t % 2) ==> Done(r, c, t)
  {
  }

  lemma UpToProbeIs(w: World, x: Setup, r: Request, c: nat, t: nat)
    requires Misleads(w, x, r, c, t)
    ensures var victim, open := Send(VictimOf(c, t), ALL_SAVE), Exposed(UserOf(x, r));
            UpToProbe(w, c, t) ==
              if RoleOf(r) == Attacker(t % 2) then One(victim)
              else if r.TrafficOf? then Three(victim, Send(r, ALL_SAVE), open) else Two(victim, open)
  {
    var victim, open := Send(VictimOf(c, t), ALL_SAVE), Exposed(UserOf(x, r));
    BothShort(One(victim), open, open);
    BothShort(One(victim), Send(r, ALL_SAVE), open);
  }

  /** The prober itself made the offending request. */
  lemma OwnMisleads(server: Cache, w: World, x: Setup, r: Request, c: nat, t: nat)
    requires Misleads(w, x, r, c, t) && Kept(server, x, r, c, t, Done(r, c, t)) && RoleOf(r) == Attacker(t % 2)
    ensures Shows(Probed(server, x, w, c, t), x, w, c, t)
  {
    var victim := VictimOf(c, t);
    OffenceIsMade(x, r, c, t);
    UpToProbeIs(w, x, r, c, t);
    TrialEvents(x, w, c, t);
    PlayOne(server, x, w, Send(victim, ALL_SAVE));
    SendKeeps(server, x, r, c, t, true, w, victim);
    KeySize(x, ProbeOf(c, t));
    OwnAnswers(Ask(server, x, w, victim, ALL_SAVE), Prober(x, t), Text(x, c, t, 0), ALL_SAVE);
  }

  /** Its user's entries are shared, and answer the probe. */
  lemma ExposedMisleads(server: Cache, w: World, x: Setup, r: Request, c: nat, t: nat)
    requires Misleads(w, x, r, c, t) && Kept(server, x, r, c, t, true) && RoleOf(r) != Attacker(t % 2)
    ensures Shows(After(server, x, w, Exposed(UserOf(x, r))), x, w, c, t)
  {
    KeySize(x, ProbeOf(c, t));
    OpenedAnswers(server, UserOf(x, r), Prober(x, t), Text(x, c, t, 0), ALL_SAVE);
  }

  lemma OtherMisleads(server: Cache, w: World, x: Setup, r: Request, c: nat, t: nat)
    requires Misleads(w, x, r, c, t) && Kept(server, x, r, c, t, Done(r, c, t)) && RoleOf(r) != Attacker(t % 2)
    ensures Shows(Probed(server, x, w, c, t), x, w, c, t)
  {
    var victim, open := VictimOf(c, t), Exposed(UserOf(x, r));
    OffenceIsMade(x, r, c, t);
    UpToProbeIs(w, x, r, c, t);
    TrialEvents(x, w, c, t);
    if r.TrafficOf? {
      TwoKeep(server, x, r, c, t, Done(r, c, t), w, victim, r);
      PlayTwo(server, x, w, Send(victim, ALL_SAVE), Send(r, ALL_SAVE));
      PlayThree(server, x, w, Send(victim, ALL_SAVE), Send(r, ALL_SAVE), open);
      ExposedMisleads(Play(server, x, w, Two(Send(victim, ALL_SAVE), Send(r, ALL_SAVE))), w, x, r, c, t);
    } else {
      SendKeeps(server, x, r, c, t, Done(r, c, t), w, victim);
      PlayTwo(server, x, w, Send(victim, ALL_SAVE), open);
      ExposedMisleads(Ask(server, x, w, victim, ALL_SAVE), w, x, r, c, t);
    }
  }

  // ----- the condition is exact -----

  lemma OffenceMisleads(x: Setup, r: Request, c: nat, t: nat)
    requires Offends(x, r, c, t)
    ensures var w := Misleading(x, r, c, t);
            Possible(w) && Fresh(PrivateServer()) && Hit(PrivateServer(), x, w, c, t)
  {
    var start, w := PrivateServer(), Misleading(x, r, c, t);
    MisleadingMisleads(x, r, c, t);
    StateKept(start, w, x, r, c, t);
    if RoleOf(r) == Attacker(t % 2) {
      OwnMisleads(StateAt(start, x, w, c, t), w, x, r, c, t);
    } else {
      OtherMisleads(StateAt(start, x, w, c, t), w, x, r, c, t);
    }
  }

  /** Some run of the experiment on a fresh server shows a full match in this trial. */
  ghost predicate CanShow(x: Setup, c: nat, t: nat)
    requires Proper(x) && IsTrial(x.n, c, t)
  {
    exists start: Cache, w: World :: Fresh(start) && Possible(w) && Hit(start, x, w, c, t)
  }

  /**
   A trial whose victim sends its control can show a full match exactly when some request that
   can be made before its probe begins with the target's tokens.
   */
  lemma FalseMatchIff(x: Setup, c: nat, t: nat)
    requires Proper(x) && IsTrial(x.n, c, t) && !x.bits[c][t]
    ensures CanShow(x, c, t) <==> !Clear(x, c, t)
  {
    if CanShow(x, c, t) && Clear(x, c, t) {
      var start: Cache, w: World :| Fresh(start) && Possible(w) && Hit(start, x, w, c, t);
      ClearIsHonest(start, x, w, c, t);
    }
    if !Clear(x, c, t) {
      var r :| IsRequest(x, r) && Precedes(r, c, t) && Text(x, c, t, 0) <= KeyOf(x, r);
      OffenceMisleads(x, r, c, t);
    }
  }
}
