/**
 The robustness experiment: which prefix every trial uses, and its run on a server whose
 cache is not reliably flushed between the trials.
 */
module ChallengeSlots {
  import opened Numbers
  import opened CachePolicy
  import opened RadixTree
  import opened TenantCache
  import opened ResidualCache

  const CONDITIONS: nat := 6
  const BACKGROUNDS: nat := 32

  /** Half of the calibration prefixes measure a miss, the other half a hit. */
  const CALIBRATIONS: nat := 16
  const HALF: nat := 8

  /** The conditions that draw lengths, or run background workers. */
  const MIXED_LENGTHS: nat := 3
  const BATCHING: nat := 4
  const LOAD: nat := 5

  /** Texts are tokenized to between 48 and 128 tokens; a challenge uses at most 96 of them. */
  const SHORTEST: nat := 48
  const LONGEST: nat := 128
  const USED: nat := 96
  const SHORTEST_MIXED: nat := 32

  type Prefix = seq<Token>

  // ----- slots -----

  /** How many prefixes a run with `n` challenges per condition loads. */
  function Required(n: nat): nat {
    CALIBRATIONS + 2 * n * CONDITIONS + BACKGROUNDS
  }

  function BackgroundStart(n: nat): nat {
    CALIBRATIONS + 2 * n * CONDITIONS
  }

  /** Steps of length `m`: a later start lies at least one step further. */
  lemma {:induction false} Stride(m: nat, c: nat, c': nat)
    requires c < c'
    ensures m * c + m <= m * c'
    decreases c' - c
  {
    assert m * c' == m * (c' - 1) + m;
    if c' == c + 1 {
    } else {
      Stride(m, c, c' - 1);
    }
  }

  /** The index of a trial's target (side 0) or control (side 1). */
  function Slot(n: nat, condition: nat, trial: nat, side: nat): nat {
    CALIBRATIONS + 2 * n * condition + 2 * trial + side
  }

  predicate IsTrial(n: nat, condition: nat, trial: nat) {
    condition < CONDITIONS && trial < n
  }

  /** No two slots share a prefix, and none is a calibration or background prefix. */
  lemma SlotsAreDistinct(n: nat, c: nat, t: nat, side: nat, c': nat, t': nat, side': nat)
    requires IsTrial(n, c, t) && IsTrial(n, c', t') && side < 2 && side' < 2
    ensures CALIBRATIONS <= Slot(n, c, t, side) < BackgroundStart(n)
    ensures Slot(n, c, t, side) == Slot(n, c', t', side') <==> c == c' && t == t' && side == side'
    ensures c < c' || (c == c' && t < t') ==> Slot(n, c, t, side) < Slot(n, c', t', side')
  {
    Stride(2 * n, c, CONDITIONS);
    if c < c' {
      SlotsInOrder(n, c, t, side, c', t', side');
    } else if c' < c {
      SlotsInOrder(n, c', t', side', c, t, side);
    }
  }

  lemma SlotsInOrder(n: nat, c: nat, t: nat, side: nat, c': nat, t': nat, side': nat)
    requires c < c' && t < n && side < 2
    ensures Slot(n, c, t, side) < Slot(n, c', t', side')
  {
    Stride(2 * n, c, c');
  }

  // ----- what is requested -----

  datatype Role =
    | CalibMiss(index: nat) | CalibVictim(index: nat) | CalibAttacker(index: nat)
    | Victim(condition: nat, trial: nat) | Attacker(parity: nat) | Worker(id: nat)

  /** The prefixes loaded, the lengths and bits drawn, and the names the users go by. */
  datatype Setup = Setup(
    prefixes: seq<Prefix>, n: nat, length: (nat, nat) -> nat, bits: seq<seq<bool>>, name: Role -> User)

  /** The requests of a run: calibration, victims, probes, and background traffic under a load condition. */
  datatype Request =
    | MissOf(index: nat) | WarmOf(index: nat) | HitOf(index: nat)
    | VictimOf(condition: nat, trial: nat) | ProbeOf(condition: nat, trial: nat)
    | TrafficOf(load: nat, index: nat)

  predicate IsRequest(x: Setup, r: Request) {
    match r
    case MissOf(i) => i < HALF
    case WarmOf(i) => i < HALF
    case HitOf(i) => i < HALF
    case VictimOf(c, t) => IsTrial(x.n, c, t)
    case ProbeOf(c, t) => IsTrial(x.n, c, t)
    case TrafficOf(load, j) => BATCHING <= load <= LOAD && j < BACKGROUNDS
  }

  /** The first `len` tokens of a prefix, as Python slices them. */
  function Cut(prefix: Prefix, len: nat): Prefix {
    if len <= |prefix| then prefix[..len] else prefix
  }

  /** What `load_prefixes` and the drawing of bits and lengths guarantee; different users have different names. */
  ghost predicate Proper(x: Setup) {
    && |x.prefixes| == Required(x.n)
    && (forall i | 0 <= i < |x.prefixes| :: SHORTEST <= |x.prefixes[i]| <= LONGEST)
    && |x.bits| == CONDITIONS && (forall c | 0 <= c < CONDITIONS :: |x.bits[c]| == x.n)
    && (forall c, t | IsTrial(x.n, c, t) :: LengthOk(x, c, t))
    && (forall a: Role :: x.name(a) != "")
    && (forall a: Role, b: Role :: x.name(a) == x.name(b) ==> a == b)
  }

  predicate LengthOk(x: Setup, c: nat, t: nat)
    requires |x.prefixes| == Required(x.n) && IsTrial(x.n, c, t)
  {
    SlotsAreDistinct(x.n, c, t, 0, c, t, 1);
    var most := Min(Min(|x.prefixes[Slot(x.n, c, t, 0)]|, |x.prefixes[Slot(x.n, c, t, 1)]|), USED);
    if c == MIXED_LENGTHS then SHORTEST_MIXED <= x.length(c, t) <= most else x.length(c, t) == most
  }

  /** The target (side 0) or the control (side 1) of a trial. */
  function Text(x: Setup, c: nat, t: nat, side: nat): Prefix
    requires Proper(x) && IsTrial(x.n, c, t) && side < 2
  {
    SlotsAreDistinct(x.n, c, t, side, c, t, side);
    Cut(x.prefixes[Slot(x.n, c, t, side)], x.length(c, t))
  }

  function Workers(load: nat): nat {
    if load == BATCHING then 2 else 4
  }

  function PromptLength(load: nat): nat {
    if load == BATCHING then 32 else 96
  }

  function KeyOf(x: Setup, r: Request): Prefix
    requires Proper(x) && IsRequest(x, r)
  {
    match r
    case MissOf(i) => x.prefixes[i]
    case WarmOf(i) => x.prefixes[HALF + i]
    case HitOf(i) => x.prefixes[HALF + i]
    case VictimOf(c, t) => Text(x, c, t, if x.bits[c][t] then 0 else 1)
    case ProbeOf(c, t) => Text(x, c, t, 0)
    case TrafficOf(load, j) => Cut(x.prefixes[BackgroundStart(x.n) + j], PromptLength(load))
  }

  function RoleOf(r: Request): Role {
    match r
    case MissOf(i) => CalibMiss(i)
    case WarmOf(i) => CalibVictim(i)
    case HitOf(i) => CalibAttacker(i)
    case VictimOf(c, t) => Victim(c, t)
    case ProbeOf(_, t) => Attacker(t % 2)
    case TrafficOf(load, j) => Worker(j % Workers(load))
  }

  function UserOf(x: Setup, r: Request): User {
    x.name(RoleOf(r))
  }

  lemma KeySize(x: Setup, r: Request)
    requires Proper(x) && IsRequest(x, r)
    ensures 0 < |KeyOf(x, r)| <= LONGEST
    ensures r.VictimOf? || r.ProbeOf? ==> |KeyOf(x, r)| == x.length(r.condition, r.trial)
  {
    if r.VictimOf? || r.ProbeOf? {
      assert LengthOk(x, r.condition, r.trial);
      SlotsAreDistinct(x.n, r.condition, r.trial, 0, r.condition, r.trial, 1);
    }
  }

  /** The list is sliced into calibration prefixes, one block of pairs per condition, and background prefixes. */
  lemma SlicesAre(x: Setup, c: nat, t: nat)
    requires |x.prefixes| == Required(x.n) && IsTrial(x.n, c, t)
    ensures var start, size := 2 * x.n * c, 2 * x.n;
            var challenges := x.prefixes[16..16 + 2 * x.n * 6];
            && 2 * t + 1 < size && start + size <= |challenges|
            && Slot(x.n, c, t, 1) < |x.prefixes|
            && x.prefixes[Slot(x.n, c, t, 0)] == challenges[start..start + size][2 * t]
            && x.prefixes[Slot(x.n, c, t, 1)] == challenges[start..start + size][2 * t + 1]
  {
    SlotsAreDistinct(x.n, c, t, 0, c, t, 1);
    Stride(2 * x.n, c, CONDITIONS);
  }

  /**
   Who requests what: the prober of either parity the target, the victim the target or the
   control as the bit says, both cut to the length both texts allow; the calibration its own
   prefixes, whole; and the workers the last prefixes, shortened.
   */
  lemma RequestsAre(x: Setup, c: nat, t: nat)
    requires Proper(x) && IsTrial(x.n, c, t)
    ensures var pairs := x.prefixes[16..16 + 2 * x.n * 6][2 * x.n * c..2 * x.n * c + 2 * x.n];
            var target, control, len := pairs[2 * t], pairs[2 * t + 1], x.length(c, t);
            && len <= |target| && len <= |control| && len <= 96
            && KeyOf(x, ProbeOf(c, t)) == target[..len]
            && KeyOf(x, VictimOf(c, t)) == (if x.bits[c][t] then target else control)[..len]
            && UserOf(x, ProbeOf(c, t)) == x.name(Attacker(if t % 2 == 0 then 0 else 1))
            && UserOf(x, VictimOf(c, t)) == x.name(Victim(c, t))
    ensures forall i | 0 <= i < 8 ::
              && KeyOf(x, MissOf(i)) == x.prefixes[..8][i]
              && KeyOf(x, WarmOf(i)) == KeyOf(x, HitOf(i)) == x.prefixes[8..16][i]
    ensures forall load, j | 4 <= load <= 5 && 0 <= j < 32 ::
              var own := x.prefixes[|x.prefixes| - 32..][j];
              && KeyOf(x, TrafficOf(load, j)) == (if load == 4 then own[..32] else Cut(own, 96))
              && UserOf(x, TrafficOf(load, j)) == x.name(Worker(if load == 4 then j % 2 else j % 4))
  {
    SlicesAre(x, c, t);
    KeySize(x, ProbeOf(c, t));
    assert LengthOk(x, c, t);
  }

  predicate Earlier(c: nat, t: nat, c': nat, t': nat) {
    c < c' || (c == c' && t < t')
  }

  /** Whether a request can be made before the probe of trial (c, t). */
  predicate Precedes(r: Request, c: nat, t: nat) {
    match r
    case VictimOf(c', t') => Earlier(c', t', c, t) || (c' == c && t' == t)
    case ProbeOf(c', t') => Earlier(c', t', c, t)
    case TrafficOf(load, _) => load <= c
    case _ => true
  }

  // ----- the run -----

  /**
   What happens to the server: a flush that succeeds, a request, or any other change of the
   cache or its ledger (eviction, promotion, detection, recovery).
   */
  datatype Event = Flush | Send(request: Request, saves: Oracle) | Change(change: Cache -> Op)

  /** Events in the order in which they happen, the last one outermost. */
  datatype History = Nothing | Then(past: History, last: Event)

  function One(a: Event): History {
    Then(Nothing, a)
  }

  function Two(a: Event, b: Event): History {
    Then(One(a), b)
  }

  function Three(a: Event, b: Event, c: Event): History {
    Then(Two(a, b), c)
  }

  function Both(a: History, b: History): History {
    match b
    case Nothing => a
    case Then(past, last) => Then(Both(a, past), last)
  }

  lemma BothShort(h: History, a: Event, b: Event)
    ensures Both(h, One(a)) == Then(h, a)
    ensures Both(h, Two(a, b)) == Then(Then(h, a), b)
  {
    assert Both(h, Nothing) == h;
  }

  /**
   What a run does not control: flushes that succeed, what else happens after a calibration
   prefix, and in a trial before the victim's request, between it and the probe, and after the
   probe, failing writes, and slot numbers.
   */
  datatype World = World(
    calibFlushed: nat -> bool, calibNoise: nat -> History,
    flushed: (nat, nat) -> bool, noise: (nat, nat, nat) -> History,
    saves: Request -> Oracle, slots: (Request, nat) -> seq<Slot>)

  /** Background requests may also come late, from an earlier load condition. */
  predicate NoiseOk(e: Event, c: nat) {
    e.Change? || (e.Send? && match e.request
      case TrafficOf(load, index) => BATCHING <= load <= LOAD && load <= c && index < BACKGROUNDS
      case _ => false)
  }

  predicate AllNoise(es: History, c: nat) {
    match es
    case Nothing => true
    case Then(past, last) => AllNoise(past, c) && NoiseOk(last, c)
  }

  ghost predicate Possible(w: World) {
    && (forall r: Request, k: nat :: |w.slots(r, k)| == k)
    && (forall i: nat :: AllNoise(w.calibNoise(i), 0))
    && forall c: nat, t: nat, p: nat :: AllNoise(w.noise(c, t, p), c)
  }

  function Ask(server: Cache, x: Setup, w: World, r: Request, saves: Oracle): (c: Cache)
    requires Valid(server) && Proper(x) && IsRequest(x, r) && Possible(w)
    ensures Valid(c)
  {
    var key := KeyOf(x, r);
    ServeValid(server, UserOf(x, r), key, w.slots(r, |key|), saves);
    Serve(server, UserOf(x, r), key, w.slots(r, |key|), saves)
  }

  /** A change that inserts and looks up nothing. */
  predicate IsChange(server: Cache, op: Op) {
    !op.Ins? && !op.Probe? && Enabled(server, op)
  }

  function Changed(server: Cache, op: Op): (c: Cache)
    requires Valid(server)
    ensures Valid(c)
  {
    if IsChange(server, op) then StepValid(server, op); Step(server, op) else server
  }

  predicate IsEvent(x: Setup, e: Event) {
    e.Send? ==> IsRequest(x, e.request)
  }

  function After(server: Cache, x: Setup, w: World, e: Event): (c: Cache)
    requires Valid(server) && Proper(x) && Possible(w) && IsEvent(x, e)
    ensures Valid(c)
  {
    match e
    case Flush => Emptied(server)
    case Send(r, saves) => Ask(server, x, w, r, saves)
    case Change(change) => Changed(server, change(server))
  }

  predicate Events(x: Setup, es: History) {
    match es
    case Nothing => true
    case Then(past, last) => Events(x, past) && IsEvent(x, last)
  }

  function Play(server: Cache, x: Setup, w: World, es: History): (c: Cache)
    requires Valid(server) && Proper(x) && Possible(w) && Events(x, es)
    ensures Valid(c)
    decreases es
  {
    match es
    case Nothing => server
    case Then(past, last) => After(Play(server, x, w, past), x, w, last)
  }

  lemma {:induction false} PlayBoth(server: Cache, x: Setup, w: World, a: History, b: History)
    requires Valid(server) && Proper(x) && Possible(w) && Events(x, a) && Events(x, b)
    ensures Events(x, Both(a, b)) && Play(server, x, w, Both(a, b)) == Play(Play(server, x, w, a), x, w, b)
    decreases b
  {
    match b
    case Nothing =>
    case Then(past, _) => PlayBoth(server, x, w, a, past);
  }

  lemma PlayOne(server: Cache, x: Setup, w: World, e: Event)
    requires Valid(server) && Proper(x) && Possible(w) && IsEvent(x, e)
    ensures Events(x, One(e)) && Play(server, x, w, One(e)) == After(server, x, w, e)
  {
  }

  lemma PlayTwo(server: Cache, x: Setup, w: World, a: Event, b: Event)
    requires Valid(server) && Proper(x) && Possible(w) && IsEvent(x, a) && IsEvent(x, b)
    ensures Events(x, Two(a, b)) && Play(server, x, w, Two(a, b)) == After(After(server, x, w, a), x, w, b)
  {
    PlayOne(server, x, w, a);
  }

  lemma PlayThree(server: Cache, x: Setup, w: World, a: Event, b: Event, d: Event)
    requires Valid(server) && Proper(x) && Possible(w) && IsEvent(x, a) && IsEvent(x, b) && IsEvent(x, d)
    ensures Events(x, Three(a, b, d))
    ensures Play(server, x, w, Three(a, b, d)) == After(After(After(server, x, w, a), x, w, b), x, w, d)
  {
    PlayTwo(server, x, w, a, b);
  }

  function FlushIf(flushed: bool): History {
    if flushed then One(Flush) else Nothing
  }

  /** The requests for one calibration prefix: a first one, or a victim's and an attacker's. */
  function CalibrationRequests(w: World, i: nat): History
    requires i < CALIBRATIONS
  {
    if i < HALF then One(Send(MissOf(i), w.saves(MissOf(i))))
    else Two(Send(WarmOf(i - HALF), w.saves(WarmOf(i - HALF))), Send(HitOf(i - HALF), w.saves(HitOf(i - HALF))))
  }

  /** They follow an attempted flush. */
  function Calibration(w: World, i: nat): History
    requires i < CALIBRATIONS
  {
    Both(Both(FlushIf(w.calibFlushed(i)), CalibrationRequests(w, i)), w.calibNoise(i))
  }

  /** The first `i` calibration prefixes. */
  function Calibrating(w: World, i: nat): History
    requires i <= CALIBRATIONS
  {
    if i == 0 then Nothing else Both(Calibrating(w, i - 1), Calibration(w, i - 1))
  }

  /** A trial up to its probe: an attempted flush and the victim's request, each followed by traffic. */
  function UpToProbe(w: World, c: nat, t: nat): History {
    Both(Then(Both(FlushIf(w.flushed(c, t)), w.noise(c, t, 0)), Send(VictimOf(c, t), w.saves(VictimOf(c, t)))),
         w.noise(c, t, 1))
  }

  function FromProbe(w: World, c: nat, t: nat): History {
    Both(One(Send(ProbeOf(c, t), w.saves(ProbeOf(c, t)))), w.noise(c, t, 2))
  }

  function Trial(w: World, c: nat, t: nat): History {
    Both(UpToProbe(w, c, t), FromProbe(w, c, t))
  }

  /** Everything before trial (c, t) of a run with `n` trials per condition. */
  function Script(n: nat, w: World, c: nat, t: nat): History
    decreases c, t
  {
    if t > 0 then Both(Script(n, w, c, t - 1), Trial(w, c, t - 1))
    else if c > 0 then Script(n, w, c - 1, n)
    else Calibrating(w, CALIBRATIONS)
  }

  /** An event that can happen before the probe of trial (c, t). */
  predicate Timely(x: Setup, e: Event, c: nat, t: nat) {
    e.Send? ==> IsRequest(x, e.request) && Precedes(e.request, c, t)
  }

  predicate AllTimely(x: Setup, es: History, c: nat, t: nat): (timely: bool)
    ensures timely ==> Events(x, es)
  {
    match es
    case Nothing => true
    case Then(past, last) => AllTimely(x, past, c, t) && Timely(x, last, c, t)
  }

  lemma {:induction false} TimelyBoth(x: Setup, a: History, b: History, c: nat, t: nat)
    requires AllTimely(x, a, c, t) && AllTimely(x, b, c, t)
    ensures AllTimely(x, Both(a, b), c, t)
    decreases b
  {
    match b
    case Nothing =>
    case Then(past, _) => TimelyBoth(x, a, past, c, t);
  }

  lemma {:induction false} NoiseIsTimely(x: Setup, noise: History, d: nat, c: nat, t: nat)
    requires AllNoise(noise, d) && d <= c
    ensures AllTimely(x, noise, c, t)
    decreases noise
  {
    match noise
    case Nothing =>
    case Then(past, last) =>
      NoiseIsTimely(x, past, d, c, t);
      assert NoiseOk(last, d);
  }

  lemma UpToProbeIsTimely(x: Setup, w: World, d: nat, s: nat, c: nat, t: nat)
    requires Possible(w) && IsTrial(x.n, d, s) && (Earlier(d, s, c, t) || (d == c && s == t))
    ensures AllTimely(x, UpToProbe(w, d, s), c, t)
  {
    var victim := Send(VictimOf(d, s), w.saves(VictimOf(d, s)));
    NoiseIsTimely(x, w.noise(d, s, 0), d, c, t);
    NoiseIsTimely(x, w.noise(d, s, 1), d, c, t);
    TimelyBoth(x, FlushIf(w.flushed(d, s)), w.noise(d, s, 0), c, t);
    TimelyBoth(x, Then(Both(FlushIf(w.flushed(d, s)), w.noise(d, s, 0)), victim), w.noise(d, s, 1), c, t);
  }

  lemma TrialIsTimely(x: Setup, w: World, d: nat, s: nat, c: nat, t: nat)
    requires Possible(w) && IsTrial(x.n, d, s) && Earlier(d, s, c, t)
    ensures AllTimely(x, FromProbe(w, d, s), c, t) && AllTimely(x, Trial(w, d, s), c, t)
  {
    var probe := Send(ProbeOf(d, s), w.saves(ProbeOf(d, s)));
    UpToProbeIsTimely(x, w, d, s, c, t);
    NoiseIsTimely(x, w.noise(d, s, 2), d, c, t);
    assert AllTimely(x, One(probe), c, t);
    TimelyBoth(x, One(probe), w.noise(d, s, 2), c, t);
    TimelyBoth(x, UpToProbe(w, d, s), FromProbe(w, d, s), c, t);
  }

  lemma TrialEvents(x: Setup, w: World, c: nat, t: nat)
    requires Possible(w) && IsTrial(x.n, c, t)
    ensures Events(x, UpToProbe(w, c, t)) && Events(x, FromProbe(w, c, t)) && Events(x, Trial(w, c, t))
  {
    UpToProbeIsTimely(x, w, c, t, c, t);
    TrialIsTimely(x, w, c, t, c, t + 1);
  }

  lemma CalibrationIsTimely(x: Setup, w: World, i: nat, c: nat, t: nat)
    requires Possible(w) && i < CALIBRATIONS
    ensures AllTimely(x, Calibration(w, i), c, t)
  {
    var flush := FlushIf(w.calibFlushed(i));
    NoiseIsTimely(x, w.calibNoise(i), 0, c, t);
    RequestsAreTimely(x, w, i, c, t);
    TimelyBoth(x, flush, CalibrationRequests(w, i), c, t);
    TimelyBoth(x, Both(flush, CalibrationRequests(w, i)), w.calibNoise(i), c, t);
  }

  lemma RequestsAreTimely(x: Setup, w: World, i: nat, c: nat, t: nat)
    requires i < CALIBRATIONS
    ensures AllTimely(x, CalibrationRequests(w, i), c, t)
  {
    if i >= HALF {
      assert AllTimely(x, One(Send(WarmOf(i - HALF), w.saves(WarmOf(i - HALF)))), c, t);
    }
  }

  lemma {:induction false} CalibratingIsTimely(x: Setup, w: World, i: nat, c: nat, t: nat)
    requires Possible(w) && i <= CALIBRATIONS
    ensures AllTimely(x, Calibrating(w, i), c, t)
  {
    if i == 0 {
    } else {
      CalibratingIsTimely(x, w, i - 1, c, t);
      CalibrationIsTimely(x, w, i - 1, c, t);
      TimelyBoth(x, Calibrating(w, i - 1), Calibration(w, i - 1), c, t);
    }
  }

  lemma {:induction false} ScriptIsTimely(x: Setup, w: World, d: nat, s: nat, c: nat, t: nat)
    requires Possible(w) && d < CONDITIONS && s <= x.n && (d < c || (d == c && s <= t))
    ensures AllTimely(x, Script(x.n, w, d, s), c, t)
    decreases d, s
  {
    if s > 0 {
      ScriptIsTimely(x, w, d, s - 1, c, t);
      TrialIsTimely(x, w, d, s - 1, c, t);
      TimelyBoth(x, Script(x.n, w, d, s - 1), Trial(w, d, s - 1), c, t);
    } else if d > 0 {
      ScriptIsTimely(x, w, d - 1, x.n, c, t);
    } else {
      CalibratingIsTimely(x, w, CALIBRATIONS, c, t);
    }
  }

  /** The server after the first `i` calibration prefixes. */
  function CalibratedAt(start: Cache, x: Setup, w: World, i: nat): (server: Cache)
    requires Valid(start) && Proper(x) && Possible(w) && i <= CALIBRATIONS
    ensures Valid(server)
  {
    CalibratingIsTimely(x, w, i, 0, 0);
    Play(start, x, w, Calibrating(w, i))
  }

  /** The server when trial (c, t) begins. */
  function StateAt(start: Cache, x: Setup, w: World, c: nat, t: nat): (server: Cache)
    requires Valid(start) && Proper(x) && Possible(w) && c < CONDITIONS && t <= x.n
    ensures Valid(server)
  {
    ScriptIsTimely(x, w, c, t, c, t);
    Play(start, x, w, Script(x.n, w, c, t))
  }

  lemma StateNext(start: Cache, x: Setup, w: World, c: nat, t: nat)
    requires Valid(start) && Proper(x) && Possible(w) && IsTrial(x.n, c, t)
    ensures Events(x, Trial(w, c, t))
    ensures StateAt(start, x, w, c, t + 1) == Play(StateAt(start, x, w, c, t), x, w, Trial(w, c, t))
  {
    ScriptIsTimely(x, w, c, t, c, t);
    TrialEvents(x, w, c, t);
    PlayBoth(start, x, w, Script(x.n, w, c, t), Trial(w, c, t));
  }

  lemma StateFirst(start: Cache, x: Setup, w: World, c: nat)
    requires Valid(start) && Proper(x) && Possible(w) && c < CONDITIONS
    ensures StateAt(start, x, w, c, 0) ==
      if c == 0 then CalibratedAt(start, x, w, CALIBRATIONS) else StateAt(start, x, w, c - 1, x.n)
  {
  }

  lemma CalibratedNext(start: Cache, x: Setup, w: World, i: nat)
    requires Valid(start) && Proper(x) && Possible(w) && i < CALIBRATIONS
    ensures Events(x, Calibration(w, i))
    ensures CalibratedAt(start, x, w, i + 1) == Play(CalibratedAt(start, x, w, i), x, w, Calibration(w, i))
  {
    CalibratingIsTimely(x, w, i, 0, 0);
    CalibrationIsTimely(x, w, i, 0, 0);
    PlayBoth(start, x, w, Calibrating(w, i), Calibration(w, i));
  }

  /** The server when the probe of a trial is made. */
  function Probed(server: Cache, x: Setup, w: World, c: nat, t: nat): (c': Cache)
    requires Valid(server) && Proper(x) && Possible(w) && IsTrial(x.n, c, t)
    ensures Valid(c')
  {
    TrialEvents(x, w, c, t);
    Play(server, x, w, UpToProbe(w, c, t))
  }

  /** Whether a probe made now is a full match. */
  function Shows(server: Cache, x: Setup, w: World, c: nat, t: nat): bool
    requires Valid(server) && Proper(x) && IsTrial(x.n, c, t)
  {
    Full(server, UserOf(x, ProbeOf(c, t)), KeyOf(x, ProbeOf(c, t)), w.saves(ProbeOf(c, t)))
  }

  /** Whether the probe of trial (c, t) of the run is a full match. */
  function Hit(start: Cache, x: Setup, w: World, c: nat, t: nat): bool
    requires Valid(start) && Proper(x) && Possible(w) && IsTrial(x.n, c, t)
  {
    Shows(Probed(StateAt(start, x, w, c, t), x, w, c, t), x, w, c, t)
  }

  // ----- invariants of a run -----

  /** One calibration prefix keeps a property of the server and the number of prefixes so far. */
  ghost predicate PrefixKeeps(x: Setup, w: World, inv: (Cache, nat) -> bool, server: Cache, i: nat) {
    && Valid(server) && Proper(x) && Possible(w) && i < CALIBRATIONS && Events(x, Calibration(w, i))
    && inv(server, i) ==>
      inv(Play(server, x, w, Calibration(w, i)), i + 1)
  }

  lemma {:induction false} CalibrationKeeps(start: Cache, x: Setup, w: World, inv: (Cache, nat) -> bool, i: nat)
    requires Valid(start) && Proper(x) && Possible(w) && i <= CALIBRATIONS && inv(start, 0)
    requires forall server: Cache, k: nat | k < i :: PrefixKeeps(x, w, inv, server, k)
    ensures inv(CalibratedAt(start, x, w, i), i)
  {
    if i == 0 {
    } else {
      CalibrationKeeps(start, x, w, inv, i - 1);
      CalibratedNext(start, x, w, i - 1);
      assert PrefixKeeps(x, w, inv, CalibratedAt(start, x, w, i - 1), i - 1);
    }
  }

  /** One trial keeps a property of the server and the trial that is next. */
  ghost predicate TrialKeeps(x: Setup, w: World, inv: (Cache, nat, nat) -> bool, server: Cache, d: nat, s: nat) {
    && Valid(server) && Proper(x) && Possible(w) && IsTrial(x.n, d, s) && Events(x, Trial(w, d, s))
    && inv(server, d, s) ==>
      inv(Play(server, x, w, Trial(w, d, s)), d, s + 1)
  }

  /** So does the turn to the next condition. */
  ghost predicate TurnKeeps(n: nat, inv: (Cache, nat, nat) -> bool, server: Cache, d: nat) {
    inv(server, d, n) ==> inv(server, d + 1, 0)
  }

  lemma {:induction false} ConditionKeeps(
    start: Cache, x: Setup, w: World, inv: (Cache, nat, nat) -> bool, d: nat, s: nat)
    requires Valid(start) && Proper(x) && Possible(w) && d < CONDITIONS && s <= x.n
    requires inv(StateAt(start, x, w, d, 0), d, 0)
    requires forall server: Cache, k: nat | k < s :: TrialKeeps(x, w, inv, server, d, k)
    ensures inv(StateAt(start, x, w, d, s), d, s)
  {
    if s == 0 {
    } else {
      ConditionKeeps(start, x, w, inv, d, s - 1);
      StateNext(start, x, w, d, s - 1);
      assert TrialKeeps(x, w, inv, StateAt(start, x, w, d, s - 1), d, s - 1);
    }
  }

  /** What holds before the first trial, and is kept by the trials and turns before (c, t), holds when (c, t) begins. */
  lemma {:induction false} RunKeeps(
    start: Cache, x: Setup, w: World, inv: (Cache, nat, nat) -> bool, c: nat, t: nat)
    requires Valid(start) && Proper(x) && Possible(w) && c < CONDITIONS && t <= x.n
    requires inv(CalibratedAt(start, x, w, CALIBRATIONS), 0, 0)
    requires forall server: Cache, d: nat, s: nat | Earlier(d, s, c, t) :: TrialKeeps(x, w, inv, server, d, s)
    requires forall server: Cache, d: nat | d < c :: TurnKeeps(x.n, inv, server, d)
    ensures inv(StateAt(start, x, w, c, t), c, t)
    decreases c
  {
    StateFirst(start, x, w, c);
    if c > 0 {
      RunKeeps(start, x, w, inv, c - 1, x.n);
      assert TurnKeeps(x.n, inv, StateAt(start, x, w, c - 1, x.n), c - 1);
    }
    ConditionKeeps(start, x, w, inv, c, t);
  }
}
