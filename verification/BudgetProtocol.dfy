/**
 Replicas of the cache that share one durable ledger, as a state machine.

 A lookup is two atomic steps: the reservation, which charges the ledger under its
 locks, and the response.  A replica may crash between them.  Labels of different
 replicas may disagree with each other and with the ledger.
 */
module BudgetProtocol {
  import opened Numbers
  import opened Ledger
  import opened CachePolicy

  /** A granted reservation, stamped with the accounting epoch in which it was charged. */
  datatype Ticket = Ticket(replica: nat, fp: Fingerprint, epoch: nat)

  datatype Node = Node(fp: Fingerprint, tag: Label)

  datatype Replica = Replica(ledger: Instance, nodes: map<nat, Node>)

  /**
   `pending`, `served` and `lost` record what became of each granted reservation.
   `base` holds the charges the file carried at the start.  `epoch` counts the resets of
   the ledger and the losses of its file, after which the charges start over.
   */
  datatype System = System(
    file: File, replicas: map<nat, Replica>,
    pending: seq<Ticket>, served: seq<Ticket>, lost: seq<Ticket>,
    epoch: nat, base: map<Fingerprint, nat>)

  datatype Action =
    | Start(r: nat)
    | Insert(r: nat, id: nat, fp: Fingerprint, creator: User)
    | PromoteNode(r: nat, id: nat)
    | ReserveHit(r: nat, id: nat, user: User, saves: bool)
    | Respond(ticket: nat)
    | Evict(r: nat, id: nat)
    | SplitNode(r: nat, id: nat, upper: nat, m: nat)
    | Crash(r: nat)
    | SetAvailable(r: nat, value: bool)
    | Flush(r: nat, saves: bool)
    | RotateEpoch(r: nat, saves: bool)
    | CorruptFile
    | DeleteFile

  function Initial(file: File): System {
    System(file, map[], [], [], [], 0, if file.Corrupt? then map[] else Entries(file))
  }

  predicate Enabled(s: System, a: Action) {
    match a
    case Start(r) => r !in s.replicas
    case Insert(r, id, _, _) => r in s.replicas && id !in s.replicas[r].nodes
    case PromoteNode(r, id) => r in s.replicas && id in s.replicas[r].nodes && Promotable(s.replicas[r].nodes[id].tag)
    case ReserveHit(r, id, user, _) =>
      && r in s.replicas && id in s.replicas[r].nodes
      && VisibleTo(s.replicas[r].nodes[id].tag, Balanced, user)
      && MustReserve(s.replicas[r].nodes[id].tag, Balanced, user)
    case Respond(t) => t < |s.pending|
    case Evict(r, id) => r in s.replicas && id in s.replicas[r].nodes
    case SplitNode(r, id, upper, m) =>
      && r in s.replicas && id in s.replicas[r].nodes && upper !in s.replicas[r].nodes
      && 0 < m < |s.replicas[r].nodes[id].fp|
    case Crash(r) => r in s.replicas
    case SetAvailable(r, _) => r in s.replicas
    case Flush(r, _) => r in s.replicas
    case RotateEpoch(r, _) => r in s.replicas
    case CorruptFile => true
    case DeleteFile => true
  }

  function Without(ts: seq<Ticket>, r: nat): seq<Ticket> {
    if ts == [] then [] else if ts[0].replica == r then Without(ts[1..], r) else [ts[0]] + Without(ts[1..], r)
  }

  function Only(ts: seq<Ticket>, r: nat): seq<Ticket> {
    if ts == [] then [] else if ts[0].replica == r then [ts[0]] + Only(ts[1..], r) else Only(ts[1..], r)
  }

  function SetLedger(s: System, r: nat, ledger: Instance): System
    requires r in s.replicas
  {
    s.(replicas := s.replicas[r := s.replicas[r].(ledger := ledger)])
  }

  function SetNode(s: System, r: nat, id: nat, node: Node): System
    requires r in s.replicas
  {
    s.(replicas := s.replicas[r := s.replicas[r].(nodes := s.replicas[r].nodes[id := node])])
  }

  function Apply(s: System, a: Action, budget: nat): System
    requires Enabled(s, a)
  {
    match a
    case Start(r) =>
      s.(replicas := s.replicas[r := Replica(Opened(true, s.file), map[])])
    case Insert(r, id, fp, creator) =>
      SetNode(s, r, id, Node(fp, Label(By(creator), Private, 0, false)))
    case PromoteNode(r, id) =>
      var node := s.replicas[r].nodes[id];
      var o := Promote(node.tag, node.fp, s.replicas[r].ledger, s.file, budget);
      SetLedger(SetNode(s, r, id, node.(tag := o.tag)), r, o.ledger)
    case ReserveHit(r, id, user, saves) =>
      var node := s.replicas[r].nodes[id];
      var o := ReserveShared(node.tag, node.fp, s.replicas[r].ledger, s.file, budget, saves);
      var s' := SetLedger(SetNode(s, r, id, node.(tag := o.tag)), r, o.ledger).(file := o.file);
      if o.granted then s'.(pending := s.pending + [Ticket(r, node.fp, s.epoch)]) else s'
    case Respond(t) =>
      s.(pending := s.pending[..t] + s.pending[t + 1..], served := s.served + [s.pending[t]])
    case Evict(r, id) =>
      s.(replicas := s.replicas[r := s.replicas[r].(nodes := s.replicas[r].nodes - {id})])
    case SplitNode(r, id, upper, m) =>
      var node := s.replicas[r].nodes[id];
      SetNode(SetNode(s, r, upper, Node(node.fp[..m], node.tag)), r, id, Node(node.fp[m..], node.tag))
    case Crash(r) =>
      s.(replicas := s.replicas - {r}, pending := Without(s.pending, r), lost := s.lost + Only(s.pending, r))
    case SetAvailable(r, value) =>
      SetLedger(s, r, s.replicas[r].ledger.(available := value))
    case Flush(r, saves) =>
      var (ledger, file) := Flushed(s.replicas[r].ledger, s.file, saves);
      SetLedger(s, r, ledger).(file := file)
    case RotateEpoch(r, saves) =>
      var (ledger, file) := Cleared(s.replicas[r].ledger, s.file, saves);
      SetLedger(s, r, ledger).(file := file, epoch := if saves then s.epoch + 1 else s.epoch)
    case CorruptFile =>
      s.(file := Corrupt)
    case DeleteFile =>
      s.(file := Missing, epoch := s.epoch + 1)
  }

  /** `run` is a sequence of actions, each enabled where it is taken. */
  predicate Legal(s: System, run: seq<Action>, budget: nat)
    decreases run
  {
    run == [] || (Enabled(s, run[0]) && Legal(Apply(s, run[0], budget), run[1..], budget))
  }

  function Exec(s: System, run: seq<Action>, budget: nat): System
    requires Legal(s, run, budget)
    decreases run
  {
    if run == [] then s else Exec(Apply(s, run[0], budget), run[1..], budget)
  }

  function Count(ts: seq<Ticket>, fp: Fingerprint, epoch: nat): nat {
    if ts == [] then 0
    else (if ts[0].fp == fp && ts[0].epoch == epoch then 1 else 0) + Count(ts[1..], fp, epoch)
  }

  /** Reservations granted for `fp` in an epoch, whatever became of them. */
  function GrantedIn(s: System, fp: Fingerprint, epoch: nat): nat {
    Count(s.pending, fp, epoch) + Count(s.served, fp, epoch) + Count(s.lost, fp, epoch)
  }

  function Granted(s: System, fp: Fingerprint): nat {
    GrantedIn(s, fp, s.epoch)
  }

  // ----- counting -----

  lemma {:induction false} CountConcat(a: seq<Ticket>, b: seq<Ticket>, fp: Fingerprint, epoch: nat)
    ensures Count(a + b, fp, epoch) == Count(a, fp, epoch) + Count(b, fp, epoch)
  {
    if a == [] {
      assert a + b == b;
    } else {
      assert (a + b)[1..] == a[1..] + b;
      CountConcat(a[1..], b, fp, epoch);
    }
  }

  lemma CountRemove(ts: seq<Ticket>, t: nat, fp: Fingerprint, epoch: nat)
    requires t < |ts|
    ensures Count(ts, fp, epoch) == Count(ts[..t] + ts[t + 1..], fp, epoch) + Count([ts[t]], fp, epoch)
  {
    assert ts == ts[..t] + ([ts[t]] + ts[t + 1..]);
    CountConcat(ts[..t], [ts[t]] + ts[t + 1..], fp, epoch);
    CountConcat([ts[t]], ts[t + 1..], fp, epoch);
    CountConcat(ts[..t], ts[t + 1..], fp, epoch);
  }

  lemma {:induction false} CountSplit(ts: seq<Ticket>, r: nat, fp: Fingerprint, epoch: nat)
    ensures Count(ts, fp, epoch) == Count(Without(ts, r), fp, epoch) + Count(Only(ts, r), fp, epoch)
    ensures forall t :: t in Without(ts, r) ==> t in ts && t.replica != r
    ensures forall t :: t in Only(ts, r) ==> t in ts && t.replica == r
  {
    if ts == [] {
    } else {
      CountSplit(ts[1..], r, fp, epoch);
    }
  }

  lemma {:induction false} CountFuture(ts: seq<Ticket>, fp: Fingerprint, epoch: nat)
    requires forall t :: t in ts ==> t.epoch < epoch
    ensures Count(ts, fp, epoch) == 0
  {
    if ts == [] {
    } else {
      assert ts[0] in ts;
      CountFuture(ts[1..], fp, epoch);
    }
  }

  // ----- the invariant -----

  predicate Stamped(ts: seq<Ticket>, epoch: nat) {
    forall t :: t in ts ==> t.epoch <= epoch
  }

  /** A label is either open to promotion or sharing, or exhausted for good. */
  predicate LabelOk(tag: Label) {
    && tag.visibility in {Private, BudgetedShared, ExhaustedPrivate}
    && (tag.permanent <==> tag.visibility == ExhaustedPrivate)
  }

  predicate ReplicaOk(rep: Replica) {
    rep.ledger.backed && forall id | id in rep.nodes :: LabelOk(rep.nodes[id].tag)
  }

  ghost predicate LedgerOk(s: System)
    requires !s.file.Corrupt?
  {
    && (forall fp :: Granted(s, fp) <= Charge(Entries(s.file), fp))
    && (s.epoch == 0 ==>
        && (forall fp :: Charge(Entries(s.file), fp) == Charge(s.base, fp) + Granted(s, fp))
        && (forall r | r in s.replicas :: Behind(s.replicas[r].ledger.store, Entries(s.file))))
  }

  ghost predicate Inv(s: System, budget: nat) {
    && (forall r | r in s.replicas :: ReplicaOk(s.replicas[r]))
    && Stamped(s.pending, s.epoch) && Stamped(s.served, s.epoch) && Stamped(s.lost, s.epoch)
    && (forall t | t in s.pending :: t.replica in s.replicas)
    && (forall fp, epoch :: GrantedIn(s, fp, epoch) <= budget)
    && (!s.file.Corrupt? ==> LedgerOk(s))
  }

  // ----- every action keeps the invariant -----

  /** What an object remembers after a reservation stays behind the file. */
  lemma ReserveMemory(ledger: Instance, file: File, fp: Fingerprint, budget: nat, saves: bool)
    requires ledger.backed
    ensures var o := Reserve(ledger, file, fp, budget, saves);
            && o.ledger.backed
            && (!file.Corrupt? && Behind(ledger.store, Entries(file)) ==> Behind(o.ledger.store, Entries(o.file)))
  {
    var o := Reserve(ledger, file, fp, budget, saves);
    if ledger.Operational() && !file.Corrupt? {
      var entries := Entries(file);
      assert forall g :: Charge(o.ledger.store, g) == Charge(entries, g) + if o.reply.accepted && g == fp then 1 else 0;
    }
  }

  /** A flush never lowers a durable charge, whether or not the object is behind. */
  lemma FlushMemory(ledger: Instance, file: File, saves: bool)
    requires ledger.backed
    ensures var (l, f) := Flushed(ledger, file, saves);
            && l.backed && (f.Corrupt? <==> file.Corrupt?)
            && (!f.Corrupt? ==> forall fp :: Charge(Entries(file), fp) <= Charge(Entries(f), fp))
  {
    if ledger.Operational() && !file.Corrupt? {
      var merged := Merged(ledger.store, Entries(file));
      assert forall fp :: Charge(merged, fp) == Max(Charge(ledger.store, fp), Charge(Entries(file), fp));
    }
  }

  lemma SameTickets(s: System, s': System)
    requires s'.pending == s.pending && s'.served == s.served && s'.lost == s.lost
    ensures forall fp, epoch :: GrantedIn(s', fp, epoch) == GrantedIn(s, fp, epoch)
  {
  }

  /** Changing one replica, but neither file, tickets nor epoch. */
  lemma ReplicaChangeKeeps(s: System, r: nat, rep: Replica, budget: nat)
    requires Inv(s, budget) && ReplicaOk(rep)
    requires !s.file.Corrupt? && s.epoch == 0 ==> Behind(rep.ledger.store, Entries(s.file))
    ensures Inv(s.(replicas := s.replicas[r := rep]), budget)
  {
    var s' := s.(replicas := s.replicas[r := rep]);
    SameTickets(s, s');
    assert !s.file.Corrupt? ==> LedgerOk(s');
  }

  /** One unit more in the file and one ticket more in flight. */
  lemma ChargeKeeps(s: System, r: nat, rep: Replica, fp: Fingerprint, entries: map<Fingerprint, nat>, budget: nat)
    requires Inv(s, budget) && !s.file.Corrupt? && r in s.replicas && ReplicaOk(rep)
    requires Charge(Entries(s.file), fp) < budget
    requires forall g :: Charge(entries, g) == Charge(Entries(s.file), g) + if g == fp then 1 else 0
    requires rep.ledger.store == entries
    ensures Inv(s.(replicas := s.replicas[r := rep], file := Saved(entries),
                   pending := s.pending + [Ticket(r, fp, s.epoch)]), budget)
  {
    var ticket := Ticket(r, fp, s.epoch);
    var s' := s.(replicas := s.replicas[r := rep], file := Saved(entries), pending := s.pending + [ticket]);
    ChargeKeepsLedger(s, s', ticket);
    forall g, epoch
      ensures GrantedIn(s', g, epoch) <= budget
    {
      GrantedOneMore(s, s', ticket, g, epoch);
      assert Granted(s, fp) <= Charge(Entries(s.file), fp);
    }
    assert Stamped(s'.pending, s'.epoch);
  }

  lemma ChargeKeepsLedger(s: System, s': System, ticket: Ticket)
    requires !s.file.Corrupt? && LedgerOk(s) && s'.file.Saved? && ticket.replica in s'.replicas
    requires s'.pending == s.pending + [ticket] && s'.served == s.served && s'.lost == s.lost
    requires s'.epoch == s.epoch == ticket.epoch && s'.base == s.base
    requires forall g :: Charge(Entries(s'.file), g) == Charge(Entries(s.file), g) + if g == ticket.fp then 1 else 0
    requires s'.replicas == s.replicas[ticket.replica := s'.replicas[ticket.replica]]
    requires s'.replicas[ticket.replica].ledger.store == Entries(s'.file)
    ensures LedgerOk(s')
  {
    forall g
      ensures Granted(s', g) == Granted(s, g) + if g == ticket.fp then 1 else 0
    {
      GrantedOneMore(s, s', ticket, g, s.epoch);
    }
    assert forall g :: Granted(s, g) <= Charge(Entries(s.file), g);
  }

  lemma GrantedOneMore(s: System, s': System, ticket: Ticket, fp: Fingerprint, epoch: nat)
    requires s'.pending == s.pending + [ticket] && s'.served == s.served && s'.lost == s.lost
    ensures GrantedIn(s', fp, epoch) ==
      GrantedIn(s, fp, epoch) + if fp == ticket.fp && epoch == ticket.epoch then 1 else 0
  {
    CountConcat(s.pending, [ticket], fp, epoch);
    assert Count([ticket], fp, epoch) == if fp == ticket.fp && epoch == ticket.epoch then 1 else 0;
  }

  lemma ReserveKeeps(s: System, a: Action, budget: nat)
    requires Inv(s, budget) && a.ReserveHit? && Enabled(s, a)
    ensures Inv(Apply(s, a, budget), budget)
  {
    var rep := s.replicas[a.r];
    var node := rep.nodes[a.id];
    var o := ReserveShared(node.tag, node.fp, rep.ledger, s.file, budget, a.saves);
    ReserveEffect(rep.ledger, s.file, node.fp, budget, a.saves);
    ReserveMemory(rep.ledger, s.file, node.fp, budget, a.saves);
    var rep' := Replica(o.ledger, rep.nodes[a.id := node.(tag := o.tag)]);
    var moved := SetLedger(SetNode(s, a.r, a.id, node.(tag := o.tag)), a.r, o.ledger);
    assert moved.replicas == s.replicas[a.r := rep'];
    if o.granted {
      ChargeKeeps(s, a.r, rep', node.fp, o.ledger.store, budget);
    } else {
      ReplicaChangeKeeps(s, a.r, rep', budget);
    }
  }

  lemma PromoteKeeps(s: System, a: Action, budget: nat)
    requires Inv(s, budget) && a.PromoteNode? && Enabled(s, a)
    ensures Inv(Apply(s, a, budget), budget)
  {
    var rep := s.replicas[a.r];
    var node := rep.nodes[a.id];
    var o := Promote(node.tag, node.fp, rep.ledger, s.file, budget);
    var rep' := Replica(o.ledger, rep.nodes[a.id := node.(tag := o.tag)]);
    assert Apply(s, a, budget).replicas == s.replicas[a.r := rep'];
    ReplicaChangeKeeps(s, a.r, rep', budget);
  }

  lemma SplitKeeps(s: System, a: Action, budget: nat)
    requires Inv(s, budget) && a.SplitNode? && Enabled(s, a)
    ensures Inv(Apply(s, a, budget), budget)
  {
    var rep := s.replicas[a.r];
    var node := rep.nodes[a.id];
    var rep' := rep.(nodes := rep.nodes[a.upper := Node(node.fp[..a.m], node.tag)][a.id := Node(node.fp[a.m..],
      node.tag)]);
    assert Apply(s, a, budget).replicas == s.replicas[a.r := rep'];
    ReplicaChangeKeeps(s, a.r, rep', budget);
  }

  lemma MovedTickets(s: System, a: Action, budget: nat, fp: Fingerprint, epoch: nat)
    requires (a.Respond? || a.Crash?) && Enabled(s, a)
    ensures GrantedIn(Apply(s, a, budget), fp, epoch) == GrantedIn(s, fp, epoch)
  {
    if a.Respond? {
      CountRemove(s.pending, a.ticket, fp, epoch);
      CountConcat(s.served, [s.pending[a.ticket]], fp, epoch);
    } else {
      CountSplit(s.pending, a.r, fp, epoch);
      CountConcat(s.lost, Only(s.pending, a.r), fp, epoch);
    }
  }

  lemma TicketMoveKeeps(s: System, a: Action, budget: nat)
    requires Inv(s, budget) && (a.Respond? || a.Crash?) && Enabled(s, a)
    ensures Inv(Apply(s, a, budget), budget)
  {
    var s' := Apply(s, a, budget);
    forall fp, epoch
      ensures GrantedIn(s', fp, epoch) == GrantedIn(s, fp, epoch)
    {
      MovedTickets(s, a, budget, fp, epoch);
    }
    assert forall fp :: Granted(s', fp) == Granted(s, fp);
    if a.Crash? {
      CountSplit(s.pending, a.r, [], 0);
    }
  }

  lemma FlushKeeps(s: System, a: Action, budget: nat)
    requires Inv(s, budget) && a.Flush? && Enabled(s, a)
    ensures Inv(Apply(s, a, budget), budget)
  {
    var rep := s.replicas[a.r];
    var s' := Apply(s, a, budget);
    SameTickets(s, s');
    assert forall fp :: Granted(s', fp) == Granted(s, fp);
    FlushMemory(rep.ledger, s.file, a.saves);
    if !s.file.Corrupt? && s.epoch == 0 {
      FlushOfBehind(rep.ledger, s.file, a.saves);
    }
  }

  /** A new epoch starts with nothing granted. */
  lemma NewEpoch(s: System, s': System, budget: nat)
    requires Inv(s, budget) && s'.epoch == s.epoch + 1
    requires s'.pending == s.pending && s'.served == s.served && s'.lost == s.lost
    ensures forall fp :: Granted(s', fp) == 0
    ensures Stamped(s'.pending, s'.epoch) && Stamped(s'.served, s'.epoch) && Stamped(s'.lost, s'.epoch)
  {
    forall fp
      ensures Granted(s', fp) == 0
    {
      CountFuture(s.pending, fp, s'.epoch);
      CountFuture(s.served, fp, s'.epoch);
      CountFuture(s.lost, fp, s'.epoch);
    }
  }

  lemma RotateKeeps(s: System, a: Action, budget: nat)
    requires Inv(s, budget) && (a.RotateEpoch? || a.DeleteFile?) && Enabled(s, a)
    ensures Inv(Apply(s, a, budget), budget)
  {
    var s' := Apply(s, a, budget);
    SameTickets(s, s');
    if s'.epoch > s.epoch {
      NewEpoch(s, s', budget);
    } else {
      assert forall fp :: Granted(s', fp) == Granted(s, fp);
    }
  }

  lemma StepKeeps(s: System, a: Action, budget: nat)
    requires Inv(s, budget) && Enabled(s, a)
    ensures Inv(Apply(s, a, budget), budget)
  {
    match a
    case ReserveHit(_, _, _, _) => ReserveKeeps(s, a, budget);
    case PromoteNode(_, _) => PromoteKeeps(s, a, budget);
    case Respond(_) => TicketMoveKeeps(s, a, budget);
    case Crash(_) => TicketMoveKeeps(s, a, budget);
    case Flush(_, _) => FlushKeeps(s, a, budget);
    case RotateEpoch(_, _) => RotateKeeps(s, a, budget);
    case DeleteFile => RotateKeeps(s, a, budget);
    case SplitNode(_, _, _, _) => SplitKeeps(s, a, budget);
    case Evict(r, id) => ReplicaChangeKeeps(s, r, Apply(s, a, budget).replicas[r], budget);
    case Insert(r, id, _, _) => ReplicaChangeKeeps(s, r, Apply(s, a, budget).replicas[r], budget);
    case SetAvailable(r, _) => ReplicaChangeKeeps(s, r, Apply(s, a, budget).replicas[r], budget);
    case Start(r) => ReplicaChangeKeeps(s, r, Apply(s, a, budget).replicas[r], budget);
    case CorruptFile => SameTickets(s, Apply(s, a, budget));
  }

  lemma {:induction false} RunKeeps(s: System, run: seq<Action>, budget: nat)
    requires Inv(s, budget) && Legal(s, run, budget)
    ensures Inv(Exec(s, run, budget), budget)
    decreases run
  {
    if run == [] {
    } else {
      StepKeeps(s, run[0], budget);
      RunKeeps(Apply(s, run[0], budget), run[1..], budget);
    }
  }

  lemma InitialOk(file: File, budget: nat)
    ensures Inv(Initial(file), budget)
  {
    assert forall fp, epoch :: GrantedIn(Initial(file), fp, epoch) == 0;
    assert forall fp :: Granted(Initial(file), fp) == 0;
  }

  // ----- main results -----

  /**
   Budget safety over whole runs, from any ledger file: however replicas insert, promote,
   look up, split, evict, crash, restart or flush, at most `budget` hits are granted per
   segment in each accounting epoch, and hits lost in crashes count against it.
   */
  lemma BudgetSafety(file: File, run: seq<Action>, budget: nat, fp: Fingerprint, epoch: nat)
    requires Legal(Initial(file), run, budget)
    ensures var s := Exec(Initial(file), run, budget);
            Count(s.served, fp, epoch) + Count(s.lost, fp, epoch) + Count(s.pending, fp, epoch) <= budget
  {
    InitialOk(file, budget);
    RunKeeps(Initial(file), run, budget);
    assert GrantedIn(Exec(Initial(file), run, budget), fp, epoch) <= budget;
  }

  /** The actions that start a new epoch: a saved reset, and the loss of the file. */
  function Restarts(run: seq<Action>): nat {
    if run == [] then 0
    else (if run[0].DeleteFile? || (run[0].RotateEpoch? && run[0].saves) then 1 else 0) + Restarts(run[1..])
  }

  lemma {:induction false} EpochCountsRestarts(s: System, run: seq<Action>, budget: nat)
    requires Legal(s, run, budget)
    ensures Exec(s, run, budget).epoch == s.epoch + Restarts(run)
    decreases run
  {
    if run == [] {
    } else {
      EpochCountsRestarts(Apply(s, run[0], budget), run[1..], budget);
    }
  }

  function CountAll(ts: seq<Ticket>, fp: Fingerprint): nat {
    if ts == [] then 0 else (if ts[0].fp == fp then 1 else 0) + CountAll(ts[1..], fp)
  }

  function CountBefore(ts: seq<Ticket>, fp: Fingerprint, n: nat): nat {
    if n == 0 then 0 else CountBefore(ts, fp, n - 1) + Count(ts, fp, n - 1)
  }

  lemma {:induction false} CountBeforeStep(ts: seq<Ticket>, fp: Fingerprint, n: nat)
    requires ts != []
    ensures CountBefore(ts, fp, n) ==
      CountBefore(ts[1..], fp, n) + if ts[0].fp == fp && ts[0].epoch < n then 1 else 0
    decreases n
  {
    if n == 0 {
    } else {
      CountBeforeStep(ts, fp, n - 1);
    }
  }

  lemma {:induction false} CountAllIsSum(ts: seq<Ticket>, fp: Fingerprint, n: nat)
    requires forall t :: t in ts ==> t.epoch < n
    ensures CountAll(ts, fp) == CountBefore(ts, fp, n)
  {
    if ts == [] {
      NoneBefore(fp, n);
    } else {
      assert ts[0] in ts && forall t :: t in ts[1..] ==> t in ts;
      CountAllIsSum(ts[1..], fp, n);
      CountBeforeStep(ts, fp, n);
    }
  }

  lemma {:induction false} NoneBefore(fp: Fingerprint, n: nat)
    ensures CountBefore([], fp, n) == 0
  {
    if n == 0 {
    } else {
      NoneBefore(fp, n - 1);
    }
  }

  lemma {:induction false} SumOfEpochs(s: System, budget: nat, fp: Fingerprint, n: nat)
    requires forall epoch :: GrantedIn(s, fp, epoch) <= budget
    ensures CountBefore(s.served, fp, n) + CountBefore(s.lost, fp, n) + CountBefore(s.pending, fp, n) <= n * budget
    decreases n
  {
    if n == 0 {
    } else {
      SumOfEpochs(s, budget, fp, n - 1);
      assert GrantedIn(s, fp, n - 1) <= budget;
      assert n * budget == (n - 1) * budget + budget;
    }
  }

  /**
   Over all epochs together: what a segment is granted in a run never exceeds the budget
   times one more than the number of resets and file losses in it.
   */
  lemma SafetyAcrossRestarts(file: File, run: seq<Action>, budget: nat, fp: Fingerprint)
    requires Legal(Initial(file), run, budget)
    ensures var s := Exec(Initial(file), run, budget);
            CountAll(s.served, fp) + CountAll(s.lost, fp) + CountAll(s.pending, fp) <= (Restarts(run) + 1) * budget
  {
    InitialOk(file, budget);
    RunKeeps(Initial(file), run, budget);
    EpochCountsRestarts(Initial(file), run, budget);
    var s := Exec(Initial(file), run, budget);
    CountAllIsSum(s.served, fp, s.epoch + 1);
    CountAllIsSum(s.lost, fp, s.epoch + 1);
    CountAllIsSum(s.pending, fp, s.epoch + 1);
    assert forall epoch :: GrantedIn(s, fp, epoch) <= budget;
    SumOfEpochs(s, budget, fp, s.epoch + 1);
  }

  lemma {:induction false} ExecConcat(s: System, a: seq<Action>, b: seq<Action>, budget: nat)
    requires Legal(s, a, budget) && Legal(Exec(s, a, budget), b, budget)
    ensures Legal(s, a + b, budget) && Exec(s, a + b, budget) == Exec(Exec(s, a, budget), b, budget)
    decreases a
  {
    if a == [] {
      assert a + b == b;
    } else {
      assert (a + b)[1..] == a[1..] + b;
      ExecConcat(Apply(s, a[0], budget), a[1..], b, budget);
    }
  }

  /** `n` cross-tenant hits on a node of replica 0, each reserved and answered. */
  function ServeHits(id: nat, n: nat): seq<Action> {
    if n == 0 then [] else [ReserveHit(0, id, "other", true), Respond(0)] + ServeHits(id, n - 1)
  }

  /** Cache a prefix, share it, and spend a whole budget on it. */
  function SpendBudget(id: nat, fp: Fingerprint, budget: nat): seq<Action> {
    [Insert(0, id, fp, "owner"), PromoteNode(0, id)] + ServeHits(id, budget)
  }

  /** Spend the budget, then lose the file and spend it again, `k` times. */
  function SpendAgain(fp: Fingerprint, budget: nat, k: nat): seq<Action> {
    if k == 0 then [Start(0)] + SpendBudget(0, fp, budget)
    else SpendAgain(fp, budget, k - 1) + ([DeleteFile] + SpendBudget(k, fp, budget))
  }

  /** Replica 0 runs on a working ledger, and every hit for `fp` was answered. */
  predicate Idle(s: System, served: nat, fp: Fingerprint) {
    && 0 in s.replicas && s.replicas[0].ledger.backed && s.replicas[0].ledger.Operational()
    && !s.file.Corrupt? && s.pending == [] && s.lost == [] && CountAll(s.served, fp) == served
  }

  /** Its node `id` is open to `n` more hits. */
  predicate OpenFor(s: System, id: nat, fp: Fingerprint, n: nat, budget: nat)
    requires 0 in s.replicas && !s.file.Corrupt?
  {
    && id in s.replicas[0].nodes && s.replicas[0].nodes[id].fp == fp && Charge(Entries(s.file), fp) + n == budget
    && var tag := s.replicas[0].nodes[id].tag;
       n > 0 ==> tag.creator == By("owner") && tag.visibility == BudgetedShared && !tag.permanent
  }

  lemma TwoSteps(s: System, a: Action, b: Action, budget: nat)
    requires Enabled(s, a) && Enabled(Apply(s, a, budget), b)
    ensures Legal(s, [a, b], budget) && Exec(s, [a, b], budget) == Apply(Apply(s, a, budget), b, budget)
  {
    OneStep(s, a, budget);
    OneStep(Apply(s, a, budget), b, budget);
    ExecConcat(s, [a], [b], budget);
    assert [a] + [b] == [a, b];
  }

  lemma {:induction false} CountAllConcat(a: seq<Ticket>, b: seq<Ticket>, fp: Fingerprint)
    ensures CountAll(a + b, fp) == CountAll(a, fp) + CountAll(b, fp)
  {
    if a == [] {
      assert a + b == b;
    } else {
      assert (a + b)[1..] == a[1..] + b;
      CountAllConcat(a[1..], b, fp);
    }
  }

  lemma HitIsServed(s: System, id: nat, fp: Fingerprint, served: nat, n: nat, budget: nat)
    requires Idle(s, served, fp) && n > 0 && OpenFor(s, id, fp, n, budget)
    ensures var run := [ReserveHit(0, id, "other", true), Respond(0)];
            && Legal(s, run, budget)
            && var s' := Exec(s, run, budget);
               && Idle(s', served + 1, fp) && OpenFor(s', id, fp, n - 1, budget)
               && s'.replicas[0].nodes.Keys == s.replicas[0].nodes.Keys
  {
    ReserveEffect(s.replicas[0].ledger, s.file, fp, budget, true);
    var s1 := Apply(s, ReserveHit(0, id, "other", true), budget);
    TwoSteps(s, ReserveHit(0, id, "other", true), Respond(0), budget);
    CountAllConcat(s.served, [s1.pending[0]], fp);
  }

  lemma {:induction false} HitsAreServed(s: System, id: nat, fp: Fingerprint, served: nat, n: nat, budget: nat)
    requires Idle(s, served, fp) && OpenFor(s, id, fp, n, budget)
    ensures Legal(s, ServeHits(id, n), budget)
    ensures var s' := Exec(s, ServeHits(id, n), budget);
            Idle(s', served + n, fp) && s'.replicas[0].nodes.Keys == s.replicas[0].nodes.Keys
    decreases n
  {
    if n == 0 {
    } else {
      var hit := [ReserveHit(0, id, "other", true), Respond(0)];
      HitIsServed(s, id, fp, served, n, budget);
      HitsAreServed(Exec(s, hit, budget), id, fp, served + 1, n - 1, budget);
      ExecConcat(s, hit, ServeHits(id, n - 1), budget);
    }
  }

  lemma BudgetIsSpent(s: System, id: nat, fp: Fingerprint, served: nat, budget: nat)
    requires Idle(s, served, fp) && Charge(Entries(s.file), fp) == 0 && id !in s.replicas[0].nodes
    ensures Legal(s, SpendBudget(id, fp, budget), budget)
    ensures var s' := Exec(s, SpendBudget(id, fp, budget), budget);
            Idle(s', served + budget, fp) && s'.replicas[0].nodes.Keys == s.replicas[0].nodes.Keys + {id}
  {
    var insert, promote := Insert(0, id, fp, "owner"), PromoteNode(0, id);
    TwoSteps(s, insert, promote, budget);
    HitsAreServed(Exec(s, [insert, promote], budget), id, fp, served, budget, budget);
    ExecConcat(s, [insert, promote], ServeHits(id, budget), budget);
  }

  lemma {:induction false} RestartsConcat(a: seq<Action>, b: seq<Action>)
    ensures Restarts(a + b) == Restarts(a) + Restarts(b)
  {
    if a == [] {
      assert a + b == b;
    } else {
      assert (a + b)[1..] == a[1..] + b;
      RestartsConcat(a[1..], b);
    }
  }

  lemma {:induction false} NoRestarts(id: nat, n: nat)
    ensures Restarts(ServeHits(id, n)) == 0
  {
    if n == 0 {
    } else {
      NoRestarts(id, n - 1);
      RestartsConcat([ReserveHit(0, id, "other", true), Respond(0)], ServeHits(id, n - 1));
      assert [ReserveHit(0, id, "other", true), Respond(0)][1..] == [Respond(0)];
    }
  }

  lemma RestartsOfSpending(id: nat, fp: Fingerprint, budget: nat)
    ensures Restarts(SpendBudget(id, fp, budget)) == 0
    ensures Restarts([DeleteFile] + SpendBudget(id, fp, budget)) == 1
    ensures Restarts([Start(0)] + SpendBudget(id, fp, budget)) == 0
  {
    var first := [Insert(0, id, fp, "owner"), PromoteNode(0, id)];
    NoRestarts(id, budget);
    RestartsConcat(first, ServeHits(id, budget));
    assert first[1..] == [PromoteNode(0, id)];
    RestartsConcat([DeleteFile], SpendBudget(id, fp, budget));
    RestartsConcat([Start(0)], SpendBudget(id, fp, budget));
  }

  lemma SpentAfterLoss(s: System, id: nat, fp: Fingerprint, served: nat, budget: nat)
    requires Idle(s, served, fp) && id !in s.replicas[0].nodes
    ensures var run := [DeleteFile] + SpendBudget(id, fp, budget);
            && Legal(s, run, budget)
            && var s' := Exec(s, run, budget);
               Idle(s', served + budget, fp) && s'.replicas[0].nodes.Keys == s.replicas[0].nodes.Keys + {id}
  {
    OneStep(s, DeleteFile, budget);
    BudgetIsSpent(Apply(s, DeleteFile, budget), id, fp, served, budget);
    ExecConcat(s, [DeleteFile], SpendBudget(id, fp, budget), budget);
  }

  lemma SpentFirst(fp: Fingerprint, budget: nat)
    ensures var s0, run := Initial(Missing), [Start(0)] + SpendBudget(0, fp, budget);
            && Legal(s0, run, budget)
            && var s := Exec(s0, run, budget);
               Idle(s, budget, fp) && s.replicas[0].nodes.Keys == {0}
  {
    var s0 := Initial(Missing);
    OneStep(s0, Start(0), budget);
    BudgetIsSpent(Apply(s0, Start(0), budget), 0, fp, 0, budget);
    ExecConcat(s0, [Start(0)], SpendBudget(0, fp, budget), budget);
  }

  /** After `k` losses the budget was served `k + 1` times, on nodes up to `k`. */
  ghost predicate Spent(s: System, fp: Fingerprint, budget: nat, k: nat) {
    Idle(s, (k + 1) * budget, fp) && forall id | id in s.replicas[0].nodes.Keys :: id <= k
  }

  lemma {:induction false} SpentAgain(fp: Fingerprint, budget: nat, k: nat)
    ensures Legal(Initial(Missing), SpendAgain(fp, budget, k), budget)
    ensures Spent(Exec(Initial(Missing), SpendAgain(fp, budget, k), budget), fp, budget, k)
    ensures Restarts(SpendAgain(fp, budget, k)) == k
  {
    RestartsOfSpending(k, fp, budget);
    if k == 0 {
      SpentFirst(fp, budget);
    } else {
      var before, more := SpendAgain(fp, budget, k - 1), [DeleteFile] + SpendBudget(k, fp, budget);
      SpentAgain(fp, budget, k - 1);
      assert (k + 1) * budget == k * budget + budget;
      SpentAfterLoss(Exec(Initial(Missing), before, budget), k, fp, k * budget, budget);
      ExecConcat(Initial(Missing), before, more, budget);
      RestartsConcat(before, more);
    }
  }

  /**
   The bound across restarts is reached, for every budget and every number of restarts: each
   loss of the file lets the whole budget be served again.
   */
  lemma BoundIsReached(fp: Fingerprint, budget: nat, k: nat)
    ensures exists run | Legal(Initial(Missing), run, budget) && Restarts(run) == k ::
      CountAll(Exec(Initial(Missing), run, budget).served, fp) == (k + 1) * budget
  {
    SpentAgain(fp, budget, k);
  }

  lemma OneStep(s: System, a: Action, budget: nat)
    requires Enabled(s, a)
    ensures Legal(s, [a], budget) && Exec(s, [a], budget) == Apply(s, a, budget)
  {
    assert [a][1..] == [];
  }

  /**
   Conservation: until a restart, every unit that the file gained is one hit that was
   served, is about to be served, or was lost in a crash.
   */
  lemma Conservation(file: File, run: seq<Action>, budget: nat, fp: Fingerprint)
    requires Legal(Initial(file), run, budget)
    ensures var s := Exec(Initial(file), run, budget);
            s.epoch == 0 && !s.file.Corrupt? ==>
              Charge(Entries(s.file), fp) == Charge(s.base, fp)
                + Count(s.served, fp, 0) + Count(s.pending, fp, 0) + Count(s.lost, fp, 0)
  {
    InitialOk(file, budget);
    RunKeeps(Initial(file), run, budget);
  }

  /**
   The price of crashes is exact: once the budget of a fresh fingerprint is spent and
   nothing is in flight, the hits served are the budget less the hits lost in crashes.
   */
  lemma CrashesCostExactly(file: File, run: seq<Action>, budget: nat, fp: Fingerprint)
    requires !file.Corrupt? && Charge(Entries(file), fp) == 0
    requires Legal(Initial(file), run, budget)
    ensures var s := Exec(Initial(file), run, budget);
            s.epoch == 0 && s.pending == [] && !s.file.Corrupt? && Charge(Entries(s.file), fp) == budget ==>
              Count(s.served, fp, 0) == budget - Count(s.lost, fp, 0)
  {
    Conservation(file, run, budget, fp);
    BaseIsConstant(Initial(file), run, budget);
  }

  lemma {:induction false} BaseIsConstant(s: System, run: seq<Action>, budget: nat)
    requires Legal(s, run, budget)
    ensures Exec(s, run, budget).base == s.base
    decreases run
  {
    if run == [] {
    } else {
      BaseIsConstant(Apply(s, run[0], budget), run[1..], budget);
    }
  }

  /**
   A crash loses exactly the reservations its replica had not answered: they move to
   `lost`, nobody else's do, and no charge is given back.
   */
  lemma CrashLosesItsPending(s: System, r: nat, budget: nat, fp: Fingerprint)
    requires Inv(s, budget) && r in s.replicas
    ensures var s' := Apply(s, Crash(r), budget);
            && s'.file == s.file && s'.served == s.served
            && Count(s'.lost, fp, s.epoch) == Count(s.lost, fp, s.epoch) + Count(Only(s.pending, r), fp, s.epoch)
            && Count(s'.pending, fp, s.epoch) == Count(s.pending, fp, s.epoch) - Count(Only(s.pending, r), fp, s.epoch)
            && (forall t :: t in s'.pending ==> t.replica != r)
  {
    CountSplit(s.pending, r, fp, s.epoch);
    CountConcat(s.lost, Only(s.pending, r), fp, s.epoch);
  }

  /**
   A stale label is harmless: whatever the node of a replica says, a lookup is granted
   only if the shared file still has room, and otherwise the node is retired for good.
   */
  lemma StaleLabelIsHarmless(s: System, a: Action, budget: nat)
    requires Inv(s, budget) && a.ReserveHit? && Enabled(s, a)
    ensures var node := s.replicas[a.r].nodes[a.id];
            var s' := Apply(s, a, budget);
            var granted := s'.pending != s.pending;
            && (granted <==> s.replicas[a.r].ledger.Operational() && !s.file.Corrupt?
                             && Charge(Entries(s.file), node.fp) < budget && a.saves)
            && (!granted ==> s'.replicas[a.r].nodes[a.id].tag.permanent && s'.file == s.file)
            && (granted ==> s'.file.Saved? && Charge(s'.file.entries, node.fp) == Charge(Entries(s.file), node.fp) + 1)
  {
    var node := s.replicas[a.r].nodes[a.id];
    ReserveEffect(s.replicas[a.r].ledger, s.file, node.fp, budget, a.saves);
    var s' := Apply(s, a, budget);
    assert |s'.pending| == |s.pending| || |s'.pending| == |s.pending| + 1;
  }

  /** A node retired in a replica is never shared again while it stays resident there. */
  lemma {:induction false} RetiredStaysRetired(s: System, run: seq<Action>, budget: nat, r: nat, id: nat)
    requires Inv(s, budget) && Legal(s, run, budget)
    requires r in s.replicas && id in s.replicas[r].nodes && s.replicas[r].nodes[id].tag.permanent
    requires forall a | a in run :: a != Evict(r, id) && a != Crash(r)
    ensures var s' := Exec(s, run, budget);
            r in s'.replicas && id in s'.replicas[r].nodes &&
              s'.replicas[r].nodes[id].tag == s.replicas[r].nodes[id].tag
    decreases run
  {
    if run == [] {
    } else {
      assert run[0] in run && forall a :: a in run[1..] ==> a in run;
      StepKeeps(s, run[0], budget);
      assert LabelOk(s.replicas[r].nodes[id].tag);
      RetiredStep(s, run[0], budget, r, id);
      RetiredStaysRetired(Apply(s, run[0], budget), run[1..], budget, r, id);
    }
  }

  lemma RetiredStep(s: System, a: Action, budget: nat, r: nat, id: nat)
    requires Enabled(s, a) && a != Evict(r, id) && a != Crash(r)
    requires r in s.replicas && id in s.replicas[r].nodes && s.replicas[r].nodes[id].tag.permanent &&
      LabelOk(s.replicas[r].nodes[id].tag)
    ensures var s' := Apply(s, a, budget);
            r in s'.replicas && id in s'.replicas[r].nodes &&
              s'.replicas[r].nodes[id].tag == s.replicas[r].nodes[id].tag
  {
  }
}
