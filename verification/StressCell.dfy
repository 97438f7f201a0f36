/**
 The stress matrix: rounds of threads that reserve through replicas of one ledger,
 with replicas rebuilt after every round and one crash injected at a chosen point.

 A reservation is atomic, so a round is fixed by the order in which its threads reach
 the ledger: `schedule`, any permutation of the threads.  `saves(k)` tells whether the
 file write of the k-th attempt succeeds.
 */
module StressCell {
  import opened Numbers
  import opened Ledger

  datatype RestartPoint = NoRestart | BeforeReserve | AfterReserveBeforeResponse | AfterResponse

  datatype Verdict = Pass | Fail

  datatype Row = Row(
    attempted: nat, served: nat, charges: nat, unused: nat,
    lost: nat, duplicated: nat, overshoot: nat, verdict: Verdict)

  /** `Failed` stands for the RuntimeError raised when recovery is not operational. */
  datatype CellResult = Failed | Finished(row: Row)

  function Monus(a: nat, b: nat): nat {
    if a < b then 0 else a - b
  }

  /** The charge after `n` attempts that all reach the file: capped, never lowered. */
  function Capped(charge: nat, n: nat, budget: nat): nat {
    Max(charge, Min(budget, charge + n))
  }

  /** Every thread occurs once. */
  predicate IsSchedule(schedule: seq<nat>, n: nat) {
    && |schedule| == n
    && (forall i | 0 <= i < n :: schedule[i] < n)
    && (forall i, j | 0 <= i < j < n :: schedule[i] != schedule[j])
  }

  function Sum(s: seq<nat>): nat {
    if s == [] then 0 else s[0] + Sum(s[1..])
  }

  lemma {:induction false} SumUpdate(s: seq<nat>, k: nat, v: nat)
    requires k < |s|
    ensures Sum(s[k := v]) + s[k] == Sum(s) + v
  {
    if k == 0 {
      assert s[k := v][1..] == s[1..];
    } else {
      assert s[k := v][1..] == s[1..][k - 1 := v];
      SumUpdate(s[1..], k - 1, v);
    }
  }

  lemma {:induction false} SumZeros(s: seq<nat>)
    requires forall i | 0 <= i < |s| :: s[i] == 0
    ensures Sum(s) == 0
  {
    if s == [] {
    } else {
      SumZeros(s[1..]);
    }
  }

  ghost predicate Replicas(replicas: seq<DurableLedger>, disk: Disk)
    reads replicas
  {
    forall i | 0 <= i < |replicas| :: replicas[i].disk == disk
  }

  ghost predicate Live(replicas: seq<DurableLedger>)
    reads replicas
  {
    forall i | 0 <= i < |replicas| :: replicas[i].available && replicas[i].ready
  }

  method RecoverReplicas(disk: Disk, n: nat) returns (ok: bool, replicas: seq<DurableLedger>)
    ensures Replicas(replicas, disk) && forall i | 0 <= i < |replicas| :: fresh(replicas[i])
    ensures ok <==> n == 0 || !disk.file.Corrupt?
    ensures ok ==> |replicas| == n && Live(replicas)
  {
    replicas := [];
    for k := 0 to n
      invariant |replicas| == k
      invariant Replicas(replicas, disk) && forall i | 0 <= i < |replicas| :: fresh(replicas[i])
      invariant Live(replicas) && (k > 0 ==> !disk.file.Corrupt?)
    {
      var ledger := new DurableLedger(disk);
      if !(ledger.available && ledger.ready) {
        return false, replicas;
      }
      replicas := replicas + [ledger];
    }
    ok := true;
  }

  /** One round: every thread reserves once, through the replica its index selects. */
  method RunConcurrentRound(
    replicas: seq<DurableLedger>, disk: Disk, fp: Fingerprint, threads: nat, budget: nat, schedule: seq<nat>,
    saves: nat -> bool, first: nat)
    returns (successes: nat)
    requires budget > 0 && |replicas| > 0 && Replicas(replicas, disk) && IsSchedule(schedule, threads)
    requires !disk.file.Corrupt?
    modifies disk, replicas
    ensures !disk.file.Corrupt?
    ensures Charge(Entries(disk.file), fp) == old(Charge(Entries(disk.file), fp)) + successes
    ensures successes > 0 ==> Charge(Entries(disk.file), fp) <= budget
    ensures old(Live(replicas)) && (forall k :: saves(k)) ==>
              Charge(Entries(disk.file), fp) == old(Capped(Charge(Entries(disk.file), fp), threads, budget))
  {
    var accepted := new nat[threads](_ => 0);
    SumZeros(accepted[..]);
    ghost var start := Charge(Entries(disk.file), fp);
    for i := 0 to threads
      invariant Replicas(replicas, disk) && !disk.file.Corrupt?
      invariant forall k | 0 <= k < threads :: k !in schedule[..i] ==> accepted[k] == 0
      invariant Charge(Entries(disk.file), fp) == start + Sum(accepted[..])
      invariant Sum(accepted[..]) > 0 ==> Charge(Entries(disk.file), fp) <= budget
      invariant old(Live(replicas)) && (forall k :: saves(k)) ==>
          Live(replicas) && Charge(Entries(disk.file), fp) == Capped(start, i, budget)
    {
      var index := schedule[i];
      var ok := ReserveThrough(replicas, disk, fp, budget, index % |replicas|, saves(first + i));
      RecordAccepted(accepted, index, ok);
      assert schedule[..i + 1] == schedule[..i] + [index];
    }
    successes := SumOf(accepted);
  }

  /** One reservation through one of the replicas, in terms of the shared charge. */
  method ReserveThrough(
    replicas: seq<DurableLedger>, disk: Disk, fp: Fingerprint, budget: nat, which: nat,
    save: bool) returns (ok: bool)
    requires budget > 0 && which < |replicas| && Replicas(replicas, disk) && !disk.file.Corrupt?
    modifies disk, replicas
    ensures Replicas(replicas, disk) && !disk.file.Corrupt?
    ensures Charge(Entries(disk.file), fp) == old(Charge(Entries(disk.file), fp)) + if ok then 1 else 0
    ensures ok ==> save && old(Charge(Entries(disk.file), fp)) < budget
    ensures old(Live(replicas)) && save ==> Live(replicas) && (ok <==> old(Charge(Entries(disk.file), fp)) < budget)
  {
    var ledger := replicas[which];
    ReserveEffect(ledger.State(), disk.file, fp, budget, save);
    var reply := ledger.ReserveHit(fp, budget, save);
    ok := reply.accepted;
  }

  method RecordAccepted(accepted: array<nat>, index: nat, ok: bool)
    requires index < accepted.Length && accepted[index] == 0
    modifies accepted
    ensures accepted[..] == old(accepted[..])[index := if ok then 1 else 0]
    ensures Sum(accepted[..]) == old(Sum(accepted[..])) + if ok then 1 else 0
  {
    SumUpdate(accepted[..], index, if ok then 1 else 0);
    accepted[index] := if ok then 1 else 0;
    assert accepted[..] == old(accepted[..])[index := if ok then 1 else 0];
  }

  method SumOf(a: array<nat>) returns (total: nat)
    ensures total == Sum(a[..])
  {
    total := 0;
    var i: nat := a.Length;
    while i > 0
      invariant i <= a.Length && total == Sum(a[i..])
    {
      i := i - 1;
      assert a[i..] == [a[i]] + a[i + 1..];
      total := a[i] + total;
    }
    assert a[0..] == a[..];
  }

  /** Attempts made while injecting the crash. */
  function Injected(restart: RestartPoint): nat {
    if restart in {AfterReserveBeforeResponse, AfterResponse} then 1 else 0
  }

  /** The books of a cell whose ledger carried `start` units before it ran. */
  ghost predicate Balanced(row: Row, start: nat, rounds: nat, restart: RestartPoint, budget: nat, saves: nat -> bool) {
    && row.charges == start + row.served + row.unused
    && (row.served + row.unused > 0 ==> row.charges <= budget)
    && row.attempted == Injected(restart) + rounds
    && row.unused == (if restart.AfterReserveBeforeResponse? && start < budget && saves(0) then 1 else 0)
    && row.lost == 0 && row.duplicated == start
    && row.overshoot == Monus(start, budget)
    && (row.verdict == Pass <==> start == 0)
    && ((forall k :: saves(k)) ==> row.charges == Capped(start, row.attempted, budget))
  }

  /**
   One cell of the matrix.  `schedules[c]` is the thread order of cycle c.

   Whatever the thread orders, the failing writes, the replica and cycle counts and the
   crash point: nothing is lost, no charge passes the budget, and the file grew by the
   hits served plus the reservation the crash wasted.  With no failing write the final
   charge is the capped number of attempts.  The verdict is "pass" exactly when the
   ledger started without a charge.
   */
  method RunCell(
    disk: Disk, fp: Fingerprint, threads: nat, nReplicas: nat, cycles: nat, restart: RestartPoint, budget: nat,
    schedules: seq<seq<nat>>, saves: nat -> bool)
    returns (result: CellResult)
    requires budget > 0 && nReplicas > 0
    requires |schedules| == cycles && forall c | 0 <= c < cycles :: IsSchedule(schedules[c], threads)
    modifies disk
    ensures result.Failed? <==> old(disk.file).Corrupt?
    ensures result.Finished? ==>
      && !disk.file.Corrupt? && result.row.charges == Charge(Entries(disk.file), fp)
      && Balanced(result.row, Charge(Entries(old(disk.file)), fp), cycles * threads, restart, budget, saves)
    ensures result.Finished? ==>
      var row, start := result.row, Charge(Entries(old(disk.file)), fp);
      && row.attempted ==
           cycles * threads + (if restart.AfterReserveBeforeResponse? || restart.AfterResponse? then 1 else 0)
      && row.lost == 0 && row.duplicated == start && row.overshoot == (if start > budget then start - budget else 0)
      && (row.verdict.Pass? <==> start == 0)
      && ((forall k :: saves(k)) ==>
          row.charges == if start >= budget then start
                         else if start + row.attempted >= budget then budget else start + row.attempted)
  {
    var ok, first, more, unused := Drive(disk, fp, threads, nReplicas, cycles, restart, budget, schedules, saves);
    if !ok {
      return Failed;
    }
    var final := new DurableLedger(disk);
    var charges := final.ChargedHits(fp);
    result := Finished(Judge(Injected(restart) + cycles * threads, first + more, unused, charges, budget));
    JudgeOf(old(Charge(Entries(disk.file), fp)), first, more, unused, cycles * threads, restart, budget, saves);
  }

  /** The crash and all cycles, up to the final reading of the ledger. */
  method Drive(
    disk: Disk, fp: Fingerprint, threads: nat, nReplicas: nat, cycles: nat, restart: RestartPoint, budget: nat,
    schedules: seq<seq<nat>>, saves: nat -> bool)
    returns (ok: bool, first: nat, more: nat, unused: nat)
    requires budget > 0 && nReplicas > 0
    requires |schedules| == cycles && forall c | 0 <= c < cycles :: IsSchedule(schedules[c], threads)
    modifies disk
    ensures ok <==> !old(disk.file).Corrupt?
    ensures disk.file.Corrupt? <==> old(disk.file).Corrupt?
    ensures ok ==>
      var start := Charge(Entries(old(disk.file)), fp);
      && Charge(Entries(disk.file), fp) == start + first + unused + more
      && first == (if restart.AfterResponse? && start < budget && saves(0) then 1 else 0)
      && unused == (if restart.AfterReserveBeforeResponse? && start < budget && saves(0) then 1 else 0)
      && (more > 0 ==> start + first + unused + more <= budget)
      && ((forall k :: saves(k)) ==>
          start + first + unused + more == Capped(start + first + unused, cycles * threads, budget))
  {
    var replicas;
    ok, replicas := RecoverReplicas(disk, nReplicas);
    first, more, unused := 0, 0, 0;
    if ok {
      var attempted;
      replicas, attempted, first, unused := InjectRestart(replicas, disk, fp, restart, budget, saves(0));
      more := RunCycles(replicas, disk, fp, threads, cycles, budget, schedules, saves, attempted);
    }
  }

  /** How the books look when the file gained exactly what was served or wasted. */
  lemma JudgeOf(
    start: nat, first: nat, more: nat, unused: nat, rounds: nat, restart: RestartPoint, budget: nat,
    saves: nat -> bool)
    requires first == (if restart.AfterResponse? && start < budget && saves(0) then 1 else 0)
    requires unused == (if restart.AfterReserveBeforeResponse? && start < budget && saves(0) then 1 else 0)
    requires more > 0 ==> start + first + unused + more <= budget
    requires (forall k :: saves(k)) ==> start + first + unused + more == Capped(start + first + unused, rounds, budget)
    ensures Balanced(Judge(Injected(restart) + rounds, first + more, unused, start + first + unused + more, budget),
      start, rounds, restart, budget, saves)
  {
  }

  /** What each column says, whatever was measured. */
  lemma JudgeColumns(attempted: nat, served: nat, unused: nat, charges: nat, budget: nat)
    ensures var row := Judge(attempted, served, unused, charges, budget);
            && row.attempted == attempted && row.served == served && row.unused == unused && row.charges == charges
            && row.lost == (if served + unused > charges then served + unused - charges else 0)
            && row.duplicated == (if charges > served + unused then charges - (served + unused) else 0)
            && row.overshoot == (if charges > budget then charges - budget else 0)
            && (row.verdict.Pass? <==> charges == served + unused && charges <= budget)
  {
  }

  function Judge(attempted: nat, served: nat, unused: nat, charges: nat, budget: nat): Row {
    var expected := served + unused;
    var lost := Monus(expected, charges);
    var duplicated := Monus(charges, expected);
    var overshoot := Monus(charges, budget);
    var verdict := if overshoot != 0 || lost != 0 || duplicated != 0 || charges > budget then Fail else Pass;
    Row(attempted, served, charges, unused, lost, duplicated, overshoot, verdict)
  }

  /** The crash injected before the cycles; `replicas` are rebuilt unless there is none. */
  method InjectRestart(
    before: seq<DurableLedger>, disk: Disk, fp: Fingerprint, restart: RestartPoint, budget: nat, save: bool)
    returns (replicas: seq<DurableLedger>, attempted: nat, served: nat, unused: nat)
    requires budget > 0 && |before| > 0 && Replicas(before, disk) && Live(before) && !disk.file.Corrupt?
    modifies disk, before
    ensures !disk.file.Corrupt? && |replicas| == |before| && Replicas(replicas, disk) && Live(replicas)
    ensures forall i | 0 <= i < |replicas| :: replicas[i] in before || fresh(replicas[i])
    ensures attempted == Injected(restart)
    ensures var start := old(Charge(Entries(disk.file), fp));
            && Charge(Entries(disk.file), fp) == start + served + unused
            && served == (if restart.AfterResponse? && start < budget && save then 1 else 0)
            && unused == (if restart.AfterReserveBeforeResponse? && start < budget && save then 1 else 0)
  {
    replicas, attempted, served, unused := before, 0, 0, 0;
    var ok;
    match restart
    case NoRestart =>
    case BeforeReserve =>
      ok, replicas := RecoverReplicas(disk, |before|);
    case AfterReserveBeforeResponse =>
      attempted := 1;
      var accepted := ReserveThrough(before, disk, fp, budget, 0, save);
      if accepted {
        unused := 1;
      }
      ok, replicas := RecoverReplicas(disk, |before|);
    case AfterResponse =>
      attempted := 1;
      var accepted := ReserveThrough(before, disk, fp, budget, 0, save);
      if accepted {
        served := 1;
      }
      ok, replicas := RecoverReplicas(disk, |before|);
  }

  /** The cycles: each is a round followed by rebuilding every replica. */
  method RunCycles(before: seq<DurableLedger>, disk: Disk, fp: Fingerprint, threads: nat, cycles: nat, budget: nat,
                   schedules: seq<seq<nat>>, saves: nat -> bool, first: nat)
    returns (served: nat)
    requires budget > 0 && |before| > 0 && Replicas(before, disk) && Live(before) && !disk.file.Corrupt?
    requires |schedules| == cycles && forall c | 0 <= c < cycles :: IsSchedule(schedules[c], threads)
    modifies disk, before
    ensures !disk.file.Corrupt?
    ensures Charge(Entries(disk.file), fp) == old(Charge(Entries(disk.file), fp)) + served
    ensures served > 0 ==> Charge(Entries(disk.file), fp) <= budget
    ensures (forall k :: saves(k)) ==>
              Charge(Entries(disk.file), fp) == old(Capped(Charge(Entries(disk.file), fp), cycles * threads, budget))
  {
    ghost var start := Charge(Entries(disk.file), fp);
    var replicas := before;
    served := 0;
    var done: nat := 0;
    for c := 0 to cycles
      invariant !disk.file.Corrupt? && |replicas| > 0 && Replicas(replicas, disk) && Live(replicas)
      invariant forall i | 0 <= i < |replicas| :: replicas[i] in before || fresh(replicas[i])
      invariant done == c * threads
      invariant Charge(Entries(disk.file), fp) == start + served
      invariant served > 0 ==> start + served <= budget
      invariant (forall k :: saves(k)) ==> start + served == Capped(start, done, budget)
    {
      var successes := RunConcurrentRound(replicas, disk, fp, threads, budget, schedules[c], saves, first + done);
      var ok;
      done, served := done + threads, served + successes;
      ok, replicas := RecoverReplicas(disk, |replicas|);
    }
  }
}
