/**
 The durable charge ledger (`DurableLedger`): one counter per prefix fingerprint,
 kept in a file that several ledger objects may share.

 Each operation appears twice.  The functions over `Instance` and `File` give its
 atomic effect (the thread lock and the file lock make the operation atomic in the
 source).  The class `DurableLedger` runs the operation step by step on its own
 fields and on the shared `Disk`, and is proved to have exactly that effect.
 */
module Ledger {
  import opened Numbers

  /** A digest is identified with the token material it hashes: an ideal hash. */
  type Fingerprint = seq<int>

  /** What opening the backing path yields. */
  datatype File = Missing | Corrupt | Saved(entries: map<Fingerprint, nat>)

  datatype Reason = Ok | Unavailable | RecoveryIncomplete | Exhausted | PersistFailed

  /** The triple `(accepted, charged_hits, reason)` returned by `reserve_hit`. */
  datatype Reply = Reply(accepted: bool, charged: nat, reason: Reason)

  /** The fields of one ledger object.  `backed` is false for an in-memory ledger. */
  datatype Instance = Instance(backed: bool, store: map<Fingerprint, nat>, available: bool, ready: bool) {
    predicate Operational() {
      available && ready
    }
  }

  datatype ReserveOutcome = ReserveOutcome(ledger: Instance, file: File, reply: Reply)

  function Charge(entries: map<Fingerprint, nat>, fp: Fingerprint): nat {
    if fp in entries then entries[fp] else 0
  }

  /** The entries a reader sees; a file that was never written reads as empty. */
  function Entries(file: File): map<Fingerprint, nat>
    requires !file.Corrupt?
  {
    if file.Missing? then map[] else file.entries
  }

  /** A new ledger object.  An unreadable file leaves it not ready. */
  function Opened(backed: bool, file: File): Instance {
    if !backed then Instance(false, map[], true, true)
    else if file.Corrupt? then Instance(true, map[], true, false)
    else Instance(true, Entries(file), true, true)
  }

  /** `_reload_locked`: an unreadable file keeps the old entries and clears `ready`. */
  function Reloaded(ledger: Instance, file: File): Instance {
    if !ledger.backed then ledger
    else if file.Corrupt? then ledger.(ready := false)
    else ledger.(store := Entries(file), ready := true)
  }

  function SavedFile(ledger: Instance, file: File): File {
    if ledger.backed then Saved(ledger.store) else file
  }

  /** `reserve_hit`.  `saves` tells whether writing the file succeeds. */
  function Reserve(ledger: Instance, file: File, fp: Fingerprint, budget: nat, saves: bool): ReserveOutcome {
    if !ledger.available then
      ReserveOutcome(ledger, file, Reply(false, Charge(ledger.store, fp), Unavailable))
    else if !ledger.ready then
      ReserveOutcome(ledger, file, Reply(false, Charge(ledger.store, fp), RecoveryIncomplete))
    else
      var reread := Reloaded(ledger, file);
      var current := Charge(reread.store, fp);
      if !reread.ready then ReserveOutcome(reread, file, Reply(false, current, RecoveryIncomplete))
      else if current >= budget then ReserveOutcome(reread, file, Reply(false, current, Exhausted))
      else if ledger.backed && !saves then
        ReserveOutcome(reread.(store := reread.store[fp := current], ready := false), file,
          Reply(false, current, PersistFailed))
      else
        var charged := reread.(store := reread.store[fp := current + 1]);
        ReserveOutcome(charged, SavedFile(charged, file), Reply(true, current + 1, Ok))
  }

  /** The object after `charged_hits`, which refreshes an operational ledger. */
  function Consulted(ledger: Instance, file: File): Instance {
    if ledger.Operational() then Reloaded(ledger, file) else ledger
  }

  /** Pointwise maximum: how `flush` combines its own entries with the file's. */
  function Merged(mine: map<Fingerprint, nat>, theirs: map<Fingerprint, nat>): map<Fingerprint, nat> {
    map fp | fp in mine.Keys + theirs.Keys :: Max(Charge(mine, fp), Charge(theirs, fp))
  }

  /** `flush`: the object and the file afterwards. */
  function Flushed(ledger: Instance, file: File, saves: bool): (Instance, File) {
    if !ledger.Operational() then (ledger, file)
    else
      var reread := Reloaded(ledger, file);
      if !reread.ready then (reread, file)
      else
        var merged := reread.(store := Merged(ledger.store, reread.store));
        (merged, if saves then SavedFile(merged, file) else file)
  }

  /** `reset`: forget every charge (rotation of the accounting epoch). */
  function Cleared(ledger: Instance, file: File, saves: bool): (Instance, File) {
    var empty := ledger.(store := map[], ready := true);
    (empty, if saves then SavedFile(empty, file) else file)
  }

  /** What an object knows never exceeds what is durable. */
  ghost predicate Behind(mine: map<Fingerprint, nat>, durable: map<Fingerprint, nat>) {
    forall fp :: Charge(mine, fp) <= Charge(durable, fp)
  }

  /** When a reservation is granted, and its exact effect on the durable charges. */
  lemma ReserveEffect(ledger: Instance, file: File, fp: Fingerprint, budget: nat, saves: bool)
    requires ledger.backed
    ensures var o := Reserve(ledger, file, fp, budget, saves);
            && (o.reply.accepted <==>
                ledger.Operational() && !file.Corrupt? && Charge(Entries(file), fp) < budget && saves)
            && (o.reply.accepted ==>
                o.file.Saved? && o.reply.charged == Charge(o.file.entries, fp) == Charge(Entries(file), fp) + 1)
            && (o.reply.accepted ==>
                forall other :: other != fp ==> Charge(o.file.entries, other) == Charge(Entries(file), other))
            && (!o.reply.accepted ==> o.file == file)
  {
  }

  /** Flushing an object that is behind the file leaves every durable charge alone. */
  lemma FlushOfBehind(ledger: Instance, file: File, saves: bool)
    requires ledger.backed && !file.Corrupt? && Behind(ledger.store, Entries(file))
    ensures var (l, f) := Flushed(ledger, file, saves);
            && !f.Corrupt?
            && (forall fp :: Charge(Entries(f), fp) == Charge(Entries(file), fp))
            && Behind(l.store, Entries(f))
  {
    var entries := Entries(file);
    forall fp
      ensures Charge(Merged(ledger.store, entries), fp) == Charge(entries, fp)
    {
      assert Charge(ledger.store, fp) <= Charge(entries, fp);
    }
  }

  /** After a reset that was written, an available ledger charges again from zero, ready or not before. */
  lemma ResetStartsOver(ledger: Instance, file: File, fp: Fingerprint, budget: nat)
    requires ledger.backed && ledger.available && budget > 0
    ensures var (l, f) := Cleared(ledger, file, true);
            Reserve(l, f, fp, budget, true).reply == Reply(true, 1, Ok)
  {
  }

  /** The loop of `flush` over its own pending entries. */
  method MergeInto(
    pending: map<Fingerprint, nat>, loaded: map<Fingerprint, nat>) returns (merged: map<Fingerprint, nat>)
    ensures merged == Merged(pending, loaded)
    ensures forall fp ::
      && Charge(merged, fp) >= Charge(pending, fp) && Charge(merged, fp) >= Charge(loaded, fp)
      && (Charge(merged, fp) == Charge(pending, fp) || Charge(merged, fp) == Charge(loaded, fp))
  {
    merged := loaded;
    var done: set<Fingerprint> := {};
    while pending.Keys - done != {}
      invariant done <= pending.Keys
      invariant merged.Keys == loaded.Keys + done
      invariant forall fp | fp in merged.Keys ::
        merged[fp] == if fp in done then Max(pending[fp], Charge(loaded, fp)) else loaded[fp]
      decreases pending.Keys - done
    {
      var fp :| fp in pending.Keys - done;
      merged := merged[fp := Max(pending[fp], Charge(merged, fp))];
      done := done + {fp};
    }
  }

  /** The backing file. */
  class Disk {
    var file: File

    constructor (file: File)
      ensures this.file == file
    {
      this.file := file;
    }
  }

  class DurableLedger {
    const disk: Disk?
    var store: map<Fingerprint, nat>
    var available: bool
    var ready: bool

    ghost function Frame(): set<object>
      reads this
    {
      if disk == null then {this} else {this, disk}
    }

    ghost function State(): Instance
      reads this
    {
      Instance(disk != null, store, available, ready)
    }

    ghost function OnDisk(): File
      reads Frame()
    {
      if disk == null then Missing else disk.file
    }

    constructor (disk: Disk?)
      ensures this.disk == disk
      ensures State() == Opened(disk != null, if disk == null then Missing else disk.file)
    {
      this.disk := disk;
      store := map[];
      available := true;
      ready := true;
      new;
      if disk != null {
        match disk.file
        case Missing =>
        case Corrupt => ready := false;
        case Saved(entries) => store := entries;
      }
    }

    method SetAvailable(value: bool)
      modifies this
      ensures State() == old(State()).(available := value)
    {
      available := value;
    }

    method Reload() returns (ok: bool)
      modifies this
      ensures State() == Reloaded(old(State()), old(OnDisk()))
      ensures ok <==> disk == null || !old(OnDisk()).Corrupt?
      ensures ok && disk != null ==> ready && store == Entries(disk.file)
      ensures !ok ==> !ready && store == old(store)
    {
      if disk == null {
        return true;
      }
      match disk.file
      case Missing =>
        store, ready, ok := map[], true, true;
      case Corrupt =>
        ready, ok := false, false;
      case Saved(entries) =>
        store, ready, ok := entries, true, true;
    }

    method Save(saves: bool) returns (ok: bool)
      modifies Frame() - {this}
      ensures ok <==> disk == null || saves
      ensures OnDisk() == if ok then SavedFile(State(), old(OnDisk())) else old(OnDisk())
    {
      if disk == null {
        return true;
      }
      if saves {
        disk.file := Saved(store);
      }
      ok := saves;
    }

    method ReserveHit(fp: Fingerprint, budget: nat, saves: bool) returns (reply: Reply)
      requires budget > 0
      modifies Frame()
      ensures ReserveOutcome(State(), OnDisk(), reply) == Reserve(old(State()), old(OnDisk()), fp, budget, saves)
    {
      if !available {
        return Reply(false, Charge(store, fp), Unavailable);
      }
      if !ready {
        return Reply(false, Charge(store, fp), RecoveryIncomplete);
      }
      var reread := Reload();
      if !reread {
        return Reply(false, Charge(store, fp), RecoveryIncomplete);
      }
      var current := Charge(store, fp);
      if current >= budget {
        return Reply(false, current, Exhausted);
      }
      store := store[fp := current + 1];
      var saved := Save(saves);
      if !saved {
        store := store[fp := current];
        ready := false;
        return Reply(false, current, PersistFailed);
      }
      reply := Reply(true, current + 1, Ok);
    }

    method ChargedHits(fp: Fingerprint) returns (charged: nat)
      modifies this
      ensures State() == Consulted(old(State()), old(OnDisk()))
      ensures charged == Charge(State().store, fp)
      ensures disk != null && old(available) && old(ready) && !disk.file.Corrupt? ==>
        charged == Charge(Entries(disk.file), fp)
      ensures disk == null || !old(available) || !old(ready) || disk.file.Corrupt? ==>
        charged == Charge(old(store), fp)
    {
      if disk != null && available && ready {
        var _ := Reload();
      }
      charged := Charge(store, fp);
    }

    method Flush(saves: bool)
      modifies Frame()
      ensures (State(), OnDisk()) == Flushed(old(State()), old(OnDisk()), saves)
      ensures disk != null && old(available) && old(ready) && !old(disk.file).Corrupt? ==>
        && (forall fp :: Charge(store, fp) == Max(Charge(old(store), fp), Charge(Entries(old(disk.file)), fp)))
        && disk.file == if saves then Saved(store) else old(disk.file)
      ensures !old(available) || !old(ready) ==> State() == old(State()) && OnDisk() == old(OnDisk())
    {
      if !available || !ready {
        return;
      }
      var pending := store;
      var reread := Reload();
      if !reread {
        return;
      }
      store := MergeInto(pending, store);
      var _ := Save(saves);
    }

    method Reset(saves: bool)
      modifies Frame()
      ensures (State(), OnDisk()) == Cleared(old(State()), old(OnDisk()), saves)
      ensures store == map[] && ready && available == old(available)
      ensures disk != null ==> disk.file == if saves then Saved(map[]) else old(OnDisk())
    {
      store := map[];
      ready := true;
      var _ := Save(saves);
    }
  }
}
