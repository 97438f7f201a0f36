/**
 The privacy label of one cached prefix, and the two transitions that consult the
 ledger: promotion of a private prefix, and reservation of a cross-tenant hit.
 */
module CachePolicy {
  import opened Ledger

  type User = string

  /** `Open` is the unprotected mode "none". */
  datatype Mode = Strict | Balanced | Open

  datatype Visibility = Private | Candidate | BudgetedShared | ExhaustedPrivate | VerifiedPublic

  datatype Creator = Nobody | By(user: User)

  datatype Label = Label(creator: Creator, visibility: Visibility, accessBudget: nat, permanent: bool)

  datatype PromoteOutcome = PromoteOutcome(tag: Label, ledger: Instance)

  datatype HitOutcome = HitOutcome(tag: Label, ledger: Instance, file: File, granted: bool)

  /** The guard of the promotion walk. */
  predicate Promotable(tag: Label) {
    tag.visibility == Private && !tag.permanent
  }

  function Exhaust(tag: Label): Label {
    tag.(visibility := ExhaustedPrivate, permanent := true)
  }

  /** One promotion: fail closed when the ledger is down, otherwise follow its charge. */
  function Promote(tag: Label, fp: Fingerprint, ledger: Instance, file: File, budget: nat): PromoteOutcome {
    if !ledger.Operational() then PromoteOutcome(Exhaust(tag), ledger)
    else
      var consulted := Consulted(ledger, file);
      var charged := Charge(consulted.store, fp);
      var restored := tag.(accessBudget := charged);
      var decided := if charged >= budget then Exhaust(restored) else restored.(visibility := BudgetedShared);
      PromoteOutcome(decided, consulted)
  }

  /** `_visible_to` */
  predicate VisibleTo(tag: Label, mode: Mode, user: User) {
    || mode.Open?
    || tag.visibility == VerifiedPublic
    || tag.creator == By(user)
    || (mode.Balanced? && tag.visibility == BudgetedShared && !tag.permanent)
  }

  /** The condition under which a lookup must reserve before it is served. */
  predicate MustReserve(tag: Label, mode: Mode, user: User) {
    mode.Balanced? && tag.visibility == BudgetedShared && tag.creator != By(user)
  }

  /** `_reserve_balanced_hit` */
  function ReserveShared(
    tag: Label, fp: Fingerprint, ledger: Instance, file: File, budget: nat, saves: bool): HitOutcome {
    if tag.visibility != BudgetedShared then HitOutcome(tag, ledger, file, false)
    else
      var o := Reserve(ledger, file, fp, budget, saves);
      if !o.reply.accepted then HitOutcome(Exhaust(tag), o.ledger, o.file, false)
      else
        var charged := tag.(accessBudget := o.reply.charged);
        HitOutcome(if o.reply.charged >= budget then Exhaust(charged) else charged, o.ledger, o.file, true)
  }

  /**
   A hit on a shared node is granted exactly while the durable charge of its key is below the
   budget and the ledger can tell and write; a refused one, and the last one granted, retire it.
   */
  lemma SharedHit(tag: Label, fp: Fingerprint, ledger: Instance, file: File, budget: nat, saves: bool)
    requires ledger.backed
    ensures var o := ReserveShared(tag, fp, ledger, file, budget, saves);
            && (o.granted <==>
                && tag.visibility == BudgetedShared && ledger.Operational() && !file.Corrupt?
                && Charge(Entries(file), fp) < budget && saves)
            && (!o.granted ==> o.file == file)
            && (tag.visibility != BudgetedShared ==> o.tag == tag && o.ledger == ledger)
            && (tag.visibility == BudgetedShared && !o.granted ==>
                o.tag == tag.(visibility := ExhaustedPrivate, permanent := true))
            && (o.granted ==>
                var charged := Charge(Entries(file), fp) + 1;
                && o.file.Saved? && Charge(o.file.entries, fp) == charged
                && o.tag == if charged < budget then tag.(accessBudget := charged)
                            else tag.(visibility := ExhaustedPrivate, permanent := true, accessBudget := charged))
  {
    ReserveEffect(ledger, file, fp, budget, saves);
  }
}
