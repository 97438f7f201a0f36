/**
 The registry of public prefixes: operator-signed authorizations, installation,
 verification and revocation.

 Digest and MAC are ideal: a SHA-256 digest is the message it was computed from, an
 HMAC is the pair of key and message, and no other text equals either.  `expires` is the
 bit pattern of a non-negative double, which orders like the time it denotes.
 */
module Registry {
  import opened Encoding
  import opened Options

  datatype Digest = Sha256(message: Bytes) | OtherDigest(text: Bytes)

  datatype Mac = Hmac(key: Text, message: Bytes) | OtherMac(text: Bytes)

  datatype Authorization = Authorization(
    id: Text, issuer: Text, model: Text, tokenizer: Text, length: int, fingerprint: Digest,
    epoch: Int64, expires: Word, revoked: bool, mac: Mac)

  datatype Reason =
    | Ok | InvalidMac | WrongModel | WrongTokenizer | WrongLength | WrongFingerprint
    | StaleEpoch | Expired | Revoked | UnknownObject | ObjectMismatch

  datatype State = State(key: Text, epoch: Int64, installed: map<Text, Authorization>, revokedIds: set<Text>)

  /** The authorization that signing these claims produces. */
  function Sign(key: Text, c: Claims): Authorization {
    Authorization(c.id, c.issuer, c.model, c.tokenizer, |c.tokens|,
                  Sha256(PrefixPayload(c.model, c.tokenizer, c.tokens)),
                  c.epoch, c.expires, c.revoked, Hmac(key, AuthorizationPayload(c)))
  }

  /** The claims that an authorization makes about a given prefix. */
  function ClaimsOf(a: Authorization, model: Text, tokenizer: Text, tokens: Tokens): Claims {
    Claims(a.id, a.issuer, model, tokenizer, tokens, a.epoch, a.expires, a.revoked)
  }

  /** `_verify_locked`: the first test that fails decides the reason. */
  function Check(
    s: State, a: Authorization, model: Text, tokenizer: Text, tokens: Tokens, now: Word,
    needInstalled: bool): Reason {
    if a.model != model then WrongModel
    else if a.tokenizer != tokenizer then WrongTokenizer
    else if a.length != |tokens| then WrongLength
    else if a.fingerprint != Sha256(PrefixPayload(model, tokenizer, tokens)) then WrongFingerprint
    else if a.mac != Hmac(s.key, AuthorizationPayload(ClaimsOf(a, model, tokenizer, tokens))) then InvalidMac
    else if a.epoch != s.epoch then StaleEpoch
    else if a.expires <= now then Expired
    else if a.revoked || a.id in s.revokedIds then Revoked
    else if !needInstalled then Ok
    else if a.id !in s.installed then UnknownObject
    else if s.installed[a.id] != a then ObjectMismatch
    else Ok
  }

  datatype Op =
    | Issue(claims: Claims, now: Word)
    | Install(a: Authorization, model: Text, tokenizer: Text, tokens: Tokens, now: Word)
    | Verify(a: Authorization, model: Text, tokenizer: Text, tokens: Tokens, now: Word)
    | Revoke(id: Text)
    | Reset(epoch: Int64)

  /** `issue` raises unless the claims name the current epoch and a future expiry. */
  predicate CanIssue(s: State, c: Claims, now: Word) {
    c.id != [] && c.issuer != [] && c.model != [] && c.epoch == s.epoch && c.expires > now
  }

  function Issued(s: State, c: Claims): State {
    if c.revoked then s.(revokedIds := s.revokedIds + {c.id})
    else s.(installed := s.installed[c.id := Sign(s.key, c)], revokedIds := s.revokedIds - {c.id})
  }

  function Installed(s: State, a: Authorization, reason: Reason): State {
    if reason.Ok? then s.(installed := s.installed[a.id := a])
    else if reason.Revoked? && a.revoked then
      s.(revokedIds := s.revokedIds + {a.id}, installed := s.installed - {a.id})
    else s
  }

  function Apply(s: State, op: Op): State {
    match op
    case Issue(c, now) => if CanIssue(s, c, now) then Issued(s, c) else s
    case Install(a, model, tokenizer, tokens, now) => Installed(s, a, Check(s, a, model, tokenizer, tokens, now, false))
    case Verify(_, _, _, _, _) => s
    case Revoke(id) => s.(revokedIds := s.revokedIds + {id})
    case Reset(epoch) => State(s.key, epoch, map[], {})
  }

  function Exec(s: State, run: seq<Op>): State
    decreases run
  {
    if run == [] then s else Exec(Apply(s, run[0]), run[1..])
  }

  // ----- what an accepted authorization proves -----

  /** Signed by the operator for exactly this prefix. */
  predicate SignedFor(key: Text, a: Authorization, tokens: Tokens) {
    a == Sign(key, ClaimsOf(a, a.model, a.tokenizer, tokens))
  }

  /** Claims under which an authorization deserves to be accepted for a prefix. */
  predicate Deserves(s: State, a: Authorization, c: Claims, model: Text, tokenizer: Text, tokens: Tokens, now: Word) {
    && a == Sign(s.key, c) && c.model == model && c.tokenizer == tokenizer && c.tokens == tokens
    && c.epoch == s.epoch && c.expires > now && !c.revoked && c.id !in s.revokedIds
    && c.id in s.installed && s.installed[c.id] == a
  }

  /**
   Verification accepts exactly the authorizations that the operator signed over some
   claims about the very prefix presented, current, unrevoked and installed.  No second
   reading is possible: whatever claims produce the authorization are those claims.
   */
  lemma AcceptedIffAuthorized(
    s: State, a: Authorization, model: Text, tokenizer: Text, tokens: Tokens, now: Word)
    ensures Check(s, a, model, tokenizer, tokens, now, true).Ok? <==>
      exists c: Claims :: Deserves(s, a, c, model, tokenizer, tokens, now)
    ensures Check(s, a, model, tokenizer, tokens, now, true).Ok? ==>
      forall c: Claims | a == Sign(s.key, c) :: Deserves(s, a, c, model, tokenizer, tokens, now)
  {
    if Check(s, a, model, tokenizer, tokens, now, true).Ok? {
      var own := ClaimsOf(a, model, tokenizer, tokens);
      assert Deserves(s, a, own, model, tokenizer, tokens, now);
      forall c: Claims | a == Sign(s.key, c)
        ensures Deserves(s, a, c, model, tokenizer, tokens, now)
      {
        AuthorizationPayloadInjective(c, own);
      }
    }
  }

  /** One MAC authorizes one set of claims: it cannot be carried over to another prefix. */
  lemma MacBindsClaims(key: Text, a: Authorization, k1: Tokens, b: Authorization, k2: Tokens)
    requires SignedFor(key, a, k1) && SignedFor(key, b, k2) && a.mac == b.mac
    ensures a == b && k1 == k2
  {
    AuthorizationPayloadInjective(ClaimsOf(a, a.model, a.tokenizer, k1), ClaimsOf(b, b.model, b.tokenizer, k2));
  }

  /** An authorization is good for one token prefix only. */
  lemma OnePrefixPerAuthorization(key: Text, a: Authorization, k1: Tokens, k2: Tokens)
    requires SignedFor(key, a, k1) && SignedFor(key, a, k2)
    ensures k1 == k2
  {
    MacBindsClaims(key, a, k1, a, k2);
  }

  // ----- every installed object was authorized -----

  ghost predicate LawfulEntry(s: State, id: Text, a: Authorization) {
    && a.id == id && a.epoch == s.epoch && !a.revoked
    && exists tokens: Tokens :: SignedFor(s.key, a, tokens)
  }

  ghost predicate Lawful(s: State) {
    forall id | id in s.installed :: LawfulEntry(s, id, s.installed[id])
  }

  /** Installing a lawful object. */
  lemma ChangeLawful(s: State, s': State, a: Authorization, tokens: Tokens)
    requires Lawful(s) && s'.key == s.key && s'.epoch == s.epoch
    requires s'.installed == s.installed[a.id := a] && a.epoch == s.epoch && !a.revoked && SignedFor(s.key, a, tokens)
    ensures Lawful(s')
  {
    forall id | id in s'.installed
      ensures LawfulEntry(s', id, s'.installed[id])
    {
      if id != a.id {
        assert LawfulEntry(s, id, s.installed[id]);
      }
    }
  }

  lemma StepLawful(s: State, op: Op)
    requires Lawful(s)
    ensures Lawful(Apply(s, op)) && Apply(s, op).key == s.key
  {
    var s' := Apply(s, op);
    if op.Issue? && CanIssue(s, op.claims, op.now) && !op.claims.revoked {
      ChangeLawful(s, s', Sign(s.key, op.claims), op.claims.tokens);
    } else if op.Install? && Check(s, op.a, op.model, op.tokenizer, op.tokens, op.now, false).Ok? {
      ChangeLawful(s, s', op.a, op.tokens);
    } else if !op.Reset? {
      FewerLawful(s, s');
    }
  }

  lemma FewerLawful(s: State, s': State)
    requires Lawful(s) && s'.key == s.key && s'.epoch == s.epoch
    requires forall id | id in s'.installed :: id in s.installed && s'.installed[id] == s.installed[id]
    ensures Lawful(s')
  {
    forall id | id in s'.installed
      ensures LawfulEntry(s', id, s'.installed[id])
    {
      assert LawfulEntry(s, id, s.installed[id]);
    }
  }

  /** Over every run from an empty registry, only operator-signed objects get installed. */
  lemma {:induction false} InstalledWereSigned(s: State, run: seq<Op>)
    requires Lawful(s)
    ensures Lawful(Exec(s, run)) && Exec(s, run).key == s.key
    decreases run
  {
    if run == [] {
    } else {
      StepLawful(s, run[0]);
      InstalledWereSigned(Apply(s, run[0]), run[1..]);
    }
  }

  // ----- revocation -----

  /** The two operations that can lift a revocation: a fresh issue of the id, and a reset. */
  predicate Reinstates(s: State, op: Op, id: Text) {
    op.Reset? || (op.Issue? && op.claims.id == id && !op.claims.revoked && CanIssue(s, op.claims, op.now))
  }

  predicate ReinstatedIn(s: State, run: seq<Op>, id: Text)
    decreases run
  {
    run != [] && (Reinstates(s, run[0], id) || ReinstatedIn(Apply(s, run[0]), run[1..], id))
  }

  predicate RevokedThroughout(s: State, run: seq<Op>, id: Text)
    decreases run
  {
    id in s.revokedIds && (run == [] || RevokedThroughout(Apply(s, run[0]), run[1..], id))
  }

  /** The answer a caller gets, for the operations that answer about one object. */
  function Answer(s: State, op: Op): Reason
    requires op.Verify? || op.Install?
  {
    if op.Verify? then Check(s, op.a, op.model, op.tokenizer, op.tokens, op.now, true)
    else Check(s, op.a, op.model, op.tokenizer, op.tokens, op.now, false)
  }

  predicate AllDenied(s: State, run: seq<Op>, id: Text)
    decreases run
  {
    run == [] ||
    (((run[0].Verify? || run[0].Install?) && run[0].a.id == id ==> !Answer(s, run[0]).Ok?)
     && AllDenied(Apply(s, run[0]), run[1..], id))
  }

  /**
   A revoked object stays revoked through a run if and only if the run neither issues
   that object anew nor resets the registry.  This covers installation of old manifests,
   concurrent installation, and every operation on other objects.
   */
  lemma {:induction false} RevocationPersistsIff(s: State, run: seq<Op>, id: Text)
    requires id in s.revokedIds
    ensures RevokedThroughout(s, run, id) <==> !ReinstatedIn(s, run, id)
    decreases run
  {
    if run == [] {
    } else {
      var s' := Apply(s, run[0]);
      if id in s'.revokedIds {
        RevocationPersistsIff(s', run[1..], id);
      }
      assert Reinstates(s, run[0], id) <==> id !in s'.revokedIds;
    }
  }

  /** While revoked, every verification and every reinstallation of the object is denied. */
  lemma {:induction false} RevokedIsDenied(s: State, run: seq<Op>, id: Text)
    requires RevokedThroughout(s, run, id)
    ensures AllDenied(s, run, id)
    decreases run
  {
    if run == [] {
    } else {
      RevokedIsDenied(Apply(s, run[0]), run[1..], id);
    }
  }

  /** The promise of revocation, with its exact condition on the run. */
  lemma NoLaterAccess(s: State, run: seq<Op>, id: Text)
    requires !ReinstatedIn(Apply(s, Revoke(id)), run, id)
    ensures AllDenied(Apply(s, Revoke(id)), run, id)
  {
    RevocationPersistsIff(Apply(s, Revoke(id)), run, id);
    RevokedIsDenied(Apply(s, Revoke(id)), run, id);
  }

  /**
   The condition is needed: after a revoked object is issued anew, its old manifest,
   if still current, can be installed again and verifies.
   */
  lemma ReissueRevivesOldManifest(s: State, old_: Claims, again: Claims, now: Word)
    requires old_.id == again.id && !old_.revoked && !again.revoked
    requires CanIssue(s, old_, now) && CanIssue(s, again, now)
    ensures var manifest := Sign(s.key, old_);
            var install := Install(manifest, old_.model, old_.tokenizer, old_.tokens, now);
            var verify := Verify(manifest, old_.model, old_.tokenizer, old_.tokens, now);
            var revoked := Apply(Apply(s, Issue(old_, now)), Revoke(old_.id));
            && !Answer(revoked, verify).Ok? && !Answer(revoked, install).Ok?
            && Answer(Apply(revoked, Issue(again, now)), install).Ok?
            && Answer(Apply(Apply(revoked, Issue(again, now)), install), verify).Ok?
  {
    var revoked := Apply(Apply(s, Issue(old_, now)), Revoke(old_.id));
    assert old_.id in revoked.revokedIds && revoked.key == s.key && revoked.epoch == s.epoch;
    var reissued := Apply(revoked, Issue(again, now));
    assert old_.id !in reissued.revokedIds && reissued.key == s.key && reissued.epoch == s.epoch;
  }

  /** A signed revocation is itself a revocation: it removes the object and keeps it out. */
  lemma SignedRevocationRevokes(s: State, c: Claims, now: Word, run: seq<Op>)
    requires c.revoked && c.epoch == s.epoch && c.expires > now
    ensures var s' := Apply(s, Install(Sign(s.key, c), c.model, c.tokenizer, c.tokens, now));
            && c.id in s'.revokedIds && c.id !in s'.installed
            && (!ReinstatedIn(s', run, c.id) ==> AllDenied(s', run, c.id))
  {
    var s' := Apply(s, Install(Sign(s.key, c), c.model, c.tokenizer, c.tokens, now));
    RevocationPersistsIff(s', run, c.id);
    if !ReinstatedIn(s', run, c.id) {
      RevokedIsDenied(s', run, c.id);
    }
  }

  // ----- what the operations do, and what a revocation means, in so many words -----

  /**
   Issuing unrevoked claims installs their authorization, lifts a revocation of the id, and
   the authorization is accepted for its prefix.
   */
  lemma IssueInstalls(s: State, c: Claims, now: Word)
    requires CanIssue(s, c, now) && !c.revoked
    ensures var s', a := Apply(s, Issue(c, now)), Sign(s.key, c);
            && s' == State(s.key, s.epoch, s.installed[c.id := a], s.revokedIds - {c.id})
            && Check(s', a, c.model, c.tokenizer, c.tokens, now, true) == Ok
  {
  }

  /**
   Issuing revoked claims revokes the id and installs nothing; from there every verification
   and every installation of the id is denied, in every run, until unrevoked claims for it
   are issued or the registry is reset.
   */
  lemma IssuedRevocationRevokes(s: State, c: Claims, now: Word, run: seq<Op>)
    requires CanIssue(s, c, now) && c.revoked
    requires forall k | 0 <= k < |run| ::
               !run[k].Reset? && !(run[k].Issue? && run[k].claims.id == c.id && !run[k].claims.revoked)
    ensures var s' := Apply(s, Issue(c, now));
            && s' == State(s.key, s.epoch, s.installed, s.revokedIds + {c.id})
            && forall a: Authorization, model: Text, tokenizer: Text, tokens: Tokens, at: Word, need: bool |
                 a.id == c.id :: Check(Exec(s', run), a, model, tokenizer, tokens, at, need) != Ok
  {
    RevocationLasts(Apply(s, Issue(c, now)), run, c.id);
  }

  /** A revoked id stays revoked, and is denied, through any run without a reset and without unrevoked claims for it. */
  lemma {:induction false} RevocationLasts(s: State, run: seq<Op>, id: Text)
    requires id in s.revokedIds
    requires forall k | 0 <= k < |run| ::
               !run[k].Reset? && !(run[k].Issue? && run[k].claims.id == id && !run[k].claims.revoked)
    ensures id in Exec(s, run).revokedIds
    ensures forall a: Authorization, model: Text, tokenizer: Text, tokens: Tokens, now: Word, need: bool |
              a.id == id :: Check(Exec(s, run), a, model, tokenizer, tokens, now, need) != Ok
    decreases run
  {
    if run == [] {
    } else {
      assert !run[0].Reset?;
      RevocationLasts(Apply(s, run[0]), run[1..], id);
    }
  }

  /** Signed for this prefix by the operator of the registry. */
  predicate Genuine(
    s: State, a: Authorization, model: Text, tokenizer: Text, tokens: Tokens) {
    && a.model == model && a.tokenizer == tokenizer && a.length == |tokens|
    && a.fingerprint == Sha256(PrefixPayload(model, tokenizer, tokens))
    && a.mac == Hmac(s.key, AuthorizationPayload(ClaimsOf(a, model, tokenizer, tokens)))
  }

  /** When each reason is given. */
  lemma ReasonsAre(
    s: State, a: Authorization, model: Text, tokenizer: Text, tokens: Tokens, now: Word, need: bool, r: Reason)
    requires r == Check(s, a, model, tokenizer, tokens, now, need)
    ensures r == WrongModel <==> a.model != model
    ensures r == WrongTokenizer <==> a.model == model && a.tokenizer != tokenizer
    ensures r == WrongLength <==> a.model == model && a.tokenizer == tokenizer && a.length != |tokens|
    ensures r == WrongFingerprint <==>
      && a.model == model && a.tokenizer == tokenizer && a.length == |tokens|
      && a.fingerprint != Sha256(PrefixPayload(model, tokenizer, tokens))
    ensures r == InvalidMac <==>
      && a.model == model && a.tokenizer == tokenizer && a.length == |tokens|
      && a.fingerprint == Sha256(PrefixPayload(model, tokenizer, tokens)) && !Genuine(s, a, model, tokenizer, tokens)
    ensures r == StaleEpoch <==> Genuine(s, a, model, tokenizer, tokens) && a.epoch != s.epoch
    ensures r == Expired <==> Genuine(s, a, model, tokenizer, tokens) && a.epoch == s.epoch && a.expires <= now
    ensures r == Revoked <==>
      && Genuine(s, a, model, tokenizer, tokens) && a.epoch == s.epoch && a.expires > now
      && (a.revoked || a.id in s.revokedIds)
    ensures r == UnknownObject <==>
      && Genuine(s, a, model, tokenizer, tokens) && a.epoch == s.epoch && a.expires > now
      && !a.revoked && a.id !in s.revokedIds && need && a.id !in s.installed
    ensures r == ObjectMismatch <==>
      && Genuine(s, a, model, tokenizer, tokens) && a.epoch == s.epoch && a.expires > now
      && !a.revoked && a.id !in s.revokedIds && need && a.id in s.installed && s.installed[a.id] != a
    ensures r == Ok <==>
      && Genuine(s, a, model, tokenizer, tokens) && a.epoch == s.epoch && a.expires > now
      && !a.revoked && a.id !in s.revokedIds && (need ==> a.id in s.installed && s.installed[a.id] == a)
  {
  }

  // ----- the registry object -----

  class PublicRegistry {
    const key: Text
    var epoch: Int64
    var installed: map<Text, Authorization>
    var revokedIds: set<Text>

    ghost function Now(): State
      reads this
    {
      State(key, epoch, installed, revokedIds)
    }

    constructor (key: Text, epoch: Int64)
      requires key != []
      ensures Now() == State(key, epoch, map[], {})
    {
      this.key, this.epoch := key, epoch;
      installed, revokedIds := map[], {};
    }

    method Issue(c: Claims, now: Word) returns (ok: bool, a: Authorization)
      modifies this
      ensures Now() == Apply(old(Now()), Op.Issue(c, now))
      ensures ok <==> CanIssue(old(Now()), c, now)
      ensures ok <==>
        c.id != [] && c.issuer != [] && c.model != [] && c.epoch == old(epoch) && c.expires > now
      ensures a == Sign(key, c) && epoch == old(epoch)
      ensures ok && c.revoked ==> revokedIds == old(revokedIds) + {c.id} && installed == old(installed)
      ensures ok && !c.revoked ==>
        revokedIds == old(revokedIds) - {c.id} && installed == old(installed)[c.id := a]
      ensures !ok ==> revokedIds == old(revokedIds) && installed == old(installed)
    {
      a := Sign(key, c);
      if c.id == [] || c.issuer == [] || c.model == [] || c.epoch != epoch || c.expires <= now {
        return false, a;
      }
      if c.revoked {
        revokedIds := revokedIds + {c.id};
      } else {
        installed := installed[c.id := a];
        revokedIds := revokedIds - {c.id};
      }
      ok := true;
    }

    /** The tests in their order; the first that fails decides. */
    method VerifyLocked(
      a: Authorization, model: Text, tokenizer: Text, tokens: Tokens, now: Word, needInstalled: bool)
      returns (reason: Reason)
      ensures reason == Check(Now(), a, model, tokenizer, tokens, now, needInstalled)
    {
      var payload := PrefixPayload(model, tokenizer, tokens);
      var fingerprint := Sha256(payload);
      var expected := Hmac(key, AuthorizationPayload(ClaimsOf(a, model, tokenizer, tokens)));
      var macMatches := expected == a.mac;
      if a.model != model {
        return WrongModel;
      }
      if a.tokenizer != tokenizer {
        return WrongTokenizer;
      }
      if a.length != |tokens| {
        return WrongLength;
      }
      if a.fingerprint != fingerprint {
        return WrongFingerprint;
      }
      if !macMatches {
        return InvalidMac;
      }
      if a.epoch != epoch {
        return StaleEpoch;
      }
      if a.expires <= now {
        return Expired;
      }
      if a.revoked || a.id in revokedIds {
        return Revoked;
      }
      if needInstalled {
        if a.id !in installed {
          return UnknownObject;
        }
        if installed[a.id] != a {
          return ObjectMismatch;
        }
      }
      reason := Ok;
    }

    method Verify(a: Authorization, model: Text, tokenizer: Text, tokens: Tokens, now: Word) returns (reason: Reason)
      ensures reason == Check(Now(), a, model, tokenizer, tokens, now, true)
      ensures reason.Ok? <==> exists c: Claims :: Deserves(Now(), a, c, model, tokenizer, tokens, now)
    {
      reason := VerifyLocked(a, model, tokenizer, tokens, now, true);
      AcceptedIffAuthorized(Now(), a, model, tokenizer, tokens, now);
    }

    method Install(a: Authorization, model: Text, tokenizer: Text, tokens: Tokens, now: Word) returns (reason: Reason)
      modifies this
      ensures reason == Check(old(Now()), a, model, tokenizer, tokens, now, false)
      ensures Now() == Apply(old(Now()), Op.Install(a, model, tokenizer, tokens, now))
      ensures epoch == old(epoch)
      ensures reason.Ok? ==> installed == old(installed)[a.id := a] && revokedIds == old(revokedIds)
      ensures reason.Revoked? && a.revoked ==>
        installed == old(installed) - {a.id} && revokedIds == old(revokedIds) + {a.id}
      ensures !reason.Ok? && !(reason.Revoked? && a.revoked) ==>
        installed == old(installed) && revokedIds == old(revokedIds)
    {
      reason := VerifyLocked(a, model, tokenizer, tokens, now, false);
      if reason.Ok? {
        installed := installed[a.id := a];
      } else if reason.Revoked? && a.revoked {
        revokedIds := revokedIds + {a.id};
        installed := installed - {a.id};
      }
    }

    method Revoke(id: Text) returns (existed: bool)
      modifies this
      ensures existed <==> id in old(installed)
      ensures Now() == Apply(old(Now()), Op.Revoke(id))
      ensures Now() == old(Now()).(revokedIds := old(revokedIds) + {id})
    {
      existed := id in installed;
      revokedIds := revokedIds + {id};
    }

    /** Forgets every object and every revocation, and may set another epoch. */
    method Reset(newEpoch: Option<Int64>)
      modifies this
      ensures Now() == Apply(old(Now()), Op.Reset(if newEpoch.Some? then newEpoch.value else old(epoch)))
      ensures installed == map[] && revokedIds == {}
      ensures epoch == if newEpoch.Some? then newEpoch.value else old(epoch)
    {
      installed, revokedIds := map[], {};
      if newEpoch.Some? {
        epoch := newEpoch.value;
      }
    }
  }

  function CountTrue(s: seq<bool>): nat {
    if s == [] then 0 else CountTrue(s[..|s| - 1]) + if s[|s| - 1] then 1 else 0
  }

  /**
   The race benchmark.  In sample i the racing verification takes the lock before the
   revocation if and only if `verifyFirst[i]`.  It is allowed in exactly those samples,
   denied in all others, and every verification after the race is denied.
   */
  method RevocationLinearization(key: Text, claims: Claims, now: Word, verifyFirst: seq<bool>)
    returns (beforeAllowed: nat, afterDenied: nat, postRevokeDenied: nat)
    requires key != [] && claims.id != [] && claims.issuer != [] && claims.model != []
    requires claims.expires > now && !claims.revoked
    ensures beforeAllowed == CountTrue(verifyFirst)
    ensures beforeAllowed + afterDenied == |verifyFirst|
    ensures postRevokeDenied == |verifyFirst|
  {
    beforeAllowed, afterDenied, postRevokeDenied := 0, 0, 0;
    for i := 0 to |verifyFirst|
      invariant beforeAllowed == CountTrue(verifyFirst[..i])
      invariant beforeAllowed + afterDenied == i && postRevokeDenied == i
    {
      var registry := new PublicRegistry(key, claims.epoch);
      var _, a := registry.Issue(claims, now);
      var raced;
      if verifyFirst[i] {
        raced := registry.Verify(a, claims.model, claims.tokenizer, claims.tokens, now);
        var _ := registry.Revoke(claims.id);
      } else {
        var _ := registry.Revoke(claims.id);
        raced := registry.Verify(a, claims.model, claims.tokenizer, claims.tokens, now);
      }
      if raced.Ok? {
        beforeAllowed := beforeAllowed + 1;
      } else {
        afterDenied := afterDenied + 1;
      }
      var later := registry.Verify(a, claims.model, claims.tokenizer, claims.tokens, now);
      if !later.Ok? {
        postRevokeDenied := postRevokeDenied + 1;
      }
      assert verifyFirst[..i + 1][..i] == verifyFirst[..i];
    }
    assert verifyFirst[..|verifyFirst|] == verifyFirst;
  }
}
