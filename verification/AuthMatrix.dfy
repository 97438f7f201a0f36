/**
 The authorization matrix: thirteen ways to present an authorization with a request,
 and the verdict the server must reach on each.

 A request carries one token more than the prefix that is authorized.  The server
 verifies an authorization against the request's own prefix of the claimed length.
 */
module AuthMatrix {
  import opened Options
  import opened Encoding
  import opened Registry

  datatype Condition =
    | Absent | ForgedMac | Malformed | BadModel | BadTokenizer | TamperedLength | WrongTokensSameLength
    | Elapsed | OldEpoch | RevokedFlag | ValidAuth | ValidShorterPrefix | ActiveRevoked

  /** `claims` are the honest claims; the other fields are what a condition falsifies. */
  datatype Trial = Trial(
    claims: Claims, request: Tokens, now: Word, key: Text,
    forgedKey: Text, forgedMac: Mac, wrongModel: Text, wrongTokenizer: Text, past: Word)

  predicate Proper(t: Trial) {
    var c := t.claims;
    && |c.tokens| > 0 && |t.request| == |c.tokens| + 1 && t.request[..|c.tokens|] == c.tokens
    && c.tokens[|c.tokens| - 1] < 0xFFFF_FFFF_FFFF_FFFF
    && c.epoch == 1 && !c.revoked && t.past <= t.now < c.expires
    && t.forgedKey != t.key && !t.forgedMac.Hmac?
    && t.wrongModel != c.model && t.wrongTokenizer != c.tokenizer
  }

  function Last(tokens: Tokens): Tokens
    requires |tokens| > 0 && tokens[|tokens| - 1] < 0xFFFF_FFFF_FFFF_FFFF
  {
    tokens[|tokens| - 1 := tokens[|tokens| - 1] + 1]
  }

  function Shorter(tokens: Tokens): Tokens
    requires |tokens| > 0
  {
    if |tokens| > 3 then tokens[..|tokens| - 3] else tokens[..1]
  }

  /** `make_auth_p8` */
  function MakeAuth(cond: Condition, t: Trial): Option<Authorization>
    requires Proper(t)
  {
    var c := t.claims;
    match cond
    case Absent => None
    case ForgedMac => Some(Sign(t.forgedKey, c))
    case Malformed => Some(Sign(t.key, c).(mac := t.forgedMac))
    case BadModel => Some(Sign(t.key, c.(model := t.wrongModel)))
    case BadTokenizer => Some(Sign(t.key, c.(tokenizer := t.wrongTokenizer)))
    case TamperedLength => Some(Sign(t.key, c).(length := |c.tokens| + 1))
    case WrongTokensSameLength => Some(Sign(t.key, c.(tokens := Last(c.tokens))))
    case Elapsed => Some(Sign(t.key, c.(expires := t.past)))
    case OldEpoch => Some(Sign(t.key, c.(epoch := 0)))
    case RevokedFlag => Some(Sign(t.key, c.(revoked := true)))
    case ValidAuth => Some(Sign(t.key, c))
    case ValidShorterPrefix => Some(Sign(t.key, c.(tokens := Shorter(c.tokens))))
    case ActiveRevoked => Some(Sign(t.key, c))
  }

  /** Python's `request[:n]`. */
  function Slice(request: Tokens, n: int): Tokens {
    if n >= |request| then request
    else if n >= 0 then request[..n]
    else if n + |request| >= 0 then request[..n + |request|] else []
  }

  datatype Outcome = Outcome(state: State, reason: Option<Reason>)

  /** The installation attempt an insertion makes; a claimed length past the request is not tried. */
  function Present(s: State, auth: Option<Authorization>, t: Trial): Outcome {
    if auth.None? || auth.value.length > |t.request| then Outcome(s, None)
    else
      var reason := Check(s, auth.value, t.claims.model, t.claims.tokenizer, Slice(t.request, auth.value.length),
        t.now, false);
      Outcome(Installed(s, auth.value, reason), Some(reason))
  }

  /** What each condition must come to; `ActiveRevoked` is judged on its last request. */
  function ExpectedReason(cond: Condition): Option<Reason> {
    match cond
    case Absent => None
    case ForgedMac => Some(InvalidMac)
    case Malformed => Some(InvalidMac)
    case BadModel => Some(WrongModel)
    case BadTokenizer => Some(WrongTokenizer)
    case TamperedLength => Some(WrongFingerprint)
    case WrongTokensSameLength => Some(WrongFingerprint)
    case Elapsed => Some(Expired)
    case OldEpoch => Some(StaleEpoch)
    case RevokedFlag => Some(Revoked)
    case ValidAuth => Some(Ok)
    case ValidShorterPrefix => Some(Ok)
    case ActiveRevoked => Some(Revoked)
  }

  /** The requests of one trial on a fresh server: the reason of the last one decides. */
  function RunTrial(cond: Condition, t: Trial): Outcome
    requires Proper(t)
  {
    var s := State(t.key, 1, map[], {});
    var first := Present(s, MakeAuth(cond, t), t);
    if cond != ActiveRevoked then first
    else
      var revoked := Present(first.state, Some(Sign(t.key, t.claims.(revoked := true))), t);
      Present(revoked.state, MakeAuth(cond, t), t)
  }

  /**
   How any signed authorization fares against any registry and prefix: the verdict
   depends on the signed claims alone, tokens included.
   */
  lemma CheckOfSigned(s: State, key: Text, c: Claims, model: Text, tokenizer: Text, tokens: Tokens, now: Word)
    ensures Check(s, Sign(key, c), model, tokenizer, tokens, now, false) ==
      if c.model != model then WrongModel
      else if c.tokenizer != tokenizer then WrongTokenizer
      else if |c.tokens| != |tokens| then WrongLength
      else if c.tokens != tokens then WrongFingerprint
      else if key != s.key then InvalidMac
      else if c.epoch != s.epoch then StaleEpoch
      else if c.expires <= now then Expired
      else if c.revoked || c.id in s.revokedIds then Revoked
      else Ok
  {
    if PrefixPayload(c.model, c.tokenizer, c.tokens) == PrefixPayload(model, tokenizer, tokens) {
      PrefixPayloadInjective(c.model, c.tokenizer, c.tokens, model, tokenizer, tokens);
    }
  }

  lemma LengthTampered(s: State, t: Trial)
    requires Proper(t) && s.key == t.key
    ensures Present(s, MakeAuth(TamperedLength, t), t).reason == Some(WrongFingerprint)
  {
    var c := t.claims;
    if PrefixPayload(c.model, c.tokenizer, c.tokens) == PrefixPayload(c.model, c.tokenizer, t.request) {
      PrefixPayloadInjective(c.model, c.tokenizer, c.tokens, c.model, c.tokenizer, t.request);
    }
  }

  /** The prefix of the request that the server checks a signed authorization against. */
  lemma CheckedPrefix(t: Trial, tokens: Tokens)
    requires Proper(t) && |tokens| <= |t.claims.tokens|
    ensures Slice(t.request, |tokens|) == t.claims.tokens[..|tokens|]
  {
    assert t.request[..|tokens|] == t.request[..|t.claims.tokens|][..|tokens|];
  }

  lemma FirstRequest(s: State, key: Text, c: Claims, t: Trial)
    requires Proper(t) && s == State(t.key, 1, map[], {}) && |c.tokens| <= |t.claims.tokens|
    ensures Present(s, Some(Sign(key, c)), t).reason ==
      Some(Check(s, Sign(key, c), t.claims.model, t.claims.tokenizer, t.claims.tokens[..|c.tokens|], t.now, false))
  {
    CheckedPrefix(t, c.tokens);
  }

  /** Install, then revoke by a signed revocation, then present the old manifest again. */
  lemma ActiveRevocation(t: Trial)
    requires Proper(t)
    ensures RunTrial(ActiveRevoked, t).reason == Some(Revoked)
    ensures t.claims.id !in RunTrial(ActiveRevoked, t).state.installed
  {
    var c := t.claims;
    var s := State(t.key, 1, map[], {});
    CheckedPrefix(t, c.tokens);
    assert c.tokens[..|c.tokens|] == c.tokens;
    CheckOfSigned(s, t.key, c, c.model, c.tokenizer, c.tokens, t.now);
    var first := Present(s, Some(Sign(t.key, c)), t);
    assert first.state == s.(installed := map[c.id := Sign(t.key, c)]);
    CheckOfSigned(first.state, t.key, c.(revoked := true), c.model, c.tokenizer, c.tokens, t.now);
    var second := Present(first.state, Some(Sign(t.key, c.(revoked := true))), t);
    assert second.state.revokedIds == {c.id} && second.state.key == t.key && second.state.epoch == 1;
    CheckOfSigned(second.state, t.key, c, c.model, c.tokenizer, c.tokens, t.now);
  }

  /**
   The whole matrix, for every prefix, model, tokenizer, key and identifier: each
   condition is answered with its own reason, and a public object exists afterwards
   exactly for the two valid conditions.
   */
  lemma MatrixHolds(cond: Condition, t: Trial)
    requires Proper(t)
    ensures RunTrial(cond, t).reason == ExpectedReason(cond)
    ensures t.claims.id in RunTrial(cond, t).state.installed <==> cond in {ValidAuth, ValidShorterPrefix}
  {
    var s := State(t.key, 1, map[], {});
    var c := t.claims;
    match cond
    case Absent =>
    case Malformed => CheckedPrefix(t, c.tokens);
    case TamperedLength => LengthTampered(s, t);
    case ActiveRevoked => ActiveRevocation(t);
    case _ => SignedConditions(cond, t);
  }

  /** The conditions that present an authorization signed over some claims. */
  function ClaimsUnder(cond: Condition, t: Trial): Claims
    requires Proper(t)
  {
    var c := t.claims;
    match cond
    case BadModel => c.(model := t.wrongModel)
    case BadTokenizer => c.(tokenizer := t.wrongTokenizer)
    case WrongTokensSameLength => c.(tokens := Last(c.tokens))
    case Elapsed => c.(expires := t.past)
    case OldEpoch => c.(epoch := 0)
    case RevokedFlag => c.(revoked := true)
    case ValidShorterPrefix => c.(tokens := Shorter(c.tokens))
    case _ => c
  }

  lemma ClaimedPrefix(cond: Condition, t: Trial)
    requires Proper(t)
    ensures var tokens := ClaimsUnder(cond, t).tokens;
            && |tokens| <= |t.claims.tokens|
            && (tokens == t.claims.tokens[..|tokens|] <==> cond != WrongTokensSameLength)
  {
    var tokens := ClaimsUnder(cond, t).tokens;
    assert t.claims.tokens[..|t.claims.tokens|] == t.claims.tokens;
    if cond == WrongTokensSameLength {
      assert tokens[|tokens| - 1] != t.claims.tokens[..|tokens|][|tokens| - 1];
    }
  }

  lemma SignedConditions(cond: Condition, t: Trial)
    requires Proper(t) && cond !in {Absent, Malformed, TamperedLength, ActiveRevoked}
    ensures RunTrial(cond, t).reason == ExpectedReason(cond)
    ensures t.claims.id in RunTrial(cond, t).state.installed <==> cond in {ValidAuth, ValidShorterPrefix}
  {
    var s := State(t.key, 1, map[], {});
    var c := ClaimsUnder(cond, t);
    var key := if cond == ForgedMac then t.forgedKey else t.key;
    assert MakeAuth(cond, t) == Some(Sign(key, c));
    var reason := SignedReason(cond, t);
    assert RunTrial(cond, t) == Outcome(Installed(s, Sign(key, c), reason), Some(reason));
  }

  /** The verdict on the one request of such a trial. */
  lemma SignedReason(cond: Condition, t: Trial) returns (reason: Reason)
    requires Proper(t) && cond !in {Absent, Malformed, TamperedLength, ActiveRevoked}
    ensures ExpectedReason(cond) == Some(reason)
    ensures var s, key := State(t.key, 1, map[], {}), if cond == ForgedMac then t.forgedKey else t.key;
            Present(s, Some(Sign(key, ClaimsUnder(cond, t))), t) ==
              Outcome(Installed(s, Sign(key, ClaimsUnder(cond, t)), reason), Some(reason))
  {
    var s, c := State(t.key, 1, map[], {}), ClaimsUnder(cond, t);
    var key := if cond == ForgedMac then t.forgedKey else t.key;
    ClaimedPrefix(cond, t);
    FirstRequest(s, key, c, t);
    CheckOfSigned(s, key, c, t.claims.model, t.claims.tokenizer, t.claims.tokens[..|c.tokens|], t.now);
    reason := Present(s, Some(Sign(key, c)), t).reason.value;
  }
}
