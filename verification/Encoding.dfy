/**
 The byte strings that authorizations are signed over: every variable-length field is
 preceded by its length as a 64-bit big-endian word.  The encodings are proved to be
 injective, which is what lets a digest or a MAC of them stand for the fields.
 */
module Encoding {
  type Byte = x: int | 0 <= x < 256
  type Bytes = seq<Byte>
  type Word = x: int | 0 <= x < 0x1_0000_0000_0000_0000
  type Int64 = x: int | -0x8000_0000_0000_0000 <= x < 0x8000_0000_0000_0000

  /** UTF-8 text and token lists of any length that fits in memory. */
  type Text = s: seq<Byte> | |s| < 0x1_0000_0000 witness []
  type Tokens = s: seq<Word> | |s| < 0x1_0000_0000 witness []

  function Power(k: nat): nat {
    if k == 0 then 1 else 256 * Power(k - 1)
  }

  function BigEndian(n: nat, k: nat): (bytes: Bytes)
    ensures |bytes| == k
  {
    if k == 0 then [] else BigEndian(n / 256, k - 1) + [n % 256]
  }

  function Value(bytes: Bytes): nat {
    if bytes == [] then 0 else 256 * Value(bytes[..|bytes| - 1]) + bytes[|bytes| - 1]
  }

  lemma {:induction false} BigEndianRoundTrip(n: nat, k: nat)
    requires n < Power(k)
    ensures Value(BigEndian(n, k)) == n
  {
    if k == 0 {
    } else {
      BigEndianRoundTrip(n / 256, k - 1);
      assert BigEndian(n, k)[..k - 1] == BigEndian(n / 256, k - 1);
    }
  }

  /** `struct.pack(">Q", n)` */
  function Pack(n: Word): (bytes: Bytes)
    ensures |bytes| == 8
  {
    BigEndian(n, 8)
  }

  /** `struct.pack(">q", n)`: two's complement. */
  function PackSigned(n: Int64): (bytes: Bytes)
    ensures |bytes| == 8
  {
    Pack(if n < 0 then n + 0x1_0000_0000_0000_0000 else n)
  }

  lemma PackInjective(m: Word, n: Word)
    requires Pack(m) == Pack(n)
    ensures m == n
  {
    assert Power(8) == 0x1_0000_0000_0000_0000 by {
      assert Power(4) == 0x1_0000_0000;
    }
    BigEndianRoundTrip(m, 8);
    BigEndianRoundTrip(n, 8);
  }

  function Prefixed(field: Bytes): Bytes
    requires |field| < 0x1_0000_0000_0000_0000
  {
    Pack(|field|) + field
  }

  lemma WordThenRest(m: Word, n: Word, x: Bytes, y: Bytes)
    requires Pack(m) + x == Pack(n) + y
    ensures m == n && x == y
  {
    assert Pack(m) == (Pack(m) + x)[..8] && x == (Pack(m) + x)[8..];
    assert Pack(n) == (Pack(n) + y)[..8] && y == (Pack(n) + y)[8..];
    PackInjective(m, n);
  }

  /** A length-prefixed field can be read off the front of whatever follows it. */
  lemma PrefixedThenRest(a: Bytes, b: Bytes, x: Bytes, y: Bytes)
    requires |a| < 0x1_0000_0000_0000_0000 && |b| < 0x1_0000_0000_0000_0000
    requires Prefixed(a) + x == Prefixed(b) + y
    ensures a == b && x == y
  {
    assert Prefixed(a) + x == Pack(|a|) + (a + x);
    assert Prefixed(b) + y == Pack(|b|) + (b + y);
    WordThenRest(|a|, |b|, a + x, b + y);
    assert a == (a + x)[..|a|] && x == (a + x)[|a|..];
    assert b == (b + y)[..|b|] && y == (b + y)[|b|..];
  }

  function TokenBytes(tokens: seq<Word>): (bytes: Bytes)
    ensures |bytes| == 8 * |tokens|
  {
    if tokens == [] then [] else Pack(tokens[0]) + TokenBytes(tokens[1..])
  }

  lemma {:induction false} TokenBytesInjective(a: seq<Word>, b: seq<Word>)
    requires |a| == |b| && TokenBytes(a) == TokenBytes(b)
    ensures a == b
  {
    if a == [] {
    } else {
      WordThenRest(a[0], b[0], TokenBytes(a[1..]), TokenBytes(b[1..]));
      TokenBytesInjective(a[1..], b[1..]);
      assert a == [a[0]] + a[1..] && b == [b[0]] + b[1..];
    }
  }

  /** `_prefix_payload` */
  function PrefixPayload(model: Text, tokenizer: Text, tokens: Tokens): (payload: Bytes)
    ensures |payload| < 0x1_0000_0000_0000_0000
  {
    Prefixed(model) + (Prefixed(tokenizer) + (Pack(|tokens|) + TokenBytes(tokens)))
  }

  /** No two prefixes share a payload: the encoding never runs fields together. */
  lemma PrefixPayloadInjective(m1: Text, t1: Text, k1: Tokens, m2: Text, t2: Text, k2: Tokens)
    requires PrefixPayload(m1, t1, k1) == PrefixPayload(m2, t2, k2)
    ensures m1 == m2 && t1 == t2 && k1 == k2
  {
    var w1, w2 := Pack(|k1|) + TokenBytes(k1), Pack(|k2|) + TokenBytes(k2);
    PrefixedThenRest(m1, m2, Prefixed(t1) + w1, Prefixed(t2) + w2);
    PrefixedThenRest(t1, t2, w1, w2);
    WordThenRest(|k1|, |k2|, TokenBytes(k1), TokenBytes(k2));
    TokenBytesInjective(k1, k2);
  }

  /** The fields an authorization is signed over. */
  datatype Claims = Claims(
    id: Text, issuer: Text, model: Text, tokenizer: Text, tokens: Tokens, epoch: Int64, expires: Word, revoked: bool)

  /** `_authorization_payload` of the prefix payload and the remaining fields. */
  function AuthorizationPayload(c: Claims): Bytes {
    Prefixed(c.id) + (Prefixed(c.issuer) + (Prefixed(PrefixPayload(c.model, c.tokenizer, c.tokens)) + Terms(c)))
  }

  /** The last three fields: epoch, expiry and the revocation flag. */
  function Terms(c: Claims): Bytes {
    Prefixed(PackSigned(c.epoch)) + (Prefixed(Pack(c.expires)) + Prefixed(if c.revoked then [1] else [0]))
  }

  /** The signed bytes determine every claim. */
  lemma AuthorizationPayloadInjective(a: Claims, b: Claims)
    requires AuthorizationPayload(a) == AuthorizationPayload(b)
    ensures a == b
  {
    var pa, pb := PrefixPayload(a.model, a.tokenizer, a.tokens), PrefixPayload(b.model, b.tokenizer, b.tokens);
    var ta, tb := Terms(a), Terms(b);
    PrefixedThenRest(a.id, b.id, Prefixed(a.issuer) + (Prefixed(pa) + ta), Prefixed(b.issuer) + (Prefixed(pb) + tb));
    PrefixedThenRest(a.issuer, b.issuer, Prefixed(pa) + ta, Prefixed(pb) + tb);
    PrefixedThenRest(pa, pb, ta, tb);
    PrefixPayloadInjective(a.model, a.tokenizer, a.tokens, b.model, b.tokenizer, b.tokens);
    TermsInjective(a, b);
  }

  lemma TermsInjective(a: Claims, b: Claims)
    requires Terms(a) == Terms(b)
    ensures a.epoch == b.epoch && a.expires == b.expires && a.revoked == b.revoked
  {
    var fa, fb: Bytes := if a.revoked then [1] else [0], if b.revoked then [1] else [0];
    var xa, xb := Prefixed(Pack(a.expires)) + Prefixed(fa), Prefixed(Pack(b.expires)) + Prefixed(fb);
    PrefixedThenRest(PackSigned(a.epoch), PackSigned(b.epoch), xa, xb);
    PackInjective(if a.epoch < 0 then a.epoch + 0x1_0000_0000_0000_0000 else a.epoch,
                  if b.epoch < 0 then b.epoch + 0x1_0000_0000_0000_0000 else b.epoch);
    PrefixedThenRest(Pack(a.expires), Pack(b.expires), Prefixed(fa), Prefixed(fb));
    PackInjective(a.expires, b.expires);
    PrefixedThenRest(fa, fb, [], []);
    assert fa == fb;
  }
}
