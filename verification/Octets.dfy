/**
  Byte strings and cryptography of the OMEMO package.

  A Go `[]byte` is a sequence of octets. An octet is either a literal value or
  "the i-th octet of the output of a cryptographic operation". The operations
  are free constructors, so two outputs are equal only when the operation and
  all of its inputs are equal, and every output still has the length, and can be
  cut and joined at the places, that the source relies on. Diffie-Hellman keeps
  its two private keys as an unordered pair, which makes it commutative.
 */
module Octets {
  import opened Words

  datatype Result<+T> = Ok(value: T) | Err(error: OmemoError) {
    predicate IsFailure() {
      Err?
    }

    function PropagateFailure<U>(): Result<U>
      requires Err?
    {
      Err(error)
    }

    function Extract(): T
      requires Ok?
    {
      value
    }
  }

  datatype OmemoError =
    | NoSession
    | InvalidSignature
    | InvalidMessage
    | NoPreKey
    | InvalidKeyLength
    | SkippedKeyLimit
    | RefusedPoint
    | NoIdentity
    | RuntimePanic

  /** The only representable octets are literals and positions of outputs. */
  datatype Octet = Lit(b: uint8) | Out(term: Term, at: nat)

  type Bytes = seq<Octet>

  /** What an octet may be the output of. */
  datatype Term =
    | Hmac(key: seq<Octet>, msg: seq<Octet>)
    | Hkdf(salt: seq<Octet>, ikm: seq<Octet>, info: string)
    | PublicOf(priv: seq<Octet>)
    | SharedBy(pair: set<seq<Octet>>)
    | SharedWith(priv: seq<Octet>, point: seq<Octet>)
    | Sealed(sealKey: seq<Octet>, nonce: seq<Octet>, plain: seq<Octet>)
    | EdPublicOf(seed: seq<Octet>)
    | ScalarOf(edSeed: seq<Octet>)
    | Mapped(edPoint: seq<Octet>)
    | Signature(signer: seq<Octet>, signed: seq<Octet>)

  /** The first `n` octets of the output of `t`. */
  function Output(t: Term, n: nat): (r: Bytes)
    ensures |r| == n
  {
    seq(n, i requires 0 <= i < n => Out(t, i))
  }

  /** Free outputs of the same length agree only if the operations agree. */
  lemma OutputInjective(t: Term, u: Term, n: nat, m: nat)
    requires n > 0 && Output(t, n) == Output(u, m)
    ensures t == u && n == m
  {
    assert Output(t, n)[0] == Out(t, 0);
    assert |Output(t, n)| == |Output(u, m)|;
    assert Output(u, m)[0] == Out(u, 0);
  }

  lemma EndsEmpty(b: Bytes)
    ensures b + [] == b
  {
  }

  function Zeros(n: nat): (r: Bytes)
    ensures |r| == n
  {
    seq(n, _ => Lit(0))
  }

  /** The numeric value of an octet; only literals have one the format code can use. */
  function Value(o: Octet): uint8 {
    match o
    case Lit(b) => b
    case Out(_, _) => 0
  }

  // ---------------------------------------------------------------- kdf.go

  function HmacSha256(key: Bytes, msg: Bytes): (r: Bytes)
    ensures |r| == 32
  {
    Output(Hmac(key, msg), 32)
  }

  function HkdfSha256(salt: Bytes, ikm: Bytes, info: string, n: nat): (r: Bytes)
    ensures |r| == n
  {
    Output(Hkdf(salt, ikm, info), n)
  }

  function MessageKey(ck: Bytes): (r: Bytes)
    ensures |r| == 32
  {
    HmacSha256(ck, [Lit(1)])
  }

  function NextChainKey(ck: Bytes): (r: Bytes)
    ensures |r| == 32
  {
    HmacSha256(ck, [Lit(2)])
  }

  function RootKdf(rk: Bytes, dh: Bytes): (r: (Bytes, Bytes))
    ensures |r.0| == 32 && |r.1| == 32
  {
    var out := HkdfSha256(rk, dh, "OMEMO Root Chain", 64);
    (out[..32], out[32..])
  }

  /** Where the octets of derived keys come from: the root key is the first half of its HKDF output, the chain key the second. */
  lemma DerivedOctets(rk: Bytes, dh: Bytes, ck: Bytes, i: nat)
    requires i < 32
    ensures RootKdf(rk, dh).0[i] == Out(Hkdf(rk, dh, "OMEMO Root Chain"), i)
    ensures RootKdf(rk, dh).1[i] == Out(Hkdf(rk, dh, "OMEMO Root Chain"), 32 + i)
    ensures MessageKey(ck)[i] == Out(Hmac(ck, [Lit(1)]), i)
    ensures NextChainKey(ck)[i] == Out(Hmac(ck, [Lit(2)]), i)
  {
  }

  // --------------------------------------------------------------- keys.go

  function PublicKey(priv: Bytes): (r: Bytes)
    ensures |r| == 32
  {
    Output(PublicOf(priv), 32)
  }

  lemma PublicKeyInjective(a: Bytes, b: Bytes)
    requires PublicKey(a) == PublicKey(b)
    ensures a == b
  {
    OutputInjective(PublicOf(a), PublicOf(b), 32, 32);
  }

  function SharedSecret(a: Bytes, b: Bytes): (r: Bytes)
    ensures |r| == 32
  {
    Output(SharedBy({a, b}), 32)
  }

  lemma SharedSecretCommutes(a: Bytes, b: Bytes)
    ensures SharedSecret(a, b) == SharedSecret(b, a)
  {
    assert {a, b} == {b, a};
  }

  predicate IsPublicKey(p: Bytes) {
    && |p| == 32
    && p[0].Out?
    && p[0].term.PublicOf?
    && p == PublicKey(p[0].term.priv)
  }

  /**
    X25519 with the checks of the library: a peer string of the wrong length is
    refused, and so is a point whose shared secret would be all zero. Strings of
    32 literal octets stand for the refused points.
   */
  function X25519(priv: Bytes, peer: Bytes): (r: Result<Bytes>)
    ensures r.Ok? ==> |r.value| == 32
  {
    if |peer| != 32 then Err(InvalidKeyLength)
    else if forall i :: 0 <= i < |peer| ==> peer[i].Lit? then Err(RefusedPoint)
    else if IsPublicKey(peer) then Ok(SharedSecret(priv, peer[0].term.priv))
    else Ok(Output(SharedWith(priv, peer), 32))
  }

  lemma X25519OfPublicKey(a: Bytes, b: Bytes)
    ensures X25519(a, PublicKey(b)) == Ok(SharedSecret(a, b))
  {
    assert PublicKey(b)[0] == Out(PublicOf(b), 0);
  }

  /** The Ed25519 public key of a seed. */
  function EdPublic(seed: Bytes): (r: Bytes)
    ensures |r| == 32
  {
    Output(EdPublicOf(seed), 32)
  }

  predicate IsEdPublic(p: Bytes) {
    && |p| == 32
    && p[0].Out?
    && p[0].term.EdPublicOf?
    && p == EdPublic(p[0].term.seed)
  }

  function EdPrivateToX25519(seed: Bytes): (r: Bytes)
    ensures |r| == 32
  {
    Output(ScalarOf(seed), 32)
  }

  /**
    The conversions of the two halves of an Ed25519 pair agree. Strings of 32
    literal octets stand for the points without an image.
   */
  function EdPublicToX25519(p: Bytes): (r: Result<Bytes>)
    ensures r.Ok? ==> |r.value| == 32
  {
    if |p| != 32 then Err(InvalidKeyLength)
    else if forall i :: 0 <= i < |p| ==> p[i].Lit? then Err(InvalidKeyLength)
    else if IsEdPublic(p) then Ok(PublicKey(EdPrivateToX25519(p[0].term.seed)))
    else Ok(Output(Mapped(p), 32))
  }

  lemma EdConversionsAgree(seed: Bytes)
    ensures EdPublicToX25519(EdPublic(seed)) == Ok(PublicKey(EdPrivateToX25519(seed)))
  {
    assert EdPublic(seed)[0] == Out(EdPublicOf(seed), 0);
  }

  function Sign(seed: Bytes, msg: Bytes): (r: Bytes)
    ensures |r| == 64
  {
    Output(Signature(seed, msg), 64)
  }

  predicate Verify(pub: Bytes, msg: Bytes, sig: Bytes) {
    IsEdPublic(pub) && sig == Sign(pub[0].term.seed, msg)
  }

  lemma VerifySigned(seed: Bytes, msg: Bytes)
    ensures Verify(EdPublic(seed), msg, Sign(seed, msg))
  {
    assert EdPublic(seed)[0] == Out(EdPublicOf(seed), 0);
  }

  // ------------------------------------------------------------ aes_gcm.go

  const AES_KEY_SIZE: nat := 32
  const AES_NONCE_SIZE: nat := 12
  const AES_TAG_SIZE: nat := 16

  /** Ciphertext followed by the 16-octet tag. */
  function Seal(key: Bytes, nonce: Bytes, plain: Bytes): (r: Bytes)
    ensures |r| == |plain| + AES_TAG_SIZE
  {
    Output(Sealed(key, nonce, plain), |plain| + AES_TAG_SIZE)
  }

  function AesGcmDecrypt(key: Bytes, nonce: Bytes, data: Bytes): (r: Result<Bytes>)
  {
    if |key| != AES_KEY_SIZE then Err(InvalidKeyLength)
    else if |nonce| != AES_NONCE_SIZE then Err(InvalidMessage)
    else if && |data| >= AES_TAG_SIZE
            && data[0].Out?
            && data[0].term.Sealed?
            && data == Seal(key, nonce, data[0].term.plain)
    then Ok(data[0].term.plain)
    else Err(InvalidMessage)
  }

  /** A sealed box opens under its own key and nonce, to what was sealed. */
  lemma OpenSealed(key: Bytes, nonce: Bytes, plain: Bytes)
    requires |key| == AES_KEY_SIZE && |nonce| == AES_NONCE_SIZE
    ensures AesGcmDecrypt(key, nonce, Seal(key, nonce, plain)) == Ok(plain)
  {
    assert Seal(key, nonce, plain)[0] == Out(Sealed(key, nonce, plain), 0);
  }

  /** A sealed box opens under no other key and no other nonce. */
  lemma OpensOnlyUnderSealingKey(key: Bytes, nonce: Bytes, plain: Bytes, key': Bytes, nonce': Bytes)
    requires AesGcmDecrypt(key', nonce', Seal(key, nonce, plain)).Ok?
    ensures key' == key && nonce' == nonce
  {
    var data := Seal(key, nonce, plain);
    var p := data[0].term.plain;
    OutputInjective(Sealed(key, nonce, plain), Sealed(key', nonce', p),
                    |plain| + AES_TAG_SIZE, |p| + AES_TAG_SIZE);
  }

  // ----------------------------------------- big-endian counters in the formats

  function PutUint32(v: uint32): (r: Bytes)
    ensures |r| == 4
  {
    [Lit(v / 0x100_0000), Lit(v / 0x1_0000 % 0x100), Lit(v / 0x100 % 0x100), Lit(v % 0x100)]
  }

  function GetUint32(b: Bytes): uint32
    requires |b| >= 4
  {
    Value(b[0]) * 0x100_0000 + Value(b[1]) * 0x1_0000 + Value(b[2]) * 0x100 + Value(b[3])
  }

  lemma Shifts(v: nat)
    ensures v / 0x1_0000 == v / 0x100_0000 * 0x100 + v / 0x1_0000 % 0x100
    ensures v / 0x100 == v / 0x1_0000 * 0x100 + v / 0x100 % 0x100
    ensures v == v / 0x100 * 0x100 + v % 0x100
  {
  }

  lemma GetPutUint32(v: uint32, rest: Bytes)
    ensures GetUint32(PutUint32(v) + rest) == v
  {
    Shifts(v);
  }
}
