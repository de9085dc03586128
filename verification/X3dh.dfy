/**
  Key agreement and the start of a session: crypto/omemo/x3dh.go, bundle.go and
  the initialisers of session.go.
 */
module X3dh {
  import opened Wrappers
  import opened Words
  import opened Octets
  import opened DoubleRatchet

  datatype IdentityKeyPair = IdentityKeyPair(privateKey: Bytes, publicKey: Bytes)

  datatype BundlePreKey = BundlePreKey(id: uint32, publicKey: Bytes)

  datatype Bundle = Bundle(
    identityKey: Bytes,
    signedPreKey: Bytes,
    signedPreKeyId: uint32,
    signature: Bytes,
    preKeys: seq<BundlePreKey>)

  datatype Agreement = Agreement(secret: Bytes, ephemeralPub: Bytes, usedPreKey: Option<uint32>)

  datatype PendingPreKey = PendingPreKey(preKeyId: Option<uint32>, signedPreKeyId: uint32, ephemeralPub: Bytes)

  datatype Session = Session(ratchet: Ratchet, remoteIdentity: Bytes, pending: Option<PendingPreKey>)

  function Pad(): Bytes {
    seq(32, _ => Lit(0xFF))
  }

  function DeriveSecret(ikm: Bytes): (r: Bytes)
    ensures |r| == 32
  {
    HkdfSha256(Zeros(32), ikm, "OMEMO X3DH", 32)
  }

  /** The initiator; `ephemeral` is the key pair it generates. Verification of a malformed key panics. */
  function Initiate(local: IdentityKeyPair, bundle: Bundle, ephemeral: Bytes): Result<Agreement> {
    if |bundle.identityKey| != 32 then Err(RuntimePanic)
    else if !Verify(bundle.identityKey, bundle.signedPreKey, bundle.signature) then Err(InvalidSignature)
    else
      var mine := EdPrivateToX25519(local.privateKey);
      var theirs :- EdPublicToX25519(bundle.identityKey);
      var dh1 :- X25519(mine, bundle.signedPreKey);
      var dh2 :- X25519(ephemeral, theirs);
      var dh3 :- X25519(ephemeral, bundle.signedPreKey);
      var ikm := Pad() + dh1 + dh2 + dh3;
      if bundle.preKeys == [] then Ok(Agreement(DeriveSecret(ikm), PublicKey(ephemeral), None))
      else
        var dh4 :- X25519(ephemeral, bundle.preKeys[0].publicKey);
        Ok(Agreement(DeriveSecret(ikm + dh4), PublicKey(ephemeral), Some(bundle.preKeys[0].id)))
  }

  /** The responder, with the private keys the initiator used the public halves of. */
  function Respond(local: IdentityKeyPair, spk: Bytes, opk: Option<Bytes>, remoteIdentity: Bytes, ephemeralPub: Bytes)
    : Result<Bytes>
  {
    var theirs :- EdPublicToX25519(remoteIdentity);
    var mine := EdPrivateToX25519(local.privateKey);
    var dh1 :- X25519(spk, theirs);
    var dh2 :- X25519(mine, ephemeralPub);
    var dh3 :- X25519(spk, ephemeralPub);
    var ikm := Pad() + dh1 + dh2 + dh3;
    if opk.None? then Ok(DeriveSecret(ikm))
    else
      var dh4 :- X25519(opk.value, ephemeralPub);
      Ok(DeriveSecret(ikm + dh4))
  }

  function InitSessionAsAlice(local: IdentityKeyPair, bundle: Bundle, ephemeral: Bytes, first: Bytes): Result<Session> {
    var agreed :- Initiate(local, bundle, ephemeral);
    var ratchet :- InitAlice(agreed.secret, bundle.signedPreKey, first);
    Ok(Session(ratchet, bundle.identityKey,
               Some(PendingPreKey(agreed.usedPreKey, bundle.signedPreKeyId, agreed.ephemeralPub))))
  }

  function InitSessionAsBob(local: IdentityKeyPair, spk: Bytes, opk: Option<Bytes>,
                            remoteIdentity: Bytes, ephemeralPub: Bytes): Result<Session>
  {
    var secret :- Respond(local, spk, opk, remoteIdentity, ephemeralPub);
    Ok(Session(InitBob(secret, spk), remoteIdentity, None))
  }

  // --------------------------------------------------------------------------- bundles

  datatype PreKeyRecord = PreKeyRecord(id: uint32, privateKey: Bytes, publicKey: Bytes)

  datatype SignedPreKeyRecord = SignedPreKeyRecord(id: uint32, privateKey: Bytes, publicKey: Bytes, signature: Bytes)

  datatype Address = Address(jid: string, deviceId: uint32)

  /** The private side of one device. */
  class MemoryStore {
    var identityKey: Option<IdentityKeyPair>
    var deviceId: uint32
    var remoteKeys: map<Address, Bytes>
    var preKeys: map<uint32, PreKeyRecord>
    var signedPreKeys: map<uint32, SignedPreKeyRecord>
    var sessions: map<Address, Bytes>

    constructor (id: uint32)
      ensures deviceId == id && identityKey.None?
      ensures remoteKeys == map[] && preKeys == map[] && signedPreKeys == map[] && sessions == map[]
    {
      deviceId, identityKey := id, None;
      remoteKeys, preKeys, signedPreKeys, sessions := map[], map[], map[], map[];
    }
  }

  predicate IdentityOk(ikp: IdentityKeyPair) {
    ikp.publicKey == EdPublic(ikp.privateKey)
  }

  /** The store holds the private half of everything the bundle publishes. */
  predicate Backed(identity: Option<IdentityKeyPair>, spks: map<uint32, SignedPreKeyRecord>,
                   pks: map<uint32, PreKeyRecord>, bundle: Bundle)
  {
    && identity.Some? && IdentityOk(identity.value)
    && bundle.identityKey == identity.value.publicKey
    && bundle.signedPreKeyId in spks
    && |spks[bundle.signedPreKeyId].privateKey| == 32
    && bundle.signedPreKey == PublicKey(spks[bundle.signedPreKeyId].privateKey)
    && bundle.signature == Sign(identity.value.privateKey, bundle.signedPreKey)
    && (forall i :: 0 <= i < |bundle.preKeys| ==>
          && bundle.preKeys[i].id in pks
          && |pks[bundle.preKeys[i].id].privateKey| == 32
          && bundle.preKeys[i].publicKey == PublicKey(pks[bundle.preKeys[i].id].privateKey))
  }

  /** The one-time pre-keys of a bundle, numbered from 1 and stored under their numbers. */
  method GeneratePreKeys(store: MemoryStore, opks: seq<Bytes>) returns (preKeys: seq<BundlePreKey>)
    modifies store`preKeys
    ensures |preKeys| == |opks|
    ensures forall j :: 0 <= j < |opks| ==> preKeys[j] == BundlePreKey((j + 1) % TWO32, PublicKey(opks[j]))
    ensures |opks| < TWO32 ==> forall id: uint32 :: 1 <= id <= |opks| ==>
      id in store.preKeys && store.preKeys[id].privateKey == opks[id - 1]
    ensures forall id :: id in old(store.preKeys) ==> id in store.preKeys
  {
    preKeys := [];
    for i := 0 to |opks|
      invariant |preKeys| == i
      invariant forall j :: 0 <= j < i ==> preKeys[j] == BundlePreKey((j + 1) % TWO32, PublicKey(opks[j]))
      invariant |opks| < TWO32 ==> forall id: uint32 :: 1 <= id <= i ==>
        id in store.preKeys && store.preKeys[id].privateKey == opks[id - 1]
      invariant forall id :: id in old(store.preKeys) ==> id in store.preKeys
    {
      var id := (i + 1) % TWO32;
      assert |opks| < TWO32 ==> id == i + 1;
      var pub := PublicKey(opks[i]);
      store.preKeys := store.preKeys[id := PreKeyRecord(id, opks[i], pub)];
      preKeys := preKeys + [BundlePreKey(id, pub)];
    }
  }

  /**
    Generates a bundle; `seed`, `spk` and `opks` are the keys drawn. An identity
    already in the store is reused.
   */
  method GenerateBundle(store: MemoryStore, seed: Bytes, spk: Bytes, opks: seq<Bytes>) returns (bundle: Bundle)
    requires |spk| == 32 && forall k :: k in opks ==> |k| == 32
    requires store.identityKey.Some? ==> IdentityOk(store.identityKey.value)
    modifies store`identityKey, store`signedPreKeys, store`preKeys
    ensures store.identityKey
         == (if old(store.identityKey).Some? then old(store.identityKey)
             else Some(IdentityKeyPair(seed, EdPublic(seed))))
    ensures |bundle.preKeys| == |opks| && bundle.signedPreKeyId == 1
    ensures forall i :: 0 <= i < |opks| ==>
      bundle.preKeys[i] == BundlePreKey((i + 1) % TWO32, PublicKey(opks[i]))
    ensures |opks| < TWO32 ==> Backed(store.identityKey, store.signedPreKeys, store.preKeys, bundle)
    ensures forall id :: id in old(store.preKeys) ==> id in store.preKeys
  {
    if store.identityKey.None? {
      store.identityKey := Some(IdentityKeyPair(seed, EdPublic(seed)));
    }
    var ikp := store.identityKey.value;
    var spkPub := PublicKey(spk);
    var signature := Sign(ikp.privateKey, spkPub);
    store.signedPreKeys := store.signedPreKeys[1 := SignedPreKeyRecord(1, spk, spkPub, signature)];
    var preKeys := GeneratePreKeys(store, opks);
    bundle := Bundle(ikp.publicKey, spkPub, 1, signature, preKeys);
    if |opks| < TWO32 {
      forall i | 0 <= i < |preKeys|
        ensures preKeys[i].id in store.preKeys && store.preKeys[preKeys[i].id].privateKey == opks[i]
      {
        assert preKeys[i].id == i + 1;
      }
    }
  }

  // ------------------------------------------------------------------------- agreement

  /** The private one-time pre-key an agreement used. */
  function UsedPreKey(pks: map<uint32, PreKeyRecord>, id: Option<uint32>): Option<Bytes>
    requires id.Some? ==> id.value in pks
  {
    if id.None? then None else Some(pks[id.value].privateKey)
  }

  /**
    For every backed bundle, with or without one-time pre-keys, both sides compute
    the same secret.
   */
  lemma AgreementTheorem(alice: IdentityKeyPair, identity: IdentityKeyPair, spks: map<uint32, SignedPreKeyRecord>,
                         pks: map<uint32, PreKeyRecord>, bundle: Bundle, ephemeral: Bytes)
    requires IdentityOk(alice) && Backed(Some(identity), spks, pks, bundle)
    ensures var a := Initiate(alice, bundle, ephemeral);
      && a.Ok?
      && a.value.ephemeralPub == PublicKey(ephemeral)
      && (a.value.usedPreKey.Some? <==> bundle.preKeys != [])
      && (a.value.usedPreKey.Some? ==> a.value.usedPreKey.value in pks)
      && Respond(identity, spks[bundle.signedPreKeyId].privateKey, UsedPreKey(pks, a.value.usedPreKey),
                 alice.publicKey, a.value.ephemeralPub) == Ok(a.value.secret)
  {
    var spk := spks[bundle.signedPreKeyId].privateKey;
    var a, b := EdPrivateToX25519(alice.privateKey), EdPrivateToX25519(identity.privateKey);
    VerifySigned(identity.privateKey, bundle.signedPreKey);
    EdConversionsAgree(alice.privateKey);
    EdConversionsAgree(identity.privateKey);
    Commutes(a, spk);
    Commutes(ephemeral, b);
    Commutes(ephemeral, spk);
    if bundle.preKeys != [] {
      Commutes(ephemeral, pks[bundle.preKeys[0].id].privateKey);
    }
  }

  // ------------------------------------------------------------------------ signed pre-keys

  /** The signed pre-key was signed with the private half of the identity key. */
  ghost predicate ProperlySigned(bundle: Bundle) {
    exists seed :: bundle.identityKey == EdPublic(seed) && bundle.signature == Sign(seed, bundle.signedPreKey)
  }

  lemma VerifiesExactly(bundle: Bundle)
    ensures Verify(bundle.identityKey, bundle.signedPreKey, bundle.signature) <==> ProperlySigned(bundle)
  {
    if ProperlySigned(bundle) {
      var seed :| bundle.identityKey == EdPublic(seed) && bundle.signature == Sign(seed, bundle.signedPreKey);
      VerifySigned(seed, bundle.signedPreKey);
    }
  }

  /**
    Whatever the bundle and the draw: nothing is agreed on from a pre-key that its identity
    did not sign. An identity key of the wrong length makes the check of the signature panic.
   */
  lemma SignatureTheorem(local: IdentityKeyPair, bundle: Bundle, ephemeral: Bytes)
    ensures Initiate(local, bundle, ephemeral).Ok? ==> ProperlySigned(bundle)
    ensures |bundle.identityKey| == 32 && !ProperlySigned(bundle) ==>
      Initiate(local, bundle, ephemeral) == Err(InvalidSignature)
    ensures |bundle.identityKey| != 32 ==> Initiate(local, bundle, ephemeral) == Err(RuntimePanic)
  {
    VerifiesExactly(bundle);
  }

  lemma SessionIsSigned(local: IdentityKeyPair, bundle: Bundle, ephemeral: Bytes, first: Bytes)
    ensures var s := InitSessionAsAlice(local, bundle, ephemeral, first);
      && (s.Ok? ==> ProperlySigned(bundle) && s.value.remoteIdentity == bundle.identityKey
                    && s.value.ratchet.dhr == Some(bundle.signedPreKey))
      && (|bundle.identityKey| == 32 && !ProperlySigned(bundle) ==> s == Err(InvalidSignature))
  {
    SignatureTheorem(local, bundle, ephemeral);
  }

  // -------------------------------------------------------------- what a secret rests on

  /** The private keys behind one agreement: both identities, the ephemeral key, the signed and the one-time pre-key. */
  datatype Parties = Parties(initiator: Bytes, responder: Bytes, ephemeral: Bytes, spk: Bytes, opk: Option<Bytes>)

  /** The bundle publishes the responder's halves of `p`. */
  predicate Publishes(bundle: Bundle, p: Parties) {
    && bundle.identityKey == EdPublic(p.responder)
    && bundle.signedPreKey == PublicKey(p.spk)
    && (bundle.preKeys == [] <==> p.opk.None?)
    && (p.opk.Some? ==> bundle.preKeys[0].publicKey == PublicKey(p.opk.value))
  }

  /** The drawn keys are not converted identity keys. */
  ghost predicate FreshKeys(p: Parties) {
    forall seed :: p.ephemeral != EdPrivateToX25519(seed) && p.spk != EdPrivateToX25519(seed)
  }

  function Ikm(p: Parties): Bytes {
    Pad() + SharedSecret(EdPrivateToX25519(p.initiator), p.spk) + SharedSecret(p.ephemeral, EdPrivateToX25519(p.responder))
    + SharedSecret(p.ephemeral, p.spk) + (if p.opk.Some? then SharedSecret(p.ephemeral, p.opk.value) else [])
  }

  lemma SecretOf(alice: IdentityKeyPair, bundle: Bundle, p: Parties)
    requires alice.privateKey == p.initiator && Publishes(bundle, p) && Initiate(alice, bundle, p.ephemeral).Ok?
    ensures Initiate(alice, bundle, p.ephemeral).value.secret == DeriveSecret(Ikm(p))
  {
    EdConversionsAgree(p.responder);
    X25519OfPublicKey(EdPrivateToX25519(p.initiator), p.spk);
    X25519OfPublicKey(p.ephemeral, EdPrivateToX25519(p.responder));
    X25519OfPublicKey(p.ephemeral, p.spk);
    if p.opk.Some? {
      X25519OfPublicKey(p.ephemeral, p.opk.value);
    } else {
      EndsEmpty(Pad() + SharedSecret(EdPrivateToX25519(p.initiator), p.spk)
                + SharedSecret(p.ephemeral, EdPrivateToX25519(p.responder)) + SharedSecret(p.ephemeral, p.spk));
    }
  }

  lemma PartsEqual(pad: Bytes, a: Bytes, b: Bytes, c: Bytes, d: Bytes, a': Bytes, b': Bytes, c': Bytes, d': Bytes)
    requires |a| == |a'| && |b| == |b'| && |c| == |c'|
    requires pad + a + b + c + d == pad + a' + b' + c' + d'
    ensures a == a' && b == b' && c == c' && d == d'
  {
    var n := |pad|;
    var x, y := pad + a + b + c + d, pad + a' + b' + c' + d';
    assert a == x[n..n + |a|] && a' == y[n..n + |a|];
    assert b == x[n + |a|..n + |a| + |b|] && b' == y[n + |a|..n + |a| + |b|];
    assert c == x[n + |a| + |b|..n + |a| + |b| + |c|] && c' == y[n + |a| + |b|..n + |a| + |b| + |c|];
    assert d == x[n + |a| + |b| + |c|..] && d' == y[n + |a| + |b| + |c|..];
  }

  lemma SharedInjective(a: Bytes, b: Bytes, a': Bytes, b': Bytes)
    requires SharedSecret(a, b) == SharedSecret(a', b')
    ensures {a, b} == {a', b'}
  {
    OutputInjective(SharedBy({a, b}), SharedBy({a', b'}), 32, 32);
  }

  lemma PairWith(a: Bytes, b: Bytes, a': Bytes, b': Bytes)
    requires {a, b} == {a', b'} && a != b'
    ensures a == a' && b == b'
  {
    assert a in {a', b'} && b in {a', b'} && b' in {a, b};
  }

  lemma ScalarInjective(a: Bytes, b: Bytes)
    requires EdPrivateToX25519(a) == EdPrivateToX25519(b)
    ensures a == b
  {
    OutputInjective(ScalarOf(a), ScalarOf(b), 32, 32);
  }

  lemma IkmInjective(p: Parties, q: Parties)
    requires FreshKeys(p) && FreshKeys(q) && Ikm(p) == Ikm(q)
    ensures p == q
  {
    var a, b, a', b' := EdPrivateToX25519(p.initiator), EdPrivateToX25519(p.responder),
                        EdPrivateToX25519(q.initiator), EdPrivateToX25519(q.responder);
    PartsEqual(Pad(), SharedSecret(a, p.spk), SharedSecret(p.ephemeral, b), SharedSecret(p.ephemeral, p.spk),
               if p.opk.Some? then SharedSecret(p.ephemeral, p.opk.value) else [],
               SharedSecret(a', q.spk), SharedSecret(q.ephemeral, b'), SharedSecret(q.ephemeral, q.spk),
               if q.opk.Some? then SharedSecret(q.ephemeral, q.opk.value) else []);
    SharedInjective(a, p.spk, a', q.spk);
    PairWith(a, p.spk, a', q.spk);
    SharedInjective(p.ephemeral, b, q.ephemeral, b');
    PairWith(p.ephemeral, b, q.ephemeral, b');
    ScalarInjective(p.initiator, q.initiator);
    ScalarInjective(p.responder, q.responder);
    if p.opk.Some? {
      SharedInjective(p.ephemeral, p.opk.value, q.ephemeral, q.opk.value);
      SamePartner(p.ephemeral, p.opk.value, q.opk.value);
    }
  }

  lemma SamePartner(a: Bytes, b: Bytes, c: Bytes)
    requires {a, b} == {a, c}
    ensures b == c
  {
    assert b in {a, c} && c in {a, b};
  }

  /**
    A secret identifies its agreement: two agreements come to the same secret exactly when
    both identities, the ephemeral key and both pre-keys are the same. So every one of the
    keys counts.
   */
  lemma SecretTheorem(alice: IdentityKeyPair, bundle: Bundle, p: Parties, alice': IdentityKeyPair, bundle': Bundle, q: Parties)
    requires alice.privateKey == p.initiator && Publishes(bundle, p) && Initiate(alice, bundle, p.ephemeral).Ok?
    requires alice'.privateKey == q.initiator && Publishes(bundle', q) && Initiate(alice', bundle', q.ephemeral).Ok?
    requires FreshKeys(p) && FreshKeys(q)
    ensures Initiate(alice, bundle, p.ephemeral).value.secret == Initiate(alice', bundle', q.ephemeral).value.secret <==> p == q
  {
    SecretOf(alice, bundle, p);
    SecretOf(alice', bundle', q);
    if DeriveSecret(Ikm(p)) == DeriveSecret(Ikm(q)) {
      OutputInjective(Hkdf(Zeros(32), Ikm(p), "OMEMO X3DH"), Hkdf(Zeros(32), Ikm(q), "OMEMO X3DH"), 32, 32);
      IkmInjective(p, q);
    }
  }

  lemma Commutes(a: Bytes, b: Bytes)
    ensures X25519(a, PublicKey(b)) == X25519(b, PublicKey(a)) == Ok(SharedSecret(a, b))
  {
    X25519OfPublicKey(a, b);
    X25519OfPublicKey(b, a);
    SharedSecretCommutes(a, b);
  }
}
