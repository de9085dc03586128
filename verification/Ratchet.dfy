/**
  The Double Ratchet of crypto/omemo/ratchet.go.

  `Ratchet` is the value of a ratchet state, and the functions on it say what
  every operation does to that value, failures included. Random values are
  parameters: `drawn` is the private key a step generates, `nonce` the nonce.
 */
module DoubleRatchet {
  import opened Wrappers
  import opened Words
  import opened Octets

  const MAX_SKIPPED_KEYS: nat := 1000

  datatype SkippedKey = SkippedKey(dhPub: Bytes, n: uint32)

  datatype Header = Header(dhPub: Bytes, n: uint32, pn: uint32)

  datatype Ratchet = Ratchet(
    dhs: Bytes,
    dhr: Option<Bytes>,
    rk: Bytes,
    cks: Option<Bytes>,
    ckr: Option<Bytes>,
    ns: uint32,
    nr: uint32,
    pn: uint32,
    skipped: map<SkippedKey, Bytes>)

  /** A nil key is the empty byte string when it reaches the key derivation. */
  function KeyBytes(k: Option<Bytes>): Bytes {
    match k
    case Some(b) => b
    case None => []
  }

  // ------------------------------------------------------------------ initial states

  function InitAlice(secret: Bytes, remoteSpk: Bytes, drawn: Bytes): (r: Result<Ratchet>)
  {
    match X25519(drawn, remoteSpk)
    case Err(e) => Err(e)
    case Ok(dh) =>
      var (rk, cks) := RootKdf(secret, dh);
      Ok(Ratchet(drawn, Some(remoteSpk), rk, Some(cks), None, 0, 0, 0, map[]))
  }

  function InitBob(secret: Bytes, spk: Bytes): Ratchet {
    Ratchet(spk, None, secret, None, None, 0, 0, 0, map[])
  }

  // ---------------------------------------------------------------------- encryption

  /** The new state, the header and the nonce-prefixed ciphertext. */
  function Encrypt(s: Ratchet, plain: Bytes, nonce: Bytes): (Ratchet, Header, Bytes) {
    var ck := KeyBytes(s.cks);
    (s.(cks := Some(NextChainKey(ck)), ns := (s.ns + 1) % TWO32),
     Header(PublicKey(s.dhs), s.ns, s.pn),
     nonce + Seal(MessageKey(ck), nonce, plain))
  }

  // ---------------------------------------------------------------------- decryption

  function DecryptWithNonce(mk: Bytes, data: Bytes): Result<Bytes> {
    if |data| < AES_NONCE_SIZE then Err(InvalidMessage)
    else AesGcmDecrypt(mk, data[..AES_NONCE_SIZE], data[AES_NONCE_SIZE..])
  }

  lemma DecryptSealed(mk: Bytes, nonce: Bytes, plain: Bytes)
    requires |mk| == AES_KEY_SIZE && |nonce| == AES_NONCE_SIZE
    ensures DecryptWithNonce(mk, nonce + Seal(mk, nonce, plain)) == Ok(plain)
  {
    var data := nonce + Seal(mk, nonce, plain);
    assert data[..AES_NONCE_SIZE] == nonce;
    assert data[AES_NONCE_SIZE..] == Seal(mk, nonce, plain);
    OpenSealed(mk, nonce, plain);
  }

  /** A copy into an array of 32 octets: cut off, or filled up with zeros. */
  function Fit32(b: Bytes): (r: Bytes)
    ensures |r| == 32
    ensures |b| == 32 ==> r == b
  {
    if |b| >= 32 then b[..32] else b + Zeros(32 - |b|)
  }

  function SlotOf(h: Header): SkippedKey {
    SkippedKey(Fit32(h.dhPub), h.n)
  }

  /** The remote key as the map key holds it: a nil key is copied as zeros. */
  function RemoteKey(dhr: Option<Bytes>): Bytes {
    Fit32(KeyBytes(dhr))
  }

  /** Stores the key of message `nr` of the receiving chain and moves past it. */
  function SkipOne(s: Ratchet): Ratchet
    requires s.nr + 1 < TWO32
  {
    var ck := KeyBytes(s.ckr);
    s.(ckr := Some(NextChainKey(ck)),
       nr := s.nr + 1,
       skipped := s.skipped[SkippedKey(RemoteKey(s.dhr), s.nr) := MessageKey(ck)])
  }

  /** The loop: the reached state and whether it got to `until`. */
  function SkipLoop(s: Ratchet, until: uint32): (Ratchet, bool)
    decreases until - s.nr
  {
    if s.nr >= until then (s, true)
    else
      var s' := SkipOne(s);
      if |s'.skipped| > MAX_SKIPPED_KEYS then (s', false) else SkipLoop(s', until)
  }

  function SkipBound(nr: uint32): uint32 {
    (nr + MAX_SKIPPED_KEYS) % TWO32
  }

  function SkipMessageKeys(s: Ratchet, until: uint32): (Ratchet, bool) {
    if s.ckr.None? then (s, true)
    else if until > SkipBound(s.nr) then (s, false)
    else SkipLoop(s, until)
  }

  /** A failed agreement leaves the counters and the remote key already replaced. */
  function DhRatchetStep(s: Ratchet, newDhr: Bytes, drawn: Bytes): (Ratchet, Option<OmemoError>) {
    var peer := Fit32(newDhr);
    var s1 := s.(pn := s.ns, ns := 0, nr := 0, dhr := Some(peer));
    match X25519(s.dhs, peer)
    case Err(e) => (s1, Some(e))
    case Ok(dh1) =>
      var (rk1, ckr) := RootKdf(s.rk, dh1);
      var s2 := s1.(rk := rk1, ckr := Some(ckr), dhs := drawn);
      match X25519(drawn, peer)
      case Err(e) => (s2, Some(e))
      case Ok(dh2) =>
        var (rk2, cks) := RootKdf(rk1, dh2);
        (s2.(rk := rk2, cks := Some(cks)), None)
  }

  /** Forgets the key stored for the header, if any, whatever it opens. */
  function ForgetSkipped(s: Ratchet, h: Header): Ratchet {
    s.(skipped := s.skipped - {SlotOf(h)})
  }

  function TrySkippedKeys(s: Ratchet, h: Header, data: Bytes): Result<Bytes> {
    if SlotOf(h) in s.skipped then DecryptWithNonce(s.skipped[SlotOf(h)], data)
    else Err(InvalidMessage)
  }

  predicate NewRemoteKey(s: Ratchet, h: Header) {
    s.dhr.None? || h.dhPub != s.dhr.value
  }

  /** Brings the state to the receiving chain of the header. */
  function EnterChain(s: Ratchet, h: Header, drawn: Bytes): (Ratchet, Option<OmemoError>) {
    if NewRemoteKey(s, h) then
      var (s1, ok) := SkipMessageKeys(s, h.pn);
      if !ok then (s1, Some(SkippedKeyLimit)) else DhRatchetStep(s1, h.dhPub, drawn)
    else (s, None)
  }

  /** Derives the next receiving key, leaving the chain one further on. */
  function TakeReceivingKey(s: Ratchet): (Ratchet, Bytes) {
    var ck := KeyBytes(s.ckr);
    (s.(ckr := Some(NextChainKey(ck)), nr := (s.nr + 1) % TWO32), MessageKey(ck))
  }

  /** Steps 2 to 4 of decryption: the message key, or why there is none. */
  function DeriveKey(s: Ratchet, h: Header, drawn: Bytes): (Ratchet, Result<Bytes>) {
    var (s1, failure) := EnterChain(s, h, drawn);
    if failure.Some? then (s1, Err(failure.value))
    else
      var (s2, ok) := SkipMessageKeys(s1, h.n);
      if !ok then (s2, Err(SkippedKeyLimit))
      else
        var (s3, mk) := TakeReceivingKey(s2);
        (s3, Ok(mk))
  }

  function Decrypt(s: Ratchet, h: Header, data: Bytes, drawn: Bytes): (Ratchet, Result<Bytes>) {
    var s0 := ForgetSkipped(s, h);
    var r0 := TrySkippedKeys(s, h, data);
    if r0.Ok? then (s0, r0)
    else
      var (s1, mk) := DeriveKey(s0, h, drawn);
      (s1, if mk.Err? then Err(mk.error) else DecryptWithNonce(mk.value, data))
  }
}
