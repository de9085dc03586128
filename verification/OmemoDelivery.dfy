/**
  What managers guarantee to each other and across restarts: the envelope opens on
  every device it was made for, the first message of a session opens, and the store
  always holds what the memory holds after successful calls.
 */
module OmemoDelivery {
  import opened Wrappers
  import opened Words
  import opened Octets
  import opened DoubleRatchet
  import opened RatchetCodec
  import opened RatchetHistory
  import opened RatchetDelivery
  import opened RatchetWorld
  import opened RatchetRuns
  import opened X3dh
  import opened OmemoSession
  import opened OmemoManager

  // ------------------------------------------------------------- the key for each device

  predicate DistinctDevices(recipients: seq<Address>) {
    forall i, j :: 0 <= i < j < |recipients| ==> recipients[i].deviceId != recipients[j].deviceId
  }

  /** `u` treats an address as `v` does. */
  predicate SameFor(v: Device, u: Device, addr: Address) {
    && u.identity == v.identity
    && FindSession(u, addr) == FindSession(v, addr)
    && (addr in u.bundles <==> addr in v.bundles)
    && (addr in v.bundles ==> u.bundles[addr] == v.bundles[addr])
    && LoadPanics(u, addr) == LoadPanics(v, addr)
  }

  lemma SameSession(v: Device, u: Device, addr: Address, d: Draws)
    requires SameFor(v, u, addr)
    ensures GetOrCreateSession(u, addr, d).1 == GetOrCreateSession(v, addr, d).1
  {
  }

  lemma CacheOthers(v: Device, addr: Address, s: Session, other: Address)
    requires addr != other
    ensures SameFor(v, Cache(v, addr, s), other) && SameFor(v, CacheAndSave(v, addr, s), other)
  {
  }

  lemma BundleOthers(v: Device, addr: Address, key: Bytes, bundle: Bundle, other: Address)
    requires addr != other
    ensures SameFor(v, v.(remoteKeys := v.remoteKeys[addr := key], bundles := v.bundles[addr := bundle]), other)
  {
  }

  lemma SameTrans(v: Device, u: Device, w: Device, addr: Address)
    requires SameFor(v, u, addr) && SameFor(u, w, addr)
    ensures SameFor(v, w, addr)
  {
  }

  lemma GetKeepsOthers(v: Device, addr: Address, d: Draws, other: Address)
    requires addr != other
    ensures SameFor(v, GetOrCreateSession(v, addr, d).0, other)
  {
    var found := FindSession(v, addr);
    if found.Some? {
      CacheOthers(v, addr, found.value, other);
    } else if GetOrCreateSession(v, addr, d).1.Ok? {
      var bundle := v.bundles[addr];
      var v1 := v.(remoteKeys := v.remoteKeys[addr := bundle.identityKey], bundles := v.bundles[addr := DropPreKey(bundle)]);
      BundleOthers(v, addr, bundle.identityKey, DropPreKey(bundle), other);
      CacheOthers(v1, addr, GetOrCreateSession(v, addr, d).1.value, other);
      SameTrans(v, v1, GetOrCreateSession(v, addr, d).0, other);
    }
  }

  lemma EncryptToOthers(v: Device, addr: Address, material: Bytes, d: Draws, other: Address, d': Draws)
    requires addr != other
    ensures GetOrCreateSession(EncryptTo(v, addr, material, d).0, other, d').1 == GetOrCreateSession(v, other, d').1
  {
    GetKeepsOthers(v, addr, d, other);
    var v1 := GetOrCreateSession(v, addr, d).0;
    var v2 := EncryptTo(v, addr, material, d).0;
    assert SameFor(v1, v2, other);
    SameSession(v, v2, other, d');
  }

  lemma {:induction false} EncryptAllOthers(
    v: Device, recipients: seq<Address>, material: Bytes, draws: seq<Draws>, other: Address, d': Draws)
    requires |recipients| == |draws| && other !in recipients
    ensures GetOrCreateSession(EncryptAll(v, recipients, material, draws).0, other, d').1
         == GetOrCreateSession(v, other, d').1
    decreases |recipients|
  {
    if recipients == [] {
    } else {
      var n := |recipients| - 1;
      EncryptAllOthers(v, recipients[..n], material, draws[..n], other, d');
      var v1 := EncryptAll(v, recipients[..n], material, draws[..n]).0;
      EncryptToOthers(v1, recipients[n], material, draws[n], other, d');
    }
  }

  /** Key `k` carries what the session with recipient `k` makes of the key material. */
  predicate IsKeyFor(key: MessageKeyFor, addr: Address, s: Session, material: Bytes, nonce: Bytes) {
    var (_, header, ct, isPreKey) := SessionEncrypt(s, material, nonce);
    && key.deviceId == addr.deviceId
    && key.isPreKey == isPreKey
    && EncodeHeader(header).Ok?
    && key.data == EncodeHeader(header).value + ct
  }

  /** The last key of a call, and the keys before it. */
  lemma LastKey(v: Device, recipients: seq<Address>, material: Bytes, draws: seq<Draws>)
    requires |recipients| == |draws| > 0
    requires EncryptAll(v, recipients, material, draws).1.Ok?
    ensures var n := |recipients| - 1;
      var (v1, before) := EncryptAll(v, recipients[..n], material, draws[..n]);
      var key := EncryptTo(v1, recipients[n], material, draws[n]).1;
      && before.Ok? && key.Ok?
      && EncryptAll(v, recipients, material, draws).1.value == before.value + [key.value]
  {
  }

  /** The key that the session with a recipient makes, as the device stands before the call. */
  predicate RightKey(v: Device, addr: Address, material: Bytes, d: Draws, key: MessageKeyFor) {
    var s := GetOrCreateSession(v, addr, d).1;
    s.Ok? && IsKeyFor(key, addr, s.value, material, d.nonce)
  }

  lemma DistinctFront(recipients: seq<Address>)
    requires recipients != [] && DistinctDevices(recipients)
    ensures DistinctDevices(recipients[..|recipients| - 1])
    ensures recipients[|recipients| - 1] !in recipients[..|recipients| - 1]
  {
  }

  lemma KeysFor(v: Device, recipients: seq<Address>, material: Bytes, draws: seq<Draws>, k: nat)
    requires |recipients| == |draws| && DistinctDevices(recipients) && k < |recipients|
    requires EncryptAll(v, recipients, material, draws).1.Ok?
    ensures var keys := EncryptAll(v, recipients, material, draws).1.value;
      |keys| == |recipients| && RightKey(v, recipients[k], material, draws[k], keys[k])
  {
    KeyCount(v, recipients, material, draws);
    KeyFor(v, recipients, material, draws, k, recipients[k], draws[k]);
  }

  lemma {:induction false} KeyFor(
    v: Device, recipients: seq<Address>, material: Bytes, draws: seq<Draws>, k: nat, addr: Address, d: Draws)
    requires |recipients| == |draws| && DistinctDevices(recipients) && k < |recipients|
    requires addr == recipients[k] && d == draws[k]
    requires EncryptAll(v, recipients, material, draws).1.Ok?
    ensures var keys := EncryptAll(v, recipients, material, draws).1.value;
      k < |keys| && RightKey(v, addr, material, d, keys[k])
    decreases |recipients|
  {
    var n := |recipients| - 1;
    var before, drawn := recipients[..n], draws[..n];
    DistinctFront(recipients);
    LastKey(v, recipients, material, draws);
    KeyCount(v, before, material, drawn);
    if k == n {
      LastKeyFor(v, before, material, drawn, addr, d);
    } else {
      KeyFor(v, before, material, drawn, k, addr, d);
    }
  }

  lemma LastKeyFor(v: Device, before: seq<Address>, material: Bytes, drawn: seq<Draws>, addr: Address, d: Draws)
    requires |before| == |drawn| && addr !in before
    requires EncryptTo(EncryptAll(v, before, material, drawn).0, addr, material, d).1.Ok?
    ensures RightKey(v, addr, material, d, EncryptTo(EncryptAll(v, before, material, drawn).0, addr, material, d).1.value)
  {
    EncryptAllOthers(v, before, material, drawn, addr, d);
    EncryptToMakes(EncryptAll(v, before, material, drawn).0, addr, material, d);
  }

  lemma EncryptToMakes(v: Device, addr: Address, material: Bytes, d: Draws)
    requires EncryptTo(v, addr, material, d).1.Ok?
    ensures var s := GetOrCreateSession(v, addr, d).1;
      s.Ok? && IsKeyFor(EncryptTo(v, addr, material, d).1.value, addr, s.value, material, d.nonce)
  {
  }

  lemma {:induction false} KeyCount(v: Device, recipients: seq<Address>, material: Bytes, draws: seq<Draws>)
    requires |recipients| == |draws|
    ensures var keys := EncryptAll(v, recipients, material, draws).1; keys.Ok? ==> |keys.value| == |recipients|
    decreases |recipients|
  {
    if recipients == [] {
    } else {
      var n := |recipients| - 1;
      KeyCount(v, recipients[..n], material, draws[..n]);
    }
  }

  lemma {:induction false} OurKeyIs(keys: seq<MessageKeyFor>, k: nat)
    requires k < |keys|
    requires forall i :: 0 <= i < k ==> keys[i].deviceId != keys[k].deviceId
    ensures OurKey(keys, keys[k].deviceId) == Some(keys[k])
    decreases k
  {
    if k == 0 {
    } else {
      assert keys[1..][k - 1] == keys[k];
      OurKeyIs(keys[1..], k - 1);
    }
  }

  /** With distinct devices, the key a device finds is the one made for it. */
  lemma FindsOwnKey(v: Device, recipients: seq<Address>, material: Bytes, draws: seq<Draws>, k: nat)
    requires |recipients| == |draws| && DistinctDevices(recipients) && k < |recipients|
    requires EncryptAll(v, recipients, material, draws).1.Ok?
    ensures var keys := EncryptAll(v, recipients, material, draws).1.value;
      var s := GetOrCreateSession(v, recipients[k], draws[k]).1;
      var key := OurKey(keys, recipients[k].deviceId);
      key.Some? && s.Ok? && IsKeyFor(key.value, recipients[k], s.value, material, draws[k].nonce)
  {
    var keys := EncryptAll(v, recipients, material, draws).1.value;
    forall i | 0 <= i < |recipients|
      ensures |keys| == |recipients| && keys[i].deviceId == recipients[i].deviceId
    {
      KeysFor(v, recipients, material, draws, i);
    }
    KeysFor(v, recipients, material, draws, k);
    OurKeyIs(keys, k);
  }

  // ------------------------------------------------------------------------ the envelope

  /** The receiving ratchet opens what the sending ratchet makes of the key material. */
  predicate Opens(s: Ratchet, t: Ratchet, material: Bytes, nonce: Bytes, drawn: Bytes) {
    var (_, header, data) := Encrypt(s, material, nonce);
    Decrypt(t, header, data, drawn).1 == Ok(material)
  }

  lemma PayloadOpens(messageKey: Bytes, iv: Bytes, plain: Bytes)
    requires |messageKey| == 32 && |iv| == AES_NONCE_SIZE
    ensures var sealed := Seal(messageKey, iv, plain);
      OpenPayload(KeyMaterial(messageKey, sealed), iv, sealed[..|plain|]) == Ok(plain)
  {
    var sealed := Seal(messageKey, iv, plain);
    var material := KeyMaterial(messageKey, sealed);
    assert material[..32] == messageKey;
    assert sealed[..|plain|] + material[32..] == sealed;
    OpenSealed(messageKey, iv, plain);
  }

  lemma KeyDataParts(key: MessageKeyFor, addr: Address, s: Session, material: Bytes, nonce: Bytes)
    requires IsKeyFor(key, addr, s, material, nonce)
    ensures var (_, header, ct) := Encrypt(s.ratchet, material, nonce);
      && |key.data| >= HEADER_SIZE
      && DecodeHeader(key.data[..HEADER_SIZE]) == Ok(header)
      && key.data[HEADER_SIZE..] == ct
  {
    var (_, header, ct) := Encrypt(s.ratchet, material, nonce);
    HeaderRoundTrip(header);
    var h := EncodeHeader(header).value;
    assert (h + ct)[..HEADER_SIZE] == h;
    assert (h + ct)[HEADER_SIZE..] == ct;
  }

  lemma OpenWithOpens(r: Device, sender: Address, t: Session, key: MessageKeyFor, msg: EncryptedMessage, drawn: Bytes,
                      addr: Address, s: Session, messageKey: Bytes, plain: Bytes, nonce: Bytes)
    requires |messageKey| == 32 && |msg.iv| == AES_NONCE_SIZE
    requires msg.payload == Seal(messageKey, msg.iv, plain)[..|plain|]
    requires var material := KeyMaterial(messageKey, Seal(messageKey, msg.iv, plain));
      && IsKeyFor(key, addr, s, material, nonce)
      && Opens(s.ratchet, t.ratchet, material, nonce, drawn)
    ensures |key.data| >= HEADER_SIZE
    ensures OpenWith(r, sender, t, key.data, msg, drawn).1 == Ok(plain)
  {
    var material := KeyMaterial(messageKey, Seal(messageKey, msg.iv, plain));
    KeyDataParts(key, addr, s, material, nonce);
    PayloadOpens(messageKey, msg.iv, plain);
  }

  /**
    For recipients with distinct device ids, a device whose session opens what the
    sender's session makes recovers the plaintext from the key/tag split envelope.
   */
  lemma EnvelopeOpens(v: Device, plain: Bytes, recipients: seq<Address>, messageKey: Bytes, iv: Bytes,
                      draws: seq<Draws>, k: nat, r: Device, sender: Address, drawn: Bytes)
    requires |recipients| == |draws| && DistinctDevices(recipients) && k < |recipients|
    requires |messageKey| == 32 && |iv| == AES_NONCE_SIZE
    requires EncryptMessage(v, plain, recipients, messageKey, iv, draws).1.Ok?
    requires r.deviceId == recipients[k].deviceId
    requires var s, t := GetOrCreateSession(v, recipients[k], draws[k]).1, FindSession(r, sender);
      && s.Ok? && t.Some?
      && Opens(s.value.ratchet, t.value.ratchet, KeyMaterial(messageKey, Seal(messageKey, iv, plain)),
               draws[k].nonce, drawn)
    ensures var msg := EncryptMessage(v, plain, recipients, messageKey, iv, draws).1.value;
      DecryptMessage(r, sender, msg, drawn).1 == Ok(plain)
  {
    var msg := EncryptMessage(v, plain, recipients, messageKey, iv, draws).1.value;
    var material := KeyMaterial(messageKey, Seal(messageKey, iv, plain));
    FindsOwnKey(v, recipients, material, draws, k);
    var key := OurKey(msg.keys, r.deviceId).value;
    var s, t := GetOrCreateSession(v, recipients[k], draws[k]).1.value, FindSession(r, sender).value;
    OpenWithOpens(r, sender, t, key, msg, drawn, recipients[k], s, messageKey, plain, draws[k].nonce);
  }

  /**
    Two devices with an agreed session: the sender's session is one side of a
    reachable world, and the receiver's is the other side after any further run in
    which the message is still under way. Then the envelope opens to the plaintext.
   */
  lemma EnvelopeTheorem(v: Device, plain: Bytes, recipients: seq<Address>, messageKey: Bytes, iv: Bytes,
                        draws: seq<Draws>, k: nat, r: Device, sender: Address, drawn: Bytes,
                        w: World, send: Step, steps: seq<Step>, w': World)
    requires |recipients| == |draws| && DistinctDevices(recipients) && k < |recipients|
    requires |messageKey| == 32 && |iv| == AES_NONCE_SIZE
    requires EncryptMessage(v, plain, recipients, messageKey, iv, draws).1.Ok?
    requires r.deviceId == recipients[k].deviceId
    requires Reachable(w) && send.Send? && Enabled(w, send) && Leads(After(w, send), steps, w')
    requires send.plain == KeyMaterial(messageKey, Seal(messageKey, iv, plain)) && send.nonce == draws[k].nonce
    requires GetOrCreateSession(v, recipients[k], draws[k]).1.Ok?
    requires GetOrCreateSession(v, recipients[k], draws[k]).1.value.ratchet == StateOf(w, send.p)
    requires FindSession(r, sender).Some?
    requires FindSession(r, sender).value.ratchet == StateOf(w', Other(send.p))
    requires Enabled(w', Receive(Other(send.p), Id(send.e, |w.past.sent[send.e]|), drawn))
    requires WithinLimits(StateOf(w', Other(send.p)), Encrypt(StateOf(w, send.p), send.plain, send.nonce).1)
    ensures var msg := EncryptMessage(v, plain, recipients, messageKey, iv, draws).1.value;
      DecryptMessage(r, sender, msg, drawn).1 == Ok(plain)
  {
    SentOpensLater(w, send, steps, w', drawn);
    EnvelopeOpens(v, plain, recipients, messageKey, iv, draws, k, r, sender, drawn);
  }

  // --------------------------------------------------------------------- the first message

  lemma FirstOpens(w: World, material: Bytes, nonce: Bytes, drawn: Bytes)
    requires Initial(w) && |nonce| == AES_NONCE_SIZE && |drawn| == 32 && drawn !in w.past.plan.keys
    ensures Opens(w.alice, w.bob, material, nonce, drawn)
  {
    var send := Send(Alice, 1, material, nonce);
    assert Leads(w, [], w);
    assert Reachable(w);
    InitialOk(w);
    var w1 := After(w, send);
    assert Leads(w1, [], w1);
    SentOpensLater(w, send, [], w1, drawn);
  }

  /** The initiator's device makes its end of a new session from a bundle the other device backs. */
  lemma FirstSession(v: Device, addr: Address, d: Draws, r: Device) returns (w: World, s: Session, t: Session)
    requires v.identity.Some? && IdentityOk(v.identity.value) && DrawsOk(d)
    requires FindSession(v, addr).None? && !LoadPanics(v, addr) && addr in v.bundles
    requires Backed(r.identity, r.signedPreKeys, r.preKeys, v.bundles[addr])
    requires d.first != r.signedPreKeys[v.bundles[addr].signedPreKeyId].privateKey
    ensures GetOrCreateSession(v, addr, d).1 == Ok(s) && FirstEnds(v, addr, d, r, w, s, t)
  {
    var bundle := v.bundles[addr];
    w := SessionsMeet(v.identity.value, r.identity.value, r.signedPreKeys, r.preKeys, bundle, d.ephemeral, d.first);
    s := InitSessionAsAlice(v.identity.value, bundle, d.ephemeral, d.first).value;
    var p := s.pending.value;
    t := InitSessionAsBob(r.identity.value, r.signedPreKeys[p.signedPreKeyId].privateKey,
                          UsedPreKey(r.preKeys, p.preKeyId), v.identity.value.publicKey, p.ephemeralPub).value;
  }

  /** The two ends of a new session: `s` announces the pre-keys from which `t` is made. */
  ghost predicate FirstEnds(v: Device, addr: Address, d: Draws, r: Device, w: World, s: Session, t: Session) {
    && addr in v.bundles && v.identity.Some? && r.identity.Some?
    && v.bundles[addr].signedPreKeyId in r.signedPreKeys
    && Initial(w) && w.alice == s.ratchet && w.bob == t.ratchet
    && w.past.plan.keys == [r.signedPreKeys[v.bundles[addr].signedPreKeyId].privateKey, d.first]
    && s.pending.Some?
    && var p := s.pending.value;
       && p.signedPreKeyId in r.signedPreKeys
       && (p.preKeyId.Some? ==> p.preKeyId.value in r.preKeys)
       && InitSessionAsBob(r.identity.value, r.signedPreKeys[p.signedPreKeyId].privateKey,
                           UsedPreKey(r.preKeys, p.preKeyId), v.identity.value.publicKey, p.ephemeralPub) == Ok(t)
  }

  /** The responder's path with a session that can be made and a key that is there. */
  lemma PreKeyPath(r: Device, sender: Address, identity: Bytes, p: PendingPreKey, t: Session,
                   msg: EncryptedMessage, key: MessageKeyFor, drawn: Bytes)
    requires r.identity.Some? && p.signedPreKeyId in r.signedPreKeys
    requires p.preKeyId.Some? ==> p.preKeyId.value in r.preKeys
    requires InitSessionAsBob(r.identity.value, r.signedPreKeys[p.signedPreKeyId].privateKey,
                              UsedPreKey(r.preKeys, p.preKeyId), identity, p.ephemeralPub) == Ok(t)
    requires OurKey(msg.keys, r.deviceId) == Some(key) && |key.data| >= HEADER_SIZE
    ensures DecryptPreKeyMessage(r, sender, identity, p.ephemeralPub, p.preKeyId, p.signedPreKeyId, msg, drawn)
         == OpenWith(Registered(r, p.preKeyId, sender, identity, t), sender, t, key.data, msg, drawn)
  {
  }

  lemma MadeSession(v: Device, recipients: seq<Address>, material: Bytes, draws: seq<Draws>, k: nat)
    requires |recipients| == |draws| && DistinctDevices(recipients) && k < |recipients|
    requires EncryptAll(v, recipients, material, draws).1.Ok?
    ensures !LoadPanics(v, recipients[k])
  {
    KeysFor(v, recipients, material, draws, k);
  }

  /**
    From nothing but a published bundle: the initiator's first message, made for
    any number of distinct devices, opens at the device that published the bundle.
   */
  lemma FirstMessageTheorem(v: Device, plain: Bytes, recipients: seq<Address>, messageKey: Bytes, iv: Bytes,
                            draws: seq<Draws>, k: nat, r: Device, sender: Address, drawn: Bytes)
    requires |recipients| == |draws| && DistinctDevices(recipients) && k < |recipients|
    requires |messageKey| == 32 && |iv| == AES_NONCE_SIZE && DrawsOk(draws[k])
    requires EncryptMessage(v, plain, recipients, messageKey, iv, draws).1.Ok?
    requires r.deviceId == recipients[k].deviceId
    requires v.identity.Some? && IdentityOk(v.identity.value)
    requires FindSession(v, recipients[k]).None? && recipients[k] in v.bundles
    requires Backed(r.identity, r.signedPreKeys, r.preKeys, v.bundles[recipients[k]])
    requires var spk := r.signedPreKeys[v.bundles[recipients[k]].signedPreKeyId].privateKey;
      draws[k].first != spk && |drawn| == 32 && drawn != spk && drawn != draws[k].first
    ensures var msg := EncryptMessage(v, plain, recipients, messageKey, iv, draws).1.value;
      var s := GetOrCreateSession(v, recipients[k], draws[k]).1;
      && s.Ok? && s.value.pending.Some?
      && var p := s.value.pending.value;
         DecryptPreKeyMessage(r, sender, v.identity.value.publicKey, p.ephemeralPub, p.preKeyId,
                              p.signedPreKeyId, msg, drawn).1 == Ok(plain)
  {
    var material := KeyMaterial(messageKey, Seal(messageKey, iv, plain));
    MadeSession(v, recipients, material, draws, k);
    var w, s, t := FirstSession(v, recipients[k], draws[k], r);
    FirstOpens(w, material, draws[k].nonce, drawn);
    FindsOwnKey(v, recipients, material, draws, k);
    var msg := EncryptMessage(v, plain, recipients, messageKey, iv, draws).1.value;
    FirstRead(v, r, sender, s, t, msg, recipients[k], messageKey, plain, draws[k].nonce, drawn);
  }

  /** The responder reads a first message that carries the right key. */
  lemma FirstRead(v: Device, r: Device, sender: Address, s: Session, t: Session, msg: EncryptedMessage,
                  addr: Address, messageKey: Bytes, plain: Bytes, nonce: Bytes, drawn: Bytes)
    requires v.identity.Some? && r.identity.Some? && s.pending.Some?
    requires var p := s.pending.value;
      && p.signedPreKeyId in r.signedPreKeys
      && (p.preKeyId.Some? ==> p.preKeyId.value in r.preKeys)
      && InitSessionAsBob(r.identity.value, r.signedPreKeys[p.signedPreKeyId].privateKey,
                          UsedPreKey(r.preKeys, p.preKeyId), v.identity.value.publicKey, p.ephemeralPub) == Ok(t)
    requires |messageKey| == 32 && |msg.iv| == AES_NONCE_SIZE && msg.payload == Seal(messageKey, msg.iv, plain)[..|plain|]
    requires OurKey(msg.keys, r.deviceId).Some?
    requires var material := KeyMaterial(messageKey, Seal(messageKey, msg.iv, plain));
      && IsKeyFor(OurKey(msg.keys, r.deviceId).value, addr, s, material, nonce)
      && Opens(s.ratchet, t.ratchet, material, nonce, drawn)
    ensures var p := s.pending.value;
      DecryptPreKeyMessage(r, sender, v.identity.value.publicKey, p.ephemeralPub, p.preKeyId,
                           p.signedPreKeyId, msg, drawn).1 == Ok(plain)
  {
    var p, key := s.pending.value, OurKey(msg.keys, r.deviceId).value;
    var r2 := Registered(r, p.preKeyId, sender, v.identity.value.publicKey, t);
    OpenWithOpens(r2, sender, t, key, msg, drawn, addr, s, messageKey, plain, nonce);
    PreKeyPath(r, sender, v.identity.value.publicKey, p, t, msg, key, drawn);
  }

  /** A responder that has received nothing has no sending chain: its key material is sealed under the key of no chain. */
  lemma SealsWithoutChain(v: Device, addr: Address, s: Session, material: Bytes, d: Draws)
    requires FindSession(v, addr) == Some(s) && s.ratchet.cks.None?
    ensures var key := EncryptTo(v, addr, material, d).1;
      key.Ok? && |key.value.data| >= HEADER_SIZE
      && key.value.data[HEADER_SIZE..] == d.nonce + Seal(MessageKey([]), d.nonce, material)
  {
    var key := EncryptTo(v, addr, material, d).1;
    HeaderRoundTrip(Encrypt(s.ratchet, material, d.nonce).1);
    EncryptToMakes(v, addr, material, d);
    KeyDataParts(key.value, addr, s, material, d.nonce);
  }

  /**
    A first message without a key for the device fails, and the session it set up stays.
    The next message to that sender then carries its key under the public key of no chain.
   */
  lemma UnreadFirstMessage(v: Device, sender: Address, identity: Bytes, ephemeralPub: Bytes, usedPreKey: Option<uint32>,
                           signedPreKey: uint32, msg: EncryptedMessage, drawn: Bytes, material: Bytes, d: Draws)
    requires Answered(v, sender, identity, ephemeralPub, usedPreKey, signedPreKey).1.Ok?
    requires OurKey(msg.keys, v.deviceId).None?
    ensures var (v', r) := DecryptPreKeyMessage(v, sender, identity, ephemeralPub, usedPreKey, signedPreKey, msg, drawn);
      var key := EncryptTo(v', sender, material, d).1;
      && r == Err(InvalidMessage) && key.Ok? && |key.value.data| >= HEADER_SIZE
      && key.value.data[HEADER_SIZE..] == d.nonce + Seal(MessageKey([]), d.nonce, material)
  {
    var (v2, s) := Answered(v, sender, identity, ephemeralPub, usedPreKey, signedPreKey);
    SealsWithoutChain(v2, sender, s.value, material, d);
  }

  // ----------------------------------------------------------------------- memory and store

  datatype ManagerCall =
    | Encrypting(plain: Bytes, recipients: seq<Address>, messageKey: Bytes, iv: Bytes, draws: seq<Draws>)
    | Decrypting(sender: Address, msg: EncryptedMessage, drawn: Bytes)
    | DecryptingFirst(sender: Address, identity: Bytes, ephemeralPub: Bytes, usedPreKey: Option<uint32>,
                      signedPreKey: uint32, msg: EncryptedMessage, drawn: Bytes)
    | Processing(addr: Address, bundle: Bundle)

  datatype Reply = Sent(message: Result<EncryptedMessage>) | Read(plain: Result<Bytes>) | Done {
    predicate Success() {
      match this
      case Sent(m) => m.Ok?
      case Read(p) => p.Ok?
      case Done => true
    }
  }

  predicate CallOk(c: ManagerCall) {
    c.Encrypting? ==> |c.recipients| == |c.draws|
  }

  function Perform(v: Device, c: ManagerCall): (Device, Reply)
    requires CallOk(c)
  {
    match c
    case Encrypting(plain, recipients, messageKey, iv, draws) =>
      var (v', m) := EncryptMessage(v, plain, recipients, messageKey, iv, draws);
      (v', Sent(m))
    case Decrypting(sender, msg, drawn) =>
      var (v', p) := DecryptMessage(v, sender, msg, drawn);
      (v', Read(p))
    case DecryptingFirst(sender, identity, ephemeralPub, usedPreKey, signedPreKey, msg, drawn) =>
      var (v', p) := DecryptPreKeyMessage(v, sender, identity, ephemeralPub, usedPreKey, signedPreKey, msg, drawn);
      (v', Read(p))
    case Processing(addr, bundle) => (v.(bundles := v.bundles[addr := bundle]), Done)
  }

  /** Every session in memory is what the store loads. */
  ghost predicate Coherent(v: Device) {
    forall a :: a in v.sessions ==> a in v.saved && v.saved[a] == Ok(v.sessions[a])
  }

  /** Coherent except perhaps at one address. */
  ghost predicate CoherentBut(v: Device, addr: Address) {
    forall a :: a in v.sessions && a != addr ==> a in v.saved && v.saved[a] == Ok(v.sessions[a])
  }

  lemma GetCoherentBut(v: Device, addr: Address, d: Draws)
    requires Coherent(v)
    ensures CoherentBut(GetOrCreateSession(v, addr, d).0, addr)
  {
    var v', found := GetOrCreateSession(v, addr, d).0, GetOrCreateSession(v, addr, d).1;
    if found.Ok? {
      assert v'.sessions == v.sessions[addr := found.value] && v'.saved == v.saved;
    } else {
      assert v' == v;
    }
  }

  lemma SaveCoherent(v: Device, addr: Address, s: Session)
    requires CoherentBut(v, addr)
    ensures CoherentBut(Cache(v, addr, s), addr) && Coherent(CacheAndSave(v, addr, s))
  {
  }

  lemma EncryptToCoherent(v: Device, addr: Address, material: Bytes, d: Draws)
    requires Coherent(v) && EncryptTo(v, addr, material, d).1.Ok?
    ensures Coherent(EncryptTo(v, addr, material, d).0)
  {
    GetCoherentBut(v, addr, d);
    var (v1, found) := GetOrCreateSession(v, addr, d);
    var s := SessionEncrypt(found.value, material, d.nonce).0;
    SaveCoherent(v1, addr, s);
    SaveCoherent(Cache(v1, addr, s), addr, s);
  }

  lemma {:induction false} EncryptAllCoherent(v: Device, recipients: seq<Address>, material: Bytes, draws: seq<Draws>)
    requires Coherent(v) && |recipients| == |draws| && EncryptAll(v, recipients, material, draws).1.Ok?
    ensures Coherent(EncryptAll(v, recipients, material, draws).0)
    decreases |recipients|
  {
    if recipients == [] {
    } else {
      var n := |recipients| - 1;
      LastKey(v, recipients, material, draws);
      EncryptAllCoherent(v, recipients[..n], material, draws[..n]);
      EncryptToCoherent(EncryptAll(v, recipients[..n], material, draws[..n]).0, recipients[n], material, draws[n]);
    }
  }

  lemma OpenWithCoherent(v: Device, sender: Address, s: Session, data: Bytes, msg: EncryptedMessage, drawn: Bytes)
    requires CoherentBut(v, sender) && |data| >= HEADER_SIZE && OpenWith(v, sender, s, data, msg, drawn).1.Ok?
    ensures Coherent(OpenWith(v, sender, s, data, msg, drawn).0)
  {
  }

  lemma PerformCoherent(v: Device, c: ManagerCall)
    requires CallOk(c) && Coherent(v) && Perform(v, c).1.Success()
    ensures Coherent(Perform(v, c).0)
  {
    match c
    case Encrypting(plain, recipients, messageKey, iv, draws) =>
      EncryptAllCoherent(v, recipients, KeyMaterial(messageKey, Seal(messageKey, iv, plain)), draws);
    case Decrypting(sender, msg, drawn) =>
      PreKeyBranchFails(v, sender);
      var key := OurKey(msg.keys, v.deviceId);
      OpenWithCoherent(v, sender, FindSession(v, sender).value, key.value.data, msg, drawn);
    case DecryptingFirst(_, _, _, _, _, _, _) =>
      FirstCoherent(v, c);
    case Processing(_, _) =>
  }

  lemma FirstCoherent(v: Device, c: ManagerCall)
    requires c.DecryptingFirst? && Coherent(v) && Perform(v, c).1.Success()
    ensures Coherent(Perform(v, c).0)
  {
    var key := OurKey(c.msg.keys, v.deviceId).value;
    var s := InitSessionAsBob(v.identity.value, v.signedPreKeys[c.signedPreKey].privateKey,
                              UsedPreKey(v.preKeys, c.usedPreKey), c.identity, c.ephemeralPub).value;
    var v2 := Registered(v, c.usedPreKey, c.sender, c.identity, s);
    OpenWithCoherent(v2, c.sender, s, key.data, c.msg, c.drawn);
  }

  predicate AllCallsOk(calls: seq<ManagerCall>) {
    forall c :: c in calls ==> CallOk(c)
  }

  /** The device after the calls, and what they answered. */
  function PerformAll(v: Device, calls: seq<ManagerCall>): (Device, seq<Reply>)
    requires AllCallsOk(calls)
    decreases |calls|
  {
    if calls == [] then (v, [])
    else
      var (v1, reply) := Perform(v, calls[0]);
      var (v2, replies) := PerformAll(v1, calls[1..]);
      (v2, [reply] + replies)
  }

  /**
    After any run of only successful calls of a new manager, every cached session
    equals its stored bytes loaded.
   */
  lemma {:induction false} CoherenceTheorem(v: Device, calls: seq<ManagerCall>)
    requires Coherent(v) && AllCallsOk(calls)
    requires forall r :: r in PerformAll(v, calls).1 ==> r.Success()
    ensures Coherent(PerformAll(v, calls).0)
    decreases |calls|
  {
    if calls == [] {
    } else {
      var (v1, reply) := Perform(v, calls[0]);
      var replies := PerformAll(v1, calls[1..]).1;
      assert PerformAll(v, calls).1 == [reply] + replies;
      assert ([reply] + replies)[0] == reply;
      PerformCoherent(v, calls[0]);
      forall r | r in replies
        ensures r.Success()
      {
        assert r in [reply] + replies;
      }
      CoherenceTheorem(v1, calls[1..]);
    }
  }

  // ------------------------------------------------------------------------------ restarts

  /** A new manager on the same store. */
  function Restart(v: Device): Device {
    v.(sessions := map[], bundles := map[])
  }

  /** Two devices that nobody can tell apart by calls that stay within `known`. */
  ghost predicate Alike(v: Device, u: Device, known: set<Address>) {
    && u.identity == v.identity && u.deviceId == v.deviceId
    && u.preKeys == v.preKeys && u.signedPreKeys == v.signedPreKeys
    && forall a :: a in known ==> FindSession(v, a).Some? && FindSession(u, a) == FindSession(v, a)
  }

  predicate Within(c: ManagerCall, known: set<Address>) {
    match c
    case Encrypting(_, recipients, _, _, draws) =>
      |recipients| == |draws| && forall a :: a in recipients ==> a in known
    case Decrypting(sender, _, _) => sender in known
    case DecryptingFirst(sender, _, _, _, _, _, _) => sender in known
    case Processing(_, _) => true
  }

  lemma EncryptToAlike(v: Device, u: Device, known: set<Address>, addr: Address, material: Bytes, d: Draws)
    requires Alike(v, u, known) && addr in known
    ensures EncryptTo(u, addr, material, d).1 == EncryptTo(v, addr, material, d).1
    ensures Alike(EncryptTo(v, addr, material, d).0, EncryptTo(u, addr, material, d).0, known)
  {
    var found := FindSession(v, addr).value;
    CacheAlike(v, u, known, addr, found);
    var v1, u1 := Cache(v, addr, found), Cache(u, addr, found);
    var s := SessionEncrypt(found, material, d.nonce).0;
    CacheAlike(v1, u1, known, addr, s);
    CacheAlike(Cache(v1, addr, s), Cache(u1, addr, s), known, addr, s);
  }

  lemma {:induction false} EncryptAllAlike(
    v: Device, u: Device, known: set<Address>, recipients: seq<Address>, material: Bytes, draws: seq<Draws>)
    requires Alike(v, u, known) && |recipients| == |draws| && forall a :: a in recipients ==> a in known
    ensures EncryptAll(u, recipients, material, draws).1 == EncryptAll(v, recipients, material, draws).1
    ensures Alike(EncryptAll(v, recipients, material, draws).0, EncryptAll(u, recipients, material, draws).0, known)
    decreases |recipients|
  {
    if recipients == [] {
    } else {
      var n := |recipients| - 1;
      EncryptAllAlike(v, u, known, recipients[..n], material, draws[..n]);
      EncryptToAlike(EncryptAll(v, recipients[..n], material, draws[..n]).0,
                     EncryptAll(u, recipients[..n], material, draws[..n]).0,
                     known, recipients[n], material, draws[n]);
    }
  }

  lemma CacheAlike(v: Device, u: Device, known: set<Address>, addr: Address, s: Session)
    requires Alike(v, u, known)
    ensures Alike(Cache(v, addr, s), Cache(u, addr, s), known)
    ensures Alike(CacheAndSave(v, addr, s), CacheAndSave(u, addr, s), known)
  {
    forall a | a in known
      ensures FindSession(Cache(v, addr, s), a) == FindSession(Cache(u, addr, s), a) && FindSession(Cache(v, addr, s), a).Some?
    {
      FindCached(v, addr, s, a);
      FindCached(u, addr, s, a);
    }
    forall a | a in known
      ensures FindSession(CacheAndSave(v, addr, s), a) == FindSession(CacheAndSave(u, addr, s), a)
      ensures FindSession(CacheAndSave(v, addr, s), a).Some?
    {
      FindCached(v, addr, s, a);
      FindCached(u, addr, s, a);
    }
  }

  lemma FindCached(v: Device, addr: Address, s: Session, a: Address)
    ensures FindSession(Cache(v, addr, s), a) == if a == addr then Some(s) else FindSession(v, a)
    ensures FindSession(CacheAndSave(v, addr, s), a) == if a == addr then Some(s) else FindSession(v, a)
  {
  }

  lemma OpenWithAlike(v: Device, u: Device, known: set<Address>, sender: Address, s: Session, data: Bytes,
                      msg: EncryptedMessage, drawn: Bytes)
    requires Alike(v, u, known) && |data| >= HEADER_SIZE
    ensures OpenWith(u, sender, s, data, msg, drawn).1 == OpenWith(v, sender, s, data, msg, drawn).1
    ensures Alike(OpenWith(v, sender, s, data, msg, drawn).0, OpenWith(u, sender, s, data, msg, drawn).0, known)
  {
    var header := DecodeHeader(data[..HEADER_SIZE]);
    if header.Ok? {
      CacheAlike(v, u, known, sender, SessionDecrypt(s, header.value, data[HEADER_SIZE..], drawn).0);
    }
  }

  lemma DecryptAlike(v: Device, u: Device, known: set<Address>, sender: Address, msg: EncryptedMessage, drawn: Bytes)
    requires Alike(v, u, known) && sender in known
    ensures DecryptMessage(u, sender, msg, drawn).1 == DecryptMessage(v, sender, msg, drawn).1
    ensures Alike(DecryptMessage(v, sender, msg, drawn).0, DecryptMessage(u, sender, msg, drawn).0, known)
  {
    var key := OurKey(msg.keys, v.deviceId);
    if key.Some? && |key.value.data| >= HEADER_SIZE {
      OpenWithAlike(v, u, known, sender, FindSession(v, sender).value, key.value.data, msg, drawn);
    }
  }

  lemma RegisteredAlike(v: Device, u: Device, known: set<Address>, usedPreKey: Option<uint32>, sender: Address,
                        identity: Bytes, s: Session)
    requires Alike(v, u, known)
    ensures Alike(Registered(v, usedPreKey, sender, identity, s), Registered(u, usedPreKey, sender, identity, s), known)
  {
  }

  lemma FirstAlike(v: Device, u: Device, known: set<Address>, c: ManagerCall)
    requires c.DecryptingFirst? && Alike(v, u, known)
    ensures Perform(u, c).1 == Perform(v, c).1
    ensures Alike(Perform(v, c).0, Perform(u, c).0, known)
  {
    if v.identity.Some? && c.signedPreKey in v.signedPreKeys
       && (c.usedPreKey.Some? ==> c.usedPreKey.value in v.preKeys) {
      var s := InitSessionAsBob(v.identity.value, v.signedPreKeys[c.signedPreKey].privateKey,
                                UsedPreKey(v.preKeys, c.usedPreKey), c.identity, c.ephemeralPub);
      if s.Ok? {
        var v2 := Registered(v, c.usedPreKey, c.sender, c.identity, s.value);
        var u2 := Registered(u, c.usedPreKey, c.sender, c.identity, s.value);
        RegisteredAlike(v, u, known, c.usedPreKey, c.sender, c.identity, s.value);
        var key := OurKey(c.msg.keys, v.deviceId);
        if key.Some? && |key.value.data| >= HEADER_SIZE {
          OpenWithAlike(v2, u2, known, c.sender, s.value, key.value.data, c.msg, c.drawn);
        }
      }
    }
  }

  lemma PerformAlike(v: Device, u: Device, known: set<Address>, c: ManagerCall)
    requires CallOk(c) && Alike(v, u, known) && Within(c, known)
    ensures Perform(u, c).1 == Perform(v, c).1
    ensures Alike(Perform(v, c).0, Perform(u, c).0, known)
  {
    match c
    case Encrypting(plain, recipients, messageKey, iv, draws) =>
      EncryptAllAlike(v, u, known, recipients, KeyMaterial(messageKey, Seal(messageKey, iv, plain)), draws);
    case Decrypting(sender, msg, drawn) => DecryptAlike(v, u, known, sender, msg, drawn);
    case DecryptingFirst(_, _, _, _, _, _, _) => FirstAlike(v, u, known, c);
    case Processing(_, _) =>
  }

  lemma {:induction false} PerformAllAlike(v: Device, u: Device, known: set<Address>, calls: seq<ManagerCall>)
    requires AllCallsOk(calls) && Alike(v, u, known)
    requires forall c :: c in calls ==> Within(c, known)
    ensures PerformAll(u, calls).1 == PerformAll(v, calls).1
    decreases |calls|
  {
    if calls == [] {
    } else {
      PerformAlike(v, u, known, calls[0]);
      PerformAllAlike(Perform(v, calls[0]).0, Perform(u, calls[0]).0, known, calls[1..]);
    }
  }

  /**
    A new manager on the store of a coherent one answers every later sequence of
    calls about the cached addresses exactly as the old one would, failures included.
   */
  lemma RestartTheorem(v: Device, calls: seq<ManagerCall>)
    requires Coherent(v) && AllCallsOk(calls)
    requires forall c :: c in calls ==> Within(c, v.sessions.Keys)
    ensures PerformAll(Restart(v), calls).1 == PerformAll(v, calls).1
  {
    PerformAllAlike(v, Restart(v), v.sessions.Keys, calls);
  }
}
