/**
  The device-level API: crypto/omemo/manager.go over crypto/omemo/memory_store.go.

  `Device` is the value of a manager together with its store. Stored sessions
  appear in it as what their bytes load to, so the order in which a save happens to
  write skipped keys does not show. The functions give every outcome of a call,
  including what a failed call leaves behind; the class below refines them.
 */
module OmemoManager {
  import opened Wrappers
  import opened Words
  import opened Octets
  import opened RatchetCodec
  import opened X3dh
  import opened OmemoSession

  datatype MessageKeyFor = MessageKeyFor(deviceId: uint32, data: Bytes, isPreKey: bool)

  datatype EncryptedMessage = EncryptedMessage(
    senderDeviceId: uint32, keys: seq<MessageKeyFor>, iv: Bytes, payload: Bytes)

  datatype Device = Device(
    identity: Option<IdentityKeyPair>,
    deviceId: uint32,
    remoteKeys: map<Address, Bytes>,
    preKeys: map<uint32, PreKeyRecord>,
    signedPreKeys: map<uint32, SignedPreKeyRecord>,
    saved: map<Address, Result<Session>>,
    bundles: map<Address, Bundle>,
    sessions: map<Address, Session>)

  /** What is drawn at random for one recipient. */
  datatype Draws = Draws(nonce: Bytes, ephemeral: Bytes, first: Bytes)

  predicate DrawsOk(d: Draws) {
    |d.nonce| == AES_NONCE_SIZE && |d.ephemeral| == 32 && |d.first| == 32
  }

  // --------------------------------------------------------------------------- sessions

  /** The session in memory, or else the one that loads from the store. */
  function FindSession(v: Device, addr: Address): Option<Session> {
    if addr in v.sessions then Some(v.sessions[addr])
    else if addr in v.saved && v.saved[addr].Ok? then Some(v.saved[addr].value)
    else None
  }

  /** There is no session in memory, and loading the stored one panics. */
  predicate LoadPanics(v: Device, addr: Address) {
    addr !in v.sessions && addr in v.saved && v.saved[addr] == Err(RuntimePanic)
  }

  function Cache(v: Device, addr: Address, s: Session): Device {
    v.(sessions := v.sessions[addr := s])
  }

  function CacheAndSave(v: Device, addr: Address, s: Session): Device {
    v.(sessions := v.sessions[addr := s], saved := v.saved[addr := Ok(s)])
  }

  function DropPreKey(b: Bundle): Bundle {
    if b.preKeys == [] then b else b.(preKeys := b.preKeys[1..])
  }

  function GetOrCreateSession(v: Device, addr: Address, d: Draws): (Device, Result<Session>) {
    var found := FindSession(v, addr);
    if found.Some? then (Cache(v, addr, found.value), Ok(found.value))
    else if LoadPanics(v, addr) then (v, Err(RuntimePanic))
    else if addr !in v.bundles then (v, Err(NoSession))
    else if v.identity.None? then (v, Err(NoIdentity))
    else
      var bundle := v.bundles[addr];
      match InitSessionAsAlice(v.identity.value, bundle, d.ephemeral, d.first)
      case Err(e) => (v, Err(e))
      case Ok(s) =>
        (Cache(v.(remoteKeys := v.remoteKeys[addr := bundle.identityKey],
                  bundles := v.bundles[addr := DropPreKey(bundle)]), addr, s), Ok(s))
  }

  /** The pre-key branch of plain decryption: there is no ephemeral key to agree with. */
  function SessionFromPreKey(v: Device, sender: Address): Result<Session> {
    if sender !in v.bundles then Err(NoSession)
    else if v.identity.None? then Err(NoIdentity)
    else if v.bundles[sender].signedPreKeyId !in v.signedPreKeys then Err(NoPreKey)
    else InitSessionAsBob(v.identity.value, v.signedPreKeys[v.bundles[sender].signedPreKeyId].privateKey,
                          None, v.bundles[sender].identityKey, [])
  }

  // -------------------------------------------------------------------------- encryption

  function EncryptTo(v: Device, addr: Address, material: Bytes, d: Draws): (Device, Result<MessageKeyFor>) {
    var (v1, found) := GetOrCreateSession(v, addr, d);
    if found.Err? then (v1, Err(found.error))
    else
      var (s, header, ct, isPreKey) := SessionEncrypt(found.value, material, d.nonce);
      var v2 := Cache(v1, addr, s);
      match EncodeHeader(header)
      case Err(e) => (v2, Err(e))
      case Ok(h) => (CacheAndSave(v2, addr, s), Ok(MessageKeyFor(addr.deviceId, h + ct, isPreKey)))
  }

  /** One recipient after the other; the first failure ends the call. */
  function EncryptAll(v: Device, recipients: seq<Address>, material: Bytes, draws: seq<Draws>)
    : (Device, Result<seq<MessageKeyFor>>)
    requires |recipients| == |draws|
  {
    if recipients == [] then (v, Ok([]))
    else
      var n := |recipients| - 1;
      var (v1, keys) := EncryptAll(v, recipients[..n], material, draws[..n]);
      if keys.Err? then (v1, keys)
      else
        var (v2, key) := EncryptTo(v1, recipients[n], material, draws[n]);
        if key.Err? then (v2, Err(key.error)) else (v2, Ok(keys.value + [key.value]))
  }

  /** The 16 octets after the ciphertext travel with the key, not with the payload. */
  function KeyMaterial(messageKey: Bytes, sealed: Bytes): Bytes
    requires |sealed| >= AES_TAG_SIZE
  {
    messageKey + sealed[|sealed| - AES_TAG_SIZE..]
  }

  function EncryptMessage(v: Device, plain: Bytes, recipients: seq<Address>,
                          messageKey: Bytes, iv: Bytes, draws: seq<Draws>): (Device, Result<EncryptedMessage>)
    requires |recipients| == |draws|
  {
    var sealed := Seal(messageKey, iv, plain);
    var (v1, keys) := EncryptAll(v, recipients, KeyMaterial(messageKey, sealed), draws);
    if keys.Err? then (v1, Err(keys.error))
    else (v1, Ok(EncryptedMessage(v.deviceId, keys.value, iv, sealed[..|plain|])))
  }

  // -------------------------------------------------------------------------- decryption

  /** The first key addressed to the device. */
  function OurKey(keys: seq<MessageKeyFor>, deviceId: uint32): Option<MessageKeyFor> {
    if keys == [] then None
    else if keys[0].deviceId == deviceId then Some(keys[0])
    else OurKey(keys[1..], deviceId)
  }

  function OpenPayload(material: Bytes, iv: Bytes, payload: Bytes): Result<Bytes> {
    if |material| != 48 then Err(InvalidMessage)
    else AesGcmDecrypt(material[..32], iv, payload + material[32..])
  }

  /** Ratchet and payload, with the session already chosen. */
  function OpenWith(v: Device, sender: Address, s: Session, data: Bytes, msg: EncryptedMessage, drawn: Bytes)
    : (Device, Result<Bytes>)
    requires |data| >= HEADER_SIZE
  {
    match DecodeHeader(data[..HEADER_SIZE])
    case Err(e) => (v, Err(e))
    case Ok(header) =>
      var (s', material) := SessionDecrypt(s, header, data[HEADER_SIZE..], drawn);
      var v1 := Cache(v, sender, s');
      if material.Err? then (v1, Err(material.error))
      else
        var plain := OpenPayload(material.value, msg.iv, msg.payload);
        if plain.Err? then (v1, plain) else (CacheAndSave(v, sender, s'), plain)
  }

  function DecryptMessage(v: Device, sender: Address, msg: EncryptedMessage, drawn: Bytes): (Device, Result<Bytes>) {
    var key := OurKey(msg.keys, v.deviceId);
    if key.None? || |key.value.data| < HEADER_SIZE then (v, Err(InvalidMessage))
    else
      var found := FindSession(v, sender);
      if found.Some? then OpenWith(v, sender, found.value, key.value.data, msg, drawn)
      else if LoadPanics(v, sender) then (v, Err(RuntimePanic))
      else if !key.value.isPreKey then (v, Err(NoSession))
      else
        match SessionFromPreKey(v, sender)
        case Err(e) => (v, Err(e))
        case Ok(s) =>
          var v1 := v.(remoteKeys := v.remoteKeys[sender := v.bundles[sender].identityKey]);
          OpenWith(v1, sender, s, key.value.data, msg, drawn)
  }

  /** A one-time pre-key is removed before the agreement is tried. */
  function Consumed(v: Device, usedPreKey: Option<uint32>): Device {
    if usedPreKey.Some? then v.(preKeys := v.preKeys - {usedPreKey.value}) else v
  }

  function Registered(v: Device, usedPreKey: Option<uint32>, sender: Address, identity: Bytes, s: Session): Device {
    var v1 := Consumed(v, usedPreKey);
    Cache(v1.(remoteKeys := v1.remoteKeys[sender := identity]), sender, s)
  }

  /** A new session as responder, from the pre-keys that a first message names. */
  function Answered(v: Device, sender: Address, senderIdentity: Bytes, ephemeralPub: Bytes,
                    usedPreKey: Option<uint32>, signedPreKey: uint32): (Device, Result<Session>)
  {
    if v.identity.None? then (v, Err(NoIdentity))
    else if signedPreKey !in v.signedPreKeys then (v, Err(NoPreKey))
    else if usedPreKey.Some? && usedPreKey.value !in v.preKeys then (v, Err(NoPreKey))
    else
      match InitSessionAsBob(v.identity.value, v.signedPreKeys[signedPreKey].privateKey,
                             UsedPreKey(v.preKeys, usedPreKey), senderIdentity, ephemeralPub)
      case Err(e) => (Consumed(v, usedPreKey), Err(e))
      case Ok(s) => (Registered(v, usedPreKey, sender, senderIdentity, s), Ok(s))
  }

  /** The responder's first message: a new session, and the message opened with it. */
  function DecryptPreKeyMessage(v: Device, sender: Address, senderIdentity: Bytes, ephemeralPub: Bytes,
                                usedPreKey: Option<uint32>, signedPreKey: uint32,
                                msg: EncryptedMessage, drawn: Bytes): (Device, Result<Bytes>)
  {
    var (v2, s) := Answered(v, sender, senderIdentity, ephemeralPub, usedPreKey, signedPreKey);
    if s.Err? then (v2, Err(s.error))
    else
      var key := OurKey(msg.keys, v.deviceId);
      if key.None? || |key.value.data| < HEADER_SIZE then (v2, Err(InvalidMessage))
      else OpenWith(v2, sender, s.value, key.value.data, msg, drawn)
  }

  /** Plain decryption never creates a session. */
  lemma PreKeyBranchFails(v: Device, sender: Address)
    ensures SessionFromPreKey(v, sender).Err?
  {
  }
}
