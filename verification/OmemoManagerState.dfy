/**
  The manager as the source has it: an object with a cache of sessions and of
  bundles over a store of bytes. Its methods are proved against the functions on
  `Device` values.
 */
module ManagerObject {
  import opened Wrappers
  import opened Words
  import opened Octets
  import opened DoubleRatchet
  import opened RatchetCodec
  import opened RatchetKeyUse
  import opened X3dh
  import opened OmemoSession
  import opened OmemoManager
  import opened OmemoDelivery

  function Loaded(stored: map<Address, Bytes>): map<Address, Result<Session>> {
    map a | a in stored :: DecodeSession(stored[a])
  }

  /** Nothing the format could not count, even after one more refused message. */
  predicate Countable(s: Session) {
    |s.ratchet.skipped| + 1 < TWO32
  }

  lemma EncryptKeepsOk(s: Session, material: Bytes, nonce: Bytes)
    requires SessionOk(s)
    ensures SessionOk(SessionEncrypt(s, material, nonce).0)
  {
  }

  lemma DecryptKeepsOk(s: Session, header: Header, data: Bytes, drawn: Bytes)
    requires SessionOk(s) && Countable(s) && |header.dhPub| == 32 && |drawn| == 32
    ensures SessionOk(SessionDecrypt(s, header, data, drawn).0)
  {
    DecryptKeysOk(s.ratchet, header, data, drawn);
    StoreGrowth(s.ratchet, header, data, drawn);
  }

  lemma AliceOk(local: IdentityKeyPair, bundle: Bundle, d: Draws)
    requires DrawsOk(d)
    ensures var s := InitSessionAsAlice(local, bundle, d.ephemeral, d.first); s.Ok? ==> SessionOk(s.value)
  {
  }

  lemma BobOk(local: IdentityKeyPair, spk: Bytes, opk: Option<Bytes>, remoteIdentity: Bytes, ephemeralPub: Bytes)
    requires |spk| == 32
    ensures var s := InitSessionAsBob(local, spk, opk, remoteIdentity, ephemeralPub);
      s.Ok? ==> SessionOk(s.value) && Countable(s.value)
  {
  }

  /** Coherence of a device value, said of the bytes. */
  lemma CoherentBytes(v: Device, stored: map<Address, Bytes>)
    requires v.saved == Loaded(stored)
    ensures Coherent(v) <==>
      InStep(stored, v.sessions)
  {
  }

  ghost predicate InStep(stored: map<Address, Bytes>, sessions: map<Address, Session>) {
    forall a :: a in sessions ==> a in stored && DecodeSession(stored[a]) == Ok(sessions[a])
  }

  /** A successful call keeps memory and bytes in step. */
  lemma StaysInStep(v: Device, stored: map<Address, Bytes>, v': Device, stored': map<Address, Bytes>, c: ManagerCall, reply: Reply)
    requires v.saved == Loaded(stored) && v'.saved == Loaded(stored')
    requires CallOk(c) && (v', reply) == Perform(v, c) && reply.Success()
    ensures InStep(stored, v.sessions) ==> InStep(stored', v'.sessions)
  {
    CoherentBytes(v, stored);
    CoherentBytes(v', stored');
    if InStep(stored, v.sessions) {
      PerformCoherent(v, c);
    }
  }

  class Manager {
    const store: MemoryStore
    var bundles: map<Address, Bundle>
    var sessions: map<Address, Session>

    ghost function View(): Device
      reads this, store
    {
      Device(store.identityKey, store.deviceId, store.remoteKeys, store.preKeys, store.signedPreKeys,
             Loaded(store.sessions), bundles, sessions)
    }

    ghost predicate Valid()
      reads this, store
    {
      && (forall a :: a in sessions ==> SessionOk(sessions[a]))
      && (forall id :: id in store.signedPreKeys ==> |store.signedPreKeys[id].privateKey| == 32)
    }

    /** Every session in memory is what its stored bytes decode to. */
    ghost predicate BytesCoherent()
      reads this, store
    {
      InStep(store.sessions, sessions)
    }

    /** A new manager on a store starts with nothing in memory, as `Restart` says. */
    constructor (s: MemoryStore)
      ensures store == s && bundles == map[] && sessions == map[] && BytesCoherent()
    {
      store, bundles, sessions := s, map[], map[];
    }

    method ProcessBundle(addr: Address, bundle: Bundle)
      requires Valid()
      modifies this`bundles
      ensures Valid() && (View(), Done) == Perform(old(View()), Processing(addr, bundle))
      ensures old(BytesCoherent()) ==> BytesCoherent()
    {
      bundles := bundles[addr := bundle];
    }

    /** The session in memory or else from the store, which is then kept in memory; or a panic. */
    method Find(addr: Address) returns (r: Option<Session>, panics: bool)
      requires Valid()
      modifies this`sessions
      ensures Valid() && r == FindSession(old(View()), addr) && panics == LoadPanics(old(View()), addr)
      ensures View() == if r.Some? then Cache(old(View()), addr, r.value) else old(View())
      ensures r.Some? ==> SessionOk(r.value)
    {
      if addr in sessions {
        assert sessions[addr := sessions[addr]] == sessions;
        return Some(sessions[addr]), false;
      }
      if addr in store.sessions {
        DecodedSessionOk(store.sessions[addr]);
        var loaded := DecodeSession(store.sessions[addr]);
        if loaded.Ok? {
          sessions := sessions[addr := loaded.value];
          return Some(loaded.value), false;
        }
        return None, loaded.error == RuntimePanic;
      }
      r, panics := None, false;
    }

    method SaveSession(addr: Address, s: Session)
      requires SessionOk(s)
      modifies store`sessions
      ensures Loaded(store.sessions) == Loaded(old(store.sessions))[addr := Ok(s)]
    {
      var saved := new SessionState(s);
      var buf, order := saved.MarshalBinary();
      SessionRoundTrip(s, order);
      store.sessions := store.sessions[addr := buf];
    }

    method GetSession(addr: Address, d: Draws) returns (r: Result<Session>)
      requires Valid() && DrawsOk(d)
      modifies this, store`remoteKeys
      ensures Valid() && (View(), r) == GetOrCreateSession(old(View()), addr, d)
      ensures r.Ok? ==> SessionOk(r.value)
    {
      var found, panics := Find(addr);
      if found.Some? {
        return Ok(found.value);
      }
      if panics {
        return Err(RuntimePanic);
      }
      if addr !in bundles {
        return Err(NoSession);
      }
      if store.identityKey.None? {
        return Err(NoIdentity);
      }
      var bundle := bundles[addr];
      AliceOk(store.identityKey.value, bundle, d);
      r := InitSessionAsAlice(store.identityKey.value, bundle, d.ephemeral, d.first);
      if r.Ok? {
        store.remoteKeys := store.remoteKeys[addr := bundle.identityKey];
        bundles := bundles[addr := DropPreKey(bundle)];
        sessions := sessions[addr := r.value];
      }
    }

    method EncryptFor(addr: Address, material: Bytes, d: Draws) returns (r: Result<MessageKeyFor>)
      requires Valid() && DrawsOk(d)
      modifies this, store`remoteKeys, store`sessions
      ensures Valid() && (View(), r) == EncryptTo(old(View()), addr, material, d)
    {
      var found := GetSession(addr, d);
      if found.Err? {
        return Err(found.error);
      }
      EncryptKeepsOk(found.value, material, d.nonce);
      var (s, header, ct, isPreKey) := SessionEncrypt(found.value, material, d.nonce);
      sessions := sessions[addr := s];
      var h := EncodeHeader(header);
      assert h.Ok?;
      SaveSession(addr, s);
      assert sessions[addr := s] == sessions;
      r := Ok(MessageKeyFor(addr.deviceId, h.value + ct, isPreKey));
    }

    method Encrypt(plain: Bytes, recipients: seq<Address>, messageKey: Bytes, iv: Bytes, draws: seq<Draws>)
      returns (r: Result<EncryptedMessage>)
      requires Valid() && |recipients| == |draws| && forall d :: d in draws ==> DrawsOk(d)
      modifies this, store`remoteKeys, store`sessions
      ensures Valid() && (View(), r) == EncryptMessage(old(View()), plain, recipients, messageKey, iv, draws)
      ensures old(BytesCoherent()) && r.Ok? ==> BytesCoherent()
    {
      var sealed := Seal(messageKey, iv, plain);
      var material := KeyMaterial(messageKey, sealed);
      var keys: seq<MessageKeyFor> := [];
      ghost var v := View();
      for i := 0 to |recipients|
        invariant Valid()
        invariant (View(), Ok(keys)) == EncryptAll(v, recipients[..i], material, draws[..i])
        invariant store.deviceId == old(store.deviceId)
      {
        var key := EncryptFor(recipients[i], material, draws[i]);
        AllNext(v, recipients, material, draws, i);
        if key.Err? {
          AllStops(v, recipients, material, draws, i + 1);
          return Err(key.error);
        }
        keys := keys + [key.value];
      }
      assert recipients[..|recipients|] == recipients && draws[..|recipients|] == draws;
      r := Ok(EncryptedMessage(store.deviceId, keys, iv, sealed[..|plain|]));
      StaysInStep(old(View()), old(store.sessions), View(), store.sessions,
                    Encrypting(plain, recipients, messageKey, iv, draws), Sent(r));
    }

    method FindOurKey(keys: seq<MessageKeyFor>) returns (r: Option<MessageKeyFor>)
      ensures r == OurKey(keys, store.deviceId)
    {
      for i := 0 to |keys|
        invariant OurKey(keys, store.deviceId) == OurKey(keys[i..], store.deviceId)
      {
        assert keys[i..][1..] == keys[i + 1..];
        if keys[i].deviceId == store.deviceId {
          return Some(keys[i]);
        }
      }
      r := None;
    }

    method Open(sender: Address, s: Session, data: Bytes, msg: EncryptedMessage, drawn: Bytes)
      returns (r: Result<Bytes>)
      requires Valid() && SessionOk(s) && Countable(s) && |drawn| == 32 && |data| >= HEADER_SIZE
      modifies this`sessions, store`sessions
      ensures Valid() && (View(), r) == OpenWith(old(View()), sender, s, data, msg, drawn)
    {
      var header := DecodeHeader(data[..HEADER_SIZE]);
      assert header.Ok?;
      DecryptKeepsOk(s, header.value, data[HEADER_SIZE..], drawn);
      var (s', material) := SessionDecrypt(s, header.value, data[HEADER_SIZE..], drawn);
      sessions := sessions[sender := s'];
      if material.Err? {
        return Err(material.error);
      }
      r := OpenPayload(material.value, msg.iv, msg.payload);
      if r.Ok? {
        SaveSession(sender, s');
      }
    }

    method Decrypt(sender: Address, msg: EncryptedMessage, drawn: Bytes) returns (r: Result<Bytes>)
      requires Valid() && |drawn| == 32
      requires FindSession(View(), sender).Some? ==> Countable(FindSession(View(), sender).value)
      modifies this`sessions, store`sessions
      ensures Valid() && (View(), r) == DecryptMessage(old(View()), sender, msg, drawn)
      ensures old(BytesCoherent()) && r.Ok? ==> BytesCoherent()
    {
      var key := FindOurKey(msg.keys);
      if key.None? || |key.value.data| < HEADER_SIZE {
        return Err(InvalidMessage);
      }
      var found, panics := Find(sender);
      if found.Some? {
        r := Open(sender, found.value, key.value.data, msg, drawn);
        CachedFirst(old(View()), sender, found.value, key.value.data, msg, drawn);
        if r.Ok? {
          StaysInStep(old(View()), old(store.sessions), View(), store.sessions,
                    Decrypting(sender, msg, drawn), Read(r));
        }
        return;
      }
      if panics {
        return Err(RuntimePanic);
      }
      if !key.value.isPreKey {
        return Err(NoSession);
      }
      ghost var v := View();
      PreKeyBranchFails(v, sender);
      if sender !in bundles {
        return Err(NoSession);
      }
      if store.identityKey.None? {
        return Err(NoIdentity);
      }
      var bundle := bundles[sender];
      if bundle.signedPreKeyId !in store.signedPreKeys {
        return Err(NoPreKey);
      }
      var spk := store.signedPreKeys[bundle.signedPreKeyId].privateKey;
      var s := InitSessionAsBob(store.identityKey.value, spk, None, bundle.identityKey, []);
      r := Err(s.error);
    }

    /** A new session as responder; a one-time pre-key is removed before it is tried. */
    method Answer(sender: Address, senderIdentity: Bytes, ephemeralPub: Bytes, usedPreKey: Option<uint32>,
                  signedPreKey: uint32) returns (r: Result<Session>)
      requires Valid()
      modifies this`sessions, store`remoteKeys, store`preKeys
      ensures Valid()
      ensures (View(), r) == Answered(old(View()), sender, senderIdentity, ephemeralPub, usedPreKey, signedPreKey)
      ensures r.Ok? ==> SessionOk(r.value) && Countable(r.value)
    {
      if store.identityKey.None? {
        return Err(NoIdentity);
      }
      if signedPreKey !in store.signedPreKeys {
        return Err(NoPreKey);
      }
      var spk := store.signedPreKeys[signedPreKey].privateKey;
      var opk: Option<Bytes> := None;
      if usedPreKey.Some? {
        if usedPreKey.value !in store.preKeys {
          return Err(NoPreKey);
        }
        opk := Some(store.preKeys[usedPreKey.value].privateKey);
        store.preKeys := store.preKeys - {usedPreKey.value};
      }
      BobOk(store.identityKey.value, spk, opk, senderIdentity, ephemeralPub);
      r := InitSessionAsBob(store.identityKey.value, spk, opk, senderIdentity, ephemeralPub);
      if r.Ok? {
        store.remoteKeys := store.remoteKeys[sender := senderIdentity];
        sessions := sessions[sender := r.value];
      }
    }

    method DecryptFirst(sender: Address, senderIdentity: Bytes, ephemeralPub: Bytes, usedPreKey: Option<uint32>,
                        signedPreKey: uint32, msg: EncryptedMessage, drawn: Bytes) returns (r: Result<Bytes>)
      requires Valid() && |drawn| == 32
      modifies this`sessions, store`remoteKeys, store`preKeys, store`sessions
      ensures Valid()
      ensures (View(), r)
           == DecryptPreKeyMessage(old(View()), sender, senderIdentity, ephemeralPub, usedPreKey, signedPreKey, msg, drawn)
      ensures old(BytesCoherent()) && r.Ok? ==> BytesCoherent()
    {
      var s := Answer(sender, senderIdentity, ephemeralPub, usedPreKey, signedPreKey);
      if s.Err? {
        return Err(s.error);
      }
      var key := FindOurKey(msg.keys);
      if key.None? || |key.value.data| < HEADER_SIZE {
        return Err(InvalidMessage);
      }
      r := Open(sender, s.value, key.value.data, msg, drawn);
      if r.Ok? {
        StaysInStep(old(View()), old(store.sessions), View(), store.sessions,
                    DecryptingFirst(sender, senderIdentity, ephemeralPub, usedPreKey, signedPreKey, msg, drawn), Read(r));
      }
    }
  }

  /** Loading a session first does not change what opening with it does. */
  lemma CachedFirst(v: Device, sender: Address, s: Session, data: Bytes, msg: EncryptedMessage, drawn: Bytes)
    requires |data| >= HEADER_SIZE
    ensures OpenWith(Cache(v, sender, s), sender, s, data, msg, drawn) == OpenWith(v, sender, s, data, msg, drawn)
  {
    var header := DecodeHeader(data[..HEADER_SIZE]).value;
    CacheTwice(v, sender, s, SessionDecrypt(s, header, data[HEADER_SIZE..], drawn).0);
  }

  lemma CacheTwice(v: Device, addr: Address, s: Session, s': Session)
    ensures Cache(Cache(v, addr, s), addr, s') == Cache(v, addr, s')
    ensures CacheAndSave(Cache(v, addr, s), addr, s') == CacheAndSave(v, addr, s')
  {
    assert v.sessions[addr := s][addr := s'] == v.sessions[addr := s'];
  }

  lemma AllNext(v: Device, recipients: seq<Address>, material: Bytes, draws: seq<Draws>, i: nat)
    requires |recipients| == |draws| && i < |recipients|
    ensures EncryptAll(v, recipients[..i + 1], material, draws[..i + 1])
         == var (v1, keys) := EncryptAll(v, recipients[..i], material, draws[..i]);
            if keys.Err? then (v1, keys)
            else
              var (v2, key) := EncryptTo(v1, recipients[i], material, draws[i]);
              if key.Err? then (v2, Err(key.error)) else (v2, Ok(keys.value + [key.value]))
  {
    assert recipients[..i + 1][..i] == recipients[..i] && draws[..i + 1][..i] == draws[..i];
  }

  /** A failure for one recipient is the result of the whole call. */
  lemma {:induction false} AllStops(v: Device, recipients: seq<Address>, material: Bytes, draws: seq<Draws>, i: nat)
    requires |recipients| == |draws| && i <= |recipients|
    requires EncryptAll(v, recipients[..i], material, draws[..i]).1.Err?
    ensures EncryptAll(v, recipients, material, draws) == EncryptAll(v, recipients[..i], material, draws[..i])
    decreases |recipients| - i
  {
    if i == |recipients| {
      assert recipients[..i] == recipients && draws[..i] == draws;
    } else {
      AllNext(v, recipients, material, draws, i);
      AllStops(v, recipients, material, draws, i + 1);
    }
  }
}
