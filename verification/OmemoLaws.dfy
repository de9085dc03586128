/**
  What every sequence of calls of one manager keeps: where its sessions come from, what
  becomes of its one-time pre-keys, and what a failed call leaves in the store.
 */
module OmemoLaws {
  import opened Wrappers
  import opened Words
  import opened Octets
  import opened DoubleRatchet
  import opened RatchetCodec
  import opened X3dh
  import opened OmemoSession
  import opened OmemoManager
  import opened OmemoDelivery

  // ------------------------------------------------------------------------- what never changes

  /** `u` has the identity, the device id and the signed pre-keys of `v`. */
  predicate SameOwner(v: Device, u: Device) {
    u.identity == v.identity && u.deviceId == v.deviceId && u.signedPreKeys == v.signedPreKeys
  }

  /** `u` has the owner and the one-time pre-keys of `v`. */
  predicate SameKeys(v: Device, u: Device) {
    SameOwner(v, u) && u.preKeys == v.preKeys
  }

  lemma GetKeys(v: Device, addr: Address, d: Draws)
    ensures SameKeys(v, GetOrCreateSession(v, addr, d).0)
  {
  }

  lemma EncryptToKeys(v: Device, addr: Address, material: Bytes, d: Draws)
    ensures SameKeys(v, EncryptTo(v, addr, material, d).0)
  {
    GetKeys(v, addr, d);
  }

  lemma {:induction false} EncryptAllKeys(v: Device, recipients: seq<Address>, material: Bytes, draws: seq<Draws>)
    requires |recipients| == |draws|
    ensures SameKeys(v, EncryptAll(v, recipients, material, draws).0)
    decreases |recipients|
  {
    if recipients == [] {
    } else {
      var n := |recipients| - 1;
      EncryptAllKeys(v, recipients[..n], material, draws[..n]);
      EncryptToKeys(EncryptAll(v, recipients[..n], material, draws[..n]).0, recipients[n], material, draws[n]);
    }
  }

  lemma OpenWithKeys(v: Device, sender: Address, s: Session, data: Bytes, msg: EncryptedMessage, drawn: Bytes)
    requires |data| >= HEADER_SIZE
    ensures SameKeys(v, OpenWith(v, sender, s, data, msg, drawn).0)
  {
    var header := DecodeHeader(data[..HEADER_SIZE]);
    if header.Ok? {
      CacheKeys(v, sender, SessionDecrypt(s, header.value, data[HEADER_SIZE..], drawn).0);
    }
  }

  lemma CacheKeys(v: Device, addr: Address, s: Session)
    ensures SameKeys(v, Cache(v, addr, s)) && SameKeys(v, CacheAndSave(v, addr, s))
  {
  }

  lemma DecryptKeys(v: Device, sender: Address, msg: EncryptedMessage, drawn: Bytes)
    ensures SameKeys(v, DecryptMessage(v, sender, msg, drawn).0)
  {
    var key, found := OurKey(msg.keys, v.deviceId), FindSession(v, sender);
    PreKeyBranchFails(v, sender);
    if key.Some? && |key.value.data| >= HEADER_SIZE && found.Some? {
      OpenWithKeys(v, sender, found.value, key.value.data, msg, drawn);
    }
  }

  // --------------------------------------------------------------------------- one-time pre-keys

  /** A first message that names the pre-key `id`, at a device that has what else it names. */
  predicate Uses(v: Device, c: ManagerCall, id: uint32) {
    c.DecryptingFirst? && c.usedPreKey == Some(id) && v.identity.Some? && c.signedPreKey in v.signedPreKeys
  }

  lemma AnsweredKeys(v: Device, sender: Address, identity: Bytes, ephemeralPub: Bytes, usedPreKey: Option<uint32>,
                     signedPreKey: uint32, id: uint32)
    ensures var u := Answered(v, sender, identity, ephemeralPub, usedPreKey, signedPreKey).0;
      && SameOwner(v, u)
      && (id in u.preKeys <==>
            id in v.preKeys && !(usedPreKey == Some(id) && v.identity.Some? && signedPreKey in v.signedPreKeys))
      && (id in u.preKeys ==> u.preKeys[id] == v.preKeys[id])
  {
  }

  lemma FirstKeys(v: Device, c: ManagerCall, id: uint32)
    requires c.DecryptingFirst?
    ensures SameOwner(v, Perform(v, c).0)
    ensures id in Perform(v, c).0.preKeys <==> id in v.preKeys && !Uses(v, c, id)
    ensures id in Perform(v, c).0.preKeys ==> Perform(v, c).0.preKeys[id] == v.preKeys[id]
  {
    var (u, s) := Answered(v, c.sender, c.identity, c.ephemeralPub, c.usedPreKey, c.signedPreKey);
    AnsweredKeys(v, c.sender, c.identity, c.ephemeralPub, c.usedPreKey, c.signedPreKey, id);
    var key := OurKey(c.msg.keys, v.deviceId);
    if s.Ok? && key.Some? && |key.value.data| >= HEADER_SIZE {
      OpenWithKeys(u, c.sender, s.value, key.value.data, c.msg, c.drawn);
    }
  }

  /** One call: the owner stays, and a pre-key goes exactly when the call uses it. */
  lemma CallKeys(v: Device, c: ManagerCall, id: uint32)
    requires CallOk(c)
    ensures SameOwner(v, Perform(v, c).0)
    ensures id in Perform(v, c).0.preKeys <==> id in v.preKeys && !Uses(v, c, id)
    ensures id in Perform(v, c).0.preKeys ==> Perform(v, c).0.preKeys[id] == v.preKeys[id]
  {
    match c
    case Encrypting(plain, recipients, messageKey, iv, draws) =>
      EncryptAllKeys(v, recipients, KeyMaterial(messageKey, Seal(messageKey, iv, plain)), draws);
    case Decrypting(sender, msg, drawn) => DecryptKeys(v, sender, msg, drawn);
    case DecryptingFirst(_, _, _, _, _, _, _) => FirstKeys(v, c, id);
    case Processing(_, _) =>
  }

  lemma UsesSame(v: Device, u: Device, c: ManagerCall, id: uint32)
    requires SameOwner(v, u)
    ensures Uses(u, c, id) <==> Uses(v, c, id)
  {
  }

  /** No call of the sequence uses the pre-key. */
  predicate NoneUses(v: Device, calls: seq<ManagerCall>, id: uint32) {
    forall i :: 0 <= i < |calls| ==> !Uses(v, calls[i], id)
  }

  lemma NoneUsesFirst(v: Device, u: Device, calls: seq<ManagerCall>, id: uint32)
    requires calls != [] && SameOwner(v, u)
    ensures NoneUses(v, calls, id) <==> !Uses(v, calls[0], id) && NoneUses(u, calls[1..], id)
  {
    forall i | 0 <= i < |calls|
      ensures Uses(u, calls[i], id) <==> Uses(v, calls[i], id)
    {
      UsesSame(v, u, calls[i], id);
    }
    assert forall i :: 0 < i < |calls| ==> calls[1..][i - 1] == calls[i];
  }

  /**
    Over every sequence of calls, successful or not: a one-time pre-key is there afterwards,
    unchanged, exactly when it was there before and no call used it.
   */
  lemma {:induction false} PreKeyTheorem(v: Device, calls: seq<ManagerCall>, id: uint32)
    requires AllCallsOk(calls)
    ensures SameOwner(v, PerformAll(v, calls).0)
    ensures id in PerformAll(v, calls).0.preKeys <==> id in v.preKeys && NoneUses(v, calls, id)
    ensures id in PerformAll(v, calls).0.preKeys ==> PerformAll(v, calls).0.preKeys[id] == v.preKeys[id]
    decreases |calls|
  {
    if calls == [] {
    } else {
      var u := Perform(v, calls[0]).0;
      CallKeys(v, calls[0], id);
      PreKeyTheorem(u, calls[1..], id);
      NoneUsesFirst(v, u, calls, id);
    }
  }

  lemma {:induction false} ReplyAt(v: Device, calls: seq<ManagerCall>, j: nat)
    requires AllCallsOk(calls) && j < |calls|
    ensures |PerformAll(v, calls).1| == |calls| && AllCallsOk(calls[..j])
    ensures PerformAll(v, calls).1[j] == Perform(PerformAll(v, calls[..j]).0, calls[j]).1
    decreases j
  {
    ReplyCount(v, calls);
    if j == 0 {
    } else {
      var u := Perform(v, calls[0]).0;
      ReplyAt(u, calls[1..], j - 1);
      assert calls[..j][1..] == calls[1..][..j - 1];
    }
  }

  lemma {:induction false} ReplyCount(v: Device, calls: seq<ManagerCall>)
    requires AllCallsOk(calls)
    ensures |PerformAll(v, calls).1| == |calls|
    decreases |calls|
  {
    if calls == [] {
    } else {
      ReplyCount(Perform(v, calls[0]).0, calls[1..]);
    }
  }

  // the error of a missing pre-key comes from nowhere else

  lemma RatchetError(s: Ratchet, header: Header, data: Bytes, drawn: Bytes)
    ensures Decrypt(s, header, data, drawn).1 != Err(NoPreKey)
  {
  }

  lemma OpenError(v: Device, sender: Address, s: Session, data: Bytes, msg: EncryptedMessage, drawn: Bytes)
    requires |data| >= HEADER_SIZE
    ensures OpenWith(v, sender, s, data, msg, drawn).1 != Err(NoPreKey)
  {
    var header := DecodeHeader(data[..HEADER_SIZE]);
    if header.Ok? {
      RatchetError(s.ratchet, header.value, data[HEADER_SIZE..], drawn);
    }
  }

  lemma AgreementError(local: IdentityKeyPair, spk: Bytes, opk: Option<Bytes>, identity: Bytes, ephemeralPub: Bytes)
    ensures InitSessionAsBob(local, spk, opk, identity, ephemeralPub) != Err(NoPreKey)
  {
  }

  lemma LookupAnswer(v: Device, c: ManagerCall, id: uint32)
    requires Uses(v, c, id)
    ensures Perform(v, c).1 == Read(Err(NoPreKey)) <==> id !in v.preKeys
  {
    if id in v.preKeys {
      var opk := UsedPreKey(v.preKeys, c.usedPreKey);
      AgreementError(v.identity.value, v.signedPreKeys[c.signedPreKey].privateKey, opk, c.identity, c.ephemeralPub);
      var (u, s) := Answered(v, c.sender, c.identity, c.ephemeralPub, c.usedPreKey, c.signedPreKey);
      var key := OurKey(c.msg.keys, v.deviceId);
      if s.Ok? && key.Some? && |key.value.data| >= HEADER_SIZE {
        OpenError(u, c.sender, s.value, key.value.data, c.msg, c.drawn);
      }
    }
  }

  /**
    Over every sequence of calls, a first message that names a one-time pre-key is refused
    for want of it exactly when the key was not there at the start or an earlier call used
    it, whether that call succeeded or not. So each key serves one call at most.
   */
  lemma OnceTheorem(v: Device, calls: seq<ManagerCall>, j: nat, id: uint32)
    requires AllCallsOk(calls) && j < |calls| && Uses(v, calls[j], id)
    ensures |PerformAll(v, calls).1| == |calls|
    ensures PerformAll(v, calls).1[j] == Read(Err(NoPreKey)) <==>
      id !in v.preKeys || exists i :: 0 <= i < j && Uses(v, calls[i], id)
  {
    ReplyAt(v, calls, j);
    PreKeyTheorem(v, calls[..j], id);
    var u := PerformAll(v, calls[..j]).0;
    UsesSame(v, u, calls[j], id);
    LookupAnswer(u, calls[j], id);
    assert forall i :: 0 <= i < j ==> calls[..j][i] == calls[i];
  }

  // ------------------------------------------------------------------ where sessions come from

  /** The call vouches for `identity` at an address: a properly signed bundle, or a first message from there. */
  ghost predicate Vouches(c: ManagerCall, addr: Address, identity: Bytes) {
    match c
    case Processing(a, bundle) => a == addr && bundle.identityKey == identity && ProperlySigned(bundle)
    case DecryptingFirst(sender, key, _, _, _, _, _) => sender == addr && key == identity
    case _ => false
  }

  ghost predicate Vouched(calls: seq<ManagerCall>, addr: Address, identity: Bytes) {
    exists i :: 0 <= i < |calls| && Vouches(calls[i], addr, identity)
  }

  /** The bundles that are properly signed were announced. */
  ghost predicate BundlesVouched(v: Device, calls: seq<ManagerCall>) {
    forall a :: a in v.bundles && ProperlySigned(v.bundles[a]) ==> Vouched(calls, a, v.bundles[a].identityKey)
  }

  /** Every session is with an identity that was vouched for, which is also the recorded one, and what is stored is in memory. */
  ghost predicate SessionsVouched(v: Device, calls: seq<ManagerCall>) {
    && (forall a :: a in v.sessions ==>
          && Vouched(calls, a, v.sessions[a].remoteIdentity)
          && a in v.remoteKeys && v.remoteKeys[a] == v.sessions[a].remoteIdentity)
    && (forall a :: a in v.saved ==> a in v.sessions)
  }

  ghost predicate AllVouched(v: Device, calls: seq<ManagerCall>) {
    BundlesVouched(v, calls) && SessionsVouched(v, calls)
  }

  lemma CacheVouched(v: Device, calls: seq<ManagerCall>, addr: Address, s: Session)
    requires AllVouched(v, calls) && Vouched(calls, addr, s.remoteIdentity)
    requires addr in v.remoteKeys && v.remoteKeys[addr] == s.remoteIdentity
    ensures AllVouched(Cache(v, addr, s), calls) && AllVouched(CacheAndSave(v, addr, s), calls)
  {
  }

  lemma DropKeepsSigned(b: Bundle)
    ensures ProperlySigned(DropPreKey(b)) <==> ProperlySigned(b)
  {
  }

  lemma MadeVouched(v: Device, calls: seq<ManagerCall>, addr: Address, bundle: Bundle, s: Session)
    requires AllVouched(v, calls) && addr in v.bundles && bundle == v.bundles[addr] && ProperlySigned(bundle)
    requires s.remoteIdentity == bundle.identityKey
    ensures AllVouched(Cache(v.(remoteKeys := v.remoteKeys[addr := bundle.identityKey],
                                bundles := v.bundles[addr := DropPreKey(bundle)]), addr, s), calls)
  {
    DropKeepsSigned(bundle);
  }

  lemma FoundVouched(v: Device, calls: seq<ManagerCall>, addr: Address)
    requires AllVouched(v, calls) && FindSession(v, addr).Some?
    ensures var s := FindSession(v, addr).value;
      Vouched(calls, addr, s.remoteIdentity) && addr in v.remoteKeys && v.remoteKeys[addr] == s.remoteIdentity
  {
  }

  lemma GetVouched(v: Device, calls: seq<ManagerCall>, addr: Address, d: Draws)
    requires AllVouched(v, calls)
    ensures var (u, r) := GetOrCreateSession(v, addr, d);
      && AllVouched(u, calls)
      && (r.Ok? ==> FindSession(u, addr) == Some(r.value))
  {
    var found := FindSession(v, addr);
    if found.Some? {
      FoundVouched(v, calls, addr);
      CacheVouched(v, calls, addr, found.value);
    } else if GetOrCreateSession(v, addr, d).1.Ok? {
      SessionIsSigned(v.identity.value, v.bundles[addr], d.ephemeral, d.first);
      MadeVouched(v, calls, addr, v.bundles[addr], GetOrCreateSession(v, addr, d).1.value);
    }
  }

  lemma EncryptToVouched(v: Device, calls: seq<ManagerCall>, addr: Address, material: Bytes, d: Draws)
    requires AllVouched(v, calls)
    ensures AllVouched(EncryptTo(v, addr, material, d).0, calls)
  {
    GetVouched(v, calls, addr, d);
    var (u, r) := GetOrCreateSession(v, addr, d);
    if r.Ok? {
      FoundVouched(u, calls, addr);
      var s := SessionEncrypt(r.value, material, d.nonce).0;
      CacheVouched(u, calls, addr, s);
      CacheVouched(Cache(u, addr, s), calls, addr, s);
    }
  }

  lemma {:induction false} EncryptAllVouched(v: Device, calls: seq<ManagerCall>, recipients: seq<Address>, material: Bytes, draws: seq<Draws>)
    requires AllVouched(v, calls) && |recipients| == |draws|
    ensures AllVouched(EncryptAll(v, recipients, material, draws).0, calls)
    decreases |recipients|
  {
    if recipients == [] {
    } else {
      var n := |recipients| - 1;
      EncryptAllVouched(v, calls, recipients[..n], material, draws[..n]);
      EncryptToVouched(EncryptAll(v, recipients[..n], material, draws[..n]).0, calls, recipients[n], material, draws[n]);
    }
  }

  lemma OpenVouched(v: Device, calls: seq<ManagerCall>, sender: Address, s: Session, data: Bytes, msg: EncryptedMessage, drawn: Bytes)
    requires AllVouched(v, calls) && |data| >= HEADER_SIZE && Vouched(calls, sender, s.remoteIdentity)
    requires sender in v.remoteKeys && v.remoteKeys[sender] == s.remoteIdentity
    ensures AllVouched(OpenWith(v, sender, s, data, msg, drawn).0, calls)
  {
    var header := DecodeHeader(data[..HEADER_SIZE]);
    if header.Ok? {
      CacheVouched(v, calls, sender, SessionDecrypt(s, header.value, data[HEADER_SIZE..], drawn).0);
    }
  }

  lemma DecryptVouched(v: Device, calls: seq<ManagerCall>, sender: Address, msg: EncryptedMessage, drawn: Bytes)
    requires AllVouched(v, calls)
    ensures AllVouched(DecryptMessage(v, sender, msg, drawn).0, calls)
  {
    var key, found := OurKey(msg.keys, v.deviceId), FindSession(v, sender);
    PreKeyBranchFails(v, sender);
    if key.Some? && |key.value.data| >= HEADER_SIZE && found.Some? {
      FoundVouched(v, calls, sender);
      OpenVouched(v, calls, sender, found.value, key.value.data, msg, drawn);
    }
  }

  lemma RegisteredVouched(v: Device, calls: seq<ManagerCall>, usedPreKey: Option<uint32>, sender: Address, identity: Bytes, s: Session)
    requires AllVouched(v, calls) && Vouched(calls, sender, identity) && s.remoteIdentity == identity
    ensures AllVouched(Registered(v, usedPreKey, sender, identity, s), calls)
  {
  }

  lemma FirstVouched(v: Device, calls: seq<ManagerCall>, c: ManagerCall)
    requires AllVouched(v, calls) && c.DecryptingFirst? && Vouched(calls, c.sender, c.identity)
    ensures AllVouched(Perform(v, c).0, calls)
  {
    var (u, s) := Answered(v, c.sender, c.identity, c.ephemeralPub, c.usedPreKey, c.signedPreKey);
    AnsweredVouched(v, calls, c.sender, c.identity, c.ephemeralPub, c.usedPreKey, c.signedPreKey);
    var key := OurKey(c.msg.keys, v.deviceId);
    if s.Ok? && key.Some? && |key.value.data| >= HEADER_SIZE {
      OpenVouched(u, calls, c.sender, s.value, key.value.data, c.msg, c.drawn);
    }
  }

  lemma AnsweredVouched(v: Device, calls: seq<ManagerCall>, sender: Address, identity: Bytes, ephemeralPub: Bytes,
                        usedPreKey: Option<uint32>, signedPreKey: uint32)
    requires AllVouched(v, calls) && Vouched(calls, sender, identity)
    ensures var (u, s) := Answered(v, sender, identity, ephemeralPub, usedPreKey, signedPreKey);
      && AllVouched(u, calls)
      && (s.Ok? ==> s.value.remoteIdentity == identity && sender in u.remoteKeys && u.remoteKeys[sender] == identity)
  {
    var (u, s) := Answered(v, sender, identity, ephemeralPub, usedPreKey, signedPreKey);
    if s.Ok? {
      RegisteredVouched(v, calls, usedPreKey, sender, identity, s.value);
    }
  }

  lemma ProcessingVouched(v: Device, calls: seq<ManagerCall>, addr: Address, bundle: Bundle)
    requires AllVouched(v, calls) && (ProperlySigned(bundle) ==> Vouched(calls, addr, bundle.identityKey))
    ensures AllVouched(v.(bundles := v.bundles[addr := bundle]), calls)
  {
  }

  lemma VouchedLater(calls: seq<ManagerCall>, c: ManagerCall, addr: Address, identity: Bytes)
    ensures Vouched(calls, addr, identity) || Vouches(c, addr, identity) <==> Vouched(calls + [c], addr, identity)
  {
    var all := calls + [c];
    if Vouched(calls, addr, identity) {
      var i :| 0 <= i < |calls| && Vouches(calls[i], addr, identity);
      assert all[i] == calls[i];
    }
    if Vouches(c, addr, identity) {
      assert all[|calls|] == c;
    }
  }

  lemma AllVouchedLater(v: Device, calls: seq<ManagerCall>, c: ManagerCall)
    requires AllVouched(v, calls)
    ensures AllVouched(v, calls + [c])
  {
    forall a, k | Vouched(calls, a, k)
      ensures Vouched(calls + [c], a, k)
    {
      VouchedLater(calls, c, a, k);
    }
  }

  lemma CallVouched(v: Device, calls: seq<ManagerCall>, c: ManagerCall)
    requires CallOk(c) && AllVouched(v, calls)
    ensures AllVouched(Perform(v, c).0, calls + [c])
  {
    var all := calls + [c];
    AllVouchedLater(v, calls, c);
    match c
    case Encrypting(plain, recipients, messageKey, iv, draws) =>
      EncryptAllVouched(v, all, recipients, KeyMaterial(messageKey, Seal(messageKey, iv, plain)), draws);
    case Decrypting(sender, msg, drawn) => DecryptVouched(v, all, sender, msg, drawn);
    case DecryptingFirst(sender, identity, _, _, _, _, _) =>
      VouchedLater(calls, c, sender, identity);
      FirstVouched(v, all, c);
    case Processing(addr, bundle) =>
      VouchedLater(calls, c, addr, bundle.identityKey);
      ProcessingVouched(v, all, addr, bundle);
  }

  lemma {:induction false} RunVouched(v: Device, before: seq<ManagerCall>, calls: seq<ManagerCall>)
    requires AllCallsOk(calls) && AllVouched(v, before)
    ensures AllVouched(PerformAll(v, calls).0, before + calls)
    decreases |calls|
  {
    if calls == [] {
      assert before + calls == before;
    } else {
      CallVouched(v, before, calls[0]);
      RunVouched(Perform(v, calls[0]).0, before + [calls[0]], calls[1..]);
      assert before + [calls[0]] + calls[1..] == before + calls;
    }
  }

  /**
    Over every sequence of calls of a manager that starts without sessions and bundles, the
    session with an address is with an identity for which a call of the sequence vouched: a
    bundle whose signed pre-key that identity signed, or a first message from that address.
    The same identity is on record for the address.
   */
  lemma SessionTheorem(v: Device, calls: seq<ManagerCall>, addr: Address)
    requires AllCallsOk(calls) && v.sessions == map[] && v.saved == map[] && v.bundles == map[]
    requires FindSession(PerformAll(v, calls).0, addr).Some?
    ensures var u := PerformAll(v, calls).0;
      var identity := FindSession(u, addr).value.remoteIdentity;
      && (exists i :: 0 <= i < |calls| && Vouches(calls[i], addr, identity))
      && addr in u.remoteKeys && u.remoteKeys[addr] == identity
  {
    RunVouched(v, [], calls);
    assert [] + calls == calls;
    FoundVouched(PerformAll(v, calls).0, calls, addr);
  }

  // ---------------------------------------------------------------------- how a session is made

  /** `s` is a session with the identity of the bundle, begun from the pre-key that this identity signed. */
  ghost predicate MadeFrom(bundle: Bundle, s: Session) {
    && ProperlySigned(bundle) && s.remoteIdentity == bundle.identityKey && s.ratchet.dhr == Some(bundle.signedPreKey)
    && s.pending.Some? && s.pending.value.signedPreKeyId == bundle.signedPreKeyId
    && s.pending.value.preKeyId == (if bundle.preKeys == [] then None else Some(bundle.preKeys[0].id))
  }

  /** Either nothing has been made of the bundle yet, or a session, and then its first one-time pre-key is gone. */
  ghost predicate MadeOrNot(addr: Address, bundle: Bundle, u: Device) {
    && addr in u.bundles
    && (if FindSession(u, addr).None? then u.bundles[addr] == bundle
        else MadeFrom(bundle, FindSession(u, addr).value)
             && u.bundles[addr] == bundle.(preKeys := if bundle.preKeys == [] then [] else bundle.preKeys[1..]))
  }

  lemma AliceMade(local: IdentityKeyPair, bundle: Bundle, d: Draws)
    ensures var s := InitSessionAsAlice(local, bundle, d.ephemeral, d.first); s.Ok? ==> MadeFrom(bundle, s.value)
  {
    SessionIsSigned(local, bundle, d.ephemeral, d.first);
  }

  lemma GetMade(v: Device, addr: Address, bundle: Bundle, a: Address, d: Draws)
    requires MadeOrNot(addr, bundle, v)
    ensures MadeOrNot(addr, bundle, GetOrCreateSession(v, a, d).0)
  {
    if a != addr {
      GetKeepsOthers(v, a, d, addr);
    } else if FindSession(v, a).None? && v.identity.Some? {
      AliceMade(v.identity.value, bundle, d);
    }
  }

  lemma EncryptKeepsMade(bundle: Bundle, s: Session, material: Bytes, nonce: Bytes)
    requires MadeFrom(bundle, s)
    ensures MadeFrom(bundle, SessionEncrypt(s, material, nonce).0)
  {
  }

  lemma EncryptToMade(v: Device, addr: Address, bundle: Bundle, a: Address, material: Bytes, d: Draws)
    requires MadeOrNot(addr, bundle, v)
    ensures MadeOrNot(addr, bundle, EncryptTo(v, a, material, d).0)
  {
    GetMade(v, addr, bundle, a, d);
    var (u, r) := GetOrCreateSession(v, a, d);
    if r.Ok? {
      var s := SessionEncrypt(r.value, material, d.nonce).0;
      if a == addr {
        EncryptKeepsMade(bundle, r.value, material, d.nonce);
      }
      CacheMade(u, addr, bundle, a, s);
      CacheMade(Cache(u, a, s), addr, bundle, a, s);
    }
  }

  lemma CacheMade(u: Device, addr: Address, bundle: Bundle, a: Address, s: Session)
    requires MadeOrNot(addr, bundle, u)
    requires a == addr ==> FindSession(u, addr).Some? && MadeFrom(bundle, s)
    ensures MadeOrNot(addr, bundle, Cache(u, a, s)) && MadeOrNot(addr, bundle, CacheAndSave(u, a, s))
  {
    FindCached(u, a, s, addr);
  }

  lemma {:induction false} EncryptAllMade(v: Device, addr: Address, bundle: Bundle, recipients: seq<Address>, material: Bytes, draws: seq<Draws>)
    requires MadeOrNot(addr, bundle, v) && |recipients| == |draws|
    ensures MadeOrNot(addr, bundle, EncryptAll(v, recipients, material, draws).0)
    decreases |recipients|
  {
    if recipients == [] {
    } else {
      var n := |recipients| - 1;
      EncryptAllMade(v, addr, bundle, recipients[..n], material, draws[..n]);
      EncryptToMade(EncryptAll(v, recipients[..n], material, draws[..n]).0, addr, bundle, recipients[n], material, draws[n]);
    }
  }

  predicate NoWay(addr: Address, u: Device) {
    FindSession(u, addr).None? && addr !in u.bundles
  }

  lemma EncryptToNoWay(v: Device, addr: Address, a: Address, material: Bytes, d: Draws)
    requires NoWay(addr, v)
    ensures NoWay(addr, EncryptTo(v, a, material, d).0)
  {
    if a != addr {
      GetKeepsOthers(v, a, d, addr);
      var (u, r) := GetOrCreateSession(v, a, d);
      if r.Ok? {
        var s := SessionEncrypt(r.value, material, d.nonce).0;
        FindCached(u, a, s, addr);
        FindCached(Cache(u, a, s), a, s, addr);
      }
    }
  }

  lemma {:induction false} EncryptAllNoWay(v: Device, addr: Address, recipients: seq<Address>, material: Bytes, draws: seq<Draws>)
    requires NoWay(addr, v) && |recipients| == |draws|
    ensures NoWay(addr, EncryptAll(v, recipients, material, draws).0)
    decreases |recipients|
  {
    if recipients == [] {
    } else {
      var n := |recipients| - 1;
      EncryptAllNoWay(v, addr, recipients[..n], material, draws[..n]);
      EncryptToNoWay(EncryptAll(v, recipients[..n], material, draws[..n]).0, addr, recipients[n], material, draws[n]);
    }
  }

  lemma OpenFinds(v: Device, sender: Address, s: Session, data: Bytes, msg: EncryptedMessage, drawn: Bytes, addr: Address)
    requires |data| >= HEADER_SIZE && sender != addr
    ensures FindSession(OpenWith(v, sender, s, data, msg, drawn).0, addr) == FindSession(v, addr)
  {
    var header := DecodeHeader(data[..HEADER_SIZE]);
    if header.Ok? {
      FindCached(v, sender, SessionDecrypt(s, header.value, data[HEADER_SIZE..], drawn).0, addr);
    }
  }

  /** Plain decryption makes no session. */
  lemma DecryptMakesNone(v: Device, sender: Address, msg: EncryptedMessage, drawn: Bytes, addr: Address)
    requires FindSession(v, addr).None?
    ensures FindSession(DecryptMessage(v, sender, msg, drawn).0, addr).None?
  {
    var key, found := OurKey(msg.keys, v.deviceId), FindSession(v, sender);
    PreKeyBranchFails(v, sender);
    if key.Some? && |key.value.data| >= HEADER_SIZE && found.Some? {
      OpenFinds(v, sender, found.value, key.value.data, msg, drawn, addr);
    }
  }

  lemma AnsweredFinds(v: Device, sender: Address, identity: Bytes, ephemeralPub: Bytes, usedPreKey: Option<uint32>,
                      signedPreKey: uint32, addr: Address)
    ensures var (u, s) := Answered(v, sender, identity, ephemeralPub, usedPreKey, signedPreKey);
      FindSession(u, addr) == if s.Ok? && addr == sender then Some(s.value) else FindSession(v, addr)
  {
  }

  lemma AnsweredFrom(v: Device, sender: Address, identity: Bytes, ephemeralPub: Bytes, usedPreKey: Option<uint32>,
                     signedPreKey: uint32)
    ensures var s := Answered(v, sender, identity, ephemeralPub, usedPreKey, signedPreKey).1;
      s.Ok? ==> s.value.remoteIdentity == identity && s.value.pending.None? && signedPreKey in v.signedPreKeys
  {
  }

  lemma FirstMakes(v: Device, c: ManagerCall, addr: Address)
    requires c.DecryptingFirst? && FindSession(v, addr).None? && FindSession(Perform(v, c).0, addr).Some?
    ensures c.sender == addr && c.signedPreKey in v.signedPreKeys
  {
    var (u, s) := Answered(v, c.sender, c.identity, c.ephemeralPub, c.usedPreKey, c.signedPreKey);
    AnsweredFinds(v, c.sender, c.identity, c.ephemeralPub, c.usedPreKey, c.signedPreKey, addr);
    AnsweredFrom(v, c.sender, c.identity, c.ephemeralPub, c.usedPreKey, c.signedPreKey);
    var key := OurKey(c.msg.keys, v.deviceId);
    if c.sender != addr && s.Ok? && key.Some? && |key.value.data| >= HEADER_SIZE {
      OpenFinds(u, c.sender, s.value, key.value.data, c.msg, c.drawn, addr);
    }
  }

  /**
    Whatever the device, a call that gives an address its session is one of two: it encrypts,
    and the session is with the identity of the bundle at hand, begun from a pre-key which that
    identity signed, and the one-time pre-key it names has left the bundle; or it is a first
    message from that address for a signed pre-key of the device.
   */
  lemma MakingTheorem(v: Device, c: ManagerCall, addr: Address)
    requires CallOk(c) && FindSession(v, addr).None? && FindSession(Perform(v, c).0, addr).Some?
    ensures
      || (c.Encrypting? && addr in v.bundles && MadeFrom(v.bundles[addr], FindSession(Perform(v, c).0, addr).value)
          && addr in Perform(v, c).0.bundles
          && Perform(v, c).0.bundles[addr].preKeys
             == (if v.bundles[addr].preKeys == [] then [] else v.bundles[addr].preKeys[1..]))
      || (c.DecryptingFirst? && c.sender == addr && c.signedPreKey in v.signedPreKeys)
  {
    match c
    case Encrypting(plain, recipients, messageKey, iv, draws) =>
      var material := KeyMaterial(messageKey, Seal(messageKey, iv, plain));
      if addr in v.bundles {
        EncryptAllMade(v, addr, v.bundles[addr], recipients, material, draws);
      } else {
        EncryptAllNoWay(v, addr, recipients, material, draws);
      }
    case Decrypting(sender, msg, drawn) => DecryptMakesNone(v, sender, msg, drawn, addr);
    case DecryptingFirst(_, _, _, _, _, _, _) => FirstMakes(v, c, addr);
    case Processing(_, _) =>
  }

  /** A bundle whose identity did not sign its pre-key is refused and changes nothing. */
  lemma UnsignedRefused(v: Device, addr: Address, material: Bytes, d: Draws)
    requires FindSession(v, addr).None? && !LoadPanics(v, addr) && v.identity.Some? && addr in v.bundles
    requires |v.bundles[addr].identityKey| == 32 && !ProperlySigned(v.bundles[addr])
    ensures EncryptTo(v, addr, material, d) == (v, Err(InvalidSignature))
  {
    SessionIsSigned(v.identity.value, v.bundles[addr], d.ephemeral, d.first);
  }

  // ------------------------------------------------------------------------------ failed calls

  lemma OpenSavesNothing(v: Device, sender: Address, s: Session, data: Bytes, msg: EncryptedMessage, drawn: Bytes)
    requires |data| >= HEADER_SIZE && OpenWith(v, sender, s, data, msg, drawn).1.Err?
    ensures OpenWith(v, sender, s, data, msg, drawn).0.saved == v.saved
  {
  }

  /** A failed decryption leaves the stored sessions as they are. */
  lemma FailedReadTheorem(v: Device, c: ManagerCall)
    requires (c.Decrypting? || c.DecryptingFirst?) && !Perform(v, c).1.Success()
    ensures Perform(v, c).0.saved == v.saved
  {
    var key := OurKey(c.msg.keys, v.deviceId);
    if c.Decrypting? {
      var found := FindSession(v, c.sender);
      PreKeyBranchFails(v, c.sender);
      if key.Some? && |key.value.data| >= HEADER_SIZE && found.Some? {
        OpenSavesNothing(v, c.sender, found.value, key.value.data, c.msg, c.drawn);
      }
    } else {
      var (u, s) := Answered(v, c.sender, c.identity, c.ephemeralPub, c.usedPreKey, c.signedPreKey);
      AnsweredSaves(v, c.sender, c.identity, c.ephemeralPub, c.usedPreKey, c.signedPreKey);
      if s.Ok? && key.Some? && |key.value.data| >= HEADER_SIZE {
        OpenSavesNothing(u, c.sender, s.value, key.value.data, c.msg, c.drawn);
      }
    }
  }

  lemma AnsweredSaves(v: Device, sender: Address, identity: Bytes, ephemeralPub: Bytes, usedPreKey: Option<uint32>,
                      signedPreKey: uint32)
    ensures Answered(v, sender, identity, ephemeralPub, usedPreKey, signedPreKey).0.saved == v.saved
  {
  }

  /** A stored session whose loading panics stops every call that needs it, and nothing changes. */
  lemma PanicTheorem(v: Device, addr: Address, material: Bytes, d: Draws, msg: EncryptedMessage, drawn: Bytes)
    requires addr !in v.sessions && addr in v.saved && v.saved[addr] == Err(RuntimePanic)
    ensures EncryptTo(v, addr, material, d) == (v, Err(RuntimePanic))
    ensures var key := OurKey(msg.keys, v.deviceId);
      key.Some? && |key.value.data| >= HEADER_SIZE ==> DecryptMessage(v, addr, msg, drawn) == (v, Err(RuntimePanic))
  {
  }

  /** Without a session, plain decryption fails and changes nothing; encryption says what it lacks. */
  lemma WithoutSession(v: Device, addr: Address, material: Bytes, d: Draws, msg: EncryptedMessage, drawn: Bytes)
    requires FindSession(v, addr).None?
    ensures DecryptMessage(v, addr, msg, drawn).0 == v && DecryptMessage(v, addr, msg, drawn).1.Err?
    ensures !LoadPanics(v, addr) && addr !in v.bundles ==> EncryptTo(v, addr, material, d) == (v, Err(NoSession))
    ensures !LoadPanics(v, addr) && addr in v.bundles && v.identity.None? ==> EncryptTo(v, addr, material, d) == (v, Err(NoIdentity))
  {
    PreKeyBranchFails(v, addr);
  }

  /** A first message to a device without identity, or for a signed pre-key it does not have, changes nothing. */
  lemma FirstRefused(v: Device, c: ManagerCall)
    requires c.DecryptingFirst? && (v.identity.None? || c.signedPreKey !in v.signedPreKeys)
    ensures Perform(v, c) == (v, Read(Err(if v.identity.None? then NoIdentity else NoPreKey)))
  {
  }

  // ------------------------------------------------------------------------- what was opened

  /** The key material opens under the session, and the payload with the tag from it is sealed under its key. */
  ghost predicate Authentic(s: Session, data: Bytes, msg: EncryptedMessage, drawn: Bytes, plain: Bytes)
    requires |data| >= HEADER_SIZE
  {
    var header := DecodeHeader(data[..HEADER_SIZE]);
    && header.Ok?
    && (exists material :: |material| == 48
          && Decrypt(s.ratchet, header.value, data[HEADER_SIZE..], drawn).1 == Ok(material)
          && msg.payload + material[32..] == Seal(material[..32], msg.iv, plain))
  }

  lemma PayloadMeans(material: Bytes, iv: Bytes, payload: Bytes, plain: Bytes)
    requires OpenPayload(material, iv, payload) == Ok(plain)
    ensures |material| == 48 && payload + material[32..] == Seal(material[..32], iv, plain)
  {
  }

  lemma OpenMeans(v: Device, sender: Address, s: Session, data: Bytes, msg: EncryptedMessage, drawn: Bytes, plain: Bytes)
    requires |data| >= HEADER_SIZE && OpenWith(v, sender, s, data, msg, drawn).1 == Ok(plain)
    ensures Authentic(s, data, msg, drawn, plain)
  {
    var header := DecodeHeader(data[..HEADER_SIZE]).value;
    var material := Decrypt(s.ratchet, header, data[HEADER_SIZE..], drawn).1.value;
    PayloadMeans(material, msg.iv, msg.payload, plain);
  }

  /**
    Whatever the device and the message: what plain decryption yields was sealed, as a whole,
    under key material of 48 octets that the session with the sender opened from the first key
    for this device.
   */
  lemma AuthenticTheorem(v: Device, sender: Address, msg: EncryptedMessage, drawn: Bytes, plain: Bytes)
    requires DecryptMessage(v, sender, msg, drawn).1 == Ok(plain)
    ensures var key, s := OurKey(msg.keys, v.deviceId), FindSession(v, sender);
      key.Some? && |key.value.data| >= HEADER_SIZE && s.Some? && Authentic(s.value, key.value.data, msg, drawn, plain)
  {
    PreKeyBranchFails(v, sender);
    OpenMeans(v, sender, FindSession(v, sender).value, OurKey(msg.keys, v.deviceId).value.data, msg, drawn, plain);
  }
}
