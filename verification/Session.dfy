/**
  Sessions: crypto/omemo/session.go. A session is a ratchet with the identity of
  the peer and, until the first reply, the pre-key data of the initial message.
 */
module OmemoSession {
  import opened Wrappers
  import opened Words
  import opened Octets
  import opened DoubleRatchet
  import opened RatchetCodec
  import opened RatchetFormat
  import opened RatchetHistory
  import opened RatchetWorld
  import opened MutableRatchet
  import opened X3dh

  // ------------------------------------------------------------------------- operations

  /** Also tells whether the message must carry the pre-key data. */
  function SessionEncrypt(s: Session, plain: Bytes, nonce: Bytes): (Session, Header, Bytes, bool) {
    var (ratchet, header, data) := Encrypt(s.ratchet, plain, nonce);
    (s.(ratchet := ratchet), header, data, s.pending.Some?)
  }

  /** The pre-key data is dropped on the first successful decryption. */
  function SessionDecrypt(s: Session, header: Header, data: Bytes, drawn: Bytes): (Session, Result<Bytes>) {
    var (ratchet, r) := Decrypt(s.ratchet, header, data, drawn);
    (s.(ratchet := ratchet, pending := if r.Ok? then None else s.pending), r)
  }

  datatype SessionCall =
    | SealCall(plain: Bytes, nonce: Bytes)
    | OpenCall(header: Header, data: Bytes, drawn: Bytes)

  function SessionStep(s: Session, c: SessionCall): Session {
    match c
    case SealCall(plain, nonce) => SessionEncrypt(s, plain, nonce).0
    case OpenCall(header, data, drawn) => SessionDecrypt(s, header, data, drawn).0
  }

  function SessionRun(s: Session, calls: seq<SessionCall>): Session {
    if calls == [] then s
    else SessionStep(SessionRun(s, calls[..|calls| - 1]), calls[|calls| - 1])
  }

  /** The call decrypts a message. */
  predicate OpensBy(s: Session, c: SessionCall) {
    c.OpenCall? && Decrypt(s.ratchet, c.header, c.data, c.drawn).1.Ok?
  }

  /** Which calls of a run decrypted a message. */
  function Openings(s: Session, calls: seq<SessionCall>): (r: seq<bool>)
    ensures |r| == |calls|
  {
    if calls == [] then []
    else
      var n := |calls| - 1;
      Openings(s, calls[..n]) + [OpensBy(SessionRun(s, calls[..n]), calls[n])]
  }

  lemma StepPending(s: Session, c: SessionCall)
    ensures SessionStep(s, c).remoteIdentity == s.remoteIdentity
    ensures SessionStep(s, c).pending == if OpensBy(s, c) then None else s.pending
  {
  }

  lemma InFrontOrLast(front: seq<bool>, b: bool)
    ensures true in front + [b] <==> true in front || b
  {
  }

  lemma {:induction false} RunPending(s: Session, calls: seq<SessionCall>)
    ensures SessionRun(s, calls).remoteIdentity == s.remoteIdentity
    ensures SessionRun(s, calls).pending == if true in Openings(s, calls) then None else s.pending
    decreases |calls|
  {
    if calls == [] {
    } else {
      var n := |calls| - 1;
      var before := SessionRun(s, calls[..n]);
      RunPending(s, calls[..n]);
      StepPending(before, calls[n]);
      InFrontOrLast(Openings(s, calls[..n]), OpensBy(before, calls[n]));
    }
  }

  /**
    In every run of a session, with arbitrary headers and data, a message is marked as a
    pre-key message exactly when the session began as initiator and has decrypted nothing
    so far; the pre-key data and the peer's identity are then those of the start.
   */
  lemma PendingTheorem(s: Session, calls: seq<SessionCall>, plain: Bytes, nonce: Bytes)
    ensures var (s', _, _, isPreKey) := SessionEncrypt(SessionRun(s, calls), plain, nonce);
      && s'.remoteIdentity == s.remoteIdentity
      && (isPreKey <==> s.pending.Some? && true !in Openings(s, calls))
      && (isPreKey ==> s'.pending == s.pending)
  {
    RunPending(s, calls);
  }

  // ----------------------------------------------------------------------------- format

  predicate SessionOk(s: Session) {
    && WellFormed(s.ratchet)
    && |s.remoteIdentity| == 32
    && (s.pending.Some? ==> |s.pending.value.ephemeralPub| == 32)
  }

  function PutPreKeyId(id: Option<uint32>): Bytes {
    match id
    case Some(v) => [Lit(1)] + PutUint32(v)
    case None => [Lit(0)]
  }

  function PutPending(p: Option<PendingPreKey>): Bytes {
    match p
    case Some(ppk) => [Lit(1)] + PutPreKeyId(ppk.preKeyId) + PutUint32(ppk.signedPreKeyId) + ppk.ephemeralPub
    case None => [Lit(0)]
  }

  function EncodeSession(s: Session, order: seq<SkippedKey>): Bytes
    requires forall k :: k in order ==> k in s.ratchet.skipped
  {
    s.remoteIdentity + PutPending(s.pending) + Encode(s.ratchet, order)
  }

  function ReadPreKeyId(data: Bytes): Result<(Option<uint32>, Bytes)> {
    if |data| == 0 then Err(RuntimePanic)
    else if Value(data[0]) != 1 then Ok((None, data[1..]))
    else if |data| < 5 then Err(InvalidMessage)
    else Ok((Some(GetUint32(data[1..5])), data[5..]))
  }

  /** Reads the pre-key data; the octet after the flag is taken without a length check. */
  function ReadPending(data: Bytes): Result<(PendingPreKey, Bytes)> {
    var (id, r1) :- ReadPreKeyId(data);
    if |r1| < 4 then Err(InvalidMessage)
    else if |r1| < 36 then Err(InvalidMessage)
    else Ok((PendingPreKey(id, GetUint32(r1[..4]), r1[4..36]), r1[36..]))
  }

  function DecodeSession(data: Bytes): Result<Session> {
    if |data| < 33 then Err(InvalidMessage)
    else if Value(data[32]) != 1 then
      var ratchet :- Decode(data[33..]);
      Ok(Session(ratchet, data[..32], None))
    else
      var (pending, rest) :- ReadPending(data[33..]);
      var ratchet :- Decode(rest);
      Ok(Session(ratchet, data[..32], Some(pending)))
  }

  lemma ReadPreKeyIdBack(id: Option<uint32>, rest: Bytes)
    ensures ReadPreKeyId(PutPreKeyId(id) + rest) == Ok((id, rest))
  {
    var data := PutPreKeyId(id) + rest;
    match id
    case None => assert data[1..] == rest;
    case Some(v) =>
      assert data[1..5] == PutUint32(v) + [];
      assert data[5..] == rest;
      GetPutUint32(v, []);
  }

  lemma ReadPendingBack(p: PendingPreKey, rest: Bytes)
    requires |p.ephemeralPub| == 32
    ensures ReadPending(PutPreKeyId(p.preKeyId) + (PutUint32(p.signedPreKeyId) + p.ephemeralPub + rest))
         == Ok((p, rest))
  {
    var r1 := PutUint32(p.signedPreKeyId) + p.ephemeralPub + rest;
    ReadPreKeyIdBack(p.preKeyId, r1);
    assert r1[..4] == PutUint32(p.signedPreKeyId) + [];
    assert r1[4..36] == p.ephemeralPub;
    assert r1[36..] == rest;
    GetPutUint32(p.signedPreKeyId, []);
  }

  /** Where the parts of a saved session are. */
  lemma SessionParts(remote: Bytes, pending: Option<PendingPreKey>, tail: Bytes)
    requires |remote| == 32
    ensures var data := remote + PutPending(pending) + tail;
      && |data| >= 33
      && data[..32] == remote
      && Value(data[32]) == (if pending.Some? then 1 else 0)
      && (pending.None? ==> data[33..] == tail)
      && (pending.Some? ==>
            var p := pending.value;
            data[33..] == PutPreKeyId(p.preKeyId) + (PutUint32(p.signedPreKeyId) + p.ephemeralPub + tail))
  {
    match pending
    case None => FlaggedParts(remote, Lit(0), [], [], [], tail);
    case Some(p) =>
      FlaggedParts(remote, Lit(1), PutPreKeyId(p.preKeyId), PutUint32(p.signedPreKeyId), p.ephemeralPub, tail);
  }

  lemma FlaggedParts(remote: Bytes, flag: Octet, a: Bytes, b: Bytes, c: Bytes, tail: Bytes)
    requires |remote| == 32
    ensures var data := remote + ([flag] + a + b + c) + tail;
      data[..32] == remote && data[32] == flag && data[33..] == a + (b + c + tail)
    ensures remote + [flag] + tail == remote + ([flag] + [] + [] + []) + tail
    ensures [] + ([] + [] + tail) == tail
  {
    var data := remote + ([flag] + a + b + c) + tail;
    assert data == remote + [flag] + (a + (b + c + tail));
  }

  /**
    Loading a saved session gives the session back, with or without pending pre-key
    data, with or without a pre-key id in it, and in any order of the skipped keys.
   */
  lemma SessionRoundTrip(s: Session, order: seq<SkippedKey>)
    requires SessionOk(s) && IsOrder(order, s.ratchet.skipped)
    ensures DecodeSession(EncodeSession(s, order)) == Ok(s)
  {
    RatchetRoundTrip(s.ratchet, order);
    SessionParts(s.remoteIdentity, s.pending, Encode(s.ratchet, order));
    if s.pending.Some? {
      ReadPendingBack(s.pending.value, Encode(s.ratchet, order));
    }
  }

  /** Reading panics on exactly one kind of data: 33 octets that announce pre-key data. */
  lemma DecodePanics(data: Bytes)
    ensures DecodeSession(data) == Err(RuntimePanic) <==> |data| == 33 && Value(data[32]) == 1
  {
    if |data| >= 33 {
      DecodeOnlyInvalid(data[33..]);
      if Value(data[32]) == 1 && ReadPending(data[33..]).Ok? {
        DecodeOnlyInvalid(ReadPending(data[33..]).value.1);
      }
    }
  }

  lemma DecodeOnlyInvalid(data: Bytes)
    ensures Decode(data).Err? ==> Decode(data).error == InvalidMessage
  {
    var keys := ReadKeys(data, None);
    if keys.Ok? {
      var counters := ReadCounters(keys.value.1, keys.value.0);
      if counters.Ok? {
        EntriesOnlyInvalid(counters.value.1, counters.value.3, counters.value.2, map[]);
      }
    }
  }

  lemma {:induction false} EntriesOnlyInvalid(count: nat, data: Bytes, buffer: Bytes, acc: map<SkippedKey, Bytes>)
    requires |buffer| == 4
    ensures var r := ReadEntries(count, data, buffer, acc); r.Err? ==> r.error == InvalidMessage
    decreases count
  {
    if count == 0 {
    } else {
      var entry := ReadEntry(data, buffer);
      if entry.Ok? {
        EntriesOnlyInvalid(count - 1, entry.value.3, entry.value.2, acc[entry.value.0 := entry.value.1]);
      }
    }
  }

  // ---------------------------------------------------------- whatever loads is well-formed

  lemma {:induction false} EntriesOk(count: nat, data: Bytes, buffer: Bytes, acc: map<SkippedKey, Bytes>)
    requires |buffer| == 4
    requires forall k :: k in acc ==> |k.dhPub| == 32 && |acc[k]| == 32
    ensures var r := ReadEntries(count, data, buffer, acc);
      r.Ok? ==>
        && |r.value| <= |acc| + count
        && forall k :: k in r.value ==> |k.dhPub| == 32 && |r.value[k]| == 32
    decreases count
  {
    if count == 0 {
    } else {
      var entry := ReadEntry(data, buffer);
      if entry.Ok? {
        var (k, mk, b, rest) := entry.value;
        EntryLengths(data, buffer);
        AddOne(acc, k, mk);
        EntriesOk(count - 1, rest, b, acc[k := mk]);
      }
    }
  }

  lemma EntryLengths(data: Bytes, buffer: Bytes)
    requires |buffer| == 4
    ensures var entry := ReadEntry(data, buffer);
      entry.Ok? ==> |entry.value.0.dhPub| == 32 && |entry.value.1| == 32 && |entry.value.2| == 4
  {
  }

  lemma AddOne(m: map<SkippedKey, Bytes>, k: SkippedKey, mk: Bytes)
    ensures |m[k := mk]| <= |m| + 1
  {
    if k in m {
      assert m[k := mk].Keys == m.Keys;
    } else {
      assert m[k := mk].Keys == m.Keys + {k};
    }
  }

  lemma DecodedOk(data: Bytes)
    ensures Decode(data).Ok? ==> WellFormed(Decode(data).value)
  {
    var keys := ReadKeys(data, None);
    if keys.Ok? {
      var counters := ReadCounters(keys.value.1, keys.value.0);
      if counters.Ok? {
        EntriesOk(counters.value.1, counters.value.3, counters.value.2, map[]);
      }
    }
  }

  lemma DecodedSessionOk(data: Bytes)
    ensures DecodeSession(data).Ok? ==> SessionOk(DecodeSession(data).value)
  {
    if |data| >= 33 {
      DecodedOk(data[33..]);
      if Value(data[32]) == 1 && ReadPending(data[33..]).Ok? {
        DecodedOk(ReadPending(data[33..]).value.1);
      }
    }
  }

  // ----------------------------------------------------------------------------- layout

  /** The pre-key data: a flag and an id if the flag is 1, the id of the signed pre-key, the ephemeral key, then `rest`. */
  predicate PendingAt(b: Bytes, at: nat, p: PendingPreKey, rest: Bytes) {
    if p.preKeyId.Some? then
      && HasAt(b, at, [Lit(1)]) && BigEndianAt(b, at + 1, p.preKeyId.value)
      && BigEndianAt(b, at + 5, p.signedPreKeyId) && HasAt(b, at + 9, p.ephemeralPub) && HasAt(b, at + 41, rest)
    else
      && HasAt(b, at, [Lit(0)])
      && BigEndianAt(b, at + 1, p.signedPreKeyId) && HasAt(b, at + 5, p.ephemeralPub) && HasAt(b, at + 37, rest)
  }

  lemma PendingLayout(a: Bytes, p: PendingPreKey, rest: Bytes)
    requires |p.ephemeralPub| == 32
    ensures PendingAt(a + (PutPreKeyId(p.preKeyId) + PutUint32(p.signedPreKeyId) + p.ephemeralPub) + rest, |a|, p, rest)
  {
    var id, signed := PutPreKeyId(p.preKeyId), PutUint32(p.signedPreKeyId);
    var b := a + (id + signed + p.ephemeralPub) + rest;
    if p.preKeyId.Some? {
      var n := PutUint32(p.preKeyId.value);
      SixParts(a, [Lit(1)], n, signed, p.ephemeralPub, rest);
      FirstTwo(a, [Lit(1)], n, signed, p.ephemeralPub, rest);
      CounterAt(b, |a| + 1, p.preKeyId.value);
      CounterAt(b, |a| + 5, p.signedPreKeyId);
    } else {
      SixParts(a, [Lit(0)], [], signed, p.ephemeralPub, rest);
      FirstTwo(a, [Lit(0)], [], signed, p.ephemeralPub, rest);
      CounterAt(b, |a| + 1, p.signedPreKeyId);
    }
  }

  lemma FirstTwo(a: Bytes, x: Bytes, y: Bytes, c: Bytes, d: Bytes, rest: Bytes)
    ensures a + x + y + c + d + rest == a + ((x + y) + c + d) + rest
    ensures y == [] ==> x + y == x
  {
  }

  lemma SixParts(a: Bytes, b: Bytes, c: Bytes, d: Bytes, e: Bytes, f: Bytes)
    ensures var all := a + b + c + d + e + f;
      && HasAt(all, |a|, b) && HasAt(all, |a| + |b|, c) && HasAt(all, |a| + |b| + |c|, d)
      && HasAt(all, |a| + |b| + |c| + |d|, e) && HasAt(all, |a| + |b| + |c| + |d| + |e|, f)
  {
    FiveParts(a, b, c, d, e, f);
    Right(a + b + c + d + e, f, 0, f);
  }

  /** Where everything is in a saved session. */
  lemma SessionLayout(s: Session, order: seq<SkippedKey>)
    requires SessionOk(s) && IsOrder(order, s.ratchet.skipped)
    ensures var b := EncodeSession(s, order);
      && HasAt(b, 0, s.remoteIdentity)
      && HasAt(b, 32, [Lit(if s.pending.Some? then 1 else 0)])
      && if s.pending.Some? then PendingAt(b, 33, s.pending.value, Encode(s.ratchet, order))
         else HasAt(b, 33, Encode(s.ratchet, order))
  {
    var remote, tail := s.remoteIdentity, Encode(s.ratchet, order);
    if s.pending.Some? {
      WithPending(remote, s.pending.value, tail);
    } else {
      StartLayout(remote, [Lit(0)], [], tail);
    }
  }

  lemma WithPending(remote: Bytes, p: PendingPreKey, tail: Bytes)
    requires |remote| == 32 && |p.ephemeralPub| == 32
    ensures var b := remote + PutPending(Some(p)) + tail;
      HasAt(b, 0, remote) && HasAt(b, 32, [Lit(1)]) && PendingAt(b, 33, p, tail)
  {
    var data := PutPreKeyId(p.preKeyId) + PutUint32(p.signedPreKeyId) + p.ephemeralPub;
    PendingIs(p);
    StartLayout(remote, [Lit(1)], data, tail);
    PendingLayout(remote + [Lit(1)], p, tail);
  }

  lemma PendingIs(p: PendingPreKey)
    ensures PutPending(Some(p)) == [Lit(1)] + (PutPreKeyId(p.preKeyId) + PutUint32(p.signedPreKeyId) + p.ephemeralPub)
  {
  }

  lemma StartLayout(remote: Bytes, flag: Bytes, data: Bytes, tail: Bytes)
    requires |remote| == 32 && |flag| == 1
    ensures var b := remote + (flag + data) + tail;
      && HasAt(b, 0, remote) && HasAt(b, 32, flag)
      && b == (remote + flag) + data + tail
      && (data == [] ==> flag + data == flag && HasAt(b, 33, tail))
  {
    var b := remote + (flag + data) + tail;
    FiveParts(remote, flag, data, tail, [], []);
    assert b == (remote + flag) + data + tail;
    EndsEmpty(b);
  }

  // ------------------------------------------------------------------- start of a session

  /**
    The two sessions that come out of one key agreement are the two ends of an
    initial world, so the delivery theorem covers everything from the first message.
   */
  lemma SessionsMeet(alice: IdentityKeyPair, identity: IdentityKeyPair, spks: map<uint32, SignedPreKeyRecord>,
                     pks: map<uint32, PreKeyRecord>, bundle: Bundle, ephemeral: Bytes, first: Bytes)
    returns (w: World)
    requires IdentityOk(alice) && Backed(Some(identity), spks, pks, bundle)
    requires |first| == 32 && first != spks[bundle.signedPreKeyId].privateKey
    ensures var a := InitSessionAsAlice(alice, bundle, ephemeral, first);
      && a.Ok?
      && a.value.pending.Some?
      && var p := a.value.pending.value;
         && p.signedPreKeyId == bundle.signedPreKeyId
         && (p.preKeyId.Some? ==> p.preKeyId.value in pks)
         && var b := InitSessionAsBob(identity, spks[p.signedPreKeyId].privateKey, UsedPreKey(pks, p.preKeyId),
                                      alice.publicKey, p.ephemeralPub);
            && b.Ok?
            && Initial(w)
            && w.alice == a.value.ratchet
            && w.bob == b.value.ratchet
            && w.past.plan.keys == [spks[p.signedPreKeyId].privateKey, first]
  {
    AgreementTheorem(alice, identity, spks, pks, bundle, ephemeral);
    var agreed := Initiate(alice, bundle, ephemeral).value;
    var spk := spks[bundle.signedPreKeyId].privateKey;
    X25519OfPublicKey(first, spk);
    var ratchet := InitAlice(agreed.secret, bundle.signedPreKey, first).value;
    w := World(ratchet, InitBob(agreed.secret, spk),
               History(Schedule(agreed.secret, [spk, first]), [[], []], {}), {});
  }

  // ------------------------------------------------------------------ the mutable session

  class SessionState {
    var Ratchet: RatchetState
    var RemoteIdentity: Bytes
    var PendingPreKey: Option<PendingPreKey>

    ghost function View(): Session
      reads this, Ratchet
    {
      Session(Ratchet.View(), RemoteIdentity, PendingPreKey)
    }

    constructor (s: Session)
      ensures View() == s && fresh(Ratchet)
    {
      Ratchet := new RatchetState(s.ratchet);
      RemoteIdentity, PendingPreKey := s.remoteIdentity, s.pending;
    }

    method EncryptWith(plain: Bytes, nonce: Bytes) returns (header: Header, data: Bytes, isPreKey: bool)
      modifies Ratchet
      ensures (View(), header, data, isPreKey) == SessionEncrypt(old(View()), plain, nonce)
    {
      header, data := Ratchet.RatchetEncrypt(plain, nonce);
      isPreKey := PendingPreKey.Some?;
    }

    method DecryptWith(header: Header, data: Bytes, drawn: Bytes) returns (r: Result<Bytes>)
      modifies this`PendingPreKey, Ratchet
      ensures (View(), r) == SessionDecrypt(old(View()), header, data, drawn)
    {
      r := Ratchet.RatchetDecrypt(header, data, drawn);
      if r.Ok? {
        PendingPreKey := None;
      }
    }

    method MarshalBinary() returns (buf: Bytes, ghost order: seq<SkippedKey>)
      ensures IsOrder(order, Ratchet.MKSkipped)
      ensures buf == EncodeSession(View(), order)
    {
      var ratchet;
      ratchet, order := Ratchet.MarshalBinary();
      buf := RemoteIdentity;
      if PendingPreKey.Some? {
        var ppk := PendingPreKey.value;
        var part := [Lit(1)];
        part := part + PutPreKeyId(ppk.preKeyId);
        part := part + PutUint32(ppk.signedPreKeyId);
        part := part + ppk.ephemeralPub;
        buf := buf + part;
      } else {
        buf := buf + [Lit(0)];
      }
      buf := buf + ratchet;
    }
  }
}
