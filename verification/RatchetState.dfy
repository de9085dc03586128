/**
  The ratchet state of crypto/omemo/ratchet.go as the source has it: an object
  whose methods update its fields. Every method is proved against the function on
  values that says what the step does.
 */
module MutableRatchet {
  import opened Wrappers
  import opened Words
  import opened Octets
  import opened DoubleRatchet
  import opened RatchetCodec

  class RatchetState {
    var DHs: Bytes
    var DHr: Option<Bytes>
    var RK: Bytes
    var CKs: Option<Bytes>
    var CKr: Option<Bytes>
    var Ns: uint32
    var Nr: uint32
    var PN: uint32
    var MKSkipped: map<SkippedKey, Bytes>

    ghost function View(): Ratchet
      reads this
    {
      Ratchet(DHs, DHr, RK, CKs, CKr, Ns, Nr, PN, MKSkipped)
    }

    /** Takes the state of a value; the two initial states are given as such values. */
    constructor (s: Ratchet)
      ensures View() == s
    {
      DHs, DHr, RK, CKs, CKr := s.dhs, s.dhr, s.rk, s.cks, s.ckr;
      Ns, Nr, PN, MKSkipped := s.ns, s.nr, s.pn, s.skipped;
    }

    method RatchetEncrypt(plain: Bytes, nonce: Bytes) returns (header: Header, out: Bytes)
      modifies this
      ensures (View(), header, out) == Encrypt(old(View()), plain, nonce)
    {
      var ck := KeyBytes(CKs);
      var mk := MessageKey(ck);
      CKs := Some(NextChainKey(ck));
      header := Header(PublicKey(DHs), Ns, PN);
      Ns := (Ns + 1) % TWO32;
      out := nonce + Seal(mk, nonce, plain);
    }

    method RatchetDecrypt(header: Header, data: Bytes, drawn: Bytes) returns (r: Result<Bytes>)
      modifies this
      ensures (View(), r) == Decrypt(old(View()), header, data, drawn)
    {
      r := this.TrySkipped(header, data);
      if r.Ok? {
        return;
      }
      if DHr.None? || header.dhPub != DHr.value {
        var ok := this.Skip(header.pn);
        if !ok {
          return Err(SkippedKeyLimit);
        }
        var failure := this.RatchetStep(header.dhPub, drawn);
        if failure.Some? {
          return Err(failure.value);
        }
      }
      var ok := this.Skip(header.n);
      if !ok {
        return Err(SkippedKeyLimit);
      }
      var ck := KeyBytes(CKr);
      CKr := Some(NextChainKey(ck));
      Nr := (Nr + 1) % TWO32;
      r := DecryptWithNonce(MessageKey(ck), data);
    }

    method TrySkipped(header: Header, data: Bytes) returns (r: Result<Bytes>)
      modifies this
      ensures r == TrySkippedKeys(old(View()), header, data)
      ensures View() == ForgetSkipped(old(View()), header)
    {
      var k := SkippedKey(Fit32(header.dhPub), header.n);
      if k !in MKSkipped {
        assert MKSkipped - {k} == MKSkipped;
        return Err(InvalidMessage);
      }
      var mk := MKSkipped[k];
      MKSkipped := MKSkipped - {k};
      r := DecryptWithNonce(mk, data);
    }

    method Skip(until: uint32) returns (ok: bool)
      modifies this
      ensures (View(), ok) == SkipMessageKeys(old(View()), until)
    {
      if CKr.None? {
        return true;
      }
      if until > (Nr + MAX_SKIPPED_KEYS) % TWO32 {
        return false;
      }
      while Nr < until
        invariant SkipLoop(View(), until) == SkipLoop(old(View()), until)
        invariant CKr.Some?
      {
        var ck := CKr.value;
        CKr := Some(NextChainKey(ck));
        MKSkipped := MKSkipped[SkippedKey(RemoteKey(DHr), Nr) := MessageKey(ck)];
        Nr := Nr + 1;
        if |MKSkipped| > MAX_SKIPPED_KEYS {
          return false;
        }
      }
      ok := true;
    }

    method RatchetStep(newDHr: Bytes, drawn: Bytes) returns (failure: Option<OmemoError>)
      modifies this
      ensures (View(), failure) == DhRatchetStep(old(View()), newDHr, drawn)
    {
      PN := Ns;
      Ns := 0;
      Nr := 0;
      var peer := Fit32(newDHr);
      DHr := Some(peer);
      var dh := X25519(DHs, peer);
      if dh.Err? {
        return Some(dh.error);
      }
      var (rk, ckr) := RootKdf(RK, dh.value);
      RK := rk;
      CKr := Some(ckr);
      DHs := drawn;
      dh := X25519(DHs, peer);
      if dh.Err? {
        return Some(dh.error);
      }
      var (rk2, cks) := RootKdf(RK, dh.value);
      RK := rk2;
      CKs := Some(cks);
      failure := None;
    }

    method MarshalBinary() returns (buf: Bytes, ghost order: seq<SkippedKey>)
      ensures IsOrder(order, MKSkipped)
      ensures buf == Encode(View(), order)
    {
      buf := DHs;
      buf := buf + PutOptional(DHr);
      buf := buf + RK;
      buf := buf + PutOptional(CKs);
      buf := buf + PutOptional(CKr);
      var counters := PutUint32(Ns);
      counters := counters + PutUint32(Nr);
      counters := counters + PutUint32(PN);
      counters := counters + PutUint32(|MKSkipped| % TWO32);
      buf := buf + counters;
      buf, order := this.WriteSkipped(buf);
    }

    /** Appends the skipped keys in whatever order the map yields them. */
    method WriteSkipped(prefix: Bytes) returns (buf: Bytes, ghost order: seq<SkippedKey>)
      ensures IsOrder(order, MKSkipped)
      ensures buf == prefix + PutEntries(MKSkipped, order)
    {
      buf, order := prefix, [];
      var left := MKSkipped.Keys;
      while left != {}
        invariant left <= MKSkipped.Keys
        invariant forall k :: k in order <==> k in MKSkipped && k !in left
        invariant forall i, j :: 0 <= i < j < |order| ==> order[i] != order[j]
        invariant buf == prefix + PutEntries(MKSkipped, order)
        decreases left
      {
        var k :| k in left;
        EntriesAppend(MKSkipped, order, k);
        buf := buf + PutEntry(k, MKSkipped[k]);
        order := order + [k];
        left := left - {k};
      }
    }

    /** Reads into this receiver, which keeps its remote key unless the data has one. */
    method UnmarshalBinary(data: Bytes) returns (failure: Option<OmemoError>)
      modifies this
      ensures failure.None? <==> DecodeOver(data, old(DHr)).Ok?
      ensures failure.None? ==> View() == DecodeOver(data, old(DHr)).value
    {
      DecodeParts(data, DHr);
      var keys := ReadKeys(data, DHr);
      if keys.Err? {
        return Some(keys.error);
      }
      DHs, DHr, RK := keys.value.0.dhs, keys.value.0.dhr, keys.value.0.rk;
      CKs, CKr := keys.value.0.cks, keys.value.0.ckr;
      CountersKeepKeys(keys.value.1, keys.value.0);
      var counters := ReadCounters(keys.value.1, keys.value.0);
      if counters.Err? {
        return Some(counters.error);
      }
      Ns, Nr, PN := counters.value.0.ns, counters.value.0.nr, counters.value.0.pn;
      failure := this.ReadSkipped(counters.value.1, counters.value.3, counters.value.2);
    }

    method ReadSkipped(count: uint32, data: Bytes, buffer: Bytes) returns (failure: Option<OmemoError>)
      requires |buffer| == 4
      modifies this`MKSkipped
      ensures failure.None? <==> ReadEntries(count, data, buffer, map[]).Ok?
      ensures failure.None? ==> MKSkipped == ReadEntries(count, data, buffer, map[]).value
    {
      var rest, b, left := data, buffer, count;
      MKSkipped := map[];
      ghost var goal := ReadEntries(count, data, buffer, map[]);
      while left > 0
        invariant 0 <= left && |b| == 4
        invariant ReadEntries(left, rest, b, MKSkipped) == goal
      {
        EntriesStep(left, rest, b, MKSkipped);
        var entry := ReadEntry(rest, b);
        if entry.Err? {
          return Some(entry.error);
        }
        MKSkipped := MKSkipped[entry.value.0 := entry.value.1];
        b, rest, left := entry.value.2, entry.value.3, left - 1;
      }
      failure := None;
    }
  }
}
