/**
  The binary formats of a ratchet header (crypto/omemo/ratchet_header.go) and of
  a ratchet state (crypto/omemo/ratchet.go).

  A state is written with its skipped keys in any order, since the source ranges
  over a map. Reading follows `bytes.Reader.Read`: it fails only at the end of the
  data and otherwise fills as much of the buffer as there is data for.
 */
module RatchetCodec {
  import opened Wrappers
  import opened Words
  import opened Octets
  import opened DoubleRatchet

  const HEADER_SIZE: nat := 40

  // --------------------------------------------------------------------------- header

  function EncodeHeader(h: Header): Result<Bytes> {
    if |h.dhPub| != 32 then Err(InvalidKeyLength)
    else Ok(h.dhPub + PutUint32(h.n) + PutUint32(h.pn))
  }

  function DecodeHeader(data: Bytes): Result<Header> {
    if |data| != HEADER_SIZE then Err(InvalidMessage)
    else Ok(Header(data[..32], GetUint32(data[32..36]), GetUint32(data[36..40])))
  }

  /** Reading a header undoes writing it, and only 40 octets are ever accepted. */
  lemma HeaderRoundTrip(h: Header)
    requires |h.dhPub| == 32
    ensures EncodeHeader(h).Ok? && |EncodeHeader(h).value| == HEADER_SIZE
    ensures DecodeHeader(EncodeHeader(h).value) == Ok(h)
  {
    var data := EncodeHeader(h).value;
    assert data[..32] == h.dhPub;
    assert data[32..36] == PutUint32(h.n) + [];
    assert data[36..40] == PutUint32(h.pn) + [];
    GetPutUint32(h.n, []);
    GetPutUint32(h.pn, []);
  }

  // -------------------------------------------------------------------------- writing

  predicate KeyOk(k: Option<Bytes>) {
    k.Some? ==> |k.value| == 32
  }

  predicate StoreOk(skipped: map<SkippedKey, Bytes>) {
    && |skipped| < TWO32
    && forall k :: k in skipped ==> |k.dhPub| == 32 && |skipped[k]| == 32
  }

  /** All keys have the length the format gives them. */
  predicate WellFormed(s: Ratchet) {
    && |s.dhs| == 32 && |s.rk| == 32
    && KeyOk(s.dhr) && KeyOk(s.cks) && KeyOk(s.ckr)
    && StoreOk(s.skipped)
  }

  /** An order in which a range over the map may visit its keys. */
  ghost predicate IsOrder(order: seq<SkippedKey>, skipped: map<SkippedKey, Bytes>) {
    && (forall k :: k in skipped <==> k in order)
    && (forall i, j :: 0 <= i < j < |order| ==> order[i] != order[j])
  }

  function PutOptional(k: Option<Bytes>): Bytes {
    match k
    case Some(b) => [Lit(1)] + b
    case None => [Lit(0)]
  }

  function PutEntry(k: SkippedKey, mk: Bytes): Bytes {
    k.dhPub + (PutUint32(k.n) + mk)
  }

  function PutEntries(skipped: map<SkippedKey, Bytes>, order: seq<SkippedKey>): Bytes
    requires forall k :: k in order ==> k in skipped
  {
    if order == [] then []
    else PutEntry(order[0], skipped[order[0]]) + PutEntries(skipped, order[1..])
  }

  function PutCounters(s: Ratchet): Bytes {
    PutUint32(s.ns) + PutUint32(s.nr) + PutUint32(s.pn) + PutUint32(|s.skipped| % TWO32)
  }

  function PutKeys(s: Ratchet): Bytes {
    s.dhs + PutOptional(s.dhr) + s.rk + PutOptional(s.cks) + PutOptional(s.ckr)
  }

  function Encode(s: Ratchet, order: seq<SkippedKey>): Bytes
    requires forall k :: k in order ==> k in s.skipped
  {
    PutKeys(s) + PutCounters(s) + PutEntries(s.skipped, order)
  }

  // -------------------------------------------------------------------------- reading

  /** What is in the buffer after one read, and what is left to read. */
  function Read(data: Bytes, buffer: Bytes): (r: Result<(Bytes, Bytes)>)
    ensures r.Ok? ==> |r.value.0| == |buffer| && |r.value.1| <= |data|
  {
    if |data| == 0 then Err(InvalidMessage)
    else
      var k := if |buffer| < |data| then |buffer| else |data|;
      Ok((data[..k] + buffer[k..], data[k..]))
  }

  function ReadByte(data: Bytes): (r: Result<(uint8, Bytes)>)
  {
    if |data| == 0 then Err(InvalidMessage) else Ok((Value(data[0]), data[1..]))
  }

  /** Any flag but 0 announces a key. */
  function ReadOptional(data: Bytes): Result<(Option<Bytes>, Bytes)> {
    var (flag, rest) :- ReadByte(data);
    if flag == 0 then Ok((None, rest))
    else
      var (key, rest2) :- Read(rest, Zeros(32));
      Ok((Some(key), rest2))
  }

  /** Only flag 1 announces the remote key, and otherwise the receiver keeps its own. */
  function ReadRemoteKey(data: Bytes, before: Option<Bytes>): Result<(Option<Bytes>, Bytes)> {
    var (flag, rest) :- ReadByte(data);
    if flag != 1 then Ok((before, rest))
    else
      var (key, rest2) :- Read(rest, Zeros(32));
      Ok((Some(key), rest2))
  }

  function ReadKeys(data: Bytes, before: Option<Bytes>): Result<(Ratchet, Bytes)> {
    var (dhs, r1) :- Read(data, Zeros(32));
    var (dhr, r2) :- ReadRemoteKey(r1, before);
    var (rk, r3) :- Read(r2, Zeros(32));
    var (cks, r4) :- ReadOptional(r3);
    var (ckr, r5) :- ReadOptional(r4);
    Ok((Ratchet(dhs, dhr, rk, cks, ckr, 0, 0, 0, map[]), r5))
  }

  /** The counters share one 4-octet buffer; it is returned for the entries to reuse. */
  function ReadCounters(data: Bytes, s: Ratchet): (r: Result<(Ratchet, uint32, Bytes, Bytes)>)
    ensures r.Ok? ==> |r.value.2| == 4
  {
    var (b1, r1) :- Read(data, Zeros(4));
    var (b2, r2) :- Read(r1, b1);
    var (b3, r3) :- Read(r2, b2);
    var (b4, r4) :- Read(r3, b3);
    Ok((s.(ns := GetUint32(b1), nr := GetUint32(b2), pn := GetUint32(b3)), GetUint32(b4), b4, r4))
  }

  function ReadEntry(data: Bytes, buffer: Bytes): (r: Result<(SkippedKey, Bytes, Bytes, Bytes)>)
    requires |buffer| == 4
    ensures r.Ok? ==> |r.value.2| == 4
  {
    var (dhPub, r1) :- Read(data, Zeros(32));
    var (b, r2) :- Read(r1, buffer);
    var (mk, r3) :- Read(r2, Zeros(32));
    Ok((SkippedKey(dhPub, GetUint32(b)), mk, b, r3))
  }

  function ReadEntries(count: nat, data: Bytes, buffer: Bytes, skipped: map<SkippedKey, Bytes>)
    : Result<map<SkippedKey, Bytes>>
    requires |buffer| == 4
    decreases count
  {
    if count == 0 then Ok(skipped)
    else
      var (k, mk, b, rest) :- ReadEntry(data, buffer);
      ReadEntries(count - 1, rest, b, skipped[k := mk])
  }

  lemma EntriesStep(count: nat, data: Bytes, buffer: Bytes, skipped: map<SkippedKey, Bytes>)
    requires |buffer| == 4 && count > 0
    ensures var entry := ReadEntry(data, buffer);
      && (entry.Err? ==> ReadEntries(count, data, buffer, skipped) == Err(entry.error))
      && (entry.Ok? ==>
            ReadEntries(count, data, buffer, skipped)
            == ReadEntries(count - 1, entry.value.3, entry.value.2, skipped[entry.value.0 := entry.value.1]))
  {
  }

  /** Reading into a receiver whose remote key was `before`; data after the entries is ignored. */
  function DecodeOver(data: Bytes, before: Option<Bytes>): Result<Ratchet> {
    var (s, r1) :- ReadKeys(data, before);
    var (s1, count, b, r2) :- ReadCounters(r1, s);
    var skipped :- ReadEntries(count, r2, b, map[]);
    Ok(s1.(skipped := skipped))
  }

  /** Reading goes keys first, then counters, then entries. */
  lemma DecodeParts(data: Bytes, before: Option<Bytes>)
    ensures var keys := ReadKeys(data, before);
      && (keys.Err? ==> DecodeOver(data, before).Err?)
      && (keys.Ok? ==>
            var counters := ReadCounters(keys.value.1, keys.value.0);
            && (counters.Err? ==> DecodeOver(data, before).Err?)
            && (counters.Ok? ==>
                  var entries := ReadEntries(counters.value.1, counters.value.3, counters.value.2, map[]);
                  && (entries.Err? ==> DecodeOver(data, before).Err?)
                  && (entries.Ok? ==> DecodeOver(data, before) == Ok(counters.value.0.(skipped := entries.value)))))
  {
  }

  /** The counters leave the keys alone. */
  lemma CountersKeepKeys(data: Bytes, s: Ratchet)
    ensures var r := ReadCounters(data, s);
      r.Ok? ==> r.value.0 == s.(ns := r.value.0.ns, nr := r.value.0.nr, pn := r.value.0.pn)
  {
  }

  /** Reading into a fresh receiver. */
  function Decode(data: Bytes): Result<Ratchet> {
    DecodeOver(data, None)
  }

  // ----------------------------------------------------------------------- round trip

  lemma ReadBack(x: Bytes, rest: Bytes, buffer: Bytes)
    requires |x| == |buffer| > 0
    ensures Read(x + rest, buffer) == Ok((x, rest))
  {
    assert (x + rest)[..|x|] + buffer[|x|..] == x;
    assert (x + rest)[|x|..] == rest;
  }

  lemma ReadByteBack(b: uint8, rest: Bytes)
    ensures ReadByte([Lit(b)] + rest) == Ok((b, rest))
  {
  }

  lemma ReadOptionalBack(k: Option<Bytes>, rest: Bytes)
    requires KeyOk(k)
    ensures ReadOptional(PutOptional(k) + rest) == Ok((k, rest))
    ensures ReadRemoteKey(PutOptional(k) + rest, None) == Ok((k, rest))
  {
    match k
    case None => ReadByteBack(0, rest);
    case Some(b) =>
      assert PutOptional(k) + rest == [Lit(1)] + (b + rest);
      ReadByteBack(1, b + rest);
      ReadBack(b, rest, Zeros(32));
  }

  lemma ReadKeysBack(s: Ratchet, rest: Bytes)
    requires WellFormed(s)
    ensures ReadKeys(PutKeys(s) + rest, None)
         == Ok((Ratchet(s.dhs, s.dhr, s.rk, s.cks, s.ckr, 0, 0, 0, map[]), rest))
  {
    var t4 := PutOptional(s.ckr) + rest;
    var t3 := PutOptional(s.cks) + t4;
    var t2 := s.rk + t3;
    var t1 := PutOptional(s.dhr) + t2;
    assert PutKeys(s) + rest == s.dhs + t1;
    ReadBack(s.dhs, t1, Zeros(32));
    ReadOptionalBack(s.dhr, t2);
    ReadBack(s.rk, t3, Zeros(32));
    ReadOptionalBack(s.cks, t4);
    ReadOptionalBack(s.ckr, rest);
  }

  lemma ReadCountersBack(s: Ratchet, t: Ratchet, rest: Bytes)
    requires |s.skipped| < TWO32
    ensures ReadCounters(PutCounters(s) + rest, t)
         == Ok((t.(ns := s.ns, nr := s.nr, pn := s.pn), |s.skipped|, PutUint32(|s.skipped|), rest))
  {
    var a, b, c, d := PutUint32(s.ns), PutUint32(s.nr), PutUint32(s.pn), PutUint32(|s.skipped|);
    assert PutCounters(s) + rest == a + (b + (c + (d + rest)));
    ReadBack(a, b + (c + (d + rest)), Zeros(4));
    ReadBack(b, c + (d + rest), a);
    ReadBack(c, d + rest, b);
    ReadBack(d, rest, c);
    GetPutUint32(s.ns, []);
    GetPutUint32(s.nr, []);
    GetPutUint32(s.pn, []);
    GetPutUint32(|s.skipped|, []);
  }

  lemma ReadEntryBack(k: SkippedKey, mk: Bytes, rest: Bytes, buffer: Bytes)
    requires |k.dhPub| == 32 && |mk| == 32 && |buffer| == 4
    ensures ReadEntry(PutEntry(k, mk) + rest, buffer) == Ok((k, mk, PutUint32(k.n), rest))
  {
    var n := PutUint32(k.n);
    assert PutEntry(k, mk) + rest == k.dhPub + (n + (mk + rest));
    ReadBack(k.dhPub, n + (mk + rest), Zeros(32));
    ReadBack(n, mk + rest, buffer);
    ReadBack(mk, rest, Zeros(32));
    GetPutUint32(k.n, []);
  }

  /** The map that storing the entries in this order leads to. */
  function Gather(skipped: map<SkippedKey, Bytes>, order: seq<SkippedKey>, acc: map<SkippedKey, Bytes>)
    : map<SkippedKey, Bytes>
    requires forall k :: k in order ==> k in skipped
  {
    if order == [] then acc
    else Gather(skipped, order[1..], acc[order[0] := skipped[order[0]]])
  }

  lemma {:induction false} ReadEntriesBack(
    skipped: map<SkippedKey, Bytes>, order: seq<SkippedKey>, buffer: Bytes, acc: map<SkippedKey, Bytes>)
    requires StoreOk(skipped) && |buffer| == 4
    requires forall k :: k in order ==> k in skipped
    ensures ReadEntries(|order|, PutEntries(skipped, order), buffer, acc) == Ok(Gather(skipped, order, acc))
    decreases |order|
  {
    if order == [] {
    } else {
      var k := order[0];
      ReadEntryBack(k, skipped[k], PutEntries(skipped, order[1..]), buffer);
      ReadEntriesBack(skipped, order[1..], PutUint32(k.n), acc[k := skipped[k]]);
    }
  }

  /** Gathering visits every key once, so the order does not matter. */
  lemma {:induction false} GatherAll(
    skipped: map<SkippedKey, Bytes>, order: seq<SkippedKey>, acc: map<SkippedKey, Bytes>)
    requires forall k :: k in order ==> k in skipped
    requires forall k :: k in skipped ==> k in order || (k in acc && acc[k] == skipped[k])
    requires acc.Keys <= skipped.Keys
    ensures Gather(skipped, order, acc) == skipped
    decreases |order|
  {
    if order == [] {
      assert acc == skipped;
    } else {
      var k := order[0];
      assert order == [k] + order[1..];
      GatherAll(skipped, order[1..], acc[k := skipped[k]]);
    }
  }

  /** Writing one more entry at the end. */
  lemma {:induction false} EntriesAppend(skipped: map<SkippedKey, Bytes>, order: seq<SkippedKey>, k: SkippedKey)
    requires k in skipped && forall k' :: k' in order ==> k' in skipped
    ensures PutEntries(skipped, order + [k]) == PutEntries(skipped, order) + PutEntry(k, skipped[k])
    decreases |order|
  {
    if order == [] {
      assert PutEntries(skipped, [k]) == PutEntry(k, skipped[k]) + PutEntries(skipped, [k][1..]);
    } else {
      EntriesAppend(skipped, order[1..], k);
      assert (order + [k])[1..] == order[1..] + [k];
    }
  }

  lemma {:induction false} OrderLength(order: seq<SkippedKey>, skipped: map<SkippedKey, Bytes>)
    requires IsOrder(order, skipped)
    ensures |order| == |skipped|
  {
    if order == [] {
      assert skipped == map[];
    } else {
      var rest := skipped - {order[0]};
      RestIsOrder(order, skipped);
      OrderLength(order[1..], rest);
      assert skipped.Keys == rest.Keys + {order[0]};
    }
  }

  lemma RestIsOrder(order: seq<SkippedKey>, skipped: map<SkippedKey, Bytes>)
    requires IsOrder(order, skipped) && order != []
    ensures IsOrder(order[1..], skipped - {order[0]}) && order[0] in skipped
  {
    assert order == [order[0]] + order[1..];
    forall k
      ensures k in skipped - {order[0]} <==> k in order[1..]
    {
      assert k in order <==> k == order[0] || k in order[1..];
    }
  }

  /**
    Loading a saved state gives the state back: every combination of optional
    keys, any number of skipped keys, and any order of writing them.
   */
  lemma RatchetRoundTrip(s: Ratchet, order: seq<SkippedKey>)
    requires WellFormed(s) && IsOrder(order, s.skipped)
    ensures Decode(Encode(s, order)) == Ok(s)
  {
    OrderLength(order, s.skipped);
    var entries := PutEntries(s.skipped, order);
    var t := Ratchet(s.dhs, s.dhr, s.rk, s.cks, s.ckr, 0, 0, 0, map[]);
    assert Encode(s, order) == PutKeys(s) + (PutCounters(s) + entries);
    ReadKeysBack(s, PutCounters(s) + entries);
    ReadCountersBack(s, t, entries);
    ReadEntriesBack(s.skipped, order, PutUint32(|s.skipped|), map[]);
    GatherAll(s.skipped, order, map[]);
  }
}
