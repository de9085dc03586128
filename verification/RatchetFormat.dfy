/**
  The saved form of headers and ratchet states, octet by octet, and what becomes of a
  saved state that was cut short.
 */
module RatchetFormat {
  import opened Wrappers
  import opened Words
  import opened Octets
  import opened DoubleRatchet
  import opened RatchetCodec

  // --------------------------------------------------------------------------------- layout

  /** `part` is in `b` from position `at` on. */
  predicate HasAt(b: Bytes, at: nat, part: Bytes) {
    at + |part| <= |b| && b[at..at + |part|] == part
  }

  /** `v` is in `b` from position `at` on, in four octets, the highest first. */
  predicate BigEndianAt(b: Bytes, at: nat, v: uint32) {
    && at + 4 <= |b|
    && b[at].Lit? && b[at + 1].Lit? && b[at + 2].Lit? && b[at + 3].Lit?
    && ((b[at].b * 256 + b[at + 1].b) * 256 + b[at + 2].b) * 256 + b[at + 3].b == v
  }

  /** A flag, and a key if the flag is 1. */
  predicate OptionalAt(b: Bytes, at: nat, k: Option<Bytes>) {
    if k.Some? then HasAt(b, at, [Lit(1)]) && HasAt(b, at + 1, k.value) else HasAt(b, at, [Lit(0)])
  }

  function OptionalSize(k: Option<Bytes>): nat {
    if k.Some? then 33 else 1
  }

  lemma Counter(v: uint32)
    ensures BigEndianAt(PutUint32(v), 0, v)
  {
    Shifts(v);
  }

  lemma Left(a: Bytes, c: Bytes, at: nat, part: Bytes)
    requires HasAt(a, at, part)
    ensures HasAt(a + c, at, part)
  {
    assert (a + c)[at..at + |part|] == a[at..at + |part|];
  }

  lemma Right(a: Bytes, c: Bytes, at: nat, part: Bytes)
    requires HasAt(c, at, part)
    ensures HasAt(a + c, |a| + at, part)
  {
    assert (a + c)[|a| + at..|a| + at + |part|] == c[at..at + |part|];
  }

  lemma Middle(a: Bytes, part: Bytes, c: Bytes)
    ensures HasAt(a + part + c, |a|, part)
  {
    Right(a, part, 0, part);
    Left(a + part, c, |a|, part);
  }

  lemma CounterAt(b: Bytes, at: nat, v: uint32)
    requires HasAt(b, at, PutUint32(v))
    ensures BigEndianAt(b, at, v)
  {
    Counter(v);
    var c := b[at..at + 4];
    assert b[at] == c[0] && b[at + 1] == c[1] && b[at + 2] == c[2] && b[at + 3] == c[3];
  }

  /** A header has the key first, then the number and the length of the previous chain. */
  lemma HeaderLayout(h: Header)
    requires |h.dhPub| == 32
    ensures var b := EncodeHeader(h);
      && b.Ok? && |b.value| == 40
      && HasAt(b.value, 0, h.dhPub) && BigEndianAt(b.value, 32, h.n) && BigEndianAt(b.value, 36, h.pn)
  {
    var b := EncodeHeader(h).value;
    assert [] + h.dhPub + (PutUint32(h.n) + PutUint32(h.pn)) == b;
    Middle([], h.dhPub, PutUint32(h.n) + PutUint32(h.pn));
    Middle(h.dhPub, PutUint32(h.n), PutUint32(h.pn));
    Right(h.dhPub + PutUint32(h.n), PutUint32(h.pn), 0, PutUint32(h.pn));
    CounterAt(b, 32, h.n);
    CounterAt(b, 36, h.pn);
  }

  lemma OptionalFrom(b: Bytes, at: nat, k: Option<Bytes>)
    requires KeyOk(k) && HasAt(b, at, PutOptional(k))
    ensures OptionalAt(b, at, k)
  {
    if k.Some? {
      var c := b[at..at + 33];
      assert c == [Lit(1)] + k.value;
      assert b[at..at + 1] == c[..1] && b[at + 1..at + 33] == c[1..];
    }
  }

  /** Parts written one after the other. */
  lemma FiveParts(a: Bytes, b: Bytes, c: Bytes, d: Bytes, e: Bytes, rest: Bytes)
    ensures var all := a + b + c + d + e + rest;
      && HasAt(all, 0, a) && HasAt(all, |a|, b) && HasAt(all, |a| + |b|, c)
      && HasAt(all, |a| + |b| + |c|, d) && HasAt(all, |a| + |b| + |c| + |d|, e)
  {
    Left(a, b, 0, a);
    Left(a + b, c, 0, a);
    Left(a + b + c, d, 0, a);
    Left(a + b + c + d, e, 0, a);
    Left(a + b + c + d + e, rest, 0, a);
    Middle(a, b, c);
    Left(a + b + c, d, |a|, b);
    Left(a + b + c + d, e, |a|, b);
    Left(a + b + c + d + e, rest, |a|, b);
    Middle(a + b, c, d);
    Left(a + b + c + d, e, |a + b|, c);
    Left(a + b + c + d + e, rest, |a + b|, c);
    Middle(a + b + c, d, e);
    Left(a + b + c + d + e, rest, |a + b + c|, d);
    Middle(a + b + c + d, e, rest);
  }

  /** Where each part of a state begins. */
  datatype Places = Places(rk: nat, cks: nat, ckr: nat, counters: nat, entries: nat)

  function PlacesOf(s: Ratchet): Places {
    var rk := 32 + OptionalSize(s.dhr);
    var cks := rk + 32;
    var ckr := cks + OptionalSize(s.cks);
    var counters := ckr + OptionalSize(s.ckr);
    Places(rk, cks, ckr, counters, counters + 16)
  }

  lemma OptionalLength(k: Option<Bytes>)
    requires KeyOk(k)
    ensures |PutOptional(k)| == OptionalSize(k)
  {
  }

  predicate KeysAt(b: Bytes, s: Ratchet) {
    var o := PlacesOf(s);
    && HasAt(b, 0, s.dhs) && OptionalAt(b, 32, s.dhr) && HasAt(b, o.rk, s.rk)
    && OptionalAt(b, o.cks, s.cks) && OptionalAt(b, o.ckr, s.ckr)
  }

  predicate CountersAt(b: Bytes, at: nat, s: Ratchet)
    requires |s.skipped| < TWO32
  {
    && BigEndianAt(b, at, s.ns) && BigEndianAt(b, at + 4, s.nr) && BigEndianAt(b, at + 8, s.pn)
    && BigEndianAt(b, at + 12, |s.skipped|)
  }

  predicate EntriesAt(b: Bytes, at: nat, skipped: map<SkippedKey, Bytes>, order: seq<SkippedKey>)
    requires forall k :: k in order ==> k in skipped
  {
    forall i :: 0 <= i < |order| ==> EntryAt(b, at + 68 * i, order[i], skipped[order[i]])
  }

  lemma KeysLength(s: Ratchet)
    requires WellFormed(s)
    ensures |PutKeys(s)| == PlacesOf(s).counters
  {
    OptionalLength(s.dhr);
    OptionalLength(s.cks);
    OptionalLength(s.ckr);
  }

  lemma KeysFrom(b: Bytes, s: Ratchet)
    requires WellFormed(s)
    requires var o := PlacesOf(s);
      && HasAt(b, 0, s.dhs) && HasAt(b, 32, PutOptional(s.dhr)) && HasAt(b, o.rk, s.rk)
      && HasAt(b, o.cks, PutOptional(s.cks)) && HasAt(b, o.ckr, PutOptional(s.ckr))
    ensures KeysAt(b, s)
  {
    var o := PlacesOf(s);
    OptionalFrom(b, 32, s.dhr);
    OptionalFrom(b, o.cks, s.cks);
    OptionalFrom(b, o.ckr, s.ckr);
  }

  lemma KeysLayout(s: Ratchet, rest: Bytes)
    requires WellFormed(s)
    ensures KeysAt(PutKeys(s) + rest, s)
  {
    var p1, p2, p3 := PutOptional(s.dhr), PutOptional(s.cks), PutOptional(s.ckr);
    OptionalLength(s.dhr);
    OptionalLength(s.cks);
    OptionalLength(s.ckr);
    FiveParts(s.dhs, p1, s.rk, p2, p3, rest);
    KeysFrom(s.dhs + p1 + s.rk + p2 + p3 + rest, s);
  }

  lemma CountersFrom(b: Bytes, at: nat, s: Ratchet)
    requires |s.skipped| < TWO32
    requires HasAt(b, at, PutUint32(s.ns)) && HasAt(b, at + 4, PutUint32(s.nr)) && HasAt(b, at + 8, PutUint32(s.pn))
    requires HasAt(b, at + 12, PutUint32(|s.skipped|))
    ensures CountersAt(b, at, s)
  {
    CounterAt(b, at, s.ns);
    CounterAt(b, at + 4, s.nr);
    CounterAt(b, at + 8, s.pn);
    CounterAt(b, at + 12, |s.skipped|);
  }

  lemma CountersAre(s: Ratchet)
    requires |s.skipped| < TWO32
    ensures PutCounters(s) == PutUint32(s.ns) + PutUint32(s.nr) + PutUint32(s.pn) + PutUint32(|s.skipped|)
  {
    assert |s.skipped| % TWO32 == |s.skipped|;
  }

  lemma CountersLayout(s: Ratchet, a: Bytes, rest: Bytes)
    requires |s.skipped| < TWO32
    ensures CountersAt(a + PutCounters(s) + rest, |a|, s)
  {
    CountersAre(s);
    FourAfter(a, PutUint32(s.ns), PutUint32(s.nr), PutUint32(s.pn), PutUint32(|s.skipped|), rest);
    CountersFrom(a + PutCounters(s) + rest, |a|, s);
  }

  lemma FourAfter(a: Bytes, b: Bytes, c: Bytes, d: Bytes, e: Bytes, rest: Bytes)
    requires |b| == 4 && |c| == 4 && |d| == 4 && |e| == 4
    ensures var all := a + (b + c + d + e) + rest;
      HasAt(all, |a|, b) && HasAt(all, |a| + 4, c) && HasAt(all, |a| + 8, d) && HasAt(all, |a| + 12, e)
  {
    FiveParts(a, b, c, d, e, rest);
    assert a + (b + c + d + e) + rest == a + b + c + d + e + rest;
  }

  /** A stored key: the ratchet key, the number and the message key, 68 octets in all. */
  predicate EntryAt(b: Bytes, at: nat, k: SkippedKey, mk: Bytes) {
    HasAt(b, at, k.dhPub) && BigEndianAt(b, at + 32, k.n) && HasAt(b, at + 36, mk)
  }

  lemma EntryLayout(k: SkippedKey, mk: Bytes, a: Bytes, rest: Bytes)
    requires |k.dhPub| == 32 && |mk| == 32
    ensures |PutEntry(k, mk)| == 68 && EntryAt(a + (PutEntry(k, mk) + rest), |a|, k, mk)
  {
    var b, n := a + (PutEntry(k, mk) + rest), PutUint32(k.n);
    assert b == a + k.dhPub + (n + mk + rest);
    Middle(a, k.dhPub, n + mk + rest);
    assert b == (a + k.dhPub) + n + (mk + rest);
    Middle(a + k.dhPub, n, mk + rest);
    assert b == (a + k.dhPub + n) + mk + rest;
    Middle(a + k.dhPub + n, mk, rest);
    CounterAt(b, |a| + 32, k.n);
  }

  lemma {:induction false} EntriesSize(skipped: map<SkippedKey, Bytes>, order: seq<SkippedKey>)
    requires StoreOk(skipped) && forall k :: k in order ==> k in skipped
    ensures |PutEntries(skipped, order)| == 68 * |order|
  {
    if order == [] {
    } else {
      EntriesSize(skipped, order[1..]);
    }
  }

  lemma {:induction false} EntriesLayout(skipped: map<SkippedKey, Bytes>, order: seq<SkippedKey>, a: Bytes, i: nat)
    requires StoreOk(skipped) && (forall k :: k in order ==> k in skipped) && i < |order|
    ensures EntryAt(a + PutEntries(skipped, order), |a| + 68 * i, order[i], skipped[order[i]])
    decreases i
  {
    var first, rest := PutEntry(order[0], skipped[order[0]]), PutEntries(skipped, order[1..]);
    EntryLayout(order[0], skipped[order[0]], a, rest);
    if i == 0 {
    } else {
      EntriesLayout(skipped, order[1..], a + first, i - 1);
      Regroup(a, first, rest);
      SamePlace(|a|, |a + first|, i);
    }
  }

  lemma SamePlace(m: nat, n: nat, i: nat)
    requires n == m + 68 && i > 0
    ensures n + 68 * (i - 1) == m + 68 * i
  {
  }

  lemma Regroup(a: Bytes, b: Bytes, c: Bytes)
    ensures a + (b + c) == (a + b) + c
  {
  }

  lemma AllEntries(skipped: map<SkippedKey, Bytes>, order: seq<SkippedKey>, a: Bytes)
    requires StoreOk(skipped) && (forall k :: k in order ==> k in skipped)
    ensures EntriesAt(a + PutEntries(skipped, order), |a|, skipped, order)
  {
    forall i | 0 <= i < |order|
      ensures EntryAt(a + PutEntries(skipped, order), |a| + 68 * i, order[i], skipped[order[i]])
    {
      EntriesLayout(skipped, order, a, i);
    }
  }

  /** Where everything is in a saved state, for every order in which the stored keys are written. */
  lemma RatchetLayout(s: Ratchet, order: seq<SkippedKey>)
    requires WellFormed(s) && IsOrder(order, s.skipped)
    ensures var b, o := Encode(s, order), PlacesOf(s);
      && |b| == o.entries + 68 * |s.skipped|
      && KeysAt(b, s) && CountersAt(b, o.counters, s) && EntriesAt(b, o.entries, s.skipped, order)
  {
    OrderLength(order, s.skipped);
    EntriesSize(s.skipped, order);
    KeysLength(s);
    Assemble(s, order, PutKeys(s), PutCounters(s), PutEntries(s.skipped, order));
  }

  lemma Assemble(s: Ratchet, order: seq<SkippedKey>, keys: Bytes, counters: Bytes, entries: Bytes)
    requires WellFormed(s) && IsOrder(order, s.skipped) && |keys| == PlacesOf(s).counters && |counters| == 16
    requires keys == PutKeys(s) && counters == PutCounters(s) && entries == PutEntries(s.skipped, order)
    ensures var b, o := keys + counters + entries, PlacesOf(s);
      KeysAt(b, s) && CountersAt(b, o.counters, s) && EntriesAt(b, o.entries, s.skipped, order)
  {
    KeysLayout(s, counters + entries);
    Regroup(keys, counters, entries);
    CountersLayout(s, keys, entries);
    AllEntries(s.skipped, order, keys + counters);
  }

  // ----------------------------------------------------------------------- a state cut short

  lemma TakeSum(x: Bytes, rest: Bytes, m: nat)
    requires m <= |x| + |rest|
    ensures m >= |x| ==> (x + rest)[..m] == x + rest[..m - |x|]
    ensures m <= |x| ==> (x + rest)[..m] == x[..m]
  {
  }

  /** Reading a field of which only `m` octets are left: what there is, or a failure if there is nothing. */
  lemma ReadShort(x: Bytes, buffer: Bytes, m: nat)
    requires m < |x| == |buffer|
    ensures Read(x[..m], buffer) == if m == 0 then Err(InvalidMessage) else Ok((x[..m] + buffer[m..], []))
  {
    assert x[..m][..m] == x[..m];
    assert x[..m][m..] == [];
  }

  lemma ReadCut(x: Bytes, rest: Bytes, buffer: Bytes, m: nat)
    requires |x| == |buffer| > 0 && m <= |x| + |rest|
    ensures var r := Read((x + rest)[..m], buffer);
      && (m >= |x| ==> r == Ok((x, rest[..m - |x|])))
      && (m < |x| ==> r == if m == 0 then Err(InvalidMessage) else Ok((x[..m] + buffer[m..], [])))
  {
    TakeSum(x, rest, m);
    if m >= |x| {
      ReadBack(x, rest[..m - |x|], buffer);
    } else {
      ReadShort(x, buffer, m);
    }
  }

  /** A reader of an optional key on its first `m` octets. */
  lemma OptionalCut(k: Option<Bytes>, rest: Bytes, m: nat)
    requires KeyOk(k) && m <= |PutOptional(k)| + |rest|
    ensures var r, remote := ReadOptional((PutOptional(k) + rest)[..m]), ReadRemoteKey((PutOptional(k) + rest)[..m], None);
      if m >= |PutOptional(k)| then r == remote == Ok((k, rest[..m - |PutOptional(k)|]))
      else (r.Err? || r.value.1 == []) && (remote.Err? || remote.value.1 == [])
  {
    TakeSum(PutOptional(k), rest, m);
    if m >= |PutOptional(k)| {
      ReadOptionalBack(k, rest[..m - |PutOptional(k)|]);
    } else if m > 0 {
      assert PutOptional(k)[..m] == [Lit(1)] + k.value[..m - 1];
      ReadByteBack(1, k.value[..m - 1]);
      ReadShort(k.value, Zeros(32), m - 1);
    }
  }

  lemma NoKeys()
    ensures ReadOptional([]).Err? && ReadRemoteKey([], None).Err? && Read([], Zeros(32)).Err?
  {
  }

  lemma KeysCut(s: Ratchet, rest: Bytes, m: nat)
    requires WellFormed(s) && m <= |PutKeys(s)| + |rest|
    ensures var r := ReadKeys((PutKeys(s) + rest)[..m], None);
      if m >= |PutKeys(s)| then r == Ok((Ratchet(s.dhs, s.dhr, s.rk, s.cks, s.ckr, 0, 0, 0, map[]), rest[..m - |PutKeys(s)|]))
      else r.Err? || r.value.1 == []
  {
    TakeSum(PutKeys(s), rest, m);
    if m >= |PutKeys(s)| {
      ReadKeysBack(s, rest[..m - |PutKeys(s)|]);
    } else {
      KeysShort(s.dhs, s.dhr, s.rk, s.cks, s.ckr, m);
    }
  }

  /** The reader of the keys after the first two. */
  lemma KeysFromRoot(rk: Bytes, cks: Option<Bytes>, ckr: Option<Bytes>, m: nat)
    requires |rk| == 32 && KeyOk(cks) && KeyOk(ckr) && m < |rk + (PutOptional(cks) + PutOptional(ckr))|
    ensures var r := Read((rk + (PutOptional(cks) + PutOptional(ckr)))[..m], Zeros(32));
      r.Ok? ==>
        var r1 := ReadOptional(r.value.1);
        r1.Ok? ==>
          var r2 := ReadOptional(r1.value.1);
          r2.Ok? ==> r2.value.1 == []
  {
    var p2, p3 := PutOptional(cks), PutOptional(ckr);
    NoKeys();
    ReadCut(rk, p2 + p3, Zeros(32), m);
    if m >= 32 {
      OptionalCut(cks, p3, m - 32);
      if m - 32 >= |p2| {
        EndsEmpty(p3);
        OptionalCut(ckr, [], m - 32 - |p2|);
      }
    }
  }

  lemma KeysShort(dhs: Bytes, dhr: Option<Bytes>, rk: Bytes, cks: Option<Bytes>, ckr: Option<Bytes>, m: nat)
    requires |dhs| == 32 && |rk| == 32 && KeyOk(dhr) && KeyOk(cks) && KeyOk(ckr)
    requires m < |dhs + PutOptional(dhr) + rk + PutOptional(cks) + PutOptional(ckr)|
    ensures var r := ReadKeys((dhs + PutOptional(dhr) + rk + PutOptional(cks) + PutOptional(ckr))[..m], None);
      r.Err? || r.value.1 == []
  {
    var p1, tail := PutOptional(dhr), rk + (PutOptional(cks) + PutOptional(ckr));
    FiveGroup(dhs, p1, rk, PutOptional(cks), PutOptional(ckr));
    NoKeys();
    ReadCut(dhs, p1 + tail, Zeros(32), m);
    if m >= 32 {
      OptionalCut(dhr, tail, m - 32);
      if m - 32 >= |p1| {
        KeysFromRoot(rk, cks, ckr, m - 32 - |p1|);
      }
    }
  }

  lemma FiveGroup(a: Bytes, b: Bytes, c: Bytes, d: Bytes, e: Bytes)
    ensures a + b + c + d + e == a + (b + (c + (d + e)))
  {
  }

  /** 256 to the power of `n`. */
  function Base(n: nat): nat
    requires 1 <= n <= 3
  {
    if n == 1 then 0x100 else if n == 2 then 0x1_0000 else 0x100_0000
  }

  function Octet(v: uint32, i: nat): uint8
    requires i < 4
  {
    PutUint32(v)[i].b
  }

  lemma OctetsOf(v: uint32)
    ensures Octet(v, 0) * 0x100_0000 + Octet(v, 1) * 0x1_0000 + Octet(v, 2) * 0x100 + Octet(v, 3) == v
  {
    Counter(v);
  }

  /** The number that four octets make is below a power, and leaves no remainder by it, as its octets say. */
  lemma SplitNumber(a: int, b: int, c: int, d: int, v: int)
    requires 0 <= a < 256 && 0 <= b < 256 && 0 <= c < 256 && 0 <= d < 256
    requires v == a * 0x100_0000 + b * 0x1_0000 + c * 0x100 + d
    ensures v < 0x100 <==> a == 0 && b == 0 && c == 0
    ensures v < 0x1_0000 <==> a == 0 && b == 0
    ensures v < 0x100_0000 <==> a == 0
    ensures v % 0x100 == d && v % 0x1_0000 == c * 0x100 + d && v % 0x100_0000 == b * 0x1_0000 + c * 0x100 + d
  {
    RemainderOne(a * 0x1_0000 + b * 0x100 + c, d);
    RemainderTwo(a * 0x100 + b, c * 0x100 + d);
    RemainderThree(a, b * 0x1_0000 + c * 0x100 + d);
  }

  lemma RemainderOne(q: int, r: int)
    requires 0 <= r < 0x100
    ensures (q * 0x100 + r) % 0x100 == r
  {
  }

  lemma RemainderTwo(q: int, r: int)
    requires 0 <= r < 0x1_0000
    ensures (q * 0x1_0000 + r) % 0x1_0000 == r
  {
  }

  lemma RemainderThree(q: int, r: int)
    requires 0 <= r < 0x100_0000
    ensures (q * 0x100_0000 + r) % 0x100_0000 == r
  {
  }

  /** A counter whose last `n` octets are still those of the counter before. */
  function Mixed(v: uint32, before: uint32, n: nat): (b: Bytes)
    requires 1 <= n <= 3
    ensures |b| == 4
  {
    PutUint32(v)[..4 - n] + PutUint32(before)[4 - n..]
  }

  lemma MixedOctets(v: uint32, before: uint32, n: nat)
    requires 1 <= n <= 3
    ensures forall i :: 0 <= i < 4 ==> Mixed(v, before, n)[i] == Lit(if i < 4 - n then Octet(v, i) else Octet(before, i))
  {
  }

  lemma MixedZero(v: uint32, before: uint32, n: nat)
    requires 1 <= n <= 3
    ensures GetUint32(Mixed(v, before, n)) == 0 <==> v < Base(n) && before % Base(n) == 0
  {
    MixedOctets(v, before, n);
    OctetsOf(v);
    OctetsOf(before);
    SplitNumber(Octet(v, 0), Octet(v, 1), Octet(v, 2), Octet(v, 3), v);
    SplitNumber(Octet(before, 0), Octet(before, 1), Octet(before, 2), Octet(before, 3), before);
    ZeroWhen(Mixed(v, before, n));
  }

  lemma ZeroWhen(b: Bytes)
    requires |b| == 4
    ensures GetUint32(b) == 0 <==> Value(b[0]) == 0 && Value(b[1]) == 0 && Value(b[2]) == 0 && Value(b[3]) == 0
  {
  }

  lemma CountersShort(a: Bytes, b: Bytes, c: Bytes, d: Bytes, t: Ratchet, m: nat)
    requires |a| == 4 && |b| == 4 && |c| == 4 && |d| == 4 && m < 16
    ensures var r := ReadCounters((a + (b + (c + d)))[..m], t);
      if m <= 12 then r.Err?
      else
        var mixed := d[..m - 12] + c[m - 12..];
        r == Ok((t.(ns := GetUint32(a), nr := GetUint32(b), pn := GetUint32(c)), GetUint32(mixed), mixed, []))
  {
    assert Read([], a).Err? && Read([], b).Err? && Read([], c).Err?;
    ReadCut(a, b + (c + d), Zeros(4), m);
    if m >= 4 {
      ReadCut(b, c + d, a, m - 4);
      if m >= 8 {
        assert c + d == c + (d + []);
        ReadCut(c, d, b, m - 8);
        if m >= 12 {
          ReadShort(d, c, m - 12);
        }
      } else {
        CountersEnd(b, m - 4);
      }
    } else {
      CountersEnd(a, m);
    }
  }

  lemma CountersEnd(x: Bytes, m: nat)
    requires |x| == 4 && m < 4
    ensures |x[..m] + Zeros(4)[m..]| == 4
  {
  }

  /** A message key of which the last `n` octets are lost. */
  function Blanked(mk: Bytes, n: nat): Bytes
    requires n <= |mk|
  {
    mk[..|mk| - n] + Zeros(n)
  }

  lemma ZerosFrom(n: nat, m: nat)
    requires m <= n
    ensures Zeros(n)[m..] == Zeros(n - m)
  {
  }

  lemma EntryShort(k: SkippedKey, mk: Bytes, buffer: Bytes, m: nat)
    requires |k.dhPub| == 32 && |mk| == 32 && |buffer| == 4 && m < 68
    ensures var r := ReadEntry(PutEntry(k, mk)[..m], buffer);
      if m <= 36 then r.Err? else r == Ok((k, Blanked(mk, 68 - m), PutUint32(k.n), []))
  {
    var n := PutUint32(k.n);
    assert Read([], buffer).Err? && Read([], Zeros(32)).Err?;
    ReadCut(k.dhPub, n + mk, Zeros(32), m);
    if m >= 32 {
      ReadCut(n, mk, buffer, m - 32);
      GetPutUint32(k.n, []);
      assert n + [] == n;
      if m >= 36 {
        ReadShort(mk, Zeros(32), m - 36);
        ZerosFrom(32, m - 36);
      }
    }
  }

  lemma EntryCut(k: SkippedKey, mk: Bytes, rest: Bytes, buffer: Bytes, m: nat)
    requires |k.dhPub| == 32 && |mk| == 32 && |buffer| == 4 && m <= 68 + |rest|
    ensures var r := ReadEntry((PutEntry(k, mk) + rest)[..m], buffer);
      if m >= 68 then r == Ok((k, mk, PutUint32(k.n), rest[..m - 68]))
      else if m <= 36 then r.Err?
      else r == Ok((k, Blanked(mk, 68 - m), PutUint32(k.n), []))
  {
    TakeSum(PutEntry(k, mk), rest, m);
    if m >= 68 {
      ReadEntryBack(k, mk, rest[..m - 68], buffer);
    } else {
      EntryShort(k, mk, buffer, m);
    }
  }

  lemma NoEntries(count: nat, buffer: Bytes, acc: map<SkippedKey, Bytes>)
    requires |buffer| == 4
    ensures ReadEntries(count, [], buffer, acc) == if count == 0 then Ok(acc) else Err(InvalidMessage)
  {
  }

  /** An order without repetition, all of it stored. */
  predicate OrderOf(skipped: map<SkippedKey, Bytes>, order: seq<SkippedKey>) {
    (forall k :: k in order ==> k in skipped) && (forall i, j :: 0 <= i < j < |order| ==> order[i] != order[j])
  }

  lemma OrderRest(skipped: map<SkippedKey, Bytes>, order: seq<SkippedKey>)
    requires OrderOf(skipped, order) && |order| > 1
    ensures OrderOf(skipped, order[1..]) && order[1..][|order| - 2] == order[|order| - 1] && order[|order| - 1] != order[0]
  {
  }

  /** The stored keys with the last `lost` octets of one of them blanked. */
  function Damaged(skipped: map<SkippedKey, Bytes>, k: SkippedKey, lost: nat): map<SkippedKey, Bytes>
    requires StoreOk(skipped) && k in skipped && lost < 32
  {
    skipped[k := Blanked(skipped[k], lost)]
  }

  /** What reading the entries comes to when `lost` octets are missing at their end. */
  predicate Outcome(r: Result<map<SkippedKey, Bytes>>, skipped: map<SkippedKey, Bytes>, order: seq<SkippedKey>,
                    acc: map<SkippedKey, Bytes>, lost: nat)
    requires StoreOk(skipped) && order != [] && OrderOf(skipped, order)
  {
    if lost < 32 then r == Ok(Gather(Damaged(skipped, order[|order| - 1], lost), order, acc)) else r.Err?
  }

  function CutEntries(skipped: map<SkippedKey, Bytes>, order: seq<SkippedKey>, lost: nat): Bytes
    requires (forall k :: k in order ==> k in skipped) && lost <= |PutEntries(skipped, order)|
  {
    PutEntries(skipped, order)[..|PutEntries(skipped, order)| - lost]
  }

  /** The entries cut short: only a cut in the last message key goes unnoticed. */
  lemma {:induction false} EntriesShort(
    skipped: map<SkippedKey, Bytes>, order: seq<SkippedKey>, buffer: Bytes, acc: map<SkippedKey, Bytes>, lost: nat)
    requires StoreOk(skipped) && |buffer| == 4 && order != [] && OrderOf(skipped, order)
    requires 0 < lost <= |PutEntries(skipped, order)|
    ensures Outcome(ReadEntries(|order|, CutEntries(skipped, order, lost), buffer, acc), skipped, order, acc, lost)
    decreases |order|
  {
    var k, m := order[0], |PutEntries(skipped, order)| - lost;
    EntriesSize(skipped, order);
    if |order| == 1 {
      OneEntryShort(skipped, order, buffer, acc, m);
    } else {
      OrderRest(skipped, order);
      EntriesSize(skipped, order[1..]);
      if m < 68 {
        FirstEntryShort(skipped, order, buffer, acc, m);
      } else if m == 68 {
        PastFirstEntry(skipped, order, buffer, acc, m);
        NoEntries(|order| - 1, PutUint32(k.n), acc[k := skipped[k]]);
      } else {
        EntriesShort(skipped, order[1..], PutUint32(k.n), acc[k := skipped[k]], lost);
        EntriesNext(skipped, order, buffer, acc, lost);
      }
    }
  }

  lemma EntriesNext(skipped: map<SkippedKey, Bytes>, order: seq<SkippedKey>, buffer: Bytes, acc: map<SkippedKey, Bytes>, lost: nat)
    requires StoreOk(skipped) && |buffer| == 4 && |order| > 1 && OrderOf(skipped, order) && OrderOf(skipped, order[1..])
    requires 0 < lost <= |PutEntries(skipped, order[1..])|
    requires var acc' := acc[order[0] := skipped[order[0]]];
      Outcome(ReadEntries(|order| - 1, CutEntries(skipped, order[1..], lost), PutUint32(order[0].n), acc'),
              skipped, order[1..], acc', lost)
    ensures lost <= |PutEntries(skipped, order)|
    ensures Outcome(ReadEntries(|order|, CutEntries(skipped, order, lost), buffer, acc), skipped, order, acc, lost)
  {
    NextRead(skipped, order, buffer, acc, lost);
    OutcomeNext(ReadEntries(|order|, CutEntries(skipped, order, lost), buffer, acc), skipped, order, acc, lost);
  }

  lemma NextRead(skipped: map<SkippedKey, Bytes>, order: seq<SkippedKey>, buffer: Bytes, acc: map<SkippedKey, Bytes>, lost: nat)
    requires StoreOk(skipped) && |buffer| == 4 && |order| > 1 && OrderOf(skipped, order)
    requires 0 < lost <= |PutEntries(skipped, order[1..])|
    ensures lost <= |PutEntries(skipped, order)|
    ensures ReadEntries(|order|, CutEntries(skipped, order, lost), buffer, acc)
      == ReadEntries(|order| - 1, CutEntries(skipped, order[1..], lost), PutUint32(order[0].n), acc[order[0] := skipped[order[0]]])
  {
    EntriesSize(skipped, order);
    EntriesSize(skipped, order[1..]);
    PastFirstEntry(skipped, order, buffer, acc, |PutEntries(skipped, order)| - lost);
  }

  lemma OutcomeNext(r: Result<map<SkippedKey, Bytes>>, skipped: map<SkippedKey, Bytes>, order: seq<SkippedKey>,
                    acc: map<SkippedKey, Bytes>, lost: nat)
    requires StoreOk(skipped) && |order| > 1 && OrderOf(skipped, order) && OrderOf(skipped, order[1..])
    requires Outcome(r, skipped, order[1..], acc[order[0] := skipped[order[0]]], lost)
    ensures Outcome(r, skipped, order, acc, lost)
  {
    OrderRest(skipped, order);
    if lost < 32 {
      GatherFirst(skipped, Damaged(skipped, order[|order| - 1], lost), order, acc);
    }
  }

  lemma PastFirstEntry(skipped: map<SkippedKey, Bytes>, order: seq<SkippedKey>, buffer: Bytes, acc: map<SkippedKey, Bytes>, m: nat)
    requires StoreOk(skipped) && |buffer| == 4 && order != [] && (forall k :: k in order ==> k in skipped)
    requires 68 <= m <= |PutEntries(skipped, order)|
    ensures |PutEntries(skipped, order)| == 68 + |PutEntries(skipped, order[1..])|
    ensures ReadEntries(|order|, PutEntries(skipped, order)[..m], buffer, acc)
      == ReadEntries(|order| - 1, PutEntries(skipped, order[1..])[..m - 68], PutUint32(order[0].n), acc[order[0] := skipped[order[0]]])
  {
    var k, rest := order[0], PutEntries(skipped, order[1..]);
    EntryCut(k, skipped[k], rest, buffer, m);
    EntriesStep(|order|, PutEntries(skipped, order)[..m], buffer, acc);
  }

  lemma FirstEntryShort(skipped: map<SkippedKey, Bytes>, order: seq<SkippedKey>, buffer: Bytes, acc: map<SkippedKey, Bytes>, m: nat)
    requires StoreOk(skipped) && |buffer| == 4 && |order| > 1 && (forall k :: k in order ==> k in skipped)
    requires m < 68 && m <= |PutEntries(skipped, order)|
    ensures ReadEntries(|order|, PutEntries(skipped, order)[..m], buffer, acc).Err?
  {
    var k, rest := order[0], PutEntries(skipped, order[1..]);
    EntryCut(k, skipped[k], rest, buffer, m);
    EntriesStep(|order|, PutEntries(skipped, order)[..m], buffer, acc);
    if m > 36 {
      NoEntries(|order| - 1, PutUint32(k.n), acc[k := Blanked(skipped[k], 68 - m)]);
    }
  }

  lemma OneEntryShort(skipped: map<SkippedKey, Bytes>, order: seq<SkippedKey>, buffer: Bytes, acc: map<SkippedKey, Bytes>, m: nat)
    requires StoreOk(skipped) && |buffer| == 4 && |order| == 1 && (forall k :: k in order ==> k in skipped)
    requires m < 68 && m <= |PutEntries(skipped, order)|
    ensures var r := ReadEntries(1, PutEntries(skipped, order)[..m], buffer, acc);
      if m > 36 then r == Ok(Gather(Damaged(skipped, order[0], 68 - m), order, acc)) else r.Err?
  {
    var k, rest := order[0], PutEntries(skipped, order[1..]);
    EntryCut(k, skipped[k], rest, buffer, m);
    EntriesStep(1, PutEntries(skipped, order)[..m], buffer, acc);
    if m > 36 {
      NoEntries(0, PutUint32(k.n), acc[k := Blanked(skipped[k], 68 - m)]);
      LastEntry(skipped, order, acc, 68 - m);
    }
  }

  lemma GatherFirst(skipped: map<SkippedKey, Bytes>, changed: map<SkippedKey, Bytes>, order: seq<SkippedKey>, acc: map<SkippedKey, Bytes>)
    requires order != [] && order[0] in skipped && order[0] in changed && changed[order[0]] == skipped[order[0]]
    requires forall k :: k in order ==> k in changed
    ensures Gather(changed, order, acc) == Gather(changed, order[1..], acc[order[0] := skipped[order[0]]])
  {
  }

  lemma LastEntry(skipped: map<SkippedKey, Bytes>, order: seq<SkippedKey>, acc: map<SkippedKey, Bytes>, lost: nat)
    requires StoreOk(skipped) && |order| == 1 && order[0] in skipped && lost < 32
    ensures Gather(Damaged(skipped, order[0], lost), order, acc) == acc[order[0] := Blanked(skipped[order[0]], lost)]
  {
    assert order[1..] == [];
  }

  lemma DecodeKeysShort(data: Bytes)
    requires ReadKeys(data, None).Err? || ReadKeys(data, None).value.1 == []
    ensures Decode(data).Err?
  {
    if ReadKeys(data, None).Ok? {
      assert ReadCounters([], ReadKeys(data, None).value.0).Err?;
    }
  }

  lemma DecodeFrom(data: Bytes, t: Ratchet, rest: Bytes)
    requires ReadKeys(data, None) == Ok((t, rest))
    ensures var counters := ReadCounters(rest, t);
      if counters.Err? then Decode(data).Err?
      else
        var entries := ReadEntries(counters.value.1, counters.value.3, counters.value.2, map[]);
        if entries.Err? then Decode(data).Err? else Decode(data) == Ok(counters.value.0.(skipped := entries.value))
  {
  }

  function Blank(s: Ratchet): Ratchet {
    Ratchet(s.dhs, s.dhr, s.rk, s.cks, s.ckr, 0, 0, 0, map[])
  }

  /** Whether a cut in the number of stored keys makes that number 0. */
  predicate ReadsAsNone(s: Ratchet, m: nat) {
    var o := PlacesOf(s);
    o.counters + 12 < m < o.entries && |s.skipped| < Base(o.entries - m) && s.pn % Base(o.entries - m) == 0
  }

  /** The four counters of a state as they are written. */
  lemma CounterParts(s: Ratchet, n: nat) returns (a: Bytes, b: Bytes, c: Bytes, d: Bytes)
    requires WellFormed(s) && 1 <= n <= 3
    ensures |a| == 4 && |b| == 4 && |c| == 4 && |d| == 4 && PutCounters(s) == a + b + c + d
    ensures GetUint32(a) == s.ns && GetUint32(b) == s.nr && GetUint32(c) == s.pn
    ensures Mixed(|s.skipped|, s.pn, n) == d[..4 - n] + c[4 - n..]
  {
    CountersAre(s);
    a, b, c, d := PutUint32(s.ns), PutUint32(s.nr), PutUint32(s.pn), PutUint32(|s.skipped|);
    CounterValue(s.ns);
    CounterValue(s.nr);
    CounterValue(s.pn);
  }

  lemma ShortCounters(s: Ratchet, entries: Bytes, j: nat)
    requires WellFormed(s) && j < 16
    ensures |PutCounters(s)| == 16
    ensures var r := ReadCounters((PutCounters(s) + entries)[..j], Blank(s));
      if j <= 12 then r.Err?
      else
        var mixed := Mixed(|s.skipped|, s.pn, 16 - j);
        r == Ok((s.(skipped := map[]), GetUint32(mixed), mixed, []))
  {
    var a, b, c, d := CounterParts(s, if j <= 12 then 1 else 16 - j);
    CountersTaken(a, b, c, d, entries, j);
    CountersShort(a, b, c, d, Blank(s), j);
  }

  lemma CutInCounters(s: Ratchet, rest: Bytes, data: Bytes, m: nat)
    requires WellFormed(s) && PlacesOf(s).counters <= m < PlacesOf(s).entries
    requires ReadKeys(data, None) == Ok((Blank(s), rest))
    requires var j, r := m - PlacesOf(s).counters, ReadCounters(rest, Blank(s));
      if j <= 12 then r.Err?
      else
        var mixed := Mixed(|s.skipped|, s.pn, 16 - j);
        r == Ok((s.(skipped := map[]), GetUint32(mixed), mixed, []))
    ensures if ReadsAsNone(s, m) then Decode(data) == Ok(s.(skipped := map[])) else Decode(data).Err?
  {
    var j := m - PlacesOf(s).counters;
    DecodeFrom(data, Blank(s), rest);
    if j > 12 {
      MixedZero(|s.skipped|, s.pn, 16 - j);
      var mixed := Mixed(|s.skipped|, s.pn, 16 - j);
      NoEntries(GetUint32(mixed), mixed, map[]);
    }
  }

  lemma CounterValue(v: uint32)
    ensures GetUint32(PutUint32(v)) == v
  {
    GetPutUint32(v, []);
    assert PutUint32(v) + [] == PutUint32(v);
  }

  lemma CountersTaken(a: Bytes, b: Bytes, c: Bytes, d: Bytes, rest: Bytes, j: nat)
    requires |a| == 4 && |b| == 4 && |c| == 4 && |d| == 4 && j < 16
    ensures (a + b + c + d + rest)[..j] == (a + (b + (c + d)))[..j]
  {
    assert a + b + c + d == a + (b + (c + d));
    TakeSum(a + b + c + d, rest, j);
  }

  lemma CutInEntries(s: Ratchet, order: seq<SkippedKey>, data: Bytes, lost: nat)
    requires WellFormed(s) && IsOrder(order, s.skipped) && order != [] && 0 < lost <= |PutEntries(s.skipped, order)|
    requires ReadKeys(data, None) == Ok((Blank(s), PutCounters(s) + CutEntries(s.skipped, order, lost)))
    ensures if lost < 32 then Decode(data) == Ok(s.(skipped := Damaged(s.skipped, order[|order| - 1], lost)))
      else Decode(data).Err?
  {
    var entries := CutEntries(s.skipped, order, lost);
    OrderLength(order, s.skipped);
    ReadCountersBack(s, Blank(s), entries);
    DecodeFrom(data, Blank(s), PutCounters(s) + entries);
    var b := PutUint32(|s.skipped|);
    EntriesShort(s.skipped, order, b, map[], lost);
    EntriesValue(s.skipped, order, b, lost);
  }

  lemma EntriesValue(skipped: map<SkippedKey, Bytes>, order: seq<SkippedKey>, buffer: Bytes, lost: nat)
    requires StoreOk(skipped) && |buffer| == 4 && order != [] && OrderOf(skipped, order) && IsOrder(order, skipped)
    requires 0 < lost <= |PutEntries(skipped, order)|
    requires Outcome(ReadEntries(|order|, CutEntries(skipped, order, lost), buffer, map[]), skipped, order, map[], lost)
    ensures var r := ReadEntries(|order|, CutEntries(skipped, order, lost), buffer, map[]);
      if lost < 32 then r == Ok(Damaged(skipped, order[|order| - 1], lost)) else r.Err?
  {
    if lost < 32 {
      GatherAll(Damaged(skipped, order[|order| - 1], lost), order, map[]);
    }
  }

  /** What loading the first `m` octets of a saved state comes to. */
  ghost predicate CutResult(r: Result<Ratchet>, s: Ratchet, order: seq<SkippedKey>, m: nat)
    requires WellFormed(s) && IsOrder(order, s.skipped) && m < PlacesOf(s).entries + 68 * |order|
  {
    var lost := PlacesOf(s).entries + 68 * |order| - m;
    if order != [] && lost < 32 then r == Ok(s.(skipped := Damaged(s.skipped, order[|order| - 1], lost)))
    else if ReadsAsNone(s, m) then r == Ok(s.(skipped := map[]))
    else r.Err?
  }

  /**
    A saved state that was cut short is refused, with two exceptions, which hold exactly under
    the conditions given. If the cut is in the last message key, the state loads and the lost
    octets of that key are 0. If it is in the number of stored keys, and the octets that are
    left of it and the octets of the counter before in their place are 0, the state loads
    without any stored key.
   */
  lemma TruncationTheorem(s: Ratchet, order: seq<SkippedKey>, m: nat)
    requires WellFormed(s) && IsOrder(order, s.skipped) && m < |Encode(s, order)|
    ensures |Encode(s, order)| == PlacesOf(s).entries + 68 * |order|
    ensures CutResult(Decode(Encode(s, order)[..m]), s, order, m)
  {
    EncodeLength(s, order);
    KeysOfCut(s, order, m);
    var data, o := Encode(s, order)[..m], PlacesOf(s);
    if m < o.counters {
      DecodeKeysShort(data);
    } else if m < o.entries {
      InCounters(s, order, data, m);
    } else {
      InEntries(s, order, data, m);
    }
  }

  lemma EncodeLength(s: Ratchet, order: seq<SkippedKey>)
    requires WellFormed(s) && IsOrder(order, s.skipped)
    ensures |PutEntries(s.skipped, order)| == 68 * |order|
    ensures |Encode(s, order)| == PlacesOf(s).entries + |PutEntries(s.skipped, order)|
  {
    KeysLength(s);
    EntriesSize(s.skipped, order);
  }

  lemma KeysOfCut(s: Ratchet, order: seq<SkippedKey>, m: nat)
    requires WellFormed(s) && IsOrder(order, s.skipped) && m < |Encode(s, order)|
    ensures var r, o := ReadKeys(Encode(s, order)[..m], None), PlacesOf(s);
      if m >= o.counters
      then r == Ok((Blank(s), (PutCounters(s) + PutEntries(s.skipped, order))[..m - o.counters]))
      else r.Err? || r.value.1 == []
  {
    KeysLength(s);
    Regroup(PutKeys(s), PutCounters(s), PutEntries(s.skipped, order));
    KeysCut(s, PutCounters(s) + PutEntries(s.skipped, order), m);
  }

  lemma InCounters(s: Ratchet, order: seq<SkippedKey>, data: Bytes, m: nat)
    requires WellFormed(s) && IsOrder(order, s.skipped) && PlacesOf(s).counters <= m < PlacesOf(s).entries
    requires ReadKeys(data, None)
      == Ok((Blank(s), (PutCounters(s) + PutEntries(s.skipped, order))[..m - PlacesOf(s).counters]))
    ensures CutResult(Decode(data), s, order, m)
  {
    var j, entries := m - PlacesOf(s).counters, PutEntries(s.skipped, order);
    ShortCounters(s, entries, j);
    CutInCounters(s, (PutCounters(s) + entries)[..j], data, m);
  }

  lemma InEntries(s: Ratchet, order: seq<SkippedKey>, data: Bytes, m: nat)
    requires WellFormed(s) && IsOrder(order, s.skipped) && |PutEntries(s.skipped, order)| == 68 * |order|
    requires PlacesOf(s).entries <= m < PlacesOf(s).entries + 68 * |order|
    requires ReadKeys(data, None)
      == Ok((Blank(s), (PutCounters(s) + PutEntries(s.skipped, order))[..m - PlacesOf(s).counters]))
    ensures CutResult(Decode(data), s, order, m)
  {
    TakeSum(PutCounters(s), PutEntries(s.skipped, order), m - PlacesOf(s).counters);
    CutInEntries(s, order, data, PlacesOf(s).entries + 68 * |order| - m);
  }
}
