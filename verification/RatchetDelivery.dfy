/**
  One message that reaches one side of a conversation: when it decrypts, to what, and
  where that leaves the side on its schedule. The same for a message that comes again.
 */
module RatchetDelivery {
  import opened Wrappers
  import opened Words
  import opened Octets
  import opened DoubleRatchet
  import opened RatchetHistory
  import opened KeyOrder

  // ------------------------------------------------------------------ when decryption fits

  /** `count` stored keys leave room to skip from `nr` up to `until`: at most 1000 are stored and the bound does not wrap. */
  predicate Room(count: nat, nr: uint32, until: uint32) {
    && until <= (nr + 1000) % TWO32
    && (nr < until ==> count + until - nr <= 1000)
  }

  /** Whether the end of the old receiving chain can be passed over. */
  predicate RoomToLeave(s: Ratchet, hd: Header) {
    s.ckr.Some? ==> Room(|s.skipped|, s.nr, hd.pn)
  }

  function StoredOnLeaving(s: Ratchet, hd: Header): nat {
    |s.skipped| + (if s.ckr.Some? then Max(0, hd.pn - s.nr) else 0)
  }

  /**
    What a receiver can check before decrypting an unaltered message: its key is
    already stored, or the keys to be skipped fit into the store.
   */
  predicate WithinLimits(s: Ratchet, h: Header) {
    || SlotOf(h) in s.skipped
    || (if NewRemoteKey(s, h) then RoomToLeave(s, h) && Room(StoredOnLeaving(s, h), 0, h.n)
        else Room(|s.skipped|, s.nr, h.n))
  }

  /** A message sent to the side in epoch `e` that has not reached it. */
  predicate Pending(h: History, e: nat, m: MessageId) {
    && 0 < m.epoch < |h.sent|
    && m.num < |h.sent[m.epoch]|
    && SenderOf(m.epoch) != SenderOf(e)
    && m !in h.spent
  }

  /** The history after a decryption that took a side from `s` to `s'`. */
  function Recorded(h: History, s: Ratchet, s': Ratchet, m: MessageId, r: Result<Bytes>): History {
    var h1 := if s'.dhs == s.dhs then h else Draw(h, s'.dhs);
    if r.Ok? then Spend(h1, m) else h1
  }

  // ---------------------------------------------------------------- the steps of decryption

  lemma EntersBy(s: Ratchet, hd: Header, drawn: Bytes, left: Ratchet)
    requires NewRemoteKey(s, hd) && SkipMessageKeys(s, hd.pn) == (left, true)
    ensures EnterChain(s, hd, drawn) == DhRatchetStep(left, hd.dhPub, drawn)
  {
  }

  // ----------------------------------------------------------------- one delivery, by cases

  lemma OpensTo(h: History, m: MessageId)
    requires HistoryOk(h) && 0 < m.epoch < |h.sent| && m.num < |h.sent[m.epoch]|
    ensures var msg := h.sent[m.epoch][m.num];
      && DecryptWithNonce(KeyOf(h.plan, m.epoch, m.num), msg.data) == Ok(msg.plain)
      && m.num < TWO32
      && msg.header.dhPub == PublicKey(h.plan.keys[m.epoch])
      && SlotOf(msg.header) == Slot(h.plan, m)
      && msg.header.n == m.num && msg.header.pn == Length(h, m.epoch - 2)
  {
    assert WellSent(h, m.epoch, m.num);
    var msg := h.sent[m.epoch][m.num];
    DecryptSealed(KeyOf(h.plan, m.epoch, m.num), msg.nonce, msg.plain);
  }

  /** The key was stored when the message was passed over. */
  lemma DeliverStored(h: History, s: Ratchet, e: nat, m: MessageId, drawn: Bytes)
    requires HistoryOk(h) && e < |h.plan.keys| && InEpoch(h, s, e)
    requires Pending(h, e, m) && PassedOver(h, e, s.nr, m)
    ensures var msg := h.sent[m.epoch][m.num];
      var (s', r) := Decrypt(s, msg.header, msg.data, drawn);
      && WithinLimits(s, msg.header)
      && r == Ok(msg.plain)
      && s'.dhs == s.dhs
      && InEpoch(Spend(h, m), s', e)
  {
    OpensTo(h, m);
    assert m in Passed(h, e, s.nr);
    ForgetKeeps(h, s, e, m);
  }

  /** A message that was not passed over is not stored. */
  lemma NotStoredYet(h: History, s: Ratchet, e: nat, m: MessageId)
    requires HistoryOk(h) && e < |h.plan.keys| && InEpoch(h, s, e)
    requires Pending(h, e, m) && !PassedOver(h, e, s.nr, m)
    ensures var msg := h.sent[m.epoch][m.num];
      && SlotOf(msg.header) !in s.skipped
      && ForgetSkipped(s, msg.header) == s
      && TrySkippedKeys(s, msg.header, msg.data).Err?
  {
    OpensTo(h, m);
    NoSlot(h.plan, Passed(h, e, s.nr), s.skipped, m);
    ForgetAbsent(s, h.sent[m.epoch][m.num].header);
  }

  /** What is not passed over has no slot in the store. */
  lemma NoSlot(c: Schedule, passed: iset<MessageId>, skipped: map<SkippedKey, Bytes>, m: MessageId)
    requires DistinctKeys(c) && Stores(c, passed, skipped) && m !in passed
    requires m.epoch < |c.keys| && m.num < TWO32
    ensures Slot(c, m) !in skipped
  {
    IdOfSlot(c, m);
  }

  lemma ForgetAbsent(s: Ratchet, hd: Header)
    requires SlotOf(hd) !in s.skipped
    ensures ForgetSkipped(s, hd) == s
  {
    assert s.skipped - {SlotOf(hd)} == s.skipped;
  }

  /** What room amounts to in terms of the two checks of skipping. */
  lemma RoomIs(count: nat, nr: uint32, until: uint32)
    ensures Room(count, nr, until) <==> until <= SkipBound(nr) && (until <= nr || count + until - nr <= MAX_SKIPPED_KEYS)
  {
  }

  lemma SkipIs(s: Ratchet, n: uint32)
    requires s.ckr.Some?
    ensures SkipMessageKeys(s, n) == if n > SkipBound(s.nr) then (s, false) else SkipLoop(s, n)
  {
  }

  lemma SkipTo(h: History, s: Ratchet, e: nat, n: uint32)
    requires Sound(h) && 2 <= e < |h.plan.keys| && InEpoch(h, s, e)
    requires s.nr <= n < Length(h, e - 1)
    ensures var (s1, ok) := SkipMessageKeys(s, n);
      && InEpoch(h, s1, e)
      && (ok <==> Room(|s.skipped|, s.nr, n))
      && (ok ==> s1.nr == n)
  {
    RoomIs(|s.skipped|, s.nr, n);
    SkipIs(s, n);
    if n <= SkipBound(s.nr) {
      SkipLoopKeeps(h, s, e, n);
    }
  }

  /** From the message's own chain: skip up to it and take its key. */
  lemma SkipAndTake(h: History, s: Ratchet, e: nat, n: uint32)
    requires Sound(h) && 2 <= e < |h.plan.keys| && InEpoch(h, s, e)
    requires s.nr <= n < Length(h, e - 1)
    ensures var (s1, ok) := SkipMessageKeys(s, n);
      && InEpoch(h, s1, e)
      && (ok <==> Room(|s.skipped|, s.nr, n))
      && (ok ==>
            var (s2, mk) := TakeReceivingKey(s1);
            mk == KeyOf(h.plan, e - 1, n) && InEpoch(Spend(h, Id(e - 1, n)), s2, e))
  {
    SkipTo(h, s, e, n);
    var (s1, ok) := SkipMessageKeys(s, n);
    if ok {
      TakeKeeps(h, s1, e);
    }
  }

  lemma DeliverSameChain(h: History, s: Ratchet, e: nat, m: MessageId, drawn: Bytes)
    requires HistoryOk(h) && e < |h.plan.keys| && InEpoch(h, s, e)
    requires Pending(h, e, m) && m.epoch == e - 1 && s.nr <= m.num
    ensures var msg := h.sent[m.epoch][m.num];
      var (s', r) := Decrypt(s, msg.header, msg.data, drawn);
      && r == (if WithinLimits(s, msg.header) then Ok(msg.plain) else Err(SkippedKeyLimit))
      && InEpoch(if r.Ok? then Spend(h, m) else h, s', e)
  {
    OpensTo(h, m);
    NotStoredYet(h, s, e, m);
    SkipAndTake(h, s, e, m.num);
  }

  lemma LeaveKeeps(h: History, s: Ratchet, e: nat, hd: Header)
    requires Sound(h) && |h.plan.keys| == e + 2 && InEpoch(h, s, e)
    requires hd.dhPub == PublicKey(h.plan.keys[e + 1]) && hd.pn == Length(h, e - 1)
    requires RoomToLeave(s, hd)
    ensures NewRemoteKey(s, hd)
    ensures var (s0, ok) := SkipMessageKeys(s, hd.pn);
      ok && s0.nr >= hd.pn && |s0.skipped| == StoredOnLeaving(s, hd) && InEpoch(h, s0, e)
  {
    LeaveIsNew(h, s, e, hd);
    if e >= 2 {
      LeaveSkips(h, s, e, hd.pn);
    }
  }

  lemma LeaveSkips(h: History, s: Ratchet, e: nat, pn: uint32)
    requires Sound(h) && 2 <= e < |h.plan.keys| && InEpoch(h, s, e) && pn == Length(h, e - 1)
    requires Room(|s.skipped|, s.nr, pn)
    ensures var (s0, ok) := SkipMessageKeys(s, pn);
      ok && s0.nr >= pn && |s0.skipped| == |s.skipped| + Max(0, pn - s.nr) && InEpoch(h, s0, e)
  {
    RoomIs(|s.skipped|, s.nr, pn);
    SkipIs(s, pn);
    SkipLoopKeeps(h, s, e, pn);
  }

  lemma LeaveIsNew(h: History, s: Ratchet, e: nat, hd: Header)
    requires Sound(h) && |h.plan.keys| == e + 2 && OnSchedule(h, s, e)
    requires hd.dhPub == PublicKey(h.plan.keys[e + 1])
    ensures NewRemoteKey(s, hd)
  {
  }

  /** The end of the old receiving chain is passed over and the next chain entered. */
  lemma EnterNext(h: History, s: Ratchet, e: nat, hd: Header, drawn: Bytes)
    requires Sound(h) && |h.plan.keys| == e + 2 && InEpoch(h, s, e)
    requires hd.dhPub == PublicKey(h.plan.keys[e + 1]) && hd.pn == Length(h, e - 1)
    requires Sound(Draw(h, drawn)) && RoomToLeave(s, hd)
    ensures EnterChain(s, hd, drawn).1.None?
    ensures var s1 := EnterChain(s, hd, drawn).0;
      && s1.dhs == drawn && s1.nr == 0 && s1.ckr.Some?
      && |s1.skipped| == StoredOnLeaving(s, hd)
      && InEpoch(Draw(h, drawn), s1, e + 2)
  {
    LeaveKeeps(h, s, e, hd);
    var s0 := SkipMessageKeys(s, hd.pn).0;
    EntersBy(s, hd, drawn, s0);
    DhStepKeeps(h, s0, e, drawn);
  }

  lemma EnterNextFails(h: History, s: Ratchet, e: nat, hd: Header, drawn: Bytes)
    requires Sound(h) && |h.plan.keys| == e + 2 && InEpoch(h, s, e)
    requires hd.dhPub == PublicKey(h.plan.keys[e + 1]) && hd.pn == Length(h, e - 1)
    requires !RoomToLeave(s, hd)
    ensures NewRemoteKey(s, hd)
    ensures EnterChain(s, hd, drawn).1 == Some(SkippedKeyLimit)
    ensures EnterChain(s, hd, drawn).0.dhs == s.dhs
    ensures InEpoch(h, EnterChain(s, hd, drawn).0, e)
  {
    LeaveIsNew(h, s, e, hd);
    LeaveFails(h, s, e, hd.pn);
    StaysBy(s, hd, drawn);
  }

  lemma LeaveFails(h: History, s: Ratchet, e: nat, pn: uint32)
    requires Sound(h) && 2 <= e < |h.plan.keys| && InEpoch(h, s, e) && pn == Length(h, e - 1)
    requires !Room(|s.skipped|, s.nr, pn)
    ensures var (s1, ok) := SkipMessageKeys(s, pn); !ok && s1.dhs == s.dhs && InEpoch(h, s1, e)
  {
    RoomIs(|s.skipped|, s.nr, pn);
    SkipIs(s, pn);
    if pn <= SkipBound(s.nr) {
      SkipLoopKeeps(h, s, e, pn);
    }
  }

  lemma StaysBy(s: Ratchet, hd: Header, drawn: Bytes)
    requires NewRemoteKey(s, hd) && !SkipMessageKeys(s, hd.pn).1
    ensures EnterChain(s, hd, drawn) == (SkipMessageKeys(s, hd.pn).0, Some(SkippedKeyLimit))
  {
  }

  /** Once the chain is entered: the key of the message, or the limit. */
  lemma DeriveEntered(h: History, s: Ratchet, s1: Ratchet, e: nat, hd: Header, drawn: Bytes)
    requires Sound(h) && 2 <= e < |h.plan.keys| && InEpoch(h, s1, e) && s1.nr == 0
    requires EnterChain(s, hd, drawn) == (s1, None) && hd.n < Length(h, e - 1)
    ensures var (s', mk) := DeriveKey(s, hd, drawn);
      && s'.dhs == s1.dhs
      && (Room(|s1.skipped|, 0, hd.n) ==> mk == Ok(KeyOf(h.plan, e - 1, hd.n)) && InEpoch(Spend(h, Id(e - 1, hd.n)), s', e))
      && (!Room(|s1.skipped|, 0, hd.n) ==> mk == Err(SkippedKeyLimit) && InEpoch(h, s', e))
  {
    SkipAndTake(h, s1, e, hd.n);
  }

  /** What the limits amount to for a message of the next chain. */
  lemma LeaveFirst(h: History, s: Ratchet, e: nat, hd: Header)
    requires Sound(h) && |h.plan.keys| == e + 2 && OnSchedule(h, s, e)
    requires hd.dhPub == PublicKey(h.plan.keys[e + 1]) && SlotOf(hd) !in s.skipped
    ensures NewRemoteKey(s, hd)
    ensures WithinLimits(s, hd) <==> RoomToLeave(s, hd) && Room(StoredOnLeaving(s, hd), 0, hd.n)
  {
  }

  /** A derivation that fails on entering fails. */
  lemma DerivesNot(s: Ratchet, hd: Header, drawn: Bytes)
    requires EnterChain(s, hd, drawn).1.Some?
    ensures DeriveKey(s, hd, drawn) == (EnterChain(s, hd, drawn).0, Err(EnterChain(s, hd, drawn).1.value))
  {
  }

  /** With room to leave the old chain: the key of a message of the next one, or the limit there. */
  lemma DeriveNext(h: History, s: Ratchet, e: nat, hd: Header, drawn: Bytes)
    requires Sound(h) && |h.plan.keys| == e + 2 && InEpoch(h, s, e)
    requires hd.dhPub == PublicKey(h.plan.keys[e + 1]) && hd.pn == Length(h, e - 1)
    requires hd.n < Length(h, e + 1) && Sound(Draw(h, drawn)) && RoomToLeave(s, hd)
    ensures var (s', mk) := DeriveKey(s, hd, drawn);
      var h1 := Draw(h, drawn);
      && s'.dhs == drawn
      && (Room(StoredOnLeaving(s, hd), 0, hd.n) ==>
            mk == Ok(KeyOf(h1.plan, e + 1, hd.n)) && InEpoch(Spend(h1, Id(e + 1, hd.n)), s', e + 2))
      && (!Room(StoredOnLeaving(s, hd), 0, hd.n) ==> mk == Err(SkippedKeyLimit) && InEpoch(h1, s', e + 2))
  {
    EnterNext(h, s, e, hd, drawn);
    DeriveEntered(Draw(h, drawn), s, EnterChain(s, hd, drawn).0, e + 2, hd, drawn);
  }

  /** Without: the limit, and the side stays where it is. */
  lemma DeriveNextFails(h: History, s: Ratchet, e: nat, hd: Header, drawn: Bytes)
    requires Sound(h) && |h.plan.keys| == e + 2 && InEpoch(h, s, e)
    requires hd.dhPub == PublicKey(h.plan.keys[e + 1]) && hd.pn == Length(h, e - 1) && !RoomToLeave(s, hd)
    ensures var (s', mk) := DeriveKey(s, hd, drawn);
      mk == Err(SkippedKeyLimit) && s'.dhs == s.dhs && InEpoch(h, s', e)
  {
    EnterNextFails(h, s, e, hd, drawn);
    DerivesNot(s, hd, drawn);
  }

  lemma DecryptsBy(s: Ratchet, hd: Header, data: Bytes, drawn: Bytes)
    requires SlotOf(hd) !in s.skipped
    ensures var (s', mk) := DeriveKey(s, hd, drawn);
      Decrypt(s, hd, data, drawn) == (s', if mk.Err? then Err(mk.error) else DecryptWithNonce(mk.value, data))
  {
    ForgetAbsent(s, hd);
  }

  lemma DeliverNextChain(h: History, s: Ratchet, e: nat, m: MessageId, drawn: Bytes)
    requires HistoryOk(h) && |h.plan.keys| == e + 2 && InEpoch(h, s, e)
    requires Pending(h, e, m) && m.epoch == e + 1
    requires |drawn| == 32 && drawn !in h.plan.keys
    ensures var msg := h.sent[m.epoch][m.num];
      var (s', r) := Decrypt(s, msg.header, msg.data, drawn);
      && r == (if WithinLimits(s, msg.header) then Ok(msg.plain) else Err(SkippedKeyLimit))
      && (s'.dhs == s.dhs ==> r.Err? && InEpoch(h, s', e))
      && (s'.dhs != s.dhs ==> s'.dhs == drawn && InEpoch(Recorded(h, s, s', m, r), s', e + 2))
  {
    OpensTo(h, m);
    NotStoredYet(h, s, e, m);
    DrawKeepsHistory(h, drawn);
    OpensTo(Draw(h, drawn), m);
    var msg := h.sent[m.epoch][m.num];
    LeaveFirst(h, s, e, msg.header);
    DecryptsBy(s, msg.header, msg.data, drawn);
    if RoomToLeave(s, msg.header) {
      DeriveNext(h, s, e, msg.header, drawn);
    } else {
      DeriveNextFails(h, s, e, msg.header, drawn);
    }
  }

  // ------------------------------------------------------------------------------ replays

  lemma {:induction false} AdvanceSteps(ck: Bytes, i: nat)
    ensures ChainSteps(Advance(ck, i)) == ChainSteps(ck) + i
  {
    if i == 0 {
    } else {
      AdvanceSteps(ck, i - 1);
      ChainSucceeds(Advance(ck, i - 1));
    }
  }

  /** Messages of one chain have different keys. */
  lemma KeysDiffer(c: Schedule, e: nat, i: nat, j: nat)
    requires 0 < e < |c.keys| && i != j
    ensures KeyOf(c, e, i) != KeyOf(c, e, j)
  {
    AdvanceSteps(Chain(c, e), i);
    AdvanceSteps(Chain(c, e), j);
    ChainSucceeds(ChainKeyAt(c, e, i));
    ChainSucceeds(ChainKeyAt(c, e, j));
  }

  lemma WrongKeyFails(mk: Bytes, key: Bytes, nonce: Bytes, plain: Bytes)
    requires |mk| == 32 && |key| == 32 && mk != key && |nonce| == AES_NONCE_SIZE
    ensures DecryptWithNonce(mk, nonce + Seal(key, nonce, plain)) == Err(InvalidMessage)
  {
    var box := Seal(key, nonce, plain);
    assert (nonce + box)[..AES_NONCE_SIZE] == nonce && (nonce + box)[AES_NONCE_SIZE..] == box;
    if AesGcmDecrypt(mk, nonce, box).Ok? {
      OpensOnlyUnderSealingKey(key, nonce, plain, mk, nonce);
    }
  }

  /** Where a replayed message of the receiving chain stands. */
  lemma ReplayPlace(h: History, s: Ratchet, e: nat, m: MessageId)
    requires HistoryOk(h) && e < |h.plan.keys| && InEpoch(h, s, e)
    requires m.epoch < |h.sent| && m.num < |h.sent[m.epoch]| && m in h.spent
    requires s.dhr == Some(h.sent[m.epoch][m.num].header.dhPub)
    ensures e >= 2 && m.epoch == e - 1 && m.num < s.nr && m !in Passed(h, e, s.nr)
  {
    assert m.epoch > 0 && WellSent(h, m.epoch, m.num);
  }

  /** A replay fails, leaves the store alone and uses up the next key of the chain. */
  lemma ReplaySpends(h: History, s: Ratchet, e: nat, m: MessageId, drawn: Bytes)
    requires HistoryOk(h) && e < |h.plan.keys| && InEpoch(h, s, e)
    requires m.epoch < |h.sent| && m.num < |h.sent[m.epoch]| && m in h.spent
    requires s.dhr == Some(h.sent[m.epoch][m.num].header.dhPub) && s.nr + MAX_SKIPPED_KEYS < TWO32
    ensures var msg := h.sent[m.epoch][m.num];
      && Decrypt(s, msg.header, msg.data, drawn) == (TakeReceivingKey(s).0, Err(InvalidMessage))
      && m.epoch == e - 1
      && InEpoch(Spend(h, Id(m.epoch, s.nr)), TakeReceivingKey(s).0, e)
  {
    ReplayPlace(h, s, e, m);
    OpensTo(h, m);
    NoSlot(h.plan, Passed(h, e, s.nr), s.skipped, m);
    TakeKeeps(h, s, e);
    KeysDiffer(h.plan, e - 1, m.num, s.nr);
    ReplayAnswer(h, s, e, m, drawn);
  }

  lemma ReplayAnswer(h: History, s: Ratchet, e: nat, m: MessageId, drawn: Bytes)
    requires HistoryOk(h) && 2 <= e < |h.plan.keys| && m.epoch == e - 1 && m.num < |h.sent[m.epoch]|
    requires SlotOf(h.sent[m.epoch][m.num].header) !in s.skipped && m.num < s.nr && s.nr + MAX_SKIPPED_KEYS < TWO32
    requires s.dhr == Some(h.sent[m.epoch][m.num].header.dhPub)
    requires TakeReceivingKey(s).1 == KeyOf(h.plan, e - 1, s.nr) != KeyOf(h.plan, e - 1, m.num)
    ensures var msg := h.sent[m.epoch][m.num];
      Decrypt(s, msg.header, msg.data, drawn) == (TakeReceivingKey(s).0, Err(InvalidMessage))
  {
    assert WellSent(h, m.epoch, m.num);
    var msg := h.sent[m.epoch][m.num];
    ForgetAbsent(s, msg.header);
    WrongKeyFails(TakeReceivingKey(s).1, KeyOf(h.plan, e - 1, m.num), msg.nonce, msg.plain);
  }
}
