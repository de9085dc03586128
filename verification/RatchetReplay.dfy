/**
  What becomes of a conversation when a message of an older chain is delivered once
  more: its ratchet key counts as new, and if there is room to leave the present chain a
  root step is taken that the peer does not take.
 */
module RatchetReplay {
  import opened Wrappers
  import opened Words
  import opened Octets
  import opened DoubleRatchet
  import opened RatchetHistory
  import opened RatchetDelivery
  import opened RatchetWorld
  import opened RatchetRuns
  import opened KeyOrder
  import opened RatchetKeyUse
  import opened RatchetBranch

  // ------------------------------------------------------------- where scheduled keys stand

  lemma {:induction false} RootAt(c: Schedule, e: nat)
    requires e < |c.keys|
    ensures RootSteps(Root(c, e)) == RootSteps(c.secret) + e
  {
    if e == 0 {
    } else {
      RootAt(c, e - 1);
      RootSucceeds(Root(c, e - 1), SharedSecret(c.keys[e], c.keys[e - 1]));
    }
  }

  lemma {:induction false} AdvanceRoots(ck: Bytes, i: nat)
    ensures RootSteps(Advance(ck, i)) == RootSteps(ck)
  {
    if i == 0 {
    } else {
      AdvanceRoots(ck, i - 1);
      ChainSucceeds(Advance(ck, i - 1));
    }
  }

  lemma ChainKeyPlace(c: Schedule, e: nat, i: nat)
    requires 0 < e < |c.keys|
    ensures RootSteps(ChainKeyAt(c, e, i)) == RootSteps(c.secret) + e
    ensures ChainSteps(ChainKeyAt(c, e, i)) == i
  {
    RootAt(c, e - 1);
    RootSucceeds(Root(c, e - 1), SharedSecret(c.keys[e], c.keys[e - 1]));
    AdvanceRoots(Chain(c, e), i);
    AdvanceSteps(Chain(c, e), i);
  }

  /** A message key sits as many root steps deep as its epoch, and one chain step past its number. */
  lemma KeyPlace(c: Schedule, e: nat, i: nat)
    requires 0 < e < |c.keys|
    ensures RootSteps(KeyOf(c, e, i)) == RootSteps(c.secret) + e
    ensures ChainSteps(KeyOf(c, e, i)) == i + 1
  {
    ChainKeyPlace(c, e, i);
    ChainSucceeds(ChainKeyAt(c, e, i));
  }

  lemma StoredPlace(h: History, s: Ratchet, e: nat, k: SkippedKey)
    requires Sound(h) && 2 <= e < |h.plan.keys| && InEpoch(h, s, e) && k in s.skipped
    ensures var m := IdOf(h.plan, k);
      && 0 < m.epoch < e && m.num == k.n && k == Slot(h.plan, m)
      && s.skipped[k] == KeyOf(h.plan, m.epoch, m.num)
      && (m.epoch == e - 1 ==> m.num < s.nr)
  {
    assert IdOf(h.plan, k) in Passed(h, e, s.nr);
  }

  lemma EpochKeysOk(h: History, s: Ratchet, e: nat)
    requires Sound(h) && e < |h.plan.keys| && InEpoch(h, s, e)
    ensures KeysOk(s)
  {
    forall k | k in s.skipped
      ensures |k.dhPub| == 32 && |s.skipped[k]| == 32
    {
      assert IdOf(h.plan, k) in Passed(h, e, s.nr);
    }
  }

  lemma KeysApart(c: Schedule, e: nat, i: nat, e': nat, i': nat)
    requires 0 < e < |c.keys| && 0 < e' < |c.keys| && (e != e' || i != i')
    ensures KeyOf(c, e, i) != KeyOf(c, e', i')
  {
    KeyPlace(c, e, i);
    KeyPlace(c, e', i');
  }

  /** A key of the present chain that is not reached yet, or of a later one, is not stored. */
  lemma NotStored(h: History, s: Ratchet, e: nat, at: nat, num: nat, k: SkippedKey)
    requires Sound(h) && 2 <= e < |h.plan.keys| && InEpoch(h, s, e) && k in s.skipped
    requires e - 1 <= at < |h.plan.keys| && (at == e - 1 ==> num >= s.nr)
    ensures s.skipped[k] != KeyOf(h.plan, at, num)
  {
    StoredPlace(h, s, e, k);
    var m := IdOf(h.plan, k);
    KeysApart(h.plan, m.epoch, m.num, at, num);
  }

  // ------------------------------------------------------------------- leaving a chain

  /** No slot of the present chain is taken from the counter on. */
  predicate Clear(s: Ratchet) {
    forall k :: k in s.skipped && k.dhPub == RemoteKey(s.dhr) ==> k.n < s.nr
  }

  lemma EpochClear(h: History, s: Ratchet, e: nat)
    requires Sound(h) && 2 <= e < |h.plan.keys| && InEpoch(h, s, e)
    ensures Clear(s) && RemoteKey(s.dhr) == PublicKey(h.plan.keys[e - 1])
  {
    EpochRemote(h, s, e);
    forall k | k in s.skipped && k.dhPub == RemoteKey(s.dhr)
      ensures k.n < s.nr
    {
      ClearAt(h, s, e, k);
    }
  }

  lemma ClearAt(h: History, s: Ratchet, e: nat, k: SkippedKey)
    requires Sound(h) && 2 <= e < |h.plan.keys| && InEpoch(h, s, e)
    requires k in s.skipped && k.dhPub == PublicKey(h.plan.keys[e - 1])
    ensures k.n < s.nr
  {
    StoredPlace(h, s, e, k);
    PlacedBelow(h.plan, k, e - 1, s.nr);
  }

  lemma PlacedBelow(c: Schedule, k: SkippedKey, e: nat, nr: nat)
    requires DistinctKeys(c) && e < |c.keys| && k.dhPub == PublicKey(c.keys[e])
    requires IdOf(c, k).num == k.n && (IdOf(c, k).epoch == e ==> IdOf(c, k).num < nr)
    ensures k.n < nr
  {
    SlotPlace(c, k, e);
  }

  lemma SlotPlace(c: Schedule, k: SkippedKey, e: nat)
    requires DistinctKeys(c) && e < |c.keys| && k.dhPub == PublicKey(c.keys[e])
    ensures IdOf(c, k) == Id(e, k.n)
  {
    IdOfSlot(c, Id(e, k.n));
  }

  lemma EpochRemote(h: History, s: Ratchet, e: nat)
    requires Shaped(h) && 2 <= e < |h.plan.keys| && OnSchedule(h, s, e)
    ensures s.dhr.Some? && RemoteKey(s.dhr) == PublicKey(h.plan.keys[e - 1])
  {
  }

  /** Along chain `e`: `s'` has moved on from `s`, and every key in between is stored. */
  ghost predicate MovedOn(c: Schedule, e: nat, s: Ratchet, s': Ratchet)
    requires 0 < e < |c.keys|
  {
    && s.nr <= s'.nr && s'.dhr == s.dhr
    && s'.ckr == Some(ChainKeyAt(c, e, s'.nr))
    && (forall k :: k in s.skipped ==> k in s'.skipped && s'.skipped[k] == s.skipped[k])
    && (forall i: uint32 :: s.nr <= i < s'.nr ==>
          SkippedKey(RemoteKey(s.dhr), i) in s'.skipped && s'.skipped[SkippedKey(RemoteKey(s.dhr), i)] == KeyOf(c, e, i))
    && (forall k :: k in s'.skipped && k !in s.skipped ==> k.dhPub == RemoteKey(s.dhr) && s.nr <= k.n < s'.nr)
  }

  lemma MovesOne(c: Schedule, e: nat, s: Ratchet)
    requires 0 < e < |c.keys| && s.ckr == Some(ChainKeyAt(c, e, s.nr)) && Clear(s) && s.nr + 1 < TWO32
    ensures MovedOn(c, e, s, SkipOne(s)) && Clear(SkipOne(s)) && |SkipOne(s).skipped| == |s.skipped| + 1
  {
    assert SkippedKey(RemoteKey(s.dhr), s.nr) !in s.skipped;
    assert SkipOne(s).skipped.Keys == s.skipped.Keys + {SkippedKey(RemoteKey(s.dhr), s.nr)};
  }

  lemma MovesOnward(c: Schedule, e: nat, s: Ratchet, s1: Ratchet, s': Ratchet)
    requires 0 < e < |c.keys| && MovedOn(c, e, s, s1) && MovedOn(c, e, s1, s')
    ensures MovedOn(c, e, s, s')
  {
  }

  lemma {:induction false} LoopMoves(c: Schedule, e: nat, s: Ratchet, until: uint32)
    requires 0 < e < |c.keys| && s.ckr == Some(ChainKeyAt(c, e, s.nr)) && Clear(s)
    ensures MovedOn(c, e, s, SkipLoop(s, until).0)
    decreases until - s.nr
  {
    if s.nr >= until {
    } else {
      MovesOne(c, e, s);
      var s1 := SkipOne(s);
      if |s1.skipped| <= MAX_SKIPPED_KEYS {
        LoopMoves(c, e, s1, until);
        MovesOnward(c, e, s, s1, SkipLoop(s1, until).0);
      }
    }
  }

  lemma {:induction false} LoopCounts(c: Schedule, e: nat, s: Ratchet, until: uint32)
    requires 0 < e < |c.keys| && s.ckr == Some(ChainKeyAt(c, e, s.nr)) && Clear(s)
    ensures var (s', ok) := SkipLoop(s, until);
      && (ok <==> until <= s.nr || |s.skipped| + until - s.nr <= MAX_SKIPPED_KEYS)
      && (ok ==> s'.nr == Max(s.nr, until))
    decreases until - s.nr
  {
    if s.nr >= until {
    } else {
      MovesOne(c, e, s);
      if |SkipOne(s).skipped| <= MAX_SKIPPED_KEYS {
        LoopCounts(c, e, SkipOne(s), until);
      }
    }
  }

  /** Leaving the chain works exactly with room, and stores what it passes over either way. */
  lemma Leaving(c: Schedule, e: nat, s: Ratchet, hd: Header)
    requires 0 < e < |c.keys| && s.ckr == Some(ChainKeyAt(c, e, s.nr)) && Clear(s)
    ensures var (left, ok) := SkipMessageKeys(s, hd.pn);
      && MovedOn(c, e, s, left)
      && (ok <==> RoomToLeave(s, hd))
      && (ok ==> left.nr == Max(s.nr, hd.pn))
  {
    RoomIs(|s.skipped|, s.nr, hd.pn);
    SkipIs(s, hd.pn);
    if hd.pn > SkipBound(s.nr) {
      StaysPut(c, e, s);
    } else {
      LoopMoves(c, e, s, hd.pn);
      LoopCounts(c, e, s, hd.pn);
    }
  }

  lemma StaysPut(c: Schedule, e: nat, s: Ratchet)
    requires 0 < e < |c.keys| && s.ckr == Some(ChainKeyAt(c, e, s.nr))
    ensures MovedOn(c, e, s, s)
  {
  }

  // ---------------------------------------------------------------------------- the replay

  lemma OldReplayPlace(h: History, s: Ratchet, e: nat, m: MessageId)
    requires HistoryOk(h) && 2 <= e < |h.plan.keys| && InEpoch(h, s, e)
    requires 0 < m.epoch < e - 1 && m.num < Length(h, m.epoch) && m in h.spent
    ensures var hd := h.sent[m.epoch][m.num].header;
      && NewRemoteKey(s, hd) && SlotOf(hd) !in s.skipped
      && hd.dhPub == PublicKey(h.plan.keys[m.epoch])
  {
    OpensTo(h, m);
    NoSlot(h.plan, Passed(h, e, s.nr), s.skipped, m);
  }

  /** Without room the call is refused, and only the passed keys are stored. */
  lemma Refused(s: Ratchet, hd: Header, data: Bytes, drawn: Bytes)
    requires NewRemoteKey(s, hd) && SlotOf(hd) !in s.skipped && !SkipMessageKeys(s, hd.pn).1
    ensures Decrypt(s, hd, data, drawn) == (SkipMessageKeys(s, hd.pn).0, Err(SkippedKeyLimit))
  {
    DecryptsBy(s, hd, data, drawn);
  }

  /** With room the step is taken: the new chain and root come through it. */
  lemma Entered(t: Term, s: Ratchet, hd: Header, drawn: Bytes, own: Bytes, former: Bytes)
    requires NewRemoteKey(s, hd) && SkipMessageKeys(s, hd.pn).1 && s.dhs == own && hd.dhPub == PublicKey(former)
    requires t == RootTerm(s.rk, SharedSecret(own, former))
    ensures var (s1, failure) := EnterChain(s, hd, drawn);
      var left := SkipMessageKeys(s, hd.pn).0;
      && failure.None?
      && s1.skipped == left.skipped && s1.dhr == Some(hd.dhPub) && s1.nr == 0
      && Under(t, s1.rk) && s1.ckr.Some? && Under(t, s1.ckr.value)
  {
    SkipRoot(s, hd.pn);
    X25519OfPublicKey(own, former);
    X25519OfPublicKey(drawn, former);
    RootUnder(t, s.rk, SharedSecret(own, former));
    RootUnder(t, RootKdf(s.rk, SharedSecret(own, former)).0, SharedSecret(drawn, former));
  }

  /** A loop on another chain leaves the slots of this one as they are. */
  lemma {:induction false} LoopElsewhere(s: Ratchet, until: uint32, k: SkippedKey)
    requires k.dhPub != RemoteKey(s.dhr)
    ensures var s' := SkipLoop(s, until).0;
      && (k in s'.skipped <==> k in s.skipped)
      && (k in s.skipped ==> s'.skipped[k] == s.skipped[k])
    decreases until - s.nr
  {
    if s.nr >= until {
    } else if |SkipOne(s).skipped| <= MAX_SKIPPED_KEYS {
      LoopElsewhere(SkipOne(s), until, k);
    }
  }

  /** What the whole call leaves: on the branch, with the present chain's slots as on leaving. */
  lemma LetIn(t: Term, s: Ratchet, hd: Header, data: Bytes, drawn: Bytes, own: Bytes, former: Bytes)
    requires t.Hkdf? && NewRemoteKey(s, hd) && SlotOf(hd) !in s.skipped && SkipMessageKeys(s, hd.pn).1
    requires s.dhs == own && hd.dhPub == PublicKey(former) && t == RootTerm(s.rk, SharedSecret(own, former))
    ensures var s' := Decrypt(s, hd, data, drawn).0;
      var left := SkipMessageKeys(s, hd.pn).0;
      && OnBranch(t, StoredKeys(left), s')
      && forall k: SkippedKey :: k.dhPub != hd.dhPub ==>
           (k in s'.skipped <==> k in left.skipped) && (k in left.skipped ==> s'.skipped[k] == left.skipped[k])
  {
    DecryptsBy(s, hd, data, drawn);
    Entered(t, s, hd, drawn, own, former);
    var left, s1 := SkipMessageKeys(s, hd.pn).0, EnterChain(s, hd, drawn).0;
    StoredOnBranch(t, left, s1);
    ReachBranch(t, StoredKeys(left), s1, hd.n);
    forall k: SkippedKey | k.dhPub != hd.dhPub
      ensures var s2 := SkipMessageKeys(s1, hd.n).0;
        (k in s2.skipped <==> k in left.skipped) && (k in left.skipped ==> s2.skipped[k] == left.skipped[k])
    {
      LoopElsewhere(s1, hd.n, k);
    }
  }

  lemma StoredOnBranch(t: Term, left: Ratchet, s1: Ratchet)
    requires s1.skipped == left.skipped && Under(t, s1.rk) && s1.ckr.Some? && Under(t, s1.ckr.value)
    ensures OnBranch(t, StoredKeys(left), s1)
  {
  }

  // ---------------------------------------------------------------------- what it costs

  lemma {:induction false} AdvanceOn(ck: Bytes, i: nat, j: nat)
    ensures Advance(Advance(ck, i), j) == Advance(ck, i + j)
    decreases j
  {
    if j == 0 {
    } else {
      AdvanceOn(ck, i, j - 1);
    }
  }

  /** The step that the replay makes a side take. */
  function StepOf(s: Ratchet, own: Bytes, former: Bytes): Term {
    RootTerm(s.rk, SharedSecret(own, former))
  }

  /** Keys of the schedule do not come through it. */
  lemma ScheduleOff(h: History, s: Ratchet, e: nat, a: nat, at: nat, num: nat)
    requires Sound(h) && 0 < a < e - 1 && e < |h.plan.keys| && OnSchedule(h, s, e)
    requires 0 < at < |h.plan.keys| && at <= e + 1
    ensures var t := StepOf(s, h.plan.keys[e], h.plan.keys[a]);
      !Under(t, Root(h.plan, at)) && !Under(t, ChainKeyAt(h.plan, at, num)) && !Under(t, KeyOf(h.plan, at, num))
  {
    var c := h.plan;
    var t := StepOf(s, c.keys[e], c.keys[a]);
    RootAt(c, e);
    if at <= e {
      ShallowOff(c, t, e, at, num);
    } else {
      NextOff(c, t, e, a);
      AdvanceOff(t, Chain(c, at), num);
      ChainUnder(t, ChainKeyAt(c, at, num));
    }
  }

  /** Fewer root steps than the step has. */
  lemma ShallowOff(c: Schedule, t: Term, e: nat, at: nat, num: nat)
    requires t.Hkdf? && 0 < at <= e < |c.keys| && RootSteps(t.salt) == RootSteps(c.secret) + e
    ensures !Under(t, Root(c, at)) && !Under(t, ChainKeyAt(c, at, num)) && !Under(t, KeyOf(c, at, num))
  {
    RootAt(c, at);
    ChainKeyPlace(c, at, num);
    KeyPlace(c, at, num);
    if Under(t, Root(c, at)) {
      UnderRoots(t, Root(c, at));
    }
    if Under(t, ChainKeyAt(c, at, num)) {
      UnderRoots(t, ChainKeyAt(c, at, num));
    }
    if Under(t, KeyOf(c, at, num)) {
      UnderRoots(t, KeyOf(c, at, num));
    }
  }

  /** The same root key, but another agreement. */
  lemma NextOff(c: Schedule, t: Term, e: nat, a: nat)
    requires DistinctKeys(c) && 0 < a < e - 1 && e + 1 < |c.keys|
    requires t == RootTerm(Root(c, e), SharedSecret(c.keys[e], c.keys[a]))
    ensures !Under(t, Root(c, e + 1)) && !Under(t, Chain(c, e + 1))
  {
    RootAt(c, e);
    ShallowOff(c, t, e, e, 0);
    X25519OfPublicKey(c.keys[e + 1], c.keys[e]);
    OtherAgreement(c.keys[e + 1], PublicKey(c.keys[e]), c.keys[e], c.keys[a]);
    RootUnder(t, Root(c, e), SharedSecret(c.keys[e + 1], c.keys[e]));
  }

  lemma {:induction false} AdvanceOff(t: Term, ck: Bytes, i: nat)
    requires t.Hkdf? && !Under(t, ck)
    ensures !Under(t, Advance(ck, i))
  {
    if i == 0 {
    } else {
      AdvanceOff(t, ck, i - 1);
      ChainUnder(t, Advance(ck, i - 1));
    }
  }

  /** What a replay that is let in leaves of the side. */
  lemma ReplayedState(h: History, s: Ratchet, e: nat, m: MessageId, msg: Message, drawn: Bytes)
    requires HistoryOk(h) && 2 <= e < |h.plan.keys| && InEpoch(h, s, e)
    requires 0 < m.epoch < e - 1 && m.num < Length(h, m.epoch) && m in h.spent && |drawn| == 32
    requires msg == h.sent[m.epoch][m.num] && RoomToLeave(s, msg.header)
    ensures var s' := Decrypt(s, msg.header, msg.data, drawn).0;
      var left := SkipMessageKeys(s, msg.header.pn).0;
      && KeysOk(s') && MovedOn(h.plan, e - 1, s, left) && left.nr == Max(s.nr, msg.header.pn)
      && OnBranch(StepOf(s, h.plan.keys[e], h.plan.keys[m.epoch]), StoredKeys(left), s')
      && forall k: SkippedKey :: k.dhPub != msg.header.dhPub ==>
           (k in s'.skipped <==> k in left.skipped) && (k in left.skipped ==> s'.skipped[k] == left.skipped[k])
  {
    OldReplayPlace(h, s, e, m);
    EpochClear(h, s, e);
    Leaving(h.plan, e - 1, s, msg.header);
    EpochKeysOk(h, s, e);
    DecryptKeysOk(s, msg.header, msg.data, drawn);
    LetIn(StepOf(s, h.plan.keys[e], h.plan.keys[m.epoch]), s, msg.header, msg.data, drawn, h.plan.keys[e], h.plan.keys[m.epoch]);
  }

  /** What is stored on leaving is of messages that were passed over. */
  lemma LeftStores(h: History, s: Ratchet, e: nat, left: Ratchet, at: nat, num: nat)
    requires Sound(h) && 2 <= e < |h.plan.keys| && InEpoch(h, s, e) && MovedOn(h.plan, e - 1, s, left)
    requires e - 1 <= at < |h.plan.keys| && (at == e - 1 ==> num >= left.nr)
    ensures KeyOf(h.plan, at, num) !in StoredKeys(left)
  {
    forall k | k in left.skipped
      ensures left.skipped[k] != KeyOf(h.plan, at, num)
    {
      if k in s.skipped {
        NotStored(h, s, e, at, num, k);
      } else {
        KeysApart(h.plan, e - 1, k.n, at, num);
      }
    }
  }

  /** Let in, a replay loses every message of the present chain from the old chain's length on, and of the next chain. */
  lemma LetInLoses(h: History, s: Ratchet, e: nat, m: MessageId, msg: Message, drawn: Bytes, at: nat, num: nat)
    requires HistoryOk(h) && 2 <= e < |h.plan.keys| && InEpoch(h, s, e)
    requires 0 < m.epoch < e - 1 && m.num < Length(h, m.epoch) && m in h.spent && |drawn| == 32
    requires msg == h.sent[m.epoch][m.num] && RoomToLeave(s, msg.header)
    requires (at == e - 1 && s.nr <= num && msg.header.pn <= num) || at == e + 1 < |h.plan.keys|
    ensures NeverTried(Decrypt(s, msg.header, msg.data, drawn).0, KeyOf(h.plan, at, num))
  {
    ReplayedState(h, s, e, m, msg, drawn);
    var left := SkipMessageKeys(s, msg.header.pn).0;
    LeftStores(h, s, e, left, at, num);
    ScheduleOff(h, s, e, m.epoch, at, num);
    OffBranchGone(StepOf(s, h.plan.keys[e], h.plan.keys[m.epoch]), StoredKeys(left),
                  Decrypt(s, msg.header, msg.data, drawn).0, KeyOf(h.plan, at, num));
  }

  lemma LetInLosesNext(h: History, s: Ratchet, e: nat, m: MessageId, msg: Message, drawn: Bytes, num: nat)
    requires HistoryOk(h) && 2 <= e < |h.plan.keys| - 1 && InEpoch(h, s, e)
    requires 0 < m.epoch < e - 1 && m.num < Length(h, m.epoch) && m in h.spent && |drawn| == 32
    requires msg == h.sent[m.epoch][m.num] && RoomToLeave(s, msg.header)
    ensures NeverTried(Decrypt(s, msg.header, msg.data, drawn).0, KeyOf(h.plan, e + 1, num))
  {
    LetInLoses(h, s, e, m, msg, drawn, e + 1, num);
  }

  lemma LetInKeeps(h: History, s: Ratchet, e: nat, m: MessageId, msg: Message, drawn: Bytes, num: uint32)
    requires HistoryOk(h) && 2 <= e < |h.plan.keys| && InEpoch(h, s, e)
    requires 0 < m.epoch < e - 1 && m.num < Length(h, m.epoch) && m in h.spent && |drawn| == 32
    requires msg == h.sent[m.epoch][m.num] && RoomToLeave(s, msg.header) && s.nr <= num < msg.header.pn
    ensures !NeverTried(Decrypt(s, msg.header, msg.data, drawn).0, KeyOf(h.plan, e - 1, num))
  {
    ReplayedState(h, s, e, m, msg, drawn);
    OldReplayPlace(h, s, e, m);
    EpochClear(h, s, e);
    StoredTries(Decrypt(s, msg.header, msg.data, drawn).0, SkippedKey(PublicKey(h.plan.keys[e - 1]), num));
  }

  /** What a replay that is refused leaves of the side. */
  lemma RefusedState(h: History, s: Ratchet, e: nat, m: MessageId, msg: Message, drawn: Bytes)
    requires HistoryOk(h) && 2 <= e < |h.plan.keys| && InEpoch(h, s, e)
    requires 0 < m.epoch < e - 1 && m.num < Length(h, m.epoch) && m in h.spent
    requires msg == h.sent[m.epoch][m.num] && !RoomToLeave(s, msg.header)
    ensures var (s', r) := Decrypt(s, msg.header, msg.data, drawn);
      r == Err(SkippedKeyLimit) && MovedOn(h.plan, e - 1, s, s')
  {
    OldReplayPlace(h, s, e, m);
    EpochClear(h, s, e);
    Leaving(h.plan, e - 1, s, msg.header);
    Refused(s, msg.header, msg.data, drawn);
  }

  /** A side that moved on along its chain can still try every key from where it was. */
  lemma StillTries(c: Schedule, e: nat, s: Ratchet, s': Ratchet, num: uint32)
    requires 0 < e < |c.keys| && MovedOn(c, e, s, s') && s.dhr.Some? && s.nr <= num
    ensures !NeverTried(s', KeyOf(c, e, num))
  {
    if num < s'.nr {
      StoredTries(s', SkippedKey(RemoteKey(s.dhr), num));
    } else {
      AdvanceOn(Chain(c, e), s'.nr, num - s'.nr);
      ChainTries(s', num - s'.nr);
    }
  }

  /** Refused, a replay loses nothing: what it passed over is stored and the chain goes on. */
  lemma RefusedKeeps(h: History, s: Ratchet, e: nat, m: MessageId, msg: Message, drawn: Bytes, num: uint32)
    requires HistoryOk(h) && 2 <= e < |h.plan.keys| && InEpoch(h, s, e)
    requires 0 < m.epoch < e - 1 && m.num < Length(h, m.epoch) && m in h.spent
    requires msg == h.sent[m.epoch][m.num] && !RoomToLeave(s, msg.header) && s.nr <= num
    ensures !NeverTried(Decrypt(s, msg.header, msg.data, drawn).0, KeyOf(h.plan, e - 1, num))
  {
    RefusedState(h, s, e, m, msg, drawn);
    MovedTries(h, e, s, Decrypt(s, msg.header, msg.data, drawn).0, num);
  }

  lemma MovedTries(h: History, e: nat, s: Ratchet, s': Ratchet, num: uint32)
    requires Shaped(h) && 2 <= e < |h.plan.keys| && OnSchedule(h, s, e) && MovedOn(h.plan, e - 1, s, s') && s.nr <= num
    ensures !NeverTried(s', KeyOf(h.plan, e - 1, num))
  {
    EpochRemote(h, s, e);
    StillTries(h.plan, e - 1, s, s', num);
  }

  lemma OldReplayAt(h: History, s: Ratchet, e: nat, m: MessageId, msg: Message, drawn: Bytes, num: uint32)
    requires HistoryOk(h) && 2 <= e < |h.plan.keys| && InEpoch(h, s, e)
    requires 0 < m.epoch < e - 1 && m.num < Length(h, m.epoch) && m in h.spent && |drawn| == 32
    requires msg == h.sent[m.epoch][m.num] && s.nr <= num
    ensures NeverTried(Decrypt(s, msg.header, msg.data, drawn).0, KeyOf(h.plan, e - 1, num))
      <==> RoomToLeave(s, msg.header) && msg.header.pn <= num
  {
    if !RoomToLeave(s, msg.header) {
      RefusedKeeps(h, s, e, m, msg, drawn, num);
    } else if num < msg.header.pn {
      LetInKeeps(h, s, e, m, msg, drawn, num);
    } else {
      LetInLoses(h, s, e, m, msg, drawn, e - 1, num);
    }
  }

  /** A side of a reachable world that gets a spent message of an older chain once more. */
  ghost predicate OldReplay(w: World, p: Role, e: nat, m: MessageId, msg: Message, drawn: Bytes) {
    && 2 <= e < |w.past.plan.keys| && e == EpochOfRole(w.past, p)
    && 0 < m.epoch < e - 1 && m.num < Length(w.past, m.epoch) && m in w.past.spent
    && msg == w.past.sent[m.epoch][m.num] && |drawn| == 32
    && Reachable(w)
  }

  /** A side of a reachable world is on its schedule. */
  lemma SideOf(w: World, p: Role, e: nat)
    requires Reachable(w) && |w.past.plan.keys| >= 2 && e == EpochOfRole(w.past, p)
    ensures HistoryOk(w.past) && e < |w.past.plan.keys| && InEpoch(w.past, StateOf(w, p), e)
  {
    ReachableOk(w);
    WorldSides(w, p);
  }

  /**
    In every run, when a message of an older chain is delivered once more, a message of the
    present chain that is not passed over yet is lost, so that over every further sequence
    of calls its key is never tried, exactly when there is room to leave the present chain
    and its number is not below the length that the old header names.
   */
  lemma OldReplayTheorem(w: World, p: Role, e: nat, m: MessageId, msg: Message, drawn: Bytes, num: uint32)
    requires OldReplay(w, p, e, m, msg, drawn) && StateOf(w, p).nr <= num
    ensures NeverTried(Decrypt(StateOf(w, p), msg.header, msg.data, drawn).0, KeyOf(w.past.plan, e - 1, num))
      <==> RoomToLeave(StateOf(w, p), msg.header) && msg.header.pn <= num
  {
    SideOf(w, p, e);
    OldReplayAt(w.past, StateOf(w, p), e, m, msg, drawn, num);
  }

  /** In every run, without room the replay is refused and leaves the remote key and every stored key as they are. */
  lemma RefusedReplay(w: World, p: Role, e: nat, m: MessageId, msg: Message, drawn: Bytes)
    requires OldReplay(w, p, e, m, msg, drawn) && !RoomToLeave(StateOf(w, p), msg.header)
    ensures var (s', r) := Decrypt(StateOf(w, p), msg.header, msg.data, drawn);
      r == Err(SkippedKeyLimit) && 0 < e - 1 < |w.past.plan.keys| && MovedOn(w.past.plan, e - 1, StateOf(w, p), s')
  {
    SideOf(w, p, e);
    RefusedState(w.past, StateOf(w, p), e, m, msg, drawn);
  }

  /** In every run, let in it also loses every message of the next chain that the peer has already sent. */
  lemma NextChainLost(w: World, p: Role, e: nat, m: MessageId, msg: Message, drawn: Bytes, num: nat)
    requires OldReplay(w, p, e, m, msg, drawn) && RoomToLeave(StateOf(w, p), msg.header) && e + 1 < |w.past.plan.keys|
    ensures NeverTried(Decrypt(StateOf(w, p), msg.header, msg.data, drawn).0, KeyOf(w.past.plan, e + 1, num))
  {
    SideOf(w, p, e);
    LetInLosesNext(w.past, StateOf(w, p), e, m, msg, drawn, num);
  }

  // ------------------------------------------------------------------- the peer from then on

  lemma PeerOff(h: History, s: Ratchet, e: nat, o: Ratchet, eo: nat, a: nat)
    requires Sound(h) && 0 < a < e - 1 && e < |h.plan.keys| && OnSchedule(h, s, e)
    requires (eo == e - 1 || eo == e + 1) && 0 < eo < |h.plan.keys| && OnSchedule(h, o, eo)
    ensures OffBranch(StepOf(s, h.plan.keys[e], h.plan.keys[a]), h.plan.keys[e], h.plan.keys[a], o)
  {
    ScheduleOff(h, s, e, a, eo, Length(h, eo));
    assert PublicKey(h.plan.keys[eo]) != PublicKey(h.plan.keys[e]);
    assert PublicKey(h.plan.keys[eo]) != PublicKey(h.plan.keys[a]);
  }

  /**
    In every run, once a replay from an older chain was let in, whatever either side does
    from then on: a message that the peer seals is never opened, unless its key was stored
    already. The peer draws new key pairs, as generated ones are.
   */
  lemma DivergenceTheorem(w: World, p: Role, e: nat, m: MessageId, msg: Message, drawn: Bytes,
                          states: seq<Ratchet>, calls: seq<Call>, n: nat)
    requires OldReplay(w, p, e, m, msg, drawn) && RoomToLeave(StateOf(w, p), msg.header)
    requires IsPath(states, calls) && n <= |calls| && states[0] == StateOf(w, Other(p))
    requires DrawsOthers(calls, w.past.plan.keys[e], w.past.plan.keys[m.epoch])
    ensures var s' := Decrypt(StateOf(w, p), msg.header, msg.data, drawn).0;
      SealingKey(states[n]) in StoredKeys(s') || NeverTried(s', SealingKey(states[n]))
  {
    var eo := EpochOfRole(w.past, Other(p));
    SideOf(w, p, e);
    SideOf(w, Other(p), eo);
    RoleOfEpoch(w.past, p);
    Diverged(w.past, StateOf(w, p), e, StateOf(w, Other(p)), EpochOfRole(w.past, Other(p)), m, msg, drawn, states, calls, n);
  }

  lemma Diverged(h: History, s: Ratchet, e: nat, o: Ratchet, eo: nat, m: MessageId, msg: Message, drawn: Bytes,
                 states: seq<Ratchet>, calls: seq<Call>, n: nat)
    requires HistoryOk(h) && 2 <= e < |h.plan.keys| && InEpoch(h, s, e)
    requires 0 < m.epoch < e - 1 && m.num < Length(h, m.epoch) && m in h.spent && |drawn| == 32
    requires msg == h.sent[m.epoch][m.num] && RoomToLeave(s, msg.header)
    requires (eo == e - 1 || eo == e + 1) && eo < |h.plan.keys| && InEpoch(h, o, eo)
    requires IsPath(states, calls) && n <= |calls| && states[0] == o
    requires DrawsOthers(calls, h.plan.keys[e], h.plan.keys[m.epoch])
    ensures var s' := Decrypt(s, msg.header, msg.data, drawn).0;
      SealingKey(states[n]) in StoredKeys(s') || NeverTried(s', SealingKey(states[n]))
  {
    var x, y := h.plan.keys[e], h.plan.keys[m.epoch];
    var t := StepOf(s, x, y);
    var s' := Decrypt(s, msg.header, msg.data, drawn).0;
    ReplayedState(h, s, e, m, msg, drawn);
    OwnBranch(t, StoredKeys(SkipMessageKeys(s, msg.header.pn).0), s');
    PeerOff(h, s, e, o, eo, m.epoch);
    EpochKeysOk(h, o, eo);
    PathOff(t, s.rk, x, y, states, calls, n);
    if SealingKey(states[n]) !in StoredKeys(s') {
      OffBranchGone(t, StoredKeys(s'), s', SealingKey(states[n]));
    }
  }

  /** The branch from a state's own stored keys. */
  lemma OwnBranch(t: Term, known: set<Bytes>, s: Ratchet)
    requires OnBranch(t, known, s)
    ensures OnBranch(t, StoredKeys(s), s)
  {
  }
}
