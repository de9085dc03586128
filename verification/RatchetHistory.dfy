/**
  What two ratchets that talk to each other remember, measured against what
  happened between them.

  Every ratchet key pair ever drawn opens an epoch. Odd epochs send from Alice and
  even ones from Bob. A side in epoch `e` sends on chain `e` and receives on chain
  `e - 1`; the sections below show that each operation keeps a side there.
 */
module RatchetHistory {
  import opened Wrappers
  import opened Words
  import opened Octets
  import opened DoubleRatchet

  datatype Role = Alice | Bob

  function Other(p: Role): Role {
    if p.Alice? then Bob else Alice
  }

  datatype Message = Message(from: Role, header: Header, data: Bytes, nonce: Bytes, plain: Bytes)

  /**
    What happened so far, independent of what either side remembers of it. A message is
    spent when its key is used up: it was delivered, or a replay took its key.
   */
  datatype History = History(
    plan: Schedule,
    sent: seq<seq<Message>>,
    spent: set<MessageId>)

  /** The shared secret and every ratchet private key, in the order of drawing. */
  datatype Schedule = Schedule(secret: Bytes, keys: seq<Bytes>)

  // ------------------------------------------------------------------ the key schedule

  predicate Shaped(h: History) {
    |h.plan.keys| >= 2 && |h.sent| == |h.plan.keys|
  }

  ghost function Root(c: Schedule, e: nat): (r: Bytes)
    requires e < |c.keys|
    ensures |c.secret| == 32 ==> |r| == 32
  {
    if e == 0 then c.secret
    else RootKdf(Root(c, e - 1), SharedSecret(c.keys[e], c.keys[e - 1])).0
  }

  ghost function Chain(c: Schedule, e: nat): (r: Bytes)
    requires 0 < e < |c.keys|
    ensures |r| == 32
  {
    RootKdf(Root(c, e - 1), SharedSecret(c.keys[e], c.keys[e - 1])).1
  }

  ghost function Advance(ck: Bytes, i: nat): (r: Bytes)
    ensures |ck| == 32 ==> |r| == 32
  {
    if i == 0 then ck else NextChainKey(Advance(ck, i - 1))
  }

  ghost function ChainKeyAt(c: Schedule, e: nat, i: nat): (r: Bytes)
    requires 0 < e < |c.keys|
    ensures |r| == 32
  {
    Advance(Chain(c, e), i)
  }

  ghost function KeyOf(c: Schedule, e: nat, i: nat): (r: Bytes)
    requires 0 < e < |c.keys|
    ensures |r| == 32
  {
    MessageKey(ChainKeyAt(c, e, i))
  }

  /** Number of messages sent in an epoch; nothing is sent before the first. */
  function Length(h: History, e: int): nat {
    if 0 <= e < |h.sent| then |h.sent[e]| else 0
  }

  function SenderOf(e: nat): Role {
    if e % 2 == 1 then Alice else Bob
  }

  // ------------------------------------------------------------------- the invariant

  datatype MessageId = Id(epoch: nat, num: nat)

  /** Where the key of message `m` is stored while it is passed over. */
  function Slot(c: Schedule, m: MessageId): SkippedKey
    requires m.epoch < |c.keys| && m.num < TWO32
  {
    SkippedKey(PublicKey(c.keys[m.epoch]), m.num)
  }

  /** The epoch of a ratchet public key. */
  function EpochOf(keys: seq<Bytes>, pub: Bytes): (e: nat) {
    if keys == [] then 0
    else if PublicKey(keys[|keys| - 1]) == pub then |keys| - 1
    else EpochOf(keys[..|keys| - 1], pub)
  }

  /** The message a slot belongs to. */
  function IdOf(c: Schedule, k: SkippedKey): MessageId {
    Id(EpochOf(c.keys, k.dhPub), k.n)
  }

  /**
    Message `m` has been passed over by a side whose own epoch is `e` and whose
    receiving counter is `nr`, and is not spent.
   */
  predicate PassedOver(h: History, e: nat, nr: nat, m: MessageId) {
    && 0 < m.epoch < e
    && SenderOf(m.epoch) != SenderOf(e)
    && m.num < Length(h, m.epoch)
    && (m.epoch == e - 1 ==> m.num < nr)
    && m !in h.spent
  }

  ghost function Passed(h: History, e: nat, nr: nat): iset<MessageId> {
    iset m: MessageId | PassedOver(h, e, nr, m)
  }

  /** `skipped` holds the keys of exactly the messages in `passed`, each in its own slot. */
  ghost predicate Stores(c: Schedule, passed: iset<MessageId>, skipped: map<SkippedKey, Bytes>) {
    && (forall m :: m in passed ==>
          && 0 < m.epoch < |c.keys|
          && m.num < TWO32
          && Slot(c, m) in skipped
          && skipped[Slot(c, m)] == KeyOf(c, m.epoch, m.num))
    && (forall k :: k in skipped ==>
          && IdOf(c, k) in passed
          && Slot(c, IdOf(c, k)) == k)
  }

  /** The part of a state that the key schedule fixes. */
  ghost predicate OnSchedule(h: History, s: Ratchet, e: nat)
    requires Shaped(h) && e < |h.plan.keys|
  {
    && s.dhs == h.plan.keys[e]
    && s.dhr == (if e == 0 then None else Some(PublicKey(h.plan.keys[e - 1])))
    && s.rk == Root(h.plan, e)
    && s.cks == (if e == 0 then None else Some(ChainKeyAt(h.plan, e, Length(h, e))))
    && s.ns == Length(h, e)
    && s.pn == Length(h, e - 2)
    && (e < 2 ==> s.nr == 0)
    && s.ckr == (if e < 2 then None else Some(ChainKeyAt(h.plan, e - 1, s.nr)))
  }

  /**
    Only messages the side has reached are spent, and a counter ahead of the sender has
    spent the messages in between beforehand.
   */
  ghost predicate SpentOk(h: History, e: nat, nr: nat) {
    && (forall m :: m in h.spent && SenderOf(m.epoch) != SenderOf(e) ==>
          m.epoch < e && (m.epoch == e - 1 ==> m.num < nr))
    && (forall m: MessageId :: m.epoch == e - 1 && Length(h, m.epoch) <= m.num < nr ==> m in h.spent)
  }

  /** A side in epoch `e`: it sends on chain `e` and receives on chain `e - 1`. */
  ghost predicate InEpoch(h: History, s: Ratchet, e: nat)
    requires Shaped(h) && e < |h.plan.keys|
  {
    && OnSchedule(h, s, e)
    && Stores(h.plan, Passed(h, e, s.nr), s.skipped)
    && SpentOk(h, e, s.nr)
  }

  ghost predicate WellSent(h: History, e: nat, i: nat)
    requires Shaped(h) && 0 < e < |h.plan.keys| && i < |h.sent[e]|
  {
    var m := h.sent[e][i];
    && i < TWO32
    && Length(h, e - 2) < TWO32
    && m.from == SenderOf(e)
    && m.header == Header(PublicKey(h.plan.keys[e]), i, Length(h, e - 2))
    && |m.nonce| == AES_NONCE_SIZE
    && m.data == m.nonce + Seal(KeyOf(h.plan, e, i), m.nonce, m.plain)
  }

  predicate DistinctKeys(c: Schedule) {
    && (forall i, j :: 0 <= i < j < |c.keys| ==> PublicKey(c.keys[i]) != PublicKey(c.keys[j]))
    && (forall i :: 0 <= i < |c.keys| ==> |c.keys[i]| == 32)
  }

  predicate CountersFit(h: History) {
    forall e :: 0 <= e < |h.sent| ==> |h.sent[e]| < TWO32
  }

  ghost predicate AllWellSent(h: History)
    requires Shaped(h)
  {
    forall e, i :: 0 < e < |h.plan.keys| && 0 <= i < |h.sent[e]| ==> WellSent(h, e, i)
  }

  predicate Sound(h: History) {
    && Shaped(h)
    && |h.plan.secret| == 32
    && h.sent[0] == []
    && DistinctKeys(h.plan)
    && CountersFit(h)
  }

  ghost predicate HistoryOk(h: History) {
    Sound(h) && AllWellSent(h)
  }

  // ------------------------------------------------------ schedules that share a prefix

  /** `d` has the same epochs as `c`, and perhaps later ones. */
  predicate Extends(c: Schedule, d: Schedule) {
    && c.secret == d.secret
    && c.keys <= d.keys
  }

  lemma {:induction false} ScheduleStable(c: Schedule, d: Schedule, e: nat)
    requires Extends(c, d) && e < |c.keys|
    ensures Root(d, e) == Root(c, e)
    ensures e > 0 ==> Chain(d, e) == Chain(c, e)
  {
    if e == 0 {
    } else {
      ScheduleStable(c, d, e - 1);
      assert c.keys[e] == d.keys[e] && c.keys[e - 1] == d.keys[e - 1];
    }
  }

  lemma KeysStable(c: Schedule, d: Schedule)
    requires Extends(c, d)
    ensures forall e: nat, i: nat :: 0 < e < |c.keys| ==> KeyOf(d, e, i) == KeyOf(c, e, i)
    ensures forall e: nat, i: nat :: 0 < e < |c.keys| ==> ChainKeyAt(d, e, i) == ChainKeyAt(c, e, i)
    ensures forall e: nat :: e < |c.keys| ==> Root(d, e) == Root(c, e)
  {
    forall e: nat | e < |c.keys|
      ensures Root(d, e) == Root(c, e)
      ensures e > 0 ==> Chain(d, e) == Chain(c, e)
    {
      ScheduleStable(c, d, e);
    }
  }

  // ---------------------------------------------------------- the store of skipped keys

  lemma {:induction false} EpochOfKey(keys: seq<Bytes>, e: nat)
    requires e < |keys|
    requires forall j :: e < j < |keys| ==> PublicKey(keys[j]) != PublicKey(keys[e])
    ensures EpochOf(keys, PublicKey(keys[e])) == e
  {
    var n := |keys| - 1;
    if e >= n {
    } else {
      assert keys[..n][e] == keys[e];
      EpochOfKey(keys[..n], e);
    }
  }

  lemma IdOfSlot(c: Schedule, m: MessageId)
    requires DistinctKeys(c) && m.epoch < |c.keys| && m.num < TWO32
    ensures IdOf(c, Slot(c, m)) == m
  {
    EpochOfKey(c.keys, m.epoch);
  }

  lemma StoreOne(
    c: Schedule, passed: iset<MessageId>, passed': iset<MessageId>, skipped: map<SkippedKey, Bytes>, m: MessageId)
    requires DistinctKeys(c) && Stores(c, passed, skipped)
    requires 0 < m.epoch < |c.keys| && m.num < TWO32 && m !in passed
    requires passed' == passed + iset{m}
    ensures Slot(c, m) !in skipped
    ensures Stores(c, passed', skipped[Slot(c, m) := KeyOf(c, m.epoch, m.num)])
  {
    IdOfSlot(c, m);
    var skipped' := skipped[Slot(c, m) := KeyOf(c, m.epoch, m.num)];
    forall m' | m' in passed'
      ensures 0 < m'.epoch < |c.keys| && m'.num < TWO32
      ensures Slot(c, m') in skipped' && skipped'[Slot(c, m')] == KeyOf(c, m'.epoch, m'.num)
    {
      if m' != m {
        IdOfSlot(c, m');
      }
    }
  }

  lemma StoreForget(
    c: Schedule, passed: iset<MessageId>, passed': iset<MessageId>, skipped: map<SkippedKey, Bytes>, m: MessageId)
    requires DistinctKeys(c) && Stores(c, passed, skipped) && m in passed
    requires passed' == passed - iset{m}
    ensures Stores(c, passed', skipped - {Slot(c, m)})
  {
    var skipped' := skipped - {Slot(c, m)};
    IdOfSlot(c, m);
    forall m' | m' in passed'
      ensures Slot(c, m') in skipped'
    {
      IdOfSlot(c, m');
    }
  }

  lemma StoreStable(c: Schedule, d: Schedule, passed: iset<MessageId>, skipped: map<SkippedKey, Bytes>)
    requires Stores(c, passed, skipped) && Extends(c, d) && DistinctKeys(d)
    ensures Stores(d, passed, skipped)
  {
    KeysStable(c, d);
    forall m | m in passed
      ensures 0 < m.epoch < |d.keys| && m.num < TWO32
      ensures Slot(d, m) == Slot(c, m)
    {
      assert c.keys[m.epoch] == d.keys[m.epoch];
    }
    forall k | k in skipped
      ensures IdOf(d, k) == IdOf(c, k)
    {
      IdOfSlot(d, IdOf(c, k));
    }
  }

  // --------------------------------------------------------------- passing over messages

  lemma SkipOneOnSchedule(h: History, s: Ratchet, e: nat)
    requires Shaped(h) && CountersFit(h) && 2 <= e < |h.plan.keys| && OnSchedule(h, s, e)
    requires s.nr < Length(h, e - 1)
    ensures s.nr + 1 < TWO32
    ensures OnSchedule(h, SkipOne(s), e)
    ensures SkipOne(s).skipped == s.skipped[Slot(h.plan, Id(e - 1, s.nr)) := KeyOf(h.plan, e - 1, s.nr)]
  {
  }

  /** Passing over one unspent message of the receiving chain. */
  lemma SkipOneKeeps(h: History, s: Ratchet, e: nat)
    requires Sound(h) && 2 <= e < |h.plan.keys| && InEpoch(h, s, e)
    requires s.nr < Length(h, e - 1)
    ensures s.nr + 1 < TWO32
    ensures InEpoch(h, SkipOne(s), e)
    ensures |SkipOne(s).skipped| == |s.skipped| + 1
  {
    SkipOneOnSchedule(h, s, e);
    SkippedInEpoch(h, s, SkipOne(s), e);
  }

  lemma SkippedInEpoch(h: History, s: Ratchet, s': Ratchet, e: nat)
    requires Sound(h) && 2 <= e < |h.plan.keys| && InEpoch(h, s, e) && s.nr < Length(h, e - 1)
    requires s'.nr == s.nr + 1 && OnSchedule(h, s', e)
    requires s'.skipped == s.skipped[Slot(h.plan, Id(e - 1, s.nr)) := KeyOf(h.plan, e - 1, s.nr)]
    ensures InEpoch(h, s', e) && |s'.skipped| == |s.skipped| + 1
  {
    PassedNext(h, e, s.nr);
    SpentNext(h, e, s.nr);
    StoreOne(h.plan, Passed(h, e, s.nr), Passed(h, e, s.nr + 1), s.skipped, Id(e - 1, s.nr));
    Assembled(h, s', e, Passed(h, e, s.nr + 1));
  }

  lemma {:induction false} SkipLoopCounts(h: History, s: Ratchet, e: nat, until: uint32)
    requires Sound(h) && 2 <= e < |h.plan.keys| && InEpoch(h, s, e)
    requires until <= Length(h, e - 1)
    ensures var (s', ok) := SkipLoop(s, until);
      && (ok <==> until <= s.nr || |s.skipped| + until - s.nr <= MAX_SKIPPED_KEYS)
      && (ok ==> s'.nr == Max(s.nr, until) && |s'.skipped| == |s.skipped| + s'.nr - s.nr)
    decreases until - s.nr
  {
    if s.nr >= until {
    } else {
      SkipOneKeeps(h, s, e);
      var s' := SkipOne(s);
      if |s'.skipped| <= MAX_SKIPPED_KEYS {
        SkipLoopCounts(h, s', e, until);
      }
    }
  }

  lemma {:induction false} SkipLoopInEpoch(h: History, s: Ratchet, e: nat, until: uint32)
    requires Sound(h) && 2 <= e < |h.plan.keys| && InEpoch(h, s, e)
    requires until <= Length(h, e - 1)
    ensures InEpoch(h, SkipLoop(s, until).0, e)
    decreases until - s.nr
  {
    if s.nr >= until {
    } else {
      SkipOneKeeps(h, s, e);
      var s' := SkipOne(s);
      if |s'.skipped| <= MAX_SKIPPED_KEYS {
        SkipLoopInEpoch(h, s', e, until);
      }
    }
  }

  lemma SkipLoopKeeps(h: History, s: Ratchet, e: nat, until: uint32)
    requires Sound(h) && 2 <= e < |h.plan.keys| && InEpoch(h, s, e)
    requires until <= Length(h, e - 1)
    ensures var (s', ok) := SkipLoop(s, until);
      && InEpoch(h, s', e)
      && (ok <==> until <= s.nr || |s.skipped| + until - s.nr <= MAX_SKIPPED_KEYS)
      && (ok ==> s'.nr == Max(s.nr, until) && |s'.skipped| == |s.skipped| + s'.nr - s.nr)
  {
    SkipLoopInEpoch(h, s, e, until);
    SkipLoopCounts(h, s, e, until);
  }

  // -------------------------------------------------------------- changes of the history

  /** A new ratchet key pair opens a new epoch. */
  function Draw(h: History, drawn: Bytes): History {
    h.(plan := h.plan.(keys := h.plan.keys + [drawn]), sent := h.sent + [[]])
  }

  function Spend(h: History, m: MessageId): History {
    h.(spent := h.spent + {m})
  }

  function Post(h: History, e: nat, m: Message): History
    requires e < |h.sent|
  {
    h.(sent := h.sent[e := h.sent[e] + [m]])
  }

  lemma PassedNext(h: History, e: nat, nr: nat)
    requires e >= 2 && nr < Length(h, e - 1) && Id(e - 1, nr) !in h.spent
    ensures Id(e - 1, nr) !in Passed(h, e, nr)
    ensures Passed(h, e, nr + 1) == Passed(h, e, nr) + iset{Id(e - 1, nr)}
  {
  }

  lemma PassedTake(h: History, e: nat, nr: nat)
    requires e >= 2
    ensures Passed(Spend(h, Id(e - 1, nr)), e, nr + 1) == Passed(h, e, nr)
  {
  }

  lemma PassedDeliver(h: History, e: nat, nr: nat, m: MessageId)
    ensures Passed(Spend(h, m), e, nr) == Passed(h, e, nr) - iset{m}
  {
  }

  lemma PassedDeliverSender(h: History, e: nat, nr: nat, m: MessageId)
    requires SenderOf(m.epoch) == SenderOf(e)
    ensures Passed(Spend(h, m), e, nr) == Passed(h, e, nr)
  {
  }

  lemma PassedDraw(h: History, e: nat, nr: nat, drawn: Bytes)
    ensures Passed(Draw(h, drawn), e, nr) == Passed(h, e, nr)
  {
  }

  /** Entering the next receiving chain passes over nothing beyond the end of the last. */
  lemma PassedEpoch(h: History, e: nat, nr: nat, drawn: Bytes)
    requires Shaped(h) && |h.plan.keys| == e + 2 && Length(h, e - 1) <= nr
    ensures Passed(Draw(h, drawn), e + 2, 0) == Passed(h, e, nr)
  {
  }

  lemma SpentDraw(h: History, e: nat, nr: nat, drawn: Bytes)
    requires SpentOk(h, e, nr) && e <= |h.sent|
    ensures SpentOk(Draw(h, drawn), e, nr)
  {
  }

  lemma SpentEpoch(h: History, e: nat, nr: nat, drawn: Bytes)
    requires SpentOk(h, e, nr)
    ensures SpentOk(Draw(h, drawn), e + 2, 0)
  {
  }

  lemma SpentNext(h: History, e: nat, nr: nat)
    requires SpentOk(h, e, nr)
    ensures SpentOk(h, e, nr + 1) <== e > 0 && nr < Length(h, e - 1)
    ensures e > 0 ==> SpentOk(Spend(h, Id(e - 1, nr)), e, nr + 1)
  {
  }

  lemma SpentOther(h: History, e: nat, nr: nat, m: MessageId)
    requires SpentOk(h, e, nr) && (SenderOf(m.epoch) == SenderOf(e) || (m.epoch < e && (m.epoch == e - 1 ==> m.num < nr)))
    ensures SpentOk(Spend(h, m), e, nr)
  {
  }

  /** More keys, later messages and other deliveries do not move a side on its schedule. */
  lemma ScheduleUnchanged(h: History, h': History, s: Ratchet, e: nat)
    requires Shaped(h) && Shaped(h') && Extends(h.plan, h'.plan) && e < |h.plan.keys|
    requires Length(h, e) == Length(h', e) && Length(h, e - 2) == Length(h', e - 2)
    requires Length(h, e - 1) <= Length(h', e - 1)
    requires OnSchedule(h, s, e)
    ensures OnSchedule(h', s, e)
  {
    KeysStable(h.plan, h'.plan);
  }

  lemma DrawKeepsHistory(h: History, drawn: Bytes)
    requires HistoryOk(h) && |drawn| == 32 && drawn !in h.plan.keys
    ensures HistoryOk(Draw(h, drawn))
  {
    var h' := Draw(h, drawn);
    KeysStable(h.plan, h'.plan);
    forall e, i | 0 < e < |h'.plan.keys| && 0 <= i < |h'.sent[e]|
      ensures WellSent(h', e, i)
    {
      assert WellSent(h, e, i);
      assert h.plan.keys[e] == h'.plan.keys[e];
    }
    forall i, j | 0 <= i < j < |h'.plan.keys|
      ensures PublicKey(h'.plan.keys[i]) != PublicKey(h'.plan.keys[j])
    {
      if PublicKey(h'.plan.keys[i]) == PublicKey(h'.plan.keys[j]) {
        PublicKeyInjective(h'.plan.keys[i], h'.plan.keys[j]);
      }
    }
  }

  lemma DrawKeepsEpoch(h: History, s: Ratchet, e: nat, drawn: Bytes)
    requires Sound(h) && e < |h.plan.keys| && InEpoch(h, s, e)
    requires Sound(Draw(h, drawn))
    ensures InEpoch(Draw(h, drawn), s, e)
  {
    var h' := Draw(h, drawn);
    ScheduleUnchanged(h, h', s, e);
    PassedDraw(h, e, s.nr, drawn);
    SpentDraw(h, e, s.nr, drawn);
    StoreStable(h.plan, h'.plan, Passed(h, e, s.nr), s.skipped);
  }

  lemma DhStepKeeps(h: History, s: Ratchet, e: nat, drawn: Bytes)
    requires Sound(h) && |h.plan.keys| == e + 2 && InEpoch(h, s, e)
    requires s.nr >= Length(h, e - 1) && Sound(Draw(h, drawn))
    ensures var (s', failure) := DhRatchetStep(s, PublicKey(h.plan.keys[e + 1]), drawn);
      && failure.None?
      && s'.nr == 0 && s'.skipped == s.skipped
      && InEpoch(Draw(h, drawn), s', e + 2)
  {
    var h' := Draw(h, drawn);
    DhStepOnSchedule(h, s, e, drawn);
    PassedEpoch(h, e, s.nr, drawn);
    SpentEpoch(h, e, s.nr, drawn);
    StoreStable(h.plan, h'.plan, Passed(h, e, s.nr), s.skipped);
  }

  lemma DhStepOnSchedule(h: History, s: Ratchet, e: nat, drawn: Bytes)
    requires Sound(h) && |h.plan.keys| == e + 2 && OnSchedule(h, s, e)
    ensures var (s', failure) := DhRatchetStep(s, PublicKey(h.plan.keys[e + 1]), drawn);
      && failure.None?
      && s'.nr == 0 && s'.skipped == s.skipped
      && OnSchedule(Draw(h, drawn), s', e + 2)
  {
    var h' := Draw(h, drawn);
    KeysStable(h.plan, h'.plan);
    var peer := h.plan.keys[e + 1];
    X25519OfPublicKey(s.dhs, peer);
    X25519OfPublicKey(drawn, peer);
    SharedSecretCommutes(h.plan.keys[e], peer);
    assert h'.plan.keys[e] == h.plan.keys[e] && h'.plan.keys[e + 1] == peer && h'.plan.keys[e + 2] == drawn;
    assert Root(h'.plan, e + 1) == RootKdf(s.rk, SharedSecret(peer, h.plan.keys[e])).0;
    assert Chain(h'.plan, e + 1) == RootKdf(s.rk, SharedSecret(peer, h.plan.keys[e])).1;
  }

  /** Taking the next receiving key yields the key of that message. */
  lemma TakeKeeps(h: History, s: Ratchet, e: nat)
    requires Sound(h) && 2 <= e < |h.plan.keys| && InEpoch(h, s, e)
    requires s.nr + 1 < TWO32
    ensures var (s', mk) := TakeReceivingKey(s);
      mk == KeyOf(h.plan, e - 1, s.nr) && InEpoch(Spend(h, Id(e - 1, s.nr)), s', e)
  {
    TakeOnSchedule(h, s, e);
    TakenInEpoch(h, Spend(h, Id(e - 1, s.nr)), s, TakeReceivingKey(s).0, e);
  }

  lemma TakenInEpoch(h: History, h': History, s: Ratchet, s': Ratchet, e: nat)
    requires Sound(h) && 2 <= e < |h.plan.keys| && InEpoch(h, s, e) && h' == Spend(h, Id(e - 1, s.nr))
    requires s'.nr == s.nr + 1 && s'.skipped == s.skipped && OnSchedule(h', s', e)
    ensures InEpoch(h', s', e)
  {
    PassedTake(h, e, s.nr);
    SpentNext(h, e, s.nr);
    Assembled(h', s', e, Passed(h, e, s.nr));
  }

  lemma Assembled(h: History, s: Ratchet, e: nat, passed: iset<MessageId>)
    requires Shaped(h) && e < |h.plan.keys| && OnSchedule(h, s, e) && SpentOk(h, e, s.nr)
    requires passed == Passed(h, e, s.nr) && Stores(h.plan, passed, s.skipped)
    ensures InEpoch(h, s, e)
  {
  }

  lemma TakeOnSchedule(h: History, s: Ratchet, e: nat)
    requires Shaped(h) && 2 <= e < |h.plan.keys| && OnSchedule(h, s, e) && s.nr + 1 < TWO32
    ensures var (s', mk) := TakeReceivingKey(s);
      mk == KeyOf(h.plan, e - 1, s.nr) && OnSchedule(Spend(h, Id(e - 1, s.nr)), s', e)
  {
  }

  /** A stored key taken out: the message is spent. */
  lemma ForgetKeeps(h: History, s: Ratchet, e: nat, m: MessageId)
    requires Sound(h) && e < |h.plan.keys| && InEpoch(h, s, e)
    requires PassedOver(h, e, s.nr, m)
    ensures m.epoch < |h.plan.keys| && m.num < TWO32
    ensures InEpoch(Spend(h, m), s.(skipped := s.skipped - {Slot(h.plan, m)}), e)
  {
    assert m in Passed(h, e, s.nr);
    PassedDeliver(h, e, s.nr, m);
    StoreForget(h.plan, Passed(h, e, s.nr), Passed(Spend(h, m), e, s.nr), s.skipped, m);
    SpentOther(h, e, s.nr, m);
    ForgetOnSchedule(h, s, e, m, s.skipped - {Slot(h.plan, m)});
  }

  lemma ForgetOnSchedule(h: History, s: Ratchet, e: nat, m: MessageId, skipped: map<SkippedKey, Bytes>)
    requires Shaped(h) && e < |h.plan.keys| && OnSchedule(h, s, e)
    ensures OnSchedule(Spend(h, m), s.(skipped := skipped), e)
  {
  }

  /** A delivery does not concern the side that sent the message. */
  lemma DeliverKeepsSender(h: History, s: Ratchet, e: nat, m: MessageId)
    requires Sound(h) && e < |h.plan.keys| && InEpoch(h, s, e)
    requires SenderOf(m.epoch) == SenderOf(e)
    ensures InEpoch(Spend(h, m), s, e)
  {
    PassedDeliverSender(h, e, s.nr, m);
    SpentOther(h, e, s.nr, m);
    ForgetOnSchedule(h, s, e, m, s.skipped);
  }

  lemma DeliverKeepsHistory(h: History, m: MessageId)
    requires HistoryOk(h)
    ensures HistoryOk(Spend(h, m))
  {
    var h' := Spend(h, m);
    forall e, i | 0 < e < |h'.plan.keys| && 0 <= i < |h'.sent[e]|
      ensures WellSent(h', e, i)
    {
      assert WellSent(h, e, i);
    }
  }
}
