/**
  Two ratchets and the network between them.

  A run starts from two states that share a secret and takes steps in any order:
  either side sends, any message still under way is delivered to the other side or
  lost, a message of the chain a side is receiving on is delivered once more, and
  either side is saved and loaded again. Deliveries that run into the limit on skipped
  keys are part of the runs too. Every step keeps both sides on their schedules.
 */
module RatchetWorld {
  import opened Wrappers
  import opened Words
  import opened Octets
  import opened DoubleRatchet
  import opened RatchetCodec
  import opened RatchetHistory
  import opened RatchetDelivery

  // --------------------------------------------------------------------- worlds and steps

  datatype World = World(alice: Ratchet, bob: Ratchet, past: History, lost: set<MessageId>)

  function StateOf(w: World, p: Role): Ratchet {
    if p.Alice? then w.alice else w.bob
  }

  function WithState(w: World, p: Role, s: Ratchet): World {
    if p.Alice? then w.(alice := s) else w.(bob := s)
  }

  datatype Step =
    | Send(p: Role, e: nat, plain: Bytes, nonce: Bytes)
    | Receive(p: Role, m: MessageId, drawn: Bytes)
    | Replay(p: Role, m: MessageId, drawn: Bytes)
    | Lose(m: MessageId)
    | Reload(p: Role, order: seq<SkippedKey>)

  /** Two ends of one agreed secret, before the first message. */
  ghost predicate Initial(w: World) {
    exists secret, spk, first ::
      && |secret| == 32 && |spk| == 32 && |first| == 32 && spk != first
      && InitAlice(secret, PublicKey(spk), first) == Ok(w.alice)
      && w.bob == InitBob(secret, spk)
      && w.past == History(Schedule(secret, [spk, first]), [[], []], {})
      && w.lost == {}
  }

  /** A message that is still under way to `p`. */
  predicate UnderWay(w: World, p: Role, m: MessageId) {
    && m.epoch < |w.past.sent|
    && m.num < |w.past.sent[m.epoch]|
    && w.past.sent[m.epoch][m.num].from == Other(p)
    && m !in w.past.spent
    && m !in w.lost
  }

  /**
    Sending needs a sending chain (a responder has one once it has received) and a
    counter that does not wrap; generated private keys are new; what is replayed is of
    the chain the side is receiving on; loading needs a number of stored keys that the
    format can count.
   */
  ghost predicate Enabled(w: World, step: Step) {
    match step
    case Send(p, e, plain, nonce) =>
      && e < |w.past.plan.keys| && e < |w.past.sent|
      && StateOf(w, p).dhs == w.past.plan.keys[e]
      && StateOf(w, p).cks.Some?
      && StateOf(w, p).ns + 1 < TWO32
      && |nonce| == AES_NONCE_SIZE
    case Receive(p, m, drawn) =>
      && UnderWay(w, p, m)
      && |drawn| == 32 && drawn !in w.past.plan.keys
    case Replay(p, m, drawn) =>
      && m.epoch < |w.past.sent| && m.num < |w.past.sent[m.epoch]|
      && m in w.past.spent
      && StateOf(w, p).dhr == Some(w.past.sent[m.epoch][m.num].header.dhPub)
      && StateOf(w, p).nr + MAX_SKIPPED_KEYS < TWO32
    case Lose(m) => m !in w.past.spent
    case Reload(p, order) =>
      && |StateOf(w, p).skipped| < TWO32
      && IsOrder(order, StateOf(w, p).skipped)
  }

  /** What decryption answers when the step is a delivery, the first one or another. */
  function Answer(w: World, step: Step): (Ratchet, Result<Bytes>)
    requires step.Receive? || step.Replay?
    requires step.m.epoch < |w.past.sent| && step.m.num < |w.past.sent[step.m.epoch]|
  {
    var msg := w.past.sent[step.m.epoch][step.m.num];
    Decrypt(StateOf(w, step.p), msg.header, msg.data, step.drawn)
  }

  ghost function After(w: World, step: Step): World
    requires Enabled(w, step)
  {
    match step
    case Send(p, e, plain, nonce) =>
      var (s', header, data) := Encrypt(StateOf(w, p), plain, nonce);
      WithState(w, p, s').(past := Post(w.past, e, Message(p, header, data, nonce, plain)))
    case Receive(p, m, drawn) =>
      var (s', r) := Answer(w, step);
      WithState(w, p, s').(past := Recorded(w.past, StateOf(w, p), s', m, r))
    case Replay(p, m, drawn) =>
      WithState(w, p, Answer(w, step).0).(past := Spend(w.past, Id(m.epoch, StateOf(w, p).nr)))
    case Lose(m) => w.(lost := w.lost + {m})
    case Reload(p, order) =>
      var loaded := Decode(Encode(StateOf(w, p), order));
      if loaded.Ok? then WithState(w, p, loaded.value) else w
  }

  /** `w'` is reached from `w` by taking `steps` in order, each enabled when taken. */
  ghost predicate Leads(w: World, steps: seq<Step>, w': World)
    decreases |steps|
  {
    if steps == [] then w == w'
    else Enabled(w, steps[0]) && Leads(After(w, steps[0]), steps[1..], w')
  }

  ghost predicate Reachable(w: World) {
    exists w0, steps :: Initial(w0) && Leads(w0, steps, w)
  }

  // ---------------------------------------------------------------------- the invariant

  function EpochOfRole(h: History, p: Role): nat
    requires |h.plan.keys| >= 2
  {
    var n := |h.plan.keys| - 1;
    if SenderOf(n) == p then n else n - 1
  }

  ghost predicate WorldOk(w: World) {
    && HistoryOk(w.past)
    && InEpoch(w.past, w.alice, EpochOfRole(w.past, Alice))
    && InEpoch(w.past, w.bob, EpochOfRole(w.past, Bob))
  }

  lemma InitialOk(w: World)
    requires Initial(w)
    ensures WorldOk(w)
  {
    var secret, spk, first :|
      && |secret| == 32 && |spk| == 32 && |first| == 32 && spk != first
      && InitAlice(secret, PublicKey(spk), first) == Ok(w.alice)
      && w.bob == InitBob(secret, spk)
      && w.past == History(Schedule(secret, [spk, first]), [[], []], {});
    var h := w.past;
    X25519OfPublicKey(first, spk);
    if PublicKey(spk) == PublicKey(first) {
      PublicKeyInjective(spk, first);
    }
    assert Root(h.plan, 0) == secret;
    assert Passed(h, 0, 0) == iset{};
    assert Passed(h, 1, 0) == iset{};
    assert OnSchedule(h, w.alice, 1);
    assert OnSchedule(h, w.bob, 0);
  }

  // --------------------------------------------------------------------------- sending

  lemma PassedPost(h: History, e: nat, nr: nat, at: nat, m: Message)
    requires at < |h.sent|
    requires SenderOf(at) == SenderOf(e) || at >= e || (at == e - 1 && (nr <= Length(h, at) || Id(at, Length(h, at)) in h.spent))
    ensures Passed(Post(h, at, m), e, nr) == Passed(h, e, nr)
  {
  }

  lemma SpentPost(h: History, e: nat, nr: nat, at: nat, m: Message)
    requires at < |h.sent| && SpentOk(h, e, nr)
    ensures SpentOk(Post(h, at, m), e, nr)
  {
  }

  lemma EncryptOnSchedule(h: History, s: Ratchet, e: nat, plain: Bytes, nonce: Bytes)
    requires Sound(h) && 0 < e < |h.plan.keys| && OnSchedule(h, s, e) && s.ns + 1 < TWO32
    ensures var (s', header, data) := Encrypt(s, plain, nonce);
      && OnSchedule(Post(h, e, Message(SenderOf(e), header, data, nonce, plain)), s', e)
      && s'.nr == s.nr && s'.skipped == s.skipped
      && header == Header(PublicKey(h.plan.keys[e]), Length(h, e), Length(h, e - 2))
      && data == nonce + Seal(KeyOf(h.plan, e, Length(h, e)), nonce, plain)
  {
    var n := Length(h, e);
    assert ChainKeyAt(h.plan, e, n + 1) == NextChainKey(ChainKeyAt(h.plan, e, n));
  }

  lemma EncryptKeeps(h: History, s: Ratchet, e: nat, plain: Bytes, nonce: Bytes)
    requires Sound(h) && 0 < e < |h.plan.keys| && InEpoch(h, s, e) && s.ns + 1 < TWO32
    ensures var (s', header, data) := Encrypt(s, plain, nonce);
      InEpoch(Post(h, e, Message(SenderOf(e), header, data, nonce, plain)), s', e)
  {
    EncryptOnSchedule(h, s, e, plain, nonce);
    var (s', header, data) := Encrypt(s, plain, nonce);
    PassedPost(h, e, s.nr, e, Message(SenderOf(e), header, data, nonce, plain));
    SpentPost(h, e, s.nr, e, Message(SenderOf(e), header, data, nonce, plain));
  }

  /** The other side does not notice that a message was sent. */
  lemma PostKeepsOther(h: History, s: Ratchet, e: nat, at: nat, m: Message)
    requires Sound(h) && e < |h.plan.keys| && InEpoch(h, s, e)
    requires 0 < at < |h.sent| && (at == e + 1 || at == e - 1)
    ensures InEpoch(Post(h, at, m), s, e)
  {
    PassedPost(h, e, s.nr, at, m);
    SpentPost(h, e, s.nr, at, m);
    ScheduleUnchanged(h, Post(h, at, m), s, e);
  }

  lemma PostKeepsHistory(h: History, e: nat, m: Message)
    requires HistoryOk(h) && 0 < e < |h.plan.keys| <= e + 2
    requires Length(h, e) + 1 < TWO32 && m.from == SenderOf(e) && |m.nonce| == AES_NONCE_SIZE
    requires m.header == Header(PublicKey(h.plan.keys[e]), Length(h, e), Length(h, e - 2))
    requires m.data == m.nonce + Seal(KeyOf(h.plan, e, Length(h, e)), m.nonce, m.plain)
    ensures HistoryOk(Post(h, e, m))
  {
    var h' := Post(h, e, m);
    forall e', i | 0 < e' < |h'.plan.keys| && 0 <= i < |h'.sent[e']|
      ensures WellSent(h', e', i)
    {
      if e' != e || i < Length(h, e) {
        assert WellSent(h, e', i);
      }
    }
  }

  // -------------------------------------------------------------------- every step keeps it

  lemma RoleOfEpoch(h: History, p: Role)
    requires |h.plan.keys| >= 2
    ensures SenderOf(EpochOfRole(h, p)) == p
    ensures EpochOfRole(h, Other(p)) == EpochOfRole(h, p) + 1 || EpochOfRole(h, Other(p)) == EpochOfRole(h, p) - 1
  {
  }

  lemma NeighboursAlternate(e: nat, eo: nat, j: nat)
    requires eo == e + 1 || eo == e - 1
    ensures SenderOf(j) != SenderOf(e) <==> SenderOf(j) == SenderOf(eo)
  {
  }

  /** A side that draws a key pair while the other holds the latest moves two epochs on. */
  lemma EpochAfter(h: History, h': History, p: Role)
    requires 2 <= |h.plan.keys| <= |h'.plan.keys|
    ensures |h'.plan.keys| == |h.plan.keys| ==>
      forall q :: EpochOfRole(h', q) == EpochOfRole(h, q)
    ensures |h'.plan.keys| == |h.plan.keys| + 1 && |h.plan.keys| == EpochOfRole(h, p) + 2 ==>
      EpochOfRole(h', p) == EpochOfRole(h, p) + 2 && EpochOfRole(h', Other(p)) == EpochOfRole(h, Other(p))
  {
  }

  /** Two sides in neighbouring epochs, one of them the latest. */
  ghost predicate InPlace(h: History, s: Ratchet, e: nat, o: Ratchet, eo: nat)
    requires Shaped(h)
  {
    && e < |h.plan.keys| <= e + 2 && eo < |h.plan.keys| <= eo + 2
    && (eo == e + 1 || eo == e - 1)
    && InEpoch(h, s, e)
    && InEpoch(h, o, eo)
  }

  /** Both sides are where the history puts them, `s` being the side of `p`. */
  ghost predicate SidesOk(h: History, p: Role, s: Ratchet, o: Ratchet) {
    HistoryOk(h) && InPlace(h, s, EpochOfRole(h, p), o, EpochOfRole(h, Other(p)))
  }

  lemma WorldSides(w: World, p: Role)
    ensures WorldOk(w) <==> SidesOk(w.past, p, StateOf(w, p), StateOf(w, Other(p)))
  {
  }

  lemma SenderEpoch(h: History, s: Ratchet, e: nat, at: nat)
    requires Sound(h) && e < |h.plan.keys| && at < |h.plan.keys| && InEpoch(h, s, e)
    requires s.dhs == h.plan.keys[at] && s.cks.Some?
    ensures at == e && e > 0
  {
  }

  lemma SendAt(h: History, s: Ratchet, e: nat, o: Ratchet, eo: nat, plain: Bytes, nonce: Bytes)
    requires HistoryOk(h) && InPlace(h, s, e, o, eo)
    requires e > 0 && s.ns + 1 < TWO32 && |nonce| == AES_NONCE_SIZE
    ensures var (s', header, data) := Encrypt(s, plain, nonce);
      var h' := Post(h, e, Message(SenderOf(e), header, data, nonce, plain));
      HistoryOk(h') && InPlace(h', s', e, o, eo)
  {
    EncryptOnSchedule(h, s, e, plain, nonce);
    EncryptKeeps(h, s, e, plain, nonce);
    var (s', header, data) := Encrypt(s, plain, nonce);
    var m := Message(SenderOf(e), header, data, nonce, plain);
    PostKeepsHistory(h, e, m);
    PostKeepsOther(h, o, eo, e, m);
  }

  lemma SendSides(h: History, p: Role, s: Ratchet, o: Ratchet, e: nat, plain: Bytes, nonce: Bytes)
    requires SidesOk(h, p, s, o) && e < |h.plan.keys| && s.dhs == h.plan.keys[e] && s.cks.Some?
    requires s.ns + 1 < TWO32 && |nonce| == AES_NONCE_SIZE
    ensures var (s', header, data) := Encrypt(s, plain, nonce);
      SidesOk(Post(h, e, Message(p, header, data, nonce, plain)), p, s', o)
  {
    RoleOfEpoch(h, p);
    SenderEpoch(h, s, EpochOfRole(h, p), e);
    SendAt(h, s, e, o, EpochOfRole(h, Other(p)), plain, nonce);
    var (s', header, data) := Encrypt(s, plain, nonce);
    Reseat(h, Post(h, e, Message(p, header, data, nonce, plain)), p, s', o, e);
  }

  lemma SendKeeps(w: World, step: Step)
    requires WorldOk(w) && step.Send? && Enabled(w, step)
    ensures WorldOk(After(w, step))
  {
    var p := step.p;
    WorldSides(w, p);
    SendSides(w.past, p, StateOf(w, p), StateOf(w, Other(p)), step.e, step.plain, step.nonce);
    WorldSides(After(w, step), p);
  }

  /** A delivery, whatever chain the message is on. */
  lemma DeliverAny(h: History, s: Ratchet, e: nat, m: MessageId, drawn: Bytes)
    requires HistoryOk(h) && e < |h.plan.keys| <= e + 2 && InEpoch(h, s, e)
    requires Pending(h, e, m) && |drawn| == 32 && drawn !in h.plan.keys
    ensures var msg := h.sent[m.epoch][m.num];
      var (s', r) := Decrypt(s, msg.header, msg.data, drawn);
      && r == (if WithinLimits(s, msg.header) then Ok(msg.plain) else Err(SkippedKeyLimit))
      && (s'.dhs == s.dhs ==> InEpoch(Recorded(h, s, s', m, r), s', e))
      && (s'.dhs != s.dhs ==>
            && |h.plan.keys| == e + 2 && s'.dhs == drawn
            && InEpoch(Recorded(h, s, s', m, r), s', e + 2))
  {
    if PassedOver(h, e, s.nr, m) {
      DeliverStored(h, s, e, m, drawn);
    } else if m.epoch == e - 1 {
      DeliverSameChain(h, s, e, m, drawn);
    } else {
      assert m.epoch == e + 1;
      DeliverNextChain(h, s, e, m, drawn);
    }
  }

  lemma SentPending(h: History, p: Role, m: MessageId)
    requires HistoryOk(h) && m.epoch < |h.sent| && m.num < |h.sent[m.epoch]|
    requires h.sent[m.epoch][m.num].from == Other(p) && m !in h.spent
    ensures Pending(h, EpochOfRole(h, p), m)
    ensures SenderOf(m.epoch) == Other(p) == SenderOf(EpochOfRole(h, Other(p)))
  {
    RoleOfEpoch(h, p);
    RoleOfEpoch(h, Other(p));
    assert m.epoch > 0;
    assert WellSent(h, m.epoch, m.num);
  }

  lemma RecordedKeepsHistory(h: History, s: Ratchet, s': Ratchet, m: MessageId, r: Result<Bytes>)
    requires HistoryOk(h) && (s'.dhs != s.dhs ==> |s'.dhs| == 32 && s'.dhs !in h.plan.keys)
    ensures HistoryOk(Recorded(h, s, s', m, r))
  {
    var h1 := if s'.dhs == s.dhs then h else Draw(h, s'.dhs);
    if s'.dhs != s.dhs {
      DrawKeepsHistory(h, s'.dhs);
    }
    DeliverKeepsHistory(h1, m);
  }

  lemma RecordedKeepsSender(h: History, s: Ratchet, s': Ratchet, m: MessageId, r: Result<Bytes>, o: Ratchet, e: nat)
    requires HistoryOk(h) && (s'.dhs != s.dhs ==> |s'.dhs| == 32 && s'.dhs !in h.plan.keys)
    requires e < |h.plan.keys| && InEpoch(h, o, e) && SenderOf(m.epoch) == SenderOf(e)
    ensures InEpoch(Recorded(h, s, s', m, r), o, e)
  {
    var h1 := if s'.dhs == s.dhs then h else Draw(h, s'.dhs);
    if s'.dhs != s.dhs {
      DrawKeepsHistory(h, s'.dhs);
      DrawKeepsEpoch(h, o, e, s'.dhs);
    }
    DeliverKeepsSender(h1, o, e, m);
  }

  /** Where both sides are after a delivery that took the receiver from `s` to `s'`. */
  lemma ReceivePlace(h: History, s: Ratchet, s': Ratchet, e: nat, o: Ratchet, eo: nat, m: MessageId, r: Result<Bytes>)
    returns (e': nat)
    requires HistoryOk(h) && e < |h.plan.keys| <= e + 2 && eo < |h.plan.keys| <= eo + 2
    requires (eo == e + 1 || eo == e - 1) && InEpoch(h, o, eo) && SenderOf(m.epoch) != SenderOf(e)
    requires s'.dhs != s.dhs ==> |s'.dhs| == 32 && s'.dhs !in h.plan.keys && |h.plan.keys| == e + 2
    requires Shaped(Recorded(h, s, s', m, r)) && e < |Recorded(h, s, s', m, r).plan.keys|
    requires s'.dhs == s.dhs ==> InEpoch(Recorded(h, s, s', m, r), s', e)
    requires s'.dhs != s.dhs ==> e + 2 < |Recorded(h, s, s', m, r).plan.keys| && InEpoch(Recorded(h, s, s', m, r), s', e + 2)
    ensures var h' := Recorded(h, s, s', m, r);
      && (|| (e' == e && |h'.plan.keys| == |h.plan.keys|)
          || (e' == e + 2 == |h.plan.keys| == |h'.plan.keys| - 1))
      && HistoryOk(h')
      && InPlace(h', s', e', o, eo)
  {
    NeighboursAlternate(e, eo, m.epoch);
    RecordedKeepsHistory(h, s, s', m, r);
    RecordedKeepsSender(h, s, s', m, r, o, eo);
    e' := if s'.dhs == s.dhs then e else e + 2;
  }

  lemma ReceiveSides(h: History, p: Role, s: Ratchet, o: Ratchet, m: MessageId, drawn: Bytes)
    requires SidesOk(h, p, s, o) && m.epoch < |h.sent| && m.num < |h.sent[m.epoch]|
    requires h.sent[m.epoch][m.num].from == Other(p) && m !in h.spent
    requires |drawn| == 32 && drawn !in h.plan.keys
    ensures var msg := h.sent[m.epoch][m.num];
      var (s', r) := Decrypt(s, msg.header, msg.data, drawn);
      && r == (if WithinLimits(s, msg.header) then Ok(msg.plain) else Err(SkippedKeyLimit))
      && SidesOk(Recorded(h, s, s', m, r), p, s', o)
  {
    var e, msg := EpochOfRole(h, p), h.sent[m.epoch][m.num];
    RoleOfEpoch(h, p);
    SentPending(h, p, m);
    DeliverAny(h, s, e, m, drawn);
    var (s', r) := Decrypt(s, msg.header, msg.data, drawn);
    var e' := ReceivePlace(h, s, s', e, o, EpochOfRole(h, Other(p)), m, r);
    Reseat(h, Recorded(h, s, s', m, r), p, s', o, e');
  }

  lemma Reseat(h: History, h': History, p: Role, s: Ratchet, o: Ratchet, e': nat)
    requires |h.plan.keys| >= 2 && HistoryOk(h')
    requires || (e' == EpochOfRole(h, p) && |h'.plan.keys| == |h.plan.keys|)
             || (e' == EpochOfRole(h, p) + 2 == |h.plan.keys| == |h'.plan.keys| - 1)
    requires InPlace(h', s, e', o, EpochOfRole(h, Other(p)))
    ensures SidesOk(h', p, s, o)
  {
    EpochAfter(h, h', p);
  }

  lemma ReceiveKeeps(w: World, step: Step)
    requires WorldOk(w) && step.Receive? && Enabled(w, step)
    ensures WorldOk(After(w, step))
    ensures var s, msg := StateOf(w, step.p), w.past.sent[step.m.epoch][step.m.num];
      Answer(w, step).1 == if WithinLimits(s, msg.header) then Ok(msg.plain) else Err(SkippedKeyLimit)
  {
    var p := step.p;
    WorldSides(w, p);
    ReceiveSides(w.past, p, StateOf(w, p), StateOf(w, Other(p)), step.m, step.drawn);
    WorldSides(After(w, step), p);
  }

  // ------------------------------------------------------------------------------ replays

  lemma ReplayAt(h: History, s': Ratchet, e: nat, o: Ratchet, eo: nat, m: MessageId)
    requires HistoryOk(h) && e < |h.plan.keys| <= e + 2 && eo < |h.plan.keys| <= eo + 2
    requires (eo == e + 1 || eo == e - 1) && m.epoch == e - 1
    requires InEpoch(Spend(h, m), s', e) && InEpoch(h, o, eo)
    ensures HistoryOk(Spend(h, m)) && InPlace(Spend(h, m), s', e, o, eo)
  {
    NeighboursAlternate(e, eo, m.epoch);
    DeliverKeepsSender(h, o, eo, m);
    DeliverKeepsHistory(h, m);
  }

  lemma ReplaySides(h: History, p: Role, s: Ratchet, o: Ratchet, m: MessageId, drawn: Bytes)
    requires SidesOk(h, p, s, o) && m.epoch < |h.sent| && m.num < |h.sent[m.epoch]| && m in h.spent
    requires s.dhr == Some(h.sent[m.epoch][m.num].header.dhPub) && s.nr + MAX_SKIPPED_KEYS < TWO32
    ensures var msg := h.sent[m.epoch][m.num];
      && Decrypt(s, msg.header, msg.data, drawn) == (TakeReceivingKey(s).0, Err(InvalidMessage))
      && SidesOk(Spend(h, Id(m.epoch, s.nr)), p, TakeReceivingKey(s).0, o)
      && Id(m.epoch, s.nr) !in h.spent
  {
    var e := EpochOfRole(h, p);
    var next, s' := Id(m.epoch, s.nr), TakeReceivingKey(s).0;
    ReplaySpends(h, s, e, m, drawn);
    NotSpentYet(h, s, e, m.epoch);
    ReplayAt(h, s', e, o, EpochOfRole(h, Other(p)), next);
    Reseat(h, Spend(h, next), p, s', o, e);
  }

  lemma NotSpentYet(h: History, s: Ratchet, e: nat, at: nat)
    requires SpentOk(h, e, s.nr) && at == e - 1
    ensures Id(at, s.nr) !in h.spent
  {
  }

  lemma ReplayKeeps(w: World, step: Step)
    requires WorldOk(w) && step.Replay? && Enabled(w, step)
    ensures WorldOk(After(w, step))
    ensures Answer(w, step) == (TakeReceivingKey(StateOf(w, step.p)).0, Err(InvalidMessage))
    ensures Id(step.m.epoch, StateOf(w, step.p).nr) !in w.past.spent
  {
    var p := step.p;
    WorldSides(w, p);
    ReplaySides(w.past, p, StateOf(w, p), StateOf(w, Other(p)), step.m, step.drawn);
    WorldSides(After(w, step), p);
  }

  /** A side on its schedule has keys of the lengths the format expects. */
  lemma EpochWellFormed(h: History, s: Ratchet, e: nat)
    requires Sound(h) && e < |h.plan.keys| && InEpoch(h, s, e)
    requires |s.skipped| < TWO32
    ensures WellFormed(s)
  {
    forall k | k in s.skipped
      ensures |k.dhPub| == 32 && |s.skipped[k]| == 32
    {
      var m := IdOf(h.plan, k);
      assert m in Passed(h, e, s.nr) && Slot(h.plan, m) == k;
    }
  }

  lemma ReloadKeeps(w: World, step: Step)
    requires WorldOk(w) && step.Reload? && Enabled(w, step)
    ensures After(w, step) == w
  {
    var s := StateOf(w, step.p);
    WorldSides(w, step.p);
    EpochWellFormed(w.past, s, EpochOfRole(w.past, step.p));
    RatchetRoundTrip(s, step.order);
  }

  lemma StepKeeps(w: World, step: Step)
    requires WorldOk(w) && Enabled(w, step)
    ensures WorldOk(After(w, step))
  {
    match step
    case Send(_, _, _, _) => SendKeeps(w, step);
    case Receive(_, _, _) => ReceiveKeeps(w, step);
    case Replay(_, _, _) => ReplayKeeps(w, step);
    case Lose(_) =>
    case Reload(_, _) => ReloadKeeps(w, step);
  }

  lemma {:induction false} LeadsKeeps(w: World, steps: seq<Step>, w': World)
    requires WorldOk(w) && Leads(w, steps, w')
    ensures WorldOk(w')
    decreases |steps|
  {
    if steps == [] {
    } else {
      StepKeeps(w, steps[0]);
      LeadsKeeps(After(w, steps[0]), steps[1..], w');
    }
  }

  lemma ReachableOk(w: World)
    requires Reachable(w)
    ensures WorldOk(w)
  {
    var w0, steps :| Initial(w0) && Leads(w0, steps, w);
    InitialOk(w0);
    LeadsKeeps(w0, steps, w);
  }
}
