/**
  That the replays of `RatchetReplay` happen: a conversation in turns, after three of
  which the first message comes again.
 */
module RatchetReplayRun {
  import opened Wrappers
  import opened Words
  import opened Octets
  import opened DoubleRatchet
  import opened RatchetHistory
  import opened RatchetDelivery
  import opened RatchetWorld
  import opened RatchetRuns
  import opened RatchetKeyUse
  import opened RatchetReplay

  /** The side of epoch `e`, the latest, is about to send its first message there, and both have read all before. */
  predicate TurnShape(w: World, e: nat) {
    && w.lost == {}
    && e >= 1 && |w.past.plan.keys| == e + 1 && |w.past.sent| == e + 1
    && Length(w.past, e) == 0 && Length(w.past, e - 1) <= 1 && Length(w.past, e - 2) <= 1
    && StateOf(w, SenderOf(e)).nr == Length(w.past, e - 1)
    && StateOf(w, Other(SenderOf(e))).nr == Length(w.past, e - 2)
  }

  ghost predicate InTurn(w: World, e: nat) {
    TurnShape(w, e) && Reachable(w)
  }

  lemma TurnEpochs(w: World, e: nat)
    requires e >= 1 && |w.past.plan.keys| == e + 1
    ensures EpochOfRole(w.past, SenderOf(e)) == e && EpochOfRole(w.past, Other(SenderOf(e))) == e - 1
  {
  }

  lemma TurnsAlternate(e: nat)
    ensures SenderOf(e + 1) == Other(SenderOf(e)) && Other(SenderOf(e + 1)) == SenderOf(e)
  {
  }

  lemma TurnEnabled(w: World, e: nat, plain: Bytes, nonce: Bytes)
    requires Shaped(w.past) && 0 < e < |w.past.plan.keys| && OnSchedule(w.past, StateOf(w, SenderOf(e)), e)
    requires Length(w.past, e) == 0 && |nonce| == AES_NONCE_SIZE
    ensures Enabled(w, Send(SenderOf(e), e, plain, nonce))
  {
  }

  /** What sending the message of the turn changes. */
  lemma TurnPosts(w: World, e: nat, plain: Bytes, nonce: Bytes)
    requires |w.past.sent| == e + 1 && Length(w.past, e) == 0 && Enabled(w, Send(SenderOf(e), e, plain, nonce))
    ensures var w1 := After(w, Send(SenderOf(e), e, plain, nonce));
      && w1.lost == w.lost && w1.past.plan == w.past.plan && w1.past.spent == w.past.spent
      && StateOf(w1, Other(SenderOf(e))) == StateOf(w, Other(SenderOf(e)))
      && StateOf(w1, SenderOf(e)).nr == StateOf(w, SenderOf(e)).nr
      && |w1.past.sent| == e + 1 && |w1.past.sent[e]| == 1 && w1.past.sent[e][0].from == SenderOf(e)
      && forall i :: 0 <= i < e ==> w1.past.sent[i] == w.past.sent[i]
  {
  }

  /** The message of the turn is sent and not read yet. */
  predicate MidShape(w: World, e: nat) {
    && w.lost == {}
    && e >= 1 && |w.past.plan.keys| == e + 1 && |w.past.sent| == e + 1
    && Length(w.past, e) == 1 && Length(w.past, e - 1) <= 1 && Length(w.past, e - 2) <= 1
    && w.past.sent[e][0].from == SenderOf(e)
    && StateOf(w, SenderOf(e)).nr == Length(w.past, e - 1)
    && StateOf(w, Other(SenderOf(e))).nr == Length(w.past, e - 2)
  }

  ghost predicate MidTurn(w: World, e: nat) {
    MidShape(w, e) && Reachable(w)
  }

  lemma TurnSends(w: World, e: nat, plain: Bytes, nonce: Bytes) returns (w1: World)
    requires InTurn(w, e) && |nonce| == AES_NONCE_SIZE
    ensures MidTurn(w1, e) && w1.past.plan == w.past.plan && w1.past.spent == w.past.spent
    ensures forall i :: 0 <= i < e ==> w1.past.sent[i] == w.past.sent[i]
  {
    TurnEpochs(w, e);
    SideOf(w, SenderOf(e), e);
    TurnEnabled(w, e, plain, nonce);
    TurnPosts(w, e, plain, nonce);
    ReachesNext(w, Send(SenderOf(e), e, plain, nonce));
    w1 := After(w, Send(SenderOf(e), e, plain, nonce));
  }

  /** Nothing of the turn is spent. */
  lemma TurnUnspent(h: History, e: nat, nr: nat)
    requires e >= 1 && SpentOk(h, e - 1, nr)
    ensures Id(e, 0) !in h.spent && Id(e, 1) !in h.spent
  {
    assert SenderOf(e) != SenderOf(e - 1);
  }

  /** The header of the turn is new to the reader, and there is room. */
  lemma TurnRoom(h: History, o: Ratchet, e: nat, hd: Header)
    requires Sound(h) && e >= 1 && |h.plan.keys| == e + 1 && OnSchedule(h, o, e - 1)
    requires Length(h, e - 2) <= 1 && o.nr == Length(h, e - 2)
    requires hd.dhPub == PublicKey(h.plan.keys[e]) && hd.n == 0 && hd.pn == Length(h, e - 2)
    ensures NewRemoteKey(o, hd) && WithinLimits(o, hd)
  {
  }

  /** The message of the turn can be read, and its key fits. */
  lemma TurnFits(h: History, o: Ratchet, e: nat)
    requires HistoryOk(h) && e >= 1 && |h.plan.keys| == e + 1 && InEpoch(h, o, e - 1)
    requires Length(h, e) == 1 && Length(h, e - 2) <= 1 && o.nr == Length(h, e - 2)
    ensures Id(e, 0) !in h.spent && Id(e, 1) !in h.spent
    ensures var hd := h.sent[e][0].header;
      NewRemoteKey(o, hd) && SlotOf(hd) !in o.skipped && WithinLimits(o, hd)
  {
    TurnUnspent(h, e, o.nr);
    OpensTo(h, Id(e, 0));
    TurnRoom(h, o, e, h.sent[e][0].header);
    assert !PassedOver(h, e - 1, o.nr, Id(e, 0));
    NoSlot(h.plan, Passed(h, e - 1, o.nr), o.skipped, Id(e, 0));
  }

  lemma NewKeyDrawn(s: Ratchet, hd: Header, data: Bytes, drawn: Bytes)
    requires NewRemoteKey(s, hd) && SlotOf(hd) !in s.skipped && Decrypt(s, hd, data, drawn).1.Ok?
    ensures Decrypt(s, hd, data, drawn).0.dhs == drawn
  {
    DecryptsBy(s, hd, data, drawn);
    SkipRoot(EnterChain(s, hd, drawn).0, hd.n);
  }

  lemma ReadPosts(w: World, e: nat, drawn: Bytes)
    requires |w.past.sent| == e + 1 && Enabled(w, Receive(Other(SenderOf(e)), Id(e, 0), drawn))
    requires var (s', r) := Answer(w, Receive(Other(SenderOf(e)), Id(e, 0), drawn));
      r.Ok? && s'.dhs == drawn != StateOf(w, Other(SenderOf(e))).dhs
    ensures var w2 := After(w, Receive(Other(SenderOf(e)), Id(e, 0), drawn));
      && w2.lost == w.lost && w2.past.spent == w.past.spent + {Id(e, 0)}
      && w2.past.plan.keys == w.past.plan.keys + [drawn] && w2.past.sent == w.past.sent + [[]]
      && StateOf(w2, SenderOf(e)) == StateOf(w, SenderOf(e))
  {
  }

  /** A reader at the end of a chain of one message has counted one. */
  lemma CountedOne(h: History, e: nat, nr: nat)
    requires e >= 1 && SpentOk(h, e + 1, nr) && Length(h, e) == 1 && Id(e, 0) in h.spent && Id(e, 1) !in h.spent
    ensures nr == 1
  {
    assert SenderOf(e) != SenderOf(e + 1);
  }

  /** The message of the turn is read, and a new key pair drawn. */
  lemma TurnAnswer(w: World, e: nat, drawn: Bytes)
    requires MidTurn(w, e) && |drawn| == 32 && drawn !in w.past.plan.keys
    ensures Enabled(w, Receive(Other(SenderOf(e)), Id(e, 0), drawn)) && Id(e, 1) !in w.past.spent
    ensures var (s', r) := Answer(w, Receive(Other(SenderOf(e)), Id(e, 0), drawn));
      r.Ok? && s'.dhs == drawn != StateOf(w, Other(SenderOf(e))).dhs
  {
    var p := Other(SenderOf(e));
    var o, msg := StateOf(w, p), w.past.sent[e][0];
    TurnEpochs(w, e);
    SideOf(w, p, e - 1);
    TurnFits(w.past, o, e);
    DeliveryTheorem(w, Receive(p, Id(e, 0), drawn));
    NewKeyDrawn(o, msg.header, msg.data, drawn);
  }

  lemma SpentOf(w: World, e: nat)
    requires |w.past.plan.keys| == e + 2 && Reachable(w)
    ensures SpentOk(w.past, e + 1, StateOf(w, Other(SenderOf(e))).nr)
  {
    TurnsAlternate(e);
    TurnEpochs(w, e + 1);
    SideOf(w, SenderOf(e + 1), e + 1);
  }

  /** After the message is read it is the other side's turn. */
  lemma NextShape(w: World, w2: World, e: nat, drawn: Bytes)
    requires MidShape(w, e) && Id(e, 1) !in w.past.spent
    requires w2.lost == w.lost && w2.past.spent == w.past.spent + {Id(e, 0)}
    requires w2.past.plan.keys == w.past.plan.keys + [drawn] && w2.past.sent == w.past.sent + [[]]
    requires StateOf(w2, SenderOf(e)) == StateOf(w, SenderOf(e))
    requires SpentOk(w2.past, e + 1, StateOf(w2, Other(SenderOf(e))).nr)
    ensures TurnShape(w2, e + 1)
  {
    TurnsAlternate(e);
    CountedOne(w2.past, e, StateOf(w2, Other(SenderOf(e))).nr);
  }

  lemma TurnReads(w: World, e: nat, drawn: Bytes) returns (w2: World)
    requires MidTurn(w, e) && |drawn| == 32 && drawn !in w.past.plan.keys
    ensures InTurn(w2, e + 1) && w2.past.plan.keys == w.past.plan.keys + [drawn]
    ensures w2.past.spent == w.past.spent + {Id(e, 0)} && w2.past.sent == w.past.sent + [[]]
  {
    w2 := TurnStep(w, e, drawn);
    SpentOf(w2, e);
    NextShape(w, w2, e, drawn);
  }

  lemma TurnStep(w: World, e: nat, drawn: Bytes) returns (w2: World)
    requires MidTurn(w, e) && |drawn| == 32 && drawn !in w.past.plan.keys
    ensures Reachable(w2) && Id(e, 1) !in w.past.spent
    ensures w2.lost == w.lost && w2.past.spent == w.past.spent + {Id(e, 0)}
    ensures w2.past.plan.keys == w.past.plan.keys + [drawn] && w2.past.sent == w.past.sent + [[]]
    ensures StateOf(w2, SenderOf(e)) == StateOf(w, SenderOf(e))
  {
    TurnAnswer(w, e, drawn);
    ReadPosts(w, e, drawn);
    ReachesNext(w, Receive(Other(SenderOf(e)), Id(e, 0), drawn));
    w2 := After(w, Receive(Other(SenderOf(e)), Id(e, 0), drawn));
  }

  /** One message each way of the conversation. */
  lemma Turn(w: World, e: nat, plain: Bytes, nonce: Bytes, drawn: Bytes) returns (w2: World)
    requires InTurn(w, e) && |nonce| == AES_NONCE_SIZE && |drawn| == 32 && drawn !in w.past.plan.keys
    ensures InTurn(w2, e + 1) && w2.past.plan.keys == w.past.plan.keys + [drawn]
    ensures w2.past.spent == w.past.spent + {Id(e, 0)} && Length(w2.past, e) == 1
    ensures forall i :: 0 <= i < e ==> w2.past.sent[i] == w.past.sent[i]
  {
    var w1 := TurnSends(w, e, plain, nonce);
    w2 := TurnReads(w1, e, drawn);
  }

  lemma FirstTurn(secret: Bytes, spk: Bytes, first: Bytes) returns (w: World)
    requires |secret| == 32 && |spk| == 32 && |first| == 32 && spk != first
    ensures InTurn(w, 1) && w.past == History(Schedule(secret, [spk, first]), [[], []], {})
  {
    w := StartsSomewhere(secret, spk, first);
    TurnEpochs(w, 1);
  }

  /** The first message of all names no previous chain. */
  lemma FirstHeader(w: World, e: nat)
    requires InTurn(w, e) && e >= 2 && Length(w.past, 1) == 1
    ensures w.past.sent[1][0].header.pn == 0
  {
    TurnEpochs(w, e);
    SideOf(w, SenderOf(e), e);
    OpensTo(w.past, Id(1, 0));
  }

  /**
    For all keys there is a run, of a message, an answer and another message, after which
    the first message can come again with room to leave the present chain.
   */
  lemma OldReplayRun(secret: Bytes, spk: Bytes, first: Bytes, two: Bytes, three: Bytes, four: Bytes,
                     plain: Bytes, nonce: Bytes, drawn: Bytes) returns (w: World, msg: Message)
    requires |secret| == 32 && |spk| == 32 && |first| == 32 && |two| == 32 && |three| == 32 && |four| == 32 && |drawn| == 32
    requires spk != first && two !in [spk, first] && three !in [spk, first, two] && four !in [spk, first, two, three]
    requires |nonce| == AES_NONCE_SIZE
    ensures OldReplay(w, Bob, 4, Id(1, 0), msg, drawn) && RoomToLeave(w.bob, msg.header)
  {
    w := FirstTurn(secret, spk, first);
    w := Turn(w, 1, plain, nonce, two);
    w := Turn(w, 2, plain, nonce, three);
    w := Turn(w, 3, plain, nonce, four);
    msg := w.past.sent[1][0];
    FirstHeader(w, 4);
    TurnEpochs(w, 4);
  }
}
