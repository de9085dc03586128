/**
  What holds in every run of two ratchets: which messages decrypt, where the chains
  stand, what is stored, and what a replay costs.
 */
module RatchetRuns {
  import opened Wrappers
  import opened Words
  import opened Octets
  import opened DoubleRatchet
  import opened RatchetHistory
  import opened RatchetDelivery
  import opened RatchetWorld

  // ---------------------------------------------------------------------- main theorems

  /**
    In every run, with sends, losses, reorderings, replays, reloads and earlier refusals
    interleaved freely across ratchet steps, an unaltered message whose key is not
    spent decrypts to its own plaintext exactly when the skipped keys fit; otherwise
    the answer is the limit error and the message stays deliverable.
   */
  lemma DeliveryTheorem(w: World, step: Step)
    requires Reachable(w) && step.Receive? && Enabled(w, step)
    ensures var s, msg := StateOf(w, step.p), w.past.sent[step.m.epoch][step.m.num];
      Answer(w, step).1 == if WithinLimits(s, msg.header) then Ok(msg.plain) else Err(SkippedKeyLimit)
    ensures step.m in After(w, step).past.spent <==> Answer(w, step).1.Ok?
  {
    ReachableOk(w);
    ReceiveKeeps(w, step);
    Delivers(w, step);
  }

  /**
    In every run, delivering a message of the current chain once more fails, leaves the
    store alone and spends exactly one message: the one whose number the receiver is at,
    sent already or not. By `DeliveryTheorem` all others still open.
   */
  lemma ReplayLosesOne(w: World, step: Step)
    requires Reachable(w) && step.Replay? && Enabled(w, step)
    ensures var s := StateOf(w, step.p);
      && Answer(w, step).1 == Err(InvalidMessage)
      && Answer(w, step).0 == s.(ckr := Answer(w, step).0.ckr, nr := s.nr + 1)
      && Id(step.m.epoch, s.nr) !in w.past.spent
      && After(w, step).past == w.past.(spent := w.past.spent + {Id(step.m.epoch, s.nr)})
  {
    ReachableOk(w);
    ReplayKeeps(w, step);
    ReplayEffect(w, step);
  }

  lemma ReplayEffect(w: World, step: Step)
    requires step.Replay? && Enabled(w, step) && Answer(w, step).0 == TakeReceivingKey(StateOf(w, step.p)).0
    ensures var s := StateOf(w, step.p);
      && Answer(w, step).0 == s.(ckr := Answer(w, step).0.ckr, nr := s.nr + 1)
      && After(w, step).past == w.past.(spent := w.past.spent + {Id(step.m.epoch, s.nr)})
  {
  }

  lemma Delivers(w: World, step: Step)
    requires step.Receive? && Enabled(w, step)
    ensures step.m in After(w, step).past.spent <==> Answer(w, step).1.Ok?
  {
  }

  /** Side `s` receives on chain `e - 1` and side `o` sends on chain `eo`, each at its counter. */
  ghost predicate ChainsMeet(c: Schedule, s: Ratchet, e: nat, o: Ratchet, eo: nat) {
    && e < |c.keys| && eo < |c.keys|
    && s.dhs == c.keys[e] && o.dhs == c.keys[eo]
    && (e - 1 == eo || e - 1 == eo - 2)
    && (s.ckr.Some? <==> e >= 2)
    && (e >= 2 ==> s.dhr == Some(PublicKey(c.keys[e - 1])) && s.ckr == Some(ChainKeyAt(c, e - 1, s.nr)))
    && (eo > 0 ==> o.cks == Some(ChainKeyAt(c, eo, o.ns)))
  }

  /**
    In every run a side receives on the sending chain its peer has now or had
    immediately before.
   */
  lemma ReceivingChainTheorem(w: World, p: Role)
    requires Reachable(w)
    ensures exists mine: nat, theirs: nat ::
      ChainsMeet(w.past.plan, StateOf(w, p), mine, StateOf(w, Other(p)), theirs)
  {
    ReachableOk(w);
    WorldSides(w, p);
    var mine, theirs := EpochOfRole(w.past, p), EpochOfRole(w.past, Other(p));
    PlaceMeets(w.past, StateOf(w, p), mine, StateOf(w, Other(p)), theirs);
  }

  lemma PlaceMeets(h: History, s: Ratchet, e: nat, o: Ratchet, eo: nat)
    requires HistoryOk(h) && InPlace(h, s, e, o, eo)
    ensures ChainsMeet(h.plan, s, e, o, eo)
  {
  }

  /**
    The store of a side whose ratchet key is `e` holds a key for every passed-over
    message and nothing else, and each stored key opens its message.
   */
  ghost predicate StoreIsExact(h: History, s: Ratchet, e: nat) {
    && e < |h.plan.keys| && s.dhs == h.plan.keys[e]
    && (forall m :: PassedOver(h, e, s.nr, m) ==>
          && m.epoch < |h.sent| && m.num < |h.sent[m.epoch]|
          && var msg := h.sent[m.epoch][m.num];
             && SlotOf(msg.header) in s.skipped
             && DecryptWithNonce(s.skipped[SlotOf(msg.header)], msg.data) == Ok(msg.plain))
    && (forall k :: k in s.skipped ==> exists m ::
          && PassedOver(h, e, s.nr, m)
          && m.epoch < |h.sent| && m.num < |h.sent[m.epoch]|
          && k == SlotOf(h.sent[m.epoch][m.num].header))
  }

  /**
    In every run the store of a side holds exactly the keys of the messages sent to
    it that it passed over and that were not delivered, each under its own ratchet
    key and number.
   */
  lemma SkippedKeysTheorem(w: World, p: Role)
    requires Reachable(w)
    ensures exists mine: nat :: StoreIsExact(w.past, StateOf(w, p), mine)
  {
    ReachableOk(w);
    WorldSides(w, p);
    EpochStoreIsExact(w.past, StateOf(w, p), EpochOfRole(w.past, p));
  }

  lemma EpochStoreIsExact(h: History, s: Ratchet, e: nat)
    requires HistoryOk(h) && e < |h.plan.keys| && InEpoch(h, s, e)
    ensures StoreIsExact(h, s, e)
  {
    forall m | PassedOver(h, e, s.nr, m)
      ensures m.epoch < |h.sent| && m.num < |h.sent[m.epoch]| && m.num < TWO32
      ensures m in Passed(h, e, s.nr)
      ensures SlotOf(h.sent[m.epoch][m.num].header) == Slot(h.plan, m)
      ensures DecryptWithNonce(KeyOf(h.plan, m.epoch, m.num), h.sent[m.epoch][m.num].data)
           == Ok(h.sent[m.epoch][m.num].plain)
    {
      OpensTo(h, m);
    }
    forall k | k in s.skipped
      ensures PassedOver(h, e, s.nr, IdOf(h.plan, k))
    {
      assert IdOf(h.plan, k) in Passed(h, e, s.nr);
    }
  }

  // --------------------------------------------------------------- runs put one after another

  lemma ConcatFirst(a: seq<Step>, b: seq<Step>)
    requires a != []
    ensures a + b != [] && (a + b)[0] == a[0] && (a + b)[1..] == a[1..] + b
  {
  }

  lemma LeadsFirst(w: World, all: seq<Step>, w': World, step: Step, rest: seq<Step>)
    requires |all| > 0 && all[0] == step && all[1..] == rest
    requires Enabled(w, step) && Leads(After(w, step), rest, w')
    ensures Leads(w, all, w')
  {
  }

  lemma {:induction false} LeadsThrough(w: World, steps: seq<Step>, w1: World, more: seq<Step>, w2: World)
    requires Leads(w, steps, w1) && Leads(w1, more, w2)
    ensures Leads(w, steps + more, w2)
    decreases |steps|
  {
    if steps == [] {
      assert steps + more == more;
    } else {
      ConcatFirst(steps, more);
      LeadsThrough(After(w, steps[0]), steps[1..], w1, more, w2);
      LeadsFirst(w, steps + more, w2, steps[0], steps[1..] + more);
    }
  }

  lemma ReachesOn(w: World, steps: seq<Step>, w': World)
    requires Reachable(w) && Leads(w, steps, w')
    ensures Reachable(w')
  {
    var w0, before :| Initial(w0) && Leads(w0, before, w);
    LeadsThrough(w0, before, w, steps, w');
  }

  lemma ReachesNext(w: World, step: Step)
    requires Reachable(w) && Enabled(w, step)
    ensures Reachable(After(w, step))
  {
    assert Leads(After(w, step), [step][1..], After(w, step));
    assert Leads(w, [step], After(w, step));
    ReachesOn(w, [step], After(w, step));
  }

  /** Nothing sent is ever taken back. */
  predicate LogPrefix(h: History, h': History) {
    && |h.sent| <= |h'.sent|
    && forall e :: 0 <= e < |h.sent| ==> h.sent[e] <= h'.sent[e]
  }

  lemma {:induction false} LogGrows(w: World, steps: seq<Step>, w': World)
    requires Leads(w, steps, w')
    ensures LogPrefix(w.past, w'.past)
    decreases |steps|
  {
    if steps == [] {
    } else {
      LogGrows(After(w, steps[0]), steps[1..], w');
      LogGrowsBy(w, steps[0]);
    }
  }

  lemma LogGrowsBy(w: World, step: Step)
    requires Enabled(w, step)
    ensures LogPrefix(w.past, After(w, step).past)
  {
  }

  /**
    A message sent now and delivered after any further steps, within the limits of
    the receiver at that time, decrypts to what was sent.
   */
  lemma SentOpensLater(w: World, send: Step, steps: seq<Step>, w': World, drawn: Bytes)
    requires Reachable(w) && send.Send? && Enabled(w, send)
    requires Leads(After(w, send), steps, w')
    requires Enabled(w', Receive(Other(send.p), Id(send.e, |w.past.sent[send.e]|), drawn))
    requires WithinLimits(StateOf(w', Other(send.p)), Encrypt(StateOf(w, send.p), send.plain, send.nonce).1)
    ensures var (_, header, data) := Encrypt(StateOf(w, send.p), send.plain, send.nonce);
      Decrypt(StateOf(w', Other(send.p)), header, data, drawn).1 == Ok(send.plain)
  {
    ReachesNext(w, send);
    ReachesOn(After(w, send), steps, w');
    LogGrows(After(w, send), steps, w');
    var n := |w.past.sent[send.e]|;
    assert After(w, send).past.sent[send.e][n].plain == send.plain;
    assert w'.past.sent[send.e][n] == After(w, send).past.sent[send.e][n];
    DeliveryTheorem(w', Receive(Other(send.p), Id(send.e, n), drawn));
  }

  // ------------------------------------------------------------------ that there are such runs

  lemma StartsSomewhere(secret: Bytes, spk: Bytes, first: Bytes) returns (w: World)
    requires |secret| == 32 && |spk| == 32 && |first| == 32 && spk != first
    ensures Reachable(w)
    ensures w.bob == InitBob(secret, spk) && w.alice.dhs == first && w.alice.cks.Some? && w.alice.ns == 0 && w.alice.pn == 0 && w.alice.nr == 0
    ensures w.past == History(Schedule(secret, [spk, first]), [[], []], {}) && w.lost == {}
  {
    X25519OfPublicKey(first, spk);
    var alice := InitAlice(secret, PublicKey(spk), first).value;
    w := World(alice, InitBob(secret, spk), History(Schedule(secret, [spk, first]), [[], []], {}), {});
    assert InitAlice(secret, PublicKey(spk), first) == Ok(w.alice);
    assert Initial(w);
    assert Leads(w, [], w);
  }

  /** The initiator sends one more message of its first chain. */
  lemma InitiatorSends(w: World, plain: Bytes, nonce: Bytes) returns (w': World)
    requires Reachable(w) && Enabled(w, Send(Alice, 1, plain, nonce))
    ensures Reachable(w') && w' == After(w, Send(Alice, 1, plain, nonce))
  {
    w' := After(w, Send(Alice, 1, plain, nonce));
    ReachesNext(w, Send(Alice, 1, plain, nonce));
  }

  lemma SendEffect(w: World, plain: Bytes, nonce: Bytes)
    requires Enabled(w, Send(Alice, 1, plain, nonce))
    ensures var w' := After(w, Send(Alice, 1, plain, nonce));
      && w'.bob == w.bob && w'.lost == w.lost && w'.past.plan == w.past.plan && w'.past.spent == w.past.spent
      && w'.alice.dhs == w.alice.dhs && w'.alice.cks.Some? && w'.alice.ns == w.alice.ns + 1 && w'.alice.pn == w.alice.pn
      && |w'.past.sent| == |w.past.sent|
      && w'.past.sent[1] == w.past.sent[1]
         + [Message(Alice, Header(PublicKey(w.alice.dhs), w.alice.ns, w.alice.pn), Encrypt(w.alice, plain, nonce).2, nonce, plain)]
  {
  }

  /**
    For all keys and plaintexts there is a run that the theorems speak of: two messages
    are sent, and the second one, delivered first, opens although its key has to be
    skipped to.
   */
  lemma SecondComesFirst(secret: Bytes, spk: Bytes, first: Bytes, one: Bytes, two: Bytes, nonce: Bytes, drawn: Bytes)
    returns (w: World)
    requires |secret| == 32 && |spk| == 32 && |first| == 32 && spk != first && |nonce| == AES_NONCE_SIZE
    requires |drawn| == 32 && drawn != spk && drawn != first
    ensures Reachable(w) && Enabled(w, Receive(Bob, Id(1, 1), drawn))
    ensures w.past.sent[1][0].plain == one && w.past.sent[1][1].plain == two
    ensures Answer(w, Receive(Bob, Id(1, 1), drawn)).1 == Ok(two)
  {
    w := StartsSomewhere(secret, spk, first);
    SendEffect(w, one, nonce);
    w := InitiatorSends(w, one, nonce);
    SendEffect(w, two, nonce);
    w := InitiatorSends(w, two, nonce);
    var step := Receive(Bob, Id(1, 1), drawn);
    var header := w.past.sent[1][1].header;
    assert NewRemoteKey(w.bob, header);
    DeliveryTheorem(w, step);
  }

  /** The initiator has sent `n` messages of its first chain, and nothing has arrived. */
  predicate OnlySent(w: World, secret: Bytes, spk: Bytes, first: Bytes, n: nat) {
    && w.bob == InitBob(secret, spk) && w.past.plan == Schedule(secret, [spk, first]) && w.past.spent == {} && w.lost == {}
    && w.alice.dhs == first && w.alice.cks.Some? && w.alice.ns == n && w.alice.pn == 0
    && |w.past.sent| == 2 && |w.past.sent[1]| == n
  }

  lemma SendsOne(w: World, secret: Bytes, spk: Bytes, first: Bytes, n: nat, plain: Bytes, nonce: Bytes) returns (w': World)
    requires OnlySent(w, secret, spk, first, n) && n + 1 < TWO32 && |nonce| == AES_NONCE_SIZE && Reachable(w)
    ensures OnlySent(w', secret, spk, first, n + 1) && Reachable(w')
    ensures w'.past.sent[1][n].from == Alice && w'.past.sent[1][n].plain == plain
    ensures w'.past.sent[1][n].header == Header(PublicKey(first), n, 0)
  {
    SendEffect(w, plain, nonce);
    w' := InitiatorSends(w, plain, nonce);
  }

  lemma {:induction false} SendsMany(secret: Bytes, spk: Bytes, first: Bytes, n: nat, plain: Bytes, nonce: Bytes) returns (w: World)
    requires |secret| == 32 && |spk| == 32 && |first| == 32 && spk != first && |nonce| == AES_NONCE_SIZE && n < TWO32
    ensures OnlySent(w, secret, spk, first, n) && Reachable(w)
    decreases n
  {
    if n == 0 {
      w := StartsSomewhere(secret, spk, first);
    } else {
      w := SendsMany(secret, spk, first, n - 1, plain, nonce);
      w := SendsOne(w, secret, spk, first, n - 1, plain, nonce);
    }
  }

  lemma NothingStored(secret: Bytes, spk: Bytes, hd: Header)
    ensures WithinLimits(InitBob(secret, spk), hd) <==> hd.n <= 1000
  {
  }

  lemma FirstDelivery(w: World, secret: Bytes, spk: Bytes, k: nat, drawn: Bytes)
    requires w.bob == InitBob(secret, spk) && |w.past.sent| == 2 && |w.past.sent[1]| > k && w.past.sent[1][k].from == Alice
    requires w.past.spent == {} && w.lost == {} && |drawn| == 32 && drawn !in w.past.plan.keys && Reachable(w)
    ensures Enabled(w, Receive(Bob, Id(1, k), drawn))
    ensures Answer(w, Receive(Bob, Id(1, k), drawn)).1
      == if w.past.sent[1][k].header.n <= 1000 then Ok(w.past.sent[1][k].plain) else Err(SkippedKeyLimit)
  {
    NothingStored(secret, spk, w.past.sent[1][k].header);
    DeliveryTheorem(w, Receive(Bob, Id(1, k), drawn));
  }

  /**
    For all keys, plaintexts and numbers there is a run in which the message with that number
    of the first chain arrives before any other. It opens exactly when at most 1000 are skipped.
   */
  lemma LateFirst(secret: Bytes, spk: Bytes, first: Bytes, k: nat, plain: Bytes, nonce: Bytes, drawn: Bytes) returns (w: World)
    requires |secret| == 32 && |spk| == 32 && |first| == 32 && spk != first && |nonce| == AES_NONCE_SIZE
    requires |drawn| == 32 && drawn != spk && drawn != first && k + 1 < TWO32
    ensures Reachable(w) && Enabled(w, Receive(Bob, Id(1, k), drawn))
    ensures Answer(w, Receive(Bob, Id(1, k), drawn)).1 == if k <= 1000 then Ok(plain) else Err(SkippedKeyLimit)
  {
    w := SendsMany(secret, spk, first, k, plain, nonce);
    w := SendsOne(w, secret, spk, first, k, plain, nonce);
    FirstDelivery(w, secret, spk, k, drawn);
  }
}
