/**
  A ratchet that has taken a root step of its own: from then on every key it tries is
  stored already or derived through that step, and a ratchet that does not take the
  step never seals under such a key. All calls, headers and data are arbitrary.
 */
module RatchetBranch {
  import opened Wrappers
  import opened Words
  import opened Octets
  import opened DoubleRatchet
  import opened RatchetHistory
  import opened KeyOrder
  import opened RatchetKeyUse

  // ------------------------------------------------------------------- on one side of a step

  /** All keys still derivable come through `t`, all stored ones do or are in `old`. */
  ghost predicate OnBranch(t: Term, known: set<Bytes>, s: Ratchet) {
    && Under(t, s.rk) && s.ckr.Some? && Under(t, s.ckr.value)
    && forall k :: k in s.skipped ==> s.skipped[k] in known || Under(t, s.skipped[k])
  }

  ghost predicate OldOrUnder(t: Term, known: set<Bytes>, keys: seq<Bytes>) {
    forall k :: k in keys ==> k in known || Under(t, k)
  }

  lemma {:induction false} SkipLoopBranch(t: Term, known: set<Bytes>, s: Ratchet, until: uint32)
    requires t.Hkdf? && OnBranch(t, known, s)
    ensures OnBranch(t, known, SkipLoop(s, until).0)
    decreases until - s.nr
  {
    if s.nr >= until {
    } else {
      ChainUnder(t, s.ckr.value);
      if |SkipOne(s).skipped| <= MAX_SKIPPED_KEYS {
        SkipLoopBranch(t, known, SkipOne(s), until);
      }
    }
  }

  lemma DhStepBranch(t: Term, known: set<Bytes>, s: Ratchet, newDhr: Bytes, drawn: Bytes)
    requires OnBranch(t, known, s)
    ensures OnBranch(t, known, DhRatchetStep(s, newDhr, drawn).0)
  {
    var peer := Fit32(newDhr);
    var dh1 := X25519(s.dhs, peer);
    if dh1.Ok? {
      RootUnder(t, s.rk, dh1.value);
      var dh2 := X25519(drawn, peer);
      if dh2.Ok? {
        RootUnder(t, RootKdf(s.rk, dh1.value).0, dh2.value);
      }
    }
  }

  lemma EnterBranch(t: Term, known: set<Bytes>, s: Ratchet, h: Header, drawn: Bytes)
    requires t.Hkdf? && OnBranch(t, known, s)
    ensures OnBranch(t, known, EnterChain(s, h, drawn).0)
  {
    SkipLoopBranch(t, known, s, h.pn);
    DhStepBranch(t, known, SkipMessageKeys(s, h.pn).0, h.dhPub, drawn);
  }

  /** Once a chain is entered, skipping and taking stay on the branch. */
  lemma ReachBranch(t: Term, known: set<Bytes>, s: Ratchet, n: uint32)
    requires t.Hkdf? && OnBranch(t, known, s)
    ensures var s2 := SkipMessageKeys(s, n).0;
      OnBranch(t, known, s2) && OnBranch(t, known, TakeReceivingKey(s2).0) && Under(t, TakeReceivingKey(s2).1)
  {
    SkipLoopBranch(t, known, s, n);
    ChainUnder(t, SkipMessageKeys(s, n).0.ckr.value);
  }

  lemma DecryptBranch(t: Term, known: set<Bytes>, s: Ratchet, h: Header, data: Bytes, drawn: Bytes)
    requires t.Hkdf? && OnBranch(t, known, s)
    ensures OnBranch(t, known, Decrypt(s, h, data, drawn).0)
    ensures OldOrUnder(t, known, KeysTried(s, h, data, drawn))
  {
    var s0 := ForgetSkipped(s, h);
    EnterBranch(t, known, s0, h, drawn);
    ReachBranch(t, known, EnterChain(s0, h, drawn).0, h.n);
  }

  lemma CallBranch(t: Term, known: set<Bytes>, s: Ratchet, c: Call)
    requires t.Hkdf? && OnBranch(t, known, s) && KeysOk(s) && Allowed(s, c)
    ensures OnBranch(t, known, Apply(s, c)) && KeysOk(Apply(s, c)) && OldOrUnder(t, known, Tried(s, c))
  {
    ApplyKeysOk(s, c);
    if c.DecryptCall? {
      DecryptBranch(t, known, s, c.header, c.data, c.drawn);
    }
  }

  lemma BranchNext(t: Term, known: set<Bytes>, states: seq<Ratchet>, calls: seq<Call>, lists: seq<seq<Bytes>>, n: nat)
    requires t.Hkdf? && IsPath(states, calls) && IsTrace(states, calls, lists) && n < |calls|
    requires OnBranch(t, known, states[n]) && KeysOk(states[n])
    ensures OnBranch(t, known, states[n + 1]) && KeysOk(states[n + 1]) && OldOrUnder(t, known, lists[n])
  {
    assert Steps(states, calls, n);
    assert TriesAt(states, calls, lists, n);
    CallBranch(t, known, states[n], calls[n]);
  }

  lemma {:induction false} PathBranch(t: Term, known: set<Bytes>, states: seq<Ratchet>, calls: seq<Call>,
                                      lists: seq<seq<Bytes>>, n: nat)
    requires t.Hkdf? && IsPath(states, calls) && IsTrace(states, calls, lists) && n <= |calls|
    requires OnBranch(t, known, states[0]) && KeysOk(states[0])
    ensures OnBranch(t, known, states[n]) && KeysOk(states[n]) && OldOrUnder(t, known, Joined(lists, n))
    decreases n
  {
    if n == 0 {
    } else {
      PathBranch(t, known, states, calls, lists, n - 1);
      BranchNext(t, known, states, calls, lists, n - 1);
    }
  }

  // ----------------------------------------------------------------- what is never tried again

  /** A path from `s` on which `k` is tried. */
  ghost predicate TriedOn(states: seq<Ratchet>, calls: seq<Call>, lists: seq<seq<Bytes>>, s: Ratchet, k: Bytes) {
    && IsPath(states, calls) && IsTrace(states, calls, lists)
    && states[0] == s && k in Joined(lists, |calls|)
  }

  /** Over every sequence of calls from `s`, key `k` is never tried. */
  ghost predicate NeverTried(s: Ratchet, k: Bytes) {
    forall states, calls, lists :: !TriedOn(states, calls, lists, s, k)
  }

  function StoredKeys(s: Ratchet): set<Bytes> {
    set k | k in s.skipped :: s.skipped[k]
  }

  /** A key off the branch that is not among the known ones is gone. */
  lemma OffBranchGone(t: Term, known: set<Bytes>, s: Ratchet, k: Bytes)
    requires t.Hkdf? && OnBranch(t, known, s) && KeysOk(s) && k !in known && !Under(t, k)
    ensures NeverTried(s, k)
  {
    forall states, calls, lists
      ensures !TriedOn(states, calls, lists, s, k)
    {
      if TriedOn(states, calls, lists, s, k) {
        PathBranch(t, known, states, calls, lists, |calls|);
      }
    }
  }

  lemma PathAppend(states: seq<Ratchet>, calls: seq<Call>, lists: seq<seq<Bytes>>, c: Call)
    requires IsPath(states, calls) && IsTrace(states, calls, lists) && Allowed(states[|calls|], c)
    ensures IsPath(states + [Apply(states[|calls|], c)], calls + [c])
    ensures IsTrace(states + [Apply(states[|calls|], c)], calls + [c], lists + [Tried(states[|calls|], c)])
  {
    var n := |calls|;
    var s' := Apply(states[n], c);
    var l := Tried(states[n], c);
    forall i: nat | i < n + 1
      ensures Steps(states + [s'], calls + [c], i)
      ensures TriesAt(states + [s'], calls + [c], lists + [l], i)
    {
      if i < n {
        assert Steps(states, calls, i);
        assert TriesAt(states, calls, lists, i);
      }
    }
  }

  lemma {:induction false} JoinedPrefix(lists: seq<seq<Bytes>>, l: seq<Bytes>, n: nat)
    requires n <= |lists|
    ensures Joined(lists + [l], n) == Joined(lists, n)
    decreases n
  {
    if n == 0 {
    } else {
      JoinedPrefix(lists, l, n - 1);
    }
  }

  /** One more call at the end of a path tries what it tries. */
  lemma CallTries(states: seq<Ratchet>, calls: seq<Call>, lists: seq<seq<Bytes>>, c: Call, k: Bytes)
    requires IsPath(states, calls) && IsTrace(states, calls, lists) && Allowed(states[|calls|], c)
    requires k in Tried(states[|calls|], c)
    ensures !NeverTried(states[0], k)
  {
    var n := |calls|;
    var s', l := Apply(states[n], c), Tried(states[n], c);
    PathAppend(states, calls, lists, c);
    JoinedPrefix(lists, l, n);
    assert Joined(lists + [l], n + 1) == Joined(lists + [l], n) + l;
    assert TriedOn(states + [s'], calls + [c], lists + [l], states[0], k);
  }

  /** A call that opens nothing and names the remote key a side has. */
  function Probe(dhr: Bytes, n: uint32): Call {
    DecryptCall(Header(dhr, n, 0), [], Zeros(32))
  }

  lemma ProbeTakes(s: Ratchet)
    requires s.ckr.Some? && s.dhr.Some?
    ensures var c := Probe(s.dhr.value, 0);
      && Allowed(s, c)
      && Apply(s, c).ckr == Some(NextChainKey(s.ckr.value)) && Apply(s, c).dhr == s.dhr
      && MessageKey(s.ckr.value) in Tried(s, c)
  {
    var h := Header(s.dhr.value, 0, 0);
    var s0 := ForgetSkipped(s, h);
    assert DeriveKey(s0, h, Zeros(32)) == (TakeReceivingKey(s0).0, Ok(MessageKey(s.ckr.value)));
    assert TrySkippedKeys(s, h, []).Err?;
    var stored := if SlotOf(h) in s.skipped then [s.skipped[SlotOf(h)]] else [];
    assert KeysTried(s, h, [], Zeros(32)) == stored + [MessageKey(s.ckr.value)];
  }

  lemma {:induction false} ProbePath(s: Ratchet, i: nat) returns (states: seq<Ratchet>, calls: seq<Call>, lists: seq<seq<Bytes>>)
    requires s.ckr.Some? && s.dhr.Some?
    ensures IsPath(states, calls) && IsTrace(states, calls, lists) && states[0] == s && |calls| == i
    ensures states[i].ckr == Some(Advance(s.ckr.value, i)) && states[i].dhr == s.dhr
    decreases i
  {
    if i == 0 {
      states, calls, lists := [s], [], [];
    } else {
      states, calls, lists := ProbePath(s, i - 1);
      var last := states[i - 1];
      ProbeTakes(last);
      var c := Probe(last.dhr.value, 0);
      PathAppend(states, calls, lists, c);
      states, calls, lists := states + [Apply(last, c)], calls + [c], lists + [Tried(last, c)];
    }
  }

  /** Every key of the receiving chain from its present place on can still be tried. */
  lemma ChainTries(s: Ratchet, i: nat)
    requires s.ckr.Some? && s.dhr.Some?
    ensures !NeverTried(s, MessageKey(Advance(s.ckr.value, i)))
  {
    var states, calls, lists := ProbePath(s, i);
    ProbeTakes(states[i]);
    CallTries(states, calls, lists, Probe(states[i].dhr.value, 0), MessageKey(Advance(s.ckr.value, i)));
  }

  /** Every stored key can still be tried. */
  lemma StoredTries(s: Ratchet, k: SkippedKey)
    requires k in s.skipped && |k.dhPub| == 32
    ensures !NeverTried(s, s.skipped[k])
  {
    var c := Probe(k.dhPub, k.n);
    assert SlotOf(c.header) == k;
    assert TrySkippedKeys(s, c.header, c.data).Err?;
    assert s.skipped[k] in Tried(s, c);
    CallTries([s], [], [], c, s.skipped[k]);
  }

  // ------------------------------------------------------------------ on the other side of it

  /** Neither the root key nor the sending chain comes through `t`, and the own key pair is neither of its two. */
  ghost predicate OffBranch(t: Term, x: Bytes, y: Bytes, o: Ratchet) {
    !Under(t, o.rk) && !Under(t, KeyBytes(o.cks)) && o.dhs != x && o.dhs != y
  }

  lemma DhStepOff(t: Term, root: Bytes, x: Bytes, y: Bytes, o: Ratchet, newDhr: Bytes, drawn: Bytes)
    requires t == RootTerm(root, SharedSecret(x, y)) && OffBranch(t, x, y, o) && drawn != x && drawn != y
    ensures OffBranch(t, x, y, DhRatchetStep(o, newDhr, drawn).0)
  {
    var peer := Fit32(newDhr);
    var dh1 := X25519(o.dhs, peer);
    if dh1.Ok? {
      OtherAgreement(o.dhs, peer, x, y);
      RootUnder(t, o.rk, dh1.value);
      var dh2 := X25519(drawn, peer);
      if dh2.Ok? {
        OtherAgreement(drawn, peer, x, y);
        RootUnder(t, RootKdf(o.rk, dh1.value).0, dh2.value);
      }
    }
  }

  lemma DecryptOff(t: Term, root: Bytes, x: Bytes, y: Bytes, o: Ratchet, h: Header, data: Bytes, drawn: Bytes)
    requires t == RootTerm(root, SharedSecret(x, y)) && OffBranch(t, x, y, o) && drawn != x && drawn != y
    ensures OffBranch(t, x, y, Decrypt(o, h, data, drawn).0)
  {
    var o0 := ForgetSkipped(o, h);
    SkipRoot(o0, h.pn);
    DhStepOff(t, root, x, y, SkipMessageKeys(o0, h.pn).0, h.dhPub, drawn);
    SkipRoot(EnterChain(o0, h, drawn).0, h.n);
  }

  lemma CallOff(t: Term, root: Bytes, x: Bytes, y: Bytes, o: Ratchet, c: Call)
    requires t == RootTerm(root, SharedSecret(x, y)) && OffBranch(t, x, y, o) && KeysOk(o) && Allowed(o, c)
    requires c.DecryptCall? ==> c.drawn != x && c.drawn != y
    ensures OffBranch(t, x, y, Apply(o, c)) && KeysOk(Apply(o, c))
  {
    ApplyKeysOk(o, c);
    if c.DecryptCall? {
      DecryptOff(t, root, x, y, o, c.header, c.data, c.drawn);
    } else if c.EncryptCall? {
      ChainUnder(t, KeyBytes(o.cks));
    }
  }

  /** No call draws one of two key pairs again. */
  predicate DrawsOthers(calls: seq<Call>, x: Bytes, y: Bytes) {
    forall i :: 0 <= i < |calls| && calls[i].DecryptCall? ==> calls[i].drawn != x && calls[i].drawn != y
  }

  lemma OffNext(t: Term, root: Bytes, x: Bytes, y: Bytes, states: seq<Ratchet>, calls: seq<Call>, n: nat)
    requires t == RootTerm(root, SharedSecret(x, y)) && IsPath(states, calls) && n < |calls| && DrawsOthers(calls, x, y)
    requires OffBranch(t, x, y, states[n]) && KeysOk(states[n])
    ensures OffBranch(t, x, y, states[n + 1]) && KeysOk(states[n + 1])
  {
    assert Steps(states, calls, n);
    CallOff(t, root, x, y, states[n], calls[n]);
  }

  /** Over every sequence of calls such a side never seals under a key that comes through `t`. */
  lemma {:induction false} PathOff(t: Term, root: Bytes, x: Bytes, y: Bytes, states: seq<Ratchet>, calls: seq<Call>, n: nat)
    requires t == RootTerm(root, SharedSecret(x, y)) && IsPath(states, calls) && n <= |calls| && DrawsOthers(calls, x, y)
    requires OffBranch(t, x, y, states[0]) && KeysOk(states[0])
    ensures OffBranch(t, x, y, states[n]) && KeysOk(states[n]) && !Under(t, SealingKey(states[n]))
    decreases n
  {
    if n == 0 {
    } else {
      PathOff(t, root, x, y, states, calls, n - 1);
      OffNext(t, root, x, y, states, calls, n - 1);
    }
    ChainUnder(t, KeyBytes(states[n].cks));
  }
}
