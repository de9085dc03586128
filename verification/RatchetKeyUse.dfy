/**
  One ratchet under every sequence of calls, with arbitrary headers and data:
  replays, forgeries, refused points and exhausted limits included.

  A message key is the output of a derivation that only moves forward, which is why
  none of them can come up twice.
 */
module RatchetKeyUse {
  import opened Wrappers
  import opened Words
  import opened Octets
  import opened DoubleRatchet
  import opened RatchetCodec
  import opened KeyOrder

  // ------------------------------------------------------------------------------ calls

  datatype Call =
    | EncryptCall(plain: Bytes, nonce: Bytes)
    | DecryptCall(header: Header, data: Bytes, drawn: Bytes)
    | ReloadCall(order: seq<SkippedKey>)

  /** Generated keys have 32 octets; nothing is asked of headers and data. */
  ghost predicate Allowed(s: Ratchet, c: Call) {
    match c
    case EncryptCall(_, _) => true
    case DecryptCall(_, _, drawn) => |drawn| == 32
    case ReloadCall(order) => |s.skipped| < TWO32 && IsOrder(order, s.skipped)
  }

  ghost function Apply(s: Ratchet, c: Call): Ratchet
    requires Allowed(s, c)
  {
    match c
    case EncryptCall(plain, nonce) => Encrypt(s, plain, nonce).0
    case DecryptCall(h, data, drawn) => Decrypt(s, h, data, drawn).0
    case ReloadCall(order) =>
      var loaded := Decode(Encode(s, order));
      if loaded.Ok? then loaded.value else s
  }

  ghost predicate Steps(states: seq<Ratchet>, calls: seq<Call>, i: nat)
    requires |states| == |calls| + 1 && i < |calls|
  {
    Allowed(states[i], calls[i]) && states[i + 1] == Apply(states[i], calls[i])
  }

  /** The states a ratchet goes through when the calls are made in order. */
  ghost predicate IsPath(states: seq<Ratchet>, calls: seq<Call>) {
    && |states| == |calls| + 1
    && forall i: nat :: i < |calls| ==> Steps(states, calls, i)
  }

  /** The same for a fresh ratchet. */
  ghost predicate IsRun(states: seq<Ratchet>, calls: seq<Call>) {
    IsPath(states, calls) && Fresh(states[0])
  }

  ghost predicate Fresh(s: Ratchet) {
    || (exists secret, spk :: |secret| == 32 && |spk| == 32 && s == InitBob(secret, spk))
    || (exists secret, remote, first ::
          |remote| == 32 && |first| == 32 && InitAlice(secret, remote, first) == Ok(s))
  }

  // ----------------------------------------------------------------------- keys are kept

  /** The keys have the lengths of the format; nothing is said about how many are stored. */
  predicate KeysOk(s: Ratchet) {
    && |s.dhs| == 32 && |s.rk| == 32
    && KeyOk(s.dhr) && KeyOk(s.cks) && KeyOk(s.ckr)
    && (forall k :: k in s.skipped ==> |k.dhPub| == 32 && |s.skipped[k]| == 32)
  }

  lemma {:induction false} SkipLoopKeysOk(s: Ratchet, until: uint32)
    requires KeysOk(s) && s.ckr.Some?
    ensures KeysOk(SkipLoop(s, until).0) && SkipLoop(s, until).0.ckr.Some?
    decreases until - s.nr
  {
    if s.nr >= until {
    } else if |SkipOne(s).skipped| <= MAX_SKIPPED_KEYS {
      SkipLoopKeysOk(SkipOne(s), until);
    }
  }

  lemma DhStepKeysOk(s: Ratchet, peer: Bytes, drawn: Bytes)
    requires KeysOk(s) && |drawn| == 32
    ensures KeysOk(DhRatchetStep(s, peer, drawn).0)
  {
  }

  lemma EnterChainKeysOk(s: Ratchet, h: Header, drawn: Bytes)
    requires KeysOk(s) && |drawn| == 32
    ensures KeysOk(EnterChain(s, h, drawn).0)
  {
    if s.ckr.Some? {
      SkipLoopKeysOk(s, h.pn);
    }
    DhStepKeysOk(SkipMessageKeys(s, h.pn).0, h.dhPub, drawn);
  }

  lemma DecryptKeysOk(s: Ratchet, h: Header, data: Bytes, drawn: Bytes)
    requires KeysOk(s) && |drawn| == 32
    ensures KeysOk(Decrypt(s, h, data, drawn).0)
  {
    var s0 := ForgetSkipped(s, h);
    EnterChainKeysOk(s0, h, drawn);
    var s1 := EnterChain(s0, h, drawn).0;
    if s1.ckr.Some? {
      SkipLoopKeysOk(s1, h.n);
    }
  }

  lemma ApplyKeysOk(s: Ratchet, c: Call)
    requires KeysOk(s) && Allowed(s, c)
    ensures KeysOk(Apply(s, c))
    ensures c.ReloadCall? ==> Apply(s, c) == s
  {
    match c
    case EncryptCall(_, _) =>
    case DecryptCall(h, data, drawn) => DecryptKeysOk(s, h, data, drawn);
    case ReloadCall(order) => RatchetRoundTrip(s, order);
  }

  // ------------------------------------------------------------------- no key comes twice

  /** The message keys a call tries on its data, in order. */
  function KeysTried(s: Ratchet, h: Header, data: Bytes, drawn: Bytes): seq<Bytes> {
    var stored := if SlotOf(h) in s.skipped then [s.skipped[SlotOf(h)]] else [];
    if TrySkippedKeys(s, h, data).Ok? then stored
    else
      var derived := DeriveKey(ForgetSkipped(s, h), h, drawn).1;
      if derived.Ok? then stored + [derived.value] else stored
  }

  ghost function Tried(s: Ratchet, c: Call): seq<Bytes> {
    if c.DecryptCall? then KeysTried(s, c.header, c.data, c.drawn) else []
  }

  ghost predicate TriesAt(states: seq<Ratchet>, calls: seq<Call>, lists: seq<seq<Bytes>>, i: nat)
    requires |states| == |calls| + 1 && |lists| == |calls| && i < |calls|
  {
    lists[i] == Tried(states[i], calls[i])
  }

  /** `lists` has the keys that each call of a run tries. */
  ghost predicate IsTrace(states: seq<Ratchet>, calls: seq<Call>, lists: seq<seq<Bytes>>) {
    && |states| == |calls| + 1 && |lists| == |calls|
    && forall i: nat :: i < |calls| ==> TriesAt(states, calls, lists, i)
  }

  ghost function Trace(states: seq<Ratchet>, calls: seq<Call>): (lists: seq<seq<Bytes>>)
    requires |states| == |calls| + 1
    ensures IsTrace(states, calls, lists)
  {
    seq(|calls|, i requires 0 <= i < |calls| => Tried(states[i], calls[i]))
  }

  /** The first `n` lists, one after the other. */
  function Joined(lists: seq<seq<Bytes>>, n: nat): seq<Bytes>
    requires n <= |lists|
  {
    if n == 0 then [] else Joined(lists, n - 1) + lists[n - 1]
  }

  lemma {:induction false} InJoined(lists: seq<seq<Bytes>>, i: nat, n: nat, k: Bytes)
    requires i < n <= |lists| && k in lists[i]
    ensures k in Joined(lists, n)
    decreases n
  {
    if i == n - 1 {
    } else {
      InJoined(lists, i, n - 1, k);
    }
  }

  lemma JoinedApart(lists: seq<seq<Bytes>>, i: nat, j: nat)
    requires i < j < |lists| && Distinct(Joined(lists, j + 1))
    ensures forall k :: k in lists[j] ==> k !in lists[i]
  {
    DistinctApart(Joined(lists, j), lists[j]);
    forall k | k in lists[i]
      ensures k in Joined(lists, j)
    {
      InJoined(lists, i, j, k);
    }
  }

  predicate Distinct(keys: seq<Bytes>) {
    forall i, j :: 0 <= i < j < |keys| ==> keys[i] != keys[j]
  }

  lemma DistinctAppend(keys: seq<Bytes>, k: Bytes)
    requires Distinct(keys) && k !in keys
    ensures Distinct(keys + [k])
  {
  }

  lemma Regroup(a: seq<Bytes>, b: seq<Bytes>, k: Bytes)
    ensures a + b + [k] == a + (b + [k])
  {
  }

  lemma DistinctApart(a: seq<Bytes>, b: seq<Bytes>)
    requires Distinct(a + b)
    ensures forall k :: k in b ==> k !in a
  {
    forall i, j | 0 <= i < |a| && 0 <= j < |b|
      ensures a[i] != b[j]
    {
      assert (a + b)[i] == a[i] && (a + b)[|a| + j] == b[j];
    }
  }

  /**
    `tried` has no repetition, nothing tried is stored any more, no key is stored
    twice, and all of these were derived before anything still derivable.
   */
  ghost predicate Spent(s: Ratchet, tried: seq<Bytes>) {
    && Distinct(tried)
    && (forall k :: k in s.skipped ==> s.skipped[k] !in tried)
    && (forall k, k' :: k in s.skipped && k' in s.skipped && k != k' ==> s.skipped[k] != s.skipped[k'])
    && (forall k :: k in s.skipped ==> NotAfter(s.skipped[k], KeyBytes(s.ckr)))
    && (forall t :: t in tried ==> NotAfter(t, KeyBytes(s.ckr)))
    && RootSteps(KeyBytes(s.ckr)) <= RootSteps(s.rk)
  }

  lemma FreshSpent(s: Ratchet)
    requires Fresh(s)
    ensures Spent(s, []) && KeysOk(s)
  {
  }

  lemma SkipOneSpent(s: Ratchet, tried: seq<Bytes>)
    requires Spent(s, tried) && s.nr + 1 < TWO32
    ensures Spent(SkipOne(s), tried)
  {
    ChainSucceeds(KeyBytes(s.ckr));
  }

  lemma {:induction false} SkipLoopSpent(s: Ratchet, until: uint32, tried: seq<Bytes>)
    requires Spent(s, tried)
    ensures Spent(SkipLoop(s, until).0, tried)
    decreases until - s.nr
  {
    if s.nr >= until {
    } else {
      SkipOneSpent(s, tried);
      if |SkipOne(s).skipped| <= MAX_SKIPPED_KEYS {
        SkipLoopSpent(SkipOne(s), until, tried);
      }
    }
  }

  /** Whatever the peer key, entering a chain only moves to later keys. */
  lemma DhStepSpent(s: Ratchet, newDhr: Bytes, drawn: Bytes, tried: seq<Bytes>)
    requires Spent(s, tried)
    ensures Spent(DhRatchetStep(s, newDhr, drawn).0, tried)
  {
    var peer := Fit32(newDhr);
    var dh1 := X25519(s.dhs, peer);
    if dh1.Ok? {
      var rk1 := RootKdf(s.rk, dh1.value).0;
      RootSucceeds(s.rk, dh1.value);
      var dh2 := X25519(drawn, peer);
      if dh2.Ok? {
        RootSucceeds(rk1, dh2.value);
      }
    }
  }

  lemma EnterChainSpent(s: Ratchet, h: Header, drawn: Bytes, tried: seq<Bytes>)
    requires Spent(s, tried)
    ensures Spent(EnterChain(s, h, drawn).0, tried)
  {
    SkipLoopSpent(s, h.pn, tried);
    DhStepSpent(SkipMessageKeys(s, h.pn).0, h.dhPub, drawn, tried);
  }

  lemma TakeSpent(s: Ratchet, tried: seq<Bytes>)
    requires Spent(s, tried)
    ensures Spent(TakeReceivingKey(s).0, tried + [TakeReceivingKey(s).1])
  {
    ChainSucceeds(KeyBytes(s.ckr));
    DistinctAppend(tried, TakeReceivingKey(s).1);
  }

  lemma DeriveSpent(s: Ratchet, h: Header, drawn: Bytes, tried: seq<Bytes>)
    requires Spent(s, tried)
    ensures var (s', mk) := DeriveKey(s, h, drawn);
      Spent(s', if mk.Ok? then tried + [mk.value] else tried)
  {
    EnterChainSpent(s, h, drawn, tried);
    var s1 := EnterChain(s, h, drawn).0;
    SkipLoopSpent(s1, h.n, tried);
    TakeSpent(SkipMessageKeys(s1, h.n).0, tried);
  }

  lemma ForgetSpent(s: Ratchet, h: Header, tried: seq<Bytes>)
    requires Spent(s, tried)
    ensures Spent(ForgetSkipped(s, h),
                  tried + if SlotOf(h) in s.skipped then [s.skipped[SlotOf(h)]] else [])
  {
  }

  lemma DecryptSpent(s: Ratchet, h: Header, data: Bytes, drawn: Bytes, tried: seq<Bytes>)
    requires Spent(s, tried)
    ensures Spent(Decrypt(s, h, data, drawn).0, tried + KeysTried(s, h, data, drawn))
  {
    var stored := if SlotOf(h) in s.skipped then [s.skipped[SlotOf(h)]] else [];
    ForgetSpent(s, h, tried);
    DeriveSpent(ForgetSkipped(s, h), h, drawn, tried + stored);
    var derived := DeriveKey(ForgetSkipped(s, h), h, drawn).1;
    if derived.Ok? {
      Regroup(tried, stored, derived.value);
    }
  }

  lemma ApplySpent(s: Ratchet, c: Call, tried: seq<Bytes>)
    requires Spent(s, tried) && KeysOk(s) && Allowed(s, c)
    ensures Spent(Apply(s, c), tried + Tried(s, c))
  {
    ApplyKeysOk(s, c);
    match c
    case EncryptCall(_, _) => assert tried + [] == tried;
    case DecryptCall(h, data, drawn) => DecryptSpent(s, h, data, drawn, tried);
    case ReloadCall(_) => assert tried + [] == tried;
  }

  ghost predicate Good(s: Ratchet, tried: seq<Bytes>) {
    KeysOk(s) && Spent(s, tried)
  }

  lemma ApplyGood(s: Ratchet, c: Call, tried: seq<Bytes>)
    requires Good(s, tried) && Allowed(s, c)
    ensures Good(Apply(s, c), tried + Tried(s, c))
  {
    ApplyKeysOk(s, c);
    ApplySpent(s, c, tried);
  }

  lemma RunStart(states: seq<Ratchet>, calls: seq<Call>)
    requires IsRun(states, calls)
    ensures Good(states[0], [])
  {
    FreshSpent(states[0]);
  }

  lemma GoodNext(states: seq<Ratchet>, calls: seq<Call>, lists: seq<seq<Bytes>>, n: nat, tried: seq<Bytes>)
    requires IsPath(states, calls) && IsTrace(states, calls, lists) && n < |calls| && Good(states[n], tried)
    ensures Good(states[n + 1], tried + lists[n])
  {
    assert Steps(states, calls, n);
    assert TriesAt(states, calls, lists, n);
    ApplyGood(states[n], calls[n], tried);
  }

  lemma Associate(a: seq<Bytes>, b: seq<Bytes>, c: seq<Bytes>)
    ensures (a + b) + c == a + (b + c)
  {
  }

  /** From a state in which `tried` is used up, the keys tried later are others. */
  lemma {:induction false} PathGood(states: seq<Ratchet>, calls: seq<Call>, lists: seq<seq<Bytes>>, tried: seq<Bytes>, n: nat)
    requires IsPath(states, calls) && IsTrace(states, calls, lists) && n <= |calls| && Good(states[0], tried)
    ensures Good(states[n], tried + Joined(lists, n))
    decreases n
  {
    if n == 0 {
      assert tried + [] == tried;
    } else {
      PathGood(states, calls, lists, tried, n - 1);
      GoodNext(states, calls, lists, n - 1, tried + Joined(lists, n - 1));
      Associate(tried, Joined(lists, n - 1), lists[n - 1]);
    }
  }

  lemma RunGood(states: seq<Ratchet>, calls: seq<Call>, lists: seq<seq<Bytes>>, n: nat)
    requires IsRun(states, calls) && IsTrace(states, calls, lists) && n <= |calls|
    ensures Good(states[n], Joined(lists, n))
  {
    RunStart(states, calls);
    PathGood(states, calls, lists, [], n);
    assert [] + Joined(lists, n) == Joined(lists, n);
  }

  /** A key that is used up is never tried again, whatever the calls. */
  lemma NeverAgain(states: seq<Ratchet>, calls: seq<Call>, lists: seq<seq<Bytes>>, k: Bytes, n: nat)
    requires IsPath(states, calls) && IsTrace(states, calls, lists) && n <= |calls| && Good(states[0], [k])
    ensures k !in Joined(lists, n)
  {
    PathGood(states, calls, lists, [k], n);
    DistinctApart([k], Joined(lists, n));
  }

  /**
    Over every run, replays and arbitrary headers included, no message key is tried
    twice, so none yields two successful decryptions.
   */
  lemma NoKeyTwice(states: seq<Ratchet>, calls: seq<Call>, lists: seq<seq<Bytes>>)
    requires IsRun(states, calls) && IsTrace(states, calls, lists)
    ensures forall n: nat :: n <= |calls| ==> Distinct(Joined(lists, n))
  {
    forall n: nat | n <= |calls|
      ensures Distinct(Joined(lists, n))
    {
      RunGood(states, calls, lists, n);
    }
  }

  // ------------------------------------------------------------------------------ replays

  lemma OpenedByTried(s: Ratchet, h: Header, data: Bytes, drawn: Bytes)
    requires Decrypt(s, h, data, drawn).1.Ok?
    ensures exists k :: k in KeysTried(s, h, data, drawn) && DecryptWithNonce(k, data).Ok?
  {
    var tried := KeysTried(s, h, data, drawn);
    assert tried != [] && tried[|tried| - 1] in tried;
  }

  lemma OpensUnderOneKey(a: Bytes, b: Bytes, data: Bytes)
    requires DecryptWithNonce(a, data).Ok? && DecryptWithNonce(b, data).Ok?
    ensures a == b
  {
    var nonce, box := data[..AES_NONCE_SIZE], data[AES_NONCE_SIZE..];
    OpensOnlyUnderSealingKey(a, nonce, box[0].term.plain, b, nonce);
  }

  ghost predicate Succeeds(s: Ratchet, c: Call) {
    c.DecryptCall? && Decrypt(s, c.header, c.data, c.drawn).1.Ok?
  }

  /** Two calls that try different keys cannot both open the same data. */
  lemma OtherKeyFails(s: Ratchet, c: Call, s': Ratchet, c': Call)
    requires Succeeds(s, c) && c'.DecryptCall? && c'.data == c.data
    requires forall k :: k in Tried(s', c') ==> k !in Tried(s, c)
    ensures !Succeeds(s', c')
  {
    if Succeeds(s', c') {
      OpenedByTried(s, c.header, c.data, c.drawn);
      OpenedByTried(s', c'.header, c.data, c'.drawn);
      var k :| k in Tried(s, c) && DecryptWithNonce(k, c.data).Ok?;
      var k' :| k' in Tried(s', c') && DecryptWithNonce(k', c.data).Ok?;
      OpensUnderOneKey(k, k', c.data);
    }
  }

  lemma TriedApart(states: seq<Ratchet>, calls: seq<Call>, lists: seq<seq<Bytes>>, i: nat, j: nat)
    requires IsTrace(states, calls, lists) && i < j < |calls|
    requires forall k :: k in lists[j] ==> k !in lists[i]
    ensures forall k :: k in Tried(states[j], calls[j]) ==> k !in Tried(states[i], calls[i])
  {
    assert TriesAt(states, calls, lists, i) && TriesAt(states, calls, lists, j);
  }

  /** Over every run, data that was decrypted once is never decrypted again. */
  lemma ReplayTheorem(states: seq<Ratchet>, calls: seq<Call>, i: nat, j: nat)
    requires IsRun(states, calls) && i < j < |calls|
    requires Succeeds(states[i], calls[i])
    requires calls[j].DecryptCall? && calls[j].data == calls[i].data
    ensures !Succeeds(states[j], calls[j])
  {
    var lists := Trace(states, calls);
    NoKeyTwice(states, calls, lists);
    JoinedApart(lists, i, j);
    TriedApart(states, calls, lists, i, j);
    OtherKeyFails(states[i], calls[i], states[j], calls[j]);
  }

  // ------------------------------------------------------------------ how much is skipped

  /**
    The loop runs at most 1000 times for every pair of counters: when `nr + 1000`
    wraps around, the bound is below `nr` and the loop does not run at all.
   */
  lemma SkipAtMost(s: Ratchet, until: uint32)
    ensures s.nr <= SkipMessageKeys(s, until).0.nr <= s.nr + 1000
  {
    SkipLoopReach(s, until);
  }

  lemma {:induction false} SkipLoopReach(s: Ratchet, until: uint32)
    ensures var (s', ok) := SkipLoop(s, until);
      && s.nr <= s'.nr <= (if s.nr < until then until else s.nr)
      && (ok ==> |s'.skipped| <= Max(|s.skipped|, MAX_SKIPPED_KEYS))
      && |s'.skipped| <= Max(|s.skipped|, MAX_SKIPPED_KEYS) + 1
    decreases until - s.nr
  {
    if s.nr >= until {
    } else if |SkipOne(s).skipped| <= MAX_SKIPPED_KEYS {
      SkipLoopReach(SkipOne(s), until);
    }
  }

  /**
    Decryption that does not hit the limit leaves at most as many stored keys as
    before, or 1000; hitting the limit adds one key at most.
   */
  lemma StoreGrowth(s: Ratchet, h: Header, data: Bytes, drawn: Bytes)
    ensures var (s', r) := Decrypt(s, h, data, drawn);
      |s'.skipped| <= Max(|s.skipped|, 1000) + (if r == Err(SkippedKeyLimit) then 1 else 0)
  {
    var s0 := ForgetSkipped(s, h);
    ForgetShrinks(s, h);
    EnterGrowth(s0, h, drawn);
    SkipLoopReach(EnterChain(s0, h, drawn).0, h.n);
    AnswersOnlyInvalid(DeriveKey(s0, h, drawn).1, data);
  }

  lemma ForgetShrinks(s: Ratchet, h: Header)
    ensures |ForgetSkipped(s, h).skipped| <= |s.skipped|
  {
    var k := SlotOf(h);
    if k in s.skipped {
      assert s.skipped.Keys == ForgetSkipped(s, h).skipped.Keys + {k};
    } else {
      assert ForgetSkipped(s, h).skipped == s.skipped;
    }
  }

  lemma EnterGrowth(s: Ratchet, h: Header, drawn: Bytes)
    ensures var (s', failure) := EnterChain(s, h, drawn);
      |s'.skipped| <= Max(|s.skipped|, MAX_SKIPPED_KEYS) + (if failure == Some(SkippedKeyLimit) then 1 else 0)
  {
    SkipLoopReach(s, h.pn);
  }

  /** Opening a box never answers with the limit error. */
  lemma AnswersOnlyInvalid(mk: Result<Bytes>, data: Bytes)
    ensures mk.Ok? ==> DecryptWithNonce(mk.value, data) != Err(SkippedKeyLimit)
  {
  }

  ghost predicate HitsLimit(s: Ratchet, c: Call) {
    c.DecryptCall? && Decrypt(s, c.header, c.data, c.drawn).1 == Err(SkippedKeyLimit)
  }

  ghost function LimitFailures(states: seq<Ratchet>, calls: seq<Call>, n: nat): nat
    requires |states| == |calls| + 1 && n <= |calls|
  {
    if n == 0 then 0
    else LimitFailures(states, calls, n - 1) + Hits(HitsLimit(states[n - 1], calls[n - 1]))
  }

  function Hits(hit: bool): nat {
    if hit then 1 else 0
  }

  lemma CallGrowth(s: Ratchet, c: Call)
    requires KeysOk(s) && Allowed(s, c)
    ensures |Apply(s, c).skipped| <= Max(|s.skipped|, MAX_SKIPPED_KEYS) + Hits(HitsLimit(s, c))
  {
    ApplyKeysOk(s, c);
    if c.DecryptCall? {
      StoreGrowth(s, c.header, c.data, c.drawn);
    }
  }

  lemma GrowthAt(states: seq<Ratchet>, calls: seq<Call>, i: nat)
    requires IsRun(states, calls) && i < |calls|
    ensures |states[i + 1].skipped|
         <= Max(|states[i].skipped|, MAX_SKIPPED_KEYS) + Hits(HitsLimit(states[i], calls[i]))
  {
    RunEmptyBefore(states, calls, i);
    assert Steps(states, calls, i);
    CallGrowth(states[i], calls[i]);
  }

  /** A run with k limit failures never holds more than 1000 + k stored keys. */
  lemma {:induction false} StoreBoundTheorem(states: seq<Ratchet>, calls: seq<Call>, n: nat)
    requires IsRun(states, calls) && n <= |calls|
    ensures |states[n].skipped| <= 1000 + LimitFailures(states, calls, n)
    decreases n
  {
    if n == 0 {
      assert states[0].skipped == map[];
    } else {
      StoreBoundTheorem(states, calls, n - 1);
      GrowthAt(states, calls, n - 1);
    }
  }

  // ---------------------------------------------------------------- where a key comes from

  /** A fresh ratchet, as either end of a session that agreed on `secret`. */
  ghost predicate FreshFrom(s: Ratchet, secret: Bytes) {
    && |secret| == 32
    && (|| (exists spk :: |spk| == 32 && s == InitBob(secret, spk))
        || (exists remote, first :: |remote| == 32 && |first| == 32 && InitAlice(secret, remote, first) == Ok(s)))
  }

  /** Without a receiving chain nothing is stored. */
  predicate EmptyBefore(s: Ratchet) {
    s.ckr.None? ==> s.skipped == map[]
  }

  /** Everything a side can still decrypt with descends from the secret. */
  ghost predicate ReceivesFrom(secret: Bytes, s: Ratchet) {
    && (s.ckr.Some? ==> From(secret, s.ckr.value))
    && (forall k :: k in s.skipped ==> From(secret, s.skipped[k]))
  }

  ghost predicate OnlyFrom(secret: Bytes, keys: seq<Bytes>) {
    forall k :: k in keys ==> From(secret, k)
  }

  /** The header names the remote key a side already has while it has no receiving chain. */
  predicate ChainAbsent(s: Ratchet, c: Call) {
    c.DecryptCall? && s.ckr.None? && s.dhr == Some(c.header.dhPub)
  }

  /** A side encrypts before it has a sending chain. */
  predicate SendAbsent(s: Ratchet, c: Call) {
    c.EncryptCall? && s.cks.None?
  }

  /** The key that an encryption seals under. */
  function SealingKey(s: Ratchet): Bytes {
    MessageKey(KeyBytes(s.cks))
  }

  lemma FreshIsFresh(s: Ratchet, secret: Bytes)
    requires FreshFrom(s, secret)
    ensures Fresh(s) && From(secret, s.rk) && ReceivesFrom(secret, s) && EmptyBefore(s) && KeysOk(s)
    ensures s.cks.Some? ==> From(secret, s.cks.value)
  {
    if spk :| |spk| == 32 && s == InitBob(secret, spk) {
      FreshSpent(s);
    } else {
      var remote, first :| |remote| == 32 && |first| == 32 && InitAlice(secret, remote, first) == Ok(s);
      FreshSpent(s);
      RootFrom(secret, secret, X25519(first, remote).value);
    }
  }

  // ------------------------------------------------------------------- the receiving side

  lemma {:induction false} SkipLoopFrom(secret: Bytes, s: Ratchet, until: uint32)
    requires s.ckr.Some? && ReceivesFrom(secret, s)
    ensures ReceivesFrom(secret, SkipLoop(s, until).0) && SkipLoop(s, until).0.ckr.Some?
    decreases until - s.nr
  {
    if s.nr >= until {
    } else {
      ChainFrom(secret, s.ckr.value);
      if |SkipOne(s).skipped| <= MAX_SKIPPED_KEYS {
        SkipLoopFrom(secret, SkipOne(s), until);
      }
    }
  }

  lemma {:induction false} SkipLoopRoot(s: Ratchet, until: uint32)
    ensures var s' := SkipLoop(s, until).0;
      s'.rk == s.rk && s'.cks == s.cks && s'.dhs == s.dhs && s'.dhr == s.dhr
    decreases until - s.nr
  {
    if s.nr >= until {
    } else if |SkipOne(s).skipped| <= MAX_SKIPPED_KEYS {
      SkipLoopRoot(SkipOne(s), until);
    }
  }

  lemma SkipFrom(secret: Bytes, s: Ratchet, until: uint32)
    requires ReceivesFrom(secret, s)
    ensures var s' := SkipMessageKeys(s, until).0;
      ReceivesFrom(secret, s') && (s'.ckr.None? <==> s.ckr.None?) && (s.ckr.None? ==> s' == s)
  {
    if s.ckr.Some? {
      SkipLoopFrom(secret, s, until);
    }
  }

  lemma SkipRoot(s: Ratchet, until: uint32)
    ensures var s' := SkipMessageKeys(s, until).0;
      s'.rk == s.rk && s'.cks == s.cks && s'.dhs == s.dhs && s'.dhr == s.dhr
  {
    SkipLoopRoot(s, until);
  }

  lemma DhStepFrom(secret: Bytes, s: Ratchet, newDhr: Bytes, drawn: Bytes)
    requires From(secret, s.rk)
    ensures var (s', failure) := DhRatchetStep(s, newDhr, drawn);
      && From(secret, s'.rk) && s'.skipped == s.skipped
      && (s'.ckr == s.ckr || (s'.ckr.Some? && From(secret, s'.ckr.value)))
      && (s'.cks == s.cks || (s'.cks.Some? && From(secret, s'.cks.value)))
      && (failure.None? ==> s'.ckr.Some? && From(secret, s'.ckr.value))
  {
    var peer := Fit32(newDhr);
    var dh := X25519(s.dhs, peer);
    if dh.Ok? {
      RootFrom(secret, s.rk, dh.value);
      var dh2 := X25519(drawn, peer);
      if dh2.Ok? {
        RootFrom(secret, RootKdf(s.rk, dh.value).0, dh2.value);
      }
    }
  }

  lemma EnterFrom(secret: Bytes, s: Ratchet, h: Header, drawn: Bytes)
    requires From(secret, s.rk) && ReceivesFrom(secret, s)
    ensures var (s', failure) := EnterChain(s, h, drawn);
      ReceivesFrom(secret, s') && (failure.None? && NewRemoteKey(s, h) ==> s'.ckr.Some?)
  {
    SkipFrom(secret, s, h.pn);
    SkipRoot(s, h.pn);
    DhStepFrom(secret, SkipMessageKeys(s, h.pn).0, h.dhPub, drawn);
  }

  lemma DeriveFrom(secret: Bytes, s: Ratchet, h: Header, drawn: Bytes)
    requires From(secret, s.rk) && ReceivesFrom(secret, s) && !(s.ckr.None? && !NewRemoteKey(s, h))
    ensures var (s', mk) := DeriveKey(s, h, drawn);
      ReceivesFrom(secret, s') && (mk.Ok? ==> From(secret, mk.value))
  {
    EnterFrom(secret, s, h, drawn);
    var s1 := EnterChain(s, h, drawn).0;
    SkipFrom(secret, s1, h.n);
    var s2 := SkipMessageKeys(s1, h.n).0;
    if s2.ckr.Some? {
      ChainFrom(secret, s2.ckr.value);
    }
  }

  lemma ForgetFrom(secret: Bytes, s: Ratchet, h: Header)
    requires ReceivesFrom(secret, s)
    ensures ReceivesFrom(secret, ForgetSkipped(s, h))
  {
  }

  lemma DecryptFrom(secret: Bytes, s: Ratchet, h: Header, data: Bytes, drawn: Bytes)
    requires From(secret, s.rk) && ReceivesFrom(secret, s) && !(s.ckr.None? && !NewRemoteKey(s, h))
    ensures ReceivesFrom(secret, Decrypt(s, h, data, drawn).0)
    ensures OnlyFrom(secret, KeysTried(s, h, data, drawn))
  {
    ForgetFrom(secret, s, h);
    DeriveFrom(secret, ForgetSkipped(s, h), h, drawn);
  }

  /** A call that finds its receiving chain tries only keys that descend from the secret. */
  lemma CallFrom(secret: Bytes, s: Ratchet, c: Call)
    requires KeysOk(s) && From(secret, s.rk) && ReceivesFrom(secret, s) && Allowed(s, c) && !ChainAbsent(s, c)
    ensures ReceivesFrom(secret, Apply(s, c)) && OnlyFrom(secret, Tried(s, c))
  {
    ApplyKeysOk(s, c);
    if c.DecryptCall? {
      DecryptFrom(secret, s, c.header, c.data, c.drawn);
    }
  }

  /** A call that does not find one tries a key that needs nothing to be known. */
  lemma CallFromNothing(s: Ratchet, c: Call)
    requires EmptyBefore(s) && ChainAbsent(s, c)
    ensures Tried(s, c) == [MessageKey([])]
  {
    assert ForgetSkipped(s, c.header) == s;
  }

  // ----------------------------------------------------- the root key and the sending side

  /** Whatever the call, the root key and a sending chain made from it descend from the secret. */
  lemma DecryptRoot(secret: Bytes, s: Ratchet, h: Header, data: Bytes, drawn: Bytes)
    requires From(secret, s.rk)
    ensures var s' := Decrypt(s, h, data, drawn).0;
      From(secret, s'.rk) && (s'.cks == s.cks || (s'.cks.Some? && From(secret, s'.cks.value)))
  {
    var s0 := ForgetSkipped(s, h);
    SkipRoot(s0, h.pn);
    DhStepFrom(secret, SkipMessageKeys(s0, h.pn).0, h.dhPub, drawn);
    SkipRoot(EnterChain(s0, h, drawn).0, h.n);
  }

  lemma CallRoot(secret: Bytes, s: Ratchet, c: Call)
    requires KeysOk(s) && From(secret, s.rk) && Allowed(s, c)
    ensures From(secret, Apply(s, c).rk)
    ensures !SendAbsent(s, c) && (s.cks.Some? ==> From(secret, s.cks.value)) ==>
      (Apply(s, c).cks.Some? ==> From(secret, Apply(s, c).cks.value))
  {
    ApplyKeysOk(s, c);
    if c.DecryptCall? {
      DecryptRoot(secret, s, c.header, c.data, c.drawn);
    } else if c.EncryptCall? && s.cks.Some? && From(secret, s.cks.value) {
      ChainFrom(secret, s.cks.value);
    }
  }

  // ------------------------------------------------------------------------ over every run

  lemma {:induction false} LoopKeepsChain(s: Ratchet, until: uint32)
    requires s.ckr.Some?
    ensures SkipLoop(s, until).0.ckr.Some?
    decreases until - s.nr
  {
    if s.nr >= until {
    } else if |SkipOne(s).skipped| <= MAX_SKIPPED_KEYS {
      LoopKeepsChain(SkipOne(s), until);
    }
  }

  lemma SkipKeepsEmpty(s: Ratchet, until: uint32)
    requires EmptyBefore(s)
    ensures EmptyBefore(SkipMessageKeys(s, until).0)
  {
    if s.ckr.Some? {
      LoopKeepsChain(s, until);
    }
  }

  lemma EnterKeepsEmpty(s: Ratchet, h: Header, drawn: Bytes)
    requires EmptyBefore(s)
    ensures EmptyBefore(EnterChain(s, h, drawn).0)
  {
    SkipKeepsEmpty(s, h.pn);
  }

  /** Nothing is stored before there is a receiving chain, whatever the call. */
  lemma DecryptKeepsEmpty(s: Ratchet, h: Header, data: Bytes, drawn: Bytes)
    requires EmptyBefore(s)
    ensures EmptyBefore(Decrypt(s, h, data, drawn).0)
  {
    var s0 := ForgetSkipped(s, h);
    EnterKeepsEmpty(s0, h, drawn);
    SkipKeepsEmpty(EnterChain(s0, h, drawn).0, h.n);
  }

  lemma EmptyNext(states: seq<Ratchet>, calls: seq<Call>, n: nat)
    requires IsPath(states, calls) && n < |calls| && EmptyBefore(states[n]) && KeysOk(states[n])
    ensures EmptyBefore(states[n + 1]) && KeysOk(states[n + 1])
  {
    assert Steps(states, calls, n);
    var s, c := states[n], calls[n];
    ApplyKeysOk(s, c);
    if c.DecryptCall? {
      DecryptKeepsEmpty(s, c.header, c.data, c.drawn);
    }
  }

  lemma {:induction false} RunEmptyBefore(states: seq<Ratchet>, calls: seq<Call>, n: nat)
    requires IsRun(states, calls) && n <= |calls|
    ensures EmptyBefore(states[n]) && KeysOk(states[n])
    decreases n
  {
    if n == 0 {
      StartsEmpty(states, calls);
    } else {
      RunEmptyBefore(states, calls, n - 1);
      EmptyNext(states, calls, n - 1);
    }
  }

  lemma StartsEmpty(states: seq<Ratchet>, calls: seq<Call>)
    requires IsRun(states, calls)
    ensures KeysOk(states[0]) && states[0].ckr.None? && states[0].skipped == map[]
  {
    FreshSpent(states[0]);
  }

  lemma RootNext(secret: Bytes, states: seq<Ratchet>, calls: seq<Call>, n: nat)
    requires IsPath(states, calls) && n < |calls| && KeysOk(states[n]) && From(secret, states[n].rk)
    ensures From(secret, states[n + 1].rk)
    ensures !SendAbsent(states[n], calls[n]) && (states[n].cks.Some? ==> From(secret, states[n].cks.value)) ==>
      (states[n + 1].cks.Some? ==> From(secret, states[n + 1].cks.value))
  {
    assert Steps(states, calls, n);
    CallRoot(secret, states[n], calls[n]);
  }

  lemma {:induction false} RunRoot(secret: Bytes, states: seq<Ratchet>, calls: seq<Call>, n: nat)
    requires IsRun(states, calls) && FreshFrom(states[0], secret) && n <= |calls|
    ensures From(secret, states[n].rk)
    decreases n
  {
    if n == 0 {
      FreshIsFresh(states[0], secret);
    } else {
      RunRoot(secret, states, calls, n - 1);
      RunEmptyBefore(states, calls, n - 1);
      RootNext(secret, states, calls, n - 1);
    }
  }

  lemma {:induction false} RunSends(secret: Bytes, states: seq<Ratchet>, calls: seq<Call>, n: nat)
    requires IsRun(states, calls) && FreshFrom(states[0], secret) && n <= |calls|
    requires forall i :: 0 <= i < |calls| ==> !SendAbsent(states[i], calls[i])
    ensures states[n].cks.Some? ==> From(secret, states[n].cks.value)
    decreases n
  {
    if n == 0 {
      FreshIsFresh(states[0], secret);
    } else {
      RunSends(secret, states, calls, n - 1);
      RunRoot(secret, states, calls, n - 1);
      RunEmptyBefore(states, calls, n - 1);
      RootNext(secret, states, calls, n - 1);
    }
  }

  lemma FromNext(secret: Bytes, states: seq<Ratchet>, calls: seq<Call>, n: nat)
    requires IsPath(states, calls) && n < |calls| && !ChainAbsent(states[n], calls[n])
    requires KeysOk(states[n]) && From(secret, states[n].rk) && ReceivesFrom(secret, states[n])
    ensures ReceivesFrom(secret, states[n + 1]) && OnlyFrom(secret, Tried(states[n], calls[n]))
  {
    assert Steps(states, calls, n);
    CallFrom(secret, states[n], calls[n]);
  }

  lemma {:induction false} RunReceives(secret: Bytes, states: seq<Ratchet>, calls: seq<Call>, n: nat)
    requires IsRun(states, calls) && FreshFrom(states[0], secret) && n <= |calls|
    requires forall i :: 0 <= i < |calls| ==> !ChainAbsent(states[i], calls[i])
    ensures ReceivesFrom(secret, states[n])
    decreases n
  {
    if n == 0 {
      FreshIsFresh(states[0], secret);
    } else {
      RunReceives(secret, states, calls, n - 1);
      RunRoot(secret, states, calls, n - 1);
      RunEmptyBefore(states, calls, n - 1);
      FromNext(secret, states, calls, n - 1);
    }
  }

  /**
    Over every run of a ratchet that agreed on a secret, with arbitrary headers and data,
    every key that is tried descends from that secret exactly when no call finds its
    receiving chain absent.
   */
  lemma OriginTheorem(secret: Bytes, states: seq<Ratchet>, calls: seq<Call>)
    requires IsRun(states, calls) && FreshFrom(states[0], secret) && secret != MessageKey([])
    ensures (forall i :: 0 <= i < |calls| ==> !ChainAbsent(states[i], calls[i]))
      <==> (forall i :: 0 <= i < |calls| ==> OnlyFrom(secret, Tried(states[i], calls[i])))
  {
    if forall i :: 0 <= i < |calls| ==> !ChainAbsent(states[i], calls[i]) {
      forall i | 0 <= i < |calls|
        ensures OnlyFrom(secret, Tried(states[i], calls[i]))
      {
        RunReceives(secret, states, calls, i);
        RunRoot(secret, states, calls, i);
        RunEmptyBefore(states, calls, i);
        FromNext(secret, states, calls, i);
      }
    } else {
      var i :| 0 <= i < |calls| && ChainAbsent(states[i], calls[i]);
      RunEmptyBefore(states, calls, i);
      CallFromNothing(states[i], calls[i]);
      FromNothing(secret);
      assert MessageKey([]) in Tried(states[i], calls[i]);
    }
  }

  /** Over every such run, every key that is sealed under descends from the secret exactly when no encryption comes before there is a sending chain. */
  lemma SealingTheorem(secret: Bytes, states: seq<Ratchet>, calls: seq<Call>)
    requires IsRun(states, calls) && FreshFrom(states[0], secret) && secret != MessageKey([])
    ensures (forall i :: 0 <= i < |calls| ==> !SendAbsent(states[i], calls[i]))
      <==> (forall i :: 0 <= i < |calls| && calls[i].EncryptCall? ==> From(secret, SealingKey(states[i])))
  {
    if forall i :: 0 <= i < |calls| ==> !SendAbsent(states[i], calls[i]) {
      forall i | 0 <= i < |calls| && calls[i].EncryptCall?
        ensures From(secret, SealingKey(states[i]))
      {
        RunSends(secret, states, calls, i);
        assert !SendAbsent(states[i], calls[i]);
        ChainFrom(secret, states[i].cks.value);
      }
    } else {
      var i :| 0 <= i < |calls| && SendAbsent(states[i], calls[i]);
      FromNothing(secret);
      assert SealingKey(states[i]) == MessageKey([]);
    }
  }

  /**
    The call that fails the property: an initiator that has received nothing yet has the
    responder's signed pre-key as remote key and no receiving chain, and opens what is
    sealed under the key of the absent chain.
   */
  lemma AbsentChainOpens(secret: Bytes, spk: Bytes, first: Bytes, s: Ratchet, n: uint32, pn: uint32,
                         nonce: Bytes, plain: Bytes, drawn: Bytes)
    requires InitAlice(secret, PublicKey(spk), first) == Ok(s) && |nonce| == AES_NONCE_SIZE
    ensures Decrypt(s, Header(PublicKey(spk), n, pn), nonce + Seal(MessageKey([]), nonce, plain), drawn).1 == Ok(plain)
  {
    var h := Header(PublicKey(spk), n, pn);
    assert ForgetSkipped(s, h) == s;
    DecryptSealed(MessageKey([]), nonce, plain);
  }

  // ------------------------------------------------------------------ what a decryption touches

  /** The sending side and the root. */
  predicate SameSending(s: Ratchet, s': Ratchet) {
    s'.dhs == s.dhs && s'.rk == s.rk && s'.cks == s.cks && s'.ns == s.ns && s'.pn == s.pn
  }

  lemma {:induction false} LoopSending(s: Ratchet, until: uint32)
    ensures SameSending(s, SkipLoop(s, until).0) && SkipLoop(s, until).0.dhr == s.dhr
    decreases until - s.nr
  {
    if s.nr >= until {
    } else if |SkipOne(s).skipped| <= MAX_SKIPPED_KEYS {
      LoopSending(SkipOne(s), until);
    }
  }

  lemma SkipSending(s: Ratchet, until: uint32)
    ensures SameSending(s, SkipMessageKeys(s, until).0) && SkipMessageKeys(s, until).0.dhr == s.dhr
  {
    LoopSending(s, until);
  }

  /** On the present chain, or where the old one cannot be left, the sending side, the root and the remote key stay. */
  lemma TouchesReceiving(s: Ratchet, h: Header, data: Bytes, drawn: Bytes)
    requires !NewRemoteKey(s, h) || !SkipMessageKeys(ForgetSkipped(s, h), h.pn).1
    ensures var s' := Decrypt(s, h, data, drawn).0; SameSending(s, s') && s'.dhr == s.dhr
  {
    var s0 := ForgetSkipped(s, h);
    SkipSending(s0, h.pn);
    SkipSending(s0, h.n);
  }

  /**
    A header with a key that agrees with nothing is refused after the old chain is passed over,
    and leaves that key as the remote key, both counters at 0 and the length of the sending
    chain set aside, while the key pair, the root and both chains stay.
   */
  lemma RefusedKeyLeaves(s: Ratchet, h: Header, data: Bytes, drawn: Bytes, e: OmemoError)
    requires SlotOf(h) !in s.skipped && NewRemoteKey(s, h) && SkipMessageKeys(s, h.pn).1
    requires |h.dhPub| == 32 && X25519(s.dhs, h.dhPub) == Err(e)
    ensures Decrypt(s, h, data, drawn).1 == Err(e)
    ensures var s' := Decrypt(s, h, data, drawn).0;
      && s'.dhr == Some(h.dhPub) && s'.nr == 0 && s'.ns == 0 && s'.pn == s.ns
      && s'.dhs == s.dhs && s'.rk == s.rk && s'.cks == s.cks
      && s'.ckr == SkipMessageKeys(s, h.pn).0.ckr && s'.skipped == SkipMessageKeys(s, h.pn).0.skipped
  {
    assert ForgetSkipped(s, h) == s;
    SkipSending(s, h.pn);
  }
}
