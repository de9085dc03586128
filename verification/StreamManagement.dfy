/**
  The queue of unacknowledged stanzas in plugins/sm/sm.go, with counters that wrap
  at 2^32 as in section 4 of XEP-0198.

  A stanza is enqueued and counted by two calls, and an acknowledgement may come
  between them. The runs below take the two calls and acknowledgements in any order.
 */
module StreamManagement {
  import opened Words

  type Stanza = seq<int>

  /** How many stanzas at the front of a queue of length `n` an acknowledgement drops. */
  function Dropped(n: nat, outbound: uint32, h: uint32): (d: nat)
    ensures d <= n
  {
    var diff := h - (outbound - n % TWO32) % TWO32;
    if 0 < diff <= n then diff else 0
  }

  class Plugin {
    var outbound: uint32
    var queue: seq<Stanza>

    constructor ()
      ensures outbound == 0 && queue == []
    {
      outbound, queue := 0, [];
    }

    method IncrementOutbound()
      modifies this`outbound
      ensures outbound == (old(outbound) + 1) % TWO32
    {
      outbound := (outbound + 1) % TWO32;
    }

    method Enqueue(data: Stanza)
      modifies this`queue
      ensures queue == old(queue) + [data]
    {
      queue := queue + [data];
    }

    method Ack(h: uint32)
      modifies this`queue
      ensures queue == old(queue)[Dropped(|old(queue)|, outbound, h)..]
    {
      var diff := h - (outbound - |queue| % TWO32) % TWO32;
      if diff > 0 && diff <= |queue| {
        queue := queue[diff..];
      }
    }
  }

  // --------------------------------------------------------------------------------- runs

  /**
    The plugin, with all stanzas ever enqueued, the number of counting calls and the
    number of stanzas acknowledged so far.
   */
  datatype World = World(outbound: uint32, queue: seq<Stanza>, sent: seq<Stanza>, counted: nat, acked: nat)

  const INITIAL: World := World(0, [], [], 0, 0)

  /** A stanza is enqueued, one is counted, or the peer says how many stanzas it has seen. */
  datatype Step = Enqueued(data: Stanza) | Counted | Acknowledged(seen: nat)

  /** The peer counts between what it acknowledged before and what can have been sent. */
  predicate Enabled(w: World, step: Step) {
    step.Acknowledged? ==> w.acked <= step.seen && (step.seen <= |w.sent| || step.seen <= w.counted)
  }

  function After(w: World, step: Step): World
    requires Enabled(w, step)
  {
    match step
    case Enqueued(data) => w.(queue := w.queue + [data], sent := w.sent + [data])
    case Counted => w.(outbound := (w.outbound + 1) % TWO32, counted := w.counted + 1)
    case Acknowledged(seen) =>
      w.(queue := w.queue[Dropped(|w.queue|, w.outbound, seen % TWO32)..], acked := seen)
  }

  predicate Leads(w: World, steps: seq<Step>, w': World)
    decreases |steps|
  {
    if steps == [] then w == w'
    else Enabled(w, steps[0]) && Leads(After(w, steps[0]), steps[1..], w')
  }

  /** The stanzas no longer in the queue. */
  function Gone(w: World): int {
    |w.sent| - |w.queue|
  }

  /** How many stanzas are enqueued and not counted; negative when they are counted first. */
  function Uncounted(w: World): int {
    |w.sent| - w.counted
  }

  /** No stanza is gone that was not acknowledged. */
  predicate Safe(w: World) {
    Gone(w) <= w.acked
  }

  /** In every run the queue is the end of what was enqueued. */
  predicate Ok(w: World) {
    && w.outbound == w.counted % TWO32
    && 0 <= Gone(w)
    && w.queue == w.sent[Gone(w)..]
  }

  lemma DropFurther<T>(s: seq<T>, i: nat, d: nat)
    requires i + d <= |s|
    ensures s[i..][d..] == s[i + d..]
  {
  }

  lemma StepKeeps(w: World, step: Step)
    requires Ok(w) && Enabled(w, step)
    ensures Ok(After(w, step))
  {
    match step
    case Enqueued(data) => assert (w.sent + [data])[Gone(w)..] == w.sent[Gone(w)..] + [data];
    case Counted =>
    case Acknowledged(seen) => DropFurther(w.sent, Gone(w), Dropped(|w.queue|, w.outbound, seen % TWO32));
  }

  lemma BaseOf(counted: nat, n: nat)
    ensures (counted % TWO32 - n % TWO32) % TWO32 == (counted - n) % TWO32
  {
  }

  // ------------------------------------------------------- when an acknowledgement loses one

  /**
    The guard that lets through too much: the difference of the wrapped counters is in
    range, and the uncounted stanzas outweigh the wraps between the two counters.
   */
  predicate Harmful(w: World, seen: nat) {
    var base := w.counted - |w.queue|;
    && 0 < seen % TWO32 - base % TWO32 <= |w.queue|
    && Uncounted(w) > TWO32 * (seen / TWO32 - base / TWO32)
  }

  lemma Quotients(a: int, b: int)
    ensures a % TWO32 - b % TWO32 == a - b - TWO32 * (a / TWO32 - b / TWO32)
  {
  }

  lemma AckLoses(w: World, seen: nat)
    requires Ok(w) && Safe(w) && Enabled(w, Acknowledged(seen))
    ensures Safe(After(w, Acknowledged(seen))) <==> !Harmful(w, seen)
  {
    var base := w.counted - |w.queue|;
    BaseOf(w.counted, |w.queue|);
    Quotients(seen, base);
    assert Gone(w) == base + Uncounted(w);
  }

  /** The condition under which memory and counters are far from 2^32 pending stanzas. */
  predicate Fits(w: World) {
    |w.queue| + Uncounted(w) < TWO32 && |w.queue| - Uncounted(w) < TWO32
  }

  /**
    Some stanza is enqueued and not yet counted, the acknowledgement counts no further
    than the counter, and both sides of the difference are in one period of the counter.
   */
  predicate Exposed(w: World, seen: nat) {
    && Uncounted(w) > 0
    && seen <= w.counted
    && seen / TWO32 == (w.counted - |w.queue|) / TWO32
  }

  /** With fewer than 2^32 stanzas pending, an acknowledgement loses one exactly at such a point. */
  lemma HarmTheorem(w: World, seen: nat)
    requires Ok(w) && Safe(w) && Enabled(w, Acknowledged(seen)) && Fits(w)
    ensures Harmful(w, seen) <==> Exposed(w, seen)
    ensures Safe(After(w, Acknowledged(seen))) <==> !Exposed(w, seen)
  {
    AckLoses(w, seen);
    var base := w.counted - |w.queue|;
    Quotients(seen, base);
    PeriodsApart(seen, base, |w.queue|, Uncounted(w));
  }

  lemma PeriodsApart(seen: int, base: int, n: nat, u: int)
    requires 0 <= n && n + u < TWO32 && n - u < TWO32
    requires base + u <= seen && (seen <= base + u + n || seen <= base + n)
    ensures (0 < seen % TWO32 - base % TWO32 <= n && u > TWO32 * (seen / TWO32 - base / TWO32))
      <==> (u > 0 && seen <= base + n && seen / TWO32 == base / TWO32)
  {
    Quotients(seen, base);
  }

  // ------------------------------------------------------------------------- over whole runs

  predicate AlwaysSafe(w: World, steps: seq<Step>, w': World)
    requires Leads(w, steps, w')
    decreases |steps|
  {
    Safe(w) && (steps != [] ==> AlwaysSafe(After(w, steps[0]), steps[1..], w'))
  }

  predicate NeverHarmful(w: World, steps: seq<Step>, w': World)
    requires Leads(w, steps, w')
    decreases |steps|
  {
    steps != [] ==>
      && (steps[0].Acknowledged? ==> !Harmful(w, steps[0].seen))
      && NeverHarmful(After(w, steps[0]), steps[1..], w')
  }

  lemma {:induction false} SafeRun(w: World, steps: seq<Step>, w': World)
    requires Ok(w) && Safe(w) && Leads(w, steps, w')
    ensures Ok(w')
    ensures AlwaysSafe(w, steps, w') <==> NeverHarmful(w, steps, w')
    decreases |steps|
  {
    if steps == [] {
    } else {
      StepKeeps(w, steps[0]);
      if steps[0].Acknowledged? {
        AckLoses(w, steps[0].seen);
      }
      var v := After(w, steps[0]);
      if Safe(v) {
        SafeRun(v, steps[1..], w');
      } else {
        OkRun(v, steps[1..], w');
      }
    }
  }

  lemma {:induction false} OkRun(w: World, steps: seq<Step>, w': World)
    requires Ok(w) && Leads(w, steps, w')
    ensures Ok(w')
    decreases |steps|
  {
    if steps == [] {
    } else {
      StepKeeps(w, steps[0]);
      OkRun(After(w, steps[0]), steps[1..], w');
    }
  }

  /**
    In every run the queue is a suffix of what was enqueued, and it has every
    unacknowledged stanza at all times exactly when no acknowledgement meets the
    guard of `Harmful`.
   */
  lemma LossTheorem(steps: seq<Step>, w: World)
    requires Leads(INITIAL, steps, w)
    ensures |w.queue| <= |w.sent| && w.queue == w.sent[|w.sent| - |w.queue|..]
    ensures AlwaysSafe(INITIAL, steps, w) <==> NeverHarmful(INITIAL, steps, w)
  {
    SafeRun(INITIAL, steps, w);
  }

  /** Every acknowledgement finds fewer than 2^32 stanzas pending. */
  predicate FitsThroughout(w: World, steps: seq<Step>, w': World)
    requires Leads(w, steps, w')
    decreases |steps|
  {
    steps != [] ==>
      && (steps[0].Acknowledged? ==> Fits(w))
      && FitsThroughout(After(w, steps[0]), steps[1..], w')
  }

  predicate NeverExposed(w: World, steps: seq<Step>, w': World)
    requires Leads(w, steps, w')
    decreases |steps|
  {
    steps != [] ==>
      && (steps[0].Acknowledged? ==> !Exposed(w, steps[0].seen))
      && NeverExposed(After(w, steps[0]), steps[1..], w')
  }

  lemma {:induction false} ExposedRun(w: World, steps: seq<Step>, w': World)
    requires Ok(w) && Safe(w) && Leads(w, steps, w') && FitsThroughout(w, steps, w')
    ensures AlwaysSafe(w, steps, w') <==> NeverExposed(w, steps, w')
    decreases |steps|
  {
    if steps == [] {
    } else {
      StepKeeps(w, steps[0]);
      if steps[0].Acknowledged? {
        HarmTheorem(w, steps[0].seen);
      }
      if Safe(After(w, steps[0])) {
        ExposedRun(After(w, steps[0]), steps[1..], w');
      }
    }
  }

  /**
    In every run with fewer than 2^32 stanzas pending, every unacknowledged stanza is in
    the queue at all times exactly when no acknowledgement finds a stanza enqueued and not
    yet counted at a point of `Exposed`.
   */
  lemma ExposureTheorem(steps: seq<Step>, w: World)
    requires Leads(INITIAL, steps, w) && FitsThroughout(INITIAL, steps, w)
    ensures AlwaysSafe(INITIAL, steps, w) <==> NeverExposed(INITIAL, steps, w)
  {
    ExposedRun(INITIAL, steps, w);
  }

  /** Every acknowledgement finds at least as many stanzas counted as enqueued. */
  predicate CountedFirst(w: World, steps: seq<Step>, w': World)
    requires Leads(w, steps, w')
    decreases |steps|
  {
    steps != [] ==>
      && (steps[0].Acknowledged? ==> Uncounted(w) <= 0)
      && CountedFirst(After(w, steps[0]), steps[1..], w')
  }

  lemma {:induction false} CountedFirstUnexposed(w: World, steps: seq<Step>, w': World)
    requires Leads(w, steps, w') && CountedFirst(w, steps, w')
    ensures NeverExposed(w, steps, w')
    decreases |steps|
  {
    if steps == [] {
    } else {
      CountedFirstUnexposed(After(w, steps[0]), steps[1..], w');
    }
  }

  /** In every such run that counts stanzas before it enqueues them, none is lost. */
  lemma CountedFirstTheorem(steps: seq<Step>, w: World)
    requires Leads(INITIAL, steps, w) && FitsThroughout(INITIAL, steps, w) && CountedFirst(INITIAL, steps, w)
    ensures AlwaysSafe(INITIAL, steps, w)
  {
    CountedFirstUnexposed(INITIAL, steps, w);
    ExposureTheorem(steps, w);
  }

  // ------------------------------------------------------------------------- paired calls

  /** Every acknowledgement finds each stanza both enqueued and counted. */
  predicate Paired(w: World, steps: seq<Step>, w': World)
    requires Leads(w, steps, w')
    decreases |steps|
  {
    steps != [] ==>
      && (steps[0].Acknowledged? ==> Uncounted(w) == 0)
      && Paired(After(w, steps[0]), steps[1..], w')
  }

  /** What is gone is what was acknowledged, until that leaves the first period of the counter. */
  predicate Exact(w: World) {
    Gone(w) <= w.acked <= |w.sent| && Gone(w) == if w.acked < TWO32 then w.acked else Gone(w) % TWO32
  }

  /** What an acknowledgement adds to the stanzas that are gone. */
  lemma GoneAfterAck(sent: nat, n: nat, acked: nat, seen: nat)
    requires n <= sent && acked <= seen <= sent
    requires sent - n == (if acked < TWO32 then acked else (sent - n) % TWO32) && sent - n <= acked
    ensures var gone := sent - n + Dropped(n, sent % TWO32, seen % TWO32);
      gone <= seen && gone == if seen < TWO32 then seen else gone % TWO32
  {
    BaseOf(sent, n);
    assert sent - n < TWO32;
    assert seen % TWO32 <= seen;
  }

  lemma {:induction false} PairedRun(w: World, steps: seq<Step>, w': World)
    requires Ok(w) && Exact(w) && Leads(w, steps, w') && Paired(w, steps, w')
    ensures Ok(w') && Exact(w')
    decreases |steps|
  {
    if steps == [] {
    } else {
      StepKeeps(w, steps[0]);
      if steps[0].Acknowledged? {
        GoneAfterAck(|w.sent|, |w.queue|, w.acked, steps[0].seen);
      }
      PairedRun(After(w, steps[0]), steps[1..], w');
    }
  }

  /**
    In every run of paired calls the queue is a suffix that has every unacknowledged
    stanza, whatever wraps; and it is exactly the unacknowledged ones as long as, and
    only as long as, fewer than 2^32 stanzas were acknowledged.
   */
  lemma QueueTheorem(steps: seq<Step>, w: World)
    requires Leads(INITIAL, steps, w) && Paired(INITIAL, steps, w)
    ensures |w.queue| <= |w.sent| && w.queue == w.sent[|w.sent| - |w.queue|..]
    ensures |w.sent| - |w.queue| <= w.acked <= |w.sent|
    ensures w.queue == w.sent[w.acked..] <==> w.acked < TWO32
  {
    PairedRun(INITIAL, steps, w);
    assert Gone(w) % TWO32 < TWO32;
    if w.acked >= TWO32 {
      assert |w.sent[w.acked..]| < |w.queue|;
    }
  }

  /**
    The pairing matters: when the first stanza is acknowledged once more while the second
    is enqueued and not yet counted, the second is lost.
   */
  lemma UncountedStanzaIsLost(first: Stanza, second: Stanza) returns (steps: seq<Step>, w: World)
    ensures Leads(INITIAL, steps, w) && !AlwaysSafe(INITIAL, steps, w)
    ensures w.sent == [first, second] && w.acked == 1 && w.queue == []
  {
    var w1 := After(INITIAL, Enqueued(first));
    var w2 := After(w1, Counted);
    var w3 := After(w2, Acknowledged(1));
    var w4 := After(w3, Enqueued(second));
    w := After(w4, Acknowledged(1));
    assert Dropped(1, 1, 1) == 1;
    steps := [Enqueued(first)] + ([Counted] + ([Acknowledged(1)] + ([Enqueued(second)] + [Acknowledged(1)])));
    LeadsFrom(w4, Acknowledged(1), [], w);
    assert [Acknowledged(1)] + [] == [Acknowledged(1)];
    LeadsFrom(w3, Enqueued(second), [Acknowledged(1)], w);
    LeadsFrom(w2, Acknowledged(1), [Enqueued(second)] + [Acknowledged(1)], w);
    LeadsFrom(w1, Counted, [Acknowledged(1)] + ([Enqueued(second)] + [Acknowledged(1)]), w);
    LeadsFrom(INITIAL, Enqueued(first), [Counted] + ([Acknowledged(1)] + ([Enqueued(second)] + [Acknowledged(1)])), w);
    SafeAtEnd(INITIAL, steps, w);
  }

  lemma LeadsFrom(w: World, step: Step, steps: seq<Step>, w': World)
    requires Enabled(w, step) && Leads(After(w, step), steps, w')
    ensures Leads(w, [step] + steps, w')
  {
    assert ([step] + steps)[1..] == steps;
  }

  lemma {:induction false} SafeAtEnd(w: World, steps: seq<Step>, w': World)
    requires Leads(w, steps, w')
    ensures AlwaysSafe(w, steps, w') ==> Safe(w')
    decreases |steps|
  {
    if steps == [] {
    } else {
      SafeAtEnd(After(w, steps[0]), steps[1..], w');
    }
  }
}
