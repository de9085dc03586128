/**
  The state word of a session, set by a compare-and-swap loop (session.go). Calls of
  SetState from any number of goroutines interleave step by step: a load of the word,
  then a swap that succeeds only if the word is still the loaded one.
 */
module SessionFlags {
  import opened StateWord

  /** Where a call of SetState is in its loop. */
  datatype Phase = Loading | Loaded(cur: Word) | Done

  /** One call, with the word when it began and the number of swaps that failed since. */
  datatype Call = Call(flags: Word, begun: Word, failures: nat, phase: Phase)

  datatype World = World(word: Word, calls: seq<Call>)

  datatype Step = Begin(flags: Word) | Load(i: nat) | Swap(i: nat)

  predicate Enabled(w: World, step: Step) {
    match step
    case Begin(_) => true
    case Load(i) => i < |w.calls| && w.calls[i].phase.Loading?
    case Swap(i) => i < |w.calls| && w.calls[i].phase.Loaded?
  }

  function After(w: World, step: Step): World
    requires Enabled(w, step)
  {
    match step
    case Begin(flags) => w.(calls := w.calls + [Call(flags, w.word, 0, Loading)])
    case Load(i) => w.(calls := w.calls[i := w.calls[i].(phase := Loaded(w.word))])
    case Swap(i) =>
      var call := w.calls[i];
      if w.word == call.phase.cur then
        World(call.phase.cur + call.flags, w.calls[i := call.(phase := Done)])
      else
        w.(calls := w.calls[i := call.(phase := Loading, failures := call.failures + 1)])
  }

  /** The world after the steps, each of which must be enabled when it is taken. */
  predicate Leads(w: World, steps: seq<Step>, w': World)
    decreases |steps|
  {
    if steps == [] then w == w'
    else Enabled(w, steps[0]) && Leads(After(w, steps[0]), steps[1..], w')
  }

  // -------------------------------------------------------------------------- unset bits

  /** The bits that a word does not have. */
  function Unset(word: Word): Word {
    set i: Bit | 0 <= i < 32 && i !in word
  }

  lemma FewerUnset(a: Word, b: Word)
    requires a <= b
    ensures |Unset(b)| <= |Unset(a)|
    ensures a != b ==> |Unset(b)| < |Unset(a)|
  {
    Subset(Unset(b), Unset(a));
    if a != b {
      var m :| m in b && m !in a;
      Subset(Unset(b), Unset(a) - {m});
    }
  }

  lemma {:induction false} Subset<T>(s: set<T>, t: set<T>)
    requires s <= t
    ensures |s| <= |t|
  {
    if s == {} {
    } else {
      var x :| x in s;
      Subset(s - {x}, t - {x});
    }
  }

  // ------------------------------------------------------------------------- the invariant

  /** The flags of all calls whose swap succeeded. */
  function DoneFlags(calls: seq<Call>): Word {
    if calls == [] then {}
    else
      var n := |calls| - 1;
      DoneFlags(calls[..n]) + if calls[n].phase.Done? then calls[n].flags else {}
  }

  /** A call has failed no more often than bits were set since it began. */
  predicate CallOk(word: Word, call: Call) {
    match call.phase
    case Loading => call.failures + |Unset(word)| <= |Unset(call.begun)|
    case Loaded(cur) => cur <= word && call.failures + |Unset(cur)| <= |Unset(call.begun)|
    case Done => call.failures <= |Unset(call.begun)|
  }

  predicate Ok(initial: Word, w: World) {
    && w.word == initial + DoneFlags(w.calls)
    && forall i :: 0 <= i < |w.calls| ==> CallOk(w.word, w.calls[i])
  }

  lemma {:induction false} DoneUpdate(calls: seq<Call>, i: nat, call: Call)
    requires i < |calls| && !calls[i].phase.Done? && call.flags == calls[i].flags
    ensures DoneFlags(calls[i := call]) == DoneFlags(calls) + if call.phase.Done? then call.flags else {}
    decreases |calls|
  {
    var n := |calls| - 1;
    if i < n {
      DoneUpdate(calls[..n], i, call);
      assert calls[i := call][..n] == calls[..n][i := call];
    } else {
      assert calls[i := call][..n] == calls[..n];
    }
  }

  lemma CallStays(word: Word, word': Word, call: Call)
    requires CallOk(word, call) && word <= word'
    ensures CallOk(word', call)
  {
    FewerUnset(word, word');
  }

  lemma BeginKeeps(initial: Word, w: World, flags: Word)
    requires Ok(initial, w)
    ensures Ok(initial, After(w, Begin(flags)))
  {
    assert After(w, Begin(flags)).calls[..|w.calls|] == w.calls;
  }

  /** Replacing one call, with the word grown to `word`. */
  lemma UpdateKeeps(initial: Word, w: World, i: nat, call: Call, word: Word)
    requires Ok(initial, w) && i < |w.calls| && !w.calls[i].phase.Done? && call.flags == w.calls[i].flags
    requires word == w.word + (if call.phase.Done? then call.flags else {}) && CallOk(word, call)
    ensures Ok(initial, World(word, w.calls[i := call]))
  {
    DoneUpdate(w.calls, i, call);
    var calls := w.calls[i := call];
    forall k | 0 <= k < |calls|
      ensures CallOk(word, calls[k])
    {
      if k != i {
        CallStays(w.word, word, w.calls[k]);
      }
    }
  }

  lemma StepKeeps(initial: Word, w: World, step: Step)
    requires Ok(initial, w) && Enabled(w, step)
    ensures Ok(initial, After(w, step)) && w.word <= After(w, step).word
  {
    match step
    case Begin(flags) => BeginKeeps(initial, w, flags);
    case Load(i) => UpdateKeeps(initial, w, i, w.calls[i].(phase := Loaded(w.word)), w.word);
    case Swap(i) =>
      var call := w.calls[i];
      FewerUnset(call.phase.cur, w.word);
      if w.word == call.phase.cur {
        UpdateKeeps(initial, w, i, call.(phase := Done), w.word + call.flags);
      } else {
        UpdateKeeps(initial, w, i, call.(phase := Loading, failures := call.failures + 1), w.word);
      }
  }

  lemma {:induction false} RunKeeps(initial: Word, w: World, steps: seq<Step>, w': World)
    requires Ok(initial, w) && Leads(w, steps, w')
    ensures Ok(initial, w') && w.word <= w'.word
    decreases |steps|
  {
    if steps == [] {
    } else {
      StepKeeps(initial, w, steps[0]);
      RunKeeps(initial, After(w, steps[0]), steps[1..], w');
    }
  }

  lemma {:induction false} DoneIn(calls: seq<Call>, i: nat)
    requires i < |calls| && calls[i].phase.Done?
    ensures calls[i].flags <= DoneFlags(calls)
    decreases |calls|
  {
    if i >= |calls| - 1 {
    } else {
      DoneIn(calls[..|calls| - 1], i);
    }
  }

  /**
    In every interleaving the word is the initial one with the flags of all calls whose
    swap succeeded, and no call fails more swaps than there were unset bits when it began.
   */
  lemma FlagsTheorem(initial: Word, steps: seq<Step>, w: World)
    requires Leads(World(initial, []), steps, w)
    ensures w.word == initial + DoneFlags(w.calls)
    ensures forall i :: 0 <= i < |w.calls| && w.calls[i].phase.Done? ==> w.calls[i].flags <= w.word
    ensures forall i :: 0 <= i < |w.calls| ==> w.calls[i].failures <= |Unset(w.calls[i].begun)|
  {
    RunKeeps(initial, World(initial, []), steps, w);
    forall i | 0 <= i < |w.calls| && w.calls[i].phase.Done?
      ensures w.calls[i].flags <= w.word
    {
      DoneIn(w.calls, i);
    }
    forall i | 0 <= i < |w.calls|
      ensures w.calls[i].failures <= |Unset(w.calls[i].begun)|
    {
      assert CallOk(w.word, w.calls[i]);
    }
  }

  /** No step of any interleaving clears a flag. */
  lemma NeverCleared(initial: Word, before: seq<Step>, w: World, later: seq<Step>, w': World)
    requires Leads(World(initial, []), before, w) && Leads(w, later, w')
    ensures w.word <= w'.word
  {
    RunKeeps(initial, World(initial, []), before, w);
    RunKeeps(initial, w, later, w');
  }
}
