/**
  The sliding-window limiter of cmd/xmppd/registration.go, per key, on a clock that
  does not run backwards.
 */
module RateLimiter {

  type Time = int

  /** The entries younger than the cutoff. */
  function Younger(entries: seq<Time>, cutoff: Time): seq<Time> {
    if entries == [] then []
    else
      var n := |entries| - 1;
      Younger(entries[..n], cutoff) + if entries[n] > cutoff then [entries[n]] else []
  }

  /** Moves the younger entries to the front of their own array. */
  method Compact(a: array<Time>, cutoff: Time) returns (kept: nat)
    modifies a
    ensures kept <= a.Length && a[..kept] == Younger(old(a[..]), cutoff)
  {
    kept := 0;
    for i := 0 to a.Length
      invariant kept <= i
      invariant a[i..] == old(a[i..])
      invariant a[..kept] == Younger(old(a[..i]), cutoff)
    {
      assert old(a[..i + 1])[..i] == old(a[..i]);
      assert a[i] == a[i..][0] == old(a[i]);
      if a[i] > cutoff {
        a[kept] := a[i];
        kept := kept + 1;
      }
      assert a[i + 1..] == old(a[i..])[1..];
    }
    assert old(a[..a.Length]) == old(a[..]);
  }

  /** The entries in an array of their own, compacted. */
  method Recent(entries: seq<Time>, cutoff: Time) returns (out: seq<Time>)
    ensures out == Younger(entries, cutoff)
  {
    var buffer := new Time[|entries|](i requires 0 <= i < |entries| => entries[i]);
    assert buffer[..] == entries;
    var kept := Compact(buffer, cutoff);
    out := buffer[..kept];
  }

  datatype Verdict = Verdict(allowed: bool, entries: seq<Time>)

  /** One call for one key; `now` is read for the cutoff and `stamp` for the new entry. */
  function Decide(limit: int, window: int, entries: seq<Time>, now: Time, stamp: Time): Verdict {
    if limit <= 0 then Verdict(true, entries)
    else
      var kept := Younger(entries, now - window);
      if |kept| >= limit then Verdict(false, kept) else Verdict(true, kept + [stamp])
  }

  function Entries(items: map<string, seq<Time>>, key: string): seq<Time> {
    if key in items then items[key] else []
  }

  class Limiter {
    const window: int
    const limit: int
    var items: map<string, seq<Time>>

    constructor (limit: int, window: int)
      ensures this.limit == limit && this.window == window && items == map[]
    {
      this.limit, this.window, items := limit, window, map[];
    }

    method Allow(key: string, now: Time, stamp: Time) returns (allowed: bool)
      modifies this`items
      ensures Verdict(allowed, Entries(items, key))
        == Decide(limit, window, Entries(old(items), key), now, stamp)
      ensures forall k :: k != key ==> Entries(items, k) == Entries(old(items), k)
    {
      if limit <= 0 {
        return true;
      }
      var entries := Entries(items, key);
      var out := Recent(entries, now - window);
      if |out| >= limit {
        items := items[key := out];
        return false;
      }
      items := items[key := out + [stamp]];
      return true;
    }
  }

  // --------------------------------------------------------------------------------- runs

  datatype Call = Call(key: string, now: Time, stamp: Time)

  /** The clock does not run backwards, within a call or between calls. */
  predicate Clocked(calls: seq<Call>) {
    && (forall i :: 0 <= i < |calls| ==> calls[i].now <= calls[i].stamp)
    && (forall i, j :: 0 <= i < j < |calls| ==> calls[i].stamp <= calls[j].now)
  }

  /** A key's entries after a sequence of calls. */
  function EntriesAfter(limit: int, window: int, calls: seq<Call>, key: string): seq<Time> {
    if calls == [] then []
    else
      var n := |calls| - 1;
      var before := EntriesAfter(limit, window, calls[..n], key);
      if calls[n].key != key then before else Decide(limit, window, before, calls[n].now, calls[n].stamp).entries
  }

  /** The stamps of a key's admissions in a sequence of calls. */
  function Admissions(limit: int, window: int, calls: seq<Call>, key: string): seq<Time> {
    if calls == [] then []
    else
      var n := |calls| - 1;
      var before := EntriesAfter(limit, window, calls[..n], key);
      Admissions(limit, window, calls[..n], key)
      + if calls[n].key == key && Decide(limit, window, before, calls[n].now, calls[n].stamp).allowed
        then [calls[n].stamp] else []
  }

  predicate Sorted(s: seq<Time>) {
    forall i, j :: 0 <= i < j < |s| ==> s[i] <= s[j]
  }

  /** A run of more than `limit` admissions spans at least the window. */
  predicate Spaced(limit: int, window: int, s: seq<Time>)
    requires limit > 0
  {
    forall i :: 0 <= i < |s| - limit ==> s[i + limit] - s[i] >= window
  }

  lemma {:induction false} YoungerConcat(a: seq<Time>, b: seq<Time>, cutoff: Time)
    ensures Younger(a + b, cutoff) == Younger(a, cutoff) + Younger(b, cutoff)
    decreases |b|
  {
    if b == [] {
      assert a + b == a;
    } else {
      var n := |b| - 1;
      assert (a + b)[..|a + b| - 1] == a + b[..n];
      YoungerConcat(a, b[..n], cutoff);
    }
  }

  lemma {:induction false} NoneYounger(s: seq<Time>, cutoff: Time)
    requires forall i :: 0 <= i < |s| ==> s[i] <= cutoff
    ensures Younger(s, cutoff) == []
  {
    if s == [] {
    } else {
      NoneYounger(s[..|s| - 1], cutoff);
    }
  }

  lemma {:induction false} AllYounger(s: seq<Time>, cutoff: Time)
    requires forall i :: 0 <= i < |s| ==> s[i] > cutoff
    ensures Younger(s, cutoff) == s
  {
    if s == [] {
    } else {
      AllYounger(s[..|s| - 1], cutoff);
    }
  }

  /** The first position of a sorted list that is younger than the cutoff. */
  function Split(s: seq<Time>, cutoff: Time): (d: nat)
    requires Sorted(s)
    ensures d <= |s|
    ensures forall i :: 0 <= i < d ==> s[i] <= cutoff
    ensures forall i :: d <= i < |s| ==> s[i] > cutoff
  {
    if s == [] || s[|s| - 1] <= cutoff then |s| else Split(s[..|s| - 1], cutoff)
  }

  /** The younger entries of a sorted list are its end. */
  lemma YoungerIsSuffix(s: seq<Time>, cutoff: Time)
    requires Sorted(s)
    ensures Younger(s, cutoff) == s[Split(s, cutoff)..]
  {
    var d := Split(s, cutoff);
    assert s == s[..d] + s[d..];
    YoungerConcat(s[..d], s[d..], cutoff);
    NoneYounger(s[..d], cutoff);
    AllYounger(s[d..], cutoff);
  }

  /** The entries are the admissions without some that are too old already. */
  predicate Tracks(window: int, entries: seq<Time>, all: seq<Time>, now: Time) {
    && |entries| <= |all|
    && entries == all[|all| - |entries|..]
    && (forall i :: 0 <= i < |all| - |entries| ==> all[i] <= now - window)
    && (forall i :: 0 <= i < |all| ==> all[i] <= now)
  }

  lemma KeptAreYoungest(window: int, entries: seq<Time>, all: seq<Time>, now: Time)
    requires Tracks(window, entries, all, now) && Sorted(all)
    ensures Younger(entries, now - window) == Younger(all, now - window)
    ensures Tracks(window, Younger(all, now - window), all, now)
  {
    var k := |all| - |entries|;
    assert all == all[..k] + entries;
    YoungerConcat(all[..k], entries, now - window);
    NoneYounger(all[..k], now - window);
    YoungerIsSuffix(all, now - window);
  }

  lemma LaterTracks(window: int, entries: seq<Time>, all: seq<Time>, now: Time, later: Time)
    requires Tracks(window, entries, all, now) && now <= later
    ensures Tracks(window, entries, all, later)
  {
  }

  /** An admission keeps the order, the spacing and the tracking. */
  lemma AdmitKeeps(limit: int, window: int, kept: seq<Time>, all: seq<Time>, now: Time, stamp: Time)
    requires limit > 0 && Sorted(all) && Spaced(limit, window, all) && now <= stamp
    requires Tracks(window, kept, all, now) && |kept| < limit
    ensures var all' := all + [stamp];
      Sorted(all') && Spaced(limit, window, all') && Tracks(window, kept + [stamp], all', stamp)
  {
    var all' := all + [stamp];
    forall i | 0 <= i < |all'| - limit
      ensures all'[i + limit] - all'[i] >= window
    {
      if i + limit == |all| {
        assert i < |all| - |kept|;
      }
    }
    assert all'[|all'| - |kept + [stamp]|..] == all[|all| - |kept|..] + [stamp];
  }

  predicate Good(limit: int, window: int, entries: seq<Time>, all: seq<Time>, now: Time)
    requires limit > 0
  {
    Sorted(all) && Spaced(limit, window, all) && Tracks(window, entries, all, now)
  }

  /** A call refuses exactly when `limit` of all admissions are younger than the window, and keeps the invariant. */
  lemma DecideKeeps(limit: int, window: int, entries: seq<Time>, all: seq<Time>, now: Time, stamp: Time)
    requires limit > 0 && Good(limit, window, entries, all, now) && now <= stamp
    ensures var v := Decide(limit, window, entries, now, stamp);
      && (v.allowed <==> |Younger(all, now - window)| < limit)
      && Good(limit, window, v.entries, all + if v.allowed then [stamp] else [], stamp)
  {
    KeptAreYoungest(window, entries, all, now);
    var kept := Younger(all, now - window);
    if |kept| < limit {
      AdmitKeeps(limit, window, kept, all, now, stamp);
    } else {
      LaterTracks(window, kept, all, now, stamp);
      assert all + [] == all;
    }
  }

  /** No stamp of the calls is later than `now`. */
  predicate ClockAt(calls: seq<Call>, now: Time) {
    forall i :: 0 <= i < |calls| ==> calls[i].stamp <= now
  }

  lemma {:induction false} RunKeeps(limit: int, window: int, calls: seq<Call>, key: string, now: Time)
    requires limit > 0 && Clocked(calls) && ClockAt(calls, now)
    ensures Good(limit, window, EntriesAfter(limit, window, calls, key), Admissions(limit, window, calls, key), now)
    decreases |calls|
  {
    if calls == [] {
    } else {
      var n := |calls| - 1;
      var call, front := calls[n], calls[..n];
      RunKeeps(limit, window, front, key, call.now);
      var all, entries := Admissions(limit, window, front, key), EntriesAfter(limit, window, front, key);
      if call.key == key {
        DecideKeeps(limit, window, entries, all, call.now, call.stamp);
        LaterGood(limit, window, EntriesAfter(limit, window, calls, key), Admissions(limit, window, calls, key), call.stamp, now);
      } else {
        assert all + [] == all;
        LaterGood(limit, window, entries, all, call.now, now);
      }
    }
  }

  lemma LaterGood(limit: int, window: int, entries: seq<Time>, all: seq<Time>, now: Time, later: Time)
    requires limit > 0 && Good(limit, window, entries, all, now) && now <= later
    ensures Good(limit, window, entries, all, later)
  {
    LaterTracks(window, entries, all, now, later);
  }

  /** How many entries of a list lie in an interval of the window's length. */
  function CountWithin(s: seq<Time>, from: Time, window: int): nat {
    if s == [] then 0
    else
      var n := |s| - 1;
      CountWithin(s[..n], from, window) + if from <= s[n] < from + window then 1 else 0
  }

  lemma {:induction false} CountBefore(s: seq<Time>, from: Time, window: int)
    requires forall i :: 0 <= i < |s| ==> s[i] < from
    ensures CountWithin(s, from, window) == 0
  {
    if s == [] {
    } else {
      CountBefore(s[..|s| - 1], from, window);
    }
  }

  lemma {:induction false} CountAtMost(s: seq<Time>, k: nat, from: Time, window: int)
    requires k <= |s|
    ensures CountWithin(s, from, window) <= CountWithin(s[..k], from, window) + |s| - k
    decreases |s|
  {
    if k < |s| {
      var n := |s| - 1;
      assert s[..n][..k] == s[..k];
      CountAtMost(s[..n], k, from, window);
    } else {
      assert s[..k] == s;
    }
  }

  lemma {:induction false} SpacedCount(limit: int, window: int, s: seq<Time>, from: Time)
    requires limit > 0 && Sorted(s) && Spaced(limit, window, s)
    ensures CountWithin(s, from, window) <= limit
    decreases |s|
  {
    var n := |s| - 1;
    if |s| <= limit {
      CountAtMost(s, 0, from, window);
      assert s[..0] == [];
    } else if from <= s[n] < from + window {
      assert s[(n - limit) + limit] - s[n - limit] >= window;
      CountAtMost(s, |s| - limit, from, window);
      CountBefore(s[..|s| - limit], from, window);
    } else {
      SpacedCount(limit, window, s[..n], from);
    }
  }

  /** No interval of one window's length has more than `limit` admissions of a key. */
  lemma WindowTheorem(limit: int, window: int, calls: seq<Call>, key: string, from: Time)
    requires limit > 0 && Clocked(calls)
    ensures CountWithin(Admissions(limit, window, calls, key), from, window) <= limit
  {
    var now := if calls == [] then 0 else calls[|calls| - 1].stamp;
    RunKeeps(limit, window, calls, key, now);
    SpacedCount(limit, window, Admissions(limit, window, calls, key), from);
  }

  /** A call is refused exactly when `limit` admissions of its key are younger than the window. */
  lemma RefusalTheorem(limit: int, window: int, calls: seq<Call>, call: Call)
    requires limit > 0 && Clocked(calls) && ClockAt(calls, call.now) && call.now <= call.stamp
    ensures !Decide(limit, window, EntriesAfter(limit, window, calls, call.key), call.now, call.stamp).allowed
      <==> |Younger(Admissions(limit, window, calls, call.key), call.now - window)| >= limit
  {
    RunKeeps(limit, window, calls, call.key, call.now);
    DecideKeeps(limit, window, EntriesAfter(limit, window, calls, call.key),
                Admissions(limit, window, calls, call.key), call.now, call.stamp);
  }
}
