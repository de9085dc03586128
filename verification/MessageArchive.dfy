/**
  The message archive of storage/memory/memory.go and a client that pages through
  it as section 2.2 of XEP-0059 describes.
 */
module MessageArchive {
  import opened Text

  /** Points in time; 0 is the zero time, which stands for "not given". */
  type Time = int

  datatype Message = Message(id: string, userJid: string, withJid: string, fromJid: string, data: seq<int>, at: Time)

  datatype Query = Query(
    userJid: string, withJid: string, start: Time, end: Time, afterId: string, beforeId: string, max: int)

  datatype Page = Page(messages: seq<Message>, complete: bool, first: string, last: string, count: nat)

  const DEFAULT_MAX: nat := 100

  function Limit(q: Query): (n: nat)
    ensures n > 0
  {
    if q.max <= 0 then DEFAULT_MAX else q.max
  }

  // ------------------------------------------------------------- what a query is to select

  predicate Matches(q: Query, m: Message) {
    && (q.withJid == "" || m.withJid == q.withJid)
    && (q.start == 0 || m.at >= q.start)
    && (q.end == 0 || m.at <= q.end)
  }

  function Filter(s: seq<Message>, q: Query): seq<Message> {
    if s == [] then []
    else
      var n := |s| - 1;
      Filter(s[..n], q) + if Matches(q, s[n]) then [s[n]] else []
  }

  /** The first position of an id, or the end. */
  function Find(s: seq<Message>, id: string): (i: nat)
    ensures i <= |s|
    ensures i < |s| ==> s[i].id == id
    ensures forall j :: 0 <= j < i ==> s[j].id != id
  {
    if s == [] then 0
    else if s[0].id == id then 0
    else
      var i := Find(s[1..], id);
      assert forall j :: 0 < j <= i ==> s[j].id == s[1..][j - 1].id || j == |s|;
      i + 1
  }

  /** What follows the message `id`; everything without an id, nothing for an unknown id. */
  function After(s: seq<Message>, id: string): seq<Message> {
    if id == "" then s
    else if Find(s, id) < |s| then s[Find(s, id) + 1..]
    else []
  }

  /** What precedes the message `id`; everything without an id or for an unknown id. */
  function Before(s: seq<Message>, id: string): seq<Message> {
    if id == "" then s else s[..Find(s, id)]
  }

  /** The filtered part of the archive between the two ids. */
  function Selected(s: seq<Message>, q: Query): seq<Message> {
    Filter(Before(After(s, q.afterId), q.beforeId), q)
  }

  function Answer(s: seq<Message>, q: Query): Page {
    var all := Selected(s, q);
    var shown := if |all| > Limit(q) then all[..Limit(q)] else all;
    Page(shown, |all| <= Limit(q),
         if shown == [] then "" else shown[0].id,
         if shown == [] then "" else shown[|shown| - 1].id,
         |shown|)
  }

  // ------------------------------------------------------------------------------ the store

  class Store {
    var messages: map<string, seq<Message>>
    var idCounter: nat

    constructor ()
      ensures messages == map[] && idCounter == 0 && AllNumbered() && AllNamed()
    {
      messages, idCounter := map[], 0;
    }

    ghost function Archive(user: string): seq<Message>
      reads this
    {
      if user in messages then messages[user] else []
    }

    /** Every id of every archive was assigned by the store. */
    ghost predicate AllNumbered()
      reads this
    {
      EveryNumbered(messages, idCounter)
    }

    /** Every message of every archive has an id. */
    ghost predicate AllNamed()
      reads this
    {
      EveryNamed(messages)
    }

    /** Appends a copy with the missing time and id filled in; `now` is the clock. */
    method ArchiveMessage(m: Message, now: Time)
      modifies this
      ensures idCounter == old(idCounter) + (if m.id == "" then 1 else 0)
      ensures Archive(m.userJid) == old(Archive(m.userJid))
        + [m.(at := if m.at == 0 then now else m.at, id := if m.id == "" then Digits(idCounter) else m.id)]
      ensures forall u :: u != m.userJid ==> Archive(u) == old(Archive(u))
      ensures m.id == "" && old(AllNumbered()) ==> AllNumbered()
      ensures old(AllNamed()) ==> AllNamed()
    {
      var copy := m;
      if copy.at == 0 {
        copy := copy.(at := now);
      }
      if copy.id == "" {
        idCounter := idCounter + 1;
        DigitsValue(idCounter);
        copy := copy.(id := Digits(idCounter));
      }
      var before := if m.userJid in messages then messages[m.userJid] else [];
      messages := messages[m.userJid := before + [copy]];
      if m.id == "" && old(AllNumbered()) {
        NumberedWith(old(messages), old(idCounter), m.userJid, before, copy);
      }
      if old(AllNamed()) {
        NamedWith(old(messages), m.userJid, before, copy);
      }
    }

    method DeleteMessageArchive(user: string)
      modifies this`messages
      ensures Archive(user) == []
      ensures forall u :: u != user ==> Archive(u) == old(Archive(u))
      ensures old(AllNumbered()) ==> AllNumbered()
      ensures old(AllNamed()) ==> AllNamed()
    {
      messages := messages - {user};
    }

    /** One pass over the archive with a flag for the message to start after. */
    method QueryMessages(q: Query) returns (page: Page)
      ensures page == Answer(Archive(q.userJid), q)
    {
      var msgs := if q.userJid in messages then messages[q.userJid] else [];
      var filtered := Collect(msgs, q);
      var max := if q.max <= 0 then DEFAULT_MAX else q.max;
      var complete := |filtered| <= max;
      if |filtered| > max {
        filtered := filtered[..max];
      }
      page := Page(filtered, complete, "", "", |filtered|);
      if |filtered| > 0 {
        page := page.(first := filtered[0].id, last := filtered[|filtered| - 1].id);
      }
    }
  }

  /** How far a query has come: up to `i`, selecting from `start` on once `found` is set. */
  predicate Scanned(msgs: seq<Message>, q: Query, found: bool, start: nat, i: nat, filtered: seq<Message>) {
    && start <= i <= |msgs|
    && (!found ==> q.afterId != "" && i <= Find(msgs, q.afterId) && filtered == [])
    && (found ==>
          && After(msgs, q.afterId) == msgs[start..]
          && filtered == Filter(msgs[start..i], q)
          && (q.beforeId == "" || i <= start + Find(msgs[start..], q.beforeId)))
  }

  lemma ScanStarts(msgs: seq<Message>, q: Query)
    ensures Scanned(msgs, q, q.afterId == "", 0, 0, [])
  {
    assert msgs[0..0] == [];
    assert msgs[0..] == msgs;
  }

  lemma ScanLooks(msgs: seq<Message>, q: Query, start: nat, i: nat)
    requires i < |msgs| && Scanned(msgs, q, false, start, i, [])
    ensures if msgs[i].id == q.afterId then Scanned(msgs, q, true, i + 1, i + 1, [])
            else Scanned(msgs, q, false, start, i + 1, [])
  {
    if msgs[i].id == q.afterId {
      FoundAt(msgs, q.afterId, i);
      assert msgs[i + 1..i + 1] == [];
    }
  }

  lemma ScanStops(msgs: seq<Message>, q: Query, start: nat, i: nat, filtered: seq<Message>)
    requires i < |msgs| && Scanned(msgs, q, true, start, i, filtered)
    requires q.beforeId != "" && msgs[i].id == q.beforeId
    ensures filtered == Selected(msgs, q)
  {
    var tail := msgs[start..];
    assert tail[i - start].id == q.beforeId;
    assert tail[..i - start] == msgs[start..i];
  }

  lemma ScanPasses(msgs: seq<Message>, q: Query, start: nat, i: nat, filtered: seq<Message>)
    requires i < |msgs| && Scanned(msgs, q, true, start, i, filtered)
    requires q.beforeId == "" || msgs[i].id != q.beforeId
    ensures Scanned(msgs, q, true, start, i + 1, filtered + if Matches(q, msgs[i]) then [msgs[i]] else [])
  {
    SliceSnoc(msgs, start, i);
    FilterSnoc(msgs[start..i], msgs[i], q);
    if q.beforeId != "" {
      FindPast(msgs, start, q.beforeId, i);
    }
  }

  lemma SliceSnoc(s: seq<Message>, lo: nat, i: nat)
    requires lo <= i < |s|
    ensures s[lo..i + 1] == s[lo..i] + [s[i]]
  {
  }

  lemma FindPast(s: seq<Message>, lo: nat, id: string, i: nat)
    requires lo <= i < |s| && i <= lo + Find(s[lo..], id) && s[i].id != id
    ensures i < lo + Find(s[lo..], id)
  {
    assert s[lo..][i - lo] == s[i];
  }

  lemma ScanEnds(msgs: seq<Message>, q: Query, found: bool, start: nat, filtered: seq<Message>)
    requires Scanned(msgs, q, found, start, |msgs|, filtered)
    ensures filtered == Selected(msgs, q)
  {
    if found {
      assert msgs[start..|msgs|] == msgs[start..];
      All(msgs[start..]);
    } else {
      assert Before([], q.beforeId) == [];
    }
  }

  /** The loop of a query. */
  method Collect(msgs: seq<Message>, q: Query) returns (filtered: seq<Message>)
    ensures filtered == Selected(msgs, q)
  {
    filtered := [];
    var found := q.afterId == "";
    ghost var start: nat := 0;
    var i := 0;
    ScanStarts(msgs, q);
    while i < |msgs|
      invariant 0 <= i <= |msgs|
      invariant Scanned(msgs, q, found, start, i, filtered)
      decreases |msgs| - i
    {
      var m := msgs[i];
      if !found {
        ScanLooks(msgs, q, start, i);
        i := i + 1;
        if m.id == q.afterId {
          found := true;
          start := i;
        }
        continue;
      }
      if q.beforeId != "" && m.id == q.beforeId {
        ScanStops(msgs, q, start, i, filtered);
        return;
      }
      ScanPasses(msgs, q, start, i, filtered);
      i := i + 1;
      if q.withJid != "" && m.withJid != q.withJid {
        continue;
      }
      if q.start != 0 && m.at < q.start {
        continue;
      }
      if q.end != 0 && m.at > q.end {
        continue;
      }
      filtered := filtered + [m];
    }
    ScanEnds(msgs, q, found, start, filtered);
  }

  lemma FoundAt(s: seq<Message>, id: string, i: nat)
    requires i < |s| && s[i].id == id && forall j :: 0 <= j < i ==> s[j].id != id
    ensures Find(s, id) == i
  {
  }

  lemma AbsentBefore(s: seq<Message>, id: string)
    requires id != "" ==> forall j :: 0 <= j < |s| ==> s[j].id != id
    ensures Before(s, id) == s
  {
    if id != "" {
      assert Find(s, id) == |s|;
      assert s[..|s|] == s;
    }
  }

  // ----------------------------------------------------------- what a selection consists of

  /** Every message has an id. */
  predicate Named(s: seq<Message>) {
    forall i :: 0 <= i < |s| ==> s[i].id != ""
  }

  /** Ids identify messages and are not empty. */
  predicate DistinctIds(s: seq<Message>) {
    Named(s) && forall i, j :: 0 <= i < j < |s| ==> s[i].id != s[j].id
  }

  /** Ids identify all messages but perhaps the last, and are not empty. */
  predicate Pageable(s: seq<Message>) {
    Named(s) && forall i, j :: 0 <= i < j < |s| - 1 ==> s[i].id != s[j].id
  }

  /** The ids are the decimal forms of increasing numbers up to `n`. */
  predicate Numbered(s: seq<Message>, n: nat) {
    && (forall i :: 0 <= i < |s| ==> AllDigits(s[i].id) && 1 <= Value(s[i].id) <= n)
    && (forall i, j :: 0 <= i < j < |s| ==> Value(s[i].id) < Value(s[j].id))
  }

  predicate EveryNumbered(archives: map<string, seq<Message>>, n: nat) {
    forall u :: u in archives ==> Numbered(archives[u], n)
  }

  predicate EveryNamed(archives: map<string, seq<Message>>) {
    forall u :: u in archives ==> Named(archives[u])
  }

  lemma NumberedWith(archives: map<string, seq<Message>>, n: nat, user: string, before: seq<Message>, m: Message)
    requires EveryNumbered(archives, n) && m.id == Digits(n + 1)
    requires before == if user in archives then archives[user] else []
    ensures EveryNumbered(archives[user := before + [m]], n + 1)
  {
    NumberedNext(before, n, m);
  }

  lemma NamedWith(archives: map<string, seq<Message>>, user: string, before: seq<Message>, m: Message)
    requires EveryNamed(archives) && m.id != "" && before == if user in archives then archives[user] else []
    ensures EveryNamed(archives[user := before + [m]])
  {
  }

  lemma NumberedNext(s: seq<Message>, n: nat, m: Message)
    requires Numbered(s, n) && m.id == Digits(n + 1)
    ensures Numbered(s + [m], n + 1)
  {
    DigitsValue(n + 1);
  }

  /** Ids that the store assigned, whatever else was archived or deleted, identify messages. */
  lemma NumberedIsDistinct(s: seq<Message>, n: nat)
    requires Numbered(s, n)
    ensures DistinctIds(s)
  {
    forall i | 0 <= i < |s|
      ensures s[i].id != ""
    {
      assert Value(s[i].id) >= 1;
    }
  }

  lemma {:induction false} FilterConcat(a: seq<Message>, b: seq<Message>, q: Query)
    ensures Filter(a + b, q) == Filter(a, q) + Filter(b, q)
    decreases |b|
  {
    if b == [] {
      assert a + b == a;
    } else {
      var n := |b| - 1;
      assert (a + b)[..|a + b| - 1] == a + b[..n];
      FilterConcat(a, b[..n], q);
    }
  }

  lemma FilterSnoc(s: seq<Message>, m: Message, q: Query)
    ensures Filter(s + [m], q) == Filter(s, q) + if Matches(q, m) then [m] else []
  {
    assert (s + [m])[..|s|] == s;
  }

  lemma LastApart(s: seq<Message>)
    requires s != []
    ensures s == s[..|s| - 1] + [s[|s| - 1]]
  {
  }

  lemma DropSnoc<T>(s: seq<T>, t: seq<T>, i: nat)
    requires i <= |s|
    ensures (s + t)[..i] == s[..i] && (s + t)[i..] == s[i..] + t
  {
  }

  lemma All<T>(s: seq<T>)
    ensures s[..|s|] == s && s[|s|..] == []
  {
  }

  /** The position of the k-th selected message splits the list and its selection alike. */
  lemma {:induction false} FilterSplit(s: seq<Message>, q: Query, k: nat) returns (i: nat)
    requires k < |Filter(s, q)|
    ensures i < |s| && s[i] == Filter(s, q)[k] && Filter(s[i + 1..], q) == Filter(s, q)[k + 1..]
    decreases |s|
  {
    var front, m := s[..|s| - 1], s[|s| - 1];
    LastApart(s);
    FilterSnoc(front, m, q);
    if k < |Filter(front, q)| {
      i := FilterSplit(front, q, k);
      SplitFurther(front, m, q, k, i);
    } else {
      i := |s| - 1;
      All(s);
      All(Filter(s, q));
    }
  }

  lemma SplitFurther(s: seq<Message>, m: Message, q: Query, k: nat, i: nat)
    requires k < |Filter(s, q)| && i < |s| && s[i] == Filter(s, q)[k]
    requires Filter(s[i + 1..], q) == Filter(s, q)[k + 1..]
    ensures Filter((s + [m])[i + 1..], q) == Filter(s + [m], q)[k + 1..]
    ensures Filter(s + [m], q)[k] == s[i]
  {
    FilterSnoc(s, m, q);
    DropSnoc(s, [m], i + 1);
    FilterSnoc(s[i + 1..], m, q);
    var more := if Matches(q, m) then [m] else [];
    DropSnoc(Filter(s, q), more, k + 1);
  }

  /** The positions from `lo` on that a query may select begin after the first message named `id`. */
  predicate StartsAt(s: seq<Message>, id: string, lo: nat) {
    if id == "" then lo == 0
    else 0 < lo <= |s| && s[lo - 1].id == id && forall a :: 0 <= a < lo - 1 ==> s[a].id != id
  }

  predicate RangeFrom(s: seq<Message>, q: Query, lo: nat, p: nat)
    requires p < |s|
  {
    StartsAt(s, q.afterId, lo) && lo <= p && (q.beforeId == "" || forall b :: lo <= b <= p ==> s[b].id != q.beforeId)
  }

  /** Position `p` lies after the message `afterId`, and nothing from there up to it is the message `beforeId`. */
  ghost predicate InRange(s: seq<Message>, q: Query, p: nat)
    requires p < |s|
  {
    exists lo :: RangeFrom(s, q, lo, p)
  }

  /** The message is with the correspondent asked for, not before the start and not after the end. */
  predicate Wanted(q: Query, m: Message) {
    && (q.withJid != "" ==> m.withJid == q.withJid)
    && (q.start != 0 ==> q.start <= m.at)
    && (q.end != 0 ==> m.at <= q.end)
  }

  /** `ps` are the positions of all messages in range that are wanted, in order. */
  ghost predicate Lists(s: seq<Message>, q: Query, ps: seq<nat>) {
    && (forall i, j :: 0 <= i < j < |ps| ==> ps[i] < ps[j])
    && (forall p :: p in ps <==> 0 <= p < |s| && Wanted(q, s[p]) && InRange(s, q, p))
  }

  /** The messages at these positions. */
  predicate At(s: seq<Message>, ps: seq<nat>, ms: seq<Message>) {
    |ms| == |ps| && forall k :: 0 <= k < |ps| ==> ps[k] < |s| && ms[k] == s[ps[k]]
  }

  lemma {:induction false} FilterAt(s: seq<Message>, q: Query, lo: nat, hi: nat) returns (ps: seq<nat>)
    requires lo <= hi <= |s|
    ensures At(s, ps, Filter(s[lo..hi], q))
    ensures forall i, j :: 0 <= i < j < |ps| ==> ps[i] < ps[j]
    ensures forall p :: p in ps <==> lo <= p < hi && Wanted(q, s[p])
    decreases hi - lo
  {
    if lo == hi {
      ps := [];
    } else {
      ps := FilterAt(s, q, lo, hi - 1);
      FilterSnoc(s[lo..hi - 1], s[hi - 1], q);
      assert s[lo..hi - 1] + [s[hi - 1]] == s[lo..hi];
      if Wanted(q, s[hi - 1]) {
        ps := Appended(s, q, lo, hi, ps);
      }
    }
  }

  lemma Appended(s: seq<Message>, q: Query, lo: nat, hi: nat, ps: seq<nat>) returns (qs: seq<nat>)
    requires lo < hi <= |s| && Wanted(q, s[hi - 1])
    requires forall i, j :: 0 <= i < j < |ps| ==> ps[i] < ps[j]
    requires forall p :: p in ps <==> lo <= p < hi - 1 && Wanted(q, s[p])
    ensures qs == ps + [hi - 1]
    ensures forall i, j :: 0 <= i < j < |qs| ==> qs[i] < qs[j]
    ensures forall p :: p in qs <==> lo <= p < hi && Wanted(q, s[p])
  {
    qs := ps + [hi - 1];
    forall k | 0 <= k < |ps|
      ensures ps[k] < hi - 1
    {
      assert ps[k] in ps;
    }
    forall p
      ensures p in qs <==> lo <= p < hi && Wanted(q, s[p])
    {
      assert p in qs <==> p in ps || p == hi - 1;
    }
  }

  /** Where the range begins, or the end of the archive if there is no such message. */
  function Start(s: seq<Message>, id: string): (lo: nat)
    ensures lo <= |s| && After(s, id) == s[lo..]
  {
    if id == "" then 0 else if Find(s, id) < |s| then Find(s, id) + 1 else |s|
  }

  lemma StartsOnce(s: seq<Message>, id: string, lo: nat, p: nat)
    requires p < |s|
    ensures StartsAt(s, id, lo) && lo <= p <==> lo == Start(s, id) && lo <= p
  {
    if id != "" && StartsAt(s, id, lo) {
      FoundAt(s, id, lo - 1);
    }
  }

  lemma StopsAt(s: seq<Message>, id: string, lo: nat, p: nat)
    requires lo <= p < |s|
    ensures p < lo + |Before(s[lo..], id)| <==> (id == "" || forall b :: lo <= b <= p ==> s[b].id != id)
  {
    var tail := s[lo..];
    assert forall b :: lo <= b < |s| ==> tail[b - lo] == s[b];
    if id != "" && p >= lo + Find(tail, id) {
      assert s[lo + Find(tail, id)].id == id;
    }
  }

  lemma RangeIs(s: seq<Message>, q: Query, p: nat)
    requires p < |s|
    ensures var lo := Start(s, q.afterId);
      lo <= p < lo + |Before(s[lo..], q.beforeId)| <==> InRange(s, q, p)
  {
    var lo := Start(s, q.afterId);
    StartsOnce(s, q.afterId, lo, p);
    if lo <= p {
      StopsAt(s, q.beforeId, lo, p);
      if p < lo + |Before(s[lo..], q.beforeId)| {
        assert RangeFrom(s, q, lo, p);
      }
    }
    if InRange(s, q, p) {
      var lo' :| RangeFrom(s, q, lo', p);
      StartsOnce(s, q.afterId, lo', p);
    }
  }

  lemma BeforeIsCut(s: seq<Message>, lo: nat, id: string)
    requires lo <= |s|
    ensures lo + |Before(s[lo..], id)| <= |s| && Before(s[lo..], id) == s[lo..lo + |Before(s[lo..], id)|]
  {
  }

  /** What is selected, by positions and by the fields of the messages. */
  lemma SelectedMeans(s: seq<Message>, q: Query) returns (ps: seq<nat>)
    ensures Lists(s, q, ps) && At(s, ps, Selected(s, q))
  {
    var lo := Start(s, q.afterId);
    var hi := lo + |Before(s[lo..], q.beforeId)|;
    BeforeIsCut(s, lo, q.beforeId);
    ps := FilterAt(s, q, lo, hi);
    forall p | 0 <= p < |s|
      ensures lo <= p < hi <==> InRange(s, q, p)
    {
      RangeIs(s, q, p);
    }
  }

  /**
    One answer, for every query: the wanted messages of the range in order, cut off at the
    maximum, which is 100 if none is given; whether these were all; the ids of the first
    and the last one shown, and their number.
   */
  lemma PageTheorem(s: seq<Message>, q: Query) returns (ps: seq<nat>)
    ensures Lists(s, q, ps)
    ensures var page, limit := Answer(s, q), if q.max > 0 then q.max else 100;
      && (page.complete <==> |ps| <= limit)
      && At(s, if page.complete then ps else ps[..limit], page.messages)
      && page.count == |page.messages|
      && page.first == (if page.messages == [] then "" else page.messages[0].id)
      && page.last == (if page.messages == [] then "" else page.messages[|page.messages| - 1].id)
  {
    ps := SelectedMeans(s, q);
  }

  // ----------------------------------------------------------------- a whole paging session

  lemma {:induction false} MatchesSame(s: seq<Message>, q: Query, id: string)
    ensures Filter(s, q.(afterId := id)) == Filter(s, q)
  {
    if s == [] {
    } else {
      MatchesSame(s[..|s| - 1], q, id);
    }
  }

  /** Dropping a part in front of the end mark does not move the end mark. */
  lemma BeforeLater(s: seq<Message>, id: string, i: nat)
    requires i <= |Before(s, id)|
    ensures Before(s[i..], id) == Before(s, id)[i..]
  {
    if id != "" {
      var n := Find(s, id);
      if n < |s| {
        assert s[i..][n - i].id == id;
        FoundAt(s[i..], id, n - i);
      } else {
        AbsentBefore(s[i..], id);
      }
      assert s[i..][..n - i] == s[..n][i..];
    }
  }

  /** Asking again after the last message of a page selects what the page left over. */
  lemma NextPage(s: seq<Message>, q: Query)
    requires Pageable(s) && !Answer(s, q).complete
    ensures Selected(s, q.(afterId := Answer(s, q).last)) == Selected(s, q)[Limit(q)..]
  {
    var tail, last := After(s, q.afterId), Answer(s, q).last;
    var window := Before(tail, q.beforeId);
    var i := PageEnd(s, q, window);
    Follows(s, q.afterId, last, i);
    BeforeLater(tail, q.beforeId, i + 1);
    MatchesSame(window[i + 1..], q, last);
  }

  /** Where in the range a page ends. */
  lemma PageEnd(s: seq<Message>, q: Query, window: seq<Message>) returns (i: nat)
    requires window == Before(After(s, q.afterId), q.beforeId) && !Answer(s, q).complete
    ensures i + 1 < |window| && window[i].id == Answer(s, q).last
    ensures Filter(window[i + 1..], q) == Selected(s, q)[Limit(q)..]
  {
    i := FilterSplit(window, q, Limit(q) - 1);
    assert i + 1 < |window| by {
      assert window[i + 1..] != [];
    }
  }

  lemma Follows(s: seq<Message>, id: string, last: string, i: nat)
    requires Pageable(s) && i + 1 < |After(s, id)| && After(s, id)[i].id == last
    ensures After(s, last) == After(s, id)[i + 1..]
  {
    var lo := if id == "" then 0 else Find(s, id) + 1;
    assert After(s, id) == s[lo..];
    FoundAt(s, last, lo + i);
    DropDrop(s, lo, i + 1);
  }

  lemma DropDrop(s: seq<Message>, m: nat, n: nat)
    requires m + n <= |s|
    ensures s[m..][n..] == s[m + n..]
  {
  }

  /** Query, then query again after the last message seen, until a page is complete. */
  function Pages(s: seq<Message>, q: Query): seq<Page>
    requires Pageable(s)
    decreases |Selected(s, q)|
  {
    var page := Answer(s, q);
    if page.complete then [page]
    else
      NextPage(s, q);
      [page] + Pages(s, q.(afterId := page.last))
  }

  function Shown(pages: seq<Page>): seq<Message> {
    if pages == [] then [] else pages[0].messages + Shown(pages[1..])
  }

  lemma ShownPrepend(page: Page, rest: seq<Page>)
    ensures Shown([page] + rest) == page.messages + Shown(rest)
  {
    assert ([page] + rest)[1..] == rest;
  }

  lemma Halves<T>(s: seq<T>, n: nat)
    requires n <= |s|
    ensures s == s[..n] + s[n..]
  {
  }

  /** The pages of a session together are the selection, in order, nothing lost or repeated. */
  lemma {:induction false} PagingTheorem(s: seq<Message>, q: Query)
    requires Pageable(s)
    ensures Shown(Pages(s, q)) == Selected(s, q)
    decreases |Selected(s, q)|
  {
    var page := Answer(s, q);
    if page.complete {
      ShownPrepend(page, []);
    } else {
      NextPage(s, q);
      var q' := q.(afterId := page.last);
      PagingTheorem(s, q');
      ShownPrepend(page, Pages(s, q'));
      Halves(Selected(s, q), Limit(q));
    }
  }

  /**
    A paging session shows exactly the messages that lie in the range of ids, are with the
    correspondent asked for, not before the start and not after the end, each once and in order.
   */
  lemma ShownTheorem(s: seq<Message>, q: Query) returns (ps: seq<nat>)
    requires Pageable(s)
    ensures Lists(s, q, ps) && At(s, ps, Shown(Pages(s, q)))
  {
    PagingTheorem(s, q);
    ps := SelectedMeans(s, q);
  }

  /** Exactly the last page is complete, and every other page is full. */
  predicate WellPaged(pages: seq<Page>, limit: nat) {
    && pages != []
    && (forall i :: 0 <= i < |pages| ==> (pages[i].complete <==> i == |pages| - 1))
    && (forall i :: 0 <= i < |pages| - 1 ==> |pages[i].messages| == limit)
  }

  lemma PagePrepend(page: Page, rest: seq<Page>, limit: nat)
    requires WellPaged(rest, limit) && !page.complete && |page.messages| == limit
    ensures WellPaged([page] + rest, limit)
  {
  }

  lemma {:induction false} FullPages(s: seq<Message>, q: Query)
    requires Pageable(s)
    ensures WellPaged(Pages(s, q), Limit(q))
    decreases |Selected(s, q)|
  {
    var page := Answer(s, q);
    if page.complete {
    } else {
      NextPage(s, q);
      var q' := q.(afterId := page.last);
      FullPages(s, q');
      PagePrepend(page, Pages(s, q'), Limit(q));
    }
  }

  /** A session takes no more pages than the selection fills, and one. */
  lemma {:induction false} FewPages(s: seq<Message>, q: Query)
    requires Pageable(s)
    ensures (|Pages(s, q)| - 1) * Limit(q) <= |Selected(s, q)|
    decreases |Selected(s, q)|
  {
    var q' := q.(afterId := Answer(s, q).last);
    PageCount(s, q, q');
    if Answer(s, q).complete {
      OneMore(0, Limit(q), 0);
    } else {
      FewPages(s, q');
      OneMore(|Pages(s, q')|, Limit(q), |Selected(s, q)|);
    }
  }

  lemma PageCount(s: seq<Message>, q: Query, next: Query)
    requires Pageable(s) && next == q.(afterId := Answer(s, q).last)
    ensures if Answer(s, q).complete then |Pages(s, q)| == 1
      else |Pages(s, q)| == 1 + |Pages(s, next)| && |Selected(s, next)| == |Selected(s, q)| - Limit(q)
  {
    if !Answer(s, q).complete {
      NextPage(s, q);
    }
  }

  lemma OneMore(n: int, m: int, total: int)
    requires (n - 1) * m <= total - m
    ensures n * m <= total
  {
  }

  // ---------------------------------------------------------------- exactly when paging ends

  /** The query after `n` more pages. */
  function QueryAfter(s: seq<Message>, q: Query, n: nat): Query
    decreases n
  {
    if n == 0 then q else QueryAfter(s, q.(afterId := Answer(s, q).last), n - 1)
  }

  /** Some page of the session is complete. */
  ghost predicate Ends(s: seq<Message>, q: Query) {
    exists n: nat :: Answer(s, QueryAfter(s, q, n)).complete
  }

  lemma {:induction false} PageableEnds(s: seq<Message>, q: Query) returns (n: nat)
    requires Pageable(s)
    ensures Answer(s, QueryAfter(s, q, n)).complete
    decreases |Selected(s, q)|
  {
    if Answer(s, q).complete {
      n := 0;
    } else {
      var next := q.(afterId := Answer(s, q).last);
      LessLeft(s, q, next);
      n := PageableEnds(s, next);
      OneMorePage(s, q, next, n);
      n := n + 1;
    }
  }

  lemma OneMorePage(s: seq<Message>, q: Query, next: Query, n: nat)
    requires next == q.(afterId := Answer(s, q).last)
    ensures QueryAfter(s, q, n + 1) == QueryAfter(s, next, n)
  {
  }

  lemma LessLeft(s: seq<Message>, q: Query, next: Query)
    requires Pageable(s) && !Answer(s, q).complete && next == q.(afterId := Answer(s, q).last)
    ensures |Selected(s, next)| < |Selected(s, q)|
  {
    NextPage(s, q);
  }

  /** A query for one message at a time, without filters. */
  function OneByOne(user: string, afterId: string): Query {
    Query(user, "", 0, 0, afterId, "", 1)
  }

  lemma {:induction false} Everything(s: seq<Message>, q: Query)
    requires q.withJid == "" && q.start == 0 && q.end == 0
    ensures Filter(s, q) == s
  {
    if s == [] {
    } else {
      LastApart(s);
      Everything(s[..|s| - 1], q);
    }
  }

  /** Where a one-by-one session stands. */
  function Position(s: seq<Message>, id: string): nat {
    if id == "" then 0 else Find(s, id) + 1
  }

  /** One page of such a session shows the message at its position. */
  lemma ShowsOne(s: seq<Message>, user: string, id: string)
    requires Position(s, id) + 1 < |s|
    ensures var page := Answer(s, OneByOne(user, id));
      !page.complete && page.last == s[Position(s, id)].id
  {
    var q := OneByOne(user, id);
    assert After(s, id) == s[Position(s, id)..];
    Everything(After(s, id), q);
  }

  /** With equal ids at `i` and `j` in front of the last message, such a session never gets past `j`. */
  lemma NeverPast(s: seq<Message>, user: string, i: nat, j: nat, n: nat)
    requires Named(s) && i < j < |s| - 1 && s[i].id == s[j].id
    ensures !Answer(s, QueryAfter(s, OneByOne(user, ""), n)).complete
  {
    var id := StaysWithin(s, user, "", i, j, n);
    ShowsOne(s, user, id);
  }

  lemma {:induction false} StaysWithin(s: seq<Message>, user: string, id: string, i: nat, j: nat, n: nat) returns (id': string)
    requires Named(s) && i < j < |s| - 1 && s[i].id == s[j].id && Position(s, id) <= j
    ensures QueryAfter(s, OneByOne(user, id), n) == OneByOne(user, id') && Position(s, id') <= j
    decreases n
  {
    if n == 0 {
      id' := id;
    } else {
      var next := NextWithin(s, user, id, i, j);
      id' := StaysWithin(s, user, next, i, j, n - 1);
      OneMorePage(s, OneByOne(user, id), OneByOne(user, next), n - 1);
    }
  }

  lemma NextWithin(s: seq<Message>, user: string, id: string, i: nat, j: nat) returns (next: string)
    requires Named(s) && i < j < |s| - 1 && s[i].id == s[j].id && Position(s, id) <= j
    ensures next == Answer(s, OneByOne(user, id)).last && Position(s, next) <= j
  {
    ShowsOne(s, user, id);
    var p := Position(s, id);
    next := s[p].id;
    FindAtMost(s, next, if p == j then i else p);
  }

  lemma FindAtMost(s: seq<Message>, id: string, i: nat)
    requires i < |s| && s[i].id == id
    ensures Find(s, id) <= i
  {
  }

  /**
    Every session over an archive ends, whatever its filters and maximum, exactly when the
    ids in front of the last message are distinct.
   */
  lemma EndsTheorem(s: seq<Message>)
    requires Named(s)
    ensures (forall q :: Ends(s, q)) <==> Pageable(s)
  {
    if Pageable(s) {
      forall q
        ensures Ends(s, q)
      {
        var n := PageableEnds(s, q);
      }
    } else {
      var i, j :| 0 <= i < j < |s| - 1 && s[i].id == s[j].id;
      var q := OneByOne("", "");
      forall n: nat
        ensures !Answer(s, QueryAfter(s, q, n)).complete
      {
        NeverPast(s, "", i, j, n);
      }
      assert !Ends(s, q);
    }
  }

  /**
    Ids collide when a caller gives one that the store assigns later: a message archived as
    "1", then the first one the store numbers, then any other.
   */
  lemma CollidingIds(a: Message, b: Message, c: Message)
    requires a.id == "1" && b.id == Digits(1) && c.id != ""
    ensures exists q :: !Ends([a, b, c], q)
  {
    var s := [a, b, c];
    assert s[0].id == s[1].id;
    EndsTheorem(s);
  }

  // -------------------------------------------------- paging while messages keep arriving

  /** Each archive of the sequence continues the one before. */
  predicate Growing(archives: seq<seq<Message>>) {
    forall i :: 0 <= i < |archives| - 1 ==> archives[i] <= archives[i + 1]
  }

  /** One query per archive, as long as the pages are not complete. */
  function PagesOver(archives: seq<seq<Message>>, q: Query): seq<Page>
    requires archives != []
  {
    var page := Answer(archives[0], q);
    if page.complete || |archives| == 1 then [page]
    else [page] + PagesOver(archives[1..], q.(afterId := page.last))
  }

  lemma FindGrows(s: seq<Message>, t: seq<Message>, id: string)
    ensures Find(s, id) < |s| ==> Find(s + t, id) == Find(s, id)
    ensures Find(s, id) == |s| ==> Find(s + t, id) >= |s|
  {
    var n := Find(s, id);
    if n < |s| {
      FoundAt(s + t, id, n);
    } else {
      assert forall k :: 0 <= k < |s| ==> (s + t)[k] == s[k];
    }
  }

  lemma AfterGrows(s: seq<Message>, t: seq<Message>, id: string)
    ensures After(s, id) <= After(s + t, id)
  {
    FindGrows(s, t, id);
    if id != "" && Find(s, id) < |s| {
      DropSnoc(s, t, Find(s, id) + 1);
    }
  }

  lemma BeforeGrows(s: seq<Message>, t: seq<Message>, id: string)
    ensures Before(s, id) <= Before(s + t, id)
  {
    FindGrows(s, t, id);
  }

  lemma FilterGrows(s: seq<Message>, t: seq<Message>, q: Query)
    requires s <= t
    ensures Filter(s, q) <= Filter(t, q)
  {
    assert t == s + t[|s|..];
    FilterConcat(s, t[|s|..], q);
  }

  /** New messages only extend a selection at its end. */
  lemma SelectedGrows(s: seq<Message>, s': seq<Message>, q: Query)
    requires s <= s'
    ensures Selected(s, q) <= Selected(s', q)
  {
    assert s' == s + s'[|s|..];
    AfterGrows(s, s'[|s|..], q.afterId);
    var a, a' := After(s, q.afterId), After(s', q.afterId);
    assert a' == a + a'[|a|..];
    BeforeGrows(a, a'[|a|..], q.beforeId);
    FilterGrows(Before(a, q.beforeId), Before(a', q.beforeId), q);
  }

  /** A session over a growing archive that ends with a complete page saw the whole last selection. */
  lemma {:induction false} GrowingPagingTheorem(archives: seq<seq<Message>>, q: Query)
    requires archives != [] && Growing(archives)
    requires forall s :: s in archives ==> Pageable(s)
    ensures var pages := PagesOver(archives, q);
      && 0 < |pages| <= |archives|
      && Shown(pages) <= Selected(archives[|pages| - 1], q)
      && (pages[|pages| - 1].complete ==> Shown(pages) == Selected(archives[|pages| - 1], q))
    decreases |archives|
  {
    var s := archives[0];
    var page := Answer(s, q);
    if page.complete || |archives| == 1 {
      assert Shown([page]) == page.messages + Shown([page][1..]);
    } else {
      var rest, q' := archives[1..], q.(afterId := page.last);
      var pages := PagesOver(rest, q');
      GrowingPagingTheorem(rest, q');
      assert ([page] + pages)[1..] == pages;
      GrowingFrom(archives, |pages|);
      LaterPage(s, archives[|pages|], q);
    }
  }

  /** The same by positions: a complete session over a growing archive showed all that was wanted. */
  lemma GrowingShownTheorem(archives: seq<seq<Message>>, q: Query) returns (ps: seq<nat>)
    requires archives != [] && Growing(archives)
    requires forall s :: s in archives ==> Pageable(s)
    ensures var pages := PagesOver(archives, q);
      && 0 < |pages| <= |archives|
      && Lists(archives[|pages| - 1], q, ps)
      && (pages[|pages| - 1].complete ==> At(archives[|pages| - 1], ps, Shown(pages)))
  {
    GrowingPagingTheorem(archives, q);
    ps := SelectedMeans(archives[|PagesOver(archives, q)| - 1], q);
  }

  lemma {:induction false} GrowingFrom(archives: seq<seq<Message>>, k: nat)
    requires Growing(archives) && k < |archives|
    ensures archives[0] <= archives[k]
  {
    if k == 0 {
    } else {
      GrowingFrom(archives, k - 1);
      assert archives[k - 1] <= archives[k];
    }
  }

  /** What a later archive selects after a page, with the page in front, is its whole selection. */
  lemma LaterPage(s: seq<Message>, s': seq<Message>, q: Query)
    requires s <= s' && Pageable(s') && Pageable(s) && !Answer(s, q).complete
    ensures Selected(s', q) == Answer(s, q).messages + Selected(s', q.(afterId := Answer(s, q).last))
  {
    SelectedGrows(s, s', q);
    SamePage(s, s', q);
    NextPage(s', q);
    Halves(Selected(s', q), Limit(q));
  }

  lemma SamePage(s: seq<Message>, s': seq<Message>, q: Query)
    requires Selected(s, q) <= Selected(s', q) && !Answer(s, q).complete
    ensures Answer(s', q) == Answer(s, q) && Answer(s, q).messages == Selected(s', q)[..Limit(q)]
  {
  }
}
