/**
  The routing of stanzas to connected sessions in cmd/xmppd/stream.go: a router with
  two indexes, and the connections that authenticate, bind an address and end, each
  at its own pace.
 */
module SessionRouter {
  import opened Addresses

  type Id = nat

  // ------------------------------------------------------------------------------ the router

  datatype Router = Router(byFull: map<string, Id>, byBare: map<string, map<string, Id>>)

  function GroupOf(r: Router, bare: string): map<string, Id> {
    if bare in r.byBare then r.byBare[bare] else map[]
  }

  function Put(r: Router, bare: string, key: string, id: Id): Router {
    Router(r.byFull[key := id], r.byBare[bare := GroupOf(r, bare)[key := id]])
  }

  function Take(r: Router, bare: string, key: string): Router {
    Router(r.byFull - {key}, Ungrouped(r.byBare, bare, key))
  }

  function Registered(r: Router, full: Jid, id: Id): Router {
    if full.String() == "" then r else Put(r, full.Bare().String(), full.String(), id)
  }

  function Unregistered(r: Router, full: Jid): Router {
    if full.String() == "" then r else Take(r, full.Bare().String(), full.String())
  }

  /** Takes a key out of a group, and the group away with its last key. */
  function Ungrouped(byBare: map<string, map<string, Id>>, bare: string, key: string): map<string, map<string, Id>> {
    if bare !in byBare then byBare
    else
      var group := byBare[bare] - {key};
      if group == map[] then byBare - {bare} else byBare[bare := group]
  }

  /** `order` lists the keys of a map once each. */
  predicate Lists(order: seq<string>, m: map<string, Id>) {
    && (forall i :: 0 <= i < |order| ==> order[i] in m)
    && (forall i, j :: 0 <= i < j < |order| ==> order[i] != order[j])
    && (forall k :: k in m ==> k in order)
  }

  /** The sessions that a stanza for an address goes to. */
  function Reached(r: Router, to: Jid): set<Id> {
    if to.IsZero() then {}
    else if to.IsFull() then
      if to.String() in r.byFull then {r.byFull[to.String()]} else {}
    else GroupOf(r, to.Bare().String()).Values
  }

  class RouterObject {
    var byFull: map<string, Id>
    var byBare: map<string, map<string, Id>>

    ghost function State(): Router
      reads this
    {
      Router(byFull, byBare)
    }

    constructor ()
      ensures State() == Router(map[], map[])
    {
      byFull, byBare := map[], map[];
    }

    method Register(full: Jid, session: Id)
      modifies this
      ensures State() == Registered(old(State()), full, session)
    {
      var fullStr := full.String();
      if fullStr == "" {
        return;
      }
      var bare := full.Bare().String();
      byFull := byFull[fullStr := session];
      if bare !in byBare {
        byBare := byBare[bare := map[]];
      }
      var sessions: map<string, Id> := byBare[bare][fullStr := session];
      byBare := byBare[bare := sessions];
    }

    method Unregister(full: Jid)
      modifies this
      ensures State() == Unregistered(old(State()), full)
    {
      var fullStr := full.String();
      if fullStr == "" {
        return;
      }
      var bare := full.Bare().String();
      byFull := byFull - {fullStr};
      if bare in byBare {
        var sessions := byBare[bare] - {fullStr};
        if |sessions| == 0 {
          byBare := byBare - {bare};
        } else {
          byBare := byBare[bare := sessions];
        }
      }
    }

    /** The sessions for an address, those of a bare address in the order in which the map is walked. */
    method Targets(to: Jid) returns (out: seq<Id>, ghost order: seq<string>)
      ensures forall s :: s in out <==> s in Reached(State(), to)
      ensures to.IsZero() ==> out == []
      ensures !to.IsZero() && to.IsFull() ==> out == if to.String() in byFull then [byFull[to.String()]] else []
      ensures !to.IsZero() && !to.IsFull() ==>
        var group := GroupOf(State(), to.Bare().String());
        && Lists(order, group) && |out| == |order|
        && forall i :: 0 <= i < |out| ==> out[i] == group[order[i]]
    {
      out, order := [], [];
      if to.IsZero() {
        return;
      }
      if to.IsFull() {
        if to.String() in byFull {
          out := [byFull[to.String()]];
        }
        return;
      }
      var bare := to.Bare().String();
      if bare !in byBare {
        return;
      }
      var sessions := byBare[bare];
      var rest := sessions.Keys;
      while rest != {}
        invariant rest <= sessions.Keys
        invariant |out| == |order|
        invariant forall i :: 0 <= i < |order| ==> order[i] in sessions && order[i] !in rest && out[i] == sessions[order[i]]
        invariant forall i, j :: 0 <= i < j < |order| ==> order[i] != order[j]
        invariant forall k :: k in sessions && k !in rest ==> k in order
        decreases |rest|
      {
        var k :| k in rest;
        out, order := out + [sessions[k]], order + [k];
        rest := rest - {k};
      }
    }
  }

  /** The entries of the first index that belong to a bare address. */
  function Grouping(byFull: map<string, Id>, bare: string): map<string, Id> {
    map f | f in byFull && BareText(f) == bare :: byFull[f]
  }

  /** The second index is the first one grouped by bare address, without empty groups. */
  ghost predicate Grouped(r: Router) {
    && (forall b :: GroupOf(r, b) == Grouping(r.byFull, b))
    && (forall b :: b in r.byBare ==> r.byBare[b] != map[])
  }

  /** An address of the served domain, which has no separators in it. */
  predicate Served(domain: string, j: Jid) {
    Made(j) && j.domain == domain && '/' !in domain && '@' !in domain
  }

  lemma KeysOf(domain: string, j: Jid)
    requires Served(domain, j)
    ensures j.String() != "" && BareText(j.String()) == j.Bare().String()
    ensures '/' !in j.Bare().String()
    ensures j.resource != "" <==> '/' in j.String()
    ensures j.resource == "" ==> j.String() == j.Bare().String()
  {
    MadeIsPlain(j);
    BareTextOf(j);
    SlashAt(j);
  }

  lemma GroupingPut(m: map<string, Id>, key: string, id: Id, bare: string)
    ensures BareText(key) == bare ==> Grouping(m[key := id], bare) == Grouping(m, bare)[key := id]
    ensures BareText(key) != bare ==> Grouping(m[key := id], bare) == Grouping(m, bare)
  {
  }

  lemma GroupingTake(m: map<string, Id>, key: string, bare: string)
    ensures BareText(key) == bare ==> Grouping(m - {key}, bare) == Grouping(m, bare) - {key}
    ensures BareText(key) != bare ==> Grouping(m - {key}, bare) == Grouping(m, bare)
  {
  }

  lemma PutKeeps(r: Router, key: string, id: Id)
    requires Grouped(r)
    ensures Grouped(Put(r, BareText(key), key, id))
  {
    var r' := Put(r, BareText(key), key, id);
    forall b
      ensures GroupOf(r', b) == Grouping(r'.byFull, b)
    {
      GroupingPut(r.byFull, key, id, b);
      assert GroupOf(r, b) == Grouping(r.byFull, b);
    }
    forall b | b in r'.byBare
      ensures r'.byBare[b] != map[]
    {
      assert b == BareText(key) ==> key in r'.byBare[b];
    }
  }

  lemma TakeKeeps(r: Router, key: string)
    requires Grouped(r)
    ensures Grouped(Take(r, BareText(key), key))
  {
    var r' := Take(r, BareText(key), key);
    forall b
      ensures GroupOf(r', b) == Grouping(r'.byFull, b)
    {
      GroupingTake(r.byFull, key, b);
      UngroupedAt(r, key, b);
      assert GroupOf(r, b) == Grouping(r.byFull, b);
    }
  }

  lemma UngroupedAt(r: Router, key: string, b: string)
    ensures var r' := Take(r, BareText(key), key);
      GroupOf(r', b) == if b == BareText(key) then GroupOf(r, b) - {key} else GroupOf(r, b)
  {
  }

  /** Taking out a key that is not in changes nothing. */
  lemma TakeAbsent(r: Router, key: string)
    requires Grouped(r) && key !in r.byFull
    ensures Take(r, BareText(key), key) == r
  {
    var bare := BareText(key);
    assert r.byFull - {key} == r.byFull;
    assert key !in GroupOf(r, bare);
    if bare in r.byBare {
      assert r.byBare[bare] - {key} == r.byBare[bare];
      assert r.byBare[bare := r.byBare[bare]] == r.byBare;
    }
  }

  lemma RegisterKeeps(domain: string, r: Router, j: Jid, id: Id)
    requires Grouped(r) && Served(domain, j)
    ensures Grouped(Registered(r, j, id))
    ensures Registered(r, j, id).byFull == r.byFull[j.String() := id]
  {
    KeysOf(domain, j);
    PutKeeps(r, j.String(), id);
  }

  lemma UnregisterKeeps(domain: string, r: Router, j: Jid)
    requires Grouped(r) && Served(domain, j)
    ensures Grouped(Unregistered(r, j))
    ensures Unregistered(r, j).byFull == r.byFull - {j.String()}
    ensures j.String() !in r.byFull ==> Unregistered(r, j) == r
  {
    KeysOf(domain, j);
    TakeKeeps(r, j.String());
    if j.String() !in r.byFull {
      TakeAbsent(r, j.String());
    }
  }
}
