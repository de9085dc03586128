/**
  Connections of cmd/xmppd/stream.go in every interleaving. A bind takes three steps,
  between which other connections may act: the address is set, the flags are set, the
  router learns the address.
 */
module RouterRuns {
  import opened Wrappers
  import opened Text
  import opened Addresses
  import opened StateWord
  import opened SessionRouter

  /** Where the handler of a connection is. */
  datatype Phase = Serving | Addressed | Marked | Ended

  /** A connection; `bound` are the addresses the router ever learned from it. */
  datatype Conn = Conn(flags: Word, remote: Jid, user: string, phase: Phase, bound: set<string>)

  /** What was done to the router: a session filed or removed the entry of an address. */
  datatype Event = Filing(key: string, id: Id) | Removal(key: string, id: Id)

  datatype World = World(router: Router, conns: map<Id, Conn>, log: seq<Event>)

  const INITIAL: World := World(Router(map[], map[]), map[], [])

  datatype Step =
    | Open(id: Id, secure: bool)
    | StartTls(id: Id)
    | Auth(id: Id, name: string, granted: bool)
    | BindAddress(id: Id, resource: string, drawn: string)
    | BindMark(id: Id)
    | BindRegister(id: Id)
    | End(id: Id)

  // --------------------------------------------------------------------------- the handlers

  function NewConn(secure: bool): Conn {
    Conn({SERVER} + (if secure then {SECURE} else {}), Jid("", "", ""), "", Serving, {})
  }

  /** A PLAIN request for `name`; `granted` says whether the user store accepts the password. */
  function AfterAuth(domain: string, c: Conn, name: string, granted: bool): Conn {
    var username := Trim(name);
    if AUTHENTICATED in c.flags || username == "" || !granted then c
    else match New(username, domain, "")
      case Refused(_) => c
      case Accepted(j) => c.(user := username, remote := j, flags := c.flags + {AUTHENTICATED})
  }

  /** A bind request up to the point where the address is set; `drawn` is a random resource. */
  function AfterBindAddress(domain: string, c: Conn, resource: string, drawn: string): Conn {
    if AUTHENTICATED !in c.flags then c
    else
      var username := if Trim(c.user) != "" then Trim(c.user) else Trim(c.remote.local);
      if username == "" then c
      else match New(username, domain, if Trim(resource) != "" then Trim(resource) else drawn)
        case Refused(_) => c
        case Accepted(full) => c.(remote := full, phase := Addressed)
  }

  predicate Enabled(w: World, step: Step) {
    match step
    case Open(id, _) => id !in w.conns
    case StartTls(id) => id in w.conns && w.conns[id].phase.Serving?
    case Auth(id, _, _) => id in w.conns && w.conns[id].phase.Serving?
    case BindAddress(id, _, drawn) => id in w.conns && w.conns[id].phase.Serving? && drawn != ""
    case BindMark(id) => id in w.conns && w.conns[id].phase.Addressed?
    case BindRegister(id) => id in w.conns && w.conns[id].phase.Marked?
    case End(id) => id in w.conns && w.conns[id].phase.Serving?
  }

  function After(domain: string, w: World, step: Step): World
    requires Enabled(w, step)
  {
    match step
    case Open(id, secure) => w.(conns := w.conns[id := NewConn(secure)])
    case StartTls(id) =>
      var c := w.conns[id];
      w.(conns := w.conns[id := c.(flags := c.flags + {SECURE})])
    case Auth(id, name, granted) => w.(conns := w.conns[id := AfterAuth(domain, w.conns[id], name, granted)])
    case BindAddress(id, resource, drawn) =>
      w.(conns := w.conns[id := AfterBindAddress(domain, w.conns[id], resource, drawn)])
    case BindMark(id) =>
      var c := w.conns[id];
      w.(conns := w.conns[id := c.(flags := c.flags + {BOUND, READY}, phase := Marked)])
    case BindRegister(id) =>
      var c := w.conns[id];
      World(Registered(w.router, c.remote, id),
            w.conns[id := c.(phase := Serving, bound := c.bound + {c.remote.String()})],
            w.log + [Filing(c.remote.String(), id)])
    case End(id) =>
      var c := w.conns[id];
      World(Unregistered(w.router, c.remote), w.conns[id := c.(phase := Ended)],
            w.log + if c.remote.String() == "" then [] else [Removal(c.remote.String(), id)])
  }

  predicate Leads(domain: string, w: World, steps: seq<Step>, w': World)
    decreases |steps|
  {
    if steps == [] then w == w'
    else Enabled(w, steps[0]) && Leads(domain, After(domain, w, steps[0]), steps[1..], w')
  }

  // -------------------------------------------------------------------------- the invariants

  function Home(domain: string, c: Conn): Jid {
    Jid(c.user, domain, "")
  }

  /** An address of the connection's user, with a resource. */
  predicate OwnKey(domain: string, c: Conn, key: string) {
    '/' in key && BareText(key) == Home(domain, c).String()
  }

  ghost predicate ConnOk(domain: string, c: Conn) {
    && (AUTHENTICATED !in c.flags ==>
          c.remote == Jid("", "", "") && c.user == "" && BOUND !in c.flags && c.phase in {Serving, Ended})
    && (AUTHENTICATED in c.flags ==>
          && c.user != "" && Trim(c.user) == c.user
          && Served(domain, c.remote) && c.remote.Bare() == Home(domain, c))
    && (BOUND in c.flags <==> READY in c.flags)
    && (BOUND in c.flags ==> c.remote.resource != "")
    && (BOUND !in c.flags ==> c.bound == {})
    && (c.phase == Addressed ==> AUTHENTICATED in c.flags && c.remote.resource != "")
    && (c.phase == Marked ==> BOUND in c.flags)
    && (c.phase in {Serving, Ended} && BOUND !in c.flags ==> c.remote.resource == "")
    && (c.phase in {Serving, Ended} && BOUND in c.flags ==> c.remote.String() in c.bound)
    && (forall key :: key in c.bound ==> OwnKey(domain, c, key))
  }

  /** Every entry of the router was put there by the session it names. */
  predicate EntriesOk(byFull: map<string, Id>, conns: map<Id, Conn>) {
    forall key :: key in byFull ==> byFull[key] in conns && key in conns[byFull[key]].bound
  }

  predicate Settled(c: Conn) {
    c.phase == Serving && READY in c.flags
  }

  /** Who holds an address according to the log: whoever filed it last, unless it was removed since. */
  function Holder(log: seq<Event>, key: string): Option<Id> {
    if log == [] then None
    else
      var n := |log| - 1;
      if log[n].key != key then Holder(log[..n], key)
      else if log[n].Filing? then Some(log[n].id)
      else None
  }

  /** The address a session filed last. */
  function LastFiled(log: seq<Event>, id: Id): Option<string> {
    if log == [] then None
    else
      var n := |log| - 1;
      if log[n].Filing? && log[n].id == id then Some(log[n].key) else LastFiled(log[..n], id)
  }

  /** The last thing a session did to the router. */
  function LastEvent(log: seq<Event>, id: Id): Option<Event> {
    if log == [] then None
    else
      var n := |log| - 1;
      if log[n].id == id then Some(log[n]) else LastEvent(log[..n], id)
  }

  /** The first index says who holds which address. */
  ghost predicate HoldersOk(byFull: map<string, Id>, log: seq<Event>) {
    forall key :: (key in byFull <==> Holder(log, key).Some?) && (key in byFull ==> Holder(log, key) == Some(byFull[key]))
  }

  /**
    A session that is settled filed its address last, one that has not ended removed none,
    and one that has ended removed its address at last.
   */
  predicate LogFits(log: seq<Event>, id: Id, c: Conn) {
    && (Settled(c) ==> LastFiled(log, id) == Some(c.remote.String()))
    && (c.phase != Ended ==> forall i :: 0 <= i < |log| && log[i].id == id ==> log[i].Filing?)
    && (c.phase == Ended && AUTHENTICATED in c.flags ==> LastEvent(log, id) == Some(Removal(c.remote.String(), id)))
  }

  predicate LogOk(log: seq<Event>, conns: map<Id, Conn>) {
    && (forall id :: id in conns ==> LogFits(log, id, conns[id]))
    && (forall i :: 0 <= i < |log| ==> log[i].id in conns)
  }

  ghost predicate Ok(domain: string, w: World) {
    && '/' !in domain && '@' !in domain
    && Grouped(w.router)
    && (forall id :: id in w.conns ==> ConnOk(domain, w.conns[id]))
    && EntriesOk(w.router.byFull, w.conns)
    && HoldersOk(w.router.byFull, w.log)
    && LogOk(w.log, w.conns)
  }

  // ------------------------------------------------------------------- one connection's steps

  lemma AuthOk(domain: string, c: Conn, name: string, granted: bool)
    requires '/' !in domain && '@' !in domain && ConnOk(domain, c) && c.phase.Serving?
    ensures ConnOk(domain, AfterAuth(domain, c, name, granted))
    ensures var c' := AfterAuth(domain, c, name, granted);
      c'.bound == c.bound && c'.phase == c.phase && (Settled(c') <==> Settled(c)) && (Settled(c) ==> c' == c)
  {
    TrimTwice(name);
  }

  lemma BindAddressOk(domain: string, c: Conn, resource: string, drawn: string)
    requires '/' !in domain && '@' !in domain && ConnOk(domain, c) && c.phase.Serving? && drawn != ""
    ensures ConnOk(domain, AfterBindAddress(domain, c, resource, drawn))
    ensures var c' := AfterBindAddress(domain, c, resource, drawn);
      c'.bound == c.bound && (Settled(c') ==> c' == c)
  {
  }

  lemma MarkOk(domain: string, c: Conn)
    requires ConnOk(domain, c) && c.phase.Addressed?
    ensures ConnOk(domain, c.(flags := c.flags + {BOUND, READY}, phase := Marked))
  {
  }

  lemma RegisterOk(domain: string, c: Conn)
    requires ConnOk(domain, c) && c.phase.Marked?
    ensures ConnOk(domain, c.(phase := Serving, bound := c.bound + {c.remote.String()}))
    ensures OwnKey(domain, c, c.remote.String()) && Served(domain, c.remote)
  {
    KeysOf(domain, c.remote);
  }

  // ------------------------------------------------------------------------- steps of a world

  /** One connection moves on; it may lose its settled state but does not get to another address in it. */
  predicate Quiet(conns: map<Id, Conn>, id: Id, c: Conn) {
    && (id in conns ==>
          && c.bound == conns[id].bound
          && (Settled(c) ==> Settled(conns[id]) && c.remote == conns[id].remote)
          && conns[id].phase != Ended)
    && (c.phase == Ended ==> AUTHENTICATED !in c.flags)
    && (id !in conns ==> c.bound == {} && !Settled(c))
  }

  lemma QuietEntries(byFull: map<string, Id>, conns: map<Id, Conn>, id: Id, c: Conn)
    requires EntriesOk(byFull, conns) && Quiet(conns, id, c)
    ensures EntriesOk(byFull, conns[id := c])
  {
  }

  lemma QuietLog(log: seq<Event>, conns: map<Id, Conn>, id: Id, c: Conn)
    requires LogOk(log, conns) && Quiet(conns, id, c)
    ensures LogOk(log, conns[id := c])
  {
    if id in conns {
      assert LogFits(log, id, conns[id]);
    }
  }

  lemma QuietKeeps(domain: string, w: World, id: Id, c: Conn)
    requires Ok(domain, w) && ConnOk(domain, c) && Quiet(w.conns, id, c)
    ensures Ok(domain, w.(conns := w.conns[id := c]))
  {
    QuietEntries(w.router.byFull, w.conns, id, c);
    QuietLog(w.log, w.conns, id, c);
  }

  lemma HolderSnoc(log: seq<Event>, e: Event, key: string)
    ensures Holder(log + [e], key)
      == if e.key != key then Holder(log, key) else if e.Filing? then Some(e.id) else None
  {
    assert (log + [e])[..|log|] == log;
  }

  lemma LastFiledSnoc(log: seq<Event>, e: Event, id: Id)
    ensures LastFiled(log + [e], id) == if e.Filing? && e.id == id then Some(e.key) else LastFiled(log, id)
  {
    assert (log + [e])[..|log|] == log;
  }

  lemma LastEventSnoc(log: seq<Event>, e: Event, id: Id)
    ensures LastEvent(log + [e], id) == if e.id == id then Some(e) else LastEvent(log, id)
  {
    assert (log + [e])[..|log|] == log;
  }

  lemma PutHolders(byFull: map<string, Id>, log: seq<Event>, key: string, id: Id)
    requires HoldersOk(byFull, log)
    ensures HoldersOk(byFull[key := id], log + [Filing(key, id)])
  {
    forall k
      ensures Holder(log + [Filing(key, id)], k) == if k == key then Some(id) else Holder(log, k)
    {
      HolderSnoc(log, Filing(key, id), k);
    }
  }

  lemma TakeHolders(byFull: map<string, Id>, log: seq<Event>, key: string, id: Id)
    requires HoldersOk(byFull, log)
    ensures HoldersOk(byFull - {key}, log + [Removal(key, id)])
  {
    forall k
      ensures Holder(log + [Removal(key, id)], k) == if k == key then None else Holder(log, k)
    {
      HolderSnoc(log, Removal(key, id), k);
    }
  }

  /** Another session's log facts survive an event of `e.id`. */
  lemma OtherFits(log: seq<Event>, e: Event, id: Id, c: Conn)
    requires LogFits(log, id, c) && e.id != id
    ensures LogFits(log + [e], id, c)
  {
    LastFiledSnoc(log, e, id);
    LastEventSnoc(log, e, id);
  }

  lemma EventLog(log: seq<Event>, conns: map<Id, Conn>, e: Event, c: Conn)
    requires LogOk(log, conns) && e.id in conns && LogFits(log + [e], e.id, c)
    ensures LogOk(log + [e], conns[e.id := c])
  {
    forall k | k in conns && k != e.id
      ensures LogFits(log + [e], k, conns[k])
    {
      OtherFits(log, e, k, conns[k]);
    }
  }

  lemma FilingFits(log: seq<Event>, id: Id, c: Conn, c': Conn)
    requires LogFits(log, id, c) && c.phase != Ended && c'.remote == c.remote && c'.phase != Ended
    ensures LogFits(log + [Filing(c.remote.String(), id)], id, c')
  {
    LastFiledSnoc(log, Filing(c.remote.String(), id), id);
  }

  lemma PutEntries(byFull: map<string, Id>, conns: map<Id, Conn>, key: string, id: Id, c: Conn)
    requires EntriesOk(byFull, conns) && id in conns && conns[id].bound <= c.bound && key in c.bound
    ensures EntriesOk(byFull[key := id], conns[id := c])
  {
  }

  lemma TakeEntries(byFull: map<string, Id>, conns: map<Id, Conn>, key: string, id: Id, c: Conn)
    requires EntriesOk(byFull, conns) && id in conns && c.bound == conns[id].bound
    ensures EntriesOk(byFull - {key}, conns[id := c])
  {
  }

  lemma RegisterStep(domain: string, w: World, id: Id)
    requires Ok(domain, w) && Enabled(w, BindRegister(id))
    ensures Ok(domain, After(domain, w, BindRegister(id)))
  {
    var c := w.conns[id];
    var key := c.remote.String();
    var c' := c.(phase := Serving, bound := c.bound + {key});
    RegisterOk(domain, c);
    RegisterKeeps(domain, w.router, c.remote, id);
    PutEntries(w.router.byFull, w.conns, key, id, c');
    PutHolders(w.router.byFull, w.log, key, id);
    FilingFits(w.log, id, c, c');
    EventLog(w.log, w.conns, Filing(key, id), c');
  }

  lemma EndOk(domain: string, c: Conn)
    requires ConnOk(domain, c) && c.phase.Serving?
    ensures ConnOk(domain, c.(phase := Ended))
  {
  }

  lemma EndStep(domain: string, w: World, id: Id)
    requires Ok(domain, w) && Enabled(w, End(id))
    ensures Ok(domain, After(domain, w, End(id)))
  {
    var c := w.conns[id];
    EndOk(domain, c);
    if AUTHENTICATED in c.flags {
      EndBound(domain, w, id);
    } else {
      assert w.log + [] == w.log;
      QuietKeeps(domain, w, id, c.(phase := Ended));
    }
  }

  lemma EndBound(domain: string, w: World, id: Id)
    requires Ok(domain, w) && Enabled(w, End(id)) && AUTHENTICATED in w.conns[id].flags
    requires ConnOk(domain, w.conns[id].(phase := Ended))
    ensures Ok(domain, After(domain, w, End(id)))
  {
    var c := w.conns[id];
    var key, c' := c.remote.String(), c.(phase := Ended);
    KeysOf(domain, c.remote);
    UnregisterKeeps(domain, w.router, c.remote);
    TakeEntries(w.router.byFull, w.conns, key, id, c');
    TakeHolders(w.router.byFull, w.log, key, id);
    LastEventSnoc(w.log, Removal(key, id), id);
    assert LogFits(w.log + [Removal(key, id)], id, c');
    EventLog(w.log, w.conns, Removal(key, id), c');
  }

  lemma OwnsKey(domain: string, c: Conn, key: string)
    requires ConnOk(domain, c) && key in c.bound
    ensures OwnKey(domain, c, key) && {AUTHENTICATED, BOUND, READY} <= c.flags
  {
    assert BOUND in c.flags;
  }

  lemma EntryIsOwn(domain: string, w: World, key: string)
    requires Ok(domain, w) && key in w.router.byFull
    ensures var id := w.router.byFull[key];
      id in w.conns && OwnKey(domain, w.conns[id], key) && {AUTHENTICATED, BOUND, READY} <= w.conns[id].flags
  {
    OwnsKey(domain, w.conns[w.router.byFull[key]], key);
  }

  /** A session that is not bound has an address without a resource, which the router does not know. */
  lemma UnboundUnknown(domain: string, w: World, id: Id)
    requires Ok(domain, w) && id in w.conns && w.conns[id].phase.Serving?
    requires AUTHENTICATED in w.conns[id].flags && BOUND !in w.conns[id].flags
    ensures w.conns[id].remote.String() !in w.router.byFull
  {
    var key := w.conns[id].remote.String();
    assert ConnOk(domain, w.conns[id]);
    KeysOf(domain, w.conns[id].remote);
    if key in w.router.byFull {
      EntryIsOwn(domain, w, key);
      assert false;
    }
  }

  /** The steps of one connection that leave the router alone. */
  lemma OwnStep(domain: string, w: World, step: Step)
    requires Ok(domain, w) && Enabled(w, step) && !step.BindRegister? && !step.End?
    ensures Ok(domain, After(domain, w, step))
  {
    if step.Open? {
      QuietKeeps(domain, w, step.id, NewConn(step.secure));
    } else {
      var c := w.conns[step.id];
      OwnOk(domain, c, step);
      QuietKeeps(domain, w, step.id, OwnAfter(domain, c, step));
    }
  }

  function OwnAfter(domain: string, c: Conn, step: Step): Conn
    requires step.StartTls? || step.Auth? || step.BindAddress? || step.BindMark?
  {
    match step
    case StartTls(_) => c.(flags := c.flags + {SECURE})
    case Auth(_, name, granted) => AfterAuth(domain, c, name, granted)
    case BindAddress(_, resource, drawn) => AfterBindAddress(domain, c, resource, drawn)
    case BindMark(_) => c.(flags := c.flags + {BOUND, READY}, phase := Marked)
  }

  lemma OwnOk(domain: string, c: Conn, step: Step)
    requires '/' !in domain && '@' !in domain && ConnOk(domain, c)
    requires step.StartTls? || step.Auth? || step.BindAddress? || step.BindMark?
    requires step.BindMark? ==> c.phase.Addressed?
    requires !step.BindMark? ==> c.phase.Serving?
    requires step.BindAddress? ==> step.drawn != ""
    ensures var c' := OwnAfter(domain, c, step);
      ConnOk(domain, c') && c'.bound == c.bound && (Settled(c') ==> Settled(c) && c'.remote == c.remote)
  {
    match step
    case StartTls(_) =>
    case Auth(_, name, granted) => AuthOk(domain, c, name, granted);
    case BindAddress(_, resource, drawn) => BindAddressOk(domain, c, resource, drawn);
    case BindMark(_) => MarkOk(domain, c);
  }

  lemma StepKeeps(domain: string, w: World, step: Step)
    requires Ok(domain, w) && Enabled(w, step)
    ensures Ok(domain, After(domain, w, step))
  {
    if step.BindRegister? {
      RegisterStep(domain, w, step.id);
    } else if step.End? {
      EndStep(domain, w, step.id);
    } else {
      OwnStep(domain, w, step);
    }
  }

  lemma {:induction false} RunKeeps(domain: string, w: World, steps: seq<Step>, w': World)
    requires Ok(domain, w) && Leads(domain, w, steps, w')
    ensures Ok(domain, w')
    decreases |steps|
  {
    if steps == [] {
    } else {
      StepKeeps(domain, w, steps[0]);
      RunKeeps(domain, After(domain, w, steps[0]), steps[1..], w');
    }
  }

  // ------------------------------------------------------------------------- who authenticated

  /** The step is a request of `id` with an accepted password, a name and an address that can be made of it. */
  predicate Grants(domain: string, step: Step, id: Id) {
    step.Auth? && step.id == id && step.granted && Trim(step.name) != "" && New(Trim(step.name), domain, "").Accepted?
  }

  predicate IsFirstGrant(domain: string, steps: seq<Step>, id: Id, i: nat) {
    i < |steps| && Grants(domain, steps[i], id) && forall k :: 0 <= k < i ==> !Grants(domain, steps[k], id)
  }

  predicate Known(w: World, id: Id) {
    id in w.conns && AUTHENTICATED in w.conns[id].flags
  }

  lemma GrantStep(domain: string, w: World, step: Step, id: Id)
    requires Enabled(w, step)
    ensures var w' := After(domain, w, step);
      && (Known(w', id) <==> Known(w, id) || Grants(domain, step, id))
      && (Known(w, id) ==> w'.conns[id].user == w.conns[id].user)
      && (!Known(w, id) && Grants(domain, step, id) ==> w'.conns[id].user == Trim(step.name))
  {
  }

  lemma FirstGrantLater(domain: string, steps: seq<Step>, id: Id, i: nat)
    requires steps != [] && !Grants(domain, steps[0], id) && IsFirstGrant(domain, steps, id, i)
    ensures i > 0 && IsFirstGrant(domain, steps[1..], id, i - 1)
  {
    assert forall k :: 0 < k < |steps| ==> steps[1..][k - 1] == steps[k];
  }

  lemma {:induction false} KnownStays(domain: string, w: World, steps: seq<Step>, w': World, id: Id)
    requires Leads(domain, w, steps, w') && Known(w, id)
    ensures Known(w', id) && w'.conns[id].user == w.conns[id].user
    decreases |steps|
  {
    if steps == [] {
    } else {
      GrantStep(domain, w, steps[0], id);
      KnownStays(domain, After(domain, w, steps[0]), steps[1..], w', id);
    }
  }

  lemma {:induction false} GrantRun(domain: string, w: World, steps: seq<Step>, w': World, id: Id)
    requires Leads(domain, w, steps, w') && !Known(w, id)
    ensures Known(w', id) <==> exists i: nat :: IsFirstGrant(domain, steps, id, i)
    ensures forall i: nat :: IsFirstGrant(domain, steps, id, i) ==> w'.conns[id].user == Trim(steps[i].name)
    decreases |steps|
  {
    if steps == [] {
    } else {
      var w1 := After(domain, w, steps[0]);
      GrantStep(domain, w, steps[0], id);
      if Grants(domain, steps[0], id) {
        KnownStays(domain, w1, steps[1..], w', id);
        assert IsFirstGrant(domain, steps, id, 0);
      } else {
        GrantRun(domain, w1, steps[1..], w', id);
        FirstGrants(domain, steps, id);
        forall i: nat | IsFirstGrant(domain, steps, id, i)
          ensures w'.conns[id].user == Trim(steps[i].name)
        {
          assert IsFirstGrant(domain, steps[1..], id, i - 1);
        }
      }
    }
  }

  lemma FirstGrants(domain: string, steps: seq<Step>, id: Id)
    requires steps != [] && !Grants(domain, steps[0], id)
    ensures forall i: nat :: IsFirstGrant(domain, steps, id, i) ==> i > 0 && IsFirstGrant(domain, steps[1..], id, i - 1)
    ensures forall i: nat :: IsFirstGrant(domain, steps[1..], id, i) ==> IsFirstGrant(domain, steps, id, i + 1)
  {
    forall i: nat | IsFirstGrant(domain, steps, id, i)
      ensures i > 0 && IsFirstGrant(domain, steps[1..], id, i - 1)
    {
      FirstGrantLater(domain, steps, id, i);
    }
    assert forall k :: 0 < k < |steps| ==> steps[1..][k - 1] == steps[k];
  }

  lemma {:induction false} FirstOf(domain: string, steps: seq<Step>, id: Id, j: nat) returns (i: nat)
    requires j < |steps| && Grants(domain, steps[j], id)
    ensures i <= j && IsFirstGrant(domain, steps, id, i)
    decreases j
  {
    if k: nat :| k < j && Grants(domain, steps[k], id) {
      i := FirstOf(domain, steps, id, k);
    } else {
      i := j;
    }
  }

  /**
    In every interleaving a connection is authenticated exactly when some request of it had
    its password accepted, for a name that is not blank and makes an address; the first such
    request names its user for good.
   */
  lemma AuthTheorem(domain: string, steps: seq<Step>, w: World, id: Id)
    requires Leads(domain, INITIAL, steps, w) && id in w.conns
    ensures AUTHENTICATED in w.conns[id].flags <==> exists j :: 0 <= j < |steps| && Grants(domain, steps[j], id)
    ensures forall i: nat :: IsFirstGrant(domain, steps, id, i) ==> w.conns[id].user == Trim(steps[i].name)
  {
    GrantRun(domain, INITIAL, steps, w, id);
    if j :| 0 <= j < |steps| && Grants(domain, steps[j], id) {
      var i := FirstOf(domain, steps, id, j);
    }
  }

  /** A request that does not grant, or comes after one that did, leaves everything as it was. */
  lemma RefusedAuth(domain: string, w: World, step: Step)
    requires Enabled(w, step) && step.Auth? && (!Grants(domain, step, step.id) || Known(w, step.id))
    ensures After(domain, w, step) == w
  {
    assert w.conns[step.id := w.conns[step.id]] == w.conns;
  }

  /** The step makes the connection of `id` secure. */
  predicate Secures(step: Step, id: Id) {
    step == Open(id, true) || step == StartTls(id)
  }

  lemma SecureStep(domain: string, w: World, step: Step, id: Id)
    requires Enabled(w, step)
    ensures var w' := After(domain, w, step);
      id in w'.conns && SECURE in w'.conns[id].flags <==> (id in w.conns && SECURE in w.conns[id].flags) || Secures(step, id)
  {
  }

  lemma {:induction false} SecureRun(domain: string, w: World, steps: seq<Step>, w': World, id: Id)
    requires Leads(domain, w, steps, w')
    ensures id in w'.conns && SECURE in w'.conns[id].flags <==>
      (id in w.conns && SECURE in w.conns[id].flags) || exists i :: 0 <= i < |steps| && Secures(steps[i], id)
    decreases |steps|
  {
    if steps == [] {
    } else {
      SecureStep(domain, w, steps[0], id);
      SecureRun(domain, After(domain, w, steps[0]), steps[1..], w', id);
      assert forall k :: 0 < k < |steps| ==> steps[1..][k - 1] == steps[k];
    }
  }

  /** In every interleaving a connection is marked secure exactly when it was opened so or upgraded. */
  lemma SecureTheorem(domain: string, steps: seq<Step>, w: World, id: Id)
    requires Leads(domain, INITIAL, steps, w) && id in w.conns
    ensures SECURE in w.conns[id].flags <==> exists i :: 0 <= i < |steps| && Secures(steps[i], id)
  {
    SecureRun(domain, INITIAL, steps, w, id);
  }

  // ---------------------------------------------------------------------------- the theorems

  /** In every interleaving the second index is the first one grouped by bare address. */
  lemma IndexTheorem(domain: string, steps: seq<Step>, w: World)
    requires '/' !in domain && '@' !in domain && Leads(domain, INITIAL, steps, w)
    ensures forall bare :: GroupOf(w.router, bare) == Grouping(w.router.byFull, bare)
    ensures forall bare :: bare in w.router.byBare ==> w.router.byBare[bare] != map[]
  {
    RunKeeps(domain, INITIAL, steps, w);
  }

  /**
    In every interleaving a stanza reaches only sessions that are authenticated, bound
    and ready, and only those of the user that its printed address names; that is the
    address itself exactly when it prints unambiguously. That user's password was accepted
    on the session, by request `i` of the run, the first accepted there.
   */
  lemma TargetsTheorem(domain: string, steps: seq<Step>, w: World, to: Jid, id: Id) returns (i: nat)
    requires '/' !in domain && '@' !in domain && Leads(domain, INITIAL, steps, w)
    requires Made(to) && id in Reached(w.router, to)
    ensures id in w.conns && {AUTHENTICATED, BOUND, READY} <= w.conns[id].flags
    ensures BareText(to.String()) == Jid(w.conns[id].user, domain, "").String()
    ensures to.Bare() == Jid(w.conns[id].user, domain, "") <==> Separable(to)
    ensures IsFirstGrant(domain, steps, id, i) && BareText(to.String()) == Jid(Trim(steps[i].name), domain, "").String()
  {
    RunKeeps(domain, INITIAL, steps, w);
    var key := FiledUnder(w.router, to, id);
    EntryIsOwn(domain, w, key);
    if Separable(to) {
      SameBare(domain, w.conns[id], to);
    }
    GrantRun(domain, INITIAL, steps, w, id);
    i :| IsFirstGrant(domain, steps, id, i);
  }

  /** In every interleaving a bare address reaches exactly the sessions that hold an address of that user. */
  lemma BareTheorem(domain: string, steps: seq<Step>, w: World, to: Jid, id: Id)
    requires '/' !in domain && '@' !in domain && Leads(domain, INITIAL, steps, w)
    requires Made(to) && !to.IsFull()
    ensures id in Reached(w.router, to) <==> exists key :: Holder(w.log, key) == Some(id) && BareText(key) == to.String()
  {
    RunKeeps(domain, INITIAL, steps, w);
    BareReached(w.router, w.log, to, id);
  }

  lemma BareReached(r: Router, log: seq<Event>, to: Jid, id: Id)
    requires Grouped(r) && HoldersOk(r.byFull, log) && Made(to) && !to.IsFull()
    ensures id in Reached(r, to) <==> exists key :: Holder(log, key) == Some(id) && BareText(key) == to.String()
  {
    var bare := to.String();
    assert to.Bare() == to && GroupOf(r, bare) == Grouping(r.byFull, bare);
    if key :| Holder(log, key) == Some(id) && BareText(key) == bare {
      assert key in r.byFull;
      assert key in Grouping(r.byFull, bare);
    }
  }

  lemma FiledUnder(r: Router, to: Jid, id: Id) returns (key: string)
    requires Grouped(r) && id in Reached(r, to)
    ensures key in r.byFull && r.byFull[key] == id && BareText(key) == BareText(to.String())
  {
    if to.IsFull() {
      key := to.String();
    } else {
      var bare := to.Bare().String();
      key :| key in GroupOf(r, bare) && GroupOf(r, bare)[key] == id;
      assert key in Grouping(r.byFull, bare);
      assert '/' !in bare;
      assert bare[..|bare|] == bare;
    }
  }

  lemma SameBare(domain: string, c: Conn, to: Jid)
    requires ConnOk(domain, c) && AUTHENTICATED in c.flags && Made(to) && Separable(to)
    requires BareText(to.String()) == Home(domain, c).String()
    ensures to.Bare() == Home(domain, c)
  {
    BareTextOf(to);
    BareMade(to);
    BareMade(c.remote);
    StringInjective(to.Bare(), c.remote.Bare());
  }

  lemma BareMade(j: Jid)
    requires Made(j)
    ensures Made(j.Bare())
  {
  }

  /** In every interleaving the end of a session that has not bound changes neither index. */
  lemma UnboundEndTheorem(domain: string, steps: seq<Step>, w: World, id: Id)
    requires '/' !in domain && '@' !in domain && Leads(domain, INITIAL, steps, w)
    requires Enabled(w, End(id)) && BOUND !in w.conns[id].flags
    ensures After(domain, w, End(id)).router == w.router
  {
    RunKeeps(domain, INITIAL, steps, w);
    if AUTHENTICATED in w.conns[id].flags {
      UnboundUnknown(domain, w, id);
      UnregisterKeeps(domain, w.router, w.conns[id].remote);
    }
  }

  /** The last time that a session filed an address. */
  predicate IsLastFiling(log: seq<Event>, id: Id, i: nat) {
    && i < |log| && log[i].Filing? && log[i].id == id
    && forall j :: i < j < |log| && log[j].id == id ==> log[j].Removal?
  }

  lemma {:induction false} FilingOf(log: seq<Event>, id: Id) returns (i: nat)
    requires LastFiled(log, id).Some?
    ensures IsLastFiling(log, id, i) && log[i].key == LastFiled(log, id).value
    decreases |log|
  {
    var n := |log| - 1;
    if log[n].Filing? && log[n].id == id {
      i := n;
    } else {
      i := FilingOf(log[..n], id);
    }
  }

  /** Nothing was done to the address after event `i`. */
  predicate Untouched(log: seq<Event>, i: nat)
    requires i < |log|
  {
    forall j :: i < j < |log| ==> log[j].key != log[i].key
  }

  lemma {:induction false} HolderSince(log: seq<Event>, i: nat)
    requires i < |log| && log[i].Filing?
    requires forall j :: i < j < |log| ==> log[j].id != log[i].id
    ensures Holder(log, log[i].key) == Some(log[i].id) <==> Untouched(log, i)
    decreases |log|
  {
    var n := |log| - 1;
    if i >= n {
    } else {
      HolderSince(log[..n], i);
      assert Untouched(log[..n], i) && log[n].key != log[i].key <==> Untouched(log, i);
    }
  }

  /**
    In every interleaving a settled session is reached at its address exactly when,
    since it last filed that address, no other session filed or removed it.
   */
  lemma ReachableTheorem(domain: string, steps: seq<Step>, w: World, id: Id) returns (i: nat)
    requires '/' !in domain && '@' !in domain && Leads(domain, INITIAL, steps, w)
    requires id in w.conns && Settled(w.conns[id])
    ensures IsLastFiling(w.log, id, i) && w.log[i].key == w.conns[id].remote.String()
    ensures Reached(w.router, w.conns[id].remote) == {id} <==>
      forall j :: i < j < |w.log| && w.log[j].key == w.log[i].key ==> w.log[j].id == id
  {
    RunKeeps(domain, INITIAL, steps, w);
    assert ConnOk(domain, w.conns[id]) && LogFits(w.log, id, w.conns[id]);
    i := ReachedSince(w.router, w.log, id, w.conns[id]);
  }

  lemma ReachedSince(r: Router, log: seq<Event>, id: Id, c: Conn) returns (i: nat)
    requires HoldersOk(r.byFull, log) && LogFits(log, id, c) && Settled(c) && Made(c.remote) && c.remote.resource != ""
    ensures IsLastFiling(log, id, i) && log[i].key == c.remote.String()
    ensures Reached(r, c.remote) == {id} <==> forall j :: i < j < |log| && log[j].key == log[i].key ==> log[j].id == id
  {
    i := FilingOf(log, id);
    HolderSince(log, i);
    var key := c.remote.String();
    assert key in r.byFull <==> Holder(log, key).Some?;
    ReachedOnly(r, c.remote, id);
  }

  lemma ReachedOnly(r: Router, to: Jid, id: Id)
    requires Made(to) && to.resource != ""
    ensures Reached(r, to) == {id} <==> to.String() in r.byFull && r.byFull[to.String()] == id
  {
    MadeIsPlain(to);
    if Reached(r, to) == {id} {
      assert id in Reached(r, to);
    }
  }

  lemma {:induction false} LastEventAt(log: seq<Event>, id: Id) returns (i: nat)
    requires LastEvent(log, id).Some?
    ensures i < |log| && log[i] == LastEvent(log, id).value && forall j :: i < j < |log| ==> log[j].id != id
    decreases |log|
  {
    var n := |log| - 1;
    if log[n].id == id {
      i := n;
    } else {
      i := LastEventAt(log[..n], id);
    }
  }

  lemma {:induction false} HolderAt(log: seq<Event>, key: string) returns (i: nat)
    requires Holder(log, key).Some?
    ensures i < |log| && log[i] == Filing(key, Holder(log, key).value) && forall j :: i < j < |log| ==> log[j].key != key
    decreases |log|
  {
    var n := |log| - 1;
    if log[n].key == key {
      i := n;
    } else {
      i := HolderAt(log[..n], key);
    }
  }

  predicate HasRemoved(log: seq<Event>, id: Id) {
    exists i :: 0 <= i < |log| && log[i].id == id && log[i].Removal?
  }

  lemma EndedHolder(log: seq<Event>, key: string, id: Id, c: Conn)
    requires LogFits(log, id, c) && Holder(log, key) == Some(id) && AUTHENTICATED in c.flags
    ensures c.phase == Ended <==> HasRemoved(log, id)
    ensures c.phase == Ended ==> c.remote.String() != key
  {
    if c.phase == Ended {
      var r := LastEventAt(log, id);
      var f := HolderAt(log, key);
    }
  }

  /**
    In every interleaving the holder of an entry has ended exactly when it has removed an
    address, and then that was another one: it bound this address first and another later.
   */
  lemma StaleEntryTheorem(domain: string, steps: seq<Step>, w: World, key: string)
    requires '/' !in domain && '@' !in domain && Leads(domain, INITIAL, steps, w) && key in w.router.byFull
    ensures var id := w.router.byFull[key];
      && id in w.conns && key in w.conns[id].bound
      && (w.conns[id].phase == Ended <==> HasRemoved(w.log, id))
      && (w.conns[id].phase == Ended ==> w.conns[id].remote.String() != key && w.conns[id].remote.String() in w.conns[id].bound)
  {
    RunKeeps(domain, INITIAL, steps, w);
    var id := w.router.byFull[key];
    EntryIsOwn(domain, w, key);
    assert ConnOk(domain, w.conns[id]) && LogFits(w.log, id, w.conns[id]);
    assert Holder(w.log, key) == Some(id);
    EndedHolder(w.log, key, id, w.conns[id]);
  }

  /**
    Ending a bound session takes its address out of the router whoever holds it, so
    another session is cut off exactly when it has the same address.
   */
  lemma EndTheorem(domain: string, steps: seq<Step>, w: World, id: Id, other: Id)
    requires '/' !in domain && '@' !in domain && Leads(domain, INITIAL, steps, w)
    requires Enabled(w, End(id)) && other in w.conns && other != id && Settled(w.conns[other])
    ensures other in Reached(After(domain, w, End(id)).router, w.conns[other].remote) <==>
      other in Reached(w.router, w.conns[other].remote) && w.conns[id].remote != w.conns[other].remote
  {
    RunKeeps(domain, INITIAL, steps, w);
    EndReaches(domain, w.router, w.conns[id], w.conns[other], other);
  }

  lemma EndReaches(domain: string, r: Router, a: Conn, b: Conn, other: Id)
    requires Grouped(r) && ConnOk(domain, a) && ConnOk(domain, b) && Settled(b)
    ensures other in Reached(Unregistered(r, a.remote), b.remote) <==> other in Reached(r, b.remote) && a.remote != b.remote
  {
    ReachedFull(r, b.remote, other);
    ReachedFull(Unregistered(r, a.remote), b.remote, other);
    if AUTHENTICATED in a.flags {
      UnregisterKeeps(domain, r, a.remote);
      SameText(domain, a.remote, b.remote);
    }
  }

  lemma ReachedFull(r: Router, to: Jid, id: Id)
    requires Made(to) && to.resource != ""
    ensures id in Reached(r, to) <==> to.String() in r.byFull && r.byFull[to.String()] == id
  {
    MadeIsPlain(to);
  }

  lemma SameText(domain: string, a: Jid, b: Jid)
    requires Served(domain, a) && Served(domain, b)
    ensures a.String() == b.String() <==> a == b
  {
    if a.String() == b.String() {
      StringInjective(a, b);
    }
  }

  // ------------------------------------------------------------- a session that is cut off

  lemma {:induction false} LeadsOn(domain: string, w: World, steps: seq<Step>, v: World, more: seq<Step>, w': World)
    requires Leads(domain, w, steps, v) && Leads(domain, v, more, w')
    ensures Leads(domain, w, steps + more, w')
    decreases |steps|
  {
    if steps == [] {
      assert steps + more == more;
    } else {
      assert (steps + more)[1..] == steps[1..] + more;
      LeadsOn(domain, After(domain, w, steps[0]), steps[1..], v, more, w');
    }
  }

  lemma LeadsThen(domain: string, w: World, steps: seq<Step>, v: World, step: Step)
    requires Leads(domain, w, steps, v) && Enabled(v, step)
    ensures Leads(domain, w, steps + [step], After(domain, v, step))
  {
    var w' := After(domain, v, step);
    assert Leads(domain, w', [step][1..], w');
    LeadsOn(domain, w, steps, v, [step], w');
  }

  /** A new connection authenticates and binds an address. */
  lemma Joins(domain: string, w: World, id: Id, full: Jid) returns (steps: seq<Step>, w': World)
    requires id !in w.conns && Made(full) && full.domain == domain
    requires full.local != "" && full.resource != "" && Trim(full.local) == full.local && Trim(full.resource) == full.resource
    ensures Leads(domain, w, steps, w')
    ensures w'.conns.Keys == w.conns.Keys + {id} && Settled(w'.conns[id]) && w'.conns[id].remote == full
    ensures forall k :: k in w.conns ==> w'.conns[k] == w.conns[k]
    ensures w'.log == w.log + [Filing(full.String(), id)]
  {
    BareMade(full);
    var w1 := After(domain, w, Open(id, false));
    var w2 := After(domain, w1, Auth(id, full.local, true));
    var w3 := After(domain, w2, BindAddress(id, full.resource, "roster"));
    var w4 := After(domain, w3, BindMark(id));
    w' := After(domain, w4, BindRegister(id));
    LeadsThen(domain, w, [], w, Open(id, false));
    LeadsThen(domain, w, [] + [Open(id, false)], w1, Auth(id, full.local, true));
    steps := [] + [Open(id, false)] + [Auth(id, full.local, true)];
    LeadsThen(domain, w, steps, w2, BindAddress(id, full.resource, "roster"));
    steps := steps + [BindAddress(id, full.resource, "roster")];
    LeadsThen(domain, w, steps, w3, BindMark(id));
    steps := steps + [BindMark(id)];
    LeadsThen(domain, w, steps, w4, BindRegister(id));
    steps := steps + [BindRegister(id)];
  }

  /** A run in which a session takes over an address and is cut off when the first holder ends. */
  lemma TakeoverRun(domain: string, full: Jid) returns (steps: seq<Step>, w: World)
    requires '/' !in domain && '@' !in domain && Made(full) && full.domain == domain
    requires full.local != "" && full.resource != "" && Trim(full.local) == full.local && Trim(full.resource) == full.resource
    ensures Leads(domain, INITIAL, steps, w)
    ensures 1 in w.conns && Settled(w.conns[1]) && w.conns[1].remote == full && 1 !in Reached(w.router, full)
  {
    var one, w1 := Joins(domain, INITIAL, 0, full);
    var two, w2 := Joins(domain, w1, 1, full);
    LeadsOn(domain, INITIAL, one, w1, two, w2);
    EndTheorem(domain, one + two, w2, 0, 1);
    w := After(domain, w2, End(0));
    LeadsThen(domain, INITIAL, one + two, w2, End(0));
    steps := one + two + [End(0)];
  }

  /** A run in which a user reconnects under the address of an ended session and is reached. */
  lemma ReconnectRun(domain: string, full: Jid) returns (steps: seq<Step>, w: World)
    requires '/' !in domain && '@' !in domain && Made(full) && full.domain == domain
    requires full.local != "" && full.resource != "" && Trim(full.local) == full.local && Trim(full.resource) == full.resource
    ensures Leads(domain, INITIAL, steps, w)
    ensures 0 in w.conns && w.conns[0].phase == Ended && w.conns[0].remote == full
    ensures 1 in w.conns && w.conns[1].remote == full && Reached(w.router, full) == {1}
  {
    var one, w1 := Joins(domain, INITIAL, 0, full);
    LeadsThen(domain, INITIAL, one, w1, End(0));
    var w2 := After(domain, w1, End(0));
    var two, w3 := Joins(domain, w2, 1, full);
    LeadsOn(domain, INITIAL, one + [End(0)], w2, two, w3);
    steps, w := one + [End(0)] + two, w3;
    var i := ReachableTheorem(domain, steps, w, 1);
    assert i == |w.log| - 1 by {
      assert w.log[|w.log| - 1] == Filing(full.String(), 1);
    }
  }
}
