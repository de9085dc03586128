/**
  Two devices in conversation through their managers: envelopes written for any number
  of recipients, read in any order or lost, among any other calls of the two managers
  and restarts. Every call of a manager moves its session as a step of the two ratchets
  or leaves it alone, so the delivery theorem speaks of envelopes.
 */
module OmemoConversation {
  import opened Wrappers
  import opened Words
  import opened Octets
  import opened DoubleRatchet
  import opened RatchetCodec
  import opened RatchetHistory
  import opened RatchetDelivery
  import opened RatchetWorld
  import opened RatchetRuns
  import opened X3dh
  import opened OmemoSession
  import opened OmemoManager
  import opened OmemoDelivery

  /** Under which addresses the two devices know each other. */
  datatype Names = Names(alice: Address, bob: Address)

  function NameOf(n: Names, p: Role): Address {
    if p.Alice? then n.alice else n.bob
  }

  /** An envelope, with the plaintext and the key it was made from. */
  datatype Mail = Mail(plain: Bytes, messageKey: Bytes, msg: EncryptedMessage)

  datatype Talk = Talk(alice: Device, bob: Device, w: World, mail: map<MessageId, Mail>)

  function DeviceOf(t: Talk, p: Role): Device {
    if p.Alice? then t.alice else t.bob
  }

  function WithDevice(t: Talk, p: Role, v: Device): Talk {
    if p.Alice? then t.(alice := v) else t.(bob := v)
  }

  datatype TalkStep =
    | Write(p: Role, e: nat, plain: Bytes, recipients: seq<Address>, messageKey: Bytes, iv: Bytes, draws: seq<Draws>, k: nat)
    | Peruse(p: Role, m: MessageId, drawn: Bytes)
    | Drop(m: MessageId)
    | Aside(p: Role, call: ManagerCall)
    | Reopen(p: Role)

  function Material(messageKey: Bytes, iv: Bytes, plain: Bytes): Bytes {
    KeyMaterial(messageKey, Seal(messageKey, iv, plain))
  }

  /** The steps that are about the session of the pair. */
  predicate Between(step: TalkStep) {
    step.Write? || step.Peruse? || step.Drop?
  }

  /** The ratchet step that a step of the conversation is. */
  function RatchetStep(step: TalkStep): Step
    requires Between(step) && (step.Write? ==> step.k < |step.draws|)
  {
    match step
    case Write(p, e, plain, _, messageKey, iv, draws, k) => Send(p, e, Material(messageKey, iv, plain), draws[k].nonce)
    case Peruse(p, m, drawn) => Receive(p, m, drawn)
    case Drop(m) => Lose(m)
  }

  ghost predicate CanWrite(n: Names, t: Talk, step: TalkStep)
    requires step.Write?
  {
    && |step.recipients| == |step.draws| && DistinctDevices(step.recipients) && step.k < |step.recipients|
    && step.recipients[step.k] == NameOf(n, Other(step.p))
    && |step.messageKey| == 32 && |step.iv| == AES_NONCE_SIZE
    && EncryptMessage(DeviceOf(t, step.p), step.plain, step.recipients, step.messageKey, step.iv, step.draws).1.Ok?
  }

  /** A call of a device that does not use its session with `peer`: it succeeds or fails. */
  predicate Apart(v: Device, peer: Address, c: ManagerCall) {
    match c
    case Encrypting(_, recipients, _, _, draws) => |recipients| == |draws| && peer !in recipients
    case Decrypting(sender, msg, _) => sender != peer || OurKey(msg.keys, v.deviceId).None?
    case DecryptingFirst(sender, _, _, _, _, _, _) => sender != peer
    case Processing(_, _) => true
  }

  /** The store has the session with `peer` as the memory has it. */
  predicate SavedFor(v: Device, peer: Address) {
    peer in v.saved && v.saved[peer].Ok? && FindSession(v, peer) == Some(v.saved[peer].value)
  }

  ghost predicate CanTake(n: Names, t: Talk, step: TalkStep) {
    && (step.Write? ==> CanWrite(n, t, step))
    && (step.Peruse? ==> step.m in t.mail)
    && (step.Aside? ==> Apart(DeviceOf(t, step.p), NameOf(n, Other(step.p)), step.call))
    && (step.Reopen? ==> SavedFor(DeviceOf(t, step.p), NameOf(n, Other(step.p))))
    && (Between(step) ==> Enabled(t.w, RatchetStep(step)))
  }

  ghost function Taken(n: Names, t: Talk, step: TalkStep): Talk
    requires CanTake(n, t, step)
  {
    var t1 := if Between(step) then t.(w := After(t.w, RatchetStep(step))) else t;
    match step
    case Write(p, e, plain, recipients, messageKey, iv, draws, _) =>
      var (v, msg) := EncryptMessage(DeviceOf(t, p), plain, recipients, messageKey, iv, draws);
      WithDevice(t1, p, v).(mail := t.mail[Id(e, |t.w.past.sent[e]|) := Mail(plain, messageKey, msg.value)])
    case Peruse(p, m, drawn) =>
      WithDevice(t1, p, DecryptMessage(DeviceOf(t, p), NameOf(n, Other(p)), t.mail[m].msg, drawn).0)
    case Drop(_) => t1
    case Aside(p, call) => WithDevice(t, p, Perform(DeviceOf(t, p), call).0)
    case Reopen(p) => WithDevice(t, p, Restart(DeviceOf(t, p)))
  }

  ghost predicate Goes(n: Names, t: Talk, steps: seq<TalkStep>, t': Talk)
    decreases |steps|
  {
    if steps == [] then t == t'
    else CanTake(n, t, steps[0]) && Goes(n, Taken(n, t, steps[0]), steps[1..], t')
  }

  // ---------------------------------------------------------------------------- the invariant

  /** Envelope `x`, for the device `id`, carries the ratchet message `sent`. */
  predicate Carries(x: Mail, sent: Message, id: uint32) {
    && |x.messageKey| == 32 && |x.msg.iv| == AES_NONCE_SIZE
    && sent.plain == Material(x.messageKey, x.msg.iv, x.plain)
    && x.msg.payload == Seal(x.messageKey, x.msg.iv, x.plain)[..|x.plain|]
    && EncodeHeader(sent.header).Ok?
    && OurKey(x.msg.keys, id).Some?
    && OurKey(x.msg.keys, id).value.data == EncodeHeader(sent.header).value + sent.data
  }

  /** The device of a side, with the session it has for the other. */
  predicate Holds(n: Names, v: Device, p: Role, s: Ratchet) {
    && v.deviceId == NameOf(n, p).deviceId
    && FindSession(v, NameOf(n, Other(p))).Some?
    && FindSession(v, NameOf(n, Other(p))).value.ratchet == s
  }

  /** The envelope names the device of the side that wrote it. */
  predicate Named(n: Names, x: Mail, from: Role) {
    x.msg.senderDeviceId == NameOf(n, from).deviceId
  }

  ghost predicate MailOk(n: Names, sent: seq<seq<Message>>, mail: map<MessageId, Mail>) {
    forall m: MessageId :: m.epoch < |sent| && m.num < |sent[m.epoch]| ==>
      m in mail && Named(n, mail[m], sent[m.epoch][m.num].from)
      && Carries(mail[m], sent[m.epoch][m.num], NameOf(n, Other(sent[m.epoch][m.num].from)).deviceId)
  }

  ghost predicate TalkOk(n: Names, t: Talk) {
    && Reachable(t.w)
    && Holds(n, t.alice, Alice, t.w.alice)
    && Holds(n, t.bob, Bob, t.w.bob)
    && MailOk(n, t.w.past.sent, t.mail)
  }

  // ------------------------------------------------------------------------------- writing

  lemma EncryptToFinds(v: Device, addr: Address, material: Bytes, d: Draws, other: Address)
    requires addr != other
    ensures FindSession(EncryptTo(v, addr, material, d).0, other) == FindSession(v, other)
  {
    GetKeepsOthers(v, addr, d, other);
    var (v1, found) := GetOrCreateSession(v, addr, d);
    if found.Ok? {
      var s := SessionEncrypt(found.value, material, d.nonce).0;
      FindCached(v1, addr, s, other);
      FindCached(Cache(v1, addr, s), addr, s, other);
    }
  }

  /** The session with `addr`, found or made, has moved from `v` to `v'` by one encryption. */
  predicate Moved(v: Device, v': Device, addr: Address, material: Bytes, d: Draws) {
    && GetOrCreateSession(v, addr, d).1.Ok?
    && FindSession(v', addr) == Some(SessionEncrypt(GetOrCreateSession(v, addr, d).1.value, material, d.nonce).0)
  }

  lemma EncryptToMoves(v: Device, addr: Address, material: Bytes, d: Draws)
    requires EncryptTo(v, addr, material, d).1.Ok?
    ensures Moved(v, EncryptTo(v, addr, material, d).0, addr, material, d)
  {
  }

  lemma LastDevice(v: Device, recipients: seq<Address>, material: Bytes, draws: seq<Draws>)
    requires |recipients| == |draws| > 0 && EncryptAll(v, recipients, material, draws).1.Ok?
    ensures var n := |recipients| - 1;
      var v1 := EncryptAll(v, recipients[..n], material, draws[..n]);
      && v1.1.Ok? && EncryptTo(v1.0, recipients[n], material, draws[n]).1.Ok?
      && EncryptAll(v, recipients, material, draws).0 == EncryptTo(v1.0, recipients[n], material, draws[n]).0
  {
  }

  lemma MovesNow(v: Device, v1: Device, addr: Address, material: Bytes, d: Draws)
    requires GetOrCreateSession(v1, addr, d).1 == GetOrCreateSession(v, addr, d).1
    requires EncryptTo(v1, addr, material, d).1.Ok?
    ensures Moved(v, EncryptTo(v1, addr, material, d).0, addr, material, d)
  {
    EncryptToMoves(v1, addr, material, d);
  }

  lemma MovedStays(v: Device, v1: Device, addr: Address, material: Bytes, d: Draws, other: Address, d': Draws)
    requires Moved(v, v1, addr, material, d) && other != addr
    ensures Moved(v, EncryptTo(v1, other, material, d').0, addr, material, d)
  {
    EncryptToFinds(v1, other, material, d', addr);
  }

  /** The session with one recipient among many moves by one encryption. */
  lemma {:induction false} OneMoves(v: Device, recipients: seq<Address>, material: Bytes, draws: seq<Draws>, k: nat)
    requires |recipients| == |draws| && DistinctDevices(recipients) && k < |recipients|
    requires EncryptAll(v, recipients, material, draws).1.Ok?
    ensures Moved(v, EncryptAll(v, recipients, material, draws).0, recipients[k], material, draws[k])
    decreases |recipients|
  {
    var n := |recipients| - 1;
    var before, drawn := recipients[..n], draws[..n];
    DistinctFront(recipients);
    LastDevice(v, recipients, material, draws);
    var v1 := EncryptAll(v, before, material, drawn).0;
    if k == n {
      LastMoves(v, before, material, drawn, recipients[n], draws[n]);
    } else {
      OneMoves(v, before, material, drawn, k);
      MovedStays(v, v1, recipients[k], material, draws[k], recipients[n], draws[n]);
    }
  }

  lemma LastMoves(v: Device, before: seq<Address>, material: Bytes, drawn: seq<Draws>, addr: Address, d: Draws)
    requires |before| == |drawn| && addr !in before
    requires EncryptTo(EncryptAll(v, before, material, drawn).0, addr, material, d).1.Ok?
    ensures Moved(v, EncryptTo(EncryptAll(v, before, material, drawn).0, addr, material, d).0, addr, material, d)
  {
    EncryptAllOthers(v, before, material, drawn, addr, d);
    MovesNow(v, EncryptAll(v, before, material, drawn).0, addr, material, d);
  }

  lemma EncryptToKeepsId(v: Device, addr: Address, material: Bytes, d: Draws)
    ensures EncryptTo(v, addr, material, d).0.deviceId == v.deviceId
  {
  }

  lemma {:induction false} EncryptKeepsId(v: Device, recipients: seq<Address>, material: Bytes, draws: seq<Draws>)
    requires |recipients| == |draws|
    ensures EncryptAll(v, recipients, material, draws).0.deviceId == v.deviceId
    decreases |recipients|
  {
    if recipients == [] {
    } else {
      var n := |recipients| - 1;
      EncryptKeepsId(v, recipients[..n], material, draws[..n]);
      EncryptToKeepsId(EncryptAll(v, recipients[..n], material, draws[..n]).0, recipients[n], material, draws[n]);
    }
  }

  /** A device that writes holds the session that its ratchet moved to. */
  lemma WriterHolds(n: Names, v: Device, p: Role, plain: Bytes, recipients: seq<Address>, messageKey: Bytes, iv: Bytes,
                    draws: seq<Draws>, k: nat, s: Session)
    requires |recipients| == |draws| && DistinctDevices(recipients) && k < |recipients|
    requires recipients[k] == NameOf(n, Other(p)) && v.deviceId == NameOf(n, p).deviceId
    requires EncryptMessage(v, plain, recipients, messageKey, iv, draws).1.Ok?
    requires GetOrCreateSession(v, recipients[k], draws[k]).1 == Ok(s)
    ensures Holds(n, EncryptMessage(v, plain, recipients, messageKey, iv, draws).0, p,
                  Encrypt(s.ratchet, Material(messageKey, iv, plain), draws[k].nonce).0)
  {
    OneMoves(v, recipients, Material(messageKey, iv, plain), draws, k);
    EncryptKeepsId(v, recipients, Material(messageKey, iv, plain), draws);
  }

  lemma WriteHolds(n: Names, t: Talk, step: TalkStep)
    requires step.Write? && CanTake(n, t, step) && Holds(n, DeviceOf(t, step.p), step.p, StateOf(t.w, step.p))
    ensures Holds(n, DeviceOf(Taken(n, t, step), step.p), step.p, StateOf(After(t.w, RatchetStep(step)), step.p))
  {
    var v := DeviceOf(t, step.p);
    var s := FindSession(v, step.recipients[step.k]).value;
    WriterHolds(n, v, step.p, step.plain, step.recipients, step.messageKey, step.iv, step.draws, step.k, s);
  }

  /** The envelope carries what the ratchet sent. */
  lemma WriteCarries(v: Device, plain: Bytes, recipients: seq<Address>, messageKey: Bytes, iv: Bytes, draws: seq<Draws>, k: nat,
                     s: Session, sent: Message)
    requires |recipients| == |draws| && DistinctDevices(recipients) && k < |recipients|
    requires |messageKey| == 32 && |iv| == AES_NONCE_SIZE
    requires EncryptMessage(v, plain, recipients, messageKey, iv, draws).1.Ok?
    requires GetOrCreateSession(v, recipients[k], draws[k]).1 == Ok(s)
    requires (sent.header, sent.data) == (Encrypt(s.ratchet, Material(messageKey, iv, plain), draws[k].nonce).1,
                                          Encrypt(s.ratchet, Material(messageKey, iv, plain), draws[k].nonce).2)
    requires sent.plain == Material(messageKey, iv, plain)
    ensures Carries(Mail(plain, messageKey, EncryptMessage(v, plain, recipients, messageKey, iv, draws).1.value), sent,
                    recipients[k].deviceId)
  {
    FindsOwnKey(v, recipients, Material(messageKey, iv, plain), draws, k);
  }

  // ------------------------------------------------------------------------------- reading

  /** What a device answers to an envelope, and the session it has afterwards. */
  lemma ReadAnswer(v: Device, sender: Address, x: Mail, sent: Message, s: Session, drawn: Bytes)
    requires FindSession(v, sender) == Some(s) && Carries(x, sent, v.deviceId)
    ensures var (s', r) := Decrypt(s.ratchet, sent.header, sent.data, drawn);
      var (v', answer) := DecryptMessage(v, sender, x.msg, drawn);
      && v'.deviceId == v.deviceId
      && FindSession(v', sender).Some? && FindSession(v', sender).value.ratchet == s'
      && (r == Ok(sent.plain) ==> answer == Ok(x.plain))
      && (r.Err? ==> answer == Err(r.error))
  {
    var key := OurKey(x.msg.keys, v.deviceId).value;
    HeaderRoundTrip(sent.header);
    HeaderCut(EncodeHeader(sent.header).value, sent.data);
    PayloadOpens(x.messageKey, x.msg.iv, x.plain);
    OpenAnswer(v, sender, x, sent, s, key.data, drawn);
  }

  lemma HeaderCut(h: Bytes, data: Bytes)
    requires |h| == HEADER_SIZE
    ensures |h + data| >= HEADER_SIZE && (h + data)[..HEADER_SIZE] == h && (h + data)[HEADER_SIZE..] == data
  {
  }

  lemma OpenAnswer(v: Device, sender: Address, x: Mail, sent: Message, s: Session, data: Bytes, drawn: Bytes)
    requires |data| >= HEADER_SIZE && DecodeHeader(data[..HEADER_SIZE]) == Ok(sent.header) && data[HEADER_SIZE..] == sent.data
    requires OpenPayload(sent.plain, x.msg.iv, x.msg.payload) == Ok(x.plain)
    ensures var (s', r) := Decrypt(s.ratchet, sent.header, sent.data, drawn);
      var (v', answer) := OpenWith(v, sender, s, data, x.msg, drawn);
      && v'.deviceId == v.deviceId
      && FindSession(v', sender).Some? && FindSession(v', sender).value.ratchet == s'
      && (r == Ok(sent.plain) ==> answer == Ok(x.plain))
      && (r.Err? ==> answer == Err(r.error))
  {
  }

  // --------------------------------------------------------------------------- every run

  /** A step of the conversation is a step of the ratchets. */
  lemma StepReaches(n: Names, t: Talk, step: TalkStep)
    requires Between(step) && CanTake(n, t, step) && Reachable(t.w)
    ensures Reachable(Taken(n, t, step).w)
  {
    ReachesNext(t.w, RatchetStep(step));
  }

  lemma HeldSession(n: Names, t: Talk, p: Role)
    requires TalkOk(n, t)
    ensures Holds(n, DeviceOf(t, p), p, StateOf(t.w, p))
  {
  }

  /** What sending does to the world. */
  lemma SendPosts(w: World, send: Step)
    requires send.Send? && Enabled(w, send)
    ensures var (s, header, data) := Encrypt(StateOf(w, send.p), send.plain, send.nonce);
      && After(w, send).past.sent
         == w.past.sent[send.e := w.past.sent[send.e] + [Message(send.p, header, data, send.nonce, send.plain)]]
      && StateOf(After(w, send), Other(send.p)) == StateOf(w, Other(send.p))
  {
  }

  lemma MailGrows(n: Names, sent: seq<seq<Message>>, mail: map<MessageId, Mail>, e: nat, m: Message, x: Mail)
    requires MailOk(n, sent, mail) && e < |sent| && Carries(x, m, NameOf(n, Other(m.from)).deviceId) && Named(n, x, m.from)
    ensures MailOk(n, sent[e := sent[e] + [m]], mail[Id(e, |sent[e]|) := x])
  {
  }

  lemma WriteKeeps(n: Names, t: Talk, step: TalkStep)
    requires TalkOk(n, t) && step.Write? && CanTake(n, t, step)
    ensures TalkOk(n, Taken(n, t, step))
  {
    StepReaches(n, t, step);
    HeldSession(n, t, step.p);
    HeldSession(n, t, Other(step.p));
    WriteHolds(n, t, step);
    SendPosts(t.w, RatchetStep(step));
    WriteMail(n, t, step);
  }

  lemma WriteMail(n: Names, t: Talk, step: TalkStep)
    requires step.Write? && CanTake(n, t, step) && Holds(n, DeviceOf(t, step.p), step.p, StateOf(t.w, step.p))
    requires MailOk(n, t.w.past.sent, t.mail)
    ensures MailOk(n, Taken(n, t, step).w.past.sent, Taken(n, t, step).mail)
  {
    var p, v := step.p, DeviceOf(t, step.p);
    var material := Material(step.messageKey, step.iv, step.plain);
    var s := FindSession(v, step.recipients[step.k]).value;
    var (_, header, data) := Encrypt(s.ratchet, material, step.draws[step.k].nonce);
    var sent := Message(p, header, data, step.draws[step.k].nonce, material);
    var msg := EncryptMessage(v, step.plain, step.recipients, step.messageKey, step.iv, step.draws).1.value;
    SendPosts(t.w, RatchetStep(step));
    WriteCarries(v, step.plain, step.recipients, step.messageKey, step.iv, step.draws, step.k, s, sent);
    MailGrows(n, t.w.past.sent, t.mail, step.e, sent, Mail(step.plain, step.messageKey, msg));
  }

  lemma ReceivePosts(w: World, step: Step)
    requires step.Receive? && Enabled(w, step)
    ensures StateOf(After(w, step), step.p) == Answer(w, step).0
    ensures StateOf(After(w, step), Other(step.p)) == StateOf(w, Other(step.p))
    ensures After(w, step).past.sent == w.past.sent || After(w, step).past.sent == w.past.sent + [[]]
  {
  }

  lemma MailNextEpoch(n: Names, sent: seq<seq<Message>>, mail: map<MessageId, Mail>)
    requires MailOk(n, sent, mail)
    ensures MailOk(n, sent + [[]], mail)
  {
  }

  /** What reading an envelope answers, in terms of the ratchet. */
  lemma PeruseAnswer(n: Names, t: Talk, step: TalkStep)
    requires step.Peruse? && CanTake(n, t, step) && Holds(n, DeviceOf(t, step.p), step.p, StateOf(t.w, step.p))
    requires MailOk(n, t.w.past.sent, t.mail)
    ensures var x, sent := t.mail[step.m], t.w.past.sent[step.m.epoch][step.m.num];
      var (s', r) := Answer(t.w, Receive(step.p, step.m, step.drawn));
      var (v', answer) := DecryptMessage(DeviceOf(t, step.p), NameOf(n, Other(step.p)), x.msg, step.drawn);
      && Holds(n, v', step.p, s')
      && (r == Ok(sent.plain) ==> answer == Ok(x.plain))
      && (r.Err? ==> answer == Err(r.error))
  {
    var v, sender := DeviceOf(t, step.p), NameOf(n, Other(step.p));
    var x, sent := t.mail[step.m], t.w.past.sent[step.m.epoch][step.m.num];
    ReadAnswer(v, sender, x, sent, FindSession(v, sender).value, step.drawn);
  }

  lemma PeruseKeeps(n: Names, t: Talk, step: TalkStep)
    requires TalkOk(n, t) && step.Peruse? && CanTake(n, t, step)
    ensures TalkOk(n, Taken(n, t, step))
  {
    StepReaches(n, t, step);
    HeldSession(n, t, step.p);
    HeldSession(n, t, Other(step.p));
    PeruseAnswer(n, t, step);
    ReceivePosts(t.w, RatchetStep(step));
    MailNextEpoch(n, t.w.past.sent, t.mail);
  }

  // --------------------------------------------------------------------------- other calls

  /** `u` has the same sessions with `peer` as `v`, in memory and in the store. */
  predicate Untouched(v: Device, u: Device, peer: Address) {
    && u.deviceId == v.deviceId
    && (peer in u.sessions <==> peer in v.sessions) && (peer in v.sessions ==> u.sessions[peer] == v.sessions[peer])
    && (peer in u.saved <==> peer in v.saved) && (peer in v.saved ==> u.saved[peer] == v.saved[peer])
  }

  lemma CacheApart(v: Device, u: Device, addr: Address, s: Session, peer: Address)
    requires addr != peer && Untouched(v, u, peer)
    ensures Untouched(v, Cache(u, addr, s), peer) && Untouched(v, CacheAndSave(u, addr, s), peer)
  {
  }

  lemma GetApart(v: Device, addr: Address, d: Draws, peer: Address)
    requires addr != peer
    ensures Untouched(v, GetOrCreateSession(v, addr, d).0, peer)
  {
  }

  lemma EncryptToApart(v: Device, addr: Address, material: Bytes, d: Draws, peer: Address)
    requires addr != peer
    ensures Untouched(v, EncryptTo(v, addr, material, d).0, peer)
  {
    GetApart(v, addr, d, peer);
    var (v1, found) := GetOrCreateSession(v, addr, d);
    if found.Ok? {
      var s := SessionEncrypt(found.value, material, d.nonce).0;
      CacheApart(v, v1, addr, s, peer);
      CacheApart(v, Cache(v1, addr, s), addr, s, peer);
    }
  }

  lemma {:induction false} EncryptAllApart(v: Device, recipients: seq<Address>, material: Bytes, draws: seq<Draws>, peer: Address)
    requires |recipients| == |draws| && peer !in recipients
    ensures Untouched(v, EncryptAll(v, recipients, material, draws).0, peer)
    decreases |recipients|
  {
    if recipients == [] {
    } else {
      var n := |recipients| - 1;
      EncryptAllApart(v, recipients[..n], material, draws[..n], peer);
      EncryptToApart(EncryptAll(v, recipients[..n], material, draws[..n]).0, recipients[n], material, draws[n], peer);
    }
  }

  lemma OpenWithApart(v: Device, sender: Address, s: Session, data: Bytes, msg: EncryptedMessage, drawn: Bytes, peer: Address)
    requires |data| >= HEADER_SIZE && sender != peer
    ensures Untouched(v, OpenWith(v, sender, s, data, msg, drawn).0, peer)
  {
    var header := DecodeHeader(data[..HEADER_SIZE]);
    if header.Ok? {
      CacheApart(v, v, sender, SessionDecrypt(s, header.value, data[HEADER_SIZE..], drawn).0, peer);
    }
  }

  lemma DecryptApart(v: Device, sender: Address, msg: EncryptedMessage, drawn: Bytes, peer: Address)
    requires sender != peer || OurKey(msg.keys, v.deviceId).None?
    ensures Untouched(v, DecryptMessage(v, sender, msg, drawn).0, peer)
  {
    var key, found := OurKey(msg.keys, v.deviceId), FindSession(v, sender);
    PreKeyBranchFails(v, sender);
    if key.Some? && |key.value.data| >= HEADER_SIZE && found.Some? {
      OpenWithApart(v, sender, found.value, key.value.data, msg, drawn, peer);
    }
  }

  lemma AnsweredApart(v: Device, sender: Address, identity: Bytes, ephemeralPub: Bytes, usedPreKey: Option<uint32>,
                      signedPreKey: uint32, peer: Address)
    requires sender != peer
    ensures Untouched(v, Answered(v, sender, identity, ephemeralPub, usedPreKey, signedPreKey).0, peer)
  {
  }

  lemma FirstApart(v: Device, c: ManagerCall, peer: Address)
    requires c.DecryptingFirst? && c.sender != peer
    ensures Untouched(v, Perform(v, c).0, peer)
  {
    var (v2, s) := Answered(v, c.sender, c.identity, c.ephemeralPub, c.usedPreKey, c.signedPreKey);
    AnsweredApart(v, c.sender, c.identity, c.ephemeralPub, c.usedPreKey, c.signedPreKey, peer);
    var key := OurKey(c.msg.keys, v.deviceId);
    if s.Ok? && key.Some? && |key.value.data| >= HEADER_SIZE {
      OpenWithApart(v2, c.sender, s.value, key.value.data, c.msg, c.drawn, peer);
    }
  }

  /** Calls about other devices leave the session with `peer` alone, whether they succeed or fail. */
  lemma ApartKeeps(v: Device, peer: Address, c: ManagerCall)
    requires Apart(v, peer, c)
    ensures Untouched(v, Perform(v, c).0, peer)
  {
    match c
    case Encrypting(plain, recipients, messageKey, iv, draws) =>
      EncryptAllApart(v, recipients, Material(messageKey, iv, plain), draws, peer);
    case Decrypting(sender, msg, drawn) => DecryptApart(v, sender, msg, drawn, peer);
    case DecryptingFirst(_, _, _, _, _, _, _) => FirstApart(v, c, peer);
    case Processing(_, _) =>
  }

  lemma TakenKeeps(n: Names, t: Talk, step: TalkStep)
    requires TalkOk(n, t) && CanTake(n, t, step)
    ensures TalkOk(n, Taken(n, t, step))
  {
    match step
    case Write(_, _, _, _, _, _, _, _) => WriteKeeps(n, t, step);
    case Peruse(_, _, _) => PeruseKeeps(n, t, step);
    case Drop(_) => StepReaches(n, t, step);
    case Aside(_, _) => AsideKeeps(n, t, step);
    case Reopen(_) => ReopenKeeps(n, t, step);
  }

  lemma AsideKeeps(n: Names, t: Talk, step: TalkStep)
    requires TalkOk(n, t) && step.Aside? && CanTake(n, t, step)
    ensures TalkOk(n, Taken(n, t, step))
  {
    ApartKeeps(DeviceOf(t, step.p), NameOf(n, Other(step.p)), step.call);
  }

  lemma ReopenKeeps(n: Names, t: Talk, step: TalkStep)
    requires TalkOk(n, t) && step.Reopen? && CanTake(n, t, step)
    ensures TalkOk(n, Taken(n, t, step))
  {
  }

  // ------------------------------------------------------------------------------ restarts

  /** A reading of an envelope of the conversation that fails leaves memory ahead of the store. */
  ghost predicate Fails(n: Names, t: Talk, step: TalkStep)
    requires CanTake(n, t, step)
  {
    step.Peruse? && DecryptMessage(DeviceOf(t, step.p), NameOf(n, Other(step.p)), t.mail[step.m].msg, step.drawn).1.Err?
  }

  lemma OpenSaves(v: Device, sender: Address, s: Session, data: Bytes, msg: EncryptedMessage, drawn: Bytes)
    requires |data| >= HEADER_SIZE && OpenWith(v, sender, s, data, msg, drawn).1.Ok?
    ensures SavedFor(OpenWith(v, sender, s, data, msg, drawn).0, sender)
  {
  }

  lemma DecryptSaves(v: Device, sender: Address, msg: EncryptedMessage, drawn: Bytes)
    requires DecryptMessage(v, sender, msg, drawn).1.Ok?
    ensures SavedFor(DecryptMessage(v, sender, msg, drawn).0, sender)
  {
    PreKeyBranchFails(v, sender);
    OpenSaves(v, sender, FindSession(v, sender).value, OurKey(msg.keys, v.deviceId).value.data, msg, drawn);
  }

  lemma EncryptToSaves(v: Device, addr: Address, material: Bytes, d: Draws)
    requires EncryptTo(v, addr, material, d).1.Ok?
    ensures SavedFor(EncryptTo(v, addr, material, d).0, addr)
  {
  }

  lemma UntouchedSaved(v: Device, u: Device, peer: Address)
    requires Untouched(v, u, peer) && SavedFor(v, peer)
    ensures SavedFor(u, peer)
  {
  }

  lemma {:induction false} EncryptAllSaves(v: Device, recipients: seq<Address>, material: Bytes, draws: seq<Draws>, k: nat)
    requires |recipients| == |draws| && DistinctDevices(recipients) && k < |recipients|
    requires EncryptAll(v, recipients, material, draws).1.Ok?
    ensures SavedFor(EncryptAll(v, recipients, material, draws).0, recipients[k])
    decreases |recipients|
  {
    var n := |recipients| - 1;
    DistinctFront(recipients);
    LastDevice(v, recipients, material, draws);
    var v1 := EncryptAll(v, recipients[..n], material, draws[..n]).0;
    if k == n {
      EncryptToSaves(v1, recipients[n], material, draws[n]);
    } else {
      EncryptAllSaves(v, recipients[..n], material, draws[..n], k);
      EncryptToApart(v1, recipients[n], material, draws[n], recipients[k]);
      UntouchedSaved(v1, EncryptTo(v1, recipients[n], material, draws[n]).0, recipients[k]);
    }
  }

  lemma WriteSaves(n: Names, t: Talk, step: TalkStep)
    requires step.Write? && CanTake(n, t, step)
    ensures SavedFor(DeviceOf(Taken(n, t, step), step.p), NameOf(n, Other(step.p)))
  {
    EncryptAllSaves(DeviceOf(t, step.p), step.recipients, Material(step.messageKey, step.iv, step.plain), step.draws, step.k);
  }

  lemma PeruseSaves(n: Names, t: Talk, step: TalkStep)
    requires step.Peruse? && CanTake(n, t, step) && !Fails(n, t, step)
    ensures SavedFor(DeviceOf(Taken(n, t, step), step.p), NameOf(n, Other(step.p)))
  {
    DecryptSaves(DeviceOf(t, step.p), NameOf(n, Other(step.p)), t.mail[step.m].msg, step.drawn);
  }

  /** What was saved stays so in every step that is not a failed reading. */
  lemma StepSaved(n: Names, t: Talk, step: TalkStep, p: Role)
    requires CanTake(n, t, step) && SavedFor(DeviceOf(t, p), NameOf(n, Other(p))) && !Fails(n, t, step)
    ensures SavedFor(DeviceOf(Taken(n, t, step), p), NameOf(n, Other(p)))
  {
    if step.Drop? || step.p != p {
    } else if step.Write? {
      WriteSaves(n, t, step);
    } else if step.Peruse? {
      PeruseSaves(n, t, step);
    } else if step.Aside? {
      ApartKeeps(DeviceOf(t, p), NameOf(n, Other(p)), step.call);
      UntouchedSaved(DeviceOf(t, p), Perform(DeviceOf(t, p), step.call).0, NameOf(n, Other(p)));
    }
  }

  lemma {:induction false} GoesKeeps(n: Names, t: Talk, steps: seq<TalkStep>, t': Talk)
    requires TalkOk(n, t) && Goes(n, t, steps, t')
    ensures TalkOk(n, t')
    decreases |steps|
  {
    if steps == [] {
    } else {
      TakenKeeps(n, t, steps[0]);
      GoesKeeps(n, Taken(n, t, steps[0]), steps[1..], t');
    }
  }

  /**
    In every conversation of two managers, with envelopes for any number of recipients
    written by either side, read in any order and lost, among calls about other devices
    and restarts, an envelope that was not read before opens to its plaintext exactly
    when the skipped keys fit, and otherwise fails with the limit error. It names the
    device that wrote it.
   */
  lemma ConversationTheorem(n: Names, t0: Talk, steps: seq<TalkStep>, t: Talk, step: TalkStep)
    requires TalkOk(n, t0) && Goes(n, t0, steps, t) && step.Peruse? && CanTake(n, t, step)
    ensures DecryptMessage(DeviceOf(t, step.p), NameOf(n, Other(step.p)), t.mail[step.m].msg, step.drawn).1
      == if WithinLimits(StateOf(t.w, step.p), t.w.past.sent[step.m.epoch][step.m.num].header)
         then Ok(t.mail[step.m].plain) else Err(SkippedKeyLimit)
    ensures t.mail[step.m].msg.senderDeviceId == NameOf(n, Other(step.p)).deviceId
  {
    GoesKeeps(n, t0, steps, t);
    HeldSession(n, t, step.p);
    PeruseAnswer(n, t, step);
    DeliveryTheorem(t.w, RatchetStep(step));
  }

  /** The skipped keys fit the envelope that the step reads, if it reads one. */
  ghost predicate Fits(n: Names, t: Talk, step: TalkStep)
    requires CanTake(n, t, step)
  {
    step.Peruse? ==> WithinLimits(StateOf(t.w, step.p), t.w.past.sent[step.m.epoch][step.m.num].header)
  }

  ghost predicate AllFit(n: Names, t: Talk, steps: seq<TalkStep>, t': Talk)
    requires Goes(n, t, steps, t')
    decreases |steps|
  {
    steps == [] || (Fits(n, t, steps[0]) && AllFit(n, Taken(n, t, steps[0]), steps[1..], t'))
  }

  lemma FitsReads(n: Names, t: Talk, step: TalkStep)
    requires TalkOk(n, t) && CanTake(n, t, step) && Fits(n, t, step)
    ensures !Fails(n, t, step)
  {
    if step.Peruse? {
      ConversationTheorem(n, t, [], t, step);
    }
  }

  /**
    A device whose session was saved can be restarted after every run in which the skipped
    keys fitted: the conversation goes on, and `ConversationTheorem` applies to it.
   */
  lemma {:induction false} ReopenTheorem(n: Names, t0: Talk, steps: seq<TalkStep>, t: Talk, p: Role)
    requires TalkOk(n, t0) && Goes(n, t0, steps, t) && AllFit(n, t0, steps, t)
    requires SavedFor(DeviceOf(t0, p), NameOf(n, Other(p)))
    ensures CanTake(n, t, Reopen(p))
    decreases |steps|
  {
    if steps == [] {
    } else {
      var t1 := Taken(n, t0, steps[0]);
      TakenKeeps(n, t0, steps[0]);
      FitsReads(n, t0, steps[0]);
      StepSaved(n, t0, steps[0], p);
      ReopenTheorem(n, t1, steps[1..], t, p);
    }
  }

  // ------------------------------------------------------------------------- how it begins

  /** The responder's device after the first envelope holds the session that its ratchet moved to. */
  lemma FirstReaderHolds(n: Names, v: Device, r: Device, s: Session, t: Session, x: Mail, sent: Message, drawn: Bytes)
    requires v.identity.Some? && r.identity.Some? && s.pending.Some? && r.deviceId == n.bob.deviceId
    requires var p := s.pending.value;
      && p.signedPreKeyId in r.signedPreKeys
      && (p.preKeyId.Some? ==> p.preKeyId.value in r.preKeys)
      && InitSessionAsBob(r.identity.value, r.signedPreKeys[p.signedPreKeyId].privateKey,
                          UsedPreKey(r.preKeys, p.preKeyId), v.identity.value.publicKey, p.ephemeralPub) == Ok(t)
    requires Carries(x, sent, r.deviceId)
    ensures var p := s.pending.value;
      Holds(n, DecryptPreKeyMessage(r, n.alice, v.identity.value.publicKey, p.ephemeralPub, p.preKeyId, p.signedPreKeyId,
                                    x.msg, drawn).0,
            Bob, Decrypt(t.ratchet, sent.header, sent.data, drawn).0)
  {
    var p, key := s.pending.value, OurKey(x.msg.keys, r.deviceId).value;
    HeaderRoundTrip(sent.header);
    HeaderCut(EncodeHeader(sent.header).value, sent.data);
    PayloadOpens(x.messageKey, x.msg.iv, x.plain);
    var r2 := Registered(r, p.preKeyId, n.alice, v.identity.value.publicKey, t);
    PreKeyPath(r, n.alice, v.identity.value.publicKey, p, t, x.msg, key, drawn);
    OpenAnswer(r2, n.alice, x, sent, t, key.data, drawn);
  }

  lemma InitialShape(w: World)
    requires Initial(w)
    ensures Reachable(w) && |w.past.plan.keys| == 2 && w.past.sent == [[], []] && w.past.spent == {} && w.lost == {}
    ensures w.alice.dhs == w.past.plan.keys[1] && w.alice.cks.Some? && w.alice.ns == 0
  {
    assert Leads(w, [], w);
  }

  lemma AliceSends(w: World, material: Bytes, nonce: Bytes)
    requires |w.past.plan.keys| == 2 && w.past.sent == [[], []] && |nonce| == AES_NONCE_SIZE
    requires w.alice.dhs == w.past.plan.keys[1] && w.alice.cks.Some? && w.alice.ns == 0
    ensures Enabled(w, Send(Alice, 1, material, nonce))
    ensures var (s, header, data) := Encrypt(w.alice, material, nonce);
      After(w, Send(Alice, 1, material, nonce))
      == w.(alice := s, past := w.past.(sent := [[], [Message(Alice, header, data, nonce, material)]]))
  {
    var (_, header, data) := Encrypt(w.alice, material, nonce);
    var m := Message(Alice, header, data, nonce, material);
    var sent := w.past.sent;
    assert sent[1] + [m] == [m];
    assert sent[1 := [m]] == [sent[0], [m]];
  }

  lemma FirstSend(w: World, material: Bytes, nonce: Bytes) returns (w1: World)
    requires |w.past.plan.keys| == 2 && w.past.sent == [[], []] && |nonce| == AES_NONCE_SIZE
    requires w.alice.dhs == w.past.plan.keys[1] && w.alice.cks.Some? && w.alice.ns == 0 && Reachable(w)
    ensures var (s, header, data) := Encrypt(w.alice, material, nonce);
      && w1 == w.(alice := s, past := w.past.(sent := [[], [Message(Alice, header, data, nonce, material)]]))
      && Reachable(w1)
  {
    AliceSends(w, material, nonce);
    w1 := InitiatorSends(w, material, nonce);
  }

  lemma FirstWorld(w: World, material: Bytes, nonce: Bytes, drawn: Bytes) returns (w2: World)
    requires Initial(w) && |nonce| == AES_NONCE_SIZE && |drawn| == 32 && drawn !in w.past.plan.keys
    ensures var (s, header, data) := Encrypt(w.alice, material, nonce);
      var sent := [[], [Message(Alice, header, data, nonce, material)]];
      && Reachable(w2) && w2.alice == s && w2.bob == Decrypt(w.bob, header, data, drawn).0
      && (w2.past.sent == sent || w2.past.sent == sent + [[]])
  {
    InitialShape(w);
    var w1 := FirstSend(w, material, nonce);
    w2 := FirstReceive(w1, drawn);
  }

  lemma FirstReceive(w: World, drawn: Bytes) returns (w2: World)
    requires |w.past.sent| == 2 && |w.past.sent[1]| == 1 && w.past.sent[1][0].from == Alice
    requires w.past.spent == {} && w.lost == {} && |drawn| == 32 && drawn !in w.past.plan.keys && Reachable(w)
    ensures var msg := w.past.sent[1][0];
      && Reachable(w2) && w2.alice == w.alice && w2.bob == Decrypt(w.bob, msg.header, msg.data, drawn).0
      && (w2.past.sent == w.past.sent || w2.past.sent == w.past.sent + [[]])
  {
    var read := Receive(Bob, Id(1, 0), drawn);
    ReceivePosts(w, read);
    ReachesNext(w, read);
    w2 := After(w, read);
  }

  /**
    From nothing but a published bundle: once the first envelope is written and read, the
    two devices are in a conversation to which `ConversationTheorem` applies.
   */
  lemma TalkBegins(n: Names, v: Device, plain: Bytes, recipients: seq<Address>, messageKey: Bytes, iv: Bytes,
                   draws: seq<Draws>, k: nat, r: Device, drawn: Bytes) returns (t: Talk)
    requires |recipients| == |draws| && DistinctDevices(recipients) && k < |recipients| && recipients[k] == n.bob
    requires |messageKey| == 32 && |iv| == AES_NONCE_SIZE && DrawsOk(draws[k])
    requires EncryptMessage(v, plain, recipients, messageKey, iv, draws).1.Ok?
    requires v.deviceId == n.alice.deviceId && r.deviceId == n.bob.deviceId
    requires v.identity.Some? && IdentityOk(v.identity.value)
    requires FindSession(v, n.bob).None? && n.bob in v.bundles
    requires Backed(r.identity, r.signedPreKeys, r.preKeys, v.bundles[n.bob])
    requires var spk := r.signedPreKeys[v.bundles[n.bob].signedPreKeyId].privateKey;
      draws[k].first != spk && |drawn| == 32 && drawn != spk && drawn != draws[k].first
    ensures TalkOk(n, t) && SavedFor(t.alice, n.bob) && SavedFor(t.bob, n.alice)
    ensures t.alice == EncryptMessage(v, plain, recipients, messageKey, iv, draws).0
    ensures var msg := EncryptMessage(v, plain, recipients, messageKey, iv, draws).1.value;
      var s := GetOrCreateSession(v, n.bob, draws[k]).1;
      && s.Ok? && s.value.pending.Some?
      && var p := s.value.pending.value;
         t.bob == DecryptPreKeyMessage(r, n.alice, v.identity.value.publicKey, p.ephemeralPub, p.preKeyId,
                                       p.signedPreKeyId, msg, drawn).0
  {
    var material := Material(messageKey, iv, plain);
    MadeSession(v, recipients, material, draws, k);
    var w, s, b := FirstSession(v, n.bob, draws[k], r);
    var (v', msg) := EncryptMessage(v, plain, recipients, messageKey, iv, draws);
    var (_, header, data) := Encrypt(s.ratchet, material, draws[k].nonce);
    var sent, x := Message(Alice, header, data, draws[k].nonce, material), Mail(plain, messageKey, msg.value);
    WriteCarries(v, plain, recipients, messageKey, iv, draws, k, s, sent);
    WriterHolds(n, v, Alice, plain, recipients, messageKey, iv, draws, k, s);
    FirstReaderHolds(n, v, r, s, b, x, sent, drawn);
    var w2 := FirstWorld(w, material, draws[k].nonce, drawn);
    var p := s.pending.value;
    t := Talk(v', DecryptPreKeyMessage(r, n.alice, v.identity.value.publicKey, p.ephemeralPub, p.preKeyId,
                                       p.signedPreKeyId, msg.value, drawn).0, w2, map[Id(1, 0) := x]);
    FirstMail(n, sent, x);
    EncryptAllSaves(v, recipients, material, draws, k);
    FirstMessageTheorem(v, plain, recipients, messageKey, iv, draws, k, r, n.alice, drawn);
    FirstSaves(r, n.alice, v.identity.value.publicKey, p, msg.value, drawn);
  }

  lemma FirstSaves(r: Device, sender: Address, identity: Bytes, p: PendingPreKey, msg: EncryptedMessage, drawn: Bytes)
    requires DecryptPreKeyMessage(r, sender, identity, p.ephemeralPub, p.preKeyId, p.signedPreKeyId, msg, drawn).1.Ok?
    ensures SavedFor(DecryptPreKeyMessage(r, sender, identity, p.ephemeralPub, p.preKeyId, p.signedPreKeyId, msg, drawn).0, sender)
  {
    var (r2, s) := Answered(r, sender, identity, p.ephemeralPub, p.preKeyId, p.signedPreKeyId);
    OpenSaves(r2, sender, s.value, OurKey(msg.keys, r.deviceId).value.data, msg, drawn);
  }

  lemma FirstMail(n: Names, sent: Message, x: Mail)
    requires sent.from == Alice && Carries(x, sent, n.bob.deviceId) && Named(n, x, Alice)
    ensures MailOk(n, [[], [sent]], map[Id(1, 0) := x]) && MailOk(n, [[], [sent]] + [[]], map[Id(1, 0) := x])
  {
    MailNextEpoch(n, [[], [sent]], map[Id(1, 0) := x]);
  }
}
