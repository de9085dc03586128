/**
  What the SCRAM client achieves: a server that holds only the registered record,
  and follows section 3 of RFC 5802, accepts it; and it completes only when the
  server proved to know the keys, whatever calls are made.
 */
module ScramExchange {
  import opened Wrappers
  import opened Text
  import opened ScramMessages
  import opened Scram

  // ------------------------------------------------------------------------ a server's side

  /** The GS2 header of a client-first message: everything up to the second comma. */
  function HeaderLength(message: string): nat {
    var i := IndexOf(message, ',');
    if i == |message| then i
    else
      var j := IndexOf(message[i + 1..], ',');
      if i + 1 + j == |message| then |message| else i + 1 + j + 1
  }

  function HeaderOf(message: string): string {
    if HeaderLength(message) <= |message| then message[..HeaderLength(message)] else message
  }

  function BareOf(message: string): string {
    if HeaderLength(message) <= |message| then message[HeaderLength(message)..] else ""
  }

  /** The server-first message: the client's nonce extended, the salt and the iteration count. */
  function ServerChallenge(record: Record, clientFirst: string, extra: string): string
    requires "r" in Parse(BareOf(clientFirst)) && record.iterations >= 0
  {
    "r=" + (Parse(BareOf(clientFirst))["r"] + extra) + ","
    + ("s=" + record.salt + "," + ("i=" + Digits(record.iterations)))
  }

  /** A client-final message without its last attribute, the proof. */
  function ProofCut(message: string, proof64: string): string {
    if |proof64| + 3 <= |message| then message[..|message| - |proof64| - 3] else ""
  }

  /** Checks a client-final message against the record; answers with the server-final message. */
  function ServerVerify(lib: Library, record: Record, clientFirst: string, serverFirst: string,
                        clientFinal: string, binding: Bytes): Option<string>
    requires Lawful(lib)
  {
    var parts, sent := Parse(clientFinal), Parse(serverFirst);
    if "c" !in parts || "r" !in parts || "p" !in parts || "r" !in sent then None
    else if parts["r"] != sent["r"] || parts["c"] != lib.encode(OctetsOf(HeaderOf(clientFirst)) + binding) then None
    else
      var proof, stored, key := lib.decode(parts["p"]), lib.decode(record.storedKey), lib.decode(record.serverKey);
      if proof.None? || stored.None? || key.None? || |proof.value| != lib.size then None
      else
        var auth := AuthMessage(BareOf(clientFirst), serverFirst, ProofCut(clientFinal, parts["p"]));
        if lib.hash(Xor(proof.value, lib.hmac(stored.value, auth))) != stored.value then None
        else Some("v=" + lib.encode(lib.hmac(key.value, auth)))
  }

  // ------------------------------------------------------------------------- reading messages

  lemma SecondComma(flag: string, bare: string)
    requires ',' !in flag
    ensures HeaderLength(flag + [','] + ([','] + bare)) == |flag| + 2
  {
    CutAt(flag, ',', [','] + bare);
    assert "" + [','] + bare == [','] + bare;
    CutAt("", ',', bare);
  }

  lemma HeaderOfFirst(creds: Credentials, plus: bool, bare: string)
    requires plus ==> ',' !in creds.bindingType
    ensures HeaderOf(Gs2Header(creds, plus) + bare) == Gs2Header(creds, plus)
    ensures BareOf(Gs2Header(creds, plus) + bare) == bare
  {
    var flag := if plus then "p=" + creds.bindingType else "n";
    assert Gs2Header(creds, plus) == flag + ",,";
    HeaderOfFlag(flag, bare);
  }

  lemma HeaderOfFlag(flag: string, bare: string)
    requires ',' !in flag
    ensures HeaderOf(flag + ",," + bare) == flag + ",," && BareOf(flag + ",," + bare) == bare
  {
    SecondComma(flag, bare);
    assert flag + ",," + bare == flag + [','] + ([','] + bare);
  }

  lemma ReadClientFirst(creds: Credentials, nonce: string)
    requires ',' !in nonce
    ensures Parse(ClientFirst(creds, nonce)) == map["n" := Escape(creds.username), "r" := nonce]
  {
    EscapeRoundTrip(creds.username);
    var n, r := Field("n", Escape(creds.username)), Field("r", nonce);
    assert n.Text() == "n=" + Escape(creds.username) && r.Text() == "r=" + nonce;
    ParsePrint2(n, r);
  }

  lemma {:induction false} NoCommaInDigits(n: nat)
    ensures ',' !in Digits(n)
  {
    DigitsValue(n);
    assert !IsDigit(',');
  }

  lemma ReadServerFirst(nonce: string, salt64: string, count: string)
    requires ',' !in nonce && ',' !in salt64 && ',' !in count
    ensures Parse("r=" + nonce + "," + ("s=" + salt64 + "," + ("i=" + count)))
            == map["r" := nonce, "s" := salt64, "i" := count]
  {
    var r, s, i := Field("r", nonce), Field("s", salt64), Field("i", count);
    assert r.Text() == "r=" + nonce && s.Text() == "s=" + salt64 && i.Text() == "i=" + count;
    ParsePrint3(r, s, i);
  }

  lemma ReadClientFinal(binding64: string, nonce: string, proof64: string)
    requires ',' !in binding64 && ',' !in nonce && ',' !in proof64
    ensures var message := FinalWithoutProof(binding64, nonce) + "," + ("p=" + proof64);
      && Parse(message) == map["c" := binding64, "r" := nonce, "p" := proof64]
      && ProofCut(message, proof64) == FinalWithoutProof(binding64, nonce)
  {
    var c, r, p := Field("c", binding64), Field("r", nonce), Field("p", proof64);
    assert c.Text() == "c=" + binding64 && r.Text() == "r=" + nonce && p.Text() == "p=" + proof64;
    ParsePrint3(c, r, p);
    assert FinalWithoutProof(binding64, nonce) + "," + p.Text()
           == c.Text() + "," + (r.Text() + "," + p.Text());
  }

  // -------------------------------------------------------------------------- the whole exchange

  /** The server reads the user name and the nonce that the client meant. */
  lemma FirstTheorem(c: Client, nonce: string)
    requires c.plus ==> c.creds.binding != [] && ',' !in c.creds.bindingType
    requires ',' !in nonce
    ensures var (c', reply) := Started(c, nonce);
      && reply.Reply?
      && HeaderOf(reply.message) == c'.gs2Header && BareOf(reply.message) == c'.clientFirst
      && var parts := Parse(BareOf(reply.message));
      && "n" in parts && Unescape(parts["n"]) == c.creds.username
      && "r" in parts && parts["r"] == nonce
  {
    HeaderOfFirst(c.creds, c.plus, ClientFirst(c.creds, nonce));
    ReadName(c.creds, nonce);
  }

  lemma ReadName(creds: Credentials, nonce: string)
    requires ',' !in nonce
    ensures var parts := Parse(ClientFirst(creds, nonce));
      && "n" in parts && Unescape(parts["n"]) == creds.username
      && "r" in parts && parts["r"] == nonce
  {
    ReadClientFirst(creds, nonce);
    EscapeRoundTrip(creds.username);
  }

  lemma TakesAttributes(lib: Library, c: Client, data: string, nonce: string, salt: Bytes, n: int)
    requires Lawful(lib) && c.step == 1 && c.clientNonce <= nonce && n > 0
    requires "r" in Parse(data) && Parse(data)["r"] == nonce
    requires "s" in Parse(data) && lib.decode(Parse(data)["s"]) == Some(salt)
    requires "i" in Parse(data) && ScanInt(Parse(data)["i"]) == Some(n)
    ensures Challenged(lib, c, data) == ClientFinal(lib, c.(serverNonce := nonce, salt := salt, iterations := n), data)
  {
  }

  /** The client takes nonce, salt and count from the challenge and answers it. */
  lemma ClientAnswers(lib: Library, c: Client, record: Record, salt: Bytes, extra: string, data: string)
    requires Lawful(lib) && c.step == 1 && ',' !in c.clientNonce && ',' !in extra
    requires record.salt == lib.encode(salt) && 0 < record.iterations <= MAX_INT
    requires data == "r=" + (c.clientNonce + extra) + "," + ("s=" + record.salt + "," + ("i=" + Digits(record.iterations)))
    ensures Challenged(lib, c, data)
      == ClientFinal(lib, c.(serverNonce := c.clientNonce + extra, salt := salt, iterations := record.iterations), data)
    ensures "r" in Parse(data) && Parse(data)["r"] == c.clientNonce + extra
  {
    var nonce := c.clientNonce + extra;
    NoCommaInDigits(record.iterations);
    ReadServerFirst(nonce, record.salt, Digits(record.iterations));
    ScanDigits(record.iterations);
    TakesAttributes(lib, c, data, nonce, salt, record.iterations);
  }

  /** A proof that hashes to the stored key, in a message that repeats nonce and binding, is accepted. */
  lemma VerifyAccepts(lib: Library, record: Record, clientFirst: string, data: string, final: string,
                      binding: Bytes, proof: Bytes, stored: Bytes, key: Bytes, auth: string)
    requires Lawful(lib) && |proof| == lib.size
    requires record.storedKey == lib.encode(stored) && record.serverKey == lib.encode(key)
    requires "c" in Parse(final) && Parse(final)["c"] == lib.encode(OctetsOf(HeaderOf(clientFirst)) + binding)
    requires "r" in Parse(final) && "r" in Parse(data) && Parse(final)["r"] == Parse(data)["r"]
    requires "p" in Parse(final) && Parse(final)["p"] == lib.encode(proof)
    requires auth == AuthMessage(BareOf(clientFirst), data, ProofCut(final, lib.encode(proof)))
    requires lib.hash(Xor(proof, lib.hmac(stored, auth))) == stored
    ensures ServerVerify(lib, record, clientFirst, data, final, binding) == Some("v=" + lib.encode(lib.hmac(key, auth)))
  {
  }

  /** A proof made with the password passes the check against the record, which has no password. */
  lemma ServerAccepts(lib: Library, c: Client, record: Record, clientFirst: string, data: string)
    requires Lawful(lib) && ',' !in c.serverNonce
    requires record == HashPassword(lib, c.creds.password, c.iterations, c.salt)
    requires HeaderOf(clientFirst) == c.gs2Header && BareOf(clientFirst) == c.clientFirst
    requires "r" in Parse(data) && Parse(data)["r"] == c.serverNonce
    ensures var (c', reply) := ClientFinal(lib, c, data);
      ServerVerify(lib, record, clientFirst, data, reply.message, if c.plus then c.creds.binding else [])
      == Some("v=" + lib.encode(lib.hmac(ServerKey(lib, c'.saltedPwd), c'.authMessage)))
  {
    var binding64 := BindingText(lib, c.gs2Header, c.creds, c.plus);
    var salted := lib.pbkdf2(c.creds.password, c.salt, c.iterations);
    var auth := AuthMessage(c.clientFirst, data, FinalWithoutProof(binding64, c.serverNonce));
    var proof := ProofFor(lib, salted, auth);
    ReadFinal(lib, c.serverNonce, binding64, proof);
    ProofHashes(lib, salted, auth);
    VerifyAccepts(lib, record, clientFirst, data, FinalMessage(binding64, c.serverNonce, lib.encode(proof)),
                  if c.plus then c.creds.binding else [], proof, StoredKey(lib, salted), ServerKey(lib, salted), auth);
  }

  function ProofFor(lib: Library, salted: Bytes, auth: string): Bytes
    requires Lawful(lib)
  {
    Xor(ClientKey(lib, salted), lib.hmac(StoredKey(lib, salted), auth))
  }

  function FinalMessage(binding64: string, nonce: string, proof64: string): string {
    FinalWithoutProof(binding64, nonce) + "," + ("p=" + proof64)
  }

  lemma ProofHashes(lib: Library, salted: Bytes, auth: string)
    requires Lawful(lib)
    ensures |ProofFor(lib, salted, auth)| == lib.size
    ensures var stored := StoredKey(lib, salted);
      lib.hash(Xor(ProofFor(lib, salted, auth), lib.hmac(stored, auth))) == stored
  {
    XorTwice(ClientKey(lib, salted), lib.hmac(StoredKey(lib, salted), auth));
  }

  lemma ReadFinal(lib: Library, nonce: string, binding64: string, proof: Bytes)
    requires Lawful(lib) && ',' !in nonce && ',' !in binding64
    ensures var final := FinalMessage(binding64, nonce, lib.encode(proof));
      && "c" in Parse(final) && Parse(final)["c"] == binding64
      && "r" in Parse(final) && Parse(final)["r"] == nonce
      && "p" in Parse(final) && Parse(final)["p"] == lib.encode(proof)
      && ProofCut(final, lib.encode(proof)) == FinalWithoutProof(binding64, nonce)
  {
    ReadClientFinal(binding64, nonce, lib.encode(proof));
  }

  lemma ClientAccepts(lib: Library, c: Client)
    requires Lawful(lib) && c.step == 2
    ensures Challenged(lib, c, "v=" + lib.encode(lib.hmac(ServerKey(lib, c.saltedPwd), c.authMessage)))
      == (c.(step := 3), Reply(""))
  {
    var v := Field("v", lib.encode(lib.hmac(ServerKey(lib, c.saltedPwd), c.authMessage)));
    assert v.Text() == "v=" + v.value;
    ParsePrint1(v);
  }

  /**
    For every user, password, salt, iteration count and nonces: the exchange with a
    server that knows only the registered record runs through, the server accepts
    the proof, and the client accepts the server's signature and is complete.
   */
  lemma ExchangeTheorem(lib: Library, c: Client, nonce: string, salt: Bytes, iterations: int, extra: string)
    requires Lawful(lib) && ',' !in nonce && ',' !in extra && 0 < iterations <= MAX_INT
    requires c.plus ==> c.creds.binding != [] && ',' !in c.creds.bindingType
    ensures
      var record := HashPassword(lib, c.creds.password, iterations, salt);
      var (c1, first) := Started(c, nonce);
      && first.Reply?
      && var bare := Parse(BareOf(first.message));
      && "n" in bare && Unescape(bare["n"]) == c.creds.username
      && "r" in bare
      && var challenge := ServerChallenge(record, first.message, extra);
      var (c2, final) := Challenged(lib, c1, challenge);
      && final.Reply?
      && var verdict := ServerVerify(lib, record, first.message, challenge, final.message, if c.plus then c.creds.binding else []);
      && verdict.Some?
      && Challenged(lib, c2, verdict.value) == (c2.(step := 3), Reply(""))
  {
    var record := HashPassword(lib, c.creds.password, iterations, salt);
    FirstTheorem(c, nonce);
    var (c1, first) := Started(c, nonce);
    var challenge := ServerChallenge(record, first.message, extra);
    ClientAnswers(lib, c1, record, salt, extra, challenge);
    var ready := c1.(serverNonce := c1.clientNonce + extra, salt := salt, iterations := iterations);
    ServerAccepts(lib, ready, record, first.message, challenge);
    var (c2, final) := ClientFinal(lib, ready, challenge);
    ClientAccepts(lib, c2);
  }

  // -------------------------------------------------------------------------------- every run

  datatype Call = StartCall(nonce: string) | NextCall(challenge: string)

  function Perform(lib: Library, c: Client, call: Call): (Client, Reply)
    requires Lawful(lib)
  {
    match call
    case StartCall(nonce) => Started(c, nonce)
    case NextCall(challenge) => Challenged(lib, c, challenge)
  }

  /** A fresh client after a sequence of calls. */
  function RunOf(lib: Library, creds: Credentials, plus: bool, calls: seq<Call>): Client
    requires Lawful(lib)
  {
    if calls == [] then NewClient(creds, plus)
    else
      var n := |calls| - 1;
      Perform(lib, RunOf(lib, creds, plus, calls[..n]), calls[n]).0
  }

  /** `first` extends the nonce of a client and has a salt and a count attribute. */
  predicate Offered(lib: Library, nonce: string, first: string) {
    var parts := Parse(first);
    && "r" in parts && nonce <= parts["r"]
    && "s" in parts && lib.decode(parts["s"]).Some?
    && "i" in parts
  }

  /** The password stretched with the salt of `first`. */
  function SaltedFor(lib: Library, creds: Credentials, first: string, rounds: int): Bytes
    requires "s" in Parse(first) && lib.decode(Parse(first)["s"]).Some?
  {
    lib.pbkdf2(creds.password, lib.decode(Parse(first)["s"]).value, rounds)
  }

  function AuthFor(lib: Library, creds: Credentials, plus: bool, nonce: string, first: string): string
    requires "r" in Parse(first)
  {
    AuthMessage(ClientFirst(creds, nonce), first,
                FinalWithoutProof(BindingText(lib, Gs2Header(creds, plus), creds, plus), Parse(first)["r"]))
  }

  /** `final` carries the signature, under the ServerKey of the password, of this very exchange. */
  predicate Signed(lib: Library, creds: Credentials, plus: bool, nonce: string, first: string, rounds: int, final: string)
    requires Offered(lib, nonce, first)
  {
    && "e" !in Parse(final) && "v" in Parse(final)
    && Parse(final)["v"]
       == lib.encode(lib.hmac(ServerKey(lib, SaltedFor(lib, creds, first, rounds)), AuthFor(lib, creds, plus, nonce, first)))
  }

  lemma ServerFirstKeeps(lib: Library, c: Client, data: string)
    requires Lawful(lib) && c.step == 1
    ensures var c' := ServerFirst(lib, c, data).0;
      c'.creds == c.creds && c'.plus == c.plus && c'.step <= 2
  {
  }

  lemma PerformKeeps(lib: Library, c: Client, call: Call)
    requires Lawful(lib) && c.step <= 3
    ensures var c' := Perform(lib, c, call).0;
      c'.creds == c.creds && c'.plus == c.plus && c'.step <= 3
  {
    if call.NextCall? && c.step == 1 {
      ServerFirstKeeps(lib, c, call.challenge);
    }
  }

  lemma {:induction false} RunKeeps(lib: Library, creds: Credentials, plus: bool, calls: seq<Call>)
    requires Lawful(lib)
    ensures var c := RunOf(lib, creds, plus, calls);
      c.creds == creds && c.plus == plus && c.step <= 3
    decreases |calls|
  {
    if calls == [] {
    } else {
      var n := |calls| - 1;
      RunKeeps(lib, creds, plus, calls[..n]);
      PerformKeeps(lib, RunOf(lib, creds, plus, calls[..n]), calls[n]);
    }
  }

  /** Calls from `i` on are answers to one Start. */
  predicate OneStart(calls: seq<Call>, i: nat) {
    i < |calls| && calls[i].StartCall? && forall k :: i < k < |calls| ==> calls[k].NextCall?
  }

  lemma OneStartGrows(calls: seq<Call>, i: nat)
    requires calls != [] && OneStart(calls[..|calls| - 1], i) && calls[|calls| - 1].NextCall?
    ensures OneStart(calls, i)
  {
    assert forall k :: 0 <= k < |calls| - 1 ==> calls[..|calls| - 1][k] == calls[k];
  }

  predicate AtStart(c: Client, call: Call) {
    && call.StartCall?
    && (c.plus ==> c.creds.binding != [])
    && c.clientNonce == call.nonce
    && c.gs2Header == Gs2Header(c.creds, c.plus)
    && c.clientFirst == ClientFirst(c.creds, call.nonce)
  }

  /** A client past step 0 carries the data of its last Start. */
  lemma {:induction false} StartedBy(lib: Library, creds: Credentials, plus: bool, calls: seq<Call>) returns (i: nat)
    requires Lawful(lib) && RunOf(lib, creds, plus, calls).step >= 1
    ensures OneStart(calls, i) && AtStart(RunOf(lib, creds, plus, calls), calls[i])
    decreases |calls|
  {
    var n := |calls| - 1;
    var front, last := calls[..n], calls[n];
    RunKeeps(lib, creds, plus, front);
    var c := RunOf(lib, creds, plus, front);
    if c.step >= 1 {
      i := StartedBy(lib, creds, plus, front);
      if last.NextCall? {
        OneStartGrows(calls, i);
        NextKeepsStart(lib, c, last.challenge, front[i]);
      } else {
        i := n;
      }
    } else {
      i := n;
    }
  }

  lemma NextKeepsStart(lib: Library, c: Client, challenge: string, call: Call)
    requires Lawful(lib) && AtStart(c, call)
    ensures AtStart(Challenged(lib, c, challenge).0, call)
  {
  }

  // ------------------------------------------------------------------- where the count is from

  /** The count a call brings to a client that is waiting for one, if there is one and it scans. */
  function CountRead(lib: Library, c: Client, call: Call): Option<int> {
    if c.step == 1 && call.NextCall? && Offered(lib, c.clientNonce, call.challenge)
    then ScanInt(Parse(call.challenge)["i"]) else None
  }

  /** What each call of a run brings. */
  function Counts(lib: Library, creds: Credentials, plus: bool, calls: seq<Call>): (counts: seq<Option<int>>)
    requires Lawful(lib)
    ensures |counts| == |calls|
  {
    if calls == [] then []
    else
      var n := |calls| - 1;
      Counts(lib, creds, plus, calls[..n]) + [CountRead(lib, RunOf(lib, creds, plus, calls[..n]), calls[n])]
  }

  lemma {:induction false} CountsAt(lib: Library, creds: Credentials, plus: bool, calls: seq<Call>, before: seq<Call>, call: Call)
    requires Lawful(lib) && |before| < |calls| && before == calls[..|before|] && call == calls[|before|]
    ensures Counts(lib, creds, plus, calls)[|before|] == CountRead(lib, RunOf(lib, creds, plus, before), call)
    decreases |calls|
  {
    var n := |calls| - 1;
    var front := calls[..n];
    CountsParts(lib, creds, plus, calls, front);
    if |before| < n {
      SamePrefix(calls, n, |before|);
      CountsAt(lib, creds, plus, front, before, call);
    } else {
      assert before == front;
    }
  }

  lemma CountsParts(lib: Library, creds: Credentials, plus: bool, calls: seq<Call>, front: seq<Call>)
    requires Lawful(lib) && calls != [] && front == calls[..|calls| - 1]
    ensures Counts(lib, creds, plus, calls)
      == Counts(lib, creds, plus, front) + [CountRead(lib, RunOf(lib, creds, plus, front), calls[|front|])]
  {
  }

  lemma SamePrefix(calls: seq<Call>, n: nat, k: nat)
    requires k < n <= |calls|
    ensures calls[..n][..k] == calls[..k] && calls[..n][k] == calls[k]
  {
  }

  /** Position `q` is the last one with a count. */
  predicate LastCount(counts: seq<Option<int>>, q: nat) {
    q < |counts| && counts[q].Some? && forall k :: q < k < |counts| ==> counts[k].None?
  }

  /** The last count of a list, or 0. */
  function Held(counts: seq<Option<int>>): (n: int)
    ensures forall q: nat :: LastCount(counts, q) ==> n == counts[q].value
    ensures (forall q: nat :: !LastCount(counts, q)) ==> n == 0
  {
    if counts == [] then 0
    else
      var last := |counts| - 1;
      if counts[last].Some? then
        assert LastCount(counts, last);
        counts[last].value
      else
        var front := counts[..last];
        assert forall q: nat :: LastCount(front, q) <==> LastCount(counts, q);
        Held(front)
  }

  /** A call changes the count exactly when it brings one, and answers what it brings exactly when that is positive. */
  lemma StepCount(lib: Library, c: Client, call: Call)
    requires Lawful(lib)
    ensures var read := CountRead(lib, c, call);
      && Perform(lib, c, call).0.iterations == (if read.Some? then read.value else c.iterations)
      && (read.Some? ==> (Perform(lib, c, call).1.Reply? <==> read.value > 0))
  {
  }

  lemma HeldSnoc(counts: seq<Option<int>>, read: Option<int>)
    ensures Held(counts + [read]) == if read.Some? then read.value else Held(counts)
  {
    assert (counts + [read])[..|counts|] == counts;
  }

  /** The count a client holds is the last one that the calls of its run brought, or 0. */
  lemma {:induction false} HeldCount(lib: Library, creds: Credentials, plus: bool, calls: seq<Call>)
    requires Lawful(lib)
    ensures RunOf(lib, creds, plus, calls).iterations == Held(Counts(lib, creds, plus, calls))
    decreases |calls|
  {
    if calls == [] {
    } else {
      var n := |calls| - 1;
      var c := RunOf(lib, creds, plus, calls[..n]);
      HeldCount(lib, creds, plus, calls[..n]);
      StepCount(lib, c, calls[n]);
      HeldSnoc(Counts(lib, creds, plus, calls[..n]), CountRead(lib, c, calls[n]));
    }
  }

  lemma AnswersUnscanned(lib: Library, c: Client, data: string)
    requires Lawful(lib) && c.step == 1 && Offered(lib, c.clientNonce, data) && ScanInt(Parse(data)["i"]).None?
    ensures Challenged(lib, c, data).1.Reply? <==> c.iterations > 0
    ensures Challenged(lib, c, data).0.iterations == c.iterations
  {
  }

  /** Call `q` was the last one of the run that brought a count, and it was answered. */
  ghost predicate LastAnswered(lib: Library, creds: Credentials, plus: bool, calls: seq<Call>, q: nat)
    requires Lawful(lib)
  {
    && q < |calls|
    && LastCount(Counts(lib, creds, plus, calls), q)
    && Perform(lib, RunOf(lib, creds, plus, calls[..q]), calls[q]).1.Reply?
  }

  lemma AnsweredWhenPositive(lib: Library, creds: Credentials, plus: bool, calls: seq<Call>, q: nat)
    requires Lawful(lib) && LastCount(Counts(lib, creds, plus, calls), q)
    ensures LastAnswered(lib, creds, plus, calls, q) <==> Counts(lib, creds, plus, calls)[q].value > 0
  {
    CountsAt(lib, creds, plus, calls, calls[..q], calls[q]);
    StepCount(lib, RunOf(lib, creds, plus, calls[..q]), calls[q]);
  }

  /**
    In every run, a challenge whose count does not scan is answered exactly when the last
    challenge whose count did scan was answered, and then with that one's count.
   */
  lemma StaleTheorem(lib: Library, creds: Credentials, plus: bool, calls: seq<Call>, data: string)
    requires Lawful(lib) && RunOf(lib, creds, plus, calls).step == 1
    requires Offered(lib, RunOf(lib, creds, plus, calls).clientNonce, data) && ScanInt(Parse(data)["i"]).None?
    ensures Challenged(lib, RunOf(lib, creds, plus, calls), data).1.Reply?
      <==> exists q :: LastAnswered(lib, creds, plus, calls, q)
    ensures Challenged(lib, RunOf(lib, creds, plus, calls), data).0.iterations
      == Held(Counts(lib, creds, plus, calls))
  {
    AnswersUnscanned(lib, RunOf(lib, creds, plus, calls), data);
    HeldCount(lib, creds, plus, calls);
    PositiveHeld(lib, creds, plus, calls);
  }

  lemma PositiveHeld(lib: Library, creds: Credentials, plus: bool, calls: seq<Call>)
    requires Lawful(lib)
    ensures Held(Counts(lib, creds, plus, calls)) > 0 <==> exists q :: LastAnswered(lib, creds, plus, calls, q)
  {
    var counts := Counts(lib, creds, plus, calls);
    forall q | LastCount(counts, q)
      ensures LastAnswered(lib, creds, plus, calls, q) <==> Held(counts) > 0
    {
      AnsweredWhenPositive(lib, creds, plus, calls, q);
    }
    if Held(counts) > 0 {
      var q :| LastCount(counts, q);
      assert LastAnswered(lib, creds, plus, calls, q);
    }
  }

  // ------------------------------------------------------------------------ what was verified

  /** What a client at step 2 or 3 remembers of the challenge it answered. */
  predicate AtProof(lib: Library, c: Client, nonce: string, first: string) {
    && Offered(lib, nonce, first) && c.iterations > 0
    && c.saltedPwd == SaltedFor(lib, c.creds, first, c.iterations)
    && c.authMessage == AuthFor(lib, c.creds, c.plus, nonce, first)
  }

  lemma FirstGivesProof(lib: Library, c: Client, call: Call, data: string)
    requires Lawful(lib) && AtStart(c, call) && c.step == 1 && Challenged(lib, c, data).0.step >= 2
    ensures AtProof(lib, Challenged(lib, c, data).0, call.nonce, data)
  {
  }

  lemma ProofLasts(lib: Library, c: Client, challenge: string, nonce: string, first: string)
    requires Lawful(lib) && c.step >= 2 && AtProof(lib, c, nonce, first)
    ensures AtProof(lib, Challenged(lib, c, challenge).0, nonce, first)
    ensures Challenged(lib, c, challenge).0.iterations == c.iterations
  {
  }

  lemma LastCountStays(counts: seq<Option<int>>, q: nat)
    requires LastCount(counts, q)
    ensures LastCount(counts + [None], q)
  {
  }

  lemma {:induction false} ProvedBy(lib: Library, creds: Credentials, plus: bool, calls: seq<Call>)
    returns (i: nat, j: nat, q: nat)
    requires Lawful(lib) && RunOf(lib, creds, plus, calls).step >= 2
    ensures OneStart(calls, i) && i < j < |calls|
    ensures q <= j && LastCount(Counts(lib, creds, plus, calls), q)
    ensures AtProof(lib, RunOf(lib, creds, plus, calls), calls[i].nonce, calls[j].challenge)
    decreases |calls|
  {
    var n := |calls| - 1;
    var front, last := calls[..n], calls[n];
    LastIsNext(lib, creds, plus, calls);
    var c := RunOf(lib, creds, plus, front);
    if c.step == 1 {
      i := StartedBy(lib, creds, plus, front);
      j := n;
      FirstGivesProof(lib, c, front[i], last.challenge);
      HeldCount(lib, creds, plus, calls);
      q :| LastCount(Counts(lib, creds, plus, calls), q);
    } else {
      i, j, q := ProvedBy(lib, creds, plus, front);
      ProofLasts(lib, c, last.challenge, front[i].nonce, front[j].challenge);
      LastCountStays(Counts(lib, creds, plus, front), q);
    }
    OneStartGrows(calls, i);
  }

  /** A Start that succeeds takes a client back to step 1; one that fails left it at step 0. */
  lemma LastIsNext(lib: Library, creds: Credentials, plus: bool, calls: seq<Call>)
    requires Lawful(lib) && RunOf(lib, creds, plus, calls).step >= 2
    ensures calls != [] && calls[|calls| - 1].NextCall?
    ensures var c := RunOf(lib, creds, plus, calls[..|calls| - 1]);
      c.step >= 1 && RunOf(lib, creds, plus, calls) == Challenged(lib, c, calls[|calls| - 1].challenge).0
  {
    var n := |calls| - 1;
    var front := calls[..n];
    RunKeeps(lib, creds, plus, front);
    if calls[n].StartCall? {
      var i := StartedBy(lib, creds, plus, front);
    }
  }

  /**
    Over every sequence of calls, a completed client was started, then answered a
    challenge that extends its nonce, and then received the signature that only the
    ServerKey of its password gives for that start, that challenge and the last
    iteration count read up to it.
   */
  lemma {:induction false} CompletedTheorem(lib: Library, creds: Credentials, plus: bool, calls: seq<Call>)
    returns (i: nat, j: nat, k: nat, q: nat)
    requires Lawful(lib) && Completed(RunOf(lib, creds, plus, calls))
    ensures OneStart(calls, i) && i < j < k < |calls|
    ensures q <= j && LastCount(Counts(lib, creds, plus, calls), q)
    ensures Offered(lib, calls[i].nonce, calls[j].challenge)
    ensures Signed(lib, creds, plus, calls[i].nonce, calls[j].challenge,
                   Counts(lib, creds, plus, calls)[q].value, calls[k].challenge)
    decreases |calls|
  {
    var n := |calls| - 1;
    var front, last := calls[..n], calls[n];
    LastIsNext(lib, creds, plus, calls);
    RunKeeps(lib, creds, plus, front);
    var c := RunOf(lib, creds, plus, front);
    if c.step == 3 {
      i, j, k, q := CompletedTheorem(lib, creds, plus, front);
    } else {
      i, j, q := ProvedBy(lib, creds, plus, front);
      k := n;
      HeldCount(lib, creds, plus, front);
    }
    LastCountStays(Counts(lib, creds, plus, front), q);
    OneStartGrows(calls, i);
  }

  // ------------------------------------------------------------------- what each call answers

  /** Why a final message without the signature fails: the server's own error, no signature at all, or a wrong one. */
  function FinalFault(final: string): Fault {
    var parts := Parse(final);
    if "e" in parts then ServerError(parts["e"]) else if "v" in parts then AuthFailed else InvalidResponse
  }

  lemma FinalAnswer(lib: Library, c: Client, nonce: string, first: string, final: string)
    requires Lawful(lib) && c.step == 2 && AtProof(lib, c, nonce, first)
    ensures var (c', reply) := Challenged(lib, c, final);
      if Signed(lib, c.creds, c.plus, nonce, first, c.iterations, final) then reply == Reply("") && c' == c.(step := 3)
      else reply == Failed(FinalFault(final)) && c' == c
  {
  }

  /**
    In every run, a client that waits for the server's signature takes a final message for
    good exactly when it carries the signature of its last start, the challenge it answered
    and the last count read by then; any other message is answered with its fault and leaves
    the client as it is.
   */
  lemma FinalTheorem(lib: Library, creds: Credentials, plus: bool, calls: seq<Call>, final: string)
    returns (i: nat, j: nat, q: nat)
    requires Lawful(lib) && RunOf(lib, creds, plus, calls).step == 2
    ensures OneStart(calls, i) && i < j < |calls|
    ensures q <= j && LastCount(Counts(lib, creds, plus, calls), q)
    ensures Offered(lib, calls[i].nonce, calls[j].challenge)
    ensures var c := RunOf(lib, creds, plus, calls);
      var (c', reply) := Challenged(lib, c, final);
      if Signed(lib, creds, plus, calls[i].nonce, calls[j].challenge, Counts(lib, creds, plus, calls)[q].value, final)
      then reply == Reply("") && c' == c.(step := 3)
      else reply == Failed(FinalFault(final)) && c' == c
  {
    i, j, q := ProvedBy(lib, creds, plus, calls);
    RunKeeps(lib, creds, plus, calls);
    HeldCount(lib, creds, plus, calls);
    FinalAnswer(lib, RunOf(lib, creds, plus, calls), calls[i].nonce, calls[j].challenge, final);
  }

  /** A challenge is answered exactly when it extends the nonce, has salt and count, and the count then held is positive. */
  lemma ChallengeAnswer(lib: Library, c: Client, data: string)
    requires Lawful(lib) && c.step == 1
    ensures var (c', reply) := Challenged(lib, c, data);
      && (reply.Reply? <==> Offered(lib, c.clientNonce, data)
                            && (if ScanInt(Parse(data)["i"]).Some? then ScanInt(Parse(data)["i"]).value else c.iterations) > 0)
      && c'.step == if reply.Reply? then 2 else 1
  {
  }

  /**
    Whatever the client and the call: an answer without a fault takes it to the step after,
    a fault leaves it at its step, and a start fails exactly for want of channel binding data.
   */
  lemma AdvanceTheorem(lib: Library, c: Client, call: Call)
    requires Lawful(lib)
    ensures var (c', reply) := Perform(lib, c, call);
      && (reply.Failed? ==> c'.step == c.step)
      && (reply.Reply? ==> c'.step == if call.StartCall? then 1 else c.step + 1)
      && (call.StartCall? ==> (reply.Failed? <==> c.plus && c.creds.binding == []))
      && (call.NextCall? && c.step != 1 && c.step != 2 ==> reply == Failed(UnexpectedStep) && c' == c)
  {
    if call.NextCall? && c.step == 1 {
      ChallengeAnswer(lib, c, call.challenge);
    }
  }

  lemma RunSnoc(lib: Library, creds: Credentials, plus: bool, calls: seq<Call>, call: Call)
    requires Lawful(lib)
    ensures RunOf(lib, creds, plus, calls + [call]) == Perform(lib, RunOf(lib, creds, plus, calls), call).0
  {
    assert (calls + [call])[..|calls|] == calls;
  }

  /** A run in which a challenge without any count is answered with the previous count. */
  lemma StaleCount(lib: Library, creds: Credentials, salt: Bytes)
    requires Lawful(lib)
    ensures var s := lib.encode(salt);
      var c := RunOf(lib, creds, false,
                     [StartCall("a")] + [NextCall(FullChallenge(s))] + [StartCall("b")] + [NextCall(CountlessChallenge(s))]);
      ScanInt("x") == None && c.step == 2 && c.iterations == 5
  {
    var s := lib.encode(salt);
    var one, two := NextCall(FullChallenge(s)), NextCall(CountlessChallenge(s));
    assert [] + [StartCall("a")] == [StartCall("a")];
    RunSnoc(lib, creds, false, [], StartCall("a"));
    RunSnoc(lib, creds, false, [StartCall("a")], one);
    RunSnoc(lib, creds, false, [StartCall("a")] + [one], StartCall("b"));
    RunSnoc(lib, creds, false, [StartCall("a")] + [one] + [StartCall("b")], two);
    var c1 := Started(NewClient(creds, false), "a").0;
    FullStep(lib, c1, s, salt);
    var c2 := Challenged(lib, c1, one.challenge).0;
    StaleStep(lib, Started(c2, "b").0, s, salt);
  }

  function FullChallenge(s: string): string {
    "r=" + "a" + "," + ("s=" + s + "," + ("i=" + Digits(5)))
  }

  function CountlessChallenge(s: string): string {
    "r=" + "b" + "," + ("s=" + s + "," + ("i=" + "x"))
  }

  lemma FullStep(lib: Library, c: Client, s: string, salt: Bytes)
    requires Lawful(lib) && c.step == 1 && c.clientNonce == "a" && s == lib.encode(salt)
    ensures var c' := Challenged(lib, c, FullChallenge(s)).0;
      c'.plus == c.plus && c'.iterations == 5
  {
    NoCommaInDigits(5);
    ReadServerFirst("a", s, Digits(5));
    ScanDigits(5);
    TakesAttributes(lib, c, FullChallenge(s), "a", salt, 5);
  }

  lemma StaleStep(lib: Library, c: Client, s: string, salt: Bytes)
    requires Lawful(lib) && c.step == 1 && c.clientNonce == "b" && c.iterations > 0
    requires s == lib.encode(salt)
    ensures ScanInt("x") == None
    ensures var c' := Challenged(lib, c, CountlessChallenge(s)).0;
      c'.step == 2 && c'.iterations == c.iterations
  {
    ReadServerFirst("b", s, "x");
    NoNumber();
    KeepsCount(lib, c, CountlessChallenge(s));
  }

  lemma NoNumber()
    ensures ScanInt("x") == None
  {
    assert SkipBlanks("x") == "x";
    assert DigitRun("x") == "";
  }

  lemma KeepsCount(lib: Library, c: Client, data: string)
    requires Lawful(lib) && c.step == 1 && c.iterations > 0
    requires "r" in Parse(data) && c.clientNonce <= Parse(data)["r"]
    requires "s" in Parse(data) && lib.decode(Parse(data)["s"]).Some?
    requires "i" in Parse(data) && ScanInt(Parse(data)["i"]).None?
    ensures var c' := Challenged(lib, c, data).0;
      c'.step == 2 && c'.iterations == c.iterations
  {
  }
}
