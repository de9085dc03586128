/**
  The SCRAM client of sasl/scram.go and the credentials that cmd/xmppd/scram.go
  stores. HMAC, the hash, PBKDF2 and base64 are given by a `Library`.
 */
module Scram {
  import opened Wrappers
  import opened Text
  import opened ScramMessages

  type Bytes = seq<bv8>

  /** The cryptography and base64 functions of one mechanism, for example SCRAM-SHA-256. */
  datatype Library = Library(
    size: nat,
    hmac: (Bytes, string) -> Bytes,
    hash: Bytes -> Bytes,
    pbkdf2: (string, Bytes, int) -> Bytes,
    encode: Bytes -> string,
    decode: string -> Option<Bytes>)

  /** What is relied on: MACs have the hash's size, base64 decodes to what was encoded and has no comma. */
  ghost predicate Lawful(lib: Library) {
    && (forall key, text :: |lib.hmac(key, text)| == lib.size)
    && (forall b :: lib.decode(lib.encode(b)) == Some(b))
    && (forall b :: ',' !in lib.encode(b))
  }

  datatype Credentials = Credentials(username: string, password: string, binding: Bytes, bindingType: string)

  datatype Fault =
    | NoChannelBinding
    | InvalidResponse
    | BadBase64
    | BadIterations
    | ServerError(text: string)
    | AuthFailed
    | UnexpectedStep

  datatype Reply = Reply(message: string) | Failed(fault: Fault)

  datatype Client = Client(
    creds: Credentials,
    plus: bool,
    step: nat,
    clientNonce: string,
    serverNonce: string,
    salt: Bytes,
    iterations: int,
    authMessage: string,
    saltedPwd: Bytes,
    gs2Header: string,
    clientFirst: string)

  function NewClient(creds: Credentials, plus: bool): Client {
    Client(creds, plus, 0, "", "", [], 0, "", [], "", "")
  }

  predicate Completed(c: Client) {
    c.step >= 3
  }

  // -------------------------------------------------------------------------------- the keys

  function ClientKey(lib: Library, salted: Bytes): Bytes {
    lib.hmac(salted, "Client Key")
  }

  function StoredKey(lib: Library, salted: Bytes): Bytes {
    lib.hash(ClientKey(lib, salted))
  }

  function ServerKey(lib: Library, salted: Bytes): Bytes {
    lib.hmac(salted, "Server Key")
  }

  function Xor(a: Bytes, b: Bytes): Bytes
    requires |a| <= |b|
  {
    seq(|a|, i requires 0 <= i < |a| => a[i] ^ b[i])
  }

  method XorBytes(a: Bytes, b: Bytes) returns (result: Bytes)
    requires |a| <= |b|
    ensures result == Xor(a, b)
    ensures |a| == |b| ==> Xor(result, b) == a
  {
    var buffer := new bv8[|a|];
    for i := 0 to |a|
      invariant forall k :: 0 <= k < i ==> buffer[k] == a[k] ^ b[k]
    {
      buffer[i] := a[i] ^ b[i];
    }
    result := buffer[..];
    if |a| == |b| {
      XorTwice(a, b);
    }
  }

  lemma XorTwice(a: Bytes, b: Bytes)
    requires |a| == |b|
    ensures Xor(Xor(a, b), b) == a
  {
    forall i | 0 <= i < |a|
      ensures Xor(Xor(a, b), b)[i] == a[i]
    {
      assert (a[i] ^ b[i]) ^ b[i] == a[i];
    }
  }

  /** The record of a registered user; the keys are base64 text. */
  datatype Record = Record(salt: string, iterations: int, storedKey: string, serverKey: string)

  function HashPassword(lib: Library, password: string, iterations: int, salt: Bytes): Record {
    var salted := lib.pbkdf2(password, salt, iterations);
    Record(lib.encode(salt), iterations, lib.encode(StoredKey(lib, salted)), lib.encode(ServerKey(lib, salted)))
  }

  // ---------------------------------------------------------------------------- the messages

  function OctetsOf(s: string): Bytes {
    seq(|s|, i requires 0 <= i < |s| => (s[i] as int % 256) as bv8)
  }

  function Gs2Header(creds: Credentials, plus: bool): string {
    if plus then "p=" + creds.bindingType + ",," else "n,,"
  }

  function ClientFirst(creds: Credentials, nonce: string): string {
    "n=" + Escape(creds.username) + "," + ("r=" + nonce)
  }

  /** What the `c` attribute says, in base64. */
  function BindingText(lib: Library, header: string, creds: Credentials, plus: bool): string {
    lib.encode(OctetsOf(header) + if plus then creds.binding else [])
  }

  function FinalWithoutProof(binding64: string, nonce: string): string {
    "c=" + binding64 + "," + ("r=" + nonce)
  }

  function AuthMessage(clientFirst: string, serverFirst: string, finalWithoutProof: string): string {
    clientFirst + "," + serverFirst + "," + finalWithoutProof
  }

  // -------------------------------------------------------------------------------- the steps

  /** `nonce` is what generateNonce draws. */
  function Started(c: Client, nonce: string): (Client, Reply) {
    var c := c.(clientNonce := nonce);
    if c.plus && c.creds.binding == [] then (c, Failed(NoChannelBinding))
    else
      var c := c.(gs2Header := Gs2Header(c.creds, c.plus), clientFirst := ClientFirst(c.creds, nonce), step := 1);
      (c, Reply(c.gs2Header + c.clientFirst))
  }

  /** The iteration count after scanning `text`; a text that does not scan leaves the old count. */
  function Rounds(before: int, text: string): int {
    match ScanInt(text)
    case Some(n) => n
    case None => before
  }

  function ServerFirst(lib: Library, c: Client, data: string): (Client, Reply)
    requires Lawful(lib)
  {
    var parts := Parse(data);
    if "r" !in parts || !(c.clientNonce <= parts["r"]) then (c, Failed(InvalidResponse))
    else
      var c := c.(serverNonce := parts["r"]);
      if "s" !in parts then (c, Failed(InvalidResponse))
      else if lib.decode(parts["s"]).None? then (c, Failed(BadBase64))
      else
        var c := c.(salt := lib.decode(parts["s"]).value);
        if "i" !in parts then (c, Failed(InvalidResponse))
        else
          var c := c.(iterations := Rounds(c.iterations, parts["i"]));
          if c.iterations <= 0 then (c, Failed(BadIterations)) else ClientFinal(lib, c, data)
  }

  /** The proof, once nonce, salt and iteration count are set. */
  function ClientFinal(lib: Library, c: Client, data: string): (Client, Reply)
    requires Lawful(lib)
  {
    var noProof := FinalWithoutProof(BindingText(lib, c.gs2Header, c.creds, c.plus), c.serverNonce);
    var salted := lib.pbkdf2(c.creds.password, c.salt, c.iterations);
    var auth := AuthMessage(c.clientFirst, data, noProof);
    var proof := Xor(ClientKey(lib, salted), lib.hmac(StoredKey(lib, salted), auth));
    (c.(saltedPwd := salted, authMessage := auth, step := 2),
     Reply(noProof + "," + ("p=" + lib.encode(proof))))
  }

  function ServerFinal(lib: Library, c: Client, data: string): (Client, Reply) {
    var parts := Parse(data);
    if "e" in parts then (c, Failed(ServerError(parts["e"])))
    else if "v" !in parts then (c, Failed(InvalidResponse))
    else if parts["v"] != lib.encode(lib.hmac(ServerKey(lib, c.saltedPwd), c.authMessage)) then
      (c, Failed(AuthFailed))
    else (c.(step := 3), Reply(""))
  }

  function Challenged(lib: Library, c: Client, challenge: string): (Client, Reply)
    requires Lawful(lib)
  {
    if c.step == 1 then ServerFirst(lib, c, challenge)
    else if c.step == 2 then ServerFinal(lib, c, challenge)
    else (c, Failed(UnexpectedStep))
  }

  // ----------------------------------------------------------------------------- the mechanism

  class Mechanism {
    const lib: Library
    const creds: Credentials
    const plus: bool
    var step: nat
    var clientNonce: string
    var serverNonce: string
    var salt: Bytes
    var iterations: int
    var authMessage: string
    var saltedPwd: Bytes
    var gs2Header: string
    var clientFirst: string

    ghost function State(): Client
      reads this
    {
      Client(creds, plus, step, clientNonce, serverNonce, salt, iterations, authMessage, saltedPwd, gs2Header, clientFirst)
    }

    constructor (lib: Library, creds: Credentials, plus: bool)
      ensures this.lib == lib && State() == NewClient(creds, plus)
    {
      this.lib, this.creds, this.plus := lib, creds, plus;
      step, iterations := 0, 0;
      clientNonce, serverNonce, authMessage, gs2Header, clientFirst := "", "", "", "", "";
      salt, saltedPwd := [], [];
    }

    method Start(nonce: string) returns (reply: Reply)
      modifies this
      ensures (State(), reply) == Started(old(State()), nonce)
    {
      clientNonce := nonce;
      if plus {
        if |creds.binding| == 0 {
          return Failed(NoChannelBinding);
        }
        gs2Header := "p=" + creds.bindingType + ",,";
      } else {
        gs2Header := "n,,";
      }
      clientFirst := "n=" + Escape(creds.username) + "," + ("r=" + clientNonce);
      step := 1;
      return Reply(gs2Header + clientFirst);
    }

    method Next(challenge: string) returns (reply: Reply)
      requires Lawful(lib)
      modifies this
      ensures (State(), reply) == Challenged(lib, old(State()), challenge)
    {
      if step == 1 {
        reply := ProcessServerFirst(challenge);
      } else if step == 2 {
        reply := ProcessServerFinal(challenge);
      } else {
        reply := Failed(UnexpectedStep);
      }
    }

    method ProcessServerFirst(data: string) returns (reply: Reply)
      requires Lawful(lib)
      modifies this
      ensures (State(), reply) == ServerFirst(lib, old(State()), data)
    {
      var parts := ParseAttributes(data);
      if "r" !in parts || !(clientNonce <= parts["r"]) {
        return Failed(InvalidResponse);
      }
      serverNonce := parts["r"];
      if "s" !in parts {
        return Failed(InvalidResponse);
      }
      var decoded := lib.decode(parts["s"]);
      if decoded.None? {
        return Failed(BadBase64);
      }
      salt := decoded.value;
      if "i" !in parts {
        return Failed(InvalidResponse);
      }
      var scanned := ScanInt(parts["i"]);
      if scanned.Some? {
        iterations := scanned.value;
      }
      if iterations <= 0 {
        return Failed(BadIterations);
      }
      reply := Prove(data);
    }

    method Prove(data: string) returns (reply: Reply)
      requires Lawful(lib)
      modifies this
      ensures (State(), reply) == ClientFinal(lib, old(State()), data)
    {
      var cbData := OctetsOf(gs2Header);
      if plus {
        cbData := cbData + creds.binding;
      }
      assert !plus ==> cbData + [] == cbData;
      var noProof := FinalWithoutProof(lib.encode(cbData), serverNonce);
      saltedPwd := lib.pbkdf2(creds.password, salt, iterations);
      var clientKey := lib.hmac(saltedPwd, "Client Key");
      var storedKey := lib.hash(clientKey);
      authMessage := clientFirst + "," + data + "," + noProof;
      var clientSig := lib.hmac(storedKey, authMessage);
      var proof := XorBytes(clientKey, clientSig);
      step := 2;
      return Reply(noProof + "," + ("p=" + lib.encode(proof)));
    }

    method ProcessServerFinal(data: string) returns (reply: Reply)
      modifies this
      ensures (State(), reply) == ServerFinal(lib, old(State()), data)
    {
      var parts := ParseAttributes(data);
      if "e" in parts {
        return Failed(ServerError(parts["e"]));
      }
      if "v" !in parts {
        return Failed(InvalidResponse);
      }
      var serverKey := lib.hmac(saltedPwd, "Server Key");
      var expected := lib.hmac(serverKey, authMessage);
      if parts["v"] != lib.encode(expected) {
        return Failed(AuthFailed);
      }
      step := 3;
      return Reply("");
    }
  }
}
