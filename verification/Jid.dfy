/**
  Addresses, local@domain/resource, and the escaping of local parts in XEP-0106
  (jid/jid.go). A character stands for one byte, so validity as UTF-8 is spelled out.
 */
module Addresses {
  import opened Text

  datatype Jid = Jid(local: string, domain: string, resource: string) {
    function Bare(): Jid {
      Jid(local, domain, "")
    }

    function WithResource(r: string): Jid {
      Jid(local, domain, r)
    }

    predicate IsZero() {
      domain == ""
    }

    predicate IsFull() {
      resource != ""
    }

    /** The printed form; the zero address prints as nothing. */
    function String(): string {
      if domain == "" then ""
      else (if local != "" then local + "@" else "") + domain + (if resource != "" then "/" + resource else "")
    }
  }

  datatype JidError = EmptyJid | InvalidLocal | InvalidDomain | TooLong

  datatype JidResult = Accepted(jid: Jid) | Refused(error: JidError)

  const MAX_PART_LEN: nat := 1023

  // ------------------------------------------------------------------------------- validity

  predicate Within(c: char, lo: int, hi: int) {
    lo <= c as int <= hi
  }

  /** The length of the UTF-8 sequence at the front of a string, 0 if there is none. */
  function RuneLength(s: string): (n: nat)
    ensures n <= |s| && n <= 4
  {
    if s == "" then 0
    else if Within(s[0], 0, 0x7f) then 1
    else if |s| >= 2 && Within(s[0], 0xc2, 0xdf) && Within(s[1], 0x80, 0xbf) then 2
    else if |s| >= 3 && ThreeBytes(s[0], s[1]) && Within(s[2], 0x80, 0xbf) then 3
    else if |s| >= 4 && FourBytes(s[0], s[1]) && Within(s[2], 0x80, 0xbf) && Within(s[3], 0x80, 0xbf) then 4
    else 0
  }

  predicate ThreeBytes(a: char, b: char) {
    || (Within(a, 0xe0, 0xe0) && Within(b, 0xa0, 0xbf))
    || (Within(a, 0xe1, 0xec) && Within(b, 0x80, 0xbf))
    || (Within(a, 0xed, 0xed) && Within(b, 0x80, 0x9f))
    || (Within(a, 0xee, 0xef) && Within(b, 0x80, 0xbf))
  }

  predicate FourBytes(a: char, b: char) {
    || (Within(a, 0xf0, 0xf0) && Within(b, 0x90, 0xbf))
    || (Within(a, 0xf1, 0xf3) && Within(b, 0x80, 0xbf))
    || (Within(a, 0xf4, 0xf4) && Within(b, 0x80, 0x8f))
  }

  predicate ValidUtf8(s: string) {
    s == "" || (RuneLength(s) > 0 && ValidUtf8(s[RuneLength(s)..]))
  }

  // what UTF-8 encodes, as section 3 of RFC 3629 defines it

  predicate Scalar(cp: int) {
    0 <= cp < 0xd800 || 0xe000 <= cp < 0x11_0000
  }

  function ByteChar(b: int): char
    requires 0 <= b < 256
  {
    b as char
  }

  function EncodeRune(cp: int): string
    requires Scalar(cp)
  {
    if cp < 0x80 then [ByteChar(cp)]
    else if cp < 0x800 then [ByteChar(0xc0 + cp / 0x40), ByteChar(0x80 + cp % 0x40)]
    else if cp < 0x1_0000 then
      [ByteChar(0xe0 + cp / 0x1000), ByteChar(0x80 + cp / 0x40 % 0x40), ByteChar(0x80 + cp % 0x40)]
    else
      [ByteChar(0xf0 + cp / 0x4_0000), ByteChar(0x80 + cp / 0x1000 % 0x40), ByteChar(0x80 + cp / 0x40 % 0x40), ByteChar(0x80 + cp % 0x40)]
  }

  predicate AllScalar(cps: seq<int>) {
    forall i :: 0 <= i < |cps| ==> Scalar(cps[i])
  }

  function EncodeRunes(cps: seq<int>): string
    requires AllScalar(cps)
  {
    if cps == [] then "" else EncodeRune(cps[0]) + EncodeRunes(cps[1..])
  }

  /** The code point of two, three or four groups of six bits comes apart again. */
  lemma Groups(a: int, b: int, c: int, d: int)
    requires 0 <= a && 0 <= b < 0x40 && 0 <= c < 0x40 && 0 <= d < 0x40
    ensures var cp := a * 0x4_0000 + b * 0x1000 + c * 0x40 + d;
      cp / 0x4_0000 == a && cp / 0x1000 % 0x40 == b && cp / 0x40 % 0x40 == c && cp % 0x40 == d
    ensures var cp := b * 0x1000 + c * 0x40 + d; cp / 0x1000 == b
    ensures var cp := c * 0x40 + d; cp / 0x40 == c
  {
    var cp := a * 0x4_0000 + b * 0x1000 + c * 0x40 + d;
    assert cp == (a * 0x1000 + b * 0x40 + c) * 0x40 + d;
    assert cp / 0x40 == a * 0x1000 + b * 0x40 + c;
    assert cp / 0x1000 == a * 0x40 + b;
  }

  lemma DecodesTwo(a: int, b: int)
    requires 0xc2 <= a <= 0xdf && 0x80 <= b <= 0xbf
    ensures var cp := (a - 0xc0) * 0x40 + (b - 0x80); Scalar(cp) && EncodeRune(cp) == [ByteChar(a), ByteChar(b)]
  {
    Groups(0, 0, a - 0xc0, b - 0x80);
  }

  lemma DecodesThree(a: int, b: int, c: int)
    requires 0xe0 <= a <= 0xef && 0x80 <= b <= 0xbf && ThreeBytes(a as char, b as char) && 0x80 <= c <= 0xbf
    ensures var cp := (a - 0xe0) * 0x1000 + (b - 0x80) * 0x40 + (c - 0x80);
      Scalar(cp) && EncodeRune(cp) == [ByteChar(a), ByteChar(b), ByteChar(c)]
  {
    Groups(0, a - 0xe0, b - 0x80, c - 0x80);
  }

  lemma DecodesFour(a: int, b: int, c: int, d: int)
    requires 0xf0 <= a <= 0xf4 && 0x80 <= b <= 0xbf && FourBytes(a as char, b as char) && 0x80 <= c <= 0xbf && 0x80 <= d <= 0xbf
    ensures var cp := (a - 0xf0) * 0x4_0000 + (b - 0x80) * 0x1000 + (c - 0x80) * 0x40 + (d - 0x80);
      Scalar(cp) && EncodeRune(cp) == [ByteChar(a), ByteChar(b), ByteChar(c), ByteChar(d)]
  {
    Groups(a - 0xf0, b - 0x80, c - 0x80, d - 0x80);
  }

  lemma RuneDecodes(s: string) returns (cp: int)
    requires RuneLength(s) > 0
    ensures Scalar(cp) && EncodeRune(cp) == s[..RuneLength(s)]
  {
    var n, a := RuneLength(s), s[0] as int;
    if n == 1 {
      cp := a;
    } else if n == 2 {
      cp := (a - 0xc0) * 0x40 + (s[1] as int - 0x80);
      DecodesTwo(a, s[1] as int);
    } else if n == 3 {
      cp := (a - 0xe0) * 0x1000 + (s[1] as int - 0x80) * 0x40 + (s[2] as int - 0x80);
      DecodesThree(a, s[1] as int, s[2] as int);
    } else {
      cp := (a - 0xf0) * 0x4_0000 + (s[1] as int - 0x80) * 0x1000 + (s[2] as int - 0x80) * 0x40 + (s[3] as int - 0x80);
      DecodesFour(a, s[1] as int, s[2] as int, s[3] as int);
    }
  }

  lemma RuneEncodes(cp: int, t: string)
    requires Scalar(cp)
    ensures RuneLength(EncodeRune(cp) + t) == |EncodeRune(cp)| > 0
  {
    var s := EncodeRune(cp) + t;
    if 0x80 <= cp < 0x1_0000 {
      assert s[0] == EncodeRune(cp)[0] && s[1] == EncodeRune(cp)[1];
    }
  }

  /** A string is valid exactly when it is the encoding of some Unicode scalar values. */
  lemma {:induction false} Utf8Theorem(s: string)
    ensures ValidUtf8(s) <==> exists cps :: AllScalar(cps) && EncodeRunes(cps) == s
    decreases |s|
  {
    if ValidUtf8(s) {
      var cps := DecodesTo(s);
    }
    if cps :| AllScalar(cps) && EncodeRunes(cps) == s {
      EncodedIsValid(cps);
    }
  }

  lemma {:induction false} DecodesTo(s: string) returns (cps: seq<int>)
    requires ValidUtf8(s)
    ensures AllScalar(cps) && EncodeRunes(cps) == s
    decreases |s|
  {
    if s == "" {
      cps := [];
    } else {
      var cp := RuneDecodes(s);
      var rest := DecodesTo(s[RuneLength(s)..]);
      OneMoreRune(s, RuneLength(s), cp, rest);
      cps := [cp] + rest;
    }
  }

  lemma OneMoreRune(s: string, n: nat, cp: int, rest: seq<int>)
    requires n <= |s| && Scalar(cp) && EncodeRune(cp) == s[..n] && AllScalar(rest) && EncodeRunes(rest) == s[n..]
    ensures AllScalar([cp] + rest) && EncodeRunes([cp] + rest) == s
  {
    assert ([cp] + rest)[1..] == rest;
    assert s == s[..n] + s[n..];
  }

  lemma {:induction false} EncodedIsValid(cps: seq<int>)
    requires AllScalar(cps)
    ensures ValidUtf8(EncodeRunes(cps))
  {
    if cps == [] {
    } else {
      var rest := EncodeRunes(cps[1..]);
      RuneEncodes(cps[0], rest);
      EncodedIsValid(cps[1..]);
      assert (EncodeRune(cps[0]) + rest)[|EncodeRune(cps[0])|..] == rest;
    }
  }

  predicate ValidLocal(s: string) {
    s == "" || (ValidUtf8(s) && '@' !in s && '/' !in s)
  }

  /** A domain in brackets may hold anything. */
  predicate ValidDomain(s: string) {
    && s != ""
    && ValidUtf8(s)
    && ((s[0] == '[' && s[|s| - 1] == ']') || ('@' !in s && '/' !in s))
  }

  function New(local: string, domain: string, resource: string): JidResult {
    if domain == "" then Refused(InvalidDomain)
    else if |local| > MAX_PART_LEN || |domain| > MAX_PART_LEN || |resource| > MAX_PART_LEN then Refused(TooLong)
    else if local != "" && !ValidLocal(local) then Refused(InvalidLocal)
    else if !ValidDomain(domain) then Refused(InvalidDomain)
    else Accepted(Jid(local, domain, resource))
  }

  /** The text is UTF-8. */
  ghost predicate IsText(s: string) {
    exists cps :: AllScalar(cps) && EncodeRunes(cps) == s
  }

  /**
    What New accepts, for all parts: a domain, no part of more than 1023 bytes, local part and
    domain in UTF-8, no separator in the local part and none in the domain unless it is in brackets.
   */
  lemma NewTheorem(local: string, domain: string, resource: string)
    ensures New(local, domain, resource).Accepted? <==>
      && domain != "" && |local| <= 1023 && |domain| <= 1023 && |resource| <= 1023
      && IsText(local) && IsText(domain)
      && '@' !in local && '/' !in local
      && (('@' !in domain && '/' !in domain) || (domain[0] == '[' && domain[|domain| - 1] == ']'))
    ensures New(local, domain, resource).Accepted? ==> New(local, domain, resource).jid == Jid(local, domain, resource)
  {
    Utf8Theorem(local);
    Utf8Theorem(domain);
  }

  /** What is in front of the first '/'. */
  function BareText(s: string): string {
    s[..IndexOf(s, '/')]
  }

  /** Cuts at the first '/', then what is in front of it at the first '@'. */
  function Cut(s: string): Jid {
    var slash := IndexOf(s, '/');
    CutBare(BareText(s)).WithResource(if slash < |s| then s[slash + 1..] else "")
  }

  function CutBare(s: string): Jid {
    var at := IndexOf(s, '@');
    if at < |s| then Jid(s[..at], s[at + 1..], "") else Jid("", s, "")
  }

  function Parse(s: string): JidResult {
    if s == "" then Refused(EmptyJid)
    else if Cut(s).domain == "" then Refused(InvalidDomain)
    else New(Cut(s).local, Cut(s).domain, Cut(s).resource)
  }

  // ------------------------------------------------------------------- printing and parsing

  /** Whether the separators in the printed form are where the parser looks for them. */
  predicate Separable(j: Jid) {
    '/' !in j.domain && (j.local == "" ==> '@' !in j.domain)
  }

  predicate PlainLocal(j: Jid) {
    '@' !in j.local && '/' !in j.local
  }

  lemma SlashAt(j: Jid)
    requires PlainLocal(j) && '/' !in j.domain && j.domain != ""
    ensures var s := j.String();
      && IndexOf(s, '/') == |j.Bare().String()|
      && s[..IndexOf(s, '/')] == j.Bare().String()
      && (j.resource != "" ==> IndexOf(s, '/') < |s| && s[IndexOf(s, '/') + 1..] == j.resource)
      && (j.resource == "" ==> IndexOf(s, '/') == |s|)
  {
    var bare := j.Bare().String();
    assert '/' !in bare;
    if j.resource != "" {
      assert j.String() == bare + ['/'] + j.resource;
      CutAt(bare, '/', j.resource);
    } else {
      assert j.String() == bare;
      assert bare[..|bare|] == bare;
    }
  }

  lemma CutBareString(j: Jid)
    requires PlainLocal(j) && j.domain != "" && j.resource == ""
    ensures CutBare(j.String()) == j <==> j.local == "" ==> '@' !in j.domain
  {
    if j.local != "" {
      assert j.String() == j.local + ['@'] + j.domain;
      CutAt(j.local, '@', j.domain);
    } else {
      assert j.String() == j.domain;
    }
  }

  /** Cutting the printed form gives the parts back exactly when the separators are unambiguous. */
  lemma CutString(j: Jid)
    requires PlainLocal(j) && j.domain != ""
    ensures Cut(j.String()) == j <==> Separable(j)
  {
    if '/' in j.domain {
      assert '/' !in Cut(j.String()).domain;
    } else {
      SlashAt(j);
      CutBareString(j.Bare());
    }
  }

  /** What New accepts. */
  predicate Made(j: Jid) {
    New(j.local, j.domain, j.resource) == Accepted(j)
  }

  lemma MadeIsPlain(j: Jid)
    requires Made(j)
    ensures PlainLocal(j) && j.domain != "" && j.String() != ""
  {
  }

  lemma ParseIsCut(s: string)
    ensures Parse(s).Accepted? ==> Parse(s).jid == Cut(s) && Made(Cut(s)) && s != ""
    ensures s != "" && Made(Cut(s)) ==> Parse(s) == Accepted(Cut(s))
  {
  }

  /** For every address that New makes, Parse undoes String exactly when the separators are unambiguous. */
  lemma ParseString(j: Jid)
    requires Made(j)
    ensures Parse(j.String()) == Accepted(j) <==> Separable(j)
  {
    MadeIsPlain(j);
    CutString(j);
    ParseIsCut(j.String());
  }

  /** A bracketed domain with which the round trip fails. */
  lemma BracketDomain()
    ensures Made(Jid("", "[a@b]", "")) && Parse("[a@b]") == Accepted(Jid("[a", "b]", ""))
  {
    BracketCut();
    AsciiValid("[a@b]");
    AsciiValid("[a");
    AsciiValid("b]");
    BracketMade(Jid("", "[a@b]", ""));
    LocalMade(Jid("[a", "b]", ""));
    ParseIsCut("[a@b]");
  }

  lemma BracketCut()
    ensures Cut("[a@b]") == Jid("[a", "b]", "")
  {
    var s := "[a@b]";
    assert s == "[a" + ['@'] + "b]";
    CutAt("[a", '@', "b]");
    assert IndexOf(s, '/') == |s| && s[..|s|] == s;
  }

  lemma BracketMade(j: Jid)
    requires j.local == "" && j.resource == "" && 0 < |j.domain| <= MAX_PART_LEN && ValidUtf8(j.domain)
    requires j.domain[0] == '[' && j.domain[|j.domain| - 1] == ']'
    ensures Made(j)
  {
  }

  lemma LocalMade(j: Jid)
    requires j.resource == "" && 0 < |j.domain| <= MAX_PART_LEN && |j.local| <= MAX_PART_LEN
    requires ValidUtf8(j.domain) && ValidUtf8(j.local)
    requires PlainLocal(j) && '@' !in j.domain && '/' !in j.domain
    ensures Made(j)
  {
  }

  lemma {:induction false} AsciiValid(s: string)
    requires forall i :: 0 <= i < |s| ==> Within(s[i], 0, 0x7f)
    ensures ValidUtf8(s)
  {
    if s == "" {
    } else {
      AsciiValid(s[1..]);
    }
  }

  /** Different addresses print differently. */
  lemma StringInjective(a: Jid, b: Jid)
    requires Made(a) && Made(b) && Separable(a) && Separable(b) && a.String() == b.String()
    ensures a == b
  {
    ParseString(a);
    ParseString(b);
  }

  lemma BareAgain(bare: string)
    requires CutBare(bare).domain != ""
    ensures CutBare(bare).String() == bare <==> bare[0] != '@'
    ensures |CutBare(bare).String()| <= |bare|
  {
    var at, j := IndexOf(bare, '@'), CutBare(bare);
    if at == |bare| {
      assert j.String() == bare;
    } else if at > 0 {
      assert j.String() == bare[..at] + "@" + bare[at + 1..];
      assert bare == bare[..at] + [bare[at]] + bare[at + 1..];
    } else {
      assert |j.String()| < |bare|;
    }
  }

  /** Printing undoes cutting unless a part is empty though its separator is there. */
  lemma StringCut(s: string)
    requires s != "" && Cut(s).domain != ""
    ensures Cut(s).String() == s <==> s[0] != '@' && IndexOf(s, '/') != |s| - 1
  {
    var bare := BareText(s);
    CutIsBareCut(s);
    BareAgain(bare);
    StringOf(Cut(s));
    if IndexOf(s, '/') < |s| {
      StringCutFull(s, bare, CutBare(bare).String());
    }
  }

  lemma CutIsBareCut(s: string)
    ensures Cut(s).Bare() == CutBare(BareText(s))
    ensures IndexOf(s, '/') == |s| ==> BareText(s) == s && Cut(s).resource == ""
    ensures IndexOf(s, '/') < |s| ==> Cut(s).resource == s[IndexOf(s, '/') + 1..]
  {
  }

  lemma StringOf(j: Jid)
    ensures j.domain != "" && j.resource == "" ==> j.String() == j.Bare().String()
    ensures j.domain != "" && j.resource != "" ==> j.String() == j.Bare().String() + ("/" + j.resource)
  {
  }

  lemma StringCutFull(s: string, bare: string, text: string)
    requires IndexOf(s, '/') < |s| && bare == BareText(s) && bare != "" && |text| <= |bare|
    requires text == bare <==> bare[0] != '@'
    ensures var resource := s[IndexOf(s, '/') + 1..];
      (if resource == "" then text == s else text + ("/" + resource) == s) <==> s[0] != '@' && resource != ""
  {
    var resource := s[IndexOf(s, '/') + 1..];
    assert s == bare + ("/" + resource);
    SameStart(text, bare, "/" + resource);
  }

  lemma SameStart(a: string, b: string, t: string)
    ensures a + t == b + t <==> a == b
  {
    if a + t == b + t {
      assert a == (a + t)[..|a|] && b == (b + t)[..|b|];
    }
  }

  /** Printing undoes parsing exactly when no part is empty though its separator is there. */
  lemma StringParse(s: string)
    requires Parse(s).Accepted?
    ensures s != ""
    ensures Parse(s).jid.String() == s <==> s[0] != '@' && IndexOf(s, '/') != |s| - 1
  {
    ParseIsCut(s);
    MadeIsPlain(Cut(s));
    StringCut(s);
  }

  /** Cutting a printed address at the slash gives the printed bare address. */
  lemma BareTextOf(j: Jid)
    requires Made(j) && '/' !in j.domain
    ensures BareText(j.String()) == j.Bare().String()
  {
    MadeIsPlain(j);
    SlashAt(j);
  }

  // ------------------------------------------------------------------------------- escaping

  /** The replacement of one character, the character itself if it has none. */
  function EscapeChar(c: char): string {
    match c
    case '\\' => "\\5c"
    case ' ' => "\\20"
    case '\"' => "\\22"
    case '&' => "\\26"
    case '\'' => "\\27"
    case '/' => "\\2f"
    case ':' => "\\3a"
    case '<' => "\\3c"
    case '>' => "\\3e"
    case '@' => "\\40"
    case _ => [c]
  }

  function EscapeLocal(s: string): string {
    if s == "" then "" else EscapeChar(s[0]) + EscapeLocal(s[1..])
  }

  /** The character an escape sequence stands for, the backslash itself for any other text. */
  function UnescapeCode(code: string): char {
    if code == "\\20" then ' '
    else if code == "\\22" then '\"'
    else if code == "\\26" then '&'
    else if code == "\\27" then '\''
    else if code == "\\2f" then '/'
    else if code == "\\3a" then ':'
    else if code == "\\3c" then '<'
    else if code == "\\3e" then '>'
    else if code == "\\40" then '@'
    else '\\'
  }

  predicate IsCode(code: string) {
    UnescapeCode(code) != '\\' || code == "\\5c"
  }

  function UnescapeLocal(s: string): string {
    if s == "" then ""
    else if |s| >= 3 && IsCode(s[..3]) then [UnescapeCode(s[..3])] + UnescapeLocal(s[3..])
    else [s[0]] + UnescapeLocal(s[1..])
  }

  lemma UnescapeEscaped(c: char, rest: string)
    ensures UnescapeLocal(EscapeChar(c) + rest) == [c] + UnescapeLocal(rest)
  {
    var code := EscapeChar(c);
    var s := code + rest;
    if |code| == 3 {
      CodeOf(c);
      assert s[..3] == code && s[3..] == rest;
    } else {
      assert s[0] == c && s[1..] == rest && c != '\\';
      CodeStarts(s);
    }
  }

  lemma CodeOf(c: char)
    requires |EscapeChar(c)| == 3
    ensures IsCode(EscapeChar(c)) && UnescapeCode(EscapeChar(c)) == c
  {
  }

  lemma CodeStarts(s: string)
    ensures |s| >= 3 && IsCode(s[..3]) ==> s[0] == '\\'
  {
    assert |s| >= 3 ==> s[0] == s[..3][0];
  }

  /** Unescaping undoes escaping on every string. */
  lemma {:induction false} EscapeRoundTrip(s: string)
    ensures UnescapeLocal(EscapeLocal(s)) == s
  {
    if s == "" {
    } else {
      UnescapeEscaped(s[0], EscapeLocal(s[1..]));
      EscapeRoundTrip(s[1..]);
    }
  }

  predicate Reserved(c: char) {
    c == ' ' || c == '\"' || c == '&' || c == '\'' || c == '/' || c == ':' || c == '<' || c == '>' || c == '@'
  }

  /** The characters that are escaped: the reserved ones and the backslash. */
  predicate Special(c: char) {
    Reserved(c) || c == '\\'
  }

  function Hex(n: int): char
    requires 0 <= n < 16
  {
    "0123456789abcdef"[n]
  }

  /** A backslash and the two hexadecimal digits of the character. */
  function HexCode(c: char): string
    requires c < 128 as char
  {
    ['\\', Hex(c as int / 16), Hex(c as int % 16)]
  }

  /** Escaping writes a special character as its number and leaves every other one. */
  lemma EscapeIsHex(c: char)
    ensures EscapeChar(c) == if Special(c) then HexCode(c) else [c]
  {
  }

  predicate CodeAt(s: string, i: nat, c: char) {
    Special(c) && i + 3 <= |s| && s[i..i + 3] == HexCode(c)
  }

  lemma CodeIs(code: string)
    requires |code| == 3
    ensures IsCode(code) ==> Special(UnescapeCode(code)) && code == HexCode(UnescapeCode(code))
    ensures forall c :: Special(c) && code == HexCode(c) ==> IsCode(code) && UnescapeCode(code) == c
  {
    forall c | Special(c) && code == HexCode(c)
      ensures IsCode(code) && UnescapeCode(code) == c
    {
      EscapeIsHex(c);
      CodeOf(c);
    }
    if IsCode(code) {
      EscapeIsHex(UnescapeCode(code));
    }
  }

  predicate NoCodeBefore(s: string, i: nat) {
    forall j, c :: 0 <= j < i ==> !CodeAt(s, j, c)
  }

  lemma CodeShift(s: string, j: nat, c: char)
    requires s != "" && CodeAt(s[1..], j, c)
    ensures CodeAt(s, j + 1, c)
  {
    assert s[1..][j..j + 3] == s[j + 1..j + 4];
  }

  lemma NoCodeHere(s: string)
    requires s != "" && forall c :: !CodeAt(s, 0, c)
    ensures UnescapeLocal(s) == [s[0]] + UnescapeLocal(s[1..])
  {
    if |s| >= 3 {
      CodeIs(s[..3]);
      assert s[0..3] == s[..3];
      assert !CodeAt(s, 0, UnescapeCode(s[..3]));
    }
  }

  lemma NoCodeNext(s: string, i: nat)
    requires 0 < i <= |s| && NoCodeBefore(s, i)
    ensures NoCodeBefore(s[1..], i - 1)
    ensures UnescapeLocal(s) == [s[0]] + UnescapeLocal(s[1..])
  {
    forall j, c | 0 <= j < i - 1 && CodeAt(s[1..], j, c)
      ensures false
    {
      CodeShift(s, j, c);
    }
    NoCodeHere(s);
  }

  /** Unescaping replaces the first code of a text by its character and goes on behind it. */
  lemma {:induction false} UnescapeFirst(s: string, i: nat, c: char)
    requires CodeAt(s, i, c) && NoCodeBefore(s, i)
    ensures UnescapeLocal(s) == s[..i] + ([c] + UnescapeLocal(s[i + 3..]))
    decreases i
  {
    if i == 0 {
      CodeIs(s[..3]);
      assert s[0..3] == s[..3];
    } else {
      NoCodeNext(s, i);
      ShiftParts(s, i);
      UnescapeFirst(s[1..], i - 1, c);
      Prepend(s[0], s[1..][..i - 1], [c] + UnescapeLocal(s[i + 3..]));
    }
  }

  lemma ShiftParts(s: string, i: nat)
    requires 0 < i && i + 3 <= |s|
    ensures s[1..][i - 1..i + 2] == s[i..i + 3] && s[1..][i + 2..] == s[i + 3..] && s[..i] == [s[0]] + s[1..][..i - 1]
  {
  }

  lemma Prepend(c: char, a: string, b: string)
    ensures [c] + (a + b) == [c] + a + b
  {
  }

  /** A text without any code is left alone. */
  lemma {:induction false} UnescapeNone(s: string)
    requires NoCodeBefore(s, |s|)
    ensures UnescapeLocal(s) == s
  {
    if s == "" {
    } else {
      NoCodeNext(s, |s|);
      UnescapeNone(s[1..]);
    }
  }

  /** The escaped form has no separator and no other reserved character. */
  lemma {:induction false} EscapedIsPlain(s: string)
    ensures forall c :: c in EscapeLocal(s) ==> !Reserved(c)
  {
    if s == "" {
    } else {
      EscapedIsPlain(s[1..]);
      assert forall c :: c in EscapeChar(s[0]) ==> !Reserved(c);
    }
  }

  lemma {:induction false} AsciiPrefix(a: string, t: string)
    requires (forall i :: 0 <= i < |a| ==> Within(a[i], 0, 0x7f)) && ValidUtf8(t)
    ensures ValidUtf8(a + t)
  {
    if a == "" {
      assert a + t == t;
    } else {
      AsciiPrefix(a[1..], t);
      AsciiFirst(a[0], a[1..] + t);
      FirstApart(a, t);
    }
  }

  lemma FirstApart(a: string, t: string)
    requires a != ""
    ensures a + t == [a[0]] + (a[1..] + t)
  {
  }

  lemma AsciiFirst(c: char, t: string)
    requires Within(c, 0, 0x7f) && ValidUtf8(t)
    ensures ValidUtf8([c] + t)
  {
    assert RuneLength([c] + t) == 1;
    assert ([c] + t)[1..] == t;
  }

  lemma RunePrefix(a: string, t: string)
    requires a != "" && RuneLength(a) == |a| && ValidUtf8(t)
    ensures ValidUtf8(a + t)
  {
    assert RuneLength(a + t) == |a|;
    assert (a + t)[|a|..] == t;
  }

  lemma {:induction false} EscapeConcat(a: string, b: string)
    ensures EscapeLocal(a + b) == EscapeLocal(a) + EscapeLocal(b)
  {
    if a == "" {
      assert a + b == b;
    } else {
      assert (a + b)[1..] == a[1..] + b;
      EscapeConcat(a[1..], b);
    }
  }

  lemma {:induction false} HighStays(a: string)
    requires forall i :: 0 <= i < |a| ==> a[i] as int >= 0x80
    ensures EscapeLocal(a) == a
  {
    if a == "" {
    } else {
      HighStays(a[1..]);
      assert EscapeChar(a[0]) == [a[0]];
      assert a == [a[0]] + a[1..];
    }
  }

  lemma RuneEscape(a: string, t: string)
    requires a != "" && RuneLength(a) == |a| && ValidUtf8(t)
    ensures ValidUtf8(EscapeLocal(a) + t)
  {
    if |a| == 1 {
      assert EscapeLocal(a) == EscapeChar(a[0]) + EscapeLocal(a[1..]);
      AsciiPrefix(EscapeLocal(a), t);
    } else {
      HighStays(a);
      RunePrefix(a, t);
    }
  }

  lemma RuneAlone(s: string)
    ensures RuneLength(s[..RuneLength(s)]) == RuneLength(s)
  {
  }

  lemma {:induction false} EscapedIsValid(s: string)
    requires ValidUtf8(s)
    ensures ValidUtf8(EscapeLocal(s))
    decreases |s|
  {
    if s == "" {
    } else {
      var n := RuneLength(s);
      assert s == s[..n] + s[n..];
      EscapeConcat(s[..n], s[n..]);
      EscapedIsValid(s[n..]);
      RuneAlone(s);
      RuneEscape(s[..n], EscapeLocal(s[n..]));
    }
  }

  /**
    Any name in valid UTF-8 becomes the local part of an address once escaped, as long
    as it fits, and comes back from the printed address exactly when the domain's own
    separators allow it.
   */
  lemma NameTheorem(name: string, domain: string, resource: string)
    requires ValidUtf8(name) && |EscapeLocal(name)| <= MAX_PART_LEN
    requires Made(Jid("", domain, resource))
    ensures var j := Jid(EscapeLocal(name), domain, resource);
      && Made(j) && UnescapeLocal(j.local) == name
      && (Parse(j.String()) == Accepted(j) <==> '/' !in domain && (name == "" ==> '@' !in domain))
  {
    var j := Jid(EscapeLocal(name), domain, resource);
    EscapedFits(name);
    EscapeRoundTrip(name);
    MadeWith(j);
    ParseString(j);
  }

  lemma EscapedFits(name: string)
    requires ValidUtf8(name)
    ensures ValidLocal(EscapeLocal(name))
  {
    EscapedIsPlain(name);
    EscapedIsValid(name);
    assert Reserved('@') && Reserved('/');
  }

  lemma MadeWith(j: Jid)
    requires Made(Jid("", j.domain, j.resource)) && ValidLocal(j.local) && |j.local| <= MAX_PART_LEN
    ensures Made(j)
  {
  }
}
