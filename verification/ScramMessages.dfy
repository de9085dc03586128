/**
  The text of SCRAM messages: attributes separated by commas (sasl/scram.go), and
  the escaping of user names in section 5.1 of RFC 5802.
 */
module ScramMessages {
  import opened Text

  // ------------------------------------------------------------------------------- attributes

  /** strings.Split at commas. */
  function Split(s: string): seq<string>
    decreases |s|
  {
    var i := IndexOf(s, ',');
    if i == |s| then [s] else [s[..i]] + Split(s[i + 1..])
  }

  /** Takes up one part; a part without '=' or with an empty name counts for nothing. */
  function Attribute(attrs: map<string, string>, part: string): map<string, string> {
    var i := IndexOf(part, '=');
    if 0 < i < |part| then attrs[part[..i] := part[i + 1..]] else attrs
  }

  function Attributes(parts: seq<string>): map<string, string> {
    if parts == [] then map[]
    else
      var n := |parts| - 1;
      Attribute(Attributes(parts[..n]), parts[n])
  }

  function Parse(s: string): map<string, string> {
    Attributes(Split(s))
  }

  method ParseAttributes(s: string) returns (attrs: map<string, string>)
    ensures attrs == Parse(s)
  {
    attrs := map[];
    var parts := Split(s);
    for k := 0 to |parts|
      invariant attrs == Attributes(parts[..k])
    {
      assert parts[..k + 1][..k] == parts[..k];
      var part := parts[k];
      var i := IndexOf(part, '=');
      if 0 < i < |part| {
        attrs := attrs[part[..i] := part[i + 1..]];
      }
    }
    assert parts[..|parts|] == parts;
  }

  // --------------------------------------------------------------------------------- printing

  datatype Field = Field(name: string, value: string) {
    predicate Plain() {
      name != "" && '=' !in name && ',' !in name && ',' !in value
    }

    function Text(): string {
      name + "=" + value
    }
  }

  function Print(fields: seq<Field>): string
    requires fields != []
  {
    if |fields| == 1 then fields[0].Text() else fields[0].Text() + "," + Print(fields[1..])
  }

  function Texts(fields: seq<Field>): seq<string> {
    seq(|fields|, i requires 0 <= i < |fields| => fields[i].Text())
  }

  /** The attributes a list of fields gives, later fields winning. */
  function Contents(fields: seq<Field>): map<string, string> {
    if fields == [] then map[]
    else
      var n := |fields| - 1;
      Contents(fields[..n])[fields[n].name := fields[n].value]
  }

  lemma NoCommaInText(f: Field)
    requires f.Plain()
    ensures ',' !in f.Text()
  {
  }

  lemma PrintCons(f: Field, rest: seq<Field>)
    requires rest != []
    ensures Print([f] + rest) == f.Text() + [','] + Print(rest)
    ensures Texts([f] + rest) == [f.Text()] + Texts(rest)
  {
    assert ([f] + rest)[1..] == rest;
  }

  lemma SplitFirst(a: string, b: string)
    requires ',' !in a
    ensures Split(a + [','] + b) == [a] + Split(b)
    ensures Split(a) == [a]
  {
    CutAt(a, ',', b);
  }

  lemma {:induction false} SplitPrint(fields: seq<Field>)
    requires fields != [] && forall f :: f in fields ==> f.Plain()
    ensures Split(Print(fields)) == Texts(fields)
    decreases |fields|
  {
    var f, rest := fields[0], fields[1..];
    assert fields == [f] + rest;
    NoCommaInText(f);
    if rest == [] {
      SplitFirst(f.Text(), "");
    } else {
      PrintCons(f, rest);
      SplitFirst(f.Text(), Print(rest));
      SplitPrint(rest);
    }
  }

  lemma AttributeOfField(attrs: map<string, string>, f: Field)
    requires f.Plain()
    ensures Attribute(attrs, f.Text()) == attrs[f.name := f.value]
  {
    CutAt(f.name, '=', f.value);
    assert f.Text() == f.name + ['='] + f.value;
  }

  lemma {:induction false} AttributesOfTexts(fields: seq<Field>)
    requires forall f :: f in fields ==> f.Plain()
    ensures Attributes(Texts(fields)) == Contents(fields)
    decreases |fields|
  {
    if fields == [] {
    } else {
      var n := |fields| - 1;
      assert Texts(fields)[..n] == Texts(fields[..n]);
      AttributesOfTexts(fields[..n]);
      AttributeOfField(Contents(fields[..n]), fields[n]);
    }
  }

  /** The parser undoes the printer on all fields without separators in the wrong place. */
  lemma ParsePrint(fields: seq<Field>)
    requires fields != [] && forall f :: f in fields ==> f.Plain()
    ensures Parse(Print(fields)) == Contents(fields)
  {
    SplitPrint(fields);
    AttributesOfTexts(fields);
  }

  lemma ContentsSnoc(fields: seq<Field>, f: Field)
    ensures Contents(fields + [f]) == Contents(fields)[f.name := f.value]
  {
    assert (fields + [f])[..|fields|] == fields;
  }

  lemma ParsePrint1(a: Field)
    requires a.Plain()
    ensures Parse(a.Text()) == map[a.name := a.value]
  {
    ParsePrint([a]);
    ContentsSnoc([], a);
  }

  lemma ParsePrint2(a: Field, b: Field)
    requires a.Plain() && b.Plain()
    ensures Parse(a.Text() + "," + b.Text()) == map[a.name := a.value][b.name := b.value]
  {
    ParsePrint([a, b]);
    PrintCons(a, [b]);
    ContentsSnoc([a], b);
    ContentsSnoc([], a);
    assert [a] + [b] == [a, b];
  }

  lemma ParsePrint3(a: Field, b: Field, c: Field)
    requires a.Plain() && b.Plain() && c.Plain()
    ensures Parse(a.Text() + "," + (b.Text() + "," + c.Text()))
            == map[a.name := a.value][b.name := b.value][c.name := c.value]
  {
    ParsePrint([a, b, c]);
    assert [a] + [b, c] == [a, b, c] && [b] + [c] == [b, c];
    PrintCons(a, [b, c]);
    PrintCons(b, [c]);
    assert [a, b] + [c] == [a, b, c] && [a] + [b] == [a, b];
    ContentsSnoc([a, b], c);
    ContentsSnoc([a], b);
    ContentsSnoc([], a);
  }

  // ------------------------------------------------------------------------ what any text means

  function Joined(parts: seq<string>): string
    requires parts != []
  {
    if |parts| == 1 then parts[0] else parts[0] + [','] + Joined(parts[1..])
  }

  /** The parts are those between the commas. */
  lemma {:induction false} SplitMeans(s: string)
    ensures Split(s) != [] && Joined(Split(s)) == s && forall k :: 0 <= k < |Split(s)| ==> ',' !in Split(s)[k]
    decreases |s|
  {
    var i := IndexOf(s, ',');
    if i == |s| {
    } else {
      SplitMeans(s[i + 1..]);
      assert ([s[..i]] + Split(s[i + 1..]))[1..] == Split(s[i + 1..]);
      assert s == s[..i] + [','] + s[i + 1..];
    }
  }

  /** The part is this name, an equals sign and a value. */
  predicate Gives(part: string, name: string) {
    name != "" && '=' !in name && |part| > |name| && part[..|name|] == name && part[|name|] == '='
  }

  lemma AttributeMeans(attrs: map<string, string>, part: string, name: string)
    ensures var attrs' := Attribute(attrs, part);
      && (name in attrs' <==> name in attrs || Gives(part, name))
      && (Gives(part, name) ==> attrs'[name] == part[|name| + 1..])
      && (!Gives(part, name) && name in attrs ==> attrs'[name] == attrs[name])
  {
    var i := IndexOf(part, '=');
    if Gives(part, name) {
      assert forall j :: 0 <= j < |name| ==> part[j] == part[..|name|][j];
      assert i == |name|;
    } else if 0 < i < |part| {
      assert part[..i] != name || '=' in name;
    }
  }

  predicate LastGiver(parts: seq<string>, name: string, k: nat) {
    k < |parts| && Gives(parts[k], name) && forall j :: k < j < |parts| ==> !Gives(parts[j], name)
  }

  predicate Given(parts: seq<string>, name: string) {
    exists k :: 0 <= k < |parts| && Gives(parts[k], name)
  }

  lemma GivenBy(parts: seq<string>, name: string)
    requires parts != []
    ensures Given(parts, name) <==> Given(parts[..|parts| - 1], name) || Gives(parts[|parts| - 1], name)
  {
    var n := |parts| - 1;
    if Given(parts[..n], name) {
      var k :| 0 <= k < n && Gives(parts[..n][k], name);
      assert Gives(parts[k], name);
    }
    if k :| 0 <= k < n && Gives(parts[k], name) {
      assert Gives(parts[..n][k], name);
    }
  }

  lemma LastGiverBefore(parts: seq<string>, name: string, k: nat)
    requires LastGiver(parts, name, k) && k < |parts| - 1
    ensures LastGiver(parts[..|parts| - 1], name, k) && !Gives(parts[|parts| - 1], name)
  {
  }

  lemma {:induction false} AttributeGiven(parts: seq<string>, name: string)
    ensures name in Attributes(parts) <==> Given(parts, name)
    decreases |parts|
  {
    if parts == [] {
    } else {
      var n := |parts| - 1;
      AttributeGiven(parts[..n], name);
      GivenBy(parts, name);
      AttributeMeans(Attributes(parts[..n]), parts[n], name);
    }
  }

  lemma {:induction false} AttributeValue(parts: seq<string>, name: string, k: nat)
    requires LastGiver(parts, name, k)
    ensures name in Attributes(parts) && Attributes(parts)[name] == parts[k][|name| + 1..]
    decreases |parts|
  {
    var n := |parts| - 1;
    AttributeMeans(Attributes(parts[..n]), parts[n], name);
    if k == n {
    } else {
      LastGiverBefore(parts, name, k);
      AttributeValue(parts[..n], name, k);
    }
  }

  /**
    What the parser makes of any text: a name has a value exactly when some part between commas
    is that name, an equals sign and a value, and then the value of the last such part.
   */
  lemma ParseMeans(s: string, name: string)
    ensures Joined(Split(s)) == s && forall k :: 0 <= k < |Split(s)| ==> ',' !in Split(s)[k]
    ensures name in Parse(s) <==> Given(Split(s), name)
    ensures forall k: nat :: LastGiver(Split(s), name, k) ==> name in Parse(s) && Parse(s)[name] == Split(s)[k][|name| + 1..]
  {
    SplitMeans(s);
    AttributeGiven(Split(s), name);
    forall k: nat | LastGiver(Split(s), name, k)
      ensures name in Parse(s) && Parse(s)[name] == Split(s)[k][|name| + 1..]
    {
      AttributeValue(Split(s), name, k);
    }
  }

  // --------------------------------------------------------------------------------- user names

  function Escape(s: string): string {
    ReplaceChar(ReplaceChar(s, '=', "=3D"), ',', "=2C")
  }

  /** The server's reading of a user name; nothing for a '=' that escapes neither character. */
  function Unescape(s: string): string {
    if s == "" then ""
    else if |s| >= 3 && s[..3] == "=2C" then "," + Unescape(s[3..])
    else if |s| >= 3 && s[..3] == "=3D" then "=" + Unescape(s[3..])
    else [s[0]] + Unescape(s[1..])
  }

  function EscapedChar(c: char): string {
    if c == '=' then "=3D" else if c == ',' then "=2C" else [c]
  }

  lemma ReplaceOne(c: char, d: char, put: string)
    ensures ReplaceChar([c], d, put) == if c == d then put else [c]
  {
  }

  /** The two passes together treat each character on its own. */
  lemma EscapeCons(c: char, s: string)
    ensures Escape([c] + s) == EscapedChar(c) + Escape(s)
  {
    ReplaceConcat([c], s, '=', "=3D");
    ReplaceOne(c, '=', "=3D");
    var first := ReplaceChar([c], '=', "=3D");
    ReplaceConcat(first, ReplaceChar(s, '=', "=3D"), ',', "=2C");
    ReplaceOne(c, ',', "=2C");
    if c == '=' {
      EqualsStays();
    }
  }

  lemma EqualsStays()
    ensures ReplaceChar("=3D", ',', "=2C") == "=3D"
  {
    assert "=3D" == ['='] + ['3'] + ['D'];
    ReplaceConcat(['='] + ['3'], ['D'], ',', "=2C");
    ReplaceConcat(['='], ['3'], ',', "=2C");
  }

  lemma UnescapeChar(c: char, rest: string)
    ensures Unescape(EscapedChar(c) + rest) == [c] + Unescape(rest)
  {
    var s := EscapedChar(c) + rest;
    if c == '=' || c == ',' {
      assert s[..3] == EscapedChar(c);
      assert s[3..] == rest;
    } else {
      assert s[0] == c && s[1..] == rest;
      assert |s| >= 3 ==> s[..3][0] == c;
    }
  }

  /** A server reads back the user name the client escaped, and no comma ends it early. */
  lemma {:induction false} EscapeRoundTrip(s: string)
    ensures Unescape(Escape(s)) == s
    ensures ',' !in Escape(s)
    decreases |s|
  {
    if s == "" {
    } else {
      assert s == [s[0]] + s[1..];
      EscapeCons(s[0], s[1..]);
      UnescapeChar(s[0], Escape(s[1..]));
      EscapeRoundTrip(s[1..]);
    }
  }
}
