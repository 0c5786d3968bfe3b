/** The realm document: values are escaped for JSON and placed into the `%.NAME%` holes of the
    template in one pass. Strings are sequences of Unicode scalar values. */
module RealmDocument {
  import opened Names

  // Escaping.

  predicate Contains(s: string, part: string) {
    exists i :: 0 <= i <= |s| && part <= s[i..]
  }

  /** Values that look like PEM blocks or keys are not escaped. */
  predicate HasPemMarker(v: string) {
    Contains(v, "-----BEGIN") || Contains(v, "-----END")
  }

  function HexDigit(n: int): char
    requires 0 <= n < 16
  {
    if n < 10 then '0' + n as char else 'a' + (n - 10) as char
  }

  function HexValue(c: char): Option<int> {
    if '0' <= c <= '9' then Some(c as int - '0' as int)
    else if 'a' <= c <= 'f' then Some(c as int - 'a' as int + 10)
    else if 'A' <= c <= 'F' then Some(c as int - 'A' as int + 10)
    else None
  }

  /** How Go's JSON encoder writes one character. */
  function EscapeChar(c: char): string {
    if c == '"' then ['\\', '"']
    else if c == '\\' then ['\\', '\\']
    else if c == '\n' then ['\\', 'n']
    else if c == '\r' then ['\\', 'r']
    else if c == '\t' then ['\\', 't']
    else if c as int == 8 then ['\\', 'b']
    else if c as int == 12 then ['\\', 'f']
    else if c as int < 0x20 || c == '<' || c == '>' || c == '&' then
      ['\\', 'u', '0', '0', HexDigit(c as int / 16), HexDigit(c as int % 16)]
    else if c as int == 0x2028 || c as int == 0x2029 then ['\\', 'u', '2', '0', '2', HexDigit(c as int % 16)]
    else [c]
  }

  function Escape(v: string): string {
    if v == [] then [] else EscapeChar(v[0]) + Escape(v[1..])
  }

  function EscapeString(v: string): string {
    if HasPemMarker(v) then v else Escape(v)
  }

  // Reading a JSON string literal: section 7 of RFC 8259.

  /** The character that the text begins with, and how many characters spell it. */
  datatype Token = Token(value: char, length: nat)

  function CodeUnit(s: string): Option<int> {
    if |s| < 6 || s[0] != '\\' || s[1] != 'u' then None
    else
      match (HexValue(s[2]), HexValue(s[3]), HexValue(s[4]), HexValue(s[5]))
      case (Some(a), Some(b), Some(c), Some(d)) => Some(a * 4096 + b * 256 + c * 16 + d)
      case _ => None
  }

  /** A `\u` escape, or the pair of them that spells a supplementary character. */
  function UnicodeToken(s: string): Option<Token> {
    match CodeUnit(s)
    case None => None
    case Some(u) =>
      if u < 0xD800 || 0xE000 <= u < 0x10000 then Some(Token(u as char, 6))
      else if u < 0 || u >= 0xDC00 then None
      else
        match CodeUnit(s[6..])
        case Some(l) => if 0xDC00 <= l < 0xE000
            then Some(Token((0x10000 + (u - 0xD800) * 1024 + (l - 0xDC00)) as char, 12)) else None
        case None => None
  }

  function SimpleEscape(c: char): Option<char> {
    if c == '"' || c == '\\' || c == '/' then Some(c)
    else if c == 'b' then Some(8 as char)
    else if c == 'f' then Some(12 as char)
    else if c == 'n' then Some('\n')
    else if c == 'r' then Some('\r')
    else if c == 't' then Some('\t')
    else None
  }

  predicate Plain(c: char) {
    c as int >= 0x20 && c != '"' && c != '\\'
  }

  function FirstToken(s: string): Option<Token>
    requires s != []
  {
    if Plain(s[0]) then Some(Token(s[0], 1))
    else if s[0] != '\\' || |s| < 2 then None
    else if s[1] == 'u' then UnicodeToken(s)
    else match SimpleEscape(s[1])
      case Some(c) => Some(Token(c, 2))
      case None => None
  }

  lemma TokenLength(s: string)
    requires s != [] && FirstToken(s).Some?
    ensures 1 <= FirstToken(s).value.length <= |s|
    ensures s[0] == '\\' ==> FirstToken(s).value.length >= 2
  {
  }

  /** The value of the text between the quotes, if it is a well-formed literal. */
  function Decode(s: string): Option<string>
    decreases |s|
  {
    if s == [] then Some([])
    else
      match FirstToken(s)
      case None => None
      case Some(t) =>
        TokenLength(s);
        match Decode(s[t.length..])
        case None => None
        case Some(rest) => Some([t.value] + rest)
  }

  /** Reads from behind the opening quote: the value of the literal and the position of its closing quote. */
  function ReadLiteral(s: string): Option<(string, nat)>
    decreases |s|
  {
    if s == [] then None
    else if s[0] == '"' then Some(("", 0))
    else
      match FirstToken(s)
      case None => None
      case Some(t) =>
        TokenLength(s);
        match ReadLiteral(s[t.length..])
        case None => None
        case Some(r) => Some(([t.value] + r.0, t.length + r.1))
  }

  lemma TokenPrefix(a: string, b: string)
    requires a != [] && FirstToken(a).Some?
    ensures FirstToken(a + b) == FirstToken(a)
  {
    assert (a + b)[0] == a[0];
    if |a| >= 6 {
      assert CodeUnit(a).Some? ==> CodeUnit(a + b) == CodeUnit(a);
      if CodeUnit(a[6..]).Some? {
        assert (a + b)[6..] == a[6..] + b;
        assert CodeUnit(a[6..] + b) == CodeUnit(a[6..]);
      }
    }
  }

  function Join(v: string, rest: Option<string>): Option<string> {
    if rest.None? then None else Some(v + rest.value)
  }

  lemma DecodeStep(s: string, t: Token)
    requires s != [] && FirstToken(s) == Some(t)
    ensures 1 <= t.length <= |s| && Decode(s) == Join([t.value], Decode(s[t.length..]))
  {
    TokenLength(s);
  }

  lemma JoinAssociative(u: string, v: string, rest: Option<string>)
    ensures Join(u, Join(v, rest)) == Join(u + v, rest)
  {
    if rest.Some? { assert u + (v + rest.value) == u + v + rest.value; }
  }

  lemma DropPrefix(a: string, b: string, n: nat)
    requires n <= |a|
    ensures (a + b)[n..] == a[n..] + b
  {
  }

  /** Decoding goes token by token, so a text that decodes on its own decodes in front of any other. */
  lemma {:induction false} DecodeConcat(a: string, b: string)
    requires Decode(a).Some?
    ensures Decode(a + b) == Join(Decode(a).value, Decode(b))
    decreases |a|
  {
    if a == [] {
      assert a + b == b;
      assert Decode(b).Some? ==> [] + Decode(b).value == Decode(b).value;
    } else {
      var t := FirstToken(a).value;
      DecodeStep(a, t);
      TokenPrefix(a, b);
      DecodeStep(a + b, t);
      DropPrefix(a, b, t.length);
      DecodeConcat(a[t.length..], b);
      JoinAssociative([t.value], Decode(a[t.length..]).value, Decode(b));
    }
  }

  /** A decodable text contains no bare quote: the literal ends right behind it. */
  lemma {:induction false} LiteralEnds(a: string, rest: string)
    requires Decode(a).Some?
    ensures ReadLiteral(a + "\"" + rest) == Some((Decode(a).value, |a|))
    decreases |a|
  {
    var tail := "\"" + rest;
    assert a + "\"" + rest == a + tail;
    if a == [] {
      assert a + tail == tail;
    } else {
      var n := FirstToken(a).value.length;
      TokenLength(a);
      TokenPrefix(a, tail);
      DropPrefix(a, tail, n);
      assert a[n..] + "\"" + rest == a[n..] + tail;
      LiteralEnds(a[n..], rest);
    }
  }

  lemma HexRoundTrip(n: int)
    requires 0 <= n < 16
    ensures HexValue(HexDigit(n)) == Some(n)
  {
  }

  lemma EscapeCharDecodes(c: char)
    ensures EscapeChar(c) != [] && FirstToken(EscapeChar(c)) == Some(Token(c, |EscapeChar(c)|))
  {
    if c as int < 0x80 {
      HexRoundTrip(c as int / 16);
    }
    HexRoundTrip(c as int % 16);
  }

  lemma SingleToken(s: string)
    requires s != [] && FirstToken(s).Some? && FirstToken(s).value.length == |s|
    ensures Decode(s) == Some([FirstToken(s).value.value])
  {
    var c := FirstToken(s).value.value;
    assert s[|s|..] == [];
    assert [c] + [] == [c];
  }

  lemma {:induction false} EscapeDecodes(v: string)
    ensures Decode(Escape(v)) == Some(v)
  {
    if v != [] {
      EscapeCharDecodes(v[0]);
      SingleToken(EscapeChar(v[0]));
      EscapeDecodes(v[1..]);
      DecodeConcat(EscapeChar(v[0]), Escape(v[1..]));
      assert v == [v[0]] + v[1..];
    }
  }

  lemma {:induction false} DecodeShrinks(s: string)
    requires Decode(s).Some?
    ensures |Decode(s).value| <= |s|
    decreases |s|
  {
    if s != [] {
      TokenLength(s);
      DecodeShrinks(s[FirstToken(s).value.length..]);
    }
  }

  ghost predicate AllPlain(v: string) {
    forall i :: 0 <= i < |v| ==> Plain(v[i])
  }

  /** Only plain text denotes itself. */
  lemma {:induction false} PlainDenotesItself(v: string)
    ensures Decode(v) == Some(v) <==> AllPlain(v)
  {
    if v != [] {
      if Plain(v[0]) {
        PlainDenotesItself(v[1..]);
        assert v == [v[0]] + v[1..];
        assert AllPlain(v) <==> AllPlain(v[1..]);
      } else if FirstToken(v).Some? {
        TokenLength(v);
        if Decode(v[FirstToken(v).value.length..]).Some? { DecodeShrinks(v[FirstToken(v).value.length..]); }
      }
    }
  }

  /** This text stands at position i of the value. */
  ghost predicate SliceAt(v: string, i: int, part: string) {
    0 <= i <= |v| - |part| && v[i..i + |part|] == part
  }

  ghost predicate HasSlice(v: string, part: string) {
    exists i :: SliceAt(v, i, part)
  }

  lemma ContainsSlice(v: string, part: string)
    ensures Contains(v, part) <==> HasSlice(v, part)
  {
    if Contains(v, part) {
      var i :| 0 <= i <= |v| && part <= v[i..];
      assert SliceAt(v, i, part);
    }
    if HasSlice(v, part) {
      var i :| SliceAt(v, i, part);
      assert v[i..][..|part|] == part;
      assert part <= v[i..];
    }
  }

  /** Exactly the values with one of the two markers in them are placed as they are; all others are
      escaped so that they decode to themselves. */
  lemma EscapeExactly(v: string)
    ensures HasSlice(v, "-----BEGIN") || HasSlice(v, "-----END") ==> EscapeString(v) == v
    ensures !HasSlice(v, "-----BEGIN") && !HasSlice(v, "-----END") ==> Decode(EscapeString(v)) == Some(v)
  {
    ContainsSlice(v, "-----BEGIN");
    ContainsSlice(v, "-----END");
    EscapeDecodes(v);
  }

  /** Values that survive the trip through the document: those without a marker, and those that need no
      escape. */
  ghost predicate Safe(v: string) {
    HasSlice(v, "-----BEGIN") || HasSlice(v, "-----END") ==> AllPlain(v)
  }

  /** The escape round-trips exactly for the safe values: a PEM block with line breaks does not. */
  lemma EscapeRoundTrip(v: string)
    ensures Decode(EscapeString(v)) == Some(v) <==> Safe(v)
  {
    EscapeExactly(v);
    PlainDenotesItself(v);
  }

  lemma NoSlice(v: string, part: string)
    requires part != [] && forall i :: 0 <= i < |v| ==> v[i] != part[0]
    ensures !HasSlice(v, part)
  {
    assert forall i :: SliceAt(v, i, part) ==> v[i] == v[i..i + |part|][0];
  }

  lemma NoMarker(v: string)
    requires forall i :: 0 <= i < |v| ==> v[i] != '-'
    ensures EscapeString(v) == Escape(v)
  {
    ContainsSlice(v, "-----BEGIN");
    ContainsSlice(v, "-----END");
    NoSlice(v, "-----BEGIN");
    NoSlice(v, "-----END");
  }

  /** A quote and a backslash. */
  lemma EscapeSamples()
    ensures EscapeString("p\"w") == "p\\\"w" && EscapeString("p\\w") == "p\\\\w"
  {
    NoMarker("p\"w");
    NoMarker("p\\w");
    EscapeThree('p', '"', 'w');
    EscapeThree('p', '\\', 'w');
  }

  /** A line break, and the characters that HTML is made of. */
  lemma MoreEscapeSamples()
    ensures EscapeString("p\r\nw") == "p\\r\\nw" && EscapeString("<&>") == "\\u003c\\u0026\\u003e"
  {
    NoMarker("p\r\nw");
    NoMarker("<&>");
    EscapeThree('<', '&', '>');
    EscapeFour('p', '\r', '\n', 'w');
  }

  lemma EscapeThree(a: char, b: char, c: char)
    ensures Escape([a, b, c]) == EscapeChar(a) + (EscapeChar(b) + EscapeChar(c))
  {
    assert [a, b, c][1..] == [b, c] && [b, c][1..] == [c] && [c][1..] == [];
    assert Escape([c]) == EscapeChar(c) + [] == EscapeChar(c);
    assert Escape([b, c]) == EscapeChar(b) + EscapeChar(c);
  }

  lemma EscapeFour(a: char, b: char, c: char, d: char)
    ensures Escape([a, b, c, d]) == EscapeChar(a) + (EscapeChar(b) + (EscapeChar(c) + EscapeChar(d)))
  {
    assert [a, b, c, d][1..] == [b, c, d];
    EscapeThree(b, c, d);
  }

  // The template.

  datatype Node = Lit(text: string) | Hole(name: string)

  predicate NameChar(c: char) {
    'a' <= c <= 'z' || 'A' <= c <= 'Z' || '0' <= c <= '9' || c == '_'
  }

  predicate ValidName(name: string) {
    name != [] && !('0' <= name[0] <= '9') && forall i :: 0 <= i < |name| ==> NameChar(name[i])
  }

  /** The position of the first `%`, or the length. */
  function NextPercent(t: string): (n: nat)
    ensures n <= |t| && (n < |t| ==> t[n] == '%') && forall i :: 0 <= i < n ==> t[i] != '%'
  {
    if t == [] || t[0] == '%' then 0 else 1 + NextPercent(t[1..])
  }

  function Prepend(n: Node, nodes: Option<seq<Node>>): Option<seq<Node>> {
    if nodes.None? then None else Some([n] + nodes.value)
  }

  /** Literal text and `%.NAME%` actions. */
  function Parse(t: string): Option<seq<Node>>
    decreases |t|
  {
    if t == [] then Some([])
    else if t[0] != '%' then
      var n := NextPercent(t);
      Prepend(Lit(t[..n]), Parse(t[n..]))
    else
      var n := NextPercent(t[1..]);
      if n == |t| - 1 || n == 0 || t[1] != '.' || !ValidName(t[2..n + 1]) then None
      else Prepend(Hole(t[2..n + 1]), Parse(t[n + 2..]))
  }

  /** Writes the values into the holes; a missing one is an error. */
  function Fill(nodes: seq<Node>, values: map<string, string>): Option<string> {
    if nodes == [] then Some([])
    else
      match Fill(nodes[1..], values)
      case None => None
      case Some(rest) =>
        match nodes[0]
        case Lit(text) => Some(text + rest)
        case Hole(name) => if name in values then Some(values[name] + rest) else None
  }

  function Expand(t: string, values: map<string, string>): Option<string> {
    match Parse(t)
    case None => None
    case Some(nodes) => Fill(nodes, values)
  }

  function Render(nodes: seq<Node>): string {
    if nodes == [] then []
    else
      match nodes[0]
      case Lit(text) => text + Render(nodes[1..])
      case Hole(name) => "%." + name + "%" + Render(nodes[1..])
  }

  /** The normal form of a template: maximal literals, valid names. */
  ghost predicate Normal(nodes: seq<Node>) {
    nodes != [] ==>
      && Normal(nodes[1..])
      && match nodes[0]
         case Lit(text) => text != [] && '%' !in text && (|nodes| > 1 ==> nodes[1].Hole?)
         case Hole(name) => ValidName(name)
  }

  lemma NextPercentIs(t: string, n: nat)
    requires n <= |t| && (n < |t| ==> t[n] == '%') && forall i :: 0 <= i < n ==> t[i] != '%'
    ensures NextPercent(t) == n
  {
  }

  lemma ParseLit(text: string, rest: string)
    requires text != [] && '%' !in text && (rest != [] ==> rest[0] == '%')
    ensures Parse(text + rest) == Prepend(Lit(text), Parse(rest))
  {
    var t := text + rest;
    NextPercentIs(t, |text|);
    assert t[..|text|] == text && t[|text|..] == rest;
  }

  lemma HoleSlices(name: string, rest: string)
    ensures var t, n := "%." + name + "%" + rest, |name| + 1;
      && |t| >= n + 2 && t[0] == '%' && t[1] == '.' && t[n + 1] == '%'
      && t[2..n + 1] == name && t[n + 2..] == rest && t[1..] == "." + name + "%" + rest
  {
  }

  lemma HoleEnds(name: string, rest: string)
    requires ValidName(name)
    ensures NextPercent("." + name + "%" + rest) == |name| + 1
  {
    var u := "." + name + "%" + rest;
    assert forall i :: 0 < i <= |name| ==> u[i] == name[i - 1] && NameChar(u[i]);
    NextPercentIs(u, |name| + 1);
  }

  lemma ParseAction(t: string, n: nat)
    requires |t| >= n + 2 && n > 0 && t[0] == '%' && t[1] == '.' && NextPercent(t[1..]) == n && ValidName(t[2..n + 1])
    ensures Parse(t) == Prepend(Hole(t[2..n + 1]), Parse(t[n + 2..]))
  {
  }

  lemma ParseHole(name: string, rest: string)
    requires ValidName(name)
    ensures Parse("%." + name + "%" + rest) == Prepend(Hole(name), Parse(rest))
  {
    HoleSlices(name, rest);
    HoleEnds(name, rest);
    ParseAction("%." + name + "%" + rest, |name| + 1);
  }

  /** Parsing inverts rendering. */
  lemma {:induction false} ParseRender(nodes: seq<Node>)
    requires Normal(nodes)
    ensures Parse(Render(nodes)) == Some(nodes)
  {
    if nodes != [] {
      ParseRender(nodes[1..]);
      assert nodes == [nodes[0]] + nodes[1..];
      match nodes[0]
      case Lit(text) =>
        assert |nodes| > 1 ==> nodes[1..][0].Hole? && Render(nodes[1..])[0] == '%';
        ParseLit(text, Render(nodes[1..]));
      case Hole(name) => ParseHole(name, Render(nodes[1..]));
    }
  }

  lemma RenderLit(t: string)
    requires t != [] && t[0] != '%'
    ensures var n := NextPercent(t); n > 0 && t == t[..n] + t[n..] && '%' !in t[..n] && (t[n..] != [] ==> t[n] == '%')
  {
  }

  lemma RenderHole(t: string)
    requires t != [] && t[0] == '%'
    ensures var n := NextPercent(t[1..]);
      n < |t| - 1 && n > 0 && t[1] == '.' ==> t == "%." + t[2..n + 1] + "%" + t[n + 2..]
  {
    var n := NextPercent(t[1..]);
    if n < |t| - 1 {
      assert t[n + 1] == t[1..][n] == '%';
    }
  }

  /** Rendering inverts parsing. */
  lemma {:induction false} RenderParse(t: string)
    requires Parse(t).Some?
    ensures Normal(Parse(t).value) && Render(Parse(t).value) == t
    decreases |t|
  {
    if t != [] {
      var nodes := Parse(t).value;
      if t[0] != '%' {
        var n := NextPercent(t);
        RenderLit(t);
        RenderParse(t[n..]);
        assert nodes[1..] == Parse(t[n..]).value;
        assert t[n..] != [] ==> nodes[1].Hole? by { if t[n..] != [] { assert t[n..][0] == '%'; } }
      } else {
        var n := NextPercent(t[1..]);
        RenderHole(t);
        RenderParse(t[n + 2..]);
        assert nodes[1..] == Parse(t[n + 2..]).value;
      }
    }
  }

  // Values in a document.

  /** The escaped values of the variables. */
  function Escaped(raw: map<string, string>): map<string, string> {
    map name | name in raw :: EscapeString(raw[name])
  }

  /** What a literal with holes stands for: its text decoded, with the raw values in place. */
  ghost function Meaning(nodes: seq<Node>, raw: map<string, string>): Option<string> {
    if nodes == [] then Some([])
    else
      match Meaning(nodes[1..], raw)
      case None => None
      case Some(rest) =>
        match nodes[0]
        case Hole(name) => if name in raw then Some(raw[name] + rest) else None
        case Lit(text) =>
          match Decode(text)
          case None => None
          case Some(v) => Some(v + rest)
  }

  ghost predicate AllSafe(nodes: seq<Node>, raw: map<string, string>) {
    forall i :: 0 <= i < |nodes| && nodes[i].Hole? && nodes[i].name in raw ==> Safe(raw[nodes[i].name])
  }

  /** Escaping commutes with substitution: decoding the filled literal gives its meaning. */
  lemma {:induction false} FillDecodes(nodes: seq<Node>, raw: map<string, string>)
    requires Meaning(nodes, raw).Some? && AllSafe(nodes, raw)
    ensures Fill(nodes, Escaped(raw)).Some?
    ensures Decode(Fill(nodes, Escaped(raw)).value) == Meaning(nodes, raw)
  {
    if nodes != [] {
      FillDecodes(nodes[1..], raw);
      var rest := Fill(nodes[1..], Escaped(raw)).value;
      match nodes[0]
      case Lit(text) => DecodeConcat(text, rest);
      case Hole(name) =>
        assert Safe(raw[nodes[0].name]);
        EscapeRoundTrip(raw[name]);
        DecodeConcat(EscapeString(raw[name]), rest);
    }
  }

  /** A string literal of a realm document, whatever follows it: expanding the template text `t` with
      the escaped values and reading the literal back gives the decoded text with the raw values in
      its holes, and the literal ends where the expansion ends. */
  lemma LiteralReadsBack(t: string, raw: map<string, string>, rest: string)
    requires Parse(t).Some? && Meaning(Parse(t).value, raw).Some? && AllSafe(Parse(t).value, raw)
    ensures Expand(t, Escaped(raw)).Some?
    ensures var doc := Expand(t, Escaped(raw)).value;
      ReadLiteral(doc + "\"" + rest) == Some((Meaning(Parse(t).value, raw).value, |doc|))
  {
    FillDecodes(Parse(t).value, raw);
    LiteralEnds(Expand(t, Escaped(raw)).value, rest);
  }

  // What can go wrong with an expansion.

  /** A template that parses expands exactly when there is a value for every hole. */
  lemma {:induction false} FillExactly(nodes: seq<Node>, values: map<string, string>)
    ensures Fill(nodes, values).Some? <==> forall i :: 0 <= i < |nodes| && nodes[i].Hole? ==> nodes[i].name in values
  {
    if nodes != [] {
      FillExactly(nodes[1..], values);
      assert forall i :: 0 < i < |nodes| ==> nodes[i] == nodes[1..][i - 1];
    }
  }

  /** The characters of a name. */
  lemma NameCharsExactly(c: char)
    ensures NameChar(c) <==>
      c in "abcdefghijklmnopqrstuvwxyz" || c in "ABCDEFGHIJKLMNOPQRSTUVWXYZ" || c in "0123456789" || c == '_'
  {
    Alphabet("abcdefghijklmnopqrstuvwxyz", 'a', c);
    Alphabet("ABCDEFGHIJKLMNOPQRSTUVWXYZ", 'A', c);
    Alphabet("0123456789", '0', c);
  }

  lemma Alphabet(letters: string, first: char, c: char)
    requires letters != [] && first as int + |letters| <= 128
    requires forall i :: 0 <= i < |letters| ==> letters[i] as int == first as int + i
    ensures c in letters <==> first as int <= c as int < first as int + |letters|
  {
    if first as int <= c as int < first as int + |letters| {
      assert letters[c as int - first as int] == c;
    }
  }

  /** For instance a hole of the sample realm. */
  lemma SampleHole(value: string)
    ensures Expand("%.DISPLAY_NAME%", map["DISPLAY_NAME" := value]) == Some(value)
  {
    var name, values := "DISPLAY_NAME", map["DISPLAY_NAME" := value];
    assert ValidName(name);
    HoleTakesValueVerbatim("", name, "", values);
    assert "" + "%." + name + "%" + "" == "%.DISPLAY_NAME%" && Expand("", values) == Some("");
    assert "" + value + "" == value;
  }

  // Templates side by side.

  lemma {:induction false} RenderConcat(a: seq<Node>, b: seq<Node>)
    ensures Render(a + b) == Render(a) + Render(b)
  {
    if a == [] {
      assert a + b == b;
    } else {
      assert (a + b)[1..] == a[1..] + b;
      RenderConcat(a[1..], b);
    }
  }

  /** A hole ends every literal, so that templates can be joined at it. */
  lemma {:induction false} NormalConcat(a: seq<Node>, b: seq<Node>)
    requires Normal(a) && Normal(b) && b != [] && b[0].Hole?
    ensures Normal(a + b)
  {
    if a == [] {
      assert a + b == b;
    } else {
      assert (a + b)[1..] == a[1..] + b;
      NormalConcat(a[1..], b);
    }
  }

  lemma NormalHole(name: string, rest: seq<Node>)
    requires ValidName(name) && Normal(rest)
    ensures Normal([Hole(name)] + rest)
  {
    assert ([Hole(name)] + rest)[1..] == rest;
  }

  /** Filling goes node by node. */
  lemma {:induction false} FillConcat(a: seq<Node>, b: seq<Node>, values: map<string, string>)
    requires Fill(a, values).Some?
    ensures Fill(a + b, values) == Join(Fill(a, values).value, Fill(b, values))
  {
    if a == [] {
      assert a + b == b;
      assert Fill(b, values).Some? ==> [] + Fill(b, values).value == Fill(b, values).value;
    } else {
      assert (a + b)[1..] == a[1..] + b;
      FillConcat(a[1..], b, values);
      var text := if a[0].Lit? then a[0].text else values[a[0].name];
      JoinAssociative(text, Fill(a[1..], values).value, Fill(b, values));
    }
  }

  lemma RenderHoleFirst(name: string, rest: seq<Node>)
    ensures Render([Hole(name)] + rest) == "%." + name + "%" + Render(rest)
  {
    assert ([Hole(name)] + rest)[1..] == rest;
  }

  lemma ParseNodesAround(a: seq<Node>, name: string, b: seq<Node>)
    requires Normal(a) && ValidName(name) && Normal(b)
    ensures Parse(Render(a) + ("%." + name + "%" + Render(b))) == Some(a + ([Hole(name)] + b))
  {
    var rest := [Hole(name)] + b;
    NormalHole(name, b);
    NormalConcat(a, rest);
    RenderConcat(a, rest);
    RenderHoleFirst(name, b);
    ParseRender(a + rest);
  }

  lemma ParseAround(before: string, name: string, after: string)
    requires Parse(before).Some? && ValidName(name) && Parse(after).Some?
    ensures Parse(before + "%." + name + "%" + after) == Some(Parse(before).value + ([Hole(name)] + Parse(after).value))
  {
    RenderParse(before);
    RenderParse(after);
    ParseNodesAround(Parse(before).value, name, Parse(after).value);
    Regrouped(before, name, after);
  }

  lemma Regrouped(before: string, name: string, after: string)
    ensures before + "%." + name + "%" + after == before + ("%." + name + "%" + after)
  {
  }

  lemma FillHole(name: string, rest: seq<Node>, values: map<string, string>)
    requires name in values
    ensures Fill([Hole(name)] + rest, values) == Join(values[name], Fill(rest, values))
  {
    assert ([Hole(name)] + rest)[1..] == rest;
  }

  /** Values are placed verbatim, whatever templates stand around them: a value is never expanded
      again, even if it looks like an action itself. */
  lemma HoleTakesValueVerbatim(before: string, name: string, after: string, values: map<string, string>)
    requires Expand(before, values).Some? && ValidName(name) && name in values && Expand(after, values).Some?
    ensures Expand(before + "%." + name + "%" + after, values)
         == Some(Expand(before, values).value + values[name] + Expand(after, values).value)
  {
    ParseAround(before, name, after);
    FillHole(name, Parse(after).value, values);
    FillConcat(Parse(before).value, [Hole(name)] + Parse(after).value, values);
    JoinAssociative(Expand(before, values).value, values[name], Expand(after, values));
  }

  /** Text without actions stands for itself. */
  lemma TextExpands(text: string, values: map<string, string>)
    requires '%' !in text
    ensures Expand(text, values) == Some(text)
  {
    if text != [] {
      ParseLit(text, "");
      assert text + "" == text;
      var nodes := [Lit(text)];
      assert Parse("") == Some([]) && nodes + [] == nodes;
      assert Parse(text) == Some(nodes) && nodes[1..] == [] && text + [] == text;
      assert Fill(nodes[1..], values) == Some([]);
    }
  }

  // Sizes.

  lemma {:induction false} EscapeGrows(v: string)
    ensures |EscapeString(v)| >= |v| && |Escape(v)| >= |v|
  {
    if v != [] {
      EscapeCharDecodes(v[0]);
      EscapeGrows(v[1..]);
    }
  }

  /** No value with a PEM marker and a line break survives. */
  lemma PemWithLineBreak(v: string)
    requires (HasSlice(v, "-----BEGIN") || HasSlice(v, "-----END")) && '\n' in v
    ensures Decode(EscapeString(v)) != Some(v)
  {
    EscapeRoundTrip(v);
    var i :| 0 <= i < |v| && v[i] == '\n';
    assert !Plain(v[i]);
  }

  lemma PemPlaced(v: string, part: string)
    requires SliceAt(v, 0, part) && part in ["-----BEGIN", "-----END"] && '\n' in v
    ensures !Safe(v) && EscapeString(v) == v && Decode(EscapeString(v)) != Some(v)
  {
    PemWithLineBreak(v);
    EscapeExactly(v);
    EscapeRoundTrip(v);
  }

  /** For instance a key or a certificate, from its first or from its last line on. */
  lemma PemLineIsLost(rest: string)
    requires '\n' in rest
    ensures var v := "-----BEGIN" + rest; EscapeString(v) == v && Decode(EscapeString(v)) != Some(v)
    ensures var v := "-----END" + rest; EscapeString(v) == v && Decode(EscapeString(v)) != Some(v)
  {
    PemPlaced("-----BEGIN" + rest, "-----BEGIN");
    PemPlaced("-----END" + rest, "-----END");
  }
}
