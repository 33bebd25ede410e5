/**
 The whole XML document of a draft file, and a reader that finds the `record`
 elements in it. The template is a list of pieces, with each line break and
 indent in front of the element it introduces.
 */
module RegistryDocument {
  import opened Prelude
  import opened RegistryXml

  // ---- writing ----

  /** `<body>`, white space of the template, or an escaped value. */
  datatype Piece = Element(body: string) | Space(white: string) | Value(text: string)

  function PieceText(p: Piece): string {
    match p
    case Element(body) => "<" + body + ">"
    case Space(white) => white
    case Value(text) => EscapeXml(text)
  }

  function Render(ps: seq<Piece>): string {
    if ps == [] then "" else PieceText(ps[0]) + Render(ps[1..])
  }

  /** `\n      <key>escaped value</key>` */
  function FieldPieces(f: Field): seq<Piece> {
    [Space("\n      "), Element(f.0), Value(f.1), Element("/" + f.0)]
  }

  function FieldsPieces(fs: seq<Field>): seq<Piece> {
    if fs == [] then [] else FieldPieces(fs[0]) + FieldsPieces(fs[1..])
  }

  function RecordPieces(r: Record): seq<Piece> {
    [Space("\n    "), Element("record")] + FieldsPieces(Entries(r)) + [Space("\n    "), Element("/record")]
  }

  function RowsPieces(records: seq<Record>): seq<Piece> {
    if records == [] then [] else RecordPieces(records[0]) + RowsPieces(records[1..])
  }

  function Attribute(name: string, value: string): string {
    " " + name + "=\"" + value + "\""
  }

  const DECLARATION := "?xml version=\"1.0\" encoding=\"UTF-8\"?"

  function RootTag(correlationId: string): string {
    "registryDraft" + (Attribute("xmlns", XML_NAMESPACE) + (Attribute("contractVersion", CONTRACT_VERSION)
    + (Attribute("kind", "internal_draft") + (Attribute("uploadable", "false") + Attribute("correlationId",
        correlationId)))))
  }

  function SchemaTag(): string {
    "officialSchema" + (Attribute("available", "false") + "/")
  }

  function HeaderPieces(correlationId: string): seq<Piece> {
    [Element(DECLARATION)] + [Space("\n"), Element(RootTag(correlationId))]
    + [Space("\n  "), Element(SchemaTag())] + [Space("\n  "), Element("records")]
  }

  function FooterPieces(): seq<Piece> {
    [Space("\n  "), Element("/records")] + [Space("\n"), Element("/registryDraft")] + [Space("\n")]
  }

  function XmlText(records: seq<Record>, correlationId: string): string {
    Render(HeaderPieces(correlationId) + RowsPieces(records) + FooterPieces())
  }

  // ---- reading ----

  /** Section 2.11: a carriage return, alone or before a line feed, becomes one line feed. */
  function NormalizeLineEnds(t: string): string {
    if t == "" then ""
    else if t[0] != '\r' then [t[0]] + NormalizeLineEnds(t[1..])
    else if |t| > 1 && t[1] == '\n' then NormalizeLineEnds(t[1..])
    else "\n" + NormalizeLineEnds(t[1..])
  }

  datatype Token = Tag(body: string) | Text(text: string) | Unclosed

  function Tokens(t: string): seq<Token>
    decreases |t|
  {
    if t == "" then []
    else if t[0] == '<' then
      var n := IndexOf(t, '>');
      if n == |t| then [Unclosed] else [Tag(t[1..n])] + Tokens(t[n + 1..])
    else
      var n := IndexOf(t, '<');
      [Text(Unescape(t[..n]))] + Tokens(t[n..])
  }

  datatype Found<T> = Missing | Found(value: T, rest: seq<Token>)

  /** The child elements of a record, up to its end tag. */
  function ReadFields(ts: seq<Token>): (r: Found<seq<Field>>)
    ensures r.Found? ==> |r.rest| < |ts|
  {
    if ts == [] || ts[0].Unclosed? then Missing
    else if ts[0].Text? then ReadFields(ts[1..])
    else if ts[0].body == "/record" then Found([], ts[1..])
    else if |ts| >= 3 && ts[1].Text? && ts[2] == Tag("/" + ts[0].body) then
      (match ReadFields(ts[3..])
       case Missing => Missing
       case Found(fs, rest) => Found([(ts[0].body, ts[1].text)] + fs, rest))
    else if |ts| >= 2 && ts[1] == Tag("/" + ts[0].body) then
      (match ReadFields(ts[2..])
       case Missing => Missing
       case Found(fs, rest) => Found([(ts[0].body, "")] + fs, rest))
    else Missing
  }

  function ReadRecords(ts: seq<Token>): Option<seq<seq<Field>>>
    decreases |ts|
  {
    if ts == [] then Some([])
    else if ts[0] != Tag("record") then ReadRecords(ts[1..])
    else match ReadFields(ts[1..])
      case Missing => None
      case Found(fs, rest) =>
        match ReadRecords(rest)
        case None => None
        case Some(more) => Some([fs] + more)
  }

  function ReadXml(document: string): Option<seq<seq<Field>>> {
    ReadRecords(Tokens(NormalizeLineEnds(document)))
  }

  // ---- tokens of the written text ----

  lemma {:induction false} UpToTag(s: string, rest: string)
    requires Free(s, '<') && (rest == "" || rest[0] == '<')
    ensures IndexOf(s + rest, '<') == |s|
    decreases |s|
  {
    if s == "" {
      assert s + rest == rest;
    } else {
      assert (s + rest)[1..] == s[1..] + rest;
      UpToTag(s[1..], rest);
    }
  }

  lemma TextToken(s: string, rest: string)
    requires s != "" && Free(s, '<') && (rest == "" || rest[0] == '<')
    ensures Tokens(s + rest) == [Text(Unescape(s))] + Tokens(rest)
  {
    UpToTag(s, rest);
    assert (s + rest)[..|s|] == s && (s + rest)[|s|..] == rest;
  }

  lemma ElementToken(body: string, rest: string)
    requires Free(body, '>')
    ensures Tokens("<" + body + ">" + rest) == [Tag(body)] + Tokens(rest)
  {
    var t := "<" + body + ">" + rest;
    assert t == (['<'] + body) + ['>'] + rest;
    IndexOfFirst(['<'] + body, '>', rest);
    assert t[1..|body| + 1] == body && t[|body| + 2..] == rest;
  }

  /** A value is one text token, or none when it is empty. */
  function PieceTokens(p: Piece): seq<Token> {
    match p
    case Element(body) => [Tag(body)]
    case Space(white) => [Text(Unescape(white))]
    case Value(text) => if text == "" then [] else [Text(text)]
  }

  function TokensOf(ps: seq<Piece>): seq<Token> {
    if ps == [] then [] else PieceTokens(ps[0]) + TokensOf(ps[1..])
  }

  /** No markup inside a piece, and character data only in front of an element or at the end. */
  predicate Proper(ps: seq<Piece>) {
    forall i :: 0 <= i < |ps| ==>
      && (ps[i].Element? ==> Free(ps[i].body, '>'))
      && (ps[i].Space? ==> ps[i].white != "" && Free(ps[i].white, '<'))
      && (!ps[i].Element? && i + 1 < |ps| ==> ps[i + 1].Element?)
  }

  /** The first piece of a text is read first, if the rest starts with an element or there is no rest. */
  lemma PieceFirst(p: Piece, rest: string)
    requires p.Element? ==> Free(p.body, '>')
    requires p.Space? ==> p.white != "" && Free(p.white, '<')
    requires !p.Element? ==> rest == "" || rest[0] == '<'
    ensures Tokens(PieceText(p) + rest) == PieceTokens(p) + Tokens(rest)
  {
    match p
    case Element(body) => ElementToken(body, rest);
    case Space(white) => TextToken(white, rest);
    case Value(text) =>
      EscapedIsCharData(text);
      if text == "" {
        assert EscapeXml(text) + rest == rest;
      } else {
        UnescapeInverts(text);
        TextToken(EscapeXml(text), rest);
      }
  }

  lemma StartsElement(ps: seq<Piece>)
    requires ps == [] || ps[0].Element?
    ensures Render(ps) == "" || Render(ps)[0] == '<'
  {
  }

  /** The tokens of a rendered list of pieces are the pieces' tokens. */
  lemma {:induction false} RenderTokens(ps: seq<Piece>)
    requires Proper(ps)
    ensures Tokens(Render(ps)) == TokensOf(ps)
    decreases |ps|
  {
    if ps != [] {
      RenderTokens(ps[1..]);
      if !ps[0].Element? {
        StartsElement(ps[1..]);
      }
      PieceFirst(ps[0], Render(ps[1..]));
    }
  }

  lemma {:induction false} TokensConcat(a: seq<Piece>, b: seq<Piece>)
    ensures TokensOf(a + b) == TokensOf(a) + TokensOf(b)
    decreases |a|
  {
    if a == [] {
      assert a + b == b;
    } else {
      assert (a + b)[1..] == a[1..] + b;
      TokensConcat(a[1..], b);
    }
  }

  lemma ProperConcat(a: seq<Piece>, b: seq<Piece>)
    requires Proper(a) && Proper(b) && (a == [] || a[|a| - 1].Element?)
    ensures Proper(a + b)
    ensures a + b == [] || b == [] || (a + b)[|a + b| - 1] == b[|b| - 1]
  {
  }

  // ---- reading records back ----

  /** A field name that is neither markup nor an end tag, and holds no carriage return. */
  predicate Name(k: string) {
    k != "" && k[0] != '/' && Free(k, '>') && Free(k, '\r')
  }

  lemma EntryNames(r: Record)
    ensures forall i :: 0 <= i < |Entries(r)| ==> Name(Entries(r)[i].0)
  {
    assert Name("batteryItemId") && Name("passportVersionId") && Name("upi");
    assert Name("productIdentifier") && Name("schemaStatus") && Name("category");
    assert Name("schemaVersion") && Name("ruleSetVersion") && Name("passportSha256");
  }

  lemma TokensCons(p: Piece, ps: seq<Piece>)
    ensures TokensOf([p] + ps) == PieceTokens(p) + TokensOf(ps)
  {
    assert ([p] + ps)[1..] == ps;
  }

  /** What the reader sees of a field. */
  function FieldTokens(f: Field): seq<Token> {
    [Text(Unescape("\n      ")), Tag(f.0)] + (if f.1 == "" then [] else [Text(f.1)]) + [Tag("/" + f.0)]
  }

  lemma TokensOfField(f: Field)
    ensures TokensOf(FieldPieces(f)) == FieldTokens(f)
  {
    var a, b, c, d := Space("\n      "), Element(f.0), Value(f.1), Element("/" + f.0);
    TokensCons(d, []);
    TokensCons(c, [d] + []);
    TokensCons(b, [c] + ([d] + []));
    TokensCons(a, [b] + ([c] + ([d] + [])));
    assert FieldPieces(f) == [a] + ([b] + ([c] + ([d] + [])));
  }

  lemma ReadsField(f: Field, rest: seq<Token>)
    requires Name(f.0)
    ensures ReadFields(FieldTokens(f) + rest) ==
            match ReadFields(rest) case Missing => Missing case Found(fs, more) => Found([f] + fs, more)
  {
    var ts := FieldTokens(f) + rest;
    var us := ts[1..];
    assert f == (f.0, f.1);
    assert f.0[0] != "/record"[0];
    assert us[0] == Tag(f.0);
    if f.1 == "" {
      assert us[1] == Tag("/" + f.0) && us[2..] == rest;
    } else {
      assert us[1] == Text(f.1) && us[2] == Tag("/" + f.0) && us[3..] == rest;
    }
  }

  lemma Reassociate(a: seq<Token>, b: seq<Token>, c: seq<Token>)
    ensures (a + b) + c == a + (b + c)
  {
  }

  lemma FirstField(fs: seq<Field>, end: seq<Token>)
    requires fs != []
    ensures TokensOf(FieldsPieces(fs)) + end == FieldTokens(fs[0]) + (TokensOf(FieldsPieces(fs[1..])) + end)
  {
    TokensOfField(fs[0]);
    TokensConcat(FieldPieces(fs[0]), FieldsPieces(fs[1..]));
    Reassociate(FieldTokens(fs[0]), TokensOf(FieldsPieces(fs[1..])), end);
  }

  /** Reading the fields of a record in front of `end`, where the record ends. */
  lemma {:induction false} ReadsFields(fs: seq<Field>, end: seq<Token>, rest: seq<Token>)
    requires forall i :: 0 <= i < |fs| ==> Name(fs[i].0)
    requires ReadFields(end) == Found([], rest)
    ensures ReadFields(TokensOf(FieldsPieces(fs)) + end) == Found(fs, rest)
    decreases |fs|
  {
    if fs == [] {
      assert TokensOf([]) + end == end;
    } else {
      ReadsFields(fs[1..], end, rest);
      FirstField(fs, end);
      ReadsField(fs[0], TokensOf(FieldsPieces(fs[1..])) + end);
      assert fs == [fs[0]] + fs[1..];
    }
  }

  /** A record between its tags. */
  function RecordTokens(r: Record): seq<Token> {
    [Text(Unescape("\n    ")), Tag("record")]
        + (TokensOf(FieldsPieces(Entries(r))) + [Text(Unescape("\n    ")), Tag("/record")])
  }

  lemma TokensOfPair(a: Piece, b: Piece)
    requires !a.Value? && !b.Value?
    ensures TokensOf([a, b]) == PieceTokens(a) + PieceTokens(b)
  {
    TokensCons(b, []);
    assert [b] + [] == [b];
    TokensCons(a, [b]);
    assert [a] + [b] == [a, b];
  }

  lemma TokensOfRecord(r: Record)
    ensures TokensOf(RecordPieces(r)) == RecordTokens(r)
  {
    var fs := FieldsPieces(Entries(r));
    var open, close := [Space("\n    "), Element("record")], [Space("\n    "), Element("/record")];
    TokensConcat(open, fs);
    TokensConcat(open + fs, close);
    TokensOfPair(open[0], open[1]);
    TokensOfPair(close[0], close[1]);
  }

  lemma ReadsRecord(r: Record, rest: seq<Token>)
    ensures ReadRecords(RecordTokens(r) + rest) ==
            match ReadRecords(rest) case None => None case Some(more) => Some([Entries(r)] + more)
  {
    var fs := Entries(r);
    var white := Unescape("\n    ");
    var end := [Text(white), Tag("/record")] + rest;
    assert end[1..][1..] == rest;
    EntryNames(r);
    ReadsFields(fs, end, rest);
    RecordStarts(white, TokensOf(FieldsPieces(fs)) + end);
    assert RecordTokens(r) + rest == [Text(white), Tag("record")] + (TokensOf(FieldsPieces(fs)) + end);
  }

  lemma RecordStarts(white: string, inner: seq<Token>)
    ensures ReadRecords([Text(white), Tag("record")] + inner) ==
            match ReadFields(inner)
            case Missing => None
            case Found(fs, rest) => match ReadRecords(rest) case None => None case Some(more) => Some([fs] + more)
  {
    var ts := [Text(white), Tag("record")] + inner;
    assert ts[1..] == [Tag("record")] + inner && ts[1..][1..] == inner;
  }

  lemma FirstRow(records: seq<Record>, rest: seq<Token>)
    requires records != []
    ensures TokensOf(RowsPieces(records)) + rest == RecordTokens(records[0])
            + (TokensOf(RowsPieces(records[1..])) + rest)
  {
    TokensOfRecord(records[0]);
    TokensConcat(RecordPieces(records[0]), RowsPieces(records[1..]));
    Reassociate(RecordTokens(records[0]), TokensOf(RowsPieces(records[1..])), rest);
  }

  lemma {:induction false} ReadsRows(records: seq<Record>, rest: seq<Token>)
    requires ReadRecords(rest) == Some([])
    ensures ReadRecords(TokensOf(RowsPieces(records)) + rest) == Some(EntriesOf(records))
    decreases |records|
  {
    if records == [] {
      assert TokensOf([]) + rest == rest;
    } else {
      ReadsRows(records[1..], rest);
      FirstRow(records, rest);
      ReadsRecord(records[0], TokensOf(RowsPieces(records[1..])) + rest);
    }
  }

  /** Reading passes over everything that is not a record element. */
  lemma {:induction false} PassesOver(ps: seq<Piece>, rest: seq<Token>)
    requires forall i :: 0 <= i < |ps| ==> ps[i] != Element("record")
    ensures ReadRecords(TokensOf(ps) + rest) == ReadRecords(rest)
    decreases |ps|
  {
    if ps == [] {
      assert TokensOf([]) + rest == rest;
    } else {
      var first, more := PieceTokens(ps[0]), TokensOf(ps[1..]) + rest;
      PassesOver(ps[1..], rest);
      assert TokensOf(ps) + rest == first + more;
      if first == [] {
        assert first + more == more;
      } else {
        assert |first| == 1 && (first + more)[1..] == more;
      }
    }
  }

  // ---- the whole document ----

  lemma FreeConcat(a: string, b: string, c: char)
    requires Free(a, c) && Free(b, c)
    ensures Free(a + b, c)
  {
  }

  lemma AttributeFree(name: string, value: string, c: char)
    requires Free(name, c) && Free(value, c) && c != ' ' && c != '=' && c != '\"'
    ensures Free(Attribute(name, value), c)
  {
  }

  lemma HeaderFree(correlationId: string, c: char)
    requires c == '>' || c == '\r'
    requires Free(correlationId, c)
    ensures Free(DECLARATION, c) && Free(RootTag(correlationId), c) && Free(SchemaTag(), c)
    ensures |DECLARATION| != 6 && |RootTag(correlationId)| != 6 && |SchemaTag()| != 6
  {
    var a1 := Attribute("xmlns", XML_NAMESPACE);
    var a2 := Attribute("contractVersion", CONTRACT_VERSION);
    var a3 := Attribute("kind", "internal_draft");
    var a4 := Attribute("uploadable", "false");
    var a5 := Attribute("correlationId", correlationId);
    AttributeFree("xmlns", XML_NAMESPACE, c);
    AttributeFree("contractVersion", CONTRACT_VERSION, c);
    AttributeFree("kind", "internal_draft", c);
    AttributeFree("uploadable", "false", c);
    AttributeFree("correlationId", correlationId, c);
    FreeConcat(a4, a5, c);
    FreeConcat(a3, a4 + a5, c);
    FreeConcat(a2, a3 + (a4 + a5), c);
    FreeConcat(a1, a2 + (a3 + (a4 + a5)), c);
    FreeConcat("registryDraft", a1 + (a2 + (a3 + (a4 + a5))), c);
    AttributeFree("available", "false", c);
    FreeConcat(Attribute("available", "false"), "/", c);
    FreeConcat("officialSchema", Attribute("available", "false") + "/", c);
    assert |RootTag(correlationId)| > |"record"|;
  }

  /** A list of pieces without markup inside a piece, without carriage returns, ending in an element. */
  predicate Block(ps: seq<Piece>) {
    Proper(ps) && NoReturns(ps) && (ps == [] || ps[|ps| - 1].Element?)
  }

  predicate NoReturns(ps: seq<Piece>) {
    forall i :: 0 <= i < |ps| ==>
      && (ps[i].Element? ==> Free(ps[i].body, '\r'))
      && (ps[i].Space? ==> Free(ps[i].white, '\r'))
  }

  lemma BlockConcat(a: seq<Piece>, b: seq<Piece>)
    requires Block(a) && Block(b)
    ensures Block(a + b)
  {
    ProperConcat(a, b);
  }

  lemma {:induction false} FieldsBlock(fs: seq<Field>)
    requires forall i :: 0 <= i < |fs| ==> Name(fs[i].0)
    ensures Block(FieldsPieces(fs))
    decreases |fs|
  {
    if fs != [] {
      FieldsBlock(fs[1..]);
      assert Free("/" + fs[0].0, '>') && Free("/" + fs[0].0, '\r');
      assert Block(FieldPieces(fs[0]));
      BlockConcat(FieldPieces(fs[0]), FieldsPieces(fs[1..]));
    }
  }

  lemma {:induction false} RowsBlock(records: seq<Record>)
    ensures Block(RowsPieces(records))
    decreases |records|
  {
    if records != [] {
      var fs := Entries(records[0]);
      EntryNames(records[0]);
      FieldsBlock(fs);
      var open, close := [Space("\n    "), Element("record")], [Space("\n    "), Element("/record")];
      BlockConcat(open, FieldsPieces(fs));
      BlockConcat(open + FieldsPieces(fs), close);
      RowsBlock(records[1..]);
      BlockConcat(RecordPieces(records[0]), RowsPieces(records[1..]));
    }
  }

  predicate NoRecord(ps: seq<Piece>) {
    forall i :: 0 <= i < |ps| ==> ps[i] != Element("record")
  }

  /** An element with the white space in front of it. */
  lemma Chunk(white: string, body: string)
    requires white != "" && Free(white, '<') && Free(white, '\r')
    requires Free(body, '>') && Free(body, '\r') && |body| != |"record"|
    ensures Block([Space(white), Element(body)]) && NoRecord([Space(white), Element(body)])
  {
  }

  lemma BlocksWithoutRecord(a: seq<Piece>, b: seq<Piece>)
    requires Block(a) && Block(b) && NoRecord(a) && NoRecord(b)
    ensures Block(a + b) && NoRecord(a + b)
  {
    BlockConcat(a, b);
  }

  lemma HeaderBlock(correlationId: string)
    requires Free(correlationId, '>') && Free(correlationId, '\r')
    ensures Block(HeaderPieces(correlationId)) && NoRecord(HeaderPieces(correlationId))
  {
    HeaderFree(correlationId, '>');
    HeaderFree(correlationId, '\r');
    Chunk("\n", RootTag(correlationId));
    Chunk("\n  ", SchemaTag());
    Chunk("\n  ", "records");
    var a, b := [Space("\n"), Element(RootTag(correlationId))], [Space("\n  "), Element(SchemaTag())];
    var c := [Space("\n  "), Element("records")];
    BlocksWithoutRecord([Element(DECLARATION)], a);
    BlocksWithoutRecord([Element(DECLARATION)] + a, b);
    BlocksWithoutRecord([Element(DECLARATION)] + a + b, c);
  }

  lemma FooterProper()
    ensures Proper(FooterPieces()) && NoReturns(FooterPieces()) && NoRecord(FooterPieces())
  {
    Chunk("\n  ", "/records");
    Chunk("\n", "/registryDraft");
    var a, b := [Space("\n  "), Element("/records")], [Space("\n"), Element("/registryDraft")];
    BlocksWithoutRecord(a, b);
    ProperConcat(a + b, [Space("\n")]);
  }

  // ---- line ends ----

  lemma {:induction false} NothingToNormalize(t: string)
    requires Free(t, '\r')
    ensures NormalizeLineEnds(t) == t
    decreases |t|
  {
    if t != "" {
      NothingToNormalize(t[1..]);
      assert t == [t[0]] + t[1..];
    }
  }

  lemma {:induction false} RenderFree(ps: seq<Piece>)
    requires NoReturns(ps)
    ensures Free(Render(ps), '\r')
    decreases |ps|
  {
    if ps != [] {
      RenderFree(ps[1..]);
      if ps[0].Value? {
        EscapedIsCharData(ps[0].text);
      }
      FreeConcat(PieceText(ps[0]), Render(ps[1..]), '\r');
    }
  }

  /** A rendered text without carriage returns is read piece by piece, line ends normalised or not. */
  lemma ReadsPieces(ps: seq<Piece>)
    requires Proper(ps) && NoReturns(ps)
    ensures NormalizeLineEnds(Render(ps)) == Render(ps)
    ensures ReadXml(Render(ps)) == ReadRecords(TokensOf(ps))
  {
    RenderFree(ps);
    NothingToNormalize(Render(ps));
    RenderTokens(ps);
  }

  lemma ReadsAround(header: seq<Piece>, rows: seq<Piece>, footer: seq<Piece>)
    requires Block(header) && Block(rows) && Proper(footer) && NoReturns(footer)
    requires NoRecord(header)
    ensures Proper(header + rows + footer) && NoReturns(header + rows + footer)
    ensures ReadRecords(TokensOf(header + rows + footer)) == ReadRecords(TokensOf(rows) + TokensOf(footer))
  {
    BlockConcat(header, rows);
    ProperConcat(header + rows, footer);
    TokensConcat(header + rows, footer);
    TokensConcat(header, rows);
    Reassociate(TokensOf(header), TokensOf(rows), TokensOf(footer));
    PassesOver(header, TokensOf(rows) + TokensOf(footer));
  }

  /**
   Reading the `record` elements of the whole document gives back every record,
   in order, and the document is a fixed point of line-end normalisation.
   */
  lemma XmlRoundTrip(records: seq<Record>, correlationId: string)
    requires Free(correlationId, '>') && Free(correlationId, '\r')
    ensures ReadXml(XmlText(records, correlationId)) == Some(EntriesOf(records))
    ensures NormalizeLineEnds(XmlText(records, correlationId)) == XmlText(records, correlationId)
  {
    HeaderBlock(correlationId);
    RowsBlock(records);
    FooterProper();
    ReadsAround(HeaderPieces(correlationId), RowsPieces(records), FooterPieces());
    ReadsPieces(HeaderPieces(correlationId) + RowsPieces(records) + FooterPieces());
    PassesOver(FooterPieces(), []);
    assert TokensOf(FooterPieces()) + [] == TokensOf(FooterPieces());
    ReadsRows(records, TokensOf(FooterPieces()));
  }

  /** The entries of two lists of records agree only if the records do. */
  lemma {:induction false} EntriesInjective(a: seq<Record>, b: seq<Record>)
    requires EntriesOf(a) == EntriesOf(b)
    ensures a == b
    decreases |a|
  {
    if a != [] {
      var x, y := EntriesOf(a), EntriesOf(b);
      assert x[0] == Entries(a[0]) && y[0] == Entries(b[0]);
      assert x[1..] == EntriesOf(a[1..]) && y[1..] == EntriesOf(b[1..]);
      EntriesInjective(a[1..], b[1..]);
      EntryInjective(a[0], b[0]);
    }
  }

  lemma EntryInjective(a: Record, b: Record)
    requires Entries(a) == Entries(b)
    ensures a == b
  {
    var x, y := Entries(a), Entries(b);
    assert forall i :: 0 <= i < 9 ==> x[i].1 == y[i].1;
    assert x[0].1 == a.batteryItemId && x[1].1 == a.passportVersionId && x[2].1 == a.upi;
    assert x[3].1 == a.productIdentifier && x[4].1 == a.schemaStatus && x[5].1 == a.category;
    assert x[6].1 == a.schemaVersion && x[7].1 == a.ruleSetVersion && x[8].1 == a.passportSha256;
  }

  // ---- what the document says ----

  /** The element's children are the record's columns, each under its name. */
  ghost predicate HoldsRecord(fs: seq<Field>, r: Record) {
    && |fs| == 9
    && fs[0] == ("batteryItemId", r.batteryItemId) && fs[1] == ("passportVersionId", r.passportVersionId)
    && fs[2] == ("upi", r.upi) && fs[3] == ("productIdentifier", r.productIdentifier)
    && fs[4] == ("schemaStatus", r.schemaStatus) && fs[5] == ("category", r.category)
    && fs[6] == ("schemaVersion", r.schemaVersion) && fs[7] == ("ruleSetVersion", r.ruleSetVersion)
    && fs[8] == ("passportSha256", r.passportSha256)
  }

  /** Reading the document finds one element per record, in order, with each column under its name. */
  lemma XmlHoldsRecords(records: seq<Record>, correlationId: string)
    requires Free(correlationId, '>') && Free(correlationId, '\r')
    ensures var found := ReadXml(XmlText(records, correlationId));
            && found.Some? && |found.value| == |records|
            && forall i :: 0 <= i < |records| ==> HoldsRecord(found.value[i], records[i])
  {
    XmlRoundTrip(records, correlationId);
    EntriesHold(records);
  }

  lemma {:induction false} EntriesHold(records: seq<Record>)
    ensures |EntriesOf(records)| == |records|
    ensures forall i :: 0 <= i < |records| ==> HoldsRecord(EntriesOf(records)[i], records[i])
    decreases |records|
  {
    hide HoldsRecord;
    if records != [] {
      EntriesHold(records[1..]);
      EntryHolds(records[0]);
    }
  }

  lemma EntryHolds(r: Record)
    ensures HoldsRecord(Entries(r), r)
  {
  }
}
