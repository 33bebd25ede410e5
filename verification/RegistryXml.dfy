/**
 Draft records and the escaping of their text, with the references of section
 4.1 of XML 1.0 resolved back.
 */
module RegistryXml {
  import opened Prelude

  const CONTRACT_VERSION := "eubp.registry-draft.v1"
  const DRAFT_STATUS := "draft-pending-battery-semantic-catalogue"
  const XML_NAMESPACE := "urn:eubp:registry-draft:v1"

  datatype Record = Record(
    batteryItemId: string, passportVersionId: string, upi: string, productIdentifier: string,
    schemaStatus: string, category: string, schemaVersion: string, ruleSetVersion: string, passportSha256: string)

  type Field = (string, string)

  /** `Object.entries(record)`. */
  function Entries(r: Record): seq<Field> {
    [("batteryItemId", r.batteryItemId), ("passportVersionId", r.passportVersionId), ("upi", r.upi),
     ("productIdentifier", r.productIdentifier), ("schemaStatus", r.schemaStatus), ("category", r.category),
     ("schemaVersion", r.schemaVersion), ("ruleSetVersion", r.ruleSetVersion), ("passportSha256", r.passportSha256)]
  }

  function EntriesOf(records: seq<Record>): seq<seq<Field>> {
    if records == [] then [] else [Entries(records[0])] + EntriesOf(records[1..])
  }

  // ---- escaping ----

  /** `value.replace(/c/g, by)`. */
  function ReplaceAll(s: string, c: char, with: string): string {
    if s == "" then "" else (if s[0] == c then with else [s[0]]) + ReplaceAll(s[1..], c, with)
  }

  function EscapeXml(s: string): string {
    var s1 := ReplaceAll(s, '&', "&amp;");
    var s2 := ReplaceAll(s1, '<', "&lt;");
    var s3 := ReplaceAll(s2, '>', "&gt;");
    var s4 := ReplaceAll(s3, '\"', "&quot;");
    var s5 := ReplaceAll(s4, '\'', "&apos;");
    ReplaceAll(s5, '\r', "&#13;")
  }

  function Reference(c: char): string {
    if c == '&' then "&amp;"
    else if c == '<' then "&lt;"
    else if c == '>' then "&gt;"
    else if c == '\"' then "&quot;"
    else if c == '\'' then "&apos;"
    else if c == '\r' then "&#13;"
    else [c]
  }

  /** One pass that substitutes each character by itself or its reference. */
  function EscapeOnce(s: string): string {
    if s == "" then "" else Reference(s[0]) + EscapeOnce(s[1..])
  }

  predicate Free(s: string, c: char) {
    forall i :: 0 <= i < |s| ==> s[i] != c
  }

  lemma {:induction false} ReplaceConcat(a: string, b: string, c: char, with: string)
    ensures ReplaceAll(a + b, c, with) == ReplaceAll(a, c, with) + ReplaceAll(b, c, with)
    decreases |a|
  {
    if a == "" {
      assert a + b == b;
    } else {
      assert (a + b)[1..] == a[1..] + b;
      ReplaceConcat(a[1..], b, c, with);
    }
  }

  lemma {:induction false} ReplaceNone(s: string, c: char, with: string)
    requires Free(s, c)
    ensures ReplaceAll(s, c, with) == s
    decreases |s|
  {
    if s != "" {
      ReplaceNone(s[1..], c, with);
      assert s == [s[0]] + s[1..];
    }
  }

  lemma ReplaceChar(c: char, d: char, with: string)
    ensures ReplaceAll([c], d, with) == if c == d then with else [c]
  {
    assert [c][1..] == "";
  }

  /** A reference introduces none of the characters that later replacements look for. */
  lemma ReferenceFree(c: char)
    ensures Free(Reference(c), '<') && Free(Reference(c), '>') && Free(Reference(c), '\"')
    ensures Free(Reference(c), '\'') && Free(Reference(c), '\r')
  {
  }

  lemma EscapeChar(c: char)
    ensures EscapeXml([c]) == Reference(c)
  {
    var s1 := ReplaceAll([c], '&', "&amp;");
    var s2 := ReplaceAll(s1, '<', "&lt;");
    var s3 := ReplaceAll(s2, '>', "&gt;");
    var s4 := ReplaceAll(s3, '\"', "&quot;");
    var s5 := ReplaceAll(s4, '\'', "&apos;");
    ReplaceChar(c, '&', "&amp;");
    ReplaceStep(s1, c, '<', "&lt;");
    ReplaceStep(s2, c, '>', "&gt;");
    ReplaceStep(s3, c, '\"', "&quot;");
    ReplaceStep(s4, c, '\'', "&apos;");
    ReplaceStep(s5, c, '\r', "&#13;");
  }

  /** One replacement of the chain on what one character has become. */
  lemma ReplaceStep(s: string, c: char, d: char, with: string)
    requires s == [c] || s == Reference(c)
    requires d == '<' || d == '>' || d == '\"' || d == '\'' || d == '\r'
    ensures ReplaceAll(s, d, with) == if s == [c] && c == d then with else s
  {
    if s == [c] {
      ReplaceChar(c, d, with);
    } else {
      ReferenceFree(c);
      ReplaceNone(s, d, with);
    }
  }

  lemma EscapeConcat(a: string, b: string)
    ensures EscapeXml(a + b) == EscapeXml(a) + EscapeXml(b)
  {
    var a1, b1 := ReplaceAll(a, '&', "&amp;"), ReplaceAll(b, '&', "&amp;");
    var a2, b2 := ReplaceAll(a1, '<', "&lt;"), ReplaceAll(b1, '<', "&lt;");
    var a3, b3 := ReplaceAll(a2, '>', "&gt;"), ReplaceAll(b2, '>', "&gt;");
    var a4, b4 := ReplaceAll(a3, '\"', "&quot;"), ReplaceAll(b3, '\"', "&quot;");
    var a5, b5 := ReplaceAll(a4, '\'', "&apos;"), ReplaceAll(b4, '\'', "&apos;");
    ReplaceConcat(a, b, '&', "&amp;");
    ReplaceConcat(a1, b1, '<', "&lt;");
    ReplaceConcat(a2, b2, '>', "&gt;");
    ReplaceConcat(a3, b3, '\"', "&quot;");
    ReplaceConcat(a4, b4, '\'', "&apos;");
    ReplaceConcat(a5, b5, '\r', "&#13;");
  }

  /** The six chained replacements are one single-pass substitution. */
  lemma {:induction false} ChainIsOnePass(s: string)
    ensures EscapeXml(s) == EscapeOnce(s)
    decreases |s|
  {
    if s != "" {
      ChainIsOnePass(s[1..]);
      EscapeChar(s[0]);
      EscapeConcat([s[0]], s[1..]);
      assert s == [s[0]] + s[1..];
    }
  }

  /** Escaped text holds no raw markup character (section 2.4 of XML 1.0) and no carriage return. */
  lemma {:induction false} EscapedIsCharData(s: string)
    ensures Free(EscapeXml(s), '<') && Free(EscapeXml(s), '>') && Free(EscapeXml(s), '\"')
    ensures Free(EscapeXml(s), '\'') && Free(EscapeXml(s), '\r')
    ensures s != "" ==> EscapeXml(s) != ""
    decreases |s|
  {
    ChainIsOnePass(s);
    if s != "" {
      EscapedIsCharData(s[1..]);
      ChainIsOnePass(s[1..]);
      ReferenceFree(s[0]);
    }
  }

  /** One of the five predefined entities, or the reference to a carriage return, starts here. */
  predicate BeginsReference(t: string) {
    "&amp;" <= t || "&lt;" <= t || "&gt;" <= t || "&quot;" <= t || "&apos;" <= t || "&#13;" <= t
  }

  lemma FirstReference(c: char, rest: string, i: nat)
    requires i < |Reference(c)| && (Reference(c) + rest)[i] == '&'
    ensures BeginsReference((Reference(c) + rest)[i..])
  {
    assert i == 0 && Reference(c) != [c];
    assert Reference(c) <= Reference(c) + rest;
  }

  /** Every ampersand of escaped text begins one of the six references, as section 4.1 of XML 1.0 demands. */
  lemma {:induction false} AmpersandsAreReferences(s: string, i: nat)
    requires i < |EscapeXml(s)| && EscapeXml(s)[i] == '&'
    ensures BeginsReference(EscapeXml(s)[i..])
    decreases |s|
  {
    hide EscapeXml, BeginsReference;
    ChainIsOnePass(s);
    var first, rest := Reference(s[0]), EscapeOnce(s[1..]);
    if i < |first| {
      FirstReference(s[0], rest, i);
    } else {
      ChainIsOnePass(s[1..]);
      AmpersandsAreReferences(s[1..], i - |first|);
      assert (first + rest)[i..] == rest[i - |first|..];
    }
  }

  // ---- references back to text ----

  function IndexOf(t: string, c: char): (n: nat)
    ensures n <= |t| && Free(t[..n], c) && (n < |t| ==> t[n] == c)
  {
    if t == "" || t[0] == c then 0 else 1 + IndexOf(t[1..], c)
  }

  lemma {:induction false} IndexOfFirst(a: string, c: char, rest: string)
    requires Free(a, c)
    ensures IndexOf(a + [c] + rest, c) == |a|
    decreases |a|
  {
    if a != "" {
      assert (a + [c] + rest)[1..] == a[1..] + [c] + rest;
      IndexOfFirst(a[1..], c, rest);
    }
  }

  /** The predefined entities and the one character reference the writer uses. */
  function Resolve(name: string): Option<char> {
    if name == "amp" then Some('&')
    else if name == "lt" then Some('<')
    else if name == "gt" then Some('>')
    else if name == "quot" then Some('\"')
    else if name == "apos" then Some('\'')
    else if name == "#13" then Some('\r')
    else None
  }

  function Unescape(t: string): string
    decreases |t|
  {
    if t == "" then ""
    else if t[0] != '&' then [t[0]] + Unescape(t[1..])
    else
      var n := IndexOf(t, ';');
      if n < |t| && Resolve(t[1..n]).Some? then [Resolve(t[1..n]).value] + Unescape(t[n + 1..])
      else [t[0]] + Unescape(t[1..])
  }

  /** The name inside a reference. */
  function NameOf(c: char): string
    requires Reference(c) != [c]
  {
    match c
    case '&' => "amp"
    case '<' => "lt"
    case '>' => "gt"
    case '\"' => "quot"
    case '\'' => "apos"
    case _ => "#13"
  }

  lemma ReferenceName(c: char)
    requires Reference(c) != [c]
    ensures Reference(c) == ['&'] + NameOf(c) + [';'] && Free(['&'] + NameOf(c), ';')
    ensures Resolve(NameOf(c)) == Some(c)
  {
  }

  lemma UnescapeReference(c: char, rest: string)
    ensures Unescape(Reference(c) + rest) == [c] + Unescape(rest)
  {
    var t := Reference(c) + rest;
    if Reference(c) == [c] {
      assert t[1..] == rest;
    } else {
      var name := NameOf(c);
      ReferenceName(c);
      assert t == (['&'] + name) + [';'] + rest;
      IndexOfFirst(['&'] + name, ';', rest);
      assert t[1..|name| + 1] == name && t[|name| + 2..] == rest;
    }
  }

  lemma {:induction false} UnescapeInverts(s: string)
    ensures Unescape(EscapeXml(s)) == s
    decreases |s|
  {
    ChainIsOnePass(s);
    if s != "" {
      UnescapeInverts(s[1..]);
      ChainIsOnePass(s[1..]);
      UnescapeReference(s[0], EscapeOnce(s[1..]));
      assert s == [s[0]] + s[1..];
    }
  }
}
