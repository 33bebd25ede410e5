/**
 JSON values, the text `JSON.stringify` writes, and the reader that inverts it.

 Strings are sequences of Unicode scalar values: text that reaches the database
 holds no lone surrogates, because `jsonb` refuses them. A number is its
 rendered token. The reader follows the grammar of RFC 8259, sections 2 to 7.
 */
module CanonicalJson {
  import opened Prelude

  datatype Json =
    | Null
    | Bool(b: bool)
    | Num(token: string)
    | Str(s: string)
    | Arr(elems: seq<Json>)
    | Obj(members: seq<Member>)

  datatype Member = Member(key: string, value: Json)

  // ---- writing ----

  function HexDigit(n: nat): char
    requires n < 16
  {
    (if n < 10 then '0' as int + n else 'a' as int + (n - 10)) as char
  }

  function EscapeChar(c: char): string {
    if c == '\"' then "\\\""
    else if c == '\\' then "\\\\"
    else if c == '\U{8}' then "\\b"
    else if c == '\U{C}' then "\\f"
    else if c == '\n' then "\\n"
    else if c == '\r' then "\\r"
    else if c == '\t' then "\\t"
    else if c < ' ' then "\\u00" + [HexDigit(c as int / 16), HexDigit(c as int % 16)]
    else [c]
  }

  function Escape(s: string): string {
    if s == "" then "" else EscapeChar(s[0]) + Escape(s[1..])
  }

  function Quote(s: string): string {
    "\"" + Escape(s) + "\""
  }

  function Write(v: Json): string
    decreases v
  {
    match v
    case Null => "null"
    case Bool(b) => if b then "true" else "false"
    case Num(token) => token
    case Str(s) => Quote(s)
    case Arr(elems) => if elems == [] then "[]" else "[" + WriteElems(elems)
    case Obj(members) => if members == [] then "{}" else "{" + WriteMembers(members)
  }

  /** Comma-separated elements and the closing bracket. */
  function WriteElems(elems: seq<Json>): string
    requires elems != []
    decreases elems
  {
    Write(elems[0]) + if |elems| == 1 then "]" else "," + WriteElems(elems[1..])
  }

  function WriteMembers(members: seq<Member>): string
    requires members != []
    decreases members
  {
    Quote(members[0].key) + ":" + Write(members[0].value) +
    if |members| == 1 then "}" else "," + WriteMembers(members[1..])
  }

  // ---- well-formed values ----

  predicate IsDigit(c: char) { '0' <= c <= '9' }

  predicate IsNumberChar(c: char) { IsDigit(c) || c == '+' || c == '-' || c == '.' || c == 'e' || c == 'E' }

  function SkipDigits(t: string): string {
    if t != "" && IsDigit(t[0]) then SkipDigits(t[1..]) else t
  }

  /** RFC 8259, section 6. */
  predicate IsNumber(t: string) {
    && (forall i :: 0 <= i < |t| ==> IsNumberChar(t[i]))
    && var unsigned := if t != "" && t[0] == '-' then t[1..] else t;
    && unsigned != "" && IsDigit(unsigned[0])
    && var afterInt := if unsigned[0] == '0' then unsigned[1..] else SkipDigits(unsigned);
    && (afterInt != "" && afterInt[0] == '.' ==> |afterInt| > 1 && IsDigit(afterInt[1]))
    && var afterFrac := if afterInt != "" && afterInt[0] == '.' then SkipDigits(afterInt[1..]) else afterInt;
    (afterFrac == "" ||
     ((afterFrac[0] == 'e' || afterFrac[0] == 'E') &&
      var digits := if |afterFrac| > 1 && (afterFrac[1] == '+' || afterFrac[1] == '-') then afterFrac[2..]
          else afterFrac[1..];
      digits != "" && SkipDigits(digits) == ""))
  }

  ghost predicate DistinctKeys(members: seq<Member>) {
    forall i, j :: 0 <= i < j < |members| ==> members[i].key != members[j].key
  }

  /** Numbers are tokens of the grammar and object keys do not repeat, as after `JSON.parse`. */
  ghost predicate WellFormed(v: Json)
    decreases v
  {
    match v
    case Num(token) => IsNumber(token)
    case Arr(elems) => forall i :: 0 <= i < |elems| ==> WellFormed(elems[i])
    case Obj(members) => DistinctKeys(members) && forall i :: 0 <= i < |members| ==> WellFormed(members[i].value)
    case _ => true
  }

  // ---- reading ----

  datatype Parsed<T> = Fail | Ok(value: T, rest: string)

  predicate IsSpace(c: char) { c == ' ' || c == '\t' || c == '\n' || c == '\r' }

  function SkipSpace(t: string): (r: string)
    ensures |r| <= |t|
  {
    if t != "" && IsSpace(t[0]) then SkipSpace(t[1..]) else t
  }

  function HexValue(c: char): Option<nat> {
    if '0' <= c <= '9' then Some(c as int - '0' as int)
    else if 'a' <= c <= 'f' then Some(c as int - 'a' as int + 10)
    else if 'A' <= c <= 'F' then Some(c as int - 'A' as int + 10)
    else None
  }

  function Hex4(t: string): Option<nat> {
    if |t| < 4 then None
    else match (HexValue(t[0]), HexValue(t[1]), HexValue(t[2]), HexValue(t[3]))
      case (Some(a), Some(b), Some(c), Some(d)) => Some(a * 4096 + b * 256 + c * 16 + d)
      case _ => None
  }

  /** The character behind `\u`; a high surrogate must be followed by an escaped low one. */
  function ReadUnicode(t: string): (r: Parsed<char>)
    ensures r.Ok? ==> |r.rest| < |t|
  {
    match Hex4(t)
    case None => Fail
    case Some(n) =>
      if n < 0xD800 || 0xE000 <= n <= 0xFFFF then Ok(n as char, t[4..])
      else if n < 0xDC00 && |t| >= 10 && t[4] == '\\' && t[5] == 'u' && Hex4(t[6..]).Some?
              && 0xDC00 <= Hex4(t[6..]).value < 0xE000
      then Ok((0x10000 + (n - 0xD800) * 0x400 + (Hex4(t[6..]).value - 0xDC00)) as char, t[10..])
      else Fail
  }

  /** The character behind a backslash. */
  function ReadEscape(t: string): (r: Parsed<char>)
    ensures r.Ok? ==> |r.rest| < |t|
  {
    if t == "" then Fail
    else match t[0]
      case '\"' => Ok('\"', t[1..])
      case '\\' => Ok('\\', t[1..])
      case '/' => Ok('/', t[1..])
      case 'b' => Ok('\U{8}', t[1..])
      case 'f' => Ok('\U{C}', t[1..])
      case 'n' => Ok('\n', t[1..])
      case 'r' => Ok('\r', t[1..])
      case 't' => Ok('\t', t[1..])
      case 'u' => ReadUnicode(t[1..])
      case _ => Fail
  }

  /** The rest of a string whose opening quote was read. */
  function ReadString(t: string): (r: Parsed<string>)
    ensures r.Ok? ==> |r.rest| < |t|
    decreases |t|
  {
    if t == "" || t[0] < ' ' then Fail
    else if t[0] == '\"' then Ok("", t[1..])
    else
      var first := if t[0] == '\\' then ReadEscape(t[1..]) else Ok(t[0], t[1..]);
      if first.Fail? then Fail
      else match ReadString(first.rest)
        case Fail => Fail
        case Ok(s, rest) => Ok([first.value] + s, rest)
  }

  function NumberLength(t: string): (n: nat)
    ensures n <= |t|
  {
    if t != "" && IsNumberChar(t[0]) then 1 + NumberLength(t[1..]) else 0
  }

  function ReadNumber(t: string): (r: Parsed<Json>)
    ensures r.Ok? ==> |r.rest| < |t|
  {
    var n := NumberLength(t);
    if IsNumber(t[..n]) then Ok(Num(t[..n]), t[n..]) else Fail
  }

  function ReadWord(t: string, word: string, v: Json): (r: Parsed<Json>)
    requires word != ""
    ensures r.Ok? ==> |r.rest| < |t|
  {
    if |word| <= |t| && t[..|word|] == word then Ok(v, t[|word|..]) else Fail
  }

  function Read(text: string): (r: Parsed<Json>)
    ensures r.Ok? ==> |r.rest| < |text|
    decreases |text|, 3
  {
    ReadValue(SkipSpace(text))
  }

  function ReadValue(t: string): (r: Parsed<Json>)
    ensures r.Ok? ==> |r.rest| < |t|
    decreases |t|, 2
  {
    if t == "" then Fail
    else if t[0] == '\"' then ReadText(t[1..])
    else if t[0] == '[' then ReadArray(SkipSpace(t[1..]))
    else if t[0] == '{' then ReadObject(SkipSpace(t[1..]))
    else if t[0] == 'n' then ReadWord(t, "null", Null)
    else if t[0] == 't' then ReadWord(t, "true", Bool(true))
    else if t[0] == 'f' then ReadWord(t, "false", Bool(false))
    else ReadNumber(t)
  }

  function ReadText(t: string): (r: Parsed<Json>)
    ensures r.Ok? ==> |r.rest| < |t|
  {
    match ReadString(t)
    case Fail => Fail
    case Ok(s, rest) => Ok(Str(s), rest)
  }

  function ReadArray(u: string): (r: Parsed<Json>)
    ensures r.Ok? ==> |r.rest| < |u|
    decreases |u|, 5
  {
    if u != "" && u[0] == ']' then Ok(Arr([]), u[1..])
    else match ReadElems(u)
      case Fail => Fail
      case Ok(es, rest) => Ok(Arr(es), rest)
  }

  function ReadObject(u: string): (r: Parsed<Json>)
    ensures r.Ok? ==> |r.rest| < |u|
    decreases |u|, 5
  {
    if u != "" && u[0] == '}' then Ok(Obj([]), u[1..])
    else match ReadMembers(u)
      case Fail => Fail
      case Ok(ms, rest) => Ok(Obj(ms), rest)
  }

  function ReadElems(t: string): (r: Parsed<seq<Json>>)
    ensures r.Ok? ==> |r.rest| < |t|
    decreases |t|, 4
  {
    match Read(t)
    case Fail => Fail
    case Ok(v, rest) =>
      var u := SkipSpace(rest);
      if u == "" then Fail
      else if u[0] == ']' then Ok([v], u[1..])
      else if u[0] != ',' then Fail
      else match ReadElems(u[1..])
        case Fail => Fail
        case Ok(vs, rest') => Ok([v] + vs, rest')
  }

  /** A member's name and the colon after it. */
  function ReadKey(t: string): (r: Parsed<string>)
    ensures r.Ok? ==> |r.rest| < |t|
  {
    var k := SkipSpace(t);
    if k == "" || k[0] != '\"' then Fail
    else match ReadString(k[1..])
      case Fail => Fail
      case Ok(key, afterKey) =>
        var c := SkipSpace(afterKey);
        if c == "" || c[0] != ':' then Fail else Ok(key, c[1..])
  }

  function ReadMembers(t: string): (r: Parsed<seq<Member>>)
    ensures r.Ok? ==> |r.rest| < |t|
    decreases |t|, 4
  {
    match ReadKey(t)
    case Fail => Fail
    case Ok(key, afterColon) =>
      match Read(afterColon)
      case Fail => Fail
      case Ok(v, rest) =>
        var u := SkipSpace(rest);
        if u == "" then Fail
        else if u[0] == '}' then Ok([Member(key, v)], u[1..])
        else if u[0] != ',' then Fail
        else match ReadMembers(u[1..])
          case Fail => Fail
          case Ok(ms, rest') => Ok([Member(key, v)] + ms, rest')
  }

  /** A whole text: one value and nothing but white space after it. */
  function Parse(text: string): Option<Json> {
    match Read(text)
    case Fail => None
    case Ok(v, rest) => if SkipSpace(rest) == "" then Some(v) else None
  }

  // ---- reading inverts writing ----

  /** A text at which a number token ends. */
  predicate Stops(rest: string) {
    rest == "" || !IsNumberChar(rest[0])
  }

  lemma ReadsControl(c: char, rest: string)
    requires c < ' '
    ensures ReadUnicode("00" + [HexDigit(c as int / 16), HexDigit(c as int % 16)] + rest) == Ok(c, rest)
  {
    var t := "00" + [HexDigit(c as int / 16), HexDigit(c as int % 16)] + rest;
    assert HexValue(t[0]) == HexValue(t[1]) == Some(0);
    assert HexValue(t[2]) == Some(c as int / 16) && HexValue(t[3]) == Some(c as int % 16);
    assert Hex4(t) == Some(c as int);
    assert t[4..] == rest;
  }

  /** What follows the backslash of an escaped character reads back as that character. */
  lemma ReadsEscapedChar(c: char, rest: string)
    ensures EscapeChar(c) != "" && EscapeChar(c)[0] >= ' ' && EscapeChar(c)[0] != '\"'
    ensures EscapeChar(c)[0] == '\\' ==> ReadEscape(EscapeChar(c)[1..] + rest) == Ok(c, rest)
    ensures EscapeChar(c)[0] != '\\' ==> EscapeChar(c) == [c]
  {
    var e := EscapeChar(c);
    if e[0] == '\\' {
      var u := e[1..] + rest;
      if |e| == 6 {
        var hex := [HexDigit(c as int / 16), HexDigit(c as int % 16)];
        assert e == ['\\', 'u', '0', '0'] + hex;
        assert u == ['u'] + ("00" + hex + rest);
        ReadsControl(c, rest);
      } else {
        assert u[0] == e[1] && u[1..] == rest;
      }
    }
  }

  lemma ReadsFirstChar(c: char, tail: string)
    ensures ReadString(EscapeChar(c) + tail) ==
            match ReadString(tail) case Fail => Fail case Ok(s, rest) => Ok([c] + s, rest)
  {
    var e := EscapeChar(c);
    var t := e + tail;
    ReadsEscapedChar(c, tail);
    assert t[0] == e[0] && t[1..] == e[1..] + tail;
    if e[0] != '\\' {
      assert e[1..] + tail == tail;
    }
  }

  lemma {:induction false} ReadsEscaped(s: string, rest: string)
    ensures ReadString(Escape(s) + "\"" + rest) == Ok(s, rest)
    decreases |s|
  {
    if s == "" {
      assert (Escape(s) + "\"" + rest)[1..] == rest;
    } else {
      var tail := Escape(s[1..]) + "\"" + rest;
      assert Escape(s) + "\"" + rest == EscapeChar(s[0]) + tail;
      ReadsFirstChar(s[0], tail);
      ReadsEscaped(s[1..], rest);
      assert [s[0]] + s[1..] == s;
    }
  }

  lemma {:induction false} NumberEnds(token: string, rest: string)
    requires forall i :: 0 <= i < |token| ==> IsNumberChar(token[i])
    requires Stops(rest)
    ensures NumberLength(token + rest) == |token|
    decreases |token|
  {
    if token == "" {
      assert token + rest == rest;
    } else {
      assert (token + rest)[1..] == token[1..] + rest;
      NumberEnds(token[1..], rest);
    }
  }

  /** The first character of a written value decides how it is read. */
  lemma WriteStarts(v: Json)
    requires WellFormed(v)
    ensures Write(v) != "" && !IsSpace(Write(v)[0]) && Write(v)[0] != ']'
    ensures v.Num? ==> IsNumberChar(Write(v)[0])
  {
  }

  lemma ReadsWord(v: Json, rest: string)
    requires v.Null? || v.Bool?
    ensures Read(Write(v) + rest) == Ok(v, rest)
  {
    var n := |Write(v)|;
    var t := Write(v) + rest;
    assert t[0] == Write(v)[0] && SkipSpace(t) == t;
    assert t[..n] == Write(v) && t[n..] == rest;
  }

  lemma ReadsNumber(token: string, rest: string)
    requires IsNumber(token) && Stops(rest)
    ensures Read(token + rest) == Ok(Num(token), rest)
  {
    var t := token + rest;
    WriteStarts(Num(token));
    assert t[0] == token[0] && SkipSpace(t) == t;
    NumberEnds(token, rest);
    assert t[..|token|] == token && t[|token|..] == rest;
    assert ReadNumber(t) == Ok(Num(token), rest);
  }

  /** A text that starts with no white space is read from its first character. */
  lemma ReadsHere(c: char, u: string)
    requires !IsSpace(c)
    ensures Read([c] + u) == ReadValue([c] + u) && ([c] + u)[1..] == u
  {
    assert SkipSpace([c] + u) == [c] + u;
  }

  lemma ReadsQuoted(s: string, rest: string)
    ensures Read(Quote(s) + rest) == Ok(Str(s), rest)
  {
    var u := Escape(s) + "\"" + rest;
    assert Quote(s) + rest == ['\"'] + u;
    ReadsHere('\"', u);
    ReadsEscaped(s, rest);
    assert ReadText(u) == Ok(Str(s), rest);
  }

  lemma {:induction false} ReadsWritten(v: Json, rest: string)
    requires WellFormed(v) && Stops(rest)
    ensures Read(Write(v) + rest) == Ok(v, rest)
    decreases v, 1
  {
    match v
    case Num(token) => ReadsNumber(token, rest);
    case Str(s) => ReadsQuoted(s, rest);
    case Arr(elems) => ReadsArray(elems, rest);
    case Obj(members) => ReadsObject(members, rest);
    case _ => ReadsWord(v, rest);
  }

  lemma {:induction false} ReadsArray(elems: seq<Json>, rest: string)
    requires forall i :: 0 <= i < |elems| ==> WellFormed(elems[i])
    ensures Read(Write(Arr(elems)) + rest) == Ok(Arr(elems), rest)
    decreases elems, 2
  {
    var u := if elems == [] then "]" + rest else WriteElems(elems) + rest;
    assert Write(Arr(elems)) + rest == ['['] + u;
    ReadsHere('[', u);
    if elems == [] {
      assert u[1..] == rest;
    } else {
      ElemsStart(elems, rest);
      ReadsElems(elems, rest);
    }
    assert SkipSpace(u) == u;
    assert ReadArray(u) == Ok(Arr(elems), rest);
  }

  lemma {:induction false} ReadsObject(members: seq<Member>, rest: string)
    requires forall i :: 0 <= i < |members| ==> WellFormed(members[i].value)
    ensures Read(Write(Obj(members)) + rest) == Ok(Obj(members), rest)
    decreases members, 2
  {
    var u := if members == [] then "}" + rest else WriteMembers(members) + rest;
    assert Write(Obj(members)) + rest == ['{'] + u;
    ReadsHere('{', u);
    if members == [] {
      assert u[1..] == rest;
    } else {
      MembersStart(members, rest);
      ReadsMembers(members, rest);
    }
    assert SkipSpace(u) == u;
    assert ReadObject(u) == Ok(Obj(members), rest);
  }

  lemma ElemsStart(elems: seq<Json>, rest: string)
    requires elems != [] && WellFormed(elems[0])
    ensures WriteElems(elems) != ""
    ensures SkipSpace(WriteElems(elems) + rest) == WriteElems(elems) + rest
    ensures (WriteElems(elems) + rest)[0] != ']'
  {
    WriteStarts(elems[0]);
    assert (WriteElems(elems) + rest)[0] == Write(elems[0])[0];
  }

  /** Reading one element of an array, up to the character after it. */
  lemma ReadsElem(t: string, v: Json, after: string)
    requires Read(t) == Ok(v, after)
    requires after != "" && (after[0] == ',' || after[0] == ']')
    ensures ReadElems(t) ==
            if after[0] == ']' then Ok([v], after[1..])
            else match ReadElems(after[1..]) case Fail => Fail case Ok(vs, rest) => Ok([v] + vs, rest)
  {
    assert SkipSpace(after) == after;
  }

  lemma {:induction false} ReadsElems(elems: seq<Json>, rest: string)
    requires elems != [] && forall i :: 0 <= i < |elems| ==> WellFormed(elems[i])
    ensures ReadElems(WriteElems(elems) + rest) == Ok(elems, rest)
    decreases elems, 0
  {
    var v, more := elems[0], if |elems| == 1 then rest else WriteElems(elems[1..]) + rest;
    var after := [if |elems| == 1 then ']' else ','] + more;
    assert WriteElems(elems) + rest == Write(v) + after;
    ReadsWritten(v, after);
    ReadsElem(Write(v) + after, v, after);
    assert after[1..] == more;
    if |elems| == 1 {
      assert elems == [v];
    } else {
      ReadsElems(elems[1..], rest);
      assert elems == [v] + elems[1..];
    }
  }

  lemma ReadsKey(key: string, rest: string)
    ensures ReadKey(Quote(key) + ":" + rest) == Ok(key, rest)
  {
    var t := Quote(key) + ":" + rest;
    assert t[0] == '\"' && SkipSpace(t) == t;
    assert t[1..] == Escape(key) + "\"" + (":" + rest);
    ReadsEscaped(key, ":" + rest);
    assert SkipSpace(":" + rest) == ":" + rest && (":" + rest)[1..] == rest;
  }

  lemma MembersStart(members: seq<Member>, rest: string)
    requires members != []
    ensures WriteMembers(members) != "" && (WriteMembers(members) + rest)[0] == '\"'
    ensures SkipSpace(WriteMembers(members) + rest) == WriteMembers(members) + rest
  {
    var more := Write(members[0].value) + if |members| == 1 then "}" else "," + WriteMembers(members[1..]);
    assert WriteMembers(members) == "\"" + (Escape(members[0].key) + "\"" + ":" + more);
  }

  /** One member read, the others read by hypothesis. */
  lemma ReadsFirstMember(t: string, members: seq<Member>, afterColon: string, after: string, rest: string)
    requires members != [] && after != ""
    requires ReadKey(t) == Ok(members[0].key, afterColon)
    requires Read(afterColon) == Ok(members[0].value, after)
    requires |members| == 1 ==> after[0] == '}' && after[1..] == rest
    requires |members| > 1 ==> after[0] == ',' && ReadMembers(after[1..]) == Ok(members[1..], rest)
    ensures ReadMembers(t) == Ok(members, rest)
  {
    assert SkipSpace(after) == after;
    var m := members[0];
    assert m == Member(m.key, m.value);
    if |members| == 1 {
      assert members == [m];
    } else {
      assert members == [m] + members[1..];
    }
  }

  /** The text after the value of the first member: a brace, or a comma and the other members. */
  function AfterMember(members: seq<Member>, rest: string): (after: string)
    requires members != []
    ensures after != ""
    ensures |members| == 1 ==> after[0] == '}' && after[1..] == rest
    ensures |members| > 1 ==> after[0] == ',' && after[1..] == WriteMembers(members[1..]) + rest
  {
    if |members| == 1 then ['}'] + rest else [','] + (WriteMembers(members[1..]) + rest)
  }

  lemma MembersText(members: seq<Member>, rest: string)
    requires members != []
    ensures WriteMembers(members) + rest ==
            Quote(members[0].key) + ":" + (Write(members[0].value) + AfterMember(members, rest))
  {
  }

  lemma {:induction false} ReadsMembers(members: seq<Member>, rest: string)
    requires members != [] && forall i :: 0 <= i < |members| ==> WellFormed(members[i].value)
    ensures ReadMembers(WriteMembers(members) + rest) == Ok(members, rest)
    decreases members, 0
  {
    var after := AfterMember(members, rest);
    ReadsWritten(members[0].value, after);
    if |members| > 1 {
      ReadsMembers(members[1..], rest);
    }
    MembersText(members, rest);
    ReadsKey(members[0].key, Write(members[0].value) + after);
    ReadsFirstMember(WriteMembers(members) + rest, members, Write(members[0].value) + after, after, rest);
  }

  /** `JSON.parse(JSON.stringify(v))` is `v`. */
  lemma ParseInvertsWrite(v: Json)
    requires WellFormed(v)
    ensures Parse(Write(v)) == Some(v)
  {
    ReadsWritten(v, "");
    assert Write(v) + "" == Write(v);
  }

  lemma WriteInjective(v: Json, w: Json)
    requires WellFormed(v) && WellFormed(w) && Write(v) == Write(w)
    ensures v == w
  {
    ParseInvertsWrite(v);
    ParseInvertsWrite(w);
  }
}
