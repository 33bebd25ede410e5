/** JSON text has no room to spare: no text of a value is shorter than the one written. */
module CompactText {
  import opened Prelude
  import opened CanonicalJson

  // ---- characters and strings ----

  /**
   The remaining control characters are written with two lower-case digits, any other unescaped
   character as itself.
   */
  lemma EscapesAreLowerCase(c: char)
    ensures c in "\"\\\U{8}\U{C}\n\r\t" ==> |EscapeChar(c)| == 2
    ensures c !in "\"\\\U{8}\U{C}\n\r\t" && c as int < 0x20 ==>
              && |EscapeChar(c)| == 6 && EscapeChar(c)[..4] == "\\u00"
              && EscapeChar(c)[4] in "01" && EscapeChar(c)[5] in "0123456789abcdef"
    ensures c !in "\"\\" && c as int >= 0x20 ==> EscapeChar(c) == [c]
  {
    if c as int < 0x20 {
      assert HexDigit(c as int / 16) == "01"[c as int / 16];
      DigitIsLowerCase(c as int % 16);
    }
  }

  lemma DigitIsLowerCase(n: nat)
    requires n < 16
    ensures HexDigit(n) == "0123456789abcdef"[n]
  {
  }

  lemma EscapeReadIsLonger(t: string)
    ensures ReadEscape(t).Ok? ==> |EscapeChar(ReadEscape(t).value)| - 1 <= |t| - |ReadEscape(t).rest|
  {
    hide HexDigit, ReadUnicode;
    if t != "" && t[0] == 'u' && ReadUnicode(t[1..]).Ok? {
      UnicodeReadIsLong(t[1..]);
      assert |EscapeChar(ReadEscape(t).value)| <= 6;
    }
  }

  lemma UnicodeReadIsLong(t: string)
    ensures ReadUnicode(t).Ok? ==> |ReadUnicode(t).rest| <= |t| - 4
  {
    hide HexValue;
  }

  lemma {:induction false} StringReadIsLonger(t: string)
    ensures ReadString(t).Ok? ==> |Escape(ReadString(t).value)| + 1 <= |t| - |ReadString(t).rest|
    decreases |t|
  {
    hide ReadEscape, HexDigit;
    if ReadString(t).Ok? && t[0] != '\"' {
      var first := if t[0] == '\\' then ReadEscape(t[1..]) else Ok(t[0], t[1..]);
      EscapeReadIsLonger(t[1..]);
      StringReadIsLonger(first.rest);
      var s := ReadString(first.rest).value;
      assert ([first.value] + s)[1..] == s;
    }
  }

  // ---- values ----

  /** Reading `v` took at least as many characters as writing it takes. */
  ghost predicate LongEnough(t: string, r: Parsed<Json>) {
    r.Ok? ==> |Write(r.value)| <= |t| - |r.rest|
  }

  lemma {:induction false} ReadIsLonger(t: string)
    ensures LongEnough(t, Read(t))
    decreases |t|, 3
  {
    hide ReadValue, Write;
    ValueReadIsLonger(SkipSpace(t));
  }

  lemma {:induction false} ValueReadIsLonger(t: string)
    ensures LongEnough(t, ReadValue(t))
    decreases |t|, 2
  {
    hide ReadElems, ReadMembers, ReadString, IsNumber, SkipSpace, Escape;
    if t != "" {
      if t[0] == '\"' {
        StringReadIsLonger(t[1..]);
      } else if t[0] == '[' {
        ArrayReadIsLonger(SkipSpace(t[1..]));
      } else if t[0] == '{' {
        ObjectReadIsLonger(SkipSpace(t[1..]));
      }
    }
  }

  lemma {:induction false} ArrayReadIsLonger(u: string)
    ensures ReadArray(u).Ok? ==> |Write(ReadArray(u).value)| - 1 <= |u| - |ReadArray(u).rest|
    decreases |u|, 5
  {
    hide ReadElems, WriteElems;
    if !(u != "" && u[0] == ']') {
      ElemsReadIsLonger(u);
    }
  }

  lemma {:induction false} ObjectReadIsLonger(u: string)
    ensures ReadObject(u).Ok? ==> |Write(ReadObject(u).value)| - 1 <= |u| - |ReadObject(u).rest|
    decreases |u|, 5
  {
    hide ReadMembers, WriteMembers;
    if !(u != "" && u[0] == '}') {
      MembersReadIsLonger(u);
    }
  }

  lemma {:induction false} ElemsReadIsLonger(t: string)
    ensures var r := ReadElems(t);
            r.Ok? ==> r.value != [] && |WriteElems(r.value)| <= |t| - |r.rest|
    decreases |t|, 4
  {
    hide Write, Read;
    ReadIsLonger(t);
    var first := Read(t);
    if first.Ok? {
      var u := SkipSpace(first.rest);
      if u != "" && u[0] == ',' {
        ElemsReadIsLonger(u[1..]);
        var others := ReadElems(u[1..]);
        if others.Ok? {
          assert ([first.value] + others.value)[1..] == others.value;
        }
      }
    }
  }

  lemma KeyReadIsLonger(t: string)
    ensures ReadKey(t).Ok? ==> |Quote(ReadKey(t).value)| + 1 <= |t| - |ReadKey(t).rest|
  {
    hide Escape, ReadString;
    var k := SkipSpace(t);
    if k != "" && k[0] == '\"' {
      StringReadIsLonger(k[1..]);
    }
  }

  lemma {:induction false} MembersReadIsLonger(t: string)
    ensures var r := ReadMembers(t);
            r.Ok? ==> r.value != [] && |WriteMembers(r.value)| <= |t| - |r.rest|
    decreases |t|, 4
  {
    hide Write, Read, ReadKey, Quote;
    KeyReadIsLonger(t);
    var key := ReadKey(t);
    if key.Ok? {
      ReadIsLonger(key.rest);
      var first := Read(key.rest);
      if first.Ok? {
        var u := SkipSpace(first.rest);
        if u != "" && u[0] == ',' {
          MembersReadIsLonger(u[1..]);
          var others := ReadMembers(u[1..]);
          if others.Ok? {
            assert ([Member(key.value, first.value)] + others.value)[1..] == others.value;
          }
        }
      }
    }
  }

  /** Every text that reads as a value is at least as long as the value's own: no white space, no needless escape. */
  lemma WriteIsShortest(t: string, v: Json)
    requires Parse(t) == Some(v)
    ensures |Write(v)| <= |t|
  {
    hide Read, Write;
    ReadIsLonger(t);
  }
}
