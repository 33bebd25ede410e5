/** What JavaScript's string functions say of a text. */
module Text {
  /** White space of `\s` and `trim`. */
  predicate Blank(c: char) {
    var p := c as int;
    9 <= p <= 13 || p == 0x20 || p == 0xA0 || p == 0x1680 || 0x2000 <= p <= 0x200A || p == 0x2028 || p == 0x2029
    || p == 0x202F || p == 0x205F || p == 0x3000 || p == 0xFEFF
  }

  predicate NotBlank(s: string) {
    exists i :: 0 <= i < |s| && !Blank(s[i])
  }

  /** JavaScript's `length`: characters above U+FFFF count twice. */
  function Utf16Length(s: string): nat {
    if s == "" then 0 else Utf16Length(s[..|s| - 1]) + if s[|s| - 1] as int > 0xFFFF then 2 else 1
  }

  /** `trim` */
  function Trim(s: string): string {
    if s != "" && Blank(s[0]) then Trim(s[1..])
    else if s != "" && Blank(s[|s| - 1]) then Trim(s[..|s| - 1])
    else s
  }

  /** What `trim` leaves has no white space at its ends, so trimming again changes nothing. */
  lemma {:induction false} TrimTwice(s: string)
    ensures Trim(Trim(s)) == Trim(s)
    decreases |s|
  {
    if s != "" && Blank(s[0]) {
      TrimTwice(s[1..]);
    } else if s != "" && Blank(s[|s| - 1]) {
      TrimTwice(s[..|s| - 1]);
    }
  }
}
