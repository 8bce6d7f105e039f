/** White space and trimming, as Rust's `str::trim`. */
module Strings {

  /** The characters with the Unicode property White_Space. */
  predicate IsWhiteSpace(c: char) {
    var k := c as int;
    || 9 <= k <= 13 || k == 0x20 || k == 0x85 || k == 0xA0 || k == 0x1680 || 0x2000 <= k <= 0x200A
    || k == 0x2028 || k == 0x2029 || k == 0x202F || k == 0x205F || k == 0x3000
  }

  function TrimStart(s: string): string {
    if s != "" && IsWhiteSpace(s[0]) then TrimStart(s[1..]) else s
  }

  function TrimEnd(s: string): string {
    if s != "" && IsWhiteSpace(s[|s| - 1]) then TrimEnd(s[..|s| - 1]) else s
  }

  function Trim(s: string): string { TrimEnd(TrimStart(s)) }

  lemma {:induction false} StartTrimmed(s: string)
    ensures TrimStart(s) != "" ==> !IsWhiteSpace(TrimStart(s)[0])
  {
    if s != "" { StartTrimmed(s[1..]); }
  }

  lemma {:induction false} EndTrimmed(s: string)
    ensures TrimEnd(s) <= s
    ensures TrimEnd(s) != "" ==> !IsWhiteSpace(TrimEnd(s)[|TrimEnd(s)| - 1])
  {
    if s != "" { EndTrimmed(s[..|s| - 1]); }
  }

  lemma TrimTwice(s: string)
    ensures Trim(Trim(s)) == Trim(s)
  {
    StartTrimmed(s);
    EndTrimmed(TrimStart(s));
  }
}
