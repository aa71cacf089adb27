/** Well-formed UTF-8: the byte sequences that a strict UTF-8 decoder (Python's
    `bytes.decode('utf-8')`) accepts, following Table 3-7 of the Unicode
    Standard. Overlong forms, encoded surrogates and values beyond U+10FFFF
    are refused. */
module Utf8 {
  import opened Wire

  /** `s[i]` exists and lies in `lo..hi`. */
  predicate ByteIn(s: seq<Byte>, i: nat, lo: Byte, hi: Byte) {
    i < |s| && lo <= s[i] <= hi
  }

  /** `s[i]` exists and is a continuation byte. */
  predicate Continuation(s: seq<Byte>, i: nat) {
    ByteIn(s, i, 0x80, 0xBF)
  }

  /** The length of the well-formed sequence that starts `s`, or 0 when `s`
      does not start with one. */
  function SequenceLength(s: seq<Byte>): (k: nat)
    requires s != []
    ensures k <= 4 && k <= |s|
    ensures k == 1 <==> s[0] < 0x80
  {
    var b := s[0];
    if b < 0x80 then 1
    else if 0xC2 <= b <= 0xDF then
      if Continuation(s, 1) then 2 else 0
    else if b == 0xE0 then
      if ByteIn(s, 1, 0xA0, 0xBF) && Continuation(s, 2) then 3 else 0
    else if 0xE1 <= b <= 0xEC || 0xEE <= b <= 0xEF then
      if Continuation(s, 1) && Continuation(s, 2) then 3 else 0
    else if b == 0xED then
      if ByteIn(s, 1, 0x80, 0x9F) && Continuation(s, 2) then 3 else 0
    else if b == 0xF0 then
      if ByteIn(s, 1, 0x90, 0xBF) && Continuation(s, 2) && Continuation(s, 3) then 4 else 0
    else if 0xF1 <= b <= 0xF3 then
      if Continuation(s, 1) && Continuation(s, 2) && Continuation(s, 3) then 4 else 0
    else if b == 0xF4 then
      if ByteIn(s, 1, 0x80, 0x8F) && Continuation(s, 2) && Continuation(s, 3) then 4 else 0
    else 0
  }

  /** `s` is a concatenation of well-formed sequences. */
  predicate Valid(s: seq<Byte>)
    decreases |s|
  {
    s == [] || (SequenceLength(s) > 0 && Valid(s[SequenceLength(s)..]))
  }

  /** Every ASCII string is valid UTF-8 (so every ASCII host name decodes). */
  lemma {:induction false} AsciiValid(s: seq<Byte>)
    requires forall i :: 0 <= i < |s| ==> s[i] < 0x80
    ensures Valid(s)
  {
    if s != [] {
      AsciiValid(s[1..]);
    }
  }

  /** A valid string never starts with a continuation byte, and a byte that
      no UTF-8 sequence uses (C0, C1, F5..FF) makes a string invalid. */
  lemma {:induction false} InvalidBytes(s: seq<Byte>, i: nat)
    requires Valid(s)
    requires i < |s|
    ensures s[i] != 0xC0 && s[i] != 0xC1 && s[i] < 0xF5
    ensures i == 0 ==> !(0x80 <= s[0] <= 0xBF)
    decreases |s|
  {
    var k := SequenceLength(s);
    if i >= k {
      assert s[k..][i - k] == s[i];
      InvalidBytes(s[k..], i - k);
    }
  }
}
