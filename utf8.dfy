/** Well-formed UTF-8 (Table 3-7 of the Unicode Standard, as RFC 3629 section 4 restates it), the check
    `CString::into_string` makes on a copied label. */
module Utf8 {
  import opened Prelude
  import opened Errors

  predicate IsContinuation(b: Byte)
  {
    0x80 <= b <= 0xBF
  }

  /** The second byte allowed after a three-byte lead: no overlong forms, no surrogates. */
  predicate SecondOfThree(lead: Byte, b: Byte)
  {
    if lead == 0xE0 then 0xA0 <= b <= 0xBF
    else if lead == 0xED then 0x80 <= b <= 0x9F
    else IsContinuation(b)
  }

  /** The second byte allowed after a four-byte lead: no overlong forms, nothing above U+10FFFF. */
  predicate SecondOfFour(lead: Byte, b: Byte)
  {
    if lead == 0xF0 then 0x90 <= b <= 0xBF
    else if lead == 0xF4 then 0x80 <= b <= 0x8F
    else IsContinuation(b)
  }

  /** The length of the well-formed sequence that starts at `s[i]`, if one does. */
  function SequenceLength(s: seq<Byte>, i: nat): (n: Option<nat>)
    requires i < |s|
    ensures n.Some? ==> 1 <= n.value <= 4 && i + n.value <= |s|
    ensures s[i] < 0x80 ==> n == Some(1)
  {
    var lead := s[i];
    if lead < 0x80 then Some(1)
    else if 0xC2 <= lead <= 0xDF then
      if i + 1 < |s| && IsContinuation(s[i + 1]) then Some(2) else None
    else if 0xE0 <= lead <= 0xEF then
      if i + 2 < |s| && SecondOfThree(lead, s[i + 1]) && IsContinuation(s[i + 2]) then Some(3) else None
    else if 0xF0 <= lead <= 0xF4 then
      if i + 3 < |s| && SecondOfFour(lead, s[i + 1]) && IsContinuation(s[i + 2]) && IsContinuation(s[i + 3])
      then Some(4) else None
    else None
  }

  /** Scans whole sequences from `i` on and stops at the first one that is not well formed. */
  function ScanFrom(s: seq<Byte>, i: nat): (k: nat)
    requires i <= |s|
    ensures i <= k <= |s|
    decreases |s| - i
  {
    if i == |s| then i
    else match SequenceLength(s, i)
      case None => i
      case Some(n) => ScanFrom(s, i + n)
  }

  /** `Utf8Error::valid_up_to`: the length of the longest well-formed prefix found by the scan. */
  function ValidUpTo(s: seq<Byte>): nat
  {
    ScanFrom(s, 0)
  }

  predicate IsUtf8(s: seq<Byte>)
  {
    ValidUpTo(s) == |s|
  }

  /** `String::from_utf8` (what `CString::into_string` does): the same bytes, or where they stop being valid. */
  function FromUtf8(bytes: seq<Byte>): (r: Result<seq<Byte>, Utf8Error>)
    ensures r.Ok? <==> IsUtf8(bytes)
    ensures r.Ok? ==> r.value == bytes
    ensures r.Err? ==> r.error.validUpTo == ValidUpTo(bytes) < |bytes|
  {
    var k := ValidUpTo(bytes);
    if k == |bytes| then Ok(bytes) else Err(Utf8Error(k))
  }

  /** Whether a sequence is well formed at `i` depends only on its own bytes. */
  lemma SequenceLengthPrefix(s: seq<Byte>, i: nat, m: nat)
    requires i < |s| && m <= |s|
    requires SequenceLength(s, i).Some? && i + SequenceLength(s, i).value <= m
    ensures SequenceLength(s[..m], i) == SequenceLength(s, i)
  {
  }

  lemma {:induction false} ScanPrefix(s: seq<Byte>, i: nat)
    requires i <= ScanFrom(s, 0) && i <= |s|
    requires ScanFrom(s, i) == ScanFrom(s, 0)
    ensures ScanFrom(s[..ScanFrom(s, 0)], i) == ScanFrom(s, 0)
    decreases |s| - i
  {
    var k := ScanFrom(s, 0);
    var t := s[..k];
    if i == k {
    } else {
      var n := SequenceLength(s, i).value;
      SequenceLengthPrefix(s, i, k);
      ScanPrefix(s, i + n);
    }
  }

  /** The prefix `valid_up_to` reports is itself well formed. */
  lemma ValidPrefixIsUtf8(s: seq<Byte>)
    ensures IsUtf8(s[..ValidUpTo(s)])
  {
    ScanPrefix(s, 0);
  }

  /** Plain ASCII is well-formed UTF-8. */
  lemma {:induction false} AsciiIsUtf8(s: seq<Byte>, i: nat)
    requires i <= |s|
    requires forall j :: 0 <= j < |s| ==> s[j] < 0x80
    ensures ScanFrom(s, i) == |s|
    decreases |s| - i
  {
    if i < |s| {
      AsciiIsUtf8(s, i + 1);
    }
  }
}
