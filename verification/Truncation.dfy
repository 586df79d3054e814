/** Cutting a briefing section to a byte cap without splitting a character (go/compose.go). */
module Truncation {

  type Byte = b: int | 0 <= b < 256 witness 0

  // ---- UTF-8, as section 4 of RFC 3629 defines it ----

  predicate Tail(b: Byte) {
    0x80 <= b <= 0xBF
  }

  predicate Two(s: seq<Byte>) {
    |s| >= 2 && 0xC2 <= s[0] <= 0xDF && Tail(s[1])
  }

  predicate Three(s: seq<Byte>) {
    |s| >= 3 && Tail(s[2]) &&
    ((s[0] == 0xE0 && 0xA0 <= s[1] <= 0xBF) || (0xE1 <= s[0] <= 0xEC && Tail(s[1])) ||
     (s[0] == 0xED && 0x80 <= s[1] <= 0x9F) || (0xEE <= s[0] <= 0xEF && Tail(s[1])))
  }

  predicate Four(s: seq<Byte>) {
    |s| >= 4 && Tail(s[2]) && Tail(s[3]) &&
    ((s[0] == 0xF0 && 0x90 <= s[1] <= 0xBF) || (0xF1 <= s[0] <= 0xF3 && Tail(s[1])) ||
     (s[0] == 0xF4 && 0x80 <= s[1] <= 0x8F))
  }

  // The length of the character at the front; 0 if there is none.
  function CharLen(s: seq<Byte>): (n: nat)
    ensures n <= 4 && n <= |s|
  {
    if s != [] && s[0] <= 0x7F then 1 else if Two(s) then 2 else if Three(s) then 3 else if Four(s) then 4 else 0
  }

  predicate Valid(s: seq<Byte>) {
    s == [] || (CharLen(s) > 0 && Valid(s[CharLen(s)..]))
  }

  // ---- the loop ----

  // utf8.RuneStart.
  predicate RuneStart(b: Byte) {
    !Tail(b)
  }

  // Where the cut falls: the last place at or before the cap where a character starts, or 0.
  method CapBriefing(content: seq<Byte>, maxBytes: int) returns (kept: seq<Byte>, cut: bool)
    ensures maxBytes <= 0 || |content| <= maxBytes ==> kept == content && !cut
    ensures 0 < maxBytes < |content| ==> cut && kept <= content && |kept| <= maxBytes
    ensures 0 < maxBytes < |content| && Valid(content) ==> Valid(kept) && |kept| > maxBytes - 4
    ensures 0 < maxBytes < |content| && Valid(content) ==>
              forall k :: |kept| < k <= maxBytes ==> !Valid(content[..k])
  {
    if maxBytes <= 0 || |content| <= maxBytes {
      return content, false;
    }
    var at: nat := maxBytes;
    while at > 0 && !RuneStart(content[at])
      invariant at <= maxBytes
      invariant forall k :: at < k <= maxBytes ==> Tail(content[k])
    {
      at := at - 1;
    }
    if Valid(content) {
      ValidStart(content);
      PrefixValidIff(content, at);
      NotFarBack(content, at, maxBytes);
      forall k | at < k <= maxBytes ensures !Valid(content[..k]) {
        PrefixValidIff(content, k);
      }
    }
    return content[..at], true;
  }

  lemma ValidStart(s: seq<Byte>)
    requires Valid(s) && s != []
    ensures !Tail(s[0])
  {
  }

  // The bytes of a character after its first are tails, and nothing else is.
  lemma CharTails(s: seq<Byte>)
    requires CharLen(s) > 0
    ensures !Tail(s[0]) && forall i :: 0 < i < CharLen(s) ==> Tail(s[i])
  {
  }

  // A character cut short is no character.
  lemma CutChar(s: seq<Byte>, k: nat)
    requires 0 < k < CharLen(s)
    ensures CharLen(s[..k]) == 0
  {
  }

  lemma WholeChar(s: seq<Byte>, k: nat)
    requires 0 < CharLen(s) <= k <= |s|
    ensures CharLen(s[..k]) == CharLen(s) && s[..k][CharLen(s)..] == s[CharLen(s)..][..k - CharLen(s)]
  {
  }

  // A prefix of valid text is valid exactly where the next byte, if any, starts a character.
  lemma {:induction false} PrefixValidIff(s: seq<Byte>, k: nat)
    requires Valid(s) && k <= |s|
    ensures Valid(s[..k]) <==> k == |s| || !Tail(s[k])
  {
    hide CharLen, Tail;
    if k == |s| {
      assert s[..k] == s;
    } else if k == 0 {
      ValidStart(s);
    } else {
      CharTails(s);
      var n := CharLen(s);
      if k < n {
        CutChar(s, k);
      } else {
        WholeChar(s, k);
        PrefixValidIff(s[n..], k - n);
      }
    }
  }

  // A character has at most three tails, so a start is never more than three bytes back.
  lemma {:induction false} NotFarBack(s: seq<Byte>, at: nat, k: nat)
    requires Valid(s) && at <= k < |s| && forall i :: at < i <= k ==> Tail(s[i])
    ensures k - at <= 3
  {
    var n := CharLen(s);
    CharTails(s);
    if at >= n {
      assert forall i :: at - n < i <= k - n ==> Tail(s[n..][i]);
      NotFarBack(s[n..], at - n, k - n);
    } else if k >= n {
      ValidStart(s[n..]);
    }
  }
}
