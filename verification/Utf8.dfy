/** UTF-8 as section 3 of RFC 3629 defines it, and where a valid text may be cut. */
module Utf8 {
  import opened Lines

  predicate Continuation(b: Byte) { 0x80 <= b < 0xC0 }

  /** utf8.RuneStart. */
  predicate RuneStart(b: Byte) { !Continuation(b) }

  /** Length of the sequence a lead byte announces; 0 if no sequence starts with it. */
  function Width(b: Byte): nat {
    if b < 0x80 then 1 else if b < 0xC2 then 0 else if b < 0xE0 then 2 else if b < 0xF0 then 3
    else if b < 0xF5 then 4 else 0
  }

  /** The second byte, which some lead bytes restrict further. */
  predicate SecondOk(lead: Byte, b: Byte) {
    && Continuation(b)
    && (lead == 0xE0 ==> b >= 0xA0) && (lead == 0xED ==> b < 0xA0)
    && (lead == 0xF0 ==> b >= 0x90) && (lead == 0xF4 ==> b < 0x90)
  }

  predicate StartsChar(s: Bytes)
    requires s != []
  {
    var w := Width(s[0]);
    && 1 <= w <= |s|
    && (w >= 2 ==> SecondOk(s[0], s[1]))
    && (w >= 3 ==> Continuation(s[2]))
    && (w >= 4 ==> Continuation(s[3]))
  }

  predicate Valid(s: Bytes)
    decreases |s|
  {
    s == [] || (StartsChar(s) && Valid(s[Width(s[0])..]))
  }

  lemma ValidStep(s: Bytes)
    requires s != [] && StartsChar(s) && Valid(s[Width(s[0])..])
    ensures Valid(s)
  {
  }

  lemma CharTail(s: Bytes, i: nat)
    requires s != [] && StartsChar(s) && 1 <= i < Width(s[0])
    ensures Continuation(s[i])
  {
  }

  lemma PrefixStarts(s: Bytes, cut: nat)
    requires s != [] && StartsChar(s) && Width(s[0]) <= cut <= |s|
    ensures StartsChar(s[..cut])
  {
  }

  lemma Slices(s: Bytes, w: nat, cut: nat)
    requires w <= cut <= |s|
    ensures s[w..][..cut - w] == s[..cut][w..] && s[w..][cut - w..] == s[cut..]
  {
  }

  /** Cutting before a rune start leaves two valid texts. */
  lemma {:induction false} ValidSplit(s: Bytes, cut: nat)
    requires Valid(s) && cut <= |s| && (cut == |s| || RuneStart(s[cut]))
    ensures Valid(s[..cut]) && Valid(s[cut..])
    decreases |s|
  {
    if cut == 0 {
      assert s[cut..] == s && s[..cut] == [];
    } else {
      var w := Width(s[0]);
      if cut < w {
        CharTail(s, cut);
        assert false;
      }
      ValidSplit(s[w..], cut - w);
      Slices(s, w, cut);
      PrefixStarts(s, cut);
      ValidStep(s[..cut]);
    }
  }

  lemma AppendStarts(a: Bytes, b: Bytes)
    requires a != [] && StartsChar(a)
    ensures StartsChar(a + b) && (a + b)[Width(a[0])..] == a[Width(a[0])..] + b
  {
  }

  lemma {:induction false} ValidAppend(a: Bytes, b: Bytes)
    requires Valid(a) && Valid(b)
    ensures Valid(a + b)
    decreases |a|
  {
    if a == [] {
      assert a + b == b;
    } else {
      ValidAppend(a[Width(a[0])..], b);
      AppendStarts(a, b);
      ValidStep(a + b);
    }
  }

  /** A rune start is never more than three bytes back. */
  lemma {:induction false} RuneStartNear(s: Bytes, k: nat) returns (j: nat)
    requires Valid(s) && k < |s|
    ensures k - 3 <= j <= k && RuneStart(s[j])
    decreases |s|
  {
    var w := Width(s[0]);
    if k < w {
      j := 0;
    } else {
      var i := RuneStartNear(s[w..], k - w);
      j := i + w;
    }
  }

  predicate Ascii(s: Bytes) { forall i :: 0 <= i < |s| ==> s[i] < 0x80 }

  lemma {:induction false} AsciiIsValid(s: Bytes)
    requires Ascii(s)
    ensures Valid(s)
    decreases |s|
  {
    if s != [] {
      AsciiIsValid(s[1..]);
      ValidStep(s);
    }
  }
}
