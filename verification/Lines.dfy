/**
  Newline-delimited byte streams. Both readers of claude output (the transcript
  follower and the stream-json writer) cut an arriving byte stream at newlines;
  this module says what the cut produces, independently of how the bytes arrived.
*/
module Lines {
  import opened Common

  type Byte = b: int | 0 <= b < 256
  type Bytes = seq<Byte>

  const NEWLINE: Byte := 10

  /** A stream cut so far: its newline-terminated lines, and what follows the last newline. */
  datatype Cut = Cut(lines: seq<Bytes>, rest: Bytes)

  const NOTHING := Cut([], [])

  function Push(c: Cut, b: Byte): Cut {
    if b == NEWLINE then Cut(c.lines + [c.rest], []) else Cut(c.lines, c.rest + [b])
  }

  function Extend(c: Cut, s: Bytes): Cut
    decreases |s|
  {
    if s == [] then c else Extend(Push(c, s[0]), s[1..])
  }

  /** The newline-terminated lines of `s`, newlines stripped. */
  function Complete(s: Bytes): seq<Bytes> { Extend(NOTHING, s).lines }

  /** What follows the last newline of `s`. */
  function Remainder(s: Bytes): Bytes { Extend(NOTHING, s).rest }

  /** A prefix that stops on a line boundary. */
  predicate Aligned(s: Bytes) {
    s == [] || s[|s| - 1] == NEWLINE
  }

  lemma {:induction false} ExtendAppend(c: Cut, a: Bytes, b: Bytes)
    ensures Extend(c, a + b) == Extend(Extend(c, a), b)
    decreases |a|
  {
    if a == [] {
      assert a + b == b;
    } else {
      assert (a + b)[1..] == a[1..] + b;
      ExtendAppend(Push(c, a[0]), a[1..], b);
    }
  }

  /** Lines already cut are never revisited. */
  lemma {:induction false} ExtendKeepsLines(c: Cut, s: Bytes)
    ensures Extend(c, s).lines == c.lines + Extend(Cut([], c.rest), s).lines
    ensures Extend(c, s).rest == Extend(Cut([], c.rest), s).rest
    decreases |s|
  {
    if s != [] {
      ExtendKeepsLines(Push(c, s[0]), s[1..]);
      ExtendKeepsLines(Push(Cut([], c.rest), s[0]), s[1..]);
    }
  }

  lemma {:induction false} ExtendLineFree(c: Cut, s: Bytes)
    requires NEWLINE !in s
    ensures Extend(c, s) == Cut(c.lines, c.rest + s)
    decreases |s|
  {
    if s != [] {
      ExtendLineFree(Push(c, s[0]), s[1..]);
      assert c.rest + s == (c.rest + [s[0]]) + s[1..];
    }
  }

  lemma {:induction false} RestIsLineFree(c: Cut, s: Bytes)
    requires NEWLINE !in c.rest
    ensures NEWLINE !in Extend(c, s).rest
    decreases |s|
  {
    if s != [] {
      RestIsLineFree(Push(c, s[0]), s[1..]);
    }
  }

  lemma RemainderIsLineFree(s: Bytes)
    ensures NEWLINE !in Remainder(s)
  {
    RestIsLineFree(NOTHING, s);
  }

  lemma LineFree(s: Bytes)
    requires NEWLINE !in s
    ensures Complete(s) == [] && Remainder(s) == s
  {
    ExtendLineFree(NOTHING, s);
    assert [] + s == s;
  }

  lemma AlignedHasNoRemainder(s: Bytes)
    ensures Aligned(s) <==> Remainder(s) == []
  {
    if s != [] {
      var n := |s| - 1;
      assert s == s[..n] + [s[n]];
      ExtendAppend(NOTHING, s[..n], [s[n]]);
      assert Extend(Extend(NOTHING, s[..n]), [s[n]]) == Push(Extend(NOTHING, s[..n]), s[n]);
    }
  }

  /** Cutting is incremental: only the remainder matters for what comes next. */
  lemma CutAppend(a: Bytes, b: Bytes)
    ensures Complete(a + b) == Complete(a) + Complete(Remainder(a) + b)
    ensures Remainder(a + b) == Remainder(Remainder(a) + b)
  {
    var c := Extend(NOTHING, a);
    ExtendAppend(NOTHING, a, b);
    ExtendKeepsLines(c, b);
    RemainderIsLineFree(a);
    ExtendAppend(NOTHING, c.rest, b);
    LineFree(c.rest);
  }

  lemma CutAppendAligned(a: Bytes, b: Bytes)
    requires Aligned(a)
    ensures Complete(a + b) == Complete(a) + Complete(b)
    ensures Remainder(a + b) == Remainder(b)
  {
    AlignedHasNoRemainder(a);
    CutAppend(a, b);
    assert [] + b == b;
  }

  /** A line and its newline cut to exactly that line. */
  lemma CutOne(line: Bytes)
    requires NEWLINE !in line
    ensures Complete(line + [NEWLINE]) == [line]
    ensures Aligned(line + [NEWLINE])
  {
    CutAppend(line, [NEWLINE]);
    LineFree(line);
    ExtendAppend(NOTHING, line, [NEWLINE]);
  }

  /** Position of the first newline of `s`, or `|s|` when it has none. */
  function FirstNewline(s: Bytes): (i: nat)
    ensures i <= |s|
  {
    if s == [] || s[0] == NEWLINE then 0 else 1 + FirstNewline(s[1..])
  }

  lemma {:induction false} FirstNewlineIsFirst(s: Bytes)
    ensures NEWLINE !in s[..FirstNewline(s)]
    ensures FirstNewline(s) < |s| ==> s[FirstNewline(s)] == NEWLINE
  {
    if s != [] && s[0] != NEWLINE {
      FirstNewlineIsFirst(s[1..]);
      assert s[..FirstNewline(s)] == [s[0]] + s[1..][..FirstNewline(s[1..])];
    }
  }

  lemma CutLineThen(line: Bytes, after: Bytes)
    requires NEWLINE !in line
    ensures Complete(line + [NEWLINE] + after) == [line] + Complete(after)
    ensures Remainder(line + [NEWLINE] + after) == Remainder(after)
    ensures Aligned(line + [NEWLINE])
  {
    CutOne(line);
    CutAppendAligned(line + [NEWLINE], after);
  }

  lemma SplitAtNewline(s: Bytes, i: nat)
    requires i < |s| && s[i] == NEWLINE
    ensures s == s[..i] + [NEWLINE] + s[i + 1..]
    ensures s[..i + 1] == s[..i] + [NEWLINE]
  {
  }

  /** Taking the first line off the front, as both readers do. */
  lemma CutHead(s: Bytes)
    requires FirstNewline(s) < |s|
    ensures Complete(s) == [s[..FirstNewline(s)]] + Complete(s[FirstNewline(s) + 1..])
    ensures Remainder(s) == Remainder(s[FirstNewline(s) + 1..])
    ensures Aligned(s[..FirstNewline(s) + 1])
  {
    var i := FirstNewline(s);
    FirstNewlineIsFirst(s);
    SplitAtNewline(s, i);
    CutLineThen(s[..i], s[i + 1..]);
  }

  lemma CutHeadless(s: Bytes)
    requires FirstNewline(s) == |s|
    ensures Complete(s) == [] && Remainder(s) == s
  {
    FirstNewlineIsFirst(s);
    assert s[..|s|] == s;
    LineFree(s);
  }
}
