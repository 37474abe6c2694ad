/** Splitting a long text into Slack messages (cmd/bigband-slack/split.go). */
module Split {
  import opened Common
  import opened Lines
  import opened Utf8

  const MAX_MESSAGE := 3900
  const RESERVE := 24

  function Limit(limit: int): (l: nat)
    ensures l >= 1
    ensures limit > 0 ==> l == limit
    ensures limit <= 0 ==> l == 3900
  {
    if limit <= 0 then MAX_MESSAGE else limit
  }

  function Budget(limit: nat): (b: nat)
    requires limit >= 1
    ensures 1 <= b <= limit
    ensures limit > 24 ==> b + 24 == limit
    ensures limit <= 24 ==> b == limit
  {
    if limit - RESERVE < 1 then limit else limit - RESERVE
  }

  // ---- where to cut ----

  predicate BlankAt(s: Bytes, i: nat) { i + 1 < |s| && s[i] == NEWLINE && s[i + 1] == NEWLINE }

  /** The last blank line within s[..n], not counting one at the very start; 0 if there is none. */
  function LastBlank(s: Bytes, n: nat): nat
    requires n <= |s|
  {
    if n < 3 then 0 else if BlankAt(s, n - 2) then n - 2 else LastBlank(s, n - 1)
  }

  function LastNewline(s: Bytes, n: nat): nat
    requires n <= |s|
  {
    if n < 2 then 0 else if s[n - 1] == NEWLINE then n - 1 else LastNewline(s, n - 1)
  }

  /** n, backed off to a rune start. */
  function BackOff(s: Bytes, n: nat): nat
    requires n < |s|
  {
    if n == 0 || RuneStart(s[n]) then n else BackOff(s, n - 1)
  }

  function SplitPointOf(s: Bytes, budget: nat): nat
    requires 1 <= budget < |s|
  {
    var blank, newline, rune := LastBlank(s, budget), LastNewline(s, budget), BackOff(s, budget);
    if blank > 0 then blank else if newline > 0 then newline else if rune > 0 then rune else budget
  }

  lemma {:induction false} LastBlankReads(s: Bytes, n: nat)
    requires n <= |s|
    ensures var i := LastBlank(s, n);
            (i > 0 ==> i + 2 <= n && BlankAt(s, i)) && forall j :: i < j && j + 2 <= n ==> !BlankAt(s, j)
  {
    if n >= 3 && !BlankAt(s, n - 2) {
      LastBlankReads(s, n - 1);
    }
  }

  lemma {:induction false} LastNewlineReads(s: Bytes, n: nat)
    requires n <= |s|
    ensures var i := LastNewline(s, n);
            (i > 0 ==> i < n && s[i] == NEWLINE) && forall j :: i < j < n ==> s[j] != NEWLINE
  {
    if n >= 2 && s[n - 1] != NEWLINE {
      LastNewlineReads(s, n - 1);
    }
  }

  lemma {:induction false} BackOffReads(s: Bytes, n: nat)
    requires n < |s|
    ensures var i := BackOff(s, n);
            i <= n && (i > 0 ==> RuneStart(s[i])) && forall j :: i < j <= n ==> !RuneStart(s[j])
  {
    if n > 0 && !RuneStart(s[n]) {
      BackOffReads(s, n - 1);
    }
  }

  ghost predicate NoBlank(s: Bytes, from: nat, budget: nat) {
    forall j :: from < j && j + 2 <= budget ==> !BlankAt(s, j)
  }

  ghost predicate NoNewline(s: Bytes, from: nat, budget: nat) {
    budget < |s| && forall j :: from < j < budget ==> s[j] != NEWLINE
  }

  ghost predicate NoRuneStart(s: Bytes, from: nat, budget: nat) {
    budget < |s| && forall j :: from < j <= budget ==> !RuneStart(s[j])
  }

  /**
    The cut lies in 1..budget. It is the last blank line in the window if there is one past
    the start, else the last line break, else the last rune start up to the budget, and the
    budget itself if there is none of these.
  */
  ghost predicate PrefersCut(s: Bytes, budget: nat, cut: nat)
    requires 1 <= budget < |s|
  {
    && 1 <= cut <= budget
    && (if NoBlank(s, 0, budget) then
          if NoNewline(s, 0, budget) then
            if NoRuneStart(s, 0, budget) then cut == budget
            else RuneStart(s[cut]) && NoRuneStart(s, cut, budget)
          else cut < budget && s[cut] == NEWLINE && NoNewline(s, cut, budget)
        else cut + 2 <= budget && BlankAt(s, cut) && NoBlank(s, cut, budget))
  }

  lemma SplitPointReads(s: Bytes, budget: nat)
    requires 1 <= budget < |s|
    ensures PrefersCut(s, budget, SplitPointOf(s, budget))
  {
    LastBlankReads(s, budget);
    LastNewlineReads(s, budget);
    BackOffReads(s, budget);
  }

  method SplitPoint(s: Bytes, budget: nat) returns (cut: nat)
    requires 1 <= budget < |s|
    ensures 1 <= cut <= budget && cut == SplitPointOf(s, budget)
  {
    SplitPointReads(s, budget);
    var i := LastBlank(s, budget);
    if i > 0 {
      return i;
    }
    i := LastNewline(s, budget);
    if i > 0 {
      return i;
    }
    cut := budget;
    while cut > 0 && !RuneStart(s[cut])
      invariant cut <= budget && BackOff(s, cut) == BackOff(s, budget)
    {
      cut := cut - 1;
    }
    if cut == 0 {
      return budget;
    }
  }

  // ---- the pieces ----

  function TrimRight(s: Bytes): Bytes {
    if s != [] && s[|s| - 1] == NEWLINE then TrimRight(s[..|s| - 1]) else s
  }

  function TrimLeft(s: Bytes): (r: Bytes)
    ensures |r| <= |s|
  {
    if s != [] && s[0] == NEWLINE then TrimLeft(s[1..]) else s
  }

  function Pieces(rest: Bytes, budget: nat): seq<Bytes>
    requires budget >= 1
    decreases |rest|
  {
    if |rest| <= budget then (if rest == [] then [] else [rest]) else
      SplitPointReads(rest, budget);
      var cut := SplitPointOf(rest, budget);
      var chunk := TrimRight(rest[..cut]);
      (if chunk == [] then [] else [chunk]) + Pieces(TrimLeft(rest[cut..]), budget)
  }

  function FirstPiece(rest: Bytes, cut: nat): seq<Bytes>
    requires cut <= |rest|
  {
    if TrimRight(rest[..cut]) == [] then [] else [TrimRight(rest[..cut])]
  }

  /** One turn of the loop. */
  lemma PiecesStep(rest: Bytes, budget: nat)
    requires 1 <= budget < |rest|
    ensures var cut := SplitPointOf(rest, budget);
            1 <= cut <= budget && Pieces(rest, budget) == FirstPiece(rest, cut) + Pieces(TrimLeft(rest[cut..]), budget)
  {
    SplitPointReads(rest, budget);
  }

  /**
    A text above the budget is cut there; what is before the cut, without newlines at its end, is a piece
    unless it is empty, and what is after it, without newlines at its start, is cut likewise.
  */
  lemma PiecesCut(rest: Bytes, budget: nat) returns (cut: nat, before: Bytes, after: Bytes)
    requires 1 <= budget < |rest|
    ensures PrefersCut(rest, budget, cut)
    ensures |before| <= cut && before == rest[..|before|] && Newlines(rest[|before|..cut])
    ensures before != [] ==> before[|before| - 1] != NEWLINE
    ensures |after| <= |rest| - cut && after == rest[|rest| - |after|..] && Newlines(rest[cut..|rest| - |after|])
    ensures after != [] ==> after[0] != NEWLINE
    ensures Pieces(rest, budget) == (if before == [] then [] else [before]) + Pieces(after, budget)
  {
    hide Pieces, TrimRight, TrimLeft, SplitPointOf, Newlines, PrefersCut;
    SplitPointReads(rest, budget);
    cut := SplitPointOf(rest, budget);
    PiecesStep(rest, budget);
    before := BeforeCut(rest, cut);
    after := AfterCut(rest, cut);
  }

  lemma BeforeCut(rest: Bytes, cut: nat) returns (before: Bytes)
    requires cut <= |rest|
    ensures before == TrimRight(rest[..cut])
    ensures |before| <= cut && before == rest[..|before|] && Newlines(rest[|before|..cut])
    ensures before != [] ==> before[|before| - 1] != NEWLINE
  {
    hide TrimRight;
    before := TrimRight(rest[..cut]);
    TrimRightReads(rest[..cut]);
    assert rest[..cut][|before|..] == rest[|before|..cut];
  }

  lemma AfterCut(rest: Bytes, cut: nat) returns (after: Bytes)
    requires cut <= |rest|
    ensures after == TrimLeft(rest[cut..])
    ensures |after| <= |rest| - cut && after == rest[|rest| - |after|..] && Newlines(rest[cut..|rest| - |after|])
    ensures after != [] ==> after[0] != NEWLINE
  {
    hide TrimLeft;
    after := TrimLeft(rest[cut..]);
    var n := TrimLeftReads(rest[cut..]);
    assert rest[cut..][..n] == rest[cut..cut + n];
    assert rest[cut..][n..] == rest[cut + n..];
  }

  /** A piece is the first one cut off, or one of the rest. */
  lemma PieceAt(rest: Bytes, budget: nat, i: nat) returns (cut: nat, more: Bytes, j: Option<nat>)
    requires 1 <= budget < |rest| && i < |Pieces(rest, budget)|
    ensures cut == SplitPointOf(rest, budget) && 1 <= cut <= budget && more == TrimLeft(rest[cut..]) && |more| < |rest|
    ensures j.None? ==> TrimRight(rest[..cut]) != [] && Pieces(rest, budget)[i] == TrimRight(rest[..cut])
    ensures j.Some? ==> j.value < |Pieces(more, budget)| && Pieces(rest, budget)[i] == Pieces(more, budget)[j.value]
  {
    PiecesStep(rest, budget);
    cut := SplitPointOf(rest, budget);
    more := TrimLeft(rest[cut..]);
    var n := |FirstPiece(rest, cut)|;
    j := if i < n then None else Some(i - n);
  }

  predicate Newlines(s: Bytes) { forall i :: 0 <= i < |s| ==> s[i] == NEWLINE }

  /** Gaps and pieces, one after the other. */
  function Weave(gaps: seq<Bytes>, pieces: seq<Bytes>): Bytes
    requires |gaps| == |pieces| + 1
  {
    if pieces == [] then gaps[0] else gaps[0] + pieces[0] + Weave(gaps[1..], pieces[1..])
  }

  lemma {:induction false} TrimRightReads(s: Bytes)
    ensures TrimRight(s) <= s && Newlines(s[|TrimRight(s)|..])
    ensures TrimRight(s) != [] ==> TrimRight(s)[|TrimRight(s)| - 1] != NEWLINE
  {
    if s != [] && s[|s| - 1] == NEWLINE {
      var rest, n := s[..|s| - 1], |TrimRight(s)|;
      TrimRightReads(rest);
      assert s[n..] == rest[n..] + [s[|s| - 1]];
    } else {
      assert s[|s|..] == [];
    }
  }

  lemma {:induction false} TrimLeftReads(s: Bytes) returns (n: nat)
    ensures n <= |s| && TrimLeft(s) == s[n..] && Newlines(s[..n])
    ensures TrimLeft(s) != [] ==> TrimLeft(s)[0] != NEWLINE
  {
    if s != [] && s[0] == NEWLINE {
      var m := TrimLeftReads(s[1..]);
      n := m + 1;
      DropOneMore(s, m);
      hide TrimLeft;
      assert TrimLeft(s) == TrimLeft(s[1..]);
    } else {
      n := 0;
    }
  }

  lemma DropOneMore(s: Bytes, m: nat)
    requires m < |s| && s[0] == NEWLINE && Newlines(s[1..][..m])
    ensures s[1..][m..] == s[m + 1..] && Newlines(s[..m + 1])
  {
    assert s[..m + 1] == [s[0]] + s[1..][..m];
  }

  /** One cut takes apart into a chunk, newlines, and the rest. */
  lemma CutReads(a: Bytes, b: Bytes) returns (gap: Bytes)
    ensures Newlines(gap) && a + b == TrimRight(a) + gap + TrimLeft(b)
  {
    TrimRightReads(a);
    var n := TrimLeftReads(b);
    var x, y := a[|TrimRight(a)|..], b[..n];
    gap := x + y;
    assert a == TrimRight(a) + x;
    assert b == y + TrimLeft(b);
    Regroup(TrimRight(a), x, y, TrimLeft(b));
  }

  lemma Regroup(a: Bytes, b: Bytes, c: Bytes, d: Bytes)
    ensures (a + b) + (c + d) == a + (b + c) + d
  {
    Associative(a, b, c + d);
    Associative(b, c, d);
    Associative(a, b + c, d);
  }

  /**
    The pieces in order give back the text, except for runs of newlines between them and at
    the ends: no other byte is lost, repeated or moved.
  */
  lemma {:induction false} PiecesPreserve(rest: Bytes, budget: nat) returns (gaps: seq<Bytes>)
    requires budget >= 1
    ensures |gaps| == |Pieces(rest, budget)| + 1
    ensures forall i :: 0 <= i < |gaps| ==> Newlines(gaps[i])
    ensures rest == Weave(gaps, Pieces(rest, budget))
    decreases |rest|
  {
    if |rest| <= budget {
      gaps := if rest == [] then [[]] else [[], []];
    } else {
      PiecesStep(rest, budget);
      var cut := SplitPointOf(rest, budget);
      var gap := CutReads(rest[..cut], rest[cut..]);
      assert rest == rest[..cut] + rest[cut..];
      var more := PiecesPreserve(TrimLeft(rest[cut..]), budget);
      gaps := WeaveStep(TrimRight(rest[..cut]), gap, more, Pieces(TrimLeft(rest[cut..]), budget));
    }
  }

  lemma WeaveStep(chunk: Bytes, gap: Bytes, more: seq<Bytes>, pieces: seq<Bytes>) returns (gaps: seq<Bytes>)
    requires |more| == |pieces| + 1 && Newlines(gap) && forall i :: 0 <= i < |more| ==> Newlines(more[i])
    ensures var all := (if chunk == [] then [] else [chunk]) + pieces;
            && |gaps| == |all| + 1 && (forall i :: 0 <= i < |gaps| ==> Newlines(gaps[i]))
            && chunk + gap + Weave(more, pieces) == Weave(gaps, all)
  {
    var joined := [gap + more[0]] + more[1..];
    WeaveGap(gap, more, pieces, joined);
    if chunk == [] {
      gaps := joined;
      assert [] + pieces == pieces && chunk + gap == gap;
    } else {
      gaps := [[]] + joined;
      assert gaps[1..] == joined && ([chunk] + pieces)[1..] == pieces;
      assert [] + chunk + Weave(joined, pieces) == chunk + gap + Weave(more, pieces);
    }
  }

  lemma WeaveGap(gap: Bytes, more: seq<Bytes>, pieces: seq<Bytes>, joined: seq<Bytes>)
    requires |more| == |pieces| + 1 && joined == [gap + more[0]] + more[1..]
    ensures Weave(joined, pieces) == gap + Weave(more, pieces)
  {
    if pieces != [] {
      assert joined[1..] == more[1..];
      assert (gap + more[0]) + pieces[0] + Weave(more[1..], pieces[1..])
          == gap + (more[0] + pieces[0] + Weave(more[1..], pieces[1..]));
    }
  }

  /** Every piece is within the budget, and none is empty. */
  lemma {:induction false} PiecesFit(rest: Bytes, budget: nat, i: nat)
    requires budget >= 1 && i < |Pieces(rest, budget)|
    ensures 0 < |Pieces(rest, budget)[i]| <= budget
    decreases |rest|
  {
    if |rest| > budget {
      var cut, more, j := PieceAt(rest, budget, i);
      TrimRightReads(rest[..cut]);
      if j.Some? {
        PiecesFit(more, budget, j.value);
      }
    }
  }

  // ---- cutting never breaks a character ----

  lemma {:induction false} TrimRightValid(s: Bytes)
    requires Valid(s)
    ensures Valid(TrimRight(s))
  {
    if s != [] && s[|s| - 1] == NEWLINE {
      ValidSplit(s, |s| - 1);
      TrimRightValid(s[..|s| - 1]);
    }
  }

  lemma {:induction false} TrimLeftValid(s: Bytes)
    requires Valid(s)
    ensures Valid(TrimLeft(s))
  {
    if s != [] && s[0] == NEWLINE {
      TrimLeftValid(s[1..]);
    }
  }

  lemma CutValid(s: Bytes, budget: nat)
    requires 4 <= budget < |s| && Valid(s)
    ensures var cut := SplitPointOf(s, budget);
            cut <= |s| && Valid(s[..cut]) && Valid(s[cut..])
  {
    SplitPointReads(s, budget);
    var j := RuneStartNear(s, budget);
    ValidSplit(s, SplitPointOf(s, budget));
  }

  lemma {:induction false} PiecesValid(rest: Bytes, budget: nat, i: nat)
    requires budget >= 4 && Valid(rest) && i < |Pieces(rest, budget)|
    ensures Valid(Pieces(rest, budget)[i])
    decreases |rest|
  {
    if |rest| > budget {
      var cut, more, j := PieceAt(rest, budget, i);
      CutValid(rest, budget);
      if j.None? {
        TrimRightValid(rest[..cut]);
      } else {
        TrimLeftValid(rest[cut..]);
        PiecesValid(more, budget, j.value);
      }
    }
  }

  // ---- the messages ----

  function Digits(n: nat): Bytes {
    if n < 10 then [48 + n] else Digits(n / 10) + [48 + n % 10]
  }

  /** "_…continued (" */
  const OPENING: Bytes := [0x5F, 0xE2, 0x80, 0xA6, 99, 111, 110, 116, 105, 110, 117, 101, 100, 32, 40]
  /** ")_" and a blank line */
  const CLOSING: Bytes := [41, 0x5F, 10, 10]

  function Marker(i: nat, n: nat): Bytes { OPENING + Digits(i) + [47] + Digits(n) + CLOSING }

  function Marked(pieces: seq<Bytes>, i: nat): Bytes
    requires i < |pieces|
  {
    if i == 0 then pieces[0] else Marker(i + 1, |pieces|) + pieces[i]
  }

  function MarkedUpTo(pieces: seq<Bytes>, n: nat): seq<Bytes>
    requires n <= |pieces|
  {
    if n == 0 then [] else MarkedUpTo(pieces, n - 1) + [Marked(pieces, n - 1)]
  }

  /** What splitForSlack returns. */
  function Messages(text: Bytes, limit: nat): seq<Bytes>
    requires limit >= 1
  {
    if |text| <= limit then [text] else
      var pieces := Pieces(text, Budget(limit));
      if |pieces| <= 1 then pieces else MarkedUpTo(pieces, |pieces|)
  }

  lemma {:induction false} MarkedReads(pieces: seq<Bytes>, n: nat, i: nat)
    requires i < n <= |pieces|
    ensures |MarkedUpTo(pieces, n)| == n && MarkedUpTo(pieces, n)[i] == Marked(pieces, i)
  {
    if n > 1 {
      MarkedReads(pieces, n - 1, if i < n - 1 then i else 0);
    }
  }

  /** A text within the limit is its own message; otherwise message i is piece i, marked from the second on. */
  lemma MessagesRead(text: Bytes, limit: nat, i: nat)
    requires limit >= 1 && i < |Messages(text, limit)|
    ensures |text| <= limit ==> Messages(text, limit)[i] == text
    ensures |text| > limit ==>
              var pieces := Pieces(text, Budget(limit));
              |Messages(text, limit)| == |pieces| && Messages(text, limit)[i] == Marked(pieces, i)
  {
    var pieces := Pieces(text, Budget(limit));
    if |text| > limit && |pieces| > 1 {
      MarkedReads(pieces, |pieces|, 0);
      MarkedReads(pieces, |pieces|, i);
    }
  }

  method SplitForSlack(text: Bytes, limit: int) returns (out: seq<Bytes>)
    ensures out == Messages(text, Limit(limit))
  {
    var most := Limit(limit);
    if |text| <= most {
      return [text];
    }
    var budget := Budget(most);
    var chunks: seq<Bytes> := [];
    var rest := text;
    ghost var all := Pieces(text, budget);
    assert [] + all == all;
    while |rest| > budget
      invariant all == chunks + Pieces(rest, budget)
      decreases |rest|
    {
      var cut := SplitPoint(rest, budget);
      var chunk := TrimRight(rest[..cut]);
      PiecesStep(rest, budget);
      Associative(chunks, FirstPiece(rest, cut), Pieces(TrimLeft(rest[cut..]), budget));
      assert chunks + [] == chunks;
      if chunk != [] {
        chunks := chunks + [chunk];
      }
      rest := TrimLeft(rest[cut..]);
    }
    if rest != [] {
      chunks := chunks + [rest];
    }
    assert chunks == all;
    if |chunks| <= 1 {
      return chunks;
    }
    out := MarkAll(chunks);
  }

  /** The second loop: every chunk but the first gets its marker. */
  method MarkAll(chunks: seq<Bytes>) returns (out: seq<Bytes>)
    ensures out == MarkedUpTo(chunks, |chunks|)
  {
    out := [];
    var i := 0;
    while i < |chunks|
      invariant i <= |chunks| && out == MarkedUpTo(chunks, i)
    {
      if i == 0 {
        out := out + [chunks[0]];
      } else {
        out := out + [Marker(i + 1, |chunks|) + chunks[i]];
      }
      i := i + 1;
    }
  }

  // ---- what a marker says ----

  /** The number these digits write. */
  function Value(digits: Bytes): int {
    if digits == [] then 0 else 10 * Value(digits[..|digits| - 1]) + digits[|digits| - 1] - 48
  }

  lemma {:induction false} DigitsRead(n: nat)
    ensures Value(Digits(n)) == n && Digits(n) != []
    ensures forall i :: 0 <= i < |Digits(n)| ==> 48 <= Digits(n)[i] <= 57
    ensures n > 0 ==> Digits(n)[0] != 48
  {
    if n >= 10 {
      DigitsRead(n / 10);
      assert Digits(n)[..|Digits(n)| - 1] == Digits(n / 10);
    } else {
      assert Digits(n)[..0] == [];
    }
  }

  /** Every message but the first opens with its number, a slash and their count, then has its piece. */
  lemma MessageSays(text: Bytes, limit: nat, i: nat) returns (number: Bytes, count: Bytes)
    requires limit >= 1 && |text| > limit && 0 < i < |Messages(text, limit)|
    ensures Value(number) == i + 1 && Value(count) == |Messages(text, limit)| && 47 !in number && 47 !in count
    ensures i < |Pieces(text, Budget(limit))| == |Messages(text, limit)|
    ensures Messages(text, limit)[i] == OPENING + number + [47] + count + CLOSING + Pieces(text, Budget(limit))[i]
    ensures Messages(text, limit)[0] == Pieces(text, Budget(limit))[0]
  {
    MessagesRead(text, limit, i);
    MessagesRead(text, limit, 0);
    number, count := Digits(i + 1), Digits(|Messages(text, limit)|);
    hide Messages, Pieces, Digits;
    DigitsRead(i + 1);
    DigitsRead(|Messages(text, limit)|);
  }

  // ---- what holds of the messages ----

  lemma {:induction false} DigitsAscii(n: nat)
    ensures Ascii(Digits(n)) && |Digits(n)| >= 1
    ensures n < 100 ==> |Digits(n)| <= 2
    ensures n >= 10 ==> |Digits(n)| >= 2
    ensures n >= 100 ==> |Digits(n)| >= 3
  {
    if n >= 10 {
      DigitsAscii(n / 10);
    }
  }

  lemma MarkerTail(i: nat, n: nat)
    ensures Ascii(Digits(i) + [47] + Digits(n) + CLOSING)
  {
    DigitsAscii(i);
    DigitsAscii(n);
  }

  lemma MarkerValid(i: nat, n: nat)
    ensures Valid(Marker(i, n))
  {
    hide Digits, Valid;
    MarkerTail(i, n);
    OpeningValid();
    AsciiIsValid(Digits(i) + [47] + Digits(n) + CLOSING);
    ValidAppend(OPENING, Digits(i) + [47] + Digits(n) + CLOSING);
    assert Marker(i, n) == OPENING + (Digits(i) + [47] + Digits(n) + CLOSING);
  }

  lemma OpeningValid()
    ensures Valid(OPENING)
  {
    assert OPENING[..1] + OPENING[1..4] + OPENING[4..] == OPENING;
    AsciiIsValid(OPENING[4..]);
    ValidStep(OPENING[1..]);
    ValidStep(OPENING);
  }

  lemma MarkerLength(i: nat, n: nat)
    ensures |Marker(i, n)| >= 22
    ensures i <= n < 100 ==> |Marker(i, n)| <= RESERVE
    ensures i >= 10 && n >= 100 ==> |Marker(i, n)| > RESERVE
  {
    DigitsAscii(i);
    DigitsAscii(n);
  }

  /** With a budget of at least four bytes, a valid text makes valid messages. */
  lemma MessagesValid(text: Bytes, limit: nat, i: nat)
    requires limit >= 1 && Budget(limit) >= 4 && Valid(text) && i < |Messages(text, limit)|
    ensures Valid(Messages(text, limit)[i])
  {
    MessagesRead(text, limit, i);
    if |text| > limit {
      var pieces := Pieces(text, Budget(limit));
      PiecesValid(text, Budget(limit), i);
      MarkerValid(i + 1, |pieces|);
      ValidAppend(Marker(i + 1, |pieces|), pieces[i]);
    }
  }

  /** With a limit above the reserve, up to 99 messages all fit the limit. */
  lemma MessagesFit(text: Bytes, limit: nat, i: nat)
    requires limit > RESERVE && i < |Messages(text, limit)| < 100
    ensures |Messages(text, limit)[i]| <= limit
  {
    MessagesRead(text, limit, i);
    if |text| > limit {
      PiecesFit(text, Budget(limit), i);
      MarkerLength(i + 1, |Messages(text, limit)|);
    }
  }

  // ---- and where it stops holding ----

  function Xs(n: nat): Bytes { seq(n, i => 120) }

  lemma XsCut(n: nat, b: nat)
    requires 1 <= b < n
    ensures SplitPointOf(Xs(n), b) == b
  {
    LastBlankReads(Xs(n), b);
    LastNewlineReads(Xs(n), b);
  }

  lemma XsTrim(n: nat)
    ensures TrimRight(Xs(n)) == Xs(n) == TrimLeft(Xs(n))
  {
  }

  lemma XsFirst(n: nat, b: nat)
    requires 1 <= b < n
    ensures Pieces(Xs(n), b) == [Xs(b)] + Pieces(Xs(n - b), b)
  {
    XsCut(n, b);
    assert Xs(n)[..b] == Xs(b) && Xs(n)[b..] == Xs(n - b);
    XsTrim(b);
    XsTrim(n - b);
  }

  lemma MulStep(k: nat, b: nat)
    requires k > 1
    ensures k * b == (k - 1) * b + b && (k - 1) * b >= b
  {
  }

  lemma XsNext(n: nat, b: nat, k: nat, i: nat)
    requires 1 <= b < n && |Pieces(Xs(n - b), b)| == k
    requires 0 < i <= k ==> Pieces(Xs(n - b), b)[i - 1] == Xs(b)
    ensures |Pieces(Xs(n), b)| == k + 1 && (i <= k ==> Pieces(Xs(n), b)[i] == Xs(b))
  {
    XsFirst(n, b);
  }

  lemma XsLength(n: nat)
    ensures |Xs(n)| == n
  {
  }

  /** k budgets of plain text make k pieces. */
  lemma {:induction false} XsPieces(k: nat, b: nat, i: nat)
    requires 1 <= b && i < k
    ensures |Pieces(Xs(k * b), b)| == k && Pieces(Xs(k * b), b)[i] == Xs(b)
    decreases k
  {
    hide Xs;
    if k == 1 {
      assert k * b == b;
      XsLength(b);
      assert Pieces(Xs(b), b) == [Xs(b)];
    } else {
      hide Pieces;
      XsPieces(k - 1, b, if i > 0 then i - 1 else 0);
      MulStep(k, b);
      XsNext(k * b, b, k - 1, i);
    }
  }

  lemma XsMessage(k: nat, limit: nat, i: nat)
    requires limit >= 1 && 0 < i < k && k * Budget(limit) > limit
    ensures |Messages(Xs(k * Budget(limit)), limit)| == k
    ensures |Messages(Xs(k * Budget(limit)), limit)[i]| == |Marker(i + 1, k)| + Budget(limit)
  {
    var b := Budget(limit);
    XsPieces(k, b, i);
    var pieces := Pieces(Xs(k * b), b);
    MarkedReads(pieces, k, i);
    assert Messages(Xs(k * b), limit) == MarkedUpTo(pieces, k);
  }

  /** Up to the reserve, a marked message overflows the limit. */
  lemma SmallLimitOverflows(limit: nat)
    requires 1 <= limit <= RESERVE
    ensures |Messages(Xs(2 * limit), limit)| == 2 && |Messages(Xs(2 * limit), limit)[1]| > limit
  {
    XsMessage(2, limit, 1);
    MarkerLength(2, 2);
  }

  /** So messages below a hundred always fit the limit exactly when it exceeds the reserve. */
  lemma FitIff(limit: nat)
    requires limit >= 1
    ensures limit > RESERVE <==>
            forall text, i :: 0 <= i < |Messages(text, limit)| < 100 ==> |Messages(text, limit)[i]| <= limit
  {
    if limit > RESERVE {
      forall text, i | 0 <= i < |Messages(text, limit)| < 100 ensures |Messages(text, limit)[i]| <= limit {
        MessagesFit(text, limit, i);
      }
    } else {
      SmallLimitOverflows(limit);
    }
  }

  /** A hundred messages can overflow any limit. */
  lemma HundredMessagesOverflow(limit: nat)
    requires limit > RESERVE
    ensures var text := Xs(100 * Budget(limit));
            |Messages(text, limit)| == 100 && |Messages(text, limit)[99]| > limit
  {
    XsMessage(100, limit, 99);
    MarkerLength(100, 100);
  }

  lemma {:induction false} TrimAll(s: Bytes)
    requires Newlines(s)
    ensures TrimRight(s) == [] && TrimLeft(s) == []
    decreases |s|
  {
    if s != [] {
      TrimAll(s[..|s| - 1]);
      TrimAll(s[1..]);
    }
  }

  lemma NewlinesAloneVanish(text: Bytes, limit: nat)
    requires limit >= 1 && Newlines(text) && |text| > limit
    ensures Messages(text, limit) == []
  {
    PiecesStep(text, Budget(limit));
    var cut := SplitPointOf(text, Budget(limit));
    TrimAll(text[..cut]);
    TrimAll(text[cut..]);
  }

  /** A text makes no message at all exactly when it is above the limit and all newlines. */
  lemma NoMessageIff(text: Bytes, limit: nat)
    requires limit >= 1
    ensures Messages(text, limit) == [] <==> |text| > limit && Newlines(text)
  {
    if |text| > limit {
      if Newlines(text) {
        NewlinesAloneVanish(text, limit);
      }
      var pieces := Pieces(text, Budget(limit));
      var gaps := PiecesPreserve(text, Budget(limit));
      if |pieces| > 1 {
        MarkedReads(pieces, |pieces|, 0);
      }
    }
  }

  /** U+1F600, n times. */
  function Smiles(n: nat): Bytes { if n == 0 then [] else [0xF0, 0x9F, 0x98, 0x80] + Smiles(n - 1) }

  lemma {:induction false} SmilesValid(n: nat)
    ensures Valid(Smiles(n)) && |Smiles(n)| == 4 * n
  {
    if n > 0 {
      SmilesValid(n - 1);
      assert Smiles(n)[4..] == Smiles(n - 1);
      ValidStep(Smiles(n));
    }
  }

  lemma SmilesCut(s: Bytes, b: nat)
    requires |s| >= 4 && s[0] == 0xF0 && Continuation(s[1]) && Continuation(s[2]) && Continuation(s[3])
    requires 1 <= b < 4 && b < |s|
    ensures SplitPointOf(s, b) == b && TrimRight(s[..b]) == s[..b] && !Valid(s[..b])
  {
    LastBlankReads(s, b);
    LastNewlineReads(s, b);
    BackOffReads(s, b);
  }

  /** A budget below four bytes cuts a four-byte character. */
  lemma SmallBudgetBreaks(limit: nat)
    requires limit >= 1 && Budget(limit) < 4
    ensures Valid(Smiles(7)) && |Messages(Smiles(7), limit)| > 0 && !Valid(Messages(Smiles(7), limit)[0])
  {
    var s, b := Smiles(7), Budget(limit);
    SmilesValid(7);
    assert s == [0xF0, 0x9F, 0x98, 0x80] + Smiles(6);
    SmilesCut(s, b);
    var pieces := Pieces(s, b);
    assert pieces[0] == s[..b];
    if |pieces| > 1 {
      MarkedReads(pieces, |pieces|, 0);
    }
  }

  /** So every valid text makes valid messages exactly when the budget holds four bytes. */
  lemma ValidIff(limit: nat)
    requires limit >= 1
    ensures Budget(limit) >= 4 <==>
            forall text, i :: Valid(text) && 0 <= i < |Messages(text, limit)| ==> Valid(Messages(text, limit)[i])
  {
    if Budget(limit) >= 4 {
      forall text, i | Valid(text) && 0 <= i < |Messages(text, limit)| ensures Valid(Messages(text, limit)[i]) {
        MessagesValid(text, limit, i);
      }
    } else {
      SmallBudgetBreaks(limit);
    }
  }
}
