/** Picking envelopes off a stretch of the log, in publish order. */
module Selection {
  import opened Common
  import opened Events

  /** Matching, not before `since`, and not skipped; skipping only counts from index `from` on. */
  datatype Pick = Pick(f: Filter, since: nat, skip: set<Id>, from: nat)

  predicate Keep(e: Envelope, i: nat, p: Pick) {
    Match(p.f, e) && e.at >= p.since && !(e.id in p.skip && i >= p.from)
  }

  function Sel(log: seq<Envelope>, lo: nat, hi: nat, p: Pick): seq<Envelope>
    requires hi <= |log|
    decreases hi
  {
    if hi <= lo then [] else
      Sel(log, lo, hi - 1, p) + (if Keep(log[hi - 1], hi - 1, p) then [log[hi - 1]] else [])
  }

  /** Ids say where an envelope stands in the log. */
  ghost predicate Numbered(log: seq<Envelope>) {
    forall i :: 0 <= i < |log| ==> log[i].id == Published(i)
  }

  lemma {:induction false} SelSplit(log: seq<Envelope>, lo: nat, mid: nat, hi: nat, p: Pick)
    requires lo <= mid <= hi <= |log|
    ensures Sel(log, lo, hi, p) == Sel(log, lo, mid, p) + Sel(log, mid, hi, p)
    decreases hi
  {
    if mid < hi {
      SelSplit(log, lo, mid, hi - 1, p);
    }
  }

  lemma {:induction false} SelLog(log: seq<Envelope>, e: Envelope, lo: nat, hi: nat, p: Pick)
    requires hi <= |log|
    ensures Sel(log + [e], lo, hi, p) == Sel(log, lo, hi, p)
    decreases hi
  {
    if lo < hi {
      SelLog(log, e, lo, hi - 1, p);
    }
  }

  lemma {:induction false} SelSame(log: seq<Envelope>, lo: nat, hi: nat, p: Pick, q: Pick)
    requires hi <= |log|
    requires forall i :: lo <= i < hi ==> (Keep(log[i], i, p) <==> Keep(log[i], i, q))
    ensures Sel(log, lo, hi, p) == Sel(log, lo, hi, q)
    decreases hi
  {
    if lo < hi {
      SelSame(log, lo, hi - 1, p, q);
    }
  }

  lemma {:induction false} SelNone(log: seq<Envelope>, lo: nat, hi: nat, p: Pick)
    requires hi <= |log|
    ensures Sel(log, lo, hi, p) == [] <==> forall i :: lo <= i < hi ==> !Keep(log[i], i, p)
    decreases hi
  {
    if lo < hi {
      SelNone(log, lo, hi - 1, p);
    }
  }

  lemma {:induction false} SelMember(log: seq<Envelope>, lo: nat, hi: nat, p: Pick, e: Envelope)
    requires hi <= |log|
    ensures e in Sel(log, lo, hi, p) <==> exists i :: lo <= i < hi && log[i] == e && Keep(e, i, p)
    decreases hi
  {
    if lo < hi {
      SelMember(log, lo, hi - 1, p, e);
    }
  }

  lemma SelNext(log: seq<Envelope>, lo: nat, n: nat, p: Pick)
    requires lo <= n < |log|
    ensures Sel(log, lo, n + 1, p) == Sel(log, lo, n, p) + (if Keep(log[n], n, p) then [log[n]] else [])
  {
  }

  lemma SelOne(log: seq<Envelope>, n: nat, p: Pick)
    requires n < |log|
    ensures Sel(log, n, n + 1, p) == if Keep(log[n], n, p) then [log[n]] else []
  {
    assert Sel(log, n, n, p) == [];
  }

  /** Reaching on to n over a stretch from which nothing is kept. */
  lemma SelGap(log: seq<Envelope>, lo: nat, hi: nat, n: nat, p: Pick)
    requires lo <= hi <= n < |log| && forall i :: hi <= i < n ==> !Keep(log[i], i, p)
    ensures Sel(log, lo, n + 1, p) == Sel(log, lo, hi, p) + (if Keep(log[n], n, p) then [log[n]] else [])
  {
    SelSplit(log, lo, hi, n, p);
    SelNone(log, hi, n, p);
  }

  /** The first envelope selected, and what comes after it. */
  lemma {:induction false} SelHead(log: seq<Envelope>, lo: nat, hi: nat, p: Pick) returns (n: nat)
    requires hi <= |log| && Sel(log, lo, hi, p) != []
    ensures lo <= n < hi && Keep(log[n], n, p)
    ensures Sel(log, lo, n, p) == []
    ensures Sel(log, lo, hi, p) == [log[n]] + Sel(log, n + 1, hi, p)
    decreases hi
  {
    if Sel(log, lo, hi - 1, p) == [] {
      n := hi - 1;
      assert Sel(log, hi, hi, p) == [];
    } else {
      n := SelHead(log, lo, hi - 1, p);
      var last := if Keep(log[hi - 1], hi - 1, p) then [log[hi - 1]] else [];
      Associative([log[n]], Sel(log, n + 1, hi - 1, p), last);
    }
  }

  // ---- parts of a stream ----

  /** The envelopes of the log among those on a channel. */
  function Logged(s: seq<Envelope>): seq<Envelope> {
    if s == [] then [] else
      Logged(s[..|s| - 1]) + (if s[|s| - 1].id.Published? then [s[|s| - 1]] else [])
  }

  /** The log envelopes not before `since` among those sent. */
  function SinceOf(s: seq<Envelope>, since: nat): seq<Envelope> {
    if s == [] then [] else
      var last := s[|s| - 1];
      SinceOf(s[..|s| - 1], since) + (if last.id.Published? && last.at >= since then [last] else [])
  }

  lemma LoggedSnoc(s: seq<Envelope>, e: Envelope)
    ensures Logged(s + [e]) == Logged(s) + (if e.id.Published? then [e] else [])
  {
    assert (s + [e])[..|s|] == s;
  }

  lemma SinceSnoc(s: seq<Envelope>, e: Envelope, since: nat)
    ensures SinceOf(s + [e], since) == SinceOf(s, since) + (if e.id.Published? && e.at >= since then [e] else [])
  {
    assert (s + [e])[..|s|] == s;
  }

  lemma {:induction false} LoggedHead(s: seq<Envelope>)
    requires s != []
    ensures Logged(s) == (if s[0].id.Published? then [s[0]] else []) + Logged(s[1..])
    decreases |s|
  {
    var n := |s| - 1;
    if n > 0 {
      LoggedHead(s[..n]);
      assert s[..n][1..] == s[1..n] && s[1..] == s[1..n] + [s[n]];
      LoggedSnoc(s[1..n], s[n]);
      Associative(if s[0].id.Published? then [s[0]] else [], Logged(s[1..n]),
                  if s[n].id.Published? then [s[n]] else []);
    } else {
      assert s[1..] == [] && s[..0] == [];
    }
  }
}
