/**
  Envelopes and filters (pkg/bigbandext/events.go), and the life of one subscription's
  buffer (internal/events/events.go).

  Event ids are random in the source and taken to be unique. They are modelled by what
  makes them so: the k-th event published on the bus has id Published(k), and each lag
  marker has an id of its own.
*/
module Events {

  datatype Id = Published(n: nat) | Marked(m: nat)

  /** Times count nanoseconds from the zero time. */
  datatype Envelope = Envelope(id: Id, kind: string, at: nat, job: string)

  datatype Filter = Filter(kinds: seq<string>, jobs: seq<string>)

  /** Empty lists match everything, and so does "*" among the jobs. */
  predicate Match(f: Filter, e: Envelope) {
    && (f.kinds == [] || e.kind in f.kinds)
    && (f.jobs == [] || "*" in f.jobs || e.job in f.jobs)
  }

  /** The two scans of Filter.Match. */
  method Matches(f: Filter, e: Envelope) returns (ok: bool)
    ensures ok <==> Match(f, e)
    ensures ok <==> (f.kinds == [] || e.kind in f.kinds) && (f.jobs == [] || "*" in f.jobs || e.job in f.jobs)
  {
    if |f.kinds| > 0 {
      var found, i := false, 0;
      while i < |f.kinds| && !found
        invariant i <= |f.kinds| && (found <==> e.kind in f.kinds[..i])
      {
        found := f.kinds[i] == e.kind;
        i := i + 1;
      }
      if !found {
        return false;
      }
    }
    if |f.jobs| > 0 {
      var found, i := false, 0;
      while i < |f.jobs| && !found
        invariant i <= |f.jobs| && (found <==> "*" in f.jobs[..i] || e.job in f.jobs[..i])
      {
        found := f.jobs[i] == "*" || f.jobs[i] == e.job;
        i := i + 1;
      }
      if !found {
        return false;
      }
    }
    return true;
  }

  const CAPACITY := 1024

  /** A subscription: its buffered channel and its lag bookkeeping. */
  datatype Sub = Sub(filter: Filter, ch: seq<Envelope>, lagged: bool, lagDropped: nat)

  function NewSub(f: Filter): Sub { Sub(f, [], false, 0) }

  /** The first pass of Publish over one subscriber. */
  function Offer(s: Sub, e: Envelope): Sub {
    if !Match(s.filter, e) then s
    else if |s.ch| < CAPACITY then s.(ch := s.ch + [e])
    else s.(lagged := true, lagDropped := s.lagDropped + 1)
  }

  /** The second pass: a lagged subscriber is told so once its buffer has room. */
  function Nudge(s: Sub, marker: Envelope): Sub {
    if s.lagged && |s.ch| < CAPACITY then s.(ch := s.ch + [marker], lagged := false) else s
  }

  function Receive(s: Sub): Sub
    requires s.ch != []
  {
    s.(ch := s.ch[1..])
  }

  // ---- one subscription under any interleaving ----

  /** What can happen to a subscription, in any order; a receive from an empty buffer waits. */
  datatype Act = Offered(e: Envelope) | Nudged(marker: Envelope) | Received

  /** What became of the matching events and of the markers. */
  datatype Fate = Sent(e: Envelope) | Dropped(e: Envelope) | Marker(e: Envelope)

  datatype Life = Life(sub: Sub, fates: seq<Fate>, received: seq<Envelope>)

  function Live(l: Life, a: Act): Life {
    match a
    case Offered(e) =>
      var fates := if !Match(l.sub.filter, e) then [] else if |l.sub.ch| < CAPACITY then [Sent(e)] else [Dropped(e)];
      l.(sub := Offer(l.sub, e), fates := l.fates + fates)
    case Nudged(marker) =>
      var fates := if l.sub.lagged && |l.sub.ch| < CAPACITY then [Marker(marker)] else [];
      l.(sub := Nudge(l.sub, marker), fates := l.fates + fates)
    case Received =>
      if l.sub.ch == [] then l else l.(sub := Receive(l.sub), received := l.received + [l.sub.ch[0]])
  }

  function LifeAfter(f: Filter, acts: seq<Act>, n: nat): Life
    requires n <= |acts|
  {
    if n == 0 then Life(NewSub(f), [], []) else Live(LifeAfter(f, acts, n - 1), acts[n - 1])
  }

  /** The matching events published while subscribed. */
  function MatchingOf(f: Filter, acts: seq<Act>, n: nat): seq<Envelope>
    requires n <= |acts|
  {
    if n == 0 then [] else
      MatchingOf(f, acts, n - 1) + (if acts[n - 1].Offered? && Match(f, acts[n - 1].e) then [acts[n - 1].e] else [])
  }

  function Enqueued(fates: seq<Fate>): seq<Envelope> {
    if fates == [] then [] else
      var last := fates[|fates| - 1];
      Enqueued(fates[..|fates| - 1]) + (if last.Dropped? then [] else [last.e])
  }

  /** Sent and dropped events, in order: what the fates account for. */
  function AccountedFor(fates: seq<Fate>): seq<Envelope> {
    if fates == [] then [] else
      var last := fates[|fates| - 1];
      AccountedFor(fates[..|fates| - 1]) + (if last.Marker? then [] else [last.e])
  }

  function Drops(fates: seq<Fate>): nat {
    if fates == [] then 0 else
      Drops(fates[..|fates| - 1]) + (if fates[|fates| - 1].Dropped? then 1 else 0)
  }

  /** Some drop has no marker after it. */
  ghost predicate Unmarked(fates: seq<Fate>) {
    exists i :: 0 <= i < |fates| && fates[i].Dropped? && forall j :: i < j < |fates| ==> !fates[j].Marker?
  }

  lemma FatesSnoc(fates: seq<Fate>, x: Fate)
    ensures Enqueued(fates + [x]) == Enqueued(fates) + (if x.Dropped? then [] else [x.e])
    ensures AccountedFor(fates + [x]) == AccountedFor(fates) + (if x.Marker? then [] else [x.e])
    ensures Drops(fates + [x]) == Drops(fates) + (if x.Dropped? then 1 else 0)
  {
    var all := fates + [x];
    assert all[..|all| - 1] == fates && all[|all| - 1] == x;
  }

  lemma UnmarkedSnoc(fates: seq<Fate>, x: Fate)
    ensures Unmarked(fates + [x]) <==> x.Dropped? || (Unmarked(fates) && !x.Marker?)
  {
    var all := fates + [x];
    var n := |fates|;
    assert all[n] == x && forall i :: 0 <= i < n ==> all[i] == fates[i];
    if Unmarked(all) && !x.Dropped? {
      var i :| 0 <= i < |all| && all[i].Dropped? && forall j :: i < j < |all| ==> !all[j].Marker?;
      assert fates[i].Dropped? && forall j :: i < j < n ==> !fates[j].Marker?;
    }
    if Unmarked(fates) && !x.Marker? {
      var i :| 0 <= i < n && fates[i].Dropped? && forall j :: i < j < n ==> !fates[j].Marker?;
      assert all[i].Dropped? && forall j :: i < j < |all| ==> !all[j].Marker?;
    }
  }

  /** The books of a subscription balance. */
  ghost predicate Balanced(f: Filter, l: Life, matching: seq<Envelope>) {
    && l.sub.filter == f
    && |l.sub.ch| <= CAPACITY
    && l.received + l.sub.ch == Enqueued(l.fates)
    && AccountedFor(l.fates) == matching
    && l.sub.lagDropped == Drops(l.fates)
    && (l.sub.lagged <==> Unmarked(l.fates))
  }

  /** An envelope goes into the buffer. */
  lemma EnqueueBalanced(f: Filter, l: Life, matching: seq<Envelope>, x: Fate, lagged: bool)
    requires Balanced(f, l, matching) && !x.Dropped? && |l.sub.ch| < CAPACITY
    requires lagged <==> l.sub.lagged && !x.Marker?
    ensures Balanced(f, Life(l.sub.(ch := l.sub.ch + [x.e], lagged := lagged), l.fates + [x], l.received),
                     matching + if x.Marker? then [] else [x.e])
  {
    hide Unmarked;
    FatesSnoc(l.fates, x);
    UnmarkedSnoc(l.fates, x);
    assert l.received + (l.sub.ch + [x.e]) == (l.received + l.sub.ch) + [x.e];
    assert matching + [] == matching && AccountedFor(l.fates) + [] == AccountedFor(l.fates);
  }

  lemma DropBalanced(f: Filter, l: Life, matching: seq<Envelope>, e: Envelope)
    requires Balanced(f, l, matching)
    ensures Balanced(f, Life(l.sub.(lagged := true, lagDropped := l.sub.lagDropped + 1),
                             l.fates + [Dropped(e)], l.received),
                     matching + [e])
  {
    hide Unmarked;
    FatesSnoc(l.fates, Dropped(e));
    UnmarkedSnoc(l.fates, Dropped(e));
    assert Enqueued(l.fates) + [] == Enqueued(l.fates);
  }

  lemma ReceiveBalanced(f: Filter, l: Life, matching: seq<Envelope>)
    requires Balanced(f, l, matching) && l.sub.ch != []
    ensures Balanced(f, l.(sub := Receive(l.sub), received := l.received + [l.sub.ch[0]]), matching)
  {
    hide Unmarked;
    assert l.sub.ch == [l.sub.ch[0]] + l.sub.ch[1..];
    assert l.received + l.sub.ch == (l.received + [l.sub.ch[0]]) + l.sub.ch[1..];
  }

  lemma LiveBalanced(f: Filter, l: Life, matching: seq<Envelope>, a: Act)
    requires Balanced(f, l, matching)
    ensures Balanced(f, Live(l, a), matching + (if a.Offered? && Match(f, a.e) then [a.e] else []))
  {
    assert l.fates + [] == l.fates && matching + [] == matching && l.sub.filter == f;
    hide Balanced, Match;
    match a
    case Offered(e) =>
      if Match(f, e) {
        if |l.sub.ch| < CAPACITY {
          EnqueueBalanced(f, l, matching, Sent(e), l.sub.lagged);
        } else {
          DropBalanced(f, l, matching, e);
        }
      }
    case Nudged(marker) =>
      if l.sub.lagged && |l.sub.ch| < CAPACITY {
        EnqueueBalanced(f, l, matching, Marker(marker), false);
      }
    case Received =>
      if l.sub.ch != [] {
        ReceiveBalanced(f, l, matching);
      }
  }

  /**
    In every interleaving of publishing, marking and receiving: the matching events split
    exactly into those enqueued, in order, and lagDropped many dropped; the buffer never
    exceeds its capacity; `lagged` is set iff some drop is not yet followed by a marker.
  */
  lemma {:induction false} SubscriptionBooksBalance(f: Filter, acts: seq<Act>, n: nat)
    requires n <= |acts|
    ensures Balanced(f, LifeAfter(f, acts, n), MatchingOf(f, acts, n))
  {
    if n > 0 {
      SubscriptionBooksBalance(f, acts, n - 1);
      LiveBalanced(f, LifeAfter(f, acts, n - 1), MatchingOf(f, acts, n - 1), acts[n - 1]);
    }
  }
}
