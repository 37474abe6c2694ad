/**
  Where delivery is weaker than "every matching event, in publish order", and exactly when it
  is not: a client that has handled nothing yet, times that run backwards across a second, two
  events in one second, a full buffer.
*/
module Gaps {
  import opened Common
  import opened Events
  import opened Selection
  import opened Delivery
  import opened Reconnect
  import opened Order
  import opened Runs

  // ---- nothing handled yet ----

  /** Undropped and caught up on this log, a client that has handled nothing of it. */
  ghost predicate HandledNothing(log: seq<Envelope>, s: System) {
    s.log == log && s.drops == 0 && CaughtUp(s) && s.client.handled == []
  }

  /**
    A client that has handled nothing comes back live-only: whatever is published while it is away is
    gone, although it was connected and caught up before the first of it.
  */
  lemma NothingHandledNothingReplayed(f: Filter, log: seq<Envelope>)
    requires Numbered(log) && Dated(log)
    ensures exists steps :: 0 < |steps| && CaughtUp(Play(f, steps, 1)) && HandledNothing(log, Play(f, steps, |steps|))
  {
    ReachStart(f);
    PublishRest(f, START, log);
    var s, t := START.(log := log), START.(log := log, conn := Some(Open(f, 0, |log|)));
    ReachStep(f, s, Connect, t);
    var rest :| Play(f, rest, |rest|) == t;
    var first := [Connect, Disconnect];
    FirstConnects(f);
    PlayAfter(f, first, rest, |rest|);
    PlayPrefix(f, first, rest, 1);
    hide Do, Reachable;
    var steps := first + rest;
    assert CaughtUp(Play(f, steps, 1)) && HandledNothing(log, Play(f, steps, |steps|));
  }

  lemma FirstConnects(f: Filter)
    ensures CaughtUp(Play(f, [Connect, Disconnect], 1)) && Play(f, [Connect, Disconnect], 2) == START
  {
    assert Play(f, [Connect, Disconnect], 0) == START;
    assert Play(f, [Connect, Disconnect], 1) == START.(conn := Some(Open(f, 0, 0)));
  }

  /** Steps that lead back to the start can be played first. */
  lemma {:induction false} PlayAfter(f: Filter, first: seq<Step>, steps: seq<Step>, n: nat)
    requires Play(f, first, |first|) == START && n <= |steps|
    ensures Play(f, first + steps, |first| + n) == Play(f, steps, n)
  {
    if n == 0 {
      PlayPrefix(f, first, steps, |first|);
    } else {
      PlayAfter(f, first, steps, n - 1);
      assert (first + steps)[|first| + n - 1] == steps[n - 1];
    }
  }

  // ---- times running backwards ----

  /** A run over this log in which the client, caught up, has handled something from event x on but not event j. */
  ghost predicate Loses(f: Filter, log: seq<Envelope>, s: System, x: nat, j: nat) {
    && s.log == log && s.drops == 0 && CaughtUp(s)
    && s.client.handled != [] && First(s.client.handled) == x && Published(j) !in s.client.seen
  }

  /** Any event stamped before the second of an earlier one can be lost for good. */
  lemma BackwardsTimeLosesAnEvent(f: Filter, log: seq<Envelope>, x: nat, j: nat)
    requires Numbered(log) && Dated(log) && x < j < |log| && Match(f, log[x])
    requires log[j].at < Floor(log[x].at)
    ensures exists steps :: Loses(f, log, Play(f, steps, |steps|), x, j)
  {
    var t := HeardThenReplayed(f, log, x);
    hide Match, CaughtUp;
    assert Loses(f, log, t, x, j);
  }

  /** Undropped and caught up on this log, the client has handled every matching event from its first one on. */
  ghost predicate MissesNothing(f: Filter, log: seq<Envelope>, s: System) {
    s.log == log && s.drops == 0 && CaughtUp(s) && s.client.handled != [] ==>
      var h := s.client.handled;
      First(h) < |log| && FromIndex(h, First(h)) == Sel(log, First(h), |log|, All(f))
  }

  lemma LosingMisses(f: Filter, log: seq<Envelope>, s: System, x: nat, j: nat)
    requires Numbered(log) && ClientOk(s.client) && Loses(f, log, s, x, j) && x < j < |log| && Match(f, log[j])
    ensures !MissesNothing(f, log, s)
  {
    hide CaughtUp;
    var h := s.client.handled;
    if FromIndex(h, x) == Sel(log, x, |log|, All(f)) {
      SelMember(log, x, |log|, All(f), log[j]);
      assert log[j] in FromIndex(h, x);
      FromIndexMember(h, x, log[j]);
    }
  }

  /**
    Exactly when nothing can be lost: over all runs that publish these events, a caught-up client that
    missed none for lag has everything from its first event on, iff no matching event is stamped before
    the second in which an earlier matching one falls.
  */
  lemma MissesNothingIff(f: Filter, log: seq<Envelope>)
    requires Numbered(log) && Dated(log)
    ensures InOrder(f, log) <==> forall steps :: MissesNothing(f, log, Play(f, steps, |steps|))
  {
    hide MissesNothing, CaughtUp, Match;
    if InOrder(f, log) {
      forall steps ensures MissesNothing(f, log, Play(f, steps, |steps|)) {
        OrderedMissesNothing(f, log, steps);
      }
    } else {
      var x, j :| 0 <= x < j < |log| && Match(f, log[x]) && Match(f, log[j]) && log[j].at < Floor(log[x].at);
      BackwardsTimeLosesAnEvent(f, log, x, j);
      var steps :| Loses(f, log, Play(f, steps, |steps|), x, j);
      HandledAtMostOnce(f, steps, |steps|);
      LosingMisses(f, log, Play(f, steps, |steps|), x, j);
    }
  }

  lemma OrderedMissesNothing(f: Filter, log: seq<Envelope>, steps: seq<Step>)
    requires InOrder(f, log)
    ensures MissesNothing(f, log, Play(f, steps, |steps|))
  {
    hide InOrder, CaughtUp;
    CaughtUpMissesNothing(f, steps);
  }

  // ---- two events in one second ----

  /** A run over this log in which event i has been handled after the later event x, the first one handled. */
  ghost predicate HandlesOlder(f: Filter, log: seq<Envelope>, s: System, i: nat, x: nat) {
    && s.log == log && s.drops == 0 && CaughtUp(s)
    && s.client.handled != [] && First(s.client.handled) == x && Published(i) in s.client.seen
  }

  /** A replay starts at a whole second, so any event not older than the second of a later one can follow it. */
  lemma OlderEventAfterFirst(f: Filter, log: seq<Envelope>, i: nat, x: nat)
    requires Numbered(log) && Dated(log) && i < x < |log| && Match(f, log[i]) && Match(f, log[x])
    requires log[i].at >= Floor(log[x].at)
    ensures exists steps :: HandlesOlder(f, log, Play(f, steps, |steps|), i, x)
  {
    var t := HeardThenReplayed(f, log, x);
    hide Match, CaughtUp;
    assert HandlesOlder(f, log, t, i, x);
  }

  /** Of any two matching events the later one falls into a later second. */
  ghost predicate SecondsApart(f: Filter, log: seq<Envelope>) {
    forall i, x :: 0 <= i < x < |log| && Match(f, log[i]) && Match(f, log[x]) ==> log[i].at < Floor(log[x].at)
  }

  /** Undropped on this log, all the client has handled is an unbroken stretch in publish order. */
  ghost predicate InPublishOrder(f: Filter, log: seq<Envelope>, s: System) {
    s.log == log && s.drops == 0 && s.client.handled != [] ==>
      var h := s.client.handled;
      Next(h) <= |log| && h == Sel(log, First(h), Next(h), All(f))
  }

  lemma OlderIsOutOfOrder(f: Filter, log: seq<Envelope>, s: System, i: nat, x: nat)
    requires Numbered(log) && ClientOk(s.client) && HandlesOlder(f, log, s, i, x) && i < x
    ensures !InPublishOrder(f, log, s)
  {
    hide CaughtUp;
    var h := s.client.handled;
    if Next(h) <= |log| && h == Sel(log, x, Next(h), All(f)) {
      var k :| 0 <= k < |h| && h[k].id == Published(i);
      SelMember(log, x, Next(h), All(f), h[k]);
    }
  }

  lemma ApartInPublishOrder(f: Filter, log: seq<Envelope>, steps: seq<Step>)
    requires InOrder(f, log) && SecondsApart(f, log)
    ensures InPublishOrder(f, log, Play(f, steps, |steps|))
  {
    var s := Play(f, steps, |steps|);
    var h := s.client.handled;
    if s.log == log && s.drops == 0 && h != [] {
      PlayIsFine(f, steps, |steps|);
      assert IsLogEntry(f, log, h[0]);
      hide Fine, Match, Floor;
      assert NoneInSecondOf(f, log, First(h));
      HandledInPublishOrder(f, steps);
    }
  }

  /**
    Exactly when the whole handled list is in publish order: given times as above, over all undropped
    runs that publish these events, iff no two of the matching ones fall into one second.
  */
  lemma PublishOrderIff(f: Filter, log: seq<Envelope>)
    requires Numbered(log) && Dated(log) && InOrder(f, log)
    ensures SecondsApart(f, log) <==> forall steps :: InPublishOrder(f, log, Play(f, steps, |steps|))
  {
    hide InPublishOrder, CaughtUp, Match, InOrder;
    if SecondsApart(f, log) {
      forall steps ensures InPublishOrder(f, log, Play(f, steps, |steps|)) {
        ApartInPublishOrder(f, log, steps);
      }
    } else {
      var i, x :| 0 <= i < x < |log| && Match(f, log[i]) && Match(f, log[x]) && log[i].at >= Floor(log[x].at);
      OlderEventAfterFirst(f, log, i, x);
      var steps :| HandlesOlder(f, log, Play(f, steps, |steps|), i, x);
      HandledAtMostOnce(f, steps, |steps|);
      OlderIsOutOfOrder(f, log, Play(f, steps, |steps|), i, x);
    }
  }

  // ---- a full buffer ----

  const EVERYTHING := Filter([], [])

  function Stamp(n: nat, at: nat): Envelope { Envelope(Published(n), "run.completed", at, "nightly") }

  function HandleFrom(cl: Client, s: seq<Envelope>): Client
    decreases |s|
  {
    if s == [] then cl else HandleFrom(Handle(cl, s[0]), s[1..])
  }

  /** All of the channel. */
  lemma {:induction false} DeliversAll(f: Filter, s: System, c: Conn) returns (d: Conn)
    requires Reachable(f, s) && s.conn == Some(c) && Idle(f, c)
    ensures Idle(f, d) && d.sub == c.sub.(ch := [])
    ensures Reachable(f, s.(conn := Some(d), client := HandleFrom(s.client, c.sub.ch)))
    decreases |c.sub.ch|
  {
    if c.sub.ch == [] {
      d := c;
    } else {
      var m := Delivers(f, s, c);
      d := DeliversAll(f, s.(conn := Some(m), client := Handle(s.client, c.sub.ch[0])), m);
    }
  }

  ghost predicate Unseen(cl: Client, s: seq<Envelope>) {
    && (forall i :: 0 <= i < |s| ==> s[i].id !in cl.seen)
    && forall i, j :: 0 <= i < j < |s| ==> s[i].id != s[j].id
  }

  lemma {:induction false} HandlesUnseen(cl: Client, s: seq<Envelope>)
    requires Unseen(cl, s)
    ensures HandleFrom(cl, s).handled == cl.handled + s
    decreases |s|
  {
    if s != [] {
      assert s == [s[0]] + s[1..];
      HandlesUnseen(Handle(cl, s[0]), s[1..]);
      Associative(cl.handled, [s[0]], s[1..]);
    }
  }

  function Stamps(n: nat): seq<Envelope> { seq(n, (i: nat) => Stamp(i, SECOND)) }

  lemma StampsNext(n: nat)
    ensures Stamps(n) + [Stamp(n, SECOND)] == Stamps(n + 1) && |Stamps(n)| == n
  {
  }

  function FilledConn(n: nat): Conn { Open(EVERYTHING, 0, 0).(sub := NewSub(EVERYTHING).(ch := Stamps(n))) }

  lemma {:induction false} Fills(n: nat)
    requires n <= CAPACITY
    ensures Reachable(EVERYTHING, System(Stamps(n), false, Some(FilledConn(n)), START.client, 0))
  {
    hide Reachable;
    if n == 0 {
      ReachStart(EVERYTHING);
      assert Stamps(0) == [];
      ReachStep(EVERYTHING, START, Connect, System([], false, Some(FilledConn(0)), START.client, 0));
    } else {
      Fills(n - 1);
      FillsOne(n - 1);
      PublishTo(EVERYTHING, System(Stamps(n - 1), false, Some(FilledConn(n - 1)), START.client, 0), FilledConn(n - 1),
                Stamp(n - 1, SECOND));
    }
  }

  lemma FillsOne(n: nat)
    requires n < CAPACITY
    ensures |Stamps(n)| == n && Stamps(n) + [Stamp(n, SECOND)] == Stamps(n + 1)
    ensures FanOutTo(FilledConn(n), Stamp(n, SECOND)) == FilledConn(n + 1)
  {
    StampsNext(n);
    OfferReads(EVERYTHING, FilledConn(n), Stamp(n, SECOND));
  }

  /** The connection on which the event after the buffer filled up was dropped. */
  function OverflownConn(): Conn {
    var c := FilledConn(CAPACITY);
    c.(sub := c.sub.(lagged := true, lagDropped := 1), dropped := {Published(CAPACITY)})
  }

  lemma Overflows()
    ensures Reachable(EVERYTHING, System(Stamps(CAPACITY + 1), false, Some(OverflownConn()), START.client, 1))
  {
    Fills(CAPACITY);
    StampsNext(CAPACITY);
    var c := FilledConn(CAPACITY);
    assert FanOutTo(c, Stamp(CAPACITY, SECOND)) == OverflownConn();
    PublishTo(EVERYTHING, System(Stamps(CAPACITY), false, Some(c), START.client, 0), c, Stamp(CAPACITY, SECOND));
  }

  /** The event in the middle was dropped; those before and after it were handled. */
  ghost predicate DroppedInTheMiddle(s: System) {
    && InOrder(EVERYTHING, s.log) && s.drops == 1 && CaughtUp(s) && |s.log| == CAPACITY + 2
    && s.log[0] in s.client.handled && s.log[CAPACITY] !in s.client.handled && s.log[CAPACITY + 1] in s.client.handled
  }

  /** A subscriber that lags by more than its buffer skips an event and never gets it. */
  lemma LagSkipsAnEvent()
    ensures exists steps :: DroppedInTheMiddle(Play(EVERYTHING, steps, |steps|))
  {
    Overflows();
    var c := OverflownConn();
    StampsNext(CAPACITY);
    var s := System(Stamps(CAPACITY + 1), false, Some(c), START.client, 1);
    var d := Delivers(EVERYTHING, s, c);
    var first := Handle(START.client, Stamp(0, SECOND));
    AfterLag(s.(conn := Some(d), client := first), d, first);
  }

  lemma AfterLag(s: System, c: Conn, cl: Client)
    requires cl == Handle(START.client, Stamp(0, SECOND))
    requires Idle(EVERYTHING, c) && c.sub == Sub(EVERYTHING, Stamps(CAPACITY)[1..], true, 1)
    requires Reachable(EVERYTHING, s) && s == System(Stamps(CAPACITY + 1), false, Some(c), cl, 1)
    ensures exists steps :: DroppedInTheMiddle(Play(EVERYTHING, steps, |steps|))
  {
    var e := Stamp(CAPACITY + 1, SECOND);
    StampsNext(CAPACITY);
    StampsNext(CAPACITY + 1);
    OfferReads(EVERYTHING, c, e);
    PublishTo(EVERYTHING, s, c, e);
    var s1 := s.(log := Stamps(CAPACITY + 2), conn := Some(FanOutTo(c, e)));
    var d := DeliversAll(EVERYTHING, s1, FanOutTo(c, e));
    LagHandled(cl, c.sub.ch + [e]);
    LagSeen(s1.(conn := Some(d), client := HandleFrom(cl, c.sub.ch + [e])));
  }

  lemma LagHandled(cl: Client, rest: seq<Envelope>)
    requires cl == Handle(START.client, Stamp(0, SECOND))
    requires rest == Stamps(CAPACITY)[1..] + [Stamp(CAPACITY + 1, SECOND)]
    ensures HandleFrom(cl, rest).handled == [Stamp(0, SECOND)] + rest
  {
    assert forall i :: 0 <= i < CAPACITY - 1 ==> rest[i] == Stamp(i + 1, SECOND);
    assert rest[CAPACITY - 1] == Stamp(CAPACITY + 1, SECOND);
    HandlesUnseen(cl, rest);
  }

  lemma LagHandledReads(log: seq<Envelope>, h: seq<Envelope>)
    requires log == Stamps(CAPACITY + 2)
    requires h == [Stamp(0, SECOND)] + (Stamps(CAPACITY)[1..] + [Stamp(CAPACITY + 1, SECOND)])
    ensures InOrder(EVERYTHING, log) && |log| == CAPACITY + 2
    ensures log[0] in h && log[CAPACITY] !in h && log[CAPACITY + 1] in h
  {
    assert forall i :: 0 <= i < CAPACITY ==> h[i] == Stamp(i, SECOND);
    assert h[0] == log[0] && h[CAPACITY] == log[CAPACITY + 1];
  }

  lemma LagSeen(s: System)
    requires Reachable(EVERYTHING, s) && CaughtUp(s) && s.drops == 1 && s.log == Stamps(CAPACITY + 2)
    requires s.client.handled == [Stamp(0, SECOND)] + (Stamps(CAPACITY)[1..] + [Stamp(CAPACITY + 1, SECOND)])
    ensures exists steps :: DroppedInTheMiddle(Play(EVERYTHING, steps, |steps|))
  {
    hide CaughtUp, InOrder, Stamps;
    LagHandledReads(s.log, s.client.handled);
    assert DroppedInTheMiddle(s);
  }
}
