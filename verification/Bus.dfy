/**
  The event bus as it runs (internal/events/events.go): one lock, an append-only log and a
  list of subscriptions with bounded channels. Every method is one critical section;
  `taken(i)` says how many envelopes subscriber i receives between the two passes of
  Publish, since receivers do not take the lock.
*/
module Bus {
  import opened Events

  class Subscription {
    const filter: Filter
    const name: string
    var ch: seq<Envelope>
    var closed: bool
    var lagged: bool
    var lagDropped: nat

    function View(): Sub
      reads this
    {
      Sub(filter, ch, lagged, lagDropped)
    }

    constructor (filter: Filter, name: string)
      ensures View() == NewSub(filter) && !closed && this.name == name
    {
      this.filter, this.name := filter, name;
      ch, closed, lagged, lagDropped := [], false, false, 0;
    }

    /** A send that does not block; sending on a closed channel would panic. */
    method TrySend(e: Envelope) returns (sent: bool)
      requires !closed
      modifies this`ch
      ensures sent <==> |old(ch)| < CAPACITY
      ensures ch == if sent then old(ch) + [e] else old(ch)
    {
      sent := |ch| < CAPACITY;
      if sent {
        ch := ch + [e];
      }
    }

    /** Offers a matching envelope, or counts it as dropped. */
    method Send(e: Envelope)
      requires !closed
      modifies this`ch, this`lagged, this`lagDropped
      ensures View() == Offer(old(View()), e)
    {
      var matches := Matches(filter, e);
      if matches {
        var sent := TrySend(e);
        if !sent {
          lagged, lagDropped := true, lagDropped + 1;
        }
      }
    }

    /** Tells a lagged subscriber so, if its buffer has room. */
    method Mark(marker: Envelope)
      requires !closed
      modifies this`ch, this`lagged
      ensures View() == Nudge(old(View()), marker)
    {
      if lagged {
        var sent := TrySend(marker);
        if sent {
          lagged := false;
        }
      }
    }

    /** The receiver takes the next n envelopes, or what there is. */
    method Take(n: nat)
      modifies this`ch
      ensures View() == ReceiveSome(old(View()), n)
    {
      ch := if n < |ch| then ch[n..] else [];
    }

    /** Closing a closed channel would panic. */
    method Close()
      requires !closed
      modifies this`closed
      ensures closed
    {
      closed := true;
    }
  }

  /** The first n envelopes of the buffer received, or all of it. */
  function ReceiveSome(s: Sub, n: nat): Sub {
    s.(ch := if n < |s.ch| then s.ch[n..] else [])
  }

  /** What one Publish does to a subscription. */
  function AfterPublish(s: Sub, e: Envelope, n: nat, marker: Envelope): Sub {
    Nudge(ReceiveSome(Offer(s, e), n), marker)
  }

  function LiveAll(l: Life, acts: seq<Act>): Life
    decreases |acts|
  {
    if acts == [] then l else LiveAll(Live(l, acts[0]), acts[1..])
  }

  function Receives(n: nat): seq<Act> {
    if n == 0 then [] else [Received] + Receives(n - 1)
  }

  lemma {:induction false} LiveAllAppend(l: Life, a: seq<Act>, b: seq<Act>)
    ensures LiveAll(l, a + b) == LiveAll(LiveAll(l, a), b)
    decreases |a|
  {
    if a == [] {
      assert a + b == b;
    } else {
      LiveAllAppend(Live(l, a[0]), a[1..], b);
      assert (a + b)[1..] == a[1..] + b;
    }
  }

  lemma {:induction false} ReceivesAreReceiveSome(l: Life, n: nat)
    ensures LiveAll(l, Receives(n)).sub == ReceiveSome(l.sub, n)
    decreases n
  {
    if n > 0 {
      assert Receives(n)[1..] == Receives(n - 1);
      ReceivesAreReceiveSome(Live(l, Received), n - 1);
    }
  }

  /** So the books of Events balance over everything a Publish does. */
  lemma PublishIsActs(l: Life, e: Envelope, n: nat, marker: Envelope)
    ensures LiveAll(l, [Offered(e)] + Receives(n) + [Nudged(marker)]).sub == AfterPublish(l.sub, e, n, marker)
  {
    LiveAllAppend(l, [Offered(e)] + Receives(n), [Nudged(marker)]);
    LiveAllAppend(l, [Offered(e)], Receives(n));
    var offered := LiveAll(l, [Offered(e)]);
    assert [Offered(e)][1..] == [];
    assert offered == Live(l, Offered(e));
    ReceivesAreReceiveSome(offered, n);
    assert [Nudged(marker)][1..] == [];
  }

  /**
    What a publish comes to for one subscriber: a matching event joins a buffer below its capacity and is
    otherwise lost and counted; then the receiver takes up to n, and a subscriber with a loss not yet marked
    gets its marker if there is room.
  */
  lemma PublishReads(s: Sub, e: Envelope, n: nat, marker: Envelope)
    ensures var t := AfterPublish(s, e, n, marker);
            var lost := Match(s.filter, e) && |s.ch| >= 1024;
            var offered := s.ch + (if Match(s.filter, e) && !lost then [e] else []);
            var left := if n < |offered| then offered[n..] else [];
            var told := (s.lagged || lost) && |left| < 1024;
            && t.filter == s.filter && t.lagDropped == s.lagDropped + (if lost then 1 else 0)
            && t.ch == left + (if told then [marker] else [])
            && (t.lagged <==> (s.lagged || lost) && !told)
  {
    hide Match;
    var offered := Offer(s, e).ch;
    var left := ReceiveSome(Offer(s, e), n).ch;
    assert s.ch + [] == s.ch && left + [] == left;
  }

  class EventBus {
    var log: seq<Envelope>
    var fileOpen: bool
    var subscribers: seq<Subscription>

    /** Subscribers are distinct and their channels open; a closed bus has none. */
    ghost predicate Valid()
      reads this, subscribers
    {
      && (forall i, j :: 0 <= i < j < |subscribers| ==> subscribers[i] != subscribers[j])
      && (forall i :: 0 <= i < |subscribers| ==> !subscribers[i].closed)
    }

    constructor ()
      ensures Valid() && fileOpen && log == [] && subscribers == []
    {
      log, fileOpen, subscribers := [], true, [];
    }

    /** Fans out whether or not the log could be written. */
    method Publish(e: Envelope, written: bool, taken: nat -> nat, marker: nat -> Envelope)
      requires Valid()
      modifies this`log, subscribers
      ensures Valid()
      ensures log == if fileOpen && written then old(log) + [e] else old(log)
      ensures forall i :: 0 <= i < |subscribers| ==>
                subscribers[i].View() == AfterPublish(old(subscribers[i].View()), e, taken(i), marker(i))
    {
      if fileOpen && written {
        log := log + [e];
      }
      OfferAll(e);
      label offered:
      DeliverSome(taken);
      label delivered:
      NudgeAll(marker);
      assert forall i :: 0 <= i < |subscribers| ==>
          old@delivered(subscribers[i].View()) == ReceiveSome(old@offered(subscribers[i].View()), taken(i));
    }

    /** First pass: offer the envelope to every matching subscriber, or mark it lagged. */
    method OfferAll(e: Envelope)
      requires Valid()
      modifies subscribers
      ensures Valid()
      ensures forall i :: 0 <= i < |subscribers| ==> subscribers[i].View() == Offer(old(subscribers[i].View()), e)
    {
      hide Offer;
      var k := 0;
      while k < |subscribers|
        invariant k <= |subscribers| && Valid()
        invariant forall i :: 0 <= i < k ==> subscribers[i].View() == Offer(old(subscribers[i].View()), e)
        invariant forall i :: k <= i < |subscribers| ==> subscribers[i].View() == old(subscribers[i].View())
      {
        subscribers[k].Send(e);
        k := k + 1;
      }
    }

    /** What receivers take meanwhile. */
    method DeliverSome(taken: nat -> nat)
      requires Valid()
      modifies subscribers
      ensures Valid()
      ensures forall i :: 0 <= i < |subscribers| ==>
          subscribers[i].View() == ReceiveSome(old(subscribers[i].View()), taken(i))
    {
      hide ReceiveSome;
      var k := 0;
      while k < |subscribers|
        invariant k <= |subscribers| && Valid()
        invariant forall i :: 0 <= i < k ==> subscribers[i].View() == ReceiveSome(old(subscribers[i].View()), taken(i))
        invariant forall i :: k <= i < |subscribers| ==> subscribers[i].View() == old(subscribers[i].View())
      {
        subscribers[k].Take(taken(k));
        k := k + 1;
      }
    }

    /** Second pass: tell each lagged subscriber so, if its buffer has room. */
    method NudgeAll(marker: nat -> Envelope)
      requires Valid()
      modifies subscribers
      ensures Valid()
      ensures forall i :: 0 <= i < |subscribers| ==>
          subscribers[i].View() == Nudge(old(subscribers[i].View()), marker(i))
    {
      hide Nudge;
      var k := 0;
      while k < |subscribers|
        invariant k <= |subscribers| && Valid()
        invariant forall i :: 0 <= i < k ==> subscribers[i].View() == Nudge(old(subscribers[i].View()), marker(i))
        invariant forall i :: k <= i < |subscribers| ==> subscribers[i].View() == old(subscribers[i].View())
      {
        subscribers[k].Mark(marker(k));
        k := k + 1;
      }
    }

    /** Works on a closed bus too: the channel then stays open until it is cancelled. */
    method Subscribe(filter: Filter, name: string) returns (s: Subscription)
      requires Valid()
      modifies this`subscribers
      ensures Valid() && fresh(s) && s.View() == NewSub(filter)
      ensures subscribers == old(subscribers) + [s]
    {
      s := new Subscription(filter, name);
      subscribers := subscribers + [s];
    }

    /** The cancel function of a subscription; calling it again, or after Close, does nothing. */
    method Cancel(s: Subscription)
      requires Valid()
      modifies this`subscribers, s`closed
      ensures Valid()
      ensures s !in subscribers && (s in old(subscribers) ==> s.closed)
      ensures s !in old(subscribers) ==> s.closed == old(s.closed)
      ensures subscribers == Without(old(subscribers), s)
    {
      var i := 0;
      while i < |subscribers|
        invariant i <= |subscribers|
        invariant forall j :: 0 <= j < i ==> subscribers[j] != s
      {
        if subscribers[i] == s {
          WithoutAt(subscribers, s, i);
          subscribers := subscribers[..i] + subscribers[i + 1..];
          s.Close();
          return;
        }
        i := i + 1;
      }
      WithoutNone(subscribers, s);
    }

    /** Closes every channel once and forgets the subscribers; safe to call again. */
    method Close()
      requires Valid()
      modifies this`fileOpen, this`subscribers, subscribers
      ensures Valid() && !fileOpen
      ensures old(fileOpen) ==> subscribers == [] && forall s :: s in old(subscribers) ==> s.closed
      ensures !old(fileOpen) ==> unchanged(this) && unchanged(subscribers)
    {
      if !fileOpen {
        return;
      }
      fileOpen := false;
      var all, k := subscribers, 0;
      while k < |all|
        invariant k <= |all| && all == subscribers == old(subscribers) && !fileOpen
        invariant forall i :: 0 <= i < |all| ==> (all[i].closed <==> i < k)
      {
        all[k].Close();
        k := k + 1;
      }
      subscribers := [];
    }
  }

  function Without<T(==)>(s: seq<T>, x: T): seq<T> {
    if s == [] then [] else (if s[0] == x then [] else [s[0]]) + Without(s[1..], x)
  }

  lemma {:induction false} WithoutNone<T>(s: seq<T>, x: T)
    requires x !in s
    ensures Without(s, x) == s
  {
    if s != [] {
      assert x !in s[1..];
      WithoutNone(s[1..], x);
    }
  }

  lemma {:induction false} WithoutAt<T>(s: seq<T>, x: T, i: nat)
    requires i < |s| && s[i] == x && forall j :: 0 <= j < |s| && j != i ==> s[j] != x
    ensures Without(s, x) == s[..i] + s[i + 1..]
  {
    if i == 0 {
      WithoutNone(s[1..], x);
    } else {
      WithoutAt(s[1..], x, i - 1);
      assert s[1..][..i - 1] == s[1..i] && s[1..][i..] == s[i + 1..];
      assert s[..i] + s[i + 1..] == [s[0]] + (s[1..i] + s[i + 1..]);
    }
  }
}
