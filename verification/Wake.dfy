/**
  The wake reconciler (cmd/bigband-wake/daemon.go): the difference between the wakes owned
  and the wakes wanted, applied one cancel or schedule at a time, each of which may fail.
  Go ranges over maps in any order and sorts unstably; here keys are picked in any order and
  the sort promises an order and nothing about ties.
*/
module Wake {
  import opened Common

  /** Times are nanoseconds. */
  datatype Key = Key(job: string, at: int)

  datatype WakeEvent = WakeEvent(job: string, wakeAt: int, fireAt: int, scheduledAt: int)

  const MAX_CANCEL_FAILURES := 3

  function KeyOf(e: WakeEvent): Key { Key(e.job, e.wakeAt) }

  function Keys(s: seq<WakeEvent>): set<Key> {
    if s == [] then {} else Keys(s[..|s| - 1]) + {KeyOf(s[|s| - 1])}
  }

  /** wakeKey as text: the time holds no bar, so the text tells job and time apart. */
  lemma WakeKeyIsInjective(job: string, time: string, job': string, time': string)
    requires '|' !in time && '|' !in time' && job + ("|" + time) == job' + ("|" + time')
    ensures job == job' && time == time'
  {
    if |job| == |job'| {
      assert (job + ("|" + time))[..|job|] == job && (job' + ("|" + time'))[..|job|] == job';
      assert (job + ("|" + time))[|job| + 1..] == time && (job' + ("|" + time'))[|job| + 1..] == time';
    } else if |job| < |job'| {
      BarInTime(job, time, job', time');
    } else {
      BarInTime(job', time', job, time);
    }
  }

  lemma BarInTime(job: string, time: string, job': string, time': string)
    requires job + ("|" + time) == job' + ("|" + time') && |job| < |job'|
    ensures '|' in time
  {
    assert (job' + ("|" + time'))[|job'|] == '|';
    assert (job + ("|" + time))[|job'|] == time[|job'| - |job| - 1];
  }

  // ---- what one reconcile does to the owned keys and the failure counts ----

  function Count(failures: map<Key, nat>, k: Key): nat { if k in failures then failures[k] else 0 }

  /** A cancel that fails and is to be tried again. */
  predicate Stuck(failures: map<Key, nat>, k: Key, cancels: Key -> bool) {
    !cancels(k) && Count(failures, k) + 1 < MAX_CANCEL_FAILURES
  }

  function StuckAmong(gone: set<Key>, failures: map<Key, nat>, cancels: Key -> bool): set<Key> {
    set k | k in gone && Stuck(failures, k, cancels)
  }

  function ScheduledAmong(added: set<Key>, schedules: Key -> bool): set<Key> {
    set k | k in added && schedules(k)
  }

  /** The owned keys afterwards: kept, stuck, and newly scheduled. */
  function NextOwned(owned: set<Key>, failures: map<Key, nat>, want: set<Key>,
                     cancels: Key -> bool, schedules: Key -> bool): set<Key> {
    owned * want + StuckAmong(owned - want, failures, cancels) + ScheduledAmong(want - owned, schedules)
  }

  /** The failure counts after trying to cancel `gone`. */
  function NextFailures(failures: map<Key, nat>, gone: set<Key>, cancels: Key -> bool): map<Key, nat> {
    map k | k in failures.Keys + gone && (k in gone ==> Stuck(failures, k, cancels)) ::
      if k in gone then Count(failures, k) + 1 else failures[k]
  }

  // ---- lists of wakes ----

  ghost predicate Ordered(s: seq<WakeEvent>) {
    forall i, j :: 0 <= i < j < |s| ==> s[i].wakeAt <= s[j].wakeAt
  }

  ghost predicate Distinct(s: seq<WakeEvent>) {
    s == [] || (Distinct(s[..|s| - 1]) && KeyOf(s[|s| - 1]) !in Keys(s[..|s| - 1]))
  }

  ghost predicate From(s: seq<WakeEvent>, all: seq<WakeEvent>) {
    forall e :: e in s ==> e in all
  }

  lemma KeysSnoc(s: seq<WakeEvent>, e: WakeEvent)
    ensures Keys(s + [e]) == Keys(s) + {KeyOf(e)}
    ensures Distinct(s + [e]) <==> Distinct(s) && KeyOf(e) !in Keys(s)
  {
    assert (s + [e])[..|s|] == s;
  }

  lemma Advance(s: seq<WakeEvent>, i: nat)
    requires i < |s|
    ensures Keys(s[..i + 1]) == Keys(s[..i]) + {KeyOf(s[i])}
    ensures Distinct(s[..i + 1]) <==> Distinct(s[..i]) && KeyOf(s[i]) !in Keys(s[..i])
  {
    assert s[..i + 1] == s[..i] + [s[i]];
    KeysSnoc(s[..i], s[i]);
  }

  lemma {:induction false} KeyMember(s: seq<WakeEvent>, k: Key)
    ensures k in Keys(s) <==> exists i :: 0 <= i < |s| && KeyOf(s[i]) == k
  {
    if s != [] {
      KeyMember(s[..|s| - 1], k);
    }
  }

  lemma {:induction false} KeysAtMost(s: seq<WakeEvent>)
    ensures |Keys(s)| <= |s|
    ensures Distinct(s) <==> |Keys(s)| == |s|
  {
    if s != [] {
      KeysAtMost(s[..|s| - 1]);
    }
  }

  lemma {:induction false} DistinctPrefix(s: seq<WakeEvent>, i: nat)
    requires Distinct(s) && i <= |s|
    ensures Distinct(s[..i])
    decreases |s| - i
  {
    if i == |s| {
      assert s[..i] == s;
    } else {
      DistinctPrefix(s, i + 1);
      Advance(s, i);
    }
  }

  /** No two entries have the same job and wake time. */
  lemma {:induction false} DistinctReads(s: seq<WakeEvent>)
    ensures Distinct(s) <==> forall i, j :: 0 <= i < j < |s| ==> KeyOf(s[i]) != KeyOf(s[j])
  {
    if s != [] {
      var n := |s| - 1;
      DistinctReads(s[..n]);
      KeyMember(s[..n], KeyOf(s[n]));
    }
  }

  lemma SubsetKeys(a: seq<WakeEvent>, b: seq<WakeEvent>)
    requires From(a, b)
    ensures Keys(a) <= Keys(b)
  {
    forall k | k in Keys(a) ensures k in Keys(b) {
      KeyMember(a, k);
      KeyMember(b, k);
      var i :| 0 <= i < |a| && KeyOf(a[i]) == k;
      assert a[i] in b;
    }
  }

  lemma SameMembers(a: seq<WakeEvent>, b: seq<WakeEvent>)
    requires multiset(a) == multiset(b)
    ensures From(a, b) && From(b, a) && |a| == |b|
  {
    assert |multiset(a)| == |a| && |multiset(b)| == |b|;
    assert forall e :: e in a <==> e in multiset(a);
    assert forall e :: e in b <==> e in multiset(b);
  }

  lemma SortedKeys(a: seq<WakeEvent>, b: seq<WakeEvent>)
    requires multiset(a) == multiset(b)
    ensures From(a, b) && From(b, a) && Keys(a) == Keys(b) && (Distinct(a) <==> Distinct(b))
  {
    SameMembers(a, b);
    SubsetKeys(a, b);
    SubsetKeys(b, a);
    KeysAtMost(a);
    KeysAtMost(b);
  }

  method Insert(s: seq<WakeEvent>, e: WakeEvent) returns (r: seq<WakeEvent>)
    requires Ordered(s)
    ensures Ordered(r) && multiset(r) == multiset(s) + multiset{e}
  {
    var k := |s|;
    while k > 0 && s[k - 1].wakeAt > e.wakeAt
      invariant 0 <= k <= |s| && forall i :: k <= i < |s| ==> s[i].wakeAt > e.wakeAt
    {
      k := k - 1;
    }
    r := s[..k] + [e] + s[k..];
    InsertOrdered(s, e, k);
    InsertMembers(s, e, k);
  }

  lemma InsertMembers(s: seq<WakeEvent>, e: WakeEvent, k: nat)
    requires k <= |s|
    ensures multiset(s[..k] + [e] + s[k..]) == multiset(s) + multiset{e}
  {
    assert s == s[..k] + s[k..];
  }

  lemma InsertOrdered(s: seq<WakeEvent>, e: WakeEvent, k: nat)
    requires Ordered(s) && k <= |s| && forall i :: k <= i < |s| ==> s[i].wakeAt > e.wakeAt
    requires k > 0 ==> s[k - 1].wakeAt <= e.wakeAt
    ensures Ordered(s[..k] + [e] + s[k..])
  {
    var r := s[..k] + [e] + s[k..];
    forall i | 0 <= i < |r| ensures r[i] == if i < k then s[i] else if i == k then e else s[i - 1] {
    }
  }

  method SortByWakeAt(s: seq<WakeEvent>) returns (r: seq<WakeEvent>)
    ensures Ordered(r) && multiset(r) == multiset(s)
  {
    r := [];
    var k := 0;
    while k < |s|
      invariant k <= |s| && Ordered(r) && multiset(r) == multiset(s[..k])
    {
      assert s[..k + 1] == s[..k] + [s[k]];
      r := Insert(r, s[k]);
      k := k + 1;
    }
    assert s[..k] == s;
  }

  method Contains(s: seq<WakeEvent>, e: WakeEvent) returns (found: bool)
    ensures found <==> KeyOf(e) in Keys(s)
  {
    KeyMember(s, KeyOf(e));
    var i := 0;
    while i < |s|
      invariant i <= |s| && forall j :: 0 <= j < i ==> KeyOf(s[j]) != KeyOf(e)
    {
      if s[i].job == e.job && s[i].wakeAt == e.wakeAt {
        return true;
      }
      i := i + 1;
    }
    return false;
  }

  ghost predicate Indexes(m: map<Key, WakeEvent>, s: seq<WakeEvent>) {
    forall k :: k in m ==> m[k] in s && KeyOf(m[k]) == k
  }

  method IndexByKey(s: seq<WakeEvent>) returns (m: map<Key, WakeEvent>)
    ensures m.Keys == Keys(s) && Indexes(m, s)
  {
    m := map[];
    var i := 0;
    while i < |s|
      invariant i <= |s| && m.Keys == Keys(s[..i]) && Indexes(m, s)
    {
      Advance(s, i);
      m := m[KeyOf(s[i]) := s[i]];
      i := i + 1;
    }
    assert s[..i] == s;
  }

  /** The entries of m with no counterpart in n, in no particular order. */
  method Missing(m: map<Key, WakeEvent>, n: map<Key, WakeEvent>, ghost all: seq<WakeEvent>) returns (r: seq<WakeEvent>)
    requires Indexes(m, all)
    ensures Keys(r) == m.Keys - n.Keys && Distinct(r) && From(r, all)
  {
    r := [];
    var rest := m.Keys;
    while rest != {}
      invariant rest <= m.Keys && Keys(r) == (m.Keys - rest) - n.Keys && Distinct(r) && From(r, all)
      decreases rest
    {
      var k :| k in rest;
      MissingNext(m.Keys, rest, n.Keys, k);
      rest := rest - {k};
      if k !in n {
        KeysSnoc(r, m[k]);
        r := r + [m[k]];
      }
    }
  }

  lemma MissingNext(all: set<Key>, rest: set<Key>, have: set<Key>, k: Key)
    requires k in rest && rest <= all
    ensures (all - (rest - {k})) - have == ((all - rest) - have) + (if k in have then {} else {k})
    ensures k !in (all - rest) - have
  {
  }

  class Reconciler {
    var events: seq<WakeEvent>
    var failures: map<Key, nat>

    constructor (events: seq<WakeEvent>)
      ensures this.events == events && failures == map[]
    {
      this.events, failures := events, map[];
    }

    /** One failed or successful cancel: whether the entry is to be kept. */
    method CancelOne(k: Key, cancelled: bool) returns (stuck: bool)
      modifies this`failures
      ensures stuck <==> !cancelled && Count(old(failures), k) + 1 < MAX_CANCEL_FAILURES
      ensures failures == if stuck then old(failures)[k := Count(old(failures), k) + 1] else old(failures) - {k}
    {
      if !cancelled {
        failures := failures[k := Count(failures, k) + 1];
        if failures[k] < MAX_CANCEL_FAILURES {
          return true;
        }
      }
      failures := failures - {k};
      return false;
    }

    /** Every cancel in turn; what fails stays owned, until it has failed too often. */
    method CancelEach(toCancel: seq<WakeEvent>, cancels: Key -> bool)
      returns (keep: seq<WakeEvent>, canceled: set<Key>)
      requires Distinct(toCancel)
      modifies this`failures
      ensures failures == NextFailures(old(failures), Keys(toCancel), cancels)
      ensures Keys(keep) == StuckAmong(Keys(toCancel), old(failures), cancels)
      ensures canceled == Keys(toCancel) - Keys(keep)
      ensures Distinct(keep) && From(keep, toCancel)
    {
      keep, canceled := [], {};
      ghost var was := failures;
      var i := 0;
      NextFailuresNone(was, cancels);
      while i < |toCancel|
        invariant i <= |toCancel| && Cancelling(was, toCancel, Keys(toCancel[..i]), cancels, failures, keep, canceled)
      {
        var e := toCancel[i];
        Advance(toCancel, i);
        DistinctPrefix(toCancel, i + 1);
        CancellingNext(was, toCancel, Keys(toCancel[..i]), e, cancels, failures, keep, canceled);
        var stuck := CancelOne(KeyOf(e), cancels(KeyOf(e)));
        if stuck {
          keep := keep + [e];
        } else {
          canceled := canceled + {KeyOf(e)};
        }
        i := i + 1;
      }
      assert toCancel[..i] == toCancel;
    }

    /** What was owned and is wanted stays as it is. */
    method KeepWanted(stuck: seq<WakeEvent>, canceled: set<Key>, want: set<Key>) returns (keep: seq<WakeEvent>)
      requires Distinct(stuck) && From(stuck, events)
      requires canceled !! want && Keys(stuck) !! want
      ensures Distinct(keep) && From(keep, events) && Keys(keep) == Keys(events) * want + Keys(stuck)
    {
      keep := stuck;
      var i := 0;
      while i < |events|
        invariant i <= |events| && Distinct(keep) && From(keep, events)
        invariant Keys(keep) == Keys(events[..i]) * want + Keys(stuck)
      {
        var e := events[i];
        Advance(events, i);
        KeysSnoc(keep, e);
        var kept := Contains(keep, e);
        if KeyOf(e) !in canceled && !kept && KeyOf(e) in want {
          keep := keep + [e];
        }
        i := i + 1;
      }
      assert events[..i] == events;
    }

    /** reconcileOnce up to persisting the state. `desired` is None when the status cannot be read. */
    method ReconcileOnce(enabled: bool, desired: Option<seq<WakeEvent>>, cancels: Key -> bool, schedules: Key -> bool,
                         clock: Key -> int, allCancels: nat -> bool)
      modifies this
      ensures !enabled ==> failures == old(failures) && events == Remaining(old(events), |old(events)|, allCancels)
      ensures enabled && desired.None? ==> events == old(events) && failures == old(failures)
      ensures enabled && desired.Some? ==>
                Reconciled(old(events), old(failures), desired.value, cancels, schedules, clock, events, failures)
    {
      if !enabled {
        if |events| > 0 {
          CancelAll(allCancels);
        }
        return;
      }
      if desired.None? {
        return;
      }
      var cur := IndexByKey(events);
      var want := IndexByKey(desired.value);
      var toCancel := Missing(cur, want, events);
      var toAdd := Missing(want, cur, desired.value);
      if |toCancel| == 0 && |toAdd| == 0 {
        NoopReads(events, failures, desired.value, cancels, schedules, clock);
        return;
      }
      Apply(toCancel, toAdd, cur.Keys, want.Keys, desired.value, cancels, schedules, clock);
    }

    method Apply(cancel: seq<WakeEvent>, add: seq<WakeEvent>, cur: set<Key>, want: set<Key>,
                 ghost desired: seq<WakeEvent>, cancels: Key -> bool, schedules: Key -> bool, clock: Key -> int)
      requires cur == Keys(events) && want == Keys(desired) && (cancel != [] || add != [])
      requires Keys(cancel) == cur - want && Distinct(cancel) && From(cancel, events)
      requires Keys(add) == want - cur && Distinct(add) && From(add, desired)
      modifies this
      ensures Reconciled(old(events), old(failures), desired, cancels, schedules, clock, events, failures)
    {
      var toCancel := SortByWakeAt(cancel);
      var toAdd := SortByWakeAt(add);
      SortedKeys(toCancel, cancel);
      SortedKeys(toAdd, add);
      var stuck, canceled := CancelEach(toCancel, cancels);
      var keep := KeepWanted(stuck, canceled, want);
      keep := AddEach(keep, toAdd, schedules, clock, desired);
      var sorted := SortByWakeAt(keep);
      SortedKeys(sorted, keep);
      assert Provenance(sorted, events, desired, clock);
      assert cancel != [] ==> KeyOf(cancel[|cancel| - 1]) in Keys(cancel);
      assert add != [] ==> KeyOf(add[|add| - 1]) in Keys(add);
      events := sorted;
    }

    method AddEach(kept: seq<WakeEvent>, toAdd: seq<WakeEvent>, schedules: Key -> bool, clock: Key -> int,
                   ghost desired: seq<WakeEvent>)
      returns (keep: seq<WakeEvent>)
      requires Distinct(kept) && Distinct(toAdd) && Keys(toAdd) !! Keys(events) && From(kept, events)
            && From(toAdd, desired)
      ensures Distinct(keep) && Keys(keep) == Keys(kept) + ScheduledAmong(Keys(toAdd), schedules)
      ensures Provenance(keep, events, desired, clock)
    {
      keep := kept;
      SubsetKeys(kept, events);
      var i := 0;
      while i < |toAdd|
        invariant i <= |toAdd| && Adding(kept, events, desired, Keys(toAdd[..i]), schedules, clock, keep)
      {
        var e := toAdd[i];
        Advance(toAdd, i);
        DistinctPrefix(toAdd, i + 1);
        PrefixKeys(toAdd, i + 1);
        AddingNext(kept, events, desired, Keys(toAdd[..i]), schedules, clock, keep, e);
        if schedules(KeyOf(e)) {
          keep := keep + [e.(scheduledAt := clock(KeyOf(e)))];
        }
        i := i + 1;
      }
      assert toAdd[..i] == toAdd;
    }

    /** Tries every cancel once and forgets nothing that failed; the failure counts stay. */
    method CancelAll(cancels: nat -> bool)
      modifies this`events
      ensures events == Remaining(old(events), |old(events)|, cancels)
    {
      var remaining: seq<WakeEvent> := [];
      var i := 0;
      while i < |events|
        invariant i <= |events| && remaining == Remaining(events, i, cancels)
      {
        if !cancels(i) {
          remaining := remaining + [events[i]];
        }
        i := i + 1;
      }
      events := remaining;
    }
  }

  function Remaining(s: seq<WakeEvent>, n: nat, cancels: nat -> bool): seq<WakeEvent>
    requires n <= |s|
  {
    if n == 0 then [] else Remaining(s, n - 1, cancels) + (if cancels(n - 1) then [] else [s[n - 1]])
  }

  /** These are the positions below n whose cancel failed, in order. */
  ghost predicate FailedAt(at: seq<nat>, n: nat, cancels: nat -> bool) {
    && (forall j :: 0 <= j < |at| ==> at[j] < n && !cancels(at[j]))
    && (forall i, j :: 0 <= i < j < |at| ==> at[i] < at[j])
    && forall i: nat :: i < n && !cancels(i) ==> i in at
  }

  lemma FailedNext(at: seq<nat>, n: nat, cancels: nat -> bool)
    requires FailedAt(at, n, cancels)
    ensures FailedAt(if cancels(n) then at else at + [n], n + 1, cancels)
  {
    if !cancels(n) {
      var all := at + [n];
      assert all[|at|] == n;
      forall i: nat | i < n && !cancels(i) ensures i in all {
        assert i in at;
      }
    }
  }

  /** r is the entries of s at these positions. */
  ghost predicate Picks(r: seq<WakeEvent>, s: seq<WakeEvent>, at: seq<nat>) {
    |r| == |at| && forall j :: 0 <= j < |at| ==> at[j] < |s| && r[j] == s[at[j]]
  }

  lemma PicksNext(r: seq<WakeEvent>, s: seq<WakeEvent>, at: seq<nat>, i: nat)
    requires Picks(r, s, at) && i < |s|
    ensures Picks(r + [s[i]], s, at + [i])
  {
  }

  lemma NoneRemain(s: seq<WakeEvent>, cancels: nat -> bool)
    ensures FailedAt([], 0, cancels) && Picks([], s, [])
  {
  }

  /** The entries whose cancel failed remain, each once and in order. */
  lemma {:induction false} RemainingReads(s: seq<WakeEvent>, n: nat, cancels: nat -> bool) returns (at: seq<nat>)
    requires n <= |s|
    ensures FailedAt(at, n, cancels) && Picks(Remaining(s, n, cancels), s, at)
  {
    hide FailedAt, Picks;
    at := [];
    if n == 0 {
      NoneRemain(s, cancels);
    } else {
      at := RemainingReads(s, n - 1, cancels);
      FailedNext(at, n - 1, cancels);
      PicksNext(Remaining(s, n - 1, cancels), s, at, n - 1);
      assert Remaining(s, n - 1, cancels) + [] == Remaining(s, n - 1, cancels);
      if !cancels(n - 1) {
        at := at + [n - 1];
      }
    }
  }

  /** Every entry was owned before, just so, or is a wanted one that was not, stamped when it was scheduled. */
  ghost predicate Provenance(s: seq<WakeEvent>, owned: seq<WakeEvent>, desired: seq<WakeEvent>, clock: Key -> int) {
    forall e :: e in s ==> e in owned || Scheduled(e, owned, desired, clock)
  }

  ghost predicate Scheduled(e: WakeEvent, owned: seq<WakeEvent>, desired: seq<WakeEvent>, clock: Key -> int) {
    KeyOf(e) !in Keys(owned) && exists w :: w in desired && e == w.(scheduledAt := clock(KeyOf(w)))
  }

  /** What a reconcile leaves behind. */
  ghost predicate Reconciled(before: seq<WakeEvent>, failures: map<Key, nat>, desired: seq<WakeEvent>,
                             cancels: Key -> bool, schedules: Key -> bool, clock: Key -> int,
                             after: seq<WakeEvent>, failures': map<Key, nat>) {
    && Keys(after) == NextOwned(Keys(before), failures, Keys(desired), cancels, schedules)
    && failures' == NextFailures(failures, Keys(before) - Keys(desired), cancels)
    && (Keys(before) == Keys(desired) ==> after == before)
    && (Keys(before) != Keys(desired) ==> Distinct(after) && Ordered(after))
    && Provenance(after, before, desired, clock)
  }

  lemma ProvenanceSnoc(s: seq<WakeEvent>, owned: seq<WakeEvent>, desired: seq<WakeEvent>, clock: Key -> int,
      w: WakeEvent)
    requires Provenance(s, owned, desired, clock) && w in desired && KeyOf(w) !in Keys(owned)
    ensures Provenance(s + [w.(scheduledAt := clock(KeyOf(w)))], owned, desired, clock)
  {
    assert Scheduled(w.(scheduledAt := clock(KeyOf(w))), owned, desired, clock);
  }

  lemma {:induction false} PrefixKeys(s: seq<WakeEvent>, i: nat)
    requires i <= |s|
    ensures Keys(s[..i]) <= Keys(s)
    decreases |s| - i
  {
    if i == |s| {
      assert s[..i] == s;
    } else {
      Advance(s, i);
      PrefixKeys(s, i + 1);
    }
  }

  lemma StuckOne(gone: set<Key>, failures: map<Key, nat>, k: Key, cancels: Key -> bool)
    ensures StuckAmong(gone + {k}, failures, cancels) ==
            StuckAmong(gone, failures, cancels) + (if Stuck(failures, k, cancels) then {k} else {})
  {
  }

  /** Half-way through the cancels: those of the keys in `done` have been tried. */
  ghost predicate Cancelling(was: map<Key, nat>, all: seq<WakeEvent>, done: set<Key>, cancels: Key -> bool,
                             failures: map<Key, nat>, keep: seq<WakeEvent>, canceled: set<Key>) {
    && failures == NextFailures(was, done, cancels)
    && Keys(keep) == StuckAmong(done, was, cancels)
    && canceled == done - Keys(keep)
    && Distinct(keep) && From(keep, all)
  }

  lemma CancellingNext(was: map<Key, nat>, all: seq<WakeEvent>, done: set<Key>, e: WakeEvent, cancels: Key -> bool,
                       failures: map<Key, nat>, keep: seq<WakeEvent>, canceled: set<Key>)
    requires Cancelling(was, all, done, cancels, failures, keep, canceled) && KeyOf(e) !in done && e in all
    ensures Count(failures, KeyOf(e)) == Count(was, KeyOf(e))
    ensures Stuck(was, KeyOf(e), cancels) ==>
              Cancelling(was, all, done + {KeyOf(e)}, cancels, failures[KeyOf(e) := Count(failures, KeyOf(e)) + 1],
                         keep + [e], canceled)
    ensures !Stuck(was, KeyOf(e), cancels) ==>
              Cancelling(was, all, done + {KeyOf(e)}, cancels, failures - {KeyOf(e)}, keep, canceled + {KeyOf(e)})
  {
    NextFailuresOne(was, done, KeyOf(e), cancels);
    if Stuck(was, KeyOf(e), cancels) {
      CancelStuck(was, all, done, e, cancels, keep, canceled);
    } else {
      StuckOne(done, was, KeyOf(e), cancels);
    }
  }

  lemma CancelStuck(was: map<Key, nat>, all: seq<WakeEvent>, done: set<Key>, e: WakeEvent, cancels: Key -> bool,
                    keep: seq<WakeEvent>, canceled: set<Key>)
    requires Keys(keep) == StuckAmong(done, was, cancels) && canceled == done - Keys(keep) && Distinct(keep)
          && From(keep, all)
    requires Stuck(was, KeyOf(e), cancels) && KeyOf(e) !in done && e in all
    ensures Keys(keep + [e]) == StuckAmong(done + {KeyOf(e)}, was, cancels)
    ensures canceled == done + {KeyOf(e)} - Keys(keep + [e]) && Distinct(keep + [e]) && From(keep + [e], all)
  {
    StuckOne(done, was, KeyOf(e), cancels);
    KeysSnoc(keep, e);
  }

  /** Half-way through the additions. */
  ghost predicate Adding(kept: seq<WakeEvent>, owned: seq<WakeEvent>, desired: seq<WakeEvent>, done: set<Key>,
                         schedules: Key -> bool, clock: Key -> int, keep: seq<WakeEvent>) {
    && Keys(keep) == Keys(kept) + ScheduledAmong(done, schedules)
    && Distinct(keep) && Provenance(keep, owned, desired, clock)
  }

  lemma AddingNext(kept: seq<WakeEvent>, owned: seq<WakeEvent>, desired: seq<WakeEvent>, done: set<Key>,
                   schedules: Key -> bool, clock: Key -> int, keep: seq<WakeEvent>, w: WakeEvent)
    requires Adding(kept, owned, desired, done, schedules, clock, keep) && Keys(kept) <= Keys(owned)
    requires w in desired && KeyOf(w) !in done && KeyOf(w) !in Keys(owned)
    ensures Adding(kept, owned, desired, done + {KeyOf(w)}, schedules, clock,
                   if schedules(KeyOf(w)) then keep + [w.(scheduledAt := clock(KeyOf(w)))] else keep)
  {
    ScheduledOne(done, KeyOf(w), schedules);
    if schedules(KeyOf(w)) {
      KeysSnoc(keep, w.(scheduledAt := clock(KeyOf(w))));
      ProvenanceSnoc(keep, owned, desired, clock, w);
    }
  }

  lemma ScheduledOne(added: set<Key>, k: Key, schedules: Key -> bool)
    ensures ScheduledAmong(added + {k}, schedules) ==
        ScheduledAmong(added, schedules) + (if schedules(k) then {k} else {})
  {
  }

  lemma NextFailuresNone(failures: map<Key, nat>, cancels: Key -> bool)
    ensures NextFailures(failures, {}, cancels) == failures
  {
  }

  lemma NextFailuresOne(failures: map<Key, nat>, gone: set<Key>, k: Key, cancels: Key -> bool)
    requires k !in gone
    ensures Count(NextFailures(failures, gone, cancels), k) == Count(failures, k)
    ensures NextFailures(failures, gone + {k}, cancels) ==
            if Stuck(failures, k, cancels) then NextFailures(failures, gone, cancels)[k := Count(failures, k) + 1]
            else NextFailures(failures, gone, cancels) - {k}
  {
  }

  lemma NoopReads(owned: seq<WakeEvent>, failures: map<Key, nat>, desired: seq<WakeEvent>,
                  cancels: Key -> bool, schedules: Key -> bool, clock: Key -> int)
    requires Keys(owned) == Keys(desired)
    ensures Reconciled(owned, failures, desired, cancels, schedules, clock, owned, failures)
  {
    NextFailuresNone(failures, cancels);
    assert Keys(owned) - Keys(desired) == {};
  }
}
