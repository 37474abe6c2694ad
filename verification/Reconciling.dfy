/**
  Many reconciles in a row, on the owned keys and failure counts of Wake; and the wakes
  wanted, derived from the daemon's job status.
*/
module Reconciling {
  import opened Wake

  datatype Owned = Owned(keys: set<Key>, failures: map<Key, nat>)

  /**
    What one reconcile meets: the keys wanted, and which cancels and schedules succeed; or,
    with the extension disabled, which keys stay owned because their cancel failed. A
    reconcile that cannot read the status changes nothing.
  */
  datatype Round =
    | Reconcile(want: set<Key>, cancels: Key -> bool, schedules: Key -> bool)
    | Disabled(fails: set<Key>)

  function After(o: Owned, r: Round): Owned {
    match r
    case Reconcile(want, cancels, schedules) =>
      Owned(NextOwned(o.keys, o.failures, want, cancels, schedules), NextFailures(o.failures, o.keys - want, cancels))
    case Disabled(fails) => o.(keys := o.keys * fails)
  }

  function AfterAll(o: Owned, rounds: seq<Round>, n: nat): Owned
    requires n <= |rounds|
  {
    if n == 0 then o else After(AfterAll(o, rounds, n - 1), rounds[n - 1])
  }

  /** A reconcile as it runs is such a round. */
  lemma ReconcileIsARound(before: seq<WakeEvent>, failures: map<Key, nat>, desired: seq<WakeEvent>,
                          cancels: Key -> bool, schedules: Key -> bool, clock: Key -> int,
                          after: seq<WakeEvent>, failures': map<Key, nat>)
    requires Reconciled(before, failures, desired, cancels, schedules, clock, after, failures')
    ensures Owned(Keys(after), failures') ==
            After(Owned(Keys(before), failures), Reconcile(Keys(desired), cancels, schedules))
  {
  }

  /** And so is cancelling everything: what stays is a part of what was owned, and no count moves. */
  lemma CancelAllIsARound(events: seq<WakeEvent>, failures: map<Key, nat>, cancels: nat -> bool)
    ensures var left := Keys(Remaining(events, |events|, cancels));
            Owned(left, failures) == After(Owned(Keys(events), failures), Disabled(left))
  {
    RemainingIsPart(events, |events|, cancels);
    SubsetKeys(Remaining(events, |events|, cancels), events);
  }

  lemma {:induction false} RemainingIsPart(s: seq<WakeEvent>, n: nat, cancels: nat -> bool)
    requires n <= |s|
    ensures From(Remaining(s, n, cancels), s)
  {
    if n > 0 {
      RemainingIsPart(s, n - 1, cancels);
    }
  }

  /** A reconcile reaches the wanted set exactly when nothing is stuck and nothing fails to be scheduled. */
  lemma OneRoundSettlesIff(o: Owned, r: Round)
    requires r.Reconcile?
    ensures After(o, r).keys == r.want <==>
            (forall k :: k in o.keys - r.want ==> !Stuck(o.failures, k, r.cancels))
            && (forall k :: k in r.want - o.keys ==> r.schedules(k))
  {
  }

  ghost predicate SameWant(rounds: seq<Round>, want: set<Key>) {
    forall i :: 0 <= i < |rounds| ==>
      rounds[i].Reconcile? && rounds[i].want == want && forall k :: k in want ==> rounds[i].schedules(k)
  }

  /** What is still owned and not wanted has failed to cancel in every round so far. */
  lemma {:induction false} LeftoversHaveFailed(o: Owned, rounds: seq<Round>, n: nat, want: set<Key>, k: Key)
    requires n <= |rounds| && SameWant(rounds, want) && k !in want && k in AfterAll(o, rounds, n).keys
    ensures k in o.keys
    ensures n > 0 ==> n <= Count(AfterAll(o, rounds, n).failures, k) < MAX_CANCEL_FAILURES
    ensures forall i :: 0 <= i < n ==> !rounds[i].cancels(k)
  {
    hide After, Stuck;
    if n > 0 {
      OneLeftover(AfterAll(o, rounds, n - 1), rounds[n - 1], k);
      LeftoversHaveFailed(o, rounds, n - 1, want, k);
    }
  }

  lemma OneLeftover(o: Owned, r: Round, k: Key)
    requires r.Reconcile? && k !in r.want && k in After(o, r).keys
    ensures k in o.keys && Stuck(o.failures, k, r.cancels)
    ensures Count(After(o, r).failures, k) == Count(o.failures, k) + 1
  {
  }

  lemma {:induction false} WantedIsOwned(o: Owned, rounds: seq<Round>, n: nat, want: set<Key>)
    requires 0 < n <= |rounds| && SameWant(rounds, want)
    ensures want <= AfterAll(o, rounds, n).keys
  {
    if n > 1 {
      WantedIsOwned(o, rounds, n - 1, want);
    }
    var r := rounds[n - 1];
    forall k | k in want ensures k in AfterAll(o, rounds, n).keys {
      assert r.want == want && r.schedules(k);
    }
  }

  /** However cancels fail, three reconciles make the owned set the wanted one, and it stays so. */
  lemma ThreeRoundsSettle(o: Owned, rounds: seq<Round>, n: nat, want: set<Key>)
    requires MAX_CANCEL_FAILURES <= n <= |rounds| && SameWant(rounds, want)
    ensures AfterAll(o, rounds, n).keys == want
  {
    WantedIsOwned(o, rounds, n, want);
    forall k | k in AfterAll(o, rounds, n).keys ensures k in want {
      if k !in want {
        LeftoversHaveFailed(o, rounds, n, want, k);
      }
    }
  }

  /** A round in which k is unwanted and its cancel fails. */
  function Failing(k: Key): Round { Reconcile({}, (x: Key) => false, (x: Key) => true) }

  lemma FailingReads(o: Owned, k: Key)
    requires o.keys == {k}
    ensures var n := Count(o.failures, k) + 1;
            After(o, Failing(k)).keys == (if n < MAX_CANCEL_FAILURES then {k} else {})
            && Count(After(o, Failing(k)).failures, k) == if n < MAX_CANCEL_FAILURES then n else 0
  {
    if Count(o.failures, k) + 1 < MAX_CANCEL_FAILURES {
      assert StuckAmong({k}, o.failures, Failing(k).cancels) == {k};
    } else {
      assert StuckAmong({k}, o.failures, Failing(k).cancels) == {};
    }
  }

  /** Two need not. */
  lemma TwoRoundsNeedNotSettle(k: Key)
    ensures AfterAll(Owned({k}, map[]), [Failing(k), Failing(k)], 2).keys == {k}
  {
    var rounds, o := [Failing(k), Failing(k)], Owned({k}, map[]);
    assert AfterAll(o, rounds, 0) == o;
    FailingReads(o, k);
    FailingReads(AfterAll(o, rounds, 1), k);
  }

  /** Nothing is ever owned that was not owned at first or wanted at some point. */
  lemma {:induction false} OwnsOnlyItsOwn(o: Owned, rounds: seq<Round>, n: nat, k: Key)
    requires n <= |rounds| && k in AfterAll(o, rounds, n).keys
    ensures k in o.keys || exists i :: 0 <= i < n && rounds[i].Reconcile? && k in rounds[i].want
  {
    if n > 0 {
      if k in AfterAll(o, rounds, n - 1).keys {
        OwnsOnlyItsOwn(o, rounds, n - 1, k);
      } else {
        assert rounds[n - 1].Reconcile? && k in rounds[n - 1].want;
      }
    }
  }

  // ---- when an entry is given up ----

  /** A reconcile that owns k and does not want it tries to cancel it. */
  predicate Tried(o: Owned, r: Round, k: Key) { r.Reconcile? && k in o.keys && k !in r.want }

  /** The outcomes of all reconcile cancels of k, in order. */
  function Attempts(o: Owned, rounds: seq<Round>, n: nat, k: Key): seq<bool>
    requires n <= |rounds|
  {
    if n == 0 then [] else
      Attempts(o, rounds, n - 1, k) +
      (if Tried(AfterAll(o, rounds, n - 1), rounds[n - 1], k) then [rounds[n - 1].cancels(k)] else [])
  }

  /** How many failures the outcomes end with. */
  function Trailing(outcomes: seq<bool>): nat {
    if outcomes == [] || outcomes[|outcomes| - 1] then 0 else Trailing(outcomes[..|outcomes| - 1]) + 1
  }

  lemma TrailingSnoc(outcomes: seq<bool>, ok: bool)
    ensures Trailing(outcomes + [ok]) == if ok then 0 else Trailing(outcomes) + 1
  {
    assert (outcomes + [ok])[..|outcomes|] == outcomes;
  }

  lemma CountStep(o: Owned, r: Round, k: Key)
    ensures Count(After(o, r).failures, k) ==
            if !Tried(o, r, k) then Count(o.failures, k)
            else if Stuck(o.failures, k, r.cancels) then Count(o.failures, k) + 1 else 0
    ensures Tried(o, r, k) ==> (k in After(o, r).keys <==> Stuck(o.failures, k, r.cancels))
  {
  }

  lemma AttemptCounts(o: Owned, r: Round, k: Key, outcomes: seq<bool>)
    requires Count(o.failures, k) == Trailing(outcomes) % MAX_CANCEL_FAILURES
    ensures Count(After(o, r).failures, k) ==
            Trailing(outcomes + (if Tried(o, r, k) then [r.cancels(k)] else [])) % MAX_CANCEL_FAILURES
  {
    CountStep(o, r, k);
    if Tried(o, r, k) {
      TrailingSnoc(outcomes, r.cancels(k));
    } else {
      assert outcomes + [] == outcomes;
    }
  }

  /**
    From process start on, the failure count of a key is the number of failures its reconcile
    cancels end with, less the threes at which it was given up. Neither being wanted nor
    being cancelled while disabled resets it.
  */
  lemma {:induction false} CountReads(o: Owned, rounds: seq<Round>, n: nat, k: Key)
    requires n <= |rounds| && o.failures == map[]
    ensures Count(AfterAll(o, rounds, n).failures, k) == Trailing(Attempts(o, rounds, n, k)) % MAX_CANCEL_FAILURES
  {
    if n > 0 {
      CountReads(o, rounds, n - 1, k);
      AttemptCounts(AfterAll(o, rounds, n - 1), rounds[n - 1], k, Attempts(o, rounds, n - 1, k));
    }
  }

  /** An entry whose cancel fails is given up exactly when it is the third, sixth, ... failure in a row. */
  lemma GivenUpIff(o: Owned, rounds: seq<Round>, n: nat, k: Key)
    requires n < |rounds| && o.failures == map[]
    requires Tried(AfterAll(o, rounds, n), rounds[n], k) && !rounds[n].cancels(k)
    ensures k !in AfterAll(o, rounds, n + 1).keys <==>
            Trailing(Attempts(o, rounds, n + 1, k)) % MAX_CANCEL_FAILURES == 0
  {
    CountReads(o, rounds, n, k);
    GivenUpNow(AfterAll(o, rounds, n), rounds[n], k, Attempts(o, rounds, n, k));
  }

  lemma GivenUpNow(o: Owned, r: Round, k: Key, outcomes: seq<bool>)
    requires Count(o.failures, k) == Trailing(outcomes) % MAX_CANCEL_FAILURES && Tried(o, r, k) && !r.cancels(k)
    ensures k !in After(o, r).keys <==> Trailing(outcomes + [r.cancels(k)]) % MAX_CANCEL_FAILURES == 0
  {
    CountStep(o, r, k);
    TrailingSnoc(outcomes, false);
  }

  /**
    Over every run of rounds: a key is owned after a reconcile exactly if it was and is wanted, or is not
    wanted and its cancel failed, but not for the third, sixth, ... time in a row, or is wanted and new and
    could be scheduled; and while disabled exactly if it was and its cancel failed.
  */
  lemma OwnedIff(o: Owned, rounds: seq<Round>, n: nat, k: Key)
    requires n < |rounds| && o.failures == map[]
    ensures var was, r := k in AfterAll(o, rounds, n).keys, rounds[n];
            k in AfterAll(o, rounds, n + 1).keys <==>
              if r.Disabled? then was && k in r.fails
              else if was && k in r.want then true
              else if was then !r.cancels(k) && Trailing(Attempts(o, rounds, n + 1, k)) % 3 != 0
              else k in r.want && r.schedules(k)
  {
    if Tried(AfterAll(o, rounds, n), rounds[n], k) {
      if rounds[n].cancels(k) {
        CountStep(AfterAll(o, rounds, n), rounds[n], k);
      } else {
        GivenUpIff(o, rounds, n, k);
      }
    }
  }

  /** Owned after every one of rounds lo..hi. */
  ghost predicate Held(o: Owned, rounds: seq<Round>, lo: nat, hi: nat, k: Key) {
    hi <= |rounds| && forall i :: lo <= i <= hi ==> k in AfterAll(o, rounds, i).keys
  }

  lemma KeptCounts(o: Owned, r: Round, k: Key)
    requires k in o.keys && k in After(o, r).keys
    ensures Count(After(o, r).failures, k) == Count(o.failures, k) + if Tried(o, r, k) then 1 else 0
  {
    CountStep(o, r, k);
  }

  lemma {:induction false} HeldCounts(o: Owned, rounds: seq<Round>, lo: nat, hi: nat, k: Key)
    requires lo <= hi && Held(o, rounds, lo, hi, k)
    ensures Count(AfterAll(o, rounds, hi).failures, k) ==
            Count(AfterAll(o, rounds, lo).failures, k) + |Attempts(o, rounds, hi, k)| - |Attempts(o, rounds, lo, k)|
    decreases hi
  {
    hide After, Count, Tried;
    if lo < hi {
      HeldCounts(o, rounds, lo, hi - 1, k);
      assert k in AfterAll(o, rounds, hi).keys;
      KeptCounts(AfterAll(o, rounds, hi - 1), rounds[hi - 1], k);
    }
  }

  /**
    An entry owned since round `lo` and given up in round n has failed three times since
    then, less what its count had left over from an earlier time it was owned.
  */
  lemma GivenUpAfter(o: Owned, rounds: seq<Round>, lo: nat, n: nat, k: Key)
    requires lo <= n < |rounds| && o.failures == map[] && Held(o, rounds, lo, n, k)
    requires Tried(AfterAll(o, rounds, n), rounds[n], k) && !rounds[n].cancels(k)
          && k !in AfterAll(o, rounds, n + 1).keys
    ensures |Attempts(o, rounds, n + 1, k)| - |Attempts(o, rounds, lo, k)|
         == MAX_CANCEL_FAILURES - Trailing(Attempts(o, rounds, lo, k)) % MAX_CANCEL_FAILURES
  {
    CountReads(o, rounds, lo, k);
    CountReads(o, rounds, n, k);
    HeldCounts(o, rounds, lo, n, k);
    CountStep(AfterAll(o, rounds, n), rounds[n], k);
  }

  /** No disabled round has cancelled k. */
  ghost predicate NeverCleared(o: Owned, rounds: seq<Round>, n: nat, k: Key) {
    n <= |rounds| &&
    forall i :: 0 <= i < n && rounds[i].Disabled? && k in AfterAll(o, rounds, i).keys ==> k in rounds[i].fails
  }

  lemma {:induction false} NothingLeftOver(o: Owned, rounds: seq<Round>, n: nat, k: Key)
    requires o.failures == map[] && NeverCleared(o, rounds, n, k) && k !in AfterAll(o, rounds, n).keys
    ensures Count(AfterAll(o, rounds, n).failures, k) == 0
  {
    if n > 0 {
      var before := AfterAll(o, rounds, n - 1);
      CountStep(before, rounds[n - 1], k);
      if k !in before.keys {
        NothingLeftOver(o, rounds, n - 1, k);
      } else {
        assert rounds[n - 1].Reconcile?;
      }
    }
  }

  /**
    So, never cancelled while disabled, an entry is given up after exactly three failures since it
    came to be owned.
  */
  lemma ThreeFailuresUnlessCleared(o: Owned, rounds: seq<Round>, lo: nat, n: nat, k: Key)
    requires 0 < lo <= n < |rounds| && o.failures == map[] && Held(o, rounds, lo, n, k)
    requires k !in AfterAll(o, rounds, lo - 1).keys && NeverCleared(o, rounds, lo, k)
    requires Tried(AfterAll(o, rounds, n), rounds[n], k) && !rounds[n].cancels(k)
          && k !in AfterAll(o, rounds, n + 1).keys
    ensures |Attempts(o, rounds, n + 1, k)| - |Attempts(o, rounds, lo, k)| == MAX_CANCEL_FAILURES
  {
    hide After, Trailing;
    NothingLeftOver(o, rounds, lo - 1, k);
    CountStep(AfterAll(o, rounds, lo - 1), rounds[lo - 1], k);
    CountReads(o, rounds, lo, k);
    GivenUpAfter(o, rounds, lo, n, k);
  }

  /** Two failures, cancelled while disabled, wanted again: then the first failure gives the entry up. */
  lemma ClearedEntryIsGivenUpAtOnce(k: Key)
    ensures var rounds := [Failing(k), Failing(k), Disabled({}), Reconcile({k}, x => true, x => true), Failing(k)];
            var o := Owned({k}, map[]);
            && AfterAll(o, rounds, 3).keys == {} && AfterAll(o, rounds, 4).keys == {k}
            && Tried(AfterAll(o, rounds, 4), rounds[4], k) && AfterAll(o, rounds, 5).keys == {}
  {
    hide NextOwned, NextFailures;
    var rounds := [Failing(k), Failing(k), Disabled({}), Reconcile({k}, (x: Key) => true, (x: Key) => true),
        Failing(k)];
    var o := Owned({k}, map[]);
    assert AfterAll(o, rounds, 0) == o;
    FailingReads(o, k);
    FailingReads(AfterAll(o, rounds, 1), k);
    var two := AfterAll(o, rounds, 2);
    assert two.keys == {k} && Count(two.failures, k) == 2;
    WantedAgain(two, k);
    assert AfterAll(o, rounds, 4) == After(AfterAll(o, rounds, 3), rounds[3]);
    FailingReads(AfterAll(o, rounds, 4), k);
  }

  lemma WantedAgain(o: Owned, k: Key)
    ensures var off := After(o, Disabled({}));
            var on := After(off, Reconcile({k}, x => true, x => true));
            off.keys == {} && on.keys == {k} && Count(on.failures, k) == Count(o.failures, k)
  {
    var off := After(o, Disabled({}));
    var r := Reconcile({k}, (x: Key) => true, (x: Key) => true);
    assert ScheduledAmong({k} - {}, r.schedules) == {k};
    CountStep(off, r, k);
  }

  // ---- the wakes wanted ----

  /** next_run of a job: empty or a pseudo-state, text that is no time, or a firing time. */
  datatype NextRun = Idle | Unparsable | Fires(at: int)

  datatype JobStatus = JobStatus(name: string, enabled: bool, next: NextRun)

  const DEFAULT_EVENTS := 16
  const MOST_EVENTS := 32
  const DEFAULT_LEAD := 60_000_000_000

  function LeadDuration(seconds: int): int { if seconds <= 0 then DEFAULT_LEAD else seconds * 1_000_000_000 }

  function MaxEventsValue(configured: int): int {
    if configured <= 0 then DEFAULT_EVENTS else if configured > MOST_EVENTS then MOST_EVENTS else configured
  }

  predicate Eligible(j: JobStatus, lead: int, now: int) {
    j.enabled && j.next.Fires? && j.next.at - lead > now
  }

  function WakeFor(j: JobStatus, lead: int): WakeEvent
    requires j.next.Fires?
  {
    WakeEvent(j.name, j.next.at - lead, j.next.at, 0)
  }

  /** The wakes of the eligible jobs, in the order of the jobs. */
  function Wakes(jobs: seq<JobStatus>, lead: int, now: int): seq<WakeEvent> {
    if jobs == [] then [] else
      var j := jobs[|jobs| - 1];
      Wakes(jobs[..|jobs| - 1], lead, now) + (if Eligible(j, lead, now) then [WakeFor(j, lead)] else [])
  }

  /** The wake is in the future, lead before the firing of this enabled job. */
  predicate WakesFor(j: JobStatus, lead: int, now: int, e: WakeEvent) {
    && j.enabled && j.next.Fires? && e.job == j.name && e.fireAt == j.next.at
    && e.wakeAt == e.fireAt - lead && e.wakeAt > now && e.scheduledAt == 0
  }

  /** Every wake is in the future, lead before the firing of an enabled job; and every such job has one. */
  lemma {:induction false} WakesRead(jobs: seq<JobStatus>, lead: int, now: int, e: WakeEvent)
    ensures e in Wakes(jobs, lead, now) <==> exists i :: 0 <= i < |jobs| && WakesFor(jobs[i], lead, now, e)
  {
    if jobs != [] {
      var n := |jobs| - 1;
      WakesRead(jobs[..n], lead, now, e);
      assert forall i :: 0 <= i < n ==> jobs[..n][i] == jobs[i];
      WakesForIff(jobs[n], lead, now, e);
      hide WakesFor, Eligible;
    }
  }

  lemma WakesForIff(j: JobStatus, lead: int, now: int, e: WakeEvent)
    ensures WakesFor(j, lead, now, e) <==> Eligible(j, lead, now) && e == WakeFor(j, lead)
  {
  }

  /** Settings that are out of range: a minute's lead, sixteen wakes, never more than thirty-two. */
  lemma SettingsRead(configured: int)
    ensures LeadDuration(configured) > 0 && (configured > 0 ==> LeadDuration(configured) == configured * 1_000_000_000)
    ensures configured <= 0 ==> LeadDuration(configured) == 60 * 1_000_000_000 && MaxEventsValue(configured) == 16
    ensures 1 <= configured <= 32 ==> MaxEventsValue(configured) == configured
    ensures configured > 32 ==> MaxEventsValue(configured) == 32
  {
  }

  /** desiredWakeSet: the soonest of the eligible wakes, in order, as many as are allowed. */
  method DesiredWakeSet(jobs: seq<JobStatus>, leadSeconds: int, maxEvents: int, now: int)
    returns (out: seq<WakeEvent>, ghost cut: seq<WakeEvent>)
    ensures Ordered(out) && |out| <= MaxEventsValue(maxEvents)
    ensures multiset(out) + multiset(cut) == multiset(Wakes(jobs, LeadDuration(leadSeconds), now))
    ensures cut != [] ==> |out| == MaxEventsValue(maxEvents)
    ensures forall i, j :: 0 <= i < |out| && 0 <= j < |cut| ==> out[i].wakeAt <= cut[j].wakeAt
  {
    var lead := LeadDuration(leadSeconds);
    out := [];
    var k := 0;
    while k < |jobs|
      invariant k <= |jobs| && out == Wakes(jobs[..k], lead, now)
    {
      assert jobs[..k + 1][..k] == jobs[..k];
      var j := jobs[k];
      if j.enabled && j.next.Fires? {
        var wakeAt := j.next.at - lead;
        if wakeAt > now {
          out := out + [WakeEvent(j.name, wakeAt, j.next.at, 0)];
        }
      }
      k := k + 1;
    }
    assert jobs[..k] == jobs;
    out := SortByWakeAt(out);
    cut := [];
    var most := MaxEventsValue(maxEvents);
    if |out| > most {
      assert out == out[..most] + out[most..];
      cut := out[most..];
      out := out[..most];
    }
  }
}
