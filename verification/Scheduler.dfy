/**
  Hot reload of the job schedule (internal/scheduler/scheduler.go). The cron engine is a
  table from fresh ids to what they fire; which expressions it accepts, and which jobs have
  a run record, are parameters. The job hash is taken to be injective: it stands for the
  expression it is computed from.
*/
module Scheduler {

  /** `spec` is everything about a job the hash leaves out: prompt, folder, timeout and so on. */
  datatype Job = Job(name: string, enabled: bool, expr: string, spec: nat)

  predicate OneOff(j: Job) { j.expr == "" }

  /** What the handler is given: a job and the config it came with, of which jobs apart only the settings matter. */
  datatype Firing = Firing(settings: nat, job: Job)

  datatype Entry = Entry(id: nat, hash: string)

  /** `live` is the cron table: what each id fires. `fired` lists what reloads fired at once. */
  datatype Table = Table(entries: map<string, Entry>, oneOffFired: set<string>,
                         live: map<nat, Firing>, nextId: nat, fired: seq<Firing>)

  const EMPTY := Table(map[], {}, map[], 0, [])

  /** A config, with what the world says when it is loaded. */
  datatype Load = Load(settings: nat, jobs: seq<Job>, hasFired: string -> bool)

  function AddOrReplace(t: Table, c: Firing, valid: string -> bool): Table {
    var j := c.job;
    var live := if j.name in t.entries then t.live - {t.entries[j.name].id} else t.live;
    if !valid(j.expr) then t.(live := live)
    else t.(live := live[t.nextId := c], entries := t.entries[j.name := Entry(t.nextId, j.expr)],
            nextId := t.nextId + 1)
  }

  function LoadJob(t: Table, c: Firing, valid: string -> bool, hasFired: string -> bool): Table {
    var j := c.job;
    if !j.enabled then t
    else if OneOff(j) then
      if j.name !in t.oneOffFired && !hasFired(j.name) then
        t.(oneOffFired := t.oneOffFired + {j.name}, fired := t.fired + [c])
      else t
    else if j.name in t.entries && t.entries[j.name].hash == j.expr then t
    else AddOrReplace(t, c, valid)
  }

  /** The i-th job of a config as the handler would be given it. */
  function Configured(l: Load, i: nat): Firing
    requires i < |l.jobs|
  {
    Firing(l.settings, l.jobs[i])
  }

  function LoadJobs(t: Table, l: Load, n: nat, valid: string -> bool): Table
    requires n <= |l.jobs|
  {
    if n == 0 then t else LoadJob(LoadJobs(t, l, n - 1, valid), Configured(l, n - 1), valid, l.hasFired)
  }

  function Enabled(jobs: seq<Job>, n: nat): set<string>
    requires n <= |jobs|
  {
    if n == 0 then {} else Enabled(jobs, n - 1) + (if jobs[n - 1].enabled then {jobs[n - 1].name} else {})
  }

  /** The cron ids of the entries with these names. */
  function IdsOf(t: Table, names: set<string>): set<nat> {
    set n | n in names && n in t.entries :: t.entries[n].id
  }

  /** The entries with these names, and what they held in the cron table, are gone. */
  function Without(t: Table, names: set<string>): Table {
    t.(entries := t.entries - names, live := t.live - IdsOf(t, names))
  }

  function Reloaded(t: Table, l: Load, valid: string -> bool): Table {
    var u := LoadJobs(t, l, |l.jobs|, valid);
    Without(u, u.entries.Keys - Enabled(l.jobs, |l.jobs|))
  }

  lemma WithoutOne(t: Table, names: set<string>, n: string)
    requires n !in names && n in t.entries
    ensures Without(t, names).entries == t.entries - names && n in Without(t, names).entries
    ensures Without(t, names + {n}) ==
            var w := Without(t, names);
            w.(entries := w.entries - {n}, live := w.live - {t.entries[n].id})
  {
    assert IdsOf(t, names + {n}) == IdsOf(t, names) + {t.entries[n].id};
  }

  class Scheduler {
    var entries: map<string, Entry>
    var oneOffFired: set<string>
    var live: map<nat, Firing>
    var nextId: nat
    var fired: seq<Firing>

    function View(): Table
      reads this
    {
      Table(entries, oneOffFired, live, nextId, fired)
    }

    constructor ()
      ensures View() == EMPTY
    {
      entries, oneOffFired, live, nextId, fired := map[], {}, map[], 0, [];
    }

    method Remove(id: nat)
      modifies this`live
      ensures live == old(live) - {id}
    {
      live := live - {id};
    }

    /** Registers what is to be fired, if the engine accepts its expression. */
    method AddFunc(c: Firing, valid: string -> bool) returns (id: nat, ok: bool)
      modifies this`live, this`nextId
      ensures ok <==> valid(c.job.expr)
      ensures ok ==> id == old(nextId) && nextId == id + 1 && live == old(live)[id := c]
      ensures !ok ==> nextId == old(nextId) && live == old(live)
    {
      id, ok := nextId, valid(c.job.expr);
      if ok {
        live, nextId := live[id := c], id + 1;
      }
    }

    method LoadOne(c: Firing, valid: string -> bool, hasFired: string -> bool)
      modifies this
      ensures View() == LoadJob(old(View()), c, valid, hasFired)
    {
      var j := c.job;
      if !j.enabled {
        return;
      }
      if OneOff(j) {
        if j.name !in oneOffFired && !hasFired(j.name) {
          oneOffFired, fired := oneOffFired + {j.name}, fired + [c];
        }
        return;
      }
      if j.name in entries && entries[j.name].hash == j.expr {
        return;
      }
      if j.name in entries {
        Remove(entries[j.name].id);
      }
      var id, ok := AddFunc(c, valid);
      if ok {
        entries := entries[j.name := Entry(id, j.expr)];
      }
    }

    method Reload(l: Load, valid: string -> bool)
      modifies this
      ensures View() == Reloaded(old(View()), l, valid)
    {
      ghost var was := View();
      var next: set<string> := {};
      var k := 0;
      while k < |l.jobs|
        invariant k <= |l.jobs| && View() == LoadJobs(was, l, k, valid)
        invariant next == Enabled(l.jobs, k)
      {
        if l.jobs[k].enabled {
          next := next + {l.jobs[k].name};
        }
        LoadOne(Firing(l.settings, l.jobs[k]), valid, l.hasFired);
        k := k + 1;
      }
      RemoveAbsent(next);
    }

    /** Ranging over a map in any order while deleting from it. */
    method RemoveAbsent(next: set<string>)
      modifies this
      ensures View() == Without(old(View()), old(entries).Keys - next)
    {
      ghost var was := View();
      var rest := entries.Keys;
      ghost var gone: set<string> := {};
      assert IdsOf(was, gone) == {};
      while rest != {}
        invariant rest <= was.entries.Keys && gone == was.entries.Keys - rest - next
        invariant View() == Without(was, gone)
        decreases rest
      {
        var name :| name in rest;
        rest := rest - {name};
        WithoutOne(was, gone, name);
        if name !in next {
          Remove(entries[name].id);
          entries := entries - {name};
          gone := gone + {name};
        }
      }
    }
  }

  // ---- over any sequence of reloads ----

  function ReloadedAll(loads: seq<Load>, n: nat, valid: string -> bool): Table
    requires n <= |loads|
  {
    if n == 0 then EMPTY else Reloaded(ReloadedAll(loads, n - 1, valid), loads[n - 1], valid)
  }

  /** Nothing leaks: every live id is the one its job's entry holds, and none is doubled. */
  ghost predicate NoLeak(t: Table) { IdsOk(t.entries, t.nextId) && LiveOk(t.entries, t.live) }

  ghost predicate IdsOk(entries: map<string, Entry>, nextId: nat) {
    && (forall n :: n in entries ==> entries[n].id < nextId)
    && (forall n, m :: n in entries && m in entries && entries[n].id == entries[m].id ==> n == m)
  }

  ghost predicate LiveOk(entries: map<string, Entry>, live: map<nat, Firing>) {
    forall id :: id in live ==>
      var j := live[id].job;
      j.name in entries && entries[j.name] == Entry(id, j.expr)
  }

  /** And every entry is live. */
  ghost predicate AllLive(t: Table) {
    forall n :: n in t.entries ==> t.entries[n].id in t.live && t.live[t.entries[n].id].job.name == n
  }

  /** These were fired, once under each of these names. */
  ghost predicate FiredOnce(fired: seq<Firing>, names: set<string>) {
    && (forall i, j :: 0 <= i < j < |fired| ==> fired[i].job.name != fired[j].job.name)
    && (forall i :: 0 <= i < |fired| ==> fired[i].job.name in names)
    && (forall n :: n in names ==> exists i :: 0 <= i < |fired| && fired[i].job.name == n)
  }

  ghost predicate OneOffsOk(t: Table) { FiredOnce(t.fired, t.oneOffFired) }

  ghost predicate Acceptable(l: Load, valid: string -> bool) {
    forall i :: 0 <= i < |l.jobs| && !OneOff(l.jobs[i]) ==> valid(l.jobs[i].expr)
  }

  lemma AddKeepsNoLeak(t: Table, c: Firing, valid: string -> bool)
    requires NoLeak(t)
    ensures NoLeak(AddOrReplace(t, c, valid))
  {
    var name := c.job.name;
    var live := if name in t.entries then t.live - {t.entries[name].id} else t.live;
    assert LiveOk(t.entries, live);
    AddKeepsIds(t.entries, t.nextId, c);
    AddKeepsLive(t.entries, live, t.nextId, c);
    hide IdsOk, LiveOk;
  }

  lemma AddKeepsIds(entries: map<string, Entry>, nextId: nat, c: Firing)
    requires IdsOk(entries, nextId)
    ensures IdsOk(entries[c.job.name := Entry(nextId, c.job.expr)], nextId + 1)
  {
  }

  lemma AddKeepsLive(entries: map<string, Entry>, live: map<nat, Firing>, nextId: nat, c: Firing)
    requires LiveOk(entries, live) && (c.job.name in entries ==> entries[c.job.name].id !in live)
    ensures LiveOk(entries[c.job.name := Entry(nextId, c.job.expr)], live[nextId := c])
  {
  }

  lemma AddKeepsAllLive(t: Table, c: Firing, valid: string -> bool)
    requires NoLeak(t) && AllLive(t) && valid(c.job.expr)
    ensures AllLive(AddOrReplace(t, c, valid))
  {
  }

  lemma WithoutKeeps(t: Table, names: set<string>)
    requires NoLeak(t)
    ensures NoLeak(Without(t, names))
    ensures AllLive(t) ==> AllLive(Without(t, names))
  {
    var w := Without(t, names);
    forall id | id in w.live ensures w.live[id].job.name in w.entries {
      assert t.entries[t.live[id].job.name].id == id;
    }
  }

  lemma {:induction false} LoadJobsKeep(t: Table, l: Load, n: nat, valid: string -> bool)
    requires NoLeak(t) && n <= |l.jobs|
    ensures NoLeak(LoadJobs(t, l, n, valid))
    ensures AllLive(t) && Acceptable(l, valid) ==> AllLive(LoadJobs(t, l, n, valid))
  {
    if n > 0 {
      LoadJobsKeep(t, l, n - 1, valid);
      var u, c := LoadJobs(t, l, n - 1, valid), Configured(l, n - 1);
      AddKeepsNoLeak(u, c, valid);
      if AllLive(t) && Acceptable(l, valid) && !OneOff(c.job) {
        AddKeepsAllLive(u, c, valid);
      }
    }
  }

  /**
    Over every sequence of reloads the live cron ids are ids held in entries, none twice; if
    every expression is accepted they are exactly those ids.
  */
  lemma {:induction false} LiveIdsAreEntries(loads: seq<Load>, n: nat, valid: string -> bool)
    requires n <= |loads|
    ensures NoLeak(ReloadedAll(loads, n, valid))
    ensures (forall i :: 0 <= i < n ==> Acceptable(loads[i], valid)) ==> AllLive(ReloadedAll(loads, n, valid))
  {
    if n > 0 {
      LiveIdsAreEntries(loads, n - 1, valid);
      var t, l := ReloadedAll(loads, n - 1, valid), loads[n - 1];
      LoadJobsKeep(t, l, |l.jobs|, valid);
      var u := LoadJobs(t, l, |l.jobs|, valid);
      WithoutKeeps(u, u.entries.Keys - Enabled(l.jobs, |l.jobs|));
    }
  }

  // ---- what one reload does, job by job ----

  ghost predicate DistinctNames(jobs: seq<Job>) {
    forall i, j :: 0 <= i < j < |jobs| ==> jobs[i].name != jobs[j].name
  }

  /** The same entry under a name, firing the same thing. */
  predicate SameAt(t: Table, u: Table, name: string) {
    && (name in t.entries <==> name in u.entries)
    && (name in t.entries ==>
          var e := t.entries[name];
          && u.entries[name] == e
          && (e.id in t.live <==> e.id in u.live)
          && (e.id in t.live ==> t.live[e.id] == u.live[e.id]))
  }

  lemma OtherJob(t: Table, c: Firing, valid: string -> bool, hasFired: string -> bool, name: string)
    requires NoLeak(t) && name != c.job.name
    ensures SameAt(t, LoadJob(t, c, valid, hasFired), name)
  {
  }

  lemma {:induction false} OtherJobs(t: Table, l: Load, lo: nat, hi: nat, valid: string -> bool, name: string)
    requires NoLeak(t) && lo <= hi <= |l.jobs| && forall k :: lo <= k < hi ==> l.jobs[k].name != name
    ensures SameAt(LoadJobs(t, l, lo, valid), LoadJobs(t, l, hi, valid), name)
  {
    if lo < hi {
      OtherJobs(t, l, lo, hi - 1, valid, name);
      LoadJobsKeep(t, l, hi - 1, valid);
      OtherJob(LoadJobs(t, l, hi - 1, valid), Configured(l, hi - 1), valid, l.hasFired, name);
    }
  }

  /** Only the job itself touches what is held under its name. */
  lemma OnlyItsJob(t: Table, l: Load, i: nat, valid: string -> bool) returns (before: Table)
    requires NoLeak(t) && DistinctNames(l.jobs) && i < |l.jobs|
    ensures SameAt(t, before, l.jobs[i].name) && NoLeak(before)
    ensures SameAt(LoadJob(before, Configured(l, i), valid, l.hasFired), LoadJobs(t, l, |l.jobs|, valid),
        l.jobs[i].name)
  {
    before := LoadJobs(t, l, i, valid);
    OtherJobs(t, l, 0, i, valid, l.jobs[i].name);
    OtherJobs(t, l, i + 1, |l.jobs|, valid, l.jobs[i].name);
    LoadJobsKeep(t, l, i, valid);
  }

  lemma {:induction false} EnabledReads(jobs: seq<Job>, n: nat, name: string)
    requires n <= |jobs|
    ensures name in Enabled(jobs, n) <==> exists i :: 0 <= i < n && jobs[i].enabled && jobs[i].name == name
  {
    if n > 0 {
      EnabledReads(jobs, n - 1, name);
    }
  }

  lemma WithoutOthers(t: Table, names: set<string>, name: string)
    requires NoLeak(t) && name !in names
    ensures SameAt(t, Without(t, names), name)
  {
  }

  lemma EnabledAt(jobs: seq<Job>, i: nat)
    requires DistinctNames(jobs) && i < |jobs|
    ensures jobs[i].name in Enabled(jobs, |jobs|) <==> jobs[i].enabled
  {
    hide Enabled;
    EnabledReads(jobs, |jobs|, jobs[i].name);
  }

  /**
    After a reload a disabled job has no entry; an enabled scheduled one has an entry by its
    current expression; an enabled one-off has whatever its name held before.
  */
  lemma ReloadReads(t: Table, l: Load, i: nat, valid: string -> bool)
    requires NoLeak(t) && AllLive(t) && DistinctNames(l.jobs) && Acceptable(l, valid) && i < |l.jobs|
    ensures var j, u := l.jobs[i], Reloaded(t, l, valid);
            && (!j.enabled ==> j.name !in u.entries)
            && (j.enabled && OneOff(j) ==> SameAt(t, u, j.name))
            && (j.enabled && !OneOff(j) ==>
                  var same := j.name in t.entries && t.entries[j.name].hash == j.expr;
                  && j.name in u.entries && u.entries[j.name].hash == j.expr && u.entries[j.name].id in u.live
                  && u.live[u.entries[j.name].id] == if same then t.live[t.entries[j.name].id] else Configured(l, i))
  {
    var j, u := l.jobs[i], LoadJobs(t, l, |l.jobs|, valid);
    var before := OnlyItsJob(t, l, i, valid);
    LoadJobsKeep(t, l, |l.jobs|, valid);
    EnabledAt(l.jobs, i);
    if j.enabled {
      WithoutOthers(u, u.entries.Keys - Enabled(l.jobs, |l.jobs|), j.name);
    }
  }

  /** Every entry names an enabled job. */
  lemma EntriesNameEnabledJobs(t: Table, l: Load, name: string, valid: string -> bool)
    requires name in Reloaded(t, l, valid).entries
    ensures exists i :: 0 <= i < |l.jobs| && l.jobs[i].enabled && l.jobs[i].name == name
  {
    EnabledReads(l.jobs, |l.jobs|, name);
  }

  /** There is an entry for the job, hashed from its current expression. */
  predicate Registered(t: Table, j: Job) { j.name in t.entries && t.entries[j.name].hash == j.expr }

  /**
    Of whatever a run takes from the job and the config it is fired with: a scheduled job fires with what
    is configured now exactly if its expression changed or what it fired before comes to the same. An edit
    of anything else, of the job or of the config's defaults, is not picked up.
  */
  lemma FiresAsConfiguredIff<R>(t: Table, l: Load, i: nat, valid: string -> bool, takes: Firing -> R)
    requires NoLeak(t) && AllLive(t) && DistinctNames(l.jobs) && Acceptable(l, valid) && i < |l.jobs|
    requires l.jobs[i].enabled && !OneOff(l.jobs[i])
    ensures var j, u := l.jobs[i], Reloaded(t, l, valid);
            j.name in u.entries && u.entries[j.name].id in u.live
            && (takes(u.live[u.entries[j.name].id]) == takes(Configured(l, i)) <==>
                  !Registered(t, j) || takes(t.live[t.entries[j.name].id]) == takes(Configured(l, i)))
  {
    ReloadReads(t, l, i, valid);
  }

  /** This load keeps an entry by that expression: an enabled job of the name has it, or is a one-off. */
  ghost predicate KeepsEntry(l: Load, name: string, expr: string) {
    exists i :: 0 <= i < |l.jobs| && l.jobs[i].enabled && l.jobs[i].name == name && l.jobs[i].expr in {"", expr}
  }

  ghost predicate WellFormed(loads: seq<Load>, n: nat, valid: string -> bool)
    requires n <= |loads|
  {
    forall k :: 0 <= k < n ==> DistinctNames(loads[k].jobs) && Acceptable(loads[k], valid)
  }

  /** Load k made the entry: it lists the job, for which there was no entry by that expression before. */
  ghost predicate MadeAt(loads: seq<Load>, k: nat, i: nat, name: string, valid: string -> bool)
    requires k < |loads|
  {
    && i < |loads[k].jobs|
    && var j := loads[k].jobs[i];
    j.name == name && j.enabled && !OneOff(j) && !Registered(ReloadedAll(loads, k, valid), j)
  }

  /** An entry is either made by the job of its name or stands as it was. */
  lemma EntryAfter(t: Table, l: Load, i: nat, valid: string -> bool)
    requires NoLeak(t) && AllLive(t) && DistinctNames(l.jobs) && Acceptable(l, valid) && i < |l.jobs|
    requires l.jobs[i].enabled && l.jobs[i].name in Reloaded(t, l, valid).entries
    ensures var j, u := l.jobs[i], Reloaded(t, l, valid);
            var e := u.entries[j.name];
            e.id in u.live
            && if !OneOff(j) && !Registered(t, j) then e.hash == j.expr && u.live[e.id] == Configured(l, i)
               else
                 && j.name in t.entries && t.entries[j.name].hash == e.hash && j.expr in {"", e.hash}
                 && t.entries[j.name].id in t.live && u.live[e.id] == t.live[t.entries[j.name].id]
  {
    ReloadReads(t, l, i, valid);
    hide Reloaded, NoLeak, Acceptable, DistinctNames;
  }

  /**
    Over any reloads: an entry fires the job of the load that made it, with that load's settings, and
    every load since has kept it, whatever else it changed.
  */
  lemma {:induction false} FiresWhatMadeIt(loads: seq<Load>, n: nat, name: string, valid: string -> bool)
      returns (k: nat, i: nat)
    requires n <= |loads| && WellFormed(loads, n, valid) && name in ReloadedAll(loads, n, valid).entries
    ensures k < n && MadeAt(loads, k, i, name, valid)
    ensures var e, t := ReloadedAll(loads, n, valid).entries[name], ReloadedAll(loads, n, valid);
            e.hash == loads[k].jobs[i].expr && e.id in t.live && t.live[e.id] == Configured(loads[k], i)
    ensures forall m :: k < m < n ==> KeepsEntry(loads[m], name, loads[k].jobs[i].expr)
  {
    hide Reloaded, NoLeak, AllLive, SameAt, Acceptable, DistinctNames;
    var l, before := loads[n - 1], ReloadedAll(loads, n - 1, valid);
    LiveIdsAreEntries(loads, n - 1, valid);
    EntriesNameEnabledJobs(before, l, name, valid);
    var p :| 0 <= p < |l.jobs| && l.jobs[p].enabled && l.jobs[p].name == name;
    EntryAfter(before, l, p, valid);
    if !OneOff(l.jobs[p]) && !Registered(before, l.jobs[p]) {
      k, i := n - 1, p;
      assert MadeAt(loads, k, i, name, valid);
    } else {
      k, i := FiresWhatMadeIt(loads, n - 1, name, valid);
      assert KeepsEntry(l, name, loads[k].jobs[i].expr);
    }
  }

  /** So an edited prompt, or edited defaults, on an unchanged schedule keep firing the old ones. */
  lemma EditedPromptKeepsFiring(name: string, expr: string, specs: (nat, nat), settings: (nat, nat),
                                valid: string -> bool, hasFired: string -> bool)
    requires expr != "" && valid(expr)
    ensures var a, b := Load(settings.0, [Job(name, true, expr, specs.0)], hasFired),
                        Load(settings.1, [Job(name, true, expr, specs.1)], hasFired);
            var t := ReloadedAll([a, b], 2, valid);
            name in t.entries && t.entries[name].id in t.live && t.live[t.entries[name].id] == Configured(a, 0)
  {
    TwoLoads(Load(settings.0, [Job(name, true, expr, specs.0)], hasFired),
             Load(settings.1, [Job(name, true, expr, specs.1)], hasFired), valid);
  }

  /** And a job that became a one-off keeps firing on its old schedule. */
  lemma BecomingOneOffKeepsFiring(name: string, expr: string, spec: nat, settings: (nat, nat),
                                  valid: string -> bool, hasFired: string -> bool)
    requires expr != "" && valid(expr)
    ensures var a, b := Load(settings.0, [Job(name, true, expr, spec)], hasFired),
                        Load(settings.1, [Job(name, true, "", spec)], hasFired);
            var t := ReloadedAll([a, b], 2, valid);
            name in t.entries && t.entries[name].id in t.live && t.live[t.entries[name].id] == Configured(a, 0)
  {
    TwoLoads(Load(settings.0, [Job(name, true, expr, spec)], hasFired),
             Load(settings.1, [Job(name, true, "", spec)], hasFired), valid);
  }

  lemma TwoLoads(a: Load, b: Load, valid: string -> bool)
    requires |a.jobs| == |b.jobs| == 1 && a.jobs[0].name == b.jobs[0].name && a.jobs[0].enabled && b.jobs[0].enabled
    requires !OneOff(a.jobs[0]) && valid(a.jobs[0].expr) && b.jobs[0].expr in {"", a.jobs[0].expr}
    ensures var t, j := ReloadedAll([a, b], 2, valid), a.jobs[0];
            j.name in t.entries && t.entries[j.name].id in t.live && t.live[t.entries[j.name].id] == Configured(a, 0)
  {
    var loads := [a, b];
    assert ReloadedAll(loads, 0, valid) == EMPTY;
    var t := ReloadedAll(loads, 1, valid);
    assert t == Reloaded(EMPTY, a, valid);
    ReloadReads(EMPTY, a, 0, valid);
    LiveIdsAreEntries(loads, 1, valid);
    ReloadReads(t, b, 0, valid);
  }

  /** The job fires by its current expression. */
  predicate Fires(t: Table, j: Job) {
    && j.name in t.entries && t.entries[j.name].id in t.live
    && var fired := t.live[t.entries[j.name].id].job;
    fired.name == j.name && fired.expr == j.expr
  }

  lemma LoadFiresIff(t: Table, c: Firing, valid: string -> bool, hasFired: string -> bool)
    requires NoLeak(t) && c.job.enabled && !OneOff(c.job)
    ensures var j, u := c.job, LoadJob(t, c, valid, hasFired);
            Fires(u, j) <==> if Registered(t, j) then t.entries[j.name].id in t.live else valid(j.expr)
  {
  }

  lemma SameFires(t: Table, u: Table, j: Job)
    requires SameAt(t, u, j.name)
    ensures Fires(t, j) <==> Fires(u, j)
    ensures Registered(t, j) <==> Registered(u, j)
  {
  }

  /**
    Whatever configs were loaded before: after a reload an enabled scheduled job fires by its
    current expression exactly if it did already, when its entry was hashed from that
    expression, and otherwise exactly if the engine accepts the expression.
  */
  lemma FiresIff(t: Table, l: Load, i: nat, valid: string -> bool)
    requires NoLeak(t) && DistinctNames(l.jobs) && i < |l.jobs| && l.jobs[i].enabled && !OneOff(l.jobs[i])
    ensures var j := l.jobs[i];
            Fires(Reloaded(t, l, valid), j) <==>
              if Registered(t, j) then t.entries[j.name].id in t.live else valid(j.expr)
  {
    var j, u := l.jobs[i], LoadJobs(t, l, |l.jobs|, valid);
    var before := OnlyItsJob(t, l, i, valid);
    LoadJobsKeep(t, l, |l.jobs|, valid);
    EnabledAt(l.jobs, i);
    WithoutOthers(u, u.entries.Keys - Enabled(l.jobs, |l.jobs|), j.name);
    SameFires(t, before, j);
    LoadFiresIff(before, Configured(l, i), valid, l.hasFired);
    SameFires(LoadJob(before, Configured(l, i), valid, l.hasFired), u, j);
    SameFires(u, Reloaded(t, l, valid), j);
  }

  /**
    So if configs skipped the validation of config.Load, a refused expression would leave an
    entry that fires nothing, even when the old expression is put back.
  */
  lemma RefusedExpressionStrands(name: string, good: string, bad: string, valid: string -> bool,
      hasFired: string -> bool)
    requires good != "" && bad != "" && valid(good) && !valid(bad)
    ensures var a, b := Load(1, [Job(name, true, good, 1)], hasFired), Load(1, [Job(name, true, bad, 1)], hasFired);
            var t := ReloadedAll([a, b, a], 3, valid);
            name in t.entries && t.entries[name].id !in t.live
  {
    var a, b := Load(1, [Job(name, true, good, 1)], hasFired), Load(1, [Job(name, true, bad, 1)], hasFired);
    var loads := [a, b, a];
    var t1 := Table(map[name := Entry(0, good)], {}, map[0 := Configured(a, 0)], 1, []);
    OneLoad(EMPTY, a, valid);
    assert ReloadedAll(loads, 0, valid) == EMPTY;
    assert ReloadedAll(loads, 1, valid) == t1;
    OneLoad(t1, b, valid);
    var t2 := t1.(live := map[]);
    assert ReloadedAll(loads, 2, valid) == t2;
    OneLoad(t2, a, valid);
  }

  lemma OneLoad(t: Table, l: Load, valid: string -> bool)
    requires |l.jobs| == 1 && l.jobs[0].enabled && t.entries.Keys <= {l.jobs[0].name}
    ensures Reloaded(t, l, valid) == LoadJob(t, Configured(l, 0), valid, l.hasFired)
  {
    assert LoadJobs(t, l, 0, valid) == t;
    var u := LoadJob(t, Configured(l, 0), valid, l.hasFired);
    assert Enabled(l.jobs, 0) == {};
    assert u.entries.Keys - Enabled(l.jobs, 1) == {};
    assert IdsOf(u, {}) == {};
  }

  // ---- one-offs ----

  /** The load lists this as an enabled one-off with no run on record. */
  ghost predicate DueAt(l: Load, c: Firing) {
    && !l.hasFired(c.job.name)
    && exists i :: 0 <= i < |l.jobs| && l.jobs[i].enabled && OneOff(l.jobs[i]) && Configured(l, i) == c
  }

  /** From t to u this load fired more one-offs, each of them due. */
  ghost predicate FiredMore(t: Table, u: Table, l: Load) {
    && t.fired <= u.fired && t.oneOffFired <= u.oneOffFired
    && forall p :: |t.fired| <= p < |u.fired| ==> DueAt(l, u.fired[p])
  }

  predicate Settled(t: Table, l: Load, i: nat)
    requires i < |l.jobs|
  {
    l.jobs[i].enabled && OneOff(l.jobs[i]) ==> l.jobs[i].name in t.oneOffFired || l.hasFired(l.jobs[i].name)
  }

  lemma FiredMoreOnceMore(t: Table, u: Table, v: Table, l: Load)
    requires FiredMore(t, u, l) && FiredMore(u, v, l)
    ensures FiredMore(t, v, l)
    ensures forall i :: 0 <= i < |l.jobs| && Settled(u, l, i) ==> Settled(v, l, i)
  {
    hide DueAt;
    forall p | |t.fired| <= p < |v.fired| ensures DueAt(l, v.fired[p]) {
      if p < |u.fired| {
        assert v.fired[p] == u.fired[p];
      }
    }
  }

  lemma OneMoreOneOff(t: Table, l: Load, i: nat, valid: string -> bool)
    requires OneOffsOk(t) && i < |l.jobs|
    ensures var u := LoadJob(t, Configured(l, i), valid, l.hasFired);
            OneOffsOk(u) && FiredMore(t, u, l) && Settled(u, l, i)
  {
    hide FiredOnce;
    var c := Configured(l, i);
    if c.job.enabled && OneOff(c.job) && c.job.name !in t.oneOffFired && !l.hasFired(c.job.name) {
      assert DueAt(l, c);
      FiresOneMore(t.fired, t.oneOffFired, c);
    }
    hide DueAt;
  }

  lemma FiresOneMore(fired: seq<Firing>, names: set<string>, c: Firing)
    requires FiredOnce(fired, names) && c.job.name !in names
    ensures FiredOnce(fired + [c], names + {c.job.name})
  {
    var all := fired + [c];
    assert all[|fired|] == c;
    forall n | n in names ensures exists p :: 0 <= p < |all| && all[p].job.name == n {
      var p :| 0 <= p < |fired| && fired[p].job.name == n;
      assert all[p] == fired[p];
    }
  }

  lemma {:induction false} LoadJobsOneOffs(t: Table, l: Load, n: nat, valid: string -> bool)
    requires OneOffsOk(t) && n <= |l.jobs|
    ensures OneOffsOk(LoadJobs(t, l, n, valid)) && FiredMore(t, LoadJobs(t, l, n, valid), l)
    ensures forall i :: 0 <= i < n ==> Settled(LoadJobs(t, l, n, valid), l, i)
  {
    hide OneOffsOk, Settled, LoadJob, DueAt;
    if n > 0 {
      LoadJobsOneOffs(t, l, n - 1, valid);
      OneMoreOneOff(LoadJobs(t, l, n - 1, valid), l, n - 1, valid);
      FiredMoreOnceMore(t, LoadJobs(t, l, n - 1, valid), LoadJobs(t, l, n, valid), l);
    }
  }

  lemma ReloadOneOffs(t: Table, l: Load, valid: string -> bool)
    requires OneOffsOk(t)
    ensures var u := Reloaded(t, l, valid);
            OneOffsOk(u) && FiredMore(t, u, l) && forall i :: 0 <= i < |l.jobs| ==> Settled(u, l, i)
  {
    hide LoadJobs, DueAt;
    LoadJobsOneOffs(t, l, |l.jobs|, valid);
    var u, v := LoadJobs(t, l, |l.jobs|, valid), Reloaded(t, l, valid);
    assert v == u.(entries := v.entries, live := v.live);
    forall i | 0 <= i < |l.jobs| ensures Settled(v, l, i) {
      assert Settled(u, l, i);
    }
  }

  /** Each one-off fires at most once, as configured at a reload that lists it with no run on record. */
  lemma {:induction false} OneOffsFireOnce(loads: seq<Load>, n: nat, valid: string -> bool)
    requires n <= |loads|
    ensures OneOffsOk(ReloadedAll(loads, n, valid))
    ensures var t := ReloadedAll(loads, n, valid);
            forall p :: 0 <= p < |t.fired| ==> exists k :: 0 <= k < n && DueAt(loads[k], t.fired[p])
  {
    if n > 0 {
      OneOffsFireOnce(loads, n - 1, valid);
      var before, t := ReloadedAll(loads, n - 1, valid), ReloadedAll(loads, n, valid);
      ReloadOneOffs(before, loads[n - 1], valid);
      hide OneOffsOk, Reloaded, DueAt;
      forall p | 0 <= p < |t.fired| ensures exists k :: 0 <= k < n && DueAt(loads[k], t.fired[p]) {
        if p < |before.fired| {
          assert before.fired[p] == t.fired[p];
        } else {
          assert DueAt(loads[n - 1], t.fired[p]);
        }
      }
    }
  }

  /** And after a reload every enabled one-off of it has fired or has a run on record. */
  lemma OneOffsDoFire(loads: seq<Load>, n: nat, valid: string -> bool, i: nat)
    requires 0 < n <= |loads| && i < |loads[n - 1].jobs|
    requires loads[n - 1].jobs[i].enabled && OneOff(loads[n - 1].jobs[i])
    ensures var t, name := ReloadedAll(loads, n, valid), loads[n - 1].jobs[i].name;
            loads[n - 1].hasFired(name) || exists p :: 0 <= p < |t.fired| && t.fired[p].job.name == name
  {
    hide Reloaded, OneOffsOk, DueAt;
    OneOffsFireOnce(loads, n - 1, valid);
    ReloadOneOffs(ReloadedAll(loads, n - 1, valid), loads[n - 1], valid);
    var t := ReloadedAll(loads, n, valid);
    SettledHasFired(t, loads[n - 1], i);
    assert t == ReloadedAll(loads, n, valid);
  }

  lemma SettledHasFired(t: Table, l: Load, i: nat)
    requires i < |l.jobs| && Settled(t, l, i) && OneOffsOk(t) && l.jobs[i].enabled && OneOff(l.jobs[i])
    ensures l.hasFired(l.jobs[i].name) || exists p :: 0 <= p < |t.fired| && t.fired[p].job.name == l.jobs[i].name
  {
  }
}
