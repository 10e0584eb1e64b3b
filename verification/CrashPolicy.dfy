/** What the crash-restart policy decides about one exit (agent/internal/daemon/restart.go), said
    without the code's own steps. Times are in milliseconds. */
module CrashPolicy {

  import opened Wrappers
  import opened Agent
  import opened AgentSteps
  import opened Restarts

  /** Positive seconds of the definition, else a default. */
  function Seconds(n: int, default: int): int
  {
    1000 * if n > 0 then n else default
  }

  function MaxRestarts(def: Definition): int
  {
    if def.policy.None? then 15 else def.policy.value.maxRestarts
  }

  function MinUptime(def: Definition): int
  {
    Seconds(if def.policy.None? then 0 else def.policy.value.minUptimeS, 1)
  }

  function BackoffCap(def: Definition): int
  {
    Seconds(if def.policy.None? then 0 else def.policy.value.backoffMaxS, 60)
  }

  /** The run that ended began long enough ago. */
  predicate RanWell(s: State, id: Id, now: int)
    requires id in s.apps
  {
    id in s.sup.startTimes && s.sup.startTimes[id] + MinUptime(s.apps[id].def) <= now
  }

  /** How many crashes in a row this one makes. */
  function CrashesNow(s: State, id: Id, now: int): nat
    requires id in s.apps
  {
    if RanWell(s, id, now) then 1 else 1 + CellOf(s.sup, id).count
  }

  /** An exit of a wanted app with a positive maximum, looked at and counted: the crash is the
      first after a run of at least the minimal uptime and one more otherwise, a timer is to be
      armed exactly when the maximum is not exceeded, and nothing else but the start time changes. */
  lemma CrashOutcome(h: Definition -> Hash, s: State, id: Id, now: int)
    requires id in s.work.exits && Wanted(s.apps, id) && MaxRestarts(s.apps[id].def) > 0
    ensures var def := s.apps[id].def;
            var t := Next(h, s, ExitLooks(id));
            var l := Look(id, if id in s.sup.startTimes then Some(s.sup.startTimes[id]) else None, MaxRestarts(def), MinUptime(def));
            var u := Next(h, t, ExitCounts(l, now));
            var n := CrashesNow(s, id, now);
            && Known(u.sup, id) && CellOf(u.sup, id).count == n
            && u.work.exits == s.work.exits - multiset{id} && u.work.looked == s.work.looked
            && u.work.arming == s.work.arming + (if n <= MaxRestarts(def) then multiset{Arming(id, u.sup.restarts[id])} else multiset{})
            && u.sup.startTimes == s.sup.startTimes - {id} && u.sup.procs == s.sup.procs && u.sup.timers == s.sup.timers
            && AppsKept(s, u) && u.host == s.host
  {
    var l := LookAt(s.apps, s.sup, id);
    PolicyIs(s.apps[id].def);
    LookSays(s, id);
    var t := LookExit(s, id);
    LookIs(s, id);
    LookProc(s, id);
    CountProc(t, l, now);
    CountedIs(t, l, now);
    NextLooks(h, s, id);
    NextCounts(h, t, l, now);
    SameCell(s.sup, t.sup, id);
    assert t.work.looked[l] > 0;
    assert t.work.looked - multiset{l} == s.work.looked;
    hide Next, LookExit, CountExit, LookAt, CellOf, Known, MinUptime, MaxRestarts;
  }

  lemma LookSays(s: State, id: Id)
    requires id in s.apps
    ensures var l := LookAt(s.apps, s.sup, id);
            && l == Look(id, if id in s.sup.startTimes then Some(s.sup.startTimes[id]) else None, MaxRestarts(s.apps[id].def), MinUptime(s.apps[id].def))
  {
  }

  lemma SameCell(u: Sup, v: Sup, id: Id)
    requires v.cells == u.cells && v.restarts == u.restarts
    ensures CellOf(v, id) == CellOf(u, id)
  {
  }

  lemma NextLooks(h: Definition -> Hash, s: State, id: Id)
    ensures Next(h, s, ExitLooks(id)) == LookExit(s, id)
  {
    hide LookExit;
  }

  lemma NextCounts(h: Definition -> Hash, s: State, l: Look, now: int)
    ensures Next(h, s, ExitCounts(l, now)) == CountExit(s, l, now)
  {
    hide CountExit;
  }

  lemma PolicyIs(def: Definition)
    ensures PolicyFor(def) == (MaxRestarts(def), MinUptime(def), BackoffCap(def))
  {
  }

  lemma LookIs(s: State, id: Id)
    requires id in s.work.exits && Crashed(s.apps, id)
    ensures var t := LookExit(s, id);
            && t.work == s.work.(exits := s.work.exits - multiset{id}, looked := s.work.looked + multiset{LookAt(s.apps, s.sup, id)})
            && t.sup == s.sup.(startTimes := s.sup.startTimes - {id})
  {
  }

  lemma CountedIs(s: State, l: Look, now: int)
    requires l in s.work.looked
    ensures var u := CountExit(s, l, now);
            var n := (if l.started.Some? && l.started.value + l.uptime <= now then 0 else CellOf(s.sup, l.id).count) + 1;
            && Known(u.sup, l.id) && CellOf(u.sup, l.id).count == n
            && u.sup.startTimes == s.sup.startTimes && u.sup.timers == s.sup.timers && u.sup.procs == s.sup.procs
            && u.work == s.work.(looked := s.work.looked - multiset{l},
                                 arming := s.work.arming + (if n <= l.max then multiset{Arming(l.id, u.sup.restarts[l.id])} else multiset{}))
  {
  }

  /** Any other exit is only reported: the app is not wanted any more, or never restarted. */
  lemma OtherExit(h: Definition -> Hash, s: State, id: Id)
    requires id in s.work.exits && (!Wanted(s.apps, id) || MaxRestarts(s.apps[id].def) <= 0)
    ensures Next(h, s, ExitLooks(id)) == s.(sup := s.sup.(startTimes := s.sup.startTimes - {id}),
                                            work := s.work.(exits := s.work.exits - multiset{id}))
  {
    hide LookAt;
  }

  /** The backoff: a second before the first restart, twice as long before each of the next thirty,
      and never longer than the cap. */
  lemma Backoff(count: nat, cap: int)
    requires count > 0 && cap > 0
    ensures Delay(1, cap) == Min(1000, cap)
    ensures Delay(count + 1, cap) == if count <= 30 then Min(2 * Delay(count, cap), cap) else Delay(count, cap)
  {
    var p := Pow2(Min(count - 1, 30));
    Pow2Grows(0, Min(count - 1, 30));
    assert Pow2(0) == 1;
    if count <= 30 {
      assert Pow2(count) == 2 * p;
    }
  }

  // ---- starts that fail ----

  /** The start cannot go on: the app is unknown, or it is not running and not approved, or its
      containers do not come up. */
  predicate StartFails(s: State, id: Id, dockerOk: bool)
  {
    || id !in s.apps
    || (!(id in s.sup.procs && s.sup.procs[id] in s.host.alive)
        && (s.apps[id].approval != Approved || (IsDocker(s.apps[id].def.kind) && !dockerOk)))
  }

  /** A restart that fails at the start goes through the policy as another crash; any other start
      that fails leaves no trace. */
  lemma FailedStart(h: Definition -> Hash, s: State, call: StartCall, dockerOk: bool)
    requires call in s.work.starts && StartFails(s, call.id, dockerOk)
    ensures Next(h, s, StartBegins(call, dockerOk))
            == s.(work := s.work.(starts := s.work.starts - multiset{call},
                                  exits := s.work.exits + (if call.fromTimer then multiset{call.id} else multiset{})))
  {
    assert s.work.exits + multiset{} == s.work.exits;
  }

  /** ... and so does one whose process cannot be spawned. */
  lemma FailedSpawn(h: Definition -> Hash, s: State, sp: Spawn, now: int, written: bool)
    requires sp in s.work.spawning
    ensures Next(h, s, StartEnds(sp, false, now, written))
            == s.(work := s.work.(spawning := s.work.spawning - multiset{sp},
                                  exits := s.work.exits + (if sp.call.fromTimer then multiset{sp.call.id} else multiset{})))
  {
    assert s.work.exits + multiset{} == s.work.exits;
  }

  /** Stopping containers: they are down, and a restart goes on, exactly when the engine took them
      down. */
  lemma ContainersStop(h: Definition -> Hash, s: State, stop: StopCall, dockerOk: bool)
    requires stop in s.work.stops && stop.id in s.apps && IsDocker(s.apps[stop.id].def.kind)
    ensures var t := Next(h, s, StopBegins(stop, dockerOk));
            && t.sup.dockerUp == (if dockerOk then s.sup.dockerUp - {stop.id} else s.sup.dockerUp)
            && t.work.starts == s.work.starts + (if dockerOk && stop.thenStart then multiset{StartCall(stop.id, false)} else multiset{})
            && t.work.halting == s.work.halting && t.host == s.host && AppsKept(s, t)
  {
    assert s.work.starts + multiset{} == s.work.starts;
  }

  /** A process whose root exits is no longer its app's and the exit is reported, whether or not
      descendants live on; the watcher is done. */
  lemma ExitReported(h: Definition -> Hash, s: State, id: Id, p: Pid, linger: bool)
    requires id in s.sup.procs && s.sup.procs[id] == p && p in s.host.watchers && s.host.watchers[p] == id
    ensures var t := Next(h, Next(h, s, Exits(p, linger)), Observed(p));
            && t.sup.procs == s.sup.procs - {id} && t.work == s.work.(exits := s.work.exits + multiset{id})
            && t.host.watchers == s.host.watchers - {p}
            && t.host.alive == (if linger then s.host.alive else s.host.alive - {p})
  {
  }
}
