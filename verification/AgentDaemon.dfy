/** The daemon as the object it is: fields updated in place under the mutex, loops over lists
    and maps. Each method is one step of Agent. */
module AgentDaemon {

  import opened Wrappers
  import opened Agent
  import opened AgentSteps

  /** Removing the element at the index found is removing its first occurrence. */
  lemma {:induction false} IndexOfCut(hs: seq<Hash>, x: Hash)
    ensures var i := IndexOf(hs, x);
            -1 <= i < |hs| && (i < 0 <==> x !in hs)
            && Without(hs, x) == if i < 0 then hs else hs[..i] + hs[i + 1..]
  {
    if hs != [] && hs[0] != x {
      var t := hs[1..];
      IndexOfCut(t, x);
      assert hs == [hs[0]] + t;
      var i := IndexOf(t, x);
      if i >= 0 {
        CutTail(hs, i);
      }
    }
  }

  lemma CutTail<T>(hs: seq<T>, i: nat)
    requires i + 1 < |hs|
    ensures [hs[0]] + (hs[1..][..i] + hs[1..][i + 1..]) == hs[..i + 1] + hs[i + 2..]
  {
  }

  lemma {:induction false} IndexOfAt(hs: seq<Hash>, x: Hash, i: nat)
    requires i < |hs| && hs[i] == x && x !in hs[..i]
    ensures IndexOf(hs, x) == i
  {
    if i > 0 {
      assert hs[0] == hs[..i][0];
      forall y | y in hs[1..][..i - 1] ensures y in hs[..i] {
        var k :| 0 <= k < i - 1 && hs[1..][k] == y;
        assert hs[..i][k + 1] == y;
      }
      IndexOfAt(hs[1..], x, i - 1);
    }
  }

  lemma TimersMore(u: Sup, v: Sup, gone: set<Id>, id: Id)
    requires id !in gone && v.restarts == u.restarts - gone && v.cells == u.cells
    ensures TimersOf(u, gone + {id}) == TimersOf(u, gone) + TimersOf(v, {id})
  {
    assert CellOf(u, id) == CellOf(v, id);
    hide CellOf;
    assert (id in u.restarts) == (id in v.restarts);
  }

  lemma ForgetMore(s: State, gone: set<Id>, id: Id)
    requires id !in gone && id in s.apps
    ensures ForgetAll(ForgetAll(s, gone), {id}) == ForgetAll(s, gone + {id})
  {
    var t := ForgetAll(s, gone);
    TimersMore(s.sup, t.sup, gone, id);
    hide TimersOf;
    MapMinus(s.apps, gone, {id});
    MapMinus(s.sup.procs, gone, {id});
    MapMinus(s.sup.restarts, gone, {id});
    MapMinus(s.sup.timers, TimersOf(s.sup, gone), TimersOf(t.sup, {id}));
  }

  lemma MapMinus<K, V>(m: map<K, V>, a: set<K>, b: set<K>)
    ensures m - a - b == m - (a + b)
  {
  }

  class Daemon {

    var apps: Apps
    var disk: Apps
    var preApproved: seq<Hash>
    var procs: map<Id, Pid>
    var startTimes: map<Id, int>
    var restarts: map<Id, Ref>
    var cells: map<Ref, RestartState>
    var timers: map<TimerId, Id>
    var nextRef: Ref
    var nextTimer: TimerId
    var dockerUp: set<Id>
    var host: Host
    ghost var work: Work
    ghost var log: Log

    ghost function SupView(): Sup
      reads this
    {
      Sup(procs, startTimes, restarts, cells, timers, nextRef, nextTimer, dockerUp)
    }

    ghost function View(): State
      reads this
    {
      State(apps, disk, preApproved, SupView(), work, host, log)
    }

    constructor ()
      ensures View() == INIT
    {
      apps, disk, preApproved := map[], map[], [];
      procs, startTimes, restarts, cells, timers, nextRef, nextTimer, dockerUp := map[], map[], map[], map[], map[], 0, 0, {};
      host, work, log := Host({}, {}, map[], 1), NO_WORK, Log({}, [], {});
    }

    method Persist(written: bool)
      modifies this`disk
      ensures disk == if written then apps else old(disk)
    {
      if written {
        disk := apps;
      }
    }

    /** Follows the pointer in `restarts`. */
    method Lookup(id: Id) returns (known: bool, ref: Ref, rs: RestartState)
      ensures known == Known(SupView(), id) && ref == RefOf(SupView(), id) && rs == CellOf(SupView(), id)
    {
      known := id in restarts && restarts[id] in cells;
      ref := if known then restarts[id] else nextRef;
      rs := if known then cells[ref] else RestartState(id, 0, None);
    }

    method CancelRestart(id: Id)
      modifies this`restarts, this`timers
      ensures SupView() == Agent.CancelRestart(old(SupView()), id)
    {
      if id in restarts {
        var known, ref, rs := Lookup(id);
        StopTimerOf(rs.timer);
        restarts := restarts - {id};
      }
    }

    /** Stores a crash count through the pointer, making the cell if there is none. */
    method StoreCount(id: Id, count: nat)
      modifies this`restarts, this`cells, this`nextRef
      ensures SupView() == Counted(old(SupView()), id, count)
    {
      var known, ref, rs := Lookup(id);
      restarts := restarts[id := ref];
      if !known {
        nextRef := nextRef + 1;
      }
      cells := cells[ref := rs.(count := count)];
    }

    /** Up to where the mutex is left for the first time; the result says whether the crash policy
        is concerned. */
    method HandleUnexpectedExit(id: Id) returns (next: Option<Look>)
      requires id in work.exits
      modifies this`startTimes, this`work
      ensures View() == LookExit(old(View()), id)
      ensures next == if Crashed(apps, id) then Some(LookAt(apps, old(SupView()), id)) else None
    {
      hide PolicyFor;
      work := work.(exits := work.exits - multiset{id});
      next := None;
      var started := if id in startTimes then Some(startTimes[id]) else None;
      startTimes := startTimes - {id};
      if id !in apps || apps[id].desired != Running || apps[id].approval != Approved {
        return;
      }
      var policy := PolicyFor(apps[id].def);
      if policy.0 <= 0 {
        return;
      }
      next := Some(Look(id, started, policy.0, policy.1));
      work := work.(looked := work.looked + multiset{Look(id, started, policy.0, policy.1)});
    }

    /** ... to where it is left again, to report; the result says whether a timer is to be armed. */
    method CountCrash(l: Look, now: int) returns (next: Option<Arming>)
      requires l in work.looked
      modifies this`restarts, this`cells, this`nextRef, this`work
      ensures View() == CountExit(old(View()), l, now)
      ensures next == if Schedules(old(SupView()), l, now) then Some(Arming(l.id, RefOf(old(SupView()), l.id))) else None
    {
      hide CellOf, RefOf, Known, Counted;
      work := work.(looked := work.looked - multiset{l});
      next := None;
      var known, ref, rs := Lookup(l.id);
      var count := rs.count;
      if l.started.Some? && now - l.started.value >= l.uptime {
        count := 0;
      }
      count := count + 1;
      StoreCount(l.id, count);
      if count > l.max {
        return;
      }
      next := Some(Arming(l.id, ref));
      work := work.(arming := work.arming + multiset{Arming(l.id, ref)});
    }

    /** The rest of it. */
    method ArmRestart(a: Arming)
      requires a in work.arming && a.ref in cells
      modifies this`cells, this`timers, this`nextTimer, this`work
      ensures View() == ArmTimer(old(View()), a)
    {
      var rs := cells[a.ref];
      StopTimerOf(rs.timer);
      timers := timers[nextTimer := a.id];
      cells := cells[a.ref := rs.(timer := Some(nextTimer))];
      nextTimer := nextTimer + 1;
      work := work.(arming := work.arming - multiset{a});
      hide StopTimer;
    }

    method StopTimerOf(timer: Option<TimerId>)
      modifies this`timers
      ensures timers == StopTimer(old(timers), timer)
    {
      if timer.Some? {
        timers := timers - {timer.value};
      }
    }

    ghost method StartFails(call: StartCall)
      modifies this`work
      ensures View() == StartFailed(old(View()), call)
    {
      if call.fromTimer {
        work := work.(exits := work.exits + multiset{call.id});
      }
    }

    method StartApp(call: StartCall, dockerOk: bool)
      requires call in work.starts
      modifies this
      ensures View() == BeginStart(old(View()), call, dockerOk)
    {
      work := work.(starts := work.starts - multiset{call});
      var id := call.id;
      if id !in apps {
        StartFails(call);
        return;
      }
      if id in procs && procs[id] in host.alive {
        return;
      }
      var app := apps[id];
      if app.approval != Approved {
        StartFails(call);
        return;
      }
      if IsDocker(app.def.kind) {
        if dockerOk {
          dockerUp := dockerUp + {id};
        } else {
          StartFails(call);
        }
        return;
      }
      work := work.(spawning := work.spawning + multiset{Spawn(call, app.def)});
    }

    /** The new process is the current one, and watched. */
    method TakeProcess(id: Id, def: Definition, now: int)
      modifies this`host, this`log, this`procs, this`startTimes
      ensures View() == Recorded(old(View()), id, def, now)
    {
      var p := host.nextPid;
      host := host.(nextPid := p + 1, alive := host.alive + {p}, watchers := host.watchers[p := id]);
      log := log.(spawned := log.spawned + [(id, def)]);
      procs := procs[id := p];
      startTimes := startTimes[id := now];
    }

    /** Remembers the process for a later agent to reap. */
    method SetPid(id: Id, p: nat, written: bool)
      requires id in apps
      modifies this`apps, this`disk
      ensures View() == SetLastPid(old(View()), id, p, written)
    {
      apps := apps[id := apps[id].(lastPid := p)];
      Persist(written);
    }

    /** StartProc returned. */
    method Started(sp: Spawn, ok: bool, now: int, written: bool)
      requires sp in work.spawning
      modifies this
      ensures View() == FinishStart(old(View()), sp, ok, now, written)
    {
      hide SetLastPid;
      var p := host.nextPid;
      work := work.(spawning := work.spawning - multiset{sp});
      if !ok {
        StartFails(sp.call);
        return;
      }
      TakeProcess(sp.call.id, sp.def, now);
      if sp.call.id in apps {
        SetPid(sp.call.id, p, written);
      }
    }

    /** The exit watcher of one process. */
    method Exited(p: Pid)
      requires p in host.watchers && p in host.done
      modifies this
      ensures View() == ExitObserved(old(View()), p)
    {
      var id := host.watchers[p];
      host := host.(watchers := host.watchers - {p});
      var current := id in procs && procs[id] == p;
      if current {
        procs := procs - {id};
        work := work.(exits := work.exits + multiset{id});
      }
    }

    /** The crash-restart timer's callback. */
    method TimerFired(t: TimerId)
      requires t in timers
      modifies this
      ensures View() == TimerFires(old(View()), t)
    {
      var id := timers[t];
      timers := timers - {t};
      var stillWanted := id in apps && apps[id].desired == Running && apps[id].approval == Approved;
      if stillWanted {
        work := work.(starts := work.starts + multiset{StartCall(id, true)});
      }
    }

    ghost method Succeeded(call: StopCall)
      modifies this`work
      ensures View() == StopDone(old(View()), call)
    {
      if call.thenStart {
        work := work.(starts := work.starts + multiset{StartCall(call.id, false)});
      }
    }

    method Detach(id: Id)
      modifies this`restarts, this`timers, this`procs, this`startTimes
      ensures SupView() == Agent.Detach(old(SupView()), id)
    {
      CancelRestart(id);
      procs := procs - {id};
      startTimes := startTimes - {id};
    }

    method StopApp(call: StopCall, dockerOk: bool)
      requires call in work.stops
      modifies this
      ensures View() == BeginStop(old(View()), call, dockerOk)
    {
      hide Agent.Detach, StopDone;
      work := work.(stops := work.stops - multiset{call});
      var id := call.id;
      var known, running := id in apps, id in procs;
      var p := if running then procs[id] else 0;
      DetachKeeps(SupView(), id);
      Detach(id);
      if known && IsDocker(apps[id].def.kind) {
        if dockerOk {
          dockerUp := dockerUp - {id};
          Succeeded(call);
        }
        return;
      }
      if !running {
        Succeeded(call);
        return;
      }
      work := work.(halting := work.halting + multiset{Halt(call, p)});
    }

    /** p.Stop() returned. */
    method Halted(hl: Halt, ok: bool, written: bool)
      requires hl in work.halting
      modifies this
      ensures View() == FinishStop(old(View()), hl, ok, written)
    {
      hide SetLastPid, StopDone;
      work := work.(halting := work.halting - multiset{hl});
      if !ok {
        return;
      }
      host := host.(alive := host.alive - {hl.pid});
      if hl.call.id in apps && apps[hl.call.id].lastPid != 0 {
        SetPid(hl.call.id, 0, written);
      }
      Succeeded(hl.call);
    }

    /** Collects the actions, then issues them: the calls are queued. */
    method Reconcile()
      modifies this`work
      ensures View() == Agent.Reconcile(old(View()))
    {
      hide StartsFor, StopsFor;
      ghost var s := View();
      var rest := apps.Keys;
      var starts: multiset<StartCall>, stops: multiset<StopCall> := multiset{}, multiset{};
      NoWants(s, apps.Keys - rest);
      while rest != {}
        invariant rest <= apps.Keys
        invariant work == s.work
        invariant starts == StartsFor(s, apps.Keys - rest) && stops == StopsFor(s, apps.Keys - rest)
        decreases rest
      {
        var id :| id in rest;
        var app := apps[id];
        assert apps.Keys - (rest - {id}) == (apps.Keys - rest) + {id};
        StartsMore(s, apps.Keys - rest, id);
        StopsMore(s, apps.Keys - rest, id);
        if app.approval == Approved {
          var alive := if IsDocker(app.def.kind) then id in dockerUp else id in procs && procs[id] in host.alive;
          if app.desired == Running && !alive {
            var known, ref, rs := Lookup(id);
            if id !in restarts || rs.timer.None? {
              starts := starts + multiset{StartCall(id, false)};
            }
          } else if app.desired == Stopped && alive {
            stops := stops + multiset{StopCall(id, false)};
          }
        }
        rest := rest - {id};
      }
      assert apps.Keys - rest == s.apps.Keys;
      assert starts == StartsFor(s, s.apps.Keys) && stops == StopsFor(s, s.apps.Keys);
      work := work.(starts := work.starts + starts, stops := work.stops + stops);
    }

    static method Find(hs: seq<Hash>, x: Hash) returns (i: int)
      ensures i == IndexOf(hs, x)
    {
      i := 0;
      while i < |hs|
        invariant 0 <= i <= |hs| && x !in hs[..i]
      {
        if hs[i] == x {
          IndexOfAt(hs, x, i);
          return;
        }
        i := i + 1;
      }
      IndexOfCut(hs, x);
      i := -1;
    }

    /** One entry of the sync. */
    method TakeSpec(spec: AppSpec) returns (changed: bool)
      modifies this`apps, this`preApproved, this`log
      ensures (View(), changed) == ApplySpec(old(View()), spec)
    {
      ghost var s := View();
      changed := false;
      if spec.id in apps && apps[spec.id].hash == spec.hash {
        var local := apps[spec.id];
        if local.desired != spec.desired || local.tracking != spec.tracking {
          local := local.(desired := spec.desired, tracking := spec.tracking);
          apps := apps[spec.id := local];
          changed := true;
        }
        assert s.apps[spec.id := local] == apps;
        return;
      }
      var approval := Pending;
      var i := Find(preApproved, spec.hash);
      IndexOfCut(preApproved, spec.hash);
      if i >= 0 {
        approval := Approved;
        preApproved := preApproved[..i] + preApproved[i + 1..];
      } else if IsDocker(spec.def.kind) {
        approval := Approved;
      }
      apps := apps[spec.id := App(spec.def, spec.hash, approval, spec.desired, spec.tracking, 0)];
      changed := true;
      log := log.(sent := log.sent + {ApprovalEvent(spec.id, approval, spec.hash)});
    }

    /** Drops one app the hub no longer lists. */
    method Forget(id: Id)
      requires id in apps
      modifies this`apps, this`procs, this`restarts, this`timers
      ensures View() == ForgetAll(old(View()), {id})
    {
      ghost var s := View();
      procs := procs - {id};
      CancelRestart(id);
      apps := apps - {id};
      ForgetOne(s, id);
    }

    method ApplyAppSync(specs: seq<AppSpec>, written: bool)
      modifies this`apps, this`disk, this`preApproved, this`log, this`procs, this`restarts, this`timers
      ensures View() == Agent.ApplyAppSync(old(View()), specs, written)
    {
      ghost var s := View();
      var seen: set<Id> := {};
      var changed := false;
      for i := 0 to |specs|
        invariant (View(), changed) == ApplySpecs(s, specs[..i])
        invariant seen == Ids(specs[..i])
        invariant disk == s.disk
      {
        seen := seen + {specs[i].id};
        var c := TakeSpec(specs[i]);
        changed := changed || c;
        assert specs[..i + 1][..i] == specs[..i];
        IdsGrow(specs, i);
      }
      assert specs[..|specs|] == specs;
      ghost var t := View();
      ghost var gone: set<Id> := {};
      var rest := apps.Keys - seen;
      ghost var all := rest;
      var dropped := rest != {};
      ForgetNothing(t);
      while rest != {}
        invariant gone !! rest && gone + rest == all && all <= t.apps.Keys
        invariant View() == ForgetAll(t, gone)
        decreases rest
      {
        var id :| id in rest;
        assert id in apps;
        Forget(id);
        ForgetMore(t, gone, id);
        rest := rest - {id};
        gone := gone + {id};
      }
      assert gone == all;
      if changed || dropped {
        Persist(written);
      }
    }

    /** The gate of execute. */
    method Commanded(id: Id, verb: Verb, hash: Hash) returns (ok: bool)
      modifies this`work
      ensures View() == Accept(old(View()), id, verb, hash)
      ensures ok <==> Accepts(View(), id, hash) && verb != Other
    {
      if id !in apps {
        return false;
      }
      var app := apps[id];
      if app.hash != hash {
        return false;
      }
      if app.approval != Approved {
        return false;
      }
      ok := verb != Other;
      if ok {
        work := work.(commands := work.commands + multiset{Command(id, verb)});
      }
    }

    method PersistDesired(id: Id, d: Desired, written: bool)
      modifies this`apps, this`disk
      ensures View() == SetDesired(old(View()), id, d, written)
    {
      if id in apps && apps[id].desired != d {
        apps := apps[id := apps[id].(desired := d)];
        Persist(written);
      }
    }

    method Execute(c: Command, written: bool)
      requires c in work.commands
      modifies this`apps, this`disk, this`work
      ensures View() == Agent.Execute(old(View()), c, written)
    {
      work := work.(commands := work.commands - multiset{c});
      match c.verb {
        case Start =>
          PersistDesired(c.id, Running, written);
          work := work.(starts := work.starts + multiset{StartCall(c.id, false)});
        case Stop =>
          PersistDesired(c.id, Stopped, written);
          work := work.(stops := work.stops + multiset{StopCall(c.id, false)});
        case Restart =>
          PersistDesired(c.id, Running, written);
          work := work.(stops := work.stops + multiset{StopCall(c.id, true)});
        case Other =>
      }
    }

    method ImportApp(h: Definition -> Hash, def: Definition)
      modifies this`preApproved, this`log
      ensures View() == Import(old(View()), h, def)
    {
      preApproved := preApproved + [h(def)];
      log := log.(approved := log.approved + {h(def)}, sent := log.sent + {AppRegister(def)});
    }

    method DecideApp(id: Id, approve: bool, written: bool)
      modifies this`apps, this`disk, this`log
      ensures View() == Decide(old(View()), id, approve, written)
    {
      if id !in apps {
        return;
      }
      var app := apps[id].(approval := if approve then Approved else Rejected);
      apps := apps[id := app];
      Persist(written);
      log := log.(approved := if approve then log.approved + {app.hash} else log.approved,
                  sent := log.sent + {ApprovalEvent(id, app.approval, app.hash)});
    }

    /** Forgets the process trees of the previous run, killing those it can. */
    method ReapOrphans(reaped: set<Pid>)
      modifies this`apps, this`host
      ensures apps == Reaped(old(apps))
      ensures host == ReapedHost(old(host), old(apps), reaped)
    {
      hide OrphansOf, Reap, Reaped, ReapedHost;
      ghost var saved := apps;
      var alive := host.alive;
      var rest := apps.Keys;
      NoOrphan(saved, saved.Keys - rest);
      assert alive - ({} * reaped) == alive;
      while rest != {}
        invariant host == old(host)
        invariant apps.Keys == saved.Keys && rest <= apps.Keys
        invariant forall id :: id in saved ==> apps[id] == if id in rest then saved[id] else Reap(saved[id])
        invariant alive == old(host).alive - (OrphansOf(saved, saved.Keys - rest) * reaped)
        decreases rest
      {
        var id :| id in rest;
        var app := apps[id];
        OneMoreOrphan(saved, saved.Keys - rest, id);
        assert saved.Keys - (rest - {id}) == (saved.Keys - rest) + {id};
        ReapIs(app);
        if app.lastPid > 0 && !IsDocker(app.def.kind) {
          if app.lastPid in reaped {
            alive := alive - {app.lastPid};
          }
          app := app.(lastPid := 0);
          apps := apps[id := app];
        }
        rest := rest - {id};
      }
      host := host.(watchers := map[], alive := alive);
      AllReaped(saved, apps);
      assert saved.Keys - rest == saved.Keys;
      HostReaped(old(host), saved, reaped);
    }

    /** Starts what is wanted. */
    method Resurrect()
      modifies this`work
      ensures work == Resurrected(apps)
    {
      work := NO_WORK;
      ghost var starts: set<StartCall> := {};
      var rest := apps.Keys;
      while rest != {}
        invariant rest <= apps.Keys
        invariant starts == set id | id in apps && id !in rest && Wanted(apps, id) :: StartCall(id, false)
        invariant work == NO_WORK.(starts := multiset(starts))
        decreases rest
      {
        var id :| id in rest;
        if apps[id].desired == Running && apps[id].approval == Approved {
          assert StartCall(id, false) !in starts;
          starts := starts + {StartCall(id, false)};
          work := work.(starts := work.starts + multiset{StartCall(id, false)});
        }
        rest := rest - {id};
      }
      assert starts == set id | id in apps && Wanted(apps, id) :: StartCall(id, false);
    }

    /** New: what is persisted, and nothing else. */
    method Load()
      modifies this`apps, this`preApproved, this`procs, this`startTimes, this`restarts, this`cells, this`timers, this`dockerUp
      ensures apps == disk && preApproved == [] && SupView() == NO_SUP.(nextTimer := nextTimer, nextRef := nextRef)
    {
      apps, preApproved := disk, [];
      procs, startTimes, restarts, cells, timers, dockerUp := map[], map[], map[], map[], map[], {};
    }

    /** A new process: load state.json, reap orphans, start what is wanted. `reaped` is what
        the operating system let it kill. */
    method Boot(reaped: set<Pid>, written: bool)
      modifies this
      ensures View() == Reboot(old(View()), reaped, written)
    {
      hide Reaped, ReapedHost, Resurrected;
      Load();
      ReapOrphans(reaped);
      Persist(written);
      Resurrect();
    }

    // ---- the object is the machine ----

    /** What happens outside the daemon. */
    method Happens(ev: Event)
      requires ev.Exits? || ev.TreeGone? || ev.DockerPoll?
      modifies this`host, this`dockerUp
      ensures forall h :: View() == Next(h, old(View()), ev)
    {
      match ev {
        case Exits(p, linger) =>
          host := host.(done := host.done + {p}, alive := if linger then host.alive else host.alive - {p});
        case TreeGone(p) =>
          host := host.(alive := host.alive - {p});
        case DockerPoll(id, up) =>
          dockerUp := if up then dockerUp + {id} else dockerUp - {id};
      }
    }

    /** One event, by the method it belongs to. */
    method Do(h: Definition -> Hash, ev: Event)
      requires Possible(View(), ev)
      modifies this
      ensures View() == Next(h, old(View()), ev)
    {
      hide Agent.ApplyAppSync, Agent.Reconcile, Accept, Agent.Execute, Import, Decide, BeginStart, FinishStart, BeginStop, FinishStop;
      hide ExitObserved, LookExit, CountExit, ArmTimer, TimerFires, Reboot;
      match ev {
        case Sync(specs, written) => ApplyAppSync(specs, written);
        case Converge => Reconcile();
        case Commanded(id, verb, hash) => var ok := Commanded(id, verb, hash);
        case CommandRuns(c, written) => Execute(c, written);
        case Imported(def) => ImportApp(h, def);
        case Decided(id, approve, written) => DecideApp(id, approve, written);
        case StartBegins(call, dockerOk) => StartApp(call, dockerOk);
        case StartEnds(sp, ok, now, written) => Started(sp, ok, now, written);
        case StopBegins(stop, dockerOk) => StopApp(stop, dockerOk);
        case StopEnds(hl, ok, written) => Halted(hl, ok, written);
        case Observed(p) => Exited(p);
        case ExitLooks(id) => var look := HandleUnexpectedExit(id);
        case ExitCounts(look, now) => var arming := CountCrash(look, now);
        case Arms(arming) => ArmRestart(arming);
        case Fires(t) => TimerFired(t);
        case Boot(reaped, written) => Boot(reaped, written);
        case _ => Happens(ev);
      }
    }

    /** Driven through events that can happen, the object goes through the states of the machine. */
    method Run(h: Definition -> Hash, evs: seq<Event>)
      requires forall k :: 0 <= k < |evs| ==> Possible(RunFrom(h, View(), evs[..k]), evs[k])
      modifies this
      ensures View() == RunFrom(h, old(View()), evs)
    {
      hide Next, Possible;
      ghost var s := View();
      assert evs[..0] == [];
      for i := 0 to |evs|
        invariant View() == RunFrom(h, s, evs[..i])
      {
        assert evs[..i + 1][..i] == evs[..i];
        Do(h, evs[i]);
      }
      assert evs[..|evs|] == evs;
    }
  }

  function OrphansOf(saved: Apps, ids: set<Id>): set<Pid>
  {
    set id | id in ids && id in saved && saved[id].lastPid > 0 && !IsDocker(saved[id].def.kind) :: saved[id].lastPid
  }

  /** The event can happen: the call it goes on with is under way, the process or timer is there. */
  predicate Possible(s: State, ev: Event)
  {
    match ev
    case CommandRuns(c, _) => c in s.work.commands
    case StartBegins(call, _) => call in s.work.starts
    case StartEnds(sp, _, _, _) => sp in s.work.spawning
    case StopBegins(stop, _) => stop in s.work.stops
    case StopEnds(hl, _, _) => hl in s.work.halting
    case Observed(p) => p in s.host.watchers && p in s.host.done
    case ExitLooks(id) => id in s.work.exits
    case ExitCounts(look, _) => look in s.work.looked
    case Arms(arming) => arming in s.work.arming && arming.ref in s.sup.cells
    case Fires(t) => t in s.sup.timers
    case _ => true
  }

  /** In the machine any other event does nothing, so its runs are those of the object. */
  lemma ImpossibleIsNothing(h: Definition -> Hash, s: State, ev: Event)
    requires !Possible(s, ev)
    ensures Next(h, s, ev) == s
  {
  }

  lemma OneMoreOrphan(saved: Apps, ids: set<Id>, id: Id)
    requires id in saved
    ensures OrphansOf(saved, ids + {id}) ==
            OrphansOf(saved, ids) + if saved[id].lastPid > 0 && !IsDocker(saved[id].def.kind) then {saved[id].lastPid} else {}
  {
    var a := OrphansOf(saved, ids + {id});
    var b := OrphansOf(saved, ids) + if saved[id].lastPid > 0 && !IsDocker(saved[id].def.kind) then {saved[id].lastPid} else {};
    forall p ensures p in a <==> p in b {
      if p in a {
        var i :| i in ids + {id} && i in saved && saved[i].lastPid > 0 && !IsDocker(saved[i].def.kind) && saved[i].lastPid == p;
      }
    }
  }

  lemma NoOrphan(saved: Apps, none: set<Id>)
    requires none == {}
    ensures OrphansOf(saved, none) == {}
  {
  }

  lemma ReapIs(app: App)
    ensures Reap(app) == if app.lastPid > 0 && !IsDocker(app.def.kind) then app.(lastPid := 0) else app
  {
  }

  lemma AllReaped(saved: Apps, apps: Apps)
    requires apps.Keys == saved.Keys && forall id :: id in saved ==> apps[id] == Reap(saved[id])
    ensures apps == Reaped(saved)
  {
  }

  lemma HostReaped(host: Host, saved: Apps, reaped: set<Pid>)
    ensures host.(watchers := map[], alive := host.alive - (OrphansOf(saved, saved.Keys) * reaped)) == ReapedHost(host, saved, reaped)
  {
    assert OrphansOf(saved, saved.Keys) == Orphans(saved);
  }

  lemma DetachKeeps(u: Sup, id: Id)
    ensures Agent.Detach(u, id).dockerUp == u.dockerUp
  {
  }

  lemma ForgetOne(s: State, id: Id)
    requires id in s.apps
    ensures var t := ForgetAll(s, {id});
            t == s.(apps := s.apps - {id}, sup := Agent.CancelRestart(s.sup, id).(procs := s.sup.procs - {id}))
  {
    hide CellOf;
    assert TimersOf(s.sup, {id}) ==
      if id in s.sup.restarts && CellOf(s.sup, id).timer.Some? then {CellOf(s.sup, id).timer.value} else {};
    var t := ForgetAll(s, {id});
    assert t.sup.restarts == Agent.CancelRestart(s.sup, id).restarts;
    assert t.sup.timers == Agent.CancelRestart(s.sup, id).timers;
  }

  lemma IdsGrow(specs: seq<AppSpec>, i: nat)
    requires i < |specs|
    ensures Ids(specs[..i + 1]) == Ids(specs[..i]) + {specs[i].id}
  {
    assert specs[..i + 1] == specs[..i] + [specs[i]];
  }
}
