/** What one step of the agent can cause: where a start, a stop, a process or a wish to run
    comes from. The properties of whole runs are proved from these causes. */
module AgentSteps {

  import opened Agent

  /** The step asks for the app to be started. */
  predicate MayStart(s: State, ev: Event, id: Id)
  {
    match ev
    case Fires(t) => t in s.sup.timers && s.sup.timers[t] == id && Wanted(s.apps, id)
    case Converge => WantStart(s, id)
    case CommandRuns(c, _) => c in s.work.commands && c == Command(id, Start)
    case StopBegins(stop, _) => stop in s.work.stops && stop == StopCall(id, true)
    case StopEnds(hl, _, _) => hl in s.work.halting && hl.call == StopCall(id, true)
    case Boot(_, _) => Wanted(Reaped(s.disk), id)
    case _ => false
  }

  /** The step asks for the app to be stopped. */
  predicate MayStop(s: State, ev: Event, call: StopCall)
  {
    match ev
    case Converge => WantStop(s, call.id) && !call.thenStart
    case CommandRuns(c, _) => c in s.work.commands && c == Command(call.id, if call.thenStart then Restart else Stop)
    case _ => false
  }

  /** The step reports an exit of the app: its current process is gone, or a restart failed. */
  predicate MayExit(s: State, ev: Event, id: Id)
  {
    match ev
    case Observed(p) => p in s.host.watchers && s.host.watchers[p] == id && id in s.sup.procs && s.sup.procs[id] == p
    case StartBegins(call, _) => call in s.work.starts && call == StartCall(id, true)
    case StartEnds(sp, ok, _, _) => sp in s.work.spawning && sp.call == StartCall(id, true) && !ok
    case _ => false
  }

  predicate WorkStep(s: State, ev: Event, w: Work)
  {
    && (forall c :: c in w.starts ==> c in s.work.starts || MayStart(s, ev, c.id))
    && (forall c :: c in w.stops ==> c in s.work.stops || MayStop(s, ev, c))
    && (forall sp :: sp in w.spawning ==> sp in s.work.spawning || (ev.StartBegins? && ev.call in s.work.starts && sp.call == ev.call))
    && (forall hl :: hl in w.halting ==> hl in s.work.halting || (ev.StopBegins? && ev.stop in s.work.stops && hl.call == ev.stop))
    && (forall c :: c in w.commands ==> c in s.work.commands || (ev.Commanded? && Accepts(s, ev.id, ev.hash) && c == Command(ev.id, ev.verb)))
    && (forall id :: id in w.exits ==> id in s.work.exits || MayExit(s, ev, id))
    && (forall l :: l in w.looked ==>
          l in s.work.looked || (ev.ExitLooks? && ev.id in s.work.exits && Crashed(s.apps, ev.id) && l == LookAt(s.apps, s.sup, ev.id)))
    && (forall a :: a in w.arming ==>
          a in s.work.arming || (ev.ExitCounts? && ev.look in s.work.looked && a == Arming(ev.look.id, RefOf(s.sup, ev.look.id))
                                 && Schedules(s.sup, ev.look, ev.now)))
  }

  /** Only finishing a start gives an app a process, and a new one. */
  predicate ProcStep(s: State, ev: Event, t: State)
  {
    && (forall id :: id in t.sup.procs ==>
          (id in s.sup.procs && t.sup.procs[id] == s.sup.procs[id])
          || (ev.StartEnds? && ev.ok && ev.sp in s.work.spawning && ev.sp.call.id == id && t.sup.procs[id] == s.host.nextPid
              && t.host.nextPid == s.host.nextPid + 1))
    && s.host.nextPid <= t.host.nextPid
    && (t.log.spawned == s.log.spawned
        || (ev.StartEnds? && ev.sp in s.work.spawning && t.log.spawned == s.log.spawned + [(ev.sp.call.id, ev.sp.def)]))
  }

  /** The step makes the app desired running. */
  predicate MayWant(s: State, ev: Event, id: Id)
  {
    match ev
    case Sync(specs, _) => exists i :: 0 <= i < |specs| && specs[i].id == id && specs[i].desired == Running
    case CommandRuns(c, _) => c in s.work.commands && c.id == id && (c.verb == Start || c.verb == Restart)
    case _ => false
  }

  predicate DesiredRunning(apps: Apps, id: Id)
  {
    id in apps && apps[id].desired == Running
  }

  ghost predicate WishStep(s: State, ev: Event, t: State)
  {
    forall id :: DesiredRunning(t.apps, id) || DesiredRunning(t.disk, id) ==>
      DesiredRunning(s.apps, id) || DesiredRunning(s.disk, id) || MayWant(s, ev, id)
  }

  /** What the host's decision, if this is one about the app, makes of its approval. */
  function ApprovalAfter(s: State, ev: Event, id: Id): Approval
    requires id in s.apps
  {
    if ev.Decided? && ev.id == id then (if ev.approve then Approved else Rejected) else s.apps[id].approval
  }

  /** Only a sync, or a reboot, changes which apps there are or what they run; only the host
      changes what is approved, and to what it decided. */
  predicate AppStep(s: State, ev: Event, t: State)
  {
    !ev.Sync? && !ev.Boot? ==>
      t.apps.Keys == s.apps.Keys
      && forall id :: id in s.apps ==>
           t.apps[id].def == s.apps[id].def && t.apps[id].hash == s.apps[id].hash
           && t.apps[id].approval == ApprovalAfter(s, ev, id)
           && (t.apps[id].desired == s.apps[id].desired || (ev.CommandRuns? && ev.c.id == id))
  }

  /** History `b` continues `a` without a process of this app. */
  predicate NoSpawn(a: seq<(Id, Definition)>, b: seq<(Id, Definition)>, id: Id)
  {
    a <= b && forall i :: |a| <= i < |b| ==> b[i].0 != id
  }

  /** The step leaves apps, disk, imports and history alone. */
  predicate AppsKept(s: State, t: State)
  {
    t.apps == s.apps && t.disk == s.disk && t.preApproved == s.preApproved && t.log == s.log
  }

  // ---- syncs ----

  lemma {:induction false} SpecsKeep(s: State, specs: seq<AppSpec>)
    ensures var t := ApplySpecs(s, specs).0;
            && t.sup == s.sup && t.work == s.work && t.host == s.host && t.disk == s.disk
            && t.log.spawned == s.log.spawned && t.log.approved == s.log.approved
  {
    if specs != [] {
      SpecsKeep(s, specs[..|specs| - 1]);
    }
  }

  lemma {:induction false} SpecsWish(s: State, specs: seq<AppSpec>, written: bool, id: Id)
    requires DesiredRunning(ApplySpecs(s, specs).0.apps, id)
    ensures DesiredRunning(s.apps, id) || MayWant(s, Sync(specs, written), id)
  {
    if specs != [] {
      var n := |specs| - 1;
      if specs[n].id == id {
        assert DesiredRunning(s.apps, id) || specs[n].desired == Running;
      } else {
        SpecsWish(s, specs[..n], written, id);
        if !DesiredRunning(s.apps, id) {
          var i :| 0 <= i < |specs[..n]| && specs[..n][i].id == id && specs[..n][i].desired == Running;
          assert specs[i].id == id;
        }
      }
    }
  }

  lemma SyncSteps(s: State, specs: seq<AppSpec>, written: bool)
    ensures var t := ApplyAppSync(s, specs, written);
            WorkStep(s, Sync(specs, written), t.work) && ProcStep(s, Sync(specs, written), t) && WishStep(s, Sync(specs, written), t)
  {
    hide ApplySpecs, MayWant;
    SpecsKeep(s, specs);
    var t := ApplyAppSync(s, specs, written);
    forall id | DesiredRunning(t.apps, id) || DesiredRunning(t.disk, id)
      ensures DesiredRunning(s.apps, id) || DesiredRunning(s.disk, id) || MayWant(s, Sync(specs, written), id)
    {
      if DesiredRunning(ApplySpecs(s, specs).0.apps, id) {
        SpecsWish(s, specs, written, id);
      }
    }
  }

  // ---- small facts about the operations ----

  lemma {:induction false} WithoutFewer(hs: seq<Hash>, x: Hash)
    ensures forall y :: y in Without(hs, x) ==> y in hs
  {
    if hs != [] && hs[0] != x {
      WithoutFewer(hs[1..], x);
    }
  }

  lemma ForgetNothing(s: State)
    ensures ForgetAll(s, {}) == s
  {
    var t := ForgetAll(s, {});
    assert t.apps == s.apps;
    assert t.sup.procs == s.sup.procs && t.sup.timers == s.sup.timers && t.sup.restarts == s.sup.restarts;
  }

  // ---- work ----

  /** Nothing but calls that were under way. */
  lemma LessWork(s: State, ev: Event, w: Work)
    requires w.starts <= s.work.starts && w.spawning <= s.work.spawning && w.stops <= s.work.stops && w.halting <= s.work.halting
    requires w.commands <= s.work.commands && w.exits <= s.work.exits && w.looked <= s.work.looked && w.arming <= s.work.arming
    ensures WorkStep(s, ev, w)
  {
    hide MayStart, MayStop, MayExit, Accepts, Schedules, LookAt, Crashed;
  }

  lemma MoreStart(s: State, ev: Event, w: Work, call: StartCall)
    requires WorkStep(s, ev, w) && MayStart(s, ev, call.id)
    ensures WorkStep(s, ev, w.(starts := w.starts + multiset{call}))
  {
    hide MayStart, MayStop, MayExit, Accepts, Schedules, LookAt, Crashed;
  }

  lemma MoreStop(s: State, ev: Event, w: Work, stop: StopCall)
    requires WorkStep(s, ev, w) && MayStop(s, ev, stop)
    ensures WorkStep(s, ev, w.(stops := w.stops + multiset{stop}))
  {
    hide MayStart, MayStop, MayExit, Accepts, Schedules, LookAt, Crashed;
  }

  lemma MoreExit(s: State, ev: Event, w: Work, id: Id)
    requires WorkStep(s, ev, w) && MayExit(s, ev, id)
    ensures WorkStep(s, ev, w.(exits := w.exits + multiset{id}))
  {
    hide MayStart, MayStop, MayExit, Accepts, Schedules, LookAt, Crashed;
  }

  lemma MoreHalt(s: State, ev: Event, w: Work, hl: Halt)
    requires WorkStep(s, ev, w) && ev.StopBegins? && ev.stop in s.work.stops && hl.call == ev.stop
    ensures WorkStep(s, ev, w.(halting := w.halting + multiset{hl}))
  {
    hide MayStart, MayStop, MayExit, Accepts, Schedules, LookAt, Crashed;
  }

  lemma BeginStartIs(s: State, call: StartCall, dockerOk: bool)
    requires call in s.work.starts
    ensures var w := s.work.(starts := s.work.starts - multiset{call});
            var v := BeginStart(s, call, dockerOk).work;
            || v == w
            || (call.id in s.apps && v == w.(spawning := w.spawning + multiset{Spawn(call, s.apps[call.id].def)}))
            || (call.fromTimer && v == w.(exits := w.exits + multiset{call.id}))
  {
  }

  lemma BeginStartWork(s: State, call: StartCall, dockerOk: bool)
    ensures WorkStep(s, StartBegins(call, dockerOk), BeginStart(s, call, dockerOk).work)
  {
    hide MayStart, MayStop, Accepts, BeginStart, Schedules;
    if call in s.work.starts {
      BeginStartIs(s, call, dockerOk);
      assert call.fromTimer ==> call == StartCall(call.id, true);
    } else {
      NoStart(s, call, dockerOk);
      SameWork(s, StartBegins(call, dockerOk), s.work);
    }
  }

  lemma NoStart(s: State, call: StartCall, dockerOk: bool)
    requires call !in s.work.starts
    ensures BeginStart(s, call, dockerOk) == s
  {
  }

  lemma FinishStartIs(s: State, sp: Spawn, ok: bool, now: int, written: bool)
    requires sp in s.work.spawning
    ensures var w := s.work.(spawning := s.work.spawning - multiset{sp});
            var v := FinishStart(s, sp, ok, now, written).work;
            v == w || (sp.call.fromTimer && !ok && v == w.(exits := w.exits + multiset{sp.call.id}))
  {
  }

  lemma FinishStartWork(s: State, sp: Spawn, ok: bool, now: int, written: bool)
    ensures WorkStep(s, StartEnds(sp, ok, now, written), FinishStart(s, sp, ok, now, written).work)
  {
    hide WorkStep;
    var ev := StartEnds(sp, ok, now, written);
    if sp in s.work.spawning {
      FinishStartIs(s, sp, ok, now, written);
      hide FinishStart;
      var w := s.work.(spawning := s.work.spawning - multiset{sp});
      LessWork(s, ev, w);
      if sp.call.fromTimer && !ok {
        assert sp.call == StartCall(sp.call.id, true);
        MoreExit(s, ev, w, sp.call.id);
      }
    } else {
      SameWork(s, ev, s.work);
    }
  }

  lemma LookWork(s: State, id: Id)
    ensures WorkStep(s, ExitLooks(id), LookExit(s, id).work)
  {
    hide MayStart, MayStop, Accepts, LookAt, Crashed;
  }

  lemma CountWork(s: State, l: Look, now: int)
    ensures WorkStep(s, ExitCounts(l, now), CountExit(s, l, now).work)
  {
    hide MayStart, MayStop, Accepts, Counted, Schedules, RefOf, Count;
  }

  lemma ArmsWork(s: State, a: Arming)
    ensures WorkStep(s, Arms(a), ArmTimer(s, a).work)
  {
    hide MayStart, MayStop, Accepts, Schedules;
  }

  lemma ObservedWork(s: State, p: Pid)
    ensures WorkStep(s, Observed(p), ExitObserved(s, p).work)
  {
    hide MayStart, MayStop, Accepts, Schedules;
  }

  lemma BeginStopIs(s: State, stop: StopCall, dockerOk: bool)
    requires stop in s.work.stops
    ensures var w := s.work.(stops := s.work.stops - multiset{stop});
            var v := BeginStop(s, stop, dockerOk).work;
            || v == w
            || (stop.thenStart && v == w.(starts := w.starts + multiset{StartCall(stop.id, false)}))
            || (stop.id in s.sup.procs && v == w.(halting := w.halting + multiset{Halt(stop, s.sup.procs[stop.id])}))
  {
    hide Detach;
  }

  lemma BeginStopWork(s: State, stop: StopCall, dockerOk: bool)
    ensures WorkStep(s, StopBegins(stop, dockerOk), BeginStop(s, stop, dockerOk).work)
  {
    hide BeginStop, WorkStep;
    var ev := StopBegins(stop, dockerOk);
    if stop in s.work.stops {
      BeginStopIs(s, stop, dockerOk);
      var w := s.work.(stops := s.work.stops - multiset{stop});
      LessWork(s, ev, w);
      if stop.thenStart {
        assert stop == StopCall(stop.id, true);
        MoreStart(s, ev, w, StartCall(stop.id, false));
      }
      if stop.id in s.sup.procs {
        MoreHalt(s, ev, w, Halt(stop, s.sup.procs[stop.id]));
      }
    } else {
      NoStop(s, stop, dockerOk);
      SameWork(s, ev, s.work);
    }
  }

  lemma NoStop(s: State, stop: StopCall, dockerOk: bool)
    requires stop !in s.work.stops
    ensures BeginStop(s, stop, dockerOk) == s
  {
  }

  lemma FinishStopIs(s: State, hl: Halt, ok: bool, written: bool)
    requires hl in s.work.halting
    ensures var t := FinishStop(s, hl, ok, written);
            var w := s.work.(halting := s.work.halting - multiset{hl});
            t.work == if ok && hl.call.thenStart then w.(starts := w.starts + multiset{StartCall(hl.call.id, false)}) else w
  {
  }

  lemma FinishStopWork(s: State, hl: Halt, ok: bool, written: bool)
    ensures WorkStep(s, StopEnds(hl, ok, written), FinishStop(s, hl, ok, written).work)
  {
    if hl in s.work.halting {
      hide FinishStop;
      FinishStopIs(s, hl, ok, written);
      assert hl.call == StopCall(hl.call.id, true) || !hl.call.thenStart;
    } else {
      SameWork(s, StopEnds(hl, ok, written), s.work);
    }
  }

  lemma SetDesiredKeeps(s: State, id: Id, d: Desired, written: bool)
    ensures var t := SetDesired(s, id, d, written); t.work == s.work && t.sup == s.sup && t.host == s.host && t.log == s.log
  {
  }

  function CommandWork(w: Work, c: Command): Work
  {
    if c !in w.commands then w
    else
      var v := w.(commands := w.commands - multiset{c});
      match c.verb
      case Start => v.(starts := v.starts + multiset{StartCall(c.id, false)})
      case Stop => v.(stops := v.stops + multiset{StopCall(c.id, false)})
      case Restart => v.(stops := v.stops + multiset{StopCall(c.id, true)})
      case Other => v
  }

  lemma CommandKeeps(s: State, c: Command, written: bool)
    ensures var t := Execute(s, c, written); t.work == CommandWork(s.work, c) && t.sup == s.sup && t.host == s.host && t.log == s.log
  {
    hide SetDesired;
    var t := s.(work := s.work.(commands := s.work.commands - multiset{c}));
    SetDesiredKeeps(t, c.id, if c.verb == Stop then Stopped else Running, written);
  }

  lemma CommandSteps(s: State, c: Command, written: bool)
    ensures WorkStep(s, CommandRuns(c, written), Execute(s, c, written).work)
    ensures ProcStep(s, CommandRuns(c, written), Execute(s, c, written))
  {
    hide Execute, WorkStep;
    CommandKeeps(s, c, written);
    var ev := CommandRuns(c, written);
    if c in s.work.commands {
      var w := s.work.(commands := s.work.commands - multiset{c});
      LessWork(s, ev, w);
      match c.verb {
        case Start =>
          assert c == Command(c.id, Start);
          MoreStart(s, ev, w, StartCall(c.id, false));
        case Stop =>
          assert c == Command(c.id, Stop);
          MoreStop(s, ev, w, StopCall(c.id, false));
        case Restart =>
          assert c == Command(c.id, Restart);
          MoreStop(s, ev, w, StopCall(c.id, true));
        case Other =>
      }
    } else {
      LessWork(s, ev, s.work);
    }
  }

  lemma FiresWork(s: State, t: TimerId)
    ensures WorkStep(s, Fires(t), TimerFires(s, t).work)
  {
    hide Wanted;
  }

  lemma SameWork(s: State, ev: Event, w: Work)
    requires w == s.work
    ensures WorkStep(s, ev, w)
  {
    hide MayStart, MayStop, Accepts, MayExit, Schedules;
  }

  lemma CommandedWork(s: State, id: Id, verb: Verb, hash: Hash)
    ensures WorkStep(s, Commanded(id, verb, hash), Accept(s, id, verb, hash).work)
  {
    hide Accepts;
  }

  lemma OtherWork(h: Definition -> Hash, s: State, ev: Event)
    requires ev.Imported? || ev.Decided? || ev.Exits? || ev.TreeGone? || ev.DockerPoll?
    ensures Next(h, s, ev).work == s.work
  {
    hide StartsFor, StopsFor;
  }

  lemma ReconcileWork(s: State)
    ensures WorkStep(s, Converge, Reconcile(s).work)
  {
    hide WantStart, WantStop;
  }

  lemma RebootWork(s: State, reaped: set<Pid>, written: bool)
    ensures WorkStep(s, Boot(reaped, written), Reboot(s, reaped, written).work)
  {
    hide Orphans, Reaped, Wanted;
  }

  lemma StepWork(h: Definition -> Hash, s: State, ev: Event)
    ensures WorkStep(s, ev, Next(h, s, ev).work)
  {
    match ev {
      case Sync(specs, written) =>
        hide WorkStep, ApplyAppSync;
        SyncSteps(s, specs, written);
      case Converge =>
        hide WorkStep, Reconcile;
        ReconcileWork(s);
      case CommandRuns(c, written) =>
        hide WorkStep, ProcStep, Execute;
        CommandSteps(s, c, written);
      case Fires(t) =>
        hide WorkStep, TimerFires;
        FiresWork(s, t);
      case Observed(p) =>
        hide WorkStep, ExitObserved;
        ObservedWork(s, p);
      case ExitLooks(id) =>
        hide WorkStep, LookExit;
        LookWork(s, id);
      case ExitCounts(l, now) =>
        hide WorkStep, CountExit;
        CountWork(s, l, now);
      case Arms(a) =>
        hide WorkStep, ArmTimer;
        ArmsWork(s, a);
      case StartBegins(call, dockerOk) =>
        hide WorkStep, BeginStart;
        BeginStartWork(s, call, dockerOk);
      case StartEnds(sp, ok, now, written) =>
        hide WorkStep, FinishStart;
        FinishStartWork(s, sp, ok, now, written);
      case StopBegins(stop, dockerOk) =>
        hide WorkStep, BeginStop;
        BeginStopWork(s, stop, dockerOk);
      case StopEnds(hl, ok, written) =>
        hide WorkStep, FinishStop;
        FinishStopWork(s, hl, ok, written);
      case Boot(reaped, written) =>
        hide WorkStep, Reboot;
        RebootWork(s, reaped, written);
      case Commanded(id, verb, hash) =>
        hide WorkStep, Accept;
        CommandedWork(s, id, verb, hash);
      case _ =>
        hide WorkStep, Next;
        OtherWork(h, s, ev);
        SameWork(s, ev, Next(h, s, ev).work);
    }
  }

  // ---- processes ----

  lemma BeginStartProc(s: State, call: StartCall, dockerOk: bool)
    ensures ProcStep(s, StartBegins(call, dockerOk), BeginStart(s, call, dockerOk))
  {
  }

  lemma FinishStartProc(s: State, sp: Spawn, ok: bool, now: int, written: bool)
    ensures ProcStep(s, StartEnds(sp, ok, now, written), FinishStart(s, sp, ok, now, written))
  {
  }

  lemma ObservedProc(s: State, p: Pid)
    ensures ProcStep(s, Observed(p), ExitObserved(s, p))
  {
  }

  lemma LookProc(s: State, id: Id)
    ensures var t := LookExit(s, id); t.sup.procs == s.sup.procs && AppsKept(s, t) && t.host == s.host
  {
    hide Crashed, LookAt;
  }

  lemma CountProc(s: State, l: Look, now: int)
    ensures var t := CountExit(s, l, now); t.sup.procs == s.sup.procs && AppsKept(s, t) && t.host == s.host
  {
    hide Schedules, Count;
  }

  lemma BeginStopProc(s: State, stop: StopCall, dockerOk: bool)
    ensures ProcStep(s, StopBegins(stop, dockerOk), BeginStop(s, stop, dockerOk))
  {
    hide CancelRestart;
  }

  lemma FinishStopProc(s: State, hl: Halt, ok: bool, written: bool)
    ensures ProcStep(s, StopEnds(hl, ok, written), FinishStop(s, hl, ok, written))
  {
  }

  lemma SameProc(s: State, ev: Event, t: State)
    requires t.log.spawned == s.log.spawned && t.host.nextPid == s.host.nextPid
    requires t.sup.procs == s.sup.procs || t.sup.procs == map[]
    ensures ProcStep(s, ev, t)
  {
  }

  lemma OtherProc(h: Definition -> Hash, s: State, ev: Event)
    requires !ev.StartBegins? && !ev.StartEnds? && !ev.Observed? && !ev.Sync? && !ev.CommandRuns? && !ev.StopBegins? && !ev.StopEnds? && !ev.ExitLooks? && !ev.ExitCounts?
    ensures var t := Next(h, s, ev);
            t.log.spawned == s.log.spawned && t.host.nextPid == s.host.nextPid && (t.sup.procs == s.sup.procs || t.sup.procs == map[])
  {
    hide StartsFor, StopsFor, Orphans, Reaped, Resurrected, Wanted;
  }

  lemma StepProc(h: Definition -> Hash, s: State, ev: Event)
    ensures ProcStep(s, ev, Next(h, s, ev))
  {
    match ev {
      case Sync(specs, written) =>
        hide ProcStep, ApplyAppSync;
        SyncSteps(s, specs, written);
      case StartBegins(call, dockerOk) =>
        hide ProcStep, BeginStart;
        BeginStartProc(s, call, dockerOk);
      case StartEnds(sp, ok, now, written) =>
        hide ProcStep, FinishStart;
        FinishStartProc(s, sp, ok, now, written);
      case Observed(p) =>
        hide ProcStep, ExitObserved;
        ObservedProc(s, p);
      case ExitLooks(id) =>
        hide ProcStep, LookExit;
        LookProc(s, id);
        SameProc(s, ev, LookExit(s, id));
      case ExitCounts(l, now) =>
        hide ProcStep, CountExit;
        CountProc(s, l, now);
        SameProc(s, ev, CountExit(s, l, now));
      case CommandRuns(c, written) =>
        hide WorkStep, ProcStep, Execute;
        CommandSteps(s, c, written);
      case StopBegins(stop, dockerOk) =>
        hide ProcStep, BeginStop;
        BeginStopProc(s, stop, dockerOk);
      case StopEnds(hl, ok, written) =>
        hide ProcStep, FinishStop;
        FinishStopProc(s, hl, ok, written);
      case _ =>
        hide ProcStep, Next;
        OtherProc(h, s, ev);
        SameProc(s, ev, Next(h, s, ev));
    }
  }

  // ---- wishes ----

  lemma LastPidWish(s: State, id: Id, p: nat, written: bool)
    requires id in s.apps
    ensures var t := SetLastPid(s, id, p, written);
            forall i :: DesiredRunning(t.apps, i) || DesiredRunning(t.disk, i) ==> DesiredRunning(s.apps, i) || DesiredRunning(s.disk, i)
  {
  }

  lemma SetDesiredWish(s: State, id: Id, d: Desired, written: bool)
    ensures var t := SetDesired(s, id, d, written);
            forall i :: DesiredRunning(t.apps, i) || DesiredRunning(t.disk, i) ==>
              DesiredRunning(s.apps, i) || DesiredRunning(s.disk, i) || (i == id && d == Running)
  {
  }

  lemma CommandWish(s: State, c: Command, written: bool)
    ensures WishStep(s, CommandRuns(c, written), Execute(s, c, written))
  {
    hide SetDesired, DesiredRunning;
    var t := s.(work := s.work.(commands := s.work.commands - multiset{c}));
    SetDesiredWish(t, c.id, if c.verb == Stop then Stopped else Running, written);
  }

  lemma FinishStartWish(s: State, sp: Spawn, ok: bool, now: int, written: bool)
    ensures WishStep(s, StartEnds(sp, ok, now, written), FinishStart(s, sp, ok, now, written))
  {
    hide SetLastPid;
    if sp in s.work.spawning && ok && sp.call.id in s.apps {
      LastPidWish(Recorded(s.(work := s.work.(spawning := s.work.spawning - multiset{sp})), sp.call.id, sp.def, now),
                  sp.call.id, s.host.nextPid, written);
    }
  }

  lemma FinishStopWish(s: State, hl: Halt, ok: bool, written: bool)
    ensures WishStep(s, StopEnds(hl, ok, written), FinishStop(s, hl, ok, written))
  {
  }

  lemma RebootWish(s: State, reaped: set<Pid>, written: bool)
    ensures WishStep(s, Boot(reaped, written), Reboot(s, reaped, written))
  {
    hide Orphans, Wanted;
  }

  lemma DecideWish(s: State, id: Id, approve: bool, written: bool)
    ensures WishStep(s, Decided(id, approve, written), Decide(s, id, approve, written))
  {
  }

  lemma SameWish(s: State, ev: Event, t: State)
    requires t.apps == s.apps && t.disk == s.disk
    ensures WishStep(s, ev, t)
  {
    hide MayWant;
  }

  lemma StepWish(h: Definition -> Hash, s: State, ev: Event)
    ensures WishStep(s, ev, Next(h, s, ev))
  {
    match ev {
      case Sync(specs, written) =>
        hide WishStep, ApplyAppSync;
        SyncSteps(s, specs, written);
      case StartEnds(sp, ok, now, written) =>
        hide WishStep, FinishStart;
        FinishStartWish(s, sp, ok, now, written);
      case StopEnds(hl, ok, written) =>
        hide WishStep, FinishStop;
        FinishStopWish(s, hl, ok, written);
      case CommandRuns(c, written) =>
        hide WishStep, Execute;
        CommandWish(s, c, written);
      case Boot(reaped, written) =>
        hide WishStep, Reboot;
        RebootWish(s, reaped, written);
      case Decided(id, approve, written) =>
        hide WishStep, Decide;
        DecideWish(s, id, approve, written);
      case _ =>
        hide WishStep, Next;
        OtherAppStep(h, s, ev);
        SameWish(s, ev, Next(h, s, ev));
    }
  }

  // ---- apps ----

  lemma SetDesiredApps(s: State, id: Id, d: Desired, written: bool)
    ensures var t := SetDesired(s, id, d, written);
            t.apps.Keys == s.apps.Keys && forall i :: i in s.apps ==>
              t.apps[i].def == s.apps[i].def && t.apps[i].hash == s.apps[i].hash && t.apps[i].approval == s.apps[i].approval
              && (t.apps[i].desired == s.apps[i].desired || i == id)
  {
  }

  lemma CommandApps(s: State, c: Command, written: bool)
    ensures AppStep(s, CommandRuns(c, written), Execute(s, c, written))
  {
    hide SetDesired;
    var t := s.(work := s.work.(commands := s.work.commands - multiset{c}));
    SetDesiredApps(t, c.id, if c.verb == Stop then Stopped else Running, written);
  }

  lemma FinishStartApps(s: State, sp: Spawn, ok: bool, now: int, written: bool)
    ensures AppStep(s, StartEnds(sp, ok, now, written), FinishStart(s, sp, ok, now, written))
  {
    if sp in s.work.spawning && ok && sp.call.id in s.apps {
      var t := s.(work := s.work.(spawning := s.work.spawning - multiset{sp}));
      var v := Recorded(t, sp.call.id, sp.def, now);
      LastPidApps(v, sp.call.id, s.host.nextPid, written);
      assert v.apps == s.apps;
      hide SetLastPid, Recorded;
    }
  }

  lemma LastPidApps(s: State, id: Id, p: nat, written: bool)
    requires id in s.apps
    ensures var t := SetLastPid(s, id, p, written);
            t.apps.Keys == s.apps.Keys && forall i :: i in s.apps ==>
              t.apps[i].def == s.apps[i].def && t.apps[i].hash == s.apps[i].hash && t.apps[i].approval == s.apps[i].approval
              && t.apps[i].desired == s.apps[i].desired
  {
  }

  /** Every app but its last pid is as it was. */
  predicate SameButPid(a: Apps, b: Apps)
  {
    && b.Keys == a.Keys
    && forall i :: i in a ==> b[i].def == a[i].def && b[i].hash == a[i].hash && b[i].approval == a[i].approval && b[i].desired == a[i].desired
  }

  lemma StoppedApps(s: State, hl: Halt, ok: bool, written: bool)
    ensures SameButPid(s.apps, FinishStop(s, hl, ok, written).apps)
  {
    hide SetLastPid;
    if hl.call.id in s.apps {
      LastPidApps(Killed(s.(work := s.work.(halting := s.work.halting - multiset{hl})), hl.pid), hl.call.id, 0, written);
    }
  }

  lemma FinishStopApps(s: State, hl: Halt, ok: bool, written: bool)
    ensures AppStep(s, StopEnds(hl, ok, written), FinishStop(s, hl, ok, written))
  {
    hide FinishStop;
    StoppedApps(s, hl, ok, written);
  }

  lemma DecidedApps(s: State, id: Id, approve: bool, written: bool)
    requires id in s.apps
    ensures Decide(s, id, approve, written).apps == s.apps[id := s.apps[id].(approval := if approve then Approved else Rejected)]
  {
  }

  lemma DecideApps(s: State, id: Id, approve: bool, written: bool)
    ensures AppStep(s, Decided(id, approve, written), Decide(s, id, approve, written))
  {
    if id in s.apps {
      hide Decide;
      DecidedApps(s, id, approve, written);
    }
  }

  lemma BeginStartKeeps(s: State, call: StartCall, dockerOk: bool)
    ensures AppsKept(s, BeginStart(s, call, dockerOk))
  {
  }

  lemma BeginStopKeeps(s: State, stop: StopCall, dockerOk: bool)
    ensures AppsKept(s, BeginStop(s, stop, dockerOk))
  {
    hide Detach;
  }

  lemma ObservedKeeps(s: State, p: Pid)
    ensures AppsKept(s, ExitObserved(s, p))
  {
  }

  lemma OtherAppStep(h: Definition -> Hash, s: State, ev: Event)
    requires !ev.StartEnds? && !ev.StopEnds? && !ev.CommandRuns? && !ev.Sync? && !ev.Boot? && !ev.Decided?
    ensures Next(h, s, ev).apps == s.apps && Next(h, s, ev).disk == s.disk
    ensures Next(h, s, ev).log.spawned == s.log.spawned && (!ev.Imported? ==> Next(h, s, ev).log == s.log)
    ensures !ev.Imported? ==> Next(h, s, ev).preApproved == s.preApproved
  {
    match ev {
      case StartBegins(call, dockerOk) =>
        hide BeginStart;
        BeginStartKeeps(s, call, dockerOk);
      case StopBegins(stop, dockerOk) =>
        hide BeginStop;
        BeginStopKeeps(s, stop, dockerOk);
      case Observed(p) =>
        hide ExitObserved;
        ObservedKeeps(s, p);
      case ExitLooks(id) =>
        hide LookExit;
        LookProc(s, id);
      case ExitCounts(l, now) =>
        hide CountExit;
        CountProc(s, l, now);
      case _ =>
        hide StartsFor, StopsFor, Wanted;
    }
  }

  lemma StepApps(h: Definition -> Hash, s: State, ev: Event)
    ensures AppStep(s, ev, Next(h, s, ev))
  {
    match ev {
      case StartEnds(sp, ok, now, written) =>
        hide AppStep, FinishStart;
        FinishStartApps(s, sp, ok, now, written);
      case StopEnds(hl, ok, written) =>
        hide AppStep, FinishStop;
        FinishStopApps(s, hl, ok, written);
      case CommandRuns(c, written) =>
        hide AppStep, Execute;
        CommandApps(s, c, written);
      case Sync(_, _) =>
        hide Next;
      case Boot(_, _) =>
        hide Next;
      case Decided(id, approve, written) =>
        hide AppStep, Decide;
        DecideApps(s, id, approve, written);
      case _ =>
        hide Next;
        OtherAppStep(h, s, ev);
    }
  }

  // ---- the actions of reconcile, app by app ----

  lemma MultisetMore<T>(a: set<T>, x: T)
    requires x !in a
    ensures multiset(a + {x}) == multiset(a) + multiset{x}
  {
  }

  lemma {:induction false} SpecsKeys(s: State, specs: seq<AppSpec>)
    ensures ApplySpecs(s, specs).0.apps.Keys == s.apps.Keys + Ids(specs)
  {
    if specs != [] {
      var n := |specs| - 1;
      SpecsKeys(s, specs[..n]);
      assert specs == specs[..n] + [specs[n]];
      assert Ids(specs) == Ids(specs[..n]) + {specs[n].id};
    }
  }

  lemma StartsMore(s: State, seen: set<Id>, id: Id)
    requires id !in seen
    ensures StartsFor(s, seen + {id}) == StartsFor(s, seen) + (if WantStart(s, id) then multiset{StartCall(id, false)} else multiset{})
  {
    hide WantStart;
    var a := set i | i in seen + {id} && WantStart(s, i) :: StartCall(i, false);
    var b := set i | i in seen && WantStart(s, i) :: StartCall(i, false);
    assert StartCall(id, false) !in b;
    MultisetMore(b, StartCall(id, false));
    if WantStart(s, id) {
      assert a == b + {StartCall(id, false)};
    } else {
      assert a == b;
      assert multiset(b) + multiset{} == multiset(b);
    }
  }

  lemma StopsMore(s: State, seen: set<Id>, id: Id)
    requires id !in seen
    ensures StopsFor(s, seen + {id}) == StopsFor(s, seen) + (if WantStop(s, id) then multiset{StopCall(id, false)} else multiset{})
  {
    hide WantStop;
    var a := set i | i in seen + {id} && WantStop(s, i) :: StopCall(i, false);
    var b := set i | i in seen && WantStop(s, i) :: StopCall(i, false);
    assert StopCall(id, false) !in b;
    MultisetMore(b, StopCall(id, false));
    if WantStop(s, id) {
      assert a == b + {StopCall(id, false)};
    } else {
      assert a == b;
      assert multiset(b) + multiset{} == multiset(b);
    }
  }

  lemma NoWants(s: State, none: set<Id>)
    requires none == {}
    ensures StartsFor(s, none) == multiset{} && StopsFor(s, none) == multiset{}
  {
    hide WantStart, WantStop;
    assert (set id | id in none && WantStart(s, id) :: StartCall(id, false)) == {};
    assert (set id | id in none && WantStop(s, id) :: StopCall(id, false)) == {};
  }
}
