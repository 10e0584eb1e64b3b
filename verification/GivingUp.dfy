/** Giving up on a crash-looping app (agent/internal/daemon/restart.go): what it means, when it
    holds, and when it does not. */
module GivingUp {

  import opened Agent
  import opened AgentSteps
  import opened Restarts

  /** Nothing under way would start the app or touch its bookkeeping. */
  predicate NothingPending(s: State, id: Id)
  {
    (forall t :: t in s.sup.timers ==> s.sup.timers[t] != id) && CallsQuiet(s.work, id) && NoExit(s.work, id)
  }

  predicate NoExit(w: Work, id: Id)
  {
    id !in w.exits && forall l :: l in w.looked ==> l.id != id
  }

  /** ... an exit to be counted aside. */
  predicate CallsQuiet(w: Work, id: Id)
  {
    && (forall c :: c in w.starts ==> c.id != id)
    && (forall sp :: sp in w.spawning ==> sp.call.id != id)
    && (forall c :: c in w.stops ==> c.id != id)
    && (forall hl :: hl in w.halting ==> hl.call.id != id)
    && (forall c :: c in w.commands ==> c.id != id)
    && (forall a :: a in w.arming ==> a.id != id)
  }

  /** A process app that crashed, has restart bookkeeping, and is left alone. */
  predicate Abandoned(s: State, id: Id)
  {
    && Kept(s.sup, id) && id !in s.sup.procs
    && id in s.apps && !IsDocker(s.apps[id].def.kind)
    && NothingPending(s, id)
  }

  /** The bookkeeping half of it. */
  predicate Kept(u: Sup, id: Id)
  {
    Known(u, id) && CellOf(u, id).timer.Some? && forall t :: t in u.timers ==> u.timers[t] != id
  }

  /** No user command for the app, no reboot, and the hub keeps listing it as a process app. */
  predicate LeavesAlone(ev: Event, id: Id)
  {
    match ev
    case Commanded(i, _, _) => i != id
    case Sync(specs, _) => id in Ids(specs) && forall i :: 0 <= i < |specs| && specs[i].id == id ==> !IsDocker(specs[i].def.kind)
    case Boot(_, _) => false
    case _ => true
  }

  lemma KeptCells(u: Sup, v: Sup, id: Id)
    requires Kept(u, id) && Known(v, id) && CellOf(v, id).timer == CellOf(u, id).timer
    requires forall t :: t in v.timers ==> t in u.timers && v.timers[t] == u.timers[t]
    ensures Kept(v, id)
  {
  }

  lemma SyncKept(s: State, specs: seq<AppSpec>, written: bool, id: Id)
    requires Kept(s.sup, id) && id in Ids(specs)
    ensures Kept(ApplyAppSync(s, specs, written).sup, id)
  {
    SyncBook(s, specs, written);
    hide ApplySpecs, ApplyAppSync, TimersOf, Ids;
    KeptCells(s.sup, ApplyAppSync(s, specs, written).sup, id);
  }

  lemma StopKept(s: State, stop: StopCall, dockerOk: bool, id: Id)
    requires Kept(s.sup, id) && stop.id != id
    ensures Kept(BeginStop(s, stop, dockerOk).sup, id)
  {
    if stop in s.work.stops {
      BeginStopBook(s, stop, dockerOk);
      hide BeginStop, Kept;
      KeptCells(s.sup, BeginStop(s, stop, dockerOk).sup, id);
    }
  }

  lemma CountKept(s: State, l: Look, now: int, id: Id)
    requires CellsOk(s.sup) && Kept(s.sup, id) && l.id != id
    ensures Kept(CountExit(s, l, now).sup, id)
  {
    if l in s.work.looked {
      CountIs(s, l, now);
      hide CountExit, Kept, Count;
      KeptCells(s.sup, CountExit(s, l, now).sup, id);
    }
  }

  lemma LookKept(s: State, i: Id, id: Id)
    requires Kept(s.sup, id)
    ensures Kept(LookExit(s, i).sup, id)
  {
    LookBook(s, i);
    hide LookExit;
  }

  lemma ArmsKept(s: State, a: Arming, id: Id)
    requires CellsOk(s.sup) && ArmingOk(s.sup, s.work) && Kept(s.sup, id) && a.id != id
    ensures Kept(ArmTimer(s, a).sup, id)
  {
  }

  lemma FiresKept(s: State, t: TimerId, id: Id)
    requires Kept(s.sup, id)
    ensures Kept(TimerFires(s, t).sup, id)
  {
    FiresBook(s, t);
    hide TimerFires;
    KeptCells(s.sup, TimerFires(s, t).sup, id);
  }

  lemma SupParts(s: State)
    requires SupOk(s)
    ensures CellsOk(s.sup) && ArmingOk(s.sup, s.work)
  {
    hide CellsOk, TimersOk, ArmingOk, LooksOk;
  }

  /** Nothing of the app is under way. */
  lemma NothingComing(s: State, id: Id)
    requires Abandoned(s, id)
    ensures Kept(s.sup, id)
    ensures forall c :: c in s.work.stops ==> c.id != id
    ensures forall l :: l in s.work.looked ==> l.id != id
    ensures forall a :: a in s.work.arming ==> a.id != id
  {
    hide Kept;
  }

  lemma StepKept(h: Definition -> Hash, s: State, ev: Event, id: Id)
    requires SupOk(s) && Abandoned(s, id) && LeavesAlone(ev, id)
    ensures Kept(Next(h, s, ev).sup, id)
  {
    hide SupOk, Abandoned, Kept, CellsOk, ArmingOk;
    NothingComing(s, id);
    SupParts(s);
    match ev {
      case Sync(specs, written) =>
        hide ApplyAppSync;
        SyncKept(s, specs, written, id);
      case StopBegins(stop, dockerOk) =>
        if stop in s.work.stops {
          hide BeginStop;
          StopKept(s, stop, dockerOk, id);
        }
      case Fires(t) =>
        hide TimerFires;
        FiresKept(s, t, id);
      case ExitLooks(i) =>
        hide LookExit;
        LookKept(s, i, id);
      case ExitCounts(l, now) =>
        if l in s.work.looked {
          hide CountExit;
          CountKept(s, l, now, id);
        }
      case Arms(a) =>
        if a in s.work.arming {
          hide ArmTimer;
          ArmsKept(s, a, id);
        }
      case Boot(_, _) =>
        hide Next;
      case _ =>
        hide Next, LeavesAlone;
        OtherBook(h, s, ev);
        BookKept(s, Next(h, s, ev), id);
    }
  }

  lemma BookKept(s: State, t: State, id: Id)
    requires Kept(s.sup, id) && SameBook(s, t)
    ensures Kept(t.sup, id)
  {
  }

  lemma {:induction false} SpecsList(s: State, specs: seq<AppSpec>, id: Id)
    requires id in s.apps && !IsDocker(s.apps[id].def.kind)
    requires forall i :: 0 <= i < |specs| && specs[i].id == id ==> !IsDocker(specs[i].def.kind)
    ensures var t := ApplySpecs(s, specs).0; id in t.apps && !IsDocker(t.apps[id].def.kind)
  {
    hide ApprovalOf, Without;
    if specs != [] {
      SpecsList(s, specs[..|specs| - 1], id);
    }
  }

  lemma SyncApps(s: State, specs: seq<AppSpec>, id: Id, written: bool)
    requires id in s.apps && !IsDocker(s.apps[id].def.kind) && LeavesAlone(Sync(specs, written), id)
    ensures var t := ApplyAppSync(s, specs, written); id in t.apps && !IsDocker(t.apps[id].def.kind)
  {
    SpecsList(s, specs, id);
    hide ApplySpecs;
  }

  /** Once abandoned, an app stays down and is not started, whatever crashes, timers, syncs
      and reconciles follow, until a user commands it, the hub drops it, or the agent reboots. */
  lemma StepAbandons(h: Definition -> Hash, s: State, ev: Event, id: Id)
    requires SupOk(s) && Abandoned(s, id) && LeavesAlone(ev, id)
    ensures Abandoned(Next(h, s, ev), id)
    ensures NoSpawn(s.log.spawned, Next(h, s, ev).log.spawned, id)
  {
    hide Next, SupOk;
    StepKept(h, s, ev, id);
    StepApps(h, s, ev);
    if ev.Sync? {
      hide LeavesAlone;
      SyncApps(s, ev.specs, id, ev.written);
      SyncAbandons(h, s, ev, id);
    } else {
      QuietStep(h, s, ev, id);
    }
  }

  lemma SyncAbandons(h: Definition -> Hash, s: State, ev: Event, id: Id)
    requires ev.Sync? && Abandoned(s, id)
    ensures var t := Next(h, s, ev);
            t == ApplyAppSync(s, ev.specs, ev.written) && id !in t.sup.procs && t.work == s.work && t.log.spawned == s.log.spawned
  {
    hide ApplySpecs;
    SpecsKeep(s, ev.specs);
  }

  lemma QuietStep(h: Definition -> Hash, s: State, ev: Event, id: Id)
    requires Abandoned(s, id) && LeavesAlone(ev, id) && !ev.Sync?
    ensures var t := Next(h, s, ev);
            id !in t.sup.procs && CallsQuiet(t.work, id) && NoExit(t.work, id) && NoSpawn(s.log.spawned, t.log.spawned, id)
  {
    hide Next, DesiredRunning, Kept, Schedules;
    StepWork(h, s, ev);
    StepProc(h, s, ev);
    NoCause(s, ev, id);
    hide MayStart, MayStop, MayExit;
  }

  lemma NoCause(s: State, ev: Event, id: Id)
    requires Abandoned(s, id) && LeavesAlone(ev, id)
    ensures !MayStart(s, ev, id) && !MayExit(s, ev, id)
    ensures !MayStop(s, ev, StopCall(id, true)) && !MayStop(s, ev, StopCall(id, false))
  {
  }

  lemma {:induction false} StaysAbandoned(h: Definition -> Hash, s: State, evs: seq<Event>, id: Id)
    requires SupOk(s) && Abandoned(s, id) && forall i :: 0 <= i < |evs| ==> LeavesAlone(evs[i], id)
    ensures SupOk(RunFrom(h, s, evs)) && Abandoned(RunFrom(h, s, evs), id)
    ensures NoSpawn(s.log.spawned, RunFrom(h, s, evs).log.spawned, id)
  {
    hide Next, SupOk, Abandoned, LeavesAlone;
    if evs != [] {
      var n := |evs| - 1;
      StaysAbandoned(h, s, evs[..n], id);
      StepAbandons(h, RunFrom(h, s, evs[..n]), evs[n], id);
      StepKeepsSup(h, RunFrom(h, s, evs[..n]), evs[n]);
    }
  }

  /** A crash of the app is to be counted; nothing else is under way for the app. */
  predicate Crashing(s: State, l: Look)
  {
    && s.work.looked[l] == 1 && (forall k :: k in s.work.looked && k.id == l.id ==> k == l)
    && l.id !in s.work.exits && CallsQuiet(s.work, l.id) && l.id !in s.sup.procs
    && l.id in s.apps && !IsDocker(s.apps[l.id].def.kind)
  }

  /** A crash abandons the app exactly when it is one too many and no timer of an earlier crash
      is still armed: giving up does not stop that timer. */
  lemma AbandonedIff(s: State, l: Look, now: int)
    requires SupOk(s) && Crashing(s, l)
    ensures Abandoned(CountExit(s, l, now), l.id) <==>
              Count(s.sup, l, now) > l.max && forall tm :: tm in s.sup.timers ==> s.sup.timers[tm] != l.id
  {
    hide Healthy, TimersOk;
    var t := CountExit(s, l, now);
    if Schedules(s.sup, l, now) {
      assert Arming(l.id, RefOf(s.sup, l.id)) in t.work.arming;
    } else {
      assert Known(s.sup, l.id);
      assert t.sup.timers == s.sup.timers;
    }
  }

  /** What the armed timer then does: the app that was given up is started again, if it is still
      wanted. */
  lemma GivenUpYetStarted(s: State, l: Look, now: int, tm: TimerId)
    requires Crashing(s, l) && tm in s.sup.timers && s.sup.timers[tm] == l.id
    ensures StartCall(l.id, true) in TimerFires(CountExit(s, l, now), tm).work.starts <==> Wanted(s.apps, l.id)
  {
    hide Count;
  }

  /** The exit of the app's process has been observed; nothing else is under way for the app. */
  predicate Exiting(s: State, id: Id)
  {
    && s.work.exits[id] == 1 && CallsQuiet(s.work, id) && id !in s.sup.procs
    && Wanted(s.apps, id) && !IsDocker(s.apps[id].def.kind)
  }

  /** The exit has been looked at, and counted if it concerns the policy. */
  function CountedExit(s: State, id: Id, now: int): State
  {
    var t := LookExit(s, id);
    if Crashed(s.apps, id) then CountExit(t, LookAt(s.apps, s.sup, id), now) else t
  }

  /** ... and its timer armed if it gets one. */
  function Handled(s: State, id: Id, now: int): State
  {
    var t := CountedExit(s, id, now);
    if Crashed(s.apps, id) && Schedules(s.sup, LookAt(s.apps, s.sup, id), now) then ArmTimer(t, Arming(id, RefOf(s.sup, id)))
    else t
  }

  /** What counting the exit does, in terms of the state before. */
  lemma CountedIs(s: State, id: Id, now: int)
    requires SupOk(s) && Exiting(s, id)
    ensures var t := CountedExit(s, id, now);
            && t.apps == s.apps && !Up(t, id) && t.sup.timers == s.sup.timers && t.sup.nextTimer == s.sup.nextTimer
            && (!Crashed(s.apps, id) ==> t.sup.restarts == s.sup.restarts && t.sup.cells == s.sup.cells && t.work.arming == s.work.arming)
            && (Crashed(s.apps, id) ==>
                  var l := LookAt(s.apps, s.sup, id);
                  && t.sup.restarts == s.sup.restarts[id := RefOf(s.sup, id)]
                  && t.sup.cells == s.sup.cells[RefOf(s.sup, id) := CellOf(s.sup, id).(count := Count(s.sup, l, now))]
                  && (Schedules(s.sup, l, now) ==> Arming(id, RefOf(s.sup, id)) in t.work.arming))
  {
    hide PolicyFor, Count, CellOf, Known, TimersOk;
    if Crashed(s.apps, id) {
      var t, l := LookExit(s, id), LookAt(s.apps, s.sup, id);
      assert l in t.work.looked;
      LookSame(s, t, l, now);
      CountIs(t, l, now);
    }
  }

  lemma LookSame(s: State, t: State, l: Look, now: int)
    requires t.sup == s.sup.(startTimes := t.sup.startTimes)
    ensures Count(t.sup, l, now) == Count(s.sup, l, now) && CellOf(t.sup, l.id) == CellOf(s.sup, l.id) && RefOf(t.sup, l.id) == RefOf(s.sup, l.id)
  {
    hide Healthy;
  }

  /** An app in the bookkeeping has a timer in its cell, or one about to be armed. */
  lemma QuietCell(s: State, id: Id)
    requires SupOk(s) && CallsQuiet(s.work, id) && id in s.sup.restarts
    ensures Known(s.sup, id) && CellOf(s.sup, id).timer.Some?
  {
    hide TimersOk;
  }

  lemma LookedWants(s: State, id: Id)
    requires SupOk(s) && Exiting(s, id)
    ensures WantStart(LookExit(s, id), id) <==> id !in s.sup.restarts
  {
    if id in s.sup.restarts {
      QuietCell(s, id);
    }
    hide SupOk, PolicyFor;
  }

  lemma CountedWants(s: State, id: Id, now: int)
    requires SupOk(s) && Exiting(s, id)
    ensures WantStart(CountedExit(s, id, now), id) <==> id !in s.sup.restarts
  {
    CountedIs(s, id, now);
    if id in s.sup.restarts {
      QuietCell(s, id);
    }
    hide SupOk, PolicyFor, CountedExit, Up, Count, Crashed;
  }

  lemma HandledWants(s: State, id: Id, now: int)
    requires SupOk(s) && Exiting(s, id)
    ensures WantStart(Handled(s, id, now), id) <==> PolicyFor(s.apps[id].def).0 <= 0 && id !in s.sup.restarts
  {
    CountedIs(s, id, now);
    CountedWants(s, id, now);
    if Crashed(s.apps, id) {
      var l := LookAt(s.apps, s.sup, id);
      if Schedules(s.sup, l, now) {
        ArmedWants(s, id, now);
      } else {
        FirstSchedules(s.sup, l, now);
        assert id in s.sup.restarts;
        hide CountedExit, PolicyFor, Count;
      }
    } else {
      hide CountedExit, PolicyFor, Count;
    }
  }

  lemma ArmedWants(s: State, id: Id, now: int)
    requires SupOk(s) && Exiting(s, id) && Crashed(s.apps, id) && Schedules(s.sup, LookAt(s.apps, s.sup, id), now)
    ensures !WantStart(Handled(s, id, now), id)
  {
    CountedIs(s, id, now);
    hide CountedExit, PolicyFor, Count, SupOk, Up, LookAt;
  }

  /** After a crash, a reconcile starts the app at once exactly when it has no bookkeeping yet:
      either it is still to be counted or its timer to be armed, or its policy says "never
      restart". Once the crash has been handled to the end, only the latter is left. */
  lemma ReconcileRestartsIff(s: State, id: Id, now: int)
    requires SupOk(s) && Exiting(s, id)
    ensures WantStart(LookExit(s, id), id) <==> id !in s.sup.restarts
    ensures WantStart(CountedExit(s, id, now), id) <==> id !in s.sup.restarts
    ensures WantStart(Handled(s, id, now), id) <==> PolicyFor(s.apps[id].def).0 <= 0 && id !in s.sup.restarts
    ensures WantStart(Handled(s, id, now), id) ==> StartCall(id, false) in Reconcile(Handled(s, id, now)).work.starts
  {
    hide *;
    LookedWants(s, id);
    CountedWants(s, id, now);
    HandledWants(s, id, now);
    if WantStart(Handled(s, id, now), id) {
      WantedIsStarted(Handled(s, id, now), id);
    }
  }

  lemma WantedIsStarted(s: State, id: Id)
    requires WantStart(s, id)
    ensures StartCall(id, false) in Reconcile(s).work.starts
  {
    hide WantStart, WantStop;
    var ids := set i | i in s.apps.Keys && WantStart(s, i) :: StartCall(i, false);
    assert id in s.apps.Keys by { WantKnown(s, id); }
    assert StartCall(id, false) in ids;
  }

  lemma WantKnown(s: State, id: Id)
    requires WantStart(s, id)
    ensures id in s.apps
  {
  }
}
