/** A stop wins: what a stopped app does until somebody asks for it again, and what becomes of
    a process that is no longer its app's current one (agent/internal/daemon/{apps,restart,
    daemon}.go). */
module StopWins {

  import opened Agent
  import opened AgentSteps

  // ---- a stopped app stays stopped ----

  /** Not wanted, in memory or on disk, and nothing under way that would start it. */
  predicate Quiet(s: State, id: Id)
  {
    && !DesiredRunning(s.apps, id) && !DesiredRunning(s.disk, id)
    && NoStartComing(s.work, id)
  }

  predicate NoStartComing(w: Work, id: Id)
  {
    && (forall c :: c in w.starts ==> c.id != id)
    && (forall sp :: sp in w.spawning ==> sp.call.id != id)
    && StopCall(id, true) !in w.stops
    && (forall hl :: hl in w.halting ==> hl.call != StopCall(id, true))
    && Command(id, Start) !in w.commands && Command(id, Restart) !in w.commands
  }

  /** Neither a start or restart command for the app nor a sync that wants it running. Exits,
      timers, reconciles, reboots, approvals, and failing saves are all allowed. */
  predicate DoesNotAsk(ev: Event, id: Id)
  {
    match ev
    case Commanded(i, verb, _) => i == id ==> verb != Start && verb != Restart
    case Sync(specs, _) => forall i :: 0 <= i < |specs| && specs[i].id == id ==> specs[i].desired != Running
    case _ => true
  }

  lemma StepStaysQuiet(h: Definition -> Hash, s: State, ev: Event, id: Id)
    requires Quiet(s, id) && DoesNotAsk(ev, id)
    ensures Quiet(Next(h, s, ev), id)
    ensures NoSpawn(s.log.spawned, Next(h, s, ev).log.spawned, id)
    ensures id in Next(h, s, ev).sup.procs ==> id in s.sup.procs && Next(h, s, ev).sup.procs[id] == s.sup.procs[id]
  {
    hide Next, Up;
    StepWork(h, s, ev);
    StepProc(h, s, ev);
    StepWish(h, s, ev);
    assert !MayStart(s, ev, id);
    assert !MayWant(s, ev, id);
  }

  /** Over any such run the app is never spawned and never gets another process. */
  lemma {:induction false} StopHolds(h: Definition -> Hash, s: State, evs: seq<Event>, id: Id)
    requires Quiet(s, id) && forall i :: 0 <= i < |evs| ==> DoesNotAsk(evs[i], id)
    ensures var t := RunFrom(h, s, evs);
            && Quiet(t, id)
            && NoSpawn(s.log.spawned, t.log.spawned, id)
            && (id in t.sup.procs ==> id in s.sup.procs && t.sup.procs[id] == s.sup.procs[id])
  {
    hide Next, Quiet, DoesNotAsk;
    if evs != [] {
      var n := |evs| - 1;
      StopHolds(h, s, evs[..n], id);
      StepStaysQuiet(h, RunFrom(h, s, evs[..n]), evs[n], id);
    }
  }

  /** When an accepted stop command makes the app quiet: unless the disk still says running,
      which happens when the save fails, and is then not repaired by another stop. */
  lemma StopQuietsIff(s: State, id: Id, written: bool)
    requires Command(id, Stop) in s.work.commands && NoStartComing(s.work, id) && id in s.apps
    ensures Quiet(Execute(s, Command(id, Stop), written), id)
            <==> !DesiredRunning(s.disk, id) || (written && DesiredRunning(s.apps, id))
  {
    hide Execute;
    CommandKeeps(s, Command(id, Stop), written);
    StopApps(s, id, written);
  }

  lemma StopApps(s: State, id: Id, written: bool)
    requires Command(id, Stop) in s.work.commands && id in s.apps
    ensures var t := Execute(s, Command(id, Stop), written);
            && !DesiredRunning(t.apps, id)
            && (DesiredRunning(t.disk, id) <==> DesiredRunning(s.disk, id) && !(written && DesiredRunning(s.apps, id)))
  {
  }

  // ---- a process that is no longer current ----

  /** Processes of different apps differ, and none is still to come. */
  predicate PidsOk(s: State)
  {
    && (forall id :: id in s.sup.procs ==> s.sup.procs[id] < s.host.nextPid)
    && (forall a, b :: a in s.sup.procs && b in s.sup.procs && s.sup.procs[a] == s.sup.procs[b] ==> a == b)
  }

  /** An old process that is nobody's current one. */
  predicate Superseded(s: State, p: Pid)
  {
    p < s.host.nextPid && forall id :: id in s.sup.procs ==> s.sup.procs[id] != p
  }

  lemma StepKeepsPids(h: Definition -> Hash, s: State, ev: Event, p: Pid)
    ensures PidsOk(s) ==> PidsOk(Next(h, s, ev))
    ensures Superseded(s, p) ==> Superseded(Next(h, s, ev), p)
  {
    hide Next;
    StepProc(h, s, ev);
  }

  lemma {:induction false} RunKeepsPids(h: Definition -> Hash, evs: seq<Event>)
    ensures PidsOk(RunFrom(h, INIT, evs))
  {
    if evs != [] {
      hide Next, PidsOk;
      RunKeepsPids(h, evs[..|evs| - 1]);
      StepKeepsPids(h, RunFrom(h, INIT, evs[..|evs| - 1]), evs[|evs| - 1], 0);
    }
  }

  /** Stopping an app, or starting it over a process that still counts as its own, supersedes
      that process. */
  lemma StopSupersedes(s: State, stop: StopCall, dockerOk: bool)
    requires PidsOk(s) && stop in s.work.stops && stop.id in s.sup.procs
    ensures Superseded(BeginStop(s, stop, dockerOk), s.sup.procs[stop.id])
  {
    hide CancelRestart;
  }

  lemma StartSupersedes(s: State, sp: Spawn, now: int, written: bool)
    requires PidsOk(s) && sp in s.work.spawning && sp.call.id in s.sup.procs
    ensures Superseded(FinishStart(s, sp, true, now, written), s.sup.procs[sp.call.id])
  {
  }

  lemma SyncSupersedes(s: State, specs: seq<AppSpec>, written: bool, id: Id)
    requires PidsOk(s) && id in s.sup.procs && id in s.apps && id !in Ids(specs)
    ensures Superseded(ApplyAppSync(s, specs, written), s.sup.procs[id])
  {
    hide ApplySpecs;
    SpecsKeep(s, specs);
    SpecsKeys(s, specs);
  }

  /** Whatever happens later, the exit of a superseded process changes nothing but its own
      watcher: it is not reported, not counted as a crash, and restarts nothing. */
  lemma {:induction false} ExitIgnored(h: Definition -> Hash, s: State, evs: seq<Event>, p: Pid)
    requires Superseded(s, p)
    ensures var t := RunFrom(h, s, evs);
            && Superseded(t, p)
            && ExitObserved(t, p) == t.(host := ExitObserved(t, p).host)
  {
    hide Next;
    if evs != [] {
      var n := |evs| - 1;
      ExitIgnored(h, s, evs[..n], p);
      StepKeepsPids(h, RunFrom(h, s, evs[..n]), evs[n], p);
    }
  }
}
