/** What is on the host's disk (agent/internal/daemon/{daemon,apps,loops}.go): every change of an
    app is saved, and a save that fails leaves the file as it was. */
module Persistence {

  import opened Agent
  import opened AgentSteps

  /** Every save the step makes succeeds. */
  predicate AllWritten(ev: Event)
  {
    match ev
    case Sync(_, written) => written
    case CommandRuns(_, written) => written
    case Decided(_, _, written) => written
    case StartEnds(_, _, _, written) => written
    case StopEnds(_, _, written) => written
    case Boot(_, written) => written
    case _ => true
  }

  /** ... or every one fails. */
  predicate NoneWritten(ev: Event)
  {
    match ev
    case Sync(_, written) => !written
    case CommandRuns(_, written) => !written
    case Decided(_, _, written) => !written
    case StartEnds(_, _, _, written) => !written
    case StopEnds(_, _, written) => !written
    case Boot(_, written) => !written
    case _ => true
  }

  lemma {:induction false} SpecsUnchanged(s: State, specs: seq<AppSpec>)
    ensures !ApplySpecs(s, specs).1 ==> ApplySpecs(s, specs).0.apps == s.apps
  {
    hide Adopt;
    if specs != [] {
      var n := |specs| - 1;
      SpecsUnchanged(s, specs[..n]);
      var t := ApplySpecs(s, specs[..n]).0;
      if specs[n].id in t.apps {
        assert t.apps[specs[n].id := t.apps[specs[n].id]] == t.apps;
      }
    }
  }

  /** The step's save: the file has what the agent has now, or nothing changed and nothing was
      saved; a save that fails leaves it. */
  predicate Saved(s: State, t: State, written: bool)
  {
    if written then t.disk == t.apps || (t.apps == s.apps && t.disk == s.disk) else t.disk == s.disk
  }

  lemma SyncSaves(s: State, specs: seq<AppSpec>, written: bool)
    ensures Saved(s, ApplyAppSync(s, specs, written), written)
  {
    SpecsKeep(s, specs);
    SpecsUnchanged(s, specs);
    hide ApplySpecs, Ids;
    var (t, changed) := ApplySpecs(s, specs);
    var gone := t.apps.Keys - Ids(specs);
    if !changed && gone == {} {
      ForgetNothing(t);
    }
  }

  lemma CommandSaves(s: State, c: Command, written: bool)
    ensures Saved(s, Execute(s, c, written), written)
  {
    hide SetDesired;
    var t := s.(work := s.work.(commands := s.work.commands - multiset{c}));
    DesiredSaves(t, c.id, if c.verb == Stop then Stopped else Running, written);
  }

  lemma DesiredSaves(s: State, id: Id, d: Desired, written: bool)
    ensures Saved(s, SetDesired(s, id, d, written), written)
  {
  }

  lemma StartSaves(s: State, sp: Spawn, ok: bool, now: int, written: bool)
    ensures Saved(s, FinishStart(s, sp, ok, now, written), written)
  {
  }

  lemma StopSaves(s: State, hl: Halt, ok: bool, written: bool)
    ensures Saved(s, FinishStop(s, hl, ok, written), written)
  {
  }

  lemma DecideSaves(s: State, id: Id, approve: bool, written: bool)
    ensures Saved(s, Decide(s, id, approve, written), written)
  {
  }

  lemma BootSaves(s: State, reaped: set<Pid>, written: bool)
    ensures var t := Reboot(s, reaped, written); t.disk == if written then t.apps else s.disk
  {
    hide Resurrected, ReapedHost, Reaped;
  }

  /** What one step writes. */
  lemma StepSaves(h: Definition -> Hash, s: State, ev: Event)
    ensures var t := Next(h, s, ev);
            && (AllWritten(ev) ==> t.disk == t.apps || (t.apps == s.apps && t.disk == s.disk))
            && (NoneWritten(ev) ==> t.disk == s.disk)
            && (t.disk == s.disk || t.disk == t.apps)
  {
    match ev {
      case Sync(specs, written) =>
        SyncSaves(s, specs, written);
        hide ApplyAppSync;
      case CommandRuns(c, written) =>
        CommandSaves(s, c, written);
        hide Execute;
      case Decided(id, approve, written) =>
        DecideSaves(s, id, approve, written);
        hide Decide;
      case StartEnds(sp, ok, now, written) =>
        StartSaves(s, sp, ok, now, written);
        hide FinishStart;
      case StopEnds(hl, ok, written) =>
        StopSaves(s, hl, ok, written);
        hide FinishStop;
      case Boot(reaped, written) =>
        BootSaves(s, reaped, written);
        hide Reboot;
      case _ =>
        hide Next;
        OtherAppStep(h, s, ev);
    }
  }

  /** In a run without failing saves the file always says what the agent thinks: a reboot at any
      point finds the definitions, decisions and wishes of that moment. */
  lemma {:induction false} DiskFollows(h: Definition -> Hash, evs: seq<Event>)
    requires forall i :: 0 <= i < |evs| ==> AllWritten(evs[i])
    ensures var s := RunFrom(h, INIT, evs); s.disk == s.apps
  {
    if evs != [] {
      hide Next, AllWritten;
      var n := |evs| - 1;
      DiskFollows(h, evs[..n]);
      StepSaves(h, RunFrom(h, INIT, evs[..n]), evs[n]);
    }
  }

  /** In a run whose saves all fail it stays as it was. */
  lemma {:induction false} DiskStays(h: Definition -> Hash, s: State, evs: seq<Event>)
    requires forall i :: 0 <= i < |evs| ==> NoneWritten(evs[i])
    ensures RunFrom(h, s, evs).disk == s.disk
  {
    if evs != [] {
      hide Next, NoneWritten;
      var n := |evs| - 1;
      DiskStays(h, s, evs[..n]);
      StepSaves(h, RunFrom(h, s, evs[..n]), evs[n]);
    }
  }

  /** A process of this app may be left from the agent process before. */
  predicate Orphaned(app: App)
  {
    app.lastPid > 0 && !IsDocker(app.def.kind)
  }

  /** A new agent process: what it knows, what it starts, and what it kills. */
  lemma BootSays(h: Definition -> Hash, s: State, reaped: set<Pid>, written: bool, id: Id)
    ensures var t := Next(h, s, Boot(reaped, written));
            && t.apps.Keys == s.disk.Keys
            && (id in s.disk ==>
                  && t.apps[id].(lastPid := 0) == s.disk[id].(lastPid := 0)
                  && (Orphaned(s.disk[id]) && s.disk[id].lastPid in reaped ==> s.disk[id].lastPid !in t.host.alive)
                  && (!IsDocker(s.disk[id].def.kind) ==> t.apps[id].lastPid == 0))
            && (forall p :: p in s.host.alive && p !in t.host.alive ==>
                  p in reaped && exists i :: i in s.disk && Orphaned(s.disk[i]) && s.disk[i].lastPid == p)
            && (StartCall(id, false) in t.work.starts
                <==> id in s.disk && s.disk[id].desired == Running && s.disk[id].approval == Approved)
            && t.sup.procs == map[] && t.sup.timers == map[] && t.host.watchers == map[]
  {
    var t := Next(h, s, Boot(reaped, written));
    if id in s.disk && s.disk[id].lastPid > 0 && !IsDocker(s.disk[id].def.kind) {
      assert s.disk[id].lastPid in Orphans(s.disk);
    }
    BootStarts(Reaped(s.disk), id);
    hide Resurrected, Orphans;
  }

  lemma BootStarts(apps: Apps, id: Id)
    ensures StartCall(id, false) in Resurrected(apps).starts <==> Wanted(apps, id)
  {
    var calls := set i | i in apps && Wanted(apps, i) :: StartCall(i, false);
    assert Resurrected(apps).starts == multiset(calls);
    assert StartCall(id, false) in calls <==> Wanted(apps, id);
  }
}
