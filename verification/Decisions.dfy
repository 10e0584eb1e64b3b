/** What the host decides about an app holds: an approval lets it start, a rejection keeps it
    from being started until the host or a new definition lifts it
    (agent/internal/daemon/{loops,apps,daemon}.go). */
module Decisions {

  import opened Agent
  import opened AgentSteps
  import opened AppHub
  import opened Convergence
  import opened Persistence

  predicate ApprovedIn(apps: Apps, id: Id)
  {
    id in apps && apps[id].approval == Approved
  }

  /** A decision sets the approval of that app to what was decided and nothing else of any app,
      is saved with the rest of the state, and is told to the hub with the hash it was about. */
  lemma DecidedSays(h: Definition -> Hash, s: State, id: Id, approve: bool, written: bool)
    ensures var t := Next(h, s, Decided(id, approve, written));
            if id !in s.apps then t == s
            else
              && t.apps.Keys == s.apps.Keys
              && t.apps[id].approval == (if approve then Approved else Rejected)
              && t.apps[id].(approval := s.apps[id].approval) == s.apps[id]
              && (forall i :: i in s.apps && i != id ==> t.apps[i] == s.apps[i])
              && t.disk == (if written then t.apps else s.disk)
              && t.log.sent == s.log.sent + {ApprovalEvent(id, t.apps[id].approval, s.apps[id].hash)}
              && t.log.approved == s.log.approved + (if approve then {s.apps[id].hash} else {})
              && t.log.spawned == s.log.spawned && t.preApproved == s.preApproved
              && t.sup == s.sup && t.work == s.work && t.host == s.host
  {
    if id in s.apps {
      var t := Next(h, s, Decided(id, approve, written));
      assert t.apps == s.apps[id := t.apps[id]];
    }
  }

  /** The hub, when it hears of a decision, shows it for the definition it was about and for no
      other. */
  lemma HubShowsDecision(h: Definition -> Hash, s: State, id: Id, approve: bool, written: bool, hub: Table)
    requires id in s.apps
    ensures var m := ApprovalEvent(id, if approve then Approved else Rejected, s.apps[id].hash);
            var u := Decision(hub, m.id, m.approval, m.hash);
            && m in Next(h, s, Decided(id, approve, written)).log.sent
            && u.Keys == hub.Keys
            && (forall i :: i in hub && (i != id || hub[i].hash != s.apps[id].hash) ==> u[i] == hub[i])
            && (id in hub && hub[id].hash == s.apps[id].hash ==>
                  (u[id].approval == Approved <==> approve) && (u[id].approval == Rejected <==> !approve)
                  && u[id].(approval := hub[id].approval) == hub[id])
  {
    DecidedSays(h, s, id, approve, written);
    hide Next;
  }

  // ---- a rejection ----

  /** Not approved, in memory or on disk, and no process of it being spawned. Starts under way
      do not matter: they look at the approval when they begin. */
  predicate Refused(s: State, id: Id)
  {
    && !ApprovedIn(s.apps, id) && !ApprovedIn(s.disk, id)
    && forall sp :: sp in s.work.spawning ==> sp.call.id != id
  }

  /** A sync that lifts no rejection: it lists the app only with the definition the agent has, or
      only with definitions that have to be approved first. */
  predicate BringsNothing(s: State, specs: seq<AppSpec>, id: Id)
  {
    || (id in s.apps && forall i :: 0 <= i < |specs| && specs[i].id == id ==> specs[i].hash == s.apps[id].hash)
    || (forall i :: 0 <= i < |specs| && specs[i].id == id ==> specs[i].hash !in s.preApproved && !IsDocker(specs[i].def.kind))
  }

  /** Neither an approval of the app nor a sync that brings it approved. Commands, timers, exits,
      reconciles, reboots, imports, and failing saves are all allowed. */
  predicate Upholds(s: State, ev: Event, id: Id)
  {
    match ev
    case Decided(i, approve, _) => i == id ==> !approve
    case Sync(specs, _) => BringsNothing(s, specs, id)
    case _ => true
  }

  lemma SpecElsewhere(s: State, spec: AppSpec, id: Id)
    requires spec.id != id
    ensures var t := ApplySpec(s, spec).0;
            (id in t.apps <==> id in s.apps) && (id in s.apps ==> t.apps[id] == s.apps[id])
  {
    hide ApprovalOf, Without;
  }

  lemma SpecSameHash(s: State, spec: AppSpec)
    requires spec.id in s.apps && spec.hash == s.apps[spec.id].hash
    ensures var t := ApplySpec(s, spec).0;
            spec.id in t.apps && t.apps[spec.id].hash == spec.hash && t.apps[spec.id].approval == s.apps[spec.id].approval
  {
    hide Adopt;
  }

  lemma {:induction false} SpecsKeepHash(s: State, specs: seq<AppSpec>, id: Id)
    requires id in s.apps && forall i :: 0 <= i < |specs| && specs[i].id == id ==> specs[i].hash == s.apps[id].hash
    ensures var t := ApplySpecs(s, specs).0;
            id in t.apps && t.apps[id].hash == s.apps[id].hash && t.apps[id].approval == s.apps[id].approval
  {
    hide ApplySpec;
    if specs != [] {
      var n := |specs| - 1;
      SpecsKeepHash(s, specs[..n], id);
      if specs[n].id == id {
        SpecSameHash(ApplySpecs(s, specs[..n]).0, specs[n]);
      } else {
        SpecElsewhere(ApplySpecs(s, specs[..n]).0, specs[n], id);
      }
    }
  }

  lemma SpecNotApproved(s: State, spec: AppSpec)
    requires !ApprovedIn(s.apps, spec.id) && spec.hash !in s.preApproved && !IsDocker(spec.def.kind)
    ensures !ApprovedIn(ApplySpec(s, spec).0.apps, spec.id)
  {
  }

  lemma {:induction false} SpecsNotApproved(s: State, specs: seq<AppSpec>, id: Id)
    requires !ApprovedIn(s.apps, id)
    requires forall i :: 0 <= i < |specs| && specs[i].id == id ==> specs[i].hash !in s.preApproved && !IsDocker(specs[i].def.kind)
    ensures !ApprovedIn(ApplySpecs(s, specs).0.apps, id)
  {
    hide ApplySpec;
    if specs != [] {
      var n := |specs| - 1;
      var t := ApplySpecs(s, specs[..n]).0;
      SpecsNotApproved(s, specs[..n], id);
      if specs[n].id == id {
        SpecsFewer(s, specs[..n]);
        SpecNotApproved(t, specs[n]);
      } else {
        SpecElsewhere(t, specs[n], id);
      }
    }
  }

  lemma SyncUpholds(s: State, specs: seq<AppSpec>, written: bool, id: Id)
    requires Refused(s, id) && BringsNothing(s, specs, id)
    ensures Refused(ApplyAppSync(s, specs, written), id)
  {
    SpecsKeep(s, specs);
    if id in s.apps && forall i :: 0 <= i < |specs| && specs[i].id == id ==> specs[i].hash == s.apps[id].hash {
      SpecsKeepHash(s, specs, id);
    } else {
      SpecsNotApproved(s, specs, id);
    }
    hide ApplySpecs, Ids, BringsNothing;
  }

  lemma BootUpholds(s: State, reaped: set<Pid>, written: bool, id: Id)
    requires Refused(s, id)
    ensures Refused(Reboot(s, reaped, written), id)
  {
    hide Orphans, Resurrected;
    assert Resurrected(Reaped(s.disk)).spawning == multiset{} by { ResurrectedSpawns(Reaped(s.disk)); }
  }

  lemma ResurrectedSpawns(apps: Apps)
    ensures Resurrected(apps).spawning == multiset{}
  {
  }

  lemma StartLeavesRest(s: State, call: StartCall, dockerOk: bool)
    requires !ApprovedIn(s.apps, call.id)
    ensures var t := BeginStart(s, call, dockerOk); t.sup == s.sup && t.host == s.host && t.work.spawning == s.work.spawning
  {
    hide SetDocker;
  }

  /** Starting the app does nothing but report the failure of a crash restart. */
  lemma StartIsRefused(s: State, call: StartCall, dockerOk: bool)
    requires !ApprovedIn(s.apps, call.id)
    ensures var t := BeginStart(s, call, dockerOk);
            t.work.spawning == s.work.spawning && t.sup == s.sup && t.host == s.host && AppsKept(s, t)
  {
    hide BeginStart;
    StartLeavesRest(s, call, dockerOk);
    BeginStartKeeps(s, call, dockerOk);
  }

  lemma StepSpawning(h: Definition -> Hash, s: State, ev: Event, id: Id)
    requires Refused(s, id)
    ensures forall sp :: sp in Next(h, s, ev).work.spawning ==> sp.call.id != id
  {
    hide Next, MayStart, MayStop, MayExit;
    StepWork(h, s, ev);
    if ev.StartBegins? && ev.call.id == id {
      StartSpawns(h, s, ev);
    }
  }

  lemma StartSpawns(h: Definition -> Hash, s: State, ev: Event)
    requires ev.StartBegins? && !ApprovedIn(s.apps, ev.call.id)
    ensures Next(h, s, ev).work.spawning == s.work.spawning
  {
    hide BeginStart;
    StartIsRefused(s, ev.call, ev.dockerOk);
  }

  lemma StepApproval(h: Definition -> Hash, s: State, ev: Event, id: Id)
    requires !ev.Sync? && !ev.Boot? && !ApprovedIn(s.apps, id) && Upholds(s, ev, id)
    ensures !ApprovedIn(Next(h, s, ev).apps, id)
  {
    hide Next;
    StepApps(h, s, ev);
  }

  lemma StepRefused(h: Definition -> Hash, s: State, ev: Event, id: Id)
    requires Refused(s, id) && Upholds(s, ev, id)
    ensures Refused(Next(h, s, ev), id)
  {
    match ev {
      case Sync(specs, written) =>
        hide ApplyAppSync, Refused;
        SyncUpholds(s, specs, written, id);
      case Boot(reaped, written) =>
        hide Reboot, Refused;
        BootUpholds(s, reaped, written, id);
      case _ =>
        hide Next;
        StepSpawning(h, s, ev, id);
        StepSaves(h, s, ev);
        StepApproval(h, s, ev, id);
    }
  }

  lemma StepNoSpawn(h: Definition -> Hash, s: State, ev: Event, id: Id)
    requires Refused(s, id)
    ensures NoSpawn(s.log.spawned, Next(h, s, ev).log.spawned, id)
    ensures id in Next(h, s, ev).sup.procs ==> id in s.sup.procs && Next(h, s, ev).sup.procs[id] == s.sup.procs[id]
  {
    hide Next;
    StepProc(h, s, ev);
  }

  /** Over any such run the app is never spawned and never gets another process. */
  lemma {:induction false} RefusalHolds(h: Definition -> Hash, s: State, evs: seq<Event>, id: Id)
    requires Refused(s, id) && forall i :: 0 <= i < |evs| ==> Upholds(RunFrom(h, s, evs[..i]), evs[i], id)
    ensures var t := RunFrom(h, s, evs);
            && Refused(t, id)
            && NoSpawn(s.log.spawned, t.log.spawned, id)
            && (id in t.sup.procs ==> id in s.sup.procs && t.sup.procs[id] == s.sup.procs[id])
  {
    hide Next, Refused, Upholds;
    if evs != [] {
      var n := |evs| - 1;
      var u := RunFrom(h, s, evs[..n]);
      forall i | 0 <= i < n ensures Upholds(RunFrom(h, s, evs[..n][..i]), evs[..n][i], id) {
        assert evs[..n][..i] == evs[..i];
      }
      RefusalHolds(h, s, evs[..n], id);
      StepRefused(h, u, evs[n], id);
      StepNoSpawn(h, u, evs[n], id);
    }
  }

  /** When a rejection has that effect: no process of the app is being spawned, and the rejection
      reached the disk or the disk did not have the app approved. */
  lemma RejectRefusesIff(h: Definition -> Hash, s: State, id: Id, written: bool)
    requires id in s.apps
    ensures Refused(Next(h, s, Decided(id, false, written)), id)
            <==> (forall sp :: sp in s.work.spawning ==> sp.call.id != id) && (written || !ApprovedIn(s.disk, id))
  {
    DecidedSays(h, s, id, false, written);
    hide Next;
  }

  /** A rejection that was not saved is gone after a reboot. */
  lemma UnsavedRejectIsLost(h: Definition -> Hash, s: State, id: Id, reaped: set<Pid>, written: bool)
    requires ApprovedIn(s.disk, id)
    ensures ApprovedIn(Next(h, Next(h, s, Decided(id, false, false)), Boot(reaped, written)).apps, id)
  {
    DecidedSays(h, s, id, false, false);
    hide Decide, Resurrected, ReapedHost;
  }

  /** A saved rejection of an app with no spawn under way, whatever commands, timers, reconciles
      and reboots follow: no process of it is started, and a start leaves containers alone. */
  lemma RejectHolds(h: Definition -> Hash, s: State, id: Id, evs: seq<Event>, call: StartCall, dockerOk: bool)
    requires id in s.apps && call.id == id && forall sp :: sp in s.work.spawning ==> sp.call.id != id
    requires var t := Next(h, s, Decided(id, false, true)); forall i :: 0 <= i < |evs| ==> Upholds(RunFrom(h, t, evs[..i]), evs[i], id)
    ensures var t := Next(h, s, Decided(id, false, true));
            var u := RunFrom(h, t, evs);
            && Refused(u, id)
            && NoSpawn(s.log.spawned, u.log.spawned, id)
            && (id in u.sup.procs ==> id in s.sup.procs && u.sup.procs[id] == s.sup.procs[id])
            && BeginStart(u, call, dockerOk).sup == u.sup
  {
    DecidedSays(h, s, id, false, true);
    RejectRefusesIff(h, s, id, true);
    hide Next, BeginStart;
    var t := Next(h, s, Decided(id, false, true));
    RefusalHolds(h, t, evs, id);
    StartIsRefused(RunFrom(h, t, evs), call, dockerOk);
  }

  // ---- the gate ----

  /** A command is taken up exactly if its verb is known and it names the definition the host has
      and has approved; a command stamped with any other hash changes nothing at all. */
  lemma GateIff(h: Definition -> Hash, s: State, id: Id, verb: Verb, hash: Hash)
    ensures var t := Next(h, s, Commanded(id, verb, hash));
            if verb != Other && ApprovedIn(s.apps, id) && s.apps[id].hash == hash then
              t == s.(work := s.work.(commands := s.work.commands + multiset{Command(id, verb)}))
            else t == s
  {
  }

  /** A command for a definition that the next sync replaces comes too late: whatever a user saved
      in between, what was meant for the old definition does not touch the new one. */
  lemma StaleCommandIsNothing(h: Definition -> Hash, s: State, specs: seq<AppSpec>, written: bool, k: nat, verb: Verb, hash: Hash)
    requires Distinct(specs) && k < |specs| && specs[k].hash != hash
    ensures var t := ApplyAppSync(s, specs, written); Next(h, t, Commanded(specs[k].id, verb, hash)) == t
  {
    SyncLeaves(s, specs, written);
    hide ApplyAppSync;
    GateIff(h, ApplyAppSync(s, specs, written), specs[k].id, verb, hash);
  }

  // ---- an approval ----

  /** After an approval a start of the app that is not up goes through: a process is spawned
      from the definition approved, a container app is brought up. */
  lemma ApprovalAllows(h: Definition -> Hash, s: State, call: StartCall, dockerOk: bool, written: bool)
    requires call.id in s.apps && call in s.work.starts && !(call.id in s.sup.procs && s.sup.procs[call.id] in s.host.alive)
    ensures var t := BeginStart(Next(h, s, Decided(call.id, true, written)), call, dockerOk);
            if IsDocker(s.apps[call.id].def.kind) then dockerOk ==> call.id in t.sup.dockerUp
            else Spawn(call, s.apps[call.id].def) in t.work.spawning
  {
    DecidedSays(h, s, call.id, true, written);
    hide Next;
  }
}
