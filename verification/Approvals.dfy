/** Hub, network and agent together: what may run on a host is what that host approved.

    Messages are sets that only grow: a message sent once may be delivered late, again, out
    of order, or never. The agent may reboot at any step. The definition hash is any
    injective function. */
module Approvals {

  import opened Wrappers
  import opened Agent
  import opened AgentSteps
  import opened AppHub

  datatype World = World(
    hub: Table,
    agent: State,
    syncs: set<seq<AppSpec>>,           // every app_sync sent
    queued: set<(Id, Verb)>,            // every command accepted from a user
    cmds: set<(Id, Verb, Hash)>)        // every command sent

  /** What the hub checks definitions with, and which stored ones it can decode. */
  datatype Rules = Rules(valid: Definition -> bool, decodes: Record -> bool)

  datatype WorldEvent =
    | HubRegisters(def: Definition, newId: Id, now: nat)
    | HubHears(id: Id, approval: Approval, hash: Hash)
    | UserSaves(known: bool, app: Option<Id>, def: Definition, newId: Id, now: nat)
    | UserCommands(id: Id, verb: Verb, stored: bool)
    | HubDispatches(id: Id, verb: Verb)
    | UserTracks(id: Id, tracking: string)
    | UserDeletes(id: Id)
    | HubSyncs(ids: seq<Id>)
    | AgentSteps(ev: Event)

  const START := World(map[], INIT, {}, {}, {})

  /** A step that receives a message needs the message to have been sent. */
  predicate Delivered(w: World, ev: Event)
  {
    match ev
    case Sync(specs, _) => specs in w.syncs
    case Commanded(id, verb, hash) => (id, verb, hash) in w.cmds
    case _ => true
  }

  function Step(h: Definition -> Hash, rules: Rules, w: World, ev: WorldEvent): World
  {
    match ev
    case HubRegisters(def, newId, now) =>
      if AppRegister(def) in w.agent.log.sent then w.(hub := Register(w.hub, h, rules.valid, def, newId, now)) else w
    case HubHears(id, approval, hash) =>
      if ApprovalEvent(id, approval, hash) in w.agent.log.sent then w.(hub := Decision(w.hub, id, approval, hash)) else w
    case UserSaves(known, app, def, newId, now) => w.(hub := Submit(w.hub, h, rules.valid, known, app, def, newId, now))
    case UserCommands(id, verb, stored) =>
      if Commandable(w.hub, id, verb) then
        w.(hub := Intend(w.hub, id, verb, stored), queued := w.queued + {(id, verb)})
      else w
    case HubDispatches(id, verb) =>
      if (id, verb) in w.queued then w.(cmds := w.cmds + {(id, verb, StampOf(w.hub, id))}) else w
    case UserTracks(id, tracking) =>
      if id in w.hub then w.(hub := w.hub[id := w.hub[id].(tracking := tracking)]) else w
    case UserDeletes(id) => w.(hub := w.hub - {id})
    case HubSyncs(ids) =>
      if Listing(w.hub, ids) then w.(syncs := w.syncs + {Specs(w.hub, rules.decodes, ids)}) else w
    case AgentSteps(e) =>
      if Delivered(w, e) then w.(agent := Next(h, w.agent, e)) else w
  }

  function Run(h: Definition -> Hash, rules: Rules, evs: seq<WorldEvent>): World
  {
    if evs == [] then START
    else Step(h, rules, Run(h, rules, evs[..|evs| - 1]), evs[|evs| - 1])
  }

  ghost predicate Injective(h: Definition -> Hash)
  {
    forall d, e :: h(d) == h(e) ==> d == e
  }

  // ---- the invariant ----

  /** A container kind, which needs no approval, or a definition this host approved. */
  predicate Cleared(h: Definition -> Hash, approved: set<Hash>, def: Definition)
  {
    IsDocker(def.kind) || h(def) in approved
  }

  /** The same, for what a message says about a definition it does not carry. */
  ghost predicate ClearedHash(h: Definition -> Hash, approved: set<Hash>, hash: Hash)
  {
    hash in approved || exists d :: h(d) == hash && IsDocker(d.kind)
  }

  predicate AppOk(h: Definition -> Hash, approved: set<Hash>, app: App)
  {
    app.hash == h(app.def) && (app.approval == Approved ==> Cleared(h, approved, app.def))
  }

  predicate AppsOk(h: Definition -> Hash, approved: set<Hash>, apps: map<Id, App>)
  {
    forall id :: id in apps ==> AppOk(h, approved, apps[id])
  }

  ghost predicate SentOk(h: Definition -> Hash, approved: set<Hash>, m: Message)
  {
    match m
    case ApprovalEvent(_, approval, hash) => approval == Approved ==> ClearedHash(h, approved, hash)
    case AppRegister(def) => h(def) in approved
  }

  predicate SpawnsOk(h: Definition -> Hash, approved: set<Hash>, spawning: multiset<Spawn>)
  {
    forall sp :: sp in spawning ==> !IsDocker(sp.def.kind) && h(sp.def) in approved
  }

  predicate ImportsOk(approved: set<Hash>, preApproved: seq<Hash>)
  {
    forall x :: x in preApproved ==> x in approved
  }

  ghost predicate LogOk(h: Definition -> Hash, log: Log)
  {
    && (forall i :: 0 <= i < |log.spawned| ==> !IsDocker(log.spawned[i].1.kind) && h(log.spawned[i].1) in log.approved)
    && (forall m :: m in log.sent ==> SentOk(h, log.approved, m))
  }

  /** What the agent relies on. */
  ghost predicate Trust(h: Definition -> Hash, s: State)
  {
    && AppsOk(h, s.log.approved, s.apps)
    && AppsOk(h, s.log.approved, s.disk)
    && ImportsOk(s.log.approved, s.preApproved)
    && SpawnsOk(h, s.log.approved, s.work.spawning)
    && LogOk(h, s.log)
  }

  predicate Honest(h: Definition -> Hash, specs: seq<AppSpec>)
  {
    forall i :: 0 <= i < |specs| ==> specs[i].hash == h(specs[i].def)
  }

  predicate RecordsOk(h: Definition -> Hash, approved: set<Hash>, t: Table)
  {
    forall id :: id in t ==> t[id].hash == h(t[id].def) && (t[id].approval == Approved ==> Cleared(h, approved, t[id].def))
  }

  ghost predicate Inv(h: Definition -> Hash, w: World)
  {
    && Trust(h, w.agent)
    && RecordsOk(h, w.agent.log.approved, w.hub)
    && (forall specs :: specs in w.syncs ==> Honest(h, specs))
  }

  // ---- the agent keeps it ----

  /** A step that adds nothing to trust. */
  ghost predicate Same(s: State, t: State)
  {
    && t.apps == s.apps && (t.disk == s.disk || t.disk == s.apps) && t.preApproved == s.preApproved
    && (forall sp :: sp in t.work.spawning ==> sp in s.work.spawning) && t.log == s.log
  }

  lemma SameTrust(h: Definition -> Hash, s: State, t: State)
    requires Trust(h, s) && Same(s, t)
    ensures Trust(h, t)
  {
    hide AppsOk, ImportsOk, LogOk;
  }

  /** Changing one app to one that is in order. */
  lemma AppTrust(h: Definition -> Hash, s: State, t: State, id: Id, app: App)
    requires Trust(h, s) && AppOk(h, s.log.approved, app)
    requires t.apps == s.apps[id := app] && (t.disk == s.disk || t.disk == t.apps)
    requires t.preApproved == s.preApproved && t.work.spawning == s.work.spawning && t.log == s.log
    ensures Trust(h, t)
  {
    hide AppOk, ImportsOk, LogOk, SpawnsOk;
  }

  lemma SetDesiredTrust(h: Definition -> Hash, s: State, id: Id, d: Desired, written: bool)
    requires Trust(h, s)
    ensures Trust(h, SetDesired(s, id, d, written))
  {
    var t := SetDesired(s, id, d, written);
    if t != s {
      AppTrust(h, s, t, id, s.apps[id].(desired := d));
    }
  }

  lemma LastPidTrust(h: Definition -> Hash, s: State, id: Id, p: nat, written: bool)
    requires Trust(h, s) && id in s.apps
    ensures Trust(h, SetLastPid(s, id, p, written))
  {
    assert AppOk(h, s.log.approved, s.apps[id]);
    AppTrust(h, s, SetLastPid(s, id, p, written), id, s.apps[id].(lastPid := p));
  }

  // ---- app_sync ----

  /** The one place where a definition gets in. */
  lemma AdoptTrust(h: Definition -> Hash, s: State, spec: AppSpec)
    requires Trust(h, s) && spec.hash == h(spec.def)
    ensures Trust(h, Adopt(s, spec))
  {
    hide SpawnsOk, Without;
    WithoutFewer(s.preApproved, spec.hash);
    var approval := ApprovalOf(s, spec);
    var u := s.(apps := s.apps[spec.id := App(spec.def, spec.hash, approval, spec.desired, spec.tracking, 0)]);
    AppTrust(h, s, u, spec.id, u.apps[spec.id]);
    assert SentOk(h, s.log.approved, ApprovalEvent(spec.id, approval, spec.hash));
  }

  lemma SpecTrust(h: Definition -> Hash, s: State, spec: AppSpec)
    requires Trust(h, s) && spec.hash == h(spec.def)
    ensures Trust(h, ApplySpec(s, spec).0)
  {
    hide Adopt, LogOk, ImportsOk, SpawnsOk;
    var id := spec.id;
    if id in s.apps && s.apps[id].hash == spec.hash {
      AppTrust(h, s, ApplySpec(s, spec).0, id, s.apps[id].(desired := spec.desired, tracking := spec.tracking));
    } else {
      AdoptTrust(h, s, spec);
    }
  }

  lemma {:induction false} SpecsTrust(h: Definition -> Hash, s: State, specs: seq<AppSpec>)
    requires Trust(h, s) && Honest(h, specs)
    ensures Trust(h, ApplySpecs(s, specs).0)
  {
    hide Trust, ApplySpec;
    if specs != [] {
      var n := |specs| - 1;
      SpecsTrust(h, s, specs[..n]);
      SpecTrust(h, ApplySpecs(s, specs[..n]).0, specs[n]);
    }
  }

  lemma ForgetTrust(h: Definition -> Hash, s: State, gone: set<Id>)
    requires Trust(h, s)
    ensures Trust(h, ForgetAll(s, gone))
  {
    hide AppOk, ImportsOk, LogOk, SpawnsOk;
  }

  lemma SyncTrust(h: Definition -> Hash, s: State, specs: seq<AppSpec>, written: bool)
    requires Trust(h, s) && Honest(h, specs)
    ensures Trust(h, ApplyAppSync(s, specs, written))
  {
    hide ApplySpecs, ForgetAll, AppsOk, ImportsOk, LogOk, SpawnsOk;
    SpecsTrust(h, s, specs);
    var t := ApplySpecs(s, specs).0;
    var u := ForgetAll(t, t.apps.Keys - Ids(specs));
    ForgetTrust(h, t, t.apps.Keys - Ids(specs));
    SameTrust(h, u, ApplyAppSync(s, specs, written));
  }

  // ---- starts and stops ----

  lemma SpawnTrust(h: Definition -> Hash, s: State, call: StartCall)
    requires Trust(h, s) && call.id in s.apps && s.apps[call.id].approval == Approved && !IsDocker(s.apps[call.id].def.kind)
    ensures var sp := Spawn(call, s.apps[call.id].def);
            Trust(h, s.(work := s.work.(spawning := s.work.spawning + multiset{sp})))
  {
    hide ImportsOk, LogOk;
    assert AppOk(h, s.log.approved, s.apps[call.id]);
  }

  lemma BeginTrust(h: Definition -> Hash, s: State, call: StartCall, dockerOk: bool)
    requires Trust(h, s)
    ensures Trust(h, BeginStart(s, call, dockerOk))
  {
    hide Trust;
    var t := BeginStart(s, call, dockerOk);
    if Same(s, t) {
      SameTrust(h, s, t);
    } else {
      var u := s.(work := s.work.(starts := s.work.starts - multiset{call}));
      SameTrust(h, s, u);
      SpawnTrust(h, u, call);
    }
  }

  lemma RecordedTrust(h: Definition -> Hash, s: State, sp: Spawn, now: int)
    requires Trust(h, s) && sp in s.work.spawning
    ensures Trust(h, Recorded(s, sp.call.id, sp.def, now))
  {
    hide AppsOk, ImportsOk, SentOk;
  }

  lemma RecordedSame(s: State, sp: Spawn, now: int)
    ensures var v := Recorded(s.(work := s.work.(spawning := s.work.spawning - multiset{sp})), sp.call.id, sp.def, now);
            Same(Recorded(s, sp.call.id, sp.def, now), v) && v.apps == s.apps
  {
  }

  lemma FinishTrust(h: Definition -> Hash, s: State, sp: Spawn, ok: bool, now: int, written: bool)
    requires Trust(h, s)
    ensures Trust(h, FinishStart(s, sp, ok, now, written))
  {
    hide Trust, SetLastPid, Recorded;
    var t := FinishStart(s, sp, ok, now, written);
    if sp !in s.work.spawning || !ok {
      SameTrust(h, s, t);
    } else {
      RecordedTrust(h, s, sp, now);
      var u := Recorded(s, sp.call.id, sp.def, now);
      var v := Recorded(s.(work := s.work.(spawning := s.work.spawning - multiset{sp})), sp.call.id, sp.def, now);
      RecordedSame(s, sp, now);
      SameTrust(h, u, v);
      if sp.call.id in s.apps {
        LastPidTrust(h, v, sp.call.id, s.host.nextPid, written);
      }
    }
  }

  lemma FinishStopTrust(h: Definition -> Hash, s: State, hl: Halt, ok: bool, written: bool)
    requires Trust(h, s)
    ensures Trust(h, FinishStop(s, hl, ok, written))
  {
    hide Trust;
    var t := FinishStop(s, hl, ok, written);
    var id := hl.call.id;
    if hl in s.work.halting && ok && id in s.apps && s.apps[id].lastPid != 0 {
      LastPidTrust(h, s, id, 0, written);
      SameTrust(h, SetLastPid(s, id, 0, written), t);
    } else {
      SameTrust(h, s, t);
    }
  }

  // ---- the host's decisions ----

  /** Approving something new does not take anything away. */
  lemma MoreApproved(h: Definition -> Hash, s: State, hash: Hash)
    requires Trust(h, s)
    ensures Trust(h, s.(log := s.log.(approved := s.log.approved + {hash})))
  {
    var approved := s.log.approved + {hash};
    forall m | m in s.log.sent ensures SentOk(h, approved, m) {
      assert SentOk(h, s.log.approved, m);
    }
    forall id | id in s.apps ensures AppOk(h, approved, s.apps[id]) {
      assert AppOk(h, s.log.approved, s.apps[id]);
    }
    forall id | id in s.disk ensures AppOk(h, approved, s.disk[id]) {
      assert AppOk(h, s.log.approved, s.disk[id]);
    }
  }

  lemma MoreSent(h: Definition -> Hash, s: State, m: Message)
    requires Trust(h, s) && SentOk(h, s.log.approved, m)
    ensures Trust(h, s.(log := s.log.(sent := s.log.sent + {m})))
  {
    hide AppsOk, ImportsOk, SentOk, SpawnsOk;
  }

  lemma DecideTrust(h: Definition -> Hash, s: State, id: Id, approve: bool, written: bool)
    requires Trust(h, s)
    ensures Trust(h, Decide(s, id, approve, written))
  {
    if id in s.apps {
      var a := if approve then Approved else Rejected;
      var hash := s.apps[id].hash;
      var t := if approve then s.(log := s.log.(approved := s.log.approved + {hash})) else s;
      assert AppOk(h, s.log.approved, s.apps[id]);
      MoreApproved(h, s, hash);
      assert SentOk(h, t.log.approved, ApprovalEvent(id, a, hash));
      assert AppOk(h, t.log.approved, t.apps[id].(approval := a));
      hide Trust, SentOk, AppOk;
      MoreSent(h, t, ApprovalEvent(id, a, hash));
      var u := t.(log := t.log.(sent := t.log.sent + {ApprovalEvent(id, a, hash)}));
      AppTrust(h, u, Decide(s, id, approve, written), id, t.apps[id].(approval := a));
    }
  }

  lemma ImportTrust(h: Definition -> Hash, s: State, def: Definition)
    requires Trust(h, s)
    ensures Trust(h, Import(s, h, def))
  {
    MoreApproved(h, s, h(def));
    var t := s.(log := s.log.(approved := s.log.approved + {h(def)}));
    assert SentOk(h, t.log.approved, AppRegister(def));
    MoreSent(h, t, AppRegister(def));
    hide AppsOk, LogOk, SpawnsOk;
  }

  lemma RebootTrust(h: Definition -> Hash, s: State, reaped: set<Pid>, written: bool)
    requires Trust(h, s)
    ensures Trust(h, Reboot(s, reaped, written))
  {
    hide LogOk;
    forall id | id in s.disk ensures AppOk(h, s.log.approved, Reap(s.disk[id])) {
      assert AppOk(h, s.log.approved, s.disk[id]);
    }
  }

  lemma CommandTrust(h: Definition -> Hash, s: State, c: Command, written: bool)
    requires Trust(h, s)
    ensures Trust(h, Execute(s, c, written))
  {
    hide Trust, SetDesired;
    var t := s.(work := s.work.(commands := s.work.commands - multiset{c}));
    SameTrust(h, s, t);
    var d := if c.verb == Stop then Stopped else Running;
    SetDesiredTrust(h, t, c.id, d, written);
    if c in s.work.commands && c.verb != Other {
      SameTrust(h, SetDesired(t, c.id, d, written), Execute(s, c, written));
    }
  }

  /** One step of the agent keeps its side of the bargain. */
  lemma AgentKeepsTrust(h: Definition -> Hash, s: State, ev: Event)
    requires Trust(h, s)
    requires ev.Sync? ==> Honest(h, ev.specs)
    ensures Trust(h, Next(h, s, ev))
  {
    hide Trust, ApplyAppSync, Reboot, BeginStart, FinishStart, FinishStop, Decide, Import, Execute;
    match ev
    case Sync(specs, written) => SyncTrust(h, s, specs, written);
    case Imported(def) => ImportTrust(h, s, def);
    case Decided(id, approve, written) => DecideTrust(h, s, id, approve, written);
    case StartBegins(call, dockerOk) => BeginTrust(h, s, call, dockerOk);
    case StartEnds(sp, ok, now, written) => FinishTrust(h, s, sp, ok, now, written);
    case StopEnds(hl, ok, written) => FinishStopTrust(h, s, hl, ok, written);
    case Boot(reaped, written) => RebootTrust(h, s, reaped, written);
    case CommandRuns(c, written) => CommandTrust(h, s, c, written);
    case _ =>
      hide Next;
      OtherAppStep(h, s, ev);
      StepWork(h, s, ev);
      SameTrust(h, s, Next(h, s, ev));
  }

  // ---- what becomes history ----

  /** Where a step of the agent may add to its history. */
  lemma HistoryGrows(h: Definition -> Hash, s: State, ev: Event)
    ensures var t := Next(h, s, ev);
            && (t.log.approved == s.log.approved || exists hash :: HostApproves(h, s, ev, hash) && t.log.approved == s.log.approved + {hash})
            && (t.log.spawned == s.log.spawned
                || (ev.StartEnds? && ev.sp in s.work.spawning && t.log.spawned == s.log.spawned + [(ev.sp.call.id, ev.sp.def)]))
  {
    StepProc(h, s, ev);
    hide ProcStep;
    match ev {
      case Sync(specs, written) =>
        hide ApplySpecs;
        SpecsKeep(s, specs);
      case CommandRuns(c, written) =>
        hide Execute;
        CommandKeeps(s, c, written);
      case Imported(def) =>
        assert HostApproves(h, s, ev, h(def));
      case Decided(id, approve, written) =>
        if id in s.apps && approve {
          assert HostApproves(h, s, ev, s.apps[id].hash);
        }
      case StartEnds(sp, ok, now, written) =>
      case StopEnds(_, _, _) =>
      case Boot(_, _) =>
        hide Resurrected, ReapedHost, Reaped;
      case _ =>
        hide Next;
        OtherAppStep(h, s, ev);
    }
  }

  /** Somebody with access to the host imports or approves the definition with this hash. */
  predicate HostApproves(h: Definition -> Hash, s: State, ev: Event, hash: Hash)
  {
    match ev
    case Imported(def) => h(def) == hash
    case Decided(id, approve, _) => approve && id in s.apps && s.apps[id].hash == hash
    case _ => false
  }

  // ---- the system keeps it ----

  lemma SpecsHonest(h: Definition -> Hash, approved: set<Hash>, t: Table, decodes: Record -> bool, ids: seq<Id>)
    requires RecordsOk(h, approved, t)
    requires forall i :: 0 <= i < |ids| ==> ids[i] in t
    ensures Honest(h, Specs(t, decodes, ids))
  {
    SpecsListed(t, decodes, ids);
    var specs := Specs(t, decodes, ids);
    forall i | 0 <= i < |specs| ensures specs[i].hash == h(specs[i].def) {
      assert specs[i] in specs;
    }
  }

  /** The hub believes an approval event only for the definition it has. */
  lemma DecisionOk(h: Definition -> Hash, approved: set<Hash>, t: Table, id: Id, approval: Approval, hash: Hash)
    requires Injective(h) && RecordsOk(h, approved, t) && SentOk(h, approved, ApprovalEvent(id, approval, hash))
    ensures RecordsOk(h, approved, Decision(t, id, approval, hash))
  {
    if id in t && t[id].hash == hash && approval == Approved && hash !in approved {
      var d :| h(d) == hash && IsDocker(d.kind);
      assert d == t[id].def;
    }
  }

  lemma MoreRecordsOk(h: Definition -> Hash, approved: set<Hash>, more: set<Hash>, t: Table)
    requires RecordsOk(h, approved, t) && approved <= more
    ensures RecordsOk(h, more, t)
  {
  }

  lemma IntendOk(h: Definition -> Hash, approved: set<Hash>, t: Table, id: Id, verb: Verb, stored: bool)
    requires RecordsOk(h, approved, t)
    ensures RecordsOk(h, approved, Intend(t, id, verb, stored))
  {
  }

  lemma SubmitOk(h: Definition -> Hash, valid: Definition -> bool, approved: set<Hash>, t: Table, known: bool,
                 app: Option<Id>, def: Definition, newId: Id, now: nat)
    requires Injective(h) && RecordsOk(h, approved, t)
    ensures RecordsOk(h, approved, Submit(t, h, valid, known, app, def, newId, now))
  {
  }

  lemma StepKeeps(h: Definition -> Hash, rules: Rules, w: World, ev: WorldEvent)
    requires Injective(h) && Inv(h, w)
    ensures Inv(h, Step(h, rules, w, ev))
  {
    hide Next, Trust, SentOk, Submit, Decision, Intend, Listing, Specs, Cleared;
    var approved := w.agent.log.approved;
    match ev
    case HubRegisters(def, newId, now) =>
      if AppRegister(def) in w.agent.log.sent {
        MailTrust(h, w.agent, AppRegister(def));
        RegisterOk(h, rules.valid, approved, w.hub, def, newId, now);
      }
    case HubHears(id, approval, hash) =>
      if ApprovalEvent(id, approval, hash) in w.agent.log.sent {
        MailTrust(h, w.agent, ApprovalEvent(id, approval, hash));
        DecisionOk(h, approved, w.hub, id, approval, hash);
      }
    case UserSaves(known, app, def, newId, now) => SubmitOk(h, rules.valid, approved, w.hub, known, app, def, newId, now);
    case UserCommands(id, verb, stored) => IntendOk(h, approved, w.hub, id, verb, stored);
    case HubDispatches(id, verb) =>
    case UserTracks(id, tracking) =>
    case UserDeletes(id) =>
    case HubSyncs(ids) =>
      if Listing(w.hub, ids) {
        ListingKnown(w.hub, ids);
        SpecsHonest(h, approved, w.hub, rules.decodes, ids);
      }
    case AgentSteps(e) =>
      if Delivered(w, e) {
        AgentKeepsTrust(h, w.agent, e);
        HistoryGrows(h, w.agent, e);
        MoreRecordsOk(h, approved, Next(h, w.agent, e).log.approved, w.hub);
      }
  }

  lemma ListingKnown(t: Table, ids: seq<Id>)
    requires Listing(t, ids)
    ensures forall i :: 0 <= i < |ids| ==> ids[i] in t
  {
  }

  lemma MailTrust(h: Definition -> Hash, s: State, m: Message)
    requires Trust(h, s) && m in s.log.sent
    ensures SentOk(h, s.log.approved, m)
    ensures m.AppRegister? ==> h(m.def) in s.log.approved
  {
  }

  lemma RegisterOk(h: Definition -> Hash, valid: Definition -> bool, approved: set<Hash>, t: Table, def: Definition, newId: Id, now: nat)
    requires RecordsOk(h, approved, t) && h(def) in approved
    ensures RecordsOk(h, approved, Register(t, h, valid, def, newId, now))
  {
  }

  lemma {:induction false} RunKeeps(h: Definition -> Hash, rules: Rules, evs: seq<WorldEvent>)
    requires Injective(h)
    ensures Inv(h, Run(h, rules, evs))
  {
    if evs != [] {
      hide Inv, Step;
      RunKeeps(h, rules, evs[..|evs| - 1]);
      StepKeeps(h, rules, Run(h, rules, evs[..|evs| - 1]), evs[|evs| - 1]);
    } else {
      assert START.agent.log.spawned == [];
    }
  }

  /** At some step of the run the host imported or approved this hash. */
  ghost predicate ApprovedDuring(h: Definition -> Hash, rules: Rules, evs: seq<WorldEvent>, hash: Hash)
  {
    exists k :: 0 <= k < |evs| && ApprovedAt(h, rules, evs, k, hash)
  }

  predicate ApprovedAt(h: Definition -> Hash, rules: Rules, evs: seq<WorldEvent>, k: nat, hash: Hash)
    requires k < |evs|
  {
    evs[k].AgentSteps? && HostApproves(h, Run(h, rules, evs[..k]).agent, evs[k].ev, hash)
  }

  lemma {:induction false} ApprovedHistory(h: Definition -> Hash, rules: Rules, evs: seq<WorldEvent>, hash: Hash)
    requires hash in Run(h, rules, evs).agent.log.approved
    ensures ApprovedDuring(h, rules, evs, hash)
  {
    hide HostApproves, Next;
    if evs != [] {
      var n := |evs| - 1;
      var w := Run(h, rules, evs[..n]);
      if hash in w.agent.log.approved {
        ApprovedHistory(h, rules, evs[..n], hash);
        var k :| 0 <= k < n && ApprovedAt(h, rules, evs[..n], k, hash);
        assert evs[..n][..k] == evs[..k];
        assert ApprovedAt(h, rules, evs, k, hash);
      } else {
        HistoryGrows(h, w.agent, evs[n].ev);
        assert ApprovedAt(h, rules, evs, n, hash);
      }
    }
  }

  /** Approval safety, for the host: the agent starts a process in a step only if its
      definition was imported or approved on the host at an earlier step, whatever the hub
      sent and the network did. */
  lemma OnlyApprovedRuns(h: Definition -> Hash, rules: Rules, evs: seq<WorldEvent>, n: nat)
    requires Injective(h) && n < |evs|
    ensures var before := Run(h, rules, evs[..n]).agent.log.spawned;
            var after := Run(h, rules, evs[..n + 1]).agent.log.spawned;
            && before <= after
            && forall i :: |before| <= i < |after| ==>
                 !IsDocker(after[i].1.kind) && ApprovedDuring(h, rules, evs[..n], h(after[i].1))
  {
    hide Next, ApprovedDuring, Trust;
    var w := Run(h, rules, evs[..n]);
    assert evs[..n + 1][..n] == evs[..n];
    RunKeeps(h, rules, evs[..n]);
    if evs[n].AgentSteps? && Delivered(w, evs[n].ev) {
      var ev := evs[n].ev;
      HistoryGrows(h, w.agent, ev);
      if ev.StartEnds? && ev.sp in w.agent.work.spawning {
        SpawnCleared(h, w.agent, ev.sp);
        ApprovedHistory(h, rules, evs[..n], h(ev.sp.def));
      }
    }
  }

  lemma SpawnCleared(h: Definition -> Hash, s: State, sp: Spawn)
    requires Trust(h, s) && sp in s.work.spawning
    ensures !IsDocker(sp.def.kind) && h(sp.def) in s.log.approved
  {
    hide AppsOk, LogOk, ImportsOk;
  }

  /** Approval safety, for the hub: a record it shows as approved is a container kind or a
      definition the host imported or approved. */
  lemma HubShowsOnlyApproved(h: Definition -> Hash, rules: Rules, evs: seq<WorldEvent>, id: Id)
    requires Injective(h)
    requires var t := Run(h, rules, evs).hub; id in t && t[id].approval == Approved
    ensures var r := Run(h, rules, evs).hub[id];
            && r.hash == h(r.def)
            && (IsDocker(r.def.kind) || ApprovedDuring(h, rules, evs, h(r.def)))
  {
    hide ApprovedDuring, Trust;
    RunKeeps(h, rules, evs);
    var w := Run(h, rules, evs);
    assert RecordsOk(h, w.agent.log.approved, w.hub);
    if !IsDocker(w.hub[id].def.kind) {
      ApprovedHistory(h, rules, evs, h(w.hub[id].def));
    }
  }

  /** An import approves the app the hub answers with exactly when the host does not already
      hold an undecided or rejected app with that very definition. */
  lemma ImportApprovesIff(h: Definition -> Hash, s: State, def: Definition, spec: AppSpec)
    requires spec.hash == h(def)
    ensures ApplySpec(Import(s, h, def), spec).0.apps[spec.id].approval == Approved
            <==> !(spec.id in s.apps && s.apps[spec.id].hash == h(def) && s.apps[spec.id].approval != Approved)
  {
    var t := Import(s, h, def);
    assert t.preApproved[|s.preApproved|] == h(def);
  }
}
