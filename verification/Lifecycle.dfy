/** From a definition to a process and back: what is saved or imported reaches the agent, what the
    host approves may be started, what is started runs, and what is stopped is killed
    (hub/internal/appsapi/appsapi.go, hub/internal/agenthub/apps.go,
    agent/internal/daemon/{daemon,apps,loops}.go). */
module Lifecycle {

  import opened Wrappers
  import opened Agent
  import opened AgentSteps
  import opened AppHub
  import opened Approvals
  import opened Convergence
  import opened Wishes

  // ---- a definition reaches the agent ----

  /** Filling in the schema version and the kind: what is set stays, what is not gets its default,
      and doing it again changes nothing. */
  lemma NormalSays(def: Definition)
    ensures var d := Normal(def);
            && d.schema == (if def.schema == 0 then 1 else def.schema)
            && d.kind == (if def.kind == Unset then Process else def.kind)
            && d.(schema := def.schema, kind := def.kind) == def && Normal(d) == d
  {
  }

  /** Which submissions the hub takes, and what becomes of a new one: a record nobody has approved
      and nobody wants to run. */
  lemma CreatedSays(h: Definition -> Hash, valid: Definition -> bool, t: Table, known: bool, def: Definition, newId: Id, now: nat)
    requires newId !in t
    ensures var u := Submit(t, h, valid, known, None, def, newId, now);
            if valid(Normal(def)) && known then
              u.Keys == t.Keys + {newId} && (forall i :: i in t ==> u[i] == t[i])
              && u[newId] == Record(Normal(def), h(Normal(def)), Pending, Stopped, "", now)
            else u == t
  {
  }

  /** A definition a user saves is the hub's from then on, approved only if it was approved
      already and is no other, and the next sync makes it the agent's, running processes aside. */
  lemma SavedAndSynced(h: Definition -> Hash, valid: Definition -> bool, t: Table, s: State, id: Id, def: Definition,
                       newId: Id, now: nat, decodes: Record -> bool, ids: seq<Id>, written: bool)
    requires Injective(h) && id in t && valid(Normal(def))
    requires id in s.apps ==> s.apps[id].hash == h(s.apps[id].def)
    requires var u := Submit(t, h, valid, true, Some(id), def, newId, now); Listing(u, ids) && id in ids && decodes(u[id])
    ensures var u := Submit(t, h, valid, true, Some(id), def, newId, now);
            var v := ApplyAppSync(s, Specs(u, decodes, ids), written);
            && u.Keys == t.Keys && (forall i :: i in t && i != id ==> u[i] == t[i])
            && u[id].def == Normal(def) && u[id].hash == h(Normal(def))
            && u[id].desired == t[id].desired && u[id].tracking == t[id].tracking && u[id].created == t[id].created
            && u[id].approval == (if t[id].hash == h(Normal(def)) then t[id].approval else Pending)
            && id in v.apps && v.apps[id].def == Normal(def) && v.apps[id].hash == h(Normal(def))
            && (id in v.sup.procs <==> id in s.sup.procs) && (id in s.sup.procs ==> v.sup.procs[id] == s.sup.procs[id])
            && v.host == s.host && v.log.spawned == s.log.spawned
  {
    var u := Submit(t, h, valid, true, Some(id), def, newId, now);
    var specs := Specs(u, decodes, ids);
    SpecsDistinct(u, decodes, ids);
    SpecsListed(u, decodes, ids);
    assert SpecOf(id, u[id]) in specs;
    var k :| 0 <= k < |specs| && specs[k] == SpecOf(id, u[id]);
    SyncLeaves(s, specs, written);
    SyncDecides(s, specs, written, k);
    SyncRest(s, specs, written, id, k);
    hide ApplyAppSync, Specs, Listing;
  }

  lemma SyncRest(s: State, specs: seq<AppSpec>, written: bool, id: Id, k: nat)
    requires k < |specs| && specs[k].id == id
    ensures var v := ApplyAppSync(s, specs, written);
            && (id in v.sup.procs <==> id in s.sup.procs) && (id in s.sup.procs ==> v.sup.procs[id] == s.sup.procs[id])
            && v.host == s.host && v.log.spawned == s.log.spawned
  {
    SpecsKeep(s, specs);
    assert specs[k].id in Ids(specs);
    hide ApplySpecs, Ids;
  }

  /** The definition both have, with no process of it running. */
  predicate Agreed(t: Table, s: State, id: Id)
  {
    && id in t && id in s.apps && t[id].hash == s.apps[id].hash && !IsDocker(s.apps[id].def.kind)
    && !(id in s.sup.procs && s.sup.procs[id] in s.host.alive)
  }

  /** The host approves, and the hub hears of it: now a user may start the app. */
  lemma ApproveReachesHub(h: Definition -> Hash, t: Table, s: State, id: Id, written: bool)
    requires Agreed(t, s, id)
    ensures var v := Next(h, s, Decided(id, true, written));
            var u := Decision(t, id, Approved, t[id].hash);
            && ApprovalEvent(id, Approved, t[id].hash) in v.log.sent && Commandable(u, id, Start)
            && Agreed(u, v, id) && v.apps[id] == s.apps[id].(approval := Approved)
            && v.host == s.host && v.log.spawned == s.log.spawned
  {
  }

  /** The user's start, dispatched with the hash the hub has, passes the agent's gate and asks for
      a start. */
  lemma CommandReachesAgent(h: Definition -> Hash, t: Table, s: State, id: Id, stored: bool, written: bool)
    requires Agreed(t, s, id) && Commandable(t, id, Start) && s.apps[id].approval == Approved
    ensures var u := Intend(t, id, Start, stored);
            var v := Next(h, s, Commanded(id, Start, StampOf(u, id)));
            var w := Next(h, v, CommandRuns(Command(id, Start), written));
            && Command(id, Start) in v.work.commands && StartCall(id, false) in w.work.starts
            && Agreed(u, w, id) && w.apps[id] == s.apps[id].(desired := Running)
            && w.host == s.host && w.log.spawned == s.log.spawned
            && (stored ==> u[id].desired == Running)
  {
    var u := Intend(t, id, Start, stored);
    var v := Next(h, s, Commanded(id, Start, StampOf(u, id)));
    assert v == s.(work := s.work.(commands := s.work.commands + multiset{Command(id, Start)}));
    CommandKeeps(v, Command(id, Start), written);
    ExecuteStarts(v, id, written);
    hide Next, Execute, Accept;
    assert Next(h, v, CommandRuns(Command(id, Start), written)) == Execute(v, Command(id, Start), written) by {
      NextExecutes(h, v, Command(id, Start), written);
    }
  }

  lemma NextExecutes(h: Definition -> Hash, s: State, c: Command, written: bool)
    ensures Next(h, s, CommandRuns(c, written)) == Execute(s, c, written)
  {
    hide Execute;
  }

  lemma ExecuteStarts(s: State, id: Id, written: bool)
    requires Command(id, Start) in s.work.commands && id in s.apps
    ensures var w := Execute(s, Command(id, Start), written);
            id in w.apps && w.apps[id] == s.apps[id].(desired := Running)
  {
  }

  /** The start spawns the definition the app has, and the process is the app's, watched, and
      remembered. */
  lemma StartReachesProcess(h: Definition -> Hash, s: State, id: Id, now: int, dockerOk: bool, written: bool)
    requires id in s.apps && s.apps[id].approval == Approved && !IsDocker(s.apps[id].def.kind)
    requires !(id in s.sup.procs && s.sup.procs[id] in s.host.alive) && StartCall(id, false) in s.work.starts
    ensures var sp := Spawn(StartCall(id, false), s.apps[id].def);
            var v := Next(h, s, StartBegins(sp.call, dockerOk));
            var w := Next(h, v, StartEnds(sp, true, now, written));
            && sp in v.work.spawning
            && w.log.spawned == s.log.spawned + [(id, s.apps[id].def)]
            && id in w.sup.procs && w.sup.procs[id] == s.host.nextPid && s.host.nextPid in w.host.alive
            && s.host.nextPid in w.host.watchers && w.host.watchers[s.host.nextPid] == id
            && id in w.sup.startTimes && w.sup.startTimes[id] == now
            && w.apps == s.apps[id := s.apps[id].(lastPid := s.host.nextPid)]
            && w.disk == if written then w.apps else s.disk
  {
    var sp := Spawn(StartCall(id, false), s.apps[id].def);
    var v := Next(h, s, StartBegins(sp.call, dockerOk));
    assert v.work.spawning[sp] > 0;
    assert v.apps == s.apps && v.disk == s.disk && v.host == s.host && v.log == s.log && v.sup == s.sup;
    hide BeginStart;
  }

  /** From an agreed definition to its process: approved on the host, reported, started by a user,
      dispatched, executed, begun and recorded. */
  lemma ApprovedStartRuns(h: Definition -> Hash, t: Table, s: State, id: Id, stored: bool, written: bool, now: int, dockerOk: bool)
    requires Agreed(t, s, id)
    ensures var sp := Spawn(StartCall(id, false), s.apps[id].def);
            var u := Intend(Decision(t, id, Approved, t[id].hash), id, Start, stored);
            var s1 := Next(h, s, Decided(id, true, written));
            var s2 := Next(h, s1, Commanded(id, Start, StampOf(u, id)));
            var s3 := Next(h, s2, CommandRuns(Command(id, Start), written));
            var s4 := Next(h, s3, StartBegins(sp.call, dockerOk));
            var s5 := Next(h, s4, StartEnds(sp, true, now, written));
            && ApprovalEvent(id, Approved, t[id].hash) in s1.log.sent
            && s5.log.spawned == s.log.spawned + [(id, s.apps[id].def)]
            && id in s5.sup.procs && s5.sup.procs[id] == s.host.nextPid && s.host.nextPid in s5.host.alive
            && id in s5.apps && s5.apps[id] == s.apps[id].(approval := Approved, desired := Running, lastPid := s.host.nextPid)
  {
    hide Next, Decision, Intend;
    ApproveReachesHub(h, t, s, id, written);
    var s1 := Next(h, s, Decided(id, true, written));
    var u := Decision(t, id, Approved, t[id].hash);
    CommandReachesAgent(h, u, s1, id, stored, written);
    var s2 := Next(h, s1, Commanded(id, Start, StampOf(Intend(u, id, Start, stored), id)));
    var s3 := Next(h, s2, CommandRuns(Command(id, Start), written));
    StartReachesProcess(h, s3, id, now, dockerOk, written);
  }

  /** A stop or restart command carried out kills exactly the app's process, forgets it, and
      records the wish; a restart then asks for a start. */
  lemma StopReachesProcess(h: Definition -> Hash, s: State, id: Id, again: bool, dockerOk: bool, saved: bool, written: bool)
    requires id in s.apps && !IsDocker(s.apps[id].def.kind) && id in s.sup.procs
    requires Command(id, if again then Restart else Stop) in s.work.commands
    ensures var hl := Halt(StopCall(id, again), s.sup.procs[id]);
            var s1 := Next(h, s, CommandRuns(Command(id, if again then Restart else Stop), saved));
            var s2 := Next(h, s1, StopBegins(hl.call, dockerOk));
            var s3 := Next(h, s2, StopEnds(hl, true, written));
            && hl in s2.work.halting
            && s3.host.alive == s.host.alive - {hl.pid}
            && s3.sup.procs == s.sup.procs - {id} && id !in s3.sup.startTimes && id !in s3.sup.restarts
            && s3.apps == s.apps[id := s.apps[id].(desired := if again then Running else Stopped, lastPid := 0)]
            && (again ==> StartCall(id, false) in s3.work.starts)
  {
    var hl := Halt(StopCall(id, again), s.sup.procs[id]);
    var c := Command(id, if again then Restart else Stop);
    CommandKeeps(s, c, saved);
    ExecuteWish(s, c, saved);
    NextExecutes(h, s, c, saved);
    var s1 := Next(h, s, CommandRuns(c, saved));
    hide Execute, Next;
    assert s1.apps == s.apps[id := s.apps[id].(desired := if again then Running else Stopped)];
    assert s1.work.stops[hl.call] > 0;
    StopEndsProcess(h, s1, hl, dockerOk, written);
  }

  lemma ExecuteWish(s: State, c: Command, written: bool)
    requires c in s.work.commands && c.id in s.apps && c.verb != Other
    ensures Execute(s, c, written).apps == s.apps[c.id := s.apps[c.id].(desired := if c.verb == Stop then Stopped else Running)]
  {
    if s.apps[c.id].desired == (if c.verb == Stop then Stopped else Running) {
      assert s.apps[c.id := s.apps[c.id]] == s.apps;
    }
  }

  lemma StopEndsProcess(h: Definition -> Hash, s: State, hl: Halt, dockerOk: bool, written: bool)
    requires var id := hl.call.id; id in s.apps && !IsDocker(s.apps[id].def.kind) && id in s.sup.procs && s.sup.procs[id] == hl.pid
    requires hl.call in s.work.stops
    ensures var id := hl.call.id;
            var s2 := Next(h, s, StopBegins(hl.call, dockerOk));
            var s3 := Next(h, s2, StopEnds(hl, true, written));
            && hl in s2.work.halting
            && s3.host.alive == s.host.alive - {hl.pid}
            && s3.sup.procs == s.sup.procs - {id} && id !in s3.sup.startTimes && id !in s3.sup.restarts
            && s3.apps == s.apps[id := s.apps[id].(lastPid := 0)]
            && (hl.call.thenStart ==> StartCall(id, false) in s3.work.starts)
  {
    var id := hl.call.id;
    var s2 := Next(h, s, StopBegins(hl.call, dockerOk));
    assert s2.work.halting[hl] > 0;
    assert s2.apps == s.apps && s2.host == s.host;
    assert s2.sup.procs == s.sup.procs - {id} && id !in s2.sup.startTimes && id !in s2.sup.restarts;
    hide BeginStop;
    if s.apps[id].lastPid == 0 {
      assert s.apps[id := s.apps[id].(lastPid := 0)] == s.apps;
    }
  }

  // ---- an import ----

  /** However often the hub hears of an import, there is one record of that definition for it, and
      none if it is not valid. */
  lemma ImportIsOnce(h: Definition -> Hash, valid: Definition -> bool, t: Table, def: Definition, id: Id, now: nat, newId: Id, later: nat)
    requires id !in t
    ensures var u := Register(t, h, valid, def, id, now);
            && Register(u, h, valid, def, newId, later) == u
            && (u != t <==> valid(def) && forall i :: i in t ==> t[i].hash != h(def))
            && (valid(def) ==> HasHash(u, h(def)))
  {
    var u := Register(t, h, valid, def, id, now);
    if valid(def) && !HasHash(t, h(def)) {
      assert id in u && u[id].hash == h(def);
    }
  }

  /** A definition imported on the host comes back from the hub approved, to be started by hand:
      one record, one app, the import used up, the hub told. */
  lemma ImportReachesAgent(h: Definition -> Hash, valid: Definition -> bool, t: Table, s: State, def: Definition, newId: Id, now: nat,
                           decodes: Record -> bool, ids: seq<Id>, written: bool)
    requires valid(def) && !HasHash(t, h(def)) && newId !in t && newId !in s.apps
    requires var u := Register(t, h, valid, def, newId, now); Listing(u, ids) && newId in ids && decodes(u[newId])
    ensures var v := Next(h, s, Imported(def));
            var u := Register(t, h, valid, def, newId, now);
            var w := ApplyAppSync(v, Specs(u, decodes, ids), written);
            && AppRegister(def) in v.log.sent
            && u.Keys == t.Keys + {newId} && (forall i :: i in t ==> u[i] == t[i])
            && u[newId] == Record(def, h(def), Approved, Stopped, "", now)
            && newId in w.apps && w.apps[newId].def == def && w.apps[newId].hash == h(def)
            && w.apps[newId].approval == Approved && w.apps[newId].desired == Stopped
            && ApprovalEvent(newId, Approved, h(def)) in w.log.sent
  {
    Registered(h, valid, t, s, def, newId, now);
    var v := Next(h, s, Imported(def));
    var u := Register(t, h, valid, def, newId, now);
    hide Next, Register, ApplyAppSync, Specs, Listing;
    ImportAdopted(h, t, u, v, def, newId, decodes, ids, written);
  }

  lemma Registered(h: Definition -> Hash, valid: Definition -> bool, t: Table, s: State, def: Definition, newId: Id, now: nat)
    requires valid(def) && !HasHash(t, h(def)) && newId !in t
    ensures var v := Next(h, s, Imported(def));
            var u := Register(t, h, valid, def, newId, now);
            && AppRegister(def) in v.log.sent && v.apps == s.apps && h(def) in v.preApproved
            && u.Keys == t.Keys + {newId} && (forall i :: i in t ==> u[i] == t[i])
            && u[newId] == Record(def, h(def), Approved, Stopped, "", now)
  {
    hide HasHash;
    assert Next(h, s, Imported(def)).preApproved[|s.preApproved|] == h(def);
  }

  lemma ImportAdopted(h: Definition -> Hash, t: Table, u: Table, v: State, def: Definition, newId: Id,
                      decodes: Record -> bool, ids: seq<Id>, written: bool)
    requires !HasHash(t, h(def)) && newId !in t && newId !in v.apps && h(def) in v.preApproved
    requires u.Keys == t.Keys + {newId} && (forall i :: i in t ==> u[i] == t[i])
    requires u[newId].def == def && u[newId].hash == h(def) && u[newId].desired == Stopped
    requires Listing(u, ids) && newId in ids && decodes(u[newId])
    ensures var w := ApplyAppSync(v, Specs(u, decodes, ids), written);
            && newId in w.apps && w.apps[newId].def == def && w.apps[newId].hash == h(def)
            && w.apps[newId].approval == Approved && w.apps[newId].desired == Stopped
            && ApprovalEvent(newId, Approved, h(def)) in w.log.sent
  {
    var specs := Specs(u, decodes, ids);
    SpecsDistinct(u, decodes, ids);
    SpecsListed(u, decodes, ids);
    assert SpecOf(newId, u[newId]) in specs;
    var k :| 0 <= k < |specs| && specs[k] == SpecOf(newId, u[newId]);
    OnlyOneBrings(v, t, u, specs, k);
    hide ApplyAppSync, Specs, Listing, Bringing, HasHash, Distinct;
    AdoptedAt(v, specs, written, k);
  }

  /** The first entry that brings an imported definition. */
  lemma AdoptedAt(s: State, specs: seq<AppSpec>, written: bool, k: nat)
    requires Distinct(specs) && k < |specs| && specs[k].id !in s.apps
    requires specs[k].hash in s.preApproved && Bringing(s, specs[..k], specs[k].hash) == 0
    ensures var w := ApplyAppSync(s, specs, written);
            && specs[k].id in w.apps && w.apps[specs[k].id].def == specs[k].def && w.apps[specs[k].id].hash == specs[k].hash
            && w.apps[specs[k].id].approval == Approved && w.apps[specs[k].id].desired == specs[k].desired
            && ApprovalEvent(specs[k].id, Approved, specs[k].hash) in w.log.sent
  {
    hide ApplyAppSync, Bringing, Distinct;
    var w := ApplyAppSync(s, specs, written);
    SyncApprovesIff(s, specs, written, k);
    SyncDecides(s, specs, written, k);
    SyncLeaves(s, specs, written);
    assert Matches(w.apps, specs[k]);
    SyncTells(s, specs, written, ApprovalEvent(specs[k].id, Approved, specs[k].hash));
    assert Told(s, specs, w, k, ApprovalEvent(specs[k].id, Approved, specs[k].hash));
  }

  /** No entry before the imported one has its definition. */
  lemma OnlyOneBrings(s: State, t: Table, u: Table, specs: seq<AppSpec>, k: nat)
    requires k < |specs| && Distinct(specs) && specs[k].id !in t && !HasHash(t, specs[k].hash)
    requires forall sp :: sp in specs ==> sp.id in u && sp == SpecOf(sp.id, u[sp.id])
    requires forall i :: i in u && i != specs[k].id ==> i in t && u[i] == t[i]
    ensures Bringing(s, specs[..k], specs[k].hash) == 0
  {
    forall i | 0 <= i < k ensures specs[i].hash != specs[k].hash {
      assert specs[i] in specs && specs[i].id != specs[k].id;
    }
    NoneBrings(s, specs[..k], specs[k].hash);
  }

  lemma {:induction false} NoneBrings(s: State, specs: seq<AppSpec>, x: Hash)
    requires forall i :: 0 <= i < |specs| ==> specs[i].hash != x
    ensures Bringing(s, specs, x) == 0
  {
    if specs != [] {
      NoneBrings(s, specs[..|specs| - 1], x);
    }
  }
}
