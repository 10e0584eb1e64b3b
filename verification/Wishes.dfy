/** A user's start or stop is what the system then strives for: from the command at the hub to
    the agent's list of apps (hub/internal/commands/commands.go,
    hub/internal/agenthub/{apps,hub}.go, agent/internal/daemon/daemon.go). */
module Wishes {

  import opened Wrappers
  import opened Agent
  import opened AgentSteps
  import opened AppHub
  import opened Approvals
  import opened Convergence

  // ---- at the hub ----

  /** A command a user asks for, and whether the record could be stored. */
  datatype Ask = Ask(id: Id, verb: Verb, stored: bool)

  function Asked(t: Table, asks: seq<Ask>): Table
  {
    if asks == [] then t
    else
      var a := asks[|asks| - 1];
      Intend(Asked(t, asks[..|asks| - 1]), a.id, a.verb, a.stored)
  }

  predicate Wants(asks: seq<Ask>, k: int, id: Id, verb: Verb)
  {
    0 <= k < |asks| && asks[k] == Ask(id, verb, true)
  }

  /** Somebody stored a start or a stop of this app. */
  predicate Wished(asks: seq<Ask>, id: Id)
  {
    exists k :: 0 <= k < |asks| && (Wants(asks, k, id, Start) || Wants(asks, k, id, Stop))
  }

  /** ... and the last one was a start. */
  ghost predicate LastIsStart(asks: seq<Ask>, id: Id)
  {
    exists k :: Wants(asks, k, id, Start) && forall j :: k < j < |asks| ==> !Wants(asks, j, id, Stop)
  }

  lemma LastAsk(asks: seq<Ask>, a: Ask, id: Id)
    ensures Wished(asks + [a], id) <==> Wished(asks, id) || a == Ask(id, Start, true) || a == Ask(id, Stop, true)
    ensures LastIsStart(asks + [a], id) <==> a == Ask(id, Start, true) || (LastIsStart(asks, id) && a != Ask(id, Stop, true))
  {
    var all, n := asks + [a], |asks|;
    assert forall k, verb :: 0 <= k < n ==> (Wants(all, k, id, verb) <==> Wants(asks, k, id, verb));
    assert forall verb :: Wants(all, n, id, verb) <==> a == Ask(id, verb, true);
    if LastIsStart(asks, id) && a != Ask(id, Stop, true) {
      var k :| Wants(asks, k, id, Start) && forall j :: k < j < n ==> !Wants(asks, j, id, Stop);
      assert Wants(all, k, id, Start) && forall j :: k < j < |all| ==> !Wants(all, j, id, Stop);
    }
  }

  /** Whatever users ask, an approved record wants to run exactly when the last start or stop of
      it was a start, and wants what it wanted if there was none. Restarts, unknown verbs and
      commands for other records change nothing of it, and nothing else of it ever changes. */
  lemma {:induction false} WishIsLastAsked(t: Table, asks: seq<Ask>, id: Id)
    ensures var u := Asked(t, asks);
            && u.Keys == t.Keys
            && (id in t ==>
                  && u[id].(desired := t[id].desired) == t[id]
                  && if t[id].approval == Approved && Wished(asks, id) then u[id].desired == Running <==> LastIsStart(asks, id)
                     else u[id] == t[id])
  {
    if asks != [] {
      var n := |asks| - 1;
      assert asks == asks[..n] + [asks[n]];
      WishIsLastAsked(t, asks[..n], id);
      LastAsk(asks[..n], asks[n], id);
      hide Wished, LastIsStart;
    }
  }

  // ---- over runs of hub, network and agent ----

  /** At this step of the run a start or stop of the app was accepted and stored. */
  predicate AskedAt(h: Definition -> Hash, rules: Rules, evs: seq<WorldEvent>, k: int, id: Id, verb: Verb)
  {
    0 <= k < |evs| && evs[k] == UserCommands(id, verb, true) && Commandable(Run(h, rules, evs[..k]).hub, id, verb)
  }

  predicate DeletedAt(evs: seq<WorldEvent>, k: int, id: Id)
  {
    0 <= k < |evs| && evs[k] == UserDeletes(id)
  }

  /** The k-th event asked for a start that nothing has taken back. */
  ghost predicate StandsFrom(h: Definition -> Hash, rules: Rules, evs: seq<WorldEvent>, k: int, id: Id)
  {
    AskedAt(h, rules, evs, k, id, Start) && forall j :: k < j < |evs| ==> !AskedAt(h, rules, evs, j, id, Stop) && !DeletedAt(evs, j, id)
  }

  /** A start was accepted, and since then neither a stop nor the record's deletion. */
  ghost predicate StartStands(h: Definition -> Hash, rules: Rules, evs: seq<WorldEvent>, id: Id)
  {
    exists k :: StandsFrom(h, rules, evs, k, id)
  }

  predicate RecordWants(t: Table, id: Id)
  {
    id in t && t[id].desired == Running
  }

  lemma AskedBefore(h: Definition -> Hash, rules: Rules, evs: seq<WorldEvent>, ev: WorldEvent, k: int, id: Id, verb: Verb)
    requires 0 <= k < |evs|
    ensures AskedAt(h, rules, evs + [ev], k, id, verb) <==> AskedAt(h, rules, evs, k, id, verb)
    ensures DeletedAt(evs + [ev], k, id) <==> DeletedAt(evs, k, id)
  {
    assert (evs + [ev])[..k] == evs[..k];
  }

  lemma AskedLast(h: Definition -> Hash, rules: Rules, evs: seq<WorldEvent>, ev: WorldEvent, id: Id, verb: Verb)
    ensures AskedAt(h, rules, evs + [ev], |evs|, id, verb)
            <==> ev == UserCommands(id, verb, true) && Commandable(Run(h, rules, evs).hub, id, verb)
    ensures DeletedAt(evs + [ev], |evs|, id) <==> ev == UserDeletes(id)
  {
    assert (evs + [ev])[..|evs|] == evs;
  }

  lemma StandsFromNext(h: Definition -> Hash, rules: Rules, evs: seq<WorldEvent>, ev: WorldEvent, k: int, id: Id)
    requires k < |evs|
    ensures var all, n := evs + [ev], |evs|;
            StandsFrom(h, rules, all, k, id)
            <==> StandsFrom(h, rules, evs, k, id) && !AskedAt(h, rules, all, n, id, Stop) && !DeletedAt(all, n, id)
  {
    hide Run, Commandable;
    var all, n := evs + [ev], |evs|;
    if k >= 0 {
      AskedBefore(h, rules, evs, ev, k, id, Start);
      forall j | k < j < n
        ensures AskedAt(h, rules, all, j, id, Stop) <==> AskedAt(h, rules, evs, j, id, Stop)
        ensures DeletedAt(all, j, id) <==> DeletedAt(evs, j, id)
      {
        AskedBefore(h, rules, evs, ev, j, id, Stop);
      }
    }
  }

  lemma StandsNext(h: Definition -> Hash, rules: Rules, evs: seq<WorldEvent>, ev: WorldEvent, id: Id)
    ensures var all, n := evs + [ev], |evs|;
            StartStands(h, rules, all, id)
            <==> AskedAt(h, rules, all, n, id, Start)
                 || (StartStands(h, rules, evs, id) && !AskedAt(h, rules, all, n, id, Stop) && !DeletedAt(all, n, id))
  {
    var all, n := evs + [ev], |evs|;
    forall k | k < n
      ensures StandsFrom(h, rules, all, k, id)
              <==> StandsFrom(h, rules, evs, k, id) && !AskedAt(h, rules, all, n, id, Stop) && !DeletedAt(all, n, id)
    {
      StandsFromNext(h, rules, evs, ev, k, id);
    }
    InRange(h, rules, evs, id);
    InRange(h, rules, all, id);
    assert StandsFrom(h, rules, all, n, id) <==> AskedAt(h, rules, all, n, id, Start);
    hide StandsFrom, AskedAt, DeletedAt;
  }

  lemma InRange(h: Definition -> Hash, rules: Rules, evs: seq<WorldEvent>, id: Id)
    ensures forall k :: StandsFrom(h, rules, evs, k, id) ==> 0 <= k < |evs|
  {
  }

  /** One step: only accepted commands and a deletion change what a record wants, and a new
      record wants nothing. */
  lemma WishStep(h: Definition -> Hash, rules: Rules, w: World, ev: WorldEvent, id: Id)
    ensures RecordWants(Step(h, rules, w, ev).hub, id)
            <==> (ev == UserCommands(id, Start, true) && Commandable(w.hub, id, Start))
                 || (RecordWants(w.hub, id) && ev != UserDeletes(id)
                     && !(ev == UserCommands(id, Stop, true) && Commandable(w.hub, id, Stop)))
  {
    hide Next, Listing, Specs, Delivered;
  }

  /** In every run a record wants to run exactly when its last accepted start or stop was a
      start. No definition saved, no decision of the host, no sync and no import changes that. */
  lemma {:induction false} HubWishIff(h: Definition -> Hash, rules: Rules, evs: seq<WorldEvent>, id: Id)
    ensures RecordWants(Run(h, rules, evs).hub, id) <==> StartStands(h, rules, evs, id)
  {
    hide StartStands, AskedAt, DeletedAt, RecordWants, Step, Commandable;
    if evs == [] {
      NothingAsked(h, rules, id);
    } else {
      var n := |evs| - 1;
      HubWishIff(h, rules, evs[..n], id);
      assert evs == evs[..n] + [evs[n]];
      StandsNext(h, rules, evs[..n], evs[n], id);
      AskedLast(h, rules, evs[..n], evs[n], id, Start);
      AskedLast(h, rules, evs[..n], evs[n], id, Stop);
      WishStep(h, rules, Run(h, rules, evs[..n]), evs[n], id);
    }
  }

  lemma NothingAsked(h: Definition -> Hash, rules: Rules, id: Id)
    ensures !RecordWants(Run(h, rules, []).hub, id) && !StartStands(h, rules, [], id)
  {
  }

  // ---- at the agent ----

  lemma {:induction false} SpecsDistinct(t: Table, decodes: Record -> bool, ids: seq<Id>)
    requires forall i :: 0 <= i < |ids| ==> ids[i] in t
    requires forall i, j :: 0 <= i < j < |ids| ==> ids[i] != ids[j]
    ensures Distinct(Specs(t, decodes, ids))
  {
    if ids != [] {
      var n := |ids| - 1;
      SpecsDistinct(t, decodes, ids[..n]);
      SpecsListed(t, decodes, ids[..n]);
      var specs := Specs(t, decodes, ids[..n]);
      assert forall i :: 0 <= i < |specs| ==> specs[i] in specs;
    }
  }

  /** After a sync built from the hub's table every app listed is wanted as its record says, under
      the hash its record has. */
  lemma SyncCarriesWish(s: State, t: Table, decodes: Record -> bool, ids: seq<Id>, written: bool, id: Id)
    requires Listing(t, ids) && id in ids && decodes(t[id])
    ensures var u := ApplyAppSync(s, Specs(t, decodes, ids), written);
            && id in u.apps && u.apps[id].desired == t[id].desired
            && u.apps[id].hash == t[id].hash && u.apps[id].tracking == t[id].tracking
  {
    var specs := Specs(t, decodes, ids);
    SpecsDistinct(t, decodes, ids);
    SpecsListed(t, decodes, ids);
    SyncLeaves(s, specs, written);
    assert SpecOf(id, t[id]) in specs;
    hide ApplyAppSync, Specs;
  }

  /** What users asked of a table reaches the agent with the next sync. */
  lemma AskedReachesAgent(s: State, t: Table, asks: seq<Ask>, decodes: Record -> bool, ids: seq<Id>, written: bool, id: Id)
    requires var u := Asked(t, asks); Listing(u, ids) && id in ids && decodes(u[id])
    ensures id in t
    ensures DesiredRunning(ApplyAppSync(s, Specs(Asked(t, asks), decodes, ids), written).apps, id)
            <==> if t[id].approval == Approved && Wished(asks, id) then LastIsStart(asks, id) else t[id].desired == Running
  {
    WishIsLastAsked(t, asks, id);
    hide Asked, ApplyAppSync, LastIsStart, Wished;
    SyncCarriesWish(s, Asked(t, asks), decodes, ids, written, id);
  }

  /** In every run, an agent that has just applied a sync sent in this state wants an app listed
      to run exactly when the last accepted start or stop of it was a start. */
  lemma SyncedWishIff(h: Definition -> Hash, rules: Rules, evs: seq<WorldEvent>, ids: seq<Id>, written: bool, id: Id)
    requires var t := Run(h, rules, evs).hub; Listing(t, ids) && id in ids && rules.decodes(t[id])
    ensures var w := Run(h, rules, evs);
            DesiredRunning(ApplyAppSync(w.agent, Specs(w.hub, rules.decodes, ids), written).apps, id) <==> StartStands(h, rules, evs, id)
  {
    HubWishIff(h, rules, evs, id);
    hide Run, ApplyAppSync, StartStands;
    SyncCarriesWish(Run(h, rules, evs).agent, Run(h, rules, evs).hub, rules.decodes, ids, written, id);
  }
}
