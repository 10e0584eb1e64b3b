/** The full-state sync reaches a fixpoint (agent/internal/daemon/daemon.go). */
module Convergence {

  import opened Agent
  import opened AgentSteps
  import opened AppHub
  import opened StopWins

  // ---- the sync ----

  predicate Distinct(specs: seq<AppSpec>)
  {
    forall i, j :: 0 <= i < j < |specs| ==> specs[i].id != specs[j].id
  }

  /** The agent has what the hub says. */
  predicate Matches(apps: Apps, spec: AppSpec)
  {
    && spec.id in apps && apps[spec.id].hash == spec.hash
    && apps[spec.id].desired == spec.desired && apps[spec.id].tracking == spec.tracking
  }

  lemma {:induction false} SpecsMatch(s: State, specs: seq<AppSpec>)
    requires Distinct(specs)
    ensures forall i :: 0 <= i < |specs| ==> Matches(ApplySpecs(s, specs).0.apps, specs[i])
  {
    hide ApprovalOf, Without;
    if specs != [] {
      SpecsMatch(s, specs[..|specs| - 1]);
    }
  }

  /** A sync the agent already agrees with changes nothing. */
  lemma {:induction false} MatchedIsNoOp(s: State, specs: seq<AppSpec>)
    requires forall i :: 0 <= i < |specs| ==> Matches(s.apps, specs[i])
    ensures ApplySpecs(s, specs) == (s, false)
  {
    hide Adopt;
    if specs != [] {
      var n := |specs| - 1;
      MatchedIsNoOp(s, specs[..n]);
      var app := s.apps[specs[n].id];
      assert app.(desired := specs[n].desired, tracking := specs[n].tracking) == app;
      assert s.apps[specs[n].id := app] == s.apps;
    }
  }

  /** Afterwards the agent has exactly the apps listed, each as listed. */
  lemma SyncLeaves(s: State, specs: seq<AppSpec>, written: bool)
    requires Distinct(specs)
    ensures var t := ApplyAppSync(s, specs, written);
            && t.apps.Keys == Ids(specs)
            && forall i :: 0 <= i < |specs| ==> Matches(t.apps, specs[i])
  {
    SpecsMatch(s, specs);
    SpecsKeys(s, specs);
    hide ApplySpecs;
  }

  /** Applying a sync again, with no step in between, changes nothing at all. */
  lemma SyncTwiceIsOnce(s: State, specs: seq<AppSpec>, written: bool, again: bool)
    requires Distinct(specs)
    ensures ApplyAppSync(ApplyAppSync(s, specs, written), specs, again) == ApplyAppSync(s, specs, written)
  {
    var t := ApplyAppSync(s, specs, written);
    SyncLeaves(s, specs, written);
    MatchedIsNoOp(t, specs);
    assert t.apps.Keys - Ids(specs) == {};
    ForgetNothing(t);
    hide ApplySpecs, ForgetAll;
  }

  lemma {:induction false} SpecsDecide(s: State, specs: seq<AppSpec>, k: nat)
    requires Distinct(specs) && k < |specs|
    ensures var spec := specs[k];
            var t := ApplySpecs(s, specs).0;
            && spec.id in t.apps
            && if spec.id in s.apps && s.apps[spec.id].hash == spec.hash then
                 t.apps[spec.id] == s.apps[spec.id].(desired := spec.desired, tracking := spec.tracking)
               else
                 t.apps[spec.id].def == spec.def
                 && (t.apps[spec.id].approval == Approved ==> IsDocker(spec.def.kind) || spec.hash in s.preApproved)
                 && (IsDocker(spec.def.kind) ==> t.apps[spec.id].approval == Approved)
  {
    hide Without;
    var n := |specs| - 1;
    SpecsFewer(s, specs[..n]);
    if k < n {
      SpecsDecide(s, specs[..n], k);
    } else {
      SpecsElsewhere(s, specs[..n], specs[n].id);
    }
  }

  lemma {:induction false} SpecsFewer(s: State, specs: seq<AppSpec>)
    ensures forall x :: x in ApplySpecs(s, specs).0.preApproved ==> x in s.preApproved
  {
    if specs != [] {
      var n := |specs| - 1;
      SpecsFewer(s, specs[..n]);
      var t := ApplySpecs(s, specs[..n]).0;
      WithoutFewer(t.preApproved, specs[n].hash);
    }
  }

  lemma {:induction false} SpecsElsewhere(s: State, specs: seq<AppSpec>, id: Id)
    requires forall i :: 0 <= i < |specs| ==> specs[i].id != id
    ensures var t := ApplySpecs(s, specs).0;
            (id in t.apps <==> id in s.apps) && (id in s.apps ==> t.apps[id] == s.apps[id])
  {
    hide ApprovalOf, Without;
    if specs != [] {
      SpecsElsewhere(s, specs[..|specs| - 1], id);
    }
  }

  /** What a sync decides about each app: an unchanged definition keeps the host's decision, a
      changed or new one needs the host again unless it was imported here or is a container. */
  lemma SyncDecides(s: State, specs: seq<AppSpec>, written: bool, k: nat)
    requires Distinct(specs) && k < |specs|
    ensures var spec := specs[k];
            var t := ApplyAppSync(s, specs, written);
            && spec.id in t.apps
            && if spec.id in s.apps && s.apps[spec.id].hash == spec.hash then
                 t.apps[spec.id] == s.apps[spec.id].(desired := spec.desired, tracking := spec.tracking)
               else
                 t.apps[spec.id].def == spec.def
                 && (t.apps[spec.id].approval == Approved ==> IsDocker(spec.def.kind) || spec.hash in s.preApproved)
                 && (IsDocker(spec.def.kind) ==> t.apps[spec.id].approval == Approved)
  {
    SpecsDecide(s, specs, k);
    assert specs[k].id in Ids(specs);
    hide ApplySpecs;
  }

  // ---- what new definitions use up and tell ----

  /** The entry brings a new app or another definition. */
  predicate Brings(s: State, spec: AppSpec)
  {
    !(spec.id in s.apps && s.apps[spec.id].hash == spec.hash)
  }

  /** How many entries bring this definition. */
  function Bringing(s: State, specs: seq<AppSpec>, x: Hash): nat
  {
    if specs == [] then 0
    else
      var n := |specs| - 1;
      Bringing(s, specs[..n], x) + if Brings(s, specs[n]) && specs[n].hash == x then 1 else 0
  }

  lemma {:induction false} WithoutOne(hs: seq<Hash>, x: Hash)
    ensures multiset(Without(hs, x)) == multiset(hs) - multiset{x}
  {
    if hs != [] {
      assert hs == [hs[0]] + hs[1..];
      if hs[0] != x {
        WithoutOne(hs[1..], x);
      }
    }
  }

  lemma SpecImports(s: State, t: State, spec: AppSpec, x: Hash)
    requires (spec.id in t.apps <==> spec.id in s.apps) && (spec.id in s.apps ==> t.apps[spec.id] == s.apps[spec.id])
    ensures multiset(ApplySpec(t, spec).0.preApproved)[x]
            == Less(multiset(t.preApproved)[x], if Brings(s, spec) && spec.hash == x then 1 else 0)
  {
    hide ApprovalOf;
    WithoutOne(t.preApproved, spec.hash);
    hide Without;
  }

  function Less(a: nat, b: nat): nat { if b < a then a - b else 0 }

  /** An import is used up by the first definition it approves. */
  lemma {:induction false} SpecsImports(s: State, specs: seq<AppSpec>, x: Hash)
    requires Distinct(specs)
    ensures multiset(ApplySpecs(s, specs).0.preApproved)[x] == Less(multiset(s.preApproved)[x], Bringing(s, specs, x))
  {
    hide ApplySpec, Brings;
    if specs != [] {
      var n := |specs| - 1;
      SpecsImports(s, specs[..n], x);
      SpecsElsewhere(s, specs[..n], specs[n].id);
      SpecImports(s, ApplySpecs(s, specs[..n]).0, specs[n], x);
    }
  }

  lemma {:induction false} SpecsApprove(s: State, specs: seq<AppSpec>, k: nat)
    requires Distinct(specs) && k < |specs| && Brings(s, specs[k])
    ensures var t := ApplySpecs(s, specs).0;
            specs[k].id in t.apps
            && t.apps[specs[k].id].approval
               == (if IsDocker(specs[k].def.kind) || Bringing(s, specs[..k], specs[k].hash) < multiset(s.preApproved)[specs[k].hash]
                   then Approved else Pending)
  {
    hide Without, Bringing;
    var n := |specs| - 1;
    if k < n {
      SpecsApprove(s, specs[..n], k);
      assert specs[..n][..k] == specs[..k];
    } else {
      SpecsImports(s, specs[..n], specs[n].hash);
      SpecsElsewhere(s, specs[..n], specs[n].id);
    }
  }

  /** Which new definitions a sync approves by itself: container kinds, and as many of each
      definition as imports of it on this host are not used up yet, in the order of the list. */
  lemma SyncApprovesIff(s: State, specs: seq<AppSpec>, written: bool, k: nat)
    requires Distinct(specs) && k < |specs| && Brings(s, specs[k])
    ensures var t := ApplyAppSync(s, specs, written);
            specs[k].id in t.apps
            && t.apps[specs[k].id].approval
               == (if IsDocker(specs[k].def.kind) || Bringing(s, specs[..k], specs[k].hash) < multiset(s.preApproved)[specs[k].hash]
                   then Approved else Pending)
  {
    SpecsApprove(s, specs, k);
    assert specs[k].id in Ids(specs);
    hide ApplySpecs, Ids;
  }

  /** The hub is told of the k-th entry. */
  predicate Told(s: State, specs: seq<AppSpec>, t: State, k: nat, m: Message)
    requires k < |specs|
  {
    specs[k].id in t.apps && Brings(s, specs[k]) && m == ApprovalEvent(specs[k].id, t.apps[specs[k].id].approval, specs[k].hash)
  }

  lemma {:induction false} SpecsTell(s: State, specs: seq<AppSpec>, m: Message)
    requires Distinct(specs)
    ensures var t := ApplySpecs(s, specs).0;
            m in t.log.sent <==> m in s.log.sent || exists k :: 0 <= k < |specs| && Told(s, specs, t, k, m)
  {
    if specs != [] {
      var n := |specs| - 1;
      var t, u := ApplySpecs(s, specs[..n]).0, ApplySpecs(s, specs).0;
      SpecsTell(s, specs[..n], m);
      SpecsElsewhere(s, specs[..n], specs[n].id);
      LastTells(t, specs[n], m);
      SpecsMatch(s, specs);
      forall k | 0 <= k < n
        ensures specs[..n][k] == specs[k] && specs[k].id != specs[n].id
        ensures Told(s, specs, u, k, m) <==> Told(s, specs[..n], t, k, m)
      {
        SpecsElsewhere(t, [specs[n]], specs[k].id);
        assert ApplySpecs(t, [specs[n]]).0 == ApplySpec(t, specs[n]).0 by { OneSpec(t, specs[n]); }
      }
      assert Told(s, specs, u, n, m) <==> Brings(s, specs[n]) && m == ApprovalEvent(specs[n].id, u.apps[specs[n].id].approval, specs[n].hash);
      hide ApplySpecs, ApplySpec, Told, Distinct;
    }
  }

  lemma OneSpec(s: State, spec: AppSpec)
    ensures ApplySpecs(s, [spec]) == ApplySpec(s, spec)
  {
    assert [spec][..0] == [];
    hide ApplySpec;
  }

  lemma LastTells(t: State, spec: AppSpec, m: Message)
    ensures var u := ApplySpec(t, spec).0;
            spec.id in u.apps
            && (m in u.log.sent <==> m in t.log.sent || (Brings(t, spec) && m == ApprovalEvent(spec.id, u.apps[spec.id].approval, spec.hash)))
  {
    hide Without, ApprovalOf;
  }

  /** The hub is told of exactly the new definitions, with the approval each has got. */
  lemma SyncTells(s: State, specs: seq<AppSpec>, written: bool, m: Message)
    requires Distinct(specs)
    ensures var t := ApplyAppSync(s, specs, written);
            m in t.log.sent <==> m in s.log.sent || exists k :: 0 <= k < |specs| && Told(s, specs, t, k, m)
  {
    var t, u := ApplyAppSync(s, specs, written), ApplySpecs(s, specs).0;
    SpecsTell(s, specs, m);
    forall k | 0 <= k < |specs| ensures Told(s, specs, t, k, m) <==> Told(s, specs, u, k, m) {
      assert specs[k].id in Ids(specs);
    }
    hide ApplySpecs, Ids, Told;
  }

  function Elements(ids: seq<Id>): set<Id>
  {
    set id | id in ids
  }

  lemma {:induction false} DistinctCount(ids: seq<Id>)
    requires forall i, j :: 0 <= i < j < |ids| ==> ids[i] != ids[j]
    ensures |Elements(ids)| == |ids|
  {
    if ids != [] {
      var n := |ids| - 1;
      DistinctCount(ids[..n]);
      assert ids == ids[..n] + [ids[n]];
      assert Elements(ids) == Elements(ids[..n]) + {ids[n]};
      assert ids[n] !in ids[..n];
    }
  }

  lemma SubsetCount<T>(a: set<T>, b: set<T>)
    requires a <= b
    ensures |a| <= |b| && (|a| == |b| ==> a == b)
  {
    assert b == a + (b - a);
    assert |b| == |a| + |b - a|;
  }

  /** A sync brings the agent exactly the hub's records if and only if there are no more of them
      than the query returns and all their definitions decode; the agent forgets the others. */
  lemma SyncCompleteIff(s: State, t: Table, decodes: Record -> bool, ids: seq<Id>, written: bool)
    requires Listing(t, ids)
    ensures ApplyAppSync(s, Specs(t, decodes, ids), written).apps.Keys <= t.Keys
    ensures ApplyAppSync(s, Specs(t, decodes, ids), written).apps.Keys == t.Keys
            <==> |t.Keys| <= SYNC_LIMIT && forall id :: id in t ==> decodes(t[id])
  {
    SyncIds(s, Specs(t, decodes, ids), written);
    ListedIds(t, decodes, ids);
    DistinctCount(ids);
    hide ApplyAppSync, Ids, Listing;
    ListedCount(t, ids);
  }

  /** Which apps a sync leaves does not depend on its entries being distinct. */
  lemma SyncIds(s: State, specs: seq<AppSpec>, written: bool)
    ensures ApplyAppSync(s, specs, written).apps.Keys == Ids(specs)
  {
    SpecsKeys(s, specs);
    hide ApplySpecs;
  }

  lemma ListedIds(t: Table, decodes: Record -> bool, ids: seq<Id>)
    requires Listing(t, ids)
    ensures forall id :: id in Ids(Specs(t, decodes, ids)) <==> id in ids && decodes(t[id])
    ensures Elements(ids) <= t.Keys
  {
    SpecsListed(t, decodes, ids);
    var specs := Specs(t, decodes, ids);
    forall id ensures id in Ids(specs) <==> id in ids && decodes(t[id]) {
      if id in ids && decodes(t[id]) {
        assert SpecOf(id, t[id]) in specs && SpecOf(id, t[id]).id == id;
      }
    }
  }

  lemma ListedCount(t: Table, ids: seq<Id>)
    requires Listing(t, ids) && |Elements(ids)| == |ids| && Elements(ids) <= t.Keys
    ensures Elements(ids) == t.Keys <==> |t.Keys| <= SYNC_LIMIT
  {
    SubsetCount(Elements(ids), t.Keys);
    if |ids| < SYNC_LIMIT {
      assert t.Keys <= Elements(ids);
    }
  }
}
