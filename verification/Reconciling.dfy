/** Reconcile reaches a fixpoint (agent/internal/daemon/restart.go): one goroutine per app, their
    steps interleaved in any way. */
module Reconciling {

  import opened Agent
  import opened AgentSteps
  import opened StopWins

  /** All that decides what reconcile does about an app. */
  predicate SameApp(s: State, t: State, id: Id)
  {
    && (id in t.apps <==> id in s.apps) && (id in s.apps ==> t.apps[id] == s.apps[id])
    && (id in t.sup.procs <==> id in s.sup.procs)
    && (id in s.sup.procs ==> t.sup.procs[id] == s.sup.procs[id] && (s.sup.procs[id] in t.host.alive <==> s.sup.procs[id] in s.host.alive))
    && (id in t.sup.restarts <==> id in s.sup.restarts) && CellOf(t.sup, id) == CellOf(s.sup, id)
    && (Up(t, id) <==> Up(s, id))
  }

  /** A container app whose id still has a live process, from when it was a process app: such
      an app counts as already running when it is started, and as down otherwise. */
  predicate Stray(s: State, id: Id)
  {
    id in s.apps && IsDocker(s.apps[id].def.kind) && id in s.sup.procs && s.sup.procs[id] in s.host.alive
  }

  /** Nothing is left to do about the app, or nothing can be, and it is as decided and as wanted
      as before. */
  predicate Settled(s: State, t: State, id: Id)
  {
    && (WantStart(t, id) <==> WantStart(s, id) && Stray(s, id)) && !WantStop(t, id)
    && (id in t.sup.restarts ==> id in s.sup.restarts)
    && (id in t.apps <==> id in s.apps)
    && (id in s.apps ==> t.apps[id].(lastPid := 0) == s.apps[id].(lastPid := 0))
  }

  // ---- one step for one app ----

  /** No other app sees the step. */
  ghost predicate OthersSame(t: State, u: State, id: Id)
  {
    forall i :: i != id ==> SameApp(t, u, i)
  }

  function StartOf(s: State, id: Id): Spawn
    requires id in s.apps
  {
    Spawn(StartCall(id, false), s.apps[id].def)
  }

  function StopOf(s: State, id: Id): Halt
    requires id in s.sup.procs
  {
    Halt(StopCall(id, false), s.sup.procs[id])
  }

  lemma ContainerStarts(t: State, id: Id)
    requires WantStart(t, id) && StartCall(id, false) in t.work.starts && PidsOk(t) && IsDocker(t.apps[id].def.kind)
    ensures var u := BeginStart(t, StartCall(id, false), true);
            && PidsOk(u) && OthersSame(t, u, id) && Settled(t, u, id)
            && u.work == t.work.(starts := t.work.starts - multiset{StartCall(id, false)})
  {
  }

  lemma ProcessStarts(t: State, id: Id)
    requires WantStart(t, id) && StartCall(id, false) in t.work.starts && PidsOk(t) && !IsDocker(t.apps[id].def.kind)
    ensures var u := BeginStart(t, StartCall(id, false), true);
            && PidsOk(u) && OthersSame(t, u, id) && SameApp(t, u, id)
            && u.work == t.work.(starts := t.work.starts - multiset{StartCall(id, false)},
                                 spawning := t.work.spawning + multiset{StartOf(t, id)})
  {
  }

  lemma ProcessStarted(t: State, id: Id, now: int, written: bool)
    requires WantStart(t, id) && PidsOk(t) && !IsDocker(t.apps[id].def.kind) && StartOf(t, id) in t.work.spawning
    ensures var u := FinishStart(t, StartOf(t, id), true, now, written);
            && PidsOk(u) && OthersSame(t, u, id) && Settled(t, u, id)
            && u.work == t.work.(spawning := t.work.spawning - multiset{StartOf(t, id)})
  {
    var u := FinishStart(t, StartOf(t, id), true, now, written);
    var p := t.host.nextPid;
    assert u.apps == t.apps[id := t.apps[id].(lastPid := p)];
    assert u.sup == t.sup.(procs := t.sup.procs[id := p], startTimes := t.sup.startTimes[id := now]);
    assert u.host.alive == t.host.alive + {p} && u.host.nextPid == p + 1;
    hide FinishStart;
  }

  lemma ContainerStops(t: State, id: Id)
    requires WantStop(t, id) && StopCall(id, false) in t.work.stops && PidsOk(t) && IsDocker(t.apps[id].def.kind)
    ensures var u := BeginStop(t, StopCall(id, false), true);
            && PidsOk(u) && OthersSame(t, u, id) && Settled(t, u, id)
            && u.work == t.work.(stops := t.work.stops - multiset{StopCall(id, false)})
  {
    hide StopTimer;
  }

  /** The app's process is detached and being waited for. */
  predicate Stopping(s: State, t: State, id: Id)
  {
    && WantStop(s, id) && !IsDocker(s.apps[id].def.kind) && id in s.sup.procs
    && id in t.apps && t.apps[id] == s.apps[id] && id !in t.sup.procs && id !in t.sup.restarts
    && Superseded(t, s.sup.procs[id])
  }

  lemma ProcessStops(t: State, id: Id)
    requires WantStop(t, id) && StopCall(id, false) in t.work.stops && PidsOk(t) && !IsDocker(t.apps[id].def.kind)
    ensures var u := BeginStop(t, StopCall(id, false), true);
            && PidsOk(u) && OthersSame(t, u, id) && Stopping(t, u, id)
            && u.work == t.work.(stops := t.work.stops - multiset{StopCall(id, false)},
                                 halting := t.work.halting + multiset{StopOf(t, id)})
  {
    hide StopTimer;
  }

  lemma ProcessStopped(s: State, t: State, id: Id, written: bool)
    requires Stopping(s, t, id) && PidsOk(t) && StopOf(s, id) in t.work.halting
    ensures var u := FinishStop(t, StopOf(s, id), true, written);
            && PidsOk(u) && OthersSame(t, u, id) && Settled(s, u, id)
            && u.work == t.work.(halting := t.work.halting - multiset{StopOf(s, id)})
  {
  }

  lemma SameWants(s: State, t: State, id: Id)
    requires SameApp(s, t, id)
    ensures (WantStart(t, id) <==> WantStart(s, id)) && (WantStop(t, id) <==> WantStop(s, id))
    ensures id in s.apps ==> id in t.apps && t.apps[id] == s.apps[id]
    ensures (id in t.sup.procs <==> id in s.sup.procs) && (id in s.sup.procs ==> t.sup.procs[id] == s.sup.procs[id])
  {
  }

  lemma NothingToDo(t: State, id: Id)
    requires !WantStart(t, id) && !WantStop(t, id)
    ensures Settled(t, t, id) && forall i :: SameApp(t, t, i)
  {
  }

  lemma SettledOnce(s: State, t: State, u: State, id: Id)
    requires SameApp(s, t, id) && Settled(t, u, id)
    ensures Settled(s, u, id)
  {
    SameWants(s, t, id);
    StraySame(s, t, id);
    hide WantStart, WantStop, Up, Stray;
  }

  lemma StraySame(s: State, t: State, id: Id)
    requires SameApp(s, t, id)
    ensures Stray(s, id) <==> Stray(t, id)
  {
  }

  lemma SettledStays(s: State, t: State, u: State, id: Id)
    requires Settled(s, t, id) && SameApp(t, u, id)
    ensures Settled(s, u, id)
  {
    SameWants(t, u, id);
    hide WantStart, WantStop, Up, Stray;
  }

  lemma SameStays(s: State, t: State, u: State, id: Id)
    requires SameApp(s, t, id) && SameApp(t, u, id)
    ensures SameApp(s, u, id)
  {
    hide Up;
  }

  lemma StoppingStays(s: State, t: State, u: State, id: Id)
    requires Stopping(s, t, id) && SameApp(t, u, id) && Superseded(u, s.sup.procs[id])
    ensures Stopping(s, u, id)
  {
    hide Up;
  }

  // ---- what is under way ----

  function SpawnsFor(s: State, ids: set<Id>): multiset<Spawn>
  {
    multiset(set id | id in ids && id in s.apps :: StartOf(s, id))
  }

  function HaltsFor(s: State, ids: set<Id>): multiset<Halt>
  {
    multiset(set id | id in ids && id in s.sup.procs :: StopOf(s, id))
  }

  lemma SpawnsMore(s: State, ids: set<Id>, id: Id)
    requires id !in ids && id in s.apps
    ensures SpawnsFor(s, ids + {id}) == SpawnsFor(s, ids) + multiset{StartOf(s, id)}
  {
    var a := set i | i in ids + {id} && i in s.apps :: StartOf(s, i);
    var b := set i | i in ids && i in s.apps :: StartOf(s, i);
    assert StartOf(s, id) !in b;
    MultisetMore(b, StartOf(s, id));
    assert a == b + {StartOf(s, id)};
  }

  lemma HaltsMore(s: State, ids: set<Id>, id: Id)
    requires id !in ids && id in s.sup.procs
    ensures HaltsFor(s, ids + {id}) == HaltsFor(s, ids) + multiset{StopOf(s, id)}
  {
    var a := set i | i in ids + {id} && i in s.sup.procs :: StopOf(s, i);
    var b := set i | i in ids && i in s.sup.procs :: StopOf(s, i);
    assert StopOf(s, id) !in b;
    MultisetMore(b, StopOf(s, id));
    assert a == b + {StopOf(s, id)};
  }

  lemma OneLess(s: State, rest: set<Id>, id: Id)
    requires id in rest
    ensures StartsFor(s, rest) == StartsFor(s, rest - {id}) + (if WantStart(s, id) then multiset{StartCall(id, false)} else multiset{})
    ensures StopsFor(s, rest) == StopsFor(s, rest - {id}) + (if WantStop(s, id) then multiset{StopCall(id, false)} else multiset{})
  {
    hide *;
    assert rest - {id} + {id} == rest;
    StartsMore(s, rest - {id}, id);
    StopsMore(s, rest - {id}, id);
  }

  /** How far reconcile's actions are: not begun, spawning, or waiting for a process to die. */
  datatype Phase = Phase(todo: set<Id>, spawning: set<Id>, halting: set<Id>)

  predicate Under(p: Phase, id: Id)
  {
    id in p.todo || id in p.spawning || id in p.halting
  }

  predicate Apart(p: Phase)
  {
    p.todo !! p.spawning && p.todo !! p.halting && p.spawning !! p.halting
  }

  /** Nothing under way but reconcile's own actions. */
  predicate WorkIs(s: State, w: Work, p: Phase)
  {
    w == NO_WORK.(starts := StartsFor(s, p.todo), spawning := SpawnsFor(s, p.spawning),
                  stops := StopsFor(s, p.todo), halting := HaltsFor(s, p.halting))
  }

  predicate Spawning(s: State, t: State, id: Id)
  {
    id in s.apps && WantStart(s, id) && !IsDocker(s.apps[id].def.kind) && SameApp(s, t, id)
  }

  ghost predicate Midway(s: State, t: State, p: Phase)
  {
    && PidsOk(t) && Apart(p) && WorkIs(s, t.work, p)
    && (forall id :: id in p.todo ==> SameApp(s, t, id))
    && (forall id :: id in p.spawning ==> Spawning(s, t, id))
    && (forall id :: id in p.halting ==> Stopping(s, t, id))
    && (forall id :: !Under(p, id) ==> Settled(s, t, id))
  }

  /** A step for one app leaves the others in their phase. */
  lemma OthersStay(s: State, t: State, u: State, p: Phase, q: Phase, id: Id)
    requires Midway(s, t, p) && OthersSame(t, u, id)
    requires forall x :: Superseded(t, x) ==> Superseded(u, x)
    requires q.todo == p.todo - {id} && q.spawning - {id} == p.spawning - {id} && q.halting - {id} == p.halting - {id}
    ensures forall i :: i in q.todo ==> SameApp(s, u, i)
    ensures forall i :: i in q.spawning && i != id ==> Spawning(s, u, i)
    ensures forall i :: i in q.halting && i != id ==> Stopping(s, u, i)
    ensures forall i :: !Under(q, i) && i != id ==> Settled(s, u, i)
  {
    hide SameApp, Settled, PidsOk, WorkIs, WantStart;
    forall i | i != id
      ensures i in q.todo ==> SameApp(s, u, i)
      ensures i in q.spawning ==> Spawning(s, u, i)
      ensures i in q.halting ==> Stopping(s, u, i)
      ensures !Under(q, i) ==> Settled(s, u, i)
    {
      assert i in q.spawning <==> i in p.spawning by { OneApart(q.spawning, p.spawning, id, i); }
      assert i in q.halting <==> i in p.halting by { OneApart(q.halting, p.halting, id, i); }
      if i in p.todo || i in p.spawning {
        SameStays(s, t, u, i);
      } else if i in p.halting {
        assert Stopping(s, t, i);
        StoppingPid(s, t, u, i);
        StoppingStays(s, t, u, i);
      } else {
        SettledStays(s, t, u, i);
      }
    }
  }

  lemma OneApart(a: set<Id>, b: set<Id>, id: Id, i: Id)
    requires a - {id} == b - {id} && i != id
    ensures i in a <==> i in b
  {
    assert i in a - {id} <==> i in a;
    assert i in b - {id} <==> i in b;
  }

  lemma StoppingPid(s: State, t: State, u: State, id: Id)
    requires Stopping(s, t, id)
    requires forall x :: Superseded(t, x) ==> Superseded(u, x)
    ensures id in s.sup.procs && Superseded(u, s.sup.procs[id])
  {
  }

  lemma StartStopApart(s: State, id: Id)
    ensures !(WantStart(s, id) && WantStop(s, id))
  {
  }

  lemma UpHasProcess(s: State, id: Id)
    requires WantStop(s, id) && !IsDocker(s.apps[id].def.kind)
    ensures id in s.sup.procs
  {
  }

  // ---- the steps ----

  /** A step of one of reconcile's goroutines that succeeds; the saves may fail. */
  predicate Succeeds(ev: Event)
  {
    match ev
    case StartBegins(_, dockerOk) => dockerOk
    case StartEnds(_, ok, _, _) => ok
    case StopBegins(_, dockerOk) => dockerOk
    case StopEnds(_, ok, _) => ok
    case _ => false
  }

  /** A step that moves one app to its next phase. */
  lemma Moves(s: State, t: State, u: State, p: Phase, q: Phase, id: Id)
    requires Midway(s, t, p) && PidsOk(u) && OthersSame(t, u, id) && Apart(q) && WorkIs(s, u.work, q)
    requires forall x :: Superseded(t, x) ==> Superseded(u, x)
    requires q.todo == p.todo - {id} && q.spawning - {id} == p.spawning - {id} && q.halting - {id} == p.halting - {id}
    requires id in q.spawning ==> Spawning(s, u, id)
    requires id in q.halting ==> Stopping(s, u, id)
    requires !Under(q, id) ==> Settled(s, u, id)
    ensures Midway(s, u, q)
  {
    OthersStay(s, t, u, p, q, id);
    hide SameApp, Settled, PidsOk, WorkIs, Spawning, Stopping, Superseded;
  }

  lemma StartIn(s: State, w: Work, p: Phase, call: StartCall)
    requires WorkIs(s, w, p) && call in w.starts
    ensures call.id in p.todo && WantStart(s, call.id) && call == StartCall(call.id, false) && call.id in s.apps
  {
  }

  lemma StopIn(s: State, w: Work, p: Phase, stop: StopCall)
    requires WorkIs(s, w, p) && stop in w.stops
    ensures stop.id in p.todo && WantStop(s, stop.id) && stop == StopCall(stop.id, false) && stop.id in s.apps
  {
  }

  lemma SpawnIn(s: State, w: Work, p: Phase, sp: Spawn)
    requires WorkIs(s, w, p) && sp in w.spawning
    ensures var id := sp.call.id; id in p.spawning && id in s.apps && sp == StartOf(s, id)
  {
  }

  lemma HaltIn(s: State, w: Work, p: Phase, hl: Halt)
    requires WorkIs(s, w, p) && hl in w.halting
    ensures var id := hl.call.id; id in p.halting && id in s.sup.procs && hl == StopOf(s, id)
  {
  }

  lemma StartTaken(s: State, w: Work, p: Phase, id: Id)
    requires WorkIs(s, w, p) && id in p.todo && WantStart(s, id)
    ensures WorkIs(s, w.(starts := w.starts - multiset{StartCall(id, false)}), p.(todo := p.todo - {id}))
  {
    OneLess(s, p.todo, id);
    StartStopApart(s, id);
    hide StartsFor, StopsFor, SpawnsFor, HaltsFor, WantStart, WantStop;
  }

  lemma StopTaken(s: State, w: Work, p: Phase, id: Id)
    requires WorkIs(s, w, p) && id in p.todo && WantStop(s, id)
    ensures WorkIs(s, w.(stops := w.stops - multiset{StopCall(id, false)}), p.(todo := p.todo - {id}))
  {
    OneLess(s, p.todo, id);
    StartStopApart(s, id);
    hide StartsFor, StopsFor, SpawnsFor, HaltsFor, WantStart, WantStop;
  }

  lemma SpawnPut(s: State, w: Work, p: Phase, id: Id)
    requires WorkIs(s, w, p) && id !in p.spawning && id in s.apps
    ensures WorkIs(s, w.(spawning := w.spawning + multiset{StartOf(s, id)}), p.(spawning := p.spawning + {id}))
  {
    SpawnsMore(s, p.spawning, id);
    hide StartsFor, StopsFor, SpawnsFor, HaltsFor;
  }

  lemma HaltPut(s: State, w: Work, p: Phase, id: Id)
    requires WorkIs(s, w, p) && id !in p.halting && id in s.sup.procs
    ensures WorkIs(s, w.(halting := w.halting + multiset{StopOf(s, id)}), p.(halting := p.halting + {id}))
  {
    HaltsMore(s, p.halting, id);
    hide StartsFor, StopsFor, SpawnsFor, HaltsFor;
  }

  lemma SpawnTaken(s: State, w: Work, p: Phase, id: Id)
    requires WorkIs(s, w, p) && id in p.spawning && id in s.apps
    ensures WorkIs(s, w.(spawning := w.spawning - multiset{StartOf(s, id)}), p.(spawning := p.spawning - {id}))
  {
    assert p.spawning - {id} + {id} == p.spawning;
    SpawnsMore(s, p.spawning - {id}, id);
    hide StartsFor, StopsFor, SpawnsFor, HaltsFor;
  }

  lemma HaltTaken(s: State, w: Work, p: Phase, id: Id)
    requires WorkIs(s, w, p) && id in p.halting && id in s.sup.procs
    ensures WorkIs(s, w.(halting := w.halting - multiset{StopOf(s, id)}), p.(halting := p.halting - {id}))
  {
    assert p.halting - {id} + {id} == p.halting;
    HaltsMore(s, p.halting - {id}, id);
    hide StartsFor, StopsFor, SpawnsFor, HaltsFor;
  }

  lemma StartBeginsStep(s: State, t: State, p: Phase, call: StartCall) returns (q: Phase)
    requires Midway(s, t, p) && call in t.work.starts
    requires forall x :: Superseded(t, x) ==> Superseded(BeginStart(t, call, true), x)
    ensures Midway(s, BeginStart(t, call, true), q)
  {
    var u, id := BeginStart(t, call, true), call.id;
    hide SameApp, Settled, PidsOk, WantStart, WantStop, BeginStart, Stopping, Superseded, WorkIs, OthersSame;
    StartIn(s, t.work, p, call);
    SameWants(s, t, id);
    StartTaken(s, t.work, p, id);
    q := p.(todo := p.todo - {id});
    if IsDocker(s.apps[id].def.kind) {
      ContainerStarts(t, id);
      SettledOnce(s, t, u, id);
    } else {
      ProcessStarts(t, id);
      SpawnPut(s, t.work.(starts := t.work.starts - multiset{call}), q, id);
      SameStays(s, t, u, id);
      q := q.(spawning := q.spawning + {id});
    }
    Moves(s, t, u, p, q, id);
  }

  lemma StartEndsStep(s: State, t: State, p: Phase, sp: Spawn, now: int, written: bool) returns (q: Phase)
    requires Midway(s, t, p) && sp in t.work.spawning
    requires forall x :: Superseded(t, x) ==> Superseded(FinishStart(t, sp, true, now, written), x)
    ensures Midway(s, FinishStart(t, sp, true, now, written), q)
  {
    var u, id := FinishStart(t, sp, true, now, written), sp.call.id;
    hide SameApp, Settled, PidsOk, WantStart, WantStop, FinishStart, Stopping, Superseded, WorkIs, OthersSame;
    SpawnIn(s, t.work, p, sp);
    assert Spawning(s, t, id);
    SameWants(s, t, id);
    SpawnTaken(s, t.work, p, id);
    q := p.(spawning := p.spawning - {id});
    ProcessStarted(t, id, now, written);
    SettledOnce(s, t, u, id);
    Moves(s, t, u, p, q, id);
  }

  lemma StopBeginsStep(s: State, t: State, p: Phase, stop: StopCall) returns (q: Phase)
    requires Midway(s, t, p) && stop in t.work.stops
    requires forall x :: Superseded(t, x) ==> Superseded(BeginStop(t, stop, true), x)
    ensures Midway(s, BeginStop(t, stop, true), q)
  {
    var u, id := BeginStop(t, stop, true), stop.id;
    hide SameApp, Settled, PidsOk, WantStart, WantStop, BeginStop, Stopping, Superseded, WorkIs, OthersSame;
    StopIn(s, t.work, p, stop);
    SameWants(s, t, id);
    StopTaken(s, t.work, p, id);
    q := p.(todo := p.todo - {id});
    if IsDocker(s.apps[id].def.kind) {
      ContainerStops(t, id);
      SettledOnce(s, t, u, id);
    } else {
      UpHasProcess(s, id);
      ProcessStops(t, id);
      HaltPut(s, t.work.(stops := t.work.stops - multiset{stop}), q, id);
      StoppingOnce(s, t, u, id);
      q := q.(halting := q.halting + {id});
    }
    Moves(s, t, u, p, q, id);
  }

  lemma StoppingOnce(s: State, t: State, u: State, id: Id)
    requires SameApp(s, t, id) && Stopping(t, u, id)
    ensures Stopping(s, u, id)
  {
    SameWants(s, t, id);
    hide Up;
  }

  lemma StopEndsStep(s: State, t: State, p: Phase, hl: Halt, written: bool) returns (q: Phase)
    requires Midway(s, t, p) && hl in t.work.halting
    requires forall x :: Superseded(t, x) ==> Superseded(FinishStop(t, hl, true, written), x)
    ensures Midway(s, FinishStop(t, hl, true, written), q)
  {
    var u, id := FinishStop(t, hl, true, written), hl.call.id;
    hide SameApp, Settled, PidsOk, WantStart, WantStop, FinishStop, Stopping, Superseded, WorkIs, OthersSame;
    HaltIn(s, t.work, p, hl);
    HaltTaken(s, t.work, p, id);
    q := p.(halting := p.halting - {id});
    ProcessStopped(s, t, id, written);
    Moves(s, t, u, p, q, id);
  }

  lemma ActionStep(h: Definition -> Hash, s: State, t: State, p: Phase, ev: Event) returns (q: Phase)
    requires Midway(s, t, p) && Succeeds(ev)
    ensures Midway(s, Next(h, t, ev), q)
  {
    hide Midway, Superseded;
    q := p;
    forall x | Superseded(t, x) ensures Superseded(Next(h, t, ev), x) {
      hide Next;
      StepKeepsPids(h, t, ev, x);
    }
    if UnderWay(t.work, ev) {
      match ev {
        case StartBegins(call, _) =>
          hide BeginStart;
          q := StartBeginsStep(s, t, p, call);
        case StartEnds(sp, _, now, written) =>
          hide FinishStart;
          q := StartEndsStep(s, t, p, sp, now, written);
        case StopBegins(stop, _) =>
          hide BeginStop;
          q := StopBeginsStep(s, t, p, stop);
        case StopEnds(hl, _, written) =>
          hide FinishStop;
          q := StopEndsStep(s, t, p, hl, written);
      }
    } else {
      IdleStep(h, t, ev);
    }
  }

  /** A step that is under way. */
  predicate UnderWay(w: Work, ev: Event)
  {
    match ev
    case StartBegins(call, _) => call in w.starts
    case StartEnds(sp, _, _, _) => sp in w.spawning
    case StopBegins(stop, _) => stop in w.stops
    case StopEnds(hl, _, _) => hl in w.halting
    case _ => false
  }

  lemma IdleStep(h: Definition -> Hash, t: State, ev: Event)
    requires Succeeds(ev) && !UnderWay(t.work, ev)
    ensures Next(h, t, ev) == t
  {
  }

  lemma ReconcileStarts(s: State)
    requires PidsOk(s) && s.work == NO_WORK
    ensures Midway(s, Reconcile(s), Phase(s.apps.Keys, {}, {}))
  {
    ReconcileWork(s);
    forall id ensures SameApp(s, Reconcile(s), id) {
    }
    forall id | id !in s.apps ensures Settled(s, Reconcile(s), id) {
    }
    assert PidsOk(Reconcile(s));
    hide SameApp, Settled, PidsOk, WorkIs, Reconcile, Stopping;
  }

  lemma NamedFor(s: State, a: set<Id>, b: set<Id>)
    ensures forall sp :: sp in SpawnsFor(s, a) ==> sp.call.id in a
    ensures forall hl :: hl in HaltsFor(s, b) ==> hl.call.id in b
  {
  }

  lemma ReconcileWork(s: State)
    requires s.work == NO_WORK
    ensures WorkIs(s, Reconcile(s).work, Phase(s.apps.Keys, {}, {}))
  {
    hide StartsFor, StopsFor;
    assert forall x: multiset<StartCall> :: multiset{} + x == x;
    assert forall x: multiset<StopCall> :: multiset{} + x == x;
    NamedFor(s, {}, {});
    assert SpawnsFor(s, {}) == multiset{} && HaltsFor(s, {}) == multiset{};
  }

  /** However the steps of reconcile's actions are interleaved. */
  lemma {:induction false} ActionsKeep(h: Definition -> Hash, s: State, evs: seq<Event>) returns (p: Phase)
    requires PidsOk(s) && s.work == NO_WORK
    requires forall i :: 0 <= i < |evs| ==> Succeeds(evs[i])
    ensures Midway(s, RunFrom(h, Reconcile(s), evs), p)
  {
    hide Midway, Next, PidsOk, Succeeds, Reconcile;
    if evs == [] {
      p := Phase(s.apps.Keys, {}, {});
      ReconcileStarts(s);
    } else {
      var n := |evs| - 1;
      p := ActionsKeep(h, s, evs[..n]);
      p := ActionStep(h, s, RunFrom(h, Reconcile(s), evs[..n]), p, evs[n]);
    }
  }

  // ---- the end ----

  /** Steps left, at most. */
  function Left(w: Work): nat
  {
    2 * |w.starts| + |w.spawning| + 2 * |w.stops| + |w.halting|
  }

  lemma OneFewer<T>(m: multiset<T>, x: T)
    requires x in m
    ensures |m - multiset{x}| == |m| - 1
  {
    assert m == m - multiset{x} + multiset{x};
  }

  lemma StartWork(t: State, call: StartCall)
    requires call in t.work.starts && !call.fromTimer
    ensures var w := BeginStart(t, call, true).work;
            exists x :: w == t.work.(starts := t.work.starts - multiset{call}, spawning := x) && |x| <= |t.work.spawning| + 1
  {
    var w := BeginStart(t, call, true).work;
    assert |w.spawning| <= |t.work.spawning| + 1;
  }

  lemma StopWork(t: State, stop: StopCall)
    requires stop in t.work.stops && !stop.thenStart
    ensures var w := BeginStop(t, stop, true).work;
            exists x :: w == t.work.(stops := t.work.stops - multiset{stop}, halting := x) && |x| <= |t.work.halting| + 1
  {
    hide Detach;
    var w := BeginStop(t, stop, true).work;
    assert |w.halting| <= |t.work.halting| + 1;
  }

  lemma SpawnWork(t: State, sp: Spawn, now: int, written: bool)
    requires sp in t.work.spawning
    ensures FinishStart(t, sp, true, now, written).work == t.work.(spawning := t.work.spawning - multiset{sp})
  {
  }

  lemma HaltWork(t: State, hl: Halt, written: bool)
    requires hl in t.work.halting && !hl.call.thenStart
    ensures FinishStop(t, hl, true, written).work == t.work.(halting := t.work.halting - multiset{hl})
  {
  }

  lemma Nearer(h: Definition -> Hash, s: State, t: State, p: Phase, ev: Event)
    requires WorkIs(s, t.work, p) && Succeeds(ev) && UnderWay(t.work, ev)
    ensures Left(Next(h, t, ev).work) < Left(t.work)
  {
    hide WorkIs, BeginStart, BeginStop, FinishStart, FinishStop;
    match ev {
      case StartBegins(call, _) =>
        StartIn(s, t.work, p, call);
        OneFewer(t.work.starts, call);
        StartWork(t, call);
      case StartEnds(sp, _, now, written) =>
        OneFewer(t.work.spawning, sp);
        SpawnWork(t, sp, now, written);
      case StopBegins(stop, _) =>
        StopIn(s, t.work, p, stop);
        OneFewer(t.work.stops, stop);
        StopWork(t, stop);
      case StopEnds(hl, _, written) =>
        HaltIn(s, t.work, p, hl);
        OneFewer(t.work.halting, hl);
        HaltWork(t, hl, written);
    }
  }

  /** Something is under way unless nothing is. */
  lemma SomeStep(s: State, w: Work, p: Phase) returns (ev: Event)
    requires WorkIs(s, w, p) && w != NO_WORK
    ensures Succeeds(ev) && UnderWay(w, ev)
  {
    hide StartsFor, StopsFor, SpawnsFor, HaltsFor;
    if w.starts != multiset{} {
      var call :| call in w.starts;
      ev := StartBegins(call, true);
    } else if w.spawning != multiset{} {
      var sp :| sp in w.spawning;
      ev := StartEnds(sp, true, 0, true);
    } else if w.stops != multiset{} {
      var stop :| stop in w.stops;
      ev := StopBegins(stop, true);
    } else {
      var hl :| hl in w.halting;
      ev := StopEnds(hl, true, true);
    }
  }

  /** Wherever the actions are, they can all succeed. */
  lemma {:induction false} CanFinish(h: Definition -> Hash, s: State, evs: seq<Event>) returns (all: seq<Event>)
    requires PidsOk(s) && s.work == NO_WORK
    requires forall i :: 0 <= i < |evs| ==> Succeeds(evs[i])
    ensures evs <= all && forall i :: 0 <= i < |all| ==> Succeeds(all[i])
    ensures RunFrom(h, Reconcile(s), all).work == NO_WORK
    decreases Left(RunFrom(h, Reconcile(s), evs).work)
  {
    hide *;
    var t := RunFrom(h, Reconcile(s), evs);
    if t.work == NO_WORK {
      all := evs;
    } else {
      var p := ActionsKeep(h, s, evs);
      MidwayWork(s, t, p);
      var ev := SomeStep(s, t.work, p);
      Nearer(h, s, t, p, ev);
      OneStepMore(h, Reconcile(s), evs, ev);
      all := CanFinish(h, s, evs + [ev]);
    }
  }

  lemma MidwayWork(s: State, t: State, p: Phase)
    requires Midway(s, t, p)
    ensures WorkIs(s, t.work, p)
  {
    hide WorkIs;
  }

  lemma OneStepMore(h: Definition -> Hash, s: State, evs: seq<Event>, ev: Event)
    ensures RunFrom(h, s, evs + [ev]) == Next(h, RunFrom(h, s, evs), ev)
  {
    hide Next;
    assert (evs + [ev])[..|evs|] == evs;
  }

  // ---- the fixpoint ----

  /** Reconcile issues no action. */
  predicate Converged(s: State)
  {
    forall id :: id in s.apps ==> !WantStart(s, id) && !WantStop(s, id)
  }

  /** Every approved app without restart bookkeeping is up exactly when it is wanted. */
  predicate UpAsWanted(s: State)
  {
    forall id :: id in s.apps && s.apps[id].approval == Approved && id !in s.sup.restarts ==>
      (Up(s, id) <==> s.apps[id].desired == Running)
  }

  /** ... every such process app, at least. */
  predicate ProcessesUp(s: State)
  {
    forall id :: id in s.apps && s.apps[id].approval == Approved && !IsDocker(s.apps[id].def.kind) && id !in s.sup.restarts ==>
      (Up(s, id) <==> s.apps[id].desired == Running)
  }

  lemma ConvergedIdle(s: State)
    requires Converged(s)
    ensures Reconcile(s) == s
  {
    hide WantStart, WantStop;
    assert (set id | id in s.apps.Keys && WantStart(s, id) :: StartCall(id, false)) == {};
    assert (set id | id in s.apps.Keys && WantStop(s, id) :: StopCall(id, false)) == {};
    assert s.work.starts + multiset({}) == s.work.starts;
    assert s.work.stops + multiset({}) == s.work.stops;
  }

  /** Whichever way the steps of reconcile's actions interleave, once all have succeeded no decision
      or wish has changed, every approved app without restart bookkeeping is up exactly when it
      is wanted, and a second reconcile does nothing; all that provided no container app that
      should be started is shadowed by a process left from an earlier definition, which is also
      necessary. For process apps no such proviso is needed. */
  lemma ReconcileConvergesIff(h: Definition -> Hash, s: State, evs: seq<Event>)
    requires PidsOk(s) && s.work == NO_WORK
    requires forall i :: 0 <= i < |evs| ==> Succeeds(evs[i])
    requires RunFrom(h, Reconcile(s), evs).work == NO_WORK
    ensures var t := RunFrom(h, Reconcile(s), evs);
            && t.apps.Keys == s.apps.Keys
            && (forall id :: id in s.apps ==> t.apps[id].(lastPid := 0) == s.apps[id].(lastPid := 0))
            && (Converged(t) <==> forall id :: WantStart(s, id) ==> !Stray(s, id))
            && (Converged(t) ==> Reconcile(t) == t && UpAsWanted(t))
            && ProcessesUp(t)
  {
    hide *;
    var t := RunFrom(h, Reconcile(s), evs);
    var p := ActionsKeep(h, s, evs);
    AllSettled(s, t, p);
    if Converged(t) {
      ConvergedIdle(t);
      ConvergedUp(t);
    }
  }

  lemma AllSettled(s: State, t: State, p: Phase)
    requires Midway(s, t, p) && t.work == NO_WORK
    ensures t.apps.Keys == s.apps.Keys
    ensures forall id :: id in s.apps ==> t.apps[id].(lastPid := 0) == s.apps[id].(lastPid := 0)
    ensures Converged(t) <==> forall id :: WantStart(s, id) ==> !Stray(s, id)
    ensures ProcessesUp(t)
  {
    forall id ensures Settled(s, t, id) {
      NothingLeft(s, t, p, id);
    }
    hide Midway;
    SettledMeans(s, t);
    hide *;
  }

  /** With nothing under way, the actions of every app are over. */
  lemma NothingLeft(s: State, t: State, p: Phase, id: Id)
    requires Midway(s, t, p) && t.work == NO_WORK
    ensures Settled(s, t, id)
  {
    Pending(s, t.work, p, id);
    hide SameApp, Settled, WantStart, WantStop, PidsOk, WorkIs;
    if id in p.todo {
      SameWants(s, t, id);
      NothingToDo(t, id);
      SettledOnce(s, t, t, id);
    }
  }

  lemma Pending(s: State, w: Work, p: Phase, id: Id)
    requires WorkIs(s, w, p)
    ensures id in p.todo && WantStart(s, id) ==> StartCall(id, false) in w.starts
    ensures id in p.todo && WantStop(s, id) ==> StopCall(id, false) in w.stops
    ensures id in p.spawning && id in s.apps ==> StartOf(s, id) in w.spawning
    ensures id in p.halting && id in s.sup.procs ==> StopOf(s, id) in w.halting
  {
    hide WantStart, WantStop;
  }

  lemma SettledMeans(s: State, t: State)
    requires forall id :: Settled(s, t, id)
    ensures t.apps.Keys == s.apps.Keys
    ensures forall id :: id in s.apps ==> t.apps[id].(lastPid := 0) == s.apps[id].(lastPid := 0)
    ensures Converged(t) <==> forall id :: WantStart(s, id) ==> !Stray(s, id)
    ensures ProcessesUp(t)
  {
    hide Up, Stray, WantStart, WantStop;
    forall id
      ensures id in t.apps <==> id in s.apps
      ensures id in s.apps ==> t.apps[id].(lastPid := 0) == s.apps[id].(lastPid := 0)
    {
      assert Settled(s, t, id);
    }
    ConvergedSettled(s, t);
    ProcessesSettled(s, t);
  }

  lemma ConvergedSettled(s: State, t: State)
    requires forall id :: Settled(s, t, id)
    ensures Converged(t) <==> forall id :: WantStart(s, id) ==> !Stray(s, id)
  {
    forall id ensures !WantStart(t, id) && !WantStop(t, id) <==> !(WantStart(s, id) && Stray(s, id)) {
      assert Settled(s, t, id);
    }
    forall id | WantStart(s, id) ensures id in t.apps {
      assert Settled(s, t, id);
    }
    hide WantStart, WantStop, Stray, Settled;
  }

  lemma ConvergedUp(t: State)
    requires Converged(t)
    ensures UpAsWanted(t)
  {
  }

  lemma ProcessesSettled(s: State, t: State)
    requires forall id :: Settled(s, t, id)
    requires t.apps.Keys == s.apps.Keys
    ensures ProcessesUp(t)
  {
    forall id | id in t.apps && t.apps[id].approval == Approved && !IsDocker(t.apps[id].def.kind) && id !in t.sup.restarts
      ensures Up(t, id) <==> t.apps[id].desired == Running
    {
      assert Settled(s, t, id);
      assert t.apps[id].(lastPid := 0) == s.apps[id].(lastPid := 0);
      NotStray(s, t, id);
    }
  }

  lemma NotStray(s: State, t: State, id: Id)
    requires id in s.apps && id in t.apps && t.apps[id].(lastPid := 0) == s.apps[id].(lastPid := 0) && !IsDocker(t.apps[id].def.kind)
    ensures !Stray(s, id)
  {
    var a, b := t.apps[id].(lastPid := 0), s.apps[id].(lastPid := 0);
    assert a.def == b.def;
  }
}
