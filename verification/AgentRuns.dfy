/** Runs of the agent, from its initial state, into the states where it does not do what it is
    meant to do: given up and started again, stopped and resurrected, a container shadowed by a
    process. */
module AgentRuns {
  import opened Wrappers
  import opened Agent
  import opened AgentSteps
  import opened Restarts
  import opened Reconciling

  const APP: Id := "a"

  /** A process app that may be restarted once. */
  const DEF := Definition(1, "app", Process, "run", "/app", Some(RestartPolicy(1, 0, 0)), "")

  const CONTAINER := DEF.(kind := Docker)

  function Spec(h: Definition -> Hash, def: Definition): AppSpec
  {
    AppSpec(APP, def, h(def), Running, "")
  }

  const START := StartCall(APP, false)
  const RETRY := StartCall(APP, true)

  // ---- runs in pieces ----

  lemma {:induction false} RunJoin(h: Definition -> Hash, s: State, a: seq<Event>, b: seq<Event>)
    ensures RunFrom(h, s, a + b) == RunFrom(h, RunFrom(h, s, a), b)
  {
    hide Next;
    if b == [] {
      assert a + b == a;
    } else {
      var n := |b| - 1;
      RunJoin(h, s, a, b[..n]);
      assert (a + b)[..|a + b| - 1] == a + b[..n];
    }
  }

  lemma RunTwo(h: Definition -> Hash, s: State, a: Event, b: Event)
    ensures RunFrom(h, s, [a, b]) == Next(h, Next(h, s, a), b)
  {
    hide Next;
    assert [a, b][..1] == [a];
    assert [a][..0] == [];
    assert RunFrom(h, s, []) == s;
    assert RunFrom(h, s, [a]) == Next(h, s, a);
  }

  lemma RunThree(h: Definition -> Hash, s: State, a: Event, b: Event, c: Event)
    ensures RunFrom(h, s, [a, b, c]) == Next(h, Next(h, Next(h, s, a), b), c)
  {
    hide Next;
    RunTwo(h, s, a, b);
    RunJoin(h, s, [a, b], [c]);
    assert [a, b] + [c] == [a, b, c];
    RunFromOne(h, RunFrom(h, s, [a, b]), c);
  }

  lemma RunFromOne(h: Definition -> Hash, s: State, a: Event)
    ensures RunFrom(h, s, [a]) == Next(h, s, a)
  {
    hide Next;
    assert [a][..0] == [];
    assert RunFrom(h, s, []) == s;
  }

  // ---- the app is imported, listed, and wanted ----

  function Listed(h: Definition -> Hash, def: Definition, desired: Desired, pid: nat): App
  {
    App(def, h(def), Approved, desired, "", pid)
  }

  function Install(h: Definition -> Hash): seq<Event>
  {
    [Imported(DEF), Sync([Spec(h, DEF)], true), Converge]
  }

  function Installed(h: Definition -> Hash): State
  {
    var apps := map[APP := Listed(h, DEF, Running, 0)];
    INIT.(apps := apps, disk := apps, work := NO_WORK.(starts := multiset{START}),
          log := Log({h(DEF)}, [], {AppRegister(DEF), ApprovalEvent(APP, Approved, h(DEF))}))
  }

  lemma Installs(h: Definition -> Hash)
    ensures RunFrom(h, INIT, Install(h)) == Installed(h)
  {
    var s1 := INIT.(preApproved := [h(DEF)], log := Log({h(DEF)}, [], {AppRegister(DEF)}));
    var s2 := Installed(h).(work := NO_WORK);
    ImportStep(h, s1);
    SyncStep(h, s1, s2);
    ConvergeStep(h, s2);
    hide Next, Installed;
    RunThree(h, INIT, Imported(DEF), Sync([Spec(h, DEF)], true), Converge);
  }

  lemma ImportStep(h: Definition -> Hash, s1: State)
    requires s1 == INIT.(preApproved := [h(DEF)], log := Log({h(DEF)}, [], {AppRegister(DEF)}))
    ensures Next(h, INIT, Imported(DEF)) == s1
  {
    assert [] + [h(DEF)] == [h(DEF)];
    assert {} + {h(DEF)} == {h(DEF)};
    assert {} + {AppRegister(DEF)} == {AppRegister(DEF)};
  }

  lemma OneSpec(s: State, spec: AppSpec)
    ensures ApplySpecs(s, [spec]) == ApplySpec(s, spec) || ApplySpecs(s, [spec]) == (ApplySpec(s, spec).0, ApplySpec(s, spec).1)
    ensures Ids([spec]) == {spec.id}
  {
    hide ApplySpec;
    assert [spec][..0] == [];
    assert ApplySpecs(s, []) == (s, false);
  }

  /** A sync that lists the one app with a definition the agent does not have yet. */
  lemma AdoptStep(s: State, spec: AppSpec)
    requires s.apps.Keys <= {spec.id} && (spec.id in s.apps ==> s.apps[spec.id].hash != spec.hash)
    ensures ApplyAppSync(s, [spec], true) == Adopt(s, spec).(disk := Adopt(s, spec).apps)
  {
    OneSpec(s, spec);
    var t := Adopt(s, spec);
    assert t.apps.Keys - {spec.id} == {};
    ForgetNothing(t);
    hide ApplySpecs, ForgetAll, ApprovalOf, Without;
  }

  lemma SyncStep(h: Definition -> Hash, s1: State, s2: State)
    requires s1 == INIT.(preApproved := [h(DEF)], log := Log({h(DEF)}, [], {AppRegister(DEF)}))
    requires s2 == Installed(h).(work := NO_WORK)
    ensures Next(h, s1, Sync([Spec(h, DEF)], true)) == s2
  {
    AdoptStep(s1, Spec(h, DEF));
    assert [h(DEF)][1..] == [];
    assert Without([h(DEF)], h(DEF)) == [];
    assert {AppRegister(DEF)} + {ApprovalEvent(APP, Approved, h(DEF))} == {AppRegister(DEF), ApprovalEvent(APP, Approved, h(DEF))};
    hide ApplyAppSync;
  }

  lemma ConvergeStep(h: Definition -> Hash, s2: State)
    requires s2 == Installed(h).(work := NO_WORK)
    ensures Next(h, s2, Converge) == Installed(h)
  {
    ConvergesTo(s2);
  }

  /** A reconcile that starts the one app. */
  lemma ConvergesTo(s: State)
    requires s.apps.Keys == {APP} && s.work == NO_WORK && WantStart(s, APP)
    ensures Reconcile(s) == s.(work := NO_WORK.(starts := multiset{START}))
  {
    assert !WantStop(s, APP);
    hide WantStart, WantStop;
    assert (set id | id in s.apps.Keys && WantStart(s, id) :: StartCall(id, false)) == {START};
    assert (set id | id in s.apps.Keys && WantStop(s, id) :: StopCall(id, false)) == {};
    assert multiset{} + multiset({START}) == multiset{START};
    assert s.work.stops + multiset({}) == multiset{};
  }

  // ---- a start and a crash ----

  function StartUp(call: StartCall, now: int): seq<Event>
  {
    [StartBegins(call, true), StartEnds(Spawn(call, DEF), true, now, true)]
  }

  /** The state with the app's new process. */
  function Started(s: State, now: int): State
    requires APP in s.apps
  {
    var p := s.host.nextPid;
    var apps := s.apps[APP := s.apps[APP].(lastPid := p)];
    s.(apps := apps, disk := apps, work := NO_WORK,
       sup := s.sup.(procs := s.sup.procs[APP := p], startTimes := s.sup.startTimes[APP := now]),
       host := s.host.(nextPid := p + 1, alive := s.host.alive + {p}, watchers := s.host.watchers[p := APP]),
       log := s.log.(spawned := s.log.spawned + [(APP, DEF)]))
  }

  lemma Starts(h: Definition -> Hash, s: State, call: StartCall, now: int)
    requires s.work == NO_WORK.(starts := multiset{call}) && call.id == APP
    requires APP in s.apps && s.apps[APP].def == DEF && s.apps[APP].approval == Approved && APP !in s.sup.procs
    ensures RunFrom(h, s, StartUp(call, now)) == Started(s, now)
  {
    var sp := Spawn(call, DEF);
    var t := s.(work := NO_WORK.(spawning := multiset{sp}));
    assert multiset{call} - multiset{call} == multiset{};
    assert multiset{} + multiset{sp} == multiset{sp};
    assert BeginStart(s, call, true) == t;
    FinishIs(t, sp, now);
    assert Started(t, now) == Started(s, now);
    RunTwo(h, s, StartBegins(call, true), StartEnds(sp, true, now, true));
    hide BeginStart, FinishStart, Started, RunFrom;
  }

  lemma FinishIs(t: State, sp: Spawn, now: int)
    requires t.work == NO_WORK.(spawning := multiset{sp}) && sp.call.id == APP && sp.def == DEF && APP in t.apps
    ensures FinishStart(t, sp, true, now, true) == Started(t, now)
  {
    assert multiset{sp} - multiset{sp} == multiset{};
  }

  /** A crash of the app's process p, `began` ago, up to where it is counted. */
  function Crash(p: Pid, began: int, now: int): seq<Event>
  {
    [Exits(p, false), Observed(p), ExitLooks(APP), ExitCounts(Seen(began), now)]
  }

  function Seen(began: int): Look
  {
    Look(APP, Some(began), 1, 1000)
  }

  /** The app's process p is gone, and its exit is to be counted. */
  function Gone(s: State, p: Pid, began: int): State
  {
    s.(sup := s.sup.(procs := s.sup.procs - {APP}, startTimes := s.sup.startTimes - {APP}),
       work := NO_WORK.(looked := multiset{Seen(began)}),
       host := s.host.(done := s.host.done + {p}, alive := s.host.alive - {p}, watchers := s.host.watchers - {p}))
  }

  predicate RunsAs(s: State, p: Pid, began: int)
  {
    && s.work == NO_WORK && APP in s.sup.procs && s.sup.procs[APP] == p && p in s.host.watchers && s.host.watchers[p] == APP
    && APP in s.sup.startTimes && s.sup.startTimes[APP] == began
    && APP in s.apps && s.apps[APP].def == DEF && Wanted(s.apps, APP)
  }

  lemma CrashRuns(h: Definition -> Hash, s: State, p: Pid, began: int, now: int)
    requires RunsAs(s, p, began)
    ensures RunFrom(h, s, Crash(p, began, now)) == CountExit(Gone(s, p, began), Seen(began), now)
  {
    ExitStep(h, s, p);
    ObserveStep(h, s, p);
    LookStep(h, s, p, began);
    CountStepIs(h, Gone(s, p, began), began, now);
    hide *;
    RunThree(h, s, Exits(p, false), Observed(p), ExitLooks(APP));
    CrashIs(p, began, now);
    RunJoin(h, s, [Exits(p, false), Observed(p), ExitLooks(APP)], [ExitCounts(Seen(began), now)]);
    RunFromOne(h, Gone(s, p, began), ExitCounts(Seen(began), now));
  }

  lemma CrashIs(p: Pid, began: int, now: int)
    ensures Crash(p, began, now) == [Exits(p, false), Observed(p), ExitLooks(APP)] + [ExitCounts(Seen(began), now)]
  {
  }

  lemma ExitStep(h: Definition -> Hash, s: State, p: Pid)
    ensures Next(h, s, Exits(p, false)) == RootExit(s, p, false)
  {
  }

  lemma CountStepIs(h: Definition -> Hash, s: State, began: int, now: int)
    ensures Next(h, s, ExitCounts(Seen(began), now)) == CountExit(s, Seen(began), now)
  {
    hide CountExit;
  }

  /** The exit has been observed. */
  function Observed1(s: State, p: Pid): State
  {
    s.(sup := s.sup.(procs := s.sup.procs - {APP}), work := NO_WORK.(exits := multiset{APP}),
       host := s.host.(done := s.host.done + {p}, alive := s.host.alive - {p}, watchers := s.host.watchers - {p}))
  }

  lemma ObserveStep(h: Definition -> Hash, s: State, p: Pid)
    requires s.work == NO_WORK && APP in s.sup.procs && s.sup.procs[APP] == p && p in s.host.watchers && s.host.watchers[p] == APP
    ensures Next(h, RootExit(s, p, false), Observed(p)) == Observed1(s, p)
  {
    assert multiset{} + multiset{APP} == multiset{APP};
  }

  lemma LookStep(h: Definition -> Hash, s: State, p: Pid, began: int)
    requires RunsAs(s, p, began)
    ensures Next(h, Observed1(s, p), ExitLooks(APP)) == Gone(s, p, began)
  {
    assert multiset{APP} - multiset{APP} == multiset{};
    assert multiset{} + multiset{Seen(began)} == multiset{Seen(began)};
    assert PolicyFor(DEF) == (1, 1000, 60_000);
  }

  /** An app of this policy whose run was too short. */
  lemma CountIsNext(s: State, began: int, now: int)
    requires s.work == NO_WORK.(looked := multiset{Seen(began)}) && now - began < 1000
    ensures var n := CellOf(s.sup, APP).count + 1;
            CountExit(s, Seen(began), now) ==
            s.(sup := Counted(s.sup, APP, n), work := if n <= 1 then NO_WORK.(arming := multiset{Arming(APP, RefOf(s.sup, APP))}) else NO_WORK)
  {
    assert multiset{Seen(began)} - multiset{Seen(began)} == multiset{};
    assert multiset{} + multiset{Arming(APP, RefOf(s.sup, APP))} == multiset{Arming(APP, RefOf(s.sup, APP))};
    hide Counted, CellOf, RefOf;
  }

  // ---- given up, and started again ----

  function TwiceDown(h: Definition -> Hash): seq<Event>
  {
    Install(h) + StartUp(START, 0) + Crash(1, 0, 10)
    + [Arms(Arming(APP, 0)), Commanded(APP, Start, h(DEF)), CommandRuns(Command(APP, Start), true)]
    + StartUp(START, 20) + Crash(2, 20, 30)
  }

  function FirstCrash(h: Definition -> Hash): State
  {
    var apps := map[APP := Listed(h, DEF, Running, 1)];
    var log := Installed(h).log;
    State(apps, apps, [], Sup(map[], map[], map[APP := 0], map[0 := RestartState(APP, 1, None)], map[], 1, 0, {}),
          NO_WORK.(arming := multiset{Arming(APP, 0)}), Host({}, {1}, map[], 2), log.(spawned := [(APP, DEF)]))
  }

  lemma FirstCrashes(h: Definition -> Hash)
    ensures RunFrom(h, INIT, Install(h) + StartUp(START, 0) + Crash(1, 0, 10)) == FirstCrash(h)
  {
    Installs(h);
    var s := Installed(h);
    Starts(h, s, START, 0);
    var t := Started(s, 0);
    CrashRuns(h, t, 1, 0, 10);
    var u := Gone(t, 1, 0);
    CountIsNext(u, 0, 10);
    FirstCrashIs(h, u);
    hide Installed, Started, Gone, CountExit, FirstCrash, Install, StartUp, Crash, RunFrom;
    RunJoin(h, INIT, Install(h), StartUp(START, 0));
    RunJoin(h, INIT, Install(h) + StartUp(START, 0), Crash(1, 0, 10));
  }

  lemma FirstCrashIs(h: Definition -> Hash, u: State)
    requires u == Gone(Started(Installed(h), 0), 1, 0)
    ensures CellOf(u.sup, APP).count == 0 && RefOf(u.sup, APP) == 0
    ensures u.(sup := Counted(u.sup, APP, 1), work := NO_WORK.(arming := multiset{Arming(APP, 0)})) == FirstCrash(h)
  {
    assert map[APP := 1 as Pid] - {APP} == map[];
    assert map[1 as Pid := APP] - {1} == map[];
    assert map[APP := 0 as int] - {APP} == map[];
    assert {1 as Pid} - {1} == {};
    assert [] + [(APP, DEF)] == [(APP, DEF)];
    assert map[APP := Listed(h, DEF, Running, 0)][APP := Listed(h, DEF, Running, 1)] == map[APP := Listed(h, DEF, Running, 1)];
  }

  /** The timer is armed, and the user starts the app while it waits. */
  function Impatient(h: Definition -> Hash): State
  {
    FirstCrash(h).(sup := Sup(map[], map[], map[APP := 0], map[0 := RestartState(APP, 1, Some(0))], map[0 := APP], 1, 1, {}),
                   work := NO_WORK.(starts := multiset{START}))
  }

  lemma UserStarts(h: Definition -> Hash)
    ensures RunFrom(h, FirstCrash(h), [Arms(Arming(APP, 0)), Commanded(APP, Start, h(DEF)), CommandRuns(Command(APP, Start), true)]) == Impatient(h)
  {
    var s := FirstCrash(h);
    var t := Impatient(h).(work := NO_WORK);
    var u := t.(work := NO_WORK.(commands := multiset{Command(APP, Start)}));
    ArmedIs(h, s, t);
    AcceptedIs(h, t, u);
    ExecutedIs(h, u);
    hide *;
    RunThree(h, s, Arms(Arming(APP, 0)), Commanded(APP, Start, h(DEF)), CommandRuns(Command(APP, Start), true));
  }

  lemma AcceptedIs(h: Definition -> Hash, t: State, u: State)
    requires t == Impatient(h).(work := NO_WORK) && u == t.(work := NO_WORK.(commands := multiset{Command(APP, Start)}))
    ensures Next(h, t, Commanded(APP, Start, h(DEF))) == u
  {
    assert multiset{} + multiset{Command(APP, Start)} == multiset{Command(APP, Start)};
  }

  lemma ExecutedIs(h: Definition -> Hash, u: State)
    requires u == Impatient(h).(work := NO_WORK.(commands := multiset{Command(APP, Start)}))
    ensures Next(h, u, CommandRuns(Command(APP, Start), true)) == Impatient(h)
  {
    assert multiset{Command(APP, Start)} - multiset{Command(APP, Start)} == multiset{};
    assert multiset{} + multiset{START} == multiset{START};
  }

  lemma ArmedIs(h: Definition -> Hash, s: State, t: State)
    requires s == FirstCrash(h) && t == Impatient(h).(work := NO_WORK)
    ensures Next(h, s, Arms(Arming(APP, 0))) == t
  {
    var a := Arming(APP, 0);
    assert multiset{a} - multiset{a} == multiset{};
    assert map[0 as Ref := RestartState(APP, 1, None)][0 := RestartState(APP, 1, Some(0))] == map[0 as Ref := RestartState(APP, 1, Some(0))];
  }

  function GivenUp(h: Definition -> Hash): State
  {
    var apps := map[APP := Listed(h, DEF, Running, 2)];
    State(apps, apps, [], Sup(map[], map[], map[APP := 0], map[0 := RestartState(APP, 2, Some(0))], map[0 := APP], 1, 1, {}),
          NO_WORK, Host({}, {1, 2}, map[], 3), Installed(h).log.(spawned := [(APP, DEF), (APP, DEF)]))
  }

  lemma SecondCrashIs(h: Definition -> Hash, u: State)
    requires u == Gone(Started(Impatient(h), 20), 2, 20)
    ensures CellOf(u.sup, APP).count == 1
    ensures u.(sup := Counted(u.sup, APP, 2), work := NO_WORK) == GivenUp(h)
  {
    assert map[APP := 2 as Pid] - {APP} == map[];
    assert map[2 as Pid := APP] - {2} == map[];
    assert map[APP := 20 as int] - {APP} == map[];
    assert {2 as Pid} - {2} == {};
    assert {1 as Pid} + {2} == {1, 2};
    assert [(APP, DEF)] + [(APP, DEF)] == [(APP, DEF), (APP, DEF)];
    assert map[APP := Listed(h, DEF, Running, 1)][APP := Listed(h, DEF, Running, 2)] == map[APP := Listed(h, DEF, Running, 2)];
    assert map[0 as Ref := RestartState(APP, 1, Some(0))][0 := RestartState(APP, 2, Some(0))] == map[0 as Ref := RestartState(APP, 2, Some(0))];
    assert map[APP := 0 as Ref][APP := 0] == map[APP := 0 as Ref];
  }

  lemma GivesUp(h: Definition -> Hash)
    ensures RunFrom(h, INIT, TwiceDown(h)) == GivenUp(h)
  {
    FirstCrashes(h);
    UserStarts(h);
    var s := Impatient(h);
    Starts(h, s, START, 20);
    var t := Started(s, 20);
    CrashRuns(h, t, 2, 20, 30);
    var u := Gone(t, 2, 20);
    SecondCrashIs(h, u);
    CountIsNext(u, 20, 30);
    var a, b := Install(h) + StartUp(START, 0) + Crash(1, 0, 10),
                [Arms(Arming(APP, 0)), Commanded(APP, Start, h(DEF)), CommandRuns(Command(APP, Start), true)];
    assert TwiceDown(h) == a + b + StartUp(START, 20) + Crash(2, 20, 30);
    hide *;
    RunJoin(h, INIT, a, b);
    RunJoin(h, INIT, a + b, StartUp(START, 20));
    RunJoin(h, INIT, a + b + StartUp(START, 20), Crash(2, 20, 30));
  }

  function AndUpAgain(h: Definition -> Hash): seq<Event>
  {
    TwiceDown(h) + [Fires(0)] + StartUp(RETRY, 40)
  }

  /** A run of the agent: imported, started, crashed after 10 ms, started by the user while the
      restart timer waits, crashed again with its one restart used up. The agent gives up; then
      the timer fires, and the app runs a third time. */
  lemma GivenUpYetRunning(h: Definition -> Hash)
    ensures var s := RunFrom(h, INIT, TwiceDown(h));
            && Known(s.sup, APP) && CellOf(s.sup, APP).count > PolicyFor(DEF).0 && s.work == NO_WORK && APP !in s.sup.procs
            && |s.log.spawned| == 2
    ensures var t := RunFrom(h, INIT, AndUpAgain(h));
            Up(t, APP) && t.log.spawned == [(APP, DEF), (APP, DEF), (APP, DEF)]
  {
    GivesUp(h);
    GivenUpIs(h);
    var s := GivenUp(h);
    var t := s.(sup := s.sup.(timers := map[]), work := NO_WORK.(starts := multiset{RETRY}));
    FiredIs(h, s, t);
    Starts(h, t, RETRY, 40);
    ThirdRun(h, t);
    hide *;
    RunFromOne(h, s, Fires(0));
    RunJoin(h, INIT, TwiceDown(h), [Fires(0)]);
    RunJoin(h, INIT, TwiceDown(h) + [Fires(0)], StartUp(RETRY, 40));
    AgainIs(h);
  }

  lemma AgainIs(h: Definition -> Hash)
    ensures AndUpAgain(h) == TwiceDown(h) + [Fires(0)] + StartUp(RETRY, 40)
  {
    hide TwiceDown, StartUp;
  }

  lemma GivenUpIs(h: Definition -> Hash)
    ensures var s := GivenUp(h);
            && Known(s.sup, APP) && CellOf(s.sup, APP).count > PolicyFor(DEF).0 && s.work == NO_WORK && APP !in s.sup.procs
            && |s.log.spawned| == 2
  {
  }

  lemma FiredIs(h: Definition -> Hash, s: State, t: State)
    requires s == GivenUp(h) && t == s.(sup := s.sup.(timers := map[]), work := NO_WORK.(starts := multiset{RETRY}))
    ensures Next(h, s, Fires(0)) == t
    ensures APP in t.apps && t.apps[APP].def == DEF && t.apps[APP].approval == Approved && APP !in t.sup.procs && t.sup.procs == map[]
  {
    assert map[0 as TimerId := APP] - {0} == map[];
    assert multiset{} + multiset{RETRY} == multiset{RETRY};
  }

  lemma ThirdRun(h: Definition -> Hash, t: State)
    requires t == GivenUp(h).(sup := t.sup, work := t.work) && t.sup.procs == map[]
    ensures Up(Started(t, 40), APP) && Started(t, 40).log.spawned == [(APP, DEF), (APP, DEF), (APP, DEF)]
  {
    assert [(APP, DEF), (APP, DEF)] + [(APP, DEF)] == [(APP, DEF), (APP, DEF), (APP, DEF)];
  }

  // ---- two timers ----

  const HURRY := StopCall(APP, true)

  /** A restart command between counting a crash and arming its timer, and another crash. */
  function Hurried(h: Definition -> Hash): seq<Event>
  {
    Install(h) + StartUp(START, 0) + Crash(1, 0, 10)
    + [Commanded(APP, Restart, h(DEF)), CommandRuns(Command(APP, Restart), true), StopBegins(HURRY, true)]
    + [Arms(Arming(APP, 0))] + StartUp(START, 20) + Crash(2, 20, 30) + [Arms(Arming(APP, 1))]
  }

  /** The bookkeeping is gone, the timer still to be armed. */
  function Detached(h: Definition -> Hash): State
  {
    FirstCrash(h).(sup := FirstCrash(h).sup.(restarts := map[]),
                   work := NO_WORK.(starts := multiset{START}, arming := multiset{Arming(APP, 0)}))
  }

  lemma UserRestarts(h: Definition -> Hash)
    ensures RunFrom(h, FirstCrash(h), [Commanded(APP, Restart, h(DEF)), CommandRuns(Command(APP, Restart), true), StopBegins(HURRY, true)])
            == Detached(h)
  {
    var s := FirstCrash(h);
    var t := s.(work := s.work.(commands := multiset{Command(APP, Restart)}));
    var u := s.(work := s.work.(stops := multiset{HURRY}));
    RestartAccepted(h, s, t);
    RestartExecuted(h, t, u);
    RestartStops(h, u);
    hide *;
    RunThree(h, s, Commanded(APP, Restart, h(DEF)), CommandRuns(Command(APP, Restart), true), StopBegins(HURRY, true));
  }

  lemma RestartAccepted(h: Definition -> Hash, s: State, t: State)
    requires s == FirstCrash(h) && t == s.(work := s.work.(commands := multiset{Command(APP, Restart)}))
    ensures Next(h, s, Commanded(APP, Restart, h(DEF))) == t
  {
    assert multiset{} + multiset{Command(APP, Restart)} == multiset{Command(APP, Restart)};
  }

  lemma RestartExecuted(h: Definition -> Hash, t: State, u: State)
    requires t == FirstCrash(h).(work := FirstCrash(h).work.(commands := multiset{Command(APP, Restart)}))
    requires u == FirstCrash(h).(work := FirstCrash(h).work.(stops := multiset{HURRY}))
    ensures Next(h, t, CommandRuns(Command(APP, Restart), true)) == u
  {
    assert multiset{Command(APP, Restart)} - multiset{Command(APP, Restart)} == multiset{};
    assert multiset{} + multiset{HURRY} == multiset{HURRY};
  }

  lemma RestartStops(h: Definition -> Hash, u: State)
    requires u == FirstCrash(h).(work := FirstCrash(h).work.(stops := multiset{HURRY}))
    ensures Next(h, u, StopBegins(HURRY, true)) == Detached(h)
  {
    assert multiset{HURRY} - multiset{HURRY} == multiset{};
    assert multiset{} + multiset{START} == multiset{START};
    assert map[APP := 0 as Ref] - {APP} == map[];
    assert u.sup.procs - {APP} == map[] && u.sup.startTimes - {APP} == map[];
  }

  /** The timer is armed in the cell nothing points at. */
  function ArmedApart(h: Definition -> Hash): State
  {
    FirstCrash(h).(sup := Sup(map[], map[], map[], map[0 := RestartState(APP, 1, Some(0))], map[0 := APP], 1, 1, {}),
                   work := NO_WORK.(starts := multiset{START}))
  }

  lemma ArmsApart(h: Definition -> Hash)
    ensures Next(h, Detached(h), Arms(Arming(APP, 0))) == ArmedApart(h)
  {
    var a := Arming(APP, 0);
    assert multiset{a} - multiset{a} == multiset{};
    assert map[0 as Ref := RestartState(APP, 1, None)][0 := RestartState(APP, 1, Some(0))] == map[0 as Ref := RestartState(APP, 1, Some(0))];
  }

  /** The second crash, counted in a cell of its own. */
  lemma SecondCell(h: Definition -> Hash, u: State)
    requires u == Gone(Started(ArmedApart(h), 20), 2, 20)
    ensures CellOf(u.sup, APP).count == 0 && RefOf(u.sup, APP) == 1
    ensures Counted(u.sup, APP, 1) ==
            Sup(map[], map[], map[APP := 1], map[0 := RestartState(APP, 1, Some(0)), 1 := RestartState(APP, 1, None)], map[0 := APP], 2, 1, {})
  {
    assert map[APP := 2 as Pid] - {APP} == map[];
    assert map[APP := 20 as int] - {APP} == map[];
    assert map[0 as Ref := RestartState(APP, 1, Some(0))][1 := RestartState(APP, 1, None)]
        == map[0 as Ref := RestartState(APP, 1, Some(0)), 1 := RestartState(APP, 1, None)];
    assert u.sup.restarts[APP := 1] == map[APP := 1 as Ref];
  }

  lemma SecondTimer(h: Definition -> Hash, v: State)
    requires v.work == NO_WORK.(arming := multiset{Arming(APP, 1)})
    requires v.sup == Sup(map[], map[], map[APP := 1], map[0 := RestartState(APP, 1, Some(0)), 1 := RestartState(APP, 1, None)], map[0 := APP], 2, 1, {})
    ensures Next(h, v, Arms(Arming(APP, 1))).sup.timers == map[0 := APP, 1 := APP]
  {
    assert map[0 as TimerId := APP][1 := APP] == map[0 as TimerId := APP, 1 := APP];
  }

  lemma ApartStarts(h: Definition -> Hash)
    ensures var s := ArmedApart(h);
            && s.work == NO_WORK.(starts := multiset{START}) && APP in s.apps && s.apps[APP].def == DEF
            && s.apps[APP].approval == Approved && APP !in s.sup.procs && RunsAs(Started(s, 20), 2, 20)
    ensures START.id == APP && Gone(Started(ArmedApart(h), 20), 2, 20).work == NO_WORK.(looked := multiset{Seen(20)})
  {
  }

  /** A run of the agent: the app crashes, and after the crash is counted but before its timer is
      armed a restart command takes the bookkeeping away. The next crash gets a cell of its own,
      and two timers are armed. */
  lemma TwoTimers(h: Definition -> Hash)
    ensures RunFrom(h, INIT, Hurried(h)).sup.timers == map[0 := APP, 1 := APP]
  {
    var a := Install(h) + StartUp(START, 0) + Crash(1, 0, 10);
    var b := [Commanded(APP, Restart, h(DEF)), CommandRuns(Command(APP, Restart), true), StopBegins(HURRY, true)];
    var c, d := [Arms(Arming(APP, 0))], [Arms(Arming(APP, 1))];
    var s := ArmedApart(h);
    var t := Started(s, 20);
    var u := Gone(t, 2, 20);
    var v := u.(sup := Counted(u.sup, APP, 1), work := NO_WORK.(arming := multiset{Arming(APP, 1)}));
    assert Hurried(h) == a + b + c + StartUp(START, 20) + Crash(2, 20, 30) + d;
    hide *;
    FirstCrashes(h);
    UserRestarts(h);
    ArmsApart(h);
    ApartStarts(h);
    Starts(h, s, START, 20);
    CrashRuns(h, t, 2, 20, 30);
    SecondCell(h, u);
    CountIsNext(u, 20, 30);
    SecondTimer(h, v);
    RunJoin(h, INIT, a, b);
    RunJoin(h, INIT, a + b, c);
    RunFromOne(h, Detached(h), Arms(Arming(APP, 0)));
    RunJoin(h, INIT, a + b + c, StartUp(START, 20));
    RunJoin(h, INIT, a + b + c + StartUp(START, 20), Crash(2, 20, 30));
    RunJoin(h, INIT, a + b + c + StartUp(START, 20) + Crash(2, 20, 30), d);
    RunFromOne(h, v, Arms(Arming(APP, 1)));
  }

  // ---- stopped, and resurrected ----

  function Up1(h: Definition -> Hash): State
  {
    Started(Installed(h), 0)
  }

  lemma FirstStart(h: Definition -> Hash)
    ensures RunFrom(h, INIT, Install(h) + StartUp(START, 0)) == Up1(h)
    ensures var apps := map[APP := Listed(h, DEF, Running, 1)];
            Up1(h) == State(apps, apps, [], NO_SUP.(procs := map[APP := 1], startTimes := map[APP := 0]), NO_WORK,
                            Host({1}, {}, map[1 := APP], 2), Installed(h).log.(spawned := [(APP, DEF)]))
  {
    Installs(h);
    Starts(h, Installed(h), START, 0);
    UpIs(h);
    hide RunFrom, Started, Installed, Install, StartUp;
    RunJoin(h, INIT, Install(h), StartUp(START, 0));
  }

  lemma UpIs(h: Definition -> Hash)
    ensures var apps := map[APP := Listed(h, DEF, Running, 1)];
            Up1(h) == State(apps, apps, [], NO_SUP.(procs := map[APP := 1], startTimes := map[APP := 0]), NO_WORK,
                            Host({1}, {}, map[1 := APP], 2), Installed(h).log.(spawned := [(APP, DEF)]))
  {
    assert map[APP := Listed(h, DEF, Running, 0)][APP := Listed(h, DEF, Running, 1)] == map[APP := Listed(h, DEF, Running, 1)];
    assert [] + [(APP, DEF)] == [(APP, DEF)];
    assert {} + {1 as Pid} == {1 as Pid};
  }

  const HALT := StopCall(APP, false)

  /** The hub's stop, whose saves fail, and a second one that finds nothing to save. */
  function StopTwice(h: Definition -> Hash): seq<Event>
  {
    [Commanded(APP, Stop, h(DEF)), CommandRuns(Command(APP, Stop), false), StopBegins(HALT, true)]
    + [StopEnds(Halt(HALT, 1), true, false), Commanded(APP, Stop, h(DEF)), CommandRuns(Command(APP, Stop), true)]
    + [StopBegins(HALT, true), Boot({}, true)]
  }

  /** Stopped in memory, running on disk. */
  function StoppedOnce(h: Definition -> Hash): State
  {
    var disk := map[APP := Listed(h, DEF, Running, 1)];
    State(map[APP := Listed(h, DEF, Stopped, 0)], disk, [], NO_SUP, NO_WORK, Host({}, {}, map[1 := APP], 2),
          Installed(h).log.(spawned := [(APP, DEF)]))
  }

  lemma FirstStop(h: Definition -> Hash)
    ensures RunFrom(h, Up1(h), [Commanded(APP, Stop, h(DEF)), CommandRuns(Command(APP, Stop), false), StopBegins(HALT, true)])
            == Halting(h)
  {
    UpIs(h);
    var s := Up1(h);
    var t := s.(work := NO_WORK.(commands := multiset{Command(APP, Stop)}));
    var u := s.(apps := map[APP := Listed(h, DEF, Stopped, 1)], work := NO_WORK.(stops := multiset{HALT}));
    StopAccepted(h, s, t);
    StopExecuted(h, t, u);
    StopBegun(h, u);
    hide *;
    RunThree(h, s, Commanded(APP, Stop, h(DEF)), CommandRuns(Command(APP, Stop), false), StopBegins(HALT, true));
  }

  function Halting(h: Definition -> Hash): State
  {
    StoppedOnce(h).(apps := map[APP := Listed(h, DEF, Stopped, 1)], work := NO_WORK.(halting := multiset{Halt(HALT, 1)}),
                    host := Host({1}, {}, map[1 := APP], 2))
  }

  lemma StopAccepted(h: Definition -> Hash, s: State, t: State)
    requires APP in s.apps && s.apps[APP].hash == h(DEF) && s.apps[APP].approval == Approved && s.work == NO_WORK
    requires t == s.(work := NO_WORK.(commands := multiset{Command(APP, Stop)}))
    ensures Next(h, s, Commanded(APP, Stop, h(DEF))) == t
  {
    assert multiset{} + multiset{Command(APP, Stop)} == multiset{Command(APP, Stop)};
  }

  lemma StopExecuted(h: Definition -> Hash, t: State, u: State)
    requires t.apps == map[APP := Listed(h, DEF, Running, 1)] && t.work == NO_WORK.(commands := multiset{Command(APP, Stop)})
    requires u == t.(apps := map[APP := Listed(h, DEF, Stopped, 1)], work := NO_WORK.(stops := multiset{HALT}))
    ensures Next(h, t, CommandRuns(Command(APP, Stop), false)) == u
  {
    assert multiset{Command(APP, Stop)} - multiset{Command(APP, Stop)} == multiset{};
    assert multiset{} + multiset{HALT} == multiset{HALT};
    assert t.apps[APP := t.apps[APP].(desired := Stopped)] == u.apps;
  }

  lemma StopBegun(h: Definition -> Hash, u: State)
    requires u == Halting(h).(sup := NO_SUP.(procs := map[APP := 1], startTimes := map[APP := 0]), work := NO_WORK.(stops := multiset{HALT}))
    ensures Next(h, u, StopBegins(HALT, true)) == Halting(h)
  {
    assert multiset{HALT} - multiset{HALT} == multiset{};
    assert multiset{} + multiset{Halt(HALT, 1)} == multiset{Halt(HALT, 1)};
    assert map[APP := 1 as Pid] - {APP} == map[] && map[APP := 0 as int] - {APP} == map[];
  }

  lemma SecondStop(h: Definition -> Hash)
    ensures RunFrom(h, Halting(h), [StopEnds(Halt(HALT, 1), true, false), Commanded(APP, Stop, h(DEF)), CommandRuns(Command(APP, Stop), true)])
            == StoppedOnce(h).(work := NO_WORK.(stops := multiset{HALT}))
  {
    var s := StoppedOnce(h);
    var t := s.(work := NO_WORK.(commands := multiset{Command(APP, Stop)}));
    HaltEnds(h);
    StopAccepted(h, s, t);
    NothingToSave(h, t);
    hide *;
    RunThree(h, Halting(h), StopEnds(Halt(HALT, 1), true, false), Commanded(APP, Stop, h(DEF)), CommandRuns(Command(APP, Stop), true));
  }

  lemma HaltEnds(h: Definition -> Hash)
    ensures Next(h, Halting(h), StopEnds(Halt(HALT, 1), true, false)) == StoppedOnce(h)
  {
    var hl := Halt(HALT, 1);
    assert multiset{hl} - multiset{hl} == multiset{};
    assert {1 as Pid} - {1} == {};
    assert map[APP := Listed(h, DEF, Stopped, 1)][APP := Listed(h, DEF, Stopped, 0)] == map[APP := Listed(h, DEF, Stopped, 0)];
  }

  lemma NothingToSave(h: Definition -> Hash, t: State)
    requires t == StoppedOnce(h).(work := NO_WORK.(commands := multiset{Command(APP, Stop)}))
    ensures Next(h, t, CommandRuns(Command(APP, Stop), true)) == t.(work := NO_WORK.(stops := multiset{HALT}))
  {
    assert multiset{Command(APP, Stop)} - multiset{Command(APP, Stop)} == multiset{};
    assert multiset{} + multiset{HALT} == multiset{HALT};
  }

  /** What the reboot makes of it. */
  function Resurrecting(h: Definition -> Hash): State
  {
    var apps := map[APP := Listed(h, DEF, Running, 0)];
    State(apps, apps, [], NO_SUP, NO_WORK.(starts := multiset{START}), Host({}, {}, map[], 2), Installed(h).log.(spawned := [(APP, DEF)]))
  }

  lemma Reboots(h: Definition -> Hash)
    ensures RunFrom(h, StoppedOnce(h).(work := NO_WORK.(stops := multiset{HALT})), [StopBegins(HALT, true), Boot({}, true)]) == Resurrecting(h)
  {
    var s := StoppedOnce(h).(work := NO_WORK.(stops := multiset{HALT}));
    NothingToStop(h, s);
    RebootIs(h);
    hide *;
    RunTwo(h, s, StopBegins(HALT, true), Boot({}, true));
  }

  lemma NothingToStop(h: Definition -> Hash, s: State)
    requires s == StoppedOnce(h).(work := NO_WORK.(stops := multiset{HALT}))
    ensures Next(h, s, StopBegins(HALT, true)) == StoppedOnce(h)
  {
    assert multiset{HALT} - multiset{HALT} == multiset{};
    assert NO_SUP.procs - {APP} == map[] && NO_SUP.startTimes - {APP} == map[];
  }

  lemma RebootIs(h: Definition -> Hash)
    ensures Next(h, StoppedOnce(h), Boot({}, true)) == Resurrecting(h)
  {
    var s, apps := StoppedOnce(h), map[APP := Listed(h, DEF, Running, 0)];
    assert Reaped(s.disk) == apps;
    assert (set id | id in apps && Wanted(apps, id) :: StartCall(id, false)) == {START};
    assert Orphans(s.disk) * {} == {};
  }

  function AndResurrected(h: Definition -> Hash): seq<Event>
  {
    Install(h) + StartUp(START, 0) + StopTwice(h) + StartUp(START, 50)
  }

  /** A run of the agent: the app runs, an accepted stop is carried out but cannot be saved, a
      second stop finds nothing to save, the agent reboots, and the app runs again. */
  lemma StoppedYetRunning(h: Definition -> Hash)
    ensures var s := RunFrom(h, INIT, Install(h) + StartUp(START, 0) + StopTwice(h)[..|StopTwice(h)| - 1]);
            APP in s.apps && s.apps[APP].desired == Stopped && !Up(s, APP) && s.work == NO_WORK
    ensures Up(RunFrom(h, INIT, AndResurrected(h)), APP)
  {
    hide *;
    var a := [Commanded(APP, Stop, h(DEF)), CommandRuns(Command(APP, Stop), false), StopBegins(HALT, true)];
    var b := [StopEnds(Halt(HALT, 1), true, false), Commanded(APP, Stop, h(DEF)), CommandRuns(Command(APP, Stop), true)];
    var p := Install(h) + StartUp(START, 0);
    StopTwiceIs(h);
    StoppedIs(h);
    HaltedRun(h, p, a, b);
    RebootedRun(h, p, a, b);
    assert p + (a + b + [StopBegins(HALT, true)]) == p + a + b + [StopBegins(HALT, true)];
    assert p + (a + b + [StopBegins(HALT, true), Boot({}, true)]) == p + a + b + [StopBegins(HALT, true), Boot({}, true)];
    Starts(h, Resurrecting(h), START, 50);
    RunJoin(h, INIT, p + StopTwice(h), StartUp(START, 50));
  }

  lemma HaltedRun(h: Definition -> Hash, p: seq<Event>, a: seq<Event>, b: seq<Event>)
    requires p == Install(h) + StartUp(START, 0)
    requires a == [Commanded(APP, Stop, h(DEF)), CommandRuns(Command(APP, Stop), false), StopBegins(HALT, true)]
    requires b == [StopEnds(Halt(HALT, 1), true, false), Commanded(APP, Stop, h(DEF)), CommandRuns(Command(APP, Stop), true)]
    ensures RunFrom(h, INIT, p + a + b) == StoppedOnce(h).(work := NO_WORK.(stops := multiset{HALT}))
    ensures RunFrom(h, INIT, p + a + b + [StopBegins(HALT, true)]) == StoppedOnce(h)
  {
    hide *;
    FirstStart(h);
    FirstStop(h);
    SecondStop(h);
    RunJoin(h, INIT, p, a);
    RunJoin(h, INIT, p + a, b);
    var s := StoppedOnce(h).(work := NO_WORK.(stops := multiset{HALT}));
    NothingToStop(h, s);
    RunJoin(h, INIT, p + a + b, [StopBegins(HALT, true)]);
    RunFromOne(h, s, StopBegins(HALT, true));
  }

  lemma RebootedRun(h: Definition -> Hash, p: seq<Event>, a: seq<Event>, b: seq<Event>)
    requires RunFrom(h, INIT, p + a + b) == StoppedOnce(h).(work := NO_WORK.(stops := multiset{HALT}))
    ensures RunFrom(h, INIT, p + a + b + [StopBegins(HALT, true), Boot({}, true)]) == Resurrecting(h)
  {
    hide *;
    Reboots(h);
    RunJoin(h, INIT, p + a + b, [StopBegins(HALT, true), Boot({}, true)]);
  }

  lemma StopTwiceIs(h: Definition -> Hash)
    ensures var a := [Commanded(APP, Stop, h(DEF)), CommandRuns(Command(APP, Stop), false), StopBegins(HALT, true)];
            var b := [StopEnds(Halt(HALT, 1), true, false), Commanded(APP, Stop, h(DEF)), CommandRuns(Command(APP, Stop), true)];
            && StopTwice(h) == a + b + [StopBegins(HALT, true), Boot({}, true)]
            && StopTwice(h)[..|StopTwice(h)| - 1] == a + b + [StopBegins(HALT, true)]
            && AndResurrected(h) == Install(h) + StartUp(START, 0) + StopTwice(h) + StartUp(START, 50)
  {
    hide Install, StartUp;
  }

  lemma StoppedIs(h: Definition -> Hash)
    ensures var s := StoppedOnce(h); APP in s.apps && s.apps[APP].desired == Stopped && !Up(s, APP) && s.work == NO_WORK
    ensures var s := Resurrecting(h);
            && s.work == NO_WORK.(starts := multiset{START}) && APP in s.apps && s.apps[APP].def == DEF
            && s.apps[APP].approval == Approved && APP !in s.sup.procs && Up(Started(s, 50), APP)
    ensures START.id == APP
  {
  }

  // ---- a container shadowed by a process ----

  function Shadowed(h: Definition -> Hash): State
  {
    var apps := map[APP := Listed(h, CONTAINER, Running, 0)];
    State(apps, apps, [], NO_SUP.(procs := map[APP := 1], startTimes := map[APP := 0]), NO_WORK, Host({1}, {}, map[1 := APP], 2),
          Log({h(DEF)}, [(APP, DEF)], {AppRegister(DEF), ApprovalEvent(APP, Approved, h(DEF)), ApprovalEvent(APP, Approved, h(CONTAINER))}))
  }

  function Shadow(h: Definition -> Hash): seq<Event>
  {
    Install(h) + StartUp(START, 0) + [Sync([Spec(h, CONTAINER)], true), Converge, StartBegins(START, true)]
  }

  lemma ShadowStep(h: Definition -> Hash)
    requires h(DEF) != h(CONTAINER)
    ensures Next(h, Up1(h), Sync([Spec(h, CONTAINER)], true)) == Shadowed(h)
  {
    UpIs(h);
    var s := Up1(h);
    AdoptStep(s, Spec(h, CONTAINER));
    assert s.log.sent + {ApprovalEvent(APP, Approved, h(CONTAINER))} == Shadowed(h).log.sent;
    assert s.apps[APP := Listed(h, CONTAINER, Running, 0)] == Shadowed(h).apps;
    assert Without([], h(CONTAINER)) == [];
    hide ApplyAppSync, Up1;
  }

  lemma ShadowConverges(h: Definition -> Hash)
    ensures var s := Shadowed(h);
            && WantStart(s, APP) && Stray(s, APP) && s.work == NO_WORK
            && Next(h, s, Converge) == s.(work := NO_WORK.(starts := multiset{START}))
            && Next(h, s.(work := NO_WORK.(starts := multiset{START})), StartBegins(START, true)) == s
  {
    ConvergesTo(Shadowed(h));
    assert multiset{START} - multiset{START} == multiset{};
  }

  /** A run of the agent: a running process app becomes a container app. Reconcile starts it, the
      start succeeds at once because a process of that id is alive, and the container stays down,
      as wanted and as startable as before. */
  lemma ShadowedContainer(h: Definition -> Hash)
    requires h(DEF) != h(CONTAINER)
    ensures var s := RunFrom(h, INIT, Shadow(h));
            && s.work == NO_WORK && APP in s.apps && IsDocker(s.apps[APP].def.kind) && s.apps[APP].desired == Running
            && !Up(s, APP) && WantStart(s, APP) && Stray(s, APP)
  {
    FirstStart(h);
    ShadowStep(h);
    ShadowConverges(h);
    ShadowedIs(h);
    hide *;
    var p := Install(h) + StartUp(START, 0);
    var c := [Sync([Spec(h, CONTAINER)], true), Converge, StartBegins(START, true)];
    RunThree(h, Up1(h), Sync([Spec(h, CONTAINER)], true), Converge, StartBegins(START, true));
    RunJoin(h, INIT, p, c);
  }

  lemma ShadowedIs(h: Definition -> Hash)
    ensures var s := Shadowed(h); APP in s.apps && IsDocker(s.apps[APP].def.kind) && s.apps[APP].desired == Running && !Up(s, APP)
    ensures Shadow(h) == Install(h) + StartUp(START, 0) + [Sync([Spec(h, CONTAINER)], true), Converge, StartBegins(START, true)]
  {
    hide Install, StartUp;
  }
}
