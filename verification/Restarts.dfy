/** The crash-restart machine (agent/internal/daemon/restart.go) over whole runs: how many
    restarts a crash loop gets, what renews the budget, how many timers wait, and what giving
    up means. */
module Restarts {

  import opened Wrappers
  import opened Agent
  import opened AgentSteps

  // ---- backoff ----

  lemma {:induction false} Pow2Grows(a: nat, b: nat)
    requires a <= b
    ensures 1 <= Pow2(a) <= Pow2(b)
    decreases b
  {
    if a < b {
      Pow2Grows(a, b - 1);
    } else if a > 0 {
      Pow2Grows(a - 1, a - 1);
    }
  }

  /** The backoff never shrinks, never exceeds the cap, and the shifted nanoseconds fit an
      int64, so the shift cannot wrap. */
  lemma DelayGrows(a: nat, b: nat, cap: int)
    requires 0 < a <= b && 0 < cap
    ensures 0 < Delay(a, cap) <= Delay(b, cap) <= cap
    ensures 1_000_000_000 * Pow2(Min(b - 1, 30)) < 0x8000_0000_0000_0000
  {
    Pow2Grows(Min(a - 1, 30), Min(b - 1, 30));
    Pow2Grows(Min(b - 1, 30), 30);
    Pow2Grows(0, Min(a - 1, 30));
    Pow2Thirty();
  }

  lemma Pow2Thirty()
    ensures Pow2(30) == 0x4000_0000
  {
    assert Pow2(10) == 1024;
    assert Pow2(20) == 1024 * 1024;
  }

  // ---- the invariant ----

  /** Pointers lead to the cells of their apps. */
  predicate CellsOk(u: Sup)
  {
    && (forall id :: id in u.restarts ==> u.restarts[id] in u.cells && u.cells[u.restarts[id]].app == id)
    && (forall r :: r in u.cells ==> r < u.nextRef)
  }

  /** An armed timer belongs to one cell, and restarts the app of that cell. */
  ghost predicate TimersOk(u: Sup)
  {
    && (forall t :: t in u.timers ==> t < u.nextTimer && exists r: Ref :: Holds(u, r, t))
    && (forall r: Ref, t: TimerId :: Holds(u, r, t) ==> t < u.nextTimer && (t in u.timers ==> u.timers[t] == u.cells[r].app))
    && (forall r: Ref, q: Ref, t: TimerId :: Holds(u, r, t) && Holds(u, q, t) ==> r == q)
  }

  predicate Holds(u: Sup, r: Ref, t: TimerId)
  {
    r in u.cells && u.cells[r].timer == Some(t)
  }

  /** A timer still to be armed has its cell, and a cell that never had one is about to get it. */
  predicate ArmingOk(u: Sup, w: Work)
  {
    && (forall a :: a in w.arming ==> a.ref in u.cells && u.cells[a.ref].app == a.id)
    && (forall id :: id in u.restarts && u.restarts[id] in u.cells && u.cells[u.restarts[id]].timer.None? ==>
          Arming(id, u.restarts[id]) in w.arming)
  }

  /** Only exits that concern the policy are counted. */
  predicate LooksOk(w: Work)
  {
    forall l :: l in w.looked ==> l.max > 0
  }

  ghost predicate SupOk(s: State)
  {
    CellsOk(s.sup) && TimersOk(s.sup) && ArmingOk(s.sup, s.work) && LooksOk(s.work)
  }

  /** The fields the invariant speaks of. */
  predicate SameBook(s: State, t: State)
  {
    && s.sup.restarts == t.sup.restarts && s.sup.cells == t.sup.cells && s.sup.timers == t.sup.timers
    && s.sup.nextTimer == t.sup.nextTimer && s.sup.nextRef == t.sup.nextRef && s.work.arming == t.work.arming && s.work.looked == t.work.looked
  }

  /** The events that touch them. */
  predicate Booking(ev: Event)
  {
    ev.StopBegins? || ev.Fires? || ev.Sync? || ev.ExitLooks? || ev.ExitCounts? || ev.Arms? || ev.Boot?
  }

  lemma StartBook(s: State, call: StartCall, dockerOk: bool)
    ensures SameBook(s, BeginStart(s, call, dockerOk))
  {
  }

  lemma StartedBook(s: State, sp: Spawn, ok: bool, now: int, written: bool)
    ensures SameBook(s, FinishStart(s, sp, ok, now, written))
  {
  }

  lemma HaltedBook(s: State, hl: Halt, ok: bool, written: bool)
    ensures SameBook(s, FinishStop(s, hl, ok, written))
  {
  }

  lemma ObservedBook(s: State, p: Pid)
    ensures SameBook(s, ExitObserved(s, p))
  {
  }

  lemma OtherBook(h: Definition -> Hash, s: State, ev: Event)
    requires !Booking(ev)
    ensures SameBook(s, Next(h, s, ev))
  {
    match ev {
      case StartBegins(call, dockerOk) =>
        hide SameBook, BeginStart;
        StartBook(s, call, dockerOk);
      case StartEnds(sp, ok, now, written) =>
        hide SameBook, FinishStart;
        StartedBook(s, sp, ok, now, written);
      case StopEnds(hl, ok, written) =>
        hide SameBook, FinishStop;
        HaltedBook(s, hl, ok, written);
      case Observed(p) =>
        hide SameBook, ExitObserved;
        ObservedBook(s, p);
      case CommandRuns(c, written) =>
        hide Execute;
        CommandKeeps(s, c, written);
      case _ =>
        hide StartsFor, StopsFor, Accepts;
    }
  }

  lemma SameOk(s: State, t: State)
    requires SupOk(s) && SameBook(s, t)
    ensures SupOk(t)
  {
    assert forall r: Ref, x: TimerId :: Holds(s.sup, r, x) <==> Holds(t.sup, r, x);
    hide Holds;
  }

  lemma CancelOk(s: State, stop: StopCall, dockerOk: bool)
    requires SupOk(s)
    ensures SupOk(BeginStop(s, stop, dockerOk))
  {
    if stop in s.work.stops {
      BeginStopBook(s, stop, dockerOk);
      hide BeginStop;
      FewerTimers(s, BeginStop(s, stop, dockerOk));
    }
  }

  lemma BeginStopBook(s: State, stop: StopCall, dockerOk: bool)
    requires stop in s.work.stops
    ensures var t := BeginStop(s, stop, dockerOk);
            SameBook(s.(sup := CancelRestart(s.sup, stop.id)), t)
  {
    hide CancelRestart;
  }

  /** Timers are stopped and pointers forgotten; the cells stay. */
  lemma FewerTimers(s: State, t: State)
    requires SupOk(s)
    requires t.sup.cells == s.sup.cells && t.sup.nextRef == s.sup.nextRef && t.sup.nextTimer == s.sup.nextTimer && t.work.arming == s.work.arming
    requires t.work.looked == s.work.looked
    requires forall id :: id in t.sup.restarts ==> id in s.sup.restarts && t.sup.restarts[id] == s.sup.restarts[id]
    requires forall x :: x in t.sup.timers ==> x in s.sup.timers && t.sup.timers[x] == s.sup.timers[x]
    ensures SupOk(t)
  {
    assert forall r: Ref, x: TimerId :: Holds(s.sup, r, x) <==> Holds(t.sup, r, x);
    hide Holds;
  }

  lemma CountedCells(u: Sup, id: Id, count: nat)
    requires CellsOk(u)
    ensures CellsOk(Counted(u, id, count))
  {
  }

  /** Counting touches no timer. */
  lemma CountedTimers(u: Sup, id: Id, count: nat)
    requires CellsOk(u) && TimersOk(u)
    ensures TimersOk(Counted(u, id, count))
  {
    var v := Counted(u, id, count);
    assert forall r: Ref, x: TimerId :: Holds(u, r, x) <==> Holds(v, r, x);
    assert forall r: Ref, x: TimerId :: Holds(u, r, x) ==> v.cells[r].app == u.cells[r].app;
    hide Holds, Counted;
    CountedKeeps(u, id, count);
    forall t | t in v.timers ensures t < v.nextTimer && exists r: Ref :: Holds(v, r, t) {
      var r: Ref :| Holds(u, r, t);
      assert Holds(v, r, t);
    }
  }

  lemma CountedKeeps(u: Sup, id: Id, count: nat)
    ensures var v := Counted(u, id, count); v.timers == u.timers && v.nextTimer == u.nextTimer
  {
  }

  /** A cell is made by a crash that schedules a restart: the first of at least one allowed. */
  lemma CountedArms(s: State, l: Look, now: int)
    requires CellsOk(s.sup) && ArmingOk(s.sup, s.work) && l in s.work.looked && l.max > 0
    ensures ArmingOk(CountExit(s, l, now).sup, CountExit(s, l, now).work)
  {
    CountIs(s, l, now);
    FirstSchedules(s.sup, l, now);
    var t := CountExit(s, l, now);
    hide CountExit, Schedules, Count;
    ArmingAfter(s.sup, s.work, t.work, l.id, Count(s.sup, l, now), Schedules(s.sup, l, now));
  }

  lemma FirstSchedules(u: Sup, l: Look, now: int)
    requires l.max > 0
    ensures !Known(u, l.id) ==> Schedules(u, l, now)
  {
    hide Healthy;
  }

  lemma ArmingAfter(u: Sup, w: Work, x: Work, id: Id, count: nat, schedules: bool)
    requires CellsOk(u) && ArmingOk(u, w) && (!Known(u, id) ==> schedules)
    requires x.arming == w.arming + (if schedules then multiset{Arming(id, RefOf(u, id))} else multiset{})
    ensures ArmingOk(Counted(u, id, count), x)
  {
    var v := Counted(u, id, count);
    assert v.restarts[id] == RefOf(u, id);
    forall i | i in v.restarts && v.restarts[i] in v.cells && v.cells[v.restarts[i]].timer.None?
      ensures Arming(i, v.restarts[i]) in x.arming
    {
      if i == id {
        if Known(u, id) {
          assert Arming(id, u.restarts[id]) in w.arming;
        }
      } else {
        assert u.restarts[i] == v.restarts[i] && u.cells[u.restarts[i]] == v.cells[v.restarts[i]];
      }
    }
  }

  lemma CountIs(s: State, l: Look, now: int)
    requires l in s.work.looked
    ensures var t := CountExit(s, l, now);
            && t.sup == Counted(s.sup, l.id, Count(s.sup, l, now))
            && t.work.looked == s.work.looked - multiset{l}
            && t.work.arming == s.work.arming + if Schedules(s.sup, l, now) then multiset{Arming(l.id, RefOf(s.sup, l.id))} else multiset{}
  {
    assert s.work.arming + multiset{} == s.work.arming;
    hide Counted, Count;
  }

  lemma CountOk(s: State, l: Look, now: int)
    requires SupOk(s)
    ensures SupOk(CountExit(s, l, now))
  {
    if l in s.work.looked {
      CountIs(s, l, now);
      hide CountExit, Counted, Count, CellsOk, TimersOk, ArmingOk;
      CountedCells(s.sup, l.id, Count(s.sup, l, now));
      CountedTimers(s.sup, l.id, Count(s.sup, l, now));
      CountedArms(s, l, now);
    }
  }

  lemma LookOk(s: State, id: Id)
    requires SupOk(s)
    ensures SupOk(LookExit(s, id))
  {
    if id in s.work.exits {
      LookBook(s, id);
      hide LookExit, Holds, CellsOk, ArmingOk;
      assert forall r: Ref, x: TimerId :: Holds(s.sup, r, x) <==> Holds(LookExit(s, id).sup, r, x) by { SameHolds(s.sup, LookExit(s, id).sup); }
      SameArming(s, LookExit(s, id));
    }
  }

  lemma SameHolds(u: Sup, v: Sup)
    requires u.cells == v.cells
    ensures forall r: Ref, x: TimerId :: Holds(u, r, x) <==> Holds(v, r, x)
  {
  }

  lemma SameArming(s: State, t: State)
    requires t.sup == s.sup.(startTimes := t.sup.startTimes) && t.work.arming == s.work.arming
    ensures CellsOk(s.sup) ==> CellsOk(t.sup)
    ensures ArmingOk(s.sup, s.work) ==> ArmingOk(t.sup, t.work)
  {
  }

  /** Looking at the app changes no bookkeeping. */
  lemma LookBook(s: State, id: Id)
    ensures var t := LookExit(s, id);
            && t.sup == s.sup.(startTimes := t.sup.startTimes) && t.work.arming == s.work.arming
            && forall l :: l in t.work.looked && l !in s.work.looked ==>
                 id in s.work.exits && Crashed(s.apps, id) && l == LookAt(s.apps, s.sup, id) && l.max > 0
  {
    hide PolicyFor, Wanted;
  }

  lemma ArmsOk(s: State, a: Arming)
    requires SupOk(s)
    ensures SupOk(ArmTimer(s, a))
  {
    if a in s.work.arming {
      var u, v := s.sup, ArmTimer(s, a).sup;
      assert forall r: Ref, x: TimerId :: Holds(v, r, x) <==> if r == a.ref then x == u.nextTimer else Holds(u, r, x);
      assert Holds(v, a.ref, u.nextTimer);
      ArmedTimers(s, a);
    }
  }

  lemma ArmedTimers(s: State, a: Arming)
    requires SupOk(s) && a in s.work.arming
    ensures TimersOk(ArmTimer(s, a).sup)
  {
    var u, v := s.sup, ArmTimer(s, a).sup;
    assert forall r: Ref, x: TimerId :: Holds(v, r, x) <==> if r == a.ref then x == u.nextTimer else Holds(u, r, x);
    assert Holds(v, a.ref, u.nextTimer);
    assert u.cells[a.ref].timer.Some? ==> Holds(u, a.ref, u.cells[a.ref].timer.value);
    hide ArmingOk;
    forall t | t in v.timers ensures t < v.nextTimer && exists r: Ref :: Holds(v, r, t) {
      if t != u.nextTimer {
        var r: Ref :| Holds(u, r, t);
        assert Holds(v, r, t);
      }
    }
  }

  lemma ForgetOk(s: State, gone: set<Id>)
    requires SupOk(s)
    ensures SupOk(ForgetAll(s, gone))
  {
    hide TimersOf;
    FewerTimers(s, ForgetAll(s, gone));
  }

  lemma SyncBook(s: State, specs: seq<AppSpec>, written: bool)
    ensures var t := ApplySpecs(s, specs).0;
            && ApplyAppSync(s, specs, written).sup == ForgetAll(t, t.apps.Keys - Ids(specs)).sup
            && ApplyAppSync(s, specs, written).work == s.work && t.sup == s.sup && t.work == s.work
  {
    hide ApplySpecs;
    SpecsKeep(s, specs);
  }

  lemma SyncOk(s: State, specs: seq<AppSpec>, written: bool)
    requires SupOk(s)
    ensures SupOk(ApplyAppSync(s, specs, written))
  {
    SyncBook(s, specs, written);
    hide ApplySpecs, ForgetAll, ApplyAppSync;
    var t := ApplySpecs(s, specs).0;
    SameOk(s, t);
    var u := ForgetAll(t, t.apps.Keys - Ids(specs));
    ForgetOk(t, t.apps.Keys - Ids(specs));
    ForgetWork(t, t.apps.Keys - Ids(specs));
    SameOk(u, ApplyAppSync(s, specs, written));
  }

  lemma ForgetWork(s: State, gone: set<Id>)
    ensures ForgetAll(s, gone).work == s.work
  {
  }

  lemma FiresBook(s: State, t: TimerId)
    ensures SameBook(s.(sup := s.sup.(timers := s.sup.timers - {t})), TimerFires(s, t))
  {
    hide Wanted;
    assert t !in s.sup.timers ==> s.sup.timers - {t} == s.sup.timers;
  }

  lemma FiresOk(s: State, t: TimerId)
    requires SupOk(s)
    ensures SupOk(TimerFires(s, t))
  {
    FiresBook(s, t);
    hide TimerFires, SupOk;
    FewerTimers(s, TimerFires(s, t));
  }

  lemma BootOk(s: State, reaped: set<Pid>, written: bool)
    requires SupOk(s)
    ensures SupOk(Reboot(s, reaped, written))
  {
    hide Reaped, ReapedHost, Wanted;
  }

  lemma StepKeepsSup(h: Definition -> Hash, s: State, ev: Event)
    requires SupOk(s)
    ensures SupOk(Next(h, s, ev))
  {
    match ev {
      case Sync(specs, written) =>
        hide SupOk, ApplyAppSync;
        SyncOk(s, specs, written);
      case StopBegins(stop, dockerOk) =>
        hide SupOk, BeginStop;
        CancelOk(s, stop, dockerOk);
      case Fires(t) =>
        hide SupOk, TimerFires;
        FiresOk(s, t);
      case ExitLooks(id) =>
        hide SupOk, LookExit;
        LookOk(s, id);
      case ExitCounts(l, now) =>
        hide SupOk, CountExit;
        CountOk(s, l, now);
      case Arms(a) =>
        hide SupOk, ArmTimer;
        ArmsOk(s, a);
      case Boot(reaped, written) =>
        hide SupOk, Reboot;
        BootOk(s, reaped, written);
      case _ =>
        hide SupOk, Next;
        OtherBook(h, s, ev);
        SameOk(s, Next(h, s, ev));
    }
  }

  lemma {:induction false} RunKeepsSup(h: Definition -> Hash, s: State, evs: seq<Event>)
    requires SupOk(s)
    ensures SupOk(RunFrom(h, s, evs))
  {
    if evs != [] {
      hide Next, SupOk;
      RunKeepsSup(h, s, evs[..|evs| - 1]);
      StepKeepsSup(h, RunFrom(h, s, evs[..|evs| - 1]), evs[|evs| - 1]);
    }
  }

  // ---- one timer ----

  /** A stop of the app, or a sync dropping it, takes effect: the bookkeeping is taken away. */
  predicate Detaching(s: State, ev: Event, id: Id)
  {
    match ev
    case StopBegins(stop, _) => stop.id == id && stop in s.work.stops
    case Sync(specs, _) => id !in Ids(specs) && id in s.apps
    case _ => false
  }

  /** The cell's timer is armed, or about to be. */
  predicate Live(s: State, r: Ref, id: Id)
  {
    && r in s.sup.cells && s.sup.cells[r].app == id
    && (Armed(s.sup, s.sup.cells[r].timer) || Arming(id, r) in s.work.arming)
  }

  predicate Armed(u: Sup, t: Option<TimerId>)
  {
    t.Some? && t.value in u.timers
  }

  /** Of the cells made for the app, only the one its bookkeeping points at is live. */
  predicate SingleLive(s: State, id: Id)
  {
    forall r :: r in s.sup.cells && Live(s, r, id) ==> id in s.sup.restarts && s.sup.restarts[id] == r
  }

  /** No timer of the app is about to be armed. */
  ghost predicate NoneArming(w: Work, id: Id)
  {
    forall r: Ref :: Arming(id, r) !in w.arming
  }

  /** Nothing becomes live, and the pointer stays. */
  lemma FewerLive(s: State, t: State, id: Id)
    requires SingleLive(s, id)
    requires forall r :: r in t.sup.cells && Live(t, r, id) ==> Live(s, r, id)
    requires id in s.sup.restarts ==> id in t.sup.restarts && t.sup.restarts[id] == s.sup.restarts[id]
    ensures SingleLive(t, id)
  {
    hide Live;
    forall r | r in t.sup.cells && Live(t, r, id) ensures id in t.sup.restarts && t.sup.restarts[id] == r {
      assert Live(s, r, id);
      LiveCell(s, r, id);
    }
  }

  lemma LiveCell(s: State, r: Ref, id: Id)
    requires Live(s, r, id)
    ensures r in s.sup.cells
  {
  }

  lemma BookLive(s: State, t: State, id: Id)
    requires SingleLive(s, id) && t.sup.cells == s.sup.cells && t.work.arming == s.work.arming
    requires forall x :: x in t.sup.timers ==> x in s.sup.timers
    requires id in s.sup.restarts ==> id in t.sup.restarts && t.sup.restarts[id] == s.sup.restarts[id]
    ensures SingleLive(t, id)
  {
    forall r | r in t.sup.cells && Live(t, r, id) ensures Live(s, r, id) {
    }
    hide Live, SingleLive;
    FewerLive(s, t, id);
  }

  lemma SyncLive(s: State, specs: seq<AppSpec>, written: bool, id: Id)
    requires SingleLive(s, id) && (id in Ids(specs) || id !in s.apps)
    ensures SingleLive(ApplyAppSync(s, specs, written), id)
  {
    SyncBook(s, specs, written);
    SpecsKeys(s, specs);
    hide ApplySpecs, ApplyAppSync, SingleLive, TimersOf, Ids;
    BookLive(s, ApplyAppSync(s, specs, written), id);
  }

  lemma StopLive(s: State, stop: StopCall, dockerOk: bool, id: Id)
    requires SingleLive(s, id) && !Detaching(s, StopBegins(stop, dockerOk), id)
    ensures SingleLive(BeginStop(s, stop, dockerOk), id)
  {
    if stop in s.work.stops {
      BeginStopBook(s, stop, dockerOk);
      hide BeginStop, SingleLive, CellOf;
      BookLive(s, BeginStop(s, stop, dockerOk), id);
    } else {
      hide SingleLive;
    }
  }

  lemma CountLive(s: State, l: Look, now: int, id: Id)
    requires CellsOk(s.sup) && SingleLive(s, id)
    ensures SingleLive(CountExit(s, l, now), id)
  {
    if l in s.work.looked {
      CountIs(s, l, now);
      hide CountExit, Count, Schedules;
      CountedLive(s, CountExit(s, l, now), l.id, Count(s.sup, l, now), id);
    }
  }

  lemma LookLive(s: State, i: Id, id: Id)
    requires SingleLive(s, id)
    ensures SingleLive(LookExit(s, i), id)
  {
    LookBook(s, i);
    hide LookExit, SingleLive;
    BookLive(s, LookExit(s, i), id);
  }

  lemma CountedLive(s: State, t: State, i: Id, count: nat, id: Id)
    requires CellsOk(s.sup) && SingleLive(s, id)
    requires t.sup == Counted(s.sup, i, count)
    requires forall a :: a in t.work.arming ==> a in s.work.arming || a == Arming(i, RefOf(s.sup, i))
    ensures SingleLive(t, id)
  {
    forall r | r in t.sup.cells && Live(t, r, id) ensures id in t.sup.restarts && t.sup.restarts[id] == r {
      if r != RefOf(s.sup, i) {
        assert Live(s, r, id);
        assert s.sup.restarts[id] == r;
      }
    }
  }

  lemma ArmsLive(s: State, a: Arming, id: Id)
    requires SupOk(s) && SingleLive(s, id)
    ensures SingleLive(ArmTimer(s, a), id)
  {
    if a in s.work.arming {
      hide CellsOk;
      forall r | r in ArmTimer(s, a).sup.cells && Live(ArmTimer(s, a), r, id) ensures Live(s, r, id) {
        ArmedLive(s, a, r, id);
      }
      hide SupOk, Live, SingleLive;
      FewerLive(s, ArmTimer(s, a), id);
    }
  }

  lemma ArmedLive(s: State, a: Arming, r: Ref, id: Id)
    requires SupOk(s) && a in s.work.arming && Live(ArmTimer(s, a), r, id)
    ensures Live(s, r, id)
  {
    var u := s.sup;
    if r == a.ref {
      assert a == Arming(id, r);
    } else {
      assert u.cells[r].timer.Some? ==> Holds(u, r, u.cells[r].timer.value);
    }
  }

  lemma BootLive(s: State, reaped: set<Pid>, written: bool, id: Id)
    ensures SingleLive(Reboot(s, reaped, written), id)
  {
    hide Reaped, ReapedHost, Resurrected;
  }

  /** Every step but an effective stop or dropping sync of the app. */
  lemma StepKeepsLive(h: Definition -> Hash, s: State, ev: Event, id: Id)
    requires SupOk(s) && SingleLive(s, id) && !Detaching(s, ev, id)
    ensures SingleLive(Next(h, s, ev), id)
  {
    hide SupOk, SingleLive;
    match ev {
      case Sync(specs, written) =>
        hide ApplyAppSync;
        SyncLive(s, specs, written, id);
      case StopBegins(stop, dockerOk) =>
        hide BeginStop;
        StopLive(s, stop, dockerOk, id);
      case Fires(t) =>
        hide TimerFires;
        FiresLive(s, t, id);
      case ExitLooks(i) =>
        hide LookExit;
        LookLive(s, i, id);
      case ExitCounts(l, now) =>
        hide CountExit;
        CellsOfSup(s);
        CountLive(s, l, now, id);
      case Arms(a) =>
        hide ArmTimer;
        ArmsLive(s, a, id);
      case Boot(reaped, written) =>
        hide Reboot;
        BootLive(s, reaped, written, id);
      case _ =>
        hide Next;
        OtherBook(h, s, ev);
        BookLive(s, Next(h, s, ev), id);
    }
  }

  lemma CellsOfSup(s: State)
    requires SupOk(s)
    ensures CellsOk(s.sup)
  {
    hide CellsOk, TimersOk, ArmingOk, LooksOk;
  }

  lemma FiresLive(s: State, t: TimerId, id: Id)
    requires SingleLive(s, id)
    ensures SingleLive(TimerFires(s, t), id)
  {
    FiresBook(s, t);
    hide TimerFires, SingleLive;
    BookLive(s, TimerFires(s, t), id);
  }

  /** What is left of the app after its bookkeeping was taken away. */
  lemma DetachedLive(s: State, t: State, id: Id)
    requires SupOk(s) && SingleLive(s, id)
    requires t.sup.cells == s.sup.cells && t.work.arming == s.work.arming && id !in t.sup.restarts
    requires forall x :: x in t.sup.timers ==> x in s.sup.timers
    requires id in s.sup.restarts ==> !Armed(t.sup, CellOf(s.sup, id).timer)
    ensures SingleLive(t, id) <==> NoneArming(s.work, id)
    ensures forall r :: r in t.sup.cells && t.sup.cells[r].app == id ==> !Armed(t.sup, t.sup.cells[r].timer)
  {
    forall r | r in t.sup.cells && t.sup.cells[r].app == id ensures !Armed(t.sup, t.sup.cells[r].timer) {
      if Armed(t.sup, t.sup.cells[r].timer) {
        assert Live(s, r, id);
      }
    }
    if SingleLive(t, id) {
      forall r: Ref ensures Arming(id, r) !in s.work.arming {
        assert Arming(id, r) in s.work.arming ==> Live(t, r, id);
      }
    }
  }

  lemma DetachFacts(h: Definition -> Hash, s: State, ev: Event, id: Id)
    requires Detaching(s, ev, id)
    ensures var t := Next(h, s, ev);
            && t.sup.cells == s.sup.cells && t.work.arming == s.work.arming && id !in t.sup.restarts
            && (forall x :: x in t.sup.timers ==> x in s.sup.timers)
            && (id in s.sup.restarts ==> !Armed(t.sup, CellOf(s.sup, id).timer))
  {
    match ev {
      case StopBegins(stop, dockerOk) =>
        BeginStopBook(s, stop, dockerOk);
        hide BeginStop, CellOf;
      case Sync(specs, written) =>
        SyncBook(s, specs, written);
        SpecsKeys(s, specs);
        hide ApplySpecs, ApplyAppSync, Ids, CellOf;
        assert id in ApplySpecs(s, specs).0.apps.Keys - Ids(specs);
        if id in s.sup.restarts && CellOf(s.sup, id).timer.Some? {
          assert CellOf(s.sup, id).timer.value in TimersOf(s.sup, ApplySpecs(s, specs).0.apps.Keys - Ids(specs));
        }
    }
  }

  /** An effective stop or dropping sync breaks "one live cell" exactly when a timer of the app is
      about to be armed: counted, but not yet in the cell. */
  lemma DetachKeepsIff(h: Definition -> Hash, s: State, ev: Event, id: Id)
    requires SupOk(s) && SingleLive(s, id) && Detaching(s, ev, id)
    ensures SingleLive(Next(h, s, ev), id) <==> NoneArming(s.work, id)
  {
    DetachFacts(h, s, ev, id);
    hide *;
    DetachedLive(s, Next(h, s, ev), id);
  }

  /** No stop of the app and no sync dropping it takes effect while a timer of it is about to be
      armed. */
  ghost predicate Unhurried(h: Definition -> Hash, evs: seq<Event>, id: Id)
  {
    forall k :: 0 <= k < |evs| && Detaching(RunFrom(h, INIT, evs[..k]), evs[k], id) ==>
      NoneArming(RunFrom(h, INIT, evs[..k]).work, id)
  }

  lemma {:induction false} RunKeepsLive(h: Definition -> Hash, evs: seq<Event>, id: Id)
    requires Unhurried(h, evs, id)
    ensures SupOk(RunFrom(h, INIT, evs)) && SingleLive(RunFrom(h, INIT, evs), id)
  {
    InitSup();
    RunKeepsSup(h, INIT, evs);
    if evs != [] {
      var n := |evs| - 1;
      var front := evs[..n];
      forall k | 0 <= k < n ensures front[..k] == evs[..k] && front[k] == evs[k] {
      }
      hide RunFrom, Detaching, NoneArming;
      assert Unhurried(h, front, id);
      RunKeepsLive(h, front, id);
      LastStep(h, evs);
      hide *;
      var s := RunFrom(h, INIT, front);
      if Detaching(s, evs[n], id) {
        AtLast(h, evs, id);
        DetachKeepsIff(h, s, evs[n], id);
      } else {
        StepKeepsLive(h, s, evs[n], id);
      }
    }
  }

  lemma LastStep(h: Definition -> Hash, evs: seq<Event>)
    requires evs != []
    ensures RunFrom(h, INIT, evs) == Next(h, RunFrom(h, INIT, evs[..|evs| - 1]), evs[|evs| - 1])
  {
    hide Next;
  }

  lemma AtLast(h: Definition -> Hash, evs: seq<Event>, id: Id)
    requires evs != [] && Unhurried(h, evs, id) && Detaching(RunFrom(h, INIT, evs[..|evs| - 1]), evs[|evs| - 1], id)
    ensures NoneArming(RunFrom(h, INIT, evs[..|evs| - 1]).work, id)
  {
    hide RunFrom, Detaching, NoneArming;
  }

  lemma InitSup()
    ensures SupOk(INIT) && forall id :: SingleLive(INIT, id)
  {
  }

  /** At most one timer of the app is armed at any time, whatever crashes, fails, is commanded or
      reboots, in every run in which no stop and no dropping sync comes between counting a crash
      of the app and arming its timer. */
  lemma OneTimer(h: Definition -> Hash, evs: seq<Event>, id: Id)
    requires Unhurried(h, evs, id)
    ensures var u := RunFrom(h, INIT, evs).sup;
            forall t, v :: t in u.timers && v in u.timers && u.timers[t] == id && u.timers[v] == id ==> t == v
  {
    hide *;
    RunKeepsLive(h, evs, id);
    SingleTimer(RunFrom(h, INIT, evs), id);
  }

  lemma SingleTimer(s: State, id: Id)
    requires SupOk(s) && SingleLive(s, id)
    ensures forall t, v :: t in s.sup.timers && v in s.sup.timers && s.sup.timers[t] == id && s.sup.timers[v] == id ==> t == v
  {
    hide ArmingOk, CellsOk;
    var u := s.sup;
    forall t, v | t in u.timers && v in u.timers && u.timers[t] == id && u.timers[v] == id ensures t == v {
      var r: Ref :| Holds(u, r, t);
      var q: Ref :| Holds(u, q, v);
      assert Live(s, r, id) && Live(s, q, id);
    }
  }

  /** After such a run every stop of the app, and every sync dropping it, leaves none of its timers
      armed, also when one is about to be. */
  lemma StopEndsTimers(h: Definition -> Hash, evs: seq<Event>, ev: Event, id: Id)
    requires Unhurried(h, evs, id) && Detaching(RunFrom(h, INIT, evs), ev, id)
    ensures var u := Next(h, RunFrom(h, INIT, evs), ev).sup;
            id !in u.restarts && forall t :: t in u.timers ==> u.timers[t] != id
  {
    hide *;
    var s := RunFrom(h, INIT, evs);
    RunKeepsLive(h, evs, id);
    DetachFacts(h, s, ev, id);
    DetachedLive(s, Next(h, s, ev), id);
    StepKeepsSup(h, s, ev);
    NoCellNoTimer(Next(h, s, ev), id);
  }

  lemma NoCellNoTimer(s: State, id: Id)
    requires SupOk(s)
    requires forall r :: r in s.sup.cells && s.sup.cells[r].app == id ==> !Armed(s.sup, s.sup.cells[r].timer)
    ensures forall t :: t in s.sup.timers ==> s.sup.timers[t] != id
  {
    hide ArmingOk, CellsOk;
    forall t | t in s.sup.timers ensures s.sup.timers[t] != id {
      var r: Ref :| Holds(s.sup, r, t);
    }
  }

  // ---- the budget ----

  /** The step counts a crash of the app. */
  predicate CountsAt(s: State, ev: Event, id: Id)
  {
    ev.ExitCounts? && ev.look.id == id && ev.look in s.work.looked
  }

  /** ... after a run that was long enough. */
  predicate HealthyAt(s: State, ev: Event, id: Id)
  {
    CountsAt(s, ev, id) && Healthy(ev.look, ev.now)
  }

  /** ... and schedules a restart. */
  predicate SchedulesAt(s: State, ev: Event, id: Id)
  {
    CountsAt(s, ev, id) && Schedules(s.sup, ev.look, ev.now)
  }

  /** The events that renew the budget: a stop of the app, a sync that drops it, a reboot. */
  predicate Renews(s: State, ev: Event, id: Id)
  {
    Detaching(s, ev, id) || ev.Boot?
  }

  /** Restarts of the app scheduled in the run since its last healthy exit. */
  function Scheduled(h: Definition -> Hash, s: State, evs: seq<Event>, id: Id): nat
  {
    if evs == [] then 0
    else
      var n := |evs| - 1;
      var t := RunFrom(h, s, evs[..n]);
      (if HealthyAt(t, evs[n], id) then 0 else Scheduled(h, s, evs[..n], id)) + if SchedulesAt(t, evs[n], id) then 1 else 0
  }

  /** Renewals in the run since the app's last healthy exit. */
  function Renewals(h: Definition -> Hash, s: State, evs: seq<Event>, id: Id): nat
  {
    if evs == [] then 0
    else
      var n := |evs| - 1;
      if HealthyAt(RunFrom(h, s, evs[..n]), evs[n], id) then 0
      else Renewals(h, s, evs[..n], id) + if Renews(RunFrom(h, s, evs[..n]), evs[n], id) then 1 else 0
  }

  predicate PolicyAtMost(apps: Apps, id: Id, max: int)
  {
    id in apps ==> PolicyFor(apps[id].def).0 <= max
  }

  function CountNow(s: State, id: Id): nat
  {
    CellOf(s.sup, id).count
  }

  lemma SyncCount(s: State, specs: seq<AppSpec>, written: bool, id: Id)
    requires SupOk(s)
    ensures var t := ApplyAppSync(s, specs, written);
            CountNow(t, id) == CountNow(s, id) || (CountNow(t, id) == 0 && id !in Ids(specs) && id in s.apps)
  {
    SyncBook(s, specs, written);
    SpecsKeys(s, specs);
    hide ApplySpecs, ApplyAppSync, TimersOk, ArmingOk, TimersOf;
  }

  lemma StopCount(s: State, stop: StopCall, dockerOk: bool, id: Id)
    requires SupOk(s)
    ensures var t := BeginStop(s, stop, dockerOk);
            CountNow(t, id) == CountNow(s, id) || (CountNow(t, id) == 0 && stop.id == id && stop in s.work.stops)
  {
    if stop in s.work.stops {
      BeginStopBook(s, stop, dockerOk);
      hide BeginStop, TimersOk, ArmingOk;
    }
  }

  lemma CountCount(s: State, l: Look, now: int, id: Id)
    requires CellsOk(s.sup)
    ensures var t := CountExit(s, l, now);
            if CountsAt(s, ExitCounts(l, now), id) then CountNow(t, id) == Count(s.sup, l, now)
            else CountNow(t, id) == CountNow(s, id)
  {
    if l in s.work.looked {
      CountIs(s, l, now);
      hide CountExit, Healthy;
    }
  }

  lemma LookCount(s: State, i: Id, id: Id)
    ensures CountNow(LookExit(s, i), id) == CountNow(s, id)
  {
    LookBook(s, i);
    hide LookExit;
  }

  lemma ArmsCount(s: State, a: Arming, id: Id)
    ensures CountNow(ArmTimer(s, a), id) == CountNow(s, id)
  {
  }

  lemma FiresCount(s: State, t: TimerId, id: Id)
    ensures CountNow(TimerFires(s, t), id) == CountNow(s, id)
  {
    FiresBook(s, t);
    hide TimerFires;
  }

  /** The crash count of an app changes by its counted crashes and by renewals only. */
  lemma CountStep(h: Definition -> Hash, s: State, ev: Event, id: Id)
    requires SupOk(s)
    ensures var t := Next(h, s, ev);
            if CountsAt(s, ev, id) then CountNow(t, id) == Count(s.sup, ev.look, ev.now)
            else CountNow(t, id) == CountNow(s, id) || (CountNow(t, id) == 0 && Renews(s, ev, id))
  {
    match ev {
      case Sync(specs, written) =>
        hide SupOk, ApplyAppSync, CountNow;
        SyncCount(s, specs, written, id);
      case StopBegins(stop, dockerOk) =>
        hide SupOk, BeginStop, CountNow;
        StopCount(s, stop, dockerOk, id);
      case Fires(t) =>
        hide SupOk, CountNow, TimerFires;
        FiresCount(s, t, id);
      case ExitLooks(i) =>
        hide SupOk, CountNow, LookExit;
        LookCount(s, i, id);
      case ExitCounts(l, now) =>
        hide TimersOk, ArmingOk, CellsOk, CountNow, CountExit, CountsAt, Count;
        CountCount(s, l, now, id);
        CountsDefined(s, ev, id);
      case Arms(a) =>
        hide SupOk, CountNow, ArmTimer;
        ArmsCount(s, a, id);
      case Boot(_, _) =>
        hide SupOk, Reaped, ReapedHost, Resurrected;
      case _ =>
        hide Next, SupOk;
        OtherBook(h, s, ev);
    }
  }

  lemma CountsDefined(s: State, ev: Event, id: Id)
    ensures CountsAt(s, ev, id) ==> ev.ExitCounts? && ev.look.id == id
  {
  }

  lemma OneMoreTimes(max: nat, r: nat)
    ensures max * (r + 1) == max * r + max
  {
  }

  /** One event more. */
  lemma RunMore(h: Definition -> Hash, s: State, evs: seq<Event>, id: Id)
    requires evs != []
    ensures var n := |evs| - 1;
            var t := RunFrom(h, s, evs[..n]);
            && RunFrom(h, s, evs) == Next(h, t, evs[n])
            && Scheduled(h, s, evs, id) == (if HealthyAt(t, evs[n], id) then 0 else Scheduled(h, s, evs[..n], id)) + (if SchedulesAt(t, evs[n], id) then 1 else 0)
            && Renewals(h, s, evs, id) == (if HealthyAt(t, evs[n], id) then 0 else Renewals(h, s, evs[..n], id) + if Renews(t, evs[n], id) then 1 else 0)
            && Crashes(h, s, evs, id) == Crashes(h, s, evs[..n], id) + if CountsAt(t, evs[n], id) then 1 else 0
  {
    hide Next, HealthyAt, SchedulesAt, CountsAt, Renews;
  }

  lemma RunNone(h: Definition -> Hash, s: State, id: Id)
    ensures RunFrom(h, s, []) == s && Scheduled(h, s, [], id) == 0 && Renewals(h, s, [], id) == 0 && Crashes(h, s, [], id) == 0
  {
  }

  /** The policies of crashes still to be counted. */
  predicate LooksAtMost(w: Work, id: Id, max: int)
  {
    forall l :: l in w.looked && l.id == id ==> l.max <= max
  }

  lemma LooksStep(h: Definition -> Hash, s: State, ev: Event, id: Id, max: int)
    requires LooksAtMost(s.work, id, max) && PolicyAtMost(s.apps, id, max)
    ensures LooksAtMost(Next(h, s, ev).work, id, max)
  {
    hide Next, PolicyFor, Schedules, MayStart, MayStop, MayExit, Accepts;
    StepWork(h, s, ev);
  }

  /** The bound, with the part of the current window that is used up. */
  lemma {:induction false} BudgetUsed(h: Definition -> Hash, s: State, evs: seq<Event>, id: Id, max: nat)
    requires SupOk(s) && LooksAtMost(s.work, id, max)
    requires forall k :: 0 <= k <= |evs| ==> PolicyAtMost(RunFrom(h, s, evs[..k]).apps, id, max)
    ensures Scheduled(h, s, evs, id) <= max * Renewals(h, s, evs, id) + Min(CountNow(RunFrom(h, s, evs), id), max)
    ensures LooksAtMost(RunFrom(h, s, evs).work, id, max)
  {
    hide *;
    if evs == [] {
      RunNone(h, s, id);
      assert Min(CountNow(s, id), max) >= 0 by { MinPositive(CountNow(s, id), max); }
    } else {
      var n := |evs| - 1;
      var front, ev := evs[..n], evs[n];
      var t := RunFrom(h, s, front);
      forall k | 0 <= k <= n ensures PolicyAtMost(RunFrom(h, s, front[..k]).apps, id, max) {
        assert front[..k] == evs[..k];
      }
      assert evs[..n] == front && PolicyAtMost(t.apps, id, max);
      BudgetUsed(h, s, front, id, max);
      RunKeepsSup(h, s, front);
      RunMore(h, s, evs, id);
      CountStep(h, t, ev, id);
      CountsDefined(t, ev, id);
      CountsWithin(t, ev, id, max);
      LooksStep(h, t, ev, id, max);
      BudgetStep(max, Renewals(h, s, front, id), Scheduled(h, s, front, id), CountNow(t, id), CountNow(Next(h, t, ev), id),
                 CountsAt(t, ev, id), HealthyAt(t, ev, id), SchedulesAt(t, ev, id), Renews(t, ev, id));
    }
  }

  lemma MinPositive(a: nat, b: nat)
    ensures Min(a, b) >= 0
  {
  }

  /** What one counted crash does to the budget. */
  lemma CountsWithin(t: State, ev: Event, id: Id, max: nat)
    requires LooksAtMost(t.work, id, max)
    ensures HealthyAt(t, ev, id) || SchedulesAt(t, ev, id) ==> CountsAt(t, ev, id)
    ensures CountsAt(t, ev, id) ==> Count(t.sup, ev.look, ev.now) == (if HealthyAt(t, ev, id) then 0 else CountNow(t, id)) + 1
    ensures CountsAt(t, ev, id) ==> !Renews(t, ev, id)
    ensures SchedulesAt(t, ev, id) ==> Count(t.sup, ev.look, ev.now) <= max
  {
    hide Healthy, CellOf;
  }

  lemma BudgetStep(max: nat, r: nat, scheduled: nat, before: nat, after: nat, counts: bool, healthy: bool, schedules: bool, renews: bool)
    requires scheduled <= max * r + Min(before, max)
    requires (healthy || schedules ==> counts) && (counts ==> !renews)
    requires if counts then after == (if healthy then 0 else before) + 1 else after == before || (after == 0 && renews)
    requires schedules ==> after <= max
    ensures (if healthy then 0 else scheduled) + (if schedules then 1 else 0)
            <= max * (if healthy then 0 else r + if renews then 1 else 0) + Min(after, max)
  {
    OneMoreTimes(max, r);
  }

  /** The crash-loop budget: over any run, at most `max` restarts of an app are scheduled since its
      last healthy exit, plus `max` more for each stop of it, sync dropping it or reboot since
      then, if its definition never allows more. */
  lemma CrashLoopBudget(h: Definition -> Hash, evs: seq<Event>, id: Id, max: nat)
    requires forall k :: 0 <= k <= |evs| ==> PolicyAtMost(RunFrom(h, INIT, evs[..k]).apps, id, max)
    ensures Scheduled(h, INIT, evs, id) <= max * (1 + Renewals(h, INIT, evs, id))
  {
    InitSup();
    hide PolicyAtMost, Scheduled, Renewals, RunFrom;
    BudgetUsed(h, INIT, evs, id, max);
    OneMoreTimes(max, Renewals(h, INIT, evs, id));
  }

  /** Crashes of the app counted in the run. */
  function Crashes(h: Definition -> Hash, s: State, evs: seq<Event>, id: Id): nat
  {
    if evs == [] then 0
    else
      var n := |evs| - 1;
      Crashes(h, s, evs[..n], id) + if CountsAt(RunFrom(h, s, evs[..n]), evs[n], id) then 1 else 0
  }

  /** Nothing renews the budget, no run of the app was healthy, and its policy is always max. */
  ghost predicate CrashLoop(h: Definition -> Hash, s: State, evs: seq<Event>, id: Id, max: nat)
  {
    forall k :: 0 <= k < |evs| ==> LoopStep(RunFrom(h, s, evs[..k]), evs[k], id, max)
  }

  predicate LoopStep(s: State, ev: Event, id: Id, max: nat)
  {
    !Renews(s, ev, id) && !HealthyAt(s, ev, id) && (CountsAt(s, ev, id) ==> ev.look.max == max)
  }

  /** A crash loop ends, exactly: of n crashes in such a run of the whole agent the first are
      followed by a scheduled restart until max_restarts have been, the rest by none. */
  lemma {:induction false} CrashLoopEnds(h: Definition -> Hash, s: State, evs: seq<Event>, id: Id, max: nat)
    requires SupOk(s) && CrashLoop(h, s, evs, id, max)
    ensures var before, n := CountNow(s, id), Crashes(h, s, evs, id);
            && CountNow(RunFrom(h, s, evs), id) == before + n
            && Scheduled(h, s, evs, id) == Min(before + n, max) - Min(before, max)
  {
    hide RunFrom, Next, SupOk, CountNow, Scheduled, Renewals, Crashes, LoopStep, Count, CountsAt, HealthyAt, SchedulesAt, Renews;
    if evs == [] {
      RunNone(h, s, id);
    } else {
      var n := |evs| - 1;
      var front, ev := evs[..n], evs[n];
      var t := RunFrom(h, s, front);
      assert LoopStep(t, ev, id, max);
      forall k | 0 <= k < n ensures LoopStep(RunFrom(h, s, front[..k]), front[k], id, max) {
        assert front[..k] == evs[..k] && LoopStep(RunFrom(h, s, evs[..k]), evs[k], id, max);
      }
      CrashLoopEnds(h, s, front, id, max);
      RunKeepsSup(h, s, front);
      RunMore(h, s, evs, id);
      CountStep(h, t, ev, id);
      LoopCounts(t, ev, id, max);
    }
  }

  lemma LoopCounts(t: State, ev: Event, id: Id, max: nat)
    requires LoopStep(t, ev, id, max)
    ensures !HealthyAt(t, ev, id) && !Renews(t, ev, id)
    ensures CountsAt(t, ev, id) ==>
              ev.ExitCounts? && Count(t.sup, ev.look, ev.now) == CountNow(t, id) + 1
              && (SchedulesAt(t, ev, id) <==> CountNow(t, id) + 1 <= max)
    ensures !CountsAt(t, ev, id) ==> !SchedulesAt(t, ev, id)
  {
    hide Healthy, CellOf;
  }

  /** A healthy exit starts the count afresh, whatever came before. */
  lemma HealthyExitForgives(h: Definition -> Hash, s: State, ev: Event, id: Id)
    requires SupOk(s) && HealthyAt(s, ev, id)
    ensures CountNow(Next(h, s, ev), id) == 1 && SchedulesAt(s, ev, id)
  {
    CountStep(h, s, ev, id);
    hide Next;
  }
}
