/** The agent daemon: applications it was told about, processes it supervises, crash
    restarts, and the operations of the hub, the host's CLI and the clock
    (agent/internal/daemon/{daemon,apps,restart,loops}.go).

    One function is one step: a section of code that runs under the daemon's mutex, or a few
    such sections with nothing but sends between them. Everything that can be overtaken is
    split: a command is accepted, then persisted; startApp is queued, then checked, then
    recorded once the process exists; stopApp is queued, then takes the process away, then
    finishes when it is dead; an exit is observed, then the app looked at, then the crash counted,
    then a restart timer armed. */
module Agent {

  import opened Wrappers

  type Id = string
  type Hash = string
  type Pid = nat
  type TimerId = nat

  datatype Kind = Unset | Process | Docker | Compose
  datatype Approval = Pending | Approved | Rejected
  datatype Desired = Running | Stopped
  datatype Verb = Start | Stop | Restart | Other

  datatype RestartPolicy = RestartPolicy(maxRestarts: int, minUptimeS: int, backoffMaxS: int)

  /** `rest` stands for the fields nothing here looks at. */
  datatype Definition = Definition(schema: nat, name: string, kind: Kind, cmd: string, cwd: string, policy: Option<RestartPolicy>, rest: string)

  datatype AppSpec = AppSpec(id: Id, def: Definition, hash: Hash, desired: Desired, tracking: string)

  datatype App = App(def: Definition, hash: Hash, approval: Approval, desired: Desired, tracking: string, lastPid: nat)

  /** What a *restartState points to: cells outlive their entry in `restarts` while a call still
      holds the pointer. `app` is the app a cell was made for. */
  datatype RestartState = RestartState(app: Id, count: nat, timer: Option<TimerId>)

  type Ref = nat

  /** A handleUnexpectedExit call that has looked at the app and not counted the crash yet: when
      the run began, and what the policy was. */
  datatype Look = Look(id: Id, started: Option<int>, max: int, uptime: int)

  /** ... that has counted the crash and not armed the timer yet. */
  datatype Arming = Arming(id: Id, ref: Ref)

  /** A startApp call that has not begun; only the crash timer reacts to its failure. */
  datatype StartCall = StartCall(id: Id, fromTimer: bool)

  /** A startApp call between its checks and recording the process. */
  datatype Spawn = Spawn(call: StartCall, def: Definition)

  /** A stopApp call that has not begun; a restart command starts the app once it succeeds. */
  datatype StopCall = StopCall(id: Id, thenStart: bool)

  /** A stopApp call waiting for the process to die. */
  datatype Halt = Halt(call: StopCall, pid: Pid)

  /** An accepted command that has not begun. */
  datatype Command = Command(id: Id, verb: Verb)

  datatype Message =
    | ApprovalEvent(id: Id, approval: Approval, hash: Hash)
    | AppRegister(def: Definition)

  type Apps = map<Id, App>

  /** Supervision: what runs, and crash-restart bookkeeping. */
  datatype Sup = Sup(
    procs: map<Id, Pid>,
    startTimes: map<Id, int>,
    restarts: map<Id, Ref>,
    cells: map<Ref, RestartState>,
    timers: map<TimerId, Id>,        // armed timers
    nextRef: Ref,
    nextTimer: TimerId,
    dockerUp: set<Id>)

  /** Calls under way. */
  datatype Work = Work(
    starts: multiset<StartCall>,
    spawning: multiset<Spawn>,
    stops: multiset<StopCall>,
    halting: multiset<Halt>,
    commands: multiset<Command>,
    exits: multiset<Id>,             // handleUnexpectedExit calls that have not begun
    looked: multiset<Look>,
    arming: multiset<Arming>)

  datatype Host = Host(
    alive: set<Pid>,                 // process trees
    done: set<Pid>,                  // whose root has exited
    watchers: map<Pid, Id>,          // exit watchers
    nextPid: Pid)

  /** History. */
  datatype Log = Log(
    approved: set<Hash>,             // hashes imported or approved on this host
    spawned: seq<(Id, Definition)>,  // processes started
    sent: set<Message>)              // messages to the hub

  datatype State = State(
    apps: Apps,                      // state.Apps
    disk: Apps,                      // state.json
    preApproved: seq<Hash>,
    sup: Sup,
    work: Work,
    host: Host,
    log: Log)

  const NO_SUP := Sup(map[], map[], map[], map[], map[], 0, 0, {})
  const NO_WORK := Work(multiset{}, multiset{}, multiset{}, multiset{}, multiset{}, multiset{}, multiset{}, multiset{})

  const INIT := State(map[], map[], [], NO_SUP, NO_WORK, Host({}, {}, map[], 1), Log({}, [], {}))

  predicate IsDocker(k: Kind) { k == Docker || k == Compose }

  predicate Wanted(apps: Apps, id: Id)
  {
    id in apps && apps[id].desired == Running && apps[id].approval == Approved
  }

  function Save(s: State, written: bool): State
  {
    if written then s.(disk := s.apps) else s
  }

  // ---- restart policy ----

  /** (max restarts, minimal uptime, backoff cap), times in milliseconds. */
  function PolicyFor(def: Definition): (int, int, int)
  {
    match def.policy
    case None => (15, 1000, 60_000)
    case Some(p) =>
      (p.maxRestarts,
       if p.minUptimeS > 0 then p.minUptimeS * 1000 else 1000,
       if p.backoffMaxS > 0 then p.backoffMaxS * 1000 else 60_000)
  }

  function Pow2(n: nat): nat { if n == 0 then 1 else 2 * Pow2(n - 1) }

  function Min(a: int, b: int): int { if a < b then a else b }

  /** Backoff before the given attempt. */
  function Delay(count: nat, cap: int): int
    requires count > 0
  {
    var d := 1000 * Pow2(Min(count - 1, 30));
    if d > cap || d <= 0 then cap else d
  }

  function StopTimer(timers: map<TimerId, Id>, t: Option<TimerId>): map<TimerId, Id>
  {
    if t.Some? then timers - {t.value} else timers
  }

  predicate Known(u: Sup, id: Id)
  {
    id in u.restarts && u.restarts[id] in u.cells
  }

  /** The bookkeeping of an app; a fresh one if it has none. */
  function CellOf(u: Sup, id: Id): RestartState
  {
    if Known(u, id) then u.cells[u.restarts[id]] else RestartState(id, 0, None)
  }

  function CancelRestart(u: Sup, id: Id): Sup
  {
    if id in u.restarts then u.(timers := StopTimer(u.timers, CellOf(u, id).timer), restarts := u.restarts - {id})
    else u
  }

  function RefOf(u: Sup, id: Id): Ref
  {
    if Known(u, id) then u.restarts[id] else u.nextRef
  }

  /** The exit of this app concerns the crash-restart policy. */
  predicate Crashed(apps: Apps, id: Id)
  {
    Wanted(apps, id) && PolicyFor(apps[id].def).0 > 0
  }

  function LookAt(apps: Apps, u: Sup, id: Id): Look
    requires id in apps
  {
    var p := PolicyFor(apps[id].def);
    Look(id, if id in u.startTimes then Some(u.startTimes[id]) else None, p.0, p.1)
  }

  /** handleUnexpectedExit up to where it first leaves the mutex: it has seen the app and knows its
      policy, or the exit is nothing but reported. */
  function LookExit(s: State, id: Id): State
  {
    if id !in s.work.exits then s
    else
      var w := s.work.(exits := s.work.exits - multiset{id});
      s.(sup := s.sup.(startTimes := s.sup.startTimes - {id}),
         work := if Crashed(s.apps, id) then w.(looked := w.looked + multiset{LookAt(s.apps, s.sup, id)}) else w)
  }

  /** Whether the run that ended lasted long enough. */
  predicate Healthy(l: Look, now: int)
  {
    l.started.Some? && now - l.started.value >= l.uptime
  }

  /** The crash count after an exit. */
  function Count(u: Sup, l: Look, now: int): nat
  {
    (if Healthy(l, now) then 0 else CellOf(u, l.id).count) + 1
  }

  /** The crash is counted, in a new cell if the app has none. */
  function Counted(u: Sup, id: Id, count: nat): Sup
  {
    u.(cells := u.cells[RefOf(u, id) := CellOf(u, id).(count := count)],
       restarts := u.restarts[id := RefOf(u, id)],
       nextRef := if Known(u, id) then u.nextRef else u.nextRef + 1)
  }

  /** The crash is within its budget. */
  predicate Schedules(u: Sup, l: Look, now: int)
  {
    Count(u, l, now) <= l.max
  }

  /** ... up to where it leaves the mutex again, to report: a restart to be scheduled, or given up. */
  function CountExit(s: State, l: Look, now: int): State
  {
    if l !in s.work.looked then s
    else
      var w := s.work.(looked := s.work.looked - multiset{l});
      s.(sup := Counted(s.sup, l.id, Count(s.sup, l, now)),
         work := if Schedules(s.sup, l, now) then w.(arming := w.arming + multiset{Arming(l.id, RefOf(s.sup, l.id))}) else w)
  }

  /** The rest of it: the timer of the cell is replaced, whatever became of the cell. */
  function ArmTimer(s: State, a: Arming): State
  {
    if a !in s.work.arming || a.ref !in s.sup.cells then s
    else
      var u, cell := s.sup, s.sup.cells[a.ref];
      s.(sup := u.(timers := StopTimer(u.timers, cell.timer)[u.nextTimer := a.id],
                   cells := u.cells[a.ref := cell.(timer := Some(u.nextTimer))],
                   nextTimer := u.nextTimer + 1),
         work := s.work.(arming := s.work.arming - multiset{a}))
  }

  // ---- starting and stopping ----

  function QueueStart(s: State, call: StartCall): State
  {
    s.(work := s.work.(starts := s.work.starts + multiset{call}))
  }

  function QueueStop(s: State, call: StopCall): State
  {
    s.(work := s.work.(stops := s.work.stops + multiset{call}))
  }

  predicate Up(s: State, id: Id)
  {
    id in s.apps &&
    if IsDocker(s.apps[id].def.kind) then id in s.sup.dockerUp
    else id in s.sup.procs && s.sup.procs[id] in s.host.alive
  }

  function QueueExit(s: State, id: Id): State
  {
    s.(work := s.work.(exits := s.work.exits + multiset{id}))
  }

  function StartFailed(s: State, call: StartCall): State
  {
    if call.fromTimer then QueueExit(s, call.id) else s
  }

  function SetDocker(s: State, id: Id, up: bool): State
  {
    s.(sup := s.sup.(dockerUp := if up then s.sup.dockerUp + {id} else s.sup.dockerUp - {id}))
  }

  /** startApp up to where it leaves the mutex to spawn. */
  function BeginStart(s: State, call: StartCall, dockerOk: bool): State
  {
    if call !in s.work.starts then s
    else
      var t := s.(work := s.work.(starts := s.work.starts - multiset{call}));
      var id := call.id;
      if id !in s.apps then StartFailed(t, call)
      else if id in s.sup.procs && s.sup.procs[id] in s.host.alive then t
      else if s.apps[id].approval != Approved then StartFailed(t, call)
      else if IsDocker(s.apps[id].def.kind) then
        if dockerOk then SetDocker(t, id, true) else StartFailed(t, call)
      else t.(work := t.work.(spawning := t.work.spawning + multiset{Spawn(call, s.apps[id].def)}))
  }

  function SetLastPid(s: State, id: Id, pid: nat, written: bool): State
    requires id in s.apps
  {
    Save(s.(apps := s.apps[id := s.apps[id].(lastPid := pid)]), written)
  }

  /** The new process is the app's current one, and watched. */
  function Recorded(s: State, id: Id, def: Definition, now: int): State
  {
    var p := s.host.nextPid;
    s.(sup := s.sup.(procs := s.sup.procs[id := p], startTimes := s.sup.startTimes[id := now]),
       host := s.host.(nextPid := p + 1, alive := s.host.alive + {p}, watchers := s.host.watchers[p := id]),
       log := s.log.(spawned := s.log.spawned + [(id, def)]))
  }

  /** The rest of startApp, once StartProc has returned. */
  function FinishStart(s: State, sp: Spawn, ok: bool, now: int, written: bool): State
  {
    if sp !in s.work.spawning then s
    else
      var t := s.(work := s.work.(spawning := s.work.spawning - multiset{sp}));
      var id := sp.call.id;
      if !ok then StartFailed(t, sp.call)
      else
        var v := Recorded(t, id, sp.def, now);
        if id in s.apps then SetLastPid(v, id, s.host.nextPid, written) else v
  }

  /** stopApp has succeeded. */
  function StopDone(s: State, call: StopCall): State
  {
    if call.thenStart then QueueStart(s, StartCall(call.id, false)) else s
  }

  /** The app's process and any pending restart are no longer this app's. */
  function Detach(u: Sup, id: Id): Sup
  {
    var v := CancelRestart(u, id);
    v.(procs := u.procs - {id}, startTimes := u.startTimes - {id})
  }

  /** stopApp up to where it leaves the mutex to wait for the process. */
  function BeginStop(s: State, call: StopCall, dockerOk: bool): State
  {
    if call !in s.work.stops then s
    else
      var id := call.id;
      var t := s.(sup := Detach(s.sup, id), work := s.work.(stops := s.work.stops - multiset{call}));
      if id in s.apps && IsDocker(s.apps[id].def.kind) then
        if dockerOk then StopDone(SetDocker(t, id, false), call) else t
      else if id !in s.sup.procs then StopDone(t, call)
      else t.(work := t.work.(halting := t.work.halting + multiset{Halt(call, s.sup.procs[id])}))
  }

  function Killed(s: State, pid: Pid): State
  {
    s.(host := s.host.(alive := s.host.alive - {pid}))
  }

  /** The rest of stopApp, once the process is dead or refuses to die. */
  function FinishStop(s: State, hl: Halt, ok: bool, written: bool): State
  {
    if hl !in s.work.halting then s
    else
      var t := s.(work := s.work.(halting := s.work.halting - multiset{hl}));
      var id := hl.call.id;
      if !ok then t
      else
        var v := Killed(t, hl.pid);
        StopDone(if id in s.apps && s.apps[id].lastPid != 0 then SetLastPid(v, id, 0, written) else v, hl.call)
  }

  /** The root of a process tree exits; descendants may linger. */
  function RootExit(s: State, p: Pid, linger: bool): State
  {
    s.(host := s.host.(done := s.host.done + {p}, alive := if linger then s.host.alive else s.host.alive - {p}))
  }

  /** The exit watcher of one process. */
  function ExitObserved(s: State, p: Pid): State
  {
    if p !in s.host.watchers || p !in s.host.done then s
    else
      var id := s.host.watchers[p];
      var t := s.(host := s.host.(watchers := s.host.watchers - {p}));
      if id in s.sup.procs && s.sup.procs[id] == p then
        QueueExit(t.(sup := s.sup.(procs := s.sup.procs - {id})), id)
      else t
  }

  /** The crash-restart timer's callback. Its RestartState keeps pointing at the timer. */
  function TimerFires(s: State, t: TimerId): State
  {
    if t !in s.sup.timers then s
    else
      var id := s.sup.timers[t];
      var u := s.(sup := s.sup.(timers := s.sup.timers - {t}));
      if Wanted(s.apps, id) then QueueStart(u, StartCall(id, true)) else u
  }

  // ---- convergence ----

  predicate WantStart(s: State, id: Id)
  {
    && id in s.apps && s.apps[id].approval == Approved && s.apps[id].desired == Running && !Up(s, id)
    && (id in s.sup.restarts ==> CellOf(s.sup, id).timer.None?)
  }

  predicate WantStop(s: State, id: Id)
  {
    id in s.apps && s.apps[id].approval == Approved && s.apps[id].desired == Stopped && Up(s, id)
  }

  function StartsFor(s: State, ids: set<Id>): multiset<StartCall>
  {
    multiset(set id | id in ids && WantStart(s, id) :: StartCall(id, false))
  }

  function StopsFor(s: State, ids: set<Id>): multiset<StopCall>
  {
    multiset(set id | id in ids && WantStop(s, id) :: StopCall(id, false))
  }

  function Reconcile(s: State): State
  {
    s.(work := s.work.(starts := s.work.starts + StartsFor(s, s.apps.Keys),
                       stops := s.work.stops + StopsFor(s, s.apps.Keys)))
  }

  // ---- the hub's full-state sync ----

  function IndexOf(hs: seq<Hash>, h: Hash): int
  {
    if hs == [] then -1
    else if hs[0] == h then 0
    else
      var i := IndexOf(hs[1..], h);
      if i < 0 then -1 else i + 1
  }

  /** Drops the first occurrence. */
  function Without(hs: seq<Hash>, h: Hash): seq<Hash>
  {
    if hs == [] then [] else if hs[0] == h then hs[1..] else [hs[0]] + Without(hs[1..], h)
  }

  /** A new app or a changed definition: the host has to approve it, unless it was imported
      here or is a container kind. */
  function ApprovalOf(s: State, spec: AppSpec): Approval
  {
    if spec.hash in s.preApproved || IsDocker(spec.def.kind) then Approved else Pending
  }

  function Adopt(s: State, spec: AppSpec): State
  {
    s.(apps := s.apps[spec.id := App(spec.def, spec.hash, ApprovalOf(s, spec), spec.desired, spec.tracking, 0)],
       preApproved := Without(s.preApproved, spec.hash),
       log := s.log.(sent := s.log.sent + {ApprovalEvent(spec.id, ApprovalOf(s, spec), spec.hash)}))
  }

  /** One entry: the new state, and whether it must be persisted. */
  function ApplySpec(s: State, spec: AppSpec): (State, bool)
  {
    var id := spec.id;
    if id in s.apps && s.apps[id].hash == spec.hash then
      var app := s.apps[id].(desired := spec.desired, tracking := spec.tracking);
      (s.(apps := s.apps[id := app]), app != s.apps[id])
    else (Adopt(s, spec), true)
  }

  function ApplySpecs(s: State, specs: seq<AppSpec>): (State, bool)
  {
    if specs == [] then (s, false)
    else
      var n := |specs| - 1;
      var (t, c) := ApplySpecs(s, specs[..n]);
      var (u, d) := ApplySpec(t, specs[n]);
      (u, c || d)
  }

  function Ids(specs: seq<AppSpec>): set<Id>
  {
    set sp | sp in specs :: sp.id
  }

  function TimersOf(u: Sup, ids: set<Id>): set<TimerId>
  {
    set id | id in ids && id in u.restarts && CellOf(u, id).timer.Some? :: CellOf(u, id).timer.value
  }

  /** Forgets apps the hub no longer lists. Stopping their processes goes on elsewhere. */
  function ForgetAll(s: State, gone: set<Id>): State
  {
    s.(apps := s.apps - gone,
       sup := s.sup.(procs := s.sup.procs - gone, timers := s.sup.timers - TimersOf(s.sup, gone),
                     restarts := s.sup.restarts - gone))
  }

  function ApplyAppSync(s: State, specs: seq<AppSpec>, written: bool): State
  {
    var (t, changed) := ApplySpecs(s, specs);
    var gone := t.apps.Keys - Ids(specs);
    Save(ForgetAll(t, gone), written && (changed || gone != {}))
  }

  // ---- commands and CLI operations ----

  function SetDesired(s: State, id: Id, d: Desired, written: bool): State
  {
    if id !in s.apps || s.apps[id].desired == d then s
    else Save(s.(apps := s.apps[id := s.apps[id].(desired := d)]), written)
  }

  /** The gate: the command must name the definition this host has, and the host must have
      approved it. */
  predicate Accepts(s: State, id: Id, hash: Hash)
  {
    id in s.apps && s.apps[id].hash == hash && s.apps[id].approval == Approved
  }

  function Accept(s: State, id: Id, verb: Verb, hash: Hash): State
  {
    if Accepts(s, id, hash) && verb != Other then
      s.(work := s.work.(commands := s.work.commands + multiset{Command(id, verb)}))
    else s
  }

  /** The rest of execute: the intent is recorded, then the supervisor is called. */
  function Execute(s: State, c: Command, written: bool): State
  {
    if c !in s.work.commands then s
    else
      var t := s.(work := s.work.(commands := s.work.commands - multiset{c}));
      match c.verb
      case Start => QueueStart(SetDesired(t, c.id, Running, written), StartCall(c.id, false))
      case Stop => QueueStop(SetDesired(t, c.id, Stopped, written), StopCall(c.id, false))
      case Restart => QueueStop(SetDesired(t, c.id, Running, written), StopCall(c.id, true))
      case Other => t
  }

  function Import(s: State, h: Definition -> Hash, def: Definition): State
  {
    s.(preApproved := s.preApproved + [h(def)],
       log := s.log.(approved := s.log.approved + {h(def)}, sent := s.log.sent + {AppRegister(def)}))
  }

  /** Host-side approve or reject of whatever definition the app has now. */
  function Decide(s: State, id: Id, approve: bool, written: bool): State
  {
    if id !in s.apps then s
    else
      var a := if approve then Approved else Rejected;
      var hash := s.apps[id].hash;
      Save(s.(apps := s.apps[id := s.apps[id].(approval := a)],
              log := s.log.(approved := if approve then s.log.approved + {hash} else s.log.approved,
                            sent := s.log.sent + {ApprovalEvent(id, a, hash)})), written)
  }

  // ---- a new agent process ----

  function Reap(app: App): App
  {
    if app.lastPid > 0 && !IsDocker(app.def.kind) then app.(lastPid := 0) else app
  }

  function Reaped(apps: Apps): Apps
  {
    map id | id in apps :: Reap(apps[id])
  }

  function Orphans(apps: Apps): set<Pid>
  {
    set id | id in apps && apps[id].lastPid > 0 && !IsDocker(apps[id].def.kind) :: apps[id].lastPid
  }

  function ReapedHost(host: Host, disk: Apps, reaped: set<Pid>): Host
  {
    host.(alive := host.alive - (Orphans(disk) * reaped), watchers := map[])
  }

  /** A start for every wanted app. */
  function Resurrected(apps: Apps): Work
  {
    NO_WORK.(starts := multiset(set id | id in apps && Wanted(apps, id) :: StartCall(id, false)))
  }

  /** The agent process dies and a new one boots from state.json: the orphans in `reaped` are
      killed, everything in memory is gone, wanted apps are started. */
  function Reboot(s: State, reaped: set<Pid>, written: bool): State
  {
    var apps := Reaped(s.disk);
    State(apps, if written then apps else s.disk, [], NO_SUP.(nextTimer := s.sup.nextTimer, nextRef := s.sup.nextRef), Resurrected(apps),
          ReapedHost(s.host, s.disk, reaped), s.log)
  }

  // ---- events ----

  datatype Event =
    | Sync(specs: seq<AppSpec>, written: bool)
    | Converge
    | Commanded(id: Id, verb: Verb, hash: Hash)
    | CommandRuns(c: Command, written: bool)
    | Imported(def: Definition)
    | Decided(id: Id, approve: bool, written: bool)
    | StartBegins(call: StartCall, dockerOk: bool)
    | StartEnds(sp: Spawn, ok: bool, now: int, written: bool)
    | StopBegins(stop: StopCall, dockerOk: bool)
    | StopEnds(hl: Halt, ok: bool, written: bool)
    | Exits(p: Pid, linger: bool)
    | TreeGone(p: Pid)
    | Observed(p: Pid)
    | ExitLooks(id: Id)
    | ExitCounts(look: Look, now: int)
    | Arms(arming: Arming)
    | Fires(t: TimerId)
    | DockerPoll(id: Id, up: bool)
    | Boot(reaped: set<Pid>, written: bool)

  function Next(h: Definition -> Hash, s: State, ev: Event): State
  {
    match ev
    case Sync(specs, written) => ApplyAppSync(s, specs, written)
    case Converge => Reconcile(s)
    case Commanded(id, verb, hash) => Accept(s, id, verb, hash)
    case CommandRuns(c, written) => Execute(s, c, written)
    case Imported(def) => Import(s, h, def)
    case Decided(id, approve, written) => Decide(s, id, approve, written)
    case StartBegins(call, dockerOk) => BeginStart(s, call, dockerOk)
    case StartEnds(sp, ok, now, written) => FinishStart(s, sp, ok, now, written)
    case StopBegins(stop, dockerOk) => BeginStop(s, stop, dockerOk)
    case StopEnds(hl, ok, written) => FinishStop(s, hl, ok, written)
    case Exits(p, linger) => RootExit(s, p, linger)
    case TreeGone(p) => Killed(s, p)
    case Observed(p) => ExitObserved(s, p)
    case ExitLooks(id) => LookExit(s, id)
    case ExitCounts(look, now) => CountExit(s, look, now)
    case Arms(arming) => ArmTimer(s, arming)
    case Fires(t) => TimerFires(s, t)
    case DockerPoll(id, up) => SetDocker(s, id, up)
    case Boot(reaped, written) => Reboot(s, reaped, written)
  }

  function RunFrom(h: Definition -> Hash, s: State, evs: seq<Event>): State
  {
    if evs == [] then s else Next(h, RunFrom(h, s, evs[..|evs| - 1]), evs[|evs| - 1])
  }
}
