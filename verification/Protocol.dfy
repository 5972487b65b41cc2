/** The recovery protocol between the owning process and the monitor process as
    a transition system.  Commands travel down one FIFO queue and events up
    another; the monitor creates scopes for replacement processes by itself and
    may die at any moment; the owning process recovers, rebuilds, retries and
    stops.  Every step below is one action of one party, so a run is any
    interleaving. */
module Protocol {
  import opened Wrappers
  import opened WatchdogTypes
  import opened MonitorSpec
  import opened GuardTables

  /** Where the owning process is.  A recovery goes Begun, Cleared, Connected,
      Attaching and back to Idle; an attempt that raises goes to Failed. */
  datatype Phase =
    | Idle
    | Begun
    | Cleared
    | Connected(bumped: bool)
    | Attaching(created: map<int, Guard>, recovering: bool)
    | Failed
    | Stopping
    | Stopped

  /** A replacement scope that the monitor has created but not yet announced. */
  datatype Adopting = Adopting(worker: int, guard: Guard)

  datatype State = State(
    generation: int, table: map<int, Guard>, phase: Phase, armed: bool, serverAlive: bool,
    commands: seq<Command>, events: seq<Event>,
    monitor: Monitor, monitorAlive: bool, adopting: Option<Adopting>,
    made: set<string>, stopped: set<string>,
    // history: scopes nobody names any more, the generation whose guards were published
    // last and whether they are still in force, triggers emitted and acted upon, the
    // generation at which the recovery in progress began, and whether one of its
    // attempts found the new server alive
    orphans: set<string>, attachedAt: int, intact: bool,
    emitted: seq<int>, top: int, recovered: seq<int>, since: int, raised: bool)

  const INIT := State(0, map[], Idle, false, false, [], [], BOOT, false, None, {}, {}, {}, -1, false, [], 0, [], 0, false)

  /** The owning process connects, recovers and retries. */
  datatype RecoveryStep =
    | Connect(alive: bool)
    | BeginRecovery
    | BeginAfterMonitorDeath
    | ClearScopes
    | Reconnect(alive: bool)
    | AttemptFails
    | Retry
    | CompleteUnguarded

  /** It puts the workers under guard. */
  datatype AttachStep =
    | AttachBegins
    | AttachOne(worker: int, guard: Guard)
    | AttachFails
    | AttachStrands(unit: string)
    | AttachInterrupted(unit: string)
    | AttachPublishes

  /** It receives events, forwards task messages, loses its server and stops. */
  datatype OwnerStep =
    | SkipTrigger
    | ReceiveGuard
    | Send(command: Command)
    | ServerDies
    | RequestStop
    | FinishStop

  datatype MonitorStep =
    | Takes
    | Triggers(kind: Kind, reason: Reason, workers: set<int>)
    | Creates(worker: int, guard: Guard)
    | Abandons
    | Strands
    | Rebinds
    | Notes(missing: map<int, real>, lastPoll: real)
    | Dies(kept: nat)

  datatype Step =
    | Recover(r: RecoveryStep)
    | Attach(t: AttachStep)
    | Own(o: OwnerStep)
    | Observe(m: MonitorStep)

  // ---- scopes ----

  function Live(s: State): set<string> { s.made - s.stopped }

  function PhaseUnits(p: Phase): set<string> { if p.Attaching? then Units(p.created) else {} }

  function AdoptingUnits(a: Option<Adopting>): set<string> {
    if a.Some? && a.value.guard.unit != "" then {a.value.guard.unit} else {}
  }

  /** The scopes somebody can still stop: recorded, announced or being created. */
  function Accounted(s: State): set<string> {
    Units(s.table) + EventUnits(s.events) + PhaseUnits(s.phase) + AdoptingUnits(s.adopting)
  }

  function UnitName(unit: string): set<string> { if unit == "" then {} else {unit} }

  predicate FreshUnit(s: State, g: Guard) { g.unit !in s.made }

  // ---- steps of the owning process ----

  /** `_stop_worker_scopes`. */
  function StopScopes(s: State): State {
    s.(stopped := s.stopped + Units(s.table), table := map[], intact := false)
  }

  /** Starting the observer: a dead monitor is replaced, with two new queues. */
  function StartMonitor(s: State): State {
    if s.monitorAlive then s
    else
      var s' := s.(commands := [], events := [], monitor := BOOT, monitorAlive := true, adopting := None);
      s'.(orphans := Live(s') - Accounted(s'))
  }

  /** `start`: a live server opens a new generation, a dead one does not. */
  function StartWatchdog(s: State, alive: bool): State {
    var s' := StartMonitor(s).(serverAlive := alive);
    if alive
    then s'.(generation := s.generation + 1, commands := s'.commands + [Root(0, s.generation + 1)], intact := false)
    else s'
  }

  function PauseMonitor(s: State): State {
    s.(commands := s.commands + [Pause(s.generation)], intact := false)
  }

  /** `_accept_replacement_guard`. */
  function Receive(s: State, e: Event): State
    requires e.GuardReplaced?
  {
    if Accepts(s.table, e, s.generation) then s.(table := s.table[e.worker := e.guard])
    else s.(stopped := s.stopped + UnitOf(e.guard))
  }

  predicate Recovering(p: Phase) {
    p.Begun? || p.Cleared? || p.Connected? || p.Failed? || (p.Attaching? && p.recovering)
  }

  predicate RecoveryEnabled(s: State, a: RecoveryStep) {
    match a
    case Connect(_) => s.phase.Idle?
    case BeginRecovery => s.phase.Idle? && s.events != [] && s.events[0].Trigger? && s.events[0].generation == s.generation
    case BeginAfterMonitorDeath => s.phase.Idle? && !s.monitorAlive && s.events == []
    case ClearScopes => s.phase.Begun?
    case Reconnect(_) => s.phase.Cleared?
    case AttemptFails => s.phase.Cleared? || s.phase.Connected?
    case Retry => s.phase.Failed?
    // nothing armed to rebuild, or the live workers could not be located and no scope is wanted
    case CompleteUnguarded => s.phase.Connected? && (!s.armed || s.serverAlive)
  }

  function AfterRecovery(s: State, a: RecoveryStep): (s': State)
    requires RecoveryEnabled(s, a)
    ensures s'.recovered != s.recovered ==> a.BeginRecovery?
    ensures s'.orphans != s.orphans ==> a.Connect? || a.Reconnect?
    ensures s'.phase.Idle? && !s.phase.Idle? ==> a.CompleteUnguarded?
  {
    match a
    case Connect(alive) => StartWatchdog(s, alive)
    case BeginRecovery =>
      PauseMonitor(s.(events := s.events[1..], phase := Begun, recovered := s.recovered + [s.generation],
                      since := s.generation, raised := false))
    case BeginAfterMonitorDeath => PauseMonitor(s.(phase := Begun, since := s.generation, raised := false))
    case ClearScopes => StopScopes(s).(phase := Cleared)
    case Reconnect(alive) => StartWatchdog(s, alive).(phase := Connected(alive), raised := s.raised || alive)
    case AttemptFails => s.(phase := Failed)
    case Retry => PauseMonitor(s).(phase := Begun)
    case CompleteUnguarded => s.(phase := Idle)
  }

  predicate AttachEnabled(s: State, a: AttachStep) {
    match a
    // by hand once per generation; a recovery that reaches this point has opened a new one
    case AttachBegins => s.serverAlive && (s.phase.Connected? || (s.phase.Idle? && s.attachedAt != s.generation))
    case AttachOne(w, g) => s.phase.Attaching? && w !in s.phase.created && FreshUnit(s, g)
    case AttachFails => s.phase.Attaching?
    // the call that creates the next scope raises, but the scope is there
    case AttachStrands(unit) => s.phase.Attaching? && unit != "" && unit !in s.made
    // an interrupt of the thread that attaches by hand passes by the handler that
    // cleans up; it may come while the next scope is being created
    case AttachInterrupted(unit) => s.phase.Attaching? && !s.phase.recovering && unit !in s.made
    case AttachPublishes => s.phase.Attaching?
  }

  function AfterAttach(s: State, a: AttachStep): (s': State)
    requires AttachEnabled(s, a)
    ensures s'.recovered == s.recovered && (s'.orphans == s.orphans || a.AttachStrands? || a.AttachInterrupted?)
    ensures s'.phase.Idle? ==> a.AttachPublishes? || a.AttachFails? || a.AttachStrands? || a.AttachInterrupted?
  {
    match a
    case AttachBegins => StopScopes(s).(phase := Attaching(map[], s.phase.Connected?), armed := true)
    case AttachOne(w, g) =>
      s.(phase := s.phase.(created := s.phase.created[w := g]), made := s.made + UnitOf(g))
    case AttachFails =>
      s.(stopped := s.stopped + Units(s.phase.created), phase := if s.phase.recovering then Failed else Idle)
    case AttachStrands(unit) =>
      s.(stopped := s.stopped + Units(s.phase.created), phase := if s.phase.recovering then Failed else Idle,
         made := s.made + {unit}, orphans := s.orphans + {unit})
    case AttachInterrupted(unit) =>
      s.(phase := Idle, made := s.made + UnitName(unit),
         orphans := s.orphans + (Units(s.phase.created) - s.stopped) + UnitName(unit))
    case AttachPublishes =>
      s.(table := s.phase.created, commands := s.commands + [Guards(s.generation, s.phase.created)],
         phase := Idle, attachedAt := s.generation, intact := true)
  }

  predicate OwnerEnabled(s: State, a: OwnerStep) {
    match a
    case SkipTrigger =>
      s.events != [] && s.events[0].Trigger? &&
      ((s.phase.Idle? && s.events[0].generation != s.generation) || s.phase.Stopping?)
    case ReceiveGuard => !s.phase.Stopped? && s.events != [] && s.events[0].GuardReplaced?
    case Send(c) => (c.TaskStarted? || c.TaskFinished? || c.FatalLine?) && c.generation <= s.generation
    case ServerDies => true
    case RequestStop => s.phase.Idle?
    case FinishStop => s.phase.Stopping? && s.events == [] && (s.monitorAlive ==> !s.monitor.running)
  }

  function AfterOwner(s: State, a: OwnerStep): (s': State)
    requires OwnerEnabled(s, a)
    ensures s'.recovered == s.recovered && s'.orphans == s.orphans
    ensures s'.phase.Idle? ==> s.phase.Idle?
  {
    match a
    case SkipTrigger => s.(events := s.events[1..])
    case ReceiveGuard => Receive(s.(events := s.events[1..]), s.events[0])
    case Send(c) => s.(commands := s.commands + [c])
    case ServerDies => s.(serverAlive := false)
    case RequestStop => s.(phase := Stopping, commands := s.commands + [Stop])
    case FinishStop => StopScopes(s).(phase := Stopped)
  }

  // ---- steps of the monitor process ----

  /** The monitor runs and is not in the middle of adopting a process. */
  predicate MonitorFree(s: State) { s.monitorAlive && s.monitor.running && s.adopting.None? }

  predicate MonitorEnabled(s: State, a: MonitorStep) {
    match a
    case Takes => MonitorFree(s) && s.commands != []
    case Triggers(_, _, _) => MonitorFree(s) && !s.monitor.paused
    case Creates(w, g) =>
      MonitorFree(s) && !s.monitor.paused && w in s.monitor.guards && FreshUnit(s, g) && g.pid != s.monitor.guards[w].pid
    case Abandons => s.monitorAlive && s.adopting.Some?
    case Strands => s.monitorAlive && s.adopting.Some?
    case Rebinds => s.monitorAlive && s.adopting.Some? && s.adopting.value.worker in s.monitor.guards
    case Notes(_, _) => MonitorFree(s)
    case Dies(kept) => s.monitorAlive && kept <= |s.events|
  }

  function Emit(s: State, es: seq<Event>): State {
    s.(events := s.events + es,
       emitted := if es == [] then s.emitted else s.emitted + [s.monitor.generation],
       top := if es == [] then s.top else s.monitor.generation)
  }

  /** The event that announces the replacement being adopted. */
  function Announcement(s: State): Event
    requires s.adopting.Some? && s.adopting.value.worker in s.monitor.guards
  {
    var Adopting(w, g) := s.adopting.value;
    GuardReplaced(s.monitor.generation, w, s.monitor.guards[w].pid, g)
  }

  function AfterMonitor(s: State, a: MonitorStep): (s': State)
    requires MonitorEnabled(s, a)
    ensures s'.recovered == s.recovered && s'.phase == s.phase && s'.table == s.table
    ensures s'.orphans != s.orphans ==> a.Dies? || a.Strands?
  {
    match a
    case Takes =>
      Emit(s, Reply(s.monitor, s.commands[0])).(monitor := Consume(s.monitor, s.commands[0]), commands := s.commands[1..])
    case Triggers(kind, reason, ws) =>
      Emit(s, [Trigger(s.monitor.generation, kind, reason, ws)]).(monitor := s.monitor.(paused := true))
    case Creates(w, g) => s.(adopting := Some(Adopting(w, g)), made := s.made + UnitOf(g))
    case Abandons => s.(adopting := None, stopped := s.stopped + UnitOf(s.adopting.value.guard))
    // the creating call raised, and with it went the only mention of the scope
    case Strands => s.(adopting := None, orphans := s.orphans + AdoptingUnits(s.adopting))
    case Rebinds =>
      var Adopting(w, g) := s.adopting.value;
      s.(adopting := None, monitor := s.monitor.(guards := s.monitor.guards[w := g]),
         stopped := s.stopped + UnitOf(s.monitor.guards[w]), events := s.events + [Announcement(s)])
    case Notes(missing, lastPoll) => s.(monitor := s.monitor.(missing := missing, lastPoll := lastPoll))
    case Dies(kept) =>
      var s' := s.(monitorAlive := false, adopting := None, events := s.events[..kept]);
      s'.(orphans := Live(s') - Accounted(s'))
  }

  predicate Enabled(s: State, a: Step) {
    match a
    case Recover(r) => RecoveryEnabled(s, r)
    case Attach(t) => AttachEnabled(s, t)
    case Own(o) => OwnerEnabled(s, o)
    case Observe(m) => MonitorEnabled(s, m)
  }

  function After(s: State, a: Step): State
    requires Enabled(s, a)
  {
    match a
    case Recover(r) => AfterRecovery(s, r)
    case Attach(t) => AfterAttach(s, t)
    case Own(o) => AfterOwner(s, o)
    case Observe(m) => AfterMonitor(s, m)
  }

  // ---- runs ----

  ghost predicate Legal(steps: seq<Step>)
    decreases |steps|, 0
  {
    steps != [] ==>
      Legal(steps[..|steps| - 1]) && Enabled(Exec(steps[..|steps| - 1]), steps[|steps| - 1])
  }

  ghost function Exec(steps: seq<Step>): State
    requires Legal(steps)
    decreases |steps|, 1
  {
    if steps == [] then INIT else After(Exec(steps[..|steps| - 1]), steps[|steps| - 1])
  }
}
