/** The values that cross the two queues between the owning process and the
    monitor process, and the small wrappers the other modules share. */
module Wrappers {
  datatype Option<+T> = None | Some(value: T)

  datatype Result<+R, +E> = Success(value: R) | Failure(error: E)
}

module WatchdogTypes {
  /** One guard record.  The empty `unit` means "no transient scope". */
  datatype Guard = Guard(pid: int, unit: string, cgroup: string, oomKill: int)

  datatype Kind = Fatal | Death | Deadline | Memory | WorkerDeath | WatchdogDeath

  /** Why a trigger was raised.  The text shown to people is not modelled, except
      that of the deadline, which the resilient client reads back. */
  datatype Reason =
    | StderrLine(line: string)
    | ServerExited
    | TaskOverdue
    | HitHardLimit
    | OverSoftLimit
    | ScopeKilled
    | NoReplacement
    | MonitorExited

  /** Messages down: owning process to monitor. */
  datatype Command =
    | Stop
    | Pause(generation: int)
    | Root(pid: int, generation: int)
    | Guards(generation: int, table: map<int, Guard>)
    | TaskStarted(generation: int, worker: int, startedAt: real)
    | TaskFinished(generation: int, worker: int)
    | FatalLine(generation: int, reason: string)

  /** Messages up: monitor to owning process. */
  datatype Event =
    | Trigger(generation: int, kind: Kind, reason: Reason, workers: set<int>)
    | GuardReplaced(generation: int, worker: int, oldPid: int, guard: Guard)

  function UnitOf(g: Guard): set<string> { if g.unit == "" then {} else {g.unit} }

  /** The scope units a guard table names. */
  function Units(table: map<int, Guard>): set<string> {
    set w | w in table && table[w].unit != "" :: table[w].unit
  }

  /** The scope units a stretch of the event queue names. */
  function EventUnits(events: seq<Event>): set<string> {
    set i | 0 <= i < |events| && events[i].GuardReplaced? && events[i].guard.unit != "" :: events[i].guard.unit
  }
}
