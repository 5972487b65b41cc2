/** What the monitor process does with one command, one guard and one pass,
    as functions on its loop variables. */
module MonitorSpec {
  import opened Wrappers
  import opened WatchdogTypes

  datatype Config = Config(deadline: real, pollInterval: real, grace: real,
                           softLimit: Option<int>, hardLimit: Option<int>)

  /** The local variables of the monitor loop; `running` turns false when it returns. */
  datatype Monitor = Monitor(
    running: bool, rootPid: int, generation: int, paused: bool,
    tasks: map<int, real>, guards: map<int, Guard>, missing: map<int, real>, lastPoll: real)

  const BOOT := Monitor(true, 0, 0, true, map[], map[], map[], 0.0)

  /** What the operating system shows about one guarded worker during a pass. */
  datatype Sight = Sight(oom: Option<int>, rss: Option<int>, alive: bool,
                         scopeOomKilled: bool, candidate: Option<Candidate>)

  /** A different process found for the same worker document, and what came of adopting it. */
  datatype Candidate = Candidate(pid: int, alive: bool, adoption: Adoption)

  /** `Refused`: the call that creates the scope raised and there is none, or it
      was told to stop at once.  `Stranded`: the call raised although systemd had
      made the scope, so that its name is lost: the request or the query for its
      control group timed out.  `survived`: still alive once adopted. */
  datatype Adoption =
    | Refused
    | Stranded(unit: string)
    | Adopted(unit: string, cgroup: string, oom: Option<int>, survived: bool)

  /** One pass over an unpaused monitor: its clock, the root's liveness, the
      order in which the guard dictionary is walked, and what is seen. */
  datatype Round = Round(now: real, rootAlive: bool, order: seq<int>, sight: int -> Sight)

  /** The outcome of a visit or of a scan.  `halt` ends the pass with a trigger. */
  datatype Visited = Visited(m: Monitor, events: seq<Event>, adopted: seq<string>, dropped: seq<string>, halt: bool)

  // ---- commands ----

  function Consume(m: Monitor, c: Command): Monitor
    requires m.running
  {
    match c
    case Stop => m.(running := false)
    case Pause(_) => m.(paused := true, tasks := map[], guards := map[], missing := map[])
    case Root(pid, g) =>
      m.(rootPid := pid, generation := g, paused := false, tasks := map[], guards := map[], missing := map[])
    case Guards(g, table) => if g == m.generation then m.(guards := table, missing := map[]) else m
    case TaskStarted(g, w, at) => if g == m.generation then m.(tasks := m.tasks[w := at]) else m
    case TaskFinished(g, w) => if g == m.generation then m.(tasks := m.tasks - {w}) else m
    case FatalLine(g, _) => if !m.paused && g == m.generation then m.(paused := true) else m
  }

  /** The event a command makes the monitor emit at once. */
  function Reply(m: Monitor, c: Command): seq<Event> {
    if c.FatalLine? && !m.paused && c.generation == m.generation
    then [Trigger(m.generation, Fatal, StderrLine(c.reason), m.tasks.Keys)] else []
  }

  /** Consume the queue until it is empty or a stop command has been read. */
  function Drained(m: Monitor, cs: seq<Command>): Monitor
    decreases |cs|
  {
    if cs == [] || !m.running then m else Drained(Consume(m, cs[0]), cs[1..])
  }

  function DrainEvents(m: Monitor, cs: seq<Command>): seq<Event>
    decreases |cs|
  {
    if cs == [] || !m.running then [] else Reply(m, cs[0]) + DrainEvents(Consume(m, cs[0]), cs[1..])
  }

  // ---- one pass ----

  function Overdue(cfg: Config, m: Monitor, now: real): set<int> {
    set w | w in m.tasks && now - m.tasks[w] > cfg.deadline
  }

  function Alarm(m: Monitor, kind: Kind, reason: Reason, workers: set<int>): Visited {
    Visited(m.(paused := true), [Trigger(m.generation, kind, reason, workers)], [], [], true)
  }

  /** The liveness test and the deadline poll that open a pass. */
  function Open(cfg: Config, m: Monitor, now: real, rootAlive: bool): Visited {
    if !rootAlive then Alarm(m, Death, ServerExited, m.tasks.Keys)
    else if now - m.lastPoll >= cfg.pollInterval then
      if Overdue(cfg, m, now) != {} then Alarm(m, Deadline, TaskOverdue, Overdue(cfg, m, now))
      else Visited(m.(lastPoll := now), [], [], [], false)
    else Visited(m, [], [], [], false)
  }

  /** The record for a replacement process; without a hard limit there is no scope. */
  function Replacement(cfg: Config, c: Candidate): Guard
    requires c.adoption.Adopted?
  {
    if cfg.hardLimit.None? then Guard(c.pid, "", "", 0)
    else Guard(c.pid, c.adoption.unit, c.adoption.cgroup, if c.adoption.oom.Some? then c.adoption.oom.value else 0)
  }

  /** The scope that adopting the candidate creates, if any. */
  function NewUnit(cfg: Config, c: Candidate): string {
    if cfg.hardLimit.None? || c.adoption.Refused? then "" else c.adoption.unit
  }

  function NoteMissing(m: Monitor, w: int, now: real): Monitor {
    if w in m.missing then m else m.(missing := m.missing[w := now])
  }

  function Named(unit: string): seq<string> { if unit == "" then [] else [unit] }

  predicate OverSoft(cfg: Config, m: Monitor, w: int, s: Sight) {
    cfg.softLimit.Some? && s.rss.Some? && s.rss.value > cfg.softLimit.value && w in m.tasks
  }

  predicate HardOom(g: Guard, s: Sight) {
    g.cgroup != "" && s.oom.Some? && s.oom.value > g.oomKill
  }

  predicate KilledScope(g: Guard, s: Sight) {
    g.unit != "" && s.scopeOomKilled
  }

  predicate HasCandidate(g: Guard, s: Sight) {
    s.candidate.Some? && s.candidate.value.pid != g.pid && s.candidate.value.alive
  }

  /** The candidate is adopted and is still alive afterwards. */
  predicate Rebinds(g: Guard, s: Sight) {
    HasCandidate(g, s) && s.candidate.value.adoption.Adopted? && s.candidate.value.adoption.survived
  }

  /** What only commands and deadline polls change. */
  predicate Unmoved(m: Monitor, m': Monitor) {
    && m'.running == m.running && m'.rootPid == m.rootPid && m'.generation == m.generation
    && m'.tasks == m.tasks && m'.lastPoll == m.lastPoll
  }

  /** Look at one guarded worker. */
  function Visit(cfg: Config, m: Monitor, now: real, w: int, s: Sight): (v: Visited)
    requires w in m.guards
    ensures v.m.guards.Keys == m.guards.Keys
    ensures Unmoved(m, v.m) && v.m.paused == (m.paused || v.halt)
  {
    var g := m.guards[w];
    if HardOom(g, s) then Alarm(m, Memory, HitHardLimit, {w})
    else if OverSoft(cfg, m, w, s) then Alarm(m, Memory, OverSoftLimit, {w})
    else if s.alive then Visited(m.(missing := m.missing - {w}), [], [], [], false)
    else if KilledScope(g, s) then Alarm(m, Memory, ScopeKilled, {w})
    else if HasCandidate(g, s) then
      if !s.candidate.value.adoption.Adopted?
      then Visited(NoteMissing(m, w, now), [], Named(NewUnit(cfg, s.candidate.value)), [], false)
      else
        var r := Replacement(cfg, s.candidate.value);
        if !s.candidate.value.adoption.survived
        then Visited(NoteMissing(m, w, now), [], Named(r.unit), Named(r.unit), false)
        else Visited(m.(guards := m.guards[w := r], missing := m.missing - {w}),
                     [GuardReplaced(m.generation, w, g.pid, r)], Named(r.unit), Named(g.unit), false)
    else
      var m' := NoteMissing(m, w, now);
      if w !in m.tasks || now - m'.missing[w] < cfg.grace then Visited(m', [], [], [], false)
      else Alarm(m', WorkerDeath, NoReplacement, {w})
  }

  /** Visit the guards in order until one of them raises a trigger. */
  function Scan(cfg: Config, m: Monitor, now: real, order: seq<int>, sight: int -> Sight): (v: Visited)
    requires forall w | w in order :: w in m.guards
    ensures v.m.guards.Keys == m.guards.Keys
    ensures Unmoved(m, v.m) && v.m.paused == (m.paused || v.halt)
    decreases |order|
  {
    if order == [] then Visited(m, [], [], [], false)
    else
      var v := Visit(cfg, m, now, order[0], sight(order[0]));
      if v.halt then v
      else
        Then(v, Scan(cfg, v.m, now, order[1..], sight))
  }

  /** The effects of `v` followed by those of `rest`. */
  function Then(v: Visited, rest: Visited): Visited {
    Visited(rest.m, v.events + rest.events, v.adopted + rest.adopted, v.dropped + rest.dropped, rest.halt)
  }

  lemma ThenAssociates(a: Visited, b: Visited, c: Visited)
    ensures Then(Then(a, b), c) == Then(a, Then(b, c))
  {
    assert (a.events + b.events) + c.events == a.events + (b.events + c.events);
    assert (a.adopted + b.adopted) + c.adopted == a.adopted + (b.adopted + c.adopted);
    assert (a.dropped + b.dropped) + c.dropped == a.dropped + (b.dropped + c.dropped);
  }

  /** `order` lists the guarded workers, each once. */
  predicate Lists(m: Monitor, order: seq<int>) {
    && (forall w | w in order :: w in m.guards)
    && (forall w | w in m.guards :: w in order)
    && (forall i, j | 0 <= i < j < |order| :: order[i] != order[j])
  }

  /** A whole pass of an unpaused monitor. */
  function Pass(cfg: Config, m: Monitor, r: Round): Visited
    requires Lists(m, r.order)
  {
    var v := Open(cfg, m, r.now, r.rootAlive);
    if v.halt then v else Scan(cfg, v.m, r.now, r.order, r.sight)
  }
}
