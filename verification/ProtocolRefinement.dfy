/** The monitor's loop is made of the protocol's monitor steps: each turn of it,
    command by command and guard by guard, is a legal run with the same effect,
    so what holds of every run of the protocol holds of the loop. */
module ProtocolRefinement {
  import opened Wrappers
  import opened WatchdogTypes
  import opened MonitorSpec
  import opened Protocol
  import opened ProtocolTheorems

  function Members(units: seq<string>): set<string> { set u | u in units }

  /** The monitor went from `s` to `s'` with the effects `v`; nobody else moved. */
  ghost predicate Effected(s: State, v: Visited, s': State) {
    && s'.monitor == v.m && s'.events == s.events + v.events
    && s'.made == s.made + Members(v.adopted) && s'.stopped == s.stopped + Members(v.dropped)
    && s'.commands == s.commands && s'.monitorAlive && s'.adopting.None?
    && s'.generation == s.generation && s'.table == s.table && s'.phase == s.phase
  }

  ghost predicate Reaches(steps: seq<Step>, s: State) { Legal(steps) && Exec(steps) == s }

  /** The unit that adopting what is seen would create. */
  function NewUnits(cfg: Config, s: Sight): set<string> {
    if s.candidate.Some? && NewUnit(cfg, s.candidate.value) != "" then {NewUnit(cfg, s.candidate.value)} else {}
  }

  /** Every scope created during the walk gets a unit name never used before. */
  ghost predicate FreshWalk(cfg: Config, made: set<string>, order: seq<int>, sight: int -> Sight)
    decreases |order|
  {
    order != [] ==>
      NewUnits(cfg, sight(order[0])) !! made &&
      FreshWalk(cfg, made + NewUnits(cfg, sight(order[0])), order[1..], sight)
  }

  // ---- what a visit can amount to ----

  /** It only rewrites the record of missing workers. */
  predicate IsNote(m: Monitor, v: Visited) {
    v == Visited(m.(missing := v.m.missing), [], [], [], false)
  }

  /** It raises one trigger and pauses. */
  predicate IsAlarm(m: Monitor, v: Visited) {
    && |v.events| == 1 && v.events[0].Trigger? && v.events[0].generation == m.generation
    && v == Visited(m.(missing := v.m.missing, paused := true), v.events, [], [], true)
  }

  /** It adopts `r` for `w` and keeps or drops it. */
  predicate IsAdoption(m: Monitor, w: int, r: Guard, survived: bool, v: Visited) {
    && w in m.guards && r.pid != m.guards[w].pid
    && v == if survived
            then Visited(m.(guards := m.guards[w := r], missing := v.m.missing),
                         [GuardReplaced(m.generation, w, m.guards[w].pid, r)], Named(r.unit), Named(m.guards[w].unit), false)
            else Visited(m.(missing := v.m.missing), [], Named(r.unit), Named(r.unit), false)
  }

  /** It creates a scope and loses its name. */
  predicate IsStranding(m: Monitor, unit: string, v: Visited) {
    unit != "" && v == Visited(m.(missing := v.m.missing), [], [unit], [], false)
  }

  predicate Adopts(g: Guard, s: Sight) { HasCandidate(g, s) && s.candidate.value.adoption.Adopted? }

  lemma VisitShape(cfg: Config, m: Monitor, now: real, w: int, s: Sight)
    requires w in m.guards
    ensures var v := Visit(cfg, m, now, w, s);
            || IsNote(m, v) || IsAlarm(m, v)
            || (Adopts(m.guards[w], s)
                && IsAdoption(m, w, Replacement(cfg, s.candidate.value), s.candidate.value.adoption.survived, v))
            || (HasCandidate(m.guards[w], s) && IsStranding(m, NewUnit(cfg, s.candidate.value), v))
  {
  }

  lemma NoteIsARun(steps: seq<Step>, s: State, missing: map<int, real>, lastPoll: real)
    returns (steps': seq<Step>, s': State)
    requires Reaches(steps, s) && MonitorFree(s)
    ensures Reaches(steps', s') && s' == s.(monitor := s.monitor.(missing := missing, lastPoll := lastPoll))
  {
    steps', s' := Push(steps, s, Observe(Notes(missing, lastPoll)));
  }

  lemma AlarmIsARun(steps: seq<Step>, s: State, v: Visited) returns (steps': seq<Step>, s': State)
    requires Reaches(steps, s) && MonitorFree(s) && !s.monitor.paused && IsAlarm(s.monitor, v)
    ensures Reaches(steps', s') && Effected(s, v, s')
  {
    var mid: State;
    steps', mid := NoteIsARun(steps, s, v.m.missing, s.monitor.lastPoll);
    var e := v.events[0];
    steps', s' := Push(steps', mid, Observe(Triggers(e.kind, e.reason, e.workers)));
    assert s' == AfterMonitor(mid, Triggers(e.kind, e.reason, e.workers));
    assert v.events == [e];
  }

  lemma AdoptionIsARun(steps: seq<Step>, s: State, w: int, r: Guard, survived: bool, v: Visited)
    returns (steps': seq<Step>, s': State)
    requires Reaches(steps, s) && MonitorFree(s) && !s.monitor.paused && IsAdoption(s.monitor, w, r, survived, v)
    requires FreshUnit(s, r)
    ensures Reaches(steps', s') && Effected(s, v, s')
  {
    var mid, end: State;
    steps', mid := Push(steps, s, Observe(Creates(w, r)));
    assert mid == AfterMonitor(s, Creates(w, r));
    if survived {
      steps', end := Push(steps', mid, Observe(Rebinds));
      assert end == AfterMonitor(mid, Rebinds);
    } else {
      steps', end := Push(steps', mid, Observe(Abandons));
      assert end == AfterMonitor(mid, Abandons);
    }
    steps', s' := NoteIsARun(steps', end, v.m.missing, s.monitor.lastPoll);
    NamedMembers(r.unit);
    NamedMembers(s.monitor.guards[w].unit);
  }

  lemma StrandingIsARun(steps: seq<Step>, s: State, w: int, pid: int, unit: string, v: Visited)
    returns (steps': seq<Step>, s': State)
    requires Reaches(steps, s) && MonitorFree(s) && !s.monitor.paused && IsStranding(s.monitor, unit, v)
    requires w in s.monitor.guards && pid != s.monitor.guards[w].pid && unit !in s.made
    ensures Reaches(steps', s') && Effected(s, v, s')
  {
    var mid, end: State;
    steps', mid := Push(steps, s, Observe(Creates(w, Guard(pid, unit, "", 0))));
    steps', end := Push(steps', mid, Observe(Strands));
    assert end == AfterMonitor(mid, Strands);
    steps', s' := NoteIsARun(steps', end, v.m.missing, s.monitor.lastPoll);
    assert Members([unit]) == {unit} && Members([]) == {};
  }

  lemma NamedMembers(unit: string)
    ensures Members(Named(unit)) == if unit == "" then {} else {unit}
    ensures Members([]) == {}
  {
  }

  lemma {:induction false} VisitIsARun(steps: seq<Step>, s: State, cfg: Config, now: real, w: int, sight: Sight)
    returns (steps': seq<Step>, s': State)
    requires Reaches(steps, s) && MonitorFree(s) && !s.monitor.paused && w in s.monitor.guards
    requires NewUnits(cfg, sight) !! s.made && "" !in s.made
    ensures Reaches(steps', s') && Effected(s, Visit(cfg, s.monitor, now, w, sight), s')
  {
    var v := Visit(cfg, s.monitor, now, w, sight);
    VisitShape(cfg, s.monitor, now, w, sight);
    NamedMembers("");
    if IsNote(s.monitor, v) {
      steps', s' := NoteIsARun(steps, s, v.m.missing, s.monitor.lastPoll);
    } else if IsAlarm(s.monitor, v) {
      steps', s' := AlarmIsARun(steps, s, v);
    } else if IsStranding(s.monitor, NewUnit(cfg, sight.candidate.value), v) {
      steps', s' := StrandingIsARun(steps, s, w, sight.candidate.value.pid, NewUnit(cfg, sight.candidate.value), v);
    } else {
      var r := Replacement(cfg, sight.candidate.value);
      steps', s' := AdoptionIsARun(steps, s, w, r, sight.candidate.value.adoption.survived, v);
    }
  }

  lemma EffectedThen(s: State, v: Visited, mid: State, rest: Visited, s': State)
    requires Effected(s, v, mid) && Effected(mid, rest, s')
    ensures Effected(s, Then(v, rest), s')
  {
    assert Members(v.adopted + rest.adopted) == Members(v.adopted) + Members(rest.adopted);
    assert Members(v.dropped + rest.dropped) == Members(v.dropped) + Members(rest.dropped);
  }

  lemma VisitMakes(cfg: Config, m: Monitor, now: real, w: int, s: Sight)
    requires w in m.guards
    ensures "" !in Members(Visit(cfg, m, now, w, s).adopted)
    ensures Members(Visit(cfg, m, now, w, s).adopted) <= NewUnits(cfg, s)
  {
    VisitShape(cfg, m, now, w, s);
    NamedMembers("");
    if Adopts(m.guards[w], s) {
      NamedMembers(Replacement(cfg, s.candidate.value).unit);
    }
  }

  lemma {:induction false} ScanIsARun(steps: seq<Step>, s: State, cfg: Config, now: real, order: seq<int>, sight: int -> Sight)
    returns (steps': seq<Step>, s': State)
    requires Reaches(steps, s) && MonitorFree(s) && !s.monitor.paused
    requires forall w | w in order :: w in s.monitor.guards
    requires FreshWalk(cfg, s.made, order, sight) && "" !in s.made
    ensures Reaches(steps', s') && Effected(s, Scan(cfg, s.monitor, now, order, sight), s')
    decreases |order|
  {
    if order == [] {
      steps', s' := steps, s;
      NamedMembers("");
    } else {
      var v := Visit(cfg, s.monitor, now, order[0], sight(order[0]));
      var mid: State;
      steps', mid := VisitIsARun(steps, s, cfg, now, order[0], sight(order[0]));
      if v.halt {
        s' := mid;
      } else {
        VisitMakes(cfg, s.monitor, now, order[0], sight(order[0]));
        FreshLess(cfg, s.made + NewUnits(cfg, sight(order[0])), mid.made, order[1..], sight);
        steps', s' := ScanIsARun(steps', mid, cfg, now, order[1..], sight);
        EffectedThen(s, v, mid, Scan(cfg, mid.monitor, now, order[1..], sight), s');
      }
    }
  }

  lemma {:induction false} FreshLess(cfg: Config, made: set<string>, fewer: set<string>, order: seq<int>, sight: int -> Sight)
    requires FreshWalk(cfg, made, order, sight) && fewer <= made
    ensures FreshWalk(cfg, fewer, order, sight)
    decreases |order|
  {
    if order != [] {
      FreshLess(cfg, made + NewUnits(cfg, sight(order[0])), fewer + NewUnits(cfg, sight(order[0])), order[1..], sight);
    }
  }

  lemma OpenShape(cfg: Config, m: Monitor, now: real, rootAlive: bool)
    ensures var v := Open(cfg, m, now, rootAlive);
            if v.halt then IsAlarm(m, v) else v == Visited(m.(lastPoll := v.m.lastPoll), [], [], [], false)
  {
  }

  /** A pass of the awake monitor. */
  lemma {:induction false} PassIsARun(steps: seq<Step>, s: State, cfg: Config, r: Round)
    returns (steps': seq<Step>, s': State)
    requires Reaches(steps, s) && MonitorFree(s) && !s.monitor.paused && Lists(s.monitor, r.order)
    requires FreshWalk(cfg, s.made, r.order, r.sight) && "" !in s.made
    ensures Reaches(steps', s') && Effected(s, Pass(cfg, s.monitor, r), s')
  {
    var v := Open(cfg, s.monitor, r.now, r.rootAlive);
    OpenShape(cfg, s.monitor, r.now, r.rootAlive);
    if v.halt {
      steps', s' := AlarmIsARun(steps, s, v);
    } else {
      var mid: State;
      steps', mid := NoteIsARun(steps, s, v.m.missing, v.m.lastPoll);
      steps', s' := ScanIsARun(steps', mid, cfg, r.now, r.order, r.sight);
    }
  }

  /** The monitor went from `s` to `s'` by reading `cs` off the queue up to a stop. */
  ghost predicate Drains(s: State, cs: seq<Command>, s': State) {
    && s'.monitor == Drained(s.monitor, cs) && s'.events == s.events + DrainEvents(s.monitor, cs)
    && s'.made == s.made && s'.stopped == s.stopped && s'.monitorAlive && s'.adopting.None?
    && s'.generation == s.generation && s'.table == s.table && s'.phase == s.phase
  }

  lemma TakeIsARun(steps: seq<Step>, s: State) returns (steps': seq<Step>, s': State)
    requires Reaches(steps, s) && MonitorFree(s) && s.commands != []
    ensures Reaches(steps', s') && s'.commands == s.commands[1..]
    ensures s'.monitor == Consume(s.monitor, s.commands[0]) && s'.events == s.events + Reply(s.monitor, s.commands[0])
    ensures s'.made == s.made && s'.stopped == s.stopped && s'.monitorAlive && s'.adopting.None?
    ensures s'.generation == s.generation && s'.table == s.table && s'.phase == s.phase
  {
    steps', s' := Push(steps, s, Observe(Takes));
    assert s' == AfterMonitor(s, Takes);
  }

  lemma DrainsOneMore(s: State, cs: seq<Command>, mid: State, s': State)
    requires s.monitor.running && cs != [] && Drains(mid, cs[1..], s')
    requires mid.monitor == Consume(s.monitor, cs[0]) && mid.events == s.events + Reply(s.monitor, cs[0])
    requires mid.made == s.made && mid.stopped == s.stopped
    requires mid.generation == s.generation && mid.table == s.table && mid.phase == s.phase
    ensures Drains(s, cs, s')
  {
    var a, b := Reply(s.monitor, cs[0]), DrainEvents(mid.monitor, cs[1..]);
    assert (s.events + a) + b == s.events + (a + b);
  }

  /** The drain: it takes commands until the queue is empty or one says stop. */
  lemma {:induction false} DrainIsARun(steps: seq<Step>, s: State) returns (steps': seq<Step>, s': State)
    requires Reaches(steps, s) && s.monitorAlive && s.adopting.None?
    ensures Reaches(steps', s') && Drains(s, s.commands, s')
    ensures s'.monitor.running ==> s'.commands == []
    decreases |s.commands|
  {
    if s.commands == [] || !s.monitor.running {
      steps', s' := steps, s;
      assert s.events + [] == s.events;
    } else {
      var mid: State;
      steps', mid := TakeIsARun(steps, s);
      steps', s' := DrainIsARun(steps', mid);
      DrainsOneMore(s, s.commands, mid, s');
    }
  }

  /** One whole turn of the monitor's outer loop is a run of the protocol. */
  lemma {:induction false} TurnIsARun(steps: seq<Step>, s: State, cfg: Config, r: Round)
    returns (steps': seq<Step>, s': State)
    requires Reaches(steps, s) && s.monitorAlive && s.adopting.None? && "" !in s.made
    requires var m := Drained(s.monitor, s.commands);
             m.running && !m.paused && Lists(m, r.order) && FreshWalk(cfg, s.made, r.order, r.sight)
    ensures Reaches(steps', s')
    ensures var m := Drained(s.monitor, s.commands);
            var v := Pass(cfg, m, r);
            && s'.monitor == v.m && s'.events == s.events + DrainEvents(s.monitor, s.commands) + v.events
            && s'.made == s.made + Members(v.adopted) && s'.stopped == s.stopped + Members(v.dropped)
            && s'.commands == [] && s'.table == s.table && s'.generation == s.generation && s'.phase == s.phase
  {
    var mid: State;
    steps', mid := DrainIsARun(steps, s);
    steps', s' := PassIsARun(steps', mid, cfg, r);
  }
}
