/** The monitor process: its loop variables updated in place. */
module MonitorProcess {
  import opened Wrappers
  import opened WatchdogTypes
  import opened MonitorSpec

  class Process {
    var running: bool
    var rootPid: int
    var generation: int
    var paused: bool
    var tasks: map<int, real>
    var guards: map<int, Guard>
    var missingSince: map<int, real>
    var lastDeadlinePoll: real

    function Vars(): Monitor
      reads this
    {
      Monitor(running, rootPid, generation, paused, tasks, guards, missingSince, lastDeadlinePoll)
    }

    constructor ()
      ensures Vars() == BOOT
    {
      running, rootPid, generation, paused := true, 0, 0, true;
      tasks, guards, missingSince, lastDeadlinePoll := map[], map[], map[], 0.0;
    }

    /** Act on one command. */
    method Take(command: Command) returns (emitted: seq<Event>)
      requires running
      modifies this
      ensures Vars() == Consume(old(Vars()), command)
      ensures emitted == Reply(old(Vars()), command)
    {
      emitted := [];
      match command {
        case Stop => running := false;
        case Pause(_) =>
          paused := true;
          tasks, guards, missingSince := map[], map[], map[];
        case Root(pid, g) =>
          rootPid, generation, paused := pid, g, false;
          tasks, guards, missingSince := map[], map[], map[];
        case Guards(g, table) =>
          if g == generation { guards, missingSince := table, map[]; }
        case TaskStarted(g, w, at) =>
          if g == generation { tasks := tasks[w := at]; }
        case TaskFinished(g, w) =>
          if g == generation { tasks := tasks - {w}; }
        case FatalLine(g, reason) =>
          if !paused && g == generation {
            emitted := [Trigger(generation, Fatal, StderrLine(reason), tasks.Keys)];
            paused := true;
          }
      }
    }

    /** The inner loop: take commands until the queue is empty or one says stop. */
    method Drain(queue: seq<Command>) returns (emitted: seq<Event>)
      modifies this
      ensures Vars() == Drained(old(Vars()), queue)
      ensures emitted == DrainEvents(old(Vars()), queue)
    {
      emitted := [];
      var next := 0;
      while next < |queue| && running
        invariant 0 <= next <= |queue|
        invariant Drained(Vars(), queue[next..]) == Drained(old(Vars()), queue)
        invariant emitted + DrainEvents(Vars(), queue[next..]) == DrainEvents(old(Vars()), queue)
      {
        ghost var before := Vars();
        assert queue[next..][0] == queue[next] && queue[next..][1..] == queue[next + 1..];
        var more := Take(queue[next]);
        assert emitted + (more + DrainEvents(Vars(), queue[next + 1..]))
            == (emitted + more) + DrainEvents(Vars(), queue[next + 1..]);
        emitted := emitted + more;
        next := next + 1;
      }
    }

    /** Look at one guard, in the order of tests of the loop body. */
    method Inspect(cfg: Config, now: real, w: int, s: Sight)
      returns (events: seq<Event>, adopted: seq<string>, dropped: seq<string>, halt: bool)
      requires w in guards
      modifies this
      ensures Visited(Vars(), events, adopted, dropped, halt) == Visit(cfg, old(Vars()), now, w, s)
    {
      var guard := guards[w];
      events, adopted, dropped, halt := [], [], [], false;
      if HardOom(guard, s) {
        events := [Trigger(generation, Memory, HitHardLimit, {w})];
        paused, halt := true, true;
        return;
      }
      if OverSoft(cfg, Vars(), w, s) {
        events := [Trigger(generation, Memory, OverSoftLimit, {w})];
        paused, halt := true, true;
        return;
      }
      if s.alive {
        missingSince := missingSince - {w};
        return;
      }
      if KilledScope(guard, s) {
        events := [Trigger(generation, Memory, ScopeKilled, {w})];
        paused, halt := true, true;
        return;
      }
      if HasCandidate(guard, s) {
        var found := s.candidate.value;
        if !found.adoption.Adopted? {
          adopted := Named(NewUnit(cfg, found));
          if w !in missingSince { missingSince := missingSince[w := now]; }
          return;
        }
        var replacement := Replacement(cfg, found);
        adopted := Named(replacement.unit);
        if !found.adoption.survived {
          dropped := Named(replacement.unit);
          if w !in missingSince { missingSince := missingSince[w := now]; }
          return;
        }
        guards := guards[w := replacement];
        missingSince := missingSince - {w};
        dropped := Named(guard.unit);
        events := [GuardReplaced(generation, w, guard.pid, replacement)];
        return;
      }
      if w !in missingSince { missingSince := missingSince[w := now]; }
      if w !in tasks || now - missingSince[w] < cfg.grace {
        return;
      }
      events := [Trigger(generation, WorkerDeath, NoReplacement, {w})];
      paused, halt := true, true;
    }

    /** Walk the guards until one of them raises a trigger. */
    method Sweep(cfg: Config, now: real, order: seq<int>, sight: int -> Sight)
      returns (events: seq<Event>, adopted: seq<string>, dropped: seq<string>, halt: bool)
      requires forall w | w in order :: w in guards
      modifies this
      ensures Visited(Vars(), events, adopted, dropped, halt) == Scan(cfg, old(Vars()), now, order, sight)
    {
      events, adopted, dropped, halt := [], [], [], false;
      ghost var whole := Scan(cfg, Vars(), now, order, sight);
      ghost var acc := Visited(Vars(), [], [], [], false);
      var i := 0;
      while i < |order| && !halt
        invariant 0 <= i <= |order|
        invariant forall w | w in order :: w in guards
        invariant acc == Visited(Vars(), events, adopted, dropped, halt)
        invariant if halt then whole == acc else whole == Then(acc, Scan(cfg, Vars(), now, order[i..], sight))
      {
        assert order[i..][0] == order[i] && order[i..][1..] == order[i + 1..];
        ghost var before := Vars();
        var e, a, d, h := Inspect(cfg, now, order[i], sight(order[i]));
        ghost var v := Visited(Vars(), e, a, d, h);
        assert v == Visit(cfg, before, now, order[i], sight(order[i]));
        if !h {
          ThenAssociates(acc, v, Scan(cfg, Vars(), now, order[i + 1..], sight));
        }
        events, adopted, dropped, halt := events + e, adopted + a, dropped + d, h;
        acc := Then(acc, v);
        i := i + 1;
      }
    }

    /** One turn of the outer loop, after the drain, while not paused. */
    method Poll(cfg: Config, r: Round)
      returns (events: seq<Event>, adopted: seq<string>, dropped: seq<string>, halt: bool)
      requires !paused && Lists(Vars(), r.order)
      modifies this
      ensures Visited(Vars(), events, adopted, dropped, halt) == Pass(cfg, old(Vars()), r)
      ensures !r.rootAlive ==> events == [Trigger(old(generation), Death, ServerExited, old(tasks).Keys)] && halt
      ensures var late := set w | w in old(tasks) && r.now - old(tasks)[w] > cfg.deadline;
              r.rootAlive && r.now - old(lastDeadlinePoll) >= cfg.pollInterval && late != {} ==>
                events == [Trigger(old(generation), Deadline, TaskOverdue, late)] && halt
    {
      events, adopted, dropped, halt := [], [], [], false;
      if !r.rootAlive {
        events := [Trigger(generation, Death, ServerExited, tasks.Keys)];
        paused, halt := true, true;
        return;
      }
      if r.now - lastDeadlinePoll >= cfg.pollInterval {
        var overdue := set w | w in tasks && r.now - tasks[w] > cfg.deadline;
        assert overdue == Overdue(cfg, Vars(), r.now);
        if overdue != {} {
          events := [Trigger(generation, Deadline, TaskOverdue, overdue)];
          paused, halt := true, true;
          return;
        }
        lastDeadlinePoll := r.now;
      }
      events, adopted, dropped, halt := Sweep(cfg, r.now, r.order, r.sight);
    }
  }
}
