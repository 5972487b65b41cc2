/** The monitor as its message log shows it: from the commands it has taken and the
    events it has emitted, in order, one reads off whether it is awake, which server
    it watches and which process it guards for each worker. */
module MonitorLog {
  import opened Wrappers
  import opened WatchdogTypes
  import opened MonitorSpec
  import opened MonitorRuns

  datatype Entry = Heard(command: Command) | Said(event: Event)

  function Saying(events: seq<Event>): seq<Entry> { seq(|events|, i requires 0 <= i < |events| => Said(events[i])) }

  /** A drain: each command with what it makes the monitor say at once. */
  function DrainLog(m: Monitor, cs: seq<Command>): seq<Entry>
    decreases |cs|
  {
    if cs == [] || !m.running then []
    else [Heard(cs[0])] + Saying(Reply(m, cs[0])) + DrainLog(Consume(m, cs[0]), cs[1..])
  }

  function Log(cfg: Config, beats: seq<Beat>): seq<Entry>
    decreases |beats|
  {
    if beats == [] then []
    else
      var front := beats[..|beats| - 1];
      Log(cfg, front) + DrainLog(Run(cfg, front), beats[|beats| - 1].commands) + Saying(LastPass(cfg, beats).events)
  }

  // ---- reading the log backwards ----

  /** Nothing has woken the monitor since it was started, paused or raised a trigger. */
  function Sleeps(log: seq<Entry>): bool
    decreases |log|
  {
    if log == [] then true
    else
      match log[|log| - 1]
      case Heard(Root(_, _)) => false
      case Heard(Pause(_)) => true
      case Said(Trigger(_, _, _, _)) => true
      case _ => Sleeps(log[..|log| - 1])
  }

  /** The server named last, with its generation. */
  function Server(log: seq<Entry>): (int, int)
    decreases |log|
  {
    if log == [] then (0, 0)
    else
      match log[|log| - 1]
      case Heard(Root(pid, g)) => (pid, g)
      case _ => Server(log[..|log| - 1])
  }

  /** The guard of worker `w` in generation `g`: that of the last table for that
      generation or the last replacement announced, whichever is later, unless the
      monitor has been paused or given a new server since. */
  function GuardOf(log: seq<Entry>, g: int, w: int): Option<Guard>
    decreases |log|
  {
    if log == [] then None
    else
      var rest := log[..|log| - 1];
      match log[|log| - 1]
      case Heard(Root(_, _)) => None
      case Heard(Pause(_)) => None
      case Heard(Guards(h, table)) =>
        if h != g then GuardOf(rest, g, w) else if w in table then Some(table[w]) else None
      case Said(GuardReplaced(_, v, _, guard)) => if v == w then Some(guard) else GuardOf(rest, g, w)
      case _ => GuardOf(rest, g, w)
  }

  function Guarded(m: Monitor, w: int): Option<Guard> { if w in m.guards then Some(m.guards[w]) else None }

  ghost predicate Agrees(m: Monitor, log: seq<Entry>) {
    && (m.paused <==> Sleeps(log))
    && (m.rootPid, m.generation) == Server(log)
    && forall w :: Guarded(m, w) == GuardOf(log, m.generation, w)
  }

  // ---- one entry at a time ----

  lemma SayingOne(e: Event)
    ensures Saying([e]) == [Said(e)]
  {
  }

  lemma HearAgrees(m: Monitor, log: seq<Entry>, c: Command)
    requires m.running && Agrees(m, log)
    ensures Agrees(Consume(m, c), log + [Heard(c)] + Saying(Reply(m, c)))
  {
    var m', heard := Consume(m, c), log + [Heard(c)];
    assert heard[..|log|] == log;
    forall w ensures Guarded(m', w) == GuardOf(heard, m'.generation, w) {
      assert Guarded(m, w) == GuardOf(log, m.generation, w);
    }
    if Reply(m, c) == [] {
      assert Agrees(m', heard) && heard + Saying([]) == heard;
    } else {
      var e := Reply(m, c)[0];
      SayingOne(e);
      var said := heard + [Said(e)];
      assert said[..|heard|] == heard;
      forall w ensures Guarded(m', w) == GuardOf(said, m'.generation, w) {
        assert GuardOf(said, m'.generation, w) == GuardOf(heard, m'.generation, w);
      }
    }
  }

  lemma {:induction false} DrainAgrees(m: Monitor, log: seq<Entry>, cs: seq<Command>)
    requires Agrees(m, log)
    ensures Agrees(Drained(m, cs), log + DrainLog(m, cs))
    decreases |cs|
  {
    if cs == [] || !m.running {
      assert log + [] == log;
    } else {
      var now := [Heard(cs[0])] + Saying(Reply(m, cs[0]));
      HearAgrees(m, log, cs[0]);
      assert log + [Heard(cs[0])] + Saying(Reply(m, cs[0])) == log + now;
      DrainAgrees(Consume(m, cs[0]), log + now, cs[1..]);
      assert log + now + DrainLog(Consume(m, cs[0]), cs[1..]) == log + DrainLog(m, cs);
    }
  }

  /** The monitor changes, and says one thing that accounts for the change. */
  lemma SayAgrees(m: Monitor, log: seq<Entry>, m': Monitor, e: Event)
    requires Agrees(m, log) && (m'.rootPid, m'.generation) == (m.rootPid, m.generation)
    requires m'.paused == (m.paused || e.Trigger?)
    requires m'.guards == if e.GuardReplaced? then m.guards[e.worker := e.guard] else m.guards
    ensures Agrees(m', log + Saying([e]))
  {
    SayingOne(e);
    var said := log + [Said(e)];
    assert said[..|log|] == log;
    forall u ensures Guarded(m', u) == GuardOf(said, m'.generation, u) {
      assert Guarded(m, u) == GuardOf(log, m.generation, u);
    }
  }

  lemma SilenceAgrees(m: Monitor, log: seq<Entry>, m': Monitor)
    requires Agrees(m, log) && (m'.rootPid, m'.generation, m'.paused, m'.guards) == (m.rootPid, m.generation, m.paused, m.guards)
    ensures Agrees(m', log + Saying([]))
  {
    assert log + Saying([]) == log;
    forall u ensures Guarded(m', u) == GuardOf(log, m'.generation, u) {
      assert Guarded(m, u) == GuardOf(log, m.generation, u);
    }
  }

  lemma VisitAgrees(cfg: Config, m: Monitor, log: seq<Entry>, now: real, w: int, s: Sight)
    requires w in m.guards && Agrees(m, log)
    ensures Agrees(Visit(cfg, m, now, w, s).m, log + Saying(Visit(cfg, m, now, w, s).events))
  {
    var v := Visit(cfg, m, now, w, s);
    if v.events == [] {
      SilenceAgrees(m, log, v.m);
    } else {
      assert v.events == [v.events[0]];
      SayAgrees(m, log, v.m, v.events[0]);
    }
  }

  lemma SayingMore(log: seq<Entry>, a: seq<Event>, b: seq<Event>)
    ensures log + Saying(a) + Saying(b) == log + Saying(a + b)
  {
    assert Saying(a + b) == Saying(a) + Saying(b);
  }

  lemma {:induction false} ScanAgrees(cfg: Config, m: Monitor, log: seq<Entry>, now: real, order: seq<int>, sight: int -> Sight)
    requires (forall w | w in order :: w in m.guards) && Agrees(m, log)
    ensures Agrees(Scan(cfg, m, now, order, sight).m, log + Saying(Scan(cfg, m, now, order, sight).events))
    decreases |order|
  {
    if order == [] {
      assert log + Saying([]) == log;
    } else {
      var v := Visit(cfg, m, now, order[0], sight(order[0]));
      VisitAgrees(cfg, m, log, now, order[0], sight(order[0]));
      if !v.halt {
        var rest := Scan(cfg, v.m, now, order[1..], sight);
        ScanAgrees(cfg, v.m, log + Saying(v.events), now, order[1..], sight);
        SayingMore(log, v.events, rest.events);
        assert Scan(cfg, m, now, order, sight) == Then(v, rest);
      }
    }
  }

  lemma PassAgrees(cfg: Config, m: Monitor, log: seq<Entry>, r: Round)
    requires Lists(m, r.order) && Agrees(m, log)
    ensures Agrees(Pass(cfg, m, r).m, log + Saying(Pass(cfg, m, r).events))
  {
    var v := Open(cfg, m, r.now, r.rootAlive);
    if v.halt {
      assert v.events == [v.events[0]];
      SayAgrees(m, log, v.m, v.events[0]);
    } else {
      SilenceAgrees(m, log, v.m);
      assert log + Saying([]) == log;
      ScanAgrees(cfg, v.m, log, r.now, r.order, r.sight);
    }
  }

  /** The monitor is what its log shows, after every run: it is asleep exactly when
      nothing has woken it since it last had reason to sleep, it watches the server
      named last, and it guards for each worker the process published or announced
      last in that server's generation. */
  lemma {:induction false} MonitorIsItsLog(cfg: Config, beats: seq<Beat>)
    ensures Agrees(Run(cfg, beats), Log(cfg, beats))
    decreases |beats|
  {
    if beats != [] {
      var front, last := beats[..|beats| - 1], beats[|beats| - 1];
      MonitorIsItsLog(cfg, front);
      var heard := Log(cfg, front) + DrainLog(Run(cfg, front), last.commands);
      DrainAgrees(Run(cfg, front), Log(cfg, front), last.commands);
      var m := Before(cfg, beats);
      if Awake(m) && Lists(m, last.round.order) {
        PassAgrees(cfg, m, heard, last.round);
      } else {
        assert heard + Saying([]) == heard;
      }
    }
  }

  // ---- replacements ----

  /** The process found for worker `w` is taken over in place of the one that is gone:
      it is another one and alive, before and after the scope for it was made; without
      a hard limit it gets no scope. */
  predicate TakesOver(cfg: Config, m: Monitor, w: int, s: Sight, e: Event) {
    && w in m.guards && !s.alive && s.candidate.Some? && e.GuardReplaced?
    && var old_, new_ := m.guards[w], s.candidate.value;
       && new_.alive && new_.pid != old_.pid && new_.adoption.Adopted? && new_.adoption.survived
       && e.generation == m.generation && e.worker == w && e.oldPid == old_.pid && e.guard.pid == new_.pid
       && (cfg.hardLimit.None? ==> e.guard.unit == "" && e.guard.cgroup == "" && e.guard.oomKill == 0)
       && (cfg.hardLimit.Some? ==>
             && e.guard.unit == new_.adoption.unit && e.guard.cgroup == new_.adoption.cgroup
             && e.guard.oomKill == (if new_.adoption.oom.Some? then new_.adoption.oom.value else 0))
  }

  lemma VisitTakesOver(cfg: Config, m: Monitor, now: real, w: int, s: Sight, e: Event)
    requires w in m.guards && e in Visit(cfg, m, now, w, s).events && e.GuardReplaced?
    ensures TakesOver(cfg, m, w, s, e) && w !in Visit(cfg, m, now, w, s).m.missing
  {
  }

  /** Each replacement announced by a pass takes over the process found for a worker
      whose guarded process was gone, and announces no other. */
  lemma {:induction false} ReplacementsTakeOver(cfg: Config, m: Monitor, now: real, order: seq<int>, sight: int -> Sight, e: Event)
    requires (forall w | w in order :: w in m.guards) && forall i, j | 0 <= i < j < |order| :: order[i] != order[j]
    requires e in Scan(cfg, m, now, order, sight).events && e.GuardReplaced?
    ensures e.worker in order && TakesOver(cfg, m, e.worker, sight(e.worker), e)
    decreases |order|
  {
    var w, rest := order[0], order[1..];
    var v := Visit(cfg, m, now, w, sight(w));
    if e in v.events {
      VisitTakesOver(cfg, m, now, w, sight(w), e);
    } else {
      ReplacementsTakeOver(cfg, v.m, now, rest, sight, e);
      assert e.worker != w;
      VisitRecords(cfg, m, now, w, sight(w), e.worker);
    }
  }

  // ---- scopes made and stopped ----

  /** The scope that looking at worker `w` makes systemd create. */
  predicate Makes(cfg: Config, m: Monitor, w: int, s: Sight, unit: string) {
    && w in m.guards && !s.alive && s.candidate.Some? && cfg.hardLimit.Some? && unit != ""
    && s.candidate.value.alive && s.candidate.value.pid != m.guards[w].pid
    && match s.candidate.value.adoption {
         case Refused => false
         case Stranded(u) => unit == u
         case Adopted(u, _, _, _) => unit == u
       }
  }

  /** The scope that looking at worker `w` has systemd stop: the new one if its process
      did not survive, and otherwise that of the process taken over from. */
  predicate Stops(cfg: Config, m: Monitor, w: int, s: Sight, unit: string) {
    && w in m.guards && !s.alive && s.candidate.Some? && unit != ""
    && s.candidate.value.alive && s.candidate.value.pid != m.guards[w].pid && s.candidate.value.adoption.Adopted?
    && if s.candidate.value.adoption.survived then unit == m.guards[w].unit
       else cfg.hardLimit.Some? && unit == s.candidate.value.adoption.unit
  }

  lemma VisitScopes(cfg: Config, m: Monitor, now: real, w: int, s: Sight, unit: string)
    requires w in m.guards && !Visit(cfg, m, now, w, s).halt
    ensures unit in Visit(cfg, m, now, w, s).adopted <==> Makes(cfg, m, w, s, unit)
    ensures unit in Visit(cfg, m, now, w, s).dropped <==> Stops(cfg, m, w, s, unit)
  {
  }

  lemma OthersKeepScopes(cfg: Config, m: Monitor, now: real, v: int, s: Sight, w: int, t: Sight, unit: string)
    requires v in m.guards && w != v && !Visit(cfg, m, now, v, s).halt
    ensures var m' := Visit(cfg, m, now, v, s).m;
            && (Makes(cfg, m', w, t, unit) <==> Makes(cfg, m, w, t, unit))
            && (Stops(cfg, m', w, t, unit) <==> Stops(cfg, m, w, t, unit))
  {
    VisitRecords(cfg, m, now, v, s, w);
  }

  /** A walk that raises no trigger makes and stops exactly the scopes that its
      workers, each looked at as the walk found it, call for. */
  lemma {:induction false} ScanScopes(cfg: Config, m: Monitor, now: real, order: seq<int>, sight: int -> Sight, unit: string)
    requires (forall w | w in order :: w in m.guards) && forall i, j | 0 <= i < j < |order| :: order[i] != order[j]
    requires !Scan(cfg, m, now, order, sight).halt
    ensures unit in Scan(cfg, m, now, order, sight).adopted <==> exists w | w in order :: Makes(cfg, m, w, sight(w), unit)
    ensures unit in Scan(cfg, m, now, order, sight).dropped <==> exists w | w in order :: Stops(cfg, m, w, sight(w), unit)
    decreases |order|
  {
    if order != [] {
      var v, rest := order[0], order[1..];
      var m' := Visit(cfg, m, now, v, sight(v)).m;
      assert order == [v] + rest;
      VisitScopes(cfg, m, now, v, sight(v), unit);
      forall w | w in rest
        ensures Makes(cfg, m', w, sight(w), unit) <==> Makes(cfg, m, w, sight(w), unit)
        ensures Stops(cfg, m', w, sight(w), unit) <==> Stops(cfg, m, w, sight(w), unit) {
        OthersKeepScopes(cfg, m, now, v, sight(v), w, sight(w), unit);
      }
      ScanScopes(cfg, m', now, rest, sight, unit);
    }
  }
}
