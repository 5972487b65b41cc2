/** What the monitor makes of the commands that the owning process sends it in the
    course of a recovery: whether it watches, and which generation. */
module Observer {
  import opened Wrappers
  import opened WatchdogTypes
  import opened MonitorSpec
  import opened Protocol
  import opened ProtocolProofs

  // ---- nobody watches while the server is killed ----

  /** The last command in the queue that decides whether and what the monitor watches. */
  function LastWord(cs: seq<Command>): Option<Command>
    decreases |cs|
  {
    if cs == [] then None
    else if Control(cs[|cs| - 1]) || cs[|cs| - 1].Stop? then Some(cs[|cs| - 1])
    else LastWord(cs[..|cs| - 1])
  }

  lemma LastWordAppend(cs: seq<Command>, c: Command)
    ensures LastWord(cs + [c]) == if Control(c) || c.Stop? then Some(c) else LastWord(cs)
  {
    assert (cs + [c])[..|cs|] == cs;
  }

  lemma {:induction false} LastWordTail(cs: seq<Command>)
    requires cs != []
    ensures LastWord(cs) == if LastWord(cs[1..]).Some? then LastWord(cs[1..]) else LastWord([cs[0]])
    decreases |cs|
  {
    if |cs| == 1 {
      assert cs == [cs[0]] && cs[1..] == [];
    } else {
      var front := cs[..|cs| - 1];
      LastWordTail(front);
      assert front[1..] == cs[1..][..|cs| - 2];
    }
  }

  predicate Hushed(m: Monitor) { m.running && m.paused && m.guards == map[] }

  /** The monitor is at rest, or will be after the last word it is sent. */
  ghost predicate WillHush(s: State) {
    s.monitorAlive ==>
      match LastWord(s.commands)
      case None => Hushed(s.monitor) && s.adopting.None?
      case Some(c) => c.Pause? && s.monitor.running
  }

  ghost predicate Killing(p: Phase) { p.Begun? || p.Cleared? }

  ghost predicate NoStop(s: State) {
    s.monitorAlive && !s.phase.Stopping? && !s.phase.Stopped? ==> s.monitor.running && Stop !in s.commands
  }

  lemma NoStopRecovery(s: State, a: RecoveryStep)
    requires NoStop(s) && RecoveryEnabled(s, a)
    ensures NoStop(AfterRecovery(s, a))
  {
  }

  lemma NoStopMonitor(s: State, a: MonitorStep)
    requires NoStop(s) && MonitorEnabled(s, a)
    ensures NoStop(AfterMonitor(s, a))
  {
    if a.Takes? {
      assert s.commands[0] in s.commands && forall c | c in s.commands[1..] :: c in s.commands;
    }
  }

  lemma NoStopAttach(s: State, a: AttachStep)
    requires NoStop(s) && AttachEnabled(s, a)
    ensures NoStop(AfterAttach(s, a)) && !Killing(AfterAttach(s, a).phase)
  {
  }

  lemma NoStopOwner(s: State, a: OwnerStep)
    requires NoStop(s) && OwnerEnabled(s, a)
    ensures NoStop(AfterOwner(s, a)) && (Killing(AfterOwner(s, a).phase) ==> Killing(s.phase))
  {
  }

  lemma NoStopStep(s: State, a: Step)
    requires NoStop(s) && Enabled(s, a)
    ensures NoStop(After(s, a))
  {
    match a
    case Recover(r) => NoStopRecovery(s, r);
    case Attach(t) => NoStopAttach(s, t);
    case Own(o) => NoStopOwner(s, o);
    case Observe(m) => NoStopMonitor(s, m);
  }

  lemma HushTake(s: State)
    requires WillHush(s) && MonitorEnabled(s, Takes) && Stop !in s.commands
    ensures WillHush(AfterMonitor(s, Takes))
  {
    var c := s.commands[0];
    assert c in s.commands;
    LastWordTail(s.commands);
    LastWordAppend([], c);
    assert [] + [c] == [c];
  }

  lemma HushRecovery(s: State, a: RecoveryStep)
    requires RecoveryEnabled(s, a) && NoStop(s) && (Killing(s.phase) ==> WillHush(s))
    ensures Killing(AfterRecovery(s, a).phase) ==> WillHush(AfterRecovery(s, a))
  {
    if a.BeginRecovery? || a.BeginAfterMonitorDeath? || a.Retry? {
      LastWordAppend(s.commands, Pause(s.generation));
    }
  }

  lemma HushOwner(s: State, a: OwnerStep)
    requires OwnerEnabled(s, a) && Killing(s.phase) && WillHush(s)
    ensures Killing(AfterOwner(s, a).phase) ==> WillHush(AfterOwner(s, a))
  {
    if a.Send? {
      LastWordAppend(s.commands, a.command);
    }
  }

  lemma HushMonitor(s: State, a: MonitorStep)
    requires MonitorEnabled(s, a) && NoStop(s) && Killing(s.phase) && WillHush(s)
    ensures WillHush(AfterMonitor(s, a))
  {
    if a.Takes? {
      HushTake(s);
    }
  }

  lemma HushStep(s: State, a: Step)
    requires Enabled(s, a) && NoStop(s) && (Killing(s.phase) ==> WillHush(s))
    ensures Killing(After(s, a).phase) ==> WillHush(After(s, a))
  {
    match a
    case Recover(r) => HushRecovery(s, r);
    case Attach(t) => NoStopAttach(s, t);
    case Own(o) =>
      NoStopOwner(s, o);
      if Killing(s.phase) { HushOwner(s, o); }
    case Observe(m) => if Killing(s.phase) { HushMonitor(s, m); }
  }

  lemma {:induction false} KillingIsHushed(steps: seq<Step>)
    requires Legal(steps)
    ensures NoStop(Exec(steps)) && (Killing(Exec(steps).phase) ==> WillHush(Exec(steps)))
    decreases |steps|
  {
    if steps != [] {
      var front := steps[..|steps| - 1];
      KillingIsHushed(front);
      NoStopStep(Exec(front), steps[|steps| - 1]);
      HushStep(Exec(front), steps[|steps| - 1]);
    }
  }

  /** From the start of an attempt until the new server is looked for, that is while
      the workers' scopes are stopped and the old server is killed, a pause is on its
      way to the monitor and nothing that would wake it; and once the monitor has taken
      what is queued it is paused, guards nobody and is adopting no process, so it
      raises no trigger and makes no scope. */
  lemma NobodyWatchesTheKill(steps: seq<Step>)
    requires Legal(steps) && Killing(Exec(steps).phase) && Exec(steps).monitorAlive
    ensures var s := Exec(steps);
            && (LastWord(s.commands).Some? ==> LastWord(s.commands).value.Pause?)
            && (LastWord(s.commands).None? ==>
                  && s.monitor.running && s.monitor.paused && s.monitor.guards == map[] && s.adopting.None?
                  && (forall kind, reason, ws :: !MonitorEnabled(s, Triggers(kind, reason, ws)))
                  && (forall w, g :: !MonitorEnabled(s, Creates(w, g))))
  {
    KillingIsHushed(steps);
  }

  ghost predicate Bare(s: State) { s.phase.Cleared? || s.phase.Connected? ==> s.table == map[] }

  lemma BareOwner(s: State, a: OwnerStep)
    requires OwnerEnabled(s, a) && Bare(s)
    ensures Bare(AfterOwner(s, a))
  {
  }

  lemma BareRecovery(s: State, a: RecoveryStep)
    requires RecoveryEnabled(s, a) && Bare(s)
    ensures Bare(AfterRecovery(s, a))
  {
  }

  lemma BareAttach(s: State, a: AttachStep)
    requires AttachEnabled(s, a)
    ensures Bare(AfterAttach(s, a))
  {
  }

  lemma BareStep(s: State, a: Step)
    requires Enabled(s, a) && Bare(s)
    ensures Bare(After(s, a))
  {
    match a
    case Recover(r) => BareRecovery(s, r);
    case Attach(t) => BareAttach(s, t);
    case Own(o) => BareOwner(s, o);
    case Observe(m) =>
  }

  /** And while it is killed, and until the new workers are attached, no worker is
      recorded as guarded: a replacement that is still announced is turned away. */
  lemma {:induction false} NoGuardsSurviveTheKill(steps: seq<Step>)
    requires Legal(steps)
    ensures Exec(steps).phase.Cleared? || Exec(steps).phase.Connected? ==> Exec(steps).table == map[]
    decreases |steps|
  {
    if steps != [] {
      var front := steps[..|steps| - 1];
      NoGuardsSurviveTheKill(front);
      BareStep(Exec(front), steps[|steps| - 1]);
    }
  }

  // ---- what it will be doing ----

  /** The monitor as it will be once it has taken what is queued. */
  function Settled(s: State): Monitor { Drained(s.monitor, s.commands) }

  lemma {:induction false} DrainLast(m: Monitor, cs: seq<Command>, c: Command)
    requires Drained(m, cs).running
    ensures Drained(m, cs + [c]) == Consume(Drained(m, cs), c)
    decreases |cs|
  {
    if cs == [] {
      assert [c][1..] == [] && cs + [c] == [c];
      assert Drained(m, [c]) == Drained(Consume(m, c), []);
    } else {
      assert (cs + [c])[0] == cs[0] && (cs + [c])[1..] == cs[1..] + [c];
      DrainLast(Consume(m, cs[0]), cs[1..], c);
    }
  }

  /** Two monitors that differ only in what this forgets. */
  predicate Alike(m: Monitor, n: Monitor) { m.running == n.running && m.generation == n.generation && m.paused == n.paused }

  lemma {:induction false} DrainAlike(m: Monitor, n: Monitor, cs: seq<Command>)
    requires Alike(m, n)
    ensures Alike(Drained(m, cs), Drained(n, cs))
    decreases |cs|
  {
    if cs != [] && m.running {
      DrainAlike(Consume(m, cs[0]), Consume(n, cs[0]), cs[1..]);
    }
  }

  /** Raising a trigger pauses the monitor for good unless a new server is announced
      in the queue already. */
  lemma {:induction false} DrainPaused(m: Monitor, cs: seq<Command>)
    requires Drained(m, cs).running
    ensures var d, e := Drained(m, cs), Drained(m.(paused := true), cs);
            && e.running && e.generation == d.generation
            && (if exists c :: c in cs && c.Root? then e.paused == d.paused else e.paused && d.generation == m.generation)
    decreases |cs|
  {
    if cs != [] && m.running {
      var c, rest := cs[0], cs[1..];
      assert forall x :: x in cs <==> x == c || x in rest;
      if c.Root? {
        DrainAlike(Consume(m, c), Consume(m.(paused := true), c), rest);
      } else {
        DrainPaused(Consume(m, c), rest);
        DrainAlike(Consume(m.(paused := true), c), Consume(m, c).(paused := true), rest);
      }
    }
  }

  /** Some live server has been announced to the monitor that runs now. */
  ghost function Watched(steps: seq<Step>): bool
    requires Legal(steps)
    decreases |steps|
  {
    if steps == [] then false
    else
      var front := steps[..|steps| - 1];
      WatchedAfter(Exec(front), steps[|steps| - 1], Watched(front))
  }

  function WatchedAfter(s: State, a: Step, watched: bool): bool {
    match a
    case Recover(Connect(alive)) => alive || (s.monitorAlive && watched)
    case Recover(Reconnect(alive)) => alive || (s.monitorAlive && watched)
    case _ => watched
  }

  /** Since the last live server was announced a recovery has paused the monitor, a
      trigger was raised or a fatal line is on its way, all in this generation; or the
      monitor was started anew without a live server. */
  ghost function Resting(steps: seq<Step>): bool
    requires Legal(steps)
    decreases |steps|
  {
    if steps == [] then true
    else
      var front := steps[..|steps| - 1];
      RestingAfter(Exec(front), steps[|steps| - 1], Resting(front))
  }

  function RestingAfter(s: State, a: Step, resting: bool): bool {
    match a
    case Recover(Connect(alive)) => !alive && (!s.monitorAlive || resting)
    case Recover(Reconnect(alive)) => !alive && (!s.monitorAlive || resting)
    case Recover(BeginRecovery) => true
    case Recover(Retry) => true
    case Own(Send(FatalLine(g, _))) => g == s.generation || resting
    case Observe(Triggers(_, _, _)) => s.monitor.generation == s.generation || resting
    case _ => resting
  }

  ghost predicate Foreseen(s: State, watched: bool, resting: bool) {
    s.monitorAlive && !s.phase.Stopping? && !s.phase.Stopped? ==>
      var m := Settled(s);
      && m.running && (!watched ==> m.generation == 0 && resting && forall c | c in s.commands :: !c.Root?)
      && (watched ==> m.generation == s.generation) && (m.paused <==> resting)
  }

  lemma ForeseenSent(s: State, s': State, c: Command, watched: bool, resting: bool)
    requires Foreseen(s, watched, resting) && s.monitorAlive && !s.phase.Stopping? && !s.phase.Stopped?
    requires s'.commands == s.commands + [c] && s'.monitor == s.monitor && !c.Stop?
    requires c.Root? || s'.generation == s.generation
    requires c.Root? ==> c.generation == s'.generation
    ensures Foreseen(s', watched || c.Root?,
                     !c.Root? && (resting || c.Pause? || (c.FatalLine? && c.generation == s.generation)))
  {
    DrainLast(s.monitor, s.commands, c);
  }

  lemma ForeseenStarted(s: State, alive: bool, watched: bool, resting: bool)
    requires Foreseen(s, watched, resting) && !s.phase.Stopping? && !s.phase.Stopped?
    ensures var s' := StartWatchdog(s, alive);
            Foreseen(s', alive || (s.monitorAlive && watched), !alive && (!s.monitorAlive || resting))
  {
    var t := StartMonitor(s).(serverAlive := alive);
    if !s.monitorAlive {
      assert Drained(BOOT, []) == BOOT;
      assert Foreseen(t, false, true);
    }
    if alive {
      ForeseenSent(t, StartWatchdog(s, alive), Root(0, s.generation + 1),
                   s.monitorAlive && watched, !s.monitorAlive || resting);
    }
  }

  /** The monitor goes on, its queue the same. */
  lemma ForeseenFrame(s: State, s': State, watched: bool, resting: bool)
    requires Foreseen(s, watched, resting) && s'.commands == s.commands && s'.generation == s.generation
    requires s'.monitorAlive ==> s.monitorAlive && Alike(s.monitor, s'.monitor)
    requires s.phase.Stopping? || s.phase.Stopped? ==> s'.phase.Stopping? || s'.phase.Stopped?
    ensures Foreseen(s', watched, resting)
  {
    if s'.monitorAlive {
      DrainAlike(s.monitor, s'.monitor, s.commands);
    }
  }

  lemma ForeseenRecovery(s: State, a: RecoveryStep, watched: bool, resting: bool)
    requires Foreseen(s, watched, resting) && RecoveryEnabled(s, a)
    ensures a.Connect? || a.Reconnect? ==>
              Foreseen(AfterRecovery(s, a), a.alive || (s.monitorAlive && watched), !a.alive && (!s.monitorAlive || resting))
    ensures a.BeginRecovery? || a.Retry? ==> Foreseen(AfterRecovery(s, a), watched, true)
    ensures a.BeginAfterMonitorDeath? || a.ClearScopes? || a.AttemptFails? || a.CompleteUnguarded? ==>
              Foreseen(AfterRecovery(s, a), watched, resting)
  {
    var s' := AfterRecovery(s, a);
    if a.Connect? || a.Reconnect? {
      ForeseenStarted(s, a.alive, watched, resting);
      assert Settled(s') == Settled(StartWatchdog(s, a.alive));
    } else if a.BeginRecovery? || a.Retry? {
      if s.monitorAlive {
        ForeseenSent(s, s', Pause(s.generation), watched, resting);
      }
    } else if !a.BeginAfterMonitorDeath? {
      ForeseenFrame(s, s', watched, resting);
    }
  }

  lemma ForeseenAttach(s: State, a: AttachStep, watched: bool, resting: bool)
    requires Foreseen(s, watched, resting) && AttachEnabled(s, a)
    ensures Foreseen(AfterAttach(s, a), watched, resting)
  {
    var s' := AfterAttach(s, a);
    if a.AttachPublishes? {
      if s.monitorAlive {
        ForeseenSent(s, s', Guards(s.generation, s.phase.created), watched, resting);
      }
    } else {
      ForeseenFrame(s, s', watched, resting);
    }
  }

  lemma ForeseenOwner(s: State, a: OwnerStep, watched: bool, resting: bool)
    requires Foreseen(s, watched, resting) && OwnerEnabled(s, a)
    ensures Foreseen(AfterOwner(s, a), watched,
                     resting || (a.Send? && a.command.FatalLine? && a.command.generation == s.generation))
  {
    var s' := AfterOwner(s, a);
    if a.Send? {
      if s.monitorAlive && !s.phase.Stopping? && !s.phase.Stopped? {
        ForeseenSent(s, s', a.command, watched, resting);
      }
    } else if !a.RequestStop? {
      ForeseenFrame(s, s', watched, resting);
    }
  }

  lemma ForeseenTriggers(s: State, kind: Kind, reason: Reason, ws: set<int>, watched: bool, resting: bool)
    requires Foreseen(s, watched, resting) && QueueKept(s) && FencingKept(s) && MonitorEnabled(s, Triggers(kind, reason, ws))
    ensures Foreseen(AfterMonitor(s, Triggers(kind, reason, ws)), watched, resting || s.monitor.generation == s.generation)
  {
    if !s.phase.Stopping? && !s.phase.Stopped? {
      DrainPaused(s.monitor, s.commands);
    }
  }

  lemma ForeseenMonitor(s: State, a: MonitorStep, watched: bool, resting: bool)
    requires Foreseen(s, watched, resting) && QueueKept(s) && FencingKept(s) && MonitorEnabled(s, a)
    ensures Foreseen(AfterMonitor(s, a), watched, resting || (a.Triggers? && s.monitor.generation == s.generation))
  {
    var s' := AfterMonitor(s, a);
    if a.Triggers? {
      ForeseenTriggers(s, a.kind, a.reason, a.workers, watched, resting);
    } else if a.Takes? {
      assert Settled(s') == Settled(s);
      assert forall c | c in s'.commands :: c in s.commands;
    } else {
      ForeseenFrame(s, s', watched, resting);
    }
  }

  lemma ForeseenStep(s: State, a: Step, watched: bool, resting: bool)
    requires Foreseen(s, watched, resting) && QueueKept(s) && FencingKept(s) && Enabled(s, a)
    ensures Foreseen(After(s, a), WatchedAfter(s, a, watched), RestingAfter(s, a, resting))
  {
    match a
    case Recover(r) => ForeseenRecovery(s, r, watched, resting);
    case Attach(t) => ForeseenAttach(s, t, watched, resting);
    case Own(o) => ForeseenOwner(s, o, watched, resting);
    case Observe(m) => ForeseenMonitor(s, m, watched, resting);
  }

  lemma {:induction false} RunsAreForeseen(steps: seq<Step>)
    requires Legal(steps)
    ensures Foreseen(Exec(steps), Watched(steps), Resting(steps))
    decreases |steps|
  {
    if steps != [] {
      var front := steps[..|steps| - 1];
      RunsAreForeseen(front);
      Invariant(front);
      ForeseenStep(Exec(front), steps[|steps| - 1], Watched(front), Resting(front));
    }
  }

  /** What the monitor will be doing, after every run: once it has taken the commands
      that are queued, it is in the generation of the server announced last, and it is
      awake exactly if since then no recovery has paused it, it has raised no trigger
      and no fatal line is on its way to it. */
  lemma MonitorFollows(steps: seq<Step>)
    requires Legal(steps) && Exec(steps).monitorAlive && !Exec(steps).phase.Stopping? && !Exec(steps).phase.Stopped?
    ensures var s := Exec(steps);
            && Settled(s).running && Settled(s).generation == (if Watched(steps) then s.generation else 0)
            && (Settled(s).paused <==> Resting(steps)) && (Resting(steps) || Watched(steps))
  {
    RunsAreForeseen(steps);
  }
}
