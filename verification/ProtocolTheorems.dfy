/** The promises of the recovery protocol, for every run. */
module ProtocolTheorems {
  import opened Wrappers
  import opened WatchdogTypes
  import opened MonitorSpec
  import opened GuardTables
  import opened Protocol
  import opened ProtocolProofs

  // ---- scopes ----

  /** The live scopes that nobody names. */
  ghost function Unnamed(s: State): set<string> { Live(s) - Accounted(s) }

  /** The scopes that are live and unnamed after a step and were not before it. */
  ghost function Lost(s: State, a: Step): set<string>
    requires Enabled(s, a)
  {
    Unnamed(After(s, a)) - Unnamed(s)
  }

  /** Every live scope is recorded by the owning process, announced in the event
      queue, being created by one side, or was orphaned earlier in the run. */
  lemma LiveScopesAreAccountedFor(steps: seq<Step>, u: string)
    requires Legal(steps) && u in Live(Exec(steps))
    ensures var s := Exec(steps);
            u in Units(s.table) || u in EventUnits(s.events) || u in PhaseUnits(s.phase) ||
            u in AdoptingUnits(s.adopting) || u in s.orphans
  {
    Invariant(steps);
  }

  // ---- which steps lose scopes ----

  /** What a step loses, read off the state before it: a scope whose creating call
      raises after systemd has made it; all those created so far when an interrupt
      ends an attachment by hand; a scope in the hands of a monitor that dies,
      and those announced in events that die with it; and those announced in the
      unread events of a dead monitor that is replaced. */
  ghost function Dropped(s: State, a: Step): set<string>
    requires Enabled(s, a)
  {
    match a
    case Attach(AttachStrands(unit)) => {unit}
    case Attach(AttachInterrupted(unit)) => (PhaseUnits(s.phase) - s.stopped) + UnitName(unit)
    case Observe(Strands) => AdoptingUnits(s.adopting)
    case Observe(Dies(kept)) => AdoptingUnits(s.adopting) + (EventUnits(s.events[kept..]) - s.stopped)
    case Recover(Connect(_)) => if s.monitorAlive then {} else EventUnits(s.events) - s.stopped
    case Recover(Reconnect(_)) => if s.monitorAlive then {} else EventUnits(s.events) - s.stopped
    case _ => {}
  }

  /** The same as a test of the state before the step. */
  ghost predicate Harmless(s: State, a: Step)
    requires Enabled(s, a)
  {
    match a
    case Attach(AttachStrands(_)) => false
    case Attach(AttachInterrupted(unit)) => unit == "" && Units(s.phase.created) <= s.stopped
    case Observe(Strands) => s.adopting.value.guard.unit == ""
    case Observe(Dies(kept)) =>
      (s.adopting.Some? ==> s.adopting.value.guard.unit == "") && EventUnits(s.events[kept..]) <= s.stopped
    case Recover(Connect(_)) => s.monitorAlive || EventUnits(s.events) <= s.stopped
    case Recover(Reconnect(_)) => s.monitorAlive || EventUnits(s.events) <= s.stopped
    case _ => true
  }

  lemma StartDrops(s: State, alive: bool)
    requires Inv(s)
    ensures var s' := StartWatchdog(s, alive);
            s'.orphans == s.orphans + if s.monitorAlive then {} else EventUnits(s.events) - s.stopped
  {
    assert EventUnits([]) == {};
    if !s.monitorAlive {
      var s1 := StartMonitor(s);
      assert Accounted(s) == Accounted(s1) + EventUnits(s.events);
    }
  }

  lemma DeathDrops(s: State, kept: nat)
    requires Inv(s) && MonitorEnabled(s, Dies(kept))
    ensures AfterMonitor(s, Dies(kept)).orphans == s.orphans + Dropped(s, Observe(Dies(kept)))
  {
    var s', lost := AfterMonitor(s, Dies(kept)), AdoptingUnits(s.adopting) + EventUnits(s.events[kept..]);
    NamedOncePart(s.events, kept);
    assert Accounted(s) == Accounted(s') + lost;
    assert Accounted(s') !! lost;
  }

  /** The orphans of `s'` are those of `s` and what the step dropped, which were none before. */
  ghost predicate DropsExactly(s: State, a: Step, s': State)
    requires Enabled(s, a)
  {
    s'.orphans == s.orphans + Dropped(s, a) && Dropped(s, a) !! s.orphans
  }

  lemma RecoveryDrops(s: State, r: RecoveryStep)
    requires Inv(s) && RecoveryEnabled(s, r)
    ensures DropsExactly(s, Recover(r), AfterRecovery(s, r))
  {
    if r.Connect? || r.Reconnect? {
      StartDrops(s, r.alive);
    }
  }

  lemma MonitorDrops(s: State, m: MonitorStep)
    requires Inv(s) && MonitorEnabled(s, m)
    ensures DropsExactly(s, Observe(m), AfterMonitor(s, m))
  {
    if m.Dies? {
      DeathDrops(s, m.kept);
      NamedOncePart(s.events, m.kept);
    }
  }

  lemma StepDrops(s: State, a: Step)
    requires Inv(s) && Enabled(s, a)
    ensures DropsExactly(s, a, After(s, a))
  {
    match a
    case Recover(r) => RecoveryDrops(s, r);
    case Observe(m) => MonitorDrops(s, m);
    case Attach(t) => assert AfterAttach(s, t).orphans == s.orphans + Dropped(s, a);
    case Own(o) => assert AfterOwner(s, o).orphans == s.orphans;
  }

  /** In every run a step loses exactly the scopes read off the state before it,
      and none exactly when the test says so. */
  lemma StepsLoseExactly(steps: seq<Step>, a: Step)
    requires Legal(steps) && Enabled(Exec(steps), a)
    ensures Lost(Exec(steps), a) == Dropped(Exec(steps), a)
    ensures Lost(Exec(steps), a) == {} <==> Harmless(Exec(steps), a)
    ensures Unnamed(Exec(steps)) <= Unnamed(After(Exec(steps), a))
  {
    Invariant(steps);
    var s := Exec(steps);
    ProtocolProofs.Step(s, a);
    StepDrops(s, a);
    TestIsExact(s, a);
  }

  lemma TestIsExact(s: State, a: Step)
    requires Enabled(s, a)
    ensures Dropped(s, a) == {} <==> Harmless(s, a)
  {
    match a
    case Attach(AttachStrands(unit)) => assert unit in Dropped(s, a);
    case Attach(AttachInterrupted(unit)) =>
      NothingLeft(Units(s.phase.created), s.stopped);
      assert unit != "" ==> unit in Dropped(s, a);
    case Observe(Strands) => HandIsEmpty(s.adopting);
    case Observe(Dies(kept)) =>
      HandIsEmpty(s.adopting);
      NothingLeft(EventUnits(s.events[kept..]), s.stopped);
    case Recover(r) => NothingLeft(EventUnits(s.events), s.stopped);
    case _ =>
  }

  lemma HandIsEmpty(a: Option<Adopting>)
    ensures AdoptingUnits(a) == {} <==> (a.Some? ==> a.value.guard.unit == "")
  {
    if a.Some? && a.value.guard.unit != "" {
      assert a.value.guard.unit in AdoptingUnits(a);
    }
  }

  lemma NothingLeft(a: set<string>, b: set<string>)
    ensures a - b == {} <==> a <= b
  {
    if a - b == {} {
      forall u | u in a ensures u in b {
        assert u !in a - b;
      }
    }
  }

  ghost function AllDropped(steps: seq<Step>): set<string>
    requires Legal(steps)
    decreases |steps|
  {
    if steps == [] then {}
    else AllDropped(steps[..|steps| - 1]) + Dropped(Exec(steps[..|steps| - 1]), steps[|steps| - 1])
  }

  ghost predicate AllHarmless(steps: seq<Step>)
    requires Legal(steps)
    decreases |steps|
  {
    steps != [] ==>
      AllHarmless(steps[..|steps| - 1]) && Harmless(Exec(steps[..|steps| - 1]), steps[|steps| - 1])
  }

  /** After any run the live scopes that nobody names are exactly those its steps dropped. */
  lemma {:induction false} UnnamedScopesWereDropped(steps: seq<Step>)
    requires Legal(steps)
    ensures Unnamed(Exec(steps)) == Exec(steps).orphans == AllDropped(steps)
    ensures AllDropped(steps) == {} <==> AllHarmless(steps)
    decreases |steps|
  {
    Invariant(steps);
    if steps != [] {
      var n := |steps| - 1;
      UnnamedScopesWereDropped(steps[..n]);
      Invariant(steps[..n]);
      StepDrops(Exec(steps[..n]), steps[n]);
      TestIsExact(Exec(steps[..n]), steps[n]);
    }
  }

  /** After a clean stop, whatever replacements, retries and late events came
      before, the live scopes are exactly those dropped on the way: none if and only
      if every step of the run passed the test. */
  lemma CleanStopLeavesTheDropped(steps: seq<Step>)
    requires Legal(steps) && Exec(steps).phase.Stopped?
    ensures Live(Exec(steps)) == AllDropped(steps)
    ensures Live(Exec(steps)) == {} <==> AllHarmless(steps)
  {
    Invariant(steps);
    UnnamedScopesWereDropped(steps);
    StoppedNamesNothing(Exec(steps));
  }

  lemma StoppedNamesNothing(s: State)
    requires PhasesKept(s) && s.phase.Stopped?
    ensures Accounted(s) == {}
  {
    assert EventUnits([]) == {} && Units(map[]) == {};
  }

  /** Make one more step. */
  lemma Push(steps: seq<Step>, s: State, a: Step) returns (steps': seq<Step>, s': State)
    requires Legal(steps) && Exec(steps) == s && Enabled(s, a)
    ensures Legal(steps') && Exec(steps') == s' && s' == After(s, a) && steps' == steps + [a]
  {
    steps' := steps + [a];
    assert steps'[..|steps|] == steps;
    s' := After(s, a);
  }

  lemma ConnectEffect()
    ensures AfterRecovery(INIT, Connect(true))
            == INIT.(generation := 1, serverAlive := true, monitorAlive := true, commands := [Root(0, 1)])
  {
    assert Units(map[]) == {} && EventUnits([]) == {};
  }

  lemma AttachBeginsEffect(s: State)
    requires AttachEnabled(s, AttachBegins) && s.phase.Idle? && s.table == map[] && !s.intact
    ensures AfterAttach(s, AttachBegins) == s.(phase := Attaching(map[], false), armed := true)
  {
    assert Units(map[]) == {};
  }

  /** A first connection, and the workers are being put under guard. */
  lemma {:induction false} AttachingRun() returns (steps: seq<Step>, s: State)
    ensures Legal(steps) && Exec(steps) == s
    ensures forall a | a in steps :: !(a.Observe? && a.m.Dies?)
    ensures s == INIT.(generation := 1, serverAlive := true, monitorAlive := true, commands := [Root(0, 1)],
                       phase := Attaching(map[], false), armed := true)
  {
    ConnectEffect();
    steps, s := Push([], INIT, Recover(Connect(true)));
    AttachBeginsEffect(s);
    steps, s := Push(steps, s, Attach(AttachBegins));
  }

  /** A first connection and a guard that is published but not yet installed. */
  lemma {:induction false} PublishedRun(g: Guard) returns (steps: seq<Step>, s: State)
    requires g.unit != ""
    ensures Legal(steps) && Exec(steps) == s
    ensures forall a | a in steps :: !(a.Observe? && a.m.Dies?)
    ensures s.phase.Idle? && MonitorFree(s) && s.generation == 1 && s.monitor == BOOT
    ensures s.table == map[1 := g] && s.commands == [Root(0, 1), Guards(1, map[1 := g])] && s.events == []
    ensures s.made == {g.unit} && s.stopped == {}
  {
    steps, s := AttachingRun();
    steps, s := Push(steps, s, Attach(AttachOne(1, g)));
    steps, s := Push(steps, s, Attach(AttachPublishes));
  }

  lemma {:induction false} InstalledRun(g: Guard) returns (steps: seq<Step>, s: State)
    requires g.unit != ""
    ensures Legal(steps) && Exec(steps) == s
    ensures forall a | a in steps :: !(a.Observe? && a.m.Dies?)
    ensures s.phase.Idle? && MonitorFree(s) && !s.monitor.paused && s.monitor.guards == map[1 := g]
    ensures s.table == map[1 := g] && s.commands == [] && s.events == [] && s.made == {g.unit} && s.stopped == {}
  {
    steps, s := PublishedRun(g);
    steps, s := Push(steps, s, Observe(Takes));
    steps, s := Push(steps, s, Observe(Takes));
  }

  /** The monitor adopts a replacement and dies before announcing it. */
  lemma {:induction false} AbandonedRun(g: Guard, g': Guard) returns (steps: seq<Step>, s: State)
    requires g.unit != "" && g'.unit != "" && g.unit != g'.unit && g.pid != g'.pid
    ensures Legal(steps) && Exec(steps) == s
    ensures s.phase.Idle? && !s.monitorAlive && s.table == map[1 := g] && s.events == []
    ensures s.made == {g.unit, g'.unit} && s.stopped == {g.unit}
  {
    steps, s := InstalledRun(g);
    steps, s := Push(steps, s, Observe(Creates(1, g')));
    steps, s := Push(steps, s, Observe(Rebinds));
    steps, s := Push(steps, s, Observe(Dies(0)));
  }

  /** A run that does lose one: the monitor dies after adopting a replacement
      process and before its announcement leaves it, and the clean stop that
      follows never hears of the new scope. */
  lemma {:induction false} DeathCanLeakAScope(g: Guard, g': Guard) returns (steps: seq<Step>)
    requires g.unit != "" && g'.unit != "" && g.unit != g'.unit && g.pid != g'.pid
    ensures Legal(steps) && Exec(steps).phase.Stopped? && Live(Exec(steps)) == {g'.unit}
  {
    var s: State;
    steps, s := AbandonedRun(g, g');
    assert s.table[1] == g;
    steps, s := Push(steps, s, Own(RequestStop));
    steps, s := Push(steps, s, Own(FinishStop));
  }

  /** The query for the new scope's control group times out in the monitor, which
      lives on but has lost the name. */
  lemma {:induction false} ForgottenRun(g: Guard, g': Guard) returns (steps: seq<Step>, s: State)
    requires g.unit != "" && g'.unit != "" && g.unit != g'.unit && g.pid != g'.pid
    ensures Legal(steps) && Exec(steps) == s
    ensures forall a | a in steps :: !(a.Observe? && a.m.Dies?)
    ensures s.phase.Idle? && MonitorFree(s) && s.table == map[1 := g] && s.commands == [] && s.events == []
    ensures s.made == {g.unit, g'.unit} && s.stopped == {}
  {
    steps, s := InstalledRun(g);
    steps, s := Push(steps, s, Observe(Creates(1, g')));
    steps, s := Push(steps, s, Observe(Strands));
  }

  lemma {:induction false} StoppingRun(steps: seq<Step>, s: State) returns (steps': seq<Step>, t: State)
    requires Legal(steps) && Exec(steps) == s && (forall a | a in steps :: !(a.Observe? && a.m.Dies?))
    requires s.phase.Idle? && MonitorFree(s) && s.commands == [] && s.events == []
    ensures Legal(steps') && Exec(steps') == t && forall a | a in steps' :: !(a.Observe? && a.m.Dies?)
    ensures t == s.(phase := Stopping, monitor := s.monitor.(running := false))
  {
    steps', t := Push(steps, s, Own(RequestStop));
    assert t.commands == [Stop];
    steps', t := Push(steps', t, Observe(Takes));
    assert t.events == [] && t.commands == [];
  }

  /** A clean stop of an idle owning process with nothing queued. */
  lemma {:induction false} StopRun(steps: seq<Step>, s: State) returns (steps': seq<Step>)
    requires Legal(steps) && Exec(steps) == s && (forall a | a in steps :: !(a.Observe? && a.m.Dies?))
    requires s.phase.Idle? && MonitorFree(s) && s.commands == [] && s.events == []
    ensures Legal(steps') && Exec(steps').phase.Stopped? && Live(Exec(steps')) == Live(s) - Units(s.table)
    ensures forall a | a in steps' :: !(a.Observe? && a.m.Dies?)
  {
    var t: State;
    steps', t := StoppingRun(steps, s);
    steps', t := Push(steps', t, Own(FinishStop));
  }

  /** Another run that loses a scope, although the monitor never dies. */
  lemma {:induction false} MonitorCanStrandAScope(g: Guard, g': Guard) returns (steps: seq<Step>)
    requires g.unit != "" && g'.unit != "" && g.unit != g'.unit && g.pid != g'.pid
    ensures Legal(steps) && Exec(steps).phase.Stopped? && Live(Exec(steps)) == {g'.unit}
    ensures forall a | a in steps :: !(a.Observe? && a.m.Dies?)
  {
    var s: State;
    steps, s := ForgottenRun(g, g');
    assert s.table[1] == g;
    steps := StopRun(steps, s);
  }

  /** The same in the owning process while it puts the workers under guard. */
  lemma {:induction false} StrandedAttachRun(unit: string) returns (steps: seq<Step>, s: State)
    requires unit != ""
    ensures Legal(steps) && Exec(steps) == s
    ensures forall a | a in steps :: !(a.Observe? && a.m.Dies?)
    ensures s.phase.Idle? && MonitorFree(s) && s.table == map[] && s.commands == [] && s.events == []
    ensures s.made == {unit} && s.stopped == {}
  {
    assert Units(map[]) == {};
    steps, s := AttachingRun();
    steps, s := Push(steps, s, Attach(AttachStrands(unit)));
    steps, s := Push(steps, s, Observe(Takes));
  }

  lemma {:induction false} AttachCanStrandAScope(unit: string) returns (steps: seq<Step>)
    requires unit != ""
    ensures Legal(steps) && Exec(steps).phase.Stopped? && Live(Exec(steps)) == {unit}
    ensures forall a | a in steps :: !(a.Observe? && a.m.Dies?)
  {
    var s: State;
    assert Units(map[]) == {};
    steps, s := StrandedAttachRun(unit);
    steps := StopRun(steps, s);
  }

  /** And once more when an interrupt reaches the thread that attaches guards by hand:
      a scope already made and recorded for the table to come is lost. */
  lemma {:induction false} HalfAttachedRun(g: Guard) returns (steps: seq<Step>, s: State)
    requires g.unit != ""
    ensures Legal(steps) && Exec(steps) == s
    ensures forall a | a in steps :: !(a.Observe? && a.m.Dies?)
    ensures s.phase == Attaching(map[1 := g], false) && s.table == map[] && s.events == []
    ensures s.monitorAlive && s.monitor == BOOT && s.adopting.None? && |s.commands| == 1 && s.commands[0].Root?
    ensures s.made == {g.unit} && s.stopped == {}
  {
    steps, s := AttachingRun();
    steps, s := Push(steps, s, Attach(AttachOne(1, g)));
  }

  lemma {:induction false} InterruptedAttachRun(g: Guard) returns (steps: seq<Step>, s: State)
    requires g.unit != ""
    ensures Legal(steps) && Exec(steps) == s
    ensures forall a | a in steps :: !(a.Observe? && a.m.Dies?)
    ensures s.phase.Idle? && MonitorFree(s) && s.table == map[] && s.commands == [] && s.events == []
    ensures s.made == {g.unit} && s.stopped == {}
  {
    steps, s := HalfAttachedRun(g);
    steps, s := Push(steps, s, Attach(AttachInterrupted("")));
    steps, s := Push(steps, s, Observe(Takes));
  }

  lemma {:induction false} InterruptCanLoseScopes(g: Guard) returns (steps: seq<Step>)
    requires g.unit != ""
    ensures Legal(steps) && Exec(steps).phase.Stopped? && Live(Exec(steps)) == {g.unit}
    ensures forall a | a in steps :: !(a.Observe? && a.m.Dies?)
  {
    var s: State;
    assert Units(map[]) == {};
    steps, s := InterruptedAttachRun(g);
    steps := StopRun(steps, s);
  }

  // ---- the two guard tables ----

  /** Within one generation, once the monitor has installed the published guards,
      receiving the waiting replacement events in order gives the monitor's own
      table, however long the chains of replacements are. */
  lemma TablesAgreeByReplay(steps: seq<Step>)
    requires Legal(steps)
    requires var s := Exec(steps);
             s.phase.Idle? && s.monitorAlive && s.attachedAt == s.generation
             && s.monitor.generation == s.generation && !Underway(s)
    ensures var s := Exec(steps); Replay(s.table, s.events, s.generation) == s.monitor.guards
  {
    Invariant(steps);
  }

  // ---- generations ----

  ghost predicate NoRepeats(s: seq<int>) {
    forall i, j | 0 <= i < j < |s| :: s[i] != s[j]
  }

  /** Over a whole run, including deaths of the monitor, each generation has at
      most one trigger emitted and is recovered by a trigger at most once, and
      only after its own trigger was emitted. */
  lemma OneTriggerPerGeneration(steps: seq<Step>)
    requires Legal(steps)
    ensures NoRepeats(Exec(steps).emitted) && NoRepeats(Exec(steps).recovered)
    ensures forall g | g in Exec(steps).recovered :: g in Exec(steps).emitted
  {
    Invariant(steps);
    var s := Exec(steps);
    var all := s.recovered + TriggerGenerations(s.events);
    forall i, j | 0 <= i < j < |s.recovered| ensures s.recovered[i] != s.recovered[j] {
      assert all[i] == s.recovered[i] && all[j] == s.recovered[j];
    }
    forall g | g in s.recovered ensures g in s.emitted {
      assert g in all;
    }
  }

  lemma WaitingTail(events: seq<Event>, g: int)
    requires events != []
    ensures g in TriggerGenerations(events) <==>
              (events[0].Trigger? && events[0].generation == g) || g in TriggerGenerations(events[1..])
  {
  }

  /** A trigger that has been emitted is waiting, has been recovered, or is of an older generation. */
  ghost predicate TriggerKept(s: State, g: int) {
    g in s.recovered || g in TriggerGenerations(s.events) || g < s.generation || s.phase.Stopping? || s.phase.Stopped?
  }

  ghost predicate TriggersKept(s: State) { forall g | g in s.emitted :: TriggerKept(s, g) }

  lemma TriggersAppend(s: State, s': State, es: seq<Event>)
    requires TriggersKept(s) && |es| <= 1 && s'.events == s.events + es && s'.recovered == s.recovered
    requires s'.generation == s.generation && s'.phase == s.phase
    requires forall g | g in s'.emitted :: g in s.emitted || (es != [] && es[0].Trigger? && es[0].generation == g)
    ensures TriggersKept(s')
  {
    if es == [] {
      assert s.events + es == s.events;
    } else {
      assert s.events + es == s.events + [es[0]];
      TriggerGenerationsAppend(s.events, es[0]);
    }
  }

  lemma TriggersByMonitor(s: State, a: MonitorStep)
    requires TriggersKept(s) && MonitorEnabled(s, a) && !a.Dies?
    ensures TriggersKept(AfterMonitor(s, a)) && AfterMonitor(s, a).monitorAlive
  {
    var s' := AfterMonitor(s, a);
    match a
    case Takes => TriggersAppend(s, s', Reply(s.monitor, s.commands[0]));
    case Triggers(kind, reason, ws) => TriggersAppend(s, s', [Trigger(s.monitor.generation, kind, reason, ws)]);
    case Rebinds => TriggersAppend(s, s', [Announcement(s)]);
    case _ =>
  }

  lemma TriggersByRecovery(s: State, a: RecoveryStep)
    requires TriggersKept(s) && RecoveryEnabled(s, a) && (s.monitorAlive || s.emitted == [])
    ensures TriggersKept(AfterRecovery(s, a)) && (AfterRecovery(s, a).monitorAlive || AfterRecovery(s, a).emitted == [])
  {
    if a.BeginRecovery? {
      forall g | g in s.emitted ensures TriggerKept(AfterRecovery(s, a), g) {
        WaitingTail(s.events, g);
      }
    }
  }

  lemma TriggersByOwner(s: State, a: OwnerStep)
    requires TriggersKept(s) && FencingKept(s) && OwnerEnabled(s, a)
    ensures TriggersKept(AfterOwner(s, a))
    ensures AfterOwner(s, a).monitorAlive == s.monitorAlive && AfterOwner(s, a).emitted == s.emitted
  {
    if a.SkipTrigger? || a.ReceiveGuard? {
      forall g | g in s.emitted ensures TriggerKept(AfterOwner(s, a), g) {
        WaitingTail(s.events, g);
      }
    }
  }

  lemma TriggersStep(s: State, a: Step)
    requires TriggersKept(s) && FencingKept(s) && Enabled(s, a) && !(a.Observe? && a.m.Dies?) && (s.monitorAlive || s.emitted == [])
    ensures TriggersKept(After(s, a)) && (After(s, a).monitorAlive || After(s, a).emitted == [])
  {
    match a
    case Recover(r) => TriggersByRecovery(s, r);
    case Attach(t) => TriggersByAttach(s, t);
    case Own(o) => TriggersByOwner(s, o);
    case Observe(m) => TriggersByMonitor(s, m);
  }

  lemma TriggersByAttach(s: State, a: AttachStep)
    requires TriggersKept(s) && AttachEnabled(s, a)
    ensures TriggersKept(AfterAttach(s, a))
    ensures AfterAttach(s, a).monitorAlive == s.monitorAlive && AfterAttach(s, a).emitted == s.emitted
  {
  }

  /** No trigger is lost: as long as the monitor does not die, each one emitted waits to
      be received, has started a recovery, or has been overtaken by a new generation,
      unless the owning process is stopping. */
  lemma {:induction false} NoTriggerIsLost(steps: seq<Step>)
    requires Legal(steps) && forall a | a in steps :: !(a.Observe? && a.m.Dies?)
    ensures forall g | g in Exec(steps).emitted :: TriggerKept(Exec(steps), g)
    ensures Exec(steps).monitorAlive || Exec(steps).emitted == []
    decreases |steps|
  {
    if steps != [] {
      var front, a := steps[..|steps| - 1], steps[|steps| - 1];
      assert a in steps && forall b | b in front :: b in steps;
      NoTriggerIsLost(front);
      Invariant(front);
      TriggersStep(Exec(front), a);
    }
  }

  lemma RecoveredOnce(s: State)
    requires FencingKept(s) && s.events != [] && s.events[0].Trigger?
    ensures s.events[0].generation !in s.recovered
  {
    var g, n := s.events[0].generation, |s.recovered|;
    var all := s.recovered + TriggerGenerations(s.events);
    assert TriggerGenerations(s.events)[0] == g && all[n] == g;
    forall i | 0 <= i < n ensures s.recovered[i] != g {
      assert all[i] == s.recovered[i];
    }
  }

  /** A trigger starts a recovery only in the generation it was raised in, and
      only if that generation has not been recovered by a trigger before. */
  lemma StaleTriggersStartNothing(steps: seq<Step>, a: Step)
    requires Legal(steps) && Enabled(Exec(steps), a)
    ensures var s, s' := Exec(steps), After(Exec(steps), a);
            s'.recovered != s.recovered ==>
              && s'.recovered == s.recovered + [s.generation] && s.generation !in s.recovered
              && s.events[0].Trigger? && s.events[0].generation == s.generation
  {
    Invariant(steps);
    if After(Exec(steps), a).recovered != Exec(steps).recovered {
      RecoveredOnce(Exec(steps));
    }
  }

  lemma CompletionRaises(s: State, a: RecoveryStep)
    requires PhasesKept(s) && RecoveryEnabled(s, a) && Recovering(s.phase) && AfterRecovery(s, a).phase.Idle?
    ensures var s' := AfterRecovery(s, a);
            (s'.generation > s.since <==> s.raised) && (s.armed ==> s'.generation > s.since)
  {
  }

  lemma PublicationRaises(s: State, a: AttachStep)
    requires PhasesKept(s) && AttachEnabled(s, a) && Recovering(s.phase) && AfterAttach(s, a).phase.Idle?
    ensures var s' := AfterAttach(s, a);
            (s'.generation > s.since <==> s.raised) && (s.armed ==> s'.generation > s.since)
  {
  }

  /** A recovery that has begun to put the new workers under guard completes only by
      recording and publishing all the guards it has made, for the new generation; if
      that fails, the recovery fails and is tried again. */
  lemma RecoveryCompletesUnderGuard(steps: seq<Step>, a: Step)
    requires Legal(steps) && Enabled(Exec(steps), a)
    requires Recovering(Exec(steps).phase) && Exec(steps).phase.Attaching? && !After(Exec(steps), a).phase.Attaching?
    ensures var s, s' := Exec(steps), After(Exec(steps), a);
            if s'.phase.Failed? then s'.table == map[] && Enabled(s', Recover(Retry))
            else
              && s'.phase.Idle? && s'.table == s.phase.created && s'.intact && s'.attachedAt == s'.generation
              && s'.commands == s.commands + [Guards(s'.generation, s'.table)]
  {
    Invariant(steps);
    var s := Exec(steps);
    match a
    case Recover(r) =>
    case Attach(t) => AttachmentEnds(s, t);
    case Own(o) => AttachmentGoesOn(s, o);
    case Observe(m) =>
  }

  lemma AttachmentEnds(s: State, a: AttachStep)
    requires PhasesKept(s) && AttachEnabled(s, a) && Recovering(s.phase) && s.phase.Attaching?
    requires !AfterAttach(s, a).phase.Attaching?
    ensures var s' := AfterAttach(s, a);
            if s'.phase.Failed? then s'.table == map[]
            else
              && s'.phase.Idle? && s'.table == s.phase.created && s'.intact && s'.attachedAt == s'.generation
              && s'.commands == s.commands + [Guards(s'.generation, s'.table)]
  {
  }

  lemma AttachmentGoesOn(s: State, a: OwnerStep)
    requires OwnerEnabled(s, a) && s.phase.Attaching?
    ensures AfterOwner(s, a).phase == s.phase
  {
  }

  /** A recovery that completes has opened a new generation exactly when one of
      its attempts found the new server alive, which is always so once a pool has
      been armed. */
  lemma CompletedRecoveryRaisesTheGeneration(steps: seq<Step>, a: Step)
    requires Legal(steps) && Enabled(Exec(steps), a)
    requires Recovering(Exec(steps).phase) && After(Exec(steps), a).phase.Idle?
    ensures var s, s' := Exec(steps), After(Exec(steps), a);
            (s'.generation > s.since <==> s.raised) && (s.armed ==> s'.generation > s.since)
  {
    Invariant(steps);
    match a
    case Recover(r) => CompletionRaises(Exec(steps), r);
    case Attach(t) => PublicationRaises(Exec(steps), t);
    case Own(o) =>
    case Observe(m) =>
  }

  /** With no pool armed, a recovery can complete without a new generation: the
      new server dies between its handshake and the start of the observer. */
  lemma {:induction false} UnarmedRecoveryMayNotRaise() returns (steps: seq<Step>, a: Step)
    ensures Legal(steps) && Recovering(Exec(steps).phase) && Enabled(Exec(steps), a)
    ensures After(Exec(steps), a).phase.Idle? && After(Exec(steps), a).generation == Exec(steps).since
  {
    var s: State;
    steps, s := Push([], INIT, Recover(Connect(true)));
    steps, s := Push(steps, s, Observe(Takes));
    steps, s := Push(steps, s, Observe(Triggers(Death, ServerExited, {})));
    steps, s := Push(steps, s, Recover(BeginRecovery));
    steps, s := Push(steps, s, Recover(ClearScopes));
    steps, s := Push(steps, s, Recover(Reconnect(false)));
    a := Recover(CompleteUnguarded);
  }
}
