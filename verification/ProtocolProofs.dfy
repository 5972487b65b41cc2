/** What every interleaving of the recovery protocol keeps. */
module ProtocolProofs {
  import opened Wrappers
  import opened WatchdogTypes
  import opened MonitorSpec
  import opened GuardTables
  import opened Protocol

  // ---- the invariant ----

  /** A scope that is live and unaccounted for is an orphan, and orphans are
      exactly that; the monitor holds no orphan. */
  ghost predicate ScopesKept(s: State) {
    && "" !in s.made
    && Accounted(s) <= s.made && s.stopped <= s.made
    && s.orphans == Live(s) - Accounted(s)
    && (s.monitorAlive ==> Held(s, s.monitor.guards))
    && (s.monitorAlive ==> forall c | c in s.commands && c.Guards? :: Held(s, c.table))
  }

  ghost predicate Held(s: State, table: map<int, Guard>) {
    Units(table) <= s.made && Units(table) !! s.orphans
  }

  /** The waiting replacements continue the table. */
  ghost predicate ChainKept(s: State) {
    && Linked(s.table, s.events, s.generation, s.stopped)
    && (forall e | e in s.events :: e.generation <= s.generation)
    && (!NoneCurrent(s.events, s.generation) ==> s.attachedAt == s.generation)
  }

  /** The generation a control command belongs to. */
  predicate Control(c: Command) { c.Root? || c.Pause? || c.Guards? }

  predicate InOrder(c: Command, d: Command) {
    Control(c) && Control(d) ==>
      c.generation <= d.generation &&
      (d.Root? || (c.Guards? && d.Guards?) ==> c.generation < d.generation)
  }

  ghost predicate QueueKept(s: State) {
    s.monitorAlive ==>
      && (forall i, j | 0 <= i < j < |s.commands| :: InOrder(s.commands[i], s.commands[j]))
      && (forall c | c in s.commands && Control(c) :: s.monitor.generation <= c.generation <= s.generation)
      && (forall c | c in s.commands && c.Root? :: s.monitor.generation < c.generation && s.top < c.generation)
      && (forall c | c in s.commands && c.Guards? :: c.generation <= s.attachedAt)
      && (forall c | c in s.commands && c.Pause? && s.intact :: c.generation < s.generation)
      && s.monitor.generation <= s.generation
      && (s.phase.Attaching? || (s.serverAlive && (s.phase.Idle? || s.phase.Connected?)) ==>
            forall c | c in s.commands && c.Pause? :: c.generation < s.generation)
  }

  /** The guards of the current generation are published but not yet installed. */
  ghost predicate Underway(s: State) {
    exists c :: c in s.commands && c.Guards? && c.generation == s.generation
  }

  /** The monitor's table and the owning process's table, one queue apart. */
  ghost predicate TablesKept(s: State) {
    s.monitorAlive ==>
      && (forall c | c in s.commands && c.Guards? && c.generation == s.generation ::
            && (s.table == c.table || (!s.intact && s.table == map[]))
            && NoneCurrent(s.events, s.generation)
            && (s.monitor.generation == s.generation ==> s.monitor.guards == map[]))
      && (s.monitor.generation == s.generation && s.monitor.guards != map[] ==>
            && s.attachedAt == s.generation
            && (s.table == map[] || Replay(s.table, s.events, s.generation) == s.monitor.guards))
      && (s.intact && s.monitor.generation == s.generation && !Underway(s) ==>
            Replay(s.table, s.events, s.generation) == s.monitor.guards)
      && (s.intact && (exists c :: c in s.commands && c.Root? && c.generation == s.generation) ==> Underway(s))
  }

  function TriggerGenerations(events: seq<Event>): seq<int>
    decreases |events|
  {
    if events == [] then []
    else (if events[0].Trigger? then [events[0].generation] else []) + TriggerGenerations(events[1..])
  }

  ghost predicate Increasing(s: seq<int>) {
    forall i, j | 0 <= i < j < |s| :: s[i] < s[j]
  }

  ghost predicate FencingKept(s: State) {
    && Increasing(s.emitted)
    && (forall g | g in s.emitted :: g <= s.top)
    && Increasing(s.recovered + TriggerGenerations(s.events))
    && (forall g | g in s.recovered + TriggerGenerations(s.events) :: g in s.emitted)
    && s.top <= s.generation
    && (s.monitorAlive && !s.monitor.paused ==> s.top < s.monitor.generation)
  }

  ghost predicate PhasesKept(s: State) {
    && 0 <= s.generation && s.attachedAt <= s.generation
    && (s.serverAlive ==> 1 <= s.generation)
    && (s.attachedAt >= 0 ==> s.armed && 1 <= s.attachedAt)
    && (s.intact ==> s.attachedAt == s.generation)
    && (s.phase.Idle? && s.attachedAt == s.generation ==> s.intact)
    && (s.phase.Connected? && s.phase.bumped ==> s.attachedAt < s.generation)
    && (s.phase.Connected? && !s.phase.bumped ==> !s.serverAlive)
    && (s.phase.Attaching? ==> s.attachedAt < s.generation && s.table == map[] && s.armed && 1 <= s.generation)
    && (s.adopting.Some? ==> s.monitorAlive && s.monitor.running)
    && (s.phase.Stopped? ==> s.table == map[] && s.events == [] && s.adopting.None? && (s.monitorAlive ==> !s.monitor.running))
    && (s.phase.Connected? && s.phase.bumped ==> s.raised)
    && (s.phase.Attaching? && s.phase.recovering ==> s.raised)
    && (Recovering(s.phase) ==> s.since <= s.generation && (s.raised <==> s.since < s.generation))
  }

  /** No two waiting events announce the same scope. */
  ghost predicate NamedOnce(events: seq<Event>) {
    forall i, j | 0 <= i < j < |events| && events[i].GuardReplaced? && events[j].GuardReplaced? ::
      events[i].guard.unit == "" || events[i].guard.unit != events[j].guard.unit
  }

  /** A scope is named in one place only, and one still in the monitor's hands has not been stopped. */
  ghost predicate NamesKept(s: State) {
    && NamedOnce(s.events)
    && Units(s.table) !! EventUnits(s.events) && PhaseUnits(s.phase) !! Units(s.table) + EventUnits(s.events)
    && AdoptingUnits(s.adopting) !! Units(s.table) + EventUnits(s.events) + PhaseUnits(s.phase) + s.stopped
  }

  /** The scopes in the hands of the monitor and of the owning process. */
  function HandUnits(s: State): set<string> { AdoptingUnits(s.adopting) + PhaseUnits(s.phase) }

  /** None of them is one that the monitor guards or is about to. */
  ghost predicate HandKept(s: State) {
    s.monitorAlive ==>
      && HandUnits(s) !! Units(s.monitor.guards)
      && (forall c | c in s.commands && c.Guards? :: HandUnits(s) !! Units(c.table))
  }

  ghost predicate Inv(s: State) {
    ScopesKept(s) && NamesKept(s) && HandKept(s) && ChainKept(s) && QueueKept(s) && TablesKept(s) && FencingKept(s) && PhasesKept(s)
  }

  // ---- scopes, one step at a time ----

  /** Orphans stay what they are if only accounted scopes are stopped, new ones
      are accounted for, names are dropped only of dead scopes, and new names are
      not those of orphans. */
  lemma Balance(live: set<string>, acc: set<string>, orphans: set<string>, live': set<string>, acc': set<string>)
    requires orphans == live - acc
    requires live - live' <= acc && live' - live <= acc'
    requires (acc - acc') !! live' && (acc' - acc) !! orphans
    ensures orphans == live' - acc'
  {
  }

  lemma ScopesStart(s: State, alive: bool)
    requires ScopesKept(s)
    ensures ScopesKept(StartWatchdog(s, alive))
  {
    var s1 := StartMonitor(s);
    if !s.monitorAlive {
      assert EventUnits([]) == {};
      assert Accounted(s1) <= Accounted(s);
    }
    assert ScopesKept(s1);
    var s2 := StartWatchdog(s, alive);
    assert Accounted(s2) == Accounted(s1);
  }

  lemma ScopesStop(s: State)
    requires ScopesKept(s)
    ensures ScopesKept(StopScopes(s))
  {
    var s' := StopScopes(s);
    assert Units(map[]) == {};
    Balance(Live(s), Accounted(s), s.orphans, Live(s'), Accounted(s'));
  }

  /** Only what is queued for the monitor, or nothing at all, has changed. */
  lemma ScopesFrame(s: State, s': State)
    requires ScopesKept(s) && Accounted(s') == Accounted(s)
    requires s'.made == s.made && s'.stopped == s.stopped && s'.orphans == s.orphans
    requires s'.monitorAlive == s.monitorAlive && s'.monitor.guards == s.monitor.guards
    requires forall c | c in s'.commands && c.Guards? :: c in s.commands
    ensures ScopesKept(s')
  {
  }

  lemma ScopesReconnect(s: State, a: RecoveryStep)
    requires ScopesKept(s) && RecoveryEnabled(s, a) && a.Reconnect?
    ensures ScopesKept(AfterRecovery(s, a))
  {
    ScopesStart(s, a.alive);
    var s1, s' := StartWatchdog(s, a.alive), AfterRecovery(s, a);
    assert s'.commands == s1.commands;
    ScopesFrame(s1, s');
  }

  lemma ScopesBegin(s: State, a: RecoveryStep)
    requires ScopesKept(s) && RecoveryEnabled(s, a) && a.BeginRecovery?
    ensures ScopesKept(AfterRecovery(s, a))
  {
    EventUnitsSplit(s.events);
    EventUnitsOne(s.events[0]);
    ScopesFrame(s, AfterRecovery(s, a));
  }

  lemma ScopesRecovery(s: State, a: RecoveryStep)
    requires ScopesKept(s) && RecoveryEnabled(s, a)
    ensures ScopesKept(AfterRecovery(s, a))
  {
    if a.Connect? {
      ScopesStart(s, a.alive);
    } else if a.Reconnect? {
      ScopesReconnect(s, a);
    } else if a.BeginRecovery? {
      ScopesBegin(s, a);
    } else if a.ClearScopes? {
      ScopesStop(s);
      ScopesFrame(StopScopes(s), AfterRecovery(s, a));
    } else {
      ScopesFrame(s, AfterRecovery(s, a));
    }
  }

  lemma ScopesInterrupted(s: State, unit: string)
    requires ScopesKept(s) && NamesKept(s) && HandKept(s) && AttachEnabled(s, AttachInterrupted(unit))
    ensures ScopesKept(AfterAttach(s, AttachInterrupted(unit)))
  {
    var s' := AfterAttach(s, AttachInterrupted(unit));
    assert Accounted(s) == Accounted(s') + PhaseUnits(s.phase);
    assert s'.orphans == Live(s') - Accounted(s');
  }

  lemma ScopesAttach(s: State, a: AttachStep)
    requires ScopesKept(s) && NamesKept(s) && HandKept(s) && AttachEnabled(s, a)
    requires s.phase.Attaching? ==> s.table == map[]
    ensures ScopesKept(AfterAttach(s, a))
  {
    var s' := AfterAttach(s, a);
    match a
    case AttachBegins =>
      ScopesStop(s);
      assert Units(map[]) == {};
      assert Accounted(s') == Accounted(StopScopes(s));
    case AttachOne(w, g) =>
      UnitsUpdate(s.phase.created, w, g);
      Balance(Live(s), Accounted(s), s.orphans, Live(s'), Accounted(s'));
    case AttachFails =>
      Balance(Live(s), Accounted(s), s.orphans, Live(s'), Accounted(s'));
    case AttachStrands(unit) =>
      assert Live(s') == Live(AfterAttach(s, AttachFails)) + ({unit} - s'.stopped);
      Balance(Live(s), Accounted(s), s.orphans, Live(AfterAttach(s, AttachFails)), Accounted(s'));
    case AttachInterrupted(unit) => ScopesInterrupted(s, unit);
    case AttachPublishes =>
      assert Units(map[]) == {};
      assert Accounted(s') == Accounted(s);
  }

  lemma ScopesReceive(s: State)
    requires ScopesKept(s) && Linked(s.table, s.events, s.generation, s.stopped)
    requires s.events != [] && s.events[0].GuardReplaced?
    ensures ScopesKept(Receive(s.(events := s.events[1..]), s.events[0]))
  {
    var e := s.events[0];
    var s' := Receive(s.(events := s.events[1..]), e);
    EventUnitsSplit(s.events);
    EventUnitsOne(e);
    if Accepts(s.table, e, s.generation) {
      UnitsUpdate(s.table, e.worker, e.guard);
    }
    Balance(Live(s), Accounted(s), s.orphans, Live(s'), Accounted(s'));
  }

  lemma ScopesOwner(s: State, a: OwnerStep)
    requires ScopesKept(s) && ChainKept(s) && OwnerEnabled(s, a)
    ensures ScopesKept(AfterOwner(s, a))
  {
    var s' := AfterOwner(s, a);
    if a.ReceiveGuard? {
      ScopesReceive(s);
    } else if a.FinishStop? {
      ScopesStop(s);
      ScopesFrame(StopScopes(s), s');
    } else {
      if a.SkipTrigger? {
        EventUnitsSplit(s.events);
        EventUnitsOne(s.events[0]);
      }
      ScopesFrame(s, s');
    }
  }

  lemma ScopesMonitor(s: State, a: MonitorStep)
    requires ScopesKept(s) && NamesKept(s) && HandKept(s) && MonitorEnabled(s, a)
    ensures ScopesKept(AfterMonitor(s, a))
  {
    var s' := AfterMonitor(s, a);
    match a
    case Takes =>
      ScopesEmit(s, Reply(s.monitor, s.commands[0]));
      assert Accounted(s') == Accounted(s);
    case Triggers(kind, reason, ws) =>
      ScopesEmit(s, [Trigger(s.monitor.generation, kind, reason, ws)]);
      assert Accounted(s') == Accounted(s);
    case Rebinds => ScopesRebind(s);
    case Dies(kept) => EventUnitsPrefix(s.events, kept);
    case Creates(w, g) => Balance(Live(s), Accounted(s), s.orphans, Live(s'), Accounted(s'));
    case Abandons => Balance(Live(s), Accounted(s), s.orphans, Live(s'), Accounted(s'));
    case Strands => ScopesStrand(s);
    case Notes(_, _) =>
  }

  lemma ScopesStrand(s: State)
    requires ScopesKept(s) && NamesKept(s) && HandKept(s) && MonitorEnabled(s, Strands)
    ensures ScopesKept(AfterMonitor(s, Strands))
  {
    var s' := AfterMonitor(s, Strands);
    assert Accounted(s') == Accounted(s) - AdoptingUnits(s.adopting);
    assert s'.orphans == Live(s') - Accounted(s');
  }

  lemma ScopesRebind(s: State)
    requires ScopesKept(s) && MonitorEnabled(s, Rebinds)
    ensures ScopesKept(AfterMonitor(s, Rebinds))
  {
    var s' := AfterMonitor(s, Rebinds);
    var Adopting(w, g) := s.adopting.value;
    EventUnitsAppend(s.events, Announcement(s));
    EventUnitsOne(Announcement(s));
    UnitsUpdate(s.monitor.guards, w, g);
    UnitsOf(s.monitor.guards, w);
    assert Accounted(s') == Accounted(s);
    assert UnitOf(s.monitor.guards[w]) !! s.orphans;
  }

  lemma ScopesEmit(s: State, es: seq<Event>)
    requires |es| <= 1 && forall e | e in es :: e.Trigger?
    ensures EventUnits(Emit(s, es).events) == EventUnits(s.events)
  {
    if es == [] {
      assert s.events + es == s.events;
    } else {
      assert es == [es[0]] && es[0] in es;
      assert Emit(s, es).events == s.events + [es[0]];
      EventUnitsAppend(s.events, es[0]);
      EventUnitsOne(es[0]);
    }
  }

  // ---- the names of scopes ----

  lemma NamedOncePart(events: seq<Event>, n: nat)
    requires NamedOnce(events) && n <= |events|
    ensures NamedOnce(events[..n]) && NamedOnce(events[n..])
    ensures EventUnits(events) == EventUnits(events[..n]) + EventUnits(events[n..])
    ensures EventUnits(events[..n]) !! EventUnits(events[n..])
  {
    var a, b := events[..n], events[n..];
    forall u | u in EventUnits(events) ensures u in EventUnits(a) + EventUnits(b) {
      var i :| 0 <= i < |events| && events[i].GuardReplaced? && events[i].guard.unit != "" && events[i].guard.unit == u;
      if i < n { assert a[i] == events[i]; } else { assert b[i - n] == events[i]; }
    }
    forall u | u in EventUnits(b) ensures u in EventUnits(events) && u !in EventUnits(a) {
      var j :| 0 <= j < |b| && b[j].GuardReplaced? && b[j].guard.unit != "" && b[j].guard.unit == u;
      assert events[n + j].guard.unit == u;
      forall i | 0 <= i < n && events[i].GuardReplaced? ensures events[i].guard.unit != u {
        assert NamedOnce(events);
      }
    }
  }

  /** No new name, or fewer of them. */
  lemma NamesFrame(s: State, s': State)
    requires NamesKept(s)
    requires NamedOnce(s'.events) && EventUnits(s'.events) <= EventUnits(s.events)
    requires Units(s'.table) <= Units(s.table) && PhaseUnits(s'.phase) <= PhaseUnits(s.phase)
    requires AdoptingUnits(s'.adopting) <= AdoptingUnits(s.adopting) && AdoptingUnits(s'.adopting) !! s'.stopped
    ensures NamesKept(s')
  {
  }

  lemma NamesStart(s: State, alive: bool)
    requires NamesKept(s)
    ensures NamesKept(StartWatchdog(s, alive))
  {
    assert EventUnits([]) == {};
    NamesFrame(s, StartWatchdog(s, alive));
  }

  lemma NamesRecovery(s: State, a: RecoveryStep)
    requires NamesKept(s) && RecoveryEnabled(s, a)
    ensures NamesKept(AfterRecovery(s, a))
  {
    if a.Connect? {
      NamesStart(s, a.alive);
    } else if a.Reconnect? {
      NamesStart(s, a.alive);
      NamesFrame(StartWatchdog(s, a.alive), AfterRecovery(s, a));
    } else if a.BeginRecovery? {
      NamedOncePart(s.events, 1);
      NamesFrame(s, AfterRecovery(s, a));
    } else {
      assert Units(map[]) == {};
      NamesFrame(s, AfterRecovery(s, a));
    }
  }

  lemma HandFrame(s: State, s': State)
    requires HandKept(s) && HandUnits(s') <= HandUnits(s)
    requires s'.monitorAlive ==>
               && (s'.monitor.guards == map[] || (s.monitorAlive && s'.monitor.guards == s.monitor.guards))
               && (forall c | c in s'.commands && c.Guards? :: s.monitorAlive && c in s.commands)
    ensures HandKept(s')
  {
    assert Units(map[]) == {};
  }

  lemma HandRecovery(s: State, a: RecoveryStep)
    requires HandKept(s) && RecoveryEnabled(s, a)
    ensures HandKept(AfterRecovery(s, a))
  {
    HandFrame(s, AfterRecovery(s, a));
  }

  lemma HandAttach(s: State, a: AttachStep)
    requires HandKept(s) && NamesKept(s) && ScopesKept(s) && AttachEnabled(s, a)
    ensures HandKept(AfterAttach(s, a))
  {
    match a
    case AttachOne(w, g) =>
      UnitsUpdate(s.phase.created, w, g);
      assert HandUnits(AfterAttach(s, a)) <= HandUnits(s) + UnitOf(g);
      if s.monitorAlive {
        assert UnitOf(g) !! Units(s.monitor.guards);
      }
    case AttachPublishes =>
    case _ => HandFrame(s, AfterAttach(s, a));
  }

  lemma HandOwner(s: State, a: OwnerStep)
    requires HandKept(s) && OwnerEnabled(s, a)
    ensures HandKept(AfterOwner(s, a))
  {
    HandFrame(s, AfterOwner(s, a));
  }

  lemma HandMonitor(s: State, a: MonitorStep)
    requires HandKept(s) && NamesKept(s) && ScopesKept(s) && MonitorEnabled(s, a)
    ensures HandKept(AfterMonitor(s, a))
  {
    if a.Rebinds? {
      UnitsUpdate(s.monitor.guards, s.adopting.value.worker, s.adopting.value.guard);
    }
  }

  lemma NamesAttach(s: State, a: AttachStep)
    requires NamesKept(s) && Accounted(s) <= s.made && AttachEnabled(s, a)
    ensures NamesKept(AfterAttach(s, a))
  {
    assert Units(map[]) == {};
    match a
    case AttachOne(w, g) => UnitsUpdate(s.phase.created, w, g);
    case AttachPublishes =>
    case _ => NamesFrame(s, AfterAttach(s, a));
  }

  lemma NamesReceive(s: State)
    requires NamesKept(s) && OwnerEnabled(s, ReceiveGuard)
    ensures NamesKept(AfterOwner(s, ReceiveGuard))
  {
    var e := s.events[0];
    NamedOncePart(s.events, 1);
    assert s.events[..1] == [e];
    EventUnitsOne(e);
    UnitsUpdate(s.table, e.worker, e.guard);
  }

  lemma NamesOwner(s: State, a: OwnerStep)
    requires NamesKept(s) && OwnerEnabled(s, a)
    ensures NamesKept(AfterOwner(s, a))
  {
    if a.ReceiveGuard? {
      NamesReceive(s);
    } else {
      if a.SkipTrigger? {
        NamedOncePart(s.events, 1);
      }
      assert Units(map[]) == {};
      NamesFrame(s, AfterOwner(s, a));
    }
  }

  lemma NamesAppend(s: State, e: Event, s': State)
    requires NamesKept(s) && s'.events == s.events + [e] && s'.table == s.table && s'.phase == s.phase
    requires if e.Trigger? then s'.adopting == s.adopting && s'.stopped == s.stopped
             else s'.adopting == None && UnitOf(e.guard) == AdoptingUnits(s.adopting)
    ensures NamesKept(s')
  {
    EventUnitsAppend(s.events, e);
    EventUnitsOne(e);
    forall i | 0 <= i < |s.events| && s.events[i].GuardReplaced? && s.events[i].guard.unit != ""
      ensures s.events[i].guard.unit in EventUnits(s.events) {
    }
  }

  lemma NamesMonitor(s: State, a: MonitorStep)
    requires NamesKept(s) && Accounted(s) <= s.made && s.stopped <= s.made && MonitorEnabled(s, a)
    ensures NamesKept(AfterMonitor(s, a))
  {
    var s' := AfterMonitor(s, a);
    match a
    case Takes =>
      var es := Reply(s.monitor, s.commands[0]);
      if es == [] { assert s'.events == s.events; } else { NamesAppend(s, es[0], s'); }
    case Triggers(kind, reason, ws) => NamesAppend(s, Trigger(s.monitor.generation, kind, reason, ws), s');
    case Creates(_, _) =>
    case Rebinds => NamesAppend(s, Announcement(s), s');
    case Dies(kept) =>
      NamedOncePart(s.events, kept);
      NamesFrame(s, s');
    case _ => NamesFrame(s, s');
  }

  // ---- the chain of replacements ----

  lemma ChainStale(s: State, s': State)
    requires ChainKept(s)
    requires s'.events == s.events || s'.events == []
    requires s.generation < s'.generation || s'.table == map[] || NoneCurrent(s.events, s.generation)
    requires s.generation <= s'.generation
    requires s'.attachedAt == s.attachedAt || s'.attachedAt == s'.generation
    ensures ChainKept(s')
  {
    StaleEventsChangeNothing(s'.table, s'.events, s'.generation, s'.stopped);
  }

  lemma ChainFrame(s: State, s': State)
    requires ChainKept(s)
    requires s'.events == s.events && s'.table == s.table && s'.generation == s.generation
    requires s.stopped <= s'.stopped && s'.attachedAt == s.attachedAt
    ensures ChainKept(s')
  {
    StoppingMoreKeepsLinks(s.table, s.events, s.generation, s.stopped, s'.stopped);
  }

  lemma ChainDrop(s: State, s': State)
    requires ChainKept(s) && s.events != [] && s'.events == s.events[1..]
    requires s'.table == Accept(s.table, s.events[0], s.generation) && s'.generation == s.generation
    requires s.stopped <= s'.stopped && s'.attachedAt == s.attachedAt
    ensures ChainKept(s')
  {
    StoppingMoreKeepsLinks(s'.table, s.events[1..], s.generation, s.stopped, s'.stopped);
  }

  lemma ChainRecovery(s: State, a: RecoveryStep)
    requires ChainKept(s) && RecoveryEnabled(s, a)
    ensures ChainKept(AfterRecovery(s, a))
  {
    var s' := AfterRecovery(s, a);
    if a.Connect? || a.Reconnect? {
      if a.alive || !s.monitorAlive {
        if !a.alive { StaleEventsChangeNothing(s'.table, [], s'.generation, s'.stopped); }
        else { ChainStale(s, s'); }
      } else {
        ChainFrame(s, s');
      }
    } else if a.ClearScopes? {
      ChainStale(s, s');
    } else if a.BeginRecovery? {
      ChainDrop(s, s');
    } else {
      ChainFrame(s, s');
    }
  }

  lemma ChainAttach(s: State, a: AttachStep)
    requires ChainKept(s) && PhasesKept(s) && AttachEnabled(s, a)
    ensures ChainKept(AfterAttach(s, a))
  {
    var s' := AfterAttach(s, a);
    if a.AttachBegins? || a.AttachPublishes? {
      ChainStale(s, s');
    } else {
      ChainFrame(s, s');
    }
  }

  lemma ChainOwner(s: State, a: OwnerStep)
    requires ChainKept(s) && OwnerEnabled(s, a)
    ensures ChainKept(AfterOwner(s, a))
  {
    var s' := AfterOwner(s, a);
    if a.SkipTrigger? || a.ReceiveGuard? {
      ChainDrop(s, s');
    } else if a.FinishStop? {
      ChainStale(s, s');
    } else {
      ChainFrame(s, s');
    }
  }

  lemma ChainEmit(s: State, es: seq<Event>)
    requires ChainKept(s) && |es| <= 1 && s.monitor.generation <= s.generation
    requires forall e | e in es :: e.Trigger? && e.generation == s.monitor.generation
    ensures ChainKept(Emit(s, es))
  {
    if es == [] {
      assert s.events + es == s.events;
    } else {
      assert es[0] in es && s.events + es == s.events + [es[0]];
      LinkAppend(s.table, s.events, es[0], s.generation, s.stopped);
    }
  }

  lemma ChainMonitor(s: State, a: MonitorStep)
    requires ChainKept(s) && QueueKept(s) && TablesKept(s) && MonitorEnabled(s, a)
    ensures ChainKept(AfterMonitor(s, a))
  {
    var s' := AfterMonitor(s, a);
    match a
    case Takes =>
      ChainEmit(s, Reply(s.monitor, s.commands[0]));
      ChainFrame(Emit(s, Reply(s.monitor, s.commands[0])), s');
    case Triggers(kind, reason, ws) =>
      ChainEmit(s, [Trigger(s.monitor.generation, kind, reason, ws)]);
      ChainFrame(Emit(s, [Trigger(s.monitor.generation, kind, reason, ws)]), s');
    case Rebinds =>
      StoppingMoreKeepsLinks(s.table, s.events, s.generation, s.stopped, s'.stopped);
      if s.table == map[] {
        StaleEventsChangeNothing(s.table, s.events, s.generation, s.stopped);
      }
      LinkAppend(s.table, s.events, Announcement(s), s.generation, s'.stopped);
    case Dies(kept) => LinkPrefix(s.table, s.events, kept, s.generation, s.stopped);
    case _ => ChainFrame(s, s');
  }

  // ---- the command queue ----

  /** `c` may be queued last: it belongs to the current generation and to no later place. */
  ghost predicate Fits(s: State, generation: int, c: Command) {
    Control(c) ==>
      && c.generation == generation
      && (forall d | d in s.commands && Control(d) :: InOrder(d, c))
      && s.monitor.generation <= generation
      && (c.Root? ==> s.monitor.generation < generation && s.top < generation)
  }

  lemma QueueAppend(s: State, s': State, c: Command)
    requires QueueKept(s) && s.monitorAlive && s'.commands == s.commands + [c] && Fits(s, s'.generation, c)
    requires s'.monitor.generation == s.monitor.generation && s'.top == s.top
    requires s.generation <= s'.generation && s.attachedAt <= s'.attachedAt
    requires c.Guards? ==> c.generation <= s'.attachedAt
    requires s'.intact || s'.phase.Attaching? || (s'.serverAlive && (s'.phase.Idle? || s'.phase.Connected?)) ==>
               !c.Pause? && forall d | d in s.commands && d.Pause? :: d.generation < s'.generation
    ensures QueueKept(s')
  {
  }

  lemma QueueFrame(s: State, s': State)
    requires QueueKept(s) && (s'.monitorAlive ==> s.monitorAlive && s'.commands == s.commands)
    requires s'.monitor.generation == s.monitor.generation && s'.top == s.top
    requires s.generation == s'.generation && s.attachedAt == s'.attachedAt && (s'.intact ==> s.intact)
    requires s'.phase.Attaching? || (s'.serverAlive && (s'.phase.Idle? || s'.phase.Connected?)) ==>
               s.phase.Attaching? || (s.serverAlive && (s.phase.Idle? || s.phase.Connected?))
    ensures QueueKept(s')
  {
  }

  lemma QueueStart(s: State, alive: bool, s': State)
    requires QueueKept(s) && FencingKept(s) && 0 <= s.generation
    requires var t := StartWatchdog(s, alive);
             s'.commands == t.commands && s'.monitor == t.monitor && s'.top == s.top && s'.generation == t.generation
             && s'.attachedAt == s.attachedAt && s'.intact == t.intact && s'.serverAlive == alive && !s'.phase.Attaching?
    ensures QueueKept(s')
  {
    if alive && s.monitorAlive {
      QueueAppend(s, s', Root(0, s.generation + 1));
    }
  }

  lemma QueueRecovery(s: State, a: RecoveryStep)
    requires QueueKept(s) && FencingKept(s) && PhasesKept(s) && RecoveryEnabled(s, a)
    ensures QueueKept(AfterRecovery(s, a))
  {
    var s' := AfterRecovery(s, a);
    if a.Connect? || a.Reconnect? {
      QueueStart(s, a.alive, s');
    } else if a.BeginRecovery? || a.BeginAfterMonitorDeath? || a.Retry? {
      if s.monitorAlive {
        QueueAppend(s, s', Pause(s.generation));
      }
    } else {
      QueueFrame(s, s');
    }
  }

  lemma QueueAttach(s: State, a: AttachStep)
    requires QueueKept(s) && PhasesKept(s) && AttachEnabled(s, a)
    ensures QueueKept(AfterAttach(s, a))
  {
    var s' := AfterAttach(s, a);
    if a.AttachPublishes? {
      if s.monitorAlive {
        QueueAppend(s, s', Guards(s.generation, s.phase.created));
      }
    } else if a.AttachFails? {
      assert s'.commands == s.commands;
    } else {
      QueueFrame(s, s');
    }
  }

  lemma QueueOwner(s: State, a: OwnerStep)
    requires QueueKept(s) && PhasesKept(s) && OwnerEnabled(s, a)
    ensures QueueKept(AfterOwner(s, a))
  {
    var s' := AfterOwner(s, a);
    if a.Send? || a.RequestStop? {
      if s.monitorAlive {
        QueueAppend(s, s', if a.Send? then a.command else Stop);
      }
    } else {
      QueueFrame(s, s');
    }
  }

  lemma LaterInQueue(s: State, d: Command)
    requires QueueKept(s) && s.monitorAlive && s.commands != [] && d in s.commands[1..]
    ensures d in s.commands && InOrder(s.commands[0], d)
  {
    var i :| 0 <= i < |s.commands| - 1 && s.commands[1..][i] == d;
    assert s.commands[i + 1] == d;
  }

  lemma QueueTake(s: State)
    requires QueueKept(s) && MonitorEnabled(s, Takes)
    ensures QueueKept(AfterMonitor(s, Takes))
  {
    var s' := AfterMonitor(s, Takes);
    forall d | d in s'.commands ensures d in s.commands && InOrder(s.commands[0], d) {
      LaterInQueue(s, d);
    }
    assert s'.monitor.generation == if s.commands[0].Root? then s.commands[0].generation else s.monitor.generation;
    assert s'.top == s.top || s'.top == s.monitor.generation;
  }

  lemma QueueMonitor(s: State, a: MonitorStep)
    requires QueueKept(s) && MonitorEnabled(s, a)
    ensures QueueKept(AfterMonitor(s, a))
  {
    if a.Takes? {
      QueueTake(s);
    } else if !a.Triggers? {
      QueueFrame(s, AfterMonitor(s, a));
    }
  }

  // ---- phases ----

  lemma PhasesRecovery(s: State, a: RecoveryStep)
    requires PhasesKept(s) && RecoveryEnabled(s, a)
    ensures PhasesKept(AfterRecovery(s, a))
  {
  }

  lemma PhasesAttach(s: State, a: AttachStep)
    requires PhasesKept(s) && AttachEnabled(s, a)
    ensures PhasesKept(AfterAttach(s, a))
  {
  }

  lemma PhasesReceive(s: State)
    requires PhasesKept(s) && ChainKept(s) && OwnerEnabled(s, ReceiveGuard)
    ensures PhasesKept(AfterOwner(s, ReceiveGuard))
  {
  }

  lemma PhasesOwner(s: State, a: OwnerStep)
    requires PhasesKept(s) && ChainKept(s) && OwnerEnabled(s, a)
    ensures PhasesKept(AfterOwner(s, a))
  {
    if a.ReceiveGuard? {
      PhasesReceive(s);
    }
  }

  lemma PhasesMonitor(s: State, a: MonitorStep)
    requires PhasesKept(s) && MonitorEnabled(s, a)
    ensures PhasesKept(AfterMonitor(s, a))
  {
  }

  // ---- triggers and generations ----

  lemma TriggerGenerationsAppend(events: seq<Event>, e: Event)
    ensures TriggerGenerations(events + [e]) ==
            TriggerGenerations(events) + if e.Trigger? then [e.generation] else []
    decreases |events|
  {
    if events == [] {
      assert events + [e] == [e];
      assert [e][1..] == [];
    } else {
      assert (events + [e])[0] == events[0] && (events + [e])[1..] == events[1..] + [e];
      TriggerGenerationsAppend(events[1..], e);
    }
  }

  lemma {:induction false} TriggerGenerationsSplit(events: seq<Event>, n: nat)
    requires n <= |events|
    ensures TriggerGenerations(events) == TriggerGenerations(events[..n]) + TriggerGenerations(events[n..])
    decreases |events|
  {
    if n == 0 {
      assert events[..0] == [] && events[0..] == events;
    } else {
      TriggerGenerationsSplit(events[1..], n - 1);
      var front := events[..n];
      assert front[0] == events[0] && front[1..] == events[1..][..n - 1] && events[n..] == events[1..][n - 1..];
    }
  }

  lemma FencingFrame(s: State, s': State)
    requires FencingKept(s)
    requires s'.emitted == s.emitted && s'.top == s.top && s.generation <= s'.generation
    requires s'.recovered + TriggerGenerations(s'.events) <= s.recovered + TriggerGenerations(s.events)
    requires s'.monitorAlive && !s'.monitor.paused ==> s.top < s'.monitor.generation
    ensures FencingKept(s')
  {
    var old_, new_ := s.recovered + TriggerGenerations(s.events), s'.recovered + TriggerGenerations(s'.events);
    forall i, j | 0 <= i < j < |new_| ensures new_[i] < new_[j] {
      assert new_[i] == old_[i] && new_[j] == old_[j];
    }
    forall g | g in new_ ensures g in s'.emitted {
      var i :| 0 <= i < |new_| && new_[i] == g;
      assert old_[i] == g;
    }
  }

  lemma IncreasingAppend(s: seq<int>, g: int)
    requires Increasing(s) && forall x | x in s :: x < g
    ensures Increasing(s + [g])
  {
    forall i, j | 0 <= i < j < |s| + 1 ensures (s + [g])[i] < (s + [g])[j] {
      assert s[i] in s;
    }
  }

  lemma DropMark(front: seq<int>, g: int, rest: seq<int>)
    requires Increasing(front + ([g] + rest))
    ensures Increasing(front + rest)
    ensures forall x | x in front + rest :: x in front + ([g] + rest)
  {
    var old_, new_, n := front + ([g] + rest), front + rest, |front|;
    forall i, j | 0 <= i < j < |new_| ensures new_[i] < new_[j] {
      assert new_[i] == old_[if i < n then i else i + 1] && new_[j] == old_[if j < n then j else j + 1];
    }
    forall x | x in new_ ensures x in old_ {
      var i :| 0 <= i < |new_| && new_[i] == x;
      assert old_[if i < n then i else i + 1] == x;
    }
  }

  lemma FencingDrop(s: State, s': State)
    requires FencingKept(s) && s.events != [] && s'.events == s.events[1..]
    requires s'.recovered == s.recovered ||
             (s'.recovered == s.recovered + [s.events[0].generation] && s.events[0].Trigger?)
    requires s'.emitted == s.emitted && s'.top == s.top && s.generation == s'.generation
    requires s'.monitorAlive == s.monitorAlive && s'.monitor == s.monitor
    ensures FencingKept(s')
  {
    var e, rest := s.events[0], TriggerGenerations(s'.events);
    if e.Trigger? {
      assert TriggerGenerations(s.events) == [e.generation] + rest;
      if s'.recovered == s.recovered {
        DropMark(s.recovered, e.generation, rest);
      } else {
        assert s'.recovered + rest == s.recovered + ([e.generation] + rest);
      }
    } else {
      assert TriggerGenerations(s.events) == rest;
    }
  }

  lemma FencingEmit(s: State, es: seq<Event>, s': State)
    requires FencingKept(s) && |es| <= 1 && s.monitorAlive && s.monitor.generation <= s.generation
    requires forall e | e in es :: e.Trigger? && e.generation == s.monitor.generation
    requires es != [] ==> !s.monitor.paused && s'.monitor.paused
    requires es == [] && !s'.monitor.paused ==> s.top < s'.monitor.generation
    requires var t := Emit(s, es);
             s'.emitted == t.emitted && s'.top == t.top && s'.events == t.events && s'.recovered == s.recovered
             && s'.generation == s.generation
    ensures FencingKept(s')
  {
    if es == [] {
      assert s'.events == s.events;
    } else {
      var e := es[0];
      assert e in es && s'.events == s.events + [e];
      TriggerGenerationsAppend(s.events, e);
      assert s'.recovered + TriggerGenerations(s'.events)
          == (s.recovered + TriggerGenerations(s.events)) + [e.generation];
      IncreasingAppend(s.emitted, e.generation);
      IncreasingAppend(s.recovered + TriggerGenerations(s.events), e.generation);
    }
  }

  lemma FencingQuiet(s: State, s': State)
    requires FencingKept(s)
    requires s'.emitted == s.emitted && s'.top == s.top && s.generation <= s'.generation && s'.recovered == s.recovered
    requires s'.events == s.events || s'.events == []
    requires s'.monitorAlive && !s'.monitor.paused ==> s.monitorAlive && s'.monitor == s.monitor
    ensures FencingKept(s')
  {
    if s'.events == [] {
      assert s'.recovered + TriggerGenerations(s'.events) == s.recovered;
      assert s.recovered <= s.recovered + TriggerGenerations(s.events);
    }
    FencingFrame(s, s');
  }

  lemma FencingStart(s: State, alive: bool)
    requires FencingKept(s)
    ensures FencingKept(StartWatchdog(s, alive))
  {
    FencingQuiet(s, StartWatchdog(s, alive));
  }

  lemma FencingRecovery(s: State, a: RecoveryStep)
    requires FencingKept(s) && RecoveryEnabled(s, a)
    ensures FencingKept(AfterRecovery(s, a))
  {
    var s' := AfterRecovery(s, a);
    if a.BeginRecovery? {
      FencingDrop(s, s');
    } else if a.Connect? || a.Reconnect? {
      FencingStart(s, a.alive);
    } else {
      assert s'.events == s.events && s'.monitor == s.monitor && s'.monitorAlive == s.monitorAlive;
    }
  }

  lemma FencingAttach(s: State, a: AttachStep)
    requires FencingKept(s) && AttachEnabled(s, a)
    ensures FencingKept(AfterAttach(s, a))
  {
    FencingQuiet(s, AfterAttach(s, a));
  }

  lemma FencingOwner(s: State, a: OwnerStep)
    requires FencingKept(s) && OwnerEnabled(s, a)
    ensures FencingKept(AfterOwner(s, a))
  {
    var s' := AfterOwner(s, a);
    if a.SkipTrigger? || a.ReceiveGuard? {
      FencingDrop(s, s');
    } else {
      assert s'.events == s.events && s'.monitor == s.monitor && s'.monitorAlive == s.monitorAlive;
    }
  }

  lemma FencingMonitor(s: State, a: MonitorStep)
    requires FencingKept(s) && QueueKept(s) && MonitorEnabled(s, a)
    ensures FencingKept(AfterMonitor(s, a))
  {
    var s' := AfterMonitor(s, a);
    match a
    case Takes =>
      assert s.commands[0] in s.commands;
      FencingEmit(s, Reply(s.monitor, s.commands[0]), s');
    case Triggers(kind, reason, ws) => FencingEmit(s, [Trigger(s.monitor.generation, kind, reason, ws)], s');
    case Rebinds =>
      TriggerGenerationsAppend(s.events, Announcement(s));
      assert TriggerGenerations(s'.events) == TriggerGenerations(s.events);
      FencingFrame(s, s');
    case Dies(kept) =>
      TriggerGenerationsSplit(s.events, kept);
      FencingFrame(s, s');
    case _ => FencingFrame(s, s');
  }

  // ---- the two tables ----

  lemma TablesRecovery(s: State, a: RecoveryStep)
    requires TablesKept(s) && QueueKept(s) && PhasesKept(s) && RecoveryEnabled(s, a)
    ensures TablesKept(AfterRecovery(s, a))
  {
  }

  lemma TablesAttach(s: State, a: AttachStep)
    requires TablesKept(s) && QueueKept(s) && PhasesKept(s) && ChainKept(s) && AttachEnabled(s, a)
    ensures TablesKept(AfterAttach(s, a))
  {
  }

  lemma TablesReceive(s: State)
    requires TablesKept(s) && OwnerEnabled(s, ReceiveGuard)
    ensures TablesKept(AfterOwner(s, ReceiveGuard))
  {
  }

  lemma TablesSend(s: State, c: Command)
    requires TablesKept(s) && OwnerEnabled(s, Send(c))
    ensures TablesKept(AfterOwner(s, Send(c)))
  {
  }

  lemma TablesOwner(s: State, a: OwnerStep)
    requires TablesKept(s) && QueueKept(s) && OwnerEnabled(s, a)
    ensures TablesKept(AfterOwner(s, a))
  {
    match a
    case ReceiveGuard => TablesReceive(s);
    case Send(c) => TablesSend(s, c);
    case _ =>
  }

  lemma TablesTake(s: State)
    requires TablesKept(s) && QueueKept(s) && PhasesKept(s) && MonitorEnabled(s, Takes)
    ensures TablesKept(AfterMonitor(s, Takes))
  {
    var s' := AfterMonitor(s, Takes);
    var c, es := s.commands[0], Reply(s.monitor, s.commands[0]);
    assert c in s.commands;
    forall d | d in s'.commands ensures d in s.commands && InOrder(c, d) {
      LaterInQueue(s, d);
    }
    if es == [] {
      assert s'.events == s.events;
    } else {
      ReplayAppend(s.table, s.events, es[0], s.generation);
      assert s'.events == s.events + [es[0]];
    }
    if c.Guards? && c.generation == s.generation {
      StaleEventsChangeNothing(s.table, s.events, s.generation, s.stopped);
      assert !Underway(s');
    } else {
      assert Underway(s) ==> Underway(s') by {
        if Underway(s) {
          var d :| d in s.commands && d.Guards? && d.generation == s.generation;
          assert d in s'.commands;
        }
      }
    }
  }

  lemma TablesMonitor(s: State, a: MonitorStep)
    requires TablesKept(s) && QueueKept(s) && PhasesKept(s) && MonitorEnabled(s, a)
    ensures TablesKept(AfterMonitor(s, a))
  {
    if a.Takes? {
      TablesTake(s);
    } else if a.Rebinds? {
      ReplayAppend(s.table, s.events, Announcement(s), s.generation);
    } else if a.Triggers? {
      ReplayAppend(s.table, s.events, Trigger(s.monitor.generation, a.kind, a.reason, a.workers), s.generation);
    }
  }

  // ---- whole runs ----

  lemma Step(s: State, a: Step)
    requires Inv(s) && Enabled(s, a)
    ensures Inv(After(s, a))
  {
    match a
    case Recover(r) =>
      ScopesRecovery(s, r); NamesRecovery(s, r); HandRecovery(s, r); ChainRecovery(s, r); QueueRecovery(s, r);
      TablesRecovery(s, r); FencingRecovery(s, r); PhasesRecovery(s, r);
    case Attach(t) =>
      ScopesAttach(s, t); NamesAttach(s, t); HandAttach(s, t); ChainAttach(s, t); QueueAttach(s, t);
      TablesAttach(s, t); FencingAttach(s, t); PhasesAttach(s, t);
    case Own(o) =>
      ScopesOwner(s, o); NamesOwner(s, o); HandOwner(s, o); ChainOwner(s, o); QueueOwner(s, o);
      TablesOwner(s, o); FencingOwner(s, o); PhasesOwner(s, o);
    case Observe(m) =>
      ScopesMonitor(s, m); NamesMonitor(s, m); HandMonitor(s, m); ChainMonitor(s, m); QueueMonitor(s, m);
      TablesMonitor(s, m); FencingMonitor(s, m); PhasesMonitor(s, m);
  }

  /** The invariant holds in every reachable state. */
  lemma {:induction false} Invariant(steps: seq<Step>)
    requires Legal(steps)
    ensures Inv(Exec(steps))
    decreases |steps|
  {
    if steps != [] {
      Invariant(steps[..|steps| - 1]);
      Step(Exec(steps[..|steps| - 1]), steps[|steps| - 1]);
    }
  }
}
