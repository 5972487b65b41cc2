/** The owning process's guard table and the replacement events that wait for it. */
module GuardTables {
  import opened WatchdogTypes

  /** A replacement is adopted only in its own generation and only over the
      record of the process it replaces. */
  predicate Accepts(table: map<int, Guard>, e: Event, generation: int) {
    e.GuardReplaced? && e.generation == generation && e.worker in table && table[e.worker].pid == e.oldPid
  }

  function Accept(table: map<int, Guard>, e: Event, generation: int): map<int, Guard> {
    if Accepts(table, e, generation) then table[e.worker := e.guard] else table
  }

  /** The table once every waiting event has been received, oldest first. */
  function Replay(table: map<int, Guard>, events: seq<Event>, generation: int): map<int, Guard>
    decreases |events|
  {
    if events == [] then table else Replay(Accept(table, events[0], generation), events[1..], generation)
  }

  /** Received in order, every current replacement of a recorded worker finds the
      process it replaces, whose scope has been stopped already. */
  ghost predicate Linked(table: map<int, Guard>, events: seq<Event>, generation: int, stopped: set<string>)
    decreases |events|
  {
    events != [] ==>
      var e := events[0];
      && (e.GuardReplaced? && e.generation == generation && e.worker in table ==>
            table[e.worker].pid == e.oldPid && (table[e.worker].unit == "" || table[e.worker].unit in stopped))
      && Linked(Accept(table, e, generation), events[1..], generation, stopped)
  }

  ghost predicate NoneCurrent(events: seq<Event>, generation: int) {
    forall e | e in events && e.GuardReplaced? :: e.generation != generation
  }

  lemma {:induction false} StaleEventsChangeNothing(table: map<int, Guard>, events: seq<Event>, generation: int, stopped: set<string>)
    requires NoneCurrent(events, generation) || table == map[]
    ensures Replay(table, events, generation) == table && Linked(table, events, generation, stopped)
    decreases |events|
  {
    if events != [] {
      StaleEventsChangeNothing(table, events[1..], generation, stopped);
    }
  }

  lemma {:induction false} StoppingMoreKeepsLinks(table: map<int, Guard>, events: seq<Event>, generation: int,
                                                  stopped: set<string>, more: set<string>)
    requires Linked(table, events, generation, stopped) && stopped <= more
    ensures Linked(table, events, generation, more)
    decreases |events|
  {
    if events != [] {
      StoppingMoreKeepsLinks(Accept(table, events[0], generation), events[1..], generation, stopped, more);
    }
  }

  lemma {:induction false} ReplayAppend(table: map<int, Guard>, events: seq<Event>, e: Event, generation: int)
    ensures Replay(table, events + [e], generation) == Accept(Replay(table, events, generation), e, generation)
    decreases |events|
  {
    if events == [] {
      assert events + [e] == [e];
      assert Replay(Accept(table, e, generation), [], generation) == Accept(table, e, generation);
      assert [e][1..] == [];
    } else {
      assert (events + [e])[0] == events[0] && (events + [e])[1..] == events[1..] + [e];
      ReplayAppend(Accept(table, events[0], generation), events[1..], e, generation);
    }
  }

  /** A new event keeps the chain if it replaces what the replayed table records. */
  lemma {:induction false} LinkAppend(table: map<int, Guard>, events: seq<Event>, e: Event, generation: int, stopped: set<string>)
    requires Linked(table, events, generation, stopped)
    requires var last := Replay(table, events, generation);
             e.GuardReplaced? && e.generation == generation && e.worker in last ==>
               last[e.worker].pid == e.oldPid && (last[e.worker].unit == "" || last[e.worker].unit in stopped)
    ensures Linked(table, events + [e], generation, stopped)
    decreases |events|
  {
    if events == [] {
      assert events + [e] == [e];
      assert [e][1..] == [];
      assert Linked(Accept(table, e, generation), [], generation, stopped);
    } else {
      assert (events + [e])[0] == events[0] && (events + [e])[1..] == events[1..] + [e];
      LinkAppend(Accept(table, events[0], generation), events[1..], e, generation, stopped);
    }
  }

  lemma {:induction false} LinkPrefix(table: map<int, Guard>, events: seq<Event>, n: nat, generation: int, stopped: set<string>)
    requires Linked(table, events, generation, stopped) && n <= |events|
    ensures Linked(table, events[..n], generation, stopped)
    decreases n
  {
    if n > 0 {
      assert events[..n][0] == events[0] && events[..n][1..] == events[1..][..n - 1];
      LinkPrefix(Accept(table, events[0], generation), events[1..], n - 1, generation, stopped);
    }
  }

  // ---- units ----

  lemma UnitsUpdate(table: map<int, Guard>, w: int, g: Guard)
    ensures Units(table[w := g]) <= Units(table) + UnitOf(g)
    ensures UnitOf(g) <= Units(table[w := g])
    ensures w in table ==> Units(table) <= Units(table[w := g]) + UnitOf(table[w])
    ensures w !in table ==> Units(table) <= Units(table[w := g])
  {
    var table' := table[w := g];
    assert g.unit != "" ==> table'[w].unit in Units(table');
    forall u | u in Units(table) && (w in table ==> u != table[w].unit) ensures u in Units(table') {
      var v :| v in table && table[v].unit != "" && table[v].unit == u;
      assert v in table' && table'[v].unit == u;
    }
  }

  lemma UnitsOf(table: map<int, Guard>, w: int)
    requires w in table
    ensures UnitOf(table[w]) <= Units(table)
  {
  }

  lemma EventUnitsSplit(events: seq<Event>)
    requires events != []
    ensures EventUnits(events) == EventUnits([events[0]]) + EventUnits(events[1..])
  {
    forall u | u in EventUnits(events) ensures u in EventUnits([events[0]]) + EventUnits(events[1..]) {
      var i :| 0 <= i < |events| && events[i].GuardReplaced? && events[i].guard.unit != "" && events[i].guard.unit == u;
      if i == 0 {
        assert [events[0]][0] == events[0];
      } else {
        assert events[1..][i - 1] == events[i];
      }
    }
    forall u | u in EventUnits(events[1..]) ensures u in EventUnits(events) {
      var i :| 0 <= i < |events| - 1 && events[1..][i].GuardReplaced? && events[1..][i].guard.unit != "" && events[1..][i].guard.unit == u;
      assert events[i + 1].guard.unit == u;
    }
  }

  lemma EventUnitsAppend(events: seq<Event>, e: Event)
    ensures EventUnits(events + [e]) == EventUnits(events) + EventUnits([e])
  {
    var all := events + [e];
    forall u | u in EventUnits(events) + EventUnits([e]) ensures u in EventUnits(all) {
      if u in EventUnits(events) {
        var i :| 0 <= i < |events| && events[i].GuardReplaced? && events[i].guard.unit != "" && events[i].guard.unit == u;
        assert all[i] == events[i];
      } else {
        assert all[|events|] == e;
      }
    }
  }

  lemma EventUnitsOne(e: Event)
    ensures EventUnits([e]) == if e.GuardReplaced? then UnitOf(e.guard) else {}
  {
    assert [e][0] == e;
  }

  lemma EventUnitsPrefix(events: seq<Event>, n: nat)
    requires n <= |events|
    ensures EventUnits(events[..n]) <= EventUnits(events)
  {
  }
}
