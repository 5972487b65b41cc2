/** The owning process's side of the guards: the object whose fields the
    receiver thread, a restart and a shutdown update. */
module Watchdog {
  import opened Wrappers
  import opened WatchdogTypes
  import opened GuardTables

  datatype AttachError = DeadServer | WorkersMissing(ids: set<int>) | ScopeRefused(worker: int)

  /** What asking systemd for one worker's scope yields.  `Stranded`: the call
      raised, but the scope is there. */
  datatype Attempt =
    | Refused
    | Stranded(unit: string)
    | Adopted(unit: string, cgroup: string, oomKill: int)

  function StrayUnit(a: Attempt): set<string> { if a.Stranded? && a.unit != "" then {a.unit} else {} }

  /** The table guards workers 1 to `size`: each in its own process, and with a limit in
      the scope made for it, from whose count of kills it starts; else in no scope. */
  ghost predicate Guarding(table: map<int, Guard>, size: nat, pids: map<int, int>, limited: bool, adopt: int -> Attempt) {
    && (forall w :: w in table <==> 1 <= w <= size)
    && (forall w | w in table :: w in pids && table[w].pid == pids[w])
    && (forall w | w in table && limited ::
          adopt(w).Adopted? && table[w].unit == adopt(w).unit && table[w].cgroup == adopt(w).cgroup
          && table[w].oomKill == adopt(w).oomKill)
    && (forall w | w in table && !limited :: table[w].unit == "" && table[w].cgroup == "" && table[w].oomKill == 0)
  }

  /** The scope that exists after the attempt. */
  function MadeUnit(a: Attempt): set<string> {
    if a.Refused? || a.unit == "" then {} else {a.unit}
  }

  lemma NewKey(table: map<int, Guard>, w: int, g: Guard)
    requires w !in table
    ensures Units(table[w := g]) == Units(table) + UnitOf(g)
  {
    UnitsUpdate(table, w, g);
  }

  lemma HasMember(s: set<int>)
    ensures s == {} || exists x :: x in s
  {
    if forall x :: x !in s {
      assert s == {};
    }
  }

  class Watchdog {
    var generation: int
    var workerScopes: map<int, Guard>
    var commandQueue: seq<Command>
    /** A monitor process has been started and not stopped. */
    var started: bool
    /** Every unit that systemd has made for this process, and every unit it has been asked to stop. */
    var made: set<string>
    var stopped: set<string>

    constructor ()
      ensures generation == 0 && workerScopes == map[] && commandQueue == [] && !started && made == {} && stopped == {}
    {
      generation, workerScopes, commandQueue, started, made, stopped := 0, map[], [], false, {}, {};
    }

    /** Without a monitor process the message is dropped. */
    method Send(message: Command)
      modifies `commandQueue
      ensures commandQueue == old(commandQueue) + if started then [message] else []
    {
      if started { commandQueue := commandQueue + [message]; }
    }

    method StopSystemdScope(unit: string)
      modifies `stopped
      ensures stopped == old(stopped) + {unit}
    {
      stopped := stopped + {unit};
    }

    /** A new server process opens a new generation. */
    method SetRootProcess(pid: int)
      modifies `generation, `commandQueue
      ensures generation == old(generation) + 1
      ensures commandQueue == old(commandQueue) + if started then [Root(pid, generation)] else []
    {
      generation := generation + 1;
      Send(Root(pid, generation));
    }

    /** Take over a scope that the monitor created, or stop it if the table has moved on. */
    method AcceptReplacementGuard(e: Event)
      requires e.GuardReplaced?
      modifies `workerScopes, `stopped
      ensures if e.generation == generation && e.worker in old(workerScopes) && old(workerScopes)[e.worker].pid == e.oldPid
              then workerScopes == old(workerScopes)[e.worker := e.guard] && stopped == old(stopped)
              else workerScopes == old(workerScopes) && stopped == old(stopped) + UnitOf(e.guard)
    {
      if e.generation != generation {
        if e.guard.unit != "" { StopSystemdScope(e.guard.unit); }
        return;
      }
      var accepted := false;
      if e.worker in workerScopes && workerScopes[e.worker].pid == e.oldPid {
        workerScopes := workerScopes[e.worker := e.guard];
        accepted := true;
      }
      if !accepted && e.guard.unit != "" {
        StopSystemdScope(e.guard.unit);
      }
    }

    /** Forget the table and stop every scope it names. */
    method StopWorkerScopes()
      modifies `workerScopes, `stopped
      ensures workerScopes == map[]
      ensures stopped == old(stopped) + Units(old(workerScopes))
    {
      var scopes := workerScopes;
      workerScopes := map[];
      StopAll(scopes);
    }

    method StopAll(scopes: map<int, Guard>)
      modifies `stopped
      ensures stopped == old(stopped) + Units(scopes)
    {
      var left: set<int> := scopes.Keys;
      while left != {}
        invariant left <= scopes.Keys
        invariant stopped == old(stopped) + Units(map w | w in scopes && w !in left :: scopes[w])
        decreases left
      {
        HasMember(left);
        var w :| w in left;
        ghost var done, more := map v | v in scopes && v !in left :: scopes[v],
                                map v | v in scopes && v !in left - {w} :: scopes[v];
        assert more == done[w := scopes[w]];
        assert Units(more) == Units(done) + UnitOf(scopes[w]) by {
          UnitsUpdate(done, w, scopes[w]);
        }
        if scopes[w].unit != "" { StopSystemdScope(scopes[w].unit); }
        left := left - {w};
      }
      assert (map w | w in scopes && w !in {} :: scopes[w]) == scopes;
    }

    /** The guards for the workers in turn, up to the first whose scope fails. */
    method CreateGuards(size: nat, pids: map<int, int>, limited: bool, adopt: int -> Attempt)
      returns (created: map<int, Guard>, failed: Option<int>)
      requires forall w | 1 <= w <= size :: w in pids
      modifies `made
      ensures match failed
              case None =>
                Guarding(created, size, pids, limited, adopt) && made == old(made) + Units(created)
              case Some(n) =>
                && limited && 1 <= n <= size && !adopt(n).Adopted?
                && Guarding(created, n - 1, pids, limited, adopt) && made == old(made) + Units(created) + StrayUnit(adopt(n))
    {
      created := map[];
      var w := 1;
      while w <= size
        invariant 1 <= w <= size + 1
        invariant made == old(made) + Units(created)
        invariant Guarding(created, w - 1, pids, limited, adopt)
      {
        var guard := Guard(pids[w], "", "", 0);
        if limited {
          var scope := adopt(w);
          made := made + MadeUnit(scope);
          if !scope.Adopted? { return created, Some(w); }
          guard := Guard(pids[w], scope.unit, scope.cgroup, scope.oomKill);
        }
        NewKey(created, w, guard);
        created := created[w := guard];
        w := w + 1;
      }
      failed := None;
    }

    /** Put every worker under guard.  A dead server or a missing worker changes
        nothing; a failed scope undoes the ones just created, but a scope that was
        made by a call that raised is stopped by nobody; success replaces the whole
        table and publishes it under the current generation. */
    method AttachWorkerGuards(size: nat, serverAlive: bool, pids: map<int, int>, limited: bool, adopt: int -> Attempt)
      returns (r: Result<bool, AttachError>)
      modifies `workerScopes, `made, `stopped, `commandQueue
      ensures r == Failure(DeadServer) <==> !serverAlive
      ensures var missing := set w | 1 <= w <= size && w !in pids;
              && (r == Failure(WorkersMissing(missing)) <==> serverAlive && limited && missing != {})
              && (r == Success(false) <==> serverAlive && !limited && missing != {})
              && (r.Failure? && r.error.WorkersMissing? ==> r.error.ids == missing)
      ensures r == Success(true) || (r.Failure? && r.error.ScopeRefused?) <==>
                serverAlive && forall w | 1 <= w <= size :: w in pids
      ensures r == Success(true) ==>
                && Guarding(workerScopes, size, pids, limited, adopt)
                && commandQueue == old(commandQueue) + (if started then [Guards(generation, workerScopes)] else [])
                && stopped == old(stopped) + Units(old(workerScopes))
                && made == old(made) + Units(workerScopes)
      ensures r != Success(true) ==> commandQueue == old(commandQueue)
      ensures r == Success(false) || (r.Failure? && !r.error.ScopeRefused?) ==>
                workerScopes == old(workerScopes) && made == old(made) && stopped == old(stopped)
      ensures r.Failure? && r.error.ScopeRefused? ==>
                && var n := r.error.worker;
                && limited && 1 <= n <= size && !adopt(n).Adopted?
                && workerScopes == map[]
                && exists created: map<int, Guard> ::
                     && Guarding(created, n - 1, pids, limited, adopt)
                     && stopped == old(stopped) + Units(old(workerScopes)) + Units(created)
                     && made == old(made) + Units(created) + StrayUnit(adopt(n))
    {
      if !serverAlive { return Failure(DeadServer); }
      var missing := set w | 1 <= w <= size && w !in pids;
      if missing != {} {
        if limited { return Failure(WorkersMissing(missing)); }
        var w :| w in missing;
        return Success(false);
      }
      assert forall w | 1 <= w <= size :: w in pids by {
        forall w | 1 <= w <= size ensures w in pids {
          assert w !in missing;
        }
      }
      StopWorkerScopes();
      var created, failed := CreateGuards(size, pids, limited, adopt);
      if failed.Some? {
        StopAll(created);
        return Failure(ScopeRefused(failed.value));
      }
      workerScopes := created;
      Send(Guards(generation, created));
      r := Success(true);
    }

    /** The end of a shutdown, once the monitor has exited: adopt what is still
        queued, then stop everything recorded.  If the queue continues the table,
        as it does in every reachable state, no scope that either of them named
        survives, and nothing else is stopped. */
    method StopGuards(pending: seq<Event>)
      requires Linked(workerScopes, pending, generation, stopped)
      modifies `workerScopes, `stopped
      ensures workerScopes == map[]
      ensures Units(old(workerScopes)) + EventUnits(pending) <= stopped
      ensures stopped <= old(stopped) + Units(old(workerScopes)) + EventUnits(pending)
    {
      ghost var named := Units(workerScopes) + EventUnits(pending);
      var i := 0;
      while i < |pending|
        invariant 0 <= i <= |pending|
        invariant Linked(workerScopes, pending[i..], generation, stopped)
        invariant named <= stopped + Units(workerScopes) + EventUnits(pending[i..])
        invariant stopped + Units(workerScopes) + EventUnits(pending[i..]) <= old(stopped) + named
      {
        assert pending[i..][0] == pending[i] && pending[i..][1..] == pending[i + 1..];
        ghost var table, before := workerScopes, stopped;
        EventUnitsSplit(pending[i..]);
        EventUnitsOne(pending[i]);
        if pending[i].GuardReplaced? {
          AcceptReplacementGuard(pending[i]);
          if Accepts(table, pending[i], generation) {
            UnitsUpdate(table, pending[i].worker, pending[i].guard);
          }
        }
        StoppingMoreKeepsLinks(Accept(table, pending[i], generation), pending[i + 1..], generation, before, stopped);
        i := i + 1;
      }
      assert EventUnits(pending[i..]) == {};
      StopWorkerScopes();
    }
  }
}
