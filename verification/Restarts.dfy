/** What a restart does with what it sees: whom it blames, whom it marks and whom it
    wakes, each kind of trigger written out. */
module Restarts {
  import opened Wrappers
  import opened WatchdogTypes
  import opened Tasks

  /** Worker `k` of the current pool shows the task in its slot. */
  predicate Shows(s: State, k: Key, t: int) {
    && k in s.workers && k.pool == s.current
    && var m := s.workers[k].mode;
       m == Running(t) || m == Replied(t) || m == Draining(t) || m == Told(t, true) || m == Told(t, false)
  }

  /** A deadline, a memory limit, a dead worker and a dead monitor blame the workers
      that are named; a fatal line and a dead server blame every worker. */
  predicate Implicates(kind: Kind, culprits: set<int>, id: int) {
    match kind
    case Deadline => id in culprits
    case Memory => id in culprits
    case WorkerDeath => id in culprits
    case WatchdogDeath => id in culprits
    case Fatal => true
    case Death => true
  }

  /** The task is in the slot of a worker that this trigger blames. */
  ghost predicate ToBlame(s: State, kind: Kind, culprits: set<int>, t: int) {
    exists k :: Shows(s, k, t) && Implicates(kind, culprits, k.id)
  }

  lemma InFlightIsShown(s: State, k: Key, t: int)
    ensures k in InFlight(s) && InFlight(s)[k] == t <==> Shows(s, k, t)
  {
    if k in s.workers {
      assert Slot(s.workers[k].mode) == Some(t) <==>
             s.workers[k].mode in {Running(t), Replied(t), Draining(t), Told(t, true), Told(t, false)};
    }
  }

  lemma ToxicIsToBlame(s: State, kind: Kind, culprits: set<int>, t: int)
    ensures t in Toxic(kind, culprits, InFlight(s)) <==> ToBlame(s, kind, culprits, t)
  {
    if t in Toxic(kind, culprits, InFlight(s)) {
      var k :| k in InFlight(s) && Blames(kind, culprits, k.id) && InFlight(s)[k] == t;
      InFlightIsShown(s, k, t);
    }
    if ToBlame(s, kind, culprits, t) {
      var k :| Shows(s, k, t) && Implicates(kind, culprits, k.id);
      InFlightIsShown(s, k, t);
      assert Blames(kind, culprits, k.id);
    }
  }

  /** A restart begins by noting exactly the tasks in the slots of the workers its
      trigger blames, and exactly the workers of the current pool that show a task. */
  lemma SnapshotMarksTheBlamed(steps: seq<Step>, kind: Kind, reason: Reason, culprits: set<int>)
    requires steps != [] && Legal(steps) && steps[|steps| - 1] == ByRestart(Snapshot(kind, reason, culprits))
    ensures var s, s' := Exec(steps[..|steps| - 1]), Exec(steps);
            && s'.restart.Snapped? && s'.restart.reason == reason && s'.restart.half.None?
            && (forall t :: t in s'.restart.todo <==> ToBlame(s, kind, culprits, t))
            && (forall k, t :: k in s'.restart.pairs && s'.restart.pairs[k] == t <==> Shows(s, k, t))
  {
    var s := Exec(steps[..|steps| - 1]);
    forall t ensures t in Toxic(kind, culprits, InFlight(s)) <==> ToBlame(s, kind, culprits, t) {
      ToxicIsToBlame(s, kind, culprits, t);
    }
    forall k, t ensures k in InFlight(s) && InFlight(s)[k] == t <==> Shows(s, k, t) {
      InFlightIsShown(s, k, t);
    }
  }

  // ---- from the snapshot to the poison ----

  /** Step `i` is the latest at which a restart took its snapshot. */
  ghost predicate LatestSnapshot(steps: seq<Step>, i: nat) {
    && i < |steps| && steps[i].ByRestart? && steps[i].x.Snapshot?
    && forall j | i < j < |steps| :: !(steps[j].ByRestart? && steps[j].x.Snapshot?)
  }

  /** Between `s0`, in which the snapshot was taken, and `s` the restart has marked, for
      its reason, the blamed tasks that it need not mark any more, and nothing else. */
  ghost predicate Marking(s0: State, a: RestartStep, s: State)
    requires a.Snapshot?
  {
    s.restart.Snapped? ==>
      && s.restart.reason == a.reason && s.restart.pairs == InFlight(s0)
      && s.restart.todo <= Toxic(a.kind, a.culprits, InFlight(s0))
      && s.flags == s0.flags + (Toxic(a.kind, a.culprits, InFlight(s0)) - s.restart.todo)
      && (forall t | t in Toxic(a.kind, a.culprits, InFlight(s0)) && t !in s.restart.todo && s.restart.half != Some(t) ::
            t in s.reasons && s.reasons[t] == a.reason)
      && (forall t | t !in Toxic(a.kind, a.culprits, InFlight(s0)) :: ReasonOf(s, t) == ReasonOf(s0, t))
  }

  /** The task being marked is one to blame. */
  ghost predicate HalfToBlame(s0: State, a: RestartStep, s: State)
    requires a.Snapshot?
  {
    s.restart.Snapped? && s.restart.half.Some? ==> s.restart.half.value in Toxic(a.kind, a.culprits, InFlight(s0))
  }

  lemma ClientsMarkNothing(s: State, a: ClientStep)
    requires ClientEnabled(s, a)
    ensures var s' := AfterClient(s, a); s'.restart == s.restart && s'.flags == s.flags && s'.reasons == s.reasons
  {
  }

  lemma RoutersMarkNothing(s: State, a: RouterStep)
    requires RouterEnabled(s, a)
    ensures var s' := AfterRouter(s, a); s'.restart == s.restart && s'.flags == s.flags && s'.reasons == s.reasons
  {
  }

  lemma MarkingRestart(s0: State, a: RestartStep, s: State, b: RestartStep)
    requires a.Snapshot? && Marking(s0, a, s) && HalfToBlame(s0, a, s) && RestartEnabled(s, b) && !b.Snapshot?
    ensures Marking(s0, a, AfterRestart(s, b)) && HalfToBlame(s0, a, AfterRestart(s, b))
  {
  }

  lemma MarkingStep(s0: State, a: RestartStep, s: State, b: Step)
    requires a.Snapshot? && Marking(s0, a, s) && HalfToBlame(s0, a, s) && Enabled(s, b) && !(b.ByRestart? && b.x.Snapshot?)
    ensures Marking(s0, a, After(s, b)) && HalfToBlame(s0, a, After(s, b))
  {
    match b
    case ByClient(c) => ClientsMarkNothing(s, c);
    case ByRouter(r) => RoutersMarkNothing(s, r);
    case ByWorker(w) =>
    case ByRestart(x) => MarkingRestart(s0, a, s, x);
  }

  lemma {:induction false} MarksSoFar(steps: seq<Step>, i: nat)
    requires Legal(steps) && LatestSnapshot(steps, i) && Legal(steps[..i])
    ensures Marking(Exec(steps[..i]), steps[i].x, Exec(steps))
    ensures HalfToBlame(Exec(steps[..i]), steps[i].x, Exec(steps))
    decreases |steps|
  {
    var n := |steps| - 1;
    if i < n {
      assert steps[..n][..i] == steps[..i];
      MarksSoFar(steps[..n], i);
      MarkingStep(Exec(steps[..i]), steps[i].x, Exec(steps[..n]), steps[n]);
    }
  }

  /** From the snapshot in `s0` on, the restart has marked every task it found to blame,
      and no other, and given each of them its own reason; and the poison, the step
      from `s` to `s'`, reaches once each exactly the workers that showed a task then. */
  ghost predicate CarriedOut(s0: State, a: RestartStep, s: State, s': State)
    requires a.Snapshot?
  {
    && (forall t :: t in s'.flags <==> t in s0.flags || ToBlame(s0, a.kind, a.culprits, t))
    && (forall t | ToBlame(s0, a.kind, a.culprits, t) :: t in s'.reasons && s'.reasons[t] == a.reason)
    && (forall t | !ToBlame(s0, a.kind, a.culprits, t) :: ReasonOf(s', t) == ReasonOf(s0, t))
    && s'.workers.Keys == s.workers.Keys
    && forall k | k in s.workers ::
         s'.workers[k] == s.workers[k].(poison := s.workers[k].poison + if exists t :: Shows(s0, k, t) then 1 else 0)
  }

  lemma PoisonCarriesOut(s0: State, a: RestartStep, s: State)
    requires a.Snapshot? && Marking(s0, a, s) && RestartEnabled(s, Poison)
    ensures CarriedOut(s0, a, s, AfterRestart(s, Poison))
  {
    forall t ensures t in Toxic(a.kind, a.culprits, InFlight(s0)) <==> ToBlame(s0, a.kind, a.culprits, t) {
      ToxicIsToBlame(s0, a.kind, a.culprits, t);
    }
    forall k ensures k in InFlight(s0) <==> exists t :: Shows(s0, k, t) {
      if k in InFlight(s0) {
        InFlightIsShown(s0, k, InFlight(s0)[k]);
      }
      if exists t :: Shows(s0, k, t) {
        var t :| Shows(s0, k, t);
        InFlightIsShown(s0, k, t);
      }
    }
  }

  /** By the time a restart poisons the workers it has done what its snapshot said,
      whatever clients, routers and workers have done in the meantime. */
  lemma RestartDoesWhatItSaw(steps: seq<Step>, i: nat)
    requires steps != [] && Legal(steps) && steps[|steps| - 1] == ByRestart(Poison)
    requires LatestSnapshot(steps, i) && Legal(steps[..i])
    ensures CarriedOut(Exec(steps[..i]), steps[i].x, Exec(steps[..|steps| - 1]), Exec(steps))
  {
    var front := steps[..|steps| - 1];
    assert front[..i] == steps[..i] && LatestSnapshot(front, i);
    MarksSoFar(front, i);
    assert steps[|steps| - 1].x == Poison && Exec(steps) == AfterRestart(Exec(front), Poison);
    PoisonCarriesOut(Exec(steps[..i]), steps[i].x, Exec(front));
  }

  // ---- who is interrupted ----

  /** A restart saw the worker serve a task. */
  ghost predicate WasSeen(steps: seq<Step>, k: Key) {
    exists i: nat, t ::
      i < |steps| && Legal(steps[..i]) && steps[i].ByRestart? && steps[i].x.Snapshot? && Shows(Exec(steps[..i]), k, t)
  }

  /** A teardown woke its pending request, while it was serving this task. */
  ghost predicate WasWoken(steps: seq<Step>, k: Key, t: int) {
    exists i: nat ::
      && i < |steps| && Legal(steps[..i]) && steps[i].ByRestart? && steps[i].x.Teardown? && k in steps[i].x.waiting
      && k in Exec(steps[..i]).workers && Exec(steps[..i]).workers[k].mode == Running(t)
  }

  lemma SeenLonger(steps: seq<Step>, a: Step, k: Key)
    ensures WasSeen(steps, k) ==> WasSeen(steps + [a], k)
    ensures forall t | WasWoken(steps, k, t) :: WasWoken(steps + [a], k, t)
  {
    var more := steps + [a];
    if WasSeen(steps, k) {
      var i: nat, t :| i < |steps| && Legal(steps[..i]) && steps[i].ByRestart? && steps[i].x.Snapshot? && Shows(Exec(steps[..i]), k, t);
      assert more[..i] == steps[..i] && more[i] == steps[i];
    }
    forall t | WasWoken(steps, k, t) ensures WasWoken(more, k, t) {
      var i: nat :| i < |steps| && Legal(steps[..i]) && steps[i].ByRestart? && steps[i].x.Teardown? && k in steps[i].x.waiting
                    && k in Exec(steps[..i]).workers && Exec(steps[..i]).workers[k].mode == Running(t);
      assert more[..i] == steps[..i] && more[i] == steps[i];
    }
  }

  ghost predicate InterruptsKept(steps: seq<Step>, s: State) {
    && (forall k | k in s.workers && s.workers[k].poison > 0 :: WasSeen(steps, k))
    && (forall k | k in s.workers && s.workers[k].woken ::
          s.workers[k].mode.Running? && WasWoken(steps, k, s.workers[k].mode.task))
    && (s.restart.Snapped? ==> forall k | k in s.restart.pairs :: WasSeen(steps, k))
  }

  lemma InterruptsRestart(steps: seq<Step>, s: State, a: RestartStep)
    requires Legal(steps) && s == Exec(steps) && RestartEnabled(s, a) && InterruptsKept(steps + [ByRestart(a)], s)
    ensures InterruptsKept(steps + [ByRestart(a)], AfterRestart(s, a))
  {
    var more := steps + [ByRestart(a)];
    assert more[|steps|] == ByRestart(a) && more[..|steps|] == steps;
    if a.Snapshot? {
      forall k | k in InFlight(s) ensures WasSeen(more, k) {
        InFlightIsShown(s, k, InFlight(s)[k]);
      }
    } else if a.Teardown? {
      forall k | k in a.waiting ensures WasWoken(more, k, s.workers[k].mode.task) {
      }
    }
  }

  lemma {:induction false} InterruptsInvariant(steps: seq<Step>)
    requires Legal(steps)
    ensures InterruptsKept(steps, Exec(steps))
    decreases |steps|
  {
    if steps != [] {
      var n := |steps| - 1;
      var front, a := steps[..n], steps[n];
      assert steps == front + [a];
      InterruptsInvariant(front);
      var s := Exec(front);
      forall k ensures (WasSeen(front, k) ==> WasSeen(steps, k)) && forall t | WasWoken(front, k, t) :: WasWoken(steps, k, t) {
        SeenLonger(front, a, k);
      }
      assert InterruptsKept(steps, s);
      match a
      case ByClient(c) => assert AfterClient(s, c).workers == s.workers && AfterClient(s, c).restart == s.restart;
      case ByRouter(r) => InterruptsRouter(steps, s, r);
      case ByWorker(w) => InterruptsWorker(steps, s, w);
      case ByRestart(x) => InterruptsRestart(front, s, x);
    }
  }

  lemma InterruptsRouter(steps: seq<Step>, s: State, a: RouterStep)
    requires RouterEnabled(s, a) && InterruptsKept(steps, s)
    ensures InterruptsKept(steps, AfterRouter(s, a))
  {
  }

  lemma InterruptsWorker(steps: seq<Step>, s: State, a: WorkerStep)
    requires WorkerEnabled(s, a) && InterruptsKept(steps, s)
    ensures InterruptsKept(steps, AfterWorker(s, a))
  {
  }

  /** A worker can be interrupted only if some restart saw it serve a task, or a teardown
      woke it while it was serving the very task it still serves: idle workers are left
      alone, and no wake-up outlives its task. */
  lemma OnlySeenWorkersAreInterrupted(steps: seq<Step>, k: Key)
    requires Legal(steps) && Enabled(Exec(steps), ByWorker(Abort(k)))
    ensures WasSeen(steps, k) || WasWoken(steps, k, Exec(steps).workers[k].mode.task)
  {
    InterruptsInvariant(steps);
  }

  // ---- pools ----

  /** Of how many workers the pool made last was to be. */
  ghost function LatestSize(steps: seq<Step>): Option<nat>
    decreases |steps|
  {
    if steps == [] then None
    else
      match steps[|steps| - 1]
      case ByRestart(NewPool(n)) => Some(n)
      case _ => LatestSize(steps[..|steps| - 1])
  }

  ghost predicate PoolsKept(s: State, size: Option<nat>) {
    && (forall k | k in s.workers :: k.pool < |s.pools|)
    && (size.None? ==> s.pools == [] && s.workers == map[])
    && (size.Some? ==>
          |s.pools| == s.current + 1 && forall i :: Key(s.current, i) in s.workers <==> 1 <= i <= size.value)
  }

  lemma PoolsStep(s: State, a: Step, size: Option<nat>)
    requires PoolsKept(s, size) && Enabled(s, a)
    ensures PoolsKept(After(s, a), if a.ByRestart? && a.x.NewPool? then Some(a.x.size) else size)
  {
    match a
    case ByClient(c) => PoolsByClient(s, c);
    case ByRouter(r) => PoolsByRouter(s, r);
    case ByWorker(w) => PoolsByWorker(s, w);
    case ByRestart(x) => PoolsByRestart(s, x, size);
  }

  lemma PoolsByClient(s: State, a: ClientStep)
    requires ClientEnabled(s, a)
    ensures var s' := AfterClient(s, a); s'.workers == s.workers && s'.current == s.current && |s'.pools| == |s.pools|
    ensures s.pools == [] ==> AfterClient(s, a).pools == []
  {
  }

  lemma PoolsByRouter(s: State, a: RouterStep)
    requires RouterEnabled(s, a)
    ensures var s' := AfterRouter(s, a); s'.workers.Keys == s.workers.Keys && s'.current == s.current && |s'.pools| == |s.pools|
  {
  }

  lemma PoolsByWorker(s: State, a: WorkerStep)
    requires WorkerEnabled(s, a)
    ensures var s' := AfterWorker(s, a); s'.workers.Keys == s.workers.Keys && s'.current == s.current && s'.pools == s.pools
  {
  }

  lemma PoolsByRestart(s: State, a: RestartStep, size: Option<nat>)
    requires PoolsKept(s, size) && RestartEnabled(s, a)
    ensures PoolsKept(AfterRestart(s, a), if a.NewPool? then Some(a.size) else size)
  {
  }

  lemma {:induction false} PoolsInvariant(steps: seq<Step>)
    requires Legal(steps)
    ensures PoolsKept(Exec(steps), LatestSize(steps))
    decreases |steps|
  {
    if steps != [] {
      var front := steps[..|steps| - 1];
      PoolsInvariant(front);
      PoolsStep(Exec(front), steps[|steps| - 1], LatestSize(front));
    }
  }

  /** A restart looks at the pool that was made last, whose workers are numbered from 1
      to its size. */
  lemma RestartsLookAtTheNewestPool(steps: seq<Step>, k: Key, t: int)
    requires Legal(steps) && Shows(Exec(steps), k, t)
    ensures k.pool == |Exec(steps).pools| - 1 && LatestSize(steps).Some? && 1 <= k.id <= LatestSize(steps).value
    ensures forall i | 1 <= i <= LatestSize(steps).value :: Key(k.pool, i) in Exec(steps).workers
  {
    PoolsInvariant(steps);
    assert k == Key(k.pool, k.id);
  }
}
