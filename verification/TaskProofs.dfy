/** What every interleaving of clients, routers, workers and restarts keeps. */
module TaskProofs {
  import opened Wrappers
  import opened WatchdogTypes
  import opened Tasks

  // ---- where tasks are ----

  ghost predicate NoRepeats(q: seq<int>) {
    forall i, j | 0 <= i < j < |q| :: q[i] != q[j]
  }

  /** The queue holds only tasks placed there, each once. */
  ghost predicate Listed(place: map<int, Place>, q: seq<int>, at: Place) {
    NoRepeats(q) && forall t | t in q :: t in place && place[t] == at
  }

  /** The task a worker has taken and not answered yet. */
  function Hand(m: Mode): Option<int> {
    match m
    case Fetched(t) => Some(t)
    case Running(t) => Some(t)
    case Told(t, _) => Some(t)
    case _ => None
  }

  /** The answered task that still shows in a worker's slot. */
  function Shown(m: Mode): Option<int> {
    match m
    case Replied(t) => Some(t)
    case Draining(t) => Some(t)
    case _ => None
  }

  ghost predicate WorkerPlaced(s: State, k: Key)
    requires k in s.workers
  {
    var w := s.workers[k];
    && k.pool < |s.pools|
    && Listed(s.place, w.queue, InQueue(k))
    && (Hand(w.mode).Some? ==> Hand(w.mode).value in s.place && s.place[Hand(w.mode).value] == InHand(k))
    && (Shown(w.mode).Some? ==> Shown(w.mode).value in s.place && s.place[Shown(w.mode).value] == Answered)
  }

  /** The task is where its history says. */
  ghost predicate Found(s: State, t: int)
    requires t in s.place
  {
    match s.place[t]
    case InPool(p) => p < |s.pools| && t in s.pools[p]
    case InQueue(k) => k in s.workers && t in s.workers[k].queue
    case InHand(k) => k in s.workers && Hand(s.workers[k].mode) == Some(t)
    case Answered => true
  }

  /** It has been answered if it is placed among the answered: once, and once more
      if the bookkeeping after that very answer raised. */
  ghost predicate Counted(s: State, t: int)
    requires t in s.place && t in s.replies
  {
    if s.place[t].Answered? then s.replies[t] != [] && s.replies[t] == WithSecond(s.replies[t][0], t in s.sunk)
    else s.replies[t] == [] && t !in s.sunk
  }

  ghost predicate QueuesKept(s: State) {
    && (forall p | 0 <= p < |s.pools| :: Listed(s.place, s.pools[p], InPool(p)))
    && (forall k | k in s.workers :: WorkerPlaced(s, k))
  }

  ghost predicate TasksKept(s: State) {
    && s.place.Keys == s.replies.Keys
    && (forall t | t in s.place :: t < s.next)
    && s.sunk <= s.place.Keys
    && (forall t | t in s.place :: Found(s, t) && Counted(s, t))
  }

  ghost predicate PlacesKept(s: State) { QueuesKept(s) && TasksKept(s) }

  lemma ListedTail(place: map<int, Place>, q: seq<int>, at: Place)
    requires Listed(place, q, at) && q != []
    ensures Listed(place, q[1..], at) && q[0] !in q[1..] && q[0] in q
    ensures forall t | t in q :: t == q[0] || t in q[1..]
  {
    forall t | t in q[1..] ensures t in q {}
  }

  lemma QueuesClient(s: State, a: ClientStep)
    requires PlacesKept(s) && ClientEnabled(s, a)
    ensures QueuesKept(AfterClient(s, a))
  {
    var s' := AfterClient(s, a);
    if a.Submit? {
      assert s.next !in s.place && s'.pools[a.pool] == s.pools[a.pool] + [s.next];
    }
    forall p | 0 <= p < |s'.pools| ensures Listed(s'.place, s'.pools[p], InPool(p)) {
      assert Listed(s.place, s.pools[p], InPool(p));
    }
    forall k | k in s'.workers ensures WorkerPlaced(s', k) {
      assert WorkerPlaced(s, k);
    }
  }

  lemma TasksClient(s: State, a: ClientStep)
    requires PlacesKept(s) && ClientEnabled(s, a)
    ensures TasksKept(AfterClient(s, a))
  {
    var s' := AfterClient(s, a);
    if a.Submit? {
      assert s.next !in s.place && s'.pools[a.pool] == s.pools[a.pool] + [s.next];
    }
    forall u | u in s'.place ensures Found(s', u) && Counted(s', u) {
      if u in s.place { assert Found(s, u) && Counted(s, u); }
    }
  }

  lemma QueuesRouter(s: State, a: RouterStep)
    requires PlacesKept(s) && RouterEnabled(s, a)
    ensures QueuesKept(AfterRouter(s, a))
  {
    var s' := AfterRouter(s, a);
    ListedTail(s.place, s.pools[a.pool], InPool(a.pool));
    forall p | 0 <= p < |s'.pools| ensures Listed(s'.place, s'.pools[p], InPool(p)) {
      assert Listed(s.place, s.pools[p], InPool(p));
    }
    forall k | k in s'.workers ensures WorkerPlaced(s', k) {
      assert WorkerPlaced(s, k);
    }
  }

  lemma TasksRouter(s: State, a: RouterStep)
    requires PlacesKept(s) && RouterEnabled(s, a)
    ensures TasksKept(AfterRouter(s, a))
  {
    var s' := AfterRouter(s, a);
    ListedTail(s.place, s.pools[a.pool], InPool(a.pool));
    forall u | u in s'.place ensures Found(s', u) && Counted(s', u) {
      assert Found(s, u) && Counted(s, u);
    }
  }

  /** The steps of a worker's loop between two answers. */
  lemma QueuesWorkerQuiet(s: State, a: WorkerStep)
    requires PlacesKept(s) && WorkerEnabled(s, a) && (a.Fetch? || a.Begin? || a.Clear? || a.Abort? || a.Exit?)
    ensures QueuesKept(AfterWorker(s, a))
  {
    var s' := AfterWorker(s, a);
    assert WorkerPlaced(s, a.k);
    if a.Fetch? {
      ListedTail(s.place, s.workers[a.k].queue, InQueue(a.k));
    }
    forall p | 0 <= p < |s'.pools| ensures Listed(s'.place, s'.pools[p], InPool(p)) {
      assert Listed(s.place, s.pools[p], InPool(p));
    }
    forall k | k in s'.workers ensures WorkerPlaced(s', k) {
      assert WorkerPlaced(s, k);
    }
  }

  /** The steps that answer a task. */
  lemma QueuesWorkerReply(s: State, a: WorkerStep)
    requires PlacesKept(s) && WorkerEnabled(s, a) && (a.Answer? || a.Interrupt? || a.DrainOne?)
    ensures QueuesKept(AfterWorker(s, a))
  {
    var s' := AfterWorker(s, a);
    assert WorkerPlaced(s, a.k);
    if a.DrainOne? {
      ListedTail(s.place, s.workers[a.k].queue, InQueue(a.k));
    } else {
      assert Counted(s, s.workers[a.k].mode.task);
    }
    forall p | 0 <= p < |s'.pools| ensures Listed(s'.place, s'.pools[p], InPool(p)) {
      assert Listed(s.place, s.pools[p], InPool(p));
    }
    forall k | k in s'.workers ensures WorkerPlaced(s', k) {
      assert WorkerPlaced(s, k);
    }
  }

  lemma TasksWorkerQuiet(s: State, a: WorkerStep)
    requires PlacesKept(s) && WorkerEnabled(s, a) && (a.Fetch? || a.Begin? || a.Clear? || a.Abort? || a.Exit?)
    ensures TasksKept(AfterWorker(s, a))
  {
    var s' := AfterWorker(s, a);
    assert WorkerPlaced(s, a.k);
    if a.Fetch? {
      ListedTail(s.place, s.workers[a.k].queue, InQueue(a.k));
    }
    forall u | u in s'.place ensures Found(s', u) && Counted(s', u) {
      assert Found(s, u) && Counted(s, u);
    }
  }

  lemma TasksWorkerReply(s: State, a: WorkerStep)
    requires PlacesKept(s) && WorkerEnabled(s, a) && (a.Answer? || a.Interrupt?)
    ensures TasksKept(AfterWorker(s, a))
  {
    var s' := AfterWorker(s, a);
    assert WorkerPlaced(s, a.k);
    forall u | u in s'.place ensures Found(s', u) && Counted(s', u) {
      assert Found(s, u) && Counted(s, u);
    }
  }

  lemma TasksWorkerDrain(s: State, a: WorkerStep)
    requires PlacesKept(s) && WorkerEnabled(s, a) && a.DrainOne?
    ensures TasksKept(AfterWorker(s, a))
  {
    var s' := AfterWorker(s, a);
    assert WorkerPlaced(s, a.k);
    ListedTail(s.place, s.workers[a.k].queue, InQueue(a.k));
    forall u | u in s'.place ensures Found(s', u) && Counted(s', u) {
      assert Found(s, u) && Counted(s, u);
    }
  }

  lemma PlacesWorker(s: State, a: WorkerStep)
    requires PlacesKept(s) && WorkerEnabled(s, a)
    ensures PlacesKept(AfterWorker(s, a))
  {
    if a.Answer? || a.Interrupt? || a.DrainOne? {
      QueuesWorkerReply(s, a);
      if a.DrainOne? { TasksWorkerDrain(s, a); } else { TasksWorkerReply(s, a); }
    } else {
      QueuesWorkerQuiet(s, a);
      TasksWorkerQuiet(s, a);
    }
  }

  lemma PlacesRestart(s: State, a: RestartStep)
    requires PlacesKept(s) && RestartEnabled(s, a) && !a.NewPool?
    ensures PlacesKept(AfterRestart(s, a))
  {
    var s' := AfterRestart(s, a);
    assert s'.workers.Keys == s.workers.Keys;
    forall k | k in s.workers ensures WorkerPlaced(s', k) && s'.workers[k].mode == s.workers[k].mode
                                   && s'.workers[k].queue == s.workers[k].queue {
      assert WorkerPlaced(s, k);
    }
    forall u | u in s'.place ensures Found(s', u) && Counted(s', u) {
      assert Found(s, u) && Counted(s, u);
    }
  }

  lemma PlacesNewPool(s: State, size: nat)
    requires PlacesKept(s)
    ensures PlacesKept(AfterRestart(s, NewPool(size)))
  {
    var s' := AfterRestart(s, NewPool(size));
    forall k | k in s.workers ensures k in s'.workers && s'.workers[k] == s.workers[k] {
      assert WorkerPlaced(s, k);
    }
    forall k | k in s'.workers ensures WorkerPlaced(s', k) {
      if k in s.workers { assert WorkerPlaced(s, k); }
    }
    forall u | u in s'.place ensures Found(s', u) && Counted(s', u) {
      assert Found(s, u) && Counted(s, u);
    }
  }

  lemma PlacesStep(s: State, a: Step)
    requires PlacesKept(s) && Enabled(s, a)
    ensures PlacesKept(After(s, a))
  {
    match a
    case ByClient(c) => QueuesClient(s, c); TasksClient(s, c);
    case ByRouter(r) => QueuesRouter(s, r); TasksRouter(s, r);
    case ByWorker(w) => PlacesWorker(s, w);
    case ByRestart(x) => if x.NewPool? { PlacesNewPool(s, x.size); } else { PlacesRestart(s, x); }
  }

  lemma {:induction false} PlacesInvariant(steps: seq<Step>)
    requires Legal(steps)
    ensures PlacesKept(Exec(steps))
    decreases |steps|
  {
    if steps != [] {
      PlacesInvariant(steps[..|steps| - 1]);
      PlacesStep(Exec(steps[..|steps| - 1]), steps[|steps| - 1]);
    }
  }
}
