/** What becomes of a task that a restart has marked as a culprit. */
module Culprits {
  import opened Wrappers
  import opened WatchdogTypes
  import opened Tasks
  import opened TaskProofs
  import opened TaskTheorems

  /** A task in a restart's snapshot has been taken by a worker, once and for all. */
  ghost predicate Taken(s: State, t: int) {
    t in s.place && (s.place[t].InHand? || s.place[t].Answered?)
  }

  ghost predicate FlagsKept(s: State) {
    && (forall t | t in s.flags :: Taken(s, t))
    && (s.restart.Snapped? ==>
          && (forall t | t in s.restart.todo :: Taken(s, t))
          && (s.restart.half.Some? ==> s.restart.half.value in s.flags))
    && (forall t | t in s.flags && t !in s.reasons :: s.restart.Snapped? && s.restart.half == Some(t))
  }

  predicate Innocent(r: Reply) { r.Interrupted? && !r.toxic }

  ghost predicate ToldIn(s: State, k: Key, t: int) { k in s.workers && s.workers[k].mode == Told(t, false) }

  /** It has been settled that the task counts as innocent: its worker has looked
      for the mark and found none. */
  ghost predicate ToldInnocent(s: State, t: int) {
    (t in s.replies && s.replies[t] != [] && Innocent(s.replies[t][0])) || exists k :: ToldIn(s, k, t)
  }

  // ---- one step ----

  /** A taken task stays taken and keeps its first reply. */
  ghost predicate StaysTaken(s: State, s': State, t: int)
    requires t in s.replies
  {
    && Taken(s', t) && t in s'.replies
    && (s.replies[t] != [] ==> s'.replies[t] != [] && s'.replies[t][0] == s.replies[t][0])
  }

  /** And once it is marked, whether it counts as innocent is settled. */
  ghost predicate Settled(s: State, s': State, t: int)
    requires t in s.replies
  {
    StaysTaken(s, s', t) && (t in s.flags ==> t in s'.flags && (ToldInnocent(s', t) <==> ToldInnocent(s, t)))
  }

  lemma SettledByOthers(s: State, s': State, t: int)
    requires t in s.replies && t in s'.replies && s'.replies[t] == s.replies[t] && Taken(s', t) && s.flags <= s'.flags
    requires forall k :: ToldIn(s', k, t) <==> ToldIn(s, k, t)
    ensures Settled(s, s', t)
  {
  }

  lemma TakenByClient(s: State, a: ClientStep, t: int)
    requires PlacesKept(s) && ClientEnabled(s, a) && Taken(s, t)
    ensures t in s.replies && Settled(s, AfterClient(s, a), t)
  {
    assert Found(s, t);
    SettledByOthers(s, AfterClient(s, a), t);
  }

  lemma TakenByRouter(s: State, a: RouterStep, t: int)
    requires PlacesKept(s) && RouterEnabled(s, a) && Taken(s, t)
    ensures t in s.replies && Settled(s, AfterRouter(s, a), t)
  {
    assert Listed(s.place, s.pools[a.pool], InPool(a.pool));
    SettledByOthers(s, AfterRouter(s, a), t);
  }

  /** The worker in whose hands the task is answers it or reads the poison. */
  lemma TakenByItsWorker(s: State, a: WorkerStep, t: int)
    requires PlacesKept(s) && WorkerEnabled(s, a) && Taken(s, t) && t in s.replies
    requires Hand(s.workers[a.k].mode) == Some(t)
    ensures Settled(s, AfterWorker(s, a), t)
  {
    var s' := AfterWorker(s, a);
    assert WorkerPlaced(s, a.k) && Counted(s, t);
    forall k | k != a.k ensures !ToldIn(s, k, t) && !ToldIn(s', k, t) {
      if k in s.workers {
        assert WorkerPlaced(s, k);
      }
    }
    assert ToldInnocent(s, t) <==> ToldIn(s, a.k, t);
    assert ToldIn(s', a.k, t) ==> ToldInnocent(s', t);
  }

  /** So does a worker that has it no longer, or never had it. */
  lemma TakenByAnotherWorker(s: State, a: WorkerStep, t: int)
    requires PlacesKept(s) && WorkerEnabled(s, a) && Taken(s, t) && t in s.replies
    requires Hand(s.workers[a.k].mode) != Some(t)
    ensures Settled(s, AfterWorker(s, a), t)
  {
    var s' := AfterWorker(s, a);
    assert WorkerPlaced(s, a.k) && Found(s, t);
    assert s'.replies[t] == s.replies[t];
    assert !ToldIn(s, a.k, t) && !ToldIn(s', a.k, t);
    forall k ensures ToldIn(s', k, t) <==> ToldIn(s, k, t) {
      if k != a.k && k in s.workers {
        assert s'.workers[k] == s.workers[k];
      }
    }
    SettledByOthers(s, s', t);
  }

  lemma TakenByRestart(s: State, a: RestartStep, t: int)
    requires PlacesKept(s) && RestartEnabled(s, a) && Taken(s, t)
    ensures t in s.replies && Settled(s, AfterRestart(s, a), t)
  {
    assert Found(s, t);
    var s' := AfterRestart(s, a);
    forall k ensures ToldIn(s', k, t) <==> ToldIn(s, k, t) {
      if k in s.workers {
        assert WorkerPlaced(s, k);
      }
    }
    SettledByOthers(s, s', t);
  }

  lemma TakenIsSettled(s: State, a: Step, t: int)
    requires PlacesKept(s) && Enabled(s, a) && Taken(s, t)
    ensures t in s.replies && Settled(s, After(s, a), t)
  {
    match a
    case ByClient(c) => TakenByClient(s, c, t);
    case ByRouter(r) => TakenByRouter(s, r, t);
    case ByWorker(w) =>
      assert Found(s, t);
      if Hand(s.workers[w.k].mode) == Some(t) { TakenByItsWorker(s, w, t); } else { TakenByAnotherWorker(s, w, t); }
    case ByRestart(x) => TakenByRestart(s, x, t);
  }

  lemma FlagsFrame(s: State, s': State)
    requires FlagsKept(s) && s'.flags == s.flags && s'.reasons == s.reasons && s'.restart == s.restart
    requires forall t | Taken(s, t) :: Taken(s', t)
    ensures FlagsKept(s')
  {
  }

  lemma FlagsByRestart(s: State, a: RestartStep)
    requires PlacesKept(s) && FlagsKept(s) && RestartEnabled(s, a)
    requires forall t | Taken(s, t) :: Taken(AfterRestart(s, a), t)
    ensures FlagsKept(AfterRestart(s, a))
  {
    if a.Snapshot? {
      forall k | k in InFlight(s) ensures Taken(s, InFlight(s)[k]) {
        assert WorkerPlaced(s, k);
      }
    }
  }

  lemma FlagsStep(s: State, a: Step)
    requires PlacesKept(s) && FlagsKept(s) && Enabled(s, a)
    ensures FlagsKept(After(s, a))
  {
    forall t | Taken(s, t) ensures Taken(After(s, a), t) {
      TakenIsSettled(s, a, t);
    }
    match a
    case ByClient(c) => FlagsFrame(s, AfterClient(s, c));
    case ByRouter(r) => FlagsFrame(s, AfterRouter(s, r));
    case ByWorker(w) => FlagsFrame(s, AfterWorker(s, w));
    case ByRestart(x) => FlagsByRestart(s, x);
  }

  lemma {:induction false} FlagsInvariant(steps: seq<Step>)
    requires Legal(steps)
    ensures FlagsKept(Exec(steps))
    decreases |steps|
  {
    if steps != [] {
      var front, a := steps[..|steps| - 1], steps[|steps| - 1];
      FlagsInvariant(front);
      PlacesInvariant(front);
      FlagsStep(Exec(front), a);
    }
  }

  // ---- whole runs ----

  lemma SettledOneMore(steps: seq<Step>, a: Step, t: int)
    requires Legal(steps) && Enabled(Exec(steps), a) && t in Exec(steps).flags
    ensures t in After(Exec(steps), a).flags && (ToldInnocent(After(Exec(steps), a), t) <==> ToldInnocent(Exec(steps), t))
  {
    FlagsInvariant(steps);
    PlacesInvariant(steps);
    TakenIsSettled(Exec(steps), a, t);
  }

  /** From the moment a task is marked, whether it counts as innocent never changes. */
  lemma {:induction false} MarkSettlesInnocence(steps: seq<Step>, n: nat, t: int)
    requires n <= |steps| && Legal(steps) && Legal(steps[..n]) && t in Exec(steps[..n]).flags
    ensures t in Exec(steps).flags && t in Exec(steps).replies
    ensures ToldInnocent(Exec(steps), t) <==> ToldInnocent(Exec(steps[..n]), t)
    decreases |steps|
  {
    if n == |steps| {
      assert steps[..n] == steps;
      FlagsInvariant(steps);
      PlacesInvariant(steps);
    } else {
      var front, a := steps[..|steps| - 1], steps[|steps| - 1];
      assert front[..n] == steps[..n];
      MarkSettlesInnocence(front, n, t);
      SettledOneMore(front, a, t);
      FlagsInvariant(steps);
      PlacesInvariant(steps);
    }
  }

  /** A task marked before its worker looked for the mark is never told it was
      innocent, whoever reads the poison. */
  lemma MarkedTaskIsNeverInnocent(steps: seq<Step>, n: nat, t: int)
    requires n <= |steps| && Legal(steps) && Legal(steps[..n])
    requires t in Exec(steps[..n]).flags && !ToldInnocent(Exec(steps[..n]), t)
    ensures var s := Exec(steps);
            t in s.flags && t in s.replies &&
            (s.replies[t] != [] && s.replies[t][0].Interrupted? ==> s.replies[t][0].toxic)
  {
    MarkSettlesInnocence(steps, n, t);
  }

  /** The call has gone on to another attempt, or is about to. */
  ghost predicate Resubmits(s: State, job: int, i: nat)
    requires job in s.clients && job in s.attempts
  {
    i < |s.attempts[job]| - 1 || s.clients[job].Retrying?
  }

  lemma SentBack(s: State, job: int, i: nat)
    requires job in s.clients && job in s.attempts && i < |s.attempts[job]| && ClientKept(s, job)
    ensures var t := s.attempts[job][i];
            && t in s.replies
            && (Resubmits(s, job, i) ==> s.replies[t] != [] && (s.replies[t][0].Broken? || Innocent(s.replies[t][0])))
            && (s.replies[t] != [] && (s.replies[t][0].Broken? || Innocent(s.replies[t][0])) ==>
                  Resubmits(s, job, i) || s.clients[job].Waiting? || s.clients[job] == Finished(Late))
  {
    if Resubmits(s, job, i) {
      assert Declined(s, s.attempts[job][i]);
    }
  }

  lemma InnocentReplySettles(s: State, t: int)
    requires PlacesKept(s) && t in s.replies && s.replies[t] != []
    ensures ToldInnocent(s, t) <==> Innocent(s.replies[t][0])
  {
    assert Counted(s, t);
    forall k ensures !ToldIn(s, k, t) {
      if k in s.workers {
        assert WorkerPlaced(s, k);
      }
    }
  }

  /** When a culprit is submitted again, for every marked task and every moment `n`
      from its marking on: the call goes on to another attempt only if the first
      reply is a broken pipe, the worker having met the dead server's pipe before
      the poison, or the task already counted as innocent at that moment; and if its
      first reply is one of these, the call does go on, unless it has not read the
      reply yet or its wait has expired. */
  lemma WhenCulpritsAreResubmitted(steps: seq<Step>, n: nat, job: int, i: nat)
    requires n <= |steps| && Legal(steps) && Legal(steps[..n])
    requires job in Exec(steps).clients && job in Exec(steps).attempts && i < |Exec(steps).attempts[job]|
    requires Exec(steps).attempts[job][i] in Exec(steps[..n]).flags
    ensures var s := Exec(steps);
            var t := s.attempts[job][i];
            var sentBack := t in s.replies && s.replies[t] != [] && (s.replies[t][0].Broken? || ToldInnocent(Exec(steps[..n]), t));
            && (Resubmits(s, job, i) ==> sentBack)
            && (sentBack ==> Resubmits(s, job, i) || s.clients[job].Waiting? || s.clients[job] == Finished(Late))
  {
    var s := Exec(steps);
    var t := s.attempts[job][i];
    ClientsInvariant(steps);
    PlacesInvariant(steps);
    SentBack(s, job, i);
    MarkSettlesInnocence(steps, n, t);
    if s.replies[t] != [] {
      InnocentReplySettles(s, t);
    }
  }

  // ---- runs ----

  /** Make one more step. */
  lemma Push(steps: seq<Step>, s: State, a: Step) returns (steps': seq<Step>, s': State)
    requires Legal(steps) && Exec(steps) == s && Enabled(s, a)
    ensures Legal(steps') && Exec(steps') == s' && s' == After(s, a) && steps' == steps + [a]
  {
    steps' := steps + [a];
    assert steps'[..|steps|] == steps;
    s' := After(s, a);
  }

  lemma PushWorker(steps: seq<Step>, s: State, a: WorkerStep) returns (steps': seq<Step>, s': State)
    requires Legal(steps) && Exec(steps) == s && WorkerEnabled(s, a)
    ensures Legal(steps') && Exec(steps') == s' && s' == AfterWorker(s, a)
  {
    steps', s' := Push(steps, s, ByWorker(a));
  }

  lemma PushRestart(steps: seq<Step>, s: State, a: RestartStep) returns (steps': seq<Step>, s': State)
    requires Legal(steps) && Exec(steps) == s && RestartEnabled(s, a)
    ensures Legal(steps') && Exec(steps') == s' && s' == AfterRestart(s, a)
  {
    steps', s' := Push(steps, s, ByRestart(a));
  }

  const K := Key(0, 1)

  /** Only worker `K` has been made, in the current pool, and this is its state. */
  predicate Alone(s: State, w: Worker) { s.workers == map[K := w] && s.current == 0 && s.pools == [[]] && s.next == 1 }

  /** The call of client 7 has made one attempt, task 0, with these replies. */
  predicate FirstAttempt(s: State, replies: seq<Reply>) {
    s.replies == map[0 := replies] && s.clients == map[7 := Waiting(0)] && s.attempts == map[7 := [0]]
  }

  predicate Unmarked(s: State) { s.flags == {} && s.reasons == map[] }

  /** The worker has taken the task off its queue. */
  lemma {:induction false} FetchedRun() returns (steps: seq<Step>, s: State)
    ensures Legal(steps) && Exec(steps) == s
    ensures Alone(s, Worker([], Fetched(0), 0, false)) && FirstAttempt(s, []) && Unmarked(s) && s.restart.NoRestart?
  {
    steps, s := PushRestart([], INIT, NewPool(1));
    assert s.workers == map[K := Worker([], Idle, 0, false)];
    steps, s := Push(steps, s, ByClient(Submit(7, 0)));
    assert s.pools[0] == [0] && s.attempts == map[7 := [0]];
    steps, s := Push(steps, s, ByRouter(Route(0, K)));
    assert s.workers[K].queue == [0] && [0][1..] == [] && s.pools == [[]];
    steps, s := PushWorker(steps, s, Fetch(K));
  }

  lemma SnapEffect(s: State, w: Worker, kind: Kind, reason: Reason, culprits: set<int>)
    requires Alone(s, w) && (Slot(w.mode).None? || !Blames(kind, culprits, 1))
    ensures Toxic(kind, culprits, InFlight(s)) == {} && (K in InFlight(s) <==> Slot(w.mode).Some?)
  {
    assert forall k | k in InFlight(s) :: k == K;
  }

  lemma PoisonEffect(s: State, w: Worker)
    requires Alone(s, w) && RestartEnabled(s, Poison)
    ensures AfterRestart(s, Poison).workers == map[K := w.(poison := w.poison + if K in s.restart.pairs then 1 else 0)]
  {
  }

  /** A restart that marks nobody of this pool, up to the teardown. */
  lemma {:induction false} QuietRestart(steps: seq<Step>, s: State, w: Worker, kind: Kind, reason: Reason, culprits: set<int>)
    returns (steps': seq<Step>, s': State)
    requires Legal(steps) && Exec(steps) == s && s.restart.NoRestart? && Alone(s, w)
    requires Slot(w.mode).None? || !Blames(kind, culprits, 1)
    ensures Legal(steps') && Exec(steps') == s' && s'.restart.Poisoned?
    ensures s' == s.(workers := s'.workers, restart := Poisoned)
    ensures Alone(s', w.(poison := w.poison + if Slot(w.mode).Some? then 1 else 0))
  {
    SnapEffect(s, w, kind, reason, culprits);
    var mid: State;
    steps', mid := PushRestart(steps, s, Snapshot(kind, reason, culprits));
    PoisonEffect(mid, w);
    steps', s' := PushRestart(steps', mid, Poison);
  }

  lemma {:induction false} TornDown(steps: seq<Step>, s: State, w: Worker, waiting: set<Key>) returns (steps': seq<Step>, s': State)
    requires Legal(steps) && Exec(steps) == s && s.restart.Poisoned? && Alone(s, w) && w.mode.Running? && waiting <= {K}
    ensures Legal(steps') && Exec(steps') == s' && s' == s.(workers := s'.workers, restart := NoRestart)
    ensures Alone(s', w.(woken := w.woken || K in waiting))
  {
    steps', s' := PushRestart(steps, s, Teardown(waiting));
    assert s'.workers == map[K := w.(woken := w.woken || K in waiting)];
  }

  lemma AbortEffect(s: State, w: Worker)
    requires Alone(s, w) && WorkerEnabled(s, Abort(K)) && w.mode == Running(0) && w.poison <= 1
    ensures AfterWorker(s, Abort(K)) == s.(workers := map[K := Worker(w.queue, Told(0, 0 in s.flags), 0, false)])
  {
  }

  lemma InterruptEffect(s: State, queue: seq<int>, toxic: bool)
    requires Alone(s, Worker(queue, Told(0, toxic), 0, false)) && FirstAttempt(s, [])
    ensures WorkerEnabled(s, Interrupt(K))
    ensures var s' := AfterWorker(s, Interrupt(K));
            && Alone(s', Worker(queue, Draining(0), 0, false)) && FirstAttempt(s', [Interrupted(toxic, ReasonOf(s, 0))])
            && s'.flags == s.flags && s'.reasons == s.reasons && s'.restart == s.restart
  {
    var rs := [Interrupted(toxic, ReasonOf(s, 0))];
    assert [] + rs == rs;
  }

  /** The worker reads the poison and tells the task what it has found. */
  lemma {:induction false} InterruptedRun(steps: seq<Step>, s: State, w: Worker) returns (steps': seq<Step>, s': State)
    requires Legal(steps) && Exec(steps) == s && Alone(s, w) && FirstAttempt(s, [])
    requires w.mode == Running(0) && (w.poison == 1 || (w.poison == 0 && w.woken))
    ensures Legal(steps') && Exec(steps') == s'
    ensures Alone(s', Worker(w.queue, Draining(0), 0, false)) && FirstAttempt(s', [Interrupted(0 in s.flags, ReasonOf(s, 0))])
    ensures s'.flags == s.flags && s'.reasons == s.reasons && s'.restart == s.restart
  {
    AbortEffect(s, w);
    var mid: State;
    steps', mid := PushWorker(steps, s, Abort(K));
    InterruptEffect(mid, w.queue, 0 in s.flags);
    steps', s' := PushWorker(steps', mid, Interrupt(K));
  }

  lemma AnswerEffect(s: State, w: Worker, r: Reply, sinkRaises: bool)
    requires Alone(s, w) && FirstAttempt(s, []) && w.mode == Running(0) && !r.Interrupted? && (sinkRaises ==> r.Done?)
    ensures WorkerEnabled(s, Answer(K, r, sinkRaises))
    ensures var s' := AfterWorker(s, Answer(K, r, sinkRaises));
            && FirstAttempt(s', WithSecond(r, sinkRaises)) && Alone(s', w.(mode := Replied(0), woken := false))
            && s'.flags == s.flags && s'.reasons == s.reasons
  {
    var rs := WithSecond(r, sinkRaises);
    assert [] + rs == rs;
  }

  lemma BeginEffect(s: State, w: Worker)
    requires Alone(s, w) && w.mode == Fetched(0)
    ensures WorkerEnabled(s, Begin(K)) && AfterWorker(s, Begin(K)) == s.(workers := map[K := w.(mode := Running(0))])
  {
  }

  /** The worker has begun the task. */
  lemma {:induction false} BusyRun() returns (steps: seq<Step>, s: State)
    ensures Legal(steps) && Exec(steps) == s
    ensures Alone(s, Worker([], Running(0), 0, false)) && FirstAttempt(s, []) && Unmarked(s) && s.restart.NoRestart?
  {
    var mid: State;
    steps, mid := FetchedRun();
    BeginEffect(mid, Worker([], Fetched(0), 0, false));
    steps, s := PushWorker(steps, mid, Begin(K));
  }

  /** A restart that blames worker 1 finds the task in its slot and sets its mark. */
  lemma {:induction false} MarkedRun(steps: seq<Step>, s: State, w: Worker, kind: Kind, reason: Reason) returns (steps': seq<Step>, s': State)
    requires Legal(steps) && Exec(steps) == s && s.restart.NoRestart? && Alone(s, w) && Slot(w.mode) == Some(0)
    ensures Legal(steps') && Exec(steps') == s' && s' == s.(flags := s.flags + {0}, restart := s'.restart)
    ensures s'.restart == Snapped(reason, {}, Some(0), map[K := 0])
  {
    assert InFlight(s) == map[K := 0];
    assert K in InFlight(s) && Blames(kind, {1}, K.id);
    assert Toxic(kind, {1}, InFlight(s)) == {0};
    steps', s' := PushRestart(steps, s, Snapshot(kind, reason, {1}));
    steps', s' := PushRestart(steps', s', Flag(0));
  }

  /** The client reads the reply that sends it back, and submits again. */
  lemma {:induction false} BackToThePool(steps: seq<Step>, s: State, rs: seq<Reply>) returns (steps': seq<Step>)
    requires Legal(steps) && Exec(steps) == s && FirstAttempt(s, rs) && |s.pools| == 1 && s.next == 1
    requires rs != [] && Decide(rs[0]).None?
    ensures Legal(steps')
    ensures var s' := Exec(steps');
            && 7 in s'.attempts && s'.attempts[7] == [0, 1] && 0 in s'.replies && s'.replies[0] == rs
            && s'.flags == s.flags && s'.reasons == s.reasons
  {
    var s': State;
    steps', s' := Push(steps, s, ByClient(Consume(7)));
    steps', s' := Push(steps', s', ByClient(Submit(7, 0)));
    assert s'.attempts[7] == [0] + [1] == [0, 1];
  }

  /** A marked culprit is submitted again after a broken pipe. */
  lemma {:induction false} MarkedCulpritCanBeResubmitted() returns (steps: seq<Step>)
    ensures Legal(steps)
    ensures var s := Exec(steps);
            && 0 in s.flags && 0 in s.reasons && 7 in s.attempts && s.attempts[7] == [0, 1]
            && 0 in s.replies && s.replies[0] == [Broken]
  {
    var s: State;
    steps, s := BusyRun();
    steps, s := MarkedRun(steps, s, Worker([], Running(0), 0, false), Memory, HitHardLimit);
    steps, s := PushRestart(steps, s, Explain);
    AnswerEffect(s, Worker([], Running(0), 0, false), Broken, false);
    steps, s := PushWorker(steps, s, Answer(K, Broken, false));
    steps := BackToThePool(steps, s, [Broken]);
  }

  /** A restart finds the slot empty, the worker begins its task, the teardown wakes
      it, and it answers the task as innocent and goes on to drain its queue. */
  lemma {:induction false} DrainingRun() returns (steps: seq<Step>, s: State)
    ensures Legal(steps) && Exec(steps) == s
    ensures Alone(s, Worker([], Draining(0), 0, false)) && FirstAttempt(s, [Interrupted(false, None)])
    ensures Unmarked(s) && s.restart.NoRestart?
  {
    steps, s := FetchedRun();
    steps, s := QuietRestart(steps, s, Worker([], Fetched(0), 0, false), Death, ServerExited, {});
    BeginEffect(s, Worker([], Fetched(0), 0, false));
    steps, s := PushWorker(steps, s, Begin(K));
    steps, s := TornDown(steps, s, Worker([], Running(0), 0, false), {K});
    steps, s := InterruptedRun(steps, s, Worker([], Running(0), 0, true));
  }

  /** A culprit is also submitted again, with no broken pipe, when the restart is
      tried once more and finds the task, answered already, still in the slot of
      the worker that drains its queue. */
  lemma {:induction false} InnocentCulpritCanBeResubmitted() returns (steps: seq<Step>)
    ensures Legal(steps)
    ensures var s := Exec(steps);
            && 0 in s.flags && 0 in s.reasons && 7 in s.attempts && s.attempts[7] == [0, 1]
            && 0 in s.replies && s.replies[0] == [Interrupted(false, None)]
  {
    var s: State;
    steps, s := DrainingRun();
    steps, s := MarkedRun(steps, s, Worker([], Draining(0), 0, false), Death, ServerExited);
    steps, s := PushRestart(steps, s, Explain);
    steps := BackToThePool(steps, s, [Interrupted(false, None)]);
  }

  /** A restart that blames another worker leaves this one its poison, and the next
      one has set the mark of its task when it reads it. */
  lemma {:induction false} HalfMarkedRun() returns (steps: seq<Step>, s: State)
    ensures Legal(steps) && Exec(steps) == s
    ensures FirstAttempt(s, [Interrupted(true, None)])
    ensures s.restart == Snapped(TaskOverdue, {}, Some(0), map[K := 0])
  {
    steps, s := BusyRun();
    steps, s := QuietRestart(steps, s, Worker([], Running(0), 0, false), Memory, HitHardLimit, {2});
    steps, s := TornDown(steps, s, Worker([], Running(0), 1, false), {});
    steps, s := MarkedRun(steps, s, Worker([], Running(0), 1, false), Deadline, TaskOverdue);
    steps, s := InterruptedRun(steps, s, Worker([], Running(0), 1, false));
  }

  /** A task blamed for its deadline is rejected as toxic, not reported as late,
      when its worker reads the mark before the reason is there. */
  lemma {:induction false} ReasonCanBeMissing() returns (steps: seq<Step>)
    ensures Legal(steps) && 7 in Exec(steps).clients && Exec(steps).clients[7] == Finished(Rejected(None))
    ensures 0 in Exec(steps).reasons && Exec(steps).reasons[0] == TaskOverdue
  {
    var s: State;
    steps, s := HalfMarkedRun();
    steps, s := PushRestart(steps, s, Explain);
    steps, s := Push(steps, s, ByClient(Consume(7)));
  }

  /** A restart blames the task for its deadline, mark and reason, and is over. */
  lemma {:induction false} BlamedForItsDeadlineRun() returns (steps: seq<Step>, s: State)
    ensures Legal(steps) && Exec(steps) == s
    ensures Alone(s, Worker([], Running(0), 1, false)) && FirstAttempt(s, []) && s.restart.NoRestart?
    ensures s.flags == {0} && s.reasons == map[0 := TaskOverdue]
  {
    var w := Worker([], Running(0), 0, false);
    steps, s := BusyRun();
    steps, s := MarkedRun(steps, s, w, Deadline, TaskOverdue);
    steps, s := PushRestart(steps, s, Explain);
    PoisonEffect(s, w);
    steps, s := PushRestart(steps, s, Poison);
    steps, s := TornDown(steps, s, w.(poison := 1), {});
  }

  /** Another way: the next restart, which blames the whole slot, overwrites the
      reason before the worker reads it. */
  lemma {:induction false} ReasonCanBeOverwritten() returns (steps: seq<Step>)
    ensures Legal(steps) && 7 in Exec(steps).clients && Exec(steps).clients[7] == Finished(Rejected(Some(ServerExited)))
  {
    var s: State;
    var w := Worker([], Running(0), 1, false);
    steps, s := BlamedForItsDeadlineRun();
    steps, s := MarkedRun(steps, s, w, Death, ServerExited);
    steps, s := PushRestart(steps, s, Explain);
    steps, s := InterruptedRun(steps, s, w);
    steps, s := Push(steps, s, ByClient(Consume(7)));
  }

  /** Whatever success troubles the bookkeeping, a run answers its task twice. */
  lemma {:induction false} SuccessCanBeAnsweredTwice(v: Value, sinkRaises: bool) returns (steps: seq<Step>)
    requires CountRaises(v) || sinkRaises
    ensures Legal(steps) && 0 in Exec(steps).replies
    ensures Exec(steps).replies[0] == [Done(v), if CountRaises(v) then Failed else TimedOut]
  {
    var s: State;
    steps, s := BusyRun();
    AnswerEffect(s, Worker([], Running(0), 0, false), Done(v), sinkRaises);
    steps, s := PushWorker(steps, s, Answer(K, Done(v), sinkRaises));
  }
}
