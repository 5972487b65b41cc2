/** The promises about tasks, for every run. */
module TaskTheorems {
  import opened Wrappers
  import opened WatchdogTypes
  import opened Tasks
  import opened TaskProofs

  // ---- conservation ----

  /** The task can be found at this place by looking at queues, slots and replies. */
  ghost predicate SitsAt(s: State, t: int, at: Place) {
    match at
    case InPool(p) => p < |s.pools| && t in s.pools[p]
    case InQueue(k) => k in s.workers && t in s.workers[k].queue
    case InHand(k) => k in s.workers && Hand(s.workers[k].mode) == Some(t)
    case Answered => t in s.replies && s.replies[t] != []
  }

  lemma SitsWherePlaced(s: State, t: int, at: Place)
    requires PlacesKept(s) && t in s.replies
    ensures SitsAt(s, t, at) <==> s.place[t] == at
  {
    assert Found(s, t) && Counted(s, t);
    match at
    case InPool(p) => if p < |s.pools| { assert Listed(s.place, s.pools[p], InPool(p)); }
    case InQueue(k) => if k in s.workers { assert WorkerPlaced(s, k); }
    case InHand(k) => if k in s.workers { assert WorkerPlaced(s, k); }
    case Answered =>
  }

  /** Conservation: every submitted task sits at exactly one place, once; it has
      no reply before it is answered, and then one, unless the answer was a success
      after which the diagnostics could not be counted or the event sink raised:
      then, and only then, the handler's own reply follows as the second. */
  lemma TaskIsInExactlyOnePlace(steps: seq<Step>, t: int)
    requires Legal(steps) && t in Exec(steps).replies
    ensures var s := Exec(steps);
            && (exists at :: SitsAt(s, t, at) && forall at' :: SitsAt(s, t, at') ==> at' == at)
            && |s.replies[t]| <= 2
            && (|s.replies[t]| == 2 <==>
                  s.replies[t] != [] && s.replies[t][0].Done? && (CountRaises(s.replies[t][0].value) || t in s.sunk))
    ensures forall p | 0 <= p < |Exec(steps).pools| :: NoRepeats(Exec(steps).pools[p])
    ensures forall k | k in Exec(steps).workers :: NoRepeats(Exec(steps).workers[k].queue)
  {
    PlacesInvariant(steps);
    var s := Exec(steps);
    assert Counted(s, t);
    forall at ensures SitsAt(s, t, at) <==> s.place[t] == at {
      SitsWherePlaced(s, t, at);
    }
    assert SitsAt(s, t, s.place[t]);
    forall p | 0 <= p < |s.pools| ensures NoRepeats(s.pools[p]) {
      assert Listed(s.place, s.pools[p], InPool(p));
    }
    forall k | k in s.workers ensures NoRepeats(s.workers[k].queue) {
      assert WorkerPlaced(s, k);
    }
  }

  /** The task is worker `k`'s: queued for it or in its hands. */
  predicate Holds(s: State, k: Key, t: int) {
    t in s.place && (s.place[t] == InQueue(k) || s.place[t] == InHand(k))
  }

  predicate HeldOrAnswered(s: State, k: Key, t: int) {
    t in s.place && (s.place[t] == InQueue(k) || s.place[t] == InHand(k) || s.place[t] == Answered)
  }

  lemma HeldByWorker(s: State, a: WorkerStep, k: Key, t: int)
    requires PlacesKept(s) && WorkerEnabled(s, a) && HeldOrAnswered(s, k, t)
    ensures HeldOrAnswered(AfterWorker(s, a), k, t)
  {
    assert Found(s, t) && WorkerPlaced(s, a.k);
  }

  lemma HeldByRouter(s: State, a: RouterStep, k: Key, t: int)
    requires PlacesKept(s) && RouterEnabled(s, a) && HeldOrAnswered(s, k, t)
    ensures HeldOrAnswered(AfterRouter(s, a), k, t)
  {
    assert Found(s, t) && Listed(s.place, s.pools[a.pool], InPool(a.pool));
  }

  lemma HeldByClient(s: State, a: ClientStep, k: Key, t: int)
    requires PlacesKept(s) && ClientEnabled(s, a) && HeldOrAnswered(s, k, t)
    ensures HeldOrAnswered(AfterClient(s, a), k, t)
  {
    assert Found(s, t);
  }

  lemma HeldByRestart(s: State, a: RestartStep, k: Key, t: int)
    requires RestartEnabled(s, a) && HeldOrAnswered(s, k, t)
    ensures HeldOrAnswered(AfterRestart(s, a), k, t)
  {
  }

  lemma HeldUntilAnswered(s: State, a: Step, k: Key, t: int)
    requires PlacesKept(s) && Enabled(s, a) && HeldOrAnswered(s, k, t)
    ensures HeldOrAnswered(After(s, a), k, t)
  {
    match a
    case ByClient(c) => HeldByClient(s, c, k, t);
    case ByRouter(r) => HeldByRouter(s, r, k, t);
    case ByWorker(w) => HeldByWorker(s, w, k, t);
    case ByRestart(x) => HeldByRestart(s, x, k, t);
  }

  lemma HeldAtLast(steps: seq<Step>, k: Key, t: int)
    requires steps != [] && Legal(steps) && HeldOrAnswered(Exec(steps[..|steps| - 1]), k, t)
    ensures HeldOrAnswered(Exec(steps), k, t)
  {
    var front := steps[..|steps| - 1];
    PlacesInvariant(front);
    HeldUntilAnswered(Exec(front), steps[|steps| - 1], k, t);
  }

  lemma {:induction false} HeldOverRuns(steps: seq<Step>, i: nat, k: Key, t: int)
    requires i <= |steps| && Legal(steps) && Legal(steps[..i]) && Holds(Exec(steps[..i]), k, t)
    ensures HeldOrAnswered(Exec(steps), k, t)
    decreases |steps|
  {
    if i == |steps| {
      assert steps[..i] == steps;
    } else {
      var front := steps[..|steps| - 1];
      assert front[..i] == steps[..i];
      HeldOverRuns(front, i, k, t);
      HeldAtLast(steps, k, t);
    }
  }

  /** When a poisoned worker exits, every task that was in its hands or in its
      queue at any earlier moment of the run has been answered, and answered once
      unless it was a success with trouble in the bookkeeping. */
  lemma ExitingWorkerHasAnsweredEverything(steps: seq<Step>, k: Key, i: nat, t: int)
    requires Legal(steps) && Enabled(Exec(steps), ByWorker(Exit(k)))
    requires i <= |steps| && Legal(steps[..i]) && Holds(Exec(steps[..i]), k, t)
    ensures var s := Exec(steps);
            && t in s.replies && s.replies[t] != []
            && s.replies[t] == WithSecond(s.replies[t][0], t in s.sunk)
  {
    HeldOverRuns(steps, i, k, t);
    PlacesInvariant(steps);
    var s := Exec(steps);
    assert Found(s, t) && Counted(s, t);
  }

  // ---- attribution ----

  /** At step `i` of the run a restart finds task `t` in the slot of worker `k` and
      blames it for `reason`: a fatal line and a dead server blame every worker, and any
      other trigger those it names. */
  ghost predicate Blamed(steps: seq<Step>, i: nat, k: Key, t: int, reason: Reason) {
    && i < |steps| && Legal(steps[..i]) && steps[i].ByRestart? && steps[i].x.Snapshot?
    && steps[i].x.reason == reason && (steps[i].x.kind.Fatal? || steps[i].x.kind.Death? || k.id in steps[i].x.culprits)
    && k in InFlight(Exec(steps[..i])) && InFlight(Exec(steps[..i]))[k] == t
  }

  ghost predicate WasBlamed(steps: seq<Step>, t: int, reason: Reason) {
    exists i: nat, k :: Blamed(steps, i, k, t, reason)
  }

  lemma BlamedLonger(steps: seq<Step>, a: Step, t: int, reason: Reason)
    requires WasBlamed(steps, t, reason)
    ensures WasBlamed(steps + [a], t, reason)
  {
    var i: nat, k :| Blamed(steps, i, k, t, reason);
    assert (steps + [a])[..i] == steps[..i] && (steps + [a])[i] == steps[i];
    assert Blamed(steps + [a], i, k, t, reason);
  }

  /** Some restart blamed a worker that showed the task. */
  ghost predicate Accused(steps: seq<Step>, t: int) { exists reason :: WasBlamed(steps, t, reason) }

  /** A reply speaks of guilt only if there was an accusation, and gives only a reason that was given. */
  ghost predicate ReplyJustified(steps: seq<Step>, t: int, r: Reply) {
    r.Interrupted? && r.toxic ==> Accused(steps, t) && (r.reason.Some? ==> WasBlamed(steps, t, r.reason.value))
  }

  ghost predicate MarksJustified(steps: seq<Step>, s: State) {
    && (forall t | t in s.flags :: Accused(steps, t))
    && (forall t | t in s.reasons :: WasBlamed(steps, t, s.reasons[t]))
    && (s.restart.Snapped? ==>
          && (forall t | t in s.restart.todo :: WasBlamed(steps, t, s.restart.reason))
          && (s.restart.half.Some? ==> WasBlamed(steps, s.restart.half.value, s.restart.reason)))
    && (forall k | k in s.workers && s.workers[k].mode.Told? && s.workers[k].mode.toxic :: Accused(steps, s.workers[k].mode.task))
  }

  ghost predicate RepliesJustified(steps: seq<Step>, s: State) {
    forall t, r | t in s.replies && r in s.replies[t] :: ReplyJustified(steps, t, r)
  }

  ghost predicate Justified(steps: seq<Step>, s: State) { MarksJustified(steps, s) && RepliesJustified(steps, s) }

  lemma AccusedLonger(steps: seq<Step>, a: Step, t: int)
    requires Accused(steps, t)
    ensures Accused(steps + [a], t)
  {
    var reason :| WasBlamed(steps, t, reason);
    BlamedLonger(steps, a, t, reason);
  }

  lemma JustifiedLonger(steps: seq<Step>, a: Step, s: State)
    requires Justified(steps, s)
    ensures Justified(steps + [a], s)
  {
    forall t, reason | WasBlamed(steps, t, reason) ensures WasBlamed(steps + [a], t, reason) {
      BlamedLonger(steps, a, t, reason);
    }
    forall t | Accused(steps, t) ensures Accused(steps + [a], t) {
      AccusedLonger(steps, a, t);
    }
    forall t, r | t in s.replies && r in s.replies[t] ensures ReplyJustified(steps + [a], t, r) {
      assert ReplyJustified(steps, t, r);
    }
  }

  /** Adding replies keeps the replies justified if the new ones are. */
  lemma RepliesAdded(steps: seq<Step>, s: State, t: int, rs: seq<Reply>, s': State)
    requires RepliesJustified(steps, s) && t in s.replies && forall r | r in rs :: ReplyJustified(steps, t, r)
    requires s'.replies == s.replies[t := s.replies[t] + rs]
    ensures RepliesJustified(steps, s')
  {
    forall u, q | u in s'.replies && q in s'.replies[u] ensures ReplyJustified(steps, u, q) {
      if u != t || q !in rs {
        assert q in s.replies[u];
      }
    }
  }

  lemma RepliesKept(steps: seq<Step>, s: State, s': State)
    requires RepliesJustified(steps, s) && forall t | t in s'.replies :: s'.replies[t] == [] || (t in s.replies && s'.replies[t] == s.replies[t])
    ensures RepliesJustified(steps, s')
  {
    forall u, q | u in s'.replies && q in s'.replies[u] ensures ReplyJustified(steps, u, q) {
      assert u in s.replies && q in s.replies[u];
    }
  }

  lemma JustifiedRouter(steps: seq<Step>, s: State, a: RouterStep)
    requires Justified(steps, s) && RouterEnabled(s, a)
    ensures Justified(steps, AfterRouter(s, a))
  {
    if a.Reject? {
      RepliesAdded(steps, s, s.pools[a.pool][0], [Failed], AfterRouter(s, a));
    }
  }

  lemma WorkerRepliesJustified(steps: seq<Step>, s: State, a: WorkerStep)
    requires Justified(steps, s) && WorkerEnabled(s, a)
    ensures RepliesJustified(steps, AfterWorker(s, a))
  {
    var s', w := AfterWorker(s, a), s.workers[a.k];
    match a
    case Answer(_, r, sinkRaises) => RepliesAdded(steps, s, w.mode.task, WithSecond(r, sinkRaises), s');
    case Interrupt(_) => RepliesAdded(steps, s, w.mode.task, [Interrupted(w.mode.toxic, ReasonOf(s, w.mode.task))], s');
    case DrainOne(_) => RepliesAdded(steps, s, w.queue[0], [Interrupted(false, None)], s');
    case _ => RepliesKept(steps, s, s');
  }

  lemma JustifiedWorker(steps: seq<Step>, s: State, a: WorkerStep)
    requires Justified(steps, s) && WorkerEnabled(s, a)
    ensures Justified(steps, AfterWorker(s, a))
  {
    WorkerRepliesJustified(steps, s, a);
    var s' := AfterWorker(s, a);
    forall k | k in s'.workers && s'.workers[k].mode.Told? && s'.workers[k].mode.toxic
      ensures Accused(steps, s'.workers[k].mode.task) {
      if k != a.k {
        assert s'.workers[k] == s.workers[k];
      }
    }
  }

  lemma SnapshotJustified(steps: seq<Step>, s: State, a: RestartStep)
    requires Legal(steps) && s == Exec(steps) && a.Snapshot?
    ensures forall t | t in Toxic(a.kind, a.culprits, InFlight(s)) :: WasBlamed(steps + [ByRestart(a)], t, a.reason)
  {
    var longer := steps + [ByRestart(a)];
    forall t | t in Toxic(a.kind, a.culprits, InFlight(s)) ensures WasBlamed(longer, t, a.reason) {
      var k :| k in InFlight(s) && Blames(a.kind, a.culprits, k.id) && InFlight(s)[k] == t;
      assert longer[..|steps|] == steps;
      assert Blamed(longer, |steps|, k, t, a.reason);
    }
  }

  lemma JustifiedRestart(steps: seq<Step>, s: State, a: RestartStep)
    requires Legal(steps) && s == Exec(steps) && Justified(steps + [ByRestart(a)], s) && RestartEnabled(s, a)
    ensures Justified(steps + [ByRestart(a)], AfterRestart(s, a))
  {
    var s', longer := AfterRestart(s, a), steps + [ByRestart(a)];
    RepliesKept(longer, s, s');
    if a.Snapshot? {
      SnapshotJustified(steps, s, a);
    }
    forall k | k in s'.workers && s'.workers[k].mode.Told? ensures k in s.workers && s'.workers[k].mode == s.workers[k].mode {
    }
  }

  lemma {:induction false} RunsAreJustified(steps: seq<Step>)
    requires Legal(steps)
    ensures Justified(steps, Exec(steps))
    decreases |steps|
  {
    if steps != [] {
      var front, a := steps[..|steps| - 1], steps[|steps| - 1];
      assert steps == front + [a];
      RunsAreJustified(front);
      var s := Exec(front);
      JustifiedLonger(front, a, s);
      match a
      case ByClient(c) => RepliesKept(steps, s, AfterClient(s, c));
      case ByRouter(r) => JustifiedRouter(steps, s, r);
      case ByWorker(w) => JustifiedWorker(steps, s, w);
      case ByRestart(x) => JustifiedRestart(front, s, x);
    }
  }

  /** Toxicity is sound: a reply calls an attempt toxic only if, earlier in the
      run, a restart that blames worker `k` found that very attempt in `k`'s slot,
      and the reason it gives is that of such a restart.  So queued tasks, and tasks
      on workers a precise trigger does not name, are never called toxic, whoever
      reads the poison. */
  lemma ToxicReplyIsJustified(steps: seq<Step>, t: int, r: Reply)
    requires Legal(steps) && t in Exec(steps).replies && r in Exec(steps).replies[t]
    requires r.Interrupted? && r.toxic
    ensures exists i: nat, k, reason :: Blamed(steps, i, k, t, reason)
    ensures r.reason.Some? ==> exists i: nat, k :: Blamed(steps, i, k, t, r.reason.value)
  {
    RunsAreJustified(steps);
    assert ReplyJustified(steps, t, r);
  }

  // ---- what the resilient client makes of it ----

  /** The first reply of the attempt sent the client back to submit again. */
  ghost predicate Declined(s: State, t: int) {
    t in s.replies && s.replies[t] != [] && Decide(s.replies[t][0]).None?
  }

  ghost predicate ClientKept(s: State, j: int)
    requires j in s.clients && j in s.attempts
  {
    var a := s.attempts[j];
    && a != []
    && (forall i | 0 <= i < |a| :: a[i] in s.replies && a[i] < s.next)
    && (forall i | 0 <= i < |a| - 1 :: Declined(s, a[i]) && a[i] < a[i + 1])
    && match s.clients[j] {
         case Waiting(t) => t == a[|a| - 1]
         case Retrying => Declined(s, a[|a| - 1])
         case Finished(o) =>
           o.Late? || (s.replies[a[|a| - 1]] != [] && Decide(s.replies[a[|a| - 1]][0]) == Some(o))
       }
  }

  ghost predicate ClientsKept(s: State) {
    && s.attempts.Keys == s.clients.Keys
    && s.place.Keys == s.replies.Keys && (forall t | t in s.replies :: t < s.next)
    && (forall j | j in s.clients :: ClientKept(s, j))
  }

  /** Replies are only ever appended. */
  ghost predicate RepliesGrow(s: State, s': State) {
    && s'.place.Keys == s'.replies.Keys && s.replies.Keys <= s'.replies.Keys
    && (forall t | t in s.replies :: s.replies[t] <= s'.replies[t])
    && s.next <= s'.next && (forall t | t in s'.replies :: t < s'.next)
  }

  lemma ClientsFrame(s: State, s': State)
    requires ClientsKept(s) && RepliesGrow(s, s') && s'.clients == s.clients && s'.attempts == s.attempts
    ensures ClientsKept(s')
  {
    forall j | j in s'.clients ensures ClientKept(s', j) {
      assert ClientKept(s, j);
      forall i | 0 <= i < |s.attempts[j]| - 1 ensures Declined(s', s.attempts[j][i]) {
        assert Declined(s, s.attempts[j][i]);
      }
    }
  }

  /** A client whose attempts stay as they are and whose last attempt explains where it stands now. */
  lemma ClientStays(s: State, s': State, j: int)
    requires j in s.clients && j in s.attempts && ClientKept(s, j) && RepliesGrow(s, s')
    requires j in s'.clients && j in s'.attempts && s'.attempts[j] == s.attempts[j] && s'.clients[j] == s.clients[j]
    ensures ClientKept(s', j)
  {
    forall i | 0 <= i < |s.attempts[j]| - 1 ensures Declined(s', s.attempts[j][i]) {
      assert Declined(s, s.attempts[j][i]);
    }
  }

  lemma SubmitStep(s: State, j: int, p: nat)
    requires ClientsKept(s) && ClientEnabled(s, Submit(j, p))
    ensures ClientsKept(AfterClient(s, Submit(j, p)))
  {
    var s' := AfterClient(s, Submit(j, p));
    forall k | k in s'.clients ensures ClientKept(s', k) {
      if k in s.clients {
        assert ClientKept(s, k);
        if k != j {
          ClientStays(s, s', k);
        } else {
          forall i | 0 <= i < |s.attempts[j]| ensures Declined(s', s'.attempts[j][i]) {
            assert Declined(s, s.attempts[j][i]);
          }
        }
      }
    }
  }

  lemma ClientsStep(s: State, a: ClientStep)
    requires ClientsKept(s) && ClientEnabled(s, a)
    ensures ClientsKept(AfterClient(s, a))
  {
    if a.Submit? {
      SubmitStep(s, a.job, a.pool);
    } else {
      var s' := AfterClient(s, a);
      forall k | k in s'.clients ensures ClientKept(s', k) {
        assert ClientKept(s, k);
        if k != a.job {
          ClientStays(s, s', k);
        }
      }
    }
  }

  lemma {:induction false} ClientsInvariant(steps: seq<Step>)
    requires Legal(steps)
    ensures ClientsKept(Exec(steps))
    decreases |steps|
  {
    if steps != [] {
      var front, a := steps[..|steps| - 1], steps[|steps| - 1];
      ClientsInvariant(front);
      var s := Exec(front);
      PlacesInvariant(steps);
      match a
      case ByClient(c) => ClientsStep(s, c);
      case ByRouter(r) => ClientsFrame(s, AfterRouter(s, r));
      case ByWorker(w) => ClientsFrame(s, AfterWorker(s, w));
      case ByRestart(x) => ClientsFrame(s, AfterRestart(s, x));
    }
  }

  lemma RejectionIsJustified(steps: seq<Step>, s: State, job: int)
    requires Justified(steps, s) && job in s.clients && job in s.attempts && ClientKept(s, job)
    requires s.clients[job].Finished? && s.clients[job].outcome.Rejected?
    ensures var last := s.attempts[job][|s.attempts[job]| - 1];
            && Accused(steps, last)
            && (s.clients[job].outcome.reason.Some? ==> WasBlamed(steps, last, s.clients[job].outcome.reason.value))
  {
    var last := s.attempts[job][|s.attempts[job]| - 1];
    var r := s.replies[last][0];
    assert r in s.replies[last] && ReplyJustified(steps, last, r);
  }

  /** The client reports an attempt as toxic only if it was that attempt, its
      last, that a restart blamed; a toxic reply ends the call, so nothing is
      submitted after it; and every earlier attempt was a different task that was
      sent back by an innocent interruption or a broken pipe. */
  lemma ToxicVerdictIsSoundAndFinal(steps: seq<Step>, job: int)
    requires Legal(steps) && job in Exec(steps).clients
    ensures job in Exec(steps).attempts && Exec(steps).attempts[job] != []
    ensures var s := Exec(steps);
            var a := s.attempts[job];
            && (forall i | 0 <= i < |a| - 1 ::
                  a[i] in s.replies && s.replies[a[i]] != [] && a[i] < a[i + 1] &&
                  (s.replies[a[i]][0].Broken? || (s.replies[a[i]][0].Interrupted? && !s.replies[a[i]][0].toxic)))
            && (s.clients[job].Finished? && s.clients[job].outcome.Rejected? ==>
                  && Accused(steps, a[|a| - 1])
                  && (s.clients[job].outcome.reason.Some? ==> WasBlamed(steps, a[|a| - 1], s.clients[job].outcome.reason.value)))
            && (s.clients[job].Retrying? ==>
                  a[|a| - 1] in s.replies && s.replies[a[|a| - 1]] != [] &&
                  !(s.replies[a[|a| - 1]][0].Interrupted? && s.replies[a[|a| - 1]][0].toxic))
  {
    ClientsInvariant(steps);
    var s := Exec(steps);
    assert ClientKept(s, job);
    var a := s.attempts[job];
    forall i | 0 <= i < |a| - 1
      ensures s.replies[a[i]] != [] && (s.replies[a[i]][0].Broken? || (s.replies[a[i]][0].Interrupted? && !s.replies[a[i]][0].toxic))
    {
      assert Declined(s, a[i]);
    }
    if s.clients[job].Finished? && s.clients[job].outcome.Rejected? {
      RunsAreJustified(steps);
      RejectionIsJustified(steps, s, job);
    }
  }
}
