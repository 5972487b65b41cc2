/** Which reason a blamed task is told, and what its caller makes of it. */
module Verdicts {
  import opened Wrappers
  import opened WatchdogTypes
  import opened Tasks
  import opened TaskProofs
  import opened Culprits

  // ---- the reasons given so far ----

  /** At step `j` a restart gives task `t` this reason. */
  ghost predicate ExplainsAt(steps: seq<Step>, j: nat, t: int, reason: Reason) {
    && j < |steps| && Legal(steps[..j]) && steps[j] == ByRestart(Explain)
    && var x := Exec(steps[..j]).restart;
       x.Snapped? && x.half == Some(t) && x.reason == reason
  }

  ghost predicate Explained(steps: seq<Step>, t: int) { exists j: nat, reason :: ExplainsAt(steps, j, t, reason) }

  /** The reason given last. */
  ghost function LastReason(steps: seq<Step>, t: int): Option<Reason>
    requires Legal(steps)
    decreases |steps|
  {
    if steps == [] then None
    else
      var front := steps[..|steps| - 1];
      var x := Exec(front).restart;
      if steps[|steps| - 1] == ByRestart(Explain) && x.half == Some(t) then Some(x.reason)
      else LastReason(front, t)
  }

  lemma ReasonsStep(s: State, a: Step, t: int)
    requires Enabled(s, a)
    ensures ReasonOf(After(s, a), t) ==
            if a == ByRestart(Explain) && s.restart.half == Some(t) then Some(s.restart.reason) else ReasonOf(s, t)
  {
  }

  /** The task carries the reason given last. */
  lemma {:induction false} ReasonIsTheLast(steps: seq<Step>, t: int)
    requires Legal(steps)
    ensures ReasonOf(Exec(steps), t) == LastReason(steps, t)
    decreases |steps|
  {
    if steps != [] {
      var front := steps[..|steps| - 1];
      ReasonIsTheLast(front, t);
      ReasonsStep(Exec(front), steps[|steps| - 1], t);
    }
  }

  lemma ExplainedLonger(steps: seq<Step>, t: int)
    requires steps != [] && Explained(steps[..|steps| - 1], t)
    ensures Explained(steps, t)
  {
    var front := steps[..|steps| - 1];
    var j: nat, reason :| ExplainsAt(front, j, t, reason);
    assert steps[..j] == front[..j];
    assert ExplainsAt(steps, j, t, reason);
  }

  lemma {:induction false} ExplainedIsRecorded(steps: seq<Step>, j: nat, t: int, reason: Reason)
    requires Legal(steps) && ExplainsAt(steps, j, t, reason)
    ensures LastReason(steps, t).Some?
    decreases |steps|
  {
    var n := |steps| - 1;
    if j < n {
      assert steps[..n][..j] == steps[..j];
      ExplainedIsRecorded(steps[..n], j, t, reason);
    }
  }

  lemma {:induction false} RecordIsExplained(steps: seq<Step>, t: int)
    requires Legal(steps) && LastReason(steps, t).Some?
    ensures Explained(steps, t)
    decreases |steps|
  {
    var n := |steps| - 1;
    if steps[n] == ByRestart(Explain) && Exec(steps[..n]).restart.half == Some(t) {
      assert ExplainsAt(steps, n, t, Exec(steps[..n]).restart.reason);
    } else {
      RecordIsExplained(steps[..n], t);
      ExplainedLonger(steps, t);
    }
  }

  lemma ReasonsComeFromRestarts(steps: seq<Step>, t: int)
    requires Legal(steps)
    ensures LastReason(steps, t).Some? <==> Explained(steps, t)
  {
    if Explained(steps, t) {
      var j: nat, reason :| ExplainsAt(steps, j, t, reason);
      ExplainedIsRecorded(steps, j, t, reason);
    } else if LastReason(steps, t).Some? {
      RecordIsExplained(steps, t);
    }
  }

  /** A marked task carries no reason exactly when no restart has ever given it one
      and one stands between setting its mark and its reason. */
  lemma ReasonIsMissingOnlyHalfway(steps: seq<Step>, t: int)
    requires Legal(steps) && t in Exec(steps).flags
    ensures var s := Exec(steps);
            ReasonOf(s, t).None? <==> s.restart.Snapped? && s.restart.half == Some(t) && !Explained(steps, t)
  {
    FlagsInvariant(steps);
    ReasonIsTheLast(steps, t);
    ReasonsComeFromRestarts(steps, t);
  }

  // ---- what the task is told ----

  /** At step `n` worker `k` tells the task what it has found. */
  ghost predicate TellsAt(steps: seq<Step>, n: nat, k: Key, t: int) {
    && n < |steps| && Legal(steps[..n]) && steps[n] == ByWorker(Interrupt(k))
    && var s := Exec(steps[..n]);
       k in s.workers && s.workers[k].mode.Told? && s.workers[k].mode.task == t
  }

  ghost predicate Answered(s: State, t: int) { t in s.replies && s.replies[t] != [] }

  lemma FirstReplyStays(s: State, a: Step, t: int)
    requires PlacesKept(s) && Enabled(s, a) && Answered(s, t)
    ensures Answered(After(s, a), t) && After(s, a).replies[t][0] == s.replies[t][0]
  {
    assert Counted(s, t);
    TakenIsSettled(s, a, t);
  }

  lemma TellsOnce(s: State, k: Key, t: int)
    requires PlacesKept(s) && WorkerEnabled(s, Interrupt(k)) && s.workers[k].mode.task == t
    ensures s.replies[t] == []
    ensures AfterWorker(s, Interrupt(k)).replies[t] == [Interrupted(s.workers[k].mode.toxic, ReasonOf(s, t))]
  {
    assert WorkerPlaced(s, k) && Counted(s, t);
  }

  /** The first reply is then the mark the worker found and the reason given last before it spoke. */
  lemma {:induction false} TellingIsTheFirstReply(steps: seq<Step>, n: nat, k: Key, t: int)
    requires Legal(steps) && TellsAt(steps, n, k, t)
    ensures Answered(Exec(steps), t)
    ensures Exec(steps).replies[t][0] == Interrupted(Exec(steps[..n]).workers[k].mode.toxic, LastReason(steps[..n], t))
    decreases |steps|
  {
    var front := steps[..|steps| - 1];
    PlacesInvariant(front);
    if n == |steps| - 1 {
      TellsOnce(Exec(front), k, t);
      ReasonIsTheLast(front, t);
    } else {
      assert front[..n] == steps[..n];
      TellingIsTheFirstReply(front, n, k, t);
      FirstReplyStays(Exec(front), steps[|steps| - 1], t);
    }
  }

  predicate ToxicFirst(s: State, t: int) {
    t in s.replies && s.replies[t] != [] && s.replies[t][0].Interrupted? && s.replies[t][0].toxic
  }

  lemma OthersTellNothing(s: State, a: Step, t: int)
    requires Enabled(s, a) && !a.ByWorker? && !Answered(s, t)
    ensures !ToxicFirst(After(s, a), t)
  {
    match a
    case ByClient(c) => assert t in AfterClient(s, c).replies ==> AfterClient(s, c).replies[t] == [];
    case ByRouter(r) => assert forall q | t in AfterRouter(s, r).replies && q in AfterRouter(s, r).replies[t] :: q == Failed;
    case ByRestart(x) => assert AfterRestart(s, x).replies == s.replies;
    case ByWorker(w) =>
  }

  lemma WorkerTells(s: State, a: WorkerStep, t: int)
    requires WorkerEnabled(s, a) && !Answered(s, t) && ToxicFirst(AfterWorker(s, a), t)
    ensures a.Interrupt? && s.workers[a.k].mode.task == t
  {
  }

  /** Only a worker that tells a task of its mark makes a toxic first reply. */
  lemma ToxicFirstReply(s: State, a: Step, t: int)
    requires Enabled(s, a) && !Answered(s, t) && ToxicFirst(After(s, a), t)
    ensures a.ByWorker? && a.w.Interrupt? && s.workers[a.w.k].mode.task == t
  {
    if a.ByWorker? {
      WorkerTells(s, a.w, t);
    } else {
      OthersTellNothing(s, a, t);
    }
  }

  lemma {:induction false} ToxicReplyWasTold(steps: seq<Step>, t: int)
    requires Legal(steps) && ToxicFirst(Exec(steps), t)
    ensures exists n: nat, k :: TellsAt(steps, n, k, t)
    decreases |steps|
  {
    var last := |steps| - 1;
    var front := steps[..last];
    PlacesInvariant(front);
    if Answered(Exec(front), t) {
      FirstReplyStays(Exec(front), steps[last], t);
      ToxicReplyWasTold(front, t);
      var n: nat, k :| TellsAt(front, n, k, t);
      assert steps[..n] == front[..n];
      assert TellsAt(steps, n, k, t);
    } else {
      ToxicFirstReply(Exec(front), steps[last], t);
      assert TellsAt(steps, last, steps[last].w.k, t);
    }
  }

  lemma UnansweredBefore(steps: seq<Step>, n: nat, k: Key, t: int)
    requires TellsAt(steps, n, k, t)
    ensures !Answered(Exec(steps[..n]), t)
  {
    var s := Exec(steps[..n]);
    PlacesInvariant(steps[..n]);
    assert WorkerPlaced(s, k);
    assert t in s.replies ==> Counted(s, t);
  }

  lemma AnsweredLater(steps: seq<Step>, n: nat, k: Key, n': nat, t: int)
    requires n < n' <= |steps| && TellsAt(steps, n, k, t) && Legal(steps[..n'])
    ensures Answered(Exec(steps[..n']), t)
  {
    assert steps[..n'][..n] == steps[..n];
    TellingIsTheFirstReply(steps[..n'], n, k, t);
  }

  /** A task is told once. */
  lemma ToldOnlyOnce(steps: seq<Step>, n: nat, k: Key, n': nat, k': Key, t: int)
    requires TellsAt(steps, n, k, t) && TellsAt(steps, n', k', t)
    ensures n == n' && k == k'
  {
    UnansweredBefore(steps, n, k, t);
    UnansweredBefore(steps, n', k', t);
    if n < n' {
      AnsweredLater(steps, n, k, n', t);
    } else if n' < n {
      AnsweredLater(steps, n', k', n, t);
    }
  }

  // ---- what the client makes of it ----

  /** At step `c` the client reads the first reply of task `t`. */
  ghost predicate ReadsAt(steps: seq<Step>, c: nat, job: int, t: int) {
    && c < |steps| && Legal(steps[..c]) && steps[c] == ByClient(Consume(job))
    && var s := Exec(steps[..c]);
       ClientEnabled(s, Consume(job)) && s.clients[job] == Waiting(t)
  }

  lemma FinishedByClient(s: State, a: ClientStep, job: int)
    requires ClientEnabled(s, a) && job in s.clients && s.clients[job].Finished?
    ensures job in AfterClient(s, a).clients && AfterClient(s, a).clients[job] == s.clients[job]
  {
  }

  lemma FinishedStays(s: State, a: Step, job: int)
    requires Enabled(s, a) && job in s.clients && s.clients[job].Finished?
    ensures job in After(s, a).clients && After(s, a).clients[job] == s.clients[job]
  {
    match a
    case ByClient(c) => FinishedByClient(s, c, job);
    case ByRouter(r) => assert AfterRouter(s, r).clients == s.clients;
    case ByWorker(w) => assert AfterWorker(s, w).clients == s.clients;
    case ByRestart(x) => assert AfterRestart(s, x).clients == s.clients;
  }

  lemma ReadingEnds(s: State, job: int, t: int)
    requires ClientEnabled(s, Consume(job)) && s.clients[job] == Waiting(t) && Decide(s.replies[t][0]).Some?
    ensures var s' := AfterClient(s, Consume(job));
            job in s'.clients && s'.clients[job] == Finished(Decide(s.replies[t][0]).value)
  {
  }

  lemma {:induction false} FinishedForGood(steps: seq<Step>, n: nat, job: int)
    requires Legal(steps) && n <= |steps| && Legal(steps[..n])
    requires job in Exec(steps[..n]).clients && Exec(steps[..n]).clients[job].Finished?
    ensures job in Exec(steps).clients && Exec(steps).clients[job] == Exec(steps[..n]).clients[job]
    decreases |steps|
  {
    var last := |steps| - 1;
    if n <= last {
      assert steps[..last][..n] == steps[..n];
      FinishedForGood(steps[..last], n, job);
      FinishedStays(Exec(steps[..last]), steps[last], job);
    } else {
      assert steps[..n] == steps;
    }
  }

  /** A reply that ends the call decides its outcome for good. */
  lemma ReadingDecides(steps: seq<Step>, c: nat, job: int, t: int)
    requires Legal(steps) && ReadsAt(steps, c, job, t)
    requires Decide(Exec(steps[..c]).replies[t][0]).Some?
    ensures job in Exec(steps).clients
    ensures Exec(steps).clients[job] == Finished(Decide(Exec(steps[..c]).replies[t][0]).value)
  {
    ReadingEnds(Exec(steps[..c]), job, t);
    assert steps[..c + 1][..c] == steps[..c];
    FinishedForGood(steps, c + 1, job);
  }

  /** The call that reads a toxic reply ends as late if the reason given to its task
      last before the worker spoke reads as a deadline, and as rejected for that
      reason, or for none, if it does not. */
  ghost predicate EndsAsTold(steps: seq<Step>, n: nat, job: int, t: int)
    requires Legal(steps) && n <= |steps| && Legal(steps[..n])
  {
    var why := LastReason(steps[..n], t);
    && job in Exec(steps).clients
    && Exec(steps).clients[job] == Finished(if ReadsAsDeadline(why) then Late else Rejected(why))
  }

  /** When a blamed task is reported as late, for every run: a client that reads a
      toxic reply reports its task as late if and only if the latest reason given to
      the task before its worker told it, at the one step where it did, reads as a
      deadline.  A reason that comes later, or is overwritten earlier, plays no part. */
  lemma WhenBlamedTasksAreLate(steps: seq<Step>, c: nat, job: int, t: int)
    requires Legal(steps) && ReadsAt(steps, c, job, t)
    requires var r := Exec(steps[..c]).replies[t][0]; r.Interrupted? && r.toxic
    ensures exists n: nat, k ::
              && n < c && TellsAt(steps, n, k, t) && EndsAsTold(steps, n, job, t)
              && (forall n': nat, k' | TellsAt(steps, n', k', t) :: n' == n)
              && (Exec(steps).clients[job] == Finished(Late) <==> ReadsAsDeadline(LastReason(steps[..n], t)))
  {
    var upTo := steps[..c];
    ToxicReplyWasTold(upTo, t);
    var n: nat, k :| TellsAt(upTo, n, k, t);
    assert upTo[..n] == steps[..n];
    TellingIsTheFirstReply(upTo, n, k, t);
    ReadingDecides(steps, c, job, t);
    assert TellsAt(steps, n, k, t) && EndsAsTold(steps, n, job, t);
    forall n': nat, k' | TellsAt(steps, n', k', t) ensures n' == n {
      ToldOnlyOnce(steps, n', k', n, k, t);
    }
  }
}
