/** How a call of the resilient client ends, reply by reply, and what the texts and
    values in replies mean to it. */
module Outcomes {
  import opened Wrappers
  import opened WatchdogTypes
  import opened Tasks
  import opened TaskProofs
  import opened TaskTheorems

  // ---- reasons and results ----

  /** The same letter, in whatever case the second is written. */
  predicate SameLetter(small: char, c: char) { c == small || ('A' <= c <= 'Z' && c as int + 32 == small as int) }

  /** The word stands at this place of the line, in whatever case. */
  predicate Reads(line: string, i: nat, word: string) {
    i + |word| <= |line| && forall j | 0 <= j < |word| :: SameLetter(word[j], line[i + j])
  }

  lemma LowerMatches(line: string, i: nat, word: string)
    requires forall j | 0 <= j < |word| :: !('A' <= word[j] <= 'Z')
    ensures StartsAt(Lower(line), i, word) <==> Reads(line, i, word)
  {
    if i + |word| <= |line| {
      var there := Lower(line)[i..i + |word|];
      forall j | 0 <= j < |word| ensures there[j] == word[j] <==> SameLetter(word[j], line[i + j]) {
        assert there[j] == LowerChar(line[i + j]);
      }
      assert there == word <==> forall j | 0 <= j < |word| :: there[j] == word[j];
    }
  }

  /** A reason reads as a deadline if it is one, or is a line of the server that has the
      word in it or begins as the deadline's own text does, in whatever case. */
  lemma WhatReadsAsDeadline(reason: Option<Reason>)
    ensures ReadsAsDeadline(reason) <==>
              reason == Some(TaskOverdue)
              || (reason.Some? && reason.value.StderrLine? &&
                  ((exists i: nat :: Reads(reason.value.line, i, "deadline")) || Reads(reason.value.line, 0, "task exceeded ")))
  {
    if reason.Some? && reason.value.StderrLine? {
      var line := reason.value.line;
      forall i: nat ensures StartsAt(Lower(line), i, "deadline") <==> Reads(line, i, "deadline") {
        LowerMatches(line, i, "deadline");
      }
      LowerMatches(line, 0, "task exceeded ");
    }
  }

  /** The replies of a task, in full: one; or after a success the handler's own error as
      well, an ordinary one if the result is an object whose diagnostics are neither a
      text, a list nor an object, and else the time-out that the sink raised. */
  lemma WhatASecondReplyIs(steps: seq<Step>, t: int)
    requires Legal(steps) && t in Exec(steps).replies && Exec(steps).replies[t] != []
    ensures var s := Exec(steps);
            var rs := s.replies[t];
            var odd := rs[0].Done? && rs[0].value.Object? && rs[0].value.diagnostics in {Some(Null), Some(Truth), Some(Number)};
            && |rs| == (if rs[0].Done? && (odd || t in s.sunk) then 2 else 1)
            && (|rs| == 2 ==> rs[1] == if odd then Failed else TimedOut)
  {
    PlacesInvariant(steps);
    assert Counted(Exec(steps), t);
  }

  // ---- how a call ends ----

  /** The reply ends the call in this way. */
  predicate EndsWith(r: Reply, o: Outcome) {
    match r
    case Done(_) => o == Returned
    case Interrupted(toxic, reason) => toxic && o == if ReadsAsDeadline(reason) then Late else Rejected(reason)
    case Broken => false
    case TimedOut => o == Late
    case RpcTimedOut => o == Late
    case Failed => o == Error
  }

  /** The reply sends the call back. */
  predicate SendsBack(r: Reply) { r == Broken || (r.Interrupted? && !r.toxic) }

  ghost predicate EndKept(steps: seq<Step>, s: State, job: int)
    requires job in s.clients
  {
    && (ByClient(Expire(job)) in steps ==> s.clients[job] == Finished(Late))
    && (s.clients[job].Finished? && ByClient(Expire(job)) !in steps ==>
          && job in s.attempts && s.attempts[job] != []
          && var t := s.attempts[job][|s.attempts[job]| - 1];
             t in s.replies && s.replies[t] != [] && EndsWith(s.replies[t][0], s.clients[job].outcome))
  }

  ghost predicate EndsKept(steps: seq<Step>, s: State) { forall job | job in s.clients :: EndKept(steps, s, job) }

  /** The call stays as it is, and so does the reply that ended it. */
  lemma EndStays(steps: seq<Step>, s: State, a: Step, s': State, job: int)
    requires job in s.clients && EndKept(steps, s, job) && RepliesGrow(s, s') && a != ByClient(Expire(job))
    requires job in s'.clients && s'.clients[job] == s.clients[job]
    requires job in s.attempts ==> job in s'.attempts && s'.attempts[job] == s.attempts[job]
    ensures EndKept(steps + [a], s', job)
  {
    assert ByClient(Expire(job)) in steps + [a] <==> ByClient(Expire(job)) in steps;
  }

  lemma EndsByClient(steps: seq<Step>, s: State, a: ClientStep)
    requires ClientEnabled(s, a) && EndsKept(steps, s) && ClientsKept(s) && RepliesGrow(s, AfterClient(s, a))
    requires forall job | job !in s.clients :: ByClient(Expire(job)) !in steps
    ensures EndsKept(steps + [ByClient(a)], AfterClient(s, a))
  {
    var s', more := AfterClient(s, a), steps + [ByClient(a)];
    forall job | job in s'.clients ensures EndKept(more, s', job) {
      assert ByClient(Expire(job)) in more <==> ByClient(Expire(job)) in steps || ByClient(a) == ByClient(Expire(job));
      if job != a.job {
        EndStays(steps, s, ByClient(a), s', job);
      } else if a.Consume? {
        assert EndKept(steps, s, job) && ClientKept(s, job);
      } else if job in s.clients {
        assert EndKept(steps, s, job);
      }
    }
  }

  lemma ClientsAddReplies(s: State, a: ClientStep)
    requires ClientEnabled(s, a) && PlacesKept(s) && PlacesKept(AfterClient(s, a))
    ensures RepliesGrow(s, AfterClient(s, a))
  {
  }

  lemma RoutersAddReplies(s: State, a: RouterStep)
    requires RouterEnabled(s, a) && PlacesKept(s) && PlacesKept(AfterRouter(s, a))
    ensures RepliesGrow(s, AfterRouter(s, a))
    ensures AfterRouter(s, a).clients == s.clients && AfterRouter(s, a).attempts == s.attempts
  {
  }

  lemma WorkersAddReplies(s: State, a: WorkerStep)
    requires WorkerEnabled(s, a) && PlacesKept(s) && PlacesKept(AfterWorker(s, a))
    ensures RepliesGrow(s, AfterWorker(s, a))
  {
  }

  lemma RestartsAddNoReplies(s: State, a: RestartStep)
    requires RestartEnabled(s, a) && PlacesKept(s) && PlacesKept(AfterRestart(s, a))
    ensures RepliesGrow(s, AfterRestart(s, a))
    ensures AfterRestart(s, a).clients == s.clients && AfterRestart(s, a).attempts == s.attempts
  {
  }

  lemma RepliesOnlyGrow(s: State, a: Step)
    requires Enabled(s, a) && PlacesKept(s) && PlacesKept(After(s, a))
    ensures RepliesGrow(s, After(s, a))
    ensures a.ByClient? || (After(s, a).clients == s.clients && After(s, a).attempts == s.attempts)
  {
    match a
    case ByClient(c) => ClientsAddReplies(s, c);
    case ByRouter(r) => RoutersAddReplies(s, r);
    case ByWorker(w) => WorkersAddReplies(s, w);
    case ByRestart(x) => RestartsAddNoReplies(s, x);
  }

  lemma {:induction false} EndsInvariant(steps: seq<Step>)
    requires Legal(steps)
    ensures EndsKept(steps, Exec(steps))
    ensures forall job | job !in Exec(steps).clients :: ByClient(Expire(job)) !in steps
    decreases |steps|
  {
    if steps != [] {
      var n := |steps| - 1;
      var front, a := steps[..n], steps[n];
      assert steps == front + [a];
      EndsInvariant(front);
      ClientsInvariant(front);
      PlacesInvariant(front);
      PlacesInvariant(steps);
      var s, s' := Exec(front), Exec(steps);
      RepliesOnlyGrow(s, a);
      match a {
        case ByClient(c) => EndsByClient(front, s, c);
        case _ =>
          forall job | job in s'.clients ensures EndKept(steps, s', job) {
            EndStays(front, s, a, s', job);
          }
      }
    }
  }

  /** How a call ends, for every run.  If its wait has expired it is late.  Otherwise its
      last attempt has been answered, and the first reply alone decides: a result is
      returned, and nothing else is; the mark of a culprit, with a reason that reads as
      a deadline, and the time-outs of worker and RPC make it late; the mark with any
      other reason, or none, rejects it; any other error is passed on; and a broken pipe
      or an innocent interruption ends no call. */
  lemma CallEndsAsAnswered(steps: seq<Step>, job: int)
    requires Legal(steps) && job in Exec(steps).clients && Exec(steps).clients[job].Finished?
    ensures var s := Exec(steps);
            var o := s.clients[job].outcome;
            if ByClient(Expire(job)) in steps then o == Late
            else
              && job in s.attempts && s.attempts[job] != []
              && var t := s.attempts[job][|s.attempts[job]| - 1];
                 && t in s.replies && s.replies[t] != []
                 && var r := s.replies[t][0];
                    && EndsWith(r, o) && !SendsBack(r)
                    && (o == Returned <==> r.Done?) && (o == Error <==> r == Failed)
                    && (o.Rejected? ==> r == Interrupted(true, o.reason))
                    && (o == Late ==> r == TimedOut || r == RpcTimedOut || (r.Interrupted? && r.toxic && ReadsAsDeadline(r.reason)))
  {
    EndsInvariant(steps);
    assert EndKept(steps, Exec(steps), job);
  }
}
