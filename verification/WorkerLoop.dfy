/** A worker thread's loop and the resilient client's loop, as the code runs
    them, against the transition system of tasks. */
module WorkerLoop {
  import opened Wrappers
  import opened WatchdogTypes
  import opened Tasks
  import opened Outcomes

  /** How serving a task ended: with a result, at whose event the sink may raise;
      with the poison; or with another error. */
  datatype Ending = Served(value: Value, sinkRaises: bool) | Unavailable | Raised(reply: Reply)

  type Replies = map<int, seq<Reply>>

  function Put(rs: Replies, t: int, r: Reply): Replies
    requires t in rs
  {
    rs[t := rs[t] + [r]]
  }

  /** The same reply put for each of these tasks, in order. */
  function Deliver(rs: Replies, ts: seq<int>, r: Reply): (rs': Replies)
    requires forall t | t in ts :: t in rs
    ensures rs'.Keys == rs.Keys
  {
    if ts == [] then rs else Deliver(Put(rs, ts[0], r), ts[1..], r)
  }

  /** Each task is answered as often as it was queued, and no other task is. */
  lemma {:induction false} DeliverAnswersEach(rs: Replies, ts: seq<int>, r: Reply, t: int)
    requires t in rs && forall u | u in ts :: u in rs
    ensures rs[t] <= Deliver(rs, ts, r)[t]
    ensures |Deliver(rs, ts, r)[t]| == |rs[t]| + multiset(ts)[t]
    ensures forall i | |rs[t]| <= i < |Deliver(rs, ts, r)[t]| :: Deliver(rs, ts, r)[t][i] == r
    decreases |ts|
  {
    if ts != [] {
      DeliverAnswersEach(Put(rs, ts[0], r), ts[1..], r, t);
      assert ts == [ts[0]] + ts[1..];
    }
  }

  lemma {:induction false} DeliverLast(rs: Replies, ts: seq<int>, u: int, r: Reply)
    requires u in rs && forall t | t in ts :: t in rs
    ensures Deliver(rs, ts + [u], r) == Put(Deliver(rs, ts, r), u, r)
    decreases |ts|
  {
    if ts == [] {
      assert Deliver(Put(rs, u, r), [], r) == Put(rs, u, r);
      assert (ts + [u])[1..] == [];
    } else {
      assert (ts + [u])[1..] == ts[1..] + [u];
      DeliverLast(Put(rs, ts[0], r), ts[1..], u, r);
    }
  }

  // ---- runs of one worker ----

  ghost predicate Runs(s: State, steps: seq<WorkerStep>)
    decreases |steps|
  {
    steps != [] ==> WorkerEnabled(s, steps[0]) && Runs(AfterWorker(s, steps[0]), steps[1..])
  }

  ghost function Ran(s: State, steps: seq<WorkerStep>): State
    requires Runs(s, steps)
    decreases |steps|
  {
    if steps == [] then s else Ran(AfterWorker(s, steps[0]), steps[1..])
  }

  function Drain(k: Key, n: nat): seq<WorkerStep> {
    if n == 0 then [Exit(k)] else [DrainOne(k)] + Drain(k, n - 1)
  }

  lemma {:induction false} DrainRuns(s: State, k: Key)
    requires k in s.workers && s.workers[k].mode.Draining? && forall t | t in s.workers[k].queue :: t in s.replies
    ensures var w := s.workers[k];
            var steps := Drain(k, |w.queue|);
            Runs(s, steps) && k in Ran(s, steps).workers
            && Ran(s, steps).replies == Deliver(s.replies, w.queue, Interrupted(false, None))
            && Ran(s, steps).workers[k] == w.(queue := [], mode := Exited)
    decreases |s.workers[k].queue|
  {
    var w := s.workers[k];
    var steps := Drain(k, |w.queue|);
    if w.queue == [] {
      assert steps[1..] == [];
    } else {
      assert steps[1..] == Drain(k, |w.queue| - 1);
      var t := w.queue[0];
      assert t in s.workers[k].queue && t in s.replies;
      assert AfterWorker(s, DrainOne(k)).workers[k].queue == w.queue[1..];
      DrainRuns(AfterWorker(s, DrainOne(k)), k);
    }
  }

  /** Prepend one step. */
  lemma Before(s: State, a: WorkerStep, rest: seq<WorkerStep>)
    requires WorkerEnabled(s, a) && Runs(AfterWorker(s, a), rest)
    ensures Runs(s, [a] + rest) && Ran(s, [a] + rest) == Ran(AfterWorker(s, a), rest)
  {
    assert ([a] + rest)[1..] == rest;
  }

  lemma PutTwice(rs: Replies, t: int, a: Reply, b: Reply)
    requires t in rs
    ensures Put(Put(rs, t, a), t, b) == PutAll(rs, t, [a, b])
  {
    assert rs[t] + [a] + [b] == rs[t] + [a, b];
  }

  /** All these replies put for one task. */
  function PutAll(rs: Replies, t: int, new_: seq<Reply>): (rs': Replies)
    requires t in rs
    ensures rs'.Keys == rs.Keys
  {
    rs[t := rs[t] + new_]
  }

  /** The answer and the slot cleared. */
  lemma AnswerRuns(s: State, k: Key, r: Reply, sinkRaises: bool)
    requires k in s.workers && s.workers[k].mode.Running? && s.workers[k].mode.task in s.replies && !r.Interrupted?
    requires sinkRaises ==> r.Done?
    ensures var steps := [Answer(k, r, sinkRaises)] + [Clear(k)];
            Runs(s, steps) && k in Ran(s, steps).workers
            && Ran(s, steps).workers[k] == s.workers[k].(mode := Idle, woken := false)
            && Ran(s, steps).replies == PutAll(s.replies, s.workers[k].mode.task, WithSecond(r, sinkRaises))
  {
    var s1 := AfterWorker(s, Answer(k, r, sinkRaises));
    assert [Clear(k)] == [Clear(k)] + [] && Runs(AfterWorker(s1, Clear(k)), []);
    Before(s1, Clear(k), []);
    Before(s, Answer(k, r, sinkRaises), [Clear(k)]);
  }

  /** What serving the first queued task in this way does, step by step. */
  function TurnSteps(k: Key, ending: Ending, queued: nat): seq<WorkerStep> {
    match ending
    case Served(value, sinkRaises) => [Answer(k, Done(value), sinkRaises)] + [Clear(k)]
    case Unavailable => [Abort(k)] + ([Interrupt(k)] + Drain(k, queued))
    case Raised(reply) => [Answer(k, reply, false)] + [Clear(k)]
  }

  /** What an interrupted task is told. */
  function Verdict(t: int, flags: set<int>, reasons: map<int, Reason>): Reply {
    Interrupted(t in flags, if t in reasons then Some(reasons[t]) else None)
  }

  /** The reply or replies the served task gets. */
  function Answers(rs: Replies, t: int, ending: Ending, flags: set<int>, reasons: map<int, Reason>): (rs': Replies)
    requires t in rs
    ensures rs'.Keys == rs.Keys
  {
    match ending
    case Served(value, sinkRaises) => PutAll(rs, t, WithSecond(Done(value), sinkRaises))
    case Unavailable => Put(rs, t, Verdict(t, flags, reasons))
    case Raised(reply) => Put(rs, t, reply)
  }

  /** How a task may end, given where its worker stands. */
  ghost predicate CanEnd(w: Tasks.Worker, ending: Ending) {
    && (ending.Raised? ==> !ending.reply.Done? && !ending.reply.Interrupted?)
    && (ending.Unavailable? ==> w.poison > 0 || w.woken)
  }

  lemma EndRuns(s: State, k: Key, ending: Ending)
    requires k in s.workers && s.workers[k].mode.Running? && s.workers[k].mode.task in s.replies
    requires (forall t | t in s.workers[k].queue :: t in s.replies) && CanEnd(s.workers[k], ending)
    ensures var w := s.workers[k];
            var steps := TurnSteps(k, ending, |w.queue|);
            var rs := Answers(s.replies, w.mode.task, ending, s.flags, s.reasons);
            Runs(s, steps) && k in Ran(s, steps).workers
            && Ran(s, steps).workers[k].queue == (if ending.Unavailable? then [] else w.queue)
            && Ran(s, steps).workers[k].mode == (if ending.Unavailable? then Exited else Idle)
            && Ran(s, steps).replies == if ending.Unavailable? then Deliver(rs, w.queue, Interrupted(false, None)) else rs
  {
    match ending
    case Served(value, sinkRaises) => AnswerRuns(s, k, Done(value), sinkRaises);
    case Raised(reply) => AnswerRuns(s, k, reply, false);
    case Unavailable =>
      var s1 := AfterWorker(s, Abort(k));
      var s2 := AfterWorker(s1, Interrupt(k));
      DrainRuns(s2, k);
      Before(s1, Interrupt(k), Drain(k, |s2.workers[k].queue|));
      Before(s, Abort(k), [Interrupt(k)] + Drain(k, |s2.workers[k].queue|));
  }

  lemma TurnRuns(s: State, k: Key, ending: Ending)
    requires k in s.workers && s.workers[k].mode.Idle? && s.workers[k].queue != []
    requires (forall t | t in s.workers[k].queue :: t in s.replies) && CanEnd(s.workers[k], ending)
    ensures var w := s.workers[k];
            var steps := [Fetch(k)] + ([Begin(k)] + TurnSteps(k, ending, |w.queue| - 1));
            var rs := Answers(s.replies, w.queue[0], ending, s.flags, s.reasons);
            Runs(s, steps) && k in Ran(s, steps).workers
            && Ran(s, steps).workers[k].queue == (if ending.Unavailable? then [] else w.queue[1..])
            && Ran(s, steps).workers[k].mode == (if ending.Unavailable? then Exited else Idle)
            && Ran(s, steps).replies == if ending.Unavailable? then Deliver(rs, w.queue[1..], Interrupted(false, None)) else rs
  {
    var s1 := AfterWorker(s, Fetch(k));
    var s2 := AfterWorker(s1, Begin(k));
    EndRuns(s2, k, ending);
    Before(s1, Begin(k), TurnSteps(k, ending, |s.workers[k].queue| - 1));
    Before(s, Fetch(k), [Begin(k)] + TurnSteps(k, ending, |s.workers[k].queue| - 1));
  }

  /** What serving the task changes in the result queues: a result is put as it is, and
      after it the error that the bookkeeping raises over it; any other error is put; a
      task that met the poison is told its mark and reason, and every task queued
      behind it that it is innocent. */
  ghost predicate TurnAnswers(rs: Replies, rs': Replies, t: int, rest: seq<int>, ending: Ending, flags: set<int>, reasons: map<int, Reason>)
    requires t in rs && forall u | u in rest :: u in rs
  {
    match ending
    case Served(value, sinkRaises) =>
      var odd := value.Object? && value.diagnostics in {Some(Null), Some(Truth), Some(Number)};
      rs' == rs[t := rs[t] + if odd then [Done(value), Failed] else if sinkRaises then [Done(value), TimedOut] else [Done(value)]]
    case Raised(reply) => rs' == rs[t := rs[t] + [reply]]
    case Unavailable =>
      var told := rs[t := rs[t] + [Interrupted(t in flags, if t in reasons then Some(reasons[t]) else None)]];
      rs' == Deliver(told, rest, Interrupted(false, None))
  }

  /** It is what the transition system does. */
  lemma TurnAnswersAre(rs: Replies, t: int, rest: seq<int>, ending: Ending, flags: set<int>, reasons: map<int, Reason>)
    requires t in rs && forall u | u in rest :: u in rs
    ensures var now := Answers(rs, t, ending, flags, reasons);
            var rs' := if ending.Unavailable? then Deliver(now, rest, Interrupted(false, None)) else now;
            TurnAnswers(rs, rs', t, rest, ending, flags, reasons)
  {
  }

  class Worker {
    var taskQueue: seq<int>
    var currentTask: Option<int>
    var exited: bool
    /** The callers' result queues. */
    var replies: Replies

    constructor (tasks: seq<int>, rs: Replies)
      ensures taskQueue == tasks && currentTask == None && !exited && replies == rs
    {
      taskQueue, currentTask, exited, replies := tasks, None, false, rs;
    }

    /** Every task this worker can reach has a result queue. */
    ghost predicate Valid()
      reads this
    {
      && (forall t | t in taskQueue :: t in replies)
      && (currentTask.Some? ==> currentTask.value in replies)
    }

    /** The fields show worker `k` of the state. */
    ghost predicate Shows(s: State, k: Key)
      reads this
    {
      && k in s.workers && s.replies == replies && s.workers[k].queue == taskQueue
      && currentTask == Slot(s.workers[k].mode)
      && (exited <==> s.workers[k].mode.Exited?)
    }

    /** Fail the task in hand, with its mark, and every queued one as innocent. */
    method OnServiceUnavailable(flags: set<int>, reasons: map<int, Reason>)
      requires Valid()
      modifies `taskQueue, `replies
      ensures Valid() && taskQueue == []
      ensures replies ==
              Deliver(if currentTask.None? then old(replies)
                      else Put(old(replies), currentTask.value, Verdict(currentTask.value, flags, reasons)),
                      old(taskQueue), Interrupted(false, None))
    {
      if currentTask.Some? {
        var t := currentTask.value;
        var toxic := t in flags;
        var reason := if t in reasons then Some(reasons[t]) else None;
        replies := Put(replies, t, Interrupted(toxic, reason));
      }
      ghost var rs, i := replies, 0;
      while taskQueue != []
        invariant 0 <= i <= |old(taskQueue)| && taskQueue == old(taskQueue)[i..]
        invariant forall t | t in old(taskQueue) :: t in rs
        invariant forall t | t in old(taskQueue)[..i] :: t in rs
        invariant replies == Deliver(rs, old(taskQueue)[..i], Interrupted(false, None))
        decreases |taskQueue|
      {
        var t := taskQueue[0];
        taskQueue := taskQueue[1..];
        assert old(taskQueue)[..i + 1] == old(taskQueue)[..i] + [t];
        DeliverLast(rs, old(taskQueue)[..i], t, Interrupted(false, None));
        replies := Put(replies, t, Interrupted(false, None));
        i := i + 1;
      }
      assert old(taskQueue)[..i] == old(taskQueue);
    }

    /** Serve the task in the slot, however that ends. */
    method Serve(ending: Ending, flags: set<int>, reasons: map<int, Reason>)
      requires Valid() && currentTask.Some?
      modifies `taskQueue, `replies, `exited
      ensures Valid() && taskQueue == if ending.Unavailable? then [] else old(taskQueue)
      ensures exited <==> old(exited) || ending.Unavailable?
      ensures TurnAnswers(old(replies), replies, currentTask.value, old(taskQueue), ending, flags, reasons)
    {
      var t := currentTask.value;
      match ending {
        case Served(value, sinkRaises) =>
          replies := Put(replies, t, Done(value));
          if CountRaises(value) {
            PutTwice(old(replies), t, Done(value), Failed);
            replies := Put(replies, t, Failed);
          } else if sinkRaises {
            PutTwice(old(replies), t, Done(value), TimedOut);
            replies := Put(replies, t, TimedOut);
          }
        case Unavailable =>
          OnServiceUnavailable(flags, reasons);
          exited := true;
        case Raised(reply) =>
          replies := Put(replies, t, reply);
      }
    }

    /** One turn of the thread's loop, taken without interruption, is a run of
        the transition system from any state the fields show: the task leaves
        the queue and is answered, and the worker is idle again or, poisoned,
        has answered its whole queue and is gone.  A served task is answered with its
        result, and once more if the bookkeeping trips over it; one that raised, with
        that error; one that met the poison, with its mark and reason, after which every
        task still queued is told that it is innocent. */
    method Turn(ending: Ending, flags: set<int>, reasons: map<int, Reason>, ghost s: State, ghost k: Key) returns (ghost steps: seq<WorkerStep>)
      requires Valid() && !exited && taskQueue != []
      requires Shows(s, k) && s.workers[k].mode.Idle? && s.flags == flags && s.reasons == reasons && CanEnd(s.workers[k], ending)
      modifies this
      ensures Valid() && currentTask == None
      ensures Runs(s, steps) && Shows(Ran(s, steps), k)
      ensures exited <==> ending.Unavailable?
      ensures TurnAnswers(old(replies), replies, old(taskQueue)[0], old(taskQueue)[1..], ending, flags, reasons)
    {
      TurnRuns(s, k, ending);
      steps := [Fetch(k)] + ([Begin(k)] + TurnSteps(k, ending, |taskQueue| - 1));
      var t := taskQueue[0];
      taskQueue := taskQueue[1..];
      currentTask := Some(t);
      Serve(ending, flags, reasons);
      TurnAnswersAre(old(replies), t, old(taskQueue)[1..], ending, flags, reasons);
      currentTask := None;
    }
  }

  // ---- the resilient client ----

  /** What one attempt meets once the server is ready: the current pool, if there
      is one, and then an expired wait or a reply. */
  datatype Attempt = NoPool | Expired(pool: nat) | Got(pool: nat, reply: Reply)

  /** What the client does between replies. */
  datatype Act = AwaitReady | SubmitTo(pool: nat) | AwaitNotReady

  /** The acts of one attempt: the pool is the one found after waiting, and after a
      broken pipe the client waits until the restart has begun. */
  function Acts(a: Attempt): seq<Act> {
    match a
    case NoPool => [AwaitReady]
    case Expired(p) => [AwaitReady, SubmitTo(p)]
    case Got(p, r) => [AwaitReady, SubmitTo(p)] + if r.Broken? then [AwaitNotReady] else []
  }

  function AllActs(script: seq<Attempt>): seq<Act> {
    if script == [] then [] else AllActs(script[..|script| - 1]) + Acts(script[|script| - 1])
  }

  /** Where the acts of the `i`-th attempt begin. */
  function ActsFrom(script: seq<Attempt>, i: nat): nat
    requires i <= |script|
  {
    |AllActs(script[..i])|
  }

  /** What one attempt does: wait for the server to be ready; submit to the pool found
      then, if there is one; and after a broken pipe, and only then, wait for the
      restart to begin. */
  predicate OneAttempt(a: Attempt, acts: seq<Act>) {
    && acts != [] && acts[0] == AwaitReady
    && (if a.NoPool? then |acts| == 1 else |acts| > 1 && acts[1] == SubmitTo(a.pool))
    && (if a.Got? && a.reply == Broken then |acts| == 3 && acts[2] == AwaitNotReady else |acts| <= 2)
  }

  lemma SliceOfPrefix(a: seq<Act>, b: seq<Act>, i: nat, j: nat)
    requires i <= j <= |a|
    ensures (a + b)[i..j] == a[i..j]
  {
  }

  lemma OneAttemptActs(a: Attempt)
    ensures OneAttempt(a, Acts(a))
  {
  }

  /** The acts of a call are those of its attempts, one after the other. */
  lemma {:induction false} SubmitsWhenReady(script: seq<Attempt>, i: nat)
    requires i < |script|
    ensures ActsFrom(script, i) <= ActsFrom(script, i + 1) <= |AllActs(script)|
    ensures OneAttempt(script[i], AllActs(script)[ActsFrom(script, i)..ActsFrom(script, i + 1)])
    ensures i + 1 == |script| ==> ActsFrom(script, i + 1) == |AllActs(script)|
    decreases |script|
  {
    var n := |script| - 1;
    var front := script[..n];
    var before, last := AllActs(front), Acts(script[n]);
    assert AllActs(script) == before + last;
    if i < n {
      assert front[..i] == script[..i] && front[..i + 1] == script[..i + 1];
      SubmitsWhenReady(front, i);
      SliceOfPrefix(before, last, ActsFrom(front, i), ActsFrom(front, i + 1));
    } else {
      assert script[..i + 1] == script;
      assert (before + last)[|before|..|before| + |last|] == last;
      OneAttemptActs(script[n]);
    }
  }

  /** Wait for the server, submit to the pool there is now, and keep at it while the
      reply says the task was an innocent bystander or the server died under it.
      Every attempt before the last was sent back, and the last decides; None while
      the call has been sent back as often as this script goes. */
  method SubmitResilient(script: seq<Attempt>) returns (outcome: Option<Outcome>, attempts: nat, acts: seq<Act>)
    ensures attempts <= |script| && acts == AllActs(script[..attempts])
    ensures var back := if outcome.None? then attempts else attempts - 1;
            forall i | 0 <= i < back :: script[i].Got? && SendsBack(script[i].reply)
    ensures outcome.None? ==> attempts == |script|
    ensures outcome.Some? ==>
              attempts > 0 &&
              match script[attempts - 1] {
                case NoPool => outcome.value == Error
                case Expired(_) => outcome.value == Late
                case Got(_, reply) => EndsWith(reply, outcome.value)
              }
  {
    attempts, acts := 0, [];
    while attempts < |script|
      invariant attempts <= |script|
      invariant forall i | 0 <= i < attempts :: script[i].Got? && SendsBack(script[i].reply)
      invariant acts == AllActs(script[..attempts])
    {
      var a := script[attempts];
      attempts := attempts + 1;
      assert script[..attempts][..attempts - 1] == script[..attempts - 1];
      ghost var before := acts;
      acts := acts + [AwaitReady];
      if a.NoPool? { return Some(Error), attempts, acts; }
      acts := acts + [SubmitTo(a.pool)];
      assert acts == before + [AwaitReady, SubmitTo(a.pool)];
      if a.Expired? { return Some(Late), attempts, acts; }
      var resp := a.reply;
      assert [AwaitReady, SubmitTo(a.pool)] + [] == [AwaitReady, SubmitTo(a.pool)];
      if resp.Done? { return Some(Returned), attempts, acts; }
      if resp.Interrupted? {
        if resp.toxic {
          if ReadsAsDeadline(resp.reason) { return Some(Late), attempts, acts; }
          return Some(Rejected(resp.reason)), attempts, acts;
        }
      } else if resp.Broken? {
        acts := acts + [AwaitNotReady];
        assert acts == before + ([AwaitReady, SubmitTo(a.pool)] + [AwaitNotReady]);
      } else {
        return Some(if resp.TimedOut? || resp.RpcTimedOut? then Late else Error), attempts, acts;
      }
    }
    return None, attempts, acts;
  }
}
