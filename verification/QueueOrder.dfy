/** Tasks are served in the order in which they were submitted, as far as queues can
    tell: nothing overtakes on the way from a pool's queue to a worker's hands. */
module QueueOrder {
  import opened Wrappers
  import opened WatchdogTypes
  import opened Tasks

  predicate Ascending(q: seq<int>) { forall i, j | 0 <= i < j < |q| :: q[i] < q[j] }

  /** Everything in the first queue was submitted before everything in the second. */
  predicate AllBefore(a: seq<int>, b: seq<int>) { forall i, j | 0 <= i < |a| && 0 <= j < |b| :: a[i] < b[j] }

  /** The task in the worker's hands, from the queue until it is answered and cleared. */
  function InHands(m: Mode): seq<int> {
    match m
    case Fetched(t) => [t]
    case Running(t) => [t]
    case Replied(t) => [t]
    case Told(t, _) => [t]
    case Draining(t) => [t]
    case _ => []
  }

  /** A worker's line: what it has in its hands, and its queue. */
  function Line(w: Worker): seq<int> { InHands(w.mode) + w.queue }

  predicate Below(q: seq<int>, n: int) { forall i | 0 <= i < |q| :: q[i] < n }

  ghost predicate WorkerInOrder(s: State, k: Key)
    requires k in s.workers
  {
    var line := Line(s.workers[k]);
    && Ascending(line) && Below(line, s.next)
    && k.pool < |s.pools| && AllBefore(line, s.pools[k.pool])
  }

  ghost predicate InOrder(s: State) {
    && (forall p | 0 <= p < |s.pools| :: Ascending(s.pools[p]) && Below(s.pools[p], s.next))
    && (forall k | k in s.workers :: WorkerInOrder(s, k))
  }

  lemma OrderClient(s: State, a: ClientStep)
    requires InOrder(s) && ClientEnabled(s, a)
    ensures InOrder(AfterClient(s, a))
  {
    var s' := AfterClient(s, a);
    forall p | 0 <= p < |s'.pools| ensures Ascending(s'.pools[p]) && Below(s'.pools[p], s'.next) {
      assert Ascending(s.pools[p]) && Below(s.pools[p], s.next);
    }
    forall k | k in s'.workers ensures WorkerInOrder(s', k) {
      assert WorkerInOrder(s, k);
    }
  }

  lemma LongerLine(line: seq<int>, pool: seq<int>, n: int)
    requires Ascending(line) && Ascending(pool) && Below(line, n) && Below(pool, n) && AllBefore(line, pool) && pool != []
    ensures var line' := line + [pool[0]];
            Ascending(line') && Below(line', n) && AllBefore(line', pool[1..])
    ensures AllBefore(line, pool[1..])
  {
  }

  lemma OrderRouter(s: State, a: RouterStep)
    requires InOrder(s) && RouterEnabled(s, a)
    ensures InOrder(AfterRouter(s, a))
  {
    var s', p := AfterRouter(s, a), s.pools[a.pool];
    assert Ascending(p) && Below(p, s.next);
    forall k | k in s'.workers ensures WorkerInOrder(s', k) {
      assert WorkerInOrder(s, k);
      if k.pool == a.pool {
        LongerLine(Line(s.workers[k]), p, s.next);
        assert a.Route? && k == a.k ==> Line(s'.workers[k]) == Line(s.workers[k]) + [p[0]];
      }
    }
  }

  /** What a step of the worker takes out of its line is answered. */
  lemma LineShrinks(s: State, a: WorkerStep)
    requires WorkerEnabled(s, a)
    ensures var line, line' := Line(s.workers[a.k]), Line(AfterWorker(s, a).workers[a.k]);
            if a.Clear? || a.Exit? then line != [] && line' == line[1..]
            else if a.DrainOne? then |line| > 1 && line' == [line[0]] + line[2..]
            else line' == line
  {
  }

  lemma OthersStay(s: State, a: WorkerStep)
    requires WorkerEnabled(s, a)
    ensures var s' := AfterWorker(s, a);
            && s'.pools == s.pools && s'.next == s.next && s'.workers.Keys == s.workers.Keys
            && forall k | k in s.workers && k != a.k :: s'.workers[k] == s.workers[k]
  {
  }

  lemma OrderWorker(s: State, a: WorkerStep, s': State)
    requires InOrder(s) && WorkerEnabled(s, a) && s' == AfterWorker(s, a)
    ensures InOrder(s')
  {
    LineShrinks(s, a);
    OthersStay(s, a);
    ShorterLine(s, s', a.k);
  }

  lemma PartOfLine(line: seq<int>, line': seq<int>, n: int, pool: seq<int>)
    requires Ascending(line) && Below(line, n) && AllBefore(line, pool)
    requires line' == line || (line != [] && line' == line[1..]) || (|line| > 1 && line' == [line[0]] + line[2..])
    ensures Ascending(line') && Below(line', n) && AllBefore(line', pool)
  {
  }

  lemma ShorterLine(s: State, s': State, at: Key)
    requires InOrder(s) && s'.pools == s.pools && s'.next == s.next && s'.workers.Keys == s.workers.Keys && at in s.workers
    requires forall k | k in s.workers && k != at :: s'.workers[k] == s.workers[k]
    requires var line, line' := Line(s.workers[at]), Line(s'.workers[at]);
             line' == line || (line != [] && line' == line[1..]) || (|line| > 1 && line' == [line[0]] + line[2..])
    ensures InOrder(s')
  {
    forall k | k in s'.workers ensures WorkerInOrder(s', k) {
      assert WorkerInOrder(s, k);
      if k == at {
        PartOfLine(Line(s.workers[k]), Line(s'.workers[k]), s.next, s.pools[k.pool]);
      }
    }
  }

  lemma OrderRestart(s: State, a: RestartStep)
    requires InOrder(s) && RestartEnabled(s, a)
    ensures InOrder(AfterRestart(s, a))
  {
    var s' := AfterRestart(s, a);
    forall k | k in s'.workers ensures WorkerInOrder(s', k) {
      if k in s.workers {
        assert WorkerInOrder(s, k);
      }
    }
  }

  lemma {:induction false} OrderInvariant(steps: seq<Step>)
    requires Legal(steps)
    ensures InOrder(Exec(steps))
    decreases |steps|
  {
    if steps != [] {
      var front := steps[..|steps| - 1];
      OrderInvariant(front);
      match steps[|steps| - 1]
      case ByClient(c) => OrderClient(Exec(front), c);
      case ByRouter(r) => OrderRouter(Exec(front), r);
      case ByWorker(w) => OrderWorker(Exec(front), w, Exec(steps));
      case ByRestart(x) => OrderRestart(Exec(front), x);
    }
  }

  /** After every run: a worker's queue is in order of submission, behind the task in
      its hands and ahead of all that still wait in its pool, which are in order too. */
  lemma NothingOvertakes(steps: seq<Step>, k: Key)
    requires Legal(steps) && k in Exec(steps).workers
    ensures var s, line := Exec(steps), Line(Exec(steps).workers[k]);
            k.pool < |s.pools| && Ascending(line) && Ascending(s.pools[k.pool]) && AllBefore(line, s.pools[k.pool])
  {
    OrderInvariant(steps);
    assert WorkerInOrder(Exec(steps), k);
  }
}
