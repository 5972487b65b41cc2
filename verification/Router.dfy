/** The router of a worker pool: least loaded ready worker, ties broken by a
    cursor that rotates over the workers. */
module Router {

  /** What the router sees: each worker's load (queued tasks, and one more if it is
      serving), which workers are ready, and the cursor. Worker `i` has id `i + 1`. */
  datatype Pool = Pool(loads: seq<nat>, ready: seq<bool>, cursor: nat) {
    predicate Valid() { |loads| == |ready| > 0 && cursor < |loads| }
  }

  predicate IsReady(p: Pool, i: nat) { i < |p.ready| && p.ready[i] }

  ghost predicate SomeReady(p: Pool) { exists i: nat :: IsReady(p, i) }

  /** How far the rotation has to go from the cursor to reach the worker. */
  function Distance(p: Pool, i: nat): nat
    requires p.Valid() && i < |p.loads|
  {
    if i >= p.cursor then i - p.cursor else i - p.cursor + |p.loads|
  }

  /** Worker `i` comes before worker `j`. */
  predicate Before(p: Pool, i: nat, j: nat)
    requires p.Valid() && i < |p.loads| && j < |p.loads|
  {
    p.loads[i] < p.loads[j] || (p.loads[i] == p.loads[j] && Distance(p, i) < Distance(p, j))
  }

  /** Two workers are never equally far from the cursor. */
  lemma DistancesDiffer(p: Pool, i: nat, j: nat)
    requires p.Valid() && i < |p.loads| && j < |p.loads| && i != j
    ensures Distance(p, i) != Distance(p, j)
    ensures Before(p, i, j) <==> !Before(p, j, i)
  {
  }

  /** The worker after this one in the rotation. */
  function Next(i: nat, n: nat): nat {
    if i + 1 == n then 0 else i + 1
  }

  lemma MultiplesAreFar(e: int, n: int)
    requires n > 0
    ensures e == 0 || e * n >= n || e * n <= 0 - n
  {
    if e > 0 {
      assert (e - 1) * n >= 0;
    } else if e < 0 {
      assert (0 - e - 1) * n >= 0;
    }
  }

  /** A remainder is known from any way of writing the number. */
  lemma Remainder(x: int, n: nat, q: int, r: nat)
    requires r < n && x == q * n + r
    ensures x % n == r
  {
    var d := x / n;
    assert x == d * n + x % n;
    assert (q - d) * n == q * n - d * n;
    MultiplesAreFar(q - d, n);
  }

  lemma NextIsModular(x: nat, n: nat)
    requires n > 0
    ensures Next(x % n, n) == (x + 1) % n
  {
    var q, r := x / n, x % n;
    if r + 1 == n {
      assert x + 1 == (q + 1) * n + 0;
      Remainder(x + 1, n, q + 1, 0);
    } else {
      assert x + 1 == q * n + (r + 1);
      Remainder(x + 1, n, q, r + 1);
    }
  }

  /** The ready worker that comes before every other ready one. */
  ghost predicate Chosen(p: Pool, w: nat)
    requires p.Valid()
  {
    IsReady(p, w) && forall j: nat | IsReady(p, j) && j != w :: Before(p, w, j)
  }

  lemma {:induction false} ChosenIsUnique(p: Pool, w: nat, w': nat)
    requires p.Valid() && Chosen(p, w) && Chosen(p, w')
    ensures w == w'
  {
    if w != w' {
      DistancesDiffer(p, w, w');
    }
  }

  // ---- the pool itself ----

  class WorkerPool {
    var queues: seq<seq<int>>
    var busy: seq<bool>
    var ready: seq<bool>
    var selectionCursor: nat
    /** Tasks failed because no worker was ready. */
    var rejected: seq<int>

    constructor (n: nat, up: seq<bool>)
      requires n > 0 && |up| == n
      ensures Valid() && ready == up && selectionCursor == 0 && rejected == []
      ensures queues == seq(n, _ => []) && busy == seq(n, _ => false)
    {
      queues, busy, ready := seq(n, _ => []), seq(n, _ => false), up;
      selectionCursor, rejected := 0, [];
    }

    ghost predicate Valid()
      reads this
    {
      |queues| == |busy| == |ready| > 0 && selectionCursor < |queues|
    }

    function Load(i: nat): nat
      requires i < |queues| && i < |busy|
      reads this
    {
      |queues[i]| + if busy[i] then 1 else 0
    }

    ghost function View(): (p: Pool)
      requires Valid()
      reads this
      ensures p.Valid()
    {
      Pool(seq(|queues|, i requires 0 <= i < |queues| && Valid() reads this => Load(i)), ready, selectionCursor)
    }

    /** The first of the least loaded ready workers, going round from the cursor;
        -1 if no worker is ready. */
    method Select() returns (best: int)
      requires Valid()
      ensures -1 <= best < |queues|
      ensures if best == -1 then !SomeReady(View()) else Chosen(View(), best)
    {
      ghost var p := View();
      best := -1;
      var n, bestDistance := |queues|, 0;
      for i := 0 to n
        invariant -1 <= best < i && (best == -1 <==> forall j: nat | j < i :: !ready[j])
        invariant best >= 0 ==> ready[best] && bestDistance == Distance(p, best)
                                && forall j: nat | j < i && j != best && ready[j] :: Before(p, best, j)
      {
        if ready[i] {
          var distance := (i - selectionCursor) % n;
          Remainder(i - selectionCursor, n, if i >= selectionCursor then 0 else -1, Distance(p, i));
          if best == -1 || Load(i) < Load(best) || (Load(i) == Load(best) && distance < bestDistance) {
            assert best >= 0 ==> Before(p, i, best);
            best, bestDistance := i, distance;
          } else {
            DistancesDiffer(p, best, i);
          }
        }
      }
      assert best == -1 ==> forall j: nat :: !IsReady(p, j);
      assert best >= 0 ==> IsReady(p, best);
    }

    /** Give the task to the worker selected, and move the cursor past it: the ready
        worker with the fewest tasks, queued or being served, and among those with as
        few the first going round from the cursor.  Without a ready worker the task
        is failed. */
    method Route(task: int) returns (ghost w: nat)
      requires Valid()
      modifies this
      ensures Valid() && busy == old(busy) && ready == old(ready)
      ensures if SomeReady(old(View()))
              then Chosen(old(View()), w) && View() == Assigned(old(View()), w)
              else View() == old(View())
      ensures if exists j | 0 <= j < |ready| :: ready[j]
              then
                && w < |ready| && LeastLoaded(old(queues), busy, ready, old(selectionCursor), w)
                && queues == old(queues)[w := old(queues)[w] + [task]] && rejected == old(rejected)
                && selectionCursor == (w + 1) % |queues|
              else queues == old(queues) && rejected == old(rejected) + [task] && selectionCursor == old(selectionCursor)
    {
      ghost var p := View();
      w := 0;
      var best := Select();
      if best == -1 {
        assert forall j: nat | j < |ready| :: ready[j] ==> IsReady(p, j);
        rejected := rejected + [task];
      } else {
        w := best;
        ChosenIsLeastLoaded(p, queues, busy, w);
        NextIsModular(best, |queues|);
        Remainder(best, |queues|, 0, best);
        selectionCursor := (best + 1) % |queues|;
        queues := queues[best := queues[best] + [task]];
        assert View().loads == p.loads[w := p.loads[w] + 1];
      }
    }
  }

  /** Worker `w` is ready and has fewer tasks, queued or being served, than any other
      ready worker, or as few and comes first going round from the cursor. */
  predicate LeastLoaded(queues: seq<seq<int>>, busy: seq<bool>, ready: seq<bool>, cursor: nat, w: nat)
    requires |queues| == |busy| == |ready| && w < |ready|
  {
    ready[w] &&
    forall j | 0 <= j < |ready| && ready[j] && j != w ::
      var mine := |queues[w]| + if busy[w] then 1 else 0;
      var other := |queues[j]| + if busy[j] then 1 else 0;
      mine < other || (mine == other && (w - cursor) % |ready| < (j - cursor) % |ready|)
  }

  lemma DistanceIsModular(p: Pool, i: nat)
    requires p.Valid() && i < |p.loads|
    ensures Distance(p, i) == (i - p.cursor) % |p.loads|
  {
    Remainder(i - p.cursor, |p.loads|, if i >= p.cursor then 0 else -1, Distance(p, i));
  }

  lemma ChosenIsLeastLoaded(p: Pool, queues: seq<seq<int>>, busy: seq<bool>, w: nat)
    requires p.Valid() && Chosen(p, w) && |queues| == |busy| == |p.ready|
    requires forall i | 0 <= i < |queues| :: p.loads[i] == |queues[i]| + if busy[i] then 1 else 0
    ensures LeastLoaded(queues, busy, p.ready, p.cursor, w)
  {
    DistanceIsModular(p, w);
    forall j | 0 <= j < |p.ready| && p.ready[j] && j != w ensures Before(p, w, j) && Distance(p, j) == (j - p.cursor) % |p.loads| {
      assert IsReady(p, j);
      DistanceIsModular(p, j);
    }
  }

  /** The pool after worker `w` has been given a task. */
  function Assigned(p: Pool, w: nat): (p': Pool)
    requires p.Valid() && w < |p.loads|
    ensures p'.Valid()
  {
    p.(loads := p.loads[w := p.loads[w] + 1], cursor := Next(w, |p.loads|))
  }

  // ---- runs of assignments ----

  /** `ws` are the workers that consecutive tasks go to while no task completes
      and readiness does not change, and `q` is the pool afterwards. */
  ghost predicate Run(p: Pool, ws: seq<nat>, q: Pool)
    requires p.Valid()
    decreases |ws|
  {
    if ws == [] then p == q else Chosen(p, ws[0]) && Run(Assigned(p, ws[0]), ws[1..], q)
  }

  /** Mid-round: the `done` workers behind the cursor already have their task. */
  ghost predicate MidRound(p: Pool, level: nat, done: nat)
    requires p.Valid()
  {
    done < |p.loads| &&
    forall i | 0 <= i < |p.loads| ::
      p.ready[i] && p.loads[i] == level + if Distance(p, i) >= |p.loads| - done then 1 else 0
  }

  /** In the middle of a round the worker at the cursor is chosen. */
  lemma CursorIsNext(p: Pool, level: nat, done: nat, w: nat)
    requires p.Valid() && MidRound(p, level, done) && Chosen(p, w)
    ensures w == p.cursor
  {
    assert IsReady(p, p.cursor);
  }

  lemma NextRound(p: Pool, level: nat, done: nat)
    requires p.Valid() && MidRound(p, level, done)
    ensures var p' := Assigned(p, p.cursor);
            if done + 1 < |p.loads| then MidRound(p', level, done + 1) else MidRound(p', level + 1, 0)
  {
  }

  /** Each task goes to the next worker in the rotation. */
  ghost predicate Rotates(ws: seq<nat>, from: nat, n: nat) {
    ws != [] ==> ws[0] == from && Rotates(ws[1..], Next(from, n), n)
  }

  lemma {:induction false} RotationFrom(p: Pool, ws: seq<nat>, q: Pool, level: nat, done: nat)
    requires p.Valid() && Run(p, ws, q) && MidRound(p, level, done)
    ensures Rotates(ws, p.cursor, |p.loads|)
    decreases |ws|
  {
    if ws != [] {
      CursorIsNext(p, level, done, ws[0]);
      NextRound(p, level, done);
      if done + 1 < |p.loads| {
        RotationFrom(Assigned(p, ws[0]), ws[1..], q, level, done + 1);
      } else {
        RotationFrom(Assigned(p, ws[0]), ws[1..], q, level + 1, 0);
      }
    }
  }

  lemma {:induction false} RotationAt(ws: seq<nat>, from: nat, n: nat, x: nat, k: nat)
    requires n > 0 && from == x % n && Rotates(ws, from, n) && k < |ws|
    ensures ws[k] == (x + k) % n
    decreases k
  {
    if k > 0 {
      NextIsModular(x, n);
      RotationAt(ws[1..], Next(from, n), n, x + 1, k - 1);
    }
  }

  /** From equal loads, all workers ready, the tasks go round in order: the k-th,
      counted from 0, to worker (cursor + k) mod n, whose id is one more. */
  lemma RoundRobin(p: Pool, ws: seq<nat>, q: Pool, level: nat, k: nat)
    requires p.Valid() && Run(p, ws, q) && k < |ws|
    requires forall i | 0 <= i < |p.loads| :: p.ready[i] && p.loads[i] == level
    ensures ws[k] == (p.cursor + k) % |p.loads|
  {
    RotationFrom(p, ws, q, level, 0);
    Remainder(p.cursor, |p.loads|, 0, p.cursor);
    RotationAt(ws, p.cursor, |p.loads|, p.cursor, k);
  }

  // ---- balance ----

  /** No two ready workers differ by more than `d`. */
  ghost predicate SpreadAtMost(p: Pool, d: nat)
    requires p.Valid()
  {
    forall i: nat, j: nat | IsReady(p, i) && IsReady(p, j) :: p.loads[i] - p.loads[j] <= d
  }

  /** From any loads and any ready set, assignments never widen the spread among
      the ready workers beyond the larger of 1 and what it was. */
  lemma {:induction false} SpreadIsKept(p: Pool, ws: seq<nat>, q: Pool, d: nat)
    requires p.Valid() && Run(p, ws, q) && SpreadAtMost(p, d)
    ensures q.Valid() && q.ready == p.ready && SpreadAtMost(q, if d < 1 then 1 else d)
    decreases |ws|
  {
    if ws != [] {
      var p' := Assigned(p, ws[0]);
      forall i: nat, j: nat | IsReady(p', i) && IsReady(p', j) ensures p'.loads[i] - p'.loads[j] <= if d < 1 then 1 else d {
        assert IsReady(p, i) && IsReady(p, j);
        if i == ws[0] && j != i {
          assert Before(p, i, j);
        }
      }
      SpreadIsKept(p', ws[1..], q, if d < 1 then 1 else d);
    }
  }

  /** How many tasks the first `n` workers that are ready lack to reach `level`. */
  function Shortfall(p: Pool, level: nat, n: nat): int
    requires p.Valid() && n <= |p.loads|
  {
    if n == 0 then 0 else Shortfall(p, level, n - 1) + if p.ready[n - 1] then level - p.loads[n - 1] else 0
  }

  ghost predicate AtMostLevel(p: Pool, level: nat)
    requires p.Valid()
  {
    forall i: nat | IsReady(p, i) :: p.loads[i] <= level
  }

  lemma {:induction false} ShortfallIsZero(p: Pool, level: nat, n: nat)
    requires p.Valid() && n <= |p.loads| && AtMostLevel(p, level)
    ensures Shortfall(p, level, n) >= 0
    ensures Shortfall(p, level, n) == 0 <==> forall i: nat | i < n && IsReady(p, i) :: p.loads[i] == level
  {
    if n > 0 {
      ShortfallIsZero(p, level, n - 1);
      assert p.ready[n - 1] ==> IsReady(p, n - 1);
    }
  }

  lemma {:induction false} ShortfallDrops(p: Pool, level: nat, w: nat, n: nat)
    requires p.Valid() && n <= |p.loads| && IsReady(p, w)
    ensures Shortfall(Assigned(p, w), level, n) == Shortfall(p, level, n) - if w < n then 1 else 0
  {
    if n > 0 {
      ShortfallDrops(p, level, w, n - 1);
    }
  }

  /** Levelling: while no task completes, after exactly as many assignments as the
      ready workers lack to the fullest of them, they are all equally loaded. */
  lemma {:induction false} AssignmentsLevelTheLoads(p: Pool, ws: seq<nat>, q: Pool, level: nat)
    requires p.Valid() && Run(p, ws, q) && AtMostLevel(p, level)
    requires |ws| == Shortfall(p, level, |p.loads|)
    ensures q.Valid() && q.ready == p.ready
    ensures forall i: nat | IsReady(q, i) :: q.loads[i] == level
    decreases |ws|
  {
    ShortfallIsZero(p, level, |p.loads|);
    if ws != [] {
      var w := ws[0];
      var i: nat :| i < |p.loads| && IsReady(p, i) && p.loads[i] != level;
      assert i != w ==> Before(p, w, i);
      ShortfallDrops(p, level, w, |p.loads|);
      AssignmentsLevelTheLoads(Assigned(p, w), ws[1..], q, level);
    }
  }
}
