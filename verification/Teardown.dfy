/** The whole of a teardown: before it takes the routing table it invalidates every
    session, and a session's lock is held by whoever is connecting it. */
module Teardown {
  import opened Wrappers
  import opened PendingTable

  /** The teardown in progress: the sessions still to invalidate, and who was
      registered, and connecting under a lock of these sessions, when it began. */
  datatype Tearing = Tearing(left: set<int>, start: set<int>, held: set<int>)

  /** `locks`: the connect that holds each session's lock. */
  datatype World = World(t: State, locks: map<int, int>, teardown: Option<Tearing>)

  const QUIET := World(INIT, map[], None)

  datatype Move =
    | Route(step: Step)             // of callers and of the reader
    | Connect(session: int)
    | Begin(sessions: set<int>)
    | Invalidate(session: int)
    | Strike

  /** The connects among the lock holders of these sessions. */
  function Holders(w: World, sessions: set<int>): set<int> {
    set x | x in sessions && x in w.locks :: w.locks[x]
  }

  predicate Can(w: World, m: Move) {
    match m
    case Route(a) =>
      && Enabled(w.t, a) && !a.TakeDown?
      // a connect that raises does not clean up after itself
      && (a.SendRaises? && a.id in w.locks.Values ==> a.connect)
    case Connect(x) => x !in w.locks
    case Begin(_) => w.teardown.None? && w.t.waking == {}
    case Invalidate(x) => w.teardown.Some? && x in w.teardown.value.left && x !in w.locks
    case Strike => w.teardown.Some? && w.teardown.value.left == {} && Enabled(w.t, TakeDown)
  }

  /** The call of this id is over, and with it the lock it held. */
  function Unlocked(locks: map<int, int>, id: int): map<int, int> {
    map x | x in locks && locks[x] != id :: locks[x]
  }

  function Do(w: World, m: Move): World
    requires Can(w, m)
  {
    match m
    case Route(a) =>
      w.(t := After(w.t, a), locks := if a.Leave? || a.SendRaises? then Unlocked(w.locks, a.id) else w.locks)
    case Connect(x) => w.(t := After(w.t, Register), locks := w.locks[x := w.t.next + 1])
    case Begin(xs) => w.(teardown := Some(Tearing(xs, w.t.table, Holders(w, xs))))
    case Invalidate(x) => w.(teardown := Some(w.teardown.value.(left := w.teardown.value.left - {x})))
    case Strike => w.(t := After(w.t, TakeDown), teardown := None)
  }

  ghost predicate Permitted(moves: seq<Move>)
    decreases |moves|, 0
  {
    moves != [] ==> Permitted(moves[..|moves| - 1]) && Can(Run(moves[..|moves| - 1]), moves[|moves| - 1])
  }

  ghost function Run(moves: seq<Move>): World
    requires Permitted(moves)
    decreases |moves|, 1
  {
    if moves == [] then QUIET else Do(Run(moves[..|moves| - 1]), moves[|moves| - 1])
  }

  /** Whoever has ended its call: gone, or stuck in the table. */
  predicate Over(s: State, id: int) { id in s.phases && (s.phases[id].Gone? || s.phases[id].Stuck?) }

  ghost predicate LocksKept(w: World) {
    forall x | x in w.locks :: w.locks[x] in w.t.phases && !Over(w.t, w.locks[x])
  }

  ghost predicate TearingKept(w: World) {
    w.teardown.Some? ==>
      var d := w.teardown.value;
      && (forall id | id in d.start :: id in w.t.phases && id !in w.t.found)
      && d.held <= w.t.phases.Keys
      && (forall id | id in d.held :: Over(w.t, id) || exists x :: x in d.left && x in w.locks && w.locks[x] == id)
  }

  ghost predicate WorldKept(w: World) { Kept(w.t) && LocksKept(w) && TearingKept(w) }

  /** A step of a caller or of the reader ends at most the call it is about. */
  lemma PhasesStep(s: State, a: Step)
    requires Kept(s) && Enabled(s, a) && !a.TakeDown?
    ensures After(s, a).found == s.found && s.phases.Keys <= After(s, a).phases.Keys
    ensures forall id | id in s.phases && Over(s, id) :: Over(After(s, a), id)
    ensures forall id | id in s.phases && !Over(s, id) && Over(After(s, a), id) :: (a.Leave? || a.SendRaises?) && a.id == id
    ensures a.Leave? || (a.SendRaises? && a.connect) ==> Over(After(s, a), a.id)
  {
    if a.Register? {
      assert forall id | id in s.phases :: IdKept(s, id);
    }
  }

  lemma RouteKeeps(w: World, a: Step)
    requires WorldKept(w) && Can(w, Route(a))
    ensures WorldKept(Do(w, Route(a)))
  {
    var w' := Do(w, Route(a));
    StepKeeps(w.t, a);
    PhasesStep(w.t, a);
    if w.teardown.Some? {
      var d := w.teardown.value;
      forall id | id in d.held && !Over(w'.t, id) ensures exists x :: x in d.left && x in w'.locks && w'.locks[x] == id {
        var x :| x in d.left && x in w.locks && w.locks[x] == id;
        assert id in w.locks.Values;
        assert x in w'.locks;
      }
    }
  }

  lemma ConnectKeeps(w: World, x: int)
    requires WorldKept(w) && Can(w, Connect(x))
    ensures WorldKept(Do(w, Connect(x)))
  {
    var w' := Do(w, Connect(x));
    StepKeeps(w.t, Register);
    PhasesStep(w.t, Register);
    if w.teardown.Some? {
      var d := w.teardown.value;
      forall id | id in d.held && !Over(w'.t, id) ensures exists y :: y in d.left && y in w'.locks && w'.locks[y] == id {
        var y :| y in d.left && y in w.locks && w.locks[y] == id;
        assert y in w'.locks && w'.locks[y] == id;
      }
    }
  }

  lemma BeginKeeps(w: World, xs: set<int>)
    requires WorldKept(w) && Can(w, Begin(xs))
    ensures WorldKept(Do(w, Begin(xs)))
  {
    forall id | id in w.t.table ensures id in w.t.phases && id !in w.t.found {
      assert IdKept(w.t, id);
    }
  }

  lemma InvalidateKeeps(w: World, x: int)
    requires WorldKept(w) && Can(w, Invalidate(x))
    ensures WorldKept(Do(w, Invalidate(x)))
  {
    var d, d' := w.teardown.value, Do(w, Invalidate(x)).teardown.value;
    forall id | id in d.held && !Over(w.t, id) ensures exists y :: y in d'.left && y in w.locks && w.locks[y] == id {
      var y :| y in d.left && y in w.locks && w.locks[y] == id;
      assert y in d'.left;
    }
  }

  lemma MoveKeeps(w: World, m: Move)
    requires WorldKept(w) && Can(w, m)
    ensures WorldKept(Do(w, m))
  {
    match m
    case Route(a) => RouteKeeps(w, a);
    case Connect(x) => ConnectKeeps(w, x);
    case Begin(xs) => BeginKeeps(w, xs);
    case Invalidate(x) => InvalidateKeeps(w, x);
    case Strike => StepKeeps(w.t, TakeDown);
  }

  lemma {:induction false} RunsKeep(moves: seq<Move>)
    requires Permitted(moves)
    ensures WorldKept(Run(moves))
    decreases |moves|
  {
    if moves != [] {
      RunsKeep(moves[..|moves| - 1]);
      MoveKeeps(Run(moves[..|moves| - 1]), moves[|moves| - 1]);
    }
  }

  /** What the callers and the table see of a run. */
  ghost function Seen(moves: seq<Move>): seq<Step>
    decreases |moves|
  {
    if moves == [] then []
    else
      var front := Seen(moves[..|moves| - 1]);
      match moves[|moves| - 1]
      case Route(a) => front + [a]
      case Connect(_) => front + [Register]
      case Strike => front + [TakeDown]
      case _ => front
  }

  /** It is a run of the routing table, so what holds of those holds here. */
  lemma {:induction false} SeenIsARun(moves: seq<Move>)
    requires Permitted(moves)
    ensures Legal(Seen(moves)) && Exec(Seen(moves)) == Run(moves).t
    decreases |moves|
  {
    if moves != [] {
      var front := moves[..|moves| - 1];
      SeenIsARun(front);
      if |Seen(moves)| > |Seen(front)| {
        assert Seen(moves)[..|Seen(moves)| - 1] == Seen(front);
      }
    }
  }

  /** Who is woken.  When a teardown that began with these callers registered comes to
      take the table, every connect that held the lock of one of its sessions then has
      ended its call, without help from this teardown; and of all that were registered
      it wakes exactly those that have not left in the meantime. */
  lemma WhoIsWoken(moves: seq<Move>)
    requires Permitted(moves) && Can(Run(moves), Strike)
    ensures var w, w' := Run(moves), Do(Run(moves), Strike);
            var d := w.teardown.value;
            && (forall id | id in d.held :: Over(w.t, id))
            && (forall id | id in d.start :: id in w.t.phases && (id in w'.t.waking <==> !w.t.phases[id].Gone?))
  {
    RunsKeep(moves);
    var w := Run(moves);
    forall id | id in w.teardown.value.start ensures id in w.t.phases && (id in w.t.table <==> !w.t.phases[id].Gone?) {
      assert IdKept(w.t, id);
    }
  }

  // ---- a run in which a registered caller is not woken ----

  lemma Push(moves: seq<Move>, w: World, m: Move) returns (moves': seq<Move>, w': World)
    requires Permitted(moves) && Run(moves) == w && Can(w, m)
    ensures Permitted(moves') && Run(moves') == w' == Do(w, m)
  {
    moves' := moves + [m];
    assert moves'[..|moves|] == moves;
    w' := Do(w, m);
  }

  /** One caller connects a session under its lock, another waits for a response, and
      a teardown begins. */
  lemma {:induction false} BlockedRun() returns (moves: seq<Move>, w: World)
    ensures Permitted(moves) && Run(moves) == w
    ensures w.teardown == Some(Tearing({1}, {1, 2}, {1})) && w.locks == map[1 := 1]
    ensures w.t.phases == map[1 := Waiting, 2 := Waiting] && w.t.queues == map[1 := [], 2 := []] && w.t.put == map[1 := [], 2 := []]
  {
    moves, w := Push([], QUIET, Connect(1));
    moves, w := Push(moves, w, Route(Send(1)));
    moves, w := Push(moves, w, Route(Register));
    moves, w := Push(moves, w, Route(Send(2)));
    assert w.t.table == {1, 2} && w.t.waking == {};
    assert Holders(w, {1}) == {1};
    moves, w := Push(moves, w, Begin({1}));
  }

  /** The teardown waits for the lock, and the second caller's own time-out comes first. */
  lemma {:induction false} CallerCanExpireUnwoken() returns (moves: seq<Move>)
    ensures Permitted(moves)
    ensures var w := Run(moves);
            && w.teardown.Some? && 2 in w.teardown.value.start && 2 in w.t.phases && w.t.phases[2].Gone?
            && 2 in w.t.put && w.t.put[2] == []
  {
    var w: World;
    moves, w := BlockedRun();
    moves, w := Push(moves, w, Route(GiveUp(2)));
    moves, w := Push(moves, w, Route(Leave(2)));
  }
}
