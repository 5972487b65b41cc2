/** Whose task a deadline trigger hits: workers announce their tasks to the monitor,
    the monitor names overdue workers, and a restart marks whatever their slots show
    by then.  The monitor knows workers by number only, so messages carry with them,
    unseen, the task they are about. */
module Attribution {
  import opened Wrappers
  import opened WatchdogTypes
  import opened Tasks
  import opened TaskProofs
  import opened Culprits
  import M = MonitorSpec

  /** A worker has begun a task. */
  datatype Begun = Begun(k: Key, task: int)

  /** A command, and if it announces a task, which. */
  datatype Note = Note(command: Command, who: Option<Begun>)

  /** A deadline trigger: the tasks tracked for the workers it names, and how many
      tasks had been begun when it was raised. */
  datatype Alarm = Alarm(generation: int, tracked: map<int, Begun>, at: nat)

  /** `alarms` are the triggers in the event queue, `held` is the one being recovered. */
  datatype World = World(
    s: State, generation: int, notes: seq<Note>, monitor: M.Monitor, alarms: seq<Alarm>, held: Option<Alarm>,
    // history: the task behind each tracked start, and all tasks begun, in order
    tracked: map<int, Begun>, begun: seq<Begun>)

  const START := World(INIT, 0, [], M.BOOT, [], None, map[], [])

  datatype Move =
    | Do(step: Step)
    | Announce(k: Key, generation: int, at: real)
    | Retire(k: Key, generation: int)
    | Tell(command: Command)
    | Hear
    | Fire(cfg: M.Config, now: real)
    | Receive
    | Act(reason: Reason)
    | Recovered

  /** The restart that the trigger asks for. */
  function Restarting(a: Alarm, reason: Reason): RestartStep { Snapshot(Deadline, reason, a.tracked.Keys) }

  predicate Can(w: World, m: Move) {
    match m
    case Do(a) => Enabled(w.s, a)
    case Announce(k, g, _) => g <= w.generation && k in w.s.workers && w.s.workers[k].mode.Running?
    case Retire(_, _) => true
    case Tell(c) => !c.TaskStarted? && !c.TaskFinished?
    case Hear => w.notes != [] && w.monitor.running
    case Fire(cfg, now) => w.monitor.running && !w.monitor.paused && M.Overdue(cfg, w.monitor, now) != {}
    case Receive => w.held.None? && w.alarms != []
    case Act(reason) => w.held.Some? && RestartEnabled(w.s, Restarting(w.held.value, reason))
    case Recovered => w.held.Some?
  }

  function Noted(w: World, c: Command, who: Option<Begun>): World { w.(notes := w.notes + [Note(c, who)]) }

  /** The tasks behind the table after this note. */
  function Tracked(m: M.Monitor, tracked: map<int, Begun>, n: Note): map<int, Begun> {
    match n.command
    case Pause(_) => map[]
    case Root(_, _) => map[]
    case TaskStarted(g, id, _) => if g == m.generation && n.who.Some? then tracked[id := n.who.value] else tracked
    case TaskFinished(g, id) => if g == m.generation then tracked - {id} else tracked
    case _ => tracked
  }

  function Next(w: World, m: Move): World
    requires Can(w, m)
  {
    match m
    case Do(a) =>
      w.(s := After(w.s, a),
         begun := if a.ByWorker? && a.w.Begin? then w.begun + [Begun(a.w.k, w.s.workers[a.w.k].mode.task)] else w.begun)
    case Announce(k, g, at) => Noted(w, TaskStarted(g, k.id, at), Some(Begun(k, w.s.workers[k].mode.task)))
    case Retire(k, g) => Noted(w, TaskFinished(g, k.id), None)
    case Tell(c) => Noted(w, c, None).(generation := if c.Root? then c.generation else w.generation)
    case Hear =>
      w.(notes := w.notes[1..], monitor := M.Consume(w.monitor, w.notes[0].command),
         tracked := Tracked(w.monitor, w.tracked, w.notes[0]))
    case Fire(cfg, now) =>
      var overdue := M.Overdue(cfg, w.monitor, now);
      w.(monitor := w.monitor.(paused := true),
         alarms := w.alarms + [Alarm(w.monitor.generation, map id | id in overdue && id in w.tracked :: w.tracked[id], |w.begun|)])
    case Receive =>
      w.(alarms := w.alarms[1..], held := if w.alarms[0].generation == w.generation then Some(w.alarms[0]) else None)
    case Act(reason) =>
      Noted(w.(s := AfterRestart(w.s, Restarting(w.held.value, reason))), Pause(w.generation), None)
    case Recovered => w.(held := None)
  }

  ghost predicate Permitted(moves: seq<Move>)
    decreases |moves|, 0
  {
    moves != [] ==> Permitted(moves[..|moves| - 1]) && Can(Run(moves[..|moves| - 1]), moves[|moves| - 1])
  }

  ghost function Run(moves: seq<Move>): World
    requires Permitted(moves)
    decreases |moves|, 1
  {
    if moves == [] then START else Next(Run(moves[..|moves| - 1]), moves[|moves| - 1])
  }

  // ---- what every run keeps ----

  /** The task a worker has begun last. */
  function LastBegun(begun: seq<Begun>, k: Key): Option<int> {
    if begun == [] then None
    else if begun[|begun| - 1].k == k then Some(begun[|begun| - 1].task)
    else LastBegun(begun[..|begun| - 1], k)
  }

  /** No task is begun twice; whatever was begun has been taken for good, and what a
      worker has only fetched was not; and a slot shows what its worker begun last. */
  ghost predicate BegunKept(s: State, begun: seq<Begun>) {
    && (forall i, j | 0 <= i < j < |begun| :: begun[i].task != begun[j].task)
    && (forall b | b in begun :: Taken(s, b.task))
    && (forall k, b | k in s.workers && s.workers[k].mode.Fetched? && b in begun :: b.task != s.workers[k].mode.task)
    && (forall k | k in s.workers && Slot(s.workers[k].mode).Some? :: LastBegun(begun, k) == Slot(s.workers[k].mode))
  }

  predicate AlarmKept(a: Alarm, begun: seq<Begun>) {
    a.at <= |begun| && forall id | id in a.tracked :: a.tracked[id] in begun[..a.at] && a.tracked[id].k.id == id
  }

  predicate NoteKept(n: Note, begun: seq<Begun>) {
    && (n.command.TaskStarted? <==> n.who.Some?)
    && (n.who.Some? ==> n.who.value in begun && n.who.value.k.id == n.command.worker)
  }

  /** What the monitor tracks, has been sent or has raised is about tasks that were begun. */
  ghost predicate NotesKept(w: World) {
    && w.tracked.Keys == w.monitor.tasks.Keys
    && (forall id | id in w.tracked :: w.tracked[id] in w.begun && w.tracked[id].k.id == id)
    && (forall n | n in w.notes :: NoteKept(n, w.begun))
    && (forall a | a in w.alarms :: AlarmKept(a, w.begun))
    && (w.held.Some? ==> AlarmKept(w.held.value, w.begun))
  }

  ghost predicate WorldKept(w: World) { PlacesKept(w.s) && BegunKept(w.s, w.begun) && NotesKept(w) }

  /** Steps that begin nothing. */
  lemma QuietKeeps(s: State, s': State, begun: seq<Begun>)
    requires BegunKept(s, begun)
    requires forall b | b in begun && Taken(s, b.task) :: Taken(s', b.task)
    requires forall k, b | k in s'.workers && s'.workers[k].mode.Fetched? && b in begun :: b.task != s'.workers[k].mode.task
    requires forall k | k in s'.workers && Slot(s'.workers[k].mode).Some? :: k in s.workers && Slot(s.workers[k].mode) == Slot(s'.workers[k].mode)
    ensures BegunKept(s', begun)
  {
  }

  lemma BeginKeeps(s: State, k: Key, begun: seq<Begun>)
    requires PlacesKept(s) && BegunKept(s, begun) && WorkerEnabled(s, Begin(k))
    ensures BegunKept(AfterWorker(s, Begin(k)), begun + [Begun(k, s.workers[k].mode.task)])
  {
    var s', t := AfterWorker(s, Begin(k)), s.workers[k].mode.task;
    var more := begun + [Begun(k, t)];
    assert WorkerPlaced(s, k) && more[..|begun|] == begun;
    forall i | 0 <= i < |begun| ensures more[i].task != t {
      assert more[i] == begun[i] && begun[i] in begun;
    }
    forall k', b | k' in s'.workers && s'.workers[k'].mode.Fetched? && b in more ensures b.task != s'.workers[k'].mode.task {
      assert WorkerPlaced(s, k') && s'.workers[k'] == s.workers[k'];
    }
  }

  lemma WorkerKeeps(s: State, a: WorkerStep, begun: seq<Begun>)
    requires PlacesKept(s) && BegunKept(s, begun) && WorkerEnabled(s, a) && !a.Begin?
    requires forall b | b in begun && Taken(s, b.task) :: Taken(AfterWorker(s, a), b.task)
    ensures BegunKept(AfterWorker(s, a), begun)
  {
    var s' := AfterWorker(s, a);
    assert WorkerPlaced(s, a.k);
    forall k, b | k in s'.workers && s'.workers[k].mode.Fetched? && b in begun ensures b.task != s'.workers[k].mode.task {
      if k != a.k {
        assert s'.workers[k] == s.workers[k];
      } else if a.Fetch? {
        assert s.workers[k].queue[0] in s.workers[k].queue;
        assert Taken(s, b.task);
      }
    }
    QuietKeeps(s, s', begun);
  }

  lemma ClientKeeps(s: State, a: ClientStep, begun: seq<Begun>)
    requires BegunKept(s, begun) && ClientEnabled(s, a)
    requires forall b | b in begun && Taken(s, b.task) :: Taken(AfterClient(s, a), b.task)
    ensures BegunKept(AfterClient(s, a), begun)
  {
    QuietKeeps(s, AfterClient(s, a), begun);
  }

  lemma RouterKeeps(s: State, a: RouterStep, begun: seq<Begun>)
    requires BegunKept(s, begun) && RouterEnabled(s, a)
    requires forall b | b in begun && Taken(s, b.task) :: Taken(AfterRouter(s, a), b.task)
    ensures BegunKept(AfterRouter(s, a), begun)
  {
    QuietKeeps(s, AfterRouter(s, a), begun);
  }

  lemma RestartKeeps(s: State, a: RestartStep, begun: seq<Begun>)
    requires PlacesKept(s) && BegunKept(s, begun) && RestartEnabled(s, a)
    requires forall b | b in begun && Taken(s, b.task) :: Taken(AfterRestart(s, a), b.task)
    ensures BegunKept(AfterRestart(s, a), begun)
  {
    var s' := AfterRestart(s, a);
    forall k | k in s'.workers && !s'.workers[k].mode.Idle? ensures k in s.workers && s.workers[k].mode == s'.workers[k].mode {
      if k in s.workers {
        assert WorkerPlaced(s, k);
      }
    }
    QuietKeeps(s, s', begun);
  }

  lemma StepKeepsBegun(s: State, a: Step, begun: seq<Begun>)
    requires PlacesKept(s) && BegunKept(s, begun) && Enabled(s, a) && !(a.ByWorker? && a.w.Begin?)
    ensures BegunKept(After(s, a), begun)
  {
    forall b | b in begun && Taken(s, b.task) ensures Taken(After(s, a), b.task) {
      TakenIsSettled(s, a, b.task);
    }
    match a
    case ByWorker(w) => WorkerKeeps(s, w, begun);
    case ByClient(c) => ClientKeeps(s, c, begun);
    case ByRouter(r) => RouterKeeps(s, r, begun);
    case ByRestart(x) => RestartKeeps(s, x, begun);
  }

  lemma DoKeeps(w: World, a: Step)
    requires WorldKept(w) && Can(w, Do(a))
    ensures WorldKept(Next(w, Do(a)))
  {
    PlacesStep(w.s, a);
    if a.ByWorker? && a.w.Begin? {
      BeginKeeps(w.s, a.w.k, w.begun);
      BegunGrows(w, Next(w, Do(a)));
    } else {
      StepKeepsBegun(w.s, a, w.begun);
    }
  }

  lemma BegunGrows(w: World, w': World)
    requires NotesKept(w) && w.begun <= w'.begun && w' == w.(s := w'.s, begun := w'.begun)
    ensures NotesKept(w')
  {
    forall a | AlarmKept(a, w.begun) ensures AlarmKept(a, w'.begun) {
      assert w'.begun[..a.at] == w.begun[..a.at];
    }
  }

  /** A message about a task that was begun. */
  lemma NotedKeeps(w: World, c: Command, who: Option<Begun>)
    requires NotesKept(w) && NoteKept(Note(c, who), w.begun)
    ensures NotesKept(Noted(w, c, who))
  {
  }

  lemma AnnounceKeeps(w: World, k: Key, g: int, at: real)
    requires WorldKept(w) && Can(w, Announce(k, g, at))
    ensures WorldKept(Next(w, Announce(k, g, at)))
  {
    LastIsBegun(w.begun, k);
    NotedKeeps(w, TaskStarted(g, k.id, at), Some(Begun(k, w.s.workers[k].mode.task)));
  }

  lemma {:induction false} LastIsBegun(begun: seq<Begun>, k: Key)
    ensures LastBegun(begun, k).Some? ==> Begun(k, LastBegun(begun, k).value) in begun
  {
    if begun != [] && begun[|begun| - 1].k != k {
      LastIsBegun(begun[..|begun| - 1], k);
    }
  }

  lemma HearKeeps(w: World)
    requires NotesKept(w) && Can(w, Hear)
    ensures NotesKept(Next(w, Hear))
  {
    var n := w.notes[0];
    assert n in w.notes;
  }

  lemma FireKeeps(w: World, cfg: M.Config, now: real)
    requires NotesKept(w) && Can(w, Fire(cfg, now))
    ensures var w' := Next(w, Fire(cfg, now));
            NotesKept(w') && w'.alarms[|w.alarms|].tracked.Keys == M.Overdue(cfg, w.monitor, now)
  {
    assert w.begun[..|w.begun|] == w.begun;
  }

  lemma ReceiveKeeps(w: World)
    requires NotesKept(w) && Can(w, Receive)
    ensures NotesKept(Next(w, Receive))
  {
    assert w.alarms[0] in w.alarms;
  }

  lemma ActKeeps(w: World, reason: Reason)
    requires WorldKept(w) && Can(w, Act(reason))
    ensures WorldKept(Next(w, Act(reason)))
  {
    var a := ByRestart(Restarting(w.held.value, reason));
    PlacesStep(w.s, a);
    StepKeepsBegun(w.s, a, w.begun);
    var mid := w.(s := After(w.s, a));
    NotedKeeps(mid, Pause(w.generation), None);
  }

  lemma MoveKeeps(w: World, m: Move)
    requires WorldKept(w) && Can(w, m)
    ensures WorldKept(Next(w, m))
  {
    match m
    case Do(a) => DoKeeps(w, a);
    case Announce(k, g, at) => AnnounceKeeps(w, k, g, at);
    case Retire(k, g) => NotedKeeps(w, TaskFinished(g, k.id), None);
    case Tell(c) => NotedKeeps(w, c, None);
    case Hear => HearKeeps(w);
    case Fire(cfg, now) => FireKeeps(w, cfg, now);
    case Receive => ReceiveKeeps(w);
    case Act(reason) => ActKeeps(w, reason);
    case Recovered =>
  }

  lemma {:induction false} RunsKeep(moves: seq<Move>)
    requires Permitted(moves)
    ensures WorldKept(Run(moves))
    decreases |moves|
  {
    if moves != [] {
      RunsKeep(moves[..|moves| - 1]);
      MoveKeeps(Run(moves[..|moves| - 1]), moves[|moves| - 1]);
    }
  }

  // ---- whose task is hit ----

  /** Worker `k` has begun nothing since the first `n`. */
  predicate NothingSince(begun: seq<Begun>, n: nat, k: Key) { forall j | n <= j < |begun| :: begun[j].k != k }

  /** Task `b` is the last its worker has begun. */
  predicate IsLast(begun: seq<Begun>, b: Begun) { LastBegun(begun, b.k) == Some(b.task) }

  lemma {:induction false} LastMeans(begun: seq<Begun>, b: Begun, i: nat)
    requires i < |begun| && begun[i] == b
    requires forall i, j | 0 <= i < j < |begun| :: begun[i].task != begun[j].task
    ensures IsLast(begun, b) <==> NothingSince(begun, i + 1, b.k)
    decreases |begun|
  {
    var n := |begun| - 1;
    if i < n {
      assert begun[..n][i] == b;
      LastMeans(begun[..n], b, i);
      if begun[n].k != b.k {
        assert NothingSince(begun, i + 1, b.k) <==> NothingSince(begun[..n], i + 1, b.k);
      }
    }
  }

  lemma {:induction false} LastStays(begun: seq<Begun>, n: nat, k: Key)
    requires n <= |begun|
    ensures NothingSince(begun, n, k) ==> LastBegun(begun, k) == LastBegun(begun[..n], k)
    decreases |begun|
  {
    if n == |begun| {
      assert begun[..n] == begun;
    } else {
      var m := |begun| - 1;
      assert begun[..m][..n] == begun[..n];
      LastStays(begun[..m], n, k);
    }
  }

  lemma {:induction false} LastInTail(begun: seq<Begun>, n: nat, k: Key)
    requires n <= |begun| && !NothingSince(begun, n, k)
    ensures exists j :: n <= j < |begun| && begun[j].k == k && LastBegun(begun, k) == Some(begun[j].task)
    decreases |begun|
  {
    var m := |begun| - 1;
    if begun[m].k != k {
      LastInTail(begun[..m], n, k);
      var j :| n <= j < m && begun[..m][j].k == k && LastBegun(begun[..m], k) == Some(begun[..m][j].task);
      assert begun[j].k == k;
    }
  }

  /** What the slot of the worker with this number shows in the current pool. */
  function Shows(s: State, id: int): Option<int> {
    var k := Key(s.current, id);
    if k in s.workers then Slot(s.workers[k].mode) else None
  }

  lemma SlotIsLast(w: World, id: int, b: Begun)
    requires WorldKept(w) && b in w.begun
    ensures Shows(w.s, id) == Some(b.task) <==> Shows(w.s, id).Some? && b.k == Key(w.s.current, id) && IsLast(w.begun, b)
  {
    var k := Key(w.s.current, id);
    LastIsBegun(w.begun, k);
    if Shows(w.s, id) == Some(b.task) {
      assert Begun(k, b.task) in w.begun;
      var i :| 0 <= i < |w.begun| && w.begun[i] == b;
      var j :| 0 <= j < |w.begun| && w.begun[j] == Begun(k, b.task);
      assert i == j;
    }
  }

  /** If the task was its worker's last among the first `n`, it still is unless the
      worker has begun another since. */
  lemma SinceThen(begun: seq<Begun>, n: nat, b: Begun)
    requires n <= |begun| && b in begun[..n] && IsLast(begun[..n], b)
    requires forall i, j | 0 <= i < j < |begun| :: begun[i].task != begun[j].task
    ensures IsLast(begun, b) <==> NothingSince(begun, n, b.k)
  {
    LastStays(begun, n, b.k);
    if !NothingSince(begun, n, b.k) {
      LastInTail(begun, n, b.k);
      var j :| n <= j < |begun| && begun[j].k == b.k && LastBegun(begun, b.k) == Some(begun[j].task);
      var i :| 0 <= i < n && begun[..n][i] == b;
      assert begun[i] == b && begun[i].task != begun[j].task;
    }
  }

  lemma PrefixMember(begun: seq<Begun>, n: nat, b: Begun)
    requires n <= |begun| && b in begun[..n]
    ensures b in begun
  {
  }

  /** What a deadline trigger hits, for every run.  When the restart it asks for takes
      its snapshot, the tasks to be marked are those in the slots of the workers it
      names; and what a named worker's slot shows is the task the monitor tracked if and
      only if that worker is of the current pool and has begun no other task since: none
      since it began the tracked one, and, if that was its last when the trigger was
      raised, none since the trigger.  No task in the slot of any other worker is marked. */
  lemma DeadlineHitsTheTrackedTask(moves: seq<Move>, reason: Reason, id: int)
    requires Permitted(moves) && Can(Run(moves), Act(reason)) && id in Run(moves).held.value.tracked
    ensures var w := Run(moves);
            var b, n := w.held.value.tracked[id], w.held.value.at;
            var shows := Shows(w.s, id);
            && n <= |w.begun| && b in w.begun[..n] && b.k.id == id
            && (shows == Some(b.task) <==> shows.Some? && b.k.pool == w.s.current && IsLast(w.begun, b))
            && (exists i :: 0 <= i < n && w.begun[i] == b && (IsLast(w.begun, b) <==> NothingSince(w.begun, i + 1, b.k)))
            && (IsLast(w.begun[..n], b) ==> (IsLast(w.begun, b) <==> NothingSince(w.begun, n, b.k)))
    ensures var w := Run(moves);
            forall t :: t in Next(w, Act(reason)).s.restart.todo <==>
                          exists i :: i in w.held.value.tracked && Shows(w.s, i) == Some(t)
  {
    RunsKeep(moves);
    var w := Run(moves);
    var b, n := w.held.value.tracked[id], w.held.value.at;
    PrefixMember(w.begun, n, b);
    SlotIsLast(w, id, b);
    var i :| 0 <= i < n && w.begun[..n][i] == b;
    LastMeans(w.begun, b, i);
    assert w.begun[i] == b;
    if IsLast(w.begun[..n], b) {
      SinceThen(w.begun, n, b);
    }
    assert b.k == Key(b.k.pool, id);
    ShownIsMarked(w.s, w.held.value);
  }

  lemma ShownIsMarked(s: State, a: Alarm)
    ensures forall t :: t in Toxic(Deadline, a.tracked.Keys, InFlight(s)) <==>
                          exists i :: i in a.tracked && Shows(s, i) == Some(t)
  {
    forall t ensures t in Toxic(Deadline, a.tracked.Keys, InFlight(s)) <==> exists i :: i in a.tracked && Shows(s, i) == Some(t) {
      if t in Toxic(Deadline, a.tracked.Keys, InFlight(s)) {
        var k :| k in InFlight(s) && Blames(Deadline, a.tracked.Keys, k.id) && InFlight(s)[k] == t;
        assert k == Key(s.current, k.id) && k.id in a.tracked && Shows(s, k.id) == Some(t);
      }
      if exists i :: i in a.tracked && Shows(s, i) == Some(t) {
        var i :| i in a.tracked && Shows(s, i) == Some(t);
        assert Key(s.current, i) in InFlight(s);
      }
    }
  }

  // ---- a run in which an innocent task is marked ----

  lemma Push(moves: seq<Move>, w: World, m: Move) returns (moves': seq<Move>, w': World)
    requires Permitted(moves) && Run(moves) == w && Can(w, m)
    ensures Permitted(moves') && Run(moves') == w' && w' == Next(w, m)
  {
    moves' := moves + [m];
    assert moves'[..|moves|] == moves && moves'[|moves|] == m;
    w' := Run(moves');
  }

  lemma PushStep(moves: seq<Move>, w: World, a: Step) returns (moves': seq<Move>, w': World)
    requires Permitted(moves) && Run(moves) == w && Enabled(w.s, a) && !(a.ByWorker? && a.w.Begin?)
    ensures Permitted(moves') && Run(moves') == w' && w' == w.(s := After(w.s, a))
  {
    moves', w' := Push(moves, w, Do(a));
  }

  lemma PushWorker(moves: seq<Move>, w: World, a: WorkerStep) returns (moves': seq<Move>, w': World)
    requires Permitted(moves) && Run(moves) == w && WorkerEnabled(w.s, a) && !a.Begin?
    ensures Permitted(moves') && Run(moves') == w' && w' == w.(s := AfterWorker(w.s, a))
  {
    moves', w' := PushStep(moves, w, ByWorker(a));
  }

  lemma PushBegin(moves: seq<Move>, w: World, k: Key) returns (moves': seq<Move>, w': World)
    requires Permitted(moves) && Run(moves) == w && WorkerEnabled(w.s, Begin(k))
    ensures Permitted(moves') && Run(moves') == w'
    ensures w' == w.(s := AfterWorker(w.s, Begin(k)), begun := w.begun + [Begun(k, w.s.workers[k].mode.task)])
  {
    moves', w' := Push(moves, w, Do(ByWorker(Begin(k))));
  }

  /** A run of the tasks alone, with nothing sent yet. */
  lemma {:induction false} Alongside(steps: seq<Step>) returns (moves: seq<Move>, w: World)
    requires Legal(steps)
    ensures Permitted(moves) && Run(moves) == w && w == START.(s := Exec(steps), begun := w.begun)
    decreases |steps|
  {
    if steps == [] {
      moves, w := [], START;
    } else {
      var mid: World;
      moves, mid := Alongside(steps[..|steps| - 1]);
      moves, w := Push(moves, mid, Do(steps[|steps| - 1]));
    }
  }

  lemma Inhabited<T>(xs: seq<T>)
    ensures xs != [] ==> exists x :: x in xs
  {
    if xs != [] {
      assert xs[0] in xs;
    }
  }

  /** While the only task there is has just been fetched, nothing has been begun. */
  lemma NothingBegun(s: State, begun: seq<Begun>)
    requires PlacesKept(s) && BegunKept(s, begun)
    requires Alone(s, Worker([], Fetched(0), 0, false)) && FirstAttempt(s, [])
    ensures begun == []
  {
    Inhabited(begun);
    assert forall b | b in begun :: b.task in s.replies && b.task != 0;
  }

  /** The worker has begun the task. */
  lemma {:induction false} BegunRun() returns (moves: seq<Move>, w: World)
    ensures Permitted(moves) && Run(moves) == w && w == START.(s := w.s, begun := [Begun(K, 0)])
    ensures Alone(w.s, Worker([], Running(0), 0, false)) && FirstAttempt(w.s, []) && w.s.restart.NoRestart? && w.s.flags == {}
  {
    var steps, s := FetchedRun();
    moves, w := Alongside(steps);
    RunsKeep(moves);
    NothingBegun(w.s, w.begun);
    BeginEffect(w.s, Worker([], Fetched(0), 0, false));
    moves, w := PushBegin(moves, w, K);
    assert w.begun == [Begun(K, 0)];
  }

  lemma {:induction false} AnnouncedRun() returns (moves: seq<Move>, w: World)
    ensures Permitted(moves) && Run(moves) == w && w == START.(s := w.s, begun := [Begun(K, 0)], generation := 1, notes := w.notes)
    ensures w.notes == [Note(Root(9, 1), None), Note(TaskStarted(1, 1, 0.0), Some(Begun(K, 0)))]
    ensures Alone(w.s, Worker([], Running(0), 0, false)) && FirstAttempt(w.s, []) && w.s.restart.NoRestart? && w.s.flags == {}
  {
    moves, w := BegunRun();
    moves, w := Push(moves, w, Tell(Root(9, 1)));
    moves, w := Push(moves, w, Announce(K, 1, 0.0));
  }

  /** What the monitor has heard. */
  lemma HearEffect(w: World)
    requires w.monitor == M.BOOT && w.tracked == map[]
    requires w.notes == [Note(Root(9, 1), None), Note(TaskStarted(1, 1, 0.0), Some(Begun(K, 0)))]
    ensures Can(w, Hear) && Can(Next(w, Hear), Hear)
    ensures var v := Next(Next(w, Hear), Hear);
            && v == w.(notes := [], monitor := v.monitor, tracked := map[1 := Begun(K, 0)])
            && v.monitor.running && !v.monitor.paused && v.monitor.generation == 1 && v.monitor.tasks == map[1 := 0.0]
  {
    var u := Next(w, Hear);
    assert u.notes == [Note(TaskStarted(1, 1, 0.0), Some(Begun(K, 0)))];
    assert u.notes[1..] == [];
  }

  lemma FireEffect(w: World, cfg: M.Config)
    requires cfg.deadline == 120.0 && w.alarms == [] && |w.begun| == 1 && w.tracked == map[1 := Begun(K, 0)]
    requires w.monitor.running && !w.monitor.paused && w.monitor.generation == 1 && w.monitor.tasks == map[1 := 0.0]
    ensures Can(w, Fire(cfg, 200.0))
    ensures var v := Next(w, Fire(cfg, 200.0));
            v == w.(monitor := v.monitor, alarms := [Alarm(1, map[1 := Begun(K, 0)], 1)])
  {
    var overdue := M.Overdue(cfg, w.monitor, 200.0);
    assert 1 in overdue;
    assert overdue == {1};
    assert (map id | id in overdue && id in w.tracked :: w.tracked[id]) == map[1 := Begun(K, 0)];
  }

  /** The monitor has heard of the task, and the task is overdue. */
  lemma {:induction false} AlarmedRun(cfg: M.Config) returns (moves: seq<Move>, w: World)
    requires cfg.deadline == 120.0
    ensures Permitted(moves) && Run(moves) == w
    ensures Alone(w.s, Worker([], Running(0), 0, false)) && FirstAttempt(w.s, []) && w.s.restart.NoRestart? && w.s.flags == {}
    ensures w.generation == 1 && w.held == Some(Alarm(1, map[1 := Begun(K, 0)], 1)) && w.begun == [Begun(K, 0)]
  {
    moves, w := AnnouncedRun();
    HearEffect(w);
    moves, w := Push(moves, w, Hear);
    moves, w := Push(moves, w, Hear);
    FireEffect(w, cfg);
    moves, w := Push(moves, w, Fire(cfg, 200.0));
    moves, w := Push(moves, w, Receive);
  }

  /** Only worker `K`, with nothing to do. */
  predicate Idling(s: State) {
    && s.workers == map[K := Worker([], Idle, 0, false)] && s.current == 0 && s.pools == [[]] && s.next == 1
    && 8 !in s.clients && s.restart.NoRestart? && s.flags == {}
  }

  /** The first task is answered. */
  lemma {:induction false} AnsweredRun(cfg: M.Config) returns (moves: seq<Move>, w: World)
    requires cfg.deadline == 120.0
    ensures Permitted(moves) && Run(moves) == w && Idling(w.s)
    ensures w.generation == 1 && w.held == Some(Alarm(1, map[1 := Begun(K, 0)], 1)) && w.begun == [Begun(K, 0)]
  {
    moves, w := AlarmedRun(cfg);
    AnswerEffect(w.s, Worker([], Running(0), 0, false), Failed, false);
    moves, w := PushWorker(moves, w, Answer(K, Failed, false));
    moves, w := PushWorker(moves, w, Clear(K));
    assert w.s.workers == map[K := Worker([], Idle, 0, false)];
  }

  /** Another client's task reaches the idle worker. */
  lemma HandOver(s: State)
    requires Idling(s)
    ensures ClientEnabled(s, Submit(8, 0))
    ensures var s1 := AfterClient(s, Submit(8, 0));
            RouterEnabled(s1, Route(0, K)) && s1.workers == s.workers && s1.current == 0 && s1.restart == s.restart && s1.flags == {}
            && AfterRouter(s1, Route(0, K)).workers == map[K := Worker([1], Idle, 0, false)]
  {
    var s1 := AfterClient(s, Submit(8, 0));
    assert s1.pools[0] == [] + [1] == [1];
    assert AfterRouter(s1, Route(0, K)).workers[K].queue == [] + [1] == [1];
  }

  lemma {:induction false} SecondTaskRun(cfg: M.Config) returns (moves: seq<Move>, w: World)
    requires cfg.deadline == 120.0
    ensures Permitted(moves) && Run(moves) == w
    ensures w.s.workers == map[K := Worker([1], Idle, 0, false)] && w.s.current == 0 && w.s.restart.NoRestart? && w.s.flags == {}
    ensures w.generation == 1 && w.held == Some(Alarm(1, map[1 := Begun(K, 0)], 1)) && w.begun == [Begun(K, 0)]
  {
    moves, w := AnsweredRun(cfg);
    HandOver(w.s);
    moves, w := PushStep(moves, w, ByClient(Submit(8, 0)));
    moves, w := PushStep(moves, w, ByRouter(Route(0, K)));
  }

  lemma {:induction false} MovedOnRun(cfg: M.Config) returns (moves: seq<Move>, w: World)
    requires cfg.deadline == 120.0
    ensures Permitted(moves) && Run(moves) == w
    ensures w.s.workers == map[K := Worker([], Running(1), 0, false)] && w.s.current == 0 && w.s.restart.NoRestart? && w.s.flags == {}
    ensures w.generation == 1 && w.held == Some(Alarm(1, map[1 := Begun(K, 0)], 1)) && w.begun == [Begun(K, 0), Begun(K, 1)]
  {
    moves, w := SecondTaskRun(cfg);
    moves, w := PushWorker(moves, w, Fetch(K));
    assert [1][1..] == [] && w.s.workers == map[K := Worker([], Fetched(1), 0, false)];
    moves, w := PushBegin(moves, w, K);
    assert w.s.workers == map[K := Worker([], Running(1), 0, false)];
    assert w.begun == [Begun(K, 0)] + [Begun(K, 1)];
  }

  lemma SnapEffectOf(s: State)
    requires s.workers == map[K := Worker([], Running(1), 0, false)] && s.current == 0
    ensures Toxic(Deadline, {1}, InFlight(s)) == {1}
  {
    assert InFlight(s) == map[K := 1];
    assert K in InFlight(s) && Blames(Deadline, {1}, K.id);
  }

  /** The trigger raised for task 0 marks task 1, begun in the meantime. */
  lemma {:induction false} AnotherTaskCanBeMarked(cfg: M.Config) returns (moves: seq<Move>)
    requires cfg.deadline == 120.0
    ensures Permitted(moves) && Run(moves).s.flags == {1} && Run(moves).begun == [Begun(K, 0), Begun(K, 1)]
  {
    var w: World;
    moves, w := MovedOnRun(cfg);
    SnapEffectOf(w.s);
    moves, w := Push(moves, w, Act(TaskOverdue));
    assert w.s.restart.todo == {1};
    moves, w := PushStep(moves, w, ByRestart(Flag(1)));
  }
}
