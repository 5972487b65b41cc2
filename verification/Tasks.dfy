/** Tasks through crashes and restarts, as a transition system: resilient
    clients submit attempts, each pool's router hands them out, workers run and
    answer them, and a restart marks the culprits, poisons the workers and drops
    the pending requests.  Old pools live on beside the current one.  Every step
    is one action of one thread, so a run is any interleaving. */
module Tasks {
  import opened Wrappers
  import opened WatchdogTypes

  /** A worker of one pool. */
  datatype Key = Key(pool: nat, id: int)

  /** What a handler returns, as far as the bookkeeping after it looks. */
  datatype Value = Null | Truth | Number | Text | List | Object(diagnostics: Option<Value>)

  /** What is put in a task's result queue. */
  datatype Reply =
    | Done(value: Value)
    | Interrupted(toxic: bool, reason: Option<Reason>)
    | Broken           // a pipe or connection error
    | TimedOut         // the worker's own deadline
    | RpcTimedOut
    | Failed           // any other error

  /** Where a worker's thread is.  `current_task` shows the task from Running to
      Draining.  Told: the poison has been read and the task's mark looked up. */
  datatype Mode =
    | Idle
    | Fetched(task: int)
    | Running(task: int)
    | Replied(task: int)
    | Told(task: int, toxic: bool)
    | Draining(task: int)
    | Exited

  /** `poison`: sentinels waiting among its notifications; `woken`: its pending
      request has been handed a service-unavailable item. */
  datatype Worker = Worker(queue: seq<int>, mode: Mode, poison: nat, woken: bool)

  datatype Outcome = Returned | Rejected(reason: Option<Reason>) | Late | Error

  /** One call of the resilient client. */
  datatype Client = Waiting(task: int) | Retrying | Finished(outcome: Outcome)

  datatype Place = InPool(pool: nat) | InQueue(k: Key) | InHand(k: Key) | Answered

  /** The restart in progress: what it saw in the slots, which tasks it has yet to
      mark, and the one it has flagged but not yet given the reason. */
  datatype Restart =
    | NoRestart
    | Snapped(reason: Reason, todo: set<int>, half: Option<int>, pairs: map<Key, int>)
    | Poisoned

  datatype State = State(
    next: int, pools: seq<seq<int>>, workers: map<Key, Worker>, current: nat,
    flags: set<int>, reasons: map<int, Reason>,
    replies: map<int, seq<Reply>>, clients: map<int, Client>, restart: Restart,
    // history: where each task is, at which successes the event sink raised, each client's attempts
    place: map<int, Place>, sunk: set<int>, attempts: map<int, seq<int>>)

  const INIT := State(0, [], map[], 0, {}, map[], map[], map[], NoRestart, map[], {}, map[])

  datatype ClientStep = Submit(job: int, pool: nat) | Consume(job: int) | Expire(job: int)

  datatype RouterStep = Route(pool: nat, k: Key) | Reject(pool: nat)

  datatype WorkerStep =
    | Fetch(k: Key)
    | Begin(k: Key)
    | Answer(k: Key, reply: Reply, sinkRaises: bool)
    | Clear(k: Key)
    | Abort(k: Key)
    | Interrupt(k: Key)
    | DrainOne(k: Key)
    | Exit(k: Key)

  datatype RestartStep =
    | Snapshot(kind: Kind, reason: Reason, culprits: set<int>)
    | Flag(task: int)
    | Explain
    | Poison
    | Teardown(waiting: set<Key>)
    | NewPool(size: nat)

  datatype Step = ByClient(c: ClientStep) | ByRouter(r: RouterStep) | ByWorker(w: WorkerStep) | ByRestart(x: RestartStep)

  // ---- reading a reply ----

  predicate StartsAt(s: string, i: nat, t: string) { i + |t| <= |s| && s[i..i + |t|] == t }

  function LowerChar(c: char): char { if 'A' <= c <= 'Z' then c - 'A' + 'a' else c }

  function Lower(s: string): string { seq(|s|, i requires 0 <= i < |s| => LowerChar(s[i])) }

  /** The deadline is read back from the reason's text; a line the server printed can mention it too. */
  predicate ReadsAsDeadline(reason: Option<Reason>) {
    reason.Some? &&
    match reason.value
    case TaskOverdue => true
    case StderrLine(line) =>
      (exists i: nat | i <= |line| :: StartsAt(Lower(line), i, "deadline")) || StartsAt(Lower(line), 0, "task exceeded ")
    case _ => false
  }

  /** What the resilient client does with a reply; None means it submits again. */
  function Decide(r: Reply): Option<Outcome> {
    match r
    case Done(_) => Some(Returned)
    case Interrupted(toxic, reason) =>
      if !toxic then None else if ReadsAsDeadline(reason) then Some(Late) else Some(Rejected(reason))
    case Broken => None
    case TimedOut => Some(Late)
    case RpcTimedOut => Some(Late)
    case Failed => Some(Error)
  }

  // ---- the bookkeeping after a success ----

  /** What has a length. */
  predicate Sized(v: Value) { v.Text? || v.List? || v.Object? }

  /** Counting the diagnostics of the result raises. */
  predicate CountRaises(v: Value) { v.Object? && v.diagnostics.Some? && !Sized(v.diagnostics.value) }

  /** The reply that the error handler puts after this one: the bookkeeping cannot
      count the diagnostics, or the event sink raises the time-out that passes by
      ordinary handlers. */
  function Second(r: Reply, sinkRaises: bool): Option<Reply> {
    if !r.Done? then None
    else if CountRaises(r.value) then Some(Failed)
    else if sinkRaises then Some(TimedOut)
    else None
  }

  /** All that the task gets. */
  function WithSecond(r: Reply, sinkRaises: bool): (rs: seq<Reply>)
    ensures rs != [] && rs[0] == r
  {
    var second := Second(r, sinkRaises);
    if second.Some? then [r, second.value] else [r]
  }

  // ---- attribution ----

  /** These triggers name their culprits; the others blame whatever is in flight. */
  predicate Precise(kind: Kind) {
    kind.Deadline? || kind.Memory? || kind.WorkerDeath? || kind.WatchdogDeath?
  }

  predicate Blames(kind: Kind, culprits: set<int>, id: int) { Precise(kind) ==> id in culprits }

  /** What `current_task` shows. */
  function Slot(m: Mode): Option<int> {
    match m
    case Running(t) => Some(t)
    case Replied(t) => Some(t)
    case Told(t, _) => Some(t)
    case Draining(t) => Some(t)
    case _ => None
  }

  /** The slots of the current pool that show a task. */
  function InFlight(s: State): map<Key, int> {
    map k | k in s.workers && k.pool == s.current && Slot(s.workers[k].mode).Some? :: Slot(s.workers[k].mode).value
  }

  /** The tasks in the slots of blamed workers. */
  function Toxic(kind: Kind, culprits: set<int>, pairs: map<Key, int>): set<int> {
    set k | k in pairs && Blames(kind, culprits, k.id) :: pairs[k]
  }

  // ---- steps ----

  predicate ClientEnabled(s: State, a: ClientStep) {
    match a
    case Submit(j, p) => p < |s.pools| && (j in s.clients ==> s.clients[j].Retrying?)
    case Consume(j) =>
      j in s.clients && s.clients[j].Waiting? && s.clients[j].task in s.replies && s.replies[s.clients[j].task] != []
    case Expire(j) => j in s.clients && s.clients[j].Waiting?
  }

  function AttemptsOf(s: State, j: int): seq<int> { if j in s.attempts then s.attempts[j] else [] }

  function AfterClient(s: State, a: ClientStep): State
    requires ClientEnabled(s, a)
  {
    match a
    case Submit(j, p) =>
      var t := s.next;
      s.(next := t + 1, pools := s.pools[p := s.pools[p] + [t]], replies := s.replies[t := []],
         clients := s.clients[j := Waiting(t)], place := s.place[t := InPool(p)],
         attempts := s.attempts[j := AttemptsOf(s, j) + [t]])
    case Consume(j) =>
      var d := Decide(s.replies[s.clients[j].task][0]);
      s.(clients := s.clients[j := if d.Some? then Finished(d.value) else Retrying])
    case Expire(j) => s.(clients := s.clients[j := Finished(Late)])
  }

  predicate RouterEnabled(s: State, a: RouterStep) {
    a.pool < |s.pools| && s.pools[a.pool] != [] && s.pools[a.pool][0] in s.replies &&
    match a
    case Route(p, k) => k in s.workers && k.pool == p
    case Reject(_) => true
  }

  function AddReplies(s: State, t: int, rs: seq<Reply>): State
    requires t in s.replies
  {
    s.(replies := s.replies[t := s.replies[t] + rs], place := s.place[t := Answered])
  }

  function AfterRouter(s: State, a: RouterStep): State
    requires RouterEnabled(s, a)
  {
    var t, rest := s.pools[a.pool][0], s.pools[a.pool := s.pools[a.pool][1..]];
    match a
    case Route(_, k) =>
      s.(pools := rest, workers := s.workers[k := s.workers[k].(queue := s.workers[k].queue + [t])],
         place := s.place[t := InQueue(k)])
    case Reject(_) => AddReplies(s.(pools := rest), t, [Failed])
  }

  predicate WorkerEnabled(s: State, a: WorkerStep) {
    a.k in s.workers &&
    var w := s.workers[a.k];
    match a
    case Fetch(_) => w.mode.Idle? && w.queue != []
    case Begin(_) => w.mode.Fetched?
    case Answer(_, r, sinkRaises) =>
      w.mode.Running? && w.mode.task in s.replies && !r.Interrupted? && (sinkRaises ==> r.Done?)
    case Clear(_) => w.mode.Replied?
    case Abort(_) => w.mode.Running? && (w.poison > 0 || w.woken)
    case Interrupt(_) => w.mode.Told? && w.mode.task in s.replies
    case DrainOne(_) => w.mode.Draining? && w.queue != [] && w.queue[0] in s.replies
    case Exit(_) => w.mode.Draining? && w.queue == []
  }

  function ReasonOf(s: State, t: int): Option<Reason> { if t in s.reasons then Some(s.reasons[t]) else None }

  function AfterWorker(s: State, a: WorkerStep): (s': State)
    requires WorkerEnabled(s, a)
    ensures s'.flags == s.flags && s'.reasons == s.reasons && s'.restart == s.restart && s'.clients == s.clients && s'.attempts == s.attempts
  {
    var w := s.workers[a.k];
    match a
    case Fetch(k) =>
      s.(workers := s.workers[k := w.(queue := w.queue[1..], mode := Fetched(w.queue[0]))],
         place := s.place[w.queue[0] := InHand(k)])
    case Begin(k) => s.(workers := s.workers[k := w.(mode := Running(w.mode.task))])
    // both replies at once: between them the thread does nothing that another one sees
    case Answer(k, r, sinkRaises) =>
      AddReplies(s.(workers := s.workers[k := w.(mode := Replied(w.mode.task), woken := false)],
                    sunk := if sinkRaises then s.sunk + {w.mode.task} else s.sunk),
                 w.mode.task, WithSecond(r, sinkRaises))
    case Clear(k) => s.(workers := s.workers[k := w.(mode := Idle)])
    case Abort(k) =>
      s.(workers := s.workers[k := w.(mode := Told(w.mode.task, w.mode.task in s.flags), woken := false,
                                      poison := if w.poison > 0 then w.poison - 1 else 0)])
    case Interrupt(k) =>
      AddReplies(s.(workers := s.workers[k := w.(mode := Draining(w.mode.task))]),
                 w.mode.task, [Interrupted(w.mode.toxic, ReasonOf(s, w.mode.task))])
    case DrainOne(k) =>
      AddReplies(s.(workers := s.workers[k := w.(queue := w.queue[1..])]), w.queue[0], [Interrupted(false, None)])
    case Exit(k) => s.(workers := s.workers[k := w.(mode := Exited)])
  }

  predicate RestartEnabled(s: State, a: RestartStep) {
    match a
    case Snapshot(_, _, _) => s.restart.NoRestart?
    case Flag(t) => s.restart.Snapped? && s.restart.half.None? && t in s.restart.todo
    case Explain => s.restart.Snapped? && s.restart.half.Some?
    case Poison => s.restart.Snapped? && s.restart.half.None? && s.restart.todo == {}
    case Teardown(ks) => s.restart.Poisoned? && forall k | k in ks :: k in s.workers && s.workers[k].mode.Running?
    case NewPool(_) => true
  }

  function AfterRestart(s: State, a: RestartStep): State
    requires RestartEnabled(s, a)
  {
    match a
    case Snapshot(kind, reason, culprits) =>
      s.(restart := Snapped(reason, Toxic(kind, culprits, InFlight(s)), None, InFlight(s)))
    case Flag(t) => s.(flags := s.flags + {t}, restart := s.restart.(todo := s.restart.todo - {t}, half := Some(t)))
    case Explain =>
      s.(reasons := s.reasons[s.restart.half.value := s.restart.reason], restart := s.restart.(half := None))
    case Poison =>
      s.(workers := map k | k in s.workers ::
                      if k in s.restart.pairs then s.workers[k].(poison := s.workers[k].poison + 1) else s.workers[k],
         restart := Poisoned)
    case Teardown(ks) =>
      s.(workers := map k | k in s.workers :: if k in ks then s.workers[k].(woken := true) else s.workers[k],
         restart := NoRestart)
    case NewPool(n) =>
      var p := |s.pools|;
      s.(pools := s.pools + [[]], current := p,
         workers := s.workers + map i | 1 <= i <= n :: Key(p, i) := Worker([], Idle, 0, false))
  }

  predicate Enabled(s: State, a: Step) {
    match a
    case ByClient(c) => ClientEnabled(s, c)
    case ByRouter(r) => RouterEnabled(s, r)
    case ByWorker(w) => WorkerEnabled(s, w)
    case ByRestart(x) => RestartEnabled(s, x)
  }

  function After(s: State, a: Step): State
    requires Enabled(s, a)
  {
    match a
    case ByClient(c) => AfterClient(s, c)
    case ByRouter(r) => AfterRouter(s, r)
    case ByWorker(w) => AfterWorker(s, w)
    case ByRestart(x) => AfterRestart(s, x)
  }

  // ---- runs ----

  ghost predicate Legal(steps: seq<Step>)
    decreases |steps|, 0
  {
    steps != [] ==>
      Legal(steps[..|steps| - 1]) && Enabled(Exec(steps[..|steps| - 1]), steps[|steps| - 1])
  }

  ghost function Exec(steps: seq<Step>): State
    requires Legal(steps)
    decreases |steps|, 1
  {
    if steps == [] then INIT else After(Exec(steps[..|steps| - 1]), steps[|steps| - 1])
  }
}
