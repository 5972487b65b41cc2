/** What holds of the monitor over whole runs: what it tracks, how soon it
    notices an overdue task, and when it may call a worker dead. */
module MonitorRuns {
  import opened Wrappers
  import opened WatchdogTypes
  import opened MonitorSpec

  const WEDGE_DEADLINE := 120.0
  const WATCHDOG_POLL_INTERVAL := 20.0
  const RPC_RESPONSE_TIMEOUT := WEDGE_DEADLINE + WATCHDOG_POLL_INTERVAL + 20.0
  const RESILIENT_RESPONSE_TIMEOUT := RPC_RESPONSE_TIMEOUT + 40.0

  /** One turn of the outer loop: the commands found in the queue, then a pass
      unless the monitor is paused. */
  datatype Beat = Beat(commands: seq<Command>, round: Round)

  predicate Awake(m: Monitor) { m.running && !m.paused }

  /** The state in which the pass of the last beat starts. */
  function Before(cfg: Config, beats: seq<Beat>): Monitor
    requires beats != []
    decreases |beats|, 0
  {
    Drained(Run(cfg, beats[..|beats| - 1]), beats[|beats| - 1].commands)
  }

  /** What the pass of the last beat does; nothing while paused. */
  function LastPass(cfg: Config, beats: seq<Beat>): Visited
    requires beats != []
    decreases |beats|, 1
  {
    var m := Before(cfg, beats);
    var r := beats[|beats| - 1].round;
    if Awake(m) && Lists(m, r.order) then Pass(cfg, m, r) else Visited(m, [], [], [], false)
  }

  /** The monitor after the given beats. */
  function Run(cfg: Config, beats: seq<Beat>): Monitor
    decreases |beats|, 2
  {
    if beats == [] then BOOT else LastPass(cfg, beats).m
  }

  /** If the last pass is made, its walk covers the guard dictionary. */
  ghost predicate FitsLast(cfg: Config, beats: seq<Beat>)
    requires beats != []
  {
    Awake(Before(cfg, beats)) ==> Lists(Before(cfg, beats), beats[|beats| - 1].round.order)
  }

  ghost predicate Fits(cfg: Config, beats: seq<Beat>) {
    forall n | 0 < n <= |beats| :: FitsLast(cfg, beats[..n])
  }

  /** The state in which the pass of beat `j` starts. */
  function At(cfg: Config, beats: seq<Beat>, j: nat): Monitor
    requires j < |beats|
  {
    Before(cfg, beats[..j + 1])
  }

  lemma AtPrefix(cfg: Config, beats: seq<Beat>, j: nat, n: nat)
    requires j < n <= |beats|
    ensures At(cfg, beats[..n], j) == At(cfg, beats, j) && beats[..n][j] == beats[j]
  {
    assert beats[..n][..j + 1] == beats[..j + 1];
  }

  lemma AtLast(cfg: Config, beats: seq<Beat>)
    requires beats != []
    ensures At(cfg, beats, |beats| - 1) == Before(cfg, beats)
    ensures Fits(cfg, beats) ==> FitsLast(cfg, beats)
  {
    assert beats[..|beats|] == beats;
  }

  lemma FitsPrefix(cfg: Config, beats: seq<Beat>, n: nat)
    requires Fits(cfg, beats) && n <= |beats|
    ensures Fits(cfg, beats[..n])
  {
    forall k | 0 < k <= n ensures FitsLast(cfg, beats[..n][..k]) {
      assert beats[..n][..k] == beats[..k];
    }
  }

  // ---- what is tracked ----

  /** Reading the messages backwards: the start time of the task that `w` is
      running in generation `g`, if its latest such message since the last
      root or pause command is a start. */
  function View(history: seq<Command>, g: int, w: int): Option<real>
    decreases |history|
  {
    if history == [] then None
    else
      var c := history[|history| - 1];
      if c.Root? || c.Pause? then None
      else if c.TaskStarted? && c.generation == g && c.worker == w then Some(c.startedAt)
      else if c.TaskFinished? && c.generation == g && c.worker == w then None
      else View(history[..|history| - 1], g, w)
  }

  /** The generation of the latest root command. */
  function CurrentGeneration(history: seq<Command>): int
    decreases |history|
  {
    if history == [] then 0
    else if history[|history| - 1].Root? then history[|history| - 1].generation
    else CurrentGeneration(history[..|history| - 1])
  }

  function History(beats: seq<Beat>): seq<Command>
    decreases |beats|
  {
    if beats == [] then [] else History(beats[..|beats| - 1]) + beats[|beats| - 1].commands
  }

  ghost predicate Tracks(m: Monitor, history: seq<Command>) {
    && m.generation == CurrentGeneration(history)
    && forall w :: (if w in m.tasks then Some(m.tasks[w]) else None) == View(history, m.generation, w)
  }

  lemma ConsumeTracks(m: Monitor, history: seq<Command>, c: Command)
    requires m.running && Tracks(m, history)
    ensures Tracks(Consume(m, c), history + [c])
  {
    assert (history + [c])[..|history|] == history;
    var m' := Consume(m, c);
    forall w ensures (if w in m'.tasks then Some(m'.tasks[w]) else None) == View(history + [c], m'.generation, w) {
      assert (if w in m.tasks then Some(m.tasks[w]) else None) == View(history, m.generation, w);
    }
  }

  lemma DrainTracks(m: Monitor, history: seq<Command>, cs: seq<Command>)
    requires Tracks(m, history) && Drained(m, cs).running
    ensures Tracks(Drained(m, cs), history + cs)
    decreases |cs|
  {
    if cs == [] {
      assert history + cs == history;
    } else if m.running {
      ConsumeTracks(m, history, cs[0]);
      assert (history + [cs[0]]) + cs[1..] == history + cs;
      DrainTracks(Consume(m, cs[0]), history + [cs[0]], cs[1..]);
    }
  }

  lemma PassKeeps(cfg: Config, m: Monitor, r: Round)
    requires Lists(m, r.order)
    ensures var m' := Pass(cfg, m, r).m;
            m'.tasks == m.tasks && m'.generation == m.generation && m'.running == m.running
  {
  }

  lemma StopIsFinal(m: Monitor, cs: seq<Command>)
    requires !m.running
    ensures Drained(m, cs) == m
  {
  }

  /** A running monitor's task table is exactly the view that the whole message
      history gives: whatever was interleaved, repeated, late or stale, worker
      `w` is tracked since `t` just when its latest current-generation message
      is a start at `t`. */
  lemma {:induction false} TaskTableIsTheView(cfg: Config, beats: seq<Beat>)
    requires Run(cfg, beats).running
    ensures Tracks(Run(cfg, beats), History(beats))
    decreases |beats|
  {
    if beats != [] {
      var front, last := beats[..|beats| - 1], beats[|beats| - 1];
      var m := Before(cfg, beats);
      if Awake(m) && Lists(m, last.round.order) {
        PassKeeps(cfg, m, last.round);
      }
      if !Run(cfg, front).running {
        StopIsFinal(Run(cfg, front), last.commands);
        assert false;
      }
      TaskTableIsTheView(cfg, front);
      DrainTracks(Run(cfg, front), History(front), last.commands);
    }
  }

  /** A finish message stamped with another generation, however late it comes,
      leaves the table as it was. */
  lemma {:induction false} LateFinishIsHarmless(history: seq<Command>, later: seq<Command>, g: int, stale: int, w: int, v: int)
    requires stale != g
    ensures View(history + [TaskFinished(stale, w)] + later, g, v) == View(history + later, g, v)
    decreases |later|
  {
    var long, short := history + [TaskFinished(stale, w)] + later, history + later;
    if later == [] {
      assert long[..|long| - 1] == history && short == history;
    } else {
      assert long[..|long| - 1] == history + [TaskFinished(stale, w)] + later[..|later| - 1];
      assert short[..|short| - 1] == history + later[..|later| - 1];
      LateFinishIsHarmless(history, later[..|later| - 1], g, stale, w, v);
    }
  }

  // ---- how soon an overdue task is noticed ----

  lemma DrainKeepsPoll(m: Monitor, cs: seq<Command>)
    ensures Drained(m, cs).lastPoll == m.lastPoll
    decreases |cs|
  {
    if cs != [] && m.running {
      DrainKeepsPoll(Consume(m, cs[0]), cs[1..]);
    }
  }

  /** From the pass of beat `k` to that of beat `n - 1` the monitor is awake when
      the pass starts and tracks `w` since `s`. */
  ghost predicate TracksThroughout(cfg: Config, beats: seq<Beat>, k: nat, n: nat, w: int, s: real)
    requires n <= |beats|
  {
    forall j: nat | k <= j < n ::
      Awake(At(cfg, beats, j)) && w in At(cfg, beats, j).tasks && At(cfg, beats, j).tasks[w] == s
  }

  /** None of those passes raises a trigger. */
  ghost predicate StaysAwake(cfg: Config, beats: seq<Beat>, k: nat, n: nat)
    requires n <= |beats|
  {
    forall j | k < j <= n :: Awake(Run(cfg, beats[..j]))
  }

  /** No deadline poll has been made after `b`, which is no earlier than the
      deadline of `w`'s task, and the last beat leaves the monitor awake although the
      task still runs: then there has been no such poll yet, and the pass came no
      later than one poll interval after `b`. */
  lemma {:induction false} QuietPass(cfg: Config, beats: seq<Beat>, w: int, s: real, b: real)
    requires beats != [] && Fits(cfg, beats) && cfg.pollInterval >= 0.0 && s + cfg.deadline <= b
    requires Awake(Before(cfg, beats)) && w in Before(cfg, beats).tasks && Before(cfg, beats).tasks[w] == s
    requires Run(cfg, beats[..|beats| - 1]).lastPoll <= b
    ensures beats[|beats| - 1].round.now > b + cfg.pollInterval ==>
              LastPass(cfg, beats).halt && Run(cfg, beats).paused &&
              exists e :: LastPass(cfg, beats).events == [e] && e.Trigger? && w in e.workers
    ensures Awake(Run(cfg, beats)) ==> Run(cfg, beats).lastPoll <= b
  {
    var m, r := Before(cfg, beats), beats[|beats| - 1].round;
    AtLast(cfg, beats);
    DrainKeepsPoll(Run(cfg, beats[..|beats| - 1]), beats[|beats| - 1].commands);
    var v := Open(cfg, m, r.now, r.rootAlive);
    if r.now > s + cfg.deadline {
      assert w in Overdue(cfg, m, r.now);
    }
    assert LastPass(cfg, beats) == Pass(cfg, m, r);
    if v.halt {
      assert LastPass(cfg, beats) == v && v.events == [v.events[0]];
    } else {
      assert r.now <= s + cfg.deadline || r.now - m.lastPoll < cfg.pollInterval;
    }
  }

  /** The part of it that carries from one beat to the next. */
  lemma QuietPoll(cfg: Config, beats: seq<Beat>, n: nat, w: int, s: real, b: real)
    requires n < |beats| && Fits(cfg, beats) && cfg.pollInterval >= 0.0 && s + cfg.deadline <= b
    requires Awake(At(cfg, beats, n)) && w in At(cfg, beats, n).tasks && At(cfg, beats, n).tasks[w] == s
    requires Run(cfg, beats[..n]).lastPoll <= b && Awake(Run(cfg, beats[..n + 1]))
    ensures Run(cfg, beats[..n + 1]).lastPoll <= b
  {
    var upTo := beats[..n + 1];
    FitsPrefix(cfg, beats, n + 1);
    assert upTo[..n] == beats[..n];
    assert At(cfg, beats, n) == Before(cfg, upTo);
    QuietPass(cfg, upTo, w, s, b);
  }

  lemma {:induction false} Carry(p: nat -> bool, k: nat, n: nat)
    requires k <= n && p(k) && forall j: nat | k <= j < n && p(j) :: p(j + 1)
    ensures p(n)
    decreases n
  {
    if k < n {
      Carry(p, k, n - 1);
    }
  }

  lemma PollsStayEarly(cfg: Config, beats: seq<Beat>, k: nat, n: nat, w: int, s: real, b: real)
    requires Fits(cfg, beats) && k <= n <= |beats| && cfg.pollInterval >= 0.0 && s + cfg.deadline <= b
    requires TracksThroughout(cfg, beats, k, n, w, s) && StaysAwake(cfg, beats, k, n)
    requires Run(cfg, beats[..k]).lastPoll <= b
    ensures Run(cfg, beats[..n]).lastPoll <= b
  {
    var early := (j: nat) => j <= |beats| && Run(cfg, beats[..j]).lastPoll <= b;
    forall j: nat | k <= j < n && early(j) ensures early(j + 1) {
      QuietPoll(cfg, beats, j, w, s, b);
    }
    Carry(early, k, n);
  }

  lemma PassPolls(cfg: Config, m: Monitor, r: Round)
    requires Lists(m, r.order)
    ensures Pass(cfg, m, r).m.lastPoll == m.lastPoll || Pass(cfg, m, r).m.lastPoll == r.now
  {
  }

  /** The last deadline poll was made at one of the passes so far, if at all. */
  lemma {:induction false} PollIsPast(cfg: Config, beats: seq<Beat>, t: real)
    requires 0.0 <= t && forall j | 0 <= j < |beats| :: beats[j].round.now <= t
    ensures Run(cfg, beats).lastPoll <= t
    decreases |beats|
  {
    if beats != [] {
      var front, last := beats[..|beats| - 1], beats[|beats| - 1];
      PollIsPast(cfg, front, t);
      DrainKeepsPoll(Run(cfg, front), last.commands);
      var m := Before(cfg, beats);
      if Awake(m) && Lists(m, last.round.order) {
        PassPolls(cfg, m, last.round);
      }
    }
  }

  /** The clock never goes back, and passes from beat `k` on are at most `d` apart. */
  ghost predicate Paced(beats: seq<Beat>, k: nat, d: real) {
    && (forall i, j | 0 <= i < j < |beats| :: beats[i].round.now <= beats[j].round.now)
    && (forall j | 0 <= j < |beats| :: beats[j].round.now >= 0.0)
    && (forall j | k < j < |beats| :: beats[j].round.now <= beats[j - 1].round.now + d)
  }

  function Later(a: real, b: real): real { if a < b then b else a }

  /** Detection latency, for every task however late its start message is taken.
      From beat `k` on worker `w` is tracked with start time `s` and the monitor
      stays awake; passes are at most `d` apart.  Then the first pass more than one
      poll interval later than both the deadline and the pass of beat `k` comes at
      most `d` after that moment and raises a trigger that names `w`. */
  lemma {:induction false} OverdueTaskIsDetected(cfg: Config, beats: seq<Beat>, k: nat, w: int, s: real, d: real)
    requires Fits(cfg, beats) && k < |beats| && cfg.pollInterval >= 0.0 && d >= 0.0 && Paced(beats, k, d)
    requires TracksThroughout(cfg, beats, k, |beats|, w, s) && StaysAwake(cfg, beats, k, |beats| - 1)
    requires var limit := Later(s + cfg.deadline, beats[k].round.now) + cfg.pollInterval;
             beats[|beats| - 1].round.now > limit && forall j | k <= j < |beats| - 1 :: beats[j].round.now <= limit
    ensures beats[|beats| - 1].round.now <= Later(s + cfg.deadline, beats[k].round.now) + cfg.pollInterval + d
    ensures exists e :: LastPass(cfg, beats).events == [e] && e.Trigger? && w in e.workers
    ensures Run(cfg, beats).paused
  {
    var n, b := |beats| - 1, Later(s + cfg.deadline, beats[k].round.now);
    PollIsPast(cfg, beats[..k], b);
    PollsStayEarly(cfg, beats, k, n, w, s, b);
    AtLast(cfg, beats);
    QuietPass(cfg, beats, w, s, b);
  }

  /** With the shipped constants, a monitor that takes the start message before the
      deadline has passed and passes at least every 20 s triggers before an RPC wait
      begun at the task's start can expire, and one that passes every 60 s before
      the resilient wait can. */
  lemma ShippedWaitsOutliveDetection(cfg: Config, beats: seq<Beat>, k: nat, w: int, s: real, d: real)
    requires cfg.deadline == WEDGE_DEADLINE && cfg.pollInterval == WATCHDOG_POLL_INTERVAL
    requires Fits(cfg, beats) && k < |beats| && d >= 0.0 && Paced(beats, k, d)
    requires TracksThroughout(cfg, beats, k, |beats|, w, s) && StaysAwake(cfg, beats, k, |beats| - 1)
    requires beats[k].round.now <= s + WEDGE_DEADLINE
    requires var limit := s + WEDGE_DEADLINE + WATCHDOG_POLL_INTERVAL;
             beats[|beats| - 1].round.now > limit && forall j | k <= j < |beats| - 1 :: beats[j].round.now <= limit
    ensures cfg.deadline == 120.0 && cfg.pollInterval == 20.0
    ensures d <= 20.0 ==> beats[|beats| - 1].round.now <= s + RPC_RESPONSE_TIMEOUT == s + 160.0
    ensures d <= 60.0 ==> beats[|beats| - 1].round.now <= s + RESILIENT_RESPONSE_TIMEOUT == s + 200.0
    ensures exists e :: LastPass(cfg, beats).events == [e] && e.Trigger? && w in e.workers
  {
    OverdueTaskIsDetected(cfg, beats, k, w, s, d);
  }

  // ---- when a worker may be called dead ----

  /** A command that makes the monitor of generation `g` forget what is missing. */
  predicate Resets(g: int, c: Command) { c.Pause? || c.Root? || (c.Guards? && c.generation == g) }

  /** In state `m` the guarded process of `w` is seen neither alive nor rebound. */
  predicate Gone(m: Monitor, w: int, s: Sight) {
    w in m.guards && !s.alive && !Rebinds(m.guards[w], s)
  }

  /** The pass of beat `j` is made, in generation `g`, and finds `w` gone. */
  predicate GoneAt(cfg: Config, beats: seq<Beat>, j: nat, w: int, g: int)
    requires j < |beats|
  {
    var m := At(cfg, beats, j);
    Awake(m) && m.generation == g && Gone(m, w, beats[j].round.sight(w))
  }

  /** From the pass of beat `i` to that of the last one, the monitor made every
      pass in one generation, was told nothing that resets its record, and every
      pass found the process of `w` gone. */
  ghost predicate GoneSince(cfg: Config, beats: seq<Beat>, i: nat, w: int) {
    && i < |beats|
    && (forall j: nat | i <= j < |beats| :: GoneAt(cfg, beats, j, w, Before(cfg, beats).generation))
    && (forall j, c | i < j < |beats| && c in beats[j].commands :: !Resets(Before(cfg, beats).generation, c))
  }

  lemma DrainForgetsOrKeeps(m: Monitor, cs: seq<Command>)
    requires Awake(Drained(m, cs))
    ensures Drained(m, cs).missing == map[] ||
            (&& Awake(m) && Drained(m, cs).missing == m.missing && Drained(m, cs).guards == m.guards
             && Drained(m, cs).generation == m.generation && forall c | c in cs :: !Resets(m.generation, c))
    decreases |cs|
  {
    if cs != [] && m.running {
      DrainForgetsOrKeeps(Consume(m, cs[0]), cs[1..]);
      if Drained(m, cs).missing != map[] {
        assert Consume(m, cs[0]).missing == Drained(m, cs).missing;
        assert forall c | c in cs :: c == cs[0] || c in cs[1..];
      }
    }
  }

  /** What one visit that raises no trigger does to the record of `w`. */
  lemma VisitRecords(cfg: Config, m: Monitor, now: real, v: int, s: Sight, w: int)
    requires v in m.guards && !Visit(cfg, m, now, v, s).halt
    ensures var m' := Visit(cfg, m, now, v, s).m;
            if v != w then
              && (w in m'.missing <==> w in m.missing) && (w in m.missing ==> m'.missing[w] == m.missing[w])
              && (w in m.guards ==> m'.guards[w] == m.guards[w])
            else
              w in m'.missing ==>
                Gone(m, w, s) && m'.missing[w] == (if w in m.missing then m.missing[w] else now)
  {
  }

  /** After a scan that raised no trigger, whatever is recorded missing was found
      gone, and was recorded before or is recorded now. */
  lemma {:induction false} ScanRecords(cfg: Config, m: Monitor, now: real, order: seq<int>, sight: int -> Sight, w: int)
    requires forall v | v in order :: v in m.guards
    requires forall i, j | 0 <= i < j < |order| :: order[i] != order[j]
    requires !Scan(cfg, m, now, order, sight).halt
    ensures w !in order ==>
              var m' := Scan(cfg, m, now, order, sight).m;
              (w in m'.missing <==> w in m.missing) && (w in m.missing ==> m'.missing[w] == m.missing[w])
    ensures w in order && w in Scan(cfg, m, now, order, sight).m.missing ==>
              var m' := Scan(cfg, m, now, order, sight).m;
              Gone(m, w, sight(w)) && m'.missing[w] == (if w in m.missing then m.missing[w] else now)
    decreases |order|
  {
    if order != [] {
      VisitRecords(cfg, m, now, order[0], sight(order[0]), w);
      var m' := Visit(cfg, m, now, order[0], sight(order[0])).m;
      ScanRecords(cfg, m', now, order[1..], sight, w);
      assert w in order <==> w == order[0] || w in order[1..];
      if w == order[0] {
        assert w !in order[1..];
      }
    }
  }

  predicate Accused(cfg: Config, m: Monitor, now: real, w: int, s: Sight) {
    w in m.tasks && Gone(m, w, s) && now - (if w in m.missing then m.missing[w] else now) >= cfg.grace
  }

  lemma VisitAccuses(cfg: Config, m: Monitor, now: real, v: int, s: Sight, e: Event)
    requires v in m.guards
    requires e in Visit(cfg, m, now, v, s).events && e.Trigger? && e.kind == WorkerDeath
    ensures e.generation == m.generation && e.workers == {v} && Accused(cfg, m, now, v, s)
  {
  }

  /** A worker-death trigger is raised only for a tracked worker that is gone and
      was recorded missing at least the grace period ago. */
  lemma {:induction false} ScanAccuses(cfg: Config, m: Monitor, now: real, order: seq<int>, sight: int -> Sight, e: Event)
    requires forall v | v in order :: v in m.guards
    requires forall i, j | 0 <= i < j < |order| :: order[i] != order[j]
    requires e in Scan(cfg, m, now, order, sight).events && e.Trigger? && e.kind == WorkerDeath
    ensures e.generation == m.generation
    ensures exists w :: e.workers == {w} && w in order && Accused(cfg, m, now, w, sight(w))
    decreases |order|
  {
    var v := Visit(cfg, m, now, order[0], sight(order[0]));
    if e in v.events {
      VisitAccuses(cfg, m, now, order[0], sight(order[0]), e);
    } else {
      var rest := order[1..];
      ScanAccuses(cfg, v.m, now, rest, sight, e);
      var w :| e.workers == {w} && w in rest && Accused(cfg, v.m, now, w, sight(w));
      assert w != order[0];
      VisitRecords(cfg, m, now, order[0], sight(order[0]), w);
    }
  }

  /** While the monitor is awake, each recorded time is that of a pass since which
      the worker has been gone without a break. */
  ghost predicate Recorded(cfg: Config, beats: seq<Beat>) {
    Awake(Run(cfg, beats)) ==>
      forall w | w in Run(cfg, beats).missing ::
        exists i: nat :: GoneSince(cfg, beats, i, w) && beats[i].round.now == Run(cfg, beats).missing[w]
  }

  /** Extending an unbroken absence by one more beat. */
  lemma {:induction false} ExtendAbsence(cfg: Config, beats: seq<Beat>, i: nat, w: int)
    requires |beats| > 1 && GoneSince(cfg, beats[..|beats| - 1], i, w)
    requires Awake(Before(cfg, beats)) && Gone(Before(cfg, beats), w, beats[|beats| - 1].round.sight(w))
    requires Before(cfg, beats).generation == Run(cfg, beats[..|beats| - 1]).generation
    requires Run(cfg, beats[..|beats| - 1]).generation == Before(cfg, beats[..|beats| - 1]).generation
    requires forall c | c in beats[|beats| - 1].commands :: !Resets(Before(cfg, beats).generation, c)
    ensures GoneSince(cfg, beats, i, w)
  {
    var n := |beats| - 1;
    var front := beats[..n];
    forall j: nat | i <= j < |beats| ensures GoneAt(cfg, beats, j, w, Before(cfg, beats).generation) {
      if j < n {
        assert GoneAt(cfg, front, j, w, Before(cfg, front).generation);
        AtPrefix(cfg, beats, j, n);
      } else {
        AtLast(cfg, beats);
      }
    }
    forall j, c | i < j < |beats| && c in beats[j].commands ensures !Resets(Before(cfg, beats).generation, c) {
      if j < |beats| - 1 {
        assert front[j] == beats[j];
      }
    }
  }

  /** In the state a pass starts from, `w` was recorded missing at time `at` or
      not at all; now it is found gone.  Then it has been gone since the pass
      made at that time, or since this one. */
  lemma {:induction false} AbsenceReaches(cfg: Config, beats: seq<Beat>, w: int)
    requires beats != [] && Fits(cfg, beats) && Recorded(cfg, beats[..|beats| - 1])
    requires Awake(Before(cfg, beats)) && Gone(Before(cfg, beats), w, beats[|beats| - 1].round.sight(w))
    ensures exists i: nat :: GoneSince(cfg, beats, i, w) && beats[i].round.now ==
              (if w in Before(cfg, beats).missing then Before(cfg, beats).missing[w] else beats[|beats| - 1].round.now)
  {
    var n := |beats| - 1;
    var front, m := beats[..n], Before(cfg, beats);
    AtLast(cfg, beats);
    DrainForgetsOrKeeps(Run(cfg, front), beats[n].commands);
    if w in m.missing {
      var i: nat :| GoneSince(cfg, front, i, w) && front[i].round.now == Run(cfg, front).missing[w];
      FitsPrefix(cfg, beats, n);
      ExtendAbsence(cfg, beats, i, w);
    } else {
      assert GoneSince(cfg, beats, n, w);
    }
  }

  lemma {:induction false} RecordsAreFaithful(cfg: Config, beats: seq<Beat>)
    requires Fits(cfg, beats)
    ensures Recorded(cfg, beats)
    decreases |beats|
  {
    if beats != [] && Awake(Run(cfg, beats)) {
      var n := |beats| - 1;
      var m, r := Before(cfg, beats), beats[n].round;
      FitsPrefix(cfg, beats, n);
      RecordsAreFaithful(cfg, beats[..n]);
      AtLast(cfg, beats);
      assert Awake(m) by {
        if !Awake(m) { assert Run(cfg, beats) == m; }
      }
      var v := Open(cfg, m, r.now, r.rootAlive);
      forall w | w in Run(cfg, beats).missing
        ensures exists i: nat :: GoneSince(cfg, beats, i, w) && beats[i].round.now == Run(cfg, beats).missing[w]
      {
        MissingAreGuarded(cfg, beats);
        assert !v.halt && !Scan(cfg, v.m, r.now, r.order, r.sight).halt;
        ScanRecords(cfg, v.m, r.now, r.order, r.sight, w);
        assert w in r.order;
        AbsenceReaches(cfg, beats, w);
      }
    }
  }

  lemma DrainMissing(m: Monitor, cs: seq<Command>)
    requires m.missing.Keys <= m.guards.Keys
    ensures Drained(m, cs).missing.Keys <= Drained(m, cs).guards.Keys
    decreases |cs|
  {
    if cs != [] && m.running {
      DrainMissing(Consume(m, cs[0]), cs[1..]);
    }
  }

  lemma ScanMissing(cfg: Config, m: Monitor, now: real, order: seq<int>, sight: int -> Sight)
    requires forall w | w in order :: w in m.guards
    requires m.missing.Keys <= m.guards.Keys
    ensures var m' := Scan(cfg, m, now, order, sight).m; m'.missing.Keys <= m'.guards.Keys
    decreases |order|
  {
    if order != [] && !Visit(cfg, m, now, order[0], sight(order[0])).halt {
      ScanMissing(cfg, Visit(cfg, m, now, order[0], sight(order[0])).m, now, order[1..], sight);
    }
  }

  lemma MissingAreGuarded(cfg: Config, beats: seq<Beat>)
    ensures Run(cfg, beats).missing.Keys <= Run(cfg, beats).guards.Keys
    decreases |beats|
  {
    if beats != [] {
      var m, r := Before(cfg, beats), beats[|beats| - 1].round;
      MissingAreGuarded(cfg, beats[..|beats| - 1]);
      DrainMissing(Run(cfg, beats[..|beats| - 1]), beats[|beats| - 1].commands);
      if Awake(m) && Lists(m, r.order) && !Open(cfg, m, r.now, r.rootAlive).halt {
        ScanMissing(cfg, Open(cfg, m, r.now, r.rootAlive).m, r.now, r.order, r.sight);
      }
    }
  }

  /** A worker-death trigger is justified by the whole run: the accused worker has
      a task in the current generation, by its own latest message, and over a run
      of passes that no reset interrupts and that lasted at least the grace period
      no pass found its process alive or completed a rebind. */
  lemma {:induction false} WorkerDeathIsJustified(cfg: Config, beats: seq<Beat>, e: Event)
    requires beats != [] && Fits(cfg, beats)
    requires e in LastPass(cfg, beats).events && e.Trigger? && e.kind == WorkerDeath
    ensures e.generation == CurrentGeneration(History(beats))
    ensures exists w, i: nat :: e.workers == {w} && View(History(beats), e.generation, w).Some? &&
              GoneSince(cfg, beats, i, w) && beats[|beats| - 1].round.now - beats[i].round.now >= cfg.grace
  {
    var n := |beats| - 1;
    var m, r := Before(cfg, beats), beats[n].round;
    AtLast(cfg, beats);
    var v := Open(cfg, m, r.now, r.rootAlive);
    assert !v.halt;
    ScanAccuses(cfg, v.m, r.now, r.order, r.sight, e);
    var w :| e.workers == {w} && w in r.order && Accused(cfg, v.m, r.now, w, r.sight(w));
    FitsPrefix(cfg, beats, n);
    RecordsAreFaithful(cfg, beats[..n]);
    AbsenceReaches(cfg, beats, w);
    PassKeeps(cfg, m, r);
    TaskTableIsTheView(cfg, beats);
    var i: nat :| GoneSince(cfg, beats, i, w) && beats[i].round.now ==
               (if w in m.missing then m.missing[w] else r.now);
    assert View(History(beats), e.generation, w).Some?;
  }
}
