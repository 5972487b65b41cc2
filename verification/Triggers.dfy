/** What the monitor's triggers mean: why each of them is raised, whom it names, and
    that nothing which should raise one is passed over. */
module Triggers {
  import opened Wrappers
  import opened WatchdogTypes
  import opened MonitorSpec
  import opened MonitorRuns

  // ---- one guarded worker ----

  /** What a pass must have seen of worker `w` to accuse it for this reason. */
  predicate Evidence(cfg: Config, m: Monitor, now: real, w: int, s: Sight, reason: Reason) {
    w in m.guards &&
    var g := m.guards[w];
    match reason
    case HitHardLimit => g.cgroup != "" && s.oom.Some? && s.oom.value > g.oomKill
    case OverSoftLimit => cfg.softLimit.Some? && s.rss.Some? && s.rss.value > cfg.softLimit.value && w in m.tasks
    case ScopeKilled => !s.alive && g.unit != "" && s.scopeOomKilled
    case NoReplacement =>
      && !s.alive && w in m.tasks
      && (s.candidate.None? || s.candidate.value.pid == g.pid || !s.candidate.value.alive)
      && now - (if w in m.missing then m.missing[w] else now) >= cfg.grace
    case _ => false
  }

  /** The reasons in the order in which they are looked at. */
  const REASONS := [HitHardLimit, OverSoftLimit, ScopeKilled, NoReplacement]

  /** The first of them there is evidence of, counted from 0; 4 if there is none. */
  function FirstReason(cfg: Config, m: Monitor, now: real, w: int, s: Sight): nat {
    if Evidence(cfg, m, now, w, s, HitHardLimit) then 0
    else if Evidence(cfg, m, now, w, s, OverSoftLimit) then 1
    else if Evidence(cfg, m, now, w, s, ScopeKilled) then 2
    else if Evidence(cfg, m, now, w, s, NoReplacement) then 3
    else 4
  }

  predicate Suspicious(cfg: Config, m: Monitor, now: real, w: int, s: Sight) { FirstReason(cfg, m, now, w, s) < 4 }

  /** The event accuses `w`, for the first reason there is evidence of. */
  predicate Accuses(cfg: Config, m: Monitor, now: real, w: int, s: Sight, e: Event) {
    && Suspicious(cfg, m, now, w, s)
    && e.Trigger? && e.generation == m.generation && e.workers == {w}
    && e.reason == REASONS[FirstReason(cfg, m, now, w, s)]
    && e.kind == (if e.reason.NoReplacement? then WorkerDeath else Memory)
  }

  predicate NoTrigger(events: seq<Event>) { forall e | e in events :: !e.Trigger? }

  /** A visit accuses exactly a suspicious worker. */
  lemma VisitTriggers(cfg: Config, m: Monitor, now: real, w: int, s: Sight)
    requires w in m.guards
    ensures var v := Visit(cfg, m, now, w, s);
            if Suspicious(cfg, m, now, w, s) then v.halt && |v.events| == 1 && Accuses(cfg, m, now, w, s, v.events[0])
            else !v.halt && NoTrigger(v.events)
  {
    assert REASONS[0] == HitHardLimit && REASONS[1] == OverSoftLimit && REASONS[2] == ScopeKilled && REASONS[3] == NoReplacement;
  }

  // ---- a walk over the guards ----

  /** The first suspicious worker of the walk is accused. */
  predicate FirstAccused(cfg: Config, m: Monitor, now: real, order: seq<int>, sight: int -> Sight, e: Event) {
    exists i | 0 <= i < |order| ::
      Accuses(cfg, m, now, order[i], sight(order[i]), e)
      && forall j | 0 <= j < i :: !Suspicious(cfg, m, now, order[j], sight(order[j]))
  }

  /** Visiting one worker makes no other one more or less suspicious. */
  lemma VisitSparesOthers(cfg: Config, m: Monitor, now: real, v: int, s: Sight, w: int, t: Sight)
    requires v in m.guards && w != v && !Visit(cfg, m, now, v, s).halt
    ensures var m' := Visit(cfg, m, now, v, s).m;
            && (forall r :: Evidence(cfg, m', now, w, t, r) <==> Evidence(cfg, m, now, w, t, r))
            && (Suspicious(cfg, m', now, w, t) <==> Suspicious(cfg, m, now, w, t))
  {
    VisitRecords(cfg, m, now, v, s, w);
  }

  lemma {:induction false} ScanTriggers(cfg: Config, m: Monitor, now: real, order: seq<int>, sight: int -> Sight)
    requires forall w | w in order :: w in m.guards
    requires forall i, j | 0 <= i < j < |order| :: order[i] != order[j]
    ensures var v := Scan(cfg, m, now, order, sight);
            && (v.halt <==> exists w | w in order :: Suspicious(cfg, m, now, w, sight(w)))
            && (forall e | e in v.events && e.Trigger? :: FirstAccused(cfg, m, now, order, sight, e))
    decreases |order|
  {
    if order != [] {
      var w, rest := order[0], order[1..];
      var v := Visit(cfg, m, now, w, sight(w));
      VisitTriggers(cfg, m, now, w, sight(w));
      assert order == [w] + rest;
      if !v.halt {
        forall u | u in rest ensures Suspicious(cfg, v.m, now, u, sight(u)) <==> Suspicious(cfg, m, now, u, sight(u)) {
          VisitSparesOthers(cfg, m, now, w, sight(w), u, sight(u));
        }
        ScanTriggers(cfg, v.m, now, rest, sight);
        forall e | e in Scan(cfg, v.m, now, rest, sight).events && e.Trigger? ensures FirstAccused(cfg, m, now, order, sight, e) {
          AccusedLater(cfg, m, now, order, sight, e);
        }
      } else {
        forall e | e in v.events ensures FirstAccused(cfg, m, now, order, sight, e) {
          assert e == v.events[0] && Accuses(cfg, m, now, order[0], sight(order[0]), e);
        }
      }
    }
  }

  lemma AccusedLater(cfg: Config, m: Monitor, now: real, order: seq<int>, sight: int -> Sight, e: Event)
    requires order != [] && (forall w | w in order :: w in m.guards)
    requires forall i, j | 0 <= i < j < |order| :: order[i] != order[j]
    requires !Visit(cfg, m, now, order[0], sight(order[0])).halt
    requires FirstAccused(cfg, Visit(cfg, m, now, order[0], sight(order[0])).m, now, order[1..], sight, e)
    ensures FirstAccused(cfg, m, now, order, sight, e)
  {
    var w, rest := order[0], order[1..];
    var m' := Visit(cfg, m, now, w, sight(w)).m;
    VisitTriggers(cfg, m, now, w, sight(w));
    var i :| 0 <= i < |rest| && Accuses(cfg, m', now, rest[i], sight(rest[i]), e)
             && forall j | 0 <= j < i :: !Suspicious(cfg, m', now, rest[j], sight(rest[j]));
    forall j | 0 <= j <= i + 1 && j > 0
      ensures forall r :: Evidence(cfg, m', now, order[j], sight(order[j]), r) <==> Evidence(cfg, m, now, order[j], sight(order[j]), r)
      ensures Suspicious(cfg, m', now, order[j], sight(order[j])) <==> Suspicious(cfg, m, now, order[j], sight(order[j])) {
      VisitSparesOthers(cfg, m, now, w, sight(w), order[j], sight(order[j]));
    }
    assert rest[i] == order[i + 1] && Accuses(cfg, m, now, order[i + 1], sight(order[i + 1]), e);
    forall j | 0 <= j < i + 1 ensures !Suspicious(cfg, m, now, order[j], sight(order[j])) {
      if j > 0 {
        assert rest[j - 1] == order[j];
      }
    }
  }

  // ---- a whole pass ----

  /** The pass polls for overdue tasks. */
  predicate Polls(cfg: Config, m: Monitor, r: Round) { r.rootAlive && r.now - m.lastPoll >= cfg.pollInterval }

  predicate TooLong(cfg: Config, m: Monitor, now: real, w: int) { w in m.tasks && now - m.tasks[w] > cfg.deadline }

  /** Why a pass raises this trigger and whom it names. */
  ghost predicate Caused(cfg: Config, m: Monitor, r: Round, e: Event)
    requires e.Trigger?
  {
    && e.generation == m.generation
    && match e.kind {
         case Death => !r.rootAlive && e.reason == ServerExited && e.workers == m.tasks.Keys
         case Deadline =>
           && Polls(cfg, m, r) && e.reason == TaskOverdue && e.workers != {}
           && forall w :: w in e.workers <==> w in m.tasks && r.now - m.tasks[w] > cfg.deadline
         case Memory => r.rootAlive && FirstAccused(cfg, m, r.now, r.order, r.sight, e)
         case WorkerDeath => r.rootAlive && FirstAccused(cfg, m, r.now, r.order, r.sight, e)
         case Fatal => false
         case WatchdogDeath => false
       }
  }

  /** There is something for this pass to report. */
  ghost predicate Trouble(cfg: Config, m: Monitor, r: Round) {
    || !r.rootAlive
    || (Polls(cfg, m, r) && exists w :: TooLong(cfg, m, r.now, w))
    || exists w :: Suspicious(cfg, m, r.now, w, r.sight(w))
  }

  lemma OpenTriggers(cfg: Config, m: Monitor, r: Round)
    ensures var v := Open(cfg, m, r.now, r.rootAlive);
            && v.halt == (!r.rootAlive || (Polls(cfg, m, r) && exists w :: TooLong(cfg, m, r.now, w)))
            && (forall e | e in v.events :: v.halt && e.Trigger? && Caused(cfg, m, r, e))
            && (v.halt ==> |v.events| == 1) && v.m == m.(paused := v.m.paused, lastPoll := v.m.lastPoll)
  {
    var late := Overdue(cfg, m, r.now);
    assert forall w :: w in late <==> TooLong(cfg, m, r.now, w);
    if forall w :: !TooLong(cfg, m, r.now, w) {
      assert forall w :: w !in late;
      assert late == {};
    }
  }

  /** Asking again after the poll makes no difference to the guards. */
  lemma PollSparesGuards(cfg: Config, m: Monitor, m': Monitor, now: real, order: seq<int>, sight: int -> Sight, e: Event)
    requires m' == m.(paused := m'.paused, lastPoll := m'.lastPoll)
    ensures forall w :: Suspicious(cfg, m', now, w, sight(w)) <==> Suspicious(cfg, m, now, w, sight(w))
    ensures FirstAccused(cfg, m', now, order, sight, e) ==> FirstAccused(cfg, m, now, order, sight, e)
  {
    forall w, s, r ensures Evidence(cfg, m', now, w, s, r) <==> Evidence(cfg, m, now, w, s, r) {
    }
    if FirstAccused(cfg, m', now, order, sight, e) {
      var i :| 0 <= i < |order| && Accuses(cfg, m', now, order[i], sight(order[i]), e)
               && forall j | 0 <= j < i :: !Suspicious(cfg, m', now, order[j], sight(order[j]));
      assert Accuses(cfg, m, now, order[i], sight(order[i]), e);
    }
  }

  /** The part of a pass after the poll. */
  lemma SweepTriggers(cfg: Config, m: Monitor, m': Monitor, r: Round)
    requires Lists(m, r.order) && r.rootAlive && m' == m.(paused := m'.paused, lastPoll := m'.lastPoll)
    ensures var v := Scan(cfg, m', r.now, r.order, r.sight);
            && (v.halt <==> exists w :: Suspicious(cfg, m, r.now, w, r.sight(w)))
            && (forall e | e in v.events && e.Trigger? :: Caused(cfg, m, r, e))
  {
    ScanTriggers(cfg, m', r.now, r.order, r.sight);
    forall w ensures Suspicious(cfg, m', r.now, w, r.sight(w)) <==> Suspicious(cfg, m, r.now, w, r.sight(w))
      ensures Suspicious(cfg, m, r.now, w, r.sight(w)) ==> w in r.order {
      PollSparesGuards(cfg, m, m', r.now, r.order, r.sight, Trigger(0, Death, ServerExited, {}));
    }
    forall e | e in Scan(cfg, m', r.now, r.order, r.sight).events && e.Trigger? ensures Caused(cfg, m, r, e) {
      PollSparesGuards(cfg, m, m', r.now, r.order, r.sight, e);
      AccusedKind(cfg, m, r, e);
    }
  }

  lemma AccusedKind(cfg: Config, m: Monitor, r: Round, e: Event)
    requires r.rootAlive && FirstAccused(cfg, m, r.now, r.order, r.sight, e)
    ensures Caused(cfg, m, r, e)
  {
    var i :| 0 <= i < |r.order| && Accuses(cfg, m, r.now, r.order[i], r.sight(r.order[i]), e)
             && forall j | 0 <= j < i :: !Suspicious(cfg, m, r.now, r.order[j], r.sight(r.order[j]));
  }

  /** A pass raises a trigger exactly when there is something to report, and every
      trigger it raises has its cause. */
  lemma PassTriggers(cfg: Config, m: Monitor, r: Round)
    requires Lists(m, r.order)
    ensures var v := Pass(cfg, m, r);
            && (v.halt <==> Trouble(cfg, m, r))
            && (forall e | e in v.events && e.Trigger? :: Caused(cfg, m, r, e))
  {
    OpenTriggers(cfg, m, r);
    if r.rootAlive {
      SweepTriggers(cfg, m, Open(cfg, m, r.now, r.rootAlive).m, r);
    }
  }

  // ---- over whole runs ----

  /** Every trigger of a run is of the current generation and has its cause in what
      the messages so far say is running: a deadline trigger names exactly the
      workers whose task has been running for longer than the deadline, the death of
      the server exactly those with a task, and any other one worker of which the
      pass saw the evidence, the first such in its walk. */
  lemma TriggersAreJustified(cfg: Config, beats: seq<Beat>, e: Event)
    requires beats != [] && Fits(cfg, beats) && Run(cfg, beats).running
    requires e in LastPass(cfg, beats).events && e.Trigger?
    ensures var r, log := beats[|beats| - 1].round, History(beats);
            && e.generation == CurrentGeneration(log)
            && Caused(cfg, Before(cfg, beats), r, e)
            && (e.kind == Deadline ==>
                  forall w :: w in e.workers <==> View(log, e.generation, w).Some? && r.now - View(log, e.generation, w).value > cfg.deadline)
            && (e.kind == Death ==> forall w :: w in e.workers <==> View(log, e.generation, w).Some?)
            && (e.reason == OverSoftLimit || e.kind == WorkerDeath ==>
                  forall w | w in e.workers :: View(log, e.generation, w).Some?)
  {
    var m, r := Before(cfg, beats), beats[|beats| - 1].round;
    AtLast(cfg, beats);
    PassTriggers(cfg, m, r);
    PassKeeps(cfg, m, r);
    TaskTableIsTheView(cfg, beats);
    var log := History(beats);
    forall w ensures (if w in m.tasks then Some(m.tasks[w]) else None) == View(log, m.generation, w) {
    }
  }

  /** And nothing is passed over: an awake monitor raises a trigger exactly when its
      pass finds the server dead, polls and finds a task running for too long, or has
      evidence against one of the workers it guards. */
  lemma TroubleIsReported(cfg: Config, beats: seq<Beat>)
    requires beats != [] && Fits(cfg, beats) && Awake(Before(cfg, beats))
    ensures LastPass(cfg, beats).halt <==> Trouble(cfg, Before(cfg, beats), beats[|beats| - 1].round)
    ensures LastPass(cfg, beats).halt ==> Run(cfg, beats).paused
  {
    AtLast(cfg, beats);
    PassTriggers(cfg, Before(cfg, beats), beats[|beats| - 1].round);
  }

  // ---- how often deadlines are looked at ----

  /** The last pass looks at the deadlines and finds none exceeded. */
  ghost predicate PollsQuietly(cfg: Config, beats: seq<Beat>) {
    beats != [] &&
    var m, r := Before(cfg, beats), beats[|beats| - 1].round;
    Awake(m) && Lists(m, r.order) && Polls(cfg, m, r) && forall w :: !TooLong(cfg, m, r.now, w)
  }

  lemma PassRemembersPoll(cfg: Config, m: Monitor, r: Round)
    requires Lists(m, r.order)
    ensures Pass(cfg, m, r).m.lastPoll ==
            if Polls(cfg, m, r) && forall w :: !TooLong(cfg, m, r.now, w) then r.now else m.lastPoll
  {
    OpenTriggers(cfg, m, r);
  }

  lemma {:induction false} PollIsRemembered(cfg: Config, beats: seq<Beat>, j: nat)
    requires j < |beats| && PollsQuietly(cfg, beats[..j + 1])
    requires forall i, k | 0 <= i < k < |beats| :: beats[i].round.now <= beats[k].round.now
    ensures beats[j].round.now <= Run(cfg, beats).lastPoll
    decreases |beats|
  {
    var n := |beats| - 1;
    var m, r := Before(cfg, beats), beats[n].round;
    DrainKeepsPoll(Run(cfg, beats[..n]), beats[n].commands);
    if Awake(m) && Lists(m, r.order) {
      PassRemembersPoll(cfg, m, r);
    }
    if j < n {
      assert beats[..n][..j + 1] == beats[..j + 1];
      PollIsRemembered(cfg, beats[..n], j);
    } else {
      assert beats[..j + 1] == beats;
    }
  }

  /** After a pass that found no deadline exceeded, the next to look at them comes no
      earlier than one poll interval later. */
  lemma PollsAreSpaced(cfg: Config, beats: seq<Beat>, j: nat)
    requires j < |beats| - 1 && PollsQuietly(cfg, beats[..j + 1])
    requires forall i, k | 0 <= i < k < |beats| :: beats[i].round.now <= beats[k].round.now
    requires Polls(cfg, Before(cfg, beats), beats[|beats| - 1].round)
    ensures beats[|beats| - 1].round.now >= beats[j].round.now + cfg.pollInterval
  {
    var n := |beats| - 1;
    assert beats[..n][..j + 1] == beats[..j + 1];
    PollIsRemembered(cfg, beats[..n], j);
    DrainKeepsPoll(Run(cfg, beats[..n]), beats[n].commands);
  }

  // ---- lines the server prints ----

  /** The `i`-th of these commands is a fatal line that reaches an awake monitor in its
      own generation, which reports it as the event and blames all that it tracks. */
  ghost predicate Reports(m: Monitor, cs: seq<Command>, i: nat, e: Event) {
    i < |cs| && cs[i].FatalLine? &&
    var n := Drained(m, cs[..i]);
    && Awake(n) && cs[i].generation == n.generation
    && e.Trigger? && e.generation == n.generation && e.kind == Fatal && e.reason == StderrLine(cs[i].reason)
    && forall w :: w in e.workers <==> w in n.tasks
  }

  lemma ReportsTail(m: Monitor, cs: seq<Command>, i: nat, e: Event)
    requires 0 < i < |cs| && m.running
    ensures Reports(m, cs, i, e) <==> Reports(Consume(m, cs[0]), cs[1..], i - 1, e)
  {
    assert cs[..i][0] == cs[0] && cs[..i][1..] == cs[1..][..i - 1];
  }

  lemma ReportsHead(m: Monitor, cs: seq<Command>, e: Event)
    requires cs != [] && m.running
    ensures Reports(m, cs, 0, e) <==> e in Reply(m, cs[0])
  {
    assert cs[..0] == [];
    if Reports(m, cs, 0, e) {
      assert Drained(m, cs[..0]) == m;
      assert forall w :: w in e.workers <==> w in m.tasks.Keys;
      assert e.workers == m.tasks.Keys;
      assert e == Trigger(m.generation, Fatal, StderrLine(cs[0].reason), m.tasks.Keys);
    }
  }

  lemma {:induction false} StoppedReportsNothing(m: Monitor, cs: seq<Command>, i: nat, e: Event)
    requires !m.running
    ensures !Reports(m, cs, i, e)
  {
    if i < |cs| {
      StopIsFinal(m, cs[..i]);
    }
  }

  /** What a drain emits is exactly what the fatal lines it takes report. */
  lemma {:induction false} FatalLinesAreReported(m: Monitor, cs: seq<Command>, e: Event)
    ensures e in DrainEvents(m, cs) <==> exists i: nat :: Reports(m, cs, i, e)
    decreases |cs|
  {
    if cs == [] {
    } else if !m.running {
      forall i: nat ensures !Reports(m, cs, i, e) {
        StoppedReportsNothing(m, cs, i, e);
      }
    } else {
      var m', rest := Consume(m, cs[0]), cs[1..];
      FatalLinesAreReported(m', rest, e);
      ReportsHead(m, cs, e);
      if e in DrainEvents(m', rest) {
        var i: nat :| Reports(m', rest, i, e);
        ReportsTail(m, cs, i + 1, e);
      }
      if exists i: nat :: Reports(m, cs, i, e) {
        var i: nat :| Reports(m, cs, i, e);
        if i > 0 {
          ReportsTail(m, cs, i, e);
        }
      }
    }
  }

  // ---- dead workers are noticed ----

  /** A visit that raises no trigger records a worker it finds gone. */
  lemma {:induction false} ScanNotes(cfg: Config, m: Monitor, now: real, order: seq<int>, sight: int -> Sight, w: int)
    requires forall v | v in order :: v in m.guards
    requires forall i, j | 0 <= i < j < |order| :: order[i] != order[j]
    requires !Scan(cfg, m, now, order, sight).halt && w in order && Gone(m, w, sight(w))
    ensures var m' := Scan(cfg, m, now, order, sight).m;
            w in m'.missing && m'.missing[w] == if w in m.missing then m.missing[w] else now
    decreases |order|
  {
    var v, rest := order[0], order[1..];
    var m' := Visit(cfg, m, now, v, sight(v)).m;
    VisitRecords(cfg, m, now, v, sight(v), w);
    if w == v {
      assert w in m'.missing;
      assert w !in rest;
      ScanRecords(cfg, m', now, rest, sight, w);
    } else {
      ScanNotes(cfg, m', now, rest, sight, w);
    }
  }

  /** While a worker stays gone it is recorded as missing since no later than the
      first of the passes that found it so. */
  lemma {:induction false} AbsenceIsRecorded(cfg: Config, beats: seq<Beat>, i: nat, w: int)
    requires Fits(cfg, beats) && GoneSince(cfg, beats, i, w) && Awake(Run(cfg, beats))
    requires forall j, k | 0 <= j < k < |beats| :: beats[j].round.now <= beats[k].round.now
    ensures w in Run(cfg, beats).missing && Run(cfg, beats).missing[w] <= beats[i].round.now
    decreases |beats|, 1
  {
    var n := |beats| - 1;
    var m, r := Before(cfg, beats), beats[n].round;
    AtLast(cfg, beats);
    assert GoneAt(cfg, beats, n, w, m.generation);
    MissingBefore(cfg, beats, i, w);
    var v := Open(cfg, m, r.now, r.rootAlive);
    assert LastPass(cfg, beats) == Pass(cfg, m, r);
    assert !v.halt && !Scan(cfg, v.m, r.now, r.order, r.sight).halt;
    ScanNotes(cfg, v.m, r.now, r.order, r.sight, w);
  }

  lemma {:induction false} DrainWithoutResets(m: Monitor, cs: seq<Command>, g: int)
    requires Awake(Drained(m, cs)) && Drained(m, cs).generation == g && forall c | c in cs :: !Resets(g, c)
    ensures Awake(m) && m.generation == g && Drained(m, cs).missing == m.missing
    decreases |cs|
  {
    if cs != [] && m.running {
      DrainWithoutResets(Consume(m, cs[0]), cs[1..], g);
      assert cs[0] in cs;
    }
  }

  lemma GoneBefore(cfg: Config, beats: seq<Beat>, i: nat, w: int)
    requires GoneSince(cfg, beats, i, w) && i < |beats| - 1
    ensures GoneSince(cfg, beats[..|beats| - 1], i, w)
    ensures Before(cfg, beats[..|beats| - 1]).generation == Before(cfg, beats).generation
    ensures Awake(Run(cfg, beats[..|beats| - 1])) && Before(cfg, beats).missing == Run(cfg, beats[..|beats| - 1]).missing
  {
    var n := |beats| - 1;
    var front, g := beats[..n], Before(cfg, beats).generation;
    AtLast(cfg, beats);
    AtLast(cfg, front);
    AtPrefix(cfg, beats, n - 1, n);
    assert GoneAt(cfg, beats, n - 1, w, g) && GoneAt(cfg, beats, n, w, g);
    forall j: nat | i <= j < n ensures GoneAt(cfg, front, j, w, g) {
      AtPrefix(cfg, beats, j, n);
      assert GoneAt(cfg, beats, j, w, g);
    }
    DrainWithoutResets(Run(cfg, front), beats[n].commands, g);
  }

  /** In the state in which the last pass starts, the record is no later either, if there is one. */
  lemma {:induction false} MissingBefore(cfg: Config, beats: seq<Beat>, i: nat, w: int)
    requires Fits(cfg, beats) && GoneSince(cfg, beats, i, w)
    requires forall j, k | 0 <= j < k < |beats| :: beats[j].round.now <= beats[k].round.now
    ensures var m := Before(cfg, beats);
            (if w in m.missing then m.missing[w] else beats[|beats| - 1].round.now) <=
            (if i < |beats| - 1 || w in m.missing then beats[i].round.now else beats[|beats| - 1].round.now)
    ensures i < |beats| - 1 ==> w in Before(cfg, beats).missing
    decreases |beats|, 0
  {
    var n := |beats| - 1;
    var front := beats[..n];
    FitsPrefix(cfg, beats, n);
    if i < n {
      GoneBefore(cfg, beats, i, w);
      AbsenceIsRecorded(cfg, front, i, w);
    } else {
      AtLast(cfg, beats);
      assert GoneAt(cfg, beats, n, w, Before(cfg, beats).generation);
      DrainForgetsOrKeeps(Run(cfg, front), beats[n].commands);
      RecordsAreFaithful(cfg, front);
      if w in Before(cfg, beats).missing {
        var k: nat :| GoneSince(cfg, front, k, w) && front[k].round.now == Run(cfg, front).missing[w];
        assert beats[k].round.now <= beats[n].round.now;
      }
    }
  }

  lemma LongGone(cfg: Config, m: Monitor, r: Round, w: int)
    requires Gone(m, w, r.sight(w)) && w in m.tasks && (r.sight(w).candidate.None? || !r.sight(w).candidate.value.alive)
    requires r.now - (if w in m.missing then m.missing[w] else r.now) >= cfg.grace
    ensures Trouble(cfg, m, r)
  {
    assert Evidence(cfg, m, r.now, w, r.sight(w), NoReplacement);
    assert Suspicious(cfg, m, r.now, w, r.sight(w));
  }

  /** The partner of the justification: once every pass for at least the grace period
      has found a tracked worker gone, and the last of them no other living process
      for it, that last pass raises a trigger. */
  lemma DeadWorkerIsDetected(cfg: Config, beats: seq<Beat>, i: nat, w: int)
    requires Fits(cfg, beats) && GoneSince(cfg, beats, i, w)
    requires forall j, k | 0 <= j < k < |beats| :: beats[j].round.now <= beats[k].round.now
    requires w in Before(cfg, beats).tasks
    requires var c := beats[|beats| - 1].round.sight(w).candidate; c.None? || !c.value.alive
    requires beats[|beats| - 1].round.now - beats[i].round.now >= cfg.grace
    ensures LastPass(cfg, beats).halt && Run(cfg, beats).paused
  {
    var n := |beats| - 1;
    var m, r := Before(cfg, beats), beats[n].round;
    AtLast(cfg, beats);
    assert GoneAt(cfg, beats, n, w, m.generation);
    MissingBefore(cfg, beats, i, w);
    LongGone(cfg, m, r, w);
    TroubleIsReported(cfg, beats);
  }
}
