/** The durable timeout journal: consecutive timeouts of one sample's tools, with
    a receipt for every timed-out call, kept in a file so that a sample can be
    resumed. */
module Journal {
  import opened Wrappers

  /** The feedback of a timed-out call. */
  datatype Receipt = Receipt(error: string, consecutive: nat, limit: nat, exhausted: bool)

  datatype State = State(consecutive: nat, limit: nat, timeouts: map<string, Receipt>)

  /** How the callback ends, and whether it submitted anything to Lean. */
  datatype Ending = Timeout(error: string) | Done(submitted: bool, value: int) | Fails(error: string)

  /** The empty key stands for no key. */
  datatype Call = Call(key: string, ending: Ending)

  datatype Answer = Value(value: int) | Feedback(receipt: Receipt) | Raised(error: string)

  const NO_KEY := ""
  const DEFAULT_LIMIT := 3

  function Fresh(limit: nat): State { State(0, limit, map[]) }

  /** What a scope starts from, given the journal file. */
  function Entered(file: Option<State>, limit: nat): State {
    match file
    case None => Fresh(limit)
    case Some(s) => s.(limit := limit)
  }

  function Answered(s: State, c: Call): Answer {
    if c.key != NO_KEY && c.key in s.timeouts then Feedback(s.timeouts[c.key])
    else
      match c.ending
      case Timeout(error) => Feedback(Receipt(error, s.consecutive + 1, s.limit, s.consecutive + 1 >= s.limit))
      case Done(_, value) => Value(value)
      case Fails(error) => Raised(error)
  }

  function After(s: State, c: Call): State {
    if c.key != NO_KEY && c.key in s.timeouts then s
    else
      match c.ending
      case Timeout(_) =>
        State(s.consecutive + 1, s.limit,
              if c.key != NO_KEY then s.timeouts[c.key := Answered(s, c).receipt] else s.timeouts)
      case Done(submitted, _) => if submitted then s.(consecutive := 0) else s
      case Fails(_) => s
  }

  // ---- the journal as the program keeps it ----

  /** Entering a scope: opened, refused because the streak has reached the limit, or
      asked for with a limit below one. */
  datatype Entry = Opened | Exhausted | BadLimit

  class Sample {
    /** The file, and the states of the scopes that are open on it, innermost last. */
    var file: Option<State>
    var scopes: seq<State>

    /** What the open scope knows; outside a scope each call starts afresh. */
    ghost function Top(): State
      reads this
    {
      if scopes == [] then Fresh(DEFAULT_LIMIT) else scopes[|scopes| - 1]
    }

    /** The file holds what the open scope knows, but for the limit it was written under. */
    ghost predicate Current()
      reads this
    {
      scopes != [] ==> Entered(file, Top().limit) == Top()
    }

    constructor (onDisk: Option<State>)
      ensures Current() && file == onDisk && scopes == []
    {
      file, scopes := onDisk, [];
    }

    /** Open a scope on the file, inside the ones that are open. */
    method Enter(limit: int) returns (entry: Entry)
      modifies `scopes
      ensures entry.BadLimit? <==> limit < 1
      ensures entry.Exhausted? <==> limit >= 1 && file.Some? && file.value.consecutive >= limit
      ensures scopes == old(scopes) + if entry.Opened? then [Entered(file, limit)] else []
      ensures entry.Opened? ==>
                && Top().limit == limit && Top().consecutive == (if file.Some? then file.value.consecutive else 0)
                && Top().timeouts == (if file.Some? then file.value.timeouts else map[])
      ensures entry.Opened? ==> Current()
    {
      if limit < 1 { return BadLimit; }
      var state := if file.Some? then file.value else State(0, 0, map[]);
      state := state.(limit := limit);
      if state.consecutive >= limit { return Exhausted; }
      scopes := scopes + [state];
      return Opened;
    }

    /** Back to the scope outside, which has not looked at the file since. */
    method Leave()
      requires scopes != []
      modifies `scopes
      ensures scopes == old(scopes)[..|old(scopes)| - 1]
    {
      scopes := scopes[..|scopes| - 1];
    }

    /** The new state of the open scope, and with it the file. */
    method Persist(state: State)
      modifies this
      ensures scopes == if old(scopes) == [] then [] else old(scopes)[..|old(scopes)| - 1] + [state]
      ensures file == if old(scopes) == [] then old(file) else Some(state)
    {
      if scopes != [] {
        scopes := scopes[..|scopes| - 1] + [state];
        file := Some(state);
      }
    }

    /** Run one tool.  Inside a scope its state moves as `After` says, and the file
        is rewritten with it whenever it does; outside, nothing is remembered. */
    method RunTool(c: Call) returns (a: Answer)
      modifies this
      ensures a == Answered(old(Top()), c)
      ensures scopes == if old(scopes) == [] then [] else old(scopes)[..|old(scopes)| - 1] + [After(old(Top()), c)]
      ensures file == if old(scopes) == [] || After(old(Top()), c) == old(Top()) then old(file) else Some(After(old(Top()), c))
      ensures old(Current()) ==> Current()
    {
      ghost var n := |scopes|;
      assert n > 0 ==> scopes == scopes[..n - 1] + [scopes[n - 1]];
      var state := if scopes != [] then scopes[|scopes| - 1] else State(0, DEFAULT_LIMIT, map[]);
      if c.key != NO_KEY && c.key in state.timeouts {
        return Feedback(state.timeouts[c.key]);
      }
      match c.ending
      case Timeout(error) =>
        state := state.(consecutive := state.consecutive + 1);
        var feedback := Receipt(error, state.consecutive, state.limit, state.consecutive >= state.limit);
        if c.key != NO_KEY { state := state.(timeouts := state.timeouts[c.key := feedback]); }
        Persist(state);
        return Feedback(feedback);
      case Done(submitted, value) =>
        if submitted && state.consecutive > 0 {
          state := state.(consecutive := 0);
          Persist(state);
        }
        return Value(value);
      case Fails(error) =>
        return Raised(error);
    }
  }

  /** The pause that follows a model-visible result: raised exactly by an exhausted receipt. */
  predicate Pauses(a: Answer) { a.Feedback? && a.receipt.exhausted }

  // ---- one uninterrupted run ----

  function Fold(s: State, calls: seq<Call>): State {
    if calls == [] then s else After(Fold(s, calls[..|calls| - 1]), calls[|calls| - 1])
  }

  function Answers(s: State, calls: seq<Call>): (r: seq<Answer>)
    ensures |r| == |calls|
  {
    if calls == [] then []
    else Answers(s, calls[..|calls| - 1]) + [Answered(Fold(s, calls[..|calls| - 1]), calls[|calls| - 1])]
  }

  lemma {:induction false} FoldAppend(s: State, a: seq<Call>, b: seq<Call>)
    ensures Fold(s, a + b) == Fold(Fold(s, a), b)
    ensures Answers(s, a + b) == Answers(s, a) + Answers(Fold(s, a), b)
    decreases |b|
  {
    if b == [] {
      assert a + b == a;
    } else {
      var n := |b| - 1;
      assert (a + b)[..|a| + n] == a + b[..n];
      FoldAppend(s, a, b[..n]);
    }
  }

  // ---- the same run cut into scopes ----

  function Concat<T>(cuts: seq<seq<T>>): seq<T> {
    if cuts == [] then [] else Concat(cuts[..|cuts| - 1]) + cuts[|cuts| - 1]
  }

  /** A scope entered below the limit answers these calls and leaves a file that
      holds its state. */
  ghost predicate OneScope(file: Option<State>, limit: nat, calls: seq<Call>, file': Option<State>, answers: seq<Answer>) {
    var s := Entered(file, limit);
    && s.consecutive < limit
    && Entered(file', limit) == Fold(s, calls)
    && answers == Answers(s, calls)
  }

  /** Scopes one after the other, each starting from the file the one before it left. */
  ghost predicate Scopes(files: seq<Option<State>>, limit: nat, cuts: seq<seq<Call>>, answers: seq<seq<Answer>>) {
    && |files| == |cuts| + 1 && |answers| == |cuts|
    && forall i | 0 <= i < |cuts| :: OneScope(files[i], limit, cuts[i], files[i + 1], answers[i])
  }

  /** Resuming gives what not stopping gives: however the calls are cut into scopes
      entered below the same limit, the feedback and the state on disk, streak and
      receipts, are those of one uninterrupted run. */
  lemma {:induction false} ResumingIsNotStopping(files: seq<Option<State>>, limit: nat, cuts: seq<seq<Call>>, answers: seq<seq<Answer>>)
    requires Scopes(files, limit, cuts, answers)
    ensures var s := Entered(files[0], limit);
            && Concat(answers) == Answers(s, Concat(cuts))
            && Entered(files[|cuts|], limit) == Fold(s, Concat(cuts))
    decreases |cuts|
  {
    if cuts != [] {
      var n := |cuts| - 1;
      ResumingIsNotStopping(files[..n + 1], limit, cuts[..n], answers[..n]);
      assert OneScope(files[n], limit, cuts[n], files[n + 1], answers[n]);
      FoldAppend(Entered(files[0], limit), Concat(cuts[..n]), cuts[n]);
    }
  }

  /** One scope of the program: entered, run to its last call, left. */
  method RunScope(sample: Sample, limit: int, calls: seq<Call>) returns (entry: Entry, answers: seq<Answer>)
    modifies sample
    ensures sample.scopes == old(sample.scopes)
    ensures !entry.Opened? ==> sample.file == old(sample.file) && answers == []
    ensures entry.Opened? ==> limit >= 1 && OneScope(old(sample.file), limit, calls, sample.file, answers)
    ensures entry.BadLimit? <==> limit < 1
    ensures entry.Exhausted? <==> limit >= 1 && Entered(old(sample.file), limit).consecutive >= limit
  {
    answers := [];
    entry := sample.Enter(limit);
    if !entry.Opened? { return; }
    ghost var s, outside := sample.Top(), old(sample.scopes);
    for i := 0 to |calls|
      invariant sample.scopes == outside + [Fold(s, calls[..i])] && sample.Current() && sample.Top().limit == limit
      invariant answers == Answers(s, calls[..i])
    {
      assert calls[..i + 1][..i] == calls[..i];
      assert (outside + [Fold(s, calls[..i])])[..|outside|] == outside;
      var a := sample.RunTool(calls[i]);
      answers := answers + [a];
    }
    assert calls[..|calls|] == calls;
    assert (outside + [Fold(s, calls)])[..|outside|] == outside;
    sample.Leave();
  }

  /** A scope inside another on the same file: the next call of the outer scope that
      changes its state writes that state, which knows nothing of the inner scope, over
      what the inner scope has written; a call that changes nothing leaves it. */
  method RunNested(sample: Sample, limit: int, calls: seq<Call>, next: Call) returns (entry: Entry, answers: seq<Answer>, a: Answer)
    requires sample.scopes != []
    modifies sample
    ensures var outer := old(sample.Top());
            && a == Answered(outer, next) && sample.Top() == After(outer, next)
            && (After(outer, next) != outer ==> sample.file == Some(After(outer, next)))
            && (After(outer, next) == outer && !entry.Opened? ==> sample.file == old(sample.file))
            && (After(outer, next) == outer && entry.Opened? ==> limit >= 1 && OneScope(old(sample.file), limit, calls, sample.file, answers))
  {
    entry, answers := RunScope(sample, limit, calls);
    a := sample.RunTool(next);
  }

  /** So receipts are lost: resuming is not the same as not stopping when scopes are nested. */
  lemma NestingLosesReceipts(outer: State, inner: Call, next: Call)
    requires inner.ending.Timeout? && next.ending.Timeout? && inner.key != NO_KEY && next.key != inner.key
    requires inner.key !in outer.timeouts && next.key !in outer.timeouts
    ensures inner.key in Fold(outer, [inner, next]).timeouts && inner.key !in After(outer, next).timeouts
  {
    assert [inner, next][..1] == [inner] && [inner][..0] == [];
    assert Fold(outer, [inner]) == After(outer, inner);
  }

  // ---- what the streak and the receipts mean ----

  predicate TimesOut(calls: seq<Call>, key: string, n: nat)
    requires n <= |calls|
  {
    exists i | 0 <= i < n :: calls[i].key == key && calls[i].ending.Timeout?
  }

  /** Call `n` is a replay: a call with its key timed out before. */
  predicate Replay(calls: seq<Call>, n: nat)
    requires n < |calls|
  {
    calls[n].key != NO_KEY && TimesOut(calls, calls[n].key, n)
  }

  predicate CountsAsTimeout(calls: seq<Call>, n: nat)
    requires n < |calls|
  {
    calls[n].ending.Timeout? && !Replay(calls, n)
  }

  predicate CompletesSubmission(calls: seq<Call>, n: nat)
    requires n < |calls|
  {
    calls[n].ending.Done? && calls[n].ending.submitted && !Replay(calls, n)
  }

  /** The timeouts since the last completed submission. */
  function Open(calls: seq<Call>, n: nat): set<nat>
    requires n <= |calls|
  {
    set i: nat | i < n && CountsAsTimeout(calls, i) && forall j: nat | i < j < n :: !CompletesSubmission(calls, j)
  }

  function ReceiptOf(calls: seq<Call>, limit: nat, i: nat): Receipt
    requires i < |calls| && calls[i].ending.Timeout?
  {
    var k := |Open(calls, i)| + 1;
    Receipt(calls[i].ending.error, k, limit, k >= limit)
  }

  ghost predicate Meaning(calls: seq<Call>, limit: nat, n: nat)
    requires n <= |calls|
  {
    var s := Fold(Fresh(limit), calls[..n]);
    && s.limit == limit
    && s.consecutive == |Open(calls, n)|
    && (forall key :: key in s.timeouts <==> key != NO_KEY && TimesOut(calls, key, n))
    && (forall i: nat | i < n && CountsAsTimeout(calls, i) && calls[i].key != NO_KEY ::
          calls[i].key in s.timeouts && s.timeouts[calls[i].key] == ReceiptOf(calls, limit, i))
  }

  lemma NoneOpen(calls: seq<Call>, n: nat, i: nat)
    requires n < |calls| && CompletesSubmission(calls, n)
    ensures i !in Open(calls, n + 1)
  {
  }

  lemma OpenStep(calls: seq<Call>, n: nat)
    requires n < |calls|
    ensures CountsAsTimeout(calls, n) ==> |Open(calls, n + 1)| == |Open(calls, n)| + 1
    ensures CompletesSubmission(calls, n) ==> Open(calls, n + 1) == {}
    ensures !CountsAsTimeout(calls, n) && !CompletesSubmission(calls, n) ==> Open(calls, n + 1) == Open(calls, n)
  {
    if CompletesSubmission(calls, n) {
      var open := Open(calls, n + 1);
      forall i: nat ensures i !in open {
        NoneOpen(calls, n, i);
      }
    } else if CountsAsTimeout(calls, n) {
      assert Open(calls, n + 1) == Open(calls, n) + {n};
    }
  }

  lemma TimesOutStep(calls: seq<Call>, key: string, n: nat)
    requires n < |calls|
    ensures TimesOut(calls, key, n + 1) <==> TimesOut(calls, key, n) || (calls[n].key == key && calls[n].ending.Timeout?)
  {
  }

  lemma FoldMeansStep(calls: seq<Call>, limit: nat, n: nat)
    requires n < |calls| && Meaning(calls, limit, n)
    requires Fold(Fresh(limit), calls[..n + 1]) == After(Fold(Fresh(limit), calls[..n]), calls[n])
    ensures Meaning(calls, limit, n + 1)
  {
    var s, c := Fold(Fresh(limit), calls[..n]), calls[n];
    var s' := After(s, c);
    OpenStep(calls, n);
    assert Replay(calls, n) <==> c.key != NO_KEY && c.key in s.timeouts;
    forall key ensures key in s'.timeouts <==> key != NO_KEY && TimesOut(calls, key, n + 1) {
      TimesOutStep(calls, key, n);
    }
    forall i: nat | i < n + 1 && CountsAsTimeout(calls, i) && calls[i].key != NO_KEY
      ensures calls[i].key in s'.timeouts && s'.timeouts[calls[i].key] == ReceiptOf(calls, limit, i)
    {
      if i < n {
        assert calls[i].key in s.timeouts;
      }
    }
  }

  lemma {:induction false} FoldMeans(calls: seq<Call>, limit: nat, n: nat)
    requires n <= |calls|
    ensures Meaning(calls, limit, n)
  {
    if n > 0 {
      FoldMeans(calls, limit, n - 1);
      assert calls[..n][..n - 1] == calls[..n - 1];
      FoldMeansStep(calls, limit, n - 1);
    }
  }

  /** In an uninterrupted run from an empty journal the streak is the number of
      timeouts since the last completed submission, where replays, calls that
      submit nothing and other errors count for nothing; a counted timeout is
      answered with the streak it makes; and a replay is answered with the
      receipt of the first call that timed out under its key. */
  lemma StreakCountsOpenTimeouts(calls: seq<Call>, limit: nat, n: nat)
    requires n < |calls|
    ensures Fold(Fresh(limit), calls[..n]).consecutive == |Open(calls, n)|
    ensures CountsAsTimeout(calls, n) ==> Answered(Fold(Fresh(limit), calls[..n]), calls[n]) == Feedback(ReceiptOf(calls, limit, n))
    ensures Replay(calls, n) ==>
              exists i: nat :: i < n && CountsAsTimeout(calls, i) && calls[i].key == calls[n].key
                        && Answered(Fold(Fresh(limit), calls[..n]), calls[n]) == Feedback(ReceiptOf(calls, limit, i))
    ensures var a, e := Answered(Fold(Fresh(limit), calls[..n]), calls[n]), calls[n].ending;
            && (a.Value? <==> e.Done? && !Replay(calls, n)) && (a.Value? ==> a.value == e.value)
            && (a.Raised? <==> e.Fails? && !Replay(calls, n)) && (a.Raised? ==> a.error == e.error)
  {
    FoldMeans(calls, limit, n);
    if Replay(calls, n) {
      var i := FirstTimeout(calls, calls[n].key, n);
    }
  }

  lemma {:induction false} FirstTimeout(calls: seq<Call>, key: string, n: nat) returns (i: nat)
    requires n <= |calls| && TimesOut(calls, key, n)
    ensures i < n && calls[i].key == key && calls[i].ending.Timeout? && !TimesOut(calls, key, i)
  {
    i :| i < n && calls[i].key == key && calls[i].ending.Timeout?;
    if TimesOut(calls, key, i) {
      i := FirstTimeout(calls, key, i);
    }
  }

  /** A fresh timeout pauses the sample exactly when a scope entered right after
      it would be refused. */
  lemma PauseMatchesRefusal(s: State, c: Call)
    requires c.ending.Timeout? && (c.key == NO_KEY || c.key !in s.timeouts)
    ensures Pauses(Answered(s, c)) <==> Entered(Some(After(s, c)), s.limit).consecutive >= s.limit
  {
  }
}
