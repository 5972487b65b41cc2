/** Document versions on one worker, and the loop that waits for Lean to finish
    elaborating the version it has just sent. */
module DidChange {
  import opened Wrappers

  /** `Malformed`: reading or comparing the severity raises. */
  datatype Severity = Absent | Level(n: int) | Malformed

  datatype Diagnostic = Diagnostic(severity: Severity, message: string)

  datatype Message =
    | Poison
    | Publish(version: Option<int>, diagnostics: seq<Diagnostic>)
    | Progress(version: Option<int>, finished: bool)
    | Other

  /** One blocking read of the notification queue: a message, with whether the
      queue is empty two seconds later, or the deadline. */
  datatype Read = Got(msg: Message, emptyAfter: bool) | Expired

  datatype Outcome = Returned(diagnostics: seq<Diagnostic>) | Unavailable | TimedOut | SendFailed

  /** A change sent to the server. */
  datatype Change = Change(version: int, text: string)

  // ---- what the messages read so far amount to ----

  predicate Ordinary(r: Read) { r.Got? && !r.msg.Poison? }

  predicate Completes(m: Message, v: int) { m.Progress? && m.finished && m.version == Some(v) }

  /** How many of the first `n` messages report version `v` finished. */
  function Completions(script: seq<Read>, v: int, n: nat): nat
    requires n <= |script|
  {
    if n == 0 then 0
    else Completions(script, v, n - 1) + if script[n - 1].Got? && Completes(script[n - 1].msg, v) then 1 else 0
  }

  /** The diagnostics last published for version `v` among the first `n` messages. */
  function LastPublished(script: seq<Read>, v: int, n: nat): Option<seq<Diagnostic>>
    requires n <= |script|
  {
    if n == 0 then None
    else if script[n - 1].Got? && script[n - 1].msg.Publish? && script[n - 1].msg.version == Some(v)
    then Some(script[n - 1].msg.diagnostics)
    else LastPublished(script, v, n - 1)
  }

  /** After `n` messages the answer is ready: two completions and some diagnostics
      of version `v`, and an empty queue. */
  predicate Ready(script: seq<Read>, v: int, n: nat)
    requires n <= |script|
  {
    n > 0 && Ordinary(script[n - 1]) && script[n - 1].emptyAfter
    && Completions(script, v, n) >= 2 && LastPublished(script, v, n).Some?
  }

  /** The first `n` messages are ordinary and the answer was not ready at any of them. */
  ghost predicate StillWaiting(script: seq<Read>, v: int, n: nat)
    requires n <= |script|
  {
    n > 0 ==> StillWaiting(script, v, n - 1) && Ordinary(script[n - 1]) && !Ready(script, v, n)
  }

  predicate Wanted(d: Diagnostic) { d.severity.Absent? || (d.severity.Level? && d.severity.n <= 3) }

  /** The wanted diagnostics in order, up to the first malformed one. */
  function Kept(ds: seq<Diagnostic>): seq<Diagnostic> {
    if ds == [] || ds[0].severity.Malformed? then []
    else (if Wanted(ds[0]) then [ds[0]] else []) + Kept(ds[1..])
  }

  lemma {:induction false} KeptCounts(ds: seq<Diagnostic>, d: Diagnostic)
    requires forall x | x in ds :: !x.severity.Malformed?
    ensures multiset(Kept(ds))[d] == if Wanted(d) then multiset(ds)[d] else 0
  {
    if ds != [] {
      KeptCounts(ds[1..], d);
      assert ds == [ds[0]] + ds[1..];
      assert multiset(ds) == multiset{ds[0]} + multiset(ds[1..]);
    }
  }

  /** Without malformed entries exactly those without a severity or with one of at most
      3 are kept: none of them is lost, and nothing else is kept. */
  lemma KeptIsTheFilter(ds: seq<Diagnostic>, d: Diagnostic)
    requires forall x | x in ds :: !x.severity.Malformed?
    ensures multiset(Kept(ds))[d] ==
            if d.severity.Absent? || (d.severity.Level? && d.severity.n <= 3) then multiset(ds)[d] else 0
  {
    KeptCounts(ds, d);
  }

  // ---- readiness ----

  predicate FinishedAt(script: seq<Read>, v: int, i: int) {
    0 <= i < |script| && script[i].Got? && script[i].msg == Progress(Some(v), true)
  }

  predicate PublishedAt(script: seq<Read>, v: int, i: int) {
    0 <= i < |script| && script[i].Got? && script[i].msg.Publish? && script[i].msg.version == Some(v)
  }

  lemma {:induction false} CompletionsAre(script: seq<Read>, v: int, n: nat)
    requires n <= |script|
    ensures Completions(script, v, n) >= 1 <==> exists i | 0 <= i < n :: FinishedAt(script, v, i)
    ensures Completions(script, v, n) >= 2 <==> exists i, j | 0 <= i < j < n :: FinishedAt(script, v, i) && FinishedAt(script, v, j)
  {
    if n > 0 {
      CompletionsAre(script, v, n - 1);
      if FinishedAt(script, v, n - 1) && Completions(script, v, n - 1) >= 1 {
        var i :| 0 <= i < n - 1 && FinishedAt(script, v, i);
        assert i < n - 1 < n && FinishedAt(script, v, i) && FinishedAt(script, v, n - 1);
      }
    }
  }

  lemma {:induction false} LastPublishedIs(script: seq<Read>, v: int, n: nat)
    requires n <= |script|
    ensures match LastPublished(script, v, n)
            case None => forall i | 0 <= i < n :: !PublishedAt(script, v, i)
            case Some(ds) =>
              exists i | 0 <= i < n ::
                PublishedAt(script, v, i) && script[i].msg.diagnostics == ds && forall j | i < j < n :: !PublishedAt(script, v, j)
  {
    if n > 0 {
      LastPublishedIs(script, v, n - 1);
      if PublishedAt(script, v, n - 1) {
        assert script[n - 1].msg.diagnostics == LastPublished(script, v, n).value;
      }
    }
  }

  /** The answer is ready with the `n`-th message exactly if that is not the poison and
      leaves the queue empty, two messages so far have reported the version finished
      and one has published its diagnostics; and the answer is what the last of these
      published. */
  lemma ReadyMeans(script: seq<Read>, v: int, n: nat)
    requires 0 < n <= |script|
    ensures Ready(script, v, n) <==>
              && script[n - 1].Got? && script[n - 1].msg != Poison && script[n - 1].emptyAfter
              && (exists i, j | 0 <= i < j < n :: FinishedAt(script, v, i) && FinishedAt(script, v, j))
              && (exists i | 0 <= i < n :: PublishedAt(script, v, i))
    ensures Ready(script, v, n) ==>
              exists i | 0 <= i < n ::
                && PublishedAt(script, v, i) && (forall j | i < j < n :: !PublishedAt(script, v, j))
                && LastPublished(script, v, n) == Some(script[i].msg.diagnostics)
  {
    CompletionsAre(script, v, n);
    LastPublishedIs(script, v, n);
  }

  // ---- isolation ----

  predicate About(m: Message, v: int) { (m.Publish? || m.Progress?) && m.version == Some(v) }

  /** Equal, or two ordinary messages neither of which is about version `v`. */
  predicate SameFor(v: int, r: Read, r': Read) {
    r == r' || (Ordinary(r) && Ordinary(r') && r.emptyAfter == r'.emptyAfter && !About(r.msg, v) && !About(r'.msg, v))
  }

  /** Messages about other versions, whatever they say, change neither when the
      answer for version `v` is ready nor what it is. */
  lemma {:induction false} OtherVersionsDoNotMatter(script: seq<Read>, script': seq<Read>, v: int, n: nat)
    requires n <= |script| && n <= |script'| && forall i | 0 <= i < n :: SameFor(v, script[i], script'[i])
    ensures Completions(script, v, n) == Completions(script', v, n)
    ensures LastPublished(script, v, n) == LastPublished(script', v, n)
    ensures Ready(script, v, n) <==> Ready(script', v, n)
    ensures StillWaiting(script, v, n) <==> StillWaiting(script', v, n)
  {
    if n > 0 {
      OtherVersionsDoNotMatter(script, script', v, n - 1);
      assert SameFor(v, script[n - 1], script'[n - 1]);
    }
  }

  class Worker {
    var documentVersion: int
    /** Every change sent so far. */
    var sent: seq<Change>

    /** Versions strictly increase and none is ahead of the counter. */
    ghost predicate Valid()
      reads this
    {
      && (forall i, j | 0 <= i < j < |sent| :: sent[i].version < sent[j].version)
      && (forall i | 0 <= i < |sent| :: 0 < sent[i].version <= documentVersion)
      && 0 <= documentVersion
    }

    constructor ()
      ensures Valid() && documentVersion == 0 && sent == []
    {
      documentVersion, sent := 0, [];
    }

    method GetNextVersion() returns (v: int)
      modifies `documentVersion
      ensures v == documentVersion == old(documentVersion) + 1
    {
      documentVersion := documentVersion + 1;
      v := documentVersion;
    }

    /** The diagnostics worth reporting; a malformed entry ends the list. */
    method Filter(ds: seq<Diagnostic>) returns (valid: seq<Diagnostic>)
      ensures valid == Kept(ds)
    {
      valid := [];
      var i := 0;
      while i < |ds|
        invariant 0 <= i <= |ds|
        invariant valid + Kept(ds[i..]) == Kept(ds)
      {
        assert ds[i..][0] == ds[i] && ds[i..][1..] == ds[i + 1..];
        if ds[i].severity.Malformed? { return; }
        if Wanted(ds[i]) { valid := valid + [ds[i]]; }
        i := i + 1;
      }
    }

    /** Send the new text under a fresh version and wait for its diagnostics.  The
        outcome is decided by the first read at which something can be said: the
        poison, the deadline, or a ready answer; and the answer is the filtered
        list of the last diagnostics published for this very version. */
    method Run(text: string, sendFails: bool, cancelFails: bool, script: seq<Read>) returns (r: Outcome, used: nat)
      requires Valid()
      modifies this
      ensures Valid()
      ensures documentVersion == old(documentVersion) + if r.TimedOut? then 2 else 1
      ensures var v := old(documentVersion) + 1;
              sent == old(sent) + (if sendFails then [] else [Change(v, text)])
                                + (if r.TimedOut? && !cancelFails then [Change(v + 1, "")] else [])
      ensures r.SendFailed? <==> sendFails
      ensures used <= |script|
      ensures var v := old(documentVersion) + 1;
              match r
              case Returned(ds) =>
                used > 0 && StillWaiting(script, v, used - 1) && Ready(script, v, used)
                && ds == Kept(LastPublished(script, v, used).value)
              case Unavailable =>
                used > 0 && StillWaiting(script, v, used - 1) && script[used - 1].Got? && script[used - 1].msg.Poison?
              case TimedOut => StillWaiting(script, v, used) && (used < |script| ==> script[used].Expired?)
              case SendFailed => used == 0
    {
      var version := GetNextVersion();
      used := 0;
      if sendFails { return SendFailed, 0; }
      sent := sent + [Change(version, text)];
      var counter: nat := 0;
      var diagnostics: Option<seq<Diagnostic>> := None;
      while true
        invariant used <= |script|
        invariant documentVersion == version && Valid() && sent == old(sent) + [Change(version, text)]
        invariant counter == Completions(script, version, used)
        invariant diagnostics == LastPublished(script, version, used)
        invariant StillWaiting(script, version, used)
        decreases |script| - used
      {
        if used == |script| || script[used].Expired? {
          // A newer edit cancels the text that timed out; the next task takes a later version still.
          var cancel := GetNextVersion();
          if !cancelFails { sent := sent + [Change(cancel, "")]; }
          return TimedOut, used;
        }
        var msg, emptyAfter := script[used].msg, script[used].emptyAfter;
        used := used + 1;
        if msg.Poison? { return Unavailable, used; }
        if msg.Publish? && msg.version == Some(version) { diagnostics := Some(msg.diagnostics); }
        if msg.Progress? && msg.finished && msg.version == Some(version) { counter := counter + 1; }
        if counter >= 2 && diagnostics.Some? {
          if emptyAfter {
            var valid := Filter(diagnostics.value);
            return Returned(valid), used;
          }
        }
      }
    }
  }

  // ---- several tasks in a row ----

  /** The versions that tasks with these outcomes take, the cancellation of a
      timed-out text included, when the counter stands at `from`. */
  function Versions(from: int, outcomes: seq<Outcome>): seq<int>
    decreases |outcomes|
  {
    if outcomes == [] then []
    else Taken(from, outcomes[0]) + Versions(from + |Taken(from, outcomes[0])|, outcomes[1..])
  }

  /** Whatever becomes of the tasks, no version is ever taken twice. */
  lemma {:induction false} VersionsIncrease(from: int, outcomes: seq<Outcome>)
    ensures forall i | 0 <= i < |Versions(from, outcomes)| :: from < Versions(from, outcomes)[i]
    ensures forall i, j | 0 <= i < j < |Versions(from, outcomes)| :: Versions(from, outcomes)[i] < Versions(from, outcomes)[j]
    decreases |outcomes|
  {
    if outcomes != [] {
      VersionsIncrease(from + |Taken(from, outcomes[0])|, outcomes[1..]);
    }
  }

  /** What a worker is asked to elaborate, what happens to the sends, and what it then reads. */
  datatype Request = Request(text: string, sendFails: bool, cancelFails: bool, script: seq<Read>)

  /** One task after another: whatever becomes of them, no version is sent twice, and
      every version sent is one that these tasks took. */
  method Serve(worker: Worker, requests: seq<Request>) returns (outcomes: seq<Outcome>)
    requires worker.Valid()
    modifies worker
    ensures worker.Valid() && |outcomes| == |requests|
    ensures old(worker.sent) <= worker.sent
    ensures forall i, j | 0 <= i < j < |worker.sent| :: worker.sent[i].version < worker.sent[j].version
    ensures var taken := Versions(old(worker.documentVersion), outcomes);
            && worker.documentVersion == old(worker.documentVersion) + |taken|
            && (forall i, j | 0 <= i < j < |taken| :: taken[i] < taken[j])
            && forall i | |old(worker.sent)| <= i < |worker.sent| :: worker.sent[i].version in taken
  {
    outcomes := [];
    ghost var start := worker.documentVersion;
    for n := 0 to |requests|
      invariant worker.Valid() && |outcomes| == n && old(worker.sent) <= worker.sent
      invariant worker.documentVersion == start + |Versions(start, outcomes)|
      invariant forall i | |old(worker.sent)| <= i < |worker.sent| :: worker.sent[i].version in Versions(start, outcomes)
    {
      ghost var before, from := worker.sent, worker.documentVersion;
      var r := requests[n];
      var outcome, used := worker.Run(r.text, r.sendFails, r.cancelFails, r.script);
      VersionsAppend(start, outcomes, outcome);
      outcomes := outcomes + [outcome];
      forall i | |old(worker.sent)| <= i < |worker.sent| ensures worker.sent[i].version in Versions(start, outcomes) {
        if i >= |before| {
          assert worker.sent[i].version in [from + 1, from + 2];
        }
      }
    }
    VersionsIncrease(start, outcomes);
  }

  /** The versions that one task takes. */
  function Taken(from: int, o: Outcome): seq<int> { [from + 1] + if o.TimedOut? then [from + 2] else [] }

  lemma {:induction false} VersionsAppend(from: int, outcomes: seq<Outcome>, o: Outcome)
    ensures Versions(from, outcomes + [o]) == Versions(from, outcomes) + Taken(from + |Versions(from, outcomes)|, o)
    decreases |outcomes|
  {
    var all := outcomes + [o];
    if outcomes == [] {
      assert all[1..] == [];
    } else {
      assert all[1..] == outcomes[1..] + [o];
      VersionsAppend(from + |Taken(from, outcomes[0])|, outcomes[1..], o);
    }
  }
}
