/** Several senders on one pipe, which is written without a buffer: what they leave
    on the stream, and what the reader makes of it. */
module Senders {
  import opened Wrappers
  import opened Framing

  /** The lock holder's frame, made before it took the lock, and how much of it is
      on the stream. */
  datatype Sending = Sending(frame: seq<byte>, written: nat)

  /** `log`: what the senders who have had the lock and let go of it have sent, in order. */
  datatype Pipe = Pipe(stream: seq<byte>, holder: Option<Sending>, broken: bool, log: seq<Sending>)

  /** The write may be cut short: its result is ignored, and the lock let go. */
  datatype Action =
    | Acquire(frame: seq<byte>)
    | Write(n: nat)
    | Release
    | Break          // the write raises: the reader's end is gone for good

  const EMPTY := Pipe([], None, false, [])

  predicate Can(p: Pipe, a: Action) {
    match a
    case Acquire(_) => p.holder.None? && !p.broken
    case Write(n) => p.holder.Some? && !p.broken && p.holder.value.written + n <= |p.holder.value.frame|
    case Release => p.holder.Some? && !p.broken
    case Break => p.holder.Some? && !p.broken
  }

  function Do(p: Pipe, a: Action): Pipe
    requires Can(p, a)
  {
    match a
    case Acquire(frame) => p.(holder := Some(Sending(frame, 0)))
    case Write(n) =>
      var s := p.holder.value;
      p.(stream := p.stream + s.frame[s.written..s.written + n], holder := Some(s.(written := s.written + n)))
    case Release => p.(holder := None, log := p.log + [p.holder.value])
    case Break => p.(broken := true)
  }

  ghost predicate Legal(actions: seq<Action>)
    decreases |actions|, 0
  {
    actions != [] ==> Legal(actions[..|actions| - 1]) && Can(Exec(actions[..|actions| - 1]), actions[|actions| - 1])
  }

  ghost function Exec(actions: seq<Action>): Pipe
    requires Legal(actions)
    decreases |actions|, 1
  {
    if actions == [] then EMPTY else Do(Exec(actions[..|actions| - 1]), actions[|actions| - 1])
  }

  // ---- what is on the stream ----

  predicate Fits(s: Sending) { s.written <= |s.frame| }

  predicate AllFit(log: seq<Sending>) { forall i | 0 <= i < |log| :: Fits(log[i]) }

  /** No write was cut short. */
  predicate NoneShort(log: seq<Sending>) { forall i | 0 <= i < |log| :: log[i].written == |log[i].frame| }

  function Frames(log: seq<Sending>): seq<seq<byte>> { seq(|log|, i requires 0 <= i < |log| => log[i].frame) }

  /** What was written, one sender after the other. */
  function Written(log: seq<Sending>): seq<byte>
    requires AllFit(log)
  {
    if log == [] then []
    else
      var s := log[|log| - 1];
      assert Fits(s);
      Written(log[..|log| - 1]) + s.frame[..s.written]
  }

  function Started(h: Option<Sending>): seq<byte>
    requires h.Some? ==> Fits(h.value)
  {
    if h.None? then [] else h.value.frame[..h.value.written]
  }

  /** The parts written in lock order, and then the lock holder's. */
  ghost predicate InLockOrder(p: Pipe) {
    && AllFit(p.log) && (p.holder.Some? ==> Fits(p.holder.value))
    && p.stream == Written(p.log) + Started(p.holder)
  }

  lemma WriteKeepsOrder(p: Pipe, n: nat)
    requires InLockOrder(p) && Can(p, Write(n))
    ensures InLockOrder(Do(p, Write(n)))
  {
    var s := p.holder.value;
    var f, w := s.frame, s.written;
    assert f[..w] + f[w..w + n] == f[..w + n];
    assert Do(p, Write(n)).stream == Written(p.log) + (f[..w] + f[w..w + n]);
  }

  lemma ReleaseKeepsOrder(p: Pipe)
    requires InLockOrder(p) && Can(p, Release)
    ensures InLockOrder(Do(p, Release))
  {
    var q := Do(p, Release);
    assert q.log[..|q.log| - 1] == p.log;
    assert Written(q.log) == Written(p.log) + Started(p.holder);
  }

  lemma {:induction false} RunKeepsOrder(actions: seq<Action>)
    requires Legal(actions)
    ensures InLockOrder(Exec(actions))
    decreases |actions|
  {
    if actions != [] {
      var front, a := actions[..|actions| - 1], actions[|actions| - 1];
      RunKeepsOrder(front);
      var p := Exec(front);
      match a
      case Acquire(frame) => assert p.stream == Written(p.log) + frame[..0];
      case Write(n) => WriteKeepsOrder(p, n);
      case Release => ReleaseKeepsOrder(p);
      case Break =>
    }
  }

  lemma {:induction false} ShortWritesShorten(log: seq<Sending>)
    requires AllFit(log)
    ensures |Written(log)| <= |Concat(Frames(log))|
    ensures |Written(log)| == |Concat(Frames(log))| <==> NoneShort(log)
    ensures NoneShort(log) ==> Written(log) == Concat(Frames(log))
    decreases |log|
  {
    if log != [] {
      var n := |log| - 1;
      ShortWritesShorten(log[..n]);
      assert Frames(log)[..n] == Frames(log[..n]) && Frames(log)[n] == log[n].frame;
      assert Fits(log[n]);
      assert NoneShort(log) <==> NoneShort(log[..n]) && log[n].written == |log[n].frame|;
    }
  }

  /** After every run of the senders the stream is what was written, in lock order,
      and then a prefix of the lock holder's frame; it is whole frames before that
      prefix if and only if no write was cut short. */
  lemma StreamIsWholeFrames(actions: seq<Action>)
    requires Legal(actions)
    ensures InLockOrder(Exec(actions))
    ensures var p := Exec(actions);
            p.stream == Concat(Frames(p.log)) + Started(p.holder) <==> NoneShort(p.log)
  {
    RunKeepsOrder(actions);
    var p := Exec(actions);
    ShortWritesShorten(p.log);
  }

  // ---- what the reader gets ----

  /** As long as no write was cut short, the reader gets exactly the messages sent,
      whatever the interleaving of the senders, in the order in which they had the
      lock: all that were finished, and the one under way once its last byte is
      written. */
  lemma ReaderGetsWhatWasSent(actions: seq<Action>, texts: seq<string>, last: string)
    requires Legal(actions) && FramesOf(Frames(Exec(actions).log), texts)
    requires Exec(actions).holder.Some? ==> Sendable(last) && Exec(actions).holder.value.frame == MakeMessage(last)
    ensures var p := Exec(actions);
            var done := p.holder.Some? && p.holder.value.written == |p.holder.value.frame|;
            NoneShort(p.log) ==> Messages(p.stream) == EncodeAll(texts) + if done then [Encode(last)] else []
  {
    var p := Exec(actions);
    RunKeepsOrder(actions);
    ShortWritesShorten(p.log);
    LogReadsBack(Frames(p.log), texts, Started(p.holder));
    match p.holder
    case None => NothingReadsAsNothing();
    case Some(s) =>
      if s.written < |s.frame| {
        PartialFrame(last, s.written);
      } else {
        WholeFrame(last);
        assert s.frame[..s.written] == s.frame;
      }
  }

  /** Whenever the lock is free, the reader has got exactly what was sent if and only
      if no write was cut short: what is missing cannot be made up for, because no
      shorter stream reads as the same messages. */
  lemma ReaderNeedsWholeFrames(actions: seq<Action>, texts: seq<string>)
    requires Legal(actions) && Exec(actions).holder.None? && FramesOf(Frames(Exec(actions).log), texts)
    ensures Messages(Exec(actions).stream) == EncodeAll(texts) <==> NoneShort(Exec(actions).log)
  {
    var p := Exec(actions);
    RunKeepsOrder(actions);
    ShortWritesShorten(p.log);
    MessagesArePaid(p.stream);
    FramesCost(Frames(p.log), texts);
    ReaderGetsWhatWasSent(actions, texts, "");
    assert EncodeAll(texts) + [] == EncodeAll(texts);
  }

  lemma Push(actions: seq<Action>, p: Pipe, a: Action) returns (q: Pipe)
    requires Legal(actions) && Exec(actions) == p && Can(p, a)
    ensures Legal(actions + [a]) && Exec(actions + [a]) == q == Do(p, a)
  {
    assert (actions + [a])[..|actions|] == actions;
    q := Do(p, a);
  }

  /** A run in which one is: the first frame loses its last byte. */
  lemma {:induction false} WriteCanBeCutShort(text: string) returns (actions: seq<Action>)
    requires Sendable(text)
    ensures Legal(actions) && FramesOf(Frames(Exec(actions).log), [text])
    ensures Messages(Exec(actions).stream) == []
  {
    var f := MakeMessage(text);
    var n := |f| - 1;
    actions := [Acquire(f), Write(n), Release];
    assert [] + [Acquire(f)] == [Acquire(f)] && [Acquire(f)] + [Write(n)] == actions[..2] && actions[..2] + [Release] == actions;
    var p := Push([], EMPTY, Acquire(f));
    p := Push([Acquire(f)], p, Write(n));
    p := Push(actions[..2], p, Release);
    assert Exec(actions).stream == [] + f[0..n] == f[..n];
    assert Exec(actions).log == [] + [Sending(f, n)] == [Sending(f, n)];
    PartialFrame(text, n);
  }
}
