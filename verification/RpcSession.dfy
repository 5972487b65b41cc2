/** One RPC session: connecting, calling, and the single reconnect-and-retry.
    What the server and the clock do is a list of answers, one per message sent. */
module RpcSession {
  import opened Wrappers
  import Tasks

  /** What becomes of one message: its send raises, no response comes in time,
      the watchdog wakes the caller, or there is a response. */
  datatype Answer =
    | SendRaises
    | NoResponse
    | Woken
    | ErrorResponse(code: Option<int>, message: string)
    | Response(session: Option<int>)     // what a connect reads; None: no usable session id

  datatype RpcError = NeedsReconnect | WorkerRestarted | ContentModified | RequestCancelled | Plain

  datatype Outcome = Returned | Raised(error: RpcError) | ServiceUnavailable | TimedOut | SendFailed | NoSession

  /** A message put on the wire, with the id it waits under. */
  datatype Sent = Connect(id: int, answer: Answer) | Call(id: int, session: int, answer: Answer)

  const OUTDATED := "Outdated RPC session"

  function Classify(code: Option<int>, message: string): RpcError {
    if code == Some(-32900) || exists i: nat | i <= |message| :: Tasks.StartsAt(message, i, OUTDATED) then NeedsReconnect
    else if code == Some(-32901) || code == Some(-32902) then WorkerRestarted
    else if code == Some(-32801) then ContentModified
    else if code == Some(-32800) then RequestCancelled
    else Plain
  }

  /** How a call with this answer ends. */
  function Verdict(a: Answer): Outcome {
    match a
    case SendRaises => SendFailed
    case NoResponse => TimedOut
    case Woken => ServiceUnavailable
    case ErrorResponse(code, message) => Raised(Classify(code, message))
    case Response(_) => Returned
  }

  /** The session a connect with this answer obtains. */
  function Granted(a: Answer): Option<int> { if a.Response? then a.session else None }

  /** The outcomes that make the caller reconnect. */
  predicate AsksForReconnect(o: Outcome) { o.Raised? && (o.error.NeedsReconnect? || o.error.WorkerRestarted?) }

  // ---- what may be on the wire during one call ----

  /** A call on session `live`, and if it is told to, one reconnect and one more call on the new session. */
  ghost predicate Exchange(said: seq<Sent>, live: int, retry: bool, o: Outcome) {
    && said != [] && said[0].Call? && said[0].session == live
    && var first := Verdict(said[0].answer);
       if AsksForReconnect(first) && retry then Reconnected(said[1..], o) else |said| == 1 && o == first
  }

  ghost predicate Reconnected(said: seq<Sent>, o: Outcome) {
    && said != [] && said[0].Connect?
    && match Granted(said[0].answer)
       case None => |said| == 1 && o == FailedConnect(said[0].answer)
       case Some(s) => |said| == 2 && said[1].Call? && said[1].session == s && o == Verdict(said[1].answer)
  }

  /** How a call ends whose connect was not granted a session. */
  function FailedConnect(a: Answer): Outcome {
    match a
    case SendRaises => SendFailed
    case NoResponse => TimedOut
    case Woken => ServiceUnavailable
    case ErrorResponse(_, _) => Raised(Plain)
    case Response(_) => NoSession
  }

  /** The whole of a call, connecting first if no session is live. */
  ghost predicate Conversation(said: seq<Sent>, live: Option<int>, retry: bool, o: Outcome) {
    match live
    case Some(s) => Exchange(said, s, retry, o)
    case None =>
      && said != [] && said[0].Connect?
      && match Granted(said[0].answer)
         case None => |said| == 1 && o == FailedConnect(said[0].answer)
         case Some(s) => Exchange(said[1..], s, retry, o)
  }

  /** The answer says that the session is outdated or that the file's worker is gone. */
  ghost predicate LostSession(a: Answer) {
    && a.ErrorResponse?
    && (a.code in {Some(-32900), Some(-32901), Some(-32902)} || exists i: nat | i <= |a.message| :: Tasks.StartsAt(a.message, i, OUTDATED))
  }

  /** Once a call has been sent, a connect follows it exactly when its answer says
      that the session is lost and the caller may retry; whatever else goes wrong,
      nothing more is sent. */
  lemma ReconnectsOnLostSessions(said: seq<Sent>, live: Option<int>, retry: bool, o: Outcome)
    requires Conversation(said, live, retry, o)
    ensures var c := if live.None? then 1 else 0;
            |said| > c ==> said[c].Call? && (|said| > c + 1 <==> retry && LostSession(said[c].answer))
                           && (|said| > c + 1 ==> said[c + 1].Connect?)
  {
    var e := if live.None? then said[1..] else said;
    if e != [] {
      assert AsksForReconnect(Verdict(e[0].answer)) <==> LostSession(e[0].answer);
      assert |said| > (if live.None? then 2 else 1) ==> e[1..][0] == said[if live.None? then 2 else 1];
    }
  }

  /** Every call goes over the session that the connect right before it was granted, or,
      if there was none, over the one that was live. */
  lemma CallsUseTheGrantedSession(said: seq<Sent>, live: Option<int>, retry: bool, o: Outcome, i: nat)
    requires Conversation(said, live, retry, o) && i < |said| && said[i].Call?
    ensures if i == 0 then live == Some(said[i].session)
            else said[i - 1].Connect? && said[i - 1].answer == Response(Some(said[i].session))
  {
    if live.None? {
      var e := said[1..];
      assert i > 0 && e[i - 1] == said[i];
      if i > 1 {
        assert e[1..][i - 2] == said[i] && e[1..][0] == said[2];
      }
    } else if i > 0 {
      assert said[1..][i - 1] == said[i] && said[1..][0] == said[1];
    }
  }

  ghost predicate Mentions(message: string) {
    exists i: nat | i <= |message| :: Tasks.StartsAt(message, i, "Outdated RPC session")
  }

  /** What kind of error a call's error response is, by its code, unless its text says
      that the session is outdated. */
  ghost predicate IsKind(code: Option<int>, message: string, e: RpcError) {
    match e
    case NeedsReconnect => code == Some(-32900) || Mentions(message)
    case WorkerRestarted => code in {Some(-32901), Some(-32902)} && !Mentions(message)
    case ContentModified => code == Some(-32801) && !Mentions(message)
    case RequestCancelled => code == Some(-32800) && !Mentions(message)
    case Plain => code !in {Some(-32900), Some(-32901), Some(-32902), Some(-32801), Some(-32800)} && !Mentions(message)
  }

  /** The answer to the last message sent decides how a call ends, one outcome for each
      kind of answer: a call returns what its response says, and an error response of a
      connect is passed on as a plain error. */
  lemma OutcomeIsTheLastAnswer(said: seq<Sent>, live: Option<int>, retry: bool, o: Outcome)
    requires Conversation(said, live, retry, o)
    ensures said != []
    ensures var last := said[|said| - 1];
            && (o == SendFailed <==> last.answer == SendRaises)
            && (o == TimedOut <==> last.answer == NoResponse)
            && (o == ServiceUnavailable <==> last.answer == Woken)
            && (o == Returned <==> last.Call? && last.answer.Response?)
            && (o == NoSession <==> last.Connect? && last.answer == Response(None))
            && (o.Raised? <==> last.answer.ErrorResponse?)
            && (o.Raised? ==>
                  if last.Connect? then o.error == Plain
                  else IsKind(last.answer.code, last.answer.message, o.error))
  {
    if live.None? && |said| > 1 {
      var e := said[1..];
      assert e[0] == said[1] && e[|e| - 1] == said[|said| - 1];
      assert |e| > 1 ==> e[1..][|e| - 2] == said[|said| - 1];
    } else if |said| > 1 {
      assert said[1..][|said| - 2] == said[|said| - 1];
    }
  }

  function Calls(said: seq<Sent>): nat {
    if said == [] then 0 else (if said[0].Call? then 1 else 0) + Calls(said[1..])
  }

  lemma CallsAre(said: seq<Sent>)
    requires |said| <= 4
    ensures var c := seq(4, i => if 0 <= i < |said| && said[i].Call? then 1 else 0);
            Calls(said) == c[0] + c[1] + c[2] + c[3]
  {
    if said != [] && said[1..] != [] && said[1..][1..] != [] && said[1..][1..][1..] != [] {
      assert said[1..][1..][1..][1..] == [];
    }
  }

  /** A call sends its request at most twice and reconnects at most once, the
      second time only because the first answer asked for it; and it returns only
      what the last message it sent returned. */
  lemma {:induction false} CallIsBounded(said: seq<Sent>, live: Option<int>, retry: bool, o: Outcome)
    requires Conversation(said, live, retry, o)
    ensures Calls(said) <= 2 && |said| - Calls(said) <= (if live.None? then 1 else 0) + 1
    ensures Calls(said) == 2 ==> retry && exists i | 0 <= i < |said| :: said[i].Call? && AsksForReconnect(Verdict(said[i].answer))
    ensures o == Returned ==> said[|said| - 1].Call? && said[|said| - 1].answer.Response?
  {
    var n := |said|;
    assert n <= 4;
    CallsAre(said);
    if live.None? && n > 1 {
      var e := said[1..];
      assert e[0] == said[1] && forall i | 0 <= i < |e[1..]| :: e[1..][i] == said[i + 2];
    } else if live.Some? {
      assert forall i | 0 <= i < |said[1..]| :: said[1..][i] == said[i + 1];
    }
  }

  /** The ids under which a connect whose send raised still waits. */
  function Leaked(said: seq<Sent>): set<int> {
    set i | 0 <= i < |said| && said[i].Connect? && said[i].answer.SendRaises? :: said[i].id
  }

  lemma LeakedOne(c: Sent)
    ensures Leaked([c]) == if c.Connect? && c.answer.SendRaises? then {c.id} else {}
  {
    assert [c][0] == c;
  }

  lemma LeakedSum(a: seq<Sent>, b: seq<Sent>)
    ensures Leaked(a + b) == Leaked(a) + Leaked(b)
  {
    forall id | id in Leaked(b) ensures id in Leaked(a + b) {
      var i :| 0 <= i < |b| && b[i].Connect? && b[i].answer.SendRaises? && b[i].id == id;
      assert (a + b)[|a| + i] == b[i];
    }
    forall id | id in Leaked(a) ensures id in Leaked(a + b) {
      var i :| 0 <= i < |a| && a[i].Connect? && a[i].answer.SendRaises? && a[i].id == id;
      assert (a + b)[i] == a[i];
    }
  }

  /** The session that is live once all this has been said, if a call may be told that
      its session is lost: the one last granted or called on; but a first call that is
      told so, and after which nothing was said, leaves none. */
  ghost function SessionAfter(said: seq<Sent>, live: Option<int>): Option<int> {
    if said == [] then live
    else
      var last := said[|said| - 1];
      if last.Connect? then Granted(last.answer)
      else if LostSession(last.answer) && forall i | 0 <= i < |said| - 1 :: said[i].Connect? then None
      else Some(last.session)
  }

  /** A connect ahead of it all makes no difference. */
  lemma SessionAfterConnect(first: seq<Sent>, more: seq<Sent>, live: Option<int>)
    requires more != [] && forall i | 0 <= i < |first| :: first[i].Connect?
    ensures forall l :: SessionAfter(first + more, live) == SessionAfter(more, l)
  {
    var said := first + more;
    assert said[|said| - 1] == more[|more| - 1];
    assert forall i | 0 <= i < |more| :: more[i] == said[|first| + i];
    assert forall i | 0 <= i < |first| :: said[i] == first[i];
  }

  class Session {
    var sessionId: Option<int>
    var connected: bool
    /** The client's response routing and its id counter. */
    var pending: set<int>
    var messageId: nat
    /** Everything sent so far. */
    var sent: seq<Sent>

    constructor ()
      ensures Valid() && Live() == None && sent == [] && pending == {}
    {
      sessionId, connected, pending, messageId, sent := None, false, {}, 0, [];
    }

    ghost predicate Valid()
      reads this
    {
      forall id | id in pending :: id <= messageId
    }

    ghost function Live(): Option<int>
      reads this
    {
      if connected then sessionId else None
    }

    /** The answer to the next message. */
    static function Next(script: seq<Answer>): Answer { if script == [] then NoResponse else script[0] }

    static function Rest(script: seq<Answer>): seq<Answer> { if script == [] then [] else script[1..] }

    /** Register, send, wait, deregister; the send is outside the part that is
        cleaned up, so a raising send leaves the id registered. */
    method ConnectOnce(script: seq<Answer>) returns (r: Result<int, Outcome>)
      requires Valid()
      modifies `pending, `messageId, `sent
      ensures Valid() && messageId == old(messageId) + 1
      ensures var c := Connect(messageId, Next(script));
              sent == old(sent) + [c] && pending == old(pending) + Leaked([c])
      ensures match Granted(Next(script))
              case Some(s) => r == Success(s)
              case None => r == Failure(FailedConnect(Next(script)))
    {
      messageId := messageId + 1;
      var id := messageId;
      pending := pending + {id};
      var a := Next(script);
      sent := sent + [Connect(id, a)];
      LeakedOne(Connect(id, a));
      assert id !in old(pending);
      if a.SendRaises? { return Failure(SendFailed); }
      pending := pending - {id};
      match a
      case NoResponse => r := Failure(TimedOut);
      case Woken => r := Failure(ServiceUnavailable);
      case ErrorResponse(_, _) => r := Failure(Raised(Plain));
      case Response(session) => r := if session.Some? then Success(session.value) else Failure(NoSession);
    }

    method EnsureConnected(script: seq<Answer>) returns (failed: Option<Outcome>, rest: seq<Answer>)
      requires Valid()
      modifies this
      ensures Valid()
      ensures old(Live()).Some? ==> unchanged(this) && failed.None? && rest == script
      ensures old(Live()).None? ==>
                var c := Connect(messageId, Next(script));
                rest == Rest(script) && messageId == old(messageId) + 1
                && sent == old(sent) + [c] && pending == old(pending) + Leaked([c])
                && Live() == Granted(Next(script))
                && (failed.None? <==> Granted(Next(script)).Some?)
                && (failed.Some? ==> failed.value == FailedConnect(Next(script)))
    {
      if connected && sessionId.Some? { return None, script; }
      var r := ConnectOnce(script);
      rest := Rest(script);
      match r
      case Failure(o) => failed := Some(o);
      case Success(s) => sessionId, connected, failed := Some(s), true, None;
    }

    method Invalidate()
      modifies `sessionId, `connected
      ensures Live() == None && sessionId == None
    {
      sessionId, connected := None, false;
    }

    method Reconnect(script: seq<Answer>) returns (failed: Option<Outcome>)
      requires Valid()
      modifies this
      ensures Valid() && messageId == old(messageId) + 1
      ensures var c := Connect(messageId, Next(script));
              sent == old(sent) + [c] && pending == old(pending) + Leaked([c])
      ensures Live() == Granted(Next(script)) && (failed.None? <==> Granted(Next(script)).Some?)
      ensures failed.Some? ==> failed.value == FailedConnect(Next(script))
    {
      Invalidate();
      var r := ConnectOnce(script);
      match r
      case Failure(o) => failed := Some(o);
      case Success(s) => sessionId, connected, failed := Some(s), true, None;
    }

    /** One call on the live session; its id is deregistered however it ends. */
    method CallOnce(script: seq<Answer>) returns (o: Outcome)
      requires Valid() && Live().Some?
      modifies `pending, `messageId, `sent
      ensures Valid() && messageId == old(messageId) + 1 && pending == old(pending)
      ensures sent == old(sent) + [Call(messageId, Live().value, Next(script))]
      ensures o == Verdict(Next(script))
    {
      messageId := messageId + 1;
      var id := messageId;
      assert id !in pending;
      pending := pending + {id};
      var a := Next(script);
      sent := sent + [Call(id, sessionId.value, a)];
      match a {
        case SendRaises => o := SendFailed;
        case NoResponse => o := TimedOut;
        case Woken => o := ServiceUnavailable;
        case ErrorResponse(code, message) => o := Raised(Classify(code, message));
        case Response(_) => o := Returned;
      }
      pending := pending - {id};
    }

    /** What both reconnecting handlers do. */
    method RetryOnce(script: seq<Answer>) returns (o: Outcome, ghost said: seq<Sent>)
      requires Valid()
      modifies this
      ensures Valid() && sent == old(sent) + said && Reconnected(said, o)
      ensures pending == old(pending) + Leaked(said)
      ensures messageId == old(messageId) + |said| && forall i | 0 <= i < |said| :: said[i].id == old(messageId) + 1 + i
      ensures said != [] && Live() == if said[|said| - 1].Connect? then Granted(said[|said| - 1].answer) else Some(said[|said| - 1].session)
    {
      var failed := Reconnect(script);
      said := [Connect(messageId, Next(script))];
      if failed.Some? { return failed.value, said; }
      o := CallOnce(Rest(script));
      ghost var c := Call(messageId, Live().value, Next(Rest(script)));
      LeakedSum(said, [c]);
      LeakedOne(c);
      said := said + [c];
    }

    /** The call itself, on the live session. */
    method CallLive(script: seq<Answer>, retry: bool) returns (o: Outcome, ghost said: seq<Sent>)
      requires Valid() && Live().Some?
      modifies this
      ensures Valid() && sent == old(sent) + said && Exchange(said, old(Live()).value, retry, o)
      ensures pending == old(pending) + Leaked(said)
      ensures messageId == old(messageId) + |said| && forall i | 0 <= i < |said| :: said[i].id == old(messageId) + 1 + i
      ensures Live() == SessionAfter(said, old(Live()))
    {
      o := CallOnce(script);
      ghost var c := Call(messageId, Live().value, Next(script));
      said := [c];
      LeakedOne(c);
      if AsksForReconnect(o) {
        Invalidate();
        if retry {
          ghost var more;
          o, more := RetryOnce(Rest(script));
          LeakedSum([c], more);
          said := [c] + more;
          assert said[1..] == more;
          assert said[0].Call? && said[|said| - 1] == more[|more| - 1];
        }
      }
    }

    /** A call is one conversation, and afterwards the routing table is as it was
        but for the connects whose send raised. */
    method CallWithRecovery(script: seq<Answer>, retry: bool) returns (o: Outcome, ghost said: seq<Sent>)
      requires Valid()
      modifies this
      ensures Valid() && sent == old(sent) + said && Conversation(said, old(Live()), retry, o)
      ensures pending == old(pending) + Leaked(said)
      ensures messageId == old(messageId) + |said| && forall i | 0 <= i < |said| :: said[i].id == old(messageId) + 1 + i
      ensures Live() == SessionAfter(said, old(Live()))
    {
      var failed, rest := EnsureConnected(script);
      ghost var first := if old(Live()).Some? then [] else [Connect(messageId, Next(script))];
      if failed.Some? { return failed.value, first; }
      ghost var more;
      o, more := CallLive(rest, retry);
      LeakedSum(first, more);
      said := first + more;
      assert old(Live()).None? ==> said[1..] == more;
      SessionAfterConnect(first, more, old(Live()));
    }
  }
}
