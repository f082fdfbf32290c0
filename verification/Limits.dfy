/**
  Where the promises stop: for each tempting but false statement about the engine, the situation in
  which the code does otherwise.
*/
module Limits {
  import opened Basics
  import opened Protocol
  import opened Ledger
  import opened Stocks
  import opened Conservation
  import opened Timers
  import opened Delivery
  import opened Responses
  import opened Reports
  import opened LastErrors

  /** "A request gets one terminal callback": a failed write after its timeout reports it again. */
  lemma TimeoutThenFailedWrite(s: Socket, c: Copy, status: Error)
    requires s.pc == Idle && s.timers == [c] && c.body.Request? && c in s.armed && c in s.inflight && status != OK
    ensures Step(Step(s, RequestTimeout(c)), WriteDone(c, status)).trace
            == s.trace + [Failed(c, TimedOut), TimerFreed(c), Failed(c, WriteError(false)), Freed(c)]
  {
    TimesOut(s, c);
    var t := Step(s, RequestTimeout(c));
    hide Step;
    FailsLate(t, c, status);
  }

  lemma TimesOut(s: Socket, c: Copy)
    requires s.pc == Idle && s.timers == [c] && c.body.Request? && c in s.armed
    ensures var t := Step(s, RequestTimeout(c));
            && t.timers == [] && t.inflight == s.inflight && t.pc == Idle
            && t.trace == s.trace + [Failed(c, TimedOut)] + [TimerFreed(c)]
  {
    assert Answers(c, c.body.msgid);
  }

  lemma FailsLate(s: Socket, c: Copy, status: Error)
    requires s.pc == Idle && s.timers == [] && c in s.inflight && status != OK
    ensures Step(s, WriteDone(c, status)).trace == s.trace + [Failed(c, WriteError(false))] + [Freed(c)]
  {
  }

  /** A run that does so, on a server socket that was just accepted. */
  lemma TwoReports(msgid: nat)
    ensures var c := Copy(0, Request(msgid));
            Run(Accepting(TCP), Sending(msgid, [RequestTimeout(c)] + ([WriteDone(c, Other(1))] + []))).trace
            == [Allocated(c), Accepted(c, false), Written(c)]
               + [Failed(c, TimedOut), TimerFreed(c), Failed(c, WriteError(false)), Freed(c)]
  {
    var s := Accepting(TCP);
    var c := Copy(0, Request(msgid));
    var t := RegisteredFrom(s, c);
    FirstSteps(s, c);
    assert t.pc == Idle && t.timers == [c] && c in t.armed;
    hide Step, Run, PushedFrom, RegisteredFrom, Sending;
    TimeoutThenFailedWrite(t, c, Other(1));
    TwoMore(t, RequestTimeout(c), WriteDone(c, Other(1)));
    SendingRun(msgid, [RequestTimeout(c)] + ([WriteDone(c, Other(1))] + []));
  }

  lemma TwoMore(s: Socket, a: Action, b: Action)
    ensures Run(s, [a] + ([b] + [])) == Step(Step(s, a), b)
  {
    hide Step, Run;
    RunNil(Step(Step(s, a), b));
    RunCons(Step(s, a), b, []);
    RunCons(s, a, [b] + []);
  }

  /**
    "An armed timer has its entry": when the write of a request is reported failed between the push
    of its entry and the start of its timer, what is started, and armed, has been freed.
  */
  lemma TimerStartedAfterFree(msgid: nat)
    ensures var s := Accepting(TCP);
            var c := Copy(0, Request(msgid));
            var run := [CallSend(c.body, OK)] + ([PushEntry] + ([WriteDone(c, Other(1))] + ([StartTimer(true)] + [])));
            var t := Run(s, run);
            && FreshRun(s, run)
            && t.pc == Idle && c in t.armed && c !in t.timers
            && t.trace == [Allocated(c), Accepted(c, false), Written(c),
                           TimerFreed(c), Failed(c, WriteError(true)), Freed(c)]
            && !NoFreedTimerFires(t, RequestTimeout(c))
  {
    var s := Accepting(TCP);
    var c := Copy(0, Request(msgid));
    var s1, s2 := SentFrom(s, c), PushedFrom(s, c);
    FirstSteps(s, c);
    SentFields(s, c);
    assert c in s2.inflight && s2.timers == [c] && s2.pc == Idle && s2.starting == Some(c);
    assert s2.trace == [Allocated(c), Accepted(c, false), Written(c)];
    FailsBeforeStart(s2, c);
    FreshStart(s, c);
    hide *;
    var s3 := Step(s2, WriteDone(c, Other(1)));
    FreshUnfired(s1, s2, s3, c);
    RunNil(Step(s3, StartTimer(true)));
    FreshNil(Step(s3, StartTimer(true)));
    RunCons(s3, StartTimer(true), []);
    RunCons(s2, WriteDone(c, Other(1)), [StartTimer(true)] + []);
    RunCons(s1, PushEntry, [WriteDone(c, Other(1))] + ([StartTimer(true)] + []));
    RunCons(s, CallSend(c.body, OK), [PushEntry] + ([WriteDone(c, Other(1))] + ([StartTimer(true)] + [])));
    FreshCons(s3, StartTimer(true), []);
    FreshCons(s2, WriteDone(c, Other(1)), [StartTimer(true)] + []);
    FreshCons(s1, PushEntry, [WriteDone(c, Other(1))] + ([StartTimer(true)] + []));
    FreshCons(s, CallSend(c.body, OK), [PushEntry] + ([WriteDone(c, Other(1))] + ([StartTimer(true)] + [])));
  }

  lemma FreshStart(s: Socket, c: Copy)
    requires s == Accepting(TCP)
    ensures Fresh(s, CallSend(c.body, OK))
  {
    assert View(s) == Stock(multiset{}, multiset{}, multiset{}, BLANK);
  }

  lemma FreshUnfired(s1: Socket, s2: Socket, s3: Socket, c: Copy)
    ensures Fresh(s1, PushEntry) && Fresh(s2, WriteDone(c, Other(1))) && Fresh(s3, StartTimer(true))
  {
  }

  lemma FailsBeforeStart(s: Socket, c: Copy)
    requires s.pc == Idle && s.starting == Some(c) && c.body.Request? && s.timers == [c] && c in s.inflight
    ensures var t := Step(Step(s, WriteDone(c, Other(1))), StartTimer(true));
            && t.pc == Idle && c in t.armed && c !in t.timers && !NoFreedTimerFires(t, RequestTimeout(c))
            && t.trace == s.trace + [TimerFreed(c), Failed(c, WriteError(true)), Freed(c)]
  {
    FailsWithEntry(s, c);
    hide Step;
    StartsFreed(Step(s, WriteDone(c, Other(1))), c);
  }

  lemma FailsWithEntry(s: Socket, c: Copy)
    requires s.pc == Idle && s.starting == Some(c) && c.body.Request? && s.timers == [c] && c in s.inflight
    ensures var t := Step(s, WriteDone(c, Other(1)));
            && t.timers == [] && t.starting == Some(c) && t.pc == Idle
            && t.trace == s.trace + [TimerFreed(c)] + [Failed(c, WriteError(true))] + [Freed(c)]
  {
    assert Answers(c, c.body.msgid);
    assert IndexOf(s.timers, c.body.msgid) == 0;
  }

  lemma StartsFreed(s: Socket, c: Copy)
    requires s.pc == Idle && s.starting == Some(c) && s.timers == []
    ensures var t := Step(s, StartTimer(true));
            && t.pc == Idle && c in t.armed && c !in t.timers && !NoFreedTimerFires(t, RequestTimeout(c))
            && t.trace == s.trace
  {
  }

  /**
    "A failed write cancels the timer of its own request": with one id in use twice it deletes the
    timer of the other request, which then has no timer and no report.
  */
  lemma DuplicateIdStealsTimer(s: Socket, first: Copy, second: Copy, status: Error)
    requires first != second && first.body.Request? && second.body == first.body && status != OK
    requires s.pc == Idle && s.timers == [first, second] && second in s.inflight
    ensures var t := Step(s, WriteDone(second, status));
            t.timers == [second] && t.trace == s.trace + [TimerFreed(first), Failed(second, WriteError(true)),
                Freed(second)]
  {
    assert Answers(first, second.body.msgid);
    assert IndexOf(s.timers, second.body.msgid) == 0;
  }

  /** "Nothing is delivered once the handler has disconnected": the rest of the chunk is. */
  lemma ChunkOutlivesDisconnect(s: Socket, rest: seq<Item>)
    requires s.pc == ReadItems([InRequest, InNotify] + rest) && Live(s) && Unlocked(s)
    ensures Step(Step(Step(s, Continue), CallDisconnect), Continue).trace
            == s.trace + [HandlerMessage, CloseIssued(s.epoch), HandlerMessage]
  {
    var items := [InRequest, InNotify] + rest;
    assert items[1..] == [InNotify] + rest;
    var t := Step(s, Continue);
    assert t == Emit(s.(pc := ReadItems([InNotify] + rest)), HandlerMessage);
    var u := Step(t, CallDisconnect);
    assert u.pc == t.pc && u.trace == s.trace + [HandlerMessage] + [CloseIssued(s.epoch)] && Unlocked(u);
  }

  /**
    "Messages go out in the order Send accepted them": between the moment the socket is CONNECTED
    and the flush of its queue, a Send from another thread overtakes what is queued.
  */
  lemma SendOvertakesQueue(s: Socket, queued: Copy)
    requires s.pc == ConnectCallback && s.state == CONNECTING && Unlocked(s) && s.pending == [queued]
    requires queued.ptr < s.next
    ensures var late := Copy(s.next, Notify);
            Step(Step(Step(s, Continue), CallSend(Notify, OK)), ContinueFlush([WriteResult(OK, true)])).trace
            == s.trace + [Allocated(late), Accepted(late, false), Written(late), Written(queued)]
  {
    var t := Step(s, Continue);
    assert t == s.(state := CONNECTED, pc := FlushQueue);
    hide Step;
    NotifySent(t);
    FlushOfOne(Step(t, CallSend(Notify, OK)), queued);
  }

  lemma NotifySent(s: Socket)
    requires s.state == CONNECTED && Unlocked(s)
    ensures var c := Copy(s.next, Notify);
            Step(s, CallSend(Notify, OK))
            == s.(next := s.next + 1, inflight := s.inflight + multiset{c},
                  trace := s.trace + [Allocated(c)] + [Accepted(c, false)] + [Written(c)])
  {
    assert Step(s, CallSend(Notify, OK)) == DoSend(s, Notify, OK);
    hide Step;
    var c := Copy(s.next, Notify);
    assert DoSend(s, Notify, OK) == WriteNow(Allocate(s, c), c);
    hide DoSend;
  }

  lemma FlushOfOne(s: Socket, c: Copy)
    requires s.pc == FlushQueue && s.state == CONNECTED && Unlocked(s) && s.pending == [c]
    ensures Step(s, ContinueFlush([WriteResult(OK, true)])).trace == s.trace + [Written(c)]
  {
    var r := WriteResult(OK, true);
    var u := s.(pc := ReportUnsent([]));
    assert [r][1..] == [];
    assert FlushLoop(u, [r]) == FlushLoop(FlushOne(u, r), []);
    FlushedOne(u, r, c);
    hide FlushOne;
  }

  lemma FlushedOne(s: Socket, r: WriteResult, c: Copy)
    requires s.pc.ReportUnsent? && s.state == CONNECTED && s.pending == [c] && r.status == OK
    ensures FlushOne(s, r).trace == s.trace + [Written(c)]
  {
    hide SendQueued, KeepBack;
  }

  /** "LNR_OK means a local Disconnect": data that cannot be decoded closes the connection with LNR_OK too. */
  lemma MalformedClosesOk(s: Socket, rest: seq<Item>)
    requires s.pc == ReadItems([Undecodable] + rest) && Live(s) && Unlocked(s)
    ensures var t := Step(s, Continue);
            t.state == DISCONNECTING && t.lastError == OK && t.trace == s.trace + [CloseIssued(s.epoch)]
  {
    assert Step(s, Continue) == DoReadItem(s, s.pc.items);
    hide Step;
    assert DoReadItem(s, s.pc.items) == DoDisconnect(s.(pc := Idle), false);
  }

  // ---- A failure is reported as LNR_OK ----

  /** A Connect fails, and its close begins. */
  function FailedConnect(rest: seq<Action>): seq<Action> {
    [CallConnect(0, Dial(true, OK, true))] + ([ConnectDone(Other(1), Reply(101, None))]
    + ([Continue] + ([Continue] + ([CloseDone] + rest))))
  }

  /** Another thread connects and disconnects before that close is reported. */
  function Overwriting(): seq<Action> {
    [CallConnect(0, Dial(true, OK, true))] + ([CallDisconnect]
    + ([Continue] + ([Continue] + ([Continue] + ([Continue] + ([Continue] + []))))))
  }

  /** A client that is DISCONNECTED inside the close of its first stream. */
  predicate FailedOnce(s: Socket) {
    && s.kind == TCP && s.connectable && Unlocked(s) && s.state == DISCONNECTED && s.pc == ReleaseSocket
    && s.epoch == 1 && s.closing == 1 && s.pending == [] && s.timers == [] && s.lastError == Other(1)
    && s.trace == [Opened(1, true), TransportFailed(1, Other(1)), CloseIssued(1), Closed(1)]
  }

  lemma ConnectingTcp()
    ensures var t := Step(Client(TCP, UNUSED), CallConnect(0, Dial(true, OK, true)));
            && t.kind == TCP && t.connectable && Unlocked(t) && t.state == CONNECTING && t.pc == Idle && t.dialing
            && t.stream == Open && t.epoch == 1 && t.pending == [] && t.timers == [] && t.inflight == multiset{}
            && t.trace == [Opened(1, true)]
  {
  }

  lemma ConnectFailing(s: Socket)
    requires s.kind == TCP && Unlocked(s) && s.state == CONNECTING && s.pc == Idle && s.dialing
    ensures var t := Step(Step(s, ConnectDone(Other(1), Reply(101, None))), Continue);
            && t == s.(dialing := false, replies := t.replies, connectTimer := false, state := DISCONNECTING,
                       lastError := Other(1), pc := IssueClose, trace := t.trace)
            && t.trace == s.trace + [TransportFailed(s.epoch, Other(1))]
  {
    var u := Step(s, ConnectDone(Other(1), Reply(101, None)));
    assert u == s.(dialing := false, replies := u.replies, pc := ConnectLock(Other(1)));
    hide Step;
    FailureTaken(u);
  }

  lemma FailureTaken(s: Socket)
    requires s.pc == ConnectLock(Other(1)) && s.state == CONNECTING && Unlocked(s)
    ensures Step(s, Continue) == Emit(s.(connectTimer := false, state := DISCONNECTING, lastError := Other(1),
                                         pc := IssueClose),
                                      TransportFailed(s.epoch, Other(1)))
  {
    assert Step(s, Continue) == DoConnectLock(s, Other(1));
  }

  lemma StreamCloses(s: Socket)
    requires s.pc == IssueClose && Unlocked(s) && s.state == DISCONNECTING && s.inflight == multiset{}
    ensures var t := Step(Step(s, Continue), CloseDone);
            && t == s.(stream := NoStream, connectTimer := false, dialing := false, reading := false,
                       state := DISCONNECTED, closing := s.epoch, pc := ReleaseSocket, trace := t.trace)
            && t.trace == s.trace + [CloseIssued(s.epoch)] + [Closed(s.epoch)]
  {
    var u := Step(s, Continue);
    assert u == DoIssueClose(s);
    assert Step(u, CloseDone) == DoCloseDone(u);
  }

  /** The client after FailedConnect. */
  function AfterFailure(): Socket {
    Step(Step(Step(Step(Step(Client(TCP, UNUSED), CallConnect(0, Dial(true, OK, true))),
                        ConnectDone(Other(1), Reply(101, None))), Continue), Continue), CloseDone)
  }

  lemma FailsOnce()
    ensures FailedOnce(AfterFailure())
  {
    var s1 := Step(Client(TCP, UNUSED), CallConnect(0, Dial(true, OK, true)));
    ConnectingTcp();
    hide Step, Client;
    ConnectFailing(s1);
    StreamCloses(Step(Step(s1, ConnectDone(Other(1), Reply(101, None))), Continue));
  }

  lemma FailedRun(rest: seq<Action>)
    ensures Run(Client(TCP, UNUSED), FailedConnect(rest)) == Run(AfterFailure(), rest)
  {
    hide Step, Client, Run;
    var s := Client(TCP, UNUSED);
    var d := Dial(true, OK, true);
    var s1 := Step(s, CallConnect(0, d));
    var s2 := Step(s1, ConnectDone(Other(1), Reply(101, None)));
    var s3 := Step(s2, Continue);
    var s4 := Step(s3, Continue);
    RunCons(s4, CloseDone, rest);
    RunCons(s3, Continue, [CloseDone] + rest);
    RunCons(s2, Continue, [Continue] + ([CloseDone] + rest));
    RunCons(s1, ConnectDone(Other(1), Reply(101, None)), [Continue] + ([Continue] + ([CloseDone] + rest)));
    RunCons(s, CallConnect(0, d),
            [ConnectDone(Other(1), Reply(101, None))] + ([Continue] + ([Continue] + ([CloseDone] + rest))));
  }

  /** The second connection is opened and closed, and the error is gone. */
  lemma Overwrites(s: Socket)
    requires FailedOnce(s)
    ensures var t := Step(Step(s, CallConnect(0, Dial(true, OK, true))), CallDisconnect);
            && t.kind == TCP && t.pc == ReleaseSocket && t.pending == [] && t.timers == [] && t.closing == 1
            && t.lastError == OK && !t.handshaking
            && t.trace == s.trace + [Opened(2, true)] + [CloseIssued(2)]
  {
    var u := Step(s, CallConnect(0, Dial(true, OK, true)));
    assert u == DoConnect(s, 0, Dial(true, OK, true), true);
    assert u.state == CONNECTING && u.pc == ReleaseSocket && u.epoch == 2 && Unlocked(u);
    assert u.trace == s.trace + [Opened(2, true)];
    assert Step(u, CallDisconnect) == DoDisconnect(u, false);
    hide Step;
  }

  function Continued(s: Socket, n: nat): Socket {
    if n == 0 then s else Step(Continued(s, n - 1), Continue)
  }

  /** With nothing to cancel a close goes straight to its report. */
  lemma GoesToReport(s: Socket)
    requires s.kind == TCP && s.pc == ReleaseSocket && s.pending == [] && s.timers == []
    ensures Continued(s, 5) == s.(inPool := false, pc := NotifyDisconnect)
  {
    var t := s.(inPool := false, pc := DiscardQueue);
    GoesToDiscard(s);
    hide Step, Continued;
    Sections(t);
    GoesOn(s, 2, t, t.(pc := DiscardUnsent([])));
    Sections(t.(pc := DiscardUnsent([])));
    GoesOn(s, 3, t.(pc := DiscardUnsent([])), t.(pc := DiscardTimers([])));
    Sections(t.(pc := DiscardTimers([])));
    GoesOn(s, 4, t.(pc := DiscardTimers([])), t.(pc := NotifyDisconnect));
  }

  lemma GoesToDiscard(s: Socket)
    requires s.kind == TCP && s.pc == ReleaseSocket && s.pending == [] && s.timers == []
    ensures Continued(s, 2) == s.(inPool := false, pc := DiscardQueue)
  {
    hide Step, Continued;
    var t := s.(inPool := false, pc := DecideRetry);
    Sections(s);
    GoesOn(s, 0, s, t);
    Sections(t);
    GoesOn(s, 1, t, t.(pc := DiscardQueue));
  }

  lemma GoesOn(s: Socket, n: nat, t: Socket, u: Socket)
    requires (if n == 0 then t == s else Continued(s, n) == t) && Step(t, Continue) == u
    ensures Continued(s, n + 1) == u
  {
    hide Step;
  }

  lemma Sections(s: Socket)
    requires s.kind == TCP && s.pending == [] && s.timers == []
    ensures s.pc == ReleaseSocket ==> Step(s, Continue) == s.(inPool := false, pc := DecideRetry)
    ensures s.pc == DecideRetry ==> Step(s, Continue) == s.(pc := DiscardQueue)
    ensures s.pc == DiscardQueue ==> Step(s, Continue) == s.(pc := DiscardUnsent([]))
    ensures s.pc == DiscardUnsent([]) ==> Step(s, Continue) == s.(pc := DiscardTimers([]))
    ensures s.pc == DiscardTimers([]) ==> Step(s, Continue) == s.(pc := NotifyDisconnect)
  {
  }

  lemma OverwritingRun(s: Socket)
    ensures Run(s, Overwriting())
            == Continued(Step(Step(s, CallConnect(0, Dial(true, OK, true))), CallDisconnect), 5)
  {
    hide Step, Run;
    var d := Dial(true, OK, true);
    var t := Step(s, CallConnect(0, d));
    FiveMore(Step(t, CallDisconnect));
    var five := [Continue] + ([Continue] + ([Continue] + ([Continue] + ([Continue] + []))));
    RunCons(t, CallDisconnect, five);
    RunCons(s, CallConnect(0, d), [CallDisconnect] + five);
  }

  lemma FiveMore(s: Socket)
    ensures Run(s, [Continue] + ([Continue] + ([Continue] + ([Continue] + ([Continue] + []))))) == Continued(s, 5)
  {
    hide Step, Run, Continued;
    OneMore(s, 4, []);
    OneMore(s, 3, [Continue] + []);
    OneMore(s, 2, [Continue] + ([Continue] + []));
    OneMore(s, 1, [Continue] + ([Continue] + ([Continue] + [])));
    OneMore(s, 0, [Continue] + ([Continue] + ([Continue] + ([Continue] + []))));
    RunNil(Continued(s, 5));
    NoneYet(s);
  }

  lemma OneMore(s: Socket, n: nat, rest: seq<Action>)
    ensures Run(Continued(s, n), [Continue] + rest) == Run(Continued(s, n + 1), rest)
  {
    hide Step, Run;
    RunCons(Continued(s, n), Continue, rest);
  }

  lemma NoneYet(s: Socket)
    ensures Continued(s, 0) == s
  {
  }

  /**
    "OnDisconnect of a stream that failed says why": when another thread connects and disconnects while
    that close is under way, the handler is told LNR_OK for a connect that failed.
  */
  lemma FailureReportedOk()
    ensures var run := FailedConnect(Overwriting());
            var t := Run(Client(TCP, UNUSED), run);
            && t.pc == NotifyDisconnect && !t.handshaking && t.closing == 1 && FailedIn(t.trace, 1)
            && OverwrittenIn(Client(TCP, UNUSED), run, false)
            && Step(t, Continue).trace
               == [Opened(1, true), TransportFailed(1, Other(1)), CloseIssued(1), Closed(1), Opened(2, true),
                   CloseIssued(2), HandlerDisconnect(1, OK)]
  {
    var run := FailedConnect(Overwriting());
    OverwrittenRun();
    hide Step, Run, Client, FailedConnect, Overwriting, OverwrittenIn, Reason;
    var t := Run(Client(TCP, UNUSED), run);
    assert t.trace[1] == TransportFailed(1, Other(1));
    ReasonToldExactly(Client(TCP, UNUSED), run);
    DisconnectReason(Client(TCP, UNUSED), run);
  }

  lemma OverwrittenRun()
    ensures var t := Run(Client(TCP, UNUSED), FailedConnect(Overwriting()));
            && t.pc == NotifyDisconnect && !t.handshaking && t.closing == 1 && t.lastError == OK
            && t.trace == [Opened(1, true), TransportFailed(1, Other(1)), CloseIssued(1), Closed(1), Opened(2, true),
                           CloseIssued(2)]
  {
    var s := AfterFailure();
    hide Step, Run, Client, AfterFailure, Continued, FailedConnect, Overwriting;
    FailsOnce();
    FailedRun(Overwriting());
    OverwritingRun(s);
    Overwrites(s);
    GoesToReport(Step(Step(s, CallConnect(0, Dial(true, OK, true))), CallDisconnect));
  }
}
