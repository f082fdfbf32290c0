/**
  A close that ends in the automatic reconnect: whatever others do meanwhile, a reconnect that
  succeeds takes the queue along as it was at the close, and one that is refused says nothing.
*/
module Reconnect {
  import opened Basics
  import opened Protocol
  import opened Ledger
  import opened Lifecycle

  /** OnDisconnect has not decided against the reconnect. */
  predicate Undecided(pc: LoopPc) {
    pc == ReleaseSocket || pc == DecideRetry || pc == RetryConnect
  }

  /** The loop thread stays there through the whole run. */
  predicate StaysUndecided(s: Socket, run: seq<Action>)
    decreases |run|
  {
    Undecided(s.pc) && (run == [] || StaysUndecided(Step(s, run[0]), run[1..]))
  }

  /** While the socket is DISCONNECTED, what matters to the reconnect is as it was at the close. */
  predicate AsClosed(s: Socket, t: Socket) {
    t.state == DISCONNECTED ==>
      && t.pending == s.pending && t.timers == s.timers && t.trace == s.trace
      && t.epoch == s.epoch && t.closing == s.closing && t.connectable == s.connectable
  }

  lemma ConnectAsClosed(s: Socket, timeout: nat, dial: Dial)
    ensures AsClosed(s, DoConnect(s, timeout, dial, true))
    ensures s.state != DISCONNECTED ==> DoConnect(s, timeout, dial, true).state != DISCONNECTED
  {
  }

  lemma DisconnectAsClosed(s: Socket)
    ensures AsClosed(s, DoDisconnect(s, false))
    ensures s.state != DISCONNECTED ==> DoDisconnect(s, false).state != DISCONNECTED
  {
  }

  lemma SendAsClosed(s: Socket, body: Message, write: Error)
    ensures AsClosed(s, DoSend(s, body, write)) && DoSend(s, body, write).state == s.state
  {
    hide QueueUp, Refuse, WriteNow, Allocate;
  }

  lemma ContinueAsClosed(s: Socket)
    requires Undecided(s.pc) && Enabled(s, Continue)
    ensures AsClosed(s, DoContinue(s)) && DoContinue(s).state == s.state
  {
    assert s.pc == ReleaseSocket || s.pc == DecideRetry;
    hide DoDecideRetry, Enabled;
    if s.pc == DecideRetry {
      assert DoContinue(s) == DoDecideRetry(s);
      hide DoContinue;
    } else {
      assert DoContinue(s) == s.(inPool := false, pc := DecideRetry);
      hide DoContinue;
    }
  }

  lemma StepAsClosed(s: Socket, a: Action)
    requires Orderly(s) && Undecided(s.pc) && Undecided(Step(s, a).pc)
    ensures AsClosed(s, Step(s, a))
    ensures s.state != DISCONNECTED ==> Step(s, a).state != DISCONNECTED
  {
    if Enabled(s, a) {
      assert Unlocked(s);
      hide Orderly, AsClosed, DoConnect, DoDisconnect, DoSend, DoContinue, DoRetry;
      match a
      case CallConnect(timeout, dial) => ConnectAsClosed(s, timeout, dial);
      case CallDisconnect => DisconnectAsClosed(s);
      case CallSend(body, write) => SendAsClosed(s, body, write);
      case Continue => ContinueAsClosed(s);
      case ContinueRetry(dial) => RetryEnds(s, dial);
    }
  }

  lemma RetryEnds(s: Socket, dial: Dial)
    ensures DoRetry(s, dial).pc == Idle
  {
  }

  lemma {:induction false} RunAsClosed(s: Socket, run: seq<Action>)
    requires Orderly(s) && StaysUndecided(s, run)
    ensures AsClosed(s, Run(s, run))
    ensures s.state != DISCONNECTED ==> Run(s, run).state != DISCONNECTED
    decreases |run|
  {
    if run != [] {
      var t := Step(s, run[0]);
      StepGood(s, run[0]);
      assert Undecided(t.pc);
      hide Orderly, Step, Undecided;
      StepAsClosed(s, run[0]);
      RunAsClosed(t, run[1..]);
    }
  }

  lemma Closes(s: Socket)
    requires Orderly(s) && Enabled(s, CloseDone)
    ensures var t := Step(s, CloseDone);
            && t.trace == s.trace + [Closed(s.epoch)] && t.pending == s.pending && t.timers == s.timers
            && t.epoch == s.epoch && t.closing == s.epoch && t.connectable == s.connectable
  {
    assert s.state == DISCONNECTING;
  }

  lemma Connects(s: Socket, timeout: nat, dial: Dial)
    requires s.connectable && s.state == DISCONNECTED && dial.room && dial.status == OK
    ensures var t := DoConnect(s, timeout, dial, false);
            && t.state == CONNECTING && t.epoch == s.epoch + 1 && t.pending == s.pending && t.timers == s.timers
            && t.trace == s.trace + [Opened(s.epoch + 1, false)]
  {
  }

  lemma Dials(s: Socket, dial: Dial)
    requires Enabled(s, ContinueRetry(dial)) && ConnectResult(s, dial) == OK
    ensures var t := Step(s, ContinueRetry(dial));
            && s.state == DISCONNECTED && t.state == CONNECTING && t.epoch == s.epoch + 1
            && t.pending == s.pending && t.timers == s.timers
            && t.trace == s.trace + [CloseRetried(s.closing), Opened(s.epoch + 1, false)]
  {
    var u := Emit(s.(pc := Idle), CloseRetried(s.closing));
    RetryStep(s, dial);
    assert s.connectable && s.state == DISCONNECTED && dial.room && dial.status == OK;
    hide Step, Enabled, DoConnect, ConnectResult;
    Connects(u, s.connectTimeout, dial);
    assert u.trace + [Opened(s.epoch + 1, false)] == s.trace + [CloseRetried(s.closing), Opened(s.epoch + 1, false)];
  }

  lemma RetryStep(s: Socket, dial: Dial)
    requires Enabled(s, ContinueRetry(dial))
    ensures Step(s, ContinueRetry(dial))
            == DoConnect(Emit(s.(pc := Idle), CloseRetried(s.closing)), s.connectTimeout, dial, false)
  {
    hide Enabled, DoConnect;
  }

  /**
    Whatever happens between the close callback and the reconnect, if the reconnect's Connect
    succeeds: the queue and the timer table go into the next epoch as they were at the close, and
    the handler has heard neither OnError nor OnDisconnect.
  */
  lemma RetryCarriesQueue(s: Socket, between: seq<Action>, dial: Dial)
    requires Orderly(s) && Enabled(s, CloseDone) && StaysUndecided(Step(s, CloseDone), between)
    requires var u := Run(Step(s, CloseDone), between);
             Enabled(u, ContinueRetry(dial)) && ConnectResult(u, dial) == OK
    ensures var t := Step(Run(Step(s, CloseDone), between), ContinueRetry(dial));
            && t.state == CONNECTING && t.epoch == s.epoch + 1
            && t.pending == s.pending && t.timers == s.timers
            && t.trace == s.trace + [Closed(s.epoch), CloseRetried(s.epoch), Opened(s.epoch + 1, false)]
  {
    hide Step, Enabled, Orderly, Run, StaysUndecided, ConnectResult;
    Closes(s);
    StepGood(s, CloseDone);
    var c := Step(s, CloseDone);
    var u := Run(c, between);
    RunAsClosed(c, between);
    Dials(u, dial);
    assert s.trace + [Closed(s.epoch)] + [CloseRetried(s.epoch), Opened(s.epoch + 1, false)]
        == s.trace + [Closed(s.epoch), CloseRetried(s.epoch), Opened(s.epoch + 1, false)];
  }

  /**
    A reconnect whose Connect is refused, for want of room, by the transport, or because the
    application was faster, ends the close in silence with the collections as they are.
  */
  lemma RefusedRetryIsSilent(s: Socket, dial: Dial)
    requires Enabled(s, ContinueRetry(dial)) && ConnectResult(s, dial) != OK
    ensures var t := Step(s, ContinueRetry(dial));
            && t.pc == Idle && t.state == s.state && t.epoch == s.epoch
            && t.pending == s.pending && t.timers == s.timers
            && t.trace == s.trace + [CloseRetried(s.closing)]
  {
    var u := Emit(s.(pc := Idle), CloseRetried(s.closing));
    assert Step(s, ContinueRetry(dial)) == DoConnect(u, s.connectTimeout, dial, false);
    hide Step;
    assert ConnectResult(u, dial) == ConnectResult(s, dial);
  }

  // ---- The bound is reached ----

  /** The server refuses the first handshake with a challenge. */
  const REFUSED := Reply(401, Some(DIGEST))

  function Refusal(): seq<Action> {
    [CallConnect(0, Dial(true, OK, true))] + ([ConnectDone(EWS, REFUSED)] + ([Continue] + ([Continue] + ([CloseDone]
    + ([Continue] + ([Continue] + ([ContinueRetry(Dial(true, OK, true))] + [])))))))
  }

  lemma ConnectsAndFails()
    ensures var s := Client(WS, DIGEST);
            var t := Step(Step(s, CallConnect(0, Dial(true, OK, true))), ConnectDone(EWS, REFUSED));
            && t.pc == ConnectLock(EWS) && t.state == CONNECTING && Unlocked(t) && t.connectable && t.kind == WS
            && t.ws == WsContext(401, DIGEST, 1) && t.epoch == 1 && t.inflight == multiset{} && t.stream == Open
            && t.trace == [Opened(1, true)]
  {
    var t := Step(Client(WS, DIGEST), CallConnect(0, Dial(true, OK, true)));
    assert t.pc == Idle && t.state == CONNECTING && Unlocked(t) && t.connectable && t.kind == WS && t.dialing;
    assert t.ws.nc == 0 && t.epoch == 1 && t.inflight == multiset{} && t.stream == Open && t.trace == [Opened(1, true)];
  }

  lemma ClosesForRetry(s: Socket)
    requires s.pc == ConnectLock(EWS) && s.state == CONNECTING && Unlocked(s) && s.connectable && s.kind == WS
    requires CheckRetryAuth(s.ws) && s.inflight == multiset{} && s.stream == Open
    ensures var t := Step(Step(Step(s, Continue), Continue), CloseDone);
            && t.pc == ReleaseSocket && t.state == DISCONNECTED && Unlocked(t) && t.connectable && t.kind == WS
            && t.lastError == EWS && t.ws == s.ws && t.epoch == s.epoch && t.closing == s.epoch
            && t.trace == s.trace + [TransportFailed(s.epoch, EWS)] + [CloseIssued(s.epoch)] + [Closed(s.epoch)]
  {
    var t := Step(s, Continue);
    assert t.pc == IssueClose && t.state == DISCONNECTING && Unlocked(t) && t.connectable && t.kind == WS;
    assert t.lastError == EWS && t.ws == s.ws && t.inflight == multiset{} && t.epoch == s.epoch;
    assert t.trace == s.trace + [TransportFailed(s.epoch, EWS)];
    IssuesAndCloses(t);
  }

  lemma IssuesAndCloses(t: Socket)
    requires t.pc == IssueClose && t.state == DISCONNECTING && Unlocked(t) && t.inflight == multiset{}
    ensures var v := Step(Step(t, Continue), CloseDone);
            && v.pc == ReleaseSocket && v.state == DISCONNECTED && Unlocked(v) && v.connectable == t.connectable
            && v.kind == t.kind && v.lastError == t.lastError && v.ws == t.ws && v.epoch == t.epoch
            && v.closing == t.epoch && v.trace == t.trace + [CloseIssued(t.epoch)] + [Closed(t.epoch)]
  {
    var u := Step(t, Continue);
    assert u == DoIssueClose(t);
  }

  lemma DecidesToRetry(s: Socket)
    requires s.pc == ReleaseSocket && s.connectable && s.kind == WS && CheckRetryAuth(s.ws) && s.lastError == EWS
    ensures Step(Step(s, Continue), Continue) == s.(inPool := false, pc := RetryConnect)
  {
    var t := s.(inPool := false, pc := DecideRetry);
    assert Step(s, Continue) == t;
    hide Step;
    Decides(t);
  }

  lemma Decides(s: Socket)
    requires s.pc == DecideRetry && s.connectable && s.kind == WS && CheckRetryAuth(s.ws) && s.lastError == EWS
    ensures Step(s, Continue) == s.(pc := RetryConnect)
  {
    assert Step(s, Continue) == DoDecideRetry(s);
    hide Step;
  }

  lemma RetriesOnce(s: Socket, d: Dial)
    requires s.pc == ReleaseSocket && s.state == DISCONNECTED && Unlocked(s) && s.connectable && s.kind == WS
    requires CheckRetryAuth(s.ws) && s.lastError == EWS && d.room && d.status == OK
    ensures var t := Step(Step(Step(s, Continue), Continue), ContinueRetry(d));
            && t.state == CONNECTING && t.epoch == s.epoch + 1
            && t.trace == s.trace + [CloseRetried(s.closing), Opened(s.epoch + 1, false)]
  {
    hide Step, CheckRetryAuth;
    DecidesToRetry(s);
    RetriesFrom(s.(inPool := false, pc := RetryConnect), d);
  }

  lemma RetriesFrom(s: Socket, d: Dial)
    requires s.pc == RetryConnect && s.state == DISCONNECTED && Unlocked(s) && s.connectable && d.room && d.status == OK
    ensures var t := Step(s, ContinueRetry(d));
            && t.state == CONNECTING && t.epoch == s.epoch + 1
            && t.trace == s.trace + [CloseRetried(s.closing), Opened(s.epoch + 1, false)]
  {
    assert Enabled(s, ContinueRetry(d)) && ConnectResult(s, d) == OK;
    hide Step, Enabled;
    Dials(s, d);
  }

  lemma RefusalRun(s: Socket, d: Dial)
    requires d == Dial(true, OK, true)
    ensures var s2 := Step(Step(s, CallConnect(0, d)), ConnectDone(EWS, REFUSED));
            var s5 := Step(Step(Step(s2, Continue), Continue), CloseDone);
            Run(s, Refusal()) == Step(Step(Step(s5, Continue), Continue), ContinueRetry(d))
  {
    hide Step, Run;
    var s1 := Step(s, CallConnect(0, d));
    var s2 := Step(s1, ConnectDone(EWS, REFUSED));
    var s3 := Step(s2, Continue);
    var s4 := Step(s3, Continue);
    var s5 := Step(s4, CloseDone);
    var s6 := Step(s5, Continue);
    var s7 := Step(s6, Continue);
    RunNil(Step(s7, ContinueRetry(d)));
    RunCons(s7, ContinueRetry(d), []);
    RunCons(s6, Continue, [ContinueRetry(d)] + []);
    RunCons(s5, Continue, [Continue] + ([ContinueRetry(d)] + []));
    RunCons(s4, CloseDone, [Continue] + ([Continue] + ([ContinueRetry(d)] + [])));
    RunCons(s3, Continue, [CloseDone] + ([Continue] + ([Continue] + ([ContinueRetry(d)] + []))));
    RunCons(s2, Continue, [Continue] + ([CloseDone] + ([Continue] + ([Continue] + ([ContinueRetry(d)] + [])))));
    RunCons(s1, ConnectDone(EWS, REFUSED),
            [Continue] + ([Continue] + ([CloseDone] + ([Continue] + ([Continue] + ([ContinueRetry(d)] + []))))));
    RunCons(s, CallConnect(0, d),
            [ConnectDone(EWS, REFUSED)]
            + ([Continue] + ([Continue] + ([CloseDone] + ([Continue] + ([Continue] + ([ContinueRetry(d)] + [])))))));
  }

  /** A run with one automatic reconnect. */
  lemma RetryHappens()
    ensures var t := Run(Client(WS, DIGEST), Refusal());
            t.state == CONNECTING && t.epoch == 2 && Log(t.trace).streak == 1
  {
    var d := Dial(true, OK, true);
    var s := Client(WS, DIGEST);
    var s2 := Step(Step(s, CallConnect(0, d)), ConnectDone(EWS, REFUSED));
    ConnectsAndFails();
    assert CheckRetryAuth(s2.ws);
    hide Step, Log, Run, Client, Refusal, CheckRetryAuth;
    ClosesForRetry(s2);
    var s5 := Step(Step(Step(s2, Continue), Continue), CloseDone);
    RetriesOnce(s5, d);
    RefusalRun(s, d);
    StreakIsOne();
  }

  /** Events that are no Connect do not count. */
  lemma SameStreak(trace: seq<Event>, e: Event)
    requires !e.Opened?
    ensures Log(trace + [e]).streak == Log(trace).streak
  {
    hide Log;
    LogAppend(trace, e);
  }

  lemma StreakIsOne()
    ensures Log([Opened(1, true)] + [TransportFailed(1, EWS)] + [CloseIssued(1)] + [Closed(1)]
                + [CloseRetried(1), Opened(2, false)]).streak == 1
  {
    var a := [Opened(1, true)];
    var b := a + [TransportFailed(1, EWS)];
    var c := b + [CloseIssued(1)];
    var d := c + [Closed(1)];
    var e := d + [CloseRetried(1)];
    LogAppend([], Opened(1, true));
    assert [] + a == a;
    LogAppend(e, Opened(2, false));
    hide Log;
    SameStreak(a, TransportFailed(1, EWS));
    SameStreak(b, CloseIssued(1));
    SameStreak(c, Closed(1));
    SameStreak(d, CloseRetried(1));
    assert d + [CloseRetried(1), Opened(2, false)] == e + [Opened(2, false)];
  }
}
