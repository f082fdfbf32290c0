/**
  The automatic reconnect of digest authentication is bounded: whatever the server answers and
  whoever interferes, one Connect of the application causes at most one of them.
*/
module Retry {
  import opened Basics
  import opened Protocol
  import opened Ledger
  import opened Lifecycle
  import opened StreamBooks
  import opened Reports

  /** How far the replies of this epoch have come, and what they can still lead to. */
  predicate Progress(s: Socket) {
    && (s.connectTimer && !s.pc.ConnectLock? ==> s.replies == 0)
    && (s.dialing ==> !s.reading && !Failing(s.pc))
    && (s.dialing && s.replies >= 1 ==>
          (s.pc == ConnectLock(ETIMEDOUT) && s.state == CONNECTING) || (s.state == DISCONNECTING && s.lastError != EWS))
    && (s.reading || Failing(s.pc) ==> s.replies == 1)
    && (s.replies == 0 && !Live(s) ==> s.lastError != EWS)
    && (s.replies >= 2 ==> !Live(s) && s.lastError != EWS)
    && (s.pc.ConnectLock? ==> s.replies >= 1)
    && (s.pc == ConnectCallback ==> s.replies == 1)
    && (s.kind.WS? && s.replies >= 1 && s.ws.auth == DIGEST ==> s.ws.nc >= 1)
  }

  predicate Counted(s: Socket, streak: nat) {
    && s.ws.nc <= NC_LIMIT + 1
    && streak <= 1
    && (s.kind.TCP? ==> streak == 0 && s.pc != RetryConnect)
    && (streak == 1 && s.replies == 0 ==> s.ws.nc == 1)
    && (streak == 1 && s.replies == 1 ==> s.ws.auth != DIGEST || s.ws.nc == 2)
    && (s.pc == RetryConnect && s.state == DISCONNECTED ==> streak == 0 && s.ws.nc == 1)
  }

  ghost predicate Bounded(s: Socket) {
    s.connectable ==> Progress(s) && Counted(s, Log(s.trace).streak)
  }

  lemma SameBounded(s: Socket, t: Socket)
    requires Bounded(s) && t.connectable == s.connectable && t.kind == s.kind
             && Log(t.trace).streak == Log(s.trace).streak
    requires t.ws.nc == s.ws.nc && t.ws.auth == s.ws.auth && t.replies == s.replies && t.epoch == s.epoch
    requires t.connectTimer ==> s.connectTimer && (s.pc.ConnectLock? ==> t.pc.ConnectLock?)
    requires t.dialing == s.dialing && t.reading == s.reading
    requires t.state == s.state && t.lastError == s.lastError
    requires t.pc == s.pc || !(s.pc.ConnectLock? || t.pc.ConnectLock? || Failing(t.pc) || t.pc == ConnectCallback
             || t.pc == RetryConnect)
    ensures Bounded(t)
  {
  }

  lemma OtherStreak(trace: seq<Event>, e: Event)
    requires !e.Opened?
    ensures Log(trace + [e]).streak == Log(trace).streak
  {
    hide Log;
    LogAppend(trace, e);
  }

  lemma OpenBounded(s: Socket, t: Socket, byUser: bool)
    requires s.connectable && Bounded(s) && s.ws.nc == t.ws.nc && t.kind == s.kind
    requires t.trace == s.trace + [Opened(s.epoch + 1, byUser)]
    requires t.state == CONNECTING && t.dialing && !t.reading && t.replies == 0
    requires t.pc == s.pc && !InStream(t.pc)
    requires !byUser ==> s.kind.WS? && Log(s.trace).streak == 0 && s.ws.nc == 1
    ensures Bounded(t)
  {
    hide Log;
    LogAppend(s.trace, Opened(s.epoch + 1, byUser));
    hide Log;
  }

  lemma ConnectBounded(s: Socket, timeout: nat, dial: Dial, byUser: bool)
    requires Orderly(s) && Bounded(s)
    requires !byUser && s.state == DISCONNECTED ==> s.kind.WS? && Log(s.trace).streak == 0 && s.ws.nc == 1
    ensures Bounded(DoConnect(s, timeout, dial, byUser))
  {
    hide Bounded, Log;
    if s.connectable && s.state == DISCONNECTED && dial.room {
      if dial.status != OK {
        SameBounded(s, s.(inPool := false));
      } else {
        OpenBounded(s, DoConnect(s, timeout, dial, byUser), byUser);
      }
    }
  }

  lemma ClosedBounded(s: Socket, t: Socket)
    requires Orderly(s) && Bounded(s) && Live(s) && t.state == DISCONNECTING && t.lastError == OK
    requires t.connectable == s.connectable && t.kind == s.kind && t.ws == s.ws && t.replies == s.replies
    requires t.dialing == s.dialing && t.reading == s.reading && !t.connectTimer && t.pc == s.pc
    requires Log(t.trace).streak == Log(s.trace).streak
    ensures Bounded(t)
  {
  }

  lemma DisconnectBounded(s: Socket, handshaking: bool)
    requires Orderly(s) && Bounded(s)
    ensures Bounded(DoDisconnect(s, handshaking))
  {
    OtherStreak(s.trace, CloseIssued(s.epoch));
    hide Log, Bounded;
    if Live(s) {
      ClosedBounded(s, DoDisconnect(s, handshaking));
    } else {
      SameBounded(s, s.(handshaking := handshaking));
    }
  }

  lemma LockCancelled(s: Socket)
    requires Bounded(s) && s.pc.ConnectLock? && s.state != CONNECTING
    ensures Bounded(DoConnectLock(s, s.pc.status))
  {
    hide Log;
  }

  lemma LockFailed(s: Socket)
    requires Orderly(s) && Bounded(s) && s.pc.ConnectLock? && s.state == CONNECTING && s.pc.status != OK
    ensures Bounded(DoConnectLock(s, s.pc.status))
  {
    OtherStreak(s.trace, TransportFailed(s.epoch, s.pc.status));
    hide Log;
  }

  lemma LockConnected(s: Socket)
    requires Orderly(s) && Bounded(s) && s.pc.ConnectLock? && s.state == CONNECTING && s.pc.status == OK
    ensures Bounded(DoConnectLock(s, s.pc.status))
  {
    OtherStreak(s.trace, HandlerConnect(s.epoch));
    hide Log;
    ConnectedBounded(s, DoConnectLock(s, s.pc.status));
  }

  lemma ConnectedBounded(s: Socket, t: Socket)
    requires Orderly(s) && Bounded(s) && s.pc == ConnectLock(OK) && s.state == CONNECTING
    requires t == s.(connectTimer := false, reading := true, lastError := OK, pc := ConnectCallback, trace := t.trace)
    requires Log(t.trace).streak == Log(s.trace).streak
    ensures Bounded(t)
  {
    assert !s.dialing;
    hide Log, Orderly;
  }

  lemma ConnectLockBounded(s: Socket)
    requires Orderly(s) && Bounded(s) && s.pc.ConnectLock?
    ensures Bounded(DoConnectLock(s, s.pc.status))
  {
    hide Bounded, Orderly, DoConnectLock;
    if s.state != CONNECTING {
      LockCancelled(s);
    } else if s.pc.status != OK {
      LockFailed(s);
    } else {
      LockConnected(s);
    }
  }

  lemma ReplyBounded(s: Socket, a: Action)
    requires Orderly(s) && Bounded(s) && Enabled(s, a) && (a.ConnectDone? || a.ConnectTimeout?)
    ensures Bounded(Next(s, a))
  {
    hide Log;
  }

  lemma DecideBounded(s: Socket)
    requires Orderly(s) && Bounded(s) && s.pc == DecideRetry
    ensures Bounded(DoDecideRetry(s))
  {
    hide Log;
  }

  lemma MoveOnBounded(s: Socket, pc: LoopPc)
    requires Bounded(s)
    requires !(s.pc.ConnectLock? || pc.ConnectLock? || Failing(pc) || pc == ConnectCallback || pc == RetryConnect)
    ensures Bounded(s.(pc := pc))
  {
    hide Log;
  }

  lemma MessageBounded(s: Socket)
    requires Bounded(s)
    ensures Bounded(Emit(s, HandlerMessage))
  {
    OtherStreak(s.trace, HandlerMessage);
    hide Log, Bounded;
    SameBounded(s, Emit(s, HandlerMessage));
  }

  lemma ResponseBounded(s: Socket, msgid: nat)
    requires Bounded(s)
    ensures Bounded(DoResponse(s, msgid))
  {
    ResponseLog(s, msgid);
    hide Log, Bounded, DoResponse;
    SameBounded(s, DoResponse(s, msgid));
  }

  lemma ReadItemBounded(s: Socket)
    requires Orderly(s) && Bounded(s) && s.pc.ReadItems?
    ensures Bounded(DoReadItem(s, s.pc.items))
  {
    hide Bounded, Log, DoDisconnect, DoResponse;
    MoveOnBounded(s, Idle);
    if s.pc.items != [] {
      var t := s.(pc := ReadItems(s.pc.items[1..]));
      MoveOnBounded(s, t.pc);
      match s.pc.items[0]
      case InRequest => MessageBounded(t);
      case InNotify => MessageBounded(t);
      case InResponse(msgid) => ResponseBounded(t, msgid);
      case Undecodable => DisconnectBounded(s.(pc := Idle), false);
    }
  }

  lemma FailingOn(s: Socket, pc: LoopPc)
    requires Orderly(s) && Bounded(s) && s.pc.ReadFailed? && pc.ReadError?
    ensures Bounded(s.(pc := pc)) && Orderly(s.(pc := pc))
  {
    hide Log;
  }

  lemma ReadFailedBounded(s: Socket)
    requires Orderly(s) && Bounded(s) && s.pc.ReadFailed?
    ensures Bounded(DoDisconnect(s.(pc := ReadError(s.pc.error)), s.handshaking))
  {
    hide Bounded, Orderly, DoDisconnect;
    FailingOn(s, ReadError(s.pc.error));
    DisconnectBounded(s.(pc := ReadError(s.pc.error)), s.handshaking);
  }

  lemma ReadErrorBounded(s: Socket)
    requires Orderly(s) && Bounded(s) && s.pc.ReadError?
    ensures Bounded(s.(lastError := s.pc.error, pc := Idle))
  {
    hide Log;
  }

  lemma ReturnedBounded(s: Socket)
    requires Orderly(s) && Bounded(s) && s.pc == ConnectCallback
    ensures Bounded(DoConnectReturned(s))
  {
    hide Log;
  }

  lemma EndBounded(s: Socket, e: Event)
    requires Bounded(s) && InClose(s.pc) && !e.Opened?
    ensures Bounded(Emit(s.(pc := Idle), e))
  {
    OtherStreak(s.trace, e);
    hide Log, Bounded;
    SameBounded(s, Emit(s.(pc := Idle), e));
  }

  lemma ReportingBounded(s: Socket)
    requires Streamed(s) && Bounded(s) && (s.pc.ReportUnsent? || s.pc.DiscardUnsent? || s.pc.DiscardTimers?)
    ensures Bounded(DoContinue(s))
  {
    hide Bounded, Log, DoReportUnsent, DoDiscardUnsent, DoDiscardTimers;
    if InClose(s.pc) {
      NotEnded(s);
    }
    hide Streamed;
    match s.pc
    case ReportUnsent(unsent) =>
      ReportLog(s, unsent);
      SameBounded(s, DoReportUnsent(s, unsent));
    case DiscardUnsent(unsent) =>
      DiscardUnsentLog(s, unsent);
      SameBounded(s, DoDiscardUnsent(s, unsent));
    case DiscardTimers(entries) =>
      DiscardTimersLog(s, entries);
      SameBounded(s, DoDiscardTimers(s, entries));
  }

  lemma IssueCloseBounded(s: Socket)
    requires Bounded(s) && s.pc == IssueClose
    ensures Bounded(DoIssueClose(s))
  {
    OtherStreak(s.trace, CloseIssued(s.epoch));
    hide Log, Bounded;
    SameBounded(s, DoIssueClose(s));
  }

  lemma QuietBounded(s: Socket)
    requires Bounded(s) && (s.pc == ReleaseSocket || s.pc == DiscardQueue)
    ensures Bounded(DoContinue(s))
  {
    hide Log, Bounded;
    if s.pc == ReleaseSocket {
      SameBounded(s, s.(inPool := false, pc := DecideRetry));
    } else {
      SameBounded(s, s.(pc := DiscardUnsent(s.pending), pending := []));
    }
  }

  lemma ContinueBounded(s: Socket)
    requires Orderly(s) && Streamed(s) && Bounded(s) && Enabled(s, Continue)
    ensures Bounded(DoContinue(s))
  {
    hide Bounded, Streamed, Orderly, DoConnectLock, DoReportUnsent, DoDisconnect, DoReadItem, DoDiscardUnsent,
         DoDiscardTimers, DoDecideRetry, DoIssueClose, DoConnectReturned;
    match s.pc
    case ConnectLock(_) => ConnectLockBounded(s);
    case IssueClose => IssueCloseBounded(s);
    case ConnectCallback => ReturnedBounded(s);
    case HandshakeFailed => HandshakeFailedBounded(s);
    case ReadItems(_) => ReadItemBounded(s);
    case ReadFailed(error) => ReadFailedBounded(s);
    case ReadError(_) => ReadErrorBounded(s);
    case DecideRetry => DecideBounded(s);
    case NotifyDisconnect => EndBounded(s, if s.handshaking then Suppressed(s.closing)
        else HandlerDisconnect(s.closing, s.lastError));
    case ReportUnsent(_) => ReportingBounded(s);
    case DiscardUnsent(_) => ReportingBounded(s);
    case DiscardTimers(_) => ReportingBounded(s);
    case _ => QuietBounded(s);
  }

  lemma HandshakeFailedBounded(s: Socket)
    requires Orderly(s) && Bounded(s) && s.pc == HandshakeFailed
    ensures Bounded(DoDisconnect(s.(pc := Idle), true))
  {
    hide Bounded, DoDisconnect;
    MoveOnBounded(s, Idle);
    DisconnectBounded(s.(pc := Idle), true);
  }

  lemma RetryBounded(s: Socket, dial: Dial)
    requires Orderly(s) && Bounded(s) && s.pc == RetryConnect && s.connectable
    ensures Bounded(DoRetry(s, dial))
  {
    var t := Emit(s.(pc := Idle), CloseRetried(s.closing));
    OtherStreak(s.trace, CloseRetried(s.closing));
    EndBounded(s, CloseRetried(s.closing));
    assert Orderly(t);
    assert s.state == DISCONNECTED ==> s.kind.WS? && Log(t.trace).streak == 0 && t.ws.nc == 1;
    hide Bounded, DoConnect, Log, Orderly;
    ConnectBounded(t, s.connectTimeout, dial, false);
  }

  lemma CloseDoneBounded(s: Socket)
    requires Orderly(s) && Bounded(s) && s.pc == Idle && s.stream == Closing
    ensures Bounded(DoCloseDone(s))
  {
    OtherStreak(s.trace, Closed(s.epoch));
    hide Log;
  }

  lemma BrokenBounded(s: Socket, t: Socket, error: Error)
    requires Orderly(s) && Bounded(s) && Enabled(s, ReadBroken(error)) && Live(s)
    requires t == s.(pc := ReadFailed(error), trace := t.trace) && Log(t.trace).streak == Log(s.trace).streak
    ensures Bounded(t)
  {
    assert !s.pc.ConnectLock? && s.reading;
    hide Log;
  }

  lemma ReadBrokenBounded(s: Socket, error: Error)
    requires Orderly(s) && Bounded(s) && Enabled(s, ReadBroken(error))
    ensures Bounded(DoReadBroken(s, error))
  {
    OtherStreak(s.trace, TransportFailed(s.epoch, error));
    hide Log, Bounded, Orderly, Enabled;
    if Live(s) {
      BrokenBounded(s, DoReadBroken(s, error), error);
    }
  }

  lemma AsideBounded(s: Socket, t: Socket)
    requires Bounded(s) && Aside(s, t)
    ensures Bounded(t)
  {
    hide Log, Bounded;
    SameBounded(s, t);
  }

  lemma NextBounded(s: Socket, a: Action)
    requires Orderly(s) && Streamed(s) && Bounded(s) && s.connectable && Enabled(s, a)
    ensures Bounded(Next(s, a))
  {
    if Talks(a) {
      hide Bounded, Streamed, Orderly, Aside, Next, Enabled;
      TalkAside(s, a);
      AsideBounded(s, Next(s, a));
    } else {
      hide Bounded, Streamed, Orderly, Talks, DoConnect, DoDisconnect, DoCloseDone, DoContinue, DoRetry, TakeReply,
           DoReadChunk, DoReadBroken;
      match a
      case CallConnect(timeout, dial) => ConnectBounded(s, timeout, dial, true);
      case CallDisconnect => DisconnectBounded(s, false);
      case ConnectDone(_, _) => ReplyBounded(s, a);
      case ConnectTimeout(_) => ReplyBounded(s, a);
      case ReadChunk(items) => ReadChunkBounded(s, items);
      case ReadBroken(error) => ReadBrokenBounded(s, error);
      case CloseDone => CloseDoneBounded(s);
      case Continue => ContinueBounded(s);
      case ContinueRetry(dial) => RetryBounded(s, dial);
      case HandshakeDone(_) =>
    }
  }

  lemma StepBounded(s: Socket, a: Action)
    requires Orderly(s) && Streamed(s) && Bounded(s) && s.connectable
    ensures Bounded(Step(s, a))
  {
    hide Orderly, Streamed, Bounded, Next, Enabled;
    if Enabled(s, a) {
      NextBounded(s, a);
    }
  }

  lemma ReadChunkBounded(s: Socket, items: seq<Item>)
    requires Bounded(s) && s.pc == Idle
    ensures Bounded(DoReadChunk(s, items))
  {
    hide Bounded, Log;
    if Live(s) {
      SameBounded(s, DoReadChunk(s, items));
    }
  }

  lemma InitialBounded(s: Socket)
    requires Initial(s)
    ensures Bounded(s)
  {
  }

  lemma {:induction false} RunBounded(s: Socket, run: seq<Action>)
    requires Orderly(s) && Streamed(s) && Bounded(s) && s.connectable
    ensures Bounded(Run(s, run)) && Run(s, run).connectable
    decreases |run|
  {
    hide Bounded, Streamed, Orderly, Step;
    if run != [] {
      StepGood(s, run[0]);
      StepStreamed(s, run[0]);
      StepBounded(s, run[0]);
      RunBounded(Step(s, run[0]), run[1..]);
    }
  }

  /**
    In every run of a client, whatever replies come: since the application last connected there was
    at most one automatic reconnect, and the nonce count stays within 0..0xfffe.
  */
  lemma AtMostOneRetry(kind: Kind, auth: AuthType, run: seq<Action>)
    ensures var t := Run(Client(kind, auth), run);
            Log(t.trace).streak <= 1 && t.ws.nc <= 0xfffe
  {
    var s := Client(kind, auth);
    InitialOrderly(s);
    InitialStreamed(s);
    InitialBounded(s);
    RunBounded(s, run);
  }
}
