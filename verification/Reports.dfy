/**
  What a closed connection is blamed on: the last failure of the transport in that epoch, LNR_OK when
  there was none; and OnDisconnect comes after every cancellation of the same close.
*/
module Reports {
  import opened Basics
  import opened Protocol
  import opened Ledger
  import opened Lifecycle
  import opened StreamBooks

  /** The failure the transport reported for that stream, LNR_OK if none. */
  function Reason(trace: seq<Event>, k: nat): Error {
    var reasons := Log(trace).reasons;
    if k in reasons then reasons[k] else OK
  }

  predicate Failing(pc: LoopPc) {
    pc.ReadFailed? || pc.ReadError?
  }

  ghost predicate Blamed(s: Socket) {
    && (forall k :: k in Log(s.trace).reasons ==> k <= s.epoch && Log(s.trace).reasons[k] != OK)
    && (Failing(s.pc) ==> Reason(s.trace, s.epoch) == s.pc.error)
    && (s.pc.ReadError? ==> !Live(s))
    && (!Failing(s.pc) && Live(s) ==> Reason(s.trace, s.epoch) == OK)
    && (!Failing(s.pc) && !Live(s) ==> s.lastError == Reason(s.trace, s.epoch))
    && (InClose(s.pc) && s.state == DISCONNECTED ==> s.closing == s.epoch)
  }

  lemma SameBlamed(s: Socket, t: Socket)
    requires Blamed(s) && Log(t.trace).reasons == Log(s.trace).reasons && t.epoch == s.epoch
    requires !Failing(s.pc) && !Failing(t.pc)
    requires Live(t) ==> Live(s)
    requires Live(s) ==> Live(t) || t.lastError == OK
    requires !Live(s) ==> t.lastError == s.lastError
    requires InClose(t.pc) && t.state == DISCONNECTED ==>
               InClose(s.pc) && s.state == DISCONNECTED && t.closing == s.closing
    ensures Blamed(t)
  {
  }

  /** The transport failure that closes the connection. */
  lemma FailedBlamed(s: Socket, t: Socket, error: Error)
    requires Blamed(s) && t.trace == s.trace + [TransportFailed(s.epoch, error)] && t.epoch == s.epoch
    requires !InClose(t.pc) && !t.pc.ReadError? && error != OK
    requires if Failing(t.pc) then t.pc.error == error else !Live(t) && t.lastError == error
    ensures Blamed(t)
  {
    hide Log;
    LogAppend(s.trace, TransportFailed(s.epoch, error));
  }

  lemma ClosedLocally(s: Socket, t: Socket)
    requires Blamed(s) && Live(s) && t.trace == s.trace + [CloseIssued(s.epoch)] && t.epoch == s.epoch
    requires t.pc == s.pc && t.state == DISCONNECTING && t.lastError == OK
    ensures Blamed(t)
  {
    hide Log;
    LogAppend(s.trace, CloseIssued(s.epoch));
  }

  lemma DisconnectBlamed(s: Socket, handshaking: bool)
    requires Orderly(s) && Blamed(s)
    ensures Blamed(DoDisconnect(s, handshaking))
  {
    if Live(s) {
      hide Blamed;
      ClosedLocally(s, DoDisconnect(s, handshaking));
    }
  }

  lemma OpenedBlamed(s: Socket, t: Socket, byUser: bool)
    requires Blamed(s) && t.trace == s.trace + [Opened(s.epoch + 1, byUser)] && t.epoch == s.epoch + 1
    requires t.state == CONNECTING && !Failing(t.pc)
    ensures Blamed(t)
  {
    OutcomeReasons(s.trace, Opened(s.epoch + 1, byUser));
    hide Log;
  }

  lemma ConnectBlamed(s: Socket, timeout: nat, dial: Dial, byUser: bool)
    requires Orderly(s) && Blamed(s)
    ensures Blamed(DoConnect(s, timeout, dial, byUser))
  {
    if s.connectable && s.state == DISCONNECTED && dial.room {
      assert !Failing(s.pc);
      hide Orderly, Blamed;
      if dial.status != OK {
        SameBlamed(s, s.(inPool := false));
      } else {
        OpenedBlamed(s, DoConnect(s, timeout, dial, byUser), byUser);
      }
    }
  }

  lemma ConnectFailedBlamed(s: Socket)
    requires Blamed(s) && s.pc.ConnectLock? && s.state == CONNECTING && s.pc.status != OK
    ensures Blamed(DoConnectLock(s, s.pc.status))
  {
    hide Blamed;
    FailedBlamed(s, DoConnectLock(s, s.pc.status), s.pc.status);
  }

  lemma ConnectedBlamed(s: Socket)
    requires Blamed(s) && s.pc.ConnectLock? && s.state == CONNECTING && s.pc.status == OK
    ensures Blamed(DoConnectLock(s, s.pc.status))
  {
    hide Log, Blamed;
    LogAppend(s.trace, HandlerConnect(s.epoch));
    SameBlamed(s, DoConnectLock(s, s.pc.status));
  }

  lemma ConnectLockBlamed(s: Socket)
    requires Orderly(s) && Blamed(s) && s.pc.ConnectLock?
    ensures Blamed(DoConnectLock(s, s.pc.status))
  {
    hide Blamed;
    if s.state != CONNECTING {
      SameBlamed(s, DoConnectLock(s, s.pc.status));
    } else if s.pc.status != OK {
      ConnectFailedBlamed(s);
    } else {
      ConnectedBlamed(s);
    }
  }

  lemma ReadBrokenBlamed(s: Socket, error: Error)
    requires Orderly(s) && Blamed(s) && s.pc == Idle && error != OK
    ensures Blamed(DoReadBroken(s, error))
  {
    hide Blamed;
    if Live(s) {
      FailedBlamed(s, Emit(s.(pc := ReadFailed(error)), TransportFailed(s.epoch, error)), error);
    }
  }

  lemma OutcomeReasons(trace: seq<Event>, e: Event)
    requires !e.TransportFailed?
    ensures Log(trace + [e]).reasons == Log(trace).reasons
  {
    hide Log;
    LogAppend(trace, e);
  }

  lemma ClosedBlamed(s: Socket, t: Socket)
    requires Blamed(s) && !Failing(s.pc) && !Live(s) && !Live(t) && !Failing(t.pc)
    requires t.trace == s.trace + [Closed(s.epoch)] && t.epoch == s.epoch && t.lastError == s.lastError
    requires InClose(t.pc) ==> t.closing == s.epoch
    ensures Blamed(t)
  {
    OutcomeReasons(s.trace, Closed(s.epoch));
    hide Log;
  }

  lemma CloseDoneBlamed(s: Socket)
    requires Orderly(s) && Blamed(s) && s.pc == Idle && s.stream == Closing
    ensures Blamed(DoCloseDone(s))
  {
    hide Blamed;
    ClosedBlamed(s, DoCloseDone(s));
  }

  lemma EndBlamed(s: Socket, e: Event)
    requires Blamed(s) && InClose(s.pc) && (e.Suppressed? || e.CloseRetried? || e.HandlerDisconnect?)
    ensures Blamed(Emit(s.(pc := Idle), e))
  {
    hide Blamed, Log;
    OutcomeReasons(s.trace, e);
    SameBlamed(s, Emit(s.(pc := Idle), e));
  }

  lemma MessageBlamed(s: Socket)
    requires Blamed(s) && s.pc.ReadItems?
    ensures Blamed(Emit(s, HandlerMessage))
  {
    hide Blamed, Log;
    OutcomeReasons(s.trace, HandlerMessage);
    SameBlamed(s, Emit(s, HandlerMessage));
  }

  lemma ResponseBlamed(s: Socket, msgid: nat)
    requires Blamed(s) && s.pc.ReadItems?
    ensures Blamed(DoResponse(s, msgid))
  {
    hide Blamed, Log, DoResponse;
    ResponseLog(s, msgid);
    SameBlamed(s, DoResponse(s, msgid));
  }

  lemma ReadItemBlamed(s: Socket)
    requires Orderly(s) && Blamed(s) && s.pc.ReadItems?
    ensures Blamed(DoReadItem(s, s.pc.items))
  {
    hide Blamed, Orderly, Log, DoDisconnect, DoResponse;
    SameBlamed(s, s.(pc := Idle));
    if s.pc.items != [] {
      var t := s.(pc := ReadItems(s.pc.items[1..]));
      SameBlamed(s, t);
      match s.pc.items[0]
      case InRequest => MessageBlamed(t);
      case InNotify => MessageBlamed(t);
      case InResponse(msgid) => ResponseBlamed(t, msgid);
      case Undecodable => UndecodableBlamed(s);
    }
  }

  lemma UndecodableBlamed(s: Socket)
    requires Orderly(s) && Blamed(s) && s.pc.ReadItems?
    ensures Blamed(DoDisconnect(s.(pc := Idle), false))
  {
    hide Blamed, DoDisconnect;
    SameBlamed(s, s.(pc := Idle));
    DisconnectBlamed(s.(pc := Idle), false);
  }

  lemma HandshakeFailedBlamed(s: Socket)
    requires Orderly(s) && Blamed(s) && s.pc == HandshakeFailed
    ensures Blamed(DoDisconnect(s.(pc := Idle), true))
  {
    hide Blamed, DoDisconnect;
    SameBlamed(s, s.(pc := Idle));
    DisconnectBlamed(s.(pc := Idle), true);
  }

  lemma FailingOn(s: Socket, t: Socket)
    requires Blamed(s) && s.pc.ReadFailed? && t.pc == ReadError(s.pc.error) && t.epoch == s.epoch && !Live(t)
    requires Log(t.trace).reasons == Log(s.trace).reasons
    ensures Blamed(t)
  {
  }

  lemma ReadFailedBlamed(s: Socket)
    requires Orderly(s) && Blamed(s) && s.pc.ReadFailed?
    ensures Blamed(DoDisconnect(s.(pc := ReadError(s.pc.error)), s.handshaking))
  {
    hide Blamed, Orderly, Log, DoDisconnect;
    var t := s.(pc := ReadError(s.pc.error));
    DisconnectCloses(t, s.handshaking);
    FailingOn(s, DoDisconnect(t, s.handshaking));
  }

  lemma DisconnectCloses(s: Socket, handshaking: bool)
    ensures var t := DoDisconnect(s, handshaking);
            t.pc == s.pc && t.epoch == s.epoch && !Live(t) && Log(t.trace).reasons == Log(s.trace).reasons
  {
    hide Log;
    if Live(s) {
      OutcomeReasons(s.trace, CloseIssued(s.epoch));
    }
  }

  lemma ReadErrorBlamed(s: Socket)
    requires Orderly(s) && Blamed(s) && s.pc.ReadError?
    ensures Blamed(s.(lastError := s.pc.error, pc := Idle))
  {
  }

  lemma QuietBlamed(s: Socket)
    requires Orderly(s) && Blamed(s)
    requires s.pc == ConnectCallback || s.pc == ReleaseSocket || s.pc == DecideRetry || s.pc == DiscardQueue
    ensures Blamed(DoContinue(s))
  {
    hide Blamed, Log, DoDecideRetry;
    match s.pc
    case ConnectCallback => SameBlamed(s, DoConnectReturned(s));
    case ReleaseSocket => SameBlamed(s, DoContinue(s));
    case DecideRetry => SameBlamed(s, DoDecideRetry(s));
    case DiscardQueue => SameBlamed(s, DoContinue(s));
  }

  lemma ReportingBlamed(s: Socket)
    requires Streamed(s) && Blamed(s) && (s.pc.ReportUnsent? || s.pc.DiscardUnsent? || s.pc.DiscardTimers?)
    ensures Blamed(DoContinue(s))
  {
    hide Blamed, Log, DoReportUnsent, DoDiscardUnsent, DoDiscardTimers;
    if InClose(s.pc) {
      NotEnded(s);
    }
    hide Streamed;
    match s.pc
    case ReportUnsent(unsent) =>
      ReportLog(s, unsent);
      SameBlamed(s, DoReportUnsent(s, unsent));
    case DiscardUnsent(unsent) =>
      DiscardUnsentLog(s, unsent);
      SameBlamed(s, DoDiscardUnsent(s, unsent));
    case DiscardTimers(entries) =>
      DiscardTimersLog(s, entries);
      SameBlamed(s, DoDiscardTimers(s, entries));
  }

  lemma IssueCloseBlamed(s: Socket)
    requires Orderly(s) && Blamed(s) && s.pc == IssueClose
    ensures Blamed(DoIssueClose(s))
  {
    hide Log, Blamed;
    LogAppend(s.trace, CloseIssued(s.epoch));
    SameBlamed(s, DoIssueClose(s));
  }

  lemma ContinueBlamed(s: Socket)
    requires Orderly(s) && Streamed(s) && Blamed(s) && Enabled(s, Continue)
    ensures Blamed(DoContinue(s))
  {
    hide Blamed, Streamed, Orderly, DoConnectLock, DoReportUnsent, DoDisconnect, DoReadItem, DoDiscardUnsent,
         DoDiscardTimers, DoDecideRetry, DoIssueClose, DoConnectReturned;
    match s.pc
    case ConnectLock(_) => ConnectLockBlamed(s);
    case IssueClose => IssueCloseBlamed(s);
    case HandshakeFailed => HandshakeFailedBlamed(s);
    case ReadItems(_) => ReadItemBlamed(s);
    case ReadFailed(error) => ReadFailedBlamed(s);
    case ReadError(_) => ReadErrorBlamed(s);
    case NotifyDisconnect => EndBlamed(s, if s.handshaking then Suppressed(s.closing)
        else HandlerDisconnect(s.closing, s.lastError));
    case ReportUnsent(_) => ReportingBlamed(s);
    case DiscardUnsent(_) => ReportingBlamed(s);
    case DiscardTimers(_) => ReportingBlamed(s);
    case _ => QuietBlamed(s);
  }

  lemma RetryBlamed(s: Socket, dial: Dial)
    requires Orderly(s) && Blamed(s) && s.pc == RetryConnect && Unlocked(s)
    ensures Blamed(DoRetry(s, dial))
  {
    hide Blamed, DoConnect;
    var t := Emit(s.(pc := Idle), CloseRetried(s.closing));
    EndBlamed(s, CloseRetried(s.closing));
    assert Orderly(t);
    hide Orderly;
    ConnectBlamed(t, s.connectTimeout, dial, false);
  }

  lemma LoopEntryBlamed(s: Socket, a: Action)
    requires Orderly(s) && Blamed(s) && s.pc == Idle && Enabled(s, a)
    requires a.ConnectDone? || a.ConnectTimeout? || a.HandshakeDone? || a.ReadChunk?
    ensures Blamed(Next(s, a))
  {
    hide ReplyContext, Blamed;
    match a
    case ConnectDone(_, _) => SameBlamed(s, Next(s, a));
    case ConnectTimeout(_) => SameBlamed(s, Next(s, a));
    case HandshakeDone(status) =>
      if status != OK {
        SameBlamed(s, DoHandshake(s, status));
      } else {
        SameBlamed(s, DoHandshake(s, status));
      }
    case ReadChunk(items) => if Live(s) { SameBlamed(s, DoReadChunk(s, items)); }
  }

  /** Messages sent, written, timed out or flushed: nothing here says why a connection ended. */
  lemma AsideBlamed(s: Socket, t: Socket)
    requires Blamed(s) && Aside(s, t)
    ensures Blamed(t)
  {
    hide Log;
  }

  lemma NextBlamed(s: Socket, a: Action)
    requires Orderly(s) && Streamed(s) && Blamed(s) && Enabled(s, a)
    ensures Blamed(Next(s, a))
  {
    if Talks(a) {
      hide Blamed, Streamed, Orderly, Aside, Next, Enabled;
      TalkAside(s, a);
      AsideBlamed(s, Next(s, a));
    } else {
      hide Blamed, Streamed, Orderly, Talks, DoConnect, DoDisconnect, DoCloseDone, DoContinue, DoRetry, TakeReply,
           DoHandshake, DoReadChunk, DoReadBroken;
      match a
      case CallConnect(timeout, dial) => ConnectBlamed(s, timeout, dial, true);
      case CallDisconnect => DisconnectBlamed(s, false);
      case CloseDone => CloseDoneBlamed(s);
      case Continue => ContinueBlamed(s);
      case ContinueRetry(dial) => RetryBlamed(s, dial);
      case ReadBroken(error) => ReadBrokenBlamed(s, error);
      case _ => LoopEntryBlamed(s, a);
    }
  }

  lemma StepBlamed(s: Socket, a: Action)
    requires Orderly(s) && Streamed(s) && Blamed(s)
    ensures Blamed(Step(s, a))
  {
    hide Orderly, Streamed, Blamed, Next, Enabled;
    if Enabled(s, a) {
      NextBlamed(s, a);
    }
  }

  lemma InitialBlamed(s: Socket)
    requires Initial(s)
    ensures Blamed(s)
  {
  }

  lemma {:induction false} RunBlamed(s: Socket, run: seq<Action>)
    requires Orderly(s) && Streamed(s) && Blamed(s)
    ensures Streamed(Run(s, run)) && Blamed(Run(s, run))
    decreases |run|
  {
    hide Blamed, Streamed, Orderly, Step;
    if run != [] {
      StepGood(s, run[0]);
      StepStreamed(s, run[0]);
      StepBlamed(s, run[0]);
      RunBlamed(Step(s, run[0]), run[1..]);
    }
  }

  predicate FailedIn(trace: seq<Event>, k: nat) {
    exists i :: 0 <= i < |trace| && trace[i].TransportFailed? && trace[i].epoch == k
  }

  lemma FailedInLast(trace: seq<Event>, k: nat)
    requires trace != []
    ensures var last := trace[|trace| - 1];
            FailedIn(trace, k) <==> FailedIn(trace[..|trace| - 1], k) || (last.TransportFailed? && last.epoch == k)
  {
    var front := trace[..|trace| - 1];
    if FailedIn(front, k) {
      var i :| 0 <= i < |front| && front[i].TransportFailed? && front[i].epoch == k;
      assert trace[i] == front[i];
    }
    if FailedIn(trace, k) {
      var i :| 0 <= i < |trace| && trace[i].TransportFailed? && trace[i].epoch == k;
      assert i < |front| ==> front[i] == trace[i];
    }
  }

  lemma {:induction false} ReasonRecorded(trace: seq<Event>, k: nat)
    ensures k in Log(trace).reasons <==> FailedIn(trace, k)
  {
    if trace != [] {
      FailedInLast(trace, k);
      ReasonRecorded(trace[..|trace| - 1], k);
      hide FailedIn;
    }
  }

  // ---- Order of the callbacks of one close ----

  lemma {:induction false} EndedGrows(trace: seq<Event>, n: nat, k: nat)
    requires n <= |trace|
    ensures Log(trace[..n]).ended[k] <= Log(trace).ended[k] && Log(trace[..n]).late <= Log(trace).late
    decreases |trace| - n
  {
    hide Log;
    if n == |trace| {
      assert trace[..n] == trace;
    } else {
      assert trace[..n + 1] == trace[..n] + [trace[n]];
      LogAppend(trace[..n], trace[n]);
      EndedGrows(trace, n + 1, k);
    }
  }

  lemma EndedAfter(trace: seq<Event>, i: nat)
    requires i < |trace| && trace[i].HandlerDisconnect?
    ensures Log(trace[..i + 1]).ended[trace[i].epoch] > 0
  {
    hide Log;
    assert trace[..i + 1] == trace[..i] + [trace[i]];
    LogAppend(trace[..i], trace[i]);
  }

  lemma LateAfter(trace: seq<Event>, j: nat)
    requires j < |trace| && trace[j].Failed? && trace[j].cause.Discarded?
    requires Log(trace[..j]).ended[trace[j].cause.epoch] > 0
    ensures Log(trace[..j + 1]).late > 0
  {
    hide Log;
    assert trace[..j + 1] == trace[..j] + [trace[j]];
    LogAppend(trace[..j], trace[j]);
  }

  /** In every run no cancellation raised by a close comes after that close was reported. */
  lemma CancellationsFirst(s: Socket, run: seq<Action>, i: nat, j: nat)
    requires Initial(s) && i < j < |Run(s, run).trace|
    requires Run(s, run).trace[i].HandlerDisconnect?
    requires Run(s, run).trace[j].Failed? && Run(s, run).trace[j].cause.Discarded?
    ensures Run(s, run).trace[j].cause.epoch != Run(s, run).trace[i].epoch
  {
    OneClosePerStream(s, run, 0);
    hide Run, Log, Initial;
    InOrder(Run(s, run).trace, i, j);
  }

  lemma InOrder(trace: seq<Event>, i: nat, j: nat)
    requires Log(trace).late == 0 && i < j < |trace|
    requires trace[i].HandlerDisconnect? && trace[j].Failed? && trace[j].cause.Discarded?
    ensures trace[j].cause.epoch != trace[i].epoch
  {
    hide Log;
    EndedAfter(trace, i);
    assert trace[..j][..i + 1] == trace[..i + 1];
    EndedGrows(trace[..j], i + 1, trace[i].epoch);
    EndedGrows(trace, j + 1, 0);
    if Log(trace[..j]).ended[trace[j].cause.epoch] > 0 {
      LateAfter(trace, j);
    }
  }
}
