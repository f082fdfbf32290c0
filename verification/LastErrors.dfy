/**
  What OnDisconnect tells the handler, in every run: why the stream it reports ended, unless somebody
  connects again while the close is under way and closes that connection too.
*/
module LastErrors {
  import opened Basics
  import opened Protocol
  import opened Ledger
  import opened Frames
  import opened Lifecycle
  import opened StreamBooks
  import opened Reports

  /** A Disconnect of a connection opened during a close resets the error that close is to report. */
  predicate NextOverwritten(s: Socket, a: Action, was: bool) {
    if !Enabled(s, a) then was
    else if a.CloseDone? then false
    else was || (a.CallDisconnect? && InClose(s.pc) && Live(s))
  }

  /** Whether that happened in the run since the last close callback. */
  predicate OverwrittenIn(s: Socket, run: seq<Action>, was: bool)
    decreases |run|
  {
    if run == [] then was else OverwrittenIn(Step(s, run[0]), run[1..], NextOverwritten(s, run[0], was))
  }

  function Told(trace: seq<Event>, k: nat, overwritten: bool): Error {
    if overwritten then OK else Reason(trace, k)
  }

  ghost predicate Telling(s: Socket, overwritten: bool) {
    InClose(s.pc) ==> s.lastError == Told(s.trace, s.closing, overwritten)
  }

  // ---- Only the close callback begins a close ----

  lemma ClosingOutside(s: Socket)
    requires s.pc.ConnectLock? || s.pc == HandshakeFailed || s.pc.ReadFailed? || s.pc.ReadItems?
    ensures !InClose(DoContinue(s).pc)
  {
    hide DoConnectLock, DoDisconnect, DoReadItem;
    match s.pc
    case ConnectLock(status) => ConnectLockOutside(s, status);
    case HandshakeFailed => DisconnectStays(s.(pc := Idle), true);
    case ReadFailed(error) => DisconnectStays(s.(pc := ReadError(error)), s.handshaking);
    case ReadItems(_) => ReadItemOutside(s);
  }

  lemma ConnectLockOutside(s: Socket, status: Error)
    ensures !InClose(DoConnectLock(s, status).pc)
  {
    ConnectLockPc(s, status);
    hide DoConnectLock;
  }

  lemma ConnectLockPc(s: Socket, status: Error)
    ensures var pc := DoConnectLock(s, status).pc;
            pc == Idle || pc == IssueClose || pc == ConnectCallback
  {
  }

  lemma ReadItemOutside(s: Socket)
    requires s.pc.ReadItems?
    ensures !InClose(DoReadItem(s, s.pc.items).pc)
  {
    ReadItemPc(s);
    hide DoReadItem;
  }

  lemma ReadItemPc(s: Socket)
    requires s.pc.ReadItems?
    ensures var pc := DoReadItem(s, s.pc.items).pc;
            pc == Idle || pc.ReadItems?
  {
    hide DoResponse, DoDisconnect, Emit;
    DisconnectStays(s.(pc := Idle), false);
    if s.pc.items != [] {
      MessageOutside(s.(pc := ReadItems(s.pc.items[1..])));
    }
  }

  lemma MessageOutside(s: Socket)
    ensures Emit(s, HandlerMessage).pc == s.pc
  {
  }

  lemma PlainOutside(s: Socket)
    requires s.pc == IssueClose || s.pc == ConnectCallback || s.pc.ReadError? || s.pc.ReportUnsent?
             || s.pc == Idle || s.pc == FlushQueue
    ensures !InClose(DoContinue(s).pc)
  {
    hide DoReportUnsent;
  }

  lemma ContinueOutside(s: Socket)
    requires !InClose(s.pc)
    ensures !InClose(DoContinue(s).pc)
  {
    hide DoContinue;
    match s.pc
    case ConnectLock(_) => ClosingOutside(s);
    case HandshakeFailed => ClosingOutside(s);
    case ReadFailed(_) => ClosingOutside(s);
    case ReadItems(_) => ClosingOutside(s);
    case _ => PlainOutside(s);
  }

  lemma RetryOutside(s: Socket, dial: Dial)
    ensures !InClose(DoRetry(s, dial).pc)
  {
    hide DoConnect;
    ConnectStays(Emit(s.(pc := Idle), CloseRetried(s.closing)), s.connectTimeout, dial, false);
  }

  lemma EntryOutside(s: Socket, a: Action)
    requires Enabled(s, a)
    requires a.ConnectDone? || a.ConnectTimeout? || a.HandshakeDone? || a.ReadChunk? || a.ReadBroken?
    ensures !InClose(Next(s, a).pc)
  {
    hide ReplyContext, DoHandshake, DoReadChunk, DoReadBroken;
    match a
    case HandshakeDone(status) => HandshakeOutside(s, status);
    case ReadChunk(items) => ReadOutside(s, items);
    case ReadBroken(error) => ReadBrokenOutside(s, error);
    case _ =>
  }

  lemma HandshakeOutside(s: Socket, status: Error)
    ensures !InClose(DoHandshake(s, status).pc)
  {
  }

  lemma ReadOutside(s: Socket, items: seq<Item>)
    requires s.pc == Idle
    ensures !InClose(DoReadChunk(s, items).pc)
  {
    if Live(s) {} else {}
  }

  lemma ReadBrokenOutside(s: Socket, error: Error)
    requires s.pc == Idle
    ensures !InClose(DoReadBroken(s, error).pc)
  {
  }

  lemma StaysOutside(s: Socket, a: Action)
    requires Enabled(s, a) && !a.CloseDone? && !InClose(s.pc)
    ensures !InClose(Next(s, a).pc)
  {
    if Talks(a) {
      hide Next, Enabled;
      TalkAside(s, a);
    } else {
      hide Enabled, InClose, Talks, DoConnect, DoDisconnect, DoContinue, DoRetry, TakeReply, DoHandshake, DoReadChunk,
           DoReadBroken;
      match a
      case CallConnect(timeout, dial) => ConnectStays(s, timeout, dial, true);
      case CallDisconnect => DisconnectStays(s, false);
      case Continue => ContinueOutside(s);
      case ContinueRetry(dial) => RetryOutside(s, dial);
      case _ => EntryOutside(s, a);
    }
  }

  // ---- Inside a close ----

  /** A section inside a close that says nothing about why its stream ended. */
  lemma SameTelling(s: Socket, t: Socket, overwritten: bool)
    requires InClose(s.pc) && Telling(s, overwritten) && Log(t.trace).reasons == Log(s.trace).reasons
    requires t.closing == s.closing && t.lastError == s.lastError
    ensures Telling(t, overwritten)
  {
    hide Log;
  }

  lemma ConnectTelling(s: Socket, timeout: nat, dial: Dial, byUser: bool, overwritten: bool)
    requires InClose(s.pc) && Telling(s, overwritten)
    ensures Telling(DoConnect(s, timeout, dial, byUser), overwritten)
  {
    hide Log, Telling;
    OutcomeReasons(s.trace, Opened(s.epoch + 1, byUser));
    SameTelling(s, DoConnect(s, timeout, dial, byUser), overwritten);
  }

  lemma DisconnectTelling(s: Socket, overwritten: bool)
    requires InClose(s.pc) && Telling(s, overwritten)
    ensures Telling(DoDisconnect(s, false), overwritten || Live(s))
  {
    hide Log;
    if !Live(s) {
      SameTelling(s, s.(handshaking := false), overwritten);
    }
  }

  lemma DiscardsTelling(s: Socket, overwritten: bool)
    requires Streamed(s) && InClose(s.pc) && Telling(s, overwritten) && (s.pc.DiscardUnsent? || s.pc.DiscardTimers?)
    ensures Telling(DoContinue(s), overwritten)
  {
    hide Telling, Log, DoDiscardUnsent, DoDiscardTimers;
    NotEnded(s);
    hide Streamed;
    match s.pc
    case DiscardUnsent(unsent) =>
      DiscardUnsentLog(s, unsent);
      SameTelling(s, DoDiscardUnsent(s, unsent), overwritten);
    case DiscardTimers(entries) =>
      DiscardTimersLog(s, entries);
      SameTelling(s, DoDiscardTimers(s, entries), overwritten);
  }

  lemma MovesTelling(s: Socket, overwritten: bool)
    requires Telling(s, overwritten)
    requires s.pc == ReleaseSocket || s.pc == DecideRetry || s.pc == DiscardQueue || s.pc == RetryConnect
    ensures Telling(DoContinue(s), overwritten)
  {
    hide Telling, Log, DoDecideRetry;
    SameTelling(s, DoContinue(s), overwritten);
  }

  lemma NotifyTelling(s: Socket, overwritten: bool)
    requires s.pc == NotifyDisconnect
    ensures Telling(DoContinue(s), overwritten)
  {
  }

  lemma ContinueTelling(s: Socket, overwritten: bool)
    requires Streamed(s) && InClose(s.pc) && Telling(s, overwritten)
    ensures Telling(DoContinue(s), overwritten)
  {
    hide Streamed, Telling, DoContinue;
    match s.pc
    case DiscardUnsent(_) => DiscardsTelling(s, overwritten);
    case DiscardTimers(_) => DiscardsTelling(s, overwritten);
    case NotifyDisconnect => NotifyTelling(s, overwritten);
    case _ => MovesTelling(s, overwritten);
  }

  lemma RetryTelling(s: Socket, dial: Dial, overwritten: bool)
    ensures Telling(DoRetry(s, dial), overwritten)
  {
    RetryOutside(s, dial);
    hide DoRetry;
  }

  lemma TalkTelling(s: Socket, t: Socket, overwritten: bool)
    requires InClose(s.pc) && Telling(s, overwritten) && Aside(s, t)
    ensures Telling(t, overwritten)
  {
    hide Log, Telling;
    SameTelling(s, t, overwritten);
  }

  /** Inside a close the loop thread is busy: no callback begins. */
  lemma OnlyOthers(s: Socket, a: Action)
    requires InClose(s.pc) && Enabled(s, a)
    ensures Talks(a) || a.CallConnect? || a.CallDisconnect? || a.Continue? || a.ContinueRetry?
  {
  }

  lemma InsideTelling(s: Socket, a: Action, overwritten: bool)
    requires Streamed(s) && InClose(s.pc) && Telling(s, overwritten) && Enabled(s, a)
    ensures Telling(Next(s, a), NextOverwritten(s, a, overwritten))
  {
    OnlyOthers(s, a);
    if Talks(a) {
      hide Telling, Streamed, Aside, Next, Enabled, InClose;
      TalkAside(s, a);
      TalkTelling(s, Next(s, a), overwritten);
    } else {
      hide Telling, Streamed, Enabled, Talks, InClose, Live, DoConnect, DoDisconnect, DoContinue, DoRetry;
      match a
      case CallConnect(timeout, dial) => ConnectTelling(s, timeout, dial, true, overwritten);
      case CallDisconnect => DisconnectTelling(s, overwritten);
      case Continue => ContinueTelling(s, overwritten);
      case ContinueRetry(dial) => RetryTelling(s, dial, overwritten);
    }
  }

  /** The close callback finds the reason in the error the connection was left with. */
  lemma CloseTelling(s: Socket)
    requires Orderly(s) && Blamed(s) && Enabled(s, CloseDone)
    ensures Telling(Next(s, CloseDone), false)
  {
    CloseEnters(s);
    hide Orderly, Enabled, Blamed, Telling, DoCloseDone;
    CloseDoneBlamed(s);
    BlamedTells(DoCloseDone(s));
  }

  lemma CloseEnters(s: Socket)
    requires Enabled(s, CloseDone)
    ensures s.stream == Closing && s.pc == Idle && DoCloseDone(s).state == DISCONNECTED
  {
  }

  lemma BlamedTells(t: Socket)
    requires Blamed(t) && t.state == DISCONNECTED
    ensures Telling(t, false)
  {
    hide Log;
  }

  lemma OutsideTelling(t: Socket, overwritten: bool)
    requires !InClose(t.pc)
    ensures Telling(t, overwritten)
  {
  }

  lemma StepTelling(s: Socket, a: Action, overwritten: bool)
    requires Orderly(s) && Streamed(s) && Blamed(s) && Telling(s, overwritten)
    ensures Telling(Step(s, a), NextOverwritten(s, a, overwritten))
  {
    hide Orderly, Streamed, Blamed, Telling, Next, Enabled, InClose;
    if Enabled(s, a) {
      if a.CloseDone? {
        CloseTelling(s);
      } else if InClose(s.pc) {
        InsideTelling(s, a, overwritten);
      } else {
        StaysOutside(s, a);
        OutsideTelling(Next(s, a), NextOverwritten(s, a, overwritten));
      }
    }
  }

  lemma {:induction false} RunTelling(s: Socket, run: seq<Action>, overwritten: bool)
    requires Orderly(s) && Streamed(s) && Blamed(s) && Telling(s, overwritten)
    ensures Telling(Run(s, run), OverwrittenIn(s, run, overwritten))
    decreases |run|
  {
    hide Telling, Blamed, Streamed, Orderly, Step, NextOverwritten;
    if run != [] {
      StepGood(s, run[0]);
      StepStreamed(s, run[0]);
      StepBlamed(s, run[0]);
      StepTelling(s, run[0], overwritten);
      RunTelling(Step(s, run[0]), run[1..], NextOverwritten(s, run[0], overwritten));
    }
  }

  /**
    In every run, what OnDisconnect tells the handler of a stream: LNR_OK if a connection opened during
    the close was disconnected before the report, and otherwise the last failure the transport reported
    for that stream, which is LNR_OK exactly when it reported none.
  */
  lemma DisconnectReason(s: Socket, run: seq<Action>)
    requires Initial(s) && Run(s, run).pc == NotifyDisconnect && !Run(s, run).handshaking
    ensures var t := Run(s, run);
            var k := t.closing;
            && Step(t, Continue).trace
               == t.trace + [HandlerDisconnect(k, if OverwrittenIn(s, run, false) then OK else Reason(t.trace, k))]
            && (Reason(t.trace, k) == OK <==> !FailedIn(t.trace, k))
  {
    InitialOrderly(s);
    InitialStreamed(s);
    InitialBlamed(s);
    OutsideTelling(s, false);
    hide Run, OverwrittenIn, Streamed, Orderly, Initial, Telling, Blamed;
    RunTelling(s, run, false);
    RunBlamed(s, run);
    Reported(Run(s, run), OverwrittenIn(s, run, false));
  }

  lemma Reported(t: Socket, overwritten: bool)
    requires Blamed(t) && Telling(t, overwritten) && t.pc == NotifyDisconnect && !t.handshaking
    ensures Step(t, Continue).trace
            == t.trace + [HandlerDisconnect(t.closing, Told(t.trace, t.closing, overwritten))]
    ensures Reason(t.trace, t.closing) == OK <==> !FailedIn(t.trace, t.closing)
  {
    ReasonIsFailure(t);
    hide Log, FailedIn;
  }

  /** The error a close is to report is right exactly when there was no failure, or nobody did that. */
  lemma ReasonToldExactly(s: Socket, run: seq<Action>)
    requires Initial(s) && Run(s, run).pc == NotifyDisconnect
    ensures var t := Run(s, run);
            t.lastError == Reason(t.trace, t.closing)
            <==> !(OverwrittenIn(s, run, false) && FailedIn(t.trace, t.closing))
  {
    InitialOrderly(s);
    InitialStreamed(s);
    InitialBlamed(s);
    OutsideTelling(s, false);
    hide Run, OverwrittenIn, Streamed, Orderly, Initial, Blamed, Log;
    RunTelling(s, run, false);
    RunBlamed(s, run);
    ReasonIsFailure(Run(s, run));
  }

  lemma ReasonIsFailure(t: Socket)
    requires Blamed(t)
    ensures Reason(t.trace, t.closing) == OK <==> !FailedIn(t.trace, t.closing)
  {
    ReasonRecorded(t.trace, t.closing);
    hide Log, FailedIn;
  }
}
