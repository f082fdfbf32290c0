/**
  What a step does not do. The history only grows; a stream is opened by a
  Connect, a message accepted by a Send, and written by a
  Send or by the flush only, and a failed write is reported by its completion only; Connect and Disconnect leave the
  loop thread where it is; the queue is filled by Send only; and a timer that is armed stays so until its entry goes.
*/
module Frames {
  import opened Basics
  import opened Protocol
  import opened Conservation
  import opened Timers

  // ---- The history ----

  /** Which events an action can put into the history. */
  predicate Allowed(a: Action, e: Event) {
    && (e.Accepted? ==> a.CallSend?)
    && (e.Written? ==> a.CallSend? || a.ContinueFlush?)
    && (e.Opened? ==> a.CallConnect? || a.ContinueRetry?)
    && (e.Failed? && e.cause.WriteError? ==> a.WriteDone? && e.copy == a.copy && a.status != OK)
  }

  ghost predicate Logs(before: seq<Event>, after: seq<Event>, a: Action) {
    && before <= after
    && forall i :: |before| <= i < |after| ==> Allowed(a, after[i])
  }

  lemma LogsSame(trace: seq<Event>, a: Action)
    ensures Logs(trace, trace, a)
  {
  }

  lemma LogsOne(trace: seq<Event>, e: Event, a: Action)
    requires Allowed(a, e)
    ensures Logs(trace, trace + [e], a)
  {
  }

  lemma LogsTwo(trace: seq<Event>, e: Event, f: Event, a: Action)
    requires Allowed(a, e) && Allowed(a, f)
    ensures Logs(trace, trace + [e] + [f], a)
  {
  }

  lemma LogsThree(trace: seq<Event>, e: Event, f: Event, g: Event, a: Action)
    requires Allowed(a, e) && Allowed(a, f) && Allowed(a, g)
    ensures Logs(trace, trace + [e] + [f] + [g], a)
  {
    LogsTwo(trace, e, f, a);
  }

  lemma LogsThen(first: seq<Event>, second: seq<Event>, third: seq<Event>, a: Action)
    requires Logs(first, second, a) && Logs(second, third, a)
    ensures Logs(first, third, a)
  {
  }

  lemma ConnectLogs(s: Socket, timeout: nat, dial: Dial, byUser: bool, a: Action)
    requires a.CallConnect? || a.ContinueRetry?
    ensures Logs(s.trace, DoConnect(s, timeout, dial, byUser).trace, a)
  {
    LogsSame(s.trace, a);
    LogsOne(s.trace, Opened(s.epoch + 1, byUser), a);
    hide Logs;
  }

  lemma DisconnectLogs(s: Socket, handshaking: bool, a: Action)
    ensures Logs(s.trace, DoDisconnect(s, handshaking).trace, a)
  {
    hide Logs;
    if Live(s) {
      LogsOne(s.trace, CloseIssued(s.epoch), a);
    } else {
      LogsSame(s.trace, a);
    }
  }

  lemma SendLogs(s: Socket, body: Message, write: Error, a: Action)
    requires a.CallSend?
    ensures Logs(s.trace, DoSend(s, body, write).trace, a)
  {
    var c := Copy(s.next, body);
    LogsSame(s.trace, a);
    LogsTwo(s.trace, Allocated(c), Accepted(c, true), a);
    LogsTwo(s.trace, Allocated(c), Freed(c), a);
    LogsThree(s.trace, Allocated(c), Accepted(c, false), Written(c), a);
    hide Logs;
    QueuedTrace(s, c);
    RefusedTrace(s, c);
    DirectTrace(s, c);
    hide QueueUp, Refuse, WriteNow, Allocate;
  }

  lemma QueuedTrace(s: Socket, c: Copy)
    ensures QueueUp(s, c).trace == s.trace + [Allocated(c)] + [Accepted(c, true)]
  {
  }

  lemma RefusedTrace(s: Socket, c: Copy)
    ensures Refuse(s, c).trace == s.trace + [Allocated(c)] + [Freed(c)]
  {
  }

  lemma DirectTrace(s: Socket, c: Copy)
    ensures WriteNow(Allocate(s, c), c).trace == s.trace + [Allocated(c)] + [Accepted(c, false)] + [Written(c)]
  {
  }

  lemma SendQueuedLogs(s: Socket, c: Copy, timerStarts: bool, a: Action)
    requires a.ContinueFlush?
    ensures Logs(s.trace, SendQueued(s, c, timerStarts).trace, a)
  {
    LogsOne(s.trace, Written(c), a);
    hide Logs;
  }

  lemma FlushOneLogs(s: Socket, r: WriteResult, a: Action)
    requires a.ContinueFlush? && s.pc.ReportUnsent? && s.pending != []
    ensures Logs(s.trace, FlushOne(s, r).trace, a)
  {
    hide SendQueued, Logs;
    LogsSame(s.trace, a);
    SendQueuedLogs(s.(pending := s.pending[1..]), s.pending[0], r.timerStarts, a);
  }

  lemma {:induction false} FlushLoopLogs(s: Socket, results: seq<WriteResult>, a: Action)
    requires a.ContinueFlush? && s.pc.ReportUnsent? && |results| == |s.pending|
    ensures Logs(s.trace, FlushLoop(s, results).trace, a)
    decreases |results|
  {
    hide Logs, FlushOne;
    if results == [] {
      LogsSame(s.trace, a);
    } else {
      var t := FlushOne(s, results[0]);
      FlushOneLogs(s, results[0], a);
      FlushLoopLogs(t, results[1..], a);
      LogsThen(s.trace, t.trace, FlushLoop(t, results[1..]).trace, a);
    }
  }

  lemma ResponseLogs(s: Socket, msgid: nat, a: Action)
    ensures Logs(s.trace, DoResponse(s, msgid).trace, a)
  {
    LogsSame(s.trace, a);
    var i := IndexOf(s.timers, msgid);
    if i < |s.timers| {
      LogsTwo(s.trace, TimerFreed(s.timers[i]), Answered(s.timers[i]), a);
      hide Logs;
    }
  }

  lemma MessageLogs(s: Socket, a: Action)
    ensures Logs(s.trace, Emit(s, HandlerMessage).trace, a)
  {
  }

  lemma ReadItemLogs(s: Socket, a: Action)
    requires s.pc.ReadItems?
    ensures Logs(s.trace, DoReadItem(s, s.pc.items).trace, a)
  {
    hide DoResponse, DoDisconnect, Logs, Emit;
    if s.pc.items == [] {
      LogsSame(s.trace, a);
    } else {
      var pc := ReadItems(s.pc.items[1..]);
      match s.pc.items[0]
      case InRequest => MovedMessageLogs(s, pc, a);
      case InNotify => MovedMessageLogs(s, pc, a);
      case InResponse(msgid) => MovedResponseLogs(s, pc, msgid, a);
      case Undecodable => MovedDisconnectLogs(s, Idle, false, a);
    }
  }

  lemma MovedMessageLogs(s: Socket, pc: LoopPc, a: Action)
    ensures Logs(s.trace, Emit(s.(pc := pc), HandlerMessage).trace, a)
  {
    hide Logs, Emit;
    MessageLogs(s.(pc := pc), a);
  }

  lemma MovedResponseLogs(s: Socket, pc: LoopPc, msgid: nat, a: Action)
    ensures Logs(s.trace, DoResponse(s.(pc := pc), msgid).trace, a)
  {
    hide Logs, DoResponse;
    ResponseLogs(s.(pc := pc), msgid, a);
  }

  lemma MovedDisconnectLogs(s: Socket, pc: LoopPc, handshaking: bool, a: Action)
    ensures Logs(s.trace, DoDisconnect(s.(pc := pc), handshaking).trace, a)
  {
    hide Logs, DoDisconnect;
    DisconnectLogs(s.(pc := pc), handshaking, a);
  }

  lemma MatchedWriteLogs(s: Socket, c: Copy, status: Error, a: Action)
    requires a == WriteDone(c, status) && status != OK
    requires c.body.Request? && IndexOf(s.timers, c.body.msgid) < |s.timers|
    ensures Logs(s.trace, DoWriteDone(s, c, status).trace, a)
  {
    var e := s.timers[IndexOf(s.timers, c.body.msgid)];
    LogsThree(s.trace, TimerFreed(e), Failed(c, WriteError(true)), Freed(c), a);
    hide Logs;
  }

  lemma OrphanLogs(s: Socket, c: Copy, status: Error, a: Action)
    requires a == WriteDone(c, status) && status != OK
    requires c.body.Request? ==> IndexOf(s.timers, c.body.msgid) == |s.timers|
    ensures Logs(s.trace, DoWriteDone(s, c, status).trace, a)
  {
    LogsTwo(s.trace, Failed(c, WriteError(false)), Freed(c), a);
    hide Logs;
  }

  lemma WriteDoneLogs(s: Socket, c: Copy, status: Error, a: Action)
    requires a == WriteDone(c, status)
    ensures Logs(s.trace, DoWriteDone(s, c, status).trace, a)
  {
    if status == OK {
      LogsOne(s.trace, Freed(c), a);
      hide Logs;
    } else {
      hide Logs, DoWriteDone;
      if c.body.Request? && IndexOf(s.timers, c.body.msgid) < |s.timers| {
        MatchedWriteLogs(s, c, status, a);
      } else {
        OrphanLogs(s, c, status, a);
      }
    }
  }

  lemma RequestTimeoutLogs(s: Socket, c: Copy, a: Action)
    ensures Logs(s.trace, DoRequestTimeout(s, c).trace, a)
  {
    LogsTwo(s.trace, Failed(c, TimedOut), TimerFreed(c), a);
    hide Logs;
  }

  lemma ConnectLockLogs(s: Socket, status: Error, a: Action)
    ensures Logs(s.trace, DoConnectLock(s, status).trace, a)
  {
    LockTrace(s, status);
    hide Logs, DoConnectLock;
    LogsSame(s.trace, a);
    LogsOne(s.trace, TransportFailed(s.epoch, status), a);
    LogsOne(s.trace, HandlerConnect(s.epoch), a);
  }

  lemma LockTrace(s: Socket, status: Error)
    ensures var trace := DoConnectLock(s, status).trace;
            || trace == s.trace
            || trace == s.trace + [TransportFailed(s.epoch, status)]
            || trace == s.trace + [HandlerConnect(s.epoch)]
  {
    hide Emit;
    EmitTrace(s.(connectTimer := false, state := DISCONNECTING, lastError := status, pc := IssueClose),
              TransportFailed(s.epoch, status));
    EmitTrace(s.(connectTimer := false, reading := true, lastError := OK, pc := ConnectCallback),
              HandlerConnect(s.epoch));
  }

  lemma EmitTrace(s: Socket, e: Event)
    ensures Emit(s, e).trace == s.trace + [e]
  {
  }

  lemma ReportUnsentLogs(s: Socket, unsent: seq<Copy>, a: Action)
    ensures Logs(s.trace, DoReportUnsent(s, unsent).trace, a)
  {
    if unsent == [] {
      LogsSame(s.trace, a);
    } else {
      LogsTwo(s.trace, Failed(unsent[0], NotSent), Freed(unsent[0]), a);
    }
    hide Logs;
  }

  lemma DiscardUnsentLogs(s: Socket, unsent: seq<Copy>, a: Action)
    ensures Logs(s.trace, DoDiscardUnsent(s, unsent).trace, a)
  {
    if unsent == [] {
      LogsSame(s.trace, a);
    } else {
      LogsTwo(s.trace, Failed(unsent[0], Discarded(s.closing)), Freed(unsent[0]), a);
    }
    hide Logs;
  }

  lemma DiscardTimersLogs(s: Socket, entries: seq<Copy>, a: Action)
    ensures Logs(s.trace, DoDiscardTimers(s, entries).trace, a)
  {
    if entries == [] {
      LogsSame(s.trace, a);
    } else {
      LogsTwo(s.trace, Failed(entries[0], Discarded(s.closing)), TimerFreed(entries[0]), a);
    }
    hide Logs;
  }

  lemma PlainLogs(s: Socket, a: Action)
    requires s.pc == IssueClose || s.pc == ConnectCallback || s.pc.ReadError? || s.pc == ReleaseSocket
             || s.pc == DecideRetry || s.pc == DiscardQueue || s.pc == NotifyDisconnect
    ensures Logs(s.trace, DoContinue(s).trace, a)
  {
    LogsSame(s.trace, a);
    LogsOne(s.trace, CloseIssued(s.epoch), a);
    LogsOne(s.trace, if s.handshaking then Suppressed(s.closing) else HandlerDisconnect(s.closing, s.lastError), a);
    hide Logs, DoDecideRetry;
  }

  lemma ReportingLogs(s: Socket, a: Action)
    requires s.pc.ReportUnsent? || s.pc.DiscardUnsent? || s.pc.DiscardTimers?
    ensures Logs(s.trace, DoContinue(s).trace, a)
  {
    hide Logs, DoReportUnsent, DoDiscardUnsent, DoDiscardTimers;
    match s.pc
    case ReportUnsent(unsent) => ReportUnsentLogs(s, unsent, a);
    case DiscardUnsent(unsent) => DiscardUnsentLogs(s, unsent, a);
    case DiscardTimers(entries) => DiscardTimersLogs(s, entries, a);
  }

  lemma ClosingLogs(s: Socket, a: Action)
    requires s.pc == HandshakeFailed || s.pc.ReadFailed? || s.pc.ConnectLock? || s.pc.ReadItems?
    ensures Logs(s.trace, DoContinue(s).trace, a)
  {
    hide Logs, DoConnectLock, DoDisconnect, DoReadItem;
    match s.pc
    case ConnectLock(status) => ConnectLockLogs(s, status, a);
    case HandshakeFailed => DisconnectLogs(s.(pc := Idle), true, a);
    case ReadItems(_) => ReadItemLogs(s, a);
    case ReadFailed(error) => DisconnectLogs(s.(pc := ReadError(error)), s.handshaking, a);
  }

  lemma ContinueLogs(s: Socket, a: Action)
    requires s.pc != Idle && s.pc != FlushQueue && s.pc != RetryConnect
    ensures Logs(s.trace, DoContinue(s).trace, a)
  {
    hide Logs, DoContinue;
    match s.pc
    case ConnectLock(_) => ClosingLogs(s, a);
    case HandshakeFailed => ClosingLogs(s, a);
    case ReadItems(_) => ClosingLogs(s, a);
    case ReadFailed(_) => ClosingLogs(s, a);
    case ReportUnsent(_) => ReportingLogs(s, a);
    case DiscardUnsent(_) => ReportingLogs(s, a);
    case DiscardTimers(_) => ReportingLogs(s, a);
    case _ => PlainLogs(s, a);
  }

  lemma RetryLogs(s: Socket, dial: Dial, a: Action)
    requires a.ContinueRetry?
    ensures Logs(s.trace, DoRetry(s, dial).trace, a)
  {
    hide Logs, DoConnect;
    var t := Emit(s.(pc := Idle), CloseRetried(s.closing));
    LogsOne(s.trace, CloseRetried(s.closing), a);
    ConnectLogs(t, s.connectTimeout, dial, false, a);
    LogsThen(s.trace, t.trace, DoRetry(s, dial).trace, a);
  }

  lemma EntryLogs(s: Socket, a: Action)
    requires Enabled(s, a)
    requires a.ConnectDone? || a.ConnectTimeout? || a.HandshakeDone? || a.ReadChunk? || a.ReadBroken? || a.CloseDone?
    ensures Logs(s.trace, Next(s, a).trace, a)
  {
    LogsSame(s.trace, a);
    LogsOne(s.trace, Closed(s.epoch), a);
    if a.ReadBroken? {
      LogsOne(s.trace, TransportFailed(s.epoch, a.error), a);
    }
    hide Logs, Enabled, ReplyContext;
  }

  lemma RegisteringLogs(s: Socket, a: Action)
    requires Enabled(s, a) && (a.PushEntry? || a.StartTimer?)
    ensures Logs(s.trace, Next(s, a).trace, a)
  {
    LogsSame(s.trace, a);
    hide Logs;
  }

  lemma FlushLogs(s: Socket, results: seq<WriteResult>, a: Action)
    requires a.ContinueFlush? && |results| == |s.pending|
    ensures Logs(s.trace, DoFlush(s, results).trace, a)
  {
    hide Logs, FlushLoop;
    FlushLoopLogs(s.(pc := ReportUnsent([])), results, a);
  }

  lemma NextLogs(s: Socket, a: Action)
    requires Enabled(s, a)
    ensures Logs(s.trace, Next(s, a).trace, a)
  {
    hide Logs, DoConnect, DoDisconnect, DoSend, DoPushEntry, DoStartTimer, DoWriteDone, DoRequestTimeout, DoContinue,
         DoFlush, DoRetry, DoCloseDone, TakeReply, DoHandshake, DoReadChunk, DoReadBroken;
    match a
    case CallConnect(timeout, dial) => ConnectLogs(s, timeout, dial, true, a);
    case CallDisconnect => DisconnectLogs(s, false, a);
    case CallSend(body, write) => SendLogs(s, body, write, a);
    case PushEntry => RegisteringLogs(s, a);
    case StartTimer(_) => RegisteringLogs(s, a);
    case WriteDone(c, status) => WriteDoneLogs(s, c, status, a);
    case RequestTimeout(c) => RequestTimeoutLogs(s, c, a);
    case Continue => ContinueLogs(s, a);
    case ContinueFlush(results) => FlushLogs(s, results, a);
    case ContinueRetry(dial) => RetryLogs(s, dial, a);
    case _ => EntryLogs(s, a);
  }

  /** The history grows by events the action can cause. */
  lemma StepLogs(s: Socket, a: Action)
    ensures Logs(s.trace, Step(s, a).trace, a)
  {
    hide Logs, Next, Enabled;
    if Enabled(s, a) {
      NextLogs(s, a);
    } else {
      LogsSame(s.trace, a);
    }
  }

  lemma {:induction false} RunLogs(s: Socket, run: seq<Action>)
    ensures s.trace <= Run(s, run).trace
    decreases |run|
  {
    if run != [] {
      StepLogs(s, run[0]);
      hide Step;
      RunLogs(Step(s, run[0]), run[1..]);
    }
  }

  // ---- The loop thread ----

  lemma ConnectStays(s: Socket, timeout: nat, dial: Dial, byUser: bool)
    ensures DoConnect(s, timeout, dial, byUser).pc == s.pc
  {
  }

  lemma DisconnectStays(s: Socket, handshaking: bool)
    ensures DoDisconnect(s, handshaking).pc == s.pc
  {
  }

  // ---- The queue and the armed timers ----

  /** The queue stays or is emptied, and an armed timer stays so or had its entry. */
  ghost predicate Steady(s: Socket, t: Socket) {
    && t.stale == s.stale && t.starting == s.starting && t.next == s.next
    && (t.pending == s.pending || t.pending == [])
    && forall c :: c in s.armed ==> c in t.armed || c in s.timers || c in Cancelled(s.pc)
  }

  lemma SameSteady(s: Socket, t: Socket)
    requires t.stale == s.stale && t.starting == s.starting && t.next == s.next && t.armed == s.armed
    requires t.pending == s.pending || t.pending == []
    ensures Steady(s, t)
  {
  }

  lemma WriteDoneSteady(s: Socket, c: Copy, status: Error)
    ensures Steady(s, DoWriteDone(s, c, status))
  {
    WriteDoneArmed(s, c, status);
    hide DoWriteDone;
  }

  lemma MatchedArmed(s: Socket, c: Copy, status: Error)
    requires status != OK && c.body.Request? && IndexOf(s.timers, c.body.msgid) < |s.timers|
    ensures DoWriteDone(s, c, status).armed == s.armed - {s.timers[IndexOf(s.timers, c.body.msgid)]}
  {
  }

  lemma UnmatchedArmed(s: Socket, c: Copy, status: Error)
    requires !(status != OK && c.body.Request? && IndexOf(s.timers, c.body.msgid) < |s.timers|)
    ensures DoWriteDone(s, c, status).armed == s.armed
  {
  }

  lemma WriteDoneArmed(s: Socket, c: Copy, status: Error)
    ensures forall e :: e in s.armed ==> e in DoWriteDone(s, c, status).armed || e in s.timers
  {
    hide DoWriteDone;
    if status != OK && c.body.Request? && IndexOf(s.timers, c.body.msgid) < |s.timers| {
      MatchedArmed(s, c, status);
    } else {
      UnmatchedArmed(s, c, status);
    }
  }

  lemma ResponseSteady(s: Socket, msgid: nat)
    ensures Steady(s, DoResponse(s, msgid))
  {
    ResponseArmed(s, msgid);
    hide DoResponse;
  }

  lemma ResponseArmed(s: Socket, msgid: nat)
    ensures forall e :: e in s.armed ==> e in DoResponse(s, msgid).armed || e in s.timers
  {
  }

  lemma DiscardTimersSteady(s: Socket)
    requires s.pc.DiscardTimers?
    ensures Steady(s, DoDiscardTimers(s, s.pc.entries))
  {
    DiscardTimersArmed(s);
    hide DoDiscardTimers;
  }

  lemma DiscardTimersArmed(s: Socket)
    requires s.pc.DiscardTimers?
    ensures forall e :: e in s.armed ==> e in DoDiscardTimers(s, s.pc.entries).armed || e in Cancelled(s.pc)
  {
  }

  lemma ConnectSteady(s: Socket, timeout: nat, dial: Dial, byUser: bool)
    ensures Steady(s, DoConnect(s, timeout, dial, byUser))
  {
    hide Steady;
    SameSteady(s, DoConnect(s, timeout, dial, byUser));
  }

  lemma DisconnectSteady(s: Socket, handshaking: bool)
    ensures Steady(s, DoDisconnect(s, handshaking))
  {
    hide Steady;
    SameSteady(s, DoDisconnect(s, handshaking));
  }

  lemma MovedSteady(s: Socket, pc: LoopPc, t: Socket)
    requires Steady(s.(pc := pc), t) && Cancelled(pc) == []
    ensures Steady(s, t)
  {
  }

  lemma ReadItemSteady(s: Socket)
    requires s.pc.ReadItems?
    ensures Steady(s, DoReadItem(s, s.pc.items))
  {
    hide Steady, DoResponse, DoDisconnect, Emit;
    if s.pc.items == [] {
      SameSteady(s, s.(pc := Idle));
    } else {
      var pc := ReadItems(s.pc.items[1..]);
      match s.pc.items[0]
      case InRequest => MessageSteady(s, pc);
      case InNotify => MessageSteady(s, pc);
      case InResponse(msgid) => AnswerSteady(s, pc, msgid);
      case Undecodable => FailingSteady(s, Idle, false);
    }
  }

  lemma MessageSteady(s: Socket, pc: LoopPc)
    ensures Steady(s, Emit(s.(pc := pc), HandlerMessage))
  {
    hide Steady;
    SameSteady(s, Emit(s.(pc := pc), HandlerMessage));
  }

  lemma AnswerSteady(s: Socket, pc: LoopPc, msgid: nat)
    requires Cancelled(pc) == []
    ensures Steady(s, DoResponse(s.(pc := pc), msgid))
  {
    hide Steady, DoResponse;
    ResponseSteady(s.(pc := pc), msgid);
    MovedSteady(s, pc, DoResponse(s.(pc := pc), msgid));
  }

  lemma FailingSteady(s: Socket, pc: LoopPc, handshaking: bool)
    requires Cancelled(pc) == []
    ensures Steady(s, DoDisconnect(s.(pc := pc), handshaking))
  {
    hide Steady, DoDisconnect;
    DisconnectSteady(s.(pc := pc), handshaking);
    MovedSteady(s, pc, DoDisconnect(s.(pc := pc), handshaking));
  }

  lemma ConnectLockFrame(s: Socket, status: Error)
    ensures var t := DoConnectLock(s, status);
            && t.stale == s.stale && t.starting == s.starting && t.next == s.next && t.armed == s.armed
            && t.pending == s.pending && t.timers == s.timers
  {
    hide Emit;
    EmitFrame(s.(connectTimer := false, state := DISCONNECTING, lastError := status, pc := IssueClose),
              TransportFailed(s.epoch, status));
    EmitFrame(s.(connectTimer := false, reading := true, lastError := OK, pc := ConnectCallback),
              HandlerConnect(s.epoch));
  }

  lemma EmitFrame(s: Socket, e: Event)
    ensures Emit(s, e) == s.(trace := Emit(s, e).trace)
  {
  }

  lemma ConnectLockSteady(s: Socket, status: Error)
    ensures Steady(s, DoConnectLock(s, status))
  {
    ConnectLockFrame(s, status);
    hide DoConnectLock;
  }

  lemma ReturnedSteady(s: Socket)
    ensures Steady(s, DoConnectReturned(s))
  {
    hide Steady;
    SameSteady(s, DoConnectReturned(s));
  }

  lemma ClosingSteady(s: Socket)
    ensures Steady(s, DoIssueClose(s)) && Steady(s, DoNotify(s))
  {
    hide Steady;
    SameSteady(s, DoIssueClose(s));
    SameSteady(s, DoNotify(s));
  }

  lemma PlainSteady(s: Socket)
    requires s.pc.ConnectLock? || s.pc == IssueClose || s.pc == ConnectCallback || s.pc.ReadError?
             || s.pc == ReleaseSocket
             || s.pc == DiscardQueue || s.pc == NotifyDisconnect
    ensures Steady(s, DoContinue(s))
  {
    hide Steady, DoConnectLock, DoIssueClose, DoConnectReturned, DoNotify;
    match s.pc
    case ConnectLock(status) => ConnectLockSteady(s, status);
    case IssueClose => ClosingSteady(s);
    case ConnectCallback => ReturnedSteady(s);
    case ReadError(_) => SameSteady(s, DoContinue(s));
    case ReleaseSocket => SameSteady(s, DoContinue(s));
    case DiscardQueue => SameSteady(s, DoContinue(s));
    case NotifyDisconnect => ClosingSteady(s);
  }

  lemma ReportingSteady(s: Socket)
    requires s.pc.ReportUnsent? || s.pc.DiscardUnsent? || s.pc.DiscardTimers? || s.pc == DecideRetry
    ensures Steady(s, DoContinue(s))
  {
    hide Steady, DoReportUnsent, DoDiscardUnsent, DoDiscardTimers, DoDecideRetry;
    match s.pc
    case ReportUnsent(unsent) => SameSteady(s, DoReportUnsent(s, unsent));
    case DiscardUnsent(unsent) => SameSteady(s, DoDiscardUnsent(s, unsent));
    case DiscardTimers(_) => DiscardTimersSteady(s);
    case DecideRetry => SameSteady(s, DoDecideRetry(s));
  }

  lemma ContinueSteady(s: Socket)
    requires s.pc != Idle && s.pc != FlushQueue && s.pc != RetryConnect
    ensures Steady(s, DoContinue(s))
  {
    match s.pc
    case HandshakeFailed => hide DoDisconnect, Steady; FailingSteady(s, Idle, true);
    case ReadItems(_) => hide DoReadItem, Steady; ReadItemSteady(s);
    case ReadFailed(error) => hide DoDisconnect, Steady; FailingSteady(s, ReadError(error), s.handshaking);
    case ReportUnsent(_) => hide *; ReportingSteady(s);
    case DiscardUnsent(_) => hide *; ReportingSteady(s);
    case DiscardTimers(_) => hide *; ReportingSteady(s);
    case DecideRetry => hide *; ReportingSteady(s);
    case _ => hide *; PlainSteady(s);
  }

  lemma ReplySteady(s: Socket, a: Action)
    requires Enabled(s, a) && (a.ConnectDone? || a.ConnectTimeout?)
    ensures Steady(s, Next(s, a))
  {
    hide Steady, ReplyContext, Enabled;
    SameSteady(s, Next(s, a));
  }

  lemma CloseSteady(s: Socket)
    ensures Steady(s, DoCloseDone(s))
  {
    hide Steady;
    SameSteady(s, DoCloseDone(s));
  }

  lemma HandshakeSteady(s: Socket, status: Error)
    ensures Steady(s, DoHandshake(s, status))
  {
    hide Steady;
    if status != OK {
      SameSteady(s, s.(pc := HandshakeFailed));
    } else {
      SameSteady(s, s.(handshaking := false, state := CONNECTED, pc := FlushQueue));
    }
  }

  lemma ReadChunkSteady(s: Socket, items: seq<Item>)
    ensures Steady(s, DoReadChunk(s, items))
  {
    hide Steady;
    SameSteady(s, DoReadChunk(s, items));
  }

  lemma ReadBrokenSteady(s: Socket, error: Error)
    ensures Steady(s, DoReadBroken(s, error))
  {
    hide Steady;
    SameSteady(s, DoReadBroken(s, error));
  }

  lemma EntrySteady(s: Socket, a: Action)
    requires Enabled(s, a)
    requires a.ConnectDone? || a.ConnectTimeout? || a.HandshakeDone? || a.ReadChunk? || a.ReadBroken? || a.CloseDone?
    ensures Steady(s, Next(s, a))
  {
    hide Steady, Enabled, TakeReply, DoHandshake, DoReadChunk, DoReadBroken, DoCloseDone;
    match a
    case ConnectDone(_, _) => ReplySteady(s, a);
    case ConnectTimeout(_) => ReplySteady(s, a);
    case HandshakeDone(status) => HandshakeSteady(s, status);
    case ReadChunk(items) => ReadChunkSteady(s, items);
    case ReadBroken(error) => ReadBrokenSteady(s, error);
    case CloseDone => CloseSteady(s);
  }

  lemma RetrySteady(s: Socket, dial: Dial)
    requires s.pc == RetryConnect
    ensures Steady(s, DoRetry(s, dial))
  {
    hide Steady;
    SameSteady(s, DoRetry(s, dial));
  }

  lemma TimeoutSteady(s: Socket, c: Copy)
    requires c in s.timers
    ensures Steady(s, DoRequestTimeout(s, c))
  {
    hide DoRequestTimeout;
  }

  /** But for Send, its registration and the flush. */
  predicate Loads(a: Action) {
    a.CallSend? || a.PushEntry? || a.StartTimer? || a.ContinueFlush?
  }

  lemma NextSteady(s: Socket, a: Action)
    requires Enabled(s, a) && NoFreedTimerFires(s, a) && !Loads(a)
    ensures Steady(s, Next(s, a))
  {
    hide Steady, DoConnect, DoDisconnect, DoWriteDone, DoRequestTimeout, DoContinue, DoRetry, DoCloseDone,
         TakeReply, DoHandshake, DoReadChunk, DoReadBroken;
    match a
    case CallConnect(timeout, dial) => ConnectSteady(s, timeout, dial, true);
    case CallDisconnect => DisconnectSteady(s, false);
    case WriteDone(c, status) => WriteDoneSteady(s, c, status);
    case RequestTimeout(c) => TimeoutSteady(s, c);
    case Continue => ContinueSteady(s);
    case ContinueRetry(dial) => RetrySteady(s, dial);
    case _ => EntrySteady(s, a);
  }

  lemma StepSteady(s: Socket, a: Action)
    requires NoFreedTimerFires(s, a) && !Loads(a)
    ensures Steady(s, Step(s, a))
  {
    if Enabled(s, a) {
      NextSteady(s, a);
    }
    hide Next, Enabled;
  }

  // ---- Send and the flush ----

  lemma SendFrame(s: Socket, body: Message, write: Error)
    ensures var t := DoSend(s, body, write);
            t.stale == s.stale && t.starting == s.starting && t.armed == s.armed && t.timers == s.timers
  {
    hide DoSend;
  }

  lemma FlushOneFrame(s: Socket, r: WriteResult)
    requires s.pc.ReportUnsent? && s.pending != []
    ensures FlushOne(s, r).armed >= s.armed
  {
    hide SendQueued;
  }

  lemma {:induction false} FlushLoopFrame(s: Socket, results: seq<WriteResult>)
    requires s.pc.ReportUnsent? && |results| == |s.pending|
    ensures var t := FlushLoop(s, results);
            t.stale == s.stale && t.starting == s.starting && t.armed >= s.armed
    decreases |results|
  {
    hide FlushOne;
    if results != [] {
      FlushOneFrame(s, results[0]);
      FlushLoopFrame(FlushOne(s, results[0]), results[1..]);
    }
  }
}
