/**
  The handler and the transport see each stream open and close once: one tv_close, one close
  callback, one outcome of the close, at most one OnConnect.
*/
module StreamBooks {
  import opened Basics
  import opened Protocol
  import opened Ledger
  import opened Lifecycle

  /** Close callbacks still to come. */
  function Awaited(s: Socket): multiset<nat> {
    if s.stream == Closing then One(s.epoch) else multiset{}
  }

  /** Closes whose outcome is still to come. */
  function Unfinished(s: Socket): multiset<nat> {
    if InClose(s.pc) then One(s.closing) else multiset{}
  }

  predicate Unannounced(s: Socket) {
    s.connectable && s.state == CONNECTING && s.pc != ConnectCallback
  }

  ghost predicate Streamed(s: Socket) {
    var l := Log(s.trace);
    && l.closed + Awaited(s) == l.issued
    && l.ended + Unfinished(s) == l.closed
    && (forall k :: l.issued[k] <= 1)
    && (forall k :: k > s.epoch ==> l.issued[k] == 0 && l.connects[k] == 0)
    && (s.stream == Open ==> l.issued[s.epoch] == 0)
    && (forall k :: l.connects[k] <= 1)
    && (Unannounced(s) ==> l.connects[s.epoch] == 0)
    && l.late == 0
  }

  predicate Silent(e: Event) {
    !(e.CloseIssued? || e.Closed? || e.HandlerConnect? || e.HandlerDisconnect? || e.Suppressed? || e.CloseRetried?
      || e.Opened? || e.TransportFailed? || (e.Failed? && e.cause.Discarded?))
  }

  lemma SilentLog(trace: seq<Event>, e: Event)
    requires Silent(e)
    ensures Log(trace + [e]) == Log(trace)
  {
    hide Log;
    LogAppend(trace, e);
  }

  lemma SilentTwice(trace: seq<Event>, e: Event, f: Event)
    requires Silent(e) && Silent(f)
    ensures Log(trace + [e] + [f]) == Log(trace)
  {
    SilentLog(trace, e);
    SilentLog(trace + [e], f);
  }

  predicate SameStream(s: Socket, t: Socket) {
    && t.epoch == s.epoch && t.stream == s.stream && Unfinished(t) == Unfinished(s)
    && (Unannounced(t) ==> Unannounced(s))
  }

  predicate SameCounts(a: Streams, b: Streams) {
    b == a.(reasons := b.reasons)
  }

  lemma FailureCounts(trace: seq<Event>, k: nat, error: Error)
    ensures SameCounts(Log(trace), Log(trace + [TransportFailed(k, error)]))
  {
    hide Log;
    LogAppend(trace, TransportFailed(k, error));
  }

  lemma SameStreamed(s: Socket, t: Socket)
    requires Streamed(s) && SameStream(s, t) && SameCounts(Log(s.trace), Log(t.trace))
    ensures Streamed(t)
  {
  }

  lemma OpenStreamed(s: Socket, t: Socket, byUser: bool)
    requires Streamed(s) && s.stream == NoStream && t.stream == Open && t.epoch == s.epoch + 1
    requires t.trace == s.trace + [Opened(s.epoch + 1, byUser)] && Unfinished(t) == Unfinished(s)
    ensures Streamed(t)
  {
    hide Log;
    LogAppend(s.trace, Opened(s.epoch + 1, byUser));
  }

  lemma ConnectStreamed(s: Socket, timeout: nat, dial: Dial, byUser: bool)
    requires Orderly(s) && Streamed(s)
    ensures Streamed(DoConnect(s, timeout, dial, byUser))
  {
    hide Streamed;
    if !s.connectable || s.state != DISCONNECTED || !dial.room {
    } else if dial.status != OK {
      SameStreamed(s, DoConnect(s, timeout, dial, byUser));
    } else {
      OpenStreamed(s, DoConnect(s, timeout, dial, byUser), byUser);
    }
  }

  lemma CloseStreamed(s: Socket, t: Socket)
    requires Streamed(s) && s.stream == Open && t.stream == Closing && t.trace == s.trace + [CloseIssued(s.epoch)]
    requires t.epoch == s.epoch && Unfinished(t) == Unfinished(s) && !Unannounced(t)
    ensures Streamed(t)
  {
    hide Log, Unfinished, Unannounced;
    CloseLog(s.trace, s.epoch);
    var l := Log(s.trace);
    assert l.closed + multiset{} == l.closed;
  }

  lemma CloseLog(trace: seq<Event>, k: nat)
    ensures Log(trace + [CloseIssued(k)]) == Log(trace).(issued := Log(trace).issued + One(k))
  {
    hide Log;
    LogAppend(trace, CloseIssued(k));
  }

  lemma DisconnectStreamed(s: Socket, handshaking: bool)
    requires Orderly(s) && Streamed(s)
    ensures Streamed(DoDisconnect(s, handshaking))
  {
    hide Streamed;
    if Live(s) {
      CloseStreamed(s, DoDisconnect(s, handshaking));
    } else {
      SameStreamed(s, DoDisconnect(s, handshaking));
    }
  }

  lemma AnnounceStreamed(s: Socket, t: Socket)
    requires Streamed(s) && Unannounced(s) && t.trace == s.trace + [HandlerConnect(s.epoch)]
    requires t.epoch == s.epoch && t.stream == s.stream && Unfinished(t) == Unfinished(s) && !Unannounced(t)
    ensures Streamed(t)
  {
    hide Log, Unfinished, Unannounced;
    AnnounceLog(s.trace, s.epoch);
    assert Awaited(t) == Awaited(s);
    hide Awaited;
  }

  lemma AnnounceLog(trace: seq<Event>, k: nat)
    ensures Log(trace + [HandlerConnect(k)]) == Log(trace).(connects := Log(trace).connects + One(k))
  {
    hide Log;
    LogAppend(trace, HandlerConnect(k));
  }

  lemma ConnectFailedStreamed(s: Socket)
    requires Orderly(s) && Streamed(s) && s.pc.ConnectLock? && s.state == CONNECTING && s.pc.status != OK
    ensures Streamed(DoConnectLock(s, s.pc.status))
  {
    hide Streamed;
    FailureCounts(s.trace, s.epoch, s.pc.status);
    SameStreamed(s, DoConnectLock(s, s.pc.status));
  }

  lemma ConnectLockStreamed(s: Socket)
    requires Orderly(s) && Streamed(s) && s.pc.ConnectLock?
    ensures Streamed(DoConnectLock(s, s.pc.status))
  {
    hide Streamed;
    if s.state != CONNECTING {
      SameStreamed(s, DoConnectLock(s, s.pc.status));
    } else if s.pc.status != OK {
      ConnectFailedStreamed(s);
    } else {
      AnnounceStreamed(s, DoConnectLock(s, s.pc.status));
    }
  }

  lemma ClosedStreamed(s: Socket, t: Socket)
    requires Streamed(s) && s.stream == Closing && t.stream == NoStream && t.trace == s.trace + [Closed(s.epoch)]
    requires t.epoch == s.epoch && Unfinished(s) == multiset{} && Unfinished(t) == One(s.epoch) && !Unannounced(t)
    ensures Streamed(t)
  {
    hide Log;
    LogAppend(s.trace, Closed(s.epoch));
  }

  lemma CloseDoneStreamed(s: Socket)
    requires Orderly(s) && Streamed(s) && s.pc == Idle && s.stream == Closing
    ensures Streamed(DoCloseDone(s))
  {
    hide Streamed;
    ClosedStreamed(s, DoCloseDone(s));
  }

  lemma EndStreamed(s: Socket, e: Event)
    requires Streamed(s) && InClose(s.pc)
    requires e == Suppressed(s.closing) || e == CloseRetried(s.closing)
             || (e.HandlerDisconnect? && e.epoch == s.closing)
    ensures Streamed(Emit(s.(pc := Idle), e))
  {
    hide Log;
    LogAppend(s.trace, e);
    hide Log;
    OutcomeStreamed(s, Emit(s.(pc := Idle), e));
  }

  lemma OutcomeStreamed(s: Socket, t: Socket)
    requires Streamed(s) && InClose(s.pc) && t == s.(pc := Idle, trace := t.trace)
    requires Log(t.trace) == Log(s.trace).(ended := Log(s.trace).ended + One(s.closing))
    ensures Streamed(t)
  {
    assert Unfinished(t) == multiset{} && Unfinished(s) == One(s.closing) && Awaited(t) == Awaited(s);
    assert Unannounced(t) == Unannounced(s);
    hide Log, Unfinished, Unannounced, Awaited, InClose;
  }

  lemma {:induction false} FlushLoopLog(s: Socket, results: seq<WriteResult>)
    requires s.pc.ReportUnsent? && |results| == |s.pending|
    ensures Log(FlushLoop(s, results).trace) == Log(s.trace)
    decreases |results|
  {
    if results != [] {
      FlushOneLog(s, results[0]);
      FlushLoopLog(FlushOne(s, results[0]), results[1..]);
    }
  }

  lemma SendQueuedLog(s: Socket, c: Copy, timerStarts: bool)
    ensures Log(SendQueued(s, c, timerStarts).trace) == Log(s.trace)
  {
    SilentLog(s.trace, Written(c));
    if c.body.Request? {} else {}
  }

  lemma FlushOneLog(s: Socket, r: WriteResult)
    requires s.pc.ReportUnsent? && s.pending != []
    ensures Log(FlushOne(s, r).trace) == Log(s.trace)
  {
    hide SendQueued, Log;
    SendQueuedLog(s.(pending := s.pending[1..]), s.pending[0], r.timerStarts);
  }

  // ---- Sections that only log silent events ----

  lemma QueueUpLog(s: Socket, c: Copy)
    ensures Log(QueueUp(s, c).trace) == Log(s.trace)
    ensures Log(Refuse(s, c).trace) == Log(s.trace)
  {
    hide Log, Mark;
    SilentTwice(s.trace, Allocated(c), Accepted(c, true));
    SilentTwice(s.trace, Allocated(c), Freed(c));
  }

  lemma WriteNowLog(s: Socket, c: Copy)
    ensures Log(WriteNow(Allocate(s, c), c).trace) == Log(s.trace)
  {
    hide Log, Mark;
    SendNowTrace(s, c);
    SilentTwice(s.trace, Allocated(c), Accepted(c, false));
    SilentLog(s.trace + [Allocated(c)] + [Accepted(c, false)], Written(c));
  }

  lemma SendLog(s: Socket, body: Message, write: Error)
    ensures Log(DoSend(s, body, write).trace) == Log(s.trace)
  {
    hide Log, QueueUp, Refuse, WriteNow, Allocate;
    QueueUpLog(s, Copy(s.next, body));
    WriteNowLog(s, Copy(s.next, body));
  }

  lemma SendNowTrace(s: Socket, c: Copy)
    ensures WriteNow(Allocate(s, c), c).trace == s.trace + [Allocated(c)] + [Accepted(c, false)] + [Written(c)]
  {
  }

  lemma MatchedWriteLog(s: Socket, c: Copy, status: Error)
    requires status != OK && c.body.Request? && IndexOf(s.timers, c.body.msgid) < |s.timers|
    ensures Log(DoWriteDone(s, c, status).trace) == Log(s.trace)
  {
    hide Log, Mark;
    var e := s.timers[IndexOf(s.timers, c.body.msgid)];
    SilentTwice(s.trace, TimerFreed(e), Failed(c, WriteError(true)));
    SilentLog(s.trace + [TimerFreed(e)] + [Failed(c, WriteError(true))], Freed(c));
  }

  lemma WriteDoneLog(s: Socket, c: Copy, status: Error)
    ensures Log(DoWriteDone(s, c, status).trace) == Log(s.trace)
  {
    hide Log, Mark;
    if status == OK {
      SilentLog(s.trace, Freed(c));
    } else if c.body.Request? && IndexOf(s.timers, c.body.msgid) < |s.timers| {
      hide *;
      MatchedWriteLog(s, c, status);
    } else {
      hide *;
      OrphanLog(s, c, status);
    }
  }

  lemma OrphanLog(s: Socket, c: Copy, status: Error)
    requires status != OK && (c.body.Request? ==> IndexOf(s.timers, c.body.msgid) == |s.timers|)
    ensures Log(DoWriteDone(s, c, status).trace) == Log(s.trace)
  {
    hide Log, Mark;
    SilentTwice(s.trace, Failed(c, WriteError(false)), Freed(c));
  }

  lemma RequestTimeoutLog(s: Socket, c: Copy)
    ensures Log(DoRequestTimeout(s, c).trace) == Log(s.trace)
  {
    hide Log, Mark;
    SilentTwice(s.trace, Failed(c, TimedOut), TimerFreed(c));
  }

  lemma ResponseLog(s: Socket, msgid: nat)
    ensures Log(DoResponse(s, msgid).trace) == Log(s.trace)
  {
    hide Log, Mark;
    var i := IndexOf(s.timers, msgid);
    if i < |s.timers| {
      SilentTwice(s.trace, TimerFreed(s.timers[i]), Answered(s.timers[i]));
    }
  }

  lemma ReportLog(s: Socket, unsent: seq<Copy>)
    ensures Log(DoReportUnsent(s, unsent).trace) == Log(s.trace)
  {
    hide Log, Mark;
    if unsent != [] {
      SilentTwice(s.trace, Failed(unsent[0], NotSent), Freed(unsent[0]));
    }
  }

  lemma DiscardLog(trace: seq<Event>, c: Copy, k: nat, freed: Event)
    requires Log(trace).ended[k] == 0 && Silent(freed)
    ensures Log(trace + [Failed(c, Discarded(k))] + [freed]) == Log(trace)
  {
    hide Log;
    LogAppend(trace, Failed(c, Discarded(k)));
    SilentLog(trace + [Failed(c, Discarded(k))], freed);
  }

  lemma DiscardUnsentLog(s: Socket, unsent: seq<Copy>)
    requires Log(s.trace).ended[s.closing] == 0
    ensures Log(DoDiscardUnsent(s, unsent).trace) == Log(s.trace)
  {
    hide Log, Mark;
    if unsent != [] {
      DiscardLog(s.trace, unsent[0], s.closing, Freed(unsent[0]));
    }
  }

  lemma DiscardTimersLog(s: Socket, entries: seq<Copy>)
    requires Log(s.trace).ended[s.closing] == 0
    ensures Log(DoDiscardTimers(s, entries).trace) == Log(s.trace)
  {
    hide Log, Mark;
    if entries != [] {
      DiscardLog(s.trace, entries[0], s.closing, TimerFreed(entries[0]));
    }
  }

  lemma NotEnded(s: Socket)
    requires Streamed(s) && InClose(s.pc)
    ensures Log(s.trace).ended[s.closing] == 0
  {
    var l := Log(s.trace);
    assert (l.ended + Unfinished(s))[s.closing] == l.closed[s.closing];
    assert (l.closed + Awaited(s))[s.closing] == l.issued[s.closing];
  }

  // ---- Every step, every run ----

  lemma MessageStreamed(s: Socket, t: Socket)
    requires Streamed(s) && s.pc.ReadItems? && t.pc.ReadItems? && t == s.(pc := t.pc)
    ensures Streamed(Emit(t, HandlerMessage))
  {
    hide Streamed, Log;
    SilentLog(t.trace, HandlerMessage);
    SameStreamed(s, Emit(t, HandlerMessage));
  }

  lemma ResponseStreamed(s: Socket, t: Socket, msgid: nat)
    requires Streamed(s) && s.pc.ReadItems? && t.pc.ReadItems? && t == s.(pc := t.pc)
    ensures Streamed(DoResponse(t, msgid))
  {
    hide Streamed, Log, DoResponse;
    ResponseLog(t, msgid);
    SameStreamed(s, DoResponse(t, msgid));
  }

  lemma ReadItemStreamed(s: Socket)
    requires Orderly(s) && Streamed(s) && s.pc.ReadItems?
    ensures Streamed(DoReadItem(s, s.pc.items))
  {
    hide Streamed, Log, DoDisconnect, DoResponse;
    MoveOnStreamed(s, Idle);
    if s.pc.items != [] {
      var t := s.(pc := ReadItems(s.pc.items[1..]));
      match s.pc.items[0]
      case InRequest => MessageStreamed(s, t);
      case InNotify => MessageStreamed(s, t);
      case InResponse(msgid) => ResponseStreamed(s, t, msgid);
      case Undecodable => DisconnectStreamed(s.(pc := Idle), false);
    }
  }

  lemma MoveOnStreamed(s: Socket, pc: LoopPc)
    requires Streamed(s) && !InClose(s.pc) && !InClose(pc) && s.pc != ConnectCallback
    ensures Streamed(s.(pc := pc))
  {
    hide Streamed;
    SameStreamed(s, s.(pc := pc));
  }

  lemma IssueCloseStreamed(s: Socket)
    requires Orderly(s) && Streamed(s) && s.pc == IssueClose
    ensures Streamed(DoIssueClose(s))
  {
    hide Streamed;
    CloseStreamed(s, DoIssueClose(s));
  }

  lemma NotifyStreamed(s: Socket)
    requires Streamed(s) && s.pc == NotifyDisconnect
    ensures Streamed(DoNotify(s))
  {
    hide Streamed;
    EndStreamed(s, if s.handshaking then Suppressed(s.closing) else HandlerDisconnect(s.closing, s.lastError));
  }

  lemma ReturnedStreamed(s: Socket)
    requires Orderly(s) && Streamed(s) && s.pc == ConnectCallback
    ensures Streamed(DoConnectReturned(s))
  {
    hide Streamed, Log;
    SameStreamed(s, DoConnectReturned(s));
  }

  lemma DecideStreamed(s: Socket)
    requires Streamed(s) && s.pc == DecideRetry
    ensures Streamed(DoDecideRetry(s))
  {
    hide Streamed, Log, DoDecideRetry;
    SameStreamed(s, DoDecideRetry(s));
  }

  lemma MovedStreamed(s: Socket, t: Socket)
    requires Streamed(s) && t == s.(pc := t.pc, lastError := t.lastError, inPool := t.inPool, pending := t.pending)
    requires s.pc != ConnectCallback && InClose(t.pc) == InClose(s.pc)
    ensures Streamed(t)
  {
    hide Streamed, Log;
    SameStreamed(s, t);
  }

  lemma QuietStreamed(s: Socket)
    requires Orderly(s) && Streamed(s)
    requires s.pc == ConnectCallback || s.pc.ReadError? || s.pc == ReleaseSocket || s.pc == DecideRetry
             || s.pc == DiscardQueue
    ensures Streamed(DoContinue(s))
  {
    hide Streamed, Orderly, DoDecideRetry, DoConnectReturned;
    match s.pc
    case ConnectCallback => ReturnedStreamed(s);
    case DecideRetry => DecideStreamed(s);
    case ReadError(error) => MovedStreamed(s, s.(lastError := error, pc := Idle));
    case ReleaseSocket => MovedStreamed(s, s.(inPool := false, pc := DecideRetry));
    case DiscardQueue => MovedStreamed(s, s.(pc := DiscardUnsent(s.pending), pending := []));
  }

  lemma ReportingStreamed(s: Socket)
    requires Streamed(s) && (s.pc.ReportUnsent? || s.pc.DiscardUnsent? || s.pc.DiscardTimers?)
    ensures Streamed(DoContinue(s))
  {
    hide Streamed, Log, DoReportUnsent, DoDiscardUnsent, DoDiscardTimers;
    if InClose(s.pc) {
      NotEnded(s);
    }
    match s.pc
    case ReportUnsent(unsent) =>
      ReportLog(s, unsent);
      SameStreamed(s, DoReportUnsent(s, unsent));
    case DiscardUnsent(unsent) =>
      DiscardUnsentLog(s, unsent);
      SameStreamed(s, DoDiscardUnsent(s, unsent));
    case DiscardTimers(entries) =>
      DiscardTimersLog(s, entries);
      SameStreamed(s, DoDiscardTimers(s, entries));
  }

  lemma ContinueStreamed(s: Socket)
    requires Orderly(s) && Streamed(s) && Enabled(s, Continue)
    ensures Streamed(DoContinue(s))
  {
    hide Streamed, Orderly, DoConnectLock, DoReportUnsent, DoDisconnect, DoReadItem, DoDiscardUnsent, DoDiscardTimers,
         DoDecideRetry, DoNotify, DoIssueClose;
    match s.pc
    case ConnectLock(_) => ConnectLockStreamed(s);
    case IssueClose => IssueCloseStreamed(s);
    case HandshakeFailed => FailingStreamed(s, Idle, true);
    case ReadItems(_) => ReadItemStreamed(s);
    case ReadFailed(error) => FailingStreamed(s, ReadError(error), s.handshaking);
    case NotifyDisconnect => NotifyStreamed(s);
    case ReportUnsent(_) => ReportingStreamed(s);
    case DiscardUnsent(_) => ReportingStreamed(s);
    case DiscardTimers(_) => ReportingStreamed(s);
    case _ => QuietStreamed(s);
  }

  lemma FailingStreamed(s: Socket, pc: LoopPc, handshaking: bool)
    requires Orderly(s) && Streamed(s)
    requires (s.pc == HandshakeFailed && pc == Idle) || (s.pc.ReadFailed? && pc.ReadError?)
    ensures Streamed(DoDisconnect(s.(pc := pc), handshaking))
  {
    hide Streamed, DoDisconnect;
    MoveOnStreamed(s, pc);
    DisconnectStreamed(s.(pc := pc), handshaking);
  }

  lemma RetryStreamed(s: Socket, dial: Dial)
    requires Orderly(s) && Streamed(s) && s.pc == RetryConnect
    ensures Streamed(DoRetry(s, dial))
  {
    hide Streamed, DoConnect;
    var t := Emit(s.(pc := Idle), CloseRetried(s.closing));
    EndStreamed(s, CloseRetried(s.closing));
    ConnectStreamed(t, s.connectTimeout, dial, false);
  }

  lemma ConnectEntryStreamed(s: Socket, a: Action)
    requires Streamed(s) && s.pc == Idle && Enabled(s, a) && (a.ConnectDone? || a.ConnectTimeout?)
    ensures Streamed(Next(s, a))
  {
    hide Streamed, ReplyContext;
    SameStreamed(s, Next(s, a));
  }

  lemma HandshakeStreamed(s: Socket, status: Error)
    requires Streamed(s) && s.pc == Idle && !s.connectable
    ensures Streamed(DoHandshake(s, status))
  {
    hide Streamed;
    if status != OK {
      SameStreamed(s, s.(pc := HandshakeFailed));
    } else {
      SameStreamed(s, s.(handshaking := false, state := CONNECTED, pc := FlushQueue));
    }
  }

  lemma ReadChunkStreamed(s: Socket, items: seq<Item>)
    requires Streamed(s) && s.pc == Idle
    ensures Streamed(DoReadChunk(s, items))
  {
    hide Streamed;
    SameStreamed(s, s.(pc := ReadItems(items), chunkStart := |s.trace|));
  }

  lemma ReadBrokenStreamed(s: Socket, error: Error)
    requires Streamed(s) && s.pc == Idle
    ensures Streamed(DoReadBroken(s, error))
  {
    hide Streamed;
    FailureCounts(s.trace, s.epoch, error);
    SameStreamed(s, Emit(s.(pc := ReadFailed(error)), TransportFailed(s.epoch, error)));
  }

  /** Actions about messages. */
  predicate Talks(a: Action) {
    a.CallSend? || a.PushEntry? || a.StartTimer? || a.WriteDone? || a.RequestTimeout? || a.ContinueFlush?
  }

  /** They leave the stream and what is told of it alone. */
  ghost predicate Aside(s: Socket, t: Socket) {
    && Log(t.trace) == Log(s.trace)
    && t.kind == s.kind && t.connectable == s.connectable && t.state == s.state && t.handshaking == s.handshaking
    && t.lastError == s.lastError && t.connectTimeout == s.connectTimeout && t.connectTimer == s.connectTimer
    && t.ws == s.ws && t.authConfig == s.authConfig
    && t.stream == s.stream && t.epoch == s.epoch && t.dialing == s.dialing && t.reading == s.reading
    && t.inPool == s.inPool && t.closing == s.closing && t.replies == s.replies && t.raced == s.raced
    && (t.pc == s.pc || (s.pc == FlushQueue && t.pc.ReportUnsent?))
  }

  lemma SendAside(s: Socket, body: Message, write: Error)
    ensures Aside(s, DoSend(s, body, write))
  {
    SendLog(s, body, write);
    hide Log, DoSend;
  }

  lemma RegisterAside(s: Socket, timerStarts: bool)
    ensures s.sending.Some? ==> Aside(s, DoPushEntry(s))
    ensures s.starting.Some? ==> Aside(s, DoStartTimer(s, timerStarts))
  {
    hide Log, DoStartTimer;
  }

  lemma WriteDoneAside(s: Socket, c: Copy, status: Error)
    ensures Aside(s, DoWriteDone(s, c, status))
  {
    WriteDoneLog(s, c, status);
    hide Log, DoWriteDone;
  }

  lemma RequestTimeoutAside(s: Socket, c: Copy)
    ensures Aside(s, DoRequestTimeout(s, c))
  {
    RequestTimeoutLog(s, c);
    hide Log, DoRequestTimeout;
  }

  lemma FlushAside(s: Socket, results: seq<WriteResult>)
    requires s.pc == FlushQueue && |results| == |s.pending|
    ensures Aside(s, DoFlush(s, results))
  {
    FlushLoopLog(s.(pc := ReportUnsent([])), results);
    hide Log, FlushLoop;
  }

  lemma TalkAside(s: Socket, a: Action)
    requires Enabled(s, a) && Talks(a)
    ensures Aside(s, Next(s, a))
  {
    hide Aside, DoSend, DoPushEntry, DoStartTimer, DoWriteDone, DoRequestTimeout, DoFlush;
    match a
    case CallSend(body, write) => SendAside(s, body, write);
    case PushEntry => RegisterAside(s, false);
    case StartTimer(timerStarts) => RegisterAside(s, timerStarts);
    case WriteDone(c, status) => WriteDoneAside(s, c, status);
    case RequestTimeout(c) => RequestTimeoutAside(s, c);
    case ContinueFlush(results) => FlushAside(s, results);
  }

  lemma AsideStreamed(s: Socket, t: Socket)
    requires Streamed(s) && Aside(s, t)
    ensures Streamed(t)
  {
    hide Log;
  }

  lemma NextStreamed(s: Socket, a: Action)
    requires Orderly(s) && Streamed(s) && Enabled(s, a)
    ensures Streamed(Next(s, a))
  {
    if Talks(a) {
      hide Streamed, Aside, Next, Enabled, Orderly;
      TalkAside(s, a);
      AsideStreamed(s, Next(s, a));
    } else {
      hide Streamed, Talks, DoConnect, DoDisconnect, DoCloseDone, DoContinue, DoRetry, TakeReply, DoHandshake,
           DoReadChunk, DoReadBroken;
      match a
      case CallConnect(timeout, dial) => ConnectStreamed(s, timeout, dial, true);
      case CallDisconnect => DisconnectStreamed(s, false);
      case CloseDone => CloseDoneStreamed(s);
      case Continue => ContinueStreamed(s);
      case ContinueRetry(dial) => RetryStreamed(s, dial);
      case ConnectDone(_, _) => ConnectEntryStreamed(s, a);
      case ConnectTimeout(_) => ConnectEntryStreamed(s, a);
      case HandshakeDone(status) => HandshakeStreamed(s, status);
      case ReadChunk(items) => ReadChunkStreamed(s, items);
      case ReadBroken(error) => ReadBrokenStreamed(s, error);
    }
  }

  lemma StepStreamed(s: Socket, a: Action)
    requires Orderly(s) && Streamed(s)
    ensures Streamed(Step(s, a))
  {
    hide Orderly, Streamed, Next, Enabled;
    if Enabled(s, a) {
      NextStreamed(s, a);
    }
  }

  lemma InitialStreamed(s: Socket)
    requires Initial(s)
    ensures Streamed(s)
  {
  }

  lemma {:induction false} RunStreamed(s: Socket, run: seq<Action>)
    requires Orderly(s) && Streamed(s)
    ensures Streamed(Run(s, run))
    decreases |run|
  {
    hide Streamed, Orderly, Step;
    if run != [] {
      StepGood(s, run[0]);
      StepStreamed(s, run[0]);
      RunStreamed(Step(s, run[0]), run[1..]);
    }
  }

  /**
    In every run: tv_close and the close callback happen at most once per stream, in that order, a
    stream reported closed has exactly one outcome (OnDisconnect, suppressed because marked
    handshaking, or handed over to the automatic retry), and OnConnect fires at most once per stream.
  */
  lemma OneClosePerStream(s: Socket, run: seq<Action>, k: nat)
    requires Initial(s)
    ensures var t := Run(s, run);
            var l := Log(t.trace);
            && l.issued[k] <= 1
            && l.closed[k] + (if t.stream == Closing && t.epoch == k then 1 else 0) == l.issued[k]
            && l.ended[k] + (if InClose(t.pc) && t.closing == k then 1 else 0) == l.closed[k]
            && l.connects[k] <= 1
            && l.late == 0
  {
    InitialOrderly(s);
    InitialStreamed(s);
    RunStreamed(s, run);
    var t := Run(s, run);
    assert (Log(t.trace).closed + Awaited(t))[k] == Log(t.trace).issued[k];
    assert (Log(t.trace).ended + Unfinished(t))[k] == Log(t.trace).closed[k];
  }
}
