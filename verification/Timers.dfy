/**
  The timer of a request is armed only while its entry exists, so a timeout finds it; all but the
  timers that a Send started after somebody else had freed them.
*/
module Timers {
  import opened Basics
  import opened Protocol
  import opened Ledger
  import opened Stocks
  import opened Conservation

  ghost predicate Tended(s: Socket) {
    && (forall c :: c in s.armed ==> c in s.timers || c in Cancelled(s.pc) || c in s.stale)
    && (s.starting.Some? ==> s.starting.value !in s.armed)
  }

  /** The timer that fires was not freed: what happens otherwise is undefined. */
  predicate NoFreedTimerFires(s: Socket, a: Action) {
    a.RequestTimeout? && Enabled(s, a) ==> a.copy in s.timers
  }

  lemma SameTended(s: Socket, t: Socket)
    requires Tended(s)
    requires t.armed == s.armed && t.timers == s.timers && Cancelled(t.pc) == Cancelled(s.pc)
    requires t.stale == s.stale && t.starting == s.starting
    ensures Tended(t)
  {
  }

  lemma RegisterTended(s: Socket, c: Copy, timerStarts: bool)
    requires Tended(s) && s.starting.None?
    ensures Tended(Register(s, c, timerStarts))
  {
  }

  lemma EmitTended(s: Socket, e: Event)
    requires Tended(s)
    ensures Tended(Emit(s, e))
  {
  }

  lemma SendQueuedTended(s: Socket, c: Copy, timerStarts: bool)
    requires Tended(s) && s.starting.None?
    ensures Tended(SendQueued(s, c, timerStarts))
  {
    hide Tended, Register;
    if c.body.Request? {
      RegisterTended(s, c, timerStarts);
      HandOverTended(Register(s, c, timerStarts), c);
    } else {
      HandOverTended(s, c);
    }
  }

  lemma HandOverTended(s: Socket, c: Copy)
    requires Tended(s)
    ensures Tended(HandOver(s, c))
  {
  }

  lemma FlushOneTended(s: Socket, r: WriteResult)
    requires Tended(s) && s.starting.None? && s.pc.ReportUnsent? && s.pending != []
    ensures Tended(FlushOne(s, r))
  {
    hide Tended, SendQueued;
    var t := s.(pending := s.pending[1..]);
    SameTended(s, t);
    SameTended(s, t.(pc := ReportUnsent(s.pc.unsent + [s.pending[0]])));
    SendQueuedTended(t, s.pending[0], r.timerStarts);
  }

  lemma FlushLoopTended(s: Socket, results: seq<WriteResult>)
    requires Tended(s) && s.starting.None? && s.pc.ReportUnsent? && |results| == |s.pending|
    ensures Tended(FlushLoop(s, results))
    decreases |results|
  {
    hide Tended, FlushOne;
    if results != [] {
      FlushOneTended(s, results[0]);
      FlushLoopTended(FlushOne(s, results[0]), results[1..]);
    }
  }

  lemma ErasedOther(entries: seq<Copy>, i: nat, c: Copy)
    requires i < |entries| && c in entries && c != entries[i]
    ensures c in RemoveAt(entries, i)
  {
    var j :| 0 <= j < |entries| && entries[j] == c;
    var r := RemoveAt(entries, i);
    assert r[if j < i then j else j - 1] == c;
  }

  lemma ErasedTended(s: Socket, i: nat)
    requires Tended(s) && i < |s.timers|
    ensures forall c :: c in s.armed - {s.timers[i]} ==>
              c in RemoveAt(s.timers, i) || c in Cancelled(s.pc) || c in s.stale
  {
    forall c | c in s.armed - {s.timers[i]} ensures c in RemoveAt(s.timers, i) || c in Cancelled(s.pc) || c in s.stale {
      if c in s.timers {
        ErasedOther(s.timers, i, c);
      }
    }
  }

  lemma DiscardTimersTended(s: Socket)
    requires Tended(s) && s.pc.DiscardTimers? && s.pc.entries != []
    ensures Tended(DoDiscardTimers(s, s.pc.entries))
  {
    var es := s.pc.entries;
    forall c | c in s.armed - {es[0]} ensures c in s.timers || c in es[1..] || c in s.stale {
      if c in es {
        assert es == [es[0]] + es[1..];
      }
    }
  }

  lemma DisconnectTended(s: Socket, handshaking: bool)
    requires Tended(s)
    ensures Tended(DoDisconnect(s, handshaking))
  {
  }

  lemma ResponseTended(s: Socket, msgid: nat)
    requires Tended(s)
    ensures Tended(DoResponse(s, msgid))
  {
    var i := IndexOf(s.timers, msgid);
    if i < |s.timers| {
      ErasedTended(s, i);
    }
  }

  lemma ReadItemTended(s: Socket)
    requires Tended(s) && s.pc.ReadItems?
    ensures Tended(DoReadItem(s, s.pc.items))
  {
    hide Tended, DoDisconnect, DoResponse;
    SameTended(s, s.(pc := Idle));
    if s.pc.items != [] {
      var t := s.(pc := ReadItems(s.pc.items[1..]));
      SameTended(s, t);
      match s.pc.items[0]
      case InRequest => EmitTended(t, HandlerMessage);
      case InNotify => EmitTended(t, HandlerMessage);
      case InResponse(msgid) => ResponseTended(t, msgid);
      case Undecodable => DisconnectTended(s.(pc := Idle), false);
    }
  }

  lemma ConnectLockTended(s: Socket, status: Error)
    requires Tended(s) && s.pc.ConnectLock?
    ensures Tended(DoConnectLock(s, status))
  {
    ConnectLockArms(s, status);
    hide Tended, DoConnectLock;
    SameTended(s, DoConnectLock(s, status));
  }

  lemma ConnectLockArms(s: Socket, status: Error)
    ensures var t := DoConnectLock(s, status);
            && t.armed == s.armed && t.timers == s.timers && t.stale == s.stale && t.starting == s.starting
            && Cancelled(t.pc) == []
  {
    if s.state != CONNECTING {
    } else if status != OK {
    } else {
    }
  }

  lemma DiscardUnsentTended(s: Socket)
    requires Tended(s) && s.pc.DiscardUnsent?
    ensures Tended(DoDiscardUnsent(s, s.pc.unsent))
  {
    if s.pc.unsent != [] {
      hide *;
      DiscardHeadTended(s);
    }
  }

  lemma DiscardHeadTended(s: Socket)
    requires Tended(s) && s.pc.DiscardUnsent? && s.pc.unsent != []
    ensures Tended(DoDiscardUnsent(s, s.pc.unsent))
  {
    hide Tended;
    SameTended(s, DoDiscardUnsent(s, s.pc.unsent));
  }

  lemma DiscardEntriesTended(s: Socket)
    requires Tended(s) && s.pc.DiscardTimers?
    ensures Tended(DoDiscardTimers(s, s.pc.entries))
  {
    if s.pc.entries != [] {
      hide *;
      DiscardTimersTended(s);
    }
  }

  lemma ReportTended(s: Socket)
    requires Tended(s) && s.pc.ReportUnsent?
    ensures Tended(DoReportUnsent(s, s.pc.unsent))
  {
    hide Tended, DoReportUnsent;
    SameTended(s, DoReportUnsent(s, s.pc.unsent));
  }

  lemma DecideTended(s: Socket)
    requires Tended(s) && s.pc == DecideRetry
    ensures Tended(DoDecideRetry(s))
  {
    hide Tended, DoDecideRetry;
    SameTended(s, DoDecideRetry(s));
  }

  lemma PlainTended(s: Socket)
    requires Tended(s) && Enabled(s, Continue)
    requires s.pc == IssueClose || s.pc == ConnectCallback || s.pc.ReadError? || s.pc == ReleaseSocket
             || s.pc == DiscardQueue || s.pc == NotifyDisconnect
    ensures Tended(DoContinue(s))
  {
    hide Tended;
    match s.pc
    case IssueClose => SameTended(s, DoIssueClose(s));
    case ConnectCallback => SameTended(s, DoConnectReturned(s));
    case ReadError(_) => SameTended(s, DoContinue(s));
    case ReleaseSocket => SameTended(s, DoContinue(s));
    case DiscardQueue => SameTended(s, DoContinue(s));
    case NotifyDisconnect => SameTended(s, DoNotify(s));
  }

  lemma FailingTended(s: Socket, pc: LoopPc, handshaking: bool)
    requires Tended(s) && Cancelled(pc) == Cancelled(s.pc)
    ensures Tended(DoDisconnect(s.(pc := pc), handshaking))
  {
    hide Tended, DoDisconnect;
    SameTended(s, s.(pc := pc));
    DisconnectTended(s.(pc := pc), handshaking);
  }

  lemma ClosingTended(s: Socket)
    requires Tended(s) && (s.pc == HandshakeFailed || s.pc.ReadFailed? || s.pc.ConnectLock? || s.pc.ReadItems?)
    ensures Tended(DoContinue(s))
  {
    hide Tended, DoConnectLock, DoDisconnect, DoReadItem;
    match s.pc
    case ConnectLock(status) => ConnectLockTended(s, status);
    case HandshakeFailed => FailingTended(s, Idle, true);
    case ReadItems(_) => ReadItemTended(s);
    case ReadFailed(error) => FailingTended(s, ReadError(error), s.handshaking);
  }

  lemma ReportingTended(s: Socket)
    requires Tended(s) && (s.pc.ReportUnsent? || s.pc.DiscardUnsent? || s.pc.DiscardTimers? || s.pc == DecideRetry)
    ensures Tended(DoContinue(s))
  {
    hide Tended, DoReportUnsent, DoDiscardUnsent, DoDiscardTimers, DoDecideRetry;
    match s.pc
    case ReportUnsent(_) => ReportTended(s);
    case DiscardUnsent(_) => DiscardUnsentTended(s);
    case DiscardTimers(_) => DiscardEntriesTended(s);
    case DecideRetry => DecideTended(s);
  }

  lemma ContinueTended(s: Socket)
    requires Tended(s) && Enabled(s, Continue)
    ensures Tended(DoContinue(s))
  {
    hide Tended, DoContinue;
    match s.pc
    case ConnectLock(_) => ClosingTended(s);
    case HandshakeFailed => ClosingTended(s);
    case ReadItems(_) => ClosingTended(s);
    case ReadFailed(_) => ClosingTended(s);
    case ReportUnsent(_) => ReportingTended(s);
    case DiscardUnsent(_) => ReportingTended(s);
    case DiscardTimers(_) => ReportingTended(s);
    case DecideRetry => ReportingTended(s);
    case _ => PlainTended(s);
  }

  lemma MatchedWriteTended(s: Socket, c: Copy, status: Error)
    requires Tended(s) && c.body.Request? && status != OK && IndexOf(s.timers, c.body.msgid) < |s.timers|
    ensures Tended(DoWriteDone(s, c, status))
  {
    ErasedTended(s, IndexOf(s.timers, c.body.msgid));
  }

  lemma WriteDoneTended(s: Socket, c: Copy, status: Error)
    requires Tended(s)
    ensures Tended(DoWriteDone(s, c, status))
  {
    hide Tended;
    if status == OK {
      SameTended(s, DoWriteDone(s, c, status));
    } else if c.body.Request? && IndexOf(s.timers, c.body.msgid) < |s.timers| {
      hide *;
      MatchedWriteTended(s, c, status);
    } else {
      hide *;
      OrphanTended(s, c, status);
    }
  }

  lemma OrphanTended(s: Socket, c: Copy, status: Error)
    requires Tended(s) && status != OK
    requires c.body.Request? ==> IndexOf(s.timers, c.body.msgid) == |s.timers|
    ensures Tended(DoWriteDone(s, c, status))
  {
    hide Tended;
    SameTended(s, DoWriteDone(s, c, status));
  }

  /** Needs distinct ids: the timeout of a request erases the first entry with its id. */
  lemma RequestTimeoutTended(s: Socket, c: Copy)
    requires Kept(s) && Tended(s) && c in s.timers
    ensures Tended(DoRequestTimeout(s, c))
  {
    assert c in multiset(s.timers);
    assert Timed(s)[c] > 0;
    TimedAreRequests(s, c);
    EntryFound(s.timers, c);
    EntryIsOwn(s, c);
    hide Kept;
    ErasedTended(s, IndexOf(s.timers, c.body.msgid));
  }

  lemma SendTended(s: Socket, body: Message, write: Error)
    requires Tended(s)
    ensures Tended(DoSend(s, body, write))
  {
    hide Tended;
    if !Live(s) || body.Invalid? {
    } else if s.state == CONNECTING {
      EnqueuedTended(s, body, write);
    } else if write != OK {
      SendRejectedTended(s, body, write);
    } else {
      SendWrittenTended(s, body);
    }
  }

  lemma EnqueuedTended(s: Socket, body: Message, write: Error)
    requires Tended(s) && s.state == CONNECTING && !body.Invalid?
    ensures Tended(DoSend(s, body, write))
  {
  }

  lemma SendRejectedTended(s: Socket, body: Message, write: Error)
    requires Tended(s) && s.state == CONNECTED && !body.Invalid? && write != OK
    ensures Tended(DoSend(s, body, write))
  {
  }

  lemma SendWrittenTended(s: Socket, body: Message)
    requires Tended(s) && s.state == CONNECTED && !body.Invalid?
    ensures Tended(DoSend(s, body, OK))
  {
  }

  lemma ConnectTended(s: Socket, timeout: nat, dial: Dial, byUser: bool)
    requires Tended(s)
    ensures Tended(DoConnect(s, timeout, dial, byUser))
  {
    hide Tended;
    SameTended(s, DoConnect(s, timeout, dial, byUser));
  }

  lemma RetryTended(s: Socket, dial: Dial)
    requires Tended(s) && s.pc == RetryConnect
    ensures Tended(DoRetry(s, dial))
  {
    hide DoConnect;
    ConnectTended(Emit(s.(pc := Idle), CloseRetried(s.closing)), s.connectTimeout, dial, false);
  }

  lemma ConnectEntryTended(s: Socket, a: Action)
    requires Tended(s) && s.pc == Idle && Enabled(s, a) && (a.ConnectDone? || a.ConnectTimeout?)
    ensures Tended(Next(s, a))
  {
    hide Tended, ReplyContext;
    SameTended(s, Next(s, a));
  }

  lemma CloseDoneTended(s: Socket)
    requires Tended(s) && s.pc == Idle
    ensures Tended(DoCloseDone(s))
  {
    hide Tended;
    SameTended(s, DoCloseDone(s));
  }

  lemma HandshakeTended(s: Socket, status: Error)
    requires Tended(s) && s.pc == Idle
    ensures Tended(DoHandshake(s, status))
  {
    hide Tended;
    if status != OK {
      SameTended(s, s.(pc := HandshakeFailed));
    } else {
      SameTended(s, s.(handshaking := false, state := CONNECTED, pc := FlushQueue));
    }
  }

  lemma ReadTended(s: Socket, items: seq<Item>)
    requires Tended(s) && s.pc == Idle
    ensures Tended(DoReadChunk(s, items))
  {
    hide Tended;
    if Live(s) {
      SameTended(s, DoReadChunk(s, items));
    }
  }

  lemma ReadBrokenTended(s: Socket, error: Error)
    requires Tended(s) && s.pc == Idle
    ensures Tended(DoReadBroken(s, error))
  {
    hide Tended;
    if Live(s) {
      SameTended(s, DoReadBroken(s, error));
    }
  }

  lemma LoopEntryTended(s: Socket, a: Action)
    requires Tended(s) && s.pc == Idle && Enabled(s, a)
    requires a.ConnectDone? || a.ConnectTimeout? || a.HandshakeDone? || a.ReadChunk? || a.ReadBroken? || a.CloseDone?
    ensures Tended(Next(s, a))
  {
    hide Tended, DoCloseDone, TakeReply, DoHandshake, DoReadChunk, DoReadBroken;
    match a
    case ConnectDone(_, _) => ConnectEntryTended(s, a);
    case ConnectTimeout(_) => ConnectEntryTended(s, a);
    case HandshakeDone(status) => HandshakeTended(s, status);
    case ReadChunk(items) => ReadTended(s, items);
    case ReadBroken(error) => ReadBrokenTended(s, error);
    case CloseDone => CloseDoneTended(s);
  }

  lemma PushEntryTended(s: Socket)
    requires Tended(s) && s.sending.Some? && s.sending.value !in s.armed
    ensures Tended(DoPushEntry(s))
  {
  }

  lemma StartTimerTended(s: Socket, timerStarts: bool)
    requires Tended(s) && s.starting.Some?
    ensures Tended(DoStartTimer(s, timerStarts))
  {
    StartTimerArms(s, timerStarts);
    hide DoStartTimer;
  }

  lemma StartTimerArms(s: Socket, timerStarts: bool)
    requires s.starting.Some?
    ensures DoStartTimer(s, timerStarts).armed == if timerStarts then s.armed + {s.starting.value} else s.armed
    ensures s.stale <= DoStartTimer(s, timerStarts).stale
    ensures timerStarts ==> s.starting.value in s.timers || s.starting.value in DoStartTimer(s, timerStarts).stale
  {
  }

  lemma NextTended(s: Socket, a: Action)
    requires Kept(s) && Tended(s) && NoFreedTimerFires(s, a) && Enabled(s, a)
    requires s.sending.Some? ==> s.sending.value !in s.armed
    ensures Tended(Next(s, a))
  {
    hide Kept, Tended, DoConnect, DoDisconnect, DoSend, DoPushEntry, DoStartTimer, DoWriteDone, DoRequestTimeout,
         DoCloseDone, DoContinue, DoFlush, DoRetry, DoReadBroken, DoReadChunk, DoHandshake, TakeReply;
    match a
    case CallConnect(timeout, dial) => ConnectTended(s, timeout, dial, true);
    case CallDisconnect => DisconnectTended(s, false);
    case CallSend(body, write) => SendTended(s, body, write);
    case PushEntry => PushEntryTended(s);
    case StartTimer(timerStarts) => StartTimerTended(s, timerStarts);
    case WriteDone(c, status) => WriteDoneTended(s, c, status);
    case RequestTimeout(c) => RequestTimeoutTended(s, c);
    case Continue => ContinueTended(s);
    case ContinueFlush(results) => FlushTended(s, results);
    case ContinueRetry(dial) => RetryTended(s, dial);
    case _ => LoopEntryTended(s, a);
  }

  lemma StepTended(s: Socket, a: Action)
    requires Kept(s) && Tended(s) && NoFreedTimerFires(s, a)
    requires s.sending.Some? ==> s.sending.value !in s.armed
    ensures Tended(Step(s, a))
  {
    if Enabled(s, a) {
      NextTended(s, a);
    }
    hide Kept, Tended, Next, Enabled;
  }

  lemma FlushTended(s: Socket, results: seq<WriteResult>)
    requires Tended(s) && s.starting.None? && s.pc == FlushQueue && |results| == |s.pending|
    ensures Tended(DoFlush(s, results))
  {
    FlushLoopTended(s.(pc := ReportUnsent([])), results);
  }
}
