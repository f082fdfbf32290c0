/** The order of the queue over every run of the engine. */
module Queueing {
  import opened Basics
  import opened Protocol
  import opened Lines
  import opened Conservation

  ghost predicate Lined(s: Socket) {
    InLine(Follow(s.trace), Unsent(s.pc), s.pending, Timed(s), s.next)
  }

  /** Events that say nothing about the queue. */
  predicate Unordered(e: Event) {
    && (e.Accepted? ==> !e.queued)
    && !e.Written?
    && (e.Failed? ==> !GivesUp(e.cause))
  }

  lemma UnorderedFollow(trace: seq<Event>, e: Event)
    requires Unordered(e)
    ensures Follow(trace + [e]) == Follow(trace)
  {
    hide Follow;
    FollowAppend(trace, e);
  }

  lemma UnorderedTwice(trace: seq<Event>, e: Event, f: Event)
    requires Unordered(e) && Unordered(f)
    ensures Follow(trace + [e] + [f]) == Follow(trace)
  {
    UnorderedFollow(trace, e);
    UnorderedFollow(trace + [e], f);
  }

  lemma SameLined(s: Socket, t: Socket)
    requires Lined(s) && Follow(t.trace) == Follow(s.trace)
    requires t.pending == s.pending && Unsent(t.pc) == Unsent(s.pc) && Timed(t) <= Timed(s) && t.next >= s.next
    ensures Lined(t)
  {
    StaysInLine(Follow(s.trace), Unsent(s.pc), s.pending, Timed(s), Timed(t), s.next, t.next);
  }

  lemma QuietLined(s: Socket, t: Socket, e: Event)
    requires Lined(s) && Unordered(e) && (t.trace == s.trace || t.trace == s.trace + [e])
    requires t.pending == s.pending && t.timers == s.timers && t.sending == s.sending && t.next == s.next
    requires Unsent(t.pc) == Unsent(s.pc) && Cancelled(t.pc) == Cancelled(s.pc)
    ensures Lined(t)
  {
    UnorderedFollow(s.trace, e);
    hide Lined;
    SameLined(s, t);
  }

  lemma ConnectLined(s: Socket, timeout: nat, dial: Dial, byUser: bool)
    requires Lined(s)
    ensures Lined(DoConnect(s, timeout, dial, byUser))
  {
    hide Lined;
    QuietLined(s, DoConnect(s, timeout, dial, byUser), Opened(s.epoch + 1, byUser));
  }

  lemma DisconnectLined(s: Socket, handshaking: bool)
    requires Lined(s)
    ensures Lined(DoDisconnect(s, handshaking))
  {
    hide Lined, Follow;
    if Live(s) {
      QuietLined(s, DoDisconnect(s, handshaking), CloseIssued(s.epoch));
    } else {
      QuietLined(s, s.(handshaking := handshaking), CloseIssued(s.epoch));
    }
  }

  // ---- Send ----

  lemma QueueUpLined(s: Socket, c: Copy)
    requires Lined(s) && c.ptr == s.next
    ensures Lined(QueueUp(s, c))
  {
    hide Follow;
    var t := QueueUp(s, c);
    assert t.trace == s.trace + [Allocated(c)] + [Accepted(c, true)];
    UnorderedFollow(s.trace, Allocated(c));
    FollowAppend(s.trace + [Allocated(c)], Accepted(c, true));
    assert Timed(t) == Timed(s);
    Joins(Follow(s.trace), Unsent(s.pc), s.pending, Timed(s), s.next, c);
  }

  lemma RefuseLined(s: Socket, c: Copy)
    requires Lined(s)
    ensures Lined(Refuse(s, c))
  {
    assert Refuse(s, c).trace == s.trace + [Allocated(c)] + [Freed(c)];
    UnorderedTwice(s.trace, Allocated(c), Freed(c));
    hide Lined;
    SameLined(s, Refuse(s, c));
  }

  /** A message sent directly was never queued. */
  lemma DirectFollow(s: Socket, c: Copy)
    requires c !in Follow(s.trace).accepted
    ensures Follow(WriteNow(Allocate(s, c), c).trace) == Follow(s.trace)
  {
    hide Follow;
    assert WriteNow(Allocate(s, c), c).trace == s.trace + [Allocated(c)] + [Accepted(c, false)] + [Written(c)];
    UnorderedTwice(s.trace, Allocated(c), Accepted(c, false));
    FollowAppend(s.trace + [Allocated(c)] + [Accepted(c, false)], Written(c));
  }

  lemma WriteNowLined(s: Socket, c: Copy)
    requires Lined(s) && c.ptr == s.next && Unlocked(s)
    ensures Lined(WriteNow(Allocate(s, c), c))
  {
    NeverQueued(s, c);
    DirectFollow(s, c);
    var t := WriteNow(Allocate(s, c), c);
    WriteNowTimed(s, c);
    hide Follow, WriteNow, Allocate, Timed;
    Stretched(s, t, c);
  }

  lemma NeverQueued(s: Socket, c: Copy)
    requires Lined(s) && c.ptr == s.next
    ensures c !in Follow(s.trace).accepted
  {
    hide Follow, Timed;
  }

  lemma WriteNowTimed(s: Socket, c: Copy)
    requires Unlocked(s)
    ensures Timed(WriteNow(Allocate(s, c), c)) <= Timed(s) + multiset{c}
  {
  }

  /** A message sent directly may join those that are out: it was never queued. */
  lemma Stretched(s: Socket, t: Socket, c: Copy)
    requires Lined(s) && c.ptr == s.next && t.next == s.next + 1
    requires Follow(t.trace) == Follow(s.trace) && t.pending == s.pending && t.pc == s.pc
    requires Timed(t) <= Timed(s) + multiset{c}
    ensures Lined(t)
  {
    hide Follow, Timed;
    NeverQueued(s, c);
    assert forall x :: x in Timed(t) ==> x in Timed(s) || x == c;
  }

  lemma SendLined(s: Socket, body: Message, write: Error)
    requires Lined(s) && Unlocked(s)
    ensures Lined(DoSend(s, body, write))
  {
    hide Lined, QueueUp, Refuse, WriteNow, Allocate;
    if Live(s) && !body.Invalid? {
      if s.state == CONNECTING {
        QueueUpLined(s, Copy(s.next, body));
      } else if write != OK {
        RefuseLined(s, Copy(s.next, body));
      } else {
        WriteNowLined(s, Copy(s.next, body));
      }
    }
  }

  lemma PushEntryLined(s: Socket)
    requires Lined(s) && s.sending.Some?
    ensures Lined(DoPushEntry(s))
  {
    hide Lined;
    SameLined(s, DoPushEntry(s));
  }

  lemma StartTimerLined(s: Socket, timerStarts: bool)
    requires Lined(s) && s.starting.Some?
    ensures Lined(DoStartTimer(s, timerStarts))
  {
    hide Lined;
    SameLined(s, DoStartTimer(s, timerStarts));
  }

  // ---- Flush and reports ----

  lemma RegisterTimed(s: Socket, c: Copy, timerStarts: bool)
    ensures Timed(Register(s, c, timerStarts)) == Timed(s) + multiset{c}
  {
  }

  lemma HandOverTimed(s: Socket, c: Copy)
    ensures Timed(HandOver(s, c)) == Timed(s) && HandOver(s, c).trace == s.trace + [Written(c)]
  {
  }

  lemma SendQueuedTimed(s: Socket, c: Copy, timerStarts: bool)
    ensures Timed(SendQueued(s, c, timerStarts)) <= Timed(s) + multiset{c}
  {
    hide Timed, HandOver;
    RegisterTimed(s, c, timerStarts);
    HandOverTimed(Register(s, c, timerStarts), c);
    HandOverTimed(s, c);
  }

  lemma FlushWrittenLined(s: Socket, r: WriteResult)
    requires Lined(s) && s.pc.ReportUnsent? && s.pending != [] && s.state == CONNECTED && r.status == OK
    ensures Lined(FlushOne(s, r))
  {
    hide Follow;
    var c := s.pending[0];
    var u := s.(pending := s.pending[1..]);
    var t := SendQueued(u, c, r.timerStarts);
    SendQueuedTimed(u, c, r.timerStarts);
    assert Timed(u) == Timed(s);
    FollowAppend(s.trace, Written(c));
    GoesOut(Follow(s.trace), Unsent(s.pc), s.pending, Timed(s), s.next);
    StaysInLine(Follow(t.trace), Unsent(s.pc), u.pending, Timed(s) + multiset{c}, Timed(t), s.next, s.next);
    assert FlushOne(s, r) == t;
    hide InLine, Follow;
  }

  lemma FlushUnsentLined(s: Socket, r: WriteResult)
    requires Lined(s) && s.pc.ReportUnsent? && s.pending != [] && (s.state != CONNECTED || r.status != OK)
    ensures Lined(FlushOne(s, r))
  {
    var t := FlushOne(s, r);
    assert Timed(t) == Timed(s);
    hide InLine, Follow;
    StaysBehind(Follow(s.trace), Unsent(s.pc), s.pending, Timed(s), s.next);
  }

  lemma {:induction false} FlushLoopLined(s: Socket, results: seq<WriteResult>)
    requires Lined(s) && s.pc.ReportUnsent? && |results| == |s.pending|
    ensures Lined(FlushLoop(s, results))
    decreases |results|
  {
    hide Lined, FlushOne;
    if results != [] {
      if s.state != CONNECTED || results[0].status != OK {
        FlushUnsentLined(s, results[0]);
      } else {
        FlushWrittenLined(s, results[0]);
      }
      FlushLoopLined(FlushOne(s, results[0]), results[1..]);
    }
  }

  lemma FlushLined(s: Socket, results: seq<WriteResult>)
    requires Lined(s) && s.pc == FlushQueue && |results| == |s.pending|
    ensures Lined(DoFlush(s, results))
  {
    hide Lined;
    SameLined(s, s.(pc := ReportUnsent([])));
    FlushLoopLined(s.(pc := ReportUnsent([])), results);
  }

  /** The head of the messages taken to be reported is reported. */
  lemma ReportLined(s: Socket, t: Socket, cause: Cause)
    requires Lined(s) && Unsent(s.pc) != [] && GivesUp(cause)
    requires t.trace == s.trace + [Failed(Unsent(s.pc)[0], cause)] + [Freed(Unsent(s.pc)[0])]
    requires Unsent(t.pc) == Unsent(s.pc)[1..] && t.pending == s.pending && Timed(t) == Timed(s) && t.next == s.next
    ensures Lined(t)
  {
    hide Follow;
    var c := Unsent(s.pc)[0];
    FollowAppend(s.trace, Failed(c, cause));
    UnorderedFollow(s.trace + [Failed(c, cause)], Freed(c));
    hide InLine, Follow, Timed;
    IsReported(Follow(s.trace), Unsent(s.pc), s.pending, Timed(s), s.next, cause);
  }

  lemma ReportHeadLined(s: Socket)
    requires Lined(s) && s.pc.ReportUnsent? && s.pc.unsent != []
    ensures Lined(DoReportUnsent(s, s.pc.unsent))
  {
    hide Lined, Follow, Timed;
    var t := DoReportUnsent(s, s.pc.unsent);
    assert t.pc == ReportUnsent(s.pc.unsent[1..]);
    SameTimed(s, t);
    ReportLined(s, t, NotSent);
  }

  lemma SameTimed(s: Socket, t: Socket)
    requires t.timers == s.timers && t.sending == s.sending && Cancelled(t.pc) == Cancelled(s.pc)
    ensures Timed(t) == Timed(s)
  {
  }

  lemma ReportUnsentLined(s: Socket)
    requires Lined(s) && s.pc.ReportUnsent?
    ensures Lined(DoReportUnsent(s, s.pc.unsent))
  {
    hide Lined;
    if s.pc.unsent == [] {
      MoveOnLined(s, Idle);
    } else {
      hide DoReportUnsent;
      ReportHeadLined(s);
    }
  }

  lemma TakenLined(s: Socket)
    requires Lined(s) && s.pc == DiscardQueue
    ensures Lined(s.(pc := DiscardUnsent(s.pending), pending := []))
  {
    hide InLine, Follow, Timed;
    SameTimed(s, s.(pc := DiscardUnsent(s.pending), pending := []));
    AllTaken(Follow(s.trace), s.pending, Timed(s), s.next);
  }

  lemma DiscardHeadLined(s: Socket)
    requires Lined(s) && s.pc.DiscardUnsent? && s.pc.unsent != []
    ensures Lined(DoDiscardUnsent(s, s.pc.unsent))
  {
    hide Lined, Follow, Timed;
    var t := DoDiscardUnsent(s, s.pc.unsent);
    assert t.pc == DiscardUnsent(s.pc.unsent[1..]);
    SameTimed(s, t);
    ReportLined(s, t, Discarded(s.closing));
  }

  lemma DiscardedLined(s: Socket)
    requires Lined(s) && s.pc.DiscardUnsent? && s.pc.unsent == []
    ensures Lined(s.(pc := DiscardTimers(s.timers), timers := []))
  {
    hide Lined, Follow;
    SameLined(s, s.(pc := DiscardTimers(s.timers), timers := []));
  }

  lemma DiscardUnsentLined(s: Socket)
    requires Lined(s) && s.pc.DiscardUnsent?
    ensures Lined(DoDiscardUnsent(s, s.pc.unsent))
  {
    hide Lined;
    if s.pc.unsent == [] {
      DiscardedLined(s);
    } else {
      hide DoDiscardUnsent;
      DiscardHeadLined(s);
    }
  }

  /** Cancelling a timer entry says nothing about the queue: the message was out. */
  lemma CancelLined(s: Socket)
    requires Lined(s) && s.pc.DiscardTimers? && s.pc.entries != []
    ensures Lined(DoDiscardTimers(s, s.pc.entries))
  {
    var c := s.pc.entries[0];
    var t := DoDiscardTimers(s, s.pc.entries);
    CancelledWasOut(s);
    CancelledFollow(s.trace, c, s.closing);
    CancelledTimed(s);
    hide Lined, Follow, Timed;
    SameLined(s, t);
  }

  lemma CancelledTimed(s: Socket)
    requires s.pc.DiscardTimers? && s.pc.entries != []
    ensures Timed(DoDiscardTimers(s, s.pc.entries)) <= Timed(s)
  {
    HeadMultiset(s.pc.entries);
  }

  lemma CancelledWasOut(s: Socket)
    requires Lined(s) && s.pc.DiscardTimers? && s.pc.entries != []
    ensures s.pc.entries[0] in Follow(s.trace).accepted ==> s.pc.entries[0] in Follow(s.trace).out
  {
    assert s.pc.entries[0] in Timed(s);
    hide Follow, Timed;
  }

  lemma CancelledFollow(trace: seq<Event>, c: Copy, k: nat)
    requires c in Follow(trace).accepted ==> c in Follow(trace).out
    ensures Follow(trace + [Failed(c, Discarded(k))] + [TimerFreed(c)]) == Follow(trace)
  {
    hide Follow;
    FollowAppend(trace, Failed(c, Discarded(k)));
    UnorderedFollow(trace + [Failed(c, Discarded(k))], TimerFreed(c));
  }

  lemma DiscardTimersLined(s: Socket)
    requires Lined(s) && s.pc.DiscardTimers?
    ensures Lined(DoDiscardTimers(s, s.pc.entries))
  {
    hide Lined, Follow;
    if s.pc.entries == [] {
      SameLined(s, DoDiscardTimers(s, s.pc.entries));
    } else {
      CancelLined(s);
    }
  }

  // ---- Entries leave the table ----

  lemma Smaller(s: Socket, t: Socket, i: nat)
    requires i < |s.timers| && t.timers == RemoveAt(s.timers, i) && t.pc == s.pc && t.sending == s.sending
    ensures Timed(t) <= Timed(s)
  {
    RemoveAtMultiset(s.timers, i);
  }

  lemma ResponseLined(s: Socket, msgid: nat)
    requires Lined(s)
    ensures Lined(DoResponse(s, msgid))
  {
    hide Lined, Follow;
    var i := IndexOf(s.timers, msgid);
    if i < |s.timers| {
      var c, t := s.timers[i], DoResponse(s, msgid);
      assert t.trace == s.trace + [TimerFreed(c)] + [Answered(c)];
      UnorderedTwice(s.trace, TimerFreed(c), Answered(c));
      Smaller(s, t, i);
      SameLined(s, t);
    }
  }

  lemma RequestTimeoutLined(s: Socket, c: Copy)
    requires Lined(s)
    ensures Lined(DoRequestTimeout(s, c))
  {
    hide Lined, Follow;
    var t := DoRequestTimeout(s, c);
    assert t.trace == s.trace + [Failed(c, TimedOut)] + [TimerFreed(c)];
    UnorderedTwice(s.trace, Failed(c, TimedOut), TimerFreed(c));
    if c.body.Request? && IndexOf(s.timers, c.body.msgid) < |s.timers| {
      Smaller(s, t, IndexOf(s.timers, c.body.msgid));
    }
    SameLined(s, t);
  }

  lemma MatchedWriteLined(s: Socket, c: Copy, status: Error)
    requires Lined(s) && status != OK && c.body.Request? && IndexOf(s.timers, c.body.msgid) < |s.timers|
    ensures Lined(DoWriteDone(s, c, status))
  {
    hide Lined, Follow;
    var i := IndexOf(s.timers, c.body.msgid);
    var e, t := s.timers[i], DoWriteDone(s, c, status);
    assert t.trace == s.trace + [TimerFreed(e)] + [Failed(c, WriteError(true))] + [Freed(c)];
    UnorderedTwice(s.trace, TimerFreed(e), Failed(c, WriteError(true)));
    UnorderedFollow(s.trace + [TimerFreed(e)] + [Failed(c, WriteError(true))], Freed(c));
    Smaller(s, t, i);
    SameLined(s, t);
  }

  lemma OrphanLined(s: Socket, c: Copy, status: Error)
    requires Lined(s) && status != OK && !(c.body.Request? && IndexOf(s.timers, c.body.msgid) < |s.timers|)
    ensures Lined(DoWriteDone(s, c, status))
  {
    hide Lined, Follow;
    var t := DoWriteDone(s, c, status);
    assert t.trace == s.trace + [Failed(c, WriteError(false))] + [Freed(c)];
    UnorderedTwice(s.trace, Failed(c, WriteError(false)), Freed(c));
    SameLined(s, t);
  }

  lemma WrittenWellLined(s: Socket, c: Copy)
    requires Lined(s)
    ensures Lined(DoWriteDone(s, c, OK))
  {
    hide Lined, Follow;
    QuietLined(s, DoWriteDone(s, c, OK), Freed(c));
  }

  lemma WriteDoneLined(s: Socket, c: Copy, status: Error)
    requires Lined(s)
    ensures Lined(DoWriteDone(s, c, status))
  {
    hide Lined, DoWriteDone;
    if status == OK {
      WrittenWellLined(s, c);
    } else if c.body.Request? && IndexOf(s.timers, c.body.msgid) < |s.timers| {
      MatchedWriteLined(s, c, status);
    } else {
      OrphanLined(s, c, status);
    }
  }

  // ---- Every step, every run ----

  lemma MoveOnLined(s: Socket, pc: LoopPc)
    requires Lined(s) && Unsent(pc) == Unsent(s.pc) && Cancelled(pc) == Cancelled(s.pc)
    ensures Lined(s.(pc := pc))
  {
    hide Lined, Follow;
    QuietLined(s, s.(pc := pc), HandlerMessage);
  }

  lemma MessageLined(s: Socket)
    requires Lined(s)
    ensures Lined(Emit(s, HandlerMessage))
  {
    hide Lined, Follow;
    QuietLined(s, Emit(s, HandlerMessage), HandlerMessage);
  }

  lemma ReadItemLined(s: Socket)
    requires Lined(s) && s.pc.ReadItems?
    ensures Lined(DoReadItem(s, s.pc.items))
  {
    hide Lined, DoDisconnect, DoResponse;
    MoveOnLined(s, Idle);
    if s.pc.items != [] {
      var t := s.(pc := ReadItems(s.pc.items[1..]));
      MoveOnLined(s, t.pc);
      match s.pc.items[0]
      case InRequest => MessageLined(t);
      case InNotify => MessageLined(t);
      case InResponse(msgid) => ResponseLined(t, msgid);
      case Undecodable => DisconnectLined(s.(pc := Idle), false);
    }
  }

  lemma ConnectLockLined(s: Socket, status: Error)
    requires Lined(s) && s.pc.ConnectLock?
    ensures Lined(DoConnectLock(s, status))
  {
    hide Lined, Follow;
    if s.state != CONNECTING || status == OK {
      QuietLined(s, DoConnectLock(s, status), HandlerConnect(s.epoch));
    } else {
      QuietLined(s, DoConnectLock(s, status), TransportFailed(s.epoch, status));
    }
  }

  lemma PlainLined(s: Socket)
    requires Lined(s) && (s.pc == IssueClose || s.pc == ConnectCallback || s.pc.ReadError? || s.pc == ReleaseSocket)
    ensures Lined(DoContinue(s))
  {
    hide Lined, Follow;
    match s.pc
    case IssueClose => QuietLined(s, DoIssueClose(s), CloseIssued(s.epoch));
    case ConnectCallback => QuietLined(s, DoConnectReturned(s), HandlerMessage);
    case ReadError(error) => QuietLined(s, s.(lastError := error, pc := Idle), HandlerMessage);
    case ReleaseSocket => QuietLined(s, s.(inPool := false, pc := DecideRetry), HandlerMessage);
  }

  lemma NotifyLined(s: Socket)
    requires Lined(s) && s.pc == NotifyDisconnect
    ensures Lined(DoNotify(s))
  {
    hide Lined, Follow;
    if s.handshaking {
      QuietLined(s, DoNotify(s), Suppressed(s.closing));
    } else {
      QuietLined(s, DoNotify(s), HandlerDisconnect(s.closing, s.lastError));
    }
  }

  lemma FailingLined(s: Socket, pc: LoopPc, handshaking: bool)
    requires Lined(s) && Unsent(pc) == Unsent(s.pc) && Cancelled(pc) == Cancelled(s.pc)
    ensures Lined(DoDisconnect(s.(pc := pc), handshaking))
  {
    hide Lined, DoDisconnect;
    MoveOnLined(s, pc);
    DisconnectLined(s.(pc := pc), handshaking);
  }

  lemma DecideLined(s: Socket)
    requires Lined(s) && s.pc == DecideRetry
    ensures Lined(DoDecideRetry(s))
  {
    hide Lined, DoDecideRetry;
    QuietLined(s, DoDecideRetry(s), HandlerMessage);
  }

  lemma ContinueLined(s: Socket)
    requires Lined(s) && Enabled(s, Continue)
    ensures Lined(DoContinue(s))
  {
    hide Lined, Enabled, DoConnectLock, DoConnectReturned, DoIssueClose, DoReportUnsent, DoDisconnect, DoReadItem,
         DoDiscardUnsent, DoDiscardTimers, DoDecideRetry, DoNotify;
    match s.pc
    case ConnectLock(status) => ConnectLockLined(s, status);
    case ReportUnsent(_) => ReportUnsentLined(s);
    case HandshakeFailed => FailingLined(s, Idle, true);
    case ReadItems(_) => ReadItemLined(s);
    case ReadFailed(error) => FailingLined(s, ReadError(error), s.handshaking);
    case DecideRetry => DecideLined(s);
    case DiscardQueue => TakenLined(s);
    case DiscardUnsent(_) => DiscardUnsentLined(s);
    case DiscardTimers(_) => DiscardTimersLined(s);
    case NotifyDisconnect => NotifyLined(s);
    case IssueClose => PlainLined(s);
    case ConnectCallback => PlainLined(s);
    case ReadError(_) => PlainLined(s);
    case ReleaseSocket => PlainLined(s);
    case _ =>
  }

  lemma RetryLined(s: Socket, dial: Dial)
    requires Lined(s) && s.pc == RetryConnect
    ensures Lined(DoRetry(s, dial))
  {
    var t := Emit(s.(pc := Idle), CloseRetried(s.closing));
    hide Lined, Follow, DoConnect;
    QuietLined(s, t, CloseRetried(s.closing));
    ConnectLined(t, s.connectTimeout, dial, false);
  }

  lemma CloseDoneLined(s: Socket)
    requires Lined(s) && s.pc == Idle
    ensures Lined(DoCloseDone(s))
  {
    hide Lined, Follow;
    if s.state == DISCONNECTED {
      QuietLined(s, DoCloseDone(s), Closed(s.epoch));
    } else {
      QuietLined(s, DoCloseDone(s), Closed(s.epoch));
    }
  }

  lemma ReadLined(s: Socket, items: seq<Item>, error: Error)
    requires Lined(s) && s.pc == Idle
    ensures Lined(DoReadChunk(s, items)) && Lined(DoReadBroken(s, error))
  {
    hide Lined, Follow;
    if Live(s) {
      QuietLined(s, DoReadChunk(s, items), HandlerMessage);
      QuietLined(s, DoReadBroken(s, error), TransportFailed(s.epoch, error));
    }
  }

  lemma HandshakeLined(s: Socket, status: Error)
    requires Lined(s) && s.pc == Idle
    ensures Lined(DoHandshake(s, status))
  {
    hide Lined, Follow;
    if status != OK {
      QuietLined(s, DoHandshake(s, status), HandlerMessage);
    } else {
      QuietLined(s, DoHandshake(s, status), HandlerMessage);
    }
  }

  lemma ReplyLined(s: Socket, a: Action)
    requires Lined(s) && Enabled(s, a) && (a.ConnectDone? || a.ConnectTimeout?)
    ensures Lined(Next(s, a))
  {
    hide Lined, Follow;
    match a
    case ConnectDone(_, _) => QuietLined(s, Next(s, a), HandlerMessage);
    case ConnectTimeout(_) => QuietLined(s, Next(s, a), HandlerMessage);
  }

  lemma NextLined(s: Socket, a: Action)
    requires Lined(s) && Enabled(s, a)
    ensures Lined(Next(s, a))
  {
    hide Lined, DoConnect, DoDisconnect, DoSend, DoPushEntry, DoStartTimer, DoWriteDone, DoRequestTimeout,
         DoCloseDone, DoContinue, DoFlush, DoRetry, DoReadBroken, DoReadChunk, DoHandshake, TakeReply;
    match a
    case CallConnect(timeout, dial) => ConnectLined(s, timeout, dial, true);
    case CallDisconnect => DisconnectLined(s, false);
    case CallSend(body, write) => SendLined(s, body, write);
    case PushEntry => PushEntryLined(s);
    case StartTimer(timerStarts) => StartTimerLined(s, timerStarts);
    case ConnectDone(_, _) => ReplyLined(s, a);
    case ConnectTimeout(_) => ReplyLined(s, a);
    case HandshakeDone(status) => HandshakeLined(s, status);
    case ReadChunk(items) => ReadLined(s, items, OK);
    case ReadBroken(error) => ReadLined(s, [], error);
    case WriteDone(c, status) => WriteDoneLined(s, c, status);
    case RequestTimeout(c) => RequestTimeoutLined(s, c);
    case CloseDone => CloseDoneLined(s);
    case Continue => ContinueLined(s);
    case ContinueFlush(results) => FlushLined(s, results);
    case ContinueRetry(dial) => RetryLined(s, dial);
  }

  lemma StepLined(s: Socket, a: Action)
    requires Lined(s)
    ensures Lined(Step(s, a))
  {
    hide Lined, Next, Enabled;
    if Enabled(s, a) {
      NextLined(s, a);
    }
  }

  lemma {:induction false} RunLined(s: Socket, run: seq<Action>)
    requires Lined(s)
    ensures Lined(Run(s, run))
    decreases |run|
  {
    hide Lined, Step;
    if run != [] {
      StepLined(s, run[0]);
      RunLined(Step(s, run[0]), run[1..]);
    }
  }

  /**
    In every run: the messages accepted while connecting, in acceptance order, split into two
    complementary subsequences: those handed to tv_write, in the order they were handed over, and
    those reported unwritten, in the order they were reported, followed by those still to be
    reported and those pending.
  */
  lemma QueueSplitsInOrder(s: Socket, run: seq<Action>)
    requires Initial(s)
    ensures var t := Run(s, run);
            var l := Follow(t.trace);
            exists marks: seq<bool> :: |marks| == |l.accepted|
              && Keep(l.accepted, marks, true) == l.out
              && Keep(l.accepted, marks, false) == l.lost + (Unsent(t.pc) + t.pending)
  {
    assert Lined(s);
    RunLined(s, run);
    hide Run, Follow;
    var t := Run(s, run);
    InLineSplits(Follow(t.trace), Unsent(t.pc), t.pending, Timed(t), t.next);
  }
}
