/**
  The heap copies Send makes of messages: each is queued, with libtv, or freed, and freed once, in
  every run, whatever ids the requests carry and whatever becomes of their timers.
*/
module HeapCopies {
  import opened Basics
  import opened Protocol
  import opened Ledger
  import opened Conservation
  import opened Frames

  /** Every copy made is in one place; none is made twice, and the next address is unused. */
  ghost predicate Sole(queued: multiset<Copy>, out: multiset<Copy>, freed: multiset<Copy>, made: multiset<Copy>,
                       next: nat) {
    && queued + out + freed == made
    && (forall c :: made[c] <= 1)
    && (forall c :: made[c] > 0 ==> c.ptr < next)
  }

  ghost predicate Owned(s: Socket) {
    Sole(Queued(s), s.inflight, Book(s.trace).freed, Book(s.trace).made, s.next)
  }

  // ---- What the books say ----

  predicate Elsewhere(e: Event) {
    !e.Allocated? && !e.Freed?
  }

  predicate SameHeap(a: Books, b: Books) {
    b.made == a.made && b.freed == a.freed
  }

  lemma ElsewhereBook(trace: seq<Event>, e: Event)
    requires Elsewhere(e)
    ensures SameHeap(Book(trace), Book(trace + [e]))
  {
    hide Book;
    BookAppend(trace, e);
  }

  lemma ElsewhereTwice(trace: seq<Event>, e: Event, f: Event)
    requires Elsewhere(e) && Elsewhere(f)
    ensures SameHeap(Book(trace), Book(trace + [e] + [f]))
  {
    hide Book;
    ElsewhereBook(trace, e);
    ElsewhereBook(trace + [e], f);
  }

  lemma MadeBook(trace: seq<Event>, c: Copy)
    ensures Book(trace + [Allocated(c)]).made == Book(trace).made + One(c)
    ensures Book(trace + [Allocated(c)]).freed == Book(trace).freed
  {
    hide Book;
    BookAppend(trace, Allocated(c));
  }

  lemma FreedBook(trace: seq<Event>, c: Copy)
    ensures Book(trace + [Freed(c)]).freed == Book(trace).freed + One(c)
    ensures Book(trace + [Freed(c)]).made == Book(trace).made
  {
    hide Book;
    BookAppend(trace, Freed(c));
  }

  // ---- Moves of a copy ----

  lemma NewCopy(q: multiset<Copy>, o: multiset<Copy>, f: multiset<Copy>, m: multiset<Copy>, next: nat, c: Copy)
    requires Sole(q, o, f, m, next) && c.ptr == next
    ensures Sole(q + One(c), o, f, m + One(c), next + 1)
    ensures Sole(q, o + One(c), f, m + One(c), next + 1)
    ensures Sole(q, o, f + One(c), m + One(c), next + 1)
  {
    assert m[c] == 0;
  }

  lemma CopyMoves(q: multiset<Copy>, o: multiset<Copy>, f: multiset<Copy>, m: multiset<Copy>, next: nat, c: Copy)
    requires Sole(q, o, f, m, next)
    ensures c in q ==> Sole(q - One(c), o + One(c), f, m, next) && Sole(q - One(c), o, f + One(c), m, next)
    ensures c in o ==> Sole(q, o - One(c), f + One(c), m, next)
  {
    if c in q {
      assert q - One(c) + One(c) == q;
    }
    if c in o {
      assert o - One(c) + One(c) == o;
    }
  }

  // ---- Sections that move no copy ----

  lemma SameOwned(s: Socket, t: Socket)
    requires Owned(s) && SameHeap(Book(s.trace), Book(t.trace))
    requires t.pending == s.pending && Unsent(t.pc) == Unsent(s.pc) && t.inflight == s.inflight && t.next == s.next
    ensures Owned(t)
  {
    hide Book, Sole;
  }

  lemma QuietOwned(s: Socket, t: Socket, e: Event)
    requires Owned(s) && Elsewhere(e) && (t.trace == s.trace || t.trace == s.trace + [e])
    requires t.pending == s.pending && Unsent(t.pc) == Unsent(s.pc) && t.inflight == s.inflight && t.next == s.next
    ensures Owned(t)
  {
    hide Owned, Book, Unsent;
    ElsewhereBook(s.trace, e);
    SameOwned(s, t);
  }

  lemma ConnectOwned(s: Socket, timeout: nat, dial: Dial, byUser: bool)
    requires Owned(s)
    ensures Owned(DoConnect(s, timeout, dial, byUser))
  {
    hide Owned;
    QuietOwned(s, DoConnect(s, timeout, dial, byUser), Opened(s.epoch + 1, byUser));
  }

  lemma DisconnectOwned(s: Socket, handshaking: bool)
    requires Owned(s)
    ensures Owned(DoDisconnect(s, handshaking))
  {
    hide Owned;
    if Live(s) {
      QuietOwned(s, DoDisconnect(s, handshaking), CloseIssued(s.epoch));
    } else {
      QuietOwned(s, s.(handshaking := handshaking), HandlerMessage);
    }
  }

  lemma RegisterOwned(s: Socket, timerStarts: bool)
    requires Owned(s)
    ensures s.sending.Some? ==> Owned(DoPushEntry(s))
    ensures s.starting.Some? ==> Owned(DoStartTimer(s, timerStarts))
  {
    hide Owned;
    if s.sending.Some? {
      QuietOwned(s, DoPushEntry(s), HandlerMessage);
    }
    if s.starting.Some? {
      QuietOwned(s, DoStartTimer(s, timerStarts), HandlerMessage);
    }
  }

  lemma ResponseOwned(s: Socket, msgid: nat)
    requires Owned(s)
    ensures Owned(DoResponse(s, msgid))
  {
    hide Owned, Book;
    var i := IndexOf(s.timers, msgid);
    if i < |s.timers| {
      ElsewhereTwice(s.trace, TimerFreed(s.timers[i]), Answered(s.timers[i]));
      SameOwned(s, DoResponse(s, msgid));
    }
  }

  lemma RequestTimeoutOwned(s: Socket, c: Copy)
    requires Owned(s)
    ensures Owned(DoRequestTimeout(s, c))
  {
    hide Owned, Book;
    ElsewhereTwice(s.trace, Failed(c, TimedOut), TimerFreed(c));
    SameOwned(s, DoRequestTimeout(s, c));
  }

  lemma DiscardTimersOwned(s: Socket)
    requires Owned(s) && s.pc.DiscardTimers?
    ensures Owned(DoDiscardTimers(s, s.pc.entries))
  {
    hide Owned, Book;
    if s.pc.entries == [] {
      QuietOwned(s, s.(pc := NotifyDisconnect), HandlerMessage);
    } else {
      CancelledOwned(s, s.(pc := DiscardTimers(s.pc.entries[1..]), armed := s.armed - {s.pc.entries[0]}),
                     s.pc.entries[0]);
    }
  }

  lemma CancelledOwned(s: Socket, t: Socket, c: Copy)
    requires Owned(s) && s.pc.DiscardTimers? && t.pc.DiscardTimers? && t == s.(pc := t.pc, armed := t.armed)
    ensures Owned(Emit(Emit(t, Failed(c, Discarded(s.closing))), TimerFreed(c)))
  {
    hide Owned, Book;
    ElsewhereTwice(s.trace, Failed(c, Discarded(s.closing)), TimerFreed(c));
    SameOwned(s, Emit(Emit(t, Failed(c, Discarded(s.closing))), TimerFreed(c)));
  }

  // ---- Send ----

  lemma QueueUpOwned(s: Socket, c: Copy)
    requires Owned(s) && c.ptr == s.next
    ensures Owned(QueueUp(s, c))
  {
    QueueUpHolds(s, c);
    hide Book, Sole, QueueUp, Queued;
    QueuedTrace(s, c);
    MadeBook(s.trace, c);
    ElsewhereBook(s.trace + [Allocated(c)], Accepted(c, true));
    NewCopy(Queued(s), s.inflight, Book(s.trace).freed, Book(s.trace).made, s.next, c);
  }

  lemma QueueUpHolds(s: Socket, c: Copy)
    ensures var t := QueueUp(s, c);
            Queued(t) == Queued(s) + One(c) && t.inflight == s.inflight && t.next == s.next + 1
  {
  }

  lemma RefuseOwned(s: Socket, c: Copy)
    requires Owned(s) && c.ptr == s.next
    ensures Owned(Refuse(s, c))
  {
    hide Book, Sole, Refuse;
    RefusedTrace(s, c);
    MadeBook(s.trace, c);
    FreedBook(s.trace + [Allocated(c)], c);
    NewCopy(Queued(s), s.inflight, Book(s.trace).freed, Book(s.trace).made, s.next, c);
  }

  lemma WriteNowOwned(s: Socket, c: Copy)
    requires Owned(s) && c.ptr == s.next
    ensures Owned(WriteNow(Allocate(s, c), c))
  {
    WriteNowHands(s, c);
    hide Book, Sole, WriteNow, Allocate;
    DirectTrace(s, c);
    MadeBook(s.trace, c);
    ElsewhereTwice(s.trace + [Allocated(c)], Accepted(c, false), Written(c));
    NewCopy(Queued(s), s.inflight, Book(s.trace).freed, Book(s.trace).made, s.next, c);
  }

  lemma WriteNowHands(s: Socket, c: Copy)
    ensures var t := WriteNow(Allocate(s, c), c);
            t.inflight == s.inflight + One(c) && Queued(t) == Queued(s) && t.next == s.next + 1
  {
  }

  lemma SendOwned(s: Socket, body: Message, write: Error)
    requires Owned(s)
    ensures Owned(DoSend(s, body, write))
  {
    hide Owned, QueueUp, Refuse, WriteNow, Allocate;
    if Live(s) && !body.Invalid? {
      if s.state == CONNECTING {
        QueueUpOwned(s, Copy(s.next, body));
      } else if write != OK {
        RefuseOwned(s, Copy(s.next, body));
      } else {
        WriteNowOwned(s, Copy(s.next, body));
      }
    }
  }

  // ---- The queue ----

  /** The head of the queue is handed to tv_write. */
  lemma FlushWrittenOwned(s: Socket, c: Copy, timerStarts: bool)
    requires Owned(s.(pending := [c] + s.pending))
    ensures Owned(SendQueued(s, c, timerStarts))
  {
    var u := s.(pending := [c] + s.pending);
    QueuedHead(s, u, c);
    SendQueuedHands(s, c, timerStarts);
    hide Book, Sole, SendQueued, Queued;
    ElsewhereBook(s.trace, Written(c));
    CopyMoves(Queued(u), u.inflight, Book(u.trace).freed, Book(u.trace).made, u.next, c);
  }

  lemma QueuedHead(s: Socket, u: Socket, c: Copy)
    requires u == s.(pending := [c] + s.pending)
    ensures Queued(s) == Queued(u) - One(c) && c in Queued(u)
  {
  }

  lemma SendQueuedHands(s: Socket, c: Copy, timerStarts: bool)
    ensures SendQueued(s, c, timerStarts).inflight == s.inflight + One(c)
    ensures Queued(SendQueued(s, c, timerStarts)) == Queued(s)
  {
  }

  lemma KeptBackOwned(s: Socket, c: Copy)
    requires s.pc.ReportUnsent? && Owned(s.(pending := [c] + s.pending))
    ensures Owned(KeepBack(s, c))
  {
    hide Book, Sole;
    assert Queued(KeepBack(s, c)) == Queued(s.(pending := [c] + s.pending));
  }

  lemma FlushOneOwned(s: Socket, r: WriteResult)
    requires Owned(s) && s.pc.ReportUnsent? && s.pending != []
    ensures Owned(FlushOne(s, r))
  {
    hide Owned, SendQueued, KeepBack;
    var u := s.(pending := s.pending[1..]);
    assert u.(pending := [s.pending[0]] + u.pending) == s;
    if s.state != CONNECTED || r.status != OK {
      KeptBackOwned(u, s.pending[0]);
    } else {
      FlushWrittenOwned(u, s.pending[0], r.timerStarts);
    }
  }

  lemma {:induction false} FlushLoopOwned(s: Socket, results: seq<WriteResult>)
    requires Owned(s) && s.pc.ReportUnsent? && |results| == |s.pending|
    ensures Owned(FlushLoop(s, results))
    decreases |results|
  {
    hide Owned, FlushOne;
    if results != [] {
      FlushOneOwned(s, results[0]);
      FlushLoopOwned(FlushOne(s, results[0]), results[1..]);
    }
  }

  lemma FlushOwned(s: Socket, results: seq<WriteResult>)
    requires Owned(s) && s.pc == FlushQueue && |results| == |s.pending|
    ensures Owned(DoFlush(s, results))
  {
    hide Owned;
    QuietOwned(s, s.(pc := ReportUnsent([])), HandlerMessage);
    FlushLoopOwned(s.(pc := ReportUnsent([])), results);
  }

  /** The head of the messages to be reported is reported and freed. */
  lemma ReportedOwned(s: Socket, t: Socket, cause: Cause)
    requires Owned(s) && Unsent(s.pc) != [] && Unsent(t.pc) == Unsent(s.pc)[1..]
    requires t == s.(pc := t.pc)
    ensures Owned(Emit(Emit(t, Failed(Unsent(s.pc)[0], cause)), Freed(Unsent(s.pc)[0])))
  {
    var c := Unsent(s.pc)[0];
    UnsentHead(s, t);
    hide Book, Sole, Queued, Unsent;
    ElsewhereBook(s.trace, Failed(c, cause));
    FreedBook(s.trace + [Failed(c, cause)], c);
    CopyMoves(Queued(s), s.inflight, Book(s.trace).freed, Book(s.trace).made, s.next, c);
    EmitsQueued(t, Failed(c, cause));
    EmitsQueued(Emit(t, Failed(c, cause)), Freed(c));
  }

  lemma EmitsQueued(s: Socket, e: Event)
    ensures Queued(Emit(s, e)) == Queued(s)
  {
  }

  lemma UnsentHead(s: Socket, t: Socket)
    requires Unsent(s.pc) != [] && Unsent(t.pc) == Unsent(s.pc)[1..] && t.pending == s.pending
    ensures Queued(t) == Queued(s) - One(Unsent(s.pc)[0]) && Unsent(s.pc)[0] in Queued(s)
  {
    HeadMultiset(Unsent(s.pc));
  }

  lemma ReportUnsentOwned(s: Socket)
    requires Owned(s) && s.pc.ReportUnsent?
    ensures Owned(DoReportUnsent(s, s.pc.unsent))
  {
    hide Owned, Emit;
    if s.pc.unsent == [] {
      QuietOwned(s, s.(pc := Idle), HandlerMessage);
    } else {
      ReportedOwned(s, s.(pc := ReportUnsent(s.pc.unsent[1..])), NotSent);
    }
  }

  lemma DiscardUnsentOwned(s: Socket)
    requires Owned(s) && s.pc.DiscardUnsent?
    ensures Owned(DoDiscardUnsent(s, s.pc.unsent))
  {
    hide Owned, Emit;
    if s.pc.unsent == [] {
      QuietOwned(s, s.(pc := DiscardTimers(s.timers), timers := []), HandlerMessage);
    } else {
      ReportedOwned(s, s.(pc := DiscardUnsent(s.pc.unsent[1..])), Discarded(s.closing));
    }
  }

  lemma TakenOwned(s: Socket)
    requires Owned(s) && s.pc == DiscardQueue
    ensures Owned(s.(pc := DiscardUnsent(s.pending), pending := []))
  {
    hide Book, Sole;
    assert Queued(s.(pc := DiscardUnsent(s.pending), pending := [])) == Queued(s);
  }

  // ---- A write completes ----

  lemma ReturnedOwned(s: Socket, t: Socket, c: Copy)
    requires Owned(s) && c in s.inflight && SameHeap(Book(s.trace), Book(t.trace))
    requires t == s.(inflight := s.inflight - multiset{c}, timers := t.timers, armed := t.armed, trace := t.trace)
    ensures Owned(Emit(t, Freed(c)))
  {
    hide Book, Sole;
    FreedBook(t.trace, c);
    CopyMoves(Queued(s), s.inflight, Book(s.trace).freed, Book(s.trace).made, s.next, c);
  }

  lemma MatchedWriteOwned(s: Socket, c: Copy, status: Error)
    requires Owned(s) && c in s.inflight && status != OK
    requires c.body.Request? && IndexOf(s.timers, c.body.msgid) < |s.timers|
    ensures Owned(DoWriteDone(s, c, status))
  {
    hide Owned, Book;
    var i := IndexOf(s.timers, c.body.msgid);
    var e := s.timers[i];
    ElsewhereTwice(s.trace, TimerFreed(e), Failed(c, WriteError(true)));
    ReturnedOwned(s, Emit(Emit(s.(timers := RemoveAt(s.timers, i), armed := s.armed - {e},
                                  inflight := s.inflight - multiset{c}),
                               TimerFreed(e)), Failed(c, WriteError(true))), c);
  }

  lemma UnmatchedWriteOwned(s: Socket, c: Copy, status: Error)
    requires Owned(s) && c in s.inflight && status != OK
    requires !(c.body.Request? && IndexOf(s.timers, c.body.msgid) < |s.timers|)
    ensures Owned(DoWriteDone(s, c, status))
  {
    hide Owned, Book;
    ElsewhereBook(s.trace, Failed(c, WriteError(false)));
    ReturnedOwned(s, Emit(s.(inflight := s.inflight - multiset{c}), Failed(c, WriteError(false))), c);
  }

  lemma WriteDoneOwned(s: Socket, c: Copy, status: Error)
    requires Owned(s) && c in s.inflight
    ensures Owned(DoWriteDone(s, c, status))
  {
    if status == OK {
      hide Owned, Book;
      ReturnedOwned(s, s.(inflight := s.inflight - multiset{c}), c);
    } else if c.body.Request? && IndexOf(s.timers, c.body.msgid) < |s.timers| {
      hide *;
      MatchedWriteOwned(s, c, status);
    } else {
      hide *;
      UnmatchedWriteOwned(s, c, status);
    }
  }

  // ---- Every step, every run ----

  lemma ReadItemOwned(s: Socket)
    requires Owned(s) && s.pc.ReadItems?
    ensures Owned(DoReadItem(s, s.pc.items))
  {
    hide Owned, DoResponse, DoDisconnect;
    QuietOwned(s, s.(pc := Idle), HandlerMessage);
    if s.pc.items != [] {
      var t := s.(pc := ReadItems(s.pc.items[1..]));
      QuietOwned(s, t, HandlerMessage);
      match s.pc.items[0]
      case InRequest => QuietOwned(t, Emit(t, HandlerMessage), HandlerMessage);
      case InNotify => QuietOwned(t, Emit(t, HandlerMessage), HandlerMessage);
      case InResponse(msgid) => ResponseOwned(t, msgid);
      case Undecodable => DisconnectOwned(s.(pc := Idle), false);
    }
  }

  lemma FailingOwned(s: Socket, pc: LoopPc, handshaking: bool)
    requires Owned(s) && Unsent(pc) == Unsent(s.pc)
    ensures Owned(DoDisconnect(s.(pc := pc), handshaking))
  {
    hide Owned, DoDisconnect;
    QuietOwned(s, s.(pc := pc), HandlerMessage);
    DisconnectOwned(s.(pc := pc), handshaking);
  }

  lemma ConnectLockOwned(s: Socket, status: Error)
    requires Owned(s) && s.pc.ConnectLock?
    ensures Owned(DoConnectLock(s, status))
  {
    hide Owned;
    if s.state == CONNECTING && status != OK {
      QuietOwned(s, DoConnectLock(s, status), TransportFailed(s.epoch, status));
    } else {
      QuietOwned(s, DoConnectLock(s, status), HandlerConnect(s.epoch));
    }
  }

  lemma ClosingOwned(s: Socket)
    requires Owned(s) && (s.pc.ConnectLock? || s.pc == HandshakeFailed || s.pc.ReadFailed? || s.pc.ReadItems?)
    ensures Owned(DoContinue(s))
  {
    hide Owned, DoConnectLock, DoDisconnect, DoReadItem;
    match s.pc
    case ConnectLock(status) => ConnectLockOwned(s, status);
    case HandshakeFailed => FailingOwned(s, Idle, true);
    case ReadFailed(error) => FailingOwned(s, ReadError(error), s.handshaking);
    case ReadItems(_) => ReadItemOwned(s);
  }

  lemma ReportingOwned(s: Socket)
    requires Owned(s)
    requires s.pc.ReportUnsent? || s.pc == DiscardQueue || s.pc.DiscardUnsent? || s.pc.DiscardTimers?
    ensures Owned(DoContinue(s))
  {
    hide Owned, DoReportUnsent, DoDiscardUnsent, DoDiscardTimers;
    match s.pc
    case ReportUnsent(_) => ReportUnsentOwned(s);
    case DiscardQueue => TakenOwned(s);
    case DiscardUnsent(_) => DiscardUnsentOwned(s);
    case DiscardTimers(_) => DiscardTimersOwned(s);
  }

  lemma DecideOwned(s: Socket)
    requires Owned(s) && s.pc == DecideRetry
    ensures Owned(DoDecideRetry(s))
  {
    hide Owned;
    QuietOwned(s, DoDecideRetry(s), HandlerMessage);
  }

  lemma PlainOwned(s: Socket)
    requires Owned(s) && Enabled(s, Continue)
    requires s.pc == IssueClose || s.pc == ConnectCallback || s.pc.ReadError? || s.pc == ReleaseSocket
             || s.pc == DecideRetry || s.pc == NotifyDisconnect
    ensures Owned(DoContinue(s))
  {
    hide Owned, Enabled, DoDecideRetry;
    match s.pc
    case IssueClose => QuietOwned(s, DoIssueClose(s), CloseIssued(s.epoch));
    case ConnectCallback => QuietOwned(s, DoConnectReturned(s), HandlerMessage);
    case ReadError(error) => QuietOwned(s, s.(lastError := error, pc := Idle), HandlerMessage);
    case ReleaseSocket => QuietOwned(s, s.(inPool := false, pc := DecideRetry), HandlerMessage);
    case DecideRetry => DecideOwned(s);
    case NotifyDisconnect =>
      QuietOwned(s, DoNotify(s),
                 if s.handshaking then Suppressed(s.closing) else HandlerDisconnect(s.closing, s.lastError));
  }

  lemma ContinueOwned(s: Socket)
    requires Owned(s) && Enabled(s, Continue)
    ensures Owned(DoContinue(s))
  {
    hide Owned, DoContinue;
    match s.pc
    case ConnectLock(_) => ClosingOwned(s);
    case HandshakeFailed => ClosingOwned(s);
    case ReadFailed(_) => ClosingOwned(s);
    case ReadItems(_) => ClosingOwned(s);
    case ReportUnsent(_) => ReportingOwned(s);
    case DiscardQueue => ReportingOwned(s);
    case DiscardUnsent(_) => ReportingOwned(s);
    case DiscardTimers(_) => ReportingOwned(s);
    case _ => PlainOwned(s);
  }

  lemma RetryOwned(s: Socket, dial: Dial)
    requires Owned(s) && s.pc == RetryConnect
    ensures Owned(DoRetry(s, dial))
  {
    hide Owned, DoConnect;
    var t := Emit(s.(pc := Idle), CloseRetried(s.closing));
    QuietOwned(s, t, CloseRetried(s.closing));
    ConnectOwned(t, s.connectTimeout, dial, false);
  }

  lemma ReplyOwned(s: Socket, t: Socket, reply: Reply)
    requires Owned(s) && s.pc == Idle && t.pc.ConnectLock?
    requires t == s.(dialing := t.dialing, connectTimer := t.connectTimer, pc := t.pc)
    ensures Owned(TakeReply(t, reply))
  {
    hide Owned, ReplyContext;
    QuietOwned(s, TakeReply(t, reply), HandlerMessage);
  }

  lemma HandshakeOwned(s: Socket, status: Error)
    requires Owned(s) && s.pc == Idle
    ensures Owned(DoHandshake(s, status))
  {
    hide Owned;
    if status != OK {
      QuietOwned(s, s.(pc := HandshakeFailed), HandlerMessage);
    } else {
      QuietOwned(s, s.(handshaking := false, state := CONNECTED, pc := FlushQueue), HandlerMessage);
    }
  }

  lemma ReadOwned(s: Socket, items: seq<Item>, error: Error)
    requires Owned(s) && s.pc == Idle
    ensures Owned(DoReadChunk(s, items)) && Owned(DoReadBroken(s, error))
  {
    hide Owned;
    if Live(s) {
      QuietOwned(s, DoReadChunk(s, items), HandlerMessage);
      QuietOwned(s, DoReadBroken(s, error), TransportFailed(s.epoch, error));
    }
  }

  lemma CloseDoneOwned(s: Socket)
    requires Owned(s) && s.pc == Idle
    ensures Owned(DoCloseDone(s))
  {
    hide Owned;
    QuietOwned(s, DoCloseDone(s), Closed(s.epoch));
  }

  lemma EntryOwned(s: Socket, a: Action)
    requires Owned(s) && Enabled(s, a)
    requires a.ConnectDone? || a.ConnectTimeout? || a.HandshakeDone? || a.ReadChunk? || a.ReadBroken? || a.CloseDone?
    ensures Owned(Next(s, a))
  {
    hide Owned, TakeReply, DoHandshake, DoReadChunk, DoReadBroken, DoCloseDone;
    match a
    case ConnectDone(status, reply) => ReplyOwned(s, s.(dialing := false, pc := ConnectLock(status)), reply);
    case ConnectTimeout(reply) => ReplyOwned(s, s.(connectTimer := false, pc := ConnectLock(ETIMEDOUT)), reply);
    case HandshakeDone(status) => HandshakeOwned(s, status);
    case ReadChunk(items) => ReadOwned(s, items, OK);
    case ReadBroken(error) => ReadOwned(s, [], error);
    case CloseDone => CloseDoneOwned(s);
  }

  lemma NextOwned(s: Socket, a: Action)
    requires Owned(s) && Enabled(s, a)
    ensures Owned(Next(s, a))
  {
    hide Owned, DoConnect, DoDisconnect, DoSend, DoPushEntry, DoStartTimer, DoWriteDone, DoRequestTimeout, DoCloseDone,
         DoContinue, DoFlush, DoRetry, DoReadBroken, DoReadChunk, DoHandshake, TakeReply;
    match a
    case CallConnect(timeout, dial) => ConnectOwned(s, timeout, dial, true);
    case CallDisconnect => DisconnectOwned(s, false);
    case CallSend(body, write) => SendOwned(s, body, write);
    case PushEntry => RegisterOwned(s, false);
    case StartTimer(timerStarts) => RegisterOwned(s, timerStarts);
    case WriteDone(c, status) => WriteDoneOwned(s, c, status);
    case RequestTimeout(c) => RequestTimeoutOwned(s, c);
    case Continue => ContinueOwned(s);
    case ContinueFlush(results) => FlushOwned(s, results);
    case ContinueRetry(dial) => RetryOwned(s, dial);
    case _ => EntryOwned(s, a);
  }

  lemma StepOwned(s: Socket, a: Action)
    requires Owned(s)
    ensures Owned(Step(s, a))
  {
    hide Owned, Next, Enabled;
    if Enabled(s, a) {
      NextOwned(s, a);
    }
  }

  lemma {:induction false} RunOwned(s: Socket, run: seq<Action>)
    requires Owned(s)
    ensures Owned(Run(s, run))
    decreases |run|
  {
    hide Owned, Step;
    if run != [] {
      StepOwned(s, run[0]);
      RunOwned(Step(s, run[0]), run[1..]);
    }
  }

  lemma InitialOwned(s: Socket)
    requires Initial(s)
    ensures Owned(s)
  {
  }

  /**
    In every run: a heap copy is in one place, queued, with libtv or freed, if Send made it, and in none
    otherwise; so it is freed at most once, and it is not freed while it is still queued or with libtv.
  */
  lemma CopiesFreedOnce(s: Socket, run: seq<Action>, c: Copy)
    requires Initial(s)
    ensures var t := Run(s, run);
            multiset(t.pending)[c] + multiset(Unsent(t.pc))[c] + t.inflight[c] + Book(t.trace).freed[c]
            == Book(t.trace).made[c] <= 1
  {
    InitialOwned(s);
    RunOwned(s, run);
    var t := Run(s, run);
    assert (Queued(t) + t.inflight + Book(t.trace).freed)[c] == Book(t.trace).made[c];
  }
}
