/**
  What an application can count on, in every interleaving: each accepted message is settled
  exactly once, each timer is freed exactly once, and a response finds the
  request it answers.
*/
module Delivery {
  import opened Basics
  import opened Protocol
  import opened Ledger
  import opened Stocks
  import opened Conservation
  import opened Timers
  import opened Lifecycle
  import opened Ownership

  /** No request is sent under the id of one still in play, and no timer fires that was freed. */
  ghost predicate Fresh(s: Socket, a: Action) {
    FreshId(s, a) && NoFreedTimerFires(s, a)
  }

  ghost predicate FreshRun(s: Socket, run: seq<Action>)
    decreases |run|
  {
    run == [] || (Fresh(s, run[0]) && FreshRun(Step(s, run[0]), run[1..]))
  }

  // ---- Nothing is stranded ----

  /** The queue is empty while connected, and both collections are once OnDisconnect emptied them. */
  ghost predicate Drained(s: Socket) {
    && (s.state == CONNECTED && s.pc != FlushQueue ==> s.pending == [])
    && ((s.pc.DiscardUnsent? || s.pc.DiscardTimers? || s.pc == NotifyDisconnect) && s.state == DISCONNECTED
        ==> s.pending == [])
    && (s.pc.DiscardTimers? || s.pc == NotifyDisconnect ==> s.timers == [])
  }

  /** A section that adds nothing to either collection and does not connect. */
  lemma SameDrained(s: Socket, t: Socket)
    requires Drained(s) && (t.pending == s.pending || t.pending == []) && (t.timers == s.timers || t.timers == [])
    requires t.state == s.state || t.state == DISCONNECTING || t.state == CONNECTING
    requires s.pc == FlushQueue && s.state == CONNECTED ==> t.pc == FlushQueue || t.pending == []
    requires t.pc == s.pc || !(t.pc.DiscardUnsent? || t.pc.DiscardTimers? || t.pc == NotifyDisconnect)
    ensures Drained(t)
  {
  }

  lemma SendDrained(s: Socket, body: Message, write: Error)
    requires Drained(s)
    ensures Drained(DoSend(s, body, write))
  {
    hide DoSend;
    SendPending(s, body, write);
  }

  lemma SendPending(s: Socket, body: Message, write: Error)
    ensures s.state != CONNECTING ==> DoSend(s, body, write).pending == s.pending
  {
    hide QueueUp, Refuse, WriteNow, Allocate;
  }

  lemma DisconnectDrained(s: Socket, handshaking: bool)
    requires Drained(s)
    ensures Drained(DoDisconnect(s, handshaking))
  {
    hide Drained;
    if Live(s) {
      SameDrained(s, DoDisconnect(s, handshaking));
    } else {
      SameDrained(s, s.(handshaking := handshaking));
    }
  }

  lemma MoveOnDrained(s: Socket, pc: LoopPc)
    requires Drained(s) && InStream(s.pc) && s.pc != FlushQueue && !InClose(pc)
    ensures Drained(s.(pc := pc))
  {
  }

  lemma MessageDrained(s: Socket)
    requires Drained(s)
    ensures Drained(Emit(s, HandlerMessage))
  {
  }

  lemma ResponseDrained(s: Socket, msgid: nat)
    requires Drained(s) && s.pc.ReadItems?
    ensures Drained(DoResponse(s, msgid))
  {
    hide DoResponse;
  }

  lemma ReadItemDrained(s: Socket)
    requires Drained(s) && s.pc.ReadItems?
    ensures Drained(DoReadItem(s, s.pc.items))
  {
    hide Drained, DoResponse, DoDisconnect;
    MoveOnDrained(s, Idle);
    if s.pc.items != [] {
      var t := s.(pc := ReadItems(s.pc.items[1..]));
      MoveOnDrained(s, t.pc);
      match s.pc.items[0]
      case InRequest => MessageDrained(t);
      case InNotify => MessageDrained(t);
      case InResponse(msgid) => ResponseDrained(t, msgid);
      case Undecodable => DisconnectDrained(s.(pc := Idle), false);
    }
  }

  lemma DiscardedDrained(s: Socket)
    requires Drained(s) && s.pc.DiscardUnsent? && s.pc.unsent == []
    ensures Drained(DoDiscardUnsent(s, s.pc.unsent))
  {
  }

  lemma DiscardHeadDrained(s: Socket)
    requires Drained(s) && s.pc.DiscardUnsent? && s.pc.unsent != []
    ensures Drained(DoDiscardUnsent(s, s.pc.unsent))
  {
  }

  lemma DiscardDrained(s: Socket)
    requires Drained(s) && s.pc.DiscardUnsent?
    ensures Drained(DoDiscardUnsent(s, s.pc.unsent))
  {
    hide Drained, DoDiscardUnsent;
    if s.pc.unsent == [] {
      DiscardedDrained(s);
    } else {
      DiscardHeadDrained(s);
    }
  }

  lemma CloseEndsDrained(s: Socket)
    requires Orderly(s) && Drained(s)
    requires s.pc == ReleaseSocket || s.pc == DecideRetry || s.pc == DiscardQueue || s.pc.DiscardTimers?
             || s.pc == NotifyDisconnect || s.pc.ReportUnsent? || s.pc.ReadError? || s.pc == IssueClose
    ensures Drained(DoContinue(s))
  {
    hide DoReportUnsent, DoDiscardTimers, DoDecideRetry;
  }

  lemma ContinueDrained(s: Socket)
    requires Orderly(s) && Drained(s) && Enabled(s, Continue)
    ensures Drained(DoContinue(s))
  {
    hide Drained, DoReportUnsent, DoReadItem, DoDiscardUnsent, DoDiscardTimers, DoDecideRetry, DoDisconnect,
         DoConnectLock, DoConnectReturned;
    match s.pc
    case ConnectLock(status) => ConnectLockDrained(s);
    case ConnectCallback => ReturnedDrained(s);
    case HandshakeFailed =>
      MoveOnDrained(s, Idle);
      DisconnectDrained(s.(pc := Idle), true);
    case ReadFailed(error) =>
      MoveOnDrained(s, ReadError(error));
      DisconnectDrained(s.(pc := ReadError(error)), s.handshaking);
    case ReadItems(_) => ReadItemDrained(s);
    case DiscardUnsent(_) => DiscardDrained(s);
    case _ => CloseEndsDrained(s);
  }

  lemma ReturnedDrained(s: Socket)
    requires Drained(s) && s.pc == ConnectCallback
    ensures Drained(DoConnectReturned(s))
  {
  }

  lemma ConnectLockDrained(s: Socket)
    requires Drained(s) && s.pc.ConnectLock?
    ensures Drained(DoConnectLock(s, s.pc.status))
  {
    if s.state != CONNECTING {
    } else if s.pc.status != OK {
    } else {
    }
  }

  lemma ConnectDrained(s: Socket, timeout: nat, dial: Dial, byUser: bool)
    requires Drained(s)
    ensures Drained(DoConnect(s, timeout, dial, byUser))
  {
    hide Drained;
    SameDrained(s, DoConnect(s, timeout, dial, byUser));
  }

  lemma RetryDrained(s: Socket, dial: Dial)
    requires Drained(s) && s.pc == RetryConnect
    ensures Drained(DoRetry(s, dial))
  {
    hide Drained, DoConnect;
    var t := Emit(s.(pc := Idle), CloseRetried(s.closing));
    SameDrained(s, t);
    ConnectDrained(t, s.connectTimeout, dial, false);
  }

  lemma LoopEntryDrained(s: Socket, a: Action)
    requires Drained(s) && s.pc == Idle && Enabled(s, a)
    requires a.ConnectDone? || a.ConnectTimeout? || a.HandshakeDone? || a.ReadChunk? || a.ReadBroken? || a.CloseDone?
    ensures Drained(Next(s, a))
  {
    hide Drained, DoHandshake, DoReadChunk, DoReadBroken, DoCloseDone, ReplyContext;
    match a
    case ConnectDone(_, _) => SameDrained(s, Next(s, a));
    case ConnectTimeout(_) => SameDrained(s, Next(s, a));
    case HandshakeDone(status) => HandshakeDrained(s, status);
    case ReadChunk(items) => ReadDrained(s, items, OK);
    case ReadBroken(error) => ReadDrained(s, [], error);
    case CloseDone => CloseDoneDrained(s);
  }

  lemma HandshakeDrained(s: Socket, status: Error)
    requires Drained(s) && s.pc == Idle
    ensures Drained(DoHandshake(s, status))
  {
    if status != OK {} else {}
  }

  lemma ReadDrained(s: Socket, items: seq<Item>, error: Error)
    requires Drained(s) && s.pc == Idle
    ensures Drained(DoReadChunk(s, items)) && Drained(DoReadBroken(s, error))
  {
    hide Drained;
    if Live(s) {
      SameDrained(s, DoReadChunk(s, items));
      SameDrained(s, DoReadBroken(s, error));
    }
  }

  lemma CloseDoneDrained(s: Socket)
    requires Drained(s) && s.pc == Idle
    ensures Drained(DoCloseDone(s))
  {
    if s.state == DISCONNECTED {} else {}
  }

  lemma FlushDrained(s: Socket, results: seq<WriteResult>)
    requires Orderly(s) && Drained(s) && s.pc == FlushQueue && |results| == |s.pending|
    ensures Drained(DoFlush(s, results))
  {
    hide FlushLoop;
  }

  lemma WriteDoneDrained(s: Socket, c: Copy, status: Error)
    requires Drained(s) && s.pc == Idle
    ensures Drained(DoWriteDone(s, c, status)) && Drained(DoRequestTimeout(s, c))
  {
    hide DoWriteDone, DoRequestTimeout;
  }

  lemma NextDrained(s: Socket, a: Action)
    requires Orderly(s) && Drained(s) && Enabled(s, a)
    ensures Drained(Next(s, a))
  {
    hide Orderly, Drained, DoConnect, DoDisconnect, DoSend, DoPushEntry, DoStartTimer, DoWriteDone, DoRequestTimeout,
         DoCloseDone, DoContinue, DoFlush, DoRetry, DoReadBroken, DoReadChunk, DoHandshake, TakeReply;
    match a
    case CallConnect(timeout, dial) => ConnectDrained(s, timeout, dial, true);
    case CallDisconnect => DisconnectDrained(s, false);
    case CallSend(body, write) => SendDrained(s, body, write);
    case PushEntry => PushEntryDrained(s);
    case StartTimer(timerStarts) => StartTimerDrained(s, timerStarts);
    case WriteDone(c, status) => WriteDoneDrained(s, c, status);
    case RequestTimeout(c) => WriteDoneDrained(s, c, OK);
    case Continue => ContinueDrained(s);
    case ContinueFlush(results) => FlushDrained(s, results);
    case ContinueRetry(dial) => RetryDrained(s, dial);
    case _ => LoopEntryDrained(s, a);
  }

  lemma StepDrained(s: Socket, a: Action)
    requires Orderly(s) && Drained(s)
    ensures Drained(Step(s, a))
  {
    hide Orderly, Drained, Next, Enabled;
    if Enabled(s, a) {
      NextDrained(s, a);
    }
  }

  lemma PushEntryDrained(s: Socket)
    requires Orderly(s) && Drained(s) && s.sending.Some?
    ensures Drained(DoPushEntry(s))
  {
  }

  lemma StartTimerDrained(s: Socket, timerStarts: bool)
    requires Orderly(s) && Drained(s) && s.starting.Some?
    ensures Drained(DoStartTimer(s, timerStarts))
  {
  }

  // ---- All of it, over runs ----

  ghost predicate Healthy(s: Socket) {
    Kept(s) && Tended(s) && Orderly(s) && Drained(s) && Haunted(s) && Registering(s)
  }

  lemma InitialHealthy(s: Socket)
    requires Initial(s)
    ensures Healthy(s)
  {
    InitialKept(s);
    InitialOrderly(s);
    InitialQuiet(s);
    hide Initial, Kept, Orderly, Tended, Drained, Haunted, Registering;
  }

  lemma InitialQuiet(s: Socket)
    requires Initial(s)
    ensures Tended(s) && Drained(s) && Haunted(s) && Registering(s)
  {
    hide Book;
  }

  lemma InitialKept(s: Socket)
    requires Initial(s)
    ensures Kept(s)
  {
    assert View(s) == Stock(multiset{}, multiset{}, multiset{}, BLANK);
  }

  lemma StepHealthy(s: Socket, a: Action)
    requires Healthy(s) && Fresh(s, a)
    ensures Healthy(Step(s, a))
  {
    hide Kept, Tended, Orderly, Drained, Haunted, Registering, Step;
    if s.sending.Some? {
      SendingUnarmed(s);
    }
    StepKept(s, a);
    StepTended(s, a);
    StepGood(s, a);
    StepDrained(s, a);
    StepHaunted(s, a);
    StepRegistering(s, a);
  }

  lemma {:induction false} RunHealthy(s: Socket, run: seq<Action>)
    requires Healthy(s) && FreshRun(s, run)
    ensures Healthy(Run(s, run))
    decreases |run|
  {
    hide Healthy, Step, Fresh;
    if run != [] {
      StepHealthy(s, run[0]);
      RunHealthy(Step(s, run[0]), run[1..]);
    }
  }

  lemma ReachedHealthy(s: Socket, run: seq<Action>)
    requires Initial(s) && FreshRun(s, run)
    ensures Healthy(Run(s, run))
  {
    hide Healthy;
    InitialHealthy(s);
    RunHealthy(s, run);
  }

  /**
    An accepted message is in exactly one of five places, or it is discharged, once. For a request
    the handler has heard one terminal callback if it is discharged and none if it is not, plus one
    for every failed write that was reported without a timer entry.
  */
  lemma RequestConservation(s: Socket, run: seq<Action>, c: Copy)
    requires Initial(s) && FreshRun(s, run) && c in Book(Run(s, run).trace).accepted
    ensures var t := Run(s, run);
            var b := Book(t.trace);
            && multiset(t.pending)[c] + multiset(Unsent(t.pc))[c] + multiset(t.timers)[c]
               + multiset(Cancelled(t.pc))[c] + Held(t.sending)[c] + b.discharged[c] == 1
            && (c.body.Request? ==> b.terminal[c] == b.discharged[c] + b.orphans[c])
  {
    ReachedHealthy(s, run);
    var t := Run(s, run);
    var k := View(t);
    assert (k.queued + k.timed + k.books.discharged)[c] == k.books.accepted[c];
    assert k.books.accepted[c] <= k.books.made[c] <= 1;
    if c.body.Request? {
      TerminalSplit(t.trace, c);
    }
  }

  /** Every request handed to tv_write has one RequestTimer: live, or about to be pushed, or freed once. */
  lemma TimersFreedOnce(s: Socket, run: seq<Action>, c: Copy)
    requires Initial(s) && FreshRun(s, run) && c.body.Request? && c in Book(Run(s, run).trace).written
    ensures var t := Run(s, run);
            multiset(t.timers)[c] + multiset(Cancelled(t.pc))[c] + Held(t.sending)[c] + Book(t.trace).timersFreed[c]
                == 1
  {
    ReachedHealthy(s, run);
    var t := Run(s, run);
    var k := View(t);
    assert (k.timed + k.books.timersFreed)[c] == k.books.requests[c];
    WrittenRequests(t.trace, c);
    assert k.books.written[c] <= k.books.accepted[c] <= k.books.made[c] <= 1;
  }

  lemma {:induction false} WrittenRequests(trace: seq<Event>, c: Copy)
    requires c.body.Request?
    ensures Book(trace).requests[c] == Book(trace).written[c]
  {
    if trace != [] {
      WrittenRequests(trace[..|trace| - 1], c);
    }
  }

  /**
    When OnDisconnect is about to report, and nobody connected meanwhile, nothing is owed: both
    collections are empty and every request ever accepted has had exactly one terminal callback,
    not counting reports of failed writes that found no entry.
  */
  lemma SettledAtDisconnect(s: Socket, run: seq<Action>)
    requires Initial(s) && FreshRun(s, run)
    requires Run(s, run).pc == NotifyDisconnect && Run(s, run).state == DISCONNECTED
    ensures var t := Run(s, run);
            var b := Book(t.trace);
            && t.pending == [] && t.timers == [] && t.inflight == multiset{}
            && b.discharged == b.accepted
            && b.freed == b.made
            && b.timersFreed == b.requests
            && (forall c :: c in b.accepted && c.body.Request? ==> b.terminal[c] == 1 + b.orphans[c])
  {
    ReachedHealthy(s, run);
    hide Run;
    var t := Run(s, run);
    NothingOwed(t);
    forall c | c in Book(t.trace).accepted && c.body.Request?
      ensures Book(t.trace).terminal[c] == 1 + Book(t.trace).orphans[c]
    {
      hide *;
      RequestConservation(s, run, c);
    }
  }

  lemma EmptyStock(k: Stock)
    requires Balanced(k) && k.queued == multiset{} && k.timed == multiset{} && k.inflight == multiset{}
    ensures k.books.discharged == k.books.accepted && k.books.freed == k.books.made
            && k.books.timersFreed == k.books.requests
  {
  }

  lemma NothingOwed(t: Socket)
    requires Healthy(t) && t.pc == NotifyDisconnect && t.state == DISCONNECTED
    ensures t.pending == [] && t.timers == [] && t.inflight == multiset{} && t.sending == None
    ensures var b := Book(t.trace);
            b.discharged == b.accepted && b.freed == b.made && b.timersFreed == b.requests
  {
    HealthyBalanced(t);
    EmptyAtNotify(t);
    hide Healthy, Balanced, Book;
    EmptyStock(View(t));
  }

  lemma HealthyBalanced(t: Socket)
    requires Healthy(t)
    ensures Balanced(View(t))
  {
    hide Tended, Orderly, Drained, Haunted, Registering, Balanced, Book;
  }

  lemma EmptyAtNotify(t: Socket)
    requires Healthy(t) && t.pc == NotifyDisconnect && t.state == DISCONNECTED
    ensures t.pending == [] && t.timers == [] && t.inflight == multiset{} && t.sending == None
    ensures Queued(t) == multiset{} && Timed(t) == multiset{}
  {
    hide Kept, Tended, Haunted, Registering;
  }

  /**
    A failed write of a request is reported without an entry exactly when the request was settled
    before, or its Send has not pushed the entry yet.
  */
  lemma OrphanExactly(s: Socket, run: seq<Action>, c: Copy, status: Error)
    requires Initial(s) && FreshRun(s, run) && c.body.Request? && status != OK
    requires Enabled(Run(s, run), WriteDone(c, status))
    ensures var t := Run(s, run);
            var u := Step(t, WriteDone(c, status));
            Book(u.trace).orphans[c] > Book(t.trace).orphans[c]
            <==> Book(t.trace).discharged[c] > 0 || t.sending == Some(c)
  {
    ReachedHealthy(s, run);
    var t := Run(s, run);
    hide Run, FreshRun, Initial;
    OrphanFrom(t, c, status);
  }

  lemma OrphanFrom(t: Socket, c: Copy, status: Error)
    requires Healthy(t) && Enabled(t, WriteDone(c, status)) && c.body.Request? && status != OK
    ensures Book(Step(t, WriteDone(c, status)).trace).orphans[c]
            == Book(t.trace).orphans[c] + (if Book(t.trace).discharged[c] > 0 || t.sending == Some(c) then 1 else 0)
  {
    hide Healthy, Book, Step, Enabled, DoWriteDone;
    FailingWrite(t, c, status);
    WrittenIsTracked(t, c);
    FailedWriteOrphans(t, c, status);
  }

  lemma FailingWrite(t: Socket, c: Copy, status: Error)
    requires Healthy(t) && Enabled(t, WriteDone(c, status))
    ensures Step(t, WriteDone(c, status)) == DoWriteDone(t, c, status)
    ensures c in t.inflight && t.pc == Idle && c in Book(t.trace).written
  {
    hide DoWriteDone, Book, Tended, Orderly, Drained, Haunted, Registering, DistinctIds;
    InflightWritten(View(t), t.next, c);
  }

  lemma InflightWritten(k: Stock, next: nat, c: Copy)
    requires Sound(k, next) && c in k.inflight
    ensures c in k.books.written
  {
    assert k.inflight[c] <= k.books.written[c];
  }

  /** A written request that is not discharged has its entry, or is just being registered. */
  lemma WrittenIsTracked(t: Socket, c: Copy)
    requires Healthy(t) && c.body.Request? && c in Book(t.trace).written && Cancelled(t.pc) == []
    ensures Book(t.trace).discharged[c] > 0 || t.sending == Some(c) <==> c !in t.timers
  {
    var k := View(t);
    assert (k.queued + k.timed + k.books.discharged)[c] == k.books.accepted[c];
    assert k.books.written[c] <= k.books.accepted[c] <= k.books.made[c] <= 1;
    assert c in t.timers <==> multiset(t.timers)[c] > 0;
  }

  lemma FailedWriteOrphans(t: Socket, c: Copy, status: Error)
    requires Healthy(t) && c.body.Request? && status != OK && c in t.inflight && t.pc == Idle
    ensures Book(DoWriteDone(t, c, status).trace).orphans[c]
            == Book(t.trace).orphans[c] + (if c in t.timers then 0 else 1)
  {
    if IndexOf(t.timers, c.body.msgid) < |t.timers| {
      assert InPlay(View(t), c);
      EntryIsOwn(t, c);
      hide Healthy, Book, Post, DoWriteDone;
      MatchedWriteBooks(t, c, status);
    } else {
      if c in t.timers {
        EntryFound(t.timers, c);
      }
      hide Healthy, Book, Post, DoWriteDone;
      UnmatchedWriteBooks(t, c, status);
    }
  }

  lemma MatchedWriteBooks(t: Socket, c: Copy, status: Error)
    requires c.body.Request? && status != OK && IndexOf(t.timers, c.body.msgid) < |t.timers|
    ensures Book(DoWriteDone(t, c, status).trace).orphans == Book(t.trace).orphans
  {
    var e := t.timers[IndexOf(t.timers, c.body.msgid)];
    MatchedBooks(t.trace, e, c);
    hide Book, Post;
    assert DoWriteDone(t, c, status).trace
           == t.trace + [TimerFreed(e)] + [Failed(c, WriteError(true))] + [Freed(c)];
  }

  lemma OrphansKept(trace: seq<Event>, e: Event)
    requires !(e.Failed? && e.cause == WriteError(false))
    ensures Book(trace + [e]).orphans == Book(trace).orphans
  {
    hide Book;
    BookAppend(trace, e);
  }

  lemma MatchedBooks(trace: seq<Event>, e: Copy, c: Copy)
    ensures Book(trace + [TimerFreed(e)] + [Failed(c, WriteError(true))] + [Freed(c)]).orphans == Book(trace).orphans
  {
    hide Book;
    OrphansKept(trace, TimerFreed(e));
    OrphansKept(trace + [TimerFreed(e)], Failed(c, WriteError(true)));
    OrphansKept(trace + [TimerFreed(e)] + [Failed(c, WriteError(true))], Freed(c));
  }

  lemma UnmatchedWriteBooks(t: Socket, c: Copy, status: Error)
    requires status != OK && (c.body.Request? ==> IndexOf(t.timers, c.body.msgid) == |t.timers|)
    ensures Book(DoWriteDone(t, c, status).trace).orphans == Book(t.trace).orphans + One(c)
  {
    hide Book;
    BookAppend(t.trace, Failed(c, WriteError(false)));
    BookAppend(t.trace + [Failed(c, WriteError(false))], Freed(c));
    hide Book;
  }
}
