/**
  A RequestTimer that was started after it had been freed: such a timer stays armed, and nothing
  ever brings its entry back.
*/
module Ownership {
  import opened Basics
  import opened Protocol
  import opened Ledger
  import opened Stocks
  import opened Conservation
  import opened Timers
  import opened Frames
  import opened Lifecycle

  lemma PostGrows(b: Books, e: Event)
    ensures b.timersFreed <= Post(b, e).timersFreed && b.requests <= Post(b, e).requests
  {
  }

  lemma {:induction false} BooksGrow(trace: seq<Event>, n: nat)
    requires n <= |trace|
    ensures Book(trace[..n]).timersFreed <= Book(trace).timersFreed
    ensures Book(trace[..n]).requests <= Book(trace).requests
    decreases |trace| - n
  {
    hide Book;
    if n == |trace| {
      assert trace[..n] == trace;
    } else {
      BooksGrow(trace, n + 1);
      assert trace[..n + 1] == trace[..n] + [trace[n]];
      BookAppend(trace[..n], trace[n]);
      PostGrows(Book(trace[..n]), trace[n]);
      hide Post;
    }
  }

  lemma BooksKeep(s: Socket, a: Action)
    ensures Book(s.trace).timersFreed <= Book(Step(s, a).trace).timersFreed
    ensures Book(s.trace).requests <= Book(Step(s, a).trace).requests
  {
    hide Step, Book;
    StepLogs(s, a);
    var trace := Step(s, a).trace;
    BooksGrow(trace, |s.trace|);
    assert trace[..|s.trace|] == s.trace;
  }

  /** Timers started too late are armed and freed. */
  ghost predicate Haunted(s: Socket) {
    && s.stale <= s.armed
    && forall c :: c in s.stale ==> c in Book(s.trace).timersFreed
  }

  /** The request whose timer a Send is about to start was written, and its registration began. */
  ghost predicate Registering(s: Socket) {
    s.starting.Some? ==> s.sending.None? && s.starting.value in Book(s.trace).requests
  }

  /** No request has two timers. */
  lemma TimedOrFreed(s: Socket, c: Copy)
    requires Kept(s)
    ensures Timed(s)[c] + Book(s.trace).timersFreed[c] == Book(s.trace).requests[c] <= 1
  {
    var k := View(s);
    assert (k.timed + k.books.timersFreed)[c] == k.books.requests[c];
    assert k.books.requests[c] <= k.books.written[c] <= k.books.accepted[c] <= k.books.made[c];
  }

  lemma FreedIsGone(s: Socket, c: Copy)
    requires Kept(s) && c in Book(s.trace).timersFreed
    ensures c !in s.timers && c !in Cancelled(s.pc) && s.sending != Some(c)
  {
    TimedOrFreed(s, c);
    assert c in s.timers ==> multiset(s.timers)[c] > 0;
    assert c in Cancelled(s.pc) ==> multiset(Cancelled(s.pc))[c] > 0;
    hide Kept, Book;
  }

  lemma SteadyHaunted(s: Socket, t: Socket)
    requires Kept(s) && Haunted(s) && Steady(s, t)
    requires Book(s.trace).timersFreed <= Book(t.trace).timersFreed
    ensures Haunted(t)
  {
    forall c | c in t.stale
      ensures c in t.armed && c in Book(t.trace).timersFreed
    {
      FreedIsGone(s, c);
    }
  }

  /** What a Send registers is not armed yet. */
  lemma SendingUnarmed(s: Socket)
    requires Kept(s) && Tended(s) && Haunted(s) && s.sending.Some?
    ensures s.sending.value !in s.armed
  {
    var c := s.sending.value;
    TimedOrFreed(s, c);
    assert Held(s.sending)[c] == 1;
    assert c in s.timers ==> multiset(s.timers)[c] > 0;
    assert c in Cancelled(s.pc) ==> multiset(Cancelled(s.pc))[c] > 0;
    hide Kept, Book;
  }

  /** A Send that starts a timer whose entry is gone starts a freed one. */
  lemma StartingGone(s: Socket)
    requires Kept(s) && Orderly(s) && Registering(s) && s.starting.Some? && s.starting.value !in s.timers
    ensures s.starting.value in Book(s.trace).timersFreed
  {
    var c := s.starting.value;
    TimedOrFreed(s, c);
    assert !InClose(s.pc);
    assert Cancelled(s.pc) == [];
    assert multiset(s.timers)[c] == 0;
    hide Kept, Book;
  }

  lemma ArmedHaunted(s: Socket, t: Socket, c: Copy)
    requires Haunted(s) && t.armed == s.armed + {c} && t.trace == s.trace
    requires t.stale == s.stale || (t.stale == s.stale + {c} && c in Book(s.trace).timersFreed)
    ensures Haunted(t)
  {
    hide Book;
  }

  lemma StartHaunted(s: Socket, timerStarts: bool)
    requires Kept(s) && Orderly(s) && Registering(s) && Haunted(s) && s.starting.Some?
    ensures Haunted(DoStartTimer(s, timerStarts))
  {
    hide Kept, Orderly, Registering, Haunted, Book;
    if !timerStarts {
      NotStartedHaunted(s);
    } else {
      if s.starting.value !in s.timers {
        StartingGone(s);
      }
      ArmedHaunted(s, DoStartTimer(s, true), s.starting.value);
    }
  }

  lemma NotStartedHaunted(s: Socket)
    requires Haunted(s) && s.starting.Some?
    ensures Haunted(DoStartTimer(s, false))
  {
    hide Book;
  }

  lemma LoadHaunted(s: Socket, a: Action)
    requires Haunted(s) && Enabled(s, a) && (a.CallSend? || a.PushEntry? || a.ContinueFlush?)
    requires Book(s.trace).timersFreed <= Book(Next(s, a).trace).timersFreed
    ensures Haunted(Next(s, a))
  {
    match a
    case CallSend(body, write) => SendFrame(s, body, write);
    case PushEntry =>
    case ContinueFlush(results) => FlushLoopFrame(s.(pc := ReportUnsent([])), results);
  }

  lemma StepHaunted(s: Socket, a: Action)
    requires Kept(s) && Orderly(s) && Registering(s) && Haunted(s) && NoFreedTimerFires(s, a)
    ensures Haunted(Step(s, a))
  {
    BooksKeep(s, a);
    if !Loads(a) {
      StepSteady(s, a);
      hide Step, Kept, Haunted;
      SteadyHaunted(s, Step(s, a));
    } else if Enabled(s, a) {
      assert Step(s, a) == Next(s, a);
      hide Step, Kept, Haunted, Orderly, Registering;
      if a.StartTimer? {
        StartHaunted(s, a.timerStarts);
      } else {
        LoadHaunted(s, a);
      }
    }
  }

  lemma PushRegistering(s: Socket)
    requires Kept(s) && s.sending.Some?
    ensures Registering(DoPushEntry(s))
  {
    TimedOrFreed(s, s.sending.value);
    assert Held(s.sending)[s.sending.value] == 1;
    hide Kept, Book;
  }

  lemma SendRegistering(s: Socket, a: Action)
    requires Enabled(s, a) && (a.CallSend? || a.ContinueFlush? || a.StartTimer?)
    ensures Next(s, a).starting.None?
  {
    match a
    case CallSend(body, write) => SendFrame(s, body, write);
    case StartTimer(_) =>
    case ContinueFlush(results) => FlushLoopFrame(s.(pc := ReportUnsent([])), results);
  }

  lemma SendingSame(s: Socket, a: Action)
    requires s.starting.Some? && !Loads(a) && s.sending.None?
    ensures Step(s, a).sending.None?
  {
    hide DoConnect, DoDisconnect, DoWriteDone, DoRequestTimeout, DoContinue, DoRetry, DoCloseDone, DoHandshake,
         DoReadChunk, DoReadBroken;
    if Enabled(s, a) {
      match a
      case Continue => ContinueSending(s);
      case _ =>
    }
  }

  lemma ContinueSending(s: Socket)
    requires s.sending.None? && s.starting.Some? && Enabled(s, Continue)
    ensures DoContinue(s).sending.None?
  {
    assert !Locks(s.pc);
    hide DoContinue, Enabled;
    match s.pc
    case ReportUnsent(_) => ReportingSending(s);
    case DiscardUnsent(_) => ReportingSending(s);
    case DiscardTimers(_) => ReportingSending(s);
    case DecideRetry => ReportingSending(s);
    case ReadItems(_) => ReadingSending(s);
    case _ => PlainSending(s);
  }

  lemma ReportingSending(s: Socket)
    requires s.sending.None?
    requires s.pc.ReportUnsent? || s.pc.DiscardUnsent? || s.pc.DiscardTimers? || s.pc == DecideRetry
    ensures DoContinue(s).sending.None?
  {
    hide DoReportUnsent, DoDiscardUnsent, DoDiscardTimers, DoDecideRetry;
  }

  lemma ReadingSending(s: Socket)
    requires s.sending.None? && s.pc.ReadItems? && !Locks(s.pc)
    ensures DoContinue(s).sending.None?
  {
    ItemSending(s);
    hide DoReadItem;
  }

  lemma PlainSending(s: Socket)
    requires s.sending.None?
    requires s.pc == IssueClose || s.pc == ConnectCallback || s.pc.ReadError? || s.pc == ReleaseSocket
             || s.pc == DiscardQueue || s.pc == NotifyDisconnect || s.pc == Idle || s.pc == FlushQueue
             || s.pc == RetryConnect
    ensures DoContinue(s).sending.None?
  {
    ClosingSending(s);
    hide DoIssueClose, DoNotify;
  }

  lemma ClosingSending(s: Socket)
    ensures DoIssueClose(s).sending == s.sending && DoNotify(s).sending == s.sending
  {
  }

  lemma ItemSending(s: Socket)
    requires s.sending.None? && s.pc.ReadItems? && (s.pc.items != [] ==> s.pc.items[0] != Undecodable)
    ensures DoReadItem(s, s.pc.items).sending.None?
  {
    hide DoResponse;
    if s.pc.items != [] && s.pc.items[0].InResponse? {
      assert DoReadItem(s, s.pc.items) == DoResponse(s.(pc := ReadItems(s.pc.items[1..])), s.pc.items[0].msgid);
      hide DoReadItem;
    } else if s.pc.items != [] {
      assert DoReadItem(s, s.pc.items) == Emit(s.(pc := ReadItems(s.pc.items[1..])), HandlerMessage);
      hide DoReadItem;
    }
  }

  lemma StepRegistering(s: Socket, a: Action)
    requires Kept(s) && Registering(s) && NoFreedTimerFires(s, a)
    ensures Registering(Step(s, a))
  {
    BooksKeep(s, a);
    if !Loads(a) {
      StepSteady(s, a);
      if s.starting.Some? {
        SendingSame(s, a);
      }
      hide Step, Kept, Book;
    } else if Enabled(s, a) {
      assert Step(s, a) == Next(s, a);
      hide Step, Kept, Registering;
      if a.PushEntry? {
        PushRegistering(s);
      } else {
        SendRegistering(s, a);
        IdleRegistering(Next(s, a));
      }
    }
  }

  lemma IdleRegistering(s: Socket)
    requires s.starting.None?
    ensures Registering(s)
  {
  }
}
