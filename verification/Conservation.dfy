/**
  Nothing accepted is lost and nothing is settled twice: in every interleaving each message the
  engine accepted is either still owed to the handler, in exactly one place, or discharged once.
*/
module Conservation {
  import opened Basics
  import opened Protocol
  import opened Ledger
  import opened Stocks

  /** Messages a loop callback took out of the queue and still has to report. */
  function Unsent(pc: LoopPc): seq<Copy> {
    match pc
    case ReportUnsent(unsent) => unsent
    case DiscardUnsent(unsent) => unsent
    case _ => []
  }

  /** Timer entries OnDisconnect took out of the table and still has to cancel. */
  function Cancelled(pc: LoopPc): seq<Copy> {
    match pc
    case DiscardTimers(entries) => entries
    case _ => []
  }

  function Held(c: Option<Copy>): multiset<Copy> {
    if c.Some? then One(c.value) else multiset{}
  }

  function Queued(s: Socket): multiset<Copy> {
    multiset(s.pending) + multiset(Unsent(s.pc))
  }

  function Timed(s: Socket): multiset<Copy> {
    multiset(s.timers) + multiset(Cancelled(s.pc)) + Held(s.sending)
  }

  function View(s: Socket): Stock {
    Stock(Queued(s), Timed(s), s.inflight, Book(s.trace))
  }

  /** The application does not send a request under the id of one still in play. */
  ghost predicate FreshId(s: Socket, a: Action) {
    a.CallSend? ==> FreshIn(View(s), a.body)
  }

  ghost predicate Kept(s: Socket) {
    Accounted(View(s), s.next)
  }

  // ---- How a section shows in the accounts ----

  lemma ViewEmit(s: Socket, e: Event)
    ensures View(Emit(s, e)) == Note(View(s), e)
  {
    hide Book;
    BookAppend(s.trace, e);
  }

  lemma ViewTwice(s: Socket, e: Event, f: Event)
    ensures View(Emit(Emit(s, e), f)) == Note(Note(View(s), e), f)
  {
    ViewEmit(s, e);
    ViewEmit(Emit(s, e), f);
  }

  predicate SameStock(s: Socket, t: Socket) {
    Queued(t) == Queued(s) && Timed(t) == Timed(s) && t.inflight == s.inflight && t.next == s.next
  }

  /** A section that logs nothing and moves no message. */
  lemma SilentKept(s: Socket, t: Socket)
    requires Kept(s) && SameStock(s, t) && t.trace == s.trace
    ensures Kept(t)
  {
  }

  /** A section that logs one neutral event and moves no message. */
  lemma NeutralKept(s: Socket, t: Socket, e: Event)
    requires Kept(s) && SameStock(s, t) && Neutral(e) && t.trace == s.trace + [e]
    ensures Kept(t)
  {
    hide Book;
    hide Accounted;
    BookAppend(s.trace, e);
    assert View(t) == Note(View(s), e);
    NoteKeeps(View(s), s.next, e);
  }

  /** The messages are where they were, field by field. */
  predicate Unmoved(s: Socket, t: Socket) {
    && t.pending == s.pending && Unsent(t.pc) == Unsent(s.pc) && t.timers == s.timers
    && Cancelled(t.pc) == Cancelled(s.pc) && t.sending == s.sending && t.inflight == s.inflight && t.next == s.next
  }

  lemma StillKept(s: Socket, t: Socket)
    requires Kept(s) && Unmoved(s, t) && t.trace == s.trace
    ensures Kept(t)
  {
    hide Kept, Unsent, Cancelled;
    SilentKept(s, t);
  }

  lemma NotedKept(s: Socket, t: Socket, e: Event)
    requires Kept(s) && Unmoved(s, t) && Neutral(e) && t.trace == s.trace + [e]
    ensures Kept(t)
  {
    hide Kept, Unsent, Cancelled;
    NeutralKept(s, t, e);
  }

  lemma ConnectKept(s: Socket, timeout: nat, dial: Dial, byUser: bool)
    requires Kept(s)
    ensures Kept(DoConnect(s, timeout, dial, byUser))
  {
    hide Kept;
    var t := DoConnect(s, timeout, dial, byUser);
    if s.connectable && s.state == DISCONNECTED && dial.room {
      if dial.status != OK {
        StillKept(s, t);
      } else {
        NotedKept(s, t, Opened(s.epoch + 1, byUser));
      }
    }
  }

  lemma DisconnectKept(s: Socket, handshaking: bool)
    requires Kept(s)
    ensures Kept(DoDisconnect(s, handshaking))
  {
    hide Kept;
    var t := DoDisconnect(s, handshaking);
    if Live(s) {
      NotedKept(s, t, CloseIssued(s.epoch));
    } else {
      StillKept(s, t);
    }
  }

  lemma SendQueuedView(s: Socket, body: Message, write: Error)
    requires s.state == CONNECTING && !body.Invalid?
    ensures View(DoSend(s, body, write)) == Enqueue(View(s), Copy(s.next, body))
    ensures DoSend(s, body, write).next == s.next + 1
  {
    hide Post;
    var c := Copy(s.next, body);
    var q := s.(pending := s.pending + [c]);
    assert View(q.(next := q.next + 1)) == View(s).(queued := View(s).queued + One(c));
    ViewTwice(q.(next := q.next + 1), Allocated(c), Accepted(c, true));
  }

  lemma RefuseView(s: Socket, c: Copy)
    ensures View(Refuse(s, c)) == Reject(View(s), c)
    ensures Refuse(s, c).next == s.next + 1
  {
    hide Post, Book, Queued, Timed;
    AllocateView(s, c);
    ViewEmit(Allocate(s, c), Freed(c));
  }

  lemma SendRejectedView(s: Socket, body: Message, write: Error)
    requires s.state == CONNECTED && !body.Invalid? && write != OK
    ensures View(DoSend(s, body, write)) == Reject(View(s), Copy(s.next, body))
    ensures DoSend(s, body, write).next == s.next + 1
  {
    RefuseView(s, Copy(s.next, body));
    assert DoSend(s, body, write) == Refuse(s, Copy(s.next, body));
    hide Refuse, Reject, View, DoSend;
  }

  lemma WriteNowView(s: Socket, c: Copy)
    requires Unlocked(s)
    ensures View(WriteNow(s, c)) == Track(Note(View(s), Accepted(c, false)), c)
  {
    hide Post;
    var u := s.(sending := if c.body.Request? then Some(c) else s.sending);
    ViewEmit(u, Accepted(c, false));
    var v := Emit(u, Accepted(c, false));
    ViewEmit(v.(inflight := v.inflight + multiset{c}), Written(c));
  }

  lemma AllocateView(s: Socket, c: Copy)
    ensures View(Allocate(s, c)) == Note(View(s), Allocated(c))
    ensures Allocate(s, c).sending == s.sending
  {
    ViewEmit(s.(next := s.next + 1), Allocated(c));
  }

  lemma WriteNowNext(s: Socket, c: Copy)
    ensures WriteNow(Allocate(s, c), c).next == s.next + 1
  {
  }

  lemma SendWrittenView(s: Socket, body: Message)
    requires s.state == CONNECTED && !body.Invalid? && Unlocked(s)
    ensures View(DoSend(s, body, OK)) == Admit(View(s), Copy(s.next, body))
    ensures DoSend(s, body, OK).next == s.next + 1
  {
    hide Post, WriteNow, Allocate, View;
    var c := Copy(s.next, body);
    AllocateView(s, c);
    WriteNowView(Allocate(s, c), c);
    WriteNowNext(s, c);
    assert DoSend(s, body, OK) == WriteNow(Allocate(s, c), c);
  }

  lemma SendQueuedKept(s: Socket, body: Message, write: Error)
    requires Kept(s) && FreshId(s, CallSend(body, write)) && s.state == CONNECTING && !body.Invalid?
    ensures Kept(DoSend(s, body, write))
  {
    hide Accounted, FreshIn, Enqueue, DoSend;
    SendQueuedView(s, body, write);
    EnqueueKeeps(View(s), s.next, body);
  }

  lemma SendRejectedKept(s: Socket, body: Message, write: Error)
    requires Kept(s) && s.state == CONNECTED && !body.Invalid? && write != OK
    ensures Kept(DoSend(s, body, write))
  {
    hide Accounted, Reject, DoSend;
    SendRejectedView(s, body, write);
    RejectKeeps(View(s), s.next, body);
  }

  lemma SendWrittenKept(s: Socket, body: Message)
    requires Kept(s) && FreshId(s, CallSend(body, OK)) && s.state == CONNECTED && !body.Invalid? && Unlocked(s)
    ensures Kept(DoSend(s, body, OK))
  {
    hide Accounted, FreshIn, Admit, DoSend;
    SendWrittenView(s, body);
    AdmitKeeps(View(s), s.next, body);
  }

  lemma SendKept(s: Socket, body: Message, write: Error)
    requires Kept(s) && Unlocked(s) && FreshId(s, CallSend(body, write))
    ensures Kept(DoSend(s, body, write))
  {
    if Live(s) && !body.Invalid? {
      hide Kept, DoSend;
      if s.state == CONNECTING {
        SendQueuedKept(s, body, write);
      } else if write != OK {
        SendRejectedKept(s, body, write);
      } else {
        SendWrittenKept(s, body);
      }
    }
  }

  lemma PushEntryKept(s: Socket)
    requires Kept(s) && s.sending.Some?
    ensures Kept(DoPushEntry(s))
  {
    hide Accounted;
    SilentKept(s, DoPushEntry(s));
  }

  lemma StartTimerKept(s: Socket, timerStarts: bool)
    requires Kept(s) && s.starting.Some?
    ensures Kept(DoStartTimer(s, timerStarts))
  {
    hide Kept;
    StillKept(s, DoStartTimer(s, timerStarts));
  }

  // ---- Loop callbacks ----

  /** The head of the messages to report is reported and its copy freed. */
  lemma ReportKept(s: Socket, t: Socket, c: Copy, cause: Cause)
    requires Kept(s) && !cause.WriteError? && c in Queued(s)
    requires Queued(t) == Queued(s) - One(c) && Timed(t) == Timed(s) && t.inflight == s.inflight && t.next == s.next
    requires t.trace == s.trace
    ensures Kept(Emit(Emit(t, Failed(c, cause)), Freed(c)))
  {
    hide Accounted, Post, Queued, Timed;
    ViewTwice(t, Failed(c, cause), Freed(c));
    assert View(t) == View(s).(queued := View(s).queued - One(c));
    DropKeeps(View(s), s.next, c, cause);
  }

  lemma ReportUnsentHead(s: Socket)
    requires Kept(s) && s.pc.ReportUnsent? && s.pc.unsent != []
    ensures Kept(DoReportUnsent(s, s.pc.unsent))
  {
    hide Accounted;
    HeadMultiset(s.pc.unsent);
    var t := s.(pc := ReportUnsent(s.pc.unsent[1..]));
    assert Queued(t) == Queued(s) - One(s.pc.unsent[0]);
    ReportKept(s, t, s.pc.unsent[0], NotSent);
  }

  lemma ReportUnsentKept(s: Socket)
    requires Kept(s) && s.pc.ReportUnsent?
    ensures Kept(DoReportUnsent(s, s.pc.unsent))
  {
    hide Accounted;
    if s.pc.unsent == [] {
      SilentKept(s, DoReportUnsent(s, s.pc.unsent));
    } else {
      hide *;
      ReportUnsentHead(s);
    }
  }

  lemma DiscardUnsentHead(s: Socket)
    requires Kept(s) && s.pc.DiscardUnsent? && s.pc.unsent != []
    ensures Kept(DoDiscardUnsent(s, s.pc.unsent))
  {
    hide Accounted;
    HeadMultiset(s.pc.unsent);
    var t := s.(pc := DiscardUnsent(s.pc.unsent[1..]));
    assert Queued(t) == Queued(s) - One(s.pc.unsent[0]);
    ReportKept(s, t, s.pc.unsent[0], Discarded(s.closing));
  }

  lemma DiscardUnsentKept(s: Socket)
    requires Kept(s) && s.pc.DiscardUnsent?
    ensures Kept(DoDiscardUnsent(s, s.pc.unsent))
  {
    if s.pc.unsent == [] {
      hide *;
      TableTaken(s);
    } else {
      hide *;
      DiscardUnsentHead(s);
    }
  }

  /** The entries of the table are taken to be cancelled. */
  lemma TableTaken(s: Socket)
    requires Kept(s) && s.pc.DiscardUnsent? && s.pc.unsent == []
    ensures Kept(DoDiscardUnsent(s, s.pc.unsent))
  {
    hide Accounted;
    SilentKept(s, s.(pc := DiscardTimers(s.timers), timers := []));
  }

  /** A RequestTimer is deleted and its request reported, in either order. */
  lemma SettleKept(s: Socket, t: Socket, c: Copy, e: Event)
    requires Kept(s) && Settles(e, c) && c in Timed(s)
    requires Queued(t) == Queued(s) && Timed(t) == Timed(s) - One(c) && t.inflight == s.inflight && t.next == s.next
    requires t.trace == s.trace
    ensures Kept(Emit(Emit(t, TimerFreed(c)), e))
    ensures Kept(Emit(Emit(t, e), TimerFreed(c)))
  {
    hide Accounted, Queued, Timed, Settles, Post;
    ViewTwice(t, TimerFreed(c), e);
    ViewTwice(t, e, TimerFreed(c));
    assert View(t) == View(s).(timed := View(s).timed - One(c));
    SettleCommutes(View(t), c, e);
    SettleKeeps(View(s), s.next, c, e);
  }

  lemma DiscardTimersHead(s: Socket)
    requires Kept(s) && s.pc.DiscardTimers? && s.pc.entries != []
    ensures Kept(DoDiscardTimers(s, s.pc.entries))
  {
    hide Kept, Queued, Timed;
    var c := s.pc.entries[0];
    var t := s.(pc := DiscardTimers(s.pc.entries[1..]), armed := s.armed - {c});
    HeadCancelled(s, t);
    SettleKept(s, t, c, Failed(c, Discarded(s.closing)));
  }

  lemma HeadCancelled(s: Socket, t: Socket)
    requires s.pc.DiscardTimers? && s.pc.entries != []
    requires t == s.(pc := DiscardTimers(s.pc.entries[1..]), armed := t.armed)
    ensures Queued(t) == Queued(s) && Timed(t) == Timed(s) - One(s.pc.entries[0]) && s.pc.entries[0] in Timed(s)
  {
    HeadMultiset(s.pc.entries);
  }

  /** An entry is taken out of the table. */
  lemma EntryTaken(s: Socket, t: Socket, i: nat)
    requires i < |s.timers| && t == s.(timers := RemoveAt(s.timers, i), armed := t.armed)
    ensures Queued(t) == Queued(s) && Timed(t) == Timed(s) - One(s.timers[i]) && s.timers[i] in Timed(s)
  {
    RemoveAtMultiset(s.timers, i);
  }

  lemma DiscardTimersKept(s: Socket)
    requires Kept(s) && s.pc.DiscardTimers?
    ensures Kept(DoDiscardTimers(s, s.pc.entries))
  {
    hide Accounted;
    if s.pc.entries == [] {
      SilentKept(s, DoDiscardTimers(s, s.pc.entries));
    } else {
      hide *;
      DiscardTimersHead(s);
    }
  }

  lemma ResponseKept(s: Socket, msgid: nat)
    requires Kept(s)
    ensures Kept(DoResponse(s, msgid))
  {
    hide Kept;
    var i := IndexOf(s.timers, msgid);
    if i < |s.timers| {
      var t := s.(timers := RemoveAt(s.timers, i), armed := s.armed - {s.timers[i]});
      AnsweredSettles(s, t, i);
    }
  }

  lemma AnsweredSettles(s: Socket, t: Socket, i: nat)
    requires Kept(s) && i < |s.timers| && t == s.(timers := RemoveAt(s.timers, i), armed := t.armed)
    ensures Kept(Emit(Emit(t, TimerFreed(s.timers[i])), Answered(s.timers[i])))
  {
    hide Kept, Queued, Timed;
    EntryTaken(s, t, i);
    SettleKept(s, t, s.timers[i], Answered(s.timers[i]));
  }

  /** The first entry with the id of a request in play is the entry of that request. */
  lemma EntryIsOwn(s: Socket, c: Copy)
    requires Kept(s) && InPlay(View(s), c)
    requires IndexOf(s.timers, c.body.msgid) < |s.timers|
    ensures s.timers[IndexOf(s.timers, c.body.msgid)] == c
  {
    var e := s.timers[IndexOf(s.timers, c.body.msgid)];
    assert e in multiset(s.timers);
    assert InPlay(View(s), e);
  }

  lemma EntryFound(entries: seq<Copy>, c: Copy)
    requires c in entries && c.body.Request?
    ensures IndexOf(entries, c.body.msgid) < |entries|
  {
    assert Answers(c, c.body.msgid);
  }

  lemma RequestTimeoutKept(s: Socket, c: Copy)
    requires Kept(s) && c in s.timers
    ensures Kept(DoRequestTimeout(s, c))
  {
    TimedEntry(s, c);
    var i := IndexOf(s.timers, c.body.msgid);
    var t := s.(timers := RemoveAt(s.timers, i), armed := s.armed - {c});
    TimeoutShape(s, t, c);
    hide Kept, DoRequestTimeout;
    TimedOutSettles(s, t, c);
  }

  lemma TimedOutSettles(s: Socket, t: Socket, c: Copy)
    requires Kept(s) && c.body.Request?
    requires IndexOf(s.timers, c.body.msgid) < |s.timers| && s.timers[IndexOf(s.timers, c.body.msgid)] == c
    requires t == s.(timers := RemoveAt(s.timers, IndexOf(s.timers, c.body.msgid)), armed := t.armed)
    ensures Kept(Emit(Emit(t, Failed(c, TimedOut)), TimerFreed(c)))
  {
    hide Kept, Queued, Timed;
    EntryTaken(s, t, IndexOf(s.timers, c.body.msgid));
    SettleKept(s, t, c, Failed(c, TimedOut));
  }

  lemma TimeoutShape(s: Socket, t: Socket, c: Copy)
    requires c.body.Request? && IndexOf(s.timers, c.body.msgid) < |s.timers|
    requires t == s.(timers := RemoveAt(s.timers, IndexOf(s.timers, c.body.msgid)), armed := s.armed - {c})
    ensures DoRequestTimeout(s, c) == Emit(Emit(t, Failed(c, TimedOut)), TimerFreed(c))
  {
  }

  /** A request with an entry is found under its id. */
  lemma TimedEntry(s: Socket, c: Copy)
    requires Kept(s) && c in s.timers
    ensures c.body.Request? && IndexOf(s.timers, c.body.msgid) < |s.timers|
    ensures s.timers[IndexOf(s.timers, c.body.msgid)] == c
  {
    assert c in multiset(s.timers);
    assert Timed(s)[c] > 0;
    TimedAreRequests(s, c);
    EntryFound(s.timers, c);
    EntryIsOwn(s, c);
  }

  lemma TimedAreRequests(s: Socket, c: Copy)
    requires Kept(s) && c in Timed(s)
    ensures c.body.Request?
  {
    var k := View(s);
    assert (k.timed + k.books.timersFreed)[c] > 0;
  }

  /** A copy that libtv gives back after its section settled whatever it settles. */
  lemma ReleaseKept(s: Socket, t: Socket, c: Copy)
    requires Kept(s) && c in s.inflight
    requires Queued(t) == Queued(s) && Timed(t) == Timed(s) && t.inflight == s.inflight - One(c) && t.next == s.next
    requires t.trace == s.trace
    ensures Kept(Emit(t, Freed(c)))
  {
    hide Accounted, Post, Queued, Timed;
    ViewEmit(t, Freed(c));
    assert View(t) == View(s).(inflight := s.inflight - One(c));
    ReleaseKeeps(View(s), s.next, c);
  }

  lemma WriteDoneKept(s: Socket, c: Copy, status: Error)
    requires Kept(s) && c in s.inflight
    ensures Kept(DoWriteDone(s, c, status))
  {
    hide Accounted;
    var t := s.(inflight := s.inflight - multiset{c});
    var i := if c.body.Request? then IndexOf(s.timers, c.body.msgid) else |s.timers|;
    if status == OK {
      ReleaseKept(s, t, c);
    } else if i == |s.timers| {
      var u := Emit(s, Failed(c, WriteError(false)));
      NeutralKept(s, u, Failed(c, WriteError(false)));
      ReleaseKept(u, Emit(t, Failed(c, WriteError(false))), c);
    } else {
      MatchedWriteKept(s, c, status);
    }
  }

  lemma MatchedSettle(s: Socket, c: Copy, i: nat)
    requires Kept(s) && i < |s.timers| && s.timers[i] == c
    ensures Kept(Emit(Emit(s.(timers := RemoveAt(s.timers, i), armed := s.armed - {c}), TimerFreed(c)),
                      Failed(c, WriteError(true))))
  {
    hide Kept, Queued, Timed;
    var t := s.(timers := RemoveAt(s.timers, i), armed := s.armed - {c});
    EntryTaken(s, t, i);
    SettleKept(s, t, c, Failed(c, WriteError(true)));
  }

  lemma MatchedShape(s: Socket, c: Copy, status: Error, i: nat)
    requires c.body.Request? && status != OK
    requires i == IndexOf(s.timers, c.body.msgid) < |s.timers| && s.timers[i] == c
    ensures var u := Emit(Emit(s.(timers := RemoveAt(s.timers, i), armed := s.armed - {c}), TimerFreed(c)),
                          Failed(c, WriteError(true)));
            DoWriteDone(s, c, status) == Emit(u.(inflight := s.inflight - multiset{c}), Freed(c))
  {
  }

  lemma MatchedWriteKept(s: Socket, c: Copy, status: Error)
    requires Kept(s) && c in s.inflight && c.body.Request? && status != OK
    requires IndexOf(s.timers, c.body.msgid) < |s.timers|
    ensures Kept(DoWriteDone(s, c, status))
  {
    EntryIsOwn(s, c);
    hide Kept, DoWriteDone;
    var i := IndexOf(s.timers, c.body.msgid);
    MatchedShape(s, c, status, i);
    MatchedSettle(s, c, i);
    var u := Emit(Emit(s.(timers := RemoveAt(s.timers, i), armed := s.armed - {c}), TimerFreed(c)),
                  Failed(c, WriteError(true)));
    MatchedRelease(u, c);
  }

  lemma MatchedRelease(u: Socket, c: Copy)
    requires Kept(u) && c in u.inflight
    ensures Kept(Emit(u.(inflight := u.inflight - multiset{c}), Freed(c)))
  {
    hide Accounted;
    ReleaseKept(u, u.(inflight := u.inflight - multiset{c}), c);
  }

  // ---- Flushing the queue ----

  lemma SendQueuedFlush(s: Socket, t: Socket, c: Copy, timerStarts: bool)
    requires Queued(t) == Queued(s) - One(c) && Timed(t) == Timed(s) && t.inflight == s.inflight && t.trace == s.trace
    ensures View(SendQueued(t, c, timerStarts)) == Flush(View(s), c)
  {
    hide Post;
    var u := if c.body.Request? then Register(t, c, timerStarts) else t;
    ViewEmit(u.(inflight := u.inflight + multiset{c}), Written(c));
    assert Timed(u) == if c.body.Request? then Timed(s) + One(c) else Timed(s);
  }

  lemma FlushWrittenKept(s: Socket, r: WriteResult)
    requires Kept(s) && s.pc.ReportUnsent? && s.pending != [] && s.state == CONNECTED && r.status == OK
    ensures Kept(FlushOne(s, r))
  {
    hide Accounted, Flush, SendQueued;
    var c := s.pending[0];
    var t := s.(pending := s.pending[1..]);
    HeadMultiset(s.pending);
    assert Queued(t) == Queued(s) - One(c);
    SendQueuedFlush(s, t, c, r.timerStarts);
    FlushKeeps(View(s), s.next, c);
  }

  lemma FlushUnsentKept(s: Socket, r: WriteResult)
    requires Kept(s) && s.pc.ReportUnsent? && s.pending != []
    requires s.state != CONNECTED || r.status != OK
    ensures Kept(FlushOne(s, r))
  {
    hide Accounted;
    HeadMultiset(s.pending);
    SilentKept(s, FlushOne(s, r));
  }

  lemma {:induction false} FlushLoopKept(s: Socket, results: seq<WriteResult>)
    requires Kept(s) && s.pc.ReportUnsent? && |results| == |s.pending|
    ensures Kept(FlushLoop(s, results))
    decreases |results|
  {
    hide Kept, FlushOne;
    if results != [] {
      if s.state != CONNECTED || results[0].status != OK {
        FlushUnsentKept(s, results[0]);
      } else {
        FlushWrittenKept(s, results[0]);
      }
      FlushLoopKept(FlushOne(s, results[0]), results[1..]);
    }
  }

  lemma FlushKept(s: Socket, results: seq<WriteResult>)
    requires Kept(s) && s.pc == FlushQueue && |results| == |s.pending|
    ensures Kept(DoFlush(s, results))
  {
    hide Accounted;
    SilentKept(s, s.(pc := ReportUnsent([])));
    FlushLoopKept(s.(pc := ReportUnsent([])), results);
  }

  // ---- Every step, every run ----

  lemma MessageKept(s: Socket)
    requires Kept(s)
    ensures Kept(Emit(s, HandlerMessage))
  {
    hide Kept;
    NotedKept(s, Emit(s, HandlerMessage), HandlerMessage);
  }

  lemma ReadItemKept(s: Socket)
    requires Kept(s) && s.pc.ReadItems?
    ensures Kept(DoReadItem(s, s.pc.items))
  {
    hide Kept, DoDisconnect, DoResponse;
    MoveOnKept(s, Idle);
    if s.pc.items != [] {
      MoveOnKept(s, ReadItems(s.pc.items[1..]));
      var t := s.(pc := ReadItems(s.pc.items[1..]));
      match s.pc.items[0]
      case InRequest => MessageKept(t);
      case InNotify => MessageKept(t);
      case InResponse(msgid) => ResponseKept(t, msgid);
      case Undecodable => DisconnectKept(s.(pc := Idle), false);
    }
  }

  lemma ConnectLockKept(s: Socket, status: Error)
    requires Kept(s) && s.pc.ConnectLock?
    ensures Kept(DoConnectLock(s, status))
  {
    hide Kept;
    if s.state != CONNECTING {
      StillKept(s, DoConnectLock(s, status));
    } else {
      ConnectingLockKept(s, status);
    }
  }

  lemma ConnectingLockKept(s: Socket, status: Error)
    requires Kept(s) && s.pc.ConnectLock? && s.state == CONNECTING
    ensures Kept(DoConnectLock(s, status))
  {
    hide Kept;
    NotedKept(s, DoConnectLock(s, status),
                if status != OK then TransportFailed(s.epoch, status) else HandlerConnect(s.epoch));
  }

  lemma DecideRetryKept(s: Socket)
    requires Kept(s) && s.pc == DecideRetry
    ensures Kept(DoDecideRetry(s))
  {
    hide Kept, CheckRetryAuth;
    MoveOnKept(s, DiscardQueue);
    MoveOnKept(s, RetryConnect);
    if s.connectable && s.kind.WS? && s.lastError != EWS {
      UnavailableKept(s);
    }
  }

  lemma UnavailableKept(s: Socket)
    requires Kept(s) && s.pc == DecideRetry
    ensures Kept(s.(ws := s.ws.(code := WS_SERVICE_UNAVAILABLE), pc := DiscardQueue))
  {
    hide Kept;
    StillKept(s, s.(ws := s.ws.(code := WS_SERVICE_UNAVAILABLE), pc := DiscardQueue));
  }

  lemma QuietKept(s: Socket)
    requires Kept(s)
    ensures s.pc == ConnectCallback ==> Kept(DoConnectReturned(s))
    ensures s.pc == DiscardQueue ==> Kept(s.(pc := DiscardUnsent(s.pending), pending := []))
  {
    hide Kept;
    if s.pc == ConnectCallback {
      StillKept(s, DoConnectReturned(s));
    } else if s.pc == DiscardQueue {
      SilentKept(s, s.(pc := DiscardUnsent(s.pending), pending := []));
    }
  }

  lemma ContinueKept(s: Socket)
    requires Kept(s)
    ensures Kept(DoContinue(s))
  {
    hide Kept, DoConnectLock, DoReportUnsent, DoDisconnect, DoReadItem, DoDiscardUnsent, DoDiscardTimers, DoDecideRetry;
    match s.pc
    case ConnectLock(status) => ConnectLockKept(s, status);
    case IssueClose => IssueCloseKept(s);
    case ReportUnsent(_) => ReportUnsentKept(s);
    case HandshakeFailed =>
      MoveOnKept(s, Idle);
      DisconnectKept(s.(pc := Idle), true);
    case ReadItems(_) => ReadItemKept(s);
    case ReadFailed(error) =>
      MoveOnKept(s, ReadError(error));
      DisconnectKept(s.(pc := ReadError(error)), s.handshaking);
    case DiscardUnsent(_) => DiscardUnsentKept(s);
    case DiscardTimers(_) => DiscardTimersKept(s);
    case NotifyDisconnect => NotifyKept(s);
    case Idle =>
    case FlushQueue =>
    case RetryConnect =>
    case ConnectCallback => QuietKept(s);
    case ReadError(error) => StillKept(s, s.(lastError := error, pc := Idle));
    case ReleaseSocket => StillKept(s, s.(inPool := false, pc := DecideRetry));
    case DecideRetry => DecideRetryKept(s);
    case DiscardQueue => QuietKept(s);
  }

  lemma MoveOnKept(s: Socket, pc: LoopPc)
    requires Kept(s) && Unsent(pc) == Unsent(s.pc) && Cancelled(pc) == Cancelled(s.pc)
    ensures Kept(s.(pc := pc))
  {
    hide Kept;
    StillKept(s, s.(pc := pc));
  }

  lemma IssueCloseKept(s: Socket)
    requires Kept(s) && s.pc == IssueClose
    ensures Kept(DoIssueClose(s))
  {
    hide Kept;
    NotedKept(s, DoIssueClose(s), CloseIssued(s.epoch));
  }

  lemma NotifyKept(s: Socket)
    requires Kept(s) && s.pc == NotifyDisconnect
    ensures Kept(DoNotify(s))
  {
    hide Kept;
    NotedKept(s, DoNotify(s), if s.handshaking then Suppressed(s.closing)
        else HandlerDisconnect(s.closing, s.lastError));
  }

  lemma RetryKept(s: Socket, dial: Dial)
    requires Kept(s) && s.pc == RetryConnect
    ensures Kept(DoRetry(s, dial))
  {
    hide Kept;
    var t := Emit(s.(pc := Idle), CloseRetried(s.closing));
    NotedKept(s, t, CloseRetried(s.closing));
    ConnectKept(t, s.connectTimeout, dial, false);
  }

  lemma CloseDoneKept(s: Socket)
    requires Kept(s) && s.pc == Idle
    ensures Kept(DoCloseDone(s))
  {
    hide Kept;
    if s.state == DISCONNECTED {
      NotedKept(s, DoCloseDone(s), Closed(s.epoch));
    } else {
      NotedKept(s, DoCloseDone(s), Closed(s.epoch));
    }
  }

  lemma LoopEntryKept(s: Socket, a: Action)
    requires Kept(s) && s.pc == Idle && Enabled(s, a)
    requires a.ConnectDone? || a.ConnectTimeout? || a.HandshakeDone? || a.ReadChunk?
    ensures Kept(Next(s, a))
  {
    hide Kept, Enabled, DoHandshake, DoReadChunk, TakeReply;
    match a
    case ConnectDone(status, reply) =>
      ReplyKept(s, s.(dialing := false, pc := ConnectLock(status)), reply);
    case ConnectTimeout(reply) =>
      ReplyKept(s, s.(connectTimer := false, pc := ConnectLock(ETIMEDOUT)), reply);
    case HandshakeDone(_) => HandshakeKept(s, a.status);
    case ReadChunk(items) => ReadChunkKept(s, items);
  }

  lemma ReplyKept(s: Socket, t: Socket, reply: Reply)
    requires Kept(s) && s.pc == Idle && t.pc.ConnectLock?
    requires t == s.(dialing := t.dialing, connectTimer := t.connectTimer, pc := t.pc)
    ensures Kept(TakeReply(t, reply))
  {
    hide Kept, ReplyContext;
    StillKept(s, TakeReply(t, reply));
  }

  lemma HandshakeKept(s: Socket, status: Error)
    requires Kept(s) && s.pc == Idle
    ensures Kept(DoHandshake(s, status))
  {
    hide Kept;
    if status != OK {
      StillKept(s, DoHandshake(s, status));
    } else {
      StillKept(s, DoHandshake(s, status));
    }
  }

  lemma ReadChunkKept(s: Socket, items: seq<Item>)
    requires Kept(s) && s.pc == Idle
    ensures Kept(DoReadChunk(s, items))
  {
    hide Kept;
    if Live(s) {
      StillKept(s, DoReadChunk(s, items));
    }
  }

  lemma ReadBrokenKept(s: Socket, error: Error)
    requires Kept(s) && s.pc == Idle
    ensures Kept(DoReadBroken(s, error))
  {
    hide Kept;
    if Live(s) {
      NotedKept(s, DoReadBroken(s, error), TransportFailed(s.epoch, error));
    }
  }

  lemma NextKept(s: Socket, a: Action)
    requires Kept(s) && FreshId(s, a) && Enabled(s, a)
    requires a.RequestTimeout? ==> a.copy in s.timers
    ensures Kept(Next(s, a))
  {
    hide Kept, DoConnect, DoDisconnect, DoSend, DoPushEntry, DoStartTimer, DoWriteDone, DoRequestTimeout, DoCloseDone,
         DoContinue, DoFlush, DoRetry, DoReadBroken, DoReadChunk, DoHandshake, TakeReply;
    match a
    case CallConnect(timeout, dial) => ConnectKept(s, timeout, dial, true);
    case CallDisconnect => DisconnectKept(s, false);
    case CallSend(body, write) => SendKept(s, body, write);
    case PushEntry => PushEntryKept(s);
    case StartTimer(timerStarts) => StartTimerKept(s, timerStarts);
    case ConnectDone(_, _) => LoopEntryKept(s, a);
    case ConnectTimeout(_) => LoopEntryKept(s, a);
    case HandshakeDone(_) => LoopEntryKept(s, a);
    case ReadChunk(_) => LoopEntryKept(s, a);
    case ReadBroken(error) => ReadBrokenKept(s, error);
    case WriteDone(c, status) => WriteDoneKept(s, c, status);
    case RequestTimeout(c) => RequestTimeoutKept(s, c);
    case CloseDone => CloseDoneKept(s);
    case Continue => ContinueKept(s);
    case ContinueFlush(results) => FlushKept(s, results);
    case ContinueRetry(dial) => RetryKept(s, dial);
  }

  lemma StepKept(s: Socket, a: Action)
    requires Kept(s) && FreshId(s, a)
    requires a.RequestTimeout? && Enabled(s, a) ==> a.copy in s.timers
    ensures Kept(Step(s, a))
  {
    hide Kept, Next, Enabled;
    if Enabled(s, a) {
      NextKept(s, a);
    }
  }
}
