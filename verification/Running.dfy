/**
  The timers that run: between callbacks, and with no Send under way, a request with an entry has its timer
  armed if and only if the start of that timer succeeded, by Send or by the flush of the queue.
*/
module Running {
  import opened Basics
  import opened Protocol
  import opened Ledger
  import opened Stocks
  import opened Conservation
  import opened Timers
  import opened Frames
  import opened Lifecycle
  import opened Ownership
  import opened Delivery
  import opened Registration
  import opened Responses

  /** Of the queue, the requests that are written and whose timer starts. */
  function FlushStarts(q: seq<Copy>, results: seq<WriteResult>, up: bool): set<Copy>
    requires |results| == |q|
  {
    if q == [] then {}
    else
      (if up && results[0].status == OK && q[0].body.Request? && results[0].timerStarts then {q[0]} else {})
      + FlushStarts(q[1..], results[1..], up)
  }

  /** The copies whose timer an action starts. */
  function Starts(s: Socket, a: Action): set<Copy> {
    if !Enabled(s, a) then {}
    else
      match a
      case StartTimer(timerStarts) => if timerStarts then {s.starting.value} else {}
      case ContinueFlush(results) => FlushStarts(s.pending, results, s.state == CONNECTED)
      case _ => {}
  }

  function AllStarts(s: Socket, run: seq<Action>, started: set<Copy>): set<Copy>
    decreases |run|
  {
    if run == [] then started else AllStarts(Step(s, run[0]), run[1..], started + Starts(s, run[0]))
  }

  ghost predicate Ticking(s: Socket, started: set<Copy>) {
    && (forall c :: c in started || c in s.armed ==> c in Book(s.trace).requests)
    && (s.sending.Some? ==> s.sending.value !in started)
    && (s.starting.Some? ==> s.starting.value !in started)
    && (forall c :: c in s.timers ==> (c in s.armed <==> c in started))
  }

  /** Entries may go, and with them what is armed; no timer starts, and no entry comes. */
  predicate Thins(s: Socket, t: Socket) {
    && (forall c :: c in t.timers ==> c in s.timers && (c in t.armed <==> c in s.armed))
    && t.armed <= s.armed && t.sending == s.sending && t.starting == s.starting
  }

  predicate SameTimers(s: Socket, t: Socket) {
    t.timers == s.timers && t.armed == s.armed && t.sending == s.sending && t.starting == s.starting
  }

  lemma ThinsTicking(s: Socket, t: Socket, started: set<Copy>)
    requires Ticking(s, started) && Thins(s, t) && Book(s.trace).requests <= Book(t.trace).requests
    ensures Ticking(t, started)
  {
    hide Book;
  }

  // ---- Sections that start no timer ----

  lemma RemovedThins(s: Socket, t: Socket, i: nat)
    requires Kept(s) && i < |s.timers| && t.timers == RemoveAt(s.timers, i) && t.armed == s.armed - {s.timers[i]}
    requires t.sending == s.sending && t.starting == s.starting
    ensures Thins(s, t)
  {
    hide Kept;
    EntryOnce(s, s.timers[i], i);
    RemovedWere(s.timers, i);
    hide RemoveAt;
  }

  lemma RemovedWere(entries: seq<Copy>, i: nat)
    requires i < |entries|
    ensures forall c :: c in RemoveAt(entries, i) ==> c in entries
  {
  }

  lemma MatchedThins(s: Socket, c: Copy, status: Error)
    requires Kept(s) && status != OK && c.body.Request? && IndexOf(s.timers, c.body.msgid) < |s.timers|
    ensures Thins(s, DoWriteDone(s, c, status))
  {
    hide Kept, Thins, DoWriteDone;
    MatchedArmed(s, c, status);
    MatchedTimers(s, c, status);
    RemovedThins(s, DoWriteDone(s, c, status), IndexOf(s.timers, c.body.msgid));
  }

  lemma WriteDoneThins(s: Socket, c: Copy, status: Error)
    requires Kept(s)
    ensures Thins(s, DoWriteDone(s, c, status))
  {
    hide Kept, Thins, DoWriteDone;
    if status != OK && c.body.Request? && IndexOf(s.timers, c.body.msgid) < |s.timers| {
      MatchedThins(s, c, status);
    } else {
      UnmatchedThins(s, c, status);
    }
  }

  lemma UnmatchedThins(s: Socket, c: Copy, status: Error)
    requires !(status != OK && c.body.Request? && IndexOf(s.timers, c.body.msgid) < |s.timers|)
    ensures Thins(s, DoWriteDone(s, c, status))
  {
    hide DoWriteDone;
    UnmatchedArmed(s, c, status);
    UnmatchedTimers(s, c, status);
  }

  lemma RequestTimeoutThins(s: Socket, c: Copy)
    requires Kept(s) && c in s.timers
    ensures Thins(s, DoRequestTimeout(s, c))
  {
    hide Kept, Thins, DoRequestTimeout;
    TimedEntry(s, c);
    TimeoutTimers(s, c);
    RemovedThins(s, DoRequestTimeout(s, c), IndexOf(s.timers, c.body.msgid));
  }

  lemma ResponseThins(s: Socket, msgid: nat)
    requires Kept(s)
    ensures Thins(s, DoResponse(s, msgid))
  {
    hide Kept, DoResponse;
    if IndexOf(s.timers, msgid) < |s.timers| {
      hide Thins;
      MatchedResponse(s, msgid);
      RemovedThins(s, DoResponse(s, msgid), IndexOf(s.timers, msgid));
    } else {
      UnmatchedResponse(s, msgid);
    }
  }

  lemma MatchedResponse(s: Socket, msgid: nat)
    requires IndexOf(s.timers, msgid) < |s.timers|
    ensures DoResponse(s, msgid).timers == RemoveAt(s.timers, IndexOf(s.timers, msgid))
    ensures DoResponse(s, msgid).armed == s.armed - {s.timers[IndexOf(s.timers, msgid)]}
  {
  }

  lemma UnmatchedResponse(s: Socket, msgid: nat)
    requires IndexOf(s.timers, msgid) == |s.timers|
    ensures DoResponse(s, msgid) == s
  {
  }

  lemma DisconnectSame(s: Socket, handshaking: bool)
    ensures SameTimers(s, DoDisconnect(s, handshaking))
  {
    if Live(s) {} else {}
  }

  lemma ConnectSame(s: Socket, timeout: nat, dial: Dial, byUser: bool)
    ensures SameTimers(s, DoConnect(s, timeout, dial, byUser))
  {
  }

  lemma RetrySame(s: Socket, dial: Dial)
    ensures SameTimers(s, DoRetry(s, dial))
  {
    hide DoConnect;
    ConnectSame(Emit(s.(pc := Idle), CloseRetried(s.closing)), s.connectTimeout, dial, false);
  }

  lemma ConnectLockSame(s: Socket, status: Error)
    ensures SameTimers(s, DoConnectLock(s, status))
  {
    if s.state != CONNECTING {
    } else if status != OK {
    } else {
    }
  }

  lemma ReadItemThins(s: Socket)
    requires Kept(s) && s.pc.ReadItems?
    ensures Thins(s, DoReadItem(s, s.pc.items))
  {
    hide Kept, Thins, DoResponse, DoDisconnect;
    if s.pc.items == [] {
      MovedThins(s, Idle, s.(pc := Idle));
    } else {
      var pc := ReadItems(s.pc.items[1..]);
      match s.pc.items[0]
      case InRequest => MovedThins(s, pc, Emit(s.(pc := pc), HandlerMessage));
      case InNotify => MovedThins(s, pc, Emit(s.(pc := pc), HandlerMessage));
      case InResponse(msgid) => MovedResponseThins(s, pc, msgid);
      case Undecodable => FailingThins(s, Idle, false);
    }
  }

  lemma MovedThins(s: Socket, pc: LoopPc, t: Socket)
    requires t == s.(pc := pc, trace := t.trace)
    ensures Thins(s, t)
  {
  }

  lemma MovedResponseThins(s: Socket, pc: LoopPc, msgid: nat)
    requires Kept(s) && Unsent(pc) == Unsent(s.pc) && Cancelled(pc) == Cancelled(s.pc)
    ensures Thins(s, DoResponse(s.(pc := pc), msgid))
  {
    hide Kept, DoResponse;
    MoveOnKept(s, pc);
    ResponseThins(s.(pc := pc), msgid);
  }

  lemma FailingThins(s: Socket, pc: LoopPc, handshaking: bool)
    ensures Thins(s, DoDisconnect(s.(pc := pc), handshaking))
  {
    hide DoDisconnect;
    DisconnectSame(s.(pc := pc), handshaking);
  }

  lemma ClosingThins(s: Socket)
    requires Kept(s) && (s.pc.ConnectLock? || s.pc == HandshakeFailed || s.pc.ReadFailed? || s.pc.ReadItems?)
    ensures Thins(s, DoContinue(s))
  {
    hide Kept, DoConnectLock, DoDisconnect, DoReadItem;
    match s.pc
    case ConnectLock(status) => ConnectLockSame(s, status);
    case HandshakeFailed => FailingThins(s, Idle, true);
    case ReadFailed(error) => FailingThins(s, ReadError(error), s.handshaking);
    case ReadItems(_) => ReadItemThins(s);
  }

  lemma DiscardTimersThins(s: Socket, entries: seq<Copy>)
    requires s.timers == []
    ensures Thins(s, DoDiscardTimers(s, entries))
  {
  }

  lemma DiscardUnsentThins(s: Socket, unsent: seq<Copy>)
    ensures Thins(s, DoDiscardUnsent(s, unsent))
  {
    if unsent == [] {} else {}
  }

  lemma ReportingThins(s: Socket)
    requires Drained(s)
    requires s.pc.ReportUnsent? || s.pc.DiscardUnsent? || s.pc.DiscardTimers? || s.pc == DecideRetry
    ensures Thins(s, DoContinue(s))
  {
    hide DoReportUnsent, DoDiscardUnsent, DoDiscardTimers, DoDecideRetry;
    match s.pc
    case DiscardUnsent(unsent) => DiscardUnsentThins(s, unsent);
    case DiscardTimers(entries) => DiscardTimersThins(s, entries);
    case _ =>
  }

  lemma PlainThins(s: Socket)
    requires s.pc == IssueClose || s.pc == ConnectCallback || s.pc.ReadError? || s.pc == ReleaseSocket
             || s.pc == DiscardQueue || s.pc == NotifyDisconnect
    ensures Thins(s, DoContinue(s))
  {
  }

  lemma ContinueThins(s: Socket)
    requires Kept(s) && Drained(s) && Enabled(s, Continue)
    ensures Thins(s, DoContinue(s))
  {
    hide Kept, Drained, Thins, DoContinue;
    match s.pc
    case ConnectLock(_) => ClosingThins(s);
    case HandshakeFailed => ClosingThins(s);
    case ReadFailed(_) => ClosingThins(s);
    case ReadItems(_) => ClosingThins(s);
    case ReportUnsent(_) => ReportingThins(s);
    case DiscardUnsent(_) => ReportingThins(s);
    case DiscardTimers(_) => ReportingThins(s);
    case DecideRetry => ReportingThins(s);
    case _ => PlainThins(s);
  }

  lemma EntrySame(s: Socket, a: Action)
    requires Enabled(s, a)
    requires a.ConnectDone? || a.ConnectTimeout? || a.HandshakeDone? || a.ReadChunk? || a.ReadBroken? || a.CloseDone?
    ensures SameTimers(s, Next(s, a))
  {
    hide ReplyContext, DoHandshake, DoReadChunk, DoReadBroken, DoCloseDone;
    match a
    case HandshakeDone(status) => HandshakeSame(s, status);
    case ReadChunk(items) => ReadSame(s, items, OK);
    case ReadBroken(error) => ReadSame(s, [], error);
    case CloseDone => CloseDoneSame(s);
    case _ =>
  }

  lemma HandshakeSame(s: Socket, status: Error)
    ensures SameTimers(s, DoHandshake(s, status))
  {
    if status != OK {} else {}
  }

  lemma ReadSame(s: Socket, items: seq<Item>, error: Error)
    ensures SameTimers(s, DoReadChunk(s, items)) && SameTimers(s, DoReadBroken(s, error))
  {
    if Live(s) {} else {}
  }

  lemma CloseDoneSame(s: Socket)
    ensures SameTimers(s, DoCloseDone(s))
  {
    if s.state == DISCONNECTED {} else {}
  }

  /** But for Send, its registration and the flush. */
  lemma NextThins(s: Socket, a: Action)
    requires Kept(s) && Drained(s) && Enabled(s, a) && NoFreedTimerFires(s, a) && !Loads(a)
    ensures Thins(s, Next(s, a))
  {
    hide Kept, Drained, DoConnect, DoDisconnect, DoWriteDone, DoRequestTimeout, DoContinue, DoRetry, DoCloseDone,
         TakeReply, DoHandshake, DoReadChunk, DoReadBroken;
    match a
    case CallConnect(timeout, dial) => ConnectSame(s, timeout, dial, true);
    case CallDisconnect => DisconnectSame(s, false);
    case WriteDone(c, status) => WriteDoneThins(s, c, status);
    case RequestTimeout(c) => RequestTimeoutThins(s, c);
    case Continue => ContinueThins(s);
    case ContinueRetry(dial) => RetrySame(s, dial);
    case _ => EntrySame(s, a);
  }

  // ---- Send and its registration ----

  lemma NextUnrequested(s: Socket, body: Message)
    requires Kept(s)
    ensures Copy(s.next, body) !in Book(s.trace).requests
  {
    hide Book;
    var k := View(s);
    assert k.books.requests[Copy(s.next, body)] <= k.books.written[Copy(s.next, body)]
           <= k.books.accepted[Copy(s.next, body)] <= k.books.made[Copy(s.next, body)];
  }

  lemma SendTicking(s: Socket, body: Message, write: Error, started: set<Copy>)
    requires Kept(s) && Ticking(s, started) && Unlocked(s)
    requires Book(s.trace).requests <= Book(DoSend(s, body, write).trace).requests
    ensures Ticking(DoSend(s, body, write), started)
  {
    hide Kept, Book, DoSend;
    NextUnrequested(s, body);
    SendFrame(s, body, write);
    SendExtends(s, body, write);
  }

  lemma PushEntryTicking(s: Socket, started: set<Copy>)
    requires Ticking(s, started) && s.sending.Some? && s.sending.value !in s.armed
    ensures Ticking(DoPushEntry(s), started)
  {
    hide Book;
  }

  lemma StartTimerTicking(s: Socket, timerStarts: bool, started: set<Copy>)
    requires Registering(s) && Ticking(s, started) && s.starting.Some?
    ensures Ticking(DoStartTimer(s, timerStarts), started + (if timerStarts then {s.starting.value} else {}))
  {
    StartTimerArms(s, timerStarts);
    StartTimerQuiet(s, timerStarts);
    hide Book, DoStartTimer;
  }

  lemma StartTimerQuiet(s: Socket, timerStarts: bool)
    requires s.starting.Some?
    ensures DoStartTimer(s, timerStarts).trace == s.trace && DoStartTimer(s, timerStarts).timers == s.timers
  {
  }

  // ---- The flush ----

  lemma QueuedUnrequested(s: Socket)
    requires Kept(s) && s.pending != []
    ensures s.pending[0] !in Book(s.trace).requests
  {
    var k, c := View(s), s.pending[0];
    assert c in Queued(s);
    assert k.books.requests[c] <= k.books.written[c] == 0;
    hide Book;
  }

  lemma WrittenBooks(trace: seq<Event>, c: Copy)
    ensures Book(trace + [Written(c)]).requests
            == if c.body.Request? then Book(trace).requests + One(c) else Book(trace).requests
  {
    hide Book;
    BookAppend(trace, Written(c));
  }

  lemma SendQueuedTimers(s: Socket, c: Copy, timerStarts: bool)
    ensures var t := SendQueued(s, c, timerStarts);
            && t.timers == (if c.body.Request? then s.timers + [c] else s.timers)
            && t.armed == (if c.body.Request? && timerStarts then s.armed + {c} else s.armed)
  {
    hide HandOver;
    HandOverTimers(Register(s, c, timerStarts), c);
    HandOverTimers(s, c);
  }

  lemma HandOverTimers(s: Socket, c: Copy)
    ensures HandOver(s, c).timers == s.timers && HandOver(s, c).armed == s.armed
  {
  }

  lemma SentTicking(s: Socket, c: Copy, timerStarts: bool, started: set<Copy>)
    requires Ticking(s, started) && c !in Book(s.trace).requests && s.sending.None? && s.starting.None?
    ensures Ticking(SendQueued(s, c, timerStarts),
                    started + (if c.body.Request? && timerStarts then {c} else {}))
  {
    hide Book, SendQueued;
    SendQueuedTimers(s, c, timerStarts);
    WrittenBooks(s.trace, c);
  }

  lemma FlushOneTicking(s: Socket, r: WriteResult, started: set<Copy>)
    requires Kept(s) && Ticking(s, started) && Unlocked(s) && s.pc.ReportUnsent? && s.pending != []
    ensures Ticking(FlushOne(s, r), started + FirstStart(s, r))
  {
    hide Kept, Ticking, SendQueued;
    if s.state == CONNECTED && r.status == OK {
      HeadTicking(s, r.timerStarts, started);
    } else {
      QueueTicking(s, FlushOne(s, r), started);
      assert started + {} == started;
    }
  }

  lemma HeadTicking(s: Socket, timerStarts: bool, started: set<Copy>)
    requires Kept(s) && Ticking(s, started) && Unlocked(s) && s.pending != []
    ensures Ticking(SendQueued(s.(pending := s.pending[1..]), s.pending[0], timerStarts),
                    started + (if s.pending[0].body.Request? && timerStarts then {s.pending[0]} else {}))
  {
    hide Kept, Ticking, Book, SendQueued;
    QueuedUnrequested(s);
    QueueTicking(s, s.(pending := s.pending[1..]), started);
    SentTicking(s.(pending := s.pending[1..]), s.pending[0], timerStarts, started);
  }

  function FirstStart(s: Socket, r: WriteResult): set<Copy>
    requires s.pending != []
  {
    if s.state == CONNECTED && r.status == OK && s.pending[0].body.Request? && r.timerStarts then {s.pending[0]} else {}
  }

  lemma QueueTicking(s: Socket, t: Socket, started: set<Copy>)
    requires Ticking(s, started) && t == s.(pending := t.pending, pc := t.pc)
    ensures Ticking(t, started)
  {
    hide Book;
  }

  lemma FlushOneKept(s: Socket, r: WriteResult)
    requires Kept(s) && s.pc.ReportUnsent? && s.pending != []
    ensures Kept(FlushOne(s, r))
  {
    hide Kept, FlushOne;
    if s.state == CONNECTED && r.status == OK {
      FlushWrittenKept(s, r);
    } else {
      FlushUnsentKept(s, r);
    }
  }

  lemma {:induction false} FlushLoopTicking(s: Socket, results: seq<WriteResult>, started: set<Copy>)
    requires Kept(s) && Ticking(s, started) && Unlocked(s) && s.pc.ReportUnsent? && |results| == |s.pending|
    ensures Ticking(FlushLoop(s, results), started + FlushStarts(s.pending, results, s.state == CONNECTED))
    decreases |results|
  {
    hide Kept, Ticking, FlushOne;
    if results == [] {
      assert started + {} == started;
    } else {
      FlushOneTicking(s, results[0], started);
      FlushOneKept(s, results[0]);
      FlushLoopTicking(FlushOne(s, results[0]), results[1..], started + FirstStart(s, results[0]));
      UnionChain(started, FirstStart(s, results[0]),
                 FlushStarts(s.pending[1..], results[1..], s.state == CONNECTED));
    }
  }

  lemma FlushTicking(s: Socket, results: seq<WriteResult>, started: set<Copy>)
    requires Kept(s) && Ticking(s, started) && Unlocked(s) && s.pc == FlushQueue && |results| == |s.pending|
    ensures Ticking(DoFlush(s, results), started + FlushStarts(s.pending, results, s.state == CONNECTED))
  {
    hide Kept, Ticking, FlushLoop;
    var t := s.(pc := ReportUnsent([]));
    QueueTicking(s, t, started);
    MoveOnKept(s, t.pc);
    FlushLoopTicking(t, results, started);
  }

  // ---- Every step, every run ----

  lemma LoadTicking(s: Socket, a: Action, started: set<Copy>)
    requires Healthy(s) && Ticking(s, started) && Enabled(s, a) && Loads(a)
    requires Book(s.trace).requests <= Book(Next(s, a).trace).requests
    ensures Ticking(Next(s, a), started + Starts(s, a))
  {
    hide Kept, Tended, Orderly, Drained, Haunted, Registering, Ticking, Book, DoSend, DoPushEntry, DoStartTimer,
         DoFlush;
    assert started + {} == started;
    match a
    case CallSend(body, write) => SendTicking(s, body, write, started);
    case PushEntry =>
      SendingUnarmed(s);
      PushEntryTicking(s, started);
    case StartTimer(timerStarts) => StartTimerTicking(s, timerStarts, started);
    case ContinueFlush(results) => FlushTicking(s, results, started);
  }

  lemma OthersStartNone(s: Socket, a: Action)
    requires !Loads(a)
    ensures Starts(s, a) == {}
  {
  }

  lemma QuietTicking(s: Socket, a: Action, started: set<Copy>)
    requires Kept(s) && Drained(s) && Ticking(s, started) && Enabled(s, a) && NoFreedTimerFires(s, a) && !Loads(a)
    requires Book(s.trace).requests <= Book(Next(s, a).trace).requests
    ensures Ticking(Next(s, a), started + Starts(s, a))
  {
    hide Kept, Drained, Ticking, Thins, Book, Next, Enabled, Loads, Starts;
    NextThins(s, a);
    ThinsTicking(s, Next(s, a), started);
    OthersStartNone(s, a);
    assert started + {} == started;
  }

  lemma StepTicking(s: Socket, a: Action, started: set<Copy>)
    requires Healthy(s) && Fresh(s, a) && Ticking(s, started)
    ensures Ticking(Step(s, a), started + Starts(s, a))
  {
    BooksKeep(s, a);
    hide Kept, Tended, Orderly, Drained, Haunted, Registering, Ticking, Book, Next, Enabled, Loads;
    if !Enabled(s, a) {
      assert started + {} == started;
    } else if Loads(a) {
      LoadTicking(s, a, started);
    } else {
      QuietTicking(s, a, started);
    }
  }

  lemma {:induction false} RunTicking(s: Socket, run: seq<Action>, started: set<Copy>)
    requires Healthy(s) && FreshRun(s, run) && Ticking(s, started)
    ensures Ticking(Run(s, run), AllStarts(s, run, started))
    decreases |run|
  {
    hide Healthy, Ticking, Step, Fresh, Starts;
    if run != [] {
      StepHealthy(s, run[0]);
      StepTicking(s, run[0], started);
      RunTicking(Step(s, run[0]), run[1..], started + Starts(s, run[0]));
    }
  }

  lemma InitialTicking(s: Socket)
    requires Initial(s)
    ensures Ticking(s, {})
  {
    hide Book;
  }

  /**
    In every fresh run an entry of the table is armed if and only if its timer was started, by a Send or by the
    flush that wrote it; one that a Send is about to start is not. So what was written and started times out
    unless it is settled first.
  */
  lemma RunningExactly(s: Socket, run: seq<Action>, c: Copy)
    requires Initial(s) && FreshRun(s, run) && c in Run(s, run).timers
    ensures c in Run(s, run).armed <==> c in AllStarts(s, run, {})
    ensures Run(s, run).pc == Idle && c in AllStarts(s, run, {}) ==> Enabled(Run(s, run), RequestTimeout(c))
  {
    hide Run, AllStarts, FreshRun, Initial, Healthy, Ticking;
    InitialHealthy(s);
    InitialTicking(s);
    RunTicking(s, run, {});
    TickingArmed(Run(s, run), AllStarts(s, run, {}), c);
  }

  lemma TickingArmed(t: Socket, started: set<Copy>, c: Copy)
    requires Ticking(t, started) && c in t.timers
    ensures c in t.armed <==> c in started
    ensures t.pc == Idle && c in started ==> Enabled(t, RequestTimeout(c))
  {
    hide Book;
  }
}
