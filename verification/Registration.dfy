/**
  Send pushes the timer entry of a request and starts the timer afterwards, having given up the mutex
  of the table in between, and a failed write does not take the state mutex. So the timer can be
  freed before it is started; this says exactly when.
*/
module Registration {
  import opened Basics
  import opened Protocol
  import opened Ledger
  import opened Stocks
  import opened Conservation
  import opened Timers
  import opened Frames
  import opened Lifecycle
  import opened Ownership
  import opened Delivery

  /**
    Between the push of an entry and the start of its timer: the write of that request is reported
    failed, or a response to it is decoded.
  */
  predicate CutsIn(s: Socket, a: Action) {
    && s.starting.Some? && Enabled(s, a) && s.starting.value.body.Request?
    && match a
       case WriteDone(c, status) => c == s.starting.value && status != OK
       case Continue => s.pc.ReadItems? && s.pc.items != [] && s.pc.items[0] == InResponse(s.starting.value.body.msgid)
       case _ => false
  }

  predicate NextCut(s: Socket, a: Action, cut: bool) {
    s.starting.Some? && (cut || CutsIn(s, a))
  }

  /** The copy whose timer a step starts although its entry was cut in on. */
  function Late(s: Socket, a: Action, cut: bool): set<Copy> {
    if Enabled(s, a) && a == StartTimer(true) && cut then {s.starting.value} else {}
  }

  /** The copies whose timer a run starts after such an event; `cut` tells of the entry pushed last. */
  function LateStarts(s: Socket, run: seq<Action>, cut: bool): set<Copy>
    decreases |run|
  {
    if run == [] then {} else Late(s, run[0], cut) + LateStarts(Step(s, run[0]), run[1..], NextCut(s, run[0], cut))
  }

  /** Only an entry that was cut in on is gone. */
  predicate Noted(s: Socket, cut: bool) {
    s.starting.Some? ==> s.starting.value.body.Request? && (s.starting.value in s.timers <==> !cut)
  }

  lemma EntryOnce(s: Socket, c: Copy, i: nat)
    requires Kept(s) && i < |s.timers| && s.timers[i] == c
    ensures c !in RemoveAt(s.timers, i)
  {
    TimedOrFreed(s, c);
    RemoveAtMultiset(s.timers, i);
    assert multiset(s.timers)[c] <= 1;
    assert multiset(RemoveAt(s.timers, i))[c] == 0;
    hide Kept, Book;
  }

  lemma FoundIsOwn(s: Socket, c: Copy)
    requires Kept(s) && c.body.Request? && c in s.timers
    ensures IndexOf(s.timers, c.body.msgid) < |s.timers| && s.timers[IndexOf(s.timers, c.body.msgid)] == c
  {
    EntryFound(s.timers, c);
    assert multiset(s.timers)[c] > 0;
    EntryIsOwn(s, c);
  }

  /** Erasing by id erases the entry of c if and only if it is that id. */
  lemma ErasedOwn(s: Socket, c: Copy)
    requires Kept(s) && c.body.Request? && c in s.timers
    ensures IndexOf(s.timers, c.body.msgid) < |s.timers|
    ensures c !in RemoveAt(s.timers, IndexOf(s.timers, c.body.msgid))
  {
    FoundIsOwn(s, c);
    hide Kept;
    EntryOnce(s, c, IndexOf(s.timers, c.body.msgid));
  }

  /** Erasing by id erases the entry of c if and only if it is that id. */
  lemma ErasedExactly(s: Socket, c: Copy, msgid: nat)
    requires Kept(s) && c.body.Request? && IndexOf(s.timers, msgid) < |s.timers|
    ensures c in RemoveAt(s.timers, IndexOf(s.timers, msgid)) <==> c in s.timers && msgid != c.body.msgid
  {
    hide Kept;
    if c in s.timers {
      if msgid == c.body.msgid {
        ErasedOwn(s, c);
      } else {
        ErasedOther(s.timers, IndexOf(s.timers, msgid), c);
      }
    }
  }

  lemma InflightOwnId(s: Socket, c: Copy, e: Copy)
    requires Kept(s) && c in s.inflight && c.body.Request? && e.body.Request? && e in s.timers
    ensures c.body.msgid == e.body.msgid <==> c == e
  {
    assert multiset(s.timers)[e] > 0;
    assert InPlay(View(s), e) && InPlay(View(s), c);
  }

  function TimersAfterWrite(s: Socket, c: Copy, status: Error): seq<Copy> {
    if status != OK && c.body.Request? then EraseId(s.timers, c.body.msgid) else s.timers
  }

  lemma MatchedTimers(s: Socket, c: Copy, status: Error)
    requires status != OK && c.body.Request? && IndexOf(s.timers, c.body.msgid) < |s.timers|
    ensures DoWriteDone(s, c, status).timers == RemoveAt(s.timers, IndexOf(s.timers, c.body.msgid))
  {
  }

  lemma UnmatchedTimers(s: Socket, c: Copy, status: Error)
    requires !(status != OK && c.body.Request? && IndexOf(s.timers, c.body.msgid) < |s.timers|)
    ensures DoWriteDone(s, c, status).timers == s.timers
  {
  }

  lemma WriteDoneTimers(s: Socket, c: Copy, status: Error)
    ensures DoWriteDone(s, c, status).timers == TimersAfterWrite(s, c, status)
  {
    hide DoWriteDone;
    if status != OK && c.body.Request? && IndexOf(s.timers, c.body.msgid) < |s.timers| {
      MatchedTimers(s, c, status);
    } else {
      UnmatchedTimers(s, c, status);
    }
  }

  lemma WriteDoneEntry(s: Socket, c: Copy, status: Error, e: Copy)
    requires Kept(s) && c in s.inflight && e.body.Request?
    ensures e in DoWriteDone(s, c, status).timers <==> e in s.timers && !(c == e && status != OK)
  {
    WriteDoneTimers(s, c, status);
    hide DoWriteDone, Kept;
    if e in s.timers {
      FoundIsOwn(s, e);
      if c.body.Request? && status != OK {
        InflightOwnId(s, c, e);
        ErasedId(s, c.body.msgid, e);
      }
    }
  }

  lemma ErasedId(s: Socket, msgid: nat, e: Copy)
    requires Kept(s) && e.body.Request? && e in s.timers
    ensures e in EraseId(s.timers, msgid) <==> msgid != e.body.msgid
  {
    hide Kept;
    FoundIsOwn(s, e);
    if IndexOf(s.timers, msgid) < |s.timers| {
      ErasedExactly(s, e, msgid);
    }
  }

  lemma TimeoutEntry(s: Socket, c: Copy, e: Copy)
    requires Kept(s) && c in s.timers && e.body.Request? && c != e
    ensures e in DoRequestTimeout(s, c).timers <==> e in s.timers
  {
    assert multiset(s.timers)[c] > 0;
    TimedAreRequests(s, c);
    FoundIsOwn(s, c);
    ErasedExactly(s, e, c.body.msgid);
    if e in s.timers {
      assert multiset(s.timers)[e] > 0;
      assert InPlay(View(s), e) && InPlay(View(s), c);
    }
    hide Kept;
    TimeoutTimers(s, c);
    hide DoRequestTimeout;
  }

  lemma TimeoutTimers(s: Socket, c: Copy)
    requires c.body.Request?
    ensures DoRequestTimeout(s, c).timers == EraseId(s.timers, c.body.msgid)
  {
  }

  lemma ResponseEntry(s: Socket, msgid: nat, e: Copy)
    requires Kept(s) && e.body.Request?
    ensures e in DoResponse(s, msgid).timers <==> e in s.timers && msgid != e.body.msgid
  {
    hide Kept, DoResponse;
    ResponseTimers(s, msgid);
    if e in s.timers {
      ErasedId(s, msgid, e);
    }
  }

  lemma ResponseTimers(s: Socket, msgid: nat)
    ensures DoResponse(s, msgid).timers == EraseId(s.timers, msgid)
  {
  }

  lemma OtherItem(s: Socket)
    requires s.pc.ReadItems? && (s.pc.items != [] ==> !s.pc.items[0].InResponse?)
    ensures DoReadItem(s, s.pc.items).timers == s.timers
  {
    hide DoDisconnect;
    QuietTimers(s.(pc := Idle), OK, false);
  }

  lemma ItemEntry(s: Socket, e: Copy)
    requires Kept(s) && e.body.Request? && s.pc.ReadItems?
    ensures e in DoReadItem(s, s.pc.items).timers
            <==> e in s.timers && !(s.pc.items != [] && s.pc.items[0] == InResponse(e.body.msgid))
  {
    hide Kept, DoResponse;
    if s.pc.items != [] && s.pc.items[0].InResponse? {
      var t := s.(pc := ReadItems(s.pc.items[1..]));
      MoveOnKept(s, t.pc);
      ResponseEntry(t, s.pc.items[0].msgid, e);
      assert DoReadItem(s, s.pc.items) == DoResponse(t, s.pc.items[0].msgid);
      hide DoReadItem;
    } else {
      OtherItem(s);
      hide DoReadItem;
    }
  }

  lemma ContinueEntry(s: Socket, e: Copy)
    requires Kept(s) && Orderly(s) && e.body.Request? && Enabled(s, Continue) && s.state == CONNECTED
    ensures e in DoContinue(s).timers
            <==> e in s.timers && !(s.pc.ReadItems? && s.pc.items != [] && s.pc.items[0] == InResponse(e.body.msgid))
  {
    if s.pc.ReadItems? {
      assert DoContinue(s) == DoReadItem(s, s.pc.items);
      hide Kept, Orderly, Enabled, DoReadItem, DoContinue;
      ItemEntry(s, e);
    } else {
      OtherContinue(s);
      hide Kept, Orderly, Enabled, DoContinue;
    }
  }

  lemma OtherContinue(s: Socket)
    requires Orderly(s) && Enabled(s, Continue) && s.state == CONNECTED && !s.pc.ReadItems?
    ensures DoContinue(s).timers == s.timers
  {
    assert !InClose(s.pc);
    hide Orderly, Enabled, DoContinue;
    match s.pc
    case ConnectLock(_) => ClosingContinue(s);
    case HandshakeFailed => ClosingContinue(s);
    case ReadFailed(_) => ClosingContinue(s);
    case _ => PlainContinue(s);
  }

  lemma ClosingContinue(s: Socket)
    requires s.pc == HandshakeFailed || s.pc.ReadFailed? || s.pc.ConnectLock?
    ensures DoContinue(s).timers == s.timers
  {
    hide DoDisconnect, DoConnectLock;
    match s.pc
    case ConnectLock(status) => QuietTimers(s, status, false);
    case HandshakeFailed => QuietTimers(s.(pc := Idle), OK, true);
    case ReadFailed(error) => QuietTimers(s.(pc := ReadError(error)), OK, s.handshaking);
  }

  lemma PlainContinue(s: Socket)
    requires s.pc == Idle || s.pc == FlushQueue || s.pc.ReportUnsent? || s.pc.ReadError? || s.pc == IssueClose
             || s.pc == ConnectCallback
    ensures DoContinue(s).timers == s.timers
  {
    hide DoReportUnsent;
  }

  lemma QuietTimers(s: Socket, status: Error, handshaking: bool)
    ensures DoConnectLock(s, status).timers == s.timers && DoDisconnect(s, handshaking).timers == s.timers
  {
    ConnectLockFrame(s, status);
    hide DoConnectLock;
  }

  /** While a Send is on its way from the push to the start, only such events take its entry. */
  lemma StepEntry(s: Socket, a: Action)
    requires Healthy(s) && Fresh(s, a) && s.starting.Some? && s.starting.value.body.Request? && !a.StartTimer?
    ensures s.starting.value in Step(s, a).timers <==> s.starting.value in s.timers && !CutsIn(s, a)
  {
    var e := s.starting.value;
    assert s.state == CONNECTED && (a.RequestTimeout? && Enabled(s, a) ==> a.copy in s.timers && a.copy != e);
    hide Tended, Drained, Haunted, DoWriteDone, DoRequestTimeout, DoContinue;
    if Enabled(s, a) {
      OnlyLoop(s, a);
      match a
      case WriteDone(c, status) => WriteDoneEntry(s, c, status, e);
      case RequestTimeout(c) => TimeoutEntry(s, c, e);
      case Continue => ContinueEntry(s, e);
    }
  }

  /** A Send with the mutex leaves only the loop thread to go on, and not into a close. */
  lemma OnlyLoop(s: Socket, a: Action)
    requires Orderly(s) && Registering(s) && s.starting.Some? && Enabled(s, a)
    ensures a.StartTimer? || a.WriteDone? || a.RequestTimeout? || a.Continue?
  {
    assert s.sending.None? && s.state == CONNECTED;
    hide Registering;
  }

  // ---- Over runs ----

  lemma StepNoted(s: Socket, a: Action, cut: bool)
    requires Healthy(s) && Fresh(s, a) && Noted(s, cut)
    ensures Noted(Step(s, a), NextCut(s, a, cut))
  {
    if s.starting.Some? && !a.StartTimer? {
      StepEntry(s, a);
      StartingSame(s, a);
      hide Step, Healthy;
    } else if Enabled(s, a) {
      if a.PushEntry? {
        PushNoted(s);
      } else {
        NotStarting(s, a);
      }
    }
  }

  lemma StartingSame(s: Socket, a: Action)
    requires Registering(s) && s.starting.Some? && !a.StartTimer? && NoFreedTimerFires(s, a)
    ensures Step(s, a).starting == s.starting
  {
    if !Loads(a) {
      StepSteady(s, a);
    } else {
      assert !Enabled(s, a);
    }
  }

  lemma PushNoted(s: Socket)
    requires Kept(s) && s.sending.Some?
    ensures Noted(DoPushEntry(s), false)
  {
    assert Timed(s)[s.sending.value] > 0;
    TimedAreRequests(s, s.sending.value);
  }

  lemma NotStarting(s: Socket, a: Action)
    requires Enabled(s, a) && NoFreedTimerFires(s, a) && !a.PushEntry? && (s.starting.Some? ==> a.StartTimer?)
    ensures Step(s, a).starting.None?
  {
    if !Loads(a) {
      StepSteady(s, a);
    } else {
      SendRegistering(s, a);
      hide Next;
    }
  }

  lemma StartStale(s: Socket, timerStarts: bool, cut: bool)
    requires s.starting.Some? && Noted(s, cut)
    ensures DoStartTimer(s, timerStarts).stale == s.stale + Late(s, StartTimer(timerStarts), cut)
  {
    hide Enabled;
    assert Enabled(s, StartTimer(timerStarts)) by {
      EnabledStart(s, timerStarts);
    }
  }

  lemma EnabledStart(s: Socket, timerStarts: bool)
    requires s.starting.Some?
    ensures Enabled(s, StartTimer(timerStarts))
  {
  }

  lemma StepStale(s: Socket, a: Action, cut: bool)
    requires NoFreedTimerFires(s, a) && Noted(s, cut)
    ensures Step(s, a).stale == s.stale + Late(s, a, cut)
  {
    if a.StartTimer? {
      if Enabled(s, a) {
        StartStale(s, a.timerStarts, cut);
      }
    } else {
      assert Late(s, a, cut) == {};
      OtherStale(s, a);
      hide Step, Late, Noted;
    }
  }

  lemma OtherStale(s: Socket, a: Action)
    requires NoFreedTimerFires(s, a) && !a.StartTimer?
    ensures Step(s, a).stale == s.stale
  {
    if !Loads(a) {
      StepSteady(s, a);
      hide Step;
    } else if Enabled(s, a) {
      hide Enabled, Next;
      LoadStale(s, a);
    }
  }

  lemma LoadStale(s: Socket, a: Action)
    requires Enabled(s, a) && Loads(a) && !a.StartTimer?
    ensures Next(s, a).stale == s.stale
  {
    hide DoSend, DoFlush;
    match a
    case CallSend(body, write) => SendFrame(s, body, write);
    case PushEntry =>
    case ContinueFlush(results) => FlushStale(s, results);
  }

  lemma FlushStale(s: Socket, results: seq<WriteResult>)
    requires |results| == |s.pending|
    ensures DoFlush(s, results).stale == s.stale
  {
    hide FlushLoop;
    FlushLoopFrame(s.(pc := ReportUnsent([])), results);
  }

  lemma {:induction false} StaleAre(s: Socket, run: seq<Action>, cut: bool)
    requires Healthy(s) && FreshRun(s, run) && Noted(s, cut)
    ensures Run(s, run).stale == s.stale + LateStarts(s, run, cut)
    decreases |run|
  {
    if run != [] {
      hide Healthy, Step, Noted, Enabled, Late, NextCut, FreshId, NoFreedTimerFires;
      StepHealthy(s, run[0]);
      StepNoted(s, run[0], cut);
      StepStale(s, run[0], cut);
      StaleAre(Step(s, run[0]), run[1..], NextCut(s, run[0], cut));
      UnionChain(s.stale, Late(s, run[0], cut), LateStarts(Step(s, run[0]), run[1..], NextCut(s, run[0], cut)));
    }
  }

  lemma UnionChain(a: set<Copy>, b: set<Copy>, c: set<Copy>)
    ensures a + b + c == a + (b + c)
  {
  }

  /**
    Between loop callbacks, an armed timer has its entry in the table and is not freed, if and only
    if it was not started after its entry had been cut in on.
  */
  lemma ArmedExactly(s: Socket, run: seq<Action>, c: Copy)
    requires Initial(s) && FreshRun(s, run) && Run(s, run).pc == Idle
    ensures var t := Run(s, run);
            (c in t.armed ==> c in t.timers && c !in Book(t.trace).timersFreed) <==> c !in LateStarts(s, run, false)
  {
    StartsClean(s);
    hide Run, LateStarts, FreshRun, Initial, Healthy, Noted, Book;
    ReachedHealthy(s, run);
    StaleAre(s, run, false);
    ArmedOrStale(Run(s, run), c);
  }

  lemma StartsClean(s: Socket)
    requires Initial(s)
    ensures Healthy(s) && s.stale == {} && Noted(s, false)
  {
    InitialHealthy(s);
    hide Healthy;
  }

  lemma ArmedOrStale(t: Socket, c: Copy)
    requires Healthy(t) && t.pc == Idle
    ensures (c in t.armed ==> c in t.timers && c !in Book(t.trace).timersFreed) <==> c !in t.stale
  {
    if c in Book(t.trace).timersFreed {
      FreedIsGone(t, c);
    }
    hide Kept, Orderly, Drained, Registering, Book;
  }

  // ---- When a freed timer fires ----

  /** No request is sent under the id of one still in play: all that is asked of the application. */
  ghost predicate FreshIds(s: Socket, run: seq<Action>)
    decreases |run|
  {
    run == [] || (FreshId(s, run[0]) && FreshIds(Step(s, run[0]), run[1..]))
  }

  /** Where no timer was started late, none fires freed. */
  lemma NothingStale(s: Socket, a: Action)
    requires Tended(s) && s.stale == {}
    ensures NoFreedTimerFires(s, a)
  {
  }

  lemma {:induction false} OnTimeFrom(s: Socket, run: seq<Action>, cut: bool)
    requires Healthy(s) && s.stale == {} && Noted(s, cut) && FreshIds(s, run) && LateStarts(s, run, cut) == {}
    ensures FreshRun(s, run)
    decreases |run|
  {
    if run != [] {
      NothingStale(s, run[0]);
      assert Late(s, run[0], cut) + LateStarts(Step(s, run[0]), run[1..], NextCut(s, run[0], cut)) == {};
      hide Healthy, Step, Noted, Enabled, Late, NextCut, FreshId, NoFreedTimerFires;
      StepHealthy(s, run[0]);
      StepNoted(s, run[0], cut);
      StepStale(s, run[0], cut);
      OnTimeFrom(Step(s, run[0]), run[1..], NextCut(s, run[0], cut));
    }
  }

  /** In a run in which no timer is started late, no freed timer fires: distinct ids are enough. */
  lemma OnTimeIsFresh(s: Socket, run: seq<Action>)
    requires Initial(s) && FreshIds(s, run) && LateStarts(s, run, false) == {}
    ensures FreshRun(s, run)
  {
    StartsClean(s);
    hide Initial, Healthy, Noted;
    OnTimeFrom(s, run, false);
  }

  /** A timer about to fire was freed if and only if it was started late. */
  lemma FiresFreedExactly(s: Socket, run: seq<Action>, c: Copy)
    requires Initial(s) && FreshRun(s, run) && Enabled(Run(s, run), RequestTimeout(c))
    ensures NoFreedTimerFires(Run(s, run), RequestTimeout(c)) <==> c !in LateStarts(s, run, false)
  {
    var t := Run(s, run);
    assert t.pc == Idle && c in t.armed;
    hide Run, LateStarts, FreshRun, Initial, Healthy, Enabled, Book;
    ArmedExactly(s, run, c);
    ReachedHealthy(s, run);
    if c in t.timers {
      UnfreedInTable(t, c);
    }
  }

  lemma UnfreedInTable(t: Socket, c: Copy)
    requires Healthy(t) && c in t.timers
    ensures c !in Book(t.trace).timersFreed
  {
    if c in Book(t.trace).timersFreed {
      FreedIsGone(t, c);
    }
  }
}
