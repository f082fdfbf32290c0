/**
  Registration precedes response: Send keeps the state mutex from tv_write until the timer entry
  is pushed, and OnRead takes that mutex before it decodes a chunk. So an answer to a request
  that was written when the chunk came in finds the entry of that request.
*/
module Responses {
  import opened Basics
  import opened Protocol
  import opened Ledger
  import opened Stocks
  import opened Conservation
  import opened Timers
  import opened Frames
  import opened Lifecycle
  import opened Delivery

  /** The request a Send is registering was written after the chunk being decoded came in. */
  ghost predicate Chunked(s: Socket) {
    s.pc.ReadItems? ==>
      && s.chunkStart <= |s.trace|
      && (s.sending.Some? ==> s.sending.value !in Book(s.trace[..s.chunkStart]).written)
  }

  lemma {:induction false} WrittenGrows(trace: seq<Event>, n: nat)
    requires n <= |trace|
    ensures Book(trace[..n]).written <= Book(trace).written
    decreases |trace| - n
  {
    hide Book;
    if n == |trace| {
      assert trace[..n] == trace;
    } else {
      assert trace[..n + 1] == trace[..n] + [trace[n]];
      BookAppend(trace[..n], trace[n]);
      WrittenGrows(trace, n + 1);
    }
  }

  lemma QueueUpExtends(s: Socket, c: Copy)
    ensures s.trace <= QueueUp(s, c).trace
    ensures s.trace <= Refuse(s, c).trace
  {
  }

  lemma WriteNowExtends(s: Socket, c: Copy)
    ensures s.trace <= WriteNow(Allocate(s, c), c).trace
    ensures WriteNow(Allocate(s, c), c).sending == s.sending || WriteNow(Allocate(s, c), c).sending == Some(c)
  {
  }

  lemma SendExtends(s: Socket, body: Message, write: Error)
    ensures s.trace <= DoSend(s, body, write).trace
    ensures DoSend(s, body, write).sending == s.sending
            || DoSend(s, body, write).sending == Some(Copy(s.next, body))
  {
    hide QueueUp, Refuse, WriteNow, Allocate;
    QueueUpExtends(s, Copy(s.next, body));
    WriteNowExtends(s, Copy(s.next, body));
  }

  lemma NextUnwritten(s: Socket, body: Message)
    requires Healthy(s)
    ensures Copy(s.next, body) !in Book(s.trace).written
  {
    var k := View(s);
    assert k.books.written[Copy(s.next, body)] <= k.books.made[Copy(s.next, body)];
  }

  lemma SendChunked(s: Socket, body: Message, write: Error)
    requires Healthy(s) && Chunked(s) && Unlocked(s)
    ensures Chunked(DoSend(s, body, write))
  {
    hide Healthy, DoSend, Book;
    NextUnwritten(s, body);
    SendExtends(s, body, write);
    if s.pc.ReadItems? {
      WrittenGrows(s.trace, s.chunkStart);
      assert DoSend(s, body, write).trace[..s.chunkStart] == s.trace[..s.chunkStart];
    }
  }

  /** A section that keeps reading the same chunk, and registers no new request. */
  lemma SameChunked(s: Socket, t: Socket)
    requires Chunked(s) && s.trace <= t.trace && t.chunkStart == s.chunkStart
    requires t.pc.ReadItems? ==> s.pc.ReadItems?
    requires t.sending == s.sending || t.sending.None?
    ensures Chunked(t)
  {
    if t.pc.ReadItems? {
      assert t.trace[..t.chunkStart] == s.trace[..s.chunkStart];
    }
  }

  lemma DisconnectChunked(s: Socket, handshaking: bool)
    requires Chunked(s)
    ensures Chunked(DoDisconnect(s, handshaking))
  {
    hide Chunked;
    if Live(s) {
      SameChunked(s, DoDisconnect(s, handshaking));
    } else {
      SameChunked(s, s.(handshaking := handshaking));
    }
  }

  lemma ConnectChunked(s: Socket, timeout: nat, dial: Dial, byUser: bool)
    requires Chunked(s)
    ensures Chunked(DoConnect(s, timeout, dial, byUser))
  {
    hide Chunked;
    if s.connectable && s.state == DISCONNECTED && dial.room {
      SameChunked(s, DoConnect(s, timeout, dial, byUser));
    }
  }

  lemma ResponseExtends(s: Socket, msgid: nat)
    ensures s.trace <= DoResponse(s, msgid).trace
  {
  }

  lemma ReadItemChunked(s: Socket)
    requires Chunked(s) && s.pc.ReadItems?
    ensures Chunked(DoReadItem(s, s.pc.items))
  {
    hide Chunked, DoResponse, DoDisconnect;
    SameChunked(s, s.(pc := Idle));
    if s.pc.items != [] {
      var t := s.(pc := ReadItems(s.pc.items[1..]));
      SameChunked(s, t);
      match s.pc.items[0]
      case InRequest => MessageChunked(t);
      case InNotify => MessageChunked(t);
      case InResponse(msgid) =>
        ResponseExtends(t, msgid);
        SameChunked(t, DoResponse(t, msgid));
      case Undecodable => DisconnectChunked(s.(pc := Idle), false);
    }
  }

  lemma MessageChunked(s: Socket)
    requires Chunked(s)
    ensures Chunked(Emit(s, HandlerMessage))
  {
    hide Chunked;
    SameChunked(s, Emit(s, HandlerMessage));
  }

  lemma ConnectLockElsewhere(s: Socket, status: Error)
    ensures !DoConnectLock(s, status).pc.ReadItems?
  {
  }

  lemma PlainElsewhere(s: Socket)
    requires s.pc == IssueClose || s.pc == ConnectCallback || s.pc.ReadError? || s.pc == ReleaseSocket
             || s.pc == DiscardQueue || s.pc == NotifyDisconnect || s.pc == Idle || s.pc == FlushQueue
             || s.pc == RetryConnect
    ensures !DoContinue(s).pc.ReadItems?
  {
  }

  lemma ReportingElsewhere(s: Socket)
    requires s.pc.ReportUnsent? || s.pc == DecideRetry || s.pc.DiscardUnsent? || s.pc.DiscardTimers?
    ensures !DoContinue(s).pc.ReadItems?
  {
    hide DoReportUnsent, DoDiscardUnsent, DoDiscardTimers, DoDecideRetry;
  }

  lemma ClosingElsewhere(s: Socket)
    requires s.pc.ConnectLock? || s.pc == HandshakeFailed || s.pc.ReadFailed?
    ensures !DoContinue(s).pc.ReadItems?
  {
    hide DoConnectLock, DoDisconnect;
    match s.pc
    case ConnectLock(status) => ConnectLockElsewhere(s, status);
    case HandshakeFailed => DisconnectStays(s.(pc := Idle), true);
    case ReadFailed(error) => DisconnectStays(s.(pc := ReadError(error)), s.handshaking);
  }

  lemma ContinueElsewhere(s: Socket)
    requires !s.pc.ReadItems?
    ensures !DoContinue(s).pc.ReadItems?
  {
    hide DoContinue;
    match s.pc
    case ConnectLock(_) => ClosingElsewhere(s);
    case HandshakeFailed => ClosingElsewhere(s);
    case ReadFailed(_) => ClosingElsewhere(s);
    case ReportUnsent(_) => ReportingElsewhere(s);
    case DecideRetry => ReportingElsewhere(s);
    case DiscardUnsent(_) => ReportingElsewhere(s);
    case DiscardTimers(_) => ReportingElsewhere(s);
    case _ => PlainElsewhere(s);
  }

  lemma ContinueChunked(s: Socket)
    requires Chunked(s) && Enabled(s, Continue)
    ensures Chunked(DoContinue(s))
  {
    if s.pc.ReadItems? {
      ReadItemIsNext(s);
      hide Chunked, DoContinue, DoReadItem;
      ReadItemChunked(s);
    } else {
      hide DoContinue;
      ContinueElsewhere(s);
    }
  }

  lemma RegisterChunked(s: Socket, timerStarts: bool)
    requires Chunked(s)
    ensures s.sending.Some? ==> Chunked(DoPushEntry(s))
    ensures s.starting.Some? ==> Chunked(DoStartTimer(s, timerStarts))
  {
    hide Chunked, DoStartTimer;
    if s.sending.Some? {
      SameChunked(s, DoPushEntry(s));
    }
    if s.starting.Some? {
      StartTimerSays(s, timerStarts);
      SameChunked(s, DoStartTimer(s, timerStarts));
    }
  }

  lemma StartTimerSays(s: Socket, timerStarts: bool)
    requires s.starting.Some?
    ensures DoStartTimer(s, timerStarts).trace == s.trace
  {
  }

  lemma RetryChunked(s: Socket, dial: Dial)
    ensures Chunked(DoRetry(s, dial))
  {
    hide DoConnect;
    ConnectStays(Emit(s.(pc := Idle), CloseRetried(s.closing)), s.connectTimeout, dial, false);
  }

  lemma NextChunked(s: Socket, a: Action)
    requires Healthy(s) && Chunked(s) && Enabled(s, a)
    ensures Chunked(Next(s, a))
  {
    hide Healthy, Chunked, DoConnect, DoDisconnect, DoSend, DoPushEntry, DoStartTimer, DoWriteDone, DoRequestTimeout,
         DoCloseDone, DoContinue, DoFlush, DoRetry, DoReadBroken, DoReadChunk, DoHandshake, TakeReply;
    match a
    case CallConnect(timeout, dial) => ConnectChunked(s, timeout, dial, true);
    case CallDisconnect => DisconnectChunked(s, false);
    case CallSend(body, write) => SendChunked(s, body, write);
    case PushEntry => RegisterChunked(s, false);
    case StartTimer(timerStarts) => RegisterChunked(s, timerStarts);
    case ReadChunk(items) => ReadChunked(s, items);
    case Continue => ContinueChunked(s);
    case ContinueRetry(dial) => RetryChunked(s, dial);
    case _ => ElsewhereChunked(s, a);
  }

  lemma ElsewhereChunked(s: Socket, a: Action)
    requires Enabled(s, a)
    requires a.ConnectDone? || a.ConnectTimeout? || a.HandshakeDone? || a.ReadBroken? || a.WriteDone?
             || a.RequestTimeout? || a.CloseDone? || a.ContinueFlush?
    ensures Chunked(Next(s, a))
  {
    hide Next, Enabled;
    EntryElsewhere(s, a);
  }

  lemma StepChunked(s: Socket, a: Action)
    requires Healthy(s) && Chunked(s)
    ensures Chunked(Step(s, a))
  {
    hide Healthy, Chunked, Next, Enabled;
    if Enabled(s, a) {
      NextChunked(s, a);
    }
  }

  lemma ReadItemIsNext(s: Socket)
    requires s.pc.ReadItems?
    ensures DoContinue(s) == DoReadItem(s, s.pc.items)
  {
  }

  lemma ReadChunked(s: Socket, items: seq<Item>)
    requires s.pc == Idle && Unlocked(s)
    ensures Chunked(DoReadChunk(s, items))
  {
    if Live(s) {} else {}
  }

  lemma EntryElsewhere(s: Socket, a: Action)
    requires Enabled(s, a)
    requires a.ConnectDone? || a.ConnectTimeout? || a.HandshakeDone? || a.ReadBroken? || a.WriteDone?
             || a.RequestTimeout? || a.CloseDone? || a.ContinueFlush?
    ensures !Next(s, a).pc.ReadItems?
  {
    hide DoWriteDone, DoRequestTimeout, FlushLoop, ReplyContext, DoCloseDone, DoHandshake, DoReadBroken;
    match a
    case HandshakeDone(status) => HandshakeElsewhere(s, status);
    case ReadBroken(error) => ReadBrokenElsewhere(s, error);
    case CloseDone => CloseDoneElsewhere(s);
    case _ =>
  }

  lemma HandshakeElsewhere(s: Socket, status: Error)
    requires s.pc == Idle
    ensures !DoHandshake(s, status).pc.ReadItems?
  {
    if status != OK {} else {}
  }

  lemma ReadBrokenElsewhere(s: Socket, error: Error)
    requires s.pc == Idle
    ensures !DoReadBroken(s, error).pc.ReadItems?
  {
  }

  lemma CloseDoneElsewhere(s: Socket)
    requires s.pc == Idle
    ensures !DoCloseDone(s).pc.ReadItems?
  {
  }

  lemma {:induction false} RunChunked(s: Socket, run: seq<Action>)
    requires Healthy(s) && Chunked(s) && FreshRun(s, run)
    ensures Chunked(Run(s, run))
    decreases |run|
  {
    hide Healthy, Chunked, Step, Fresh;
    if run != [] {
      StepHealthy(s, run[0]);
      StepChunked(s, run[0]);
      RunChunked(Step(s, run[0]), run[1..]);
    }
  }

  /**
    In every thread interleaving: a response whose request was handed to tv_write before the chunk
    came in, and is not settled, is delivered to that request.
  */
  lemma ResponseFindsRequest(s: Socket, run: seq<Action>, c: Copy)
    requires Initial(s) && FreshRun(s, run) && c.body.Request?
    requires var t := Run(s, run);
             && t.pc.ReadItems? && t.pc.items != [] && t.pc.items[0] == InResponse(c.body.msgid)
             && t.chunkStart <= |t.trace|
             && c in Book(t.trace[..t.chunkStart]).written && c !in Book(t.trace).discharged
    ensures Step(Run(s, run), Continue).trace == Run(s, run).trace + [TimerFreed(c), Answered(c)]
  {
    InitialHealthy(s);
    ReachedHealthy(s, run);
    RunChunked(s, run);
    var t := Run(s, run);
    WrittenGrows(t.trace, t.chunkStart);
    WrittenIsTracked(t, c);
    EntryFound(t.timers, c);
    assert c in multiset(t.timers);
    assert InPlay(View(t), c);
    EntryIsOwn(t, c);
    hide Healthy, Chunked, Book, Run;
    Delivered(t, c);
  }

  lemma Delivered(t: Socket, c: Copy)
    requires t.pc.ReadItems? && t.pc.items != [] && c.body.Request? && t.pc.items[0] == InResponse(c.body.msgid)
    requires IndexOf(t.timers, c.body.msgid) < |t.timers| && t.timers[IndexOf(t.timers, c.body.msgid)] == c
    ensures Step(t, Continue).trace == t.trace + [TimerFreed(c), Answered(c)]
  {
    assert t.trace + [TimerFreed(c)] + [Answered(c)] == t.trace + [TimerFreed(c), Answered(c)];
  }

  // ---- The premises can be met ----

  /** A request is sent and registered. */
  function Sending(msgid: nat, rest: seq<Action>): seq<Action> {
    [CallSend(Request(msgid), OK)] + ([PushEntry] + ([StartTimer(true)] + rest))
  }

  /** Send, registration, and the response read: the request is answered, on a server socket that was just accepted. */
  lemma RequestIsAnswered(msgid: nat)
    ensures var s := Accepting(TCP);
            var c := Copy(0, Request(msgid));
            var run := Sending(msgid, [ReadChunk([InResponse(msgid)])] + ([Continue] + []));
            && FreshRun(s, run)
            && Run(s, run).trace == [Allocated(c), Accepted(c, false), Written(c), TimerFreed(c), Answered(c)]
  {
    var s := Accepting(TCP);
    var c := Copy(0, Request(msgid));
    var t := RegisteredFrom(s, c);
    var tail := [ReadChunk([InResponse(msgid)])] + ([Continue] + []);
    LastSteps(s, c);
    FirstSteps(s, c);
    hide Step, SentFrom, PushedFrom, RegisteredFrom, ReadingFrom, Run, FreshRun, Sending;
    ReadingRun(t, ReadChunk([InResponse(msgid)]));
    SendingFresh(msgid, tail);
    SendingRun(msgid, tail);
  }

  lemma ReadingRun(s: Socket, a: Action)
    requires a.ReadChunk?
    ensures FreshRun(s, [a] + ([Continue] + []))
    ensures Run(s, [a] + ([Continue] + [])) == Step(Step(s, a), Continue)
  {
    hide Step, Run;
    var u := Step(s, a);
    RunNil(Step(u, Continue));
    RunCons(u, Continue, []);
    RunCons(s, a, [Continue] + []);
    FreshNil(Step(u, Continue));
    FreshCons(u, Continue, []);
    FreshCons(s, a, [Continue] + []);
  }

  lemma FreshNil(s: Socket)
    ensures FreshRun(s, [])
  {
  }

  function SentFrom(s: Socket, c: Copy): Socket {
    WriteNow(Allocate(s, c), c)
  }

  function PushedFrom(s: Socket, c: Copy): (t: Socket)
    ensures t == s.(sending := None, starting := Some(c), timers := s.timers + [c], next := t.next,
                    inflight := t.inflight, trace := t.trace)
  {
    SentFrom(s, c).(sending := None, starting := Some(c), timers := s.timers + [c])
  }

  function RegisteredFrom(s: Socket, c: Copy): Socket {
    PushedFrom(s, c).(starting := None, armed := s.armed + {c})
  }

  function ReadingFrom(s: Socket, c: Copy): Socket
    requires c.body.Request?
  {
    DoReadChunk(RegisteredFrom(s, c), [InResponse(c.body.msgid)])
  }

  lemma SentFields(s: Socket, c: Copy)
    requires c.body.Request?
    ensures SentFrom(s, c).sending == Some(c) && SentFrom(s, c).inflight == s.inflight + multiset{c}
    ensures SentFrom(s, c).trace == s.trace + [Allocated(c)] + [Accepted(c, false)] + [Written(c)]
  {
  }

  lemma FirstSteps(s: Socket, c: Copy)
    requires s.state == CONNECTED && Unlocked(s) && c == Copy(s.next, c.body) && c.body.Request?
    ensures Step(s, CallSend(c.body, OK)) == SentFrom(s, c)
    ensures Step(SentFrom(s, c), PushEntry) == PushedFrom(s, c)
    ensures Step(PushedFrom(s, c), StartTimer(true)) == RegisteredFrom(s, c)
    ensures RegisteredFrom(s, c).trace == s.trace + [Allocated(c)] + [Accepted(c, false)] + [Written(c)]
    ensures c in RegisteredFrom(s, c).inflight
  {
    SentFields(s, c);
    hide SentFrom;
    SentIs(s, c);
    assert SentFrom(s, c).timers == s.timers && SentFrom(s, c).starting.None?;
  }

  lemma SentIs(s: Socket, c: Copy)
    requires s.state == CONNECTED && Unlocked(s) && c == Copy(s.next, c.body) && c.body.Request?
    ensures Step(s, CallSend(c.body, OK)) == SentFrom(s, c)
    ensures SentFrom(s, c).timers == s.timers && SentFrom(s, c).starting == s.starting
  {
  }

  lemma SendingRun(msgid: nat, rest: seq<Action>)
    ensures Run(Accepting(TCP), Sending(msgid, rest))
            == Run(RegisteredFrom(Accepting(TCP), Copy(0, Request(msgid))), rest)
  {
    var s := Accepting(TCP);
    var c := Copy(0, Request(msgid));
    FirstSteps(s, c);
    hide Step, SentFrom, PushedFrom, RegisteredFrom;
    RunCons(PushedFrom(s, c), StartTimer(true), rest);
    RunCons(SentFrom(s, c), PushEntry, [StartTimer(true)] + rest);
    RunCons(s, CallSend(c.body, OK), [PushEntry] + ([StartTimer(true)] + rest));
  }

  lemma SendingFresh(msgid: nat, rest: seq<Action>)
    requires FreshRun(RegisteredFrom(Accepting(TCP), Copy(0, Request(msgid))), rest)
    ensures FreshRun(Accepting(TCP), Sending(msgid, rest))
  {
    var s := Accepting(TCP);
    var c := Copy(0, Request(msgid));
    assert View(s) == Stock(multiset{}, multiset{}, multiset{}, BLANK);
    assert FreshId(s, CallSend(c.body, OK));
    FirstSteps(s, c);
    hide Step, View, FreshIn, SentFrom, PushedFrom, RegisteredFrom, Accepting;
    FreshCons(PushedFrom(s, c), StartTimer(true), rest);
    FreshCons(SentFrom(s, c), PushEntry, [StartTimer(true)] + rest);
    FreshCons(s, CallSend(c.body, OK), [PushEntry] + ([StartTimer(true)] + rest));
  }

  lemma LastSteps(s: Socket, c: Copy)
    requires s.pc == Idle && s.state == CONNECTED && s.stream == Open && s.reading && s.timers == [] && c.body.Request?
    ensures Step(RegisteredFrom(s, c), ReadChunk([InResponse(c.body.msgid)])) == ReadingFrom(s, c)
    ensures Step(ReadingFrom(s, c), Continue).trace == RegisteredFrom(s, c).trace + [TimerFreed(c)] + [Answered(c)]
  {
    var t := RegisteredFrom(s, c);
    assert t.timers == [c] && t.pc == Idle && t.state == CONNECTED && t.stream == Open && t.reading && Unlocked(t);
    hide RegisteredFrom, PushedFrom;
    Answering(t, c);
  }

  lemma Answering(t: Socket, c: Copy)
    requires t.timers == [c] && t.pc == Idle && t.state == CONNECTED && t.stream == Open && t.reading && Unlocked(t)
    requires c.body.Request?
    ensures var u := DoReadChunk(t, [InResponse(c.body.msgid)]);
            && Step(t, ReadChunk([InResponse(c.body.msgid)])) == u
            && Step(u, Continue).trace == t.trace + [TimerFreed(c)] + [Answered(c)]
  {
    assert Answers(c, c.body.msgid);
  }

  lemma FreshCons(s: Socket, a: Action, run: seq<Action>)
    requires Fresh(s, a) && FreshRun(Step(s, a), run)
    ensures FreshRun(s, [a] + run)
  {
    assert ([a] + run)[1..] == run;
  }
}
