/**
  The four-state life of a socket and of its streams: which state goes with which transport
  state and which callback, in every interleaving.
*/
module Lifecycle {
  import opened Basics
  import opened Protocol

  /** The loop is inside OnDisconnect. */
  predicate InClose(pc: LoopPc) {
    pc == ReleaseSocket || pc == DecideRetry || pc == RetryConnect || pc == DiscardQueue
    || pc.DiscardUnsent? || pc.DiscardTimers? || pc == NotifyDisconnect
  }

  /** The loop is inside a callback of a stream that has not reported its close. */
  predicate InStream(pc: LoopPc) {
    pc != Idle && !InClose(pc)
  }

  function StreamFor(state: ConnState, pc: LoopPc): StreamState {
    match state
    case DISCONNECTED => NoStream
    case DISCONNECTING => if pc == IssueClose then Open else Closing
    case _ => Open
  }

  predicate Orderly(s: Socket) {
    && s.stream == StreamFor(s.state, s.pc)
    && (s.pc == IssueClose ==> s.state == DISCONNECTING)
    && (s.pc.ConnectLock? || s.pc == ConnectCallback ==> s.connectable && s.state != CONNECTED)
    && (s.pc == HandshakeFailed ==> !s.connectable && s.kind.WS?)
    && (InStream(s.pc) ==> s.state != DISCONNECTED)
    && (InClose(s.pc) ==> s.state != CONNECTED)
    && (!Unlocked(s) ==> s.state == CONNECTED)
    && (s.connectTimer ==> s.connectable && s.state == CONNECTING && s.pc != ConnectCallback)
    && (s.dialing ==> s.connectable && (s.state == CONNECTING || s.state == DISCONNECTING)
                      && s.pc != ConnectCallback && s.pc != ConnectLock(OK))
    && (s.reading ==> s.state != DISCONNECTED)
    && (!s.connectable ==> s.epoch == 1)
    && (s.state == DISCONNECTED || s.state == CONNECTING ==> s.inflight == multiset{})
  }

  /** The edges within an epoch: connected or not, a stream is closed through DISCONNECTING. */
  predicate Edge(a: ConnState, b: ConnState) {
    match a
    case DISCONNECTED => false
    case CONNECTING => b == CONNECTED || b == DISCONNECTING
    case CONNECTED => b == DISCONNECTING
    case DISCONNECTING => b == DISCONNECTED
  }

  /** A step stays, takes an edge, or opens the next epoch: from DISCONNECTED, on a client. */
  predicate StepsOn(s: Socket, t: Socket) {
    && t.connectable == s.connectable && t.kind == s.kind
    && (|| (t.epoch == s.epoch && (t.state == s.state || Edge(s.state, t.state)))
        || (t.epoch == s.epoch + 1 && s.state == DISCONNECTED && t.state == CONNECTING && s.connectable))
  }

  predicate Good(s: Socket, t: Socket) {
    Orderly(t) && StepsOn(s, t)
  }

  lemma ConnectGood(s: Socket, timeout: nat, dial: Dial, byUser: bool)
    requires Orderly(s) && Unlocked(s)
    ensures Good(s, DoConnect(s, timeout, dial, byUser))
  {
    if !s.connectable || s.state != DISCONNECTED || !dial.room {
    } else if dial.status != OK {
    } else {
    }
  }

  lemma DisconnectGood(s: Socket, handshaking: bool)
    requires Orderly(s) && Unlocked(s)
    ensures Good(s, DoDisconnect(s, handshaking))
  {
    if Live(s) {} else {}
  }

  lemma SendGood(s: Socket, body: Message, write: Error)
    requires Orderly(s) && Unlocked(s)
    ensures Good(s, DoSend(s, body, write))
  {
    hide DoSend;
    SendKeepsOrder(s, body, write);
  }

  lemma SendKeepsOrder(s: Socket, body: Message, write: Error)
    ensures s.sending.None? && DoSend(s, body, write).sending.Some? ==> s.state == CONNECTED
    ensures s.state == CONNECTING ==> DoSend(s, body, write).inflight == s.inflight
    ensures s.state == DISCONNECTED ==> DoSend(s, body, write) == s
  {
    hide QueueUp, Refuse, WriteNow, Allocate;
    if Live(s) && !body.Invalid? {
      var c := Copy(s.next, body);
      if s.state == CONNECTING {
        assert DoSend(s, body, write) == QueueUp(s, c);
      } else if write != OK {
        assert DoSend(s, body, write) == Refuse(s, c);
      }
      hide DoSend;
    }
  }

  lemma ConnectLockGood(s: Socket)
    requires Orderly(s) && s.pc.ConnectLock? && Unlocked(s)
    ensures Good(s, DoConnectLock(s, s.pc.status))
  {
    if s.state != CONNECTING {
    } else if s.pc.status != OK {
    } else {
    }
  }

  /** A section that leaves the state and the stream alone. */
  lemma SameGood(s: Socket, t: Socket)
    requires Orderly(s)
    requires t.state == s.state && t.stream == s.stream && t.epoch == s.epoch
    requires t.connectable == s.connectable && t.kind == s.kind
    requires t.connectTimer == s.connectTimer && t.dialing == s.dialing && t.reading == s.reading
    requires t.sending == s.sending && t.starting == s.starting && t.inflight <= s.inflight
    requires s.pc != IssueClose && t.pc != IssueClose && t.pc != ConnectCallback && !t.pc.ConnectLock?
    requires t.pc != HandshakeFailed
    requires (InStream(t.pc) ==> InStream(s.pc) || s.state != DISCONNECTED)
    requires (InClose(t.pc) ==> InClose(s.pc))
    ensures Good(s, t)
  {
  }

  lemma ReadItemGood(s: Socket)
    requires Orderly(s) && s.pc.ReadItems? && (Locks(s.pc) ==> Unlocked(s))
    ensures Good(s, DoReadItem(s, s.pc.items))
  {
    hide Orderly, DoDisconnect, DoResponse;
    SameGood(s, s.(pc := Idle));
    if s.pc.items != [] {
      var t := s.(pc := ReadItems(s.pc.items[1..]));
      match s.pc.items[0]
      case InRequest => MessageGood(s, t);
      case InNotify => MessageGood(s, t);
      case InResponse(msgid) => ResponseGood(s, t, msgid);
      case Undecodable => DisconnectGood(s.(pc := Idle), false);
    }
  }

  lemma MessageGood(s: Socket, t: Socket)
    requires Orderly(s) && s.pc.ReadItems? && t.pc.ReadItems? && t == s.(pc := t.pc)
    ensures Good(s, Emit(t, HandlerMessage))
  {
    hide Orderly;
    SameGood(s, Emit(t, HandlerMessage));
  }

  lemma ResponseGood(s: Socket, t: Socket, msgid: nat)
    requires Orderly(s) && s.pc.ReadItems? && t.pc.ReadItems? && t == s.(pc := t.pc)
    ensures Good(s, DoResponse(t, msgid))
  {
    hide Orderly, DoResponse;
    SameGood(s, DoResponse(t, msgid));
  }

  lemma WriteDoneGood(s: Socket, c: Copy, status: Error)
    requires Orderly(s) && s.pc == Idle
    ensures Good(s, DoWriteDone(s, c, status))
  {
    hide Orderly, DoWriteDone;
    SameGood(s, DoWriteDone(s, c, status));
  }

  lemma {:induction false} FlushLoopGood(s: Socket, results: seq<WriteResult>)
    requires Orderly(s) && s.pc.ReportUnsent? && |results| == |s.pending|
    ensures Good(s, FlushLoop(s, results))
    decreases |results|
  {
    if results != [] {
      FlushOneGood(s, results[0]);
      hide FlushOne;
      FlushLoopGood(FlushOne(s, results[0]), results[1..]);
    }
  }

  lemma SendQueuedSame(s: Socket, c: Copy, timerStarts: bool)
    requires Orderly(s) && s.pc.ReportUnsent? && s.state == CONNECTED
    ensures Good(s, SendQueued(s, c, timerStarts))
  {
    if c.body.Request? {} else {}
  }

  lemma FlushOneGood(s: Socket, r: WriteResult)
    requires Orderly(s) && s.pc.ReportUnsent? && s.pending != []
    ensures Good(s, FlushOne(s, r))
  {
    hide SendQueued;
    if s.state != CONNECTED || r.status != OK {
      SameGood(s, FlushOne(s, r));
    } else {
      SendQueuedSame(s.(pending := s.pending[1..]), s.pending[0], r.timerStarts);
    }
  }

  lemma FlushGood(s: Socket, results: seq<WriteResult>)
    requires Orderly(s) && s.pc == FlushQueue && |results| == |s.pending|
    ensures Good(s, DoFlush(s, results))
  {
    hide FlushLoop;
    SameGood(s, s.(pc := ReportUnsent([])));
    FlushLoopGood(s.(pc := ReportUnsent([])), results);
  }

  lemma RetryOrderly(s: Socket)
    requires Orderly(s) && s.pc == RetryConnect
    ensures Orderly(Emit(s.(pc := Idle), CloseRetried(s.closing)))
  {
    SameGood(s, Emit(s.(pc := Idle), CloseRetried(s.closing)));
  }

  lemma RetryGood(s: Socket, dial: Dial)
    requires Orderly(s) && s.pc == RetryConnect && Unlocked(s)
    ensures Good(s, DoRetry(s, dial))
  {
    hide DoConnect;
    RetryOrderly(s);
    ConnectGood(Emit(s.(pc := Idle), CloseRetried(s.closing)), s.connectTimeout, dial, false);
  }

  lemma QuietGood(s: Socket)
    requires Orderly(s)
    requires s.pc.ReportUnsent? || s.pc.ReadError? || s.pc == ReleaseSocket || s.pc == DecideRetry
             || s.pc == DiscardQueue
             || s.pc.DiscardUnsent? || s.pc.DiscardTimers? || s.pc == NotifyDisconnect
    ensures Good(s, DoContinue(s))
  {
    hide Orderly, DoReportUnsent, DoDecideRetry, DoDiscardUnsent, DoDiscardTimers;
    match s.pc
    case ReportUnsent(unsent) => ReportGood(s);
    case ReadError(_) => SameGood(s, DoContinue(s));
    case ReleaseSocket => SameGood(s, DoContinue(s));
    case DecideRetry => DecideGood(s);
    case DiscardQueue => SameGood(s, DoContinue(s));
    case DiscardUnsent(unsent) => DiscardUnsentGood(s);
    case DiscardTimers(entries) => DiscardTimersGood(s);
    case NotifyDisconnect => SameGood(s, DoNotify(s));
  }

  lemma ReportGood(s: Socket)
    requires Orderly(s) && s.pc.ReportUnsent?
    ensures Good(s, DoReportUnsent(s, s.pc.unsent))
  {
    hide Orderly, DoReportUnsent;
    SameGood(s, DoReportUnsent(s, s.pc.unsent));
  }

  lemma DecideGood(s: Socket)
    requires Orderly(s) && s.pc == DecideRetry
    ensures Good(s, DoDecideRetry(s))
  {
    hide Orderly, DoDecideRetry;
    SameGood(s, DoDecideRetry(s));
  }

  lemma DiscardUnsentGood(s: Socket)
    requires Orderly(s) && s.pc.DiscardUnsent?
    ensures Good(s, DoDiscardUnsent(s, s.pc.unsent))
  {
    hide Orderly, DoDiscardUnsent;
    SameGood(s, DoDiscardUnsent(s, s.pc.unsent));
  }

  lemma DiscardTimersGood(s: Socket)
    requires Orderly(s) && s.pc.DiscardTimers?
    ensures Good(s, DoDiscardTimers(s, s.pc.entries))
  {
    hide Orderly, DoDiscardTimers;
    SameGood(s, DoDiscardTimers(s, s.pc.entries));
  }

  lemma ContinueGood(s: Socket)
    requires Orderly(s) && Enabled(s, Continue)
    ensures Good(s, DoContinue(s))
  {
    hide Good, Orderly, DoConnectLock, DoIssueClose, DoConnectReturned, DoDisconnect, DoReadItem, DoReportUnsent,
         DoDiscardUnsent, DoDiscardTimers, DoDecideRetry, DoNotify;
    match s.pc
    case ConnectLock(_) => ConnectLockGood(s);
    case IssueClose => IssueCloseGood(s);
    case ConnectCallback => ConnectReturnedGood(s);
    case HandshakeFailed => FailingGood(s, Idle, true);
    case ReadItems(_) => ReadItemGood(s);
    case ReadFailed(error) => FailingGood(s, ReadError(error), s.handshaking);
    case _ => QuietGood(s);
  }

  lemma IssueCloseGood(s: Socket)
    requires Orderly(s) && s.pc == IssueClose
    ensures Good(s, DoIssueClose(s))
  {
  }

  lemma ConnectReturnedGood(s: Socket)
    requires Orderly(s) && s.pc == ConnectCallback
    ensures Good(s, DoConnectReturned(s))
  {
  }

  lemma FailingGood(s: Socket, pc: LoopPc, handshaking: bool)
    requires Orderly(s) && Unlocked(s) && (s.pc == HandshakeFailed || s.pc.ReadFailed?) && (pc == Idle || pc.ReadError?)
    ensures Good(s, DoDisconnect(s.(pc := pc), handshaking))
  {
    SameGood(s, s.(pc := pc));
    hide Orderly, DoDisconnect;
    DisconnectGood(s.(pc := pc), handshaking);
  }

  lemma LoopEntryGood(s: Socket, a: Action)
    requires Orderly(s) && s.pc == Idle && Enabled(s, a)
    requires a.ConnectDone? || a.ConnectTimeout? || a.HandshakeDone? || a.ReadChunk? || a.ReadBroken? || a.CloseDone?
    ensures Good(s, Next(s, a))
  {
    hide Orderly, DoCloseDone, DoHandshake, ReplyContext;
    match a
    case ConnectDone(status, reply) => ConnectEntryGood(s, a);
    case ConnectTimeout(reply) => ConnectEntryGood(s, a);
    case HandshakeDone(status) => HandshakeGood(s, status);
    case ReadChunk(items) => ReadGood(s, items);
    case ReadBroken(error) => ReadBrokenGood(s, error);
    case CloseDone => CloseDoneGood(s);
  }

  lemma ConnectEntryGood(s: Socket, a: Action)
    requires Orderly(s) && s.pc == Idle && Enabled(s, a) && (a.ConnectDone? || a.ConnectTimeout?)
    ensures Good(s, Next(s, a))
  {
    hide ReplyContext;
  }

  lemma HandshakeGood(s: Socket, status: Error)
    requires Orderly(s) && Enabled(s, HandshakeDone(status))
    ensures Good(s, DoHandshake(s, status))
  {
    if status != OK {} else {}
  }

  lemma ReadGood(s: Socket, items: seq<Item>)
    requires Orderly(s) && Enabled(s, ReadChunk(items))
    ensures Good(s, DoReadChunk(s, items))
  {
    if Live(s) {} else {}
  }

  lemma ReadBrokenGood(s: Socket, error: Error)
    requires Orderly(s) && Enabled(s, ReadBroken(error))
    ensures Good(s, DoReadBroken(s, error))
  {
    if Live(s) {} else {}
  }

  lemma CloseDoneGood(s: Socket)
    requires Orderly(s) && Enabled(s, CloseDone)
    ensures Good(s, DoCloseDone(s))
  {
  }

  lemma NextGood(s: Socket, a: Action)
    requires Orderly(s) && Enabled(s, a)
    ensures Good(s, Next(s, a))
  {
    hide Good, Orderly, DoConnect, DoDisconnect, DoSend, DoPushEntry, DoStartTimer, DoWriteDone, DoRequestTimeout,
         DoCloseDone, DoContinue, DoFlush, DoRetry, DoReadBroken, DoReadChunk, DoHandshake, TakeReply;
    match a
    case CallConnect(timeout, dial) => ConnectGood(s, timeout, dial, true);
    case CallDisconnect => DisconnectGood(s, false);
    case CallSend(body, write) => SendGood(s, body, write);
    case PushEntry => PushEntryGood(s);
    case StartTimer(timerStarts) => StartTimerGood(s, timerStarts);
    case WriteDone(c, status) => WriteDoneGood(s, c, status);
    case RequestTimeout(c) => RequestTimeoutGood(s, c);
    case Continue => ContinueGood(s);
    case ContinueFlush(results) => FlushGood(s, results);
    case ContinueRetry(dial) => RetryGood(s, dial);
    case _ => LoopEntryGood(s, a);
  }

  lemma RequestTimeoutGood(s: Socket, c: Copy)
    requires Orderly(s) && s.pc == Idle
    ensures Good(s, DoRequestTimeout(s, c))
  {
    hide Orderly, DoRequestTimeout;
    SameGood(s, DoRequestTimeout(s, c));
  }

  lemma StepGood(s: Socket, a: Action)
    requires Orderly(s)
    ensures Good(s, Step(s, a))
  {
    IdleGood(s);
    hide Good, Orderly, Next, Enabled;
    if Enabled(s, a) {
      NextGood(s, a);
    }
  }

  lemma IdleGood(s: Socket)
    requires Orderly(s)
    ensures Good(s, s)
  {
  }

  lemma PushEntryGood(s: Socket)
    requires Orderly(s) && s.sending.Some?
    ensures Good(s, DoPushEntry(s))
  {
  }

  lemma StartTimerGood(s: Socket, timerStarts: bool)
    requires Orderly(s) && s.starting.Some?
    ensures Good(s, DoStartTimer(s, timerStarts))
  {
  }

  lemma InitialOrderly(s: Socket)
    requires Initial(s)
    ensures Orderly(s)
  {
  }

  /** In every run the socket stays orderly, and an accepted one that is DISCONNECTED stays so. */
  lemma {:induction false} RunGood(s: Socket, run: seq<Action>)
    requires Orderly(s)
    ensures Orderly(Run(s, run)) && Run(s, run).connectable == s.connectable && Run(s, run).epoch >= s.epoch
    ensures !s.connectable && s.state == DISCONNECTED ==> Run(s, run).state == DISCONNECTED
    decreases |run|
  {
    hide Orderly, Step;
    if run != [] {
      StepGood(s, run[0]);
      RunGood(Step(s, run[0]), run[1..]);
    }
  }

  // ---- The states of an epoch ----

  /** The state before the others, unless they begin with it. */
  function Before(state: ConnState, trail: seq<ConnState>): seq<ConnState> {
    if trail != [] && trail[0] == state then trail else [state] + trail
  }

  /** The states a socket goes through in an epoch, without repetitions. */
  function Trail(s: Socket, run: seq<Action>, k: nat): seq<ConnState>
    decreases |run|
  {
    var rest := if run == [] then [] else Trail(Step(s, run[0]), run[1..], k);
    if s.epoch == k then Before(s.state, rest) else rest
  }

  predicate Path(trail: seq<ConnState>) {
    forall i :: 0 <= i < |trail| - 1 ==> Edge(trail[i], trail[i + 1])
  }

  lemma BeforePath(state: ConnState, trail: seq<ConnState>)
    requires Path(trail) && (trail != [] ==> trail[0] == state || Edge(state, trail[0]))
    ensures Path(Before(state, trail)) && Before(state, trail)[0] == state
    ensures trail != [] ==> Before(state, trail)[|Before(state, trail)| - 1] == trail[|trail| - 1]
  {
  }

  lemma {:induction false} TrailIsPath(s: Socket, run: seq<Action>, k: nat)
    requires Orderly(s)
    ensures var trail := Trail(s, run, k);
            && Path(trail)
            && (s.epoch > k ==> trail == [])
            && (s.epoch == k ==> trail != [] && trail[0] == s.state)
            && (s.epoch < k && trail != [] ==> trail[0] == CONNECTING)
            && (s.epoch <= k <= Run(s, run).epoch ==> trail != [])
            && (trail != [] ==>
                  trail[|trail| - 1] == if Run(s, run).epoch == k then Run(s, run).state else DISCONNECTED)
    decreases |run|
  {
    hide Orderly, Step;
    if run != [] {
      var t := Step(s, run[0]);
      StepGood(s, run[0]);
      TrailIsPath(t, run[1..], k);
      RunGood(t, run[1..]);
      if s.epoch == k {
        BeforePath(s.state, Trail(t, run[1..], k));
      }
    }
  }

  const THROUGH := [CONNECTING, CONNECTED, DISCONNECTING, DISCONNECTED]
  const FAILED := [CONNECTING, DISCONNECTING, DISCONNECTED]

  lemma PathsAre(trail: seq<ConnState>)
    requires Path(trail) && trail != [] && trail[0] == CONNECTING
    ensures trail <= THROUGH || trail <= FAILED
  {
    assert |trail| > 1 ==> Edge(trail[0], trail[1]);
    assert |trail| > 2 ==> Edge(trail[1], trail[2]);
    assert |trail| > 3 ==> Edge(trail[2], trail[3]);
    assert |trail| > 4 ==> Edge(trail[3], trail[4]);
  }

  /**
    In every run of a client each epoch goes through CONNECTING, then CONNECTED or not, then
    DISCONNECTING, then DISCONNECTED, as far as it has come; an epoch that was followed by another
    went all the way.
  */
  lemma EpochPath(kind: Kind, auth: AuthType, run: seq<Action>, k: nat)
    requires 0 < k <= Run(Client(kind, auth), run).epoch
    ensures var t := Run(Client(kind, auth), run);
            var trail := Trail(Client(kind, auth), run, k);
            && trail != [] && (trail <= THROUGH || trail <= FAILED)
            && trail[|trail| - 1] == (if t.epoch == k then t.state else DISCONNECTED)
            && (k < t.epoch ==> trail == THROUGH || trail == FAILED)
  {
    var s := Client(kind, auth);
    InitialOrderly(s);
    TrailIsPath(s, run, k);
    PathsAre(Trail(s, run, k));
  }

  /** An accepted socket has one epoch, which goes the same way, for TCP from CONNECTED on. */
  lemma AcceptedPath(kind: Kind, run: seq<Action>)
    ensures var trail := Trail(Accepting(kind), run, 1);
            && trail != [] && trail[|trail| - 1] == Run(Accepting(kind), run).state
            && (if kind.WS? then trail <= THROUGH || trail <= FAILED else trail <= THROUGH[1..])
  {
    var s := Accepting(kind);
    InitialOrderly(s);
    RunGood(s, run);
    TrailIsPath(s, run, 1);
    var trail := Trail(s, run, 1);
    assert Orderly(Run(s, run));
    if kind.WS? {
      PathsAre(trail);
    } else {
      PathFromConnected(trail);
    }
  }

  lemma PathFromConnected(trail: seq<ConnState>)
    requires Path(trail) && trail != [] && trail[0] == CONNECTED
    ensures trail <= THROUGH[1..]
  {
    assert |trail| > 1 ==> Edge(trail[0], trail[1]);
    assert |trail| > 2 ==> Edge(trail[1], trail[2]);
    assert |trail| > 3 ==> Edge(trail[2], trail[3]);
  }

  /**
    In every run: DISCONNECTING lasts from the decision to close to the close callback, a stream
    exists exactly while the state is not DISCONNECTED, and an armed connect timer means CONNECTING.
  */
  lemma StateFollowsStream(s: Socket, run: seq<Action>)
    requires Initial(s)
    ensures var t := Run(s, run);
            && (t.state == DISCONNECTING <==> t.stream == Closing || t.pc == IssueClose)
            && (t.state == DISCONNECTED <==> t.stream == NoStream)
            && (t.connectTimer ==> t.state == CONNECTING)
  {
    InitialOrderly(s);
    RunGood(s, run);
  }

  /** An accepted socket never leaves DISCONNECTED. */
  lemma ServerStaysDisconnected(kind: Kind, before: seq<Action>, after: seq<Action>)
    requires Run(Accepting(kind), before).state == DISCONNECTED
    ensures Run(Run(Accepting(kind), before), after).state == DISCONNECTED
  {
    InitialOrderly(Accepting(kind));
    RunGood(Accepting(kind), before);
    var t := Run(Accepting(kind), before);
    RunGood(t, after);
    hide Run, Orderly;
  }
}
