/**
  The connection engine of one socket as a transition system on values.

  Every step is one section of SocketImpl that runs without giving up the state mutex,
  so a run of steps is a thread interleaving: application threads (and the handler, while a
  callback is running) call Connect, Disconnect and Send between any two sections of a loop
  callback, and `pc` remembers where the loop callback will go on.
*/
module Protocol {
  import opened Basics

  datatype Error =
    | OK | EALREADY | EBUSY | ECANCELED | EINVAL | ENOSPC | ENOTCONN | ETIMEDOUT | EWS
    | Other(code: nat)

  datatype ConnState = DISCONNECTING | DISCONNECTED | CONNECTING | CONNECTED

  datatype Kind = TCP | WS

  datatype Message = Request(msgid: nat) | Response(answers: nat) | Notify | Invalid

  /** A heap copy of a message: `ptr` is its address, never reused within a run. */
  datatype Copy = Copy(ptr: nat, body: Message)

  datatype AuthType = UNUSED | BASIC | DIGEST | UNKNOWN

  /** What WSSocketImpl remembers of the last handshake reply. */
  datatype WsContext = WsContext(code: int, auth: AuthType, nc: nat)

  const WS_UNAUTHORIZED := 401
  const WS_SERVICE_UNAVAILABLE := 503
  const NC_LIMIT := 0xfffd

  /** A decoded element of a chunk that was read. */
  datatype Item = InRequest | InNotify | InResponse(msgid: nat) | Undecodable

  /** The transport handle: `Closing` from tv_close to its close callback. */
  datatype StreamState = NoStream | Open | Closing

  /** Why the handler was told OnError about a message. */
  datatype Cause =
    | NotSent                   // could not be written when the queue was flushed
    | Discarded(epoch: nat)     // cancelled by the close of that stream
    | TimedOut
    | WriteError(found: bool)   // the write failed; `found`: its timer entry was still there

  /** History: what the handler, the heap and the transport saw, in order. */
  datatype Event =
    | Allocated(copy: Copy)
    | Accepted(copy: Copy, queued: bool)
    | Written(copy: Copy)
    | Freed(copy: Copy)
    | TimerFreed(copy: Copy)
    | Answered(copy: Copy)
    | Failed(copy: Copy, cause: Cause)
    | HandlerMessage
    | Opened(epoch: nat, byUser: bool)
    | TransportFailed(epoch: nat, error: Error)
    | CloseIssued(epoch: nat)
    | Closed(epoch: nat)
    | HandlerConnect(epoch: nat)
    | HandlerDisconnect(epoch: nat, error: Error)
    | Suppressed(epoch: nat)
    | CloseRetried(epoch: nat)

  /** Where the loop thread is inside a callback. */
  datatype LoopPc =
    | Idle
    | ConnectLock(status: Error)
    | IssueClose
    | ConnectCallback
    | FlushQueue
    | ReportUnsent(unsent: seq<Copy>)
    | HandshakeFailed
    | ReadItems(items: seq<Item>)
    | ReadFailed(error: Error)
    | ReadError(error: Error)
    | ReleaseSocket
    | DecideRetry
    | RetryConnect
    | DiscardQueue
    | DiscardUnsent(unsent: seq<Copy>)
    | DiscardTimers(entries: seq<Copy>)
    | NotifyDisconnect

  datatype Socket = Socket(
    // fields of SocketImpl and WSSocketImpl
    kind: Kind,
    connectable: bool,
    authConfig: AuthType,
    state: ConnState,
    handshaking: bool,
    lastError: Error,
    connectTimeout: nat,
    connectTimer: bool,
    pending: seq<Copy>,
    timers: seq<Copy>,
    ws: WsContext,
    // libtv: the stream, a connect request under way, accepted writes, armed request timers
    stream: StreamState,
    epoch: nat,
    dialing: bool,
    reading: bool,
    inflight: multiset<Copy>,
    armed: set<Copy>,
    // the delegate's socket pool
    inPool: bool,
    // control: the loop thread, and an application thread inside Send holding the state mutex, which
    // has written a request and will push its entry, or has pushed it and will start its timer
    pc: LoopPc,
    sending: Option<Copy>,
    starting: Option<Copy>,
    // history
    next: nat,
    closing: nat,
    replies: nat,
    raced: bool,
    chunkStart: nat,
    stale: set<Copy>,
    trace: seq<Event>
  )

  function Client(kind: Kind, authConfig: AuthType): Socket {
    Socket(kind, true, authConfig, DISCONNECTED, false, OK, 0, false, [], [],
           WsContext(101, UNUSED, 0),
           NoStream, 0, false, false, multiset{}, {}, false, Idle, None, None, 0, 0, 0, false, 0, {}, [])
  }

  /** An accepted connection: a WebSocket still has its handshake to finish. */
  function Accepting(kind: Kind): Socket {
    Socket(kind, false, UNUSED, if kind.WS? then CONNECTING else CONNECTED, kind.WS?, OK, 0, false, [], [],
           WsContext(101, UNUSED, 0),
           Open, 1, false, true, multiset{}, {}, true, Idle, None, None, 0, 0, 0, false, 0, {}, [])
  }

  predicate Initial(s: Socket) {
    || (exists k, a :: s == Client(k, a))
    || (exists k :: s == Accepting(k))
  }

  /** What the pool and the transport answer to a Connect. */
  datatype Dial = Dial(room: bool, status: Error, timerStarts: bool)

  datatype WriteResult = WriteResult(status: Error, timerStarts: bool)

  /** The handshake reply found in the handle; `challenge` is the type of its WWW-Authenticate header. */
  datatype Reply = Reply(code: int, challenge: Option<AuthType>)

  datatype Action =
    // application threads, and handlers
    | CallConnect(timeout: nat, dial: Dial)
    | CallDisconnect
    | CallSend(body: Message, write: Error)
    | PushEntry
    | StartTimer(timerStarts: bool)
    // event loop
    | ConnectDone(status: Error, reply: Reply)
    | ConnectTimeout(reply: Reply)
    | HandshakeDone(status: Error)
    | ReadChunk(items: seq<Item>)
    | ReadBroken(error: Error)
    | WriteDone(copy: Copy, status: Error)
    | RequestTimeout(copy: Copy)
    | CloseDone
    | Continue
    | ContinueFlush(results: seq<WriteResult>)
    | ContinueRetry(dial: Dial)

  // ---- Small pieces ----

  /** Nobody is inside Send with the state mutex. */
  predicate Unlocked(s: Socket) {
    s.sending.None? && s.starting.None?
  }

  predicate Live(s: Socket) {
    s.state == CONNECTING || s.state == CONNECTED
  }

  function Emit(s: Socket, e: Event): Socket {
    s.(trace := s.trace + [e])
  }

  predicate Answers(c: Copy, msgid: nat) {
    c.body.Request? && c.body.msgid == msgid
  }

  /** First entry with that message id, |entries| when there is none. */
  function IndexOf(entries: seq<Copy>, msgid: nat): (i: nat)
    ensures i <= |entries|
    ensures i < |entries| ==> Answers(entries[i], msgid)
    ensures forall j :: 0 <= j < i ==> !Answers(entries[j], msgid)
  {
    if entries == [] then 0
    else if Answers(entries[0], msgid) then 0
    else 1 + IndexOf(entries[1..], msgid)
  }

  function EraseId(entries: seq<Copy>, msgid: nat): seq<Copy> {
    var i := IndexOf(entries, msgid);
    if i < |entries| then RemoveAt(entries, i) else entries
  }

  // ---- Connect, Disconnect, Send ----

  function ConnectResult(s: Socket, dial: Dial): Error {
    if !s.connectable then EINVAL
    else if Live(s) then EALREADY
    else if s.state == DISCONNECTING then EBUSY
    else if !dial.room then ENOSPC
    else dial.status
  }

  function DoConnect(s: Socket, timeout: nat, dial: Dial, byUser: bool): Socket {
    if !s.connectable || s.state != DISCONNECTED || !dial.room then s
    else if dial.status != OK then s.(inPool := false)
    else Emit(s.(inPool := true, state := CONNECTING, stream := Open, epoch := s.epoch + 1,
                 dialing := true, reading := false, replies := 0, raced := s.pc == ReleaseSocket,
                 ws := if s.kind.WS? then s.ws.(auth := s.authConfig) else s.ws,
                 connectTimeout := timeout, connectTimer := timeout > 0 && dial.timerStarts),
              Opened(s.epoch + 1, byUser))
  }

  function DoDisconnect(s: Socket, handshaking: bool): Socket {
    if !Live(s) then s.(handshaking := handshaking)
    else Emit(s.(handshaking := handshaking, connectTimer := false, state := DISCONNECTING, lastError := OK,
                 stream := Closing),
              CloseIssued(s.epoch))
  }

  function SendResult(s: Socket, body: Message, write: Error): Error {
    if !Live(s) then ENOTCONN
    else if body.Invalid? then EINVAL
    else if s.state == CONNECTING then OK
    else write
  }

  /** tv_write took the message. */
  function HandOver(s: Socket, c: Copy): Socket {
    Emit(s.(inflight := s.inflight + multiset{c}), Written(c))
  }

  /** The RequestTimer is pushed and started. */
  function Register(s: Socket, c: Copy, timerStarts: bool): Socket {
    s.(timers := s.timers + [c], armed := if timerStarts then s.armed + {c} else s.armed)
  }

  /** The heap copy Send makes of a message. */
  function Allocate(s: Socket, c: Copy): (t: Socket)
    ensures t == s.(next := s.next + 1, trace := t.trace)
  {
    Emit(s.(next := s.next + 1), Allocated(c))
  }

  /** The message goes out at once; for a request, Send still holds the mutex to push its timer. */
  function WriteNow(s: Socket, c: Copy): (t: Socket)
    ensures t == s.(sending := t.sending, inflight := t.inflight, trace := t.trace)
  {
    HandOver(Emit(s.(sending := if c.body.Request? then Some(c) else s.sending), Accepted(c, false)), c)
  }

  function QueueUp(s: Socket, c: Copy): (t: Socket)
    ensures t == s.(pending := s.pending + [c], next := s.next + 1, trace := t.trace)
  {
    Emit(Allocate(s.(pending := s.pending + [c]), c), Accepted(c, true))
  }

  function Refuse(s: Socket, c: Copy): (t: Socket)
    ensures t == s.(next := s.next + 1, trace := t.trace)
  {
    Emit(Allocate(s, c), Freed(c))
  }

  function DoSend(s: Socket, body: Message, write: Error): (t: Socket)
    ensures t == s.(pending := t.pending, sending := t.sending, inflight := t.inflight, next := t.next,
            trace := t.trace)
  {
    hide QueueUp, Refuse, WriteNow, Allocate;
    if !Live(s) || body.Invalid? then s
    else if s.state == CONNECTING then QueueUp(s, Copy(s.next, body))
    else if write != OK then Refuse(s, Copy(s.next, body))
    else WriteNow(Allocate(s, Copy(s.next, body)), Copy(s.next, body))
  }

  /** Send pushes the entry of the request it has written, under the mutex of the table only. */
  function DoPushEntry(s: Socket): Socket
    requires s.sending.Some?
  {
    s.(sending := None, starting := s.sending, timers := s.timers + [s.sending.value])
  }

  /** Send starts the timer, in the table or not: history notes a timer started after it was freed. */
  function DoStartTimer(s: Socket, timerStarts: bool): (t: Socket)
    requires s.starting.Some?
    ensures t == s.(starting := None, armed := t.armed, stale := t.stale)
  {
    if !timerStarts then s.(starting := None)
    else if s.starting.value in s.timers then s.(starting := None, armed := s.armed + {s.starting.value})
    else s.(starting := None, armed := s.armed + {s.starting.value}, stale := s.stale + {s.starting.value})
  }

  // ---- Loop callbacks, section by section ----

  /** The nonce count wraps. */
  function NextCount(nc: nat): (next: nat)
    ensures 1 <= next <= 0xfffe
  {
    (if nc > NC_LIMIT then 0 else nc) + 1
  }

  /** A challenge counts one use of the nonce count; any other reply forgets it. */
  function ReplyContext(ws: WsContext, reply: Reply): WsContext {
    match reply.challenge
    case Some(auth) => WsContext(reply.code, auth, NextCount(ws.nc))
    case None => WsContext(reply.code, UNUSED, 0)
  }

  /** WSSocketImpl::OnConnect, before it calls SocketImpl::OnConnect. */
  function TakeReply(s: Socket, reply: Reply): Socket {
    s.(replies := s.replies + 1, ws := if s.kind.TCP? then s.ws else ReplyContext(s.ws, reply))
  }

  function DoConnectLock(s: Socket, status: Error): Socket {
    if s.state != CONNECTING then s.(connectTimer := false, pc := Idle)
    else if status != OK then
      Emit(s.(connectTimer := false, state := DISCONNECTING, lastError := status, pc := IssueClose),
           TransportFailed(s.epoch, status))
    else
      Emit(s.(connectTimer := false, reading := true, lastError := OK, pc := ConnectCallback),
           HandlerConnect(s.epoch))
  }

  function DoIssueClose(s: Socket): Socket {
    Emit(s.(stream := Closing, pc := Idle), CloseIssued(s.epoch))
  }

  /** The handler's OnConnect has returned. */
  function DoConnectReturned(s: Socket): Socket {
    s.(state := if s.state == CONNECTING then CONNECTED else s.state, pc := FlushQueue)
  }

  /** _Send on a queued message that tv_write takes. */
  function SendQueued(s: Socket, c: Copy, timerStarts: bool): (t: Socket)
    ensures t == s.(timers := t.timers, armed := t.armed, inflight := t.inflight, trace := s.trace + [Written(c)])
    ensures s.armed <= t.armed
  {
    if c.body.Request? then HandOver(Register(s, c, timerStarts), c) else HandOver(s, c)
  }

  /** A queued message that is not written is to be reported. */
  function KeepBack(s: Socket, c: Copy): (t: Socket)
    requires s.pc.ReportUnsent?
    ensures t.pc.ReportUnsent? && t == s.(pc := t.pc)
  {
    s.(pc := ReportUnsent(s.pc.unsent + [c]))
  }

  /** One iteration of the loop in _SendPendingMessages, on the head of the queue. */
  function FlushOne(s: Socket, r: WriteResult): (t: Socket)
    requires s.pc.ReportUnsent? && s.pending != []
    ensures t.pc.ReportUnsent?
    ensures t == s.(pending := s.pending[1..], pc := t.pc, timers := t.timers, armed := t.armed, inflight := t.inflight,
                    trace := t.trace)
  {
    hide SendQueued, KeepBack;
    var u := s.(pending := s.pending[1..]);
    if s.state != CONNECTED || r.status != OK then KeepBack(u, s.pending[0])
    else SendQueued(u, s.pending[0], r.timerStarts)
  }

  function FlushLoop(s: Socket, results: seq<WriteResult>): (t: Socket)
    requires s.pc.ReportUnsent? && |results| == |s.pending|
    ensures t.pc.ReportUnsent? && t.pending == []
    ensures t == s.(pending := t.pending, pc := t.pc, timers := t.timers, armed := t.armed, inflight := t.inflight,
                    trace := t.trace)
    decreases |results|
  {
    if results == [] then s else FlushLoop(FlushOne(s, results[0]), results[1..])
  }

  function DoFlush(s: Socket, results: seq<WriteResult>): Socket
    requires |results| == |s.pending|
  {
    FlushLoop(s.(pc := ReportUnsent([])), results)
  }

  function DoReportUnsent(s: Socket, unsent: seq<Copy>): (t: Socket)
    ensures t == s.(pc := t.pc, trace := t.trace)
    ensures t.pc == Idle || t.pc.ReportUnsent?
  {
    if unsent == [] then s.(pc := Idle)
    else Emit(Emit(s.(pc := ReportUnsent(unsent[1..])), Failed(unsent[0], NotSent)), Freed(unsent[0]))
  }

  function DoHandshake(s: Socket, status: Error): Socket {
    if status != OK then s.(pc := HandshakeFailed)
    else s.(handshaking := false, state := CONNECTED, pc := FlushQueue)
  }

  function DoReadChunk(s: Socket, items: seq<Item>): Socket {
    if !Live(s) then s else s.(pc := ReadItems(items), chunkStart := |s.trace|)
  }

  function DoReadBroken(s: Socket, error: Error): Socket {
    if !Live(s) then s else Emit(s.(pc := ReadFailed(error)), TransportFailed(s.epoch, error))
  }

  function DoResponse(s: Socket, msgid: nat): (t: Socket)
    ensures t == s.(timers := t.timers, armed := t.armed, trace := t.trace)
  {
    var i := IndexOf(s.timers, msgid);
    if i == |s.timers| then s
    else
      var c := s.timers[i];
      Emit(Emit(s.(timers := RemoveAt(s.timers, i), armed := s.armed - {c}), TimerFreed(c)), Answered(c))
  }

  function DoReadItem(s: Socket, items: seq<Item>): Socket {
    if items == [] then s.(pc := Idle)
    else
      match items[0]
      case InRequest => Emit(s.(pc := ReadItems(items[1..])), HandlerMessage)
      case InNotify => Emit(s.(pc := ReadItems(items[1..])), HandlerMessage)
      case InResponse(msgid) => DoResponse(s.(pc := ReadItems(items[1..])), msgid)
      case Undecodable => DoDisconnect(s.(pc := Idle), false)
  }

  function DoWriteDone(s: Socket, c: Copy, status: Error): (t: Socket)
    ensures t == s.(timers := t.timers, armed := t.armed, inflight := s.inflight - multiset{c}, trace := t.trace)
  {
    if status == OK then Emit(s.(inflight := s.inflight - multiset{c}), Freed(c))
    else
      var i := if c.body.Request? then IndexOf(s.timers, c.body.msgid) else |s.timers|;
      if i == |s.timers| then
        Emit(Emit(s.(inflight := s.inflight - multiset{c}), Failed(c, WriteError(false))), Freed(c))
      else
        var e := s.timers[i];
        Emit(Emit(Emit(s.(timers := RemoveAt(s.timers, i), armed := s.armed - {e},
                          inflight := s.inflight - multiset{c}),
                       TimerFreed(e)), Failed(c, WriteError(true))), Freed(c))
  }

  function DoRequestTimeout(s: Socket, c: Copy): (t: Socket)
    ensures t == s.(timers := t.timers, armed := s.armed - {c}, trace := t.trace)
  {
    Emit(Emit(s.(timers := if c.body.Request? then EraseId(s.timers, c.body.msgid) else s.timers,
                 armed := s.armed - {c}),
              Failed(c, TimedOut)), TimerFreed(c))
  }

  function DoCloseDone(s: Socket): Socket {
    if s.state == DISCONNECTED then
      Emit(s.(connectTimer := false, stream := NoStream, dialing := false, reading := false), Closed(s.epoch))
    else
      Emit(s.(connectTimer := false, stream := NoStream, dialing := false, reading := false,
              state := DISCONNECTED, closing := s.epoch, pc := ReleaseSocket), Closed(s.epoch))
  }

  predicate CheckRetryAuth(ws: WsContext) {
    ws.code == WS_UNAUTHORIZED && ws.auth == DIGEST && ws.nc < 2
  }

  function DoDecideRetry(s: Socket): (t: Socket)
    ensures t == s.(ws := t.ws, pc := t.pc)
    ensures t.pc == RetryConnect || t.pc == DiscardQueue
  {
    if s.connectable && s.kind.WS? then
      if s.lastError == EWS then s.(pc := if CheckRetryAuth(s.ws) then RetryConnect else DiscardQueue)
      else s.(ws := s.ws.(code := WS_SERVICE_UNAVAILABLE), pc := DiscardQueue)
    else s.(pc := DiscardQueue)
  }

  function DoRetry(s: Socket, dial: Dial): Socket {
    DoConnect(Emit(s.(pc := Idle), CloseRetried(s.closing)), s.connectTimeout, dial, false)
  }

  function DoDiscardUnsent(s: Socket, unsent: seq<Copy>): (t: Socket)
    ensures t == s.(pc := t.pc, timers := t.timers, trace := t.trace)
    ensures t.pc.DiscardUnsent? || t.pc.DiscardTimers?
  {
    if unsent == [] then s.(pc := DiscardTimers(s.timers), timers := [])
    else Emit(Emit(s.(pc := DiscardUnsent(unsent[1..])), Failed(unsent[0], Discarded(s.closing))), Freed(unsent[0]))
  }

  function DoDiscardTimers(s: Socket, entries: seq<Copy>): (t: Socket)
    ensures t == s.(pc := t.pc, armed := t.armed, trace := t.trace)
    ensures t.pc.DiscardTimers? || t.pc == NotifyDisconnect
  {
    if entries == [] then s.(pc := NotifyDisconnect)
    else Emit(Emit(s.(pc := DiscardTimers(entries[1..]), armed := s.armed - {entries[0]}),
                   Failed(entries[0], Discarded(s.closing))), TimerFreed(entries[0]))
  }

  function DoNotify(s: Socket): Socket {
    Emit(s.(pc := Idle), if s.handshaking then Suppressed(s.closing) else HandlerDisconnect(s.closing, s.lastError))
  }

  /** The section a loop callback runs next, when it needs nothing from outside. */
  function DoContinue(s: Socket): Socket {
    match s.pc
    case ConnectLock(status) => DoConnectLock(s, status)
    case IssueClose => DoIssueClose(s)
    case ConnectCallback => DoConnectReturned(s)
    case ReportUnsent(unsent) => DoReportUnsent(s, unsent)
    case HandshakeFailed => DoDisconnect(s.(pc := Idle), true)
    case ReadItems(items) => DoReadItem(s, items)
    case ReadFailed(error) => DoDisconnect(s.(pc := ReadError(error)), s.handshaking)
    case ReadError(error) => s.(lastError := error, pc := Idle)
    case ReleaseSocket => s.(inPool := false, pc := DecideRetry)
    case DecideRetry => DoDecideRetry(s)
    case DiscardQueue => s.(pc := DiscardUnsent(s.pending), pending := [])
    case DiscardUnsent(unsent) => DoDiscardUnsent(s, unsent)
    case DiscardTimers(entries) => DoDiscardTimers(s, entries)
    case NotifyDisconnect => DoNotify(s)
    case _ => s
  }

  // ---- Steps and runs ----

  /** Sections of a loop callback that take the state mutex. */
  predicate Locks(pc: LoopPc) {
    match pc
    case ConnectLock(_) => true
    case ConnectCallback => true
    case HandshakeFailed => true
    case ReadFailed(_) => true
    case ReadItems(items) => items != [] && items[0] == Undecodable
    case _ => false
  }

  /**
    When a step can happen: the state mutex is free where the section takes it, loop callbacks
    run one at a time, and libtv keeps its contract (a callback only for something under way,
    no handshake report after tv_close, the close callback last and once).
  */
  predicate Enabled(s: Socket, a: Action) {
    match a
    case CallConnect(_, _) => Unlocked(s)
    case CallDisconnect => Unlocked(s)
    case CallSend(_, _) => Unlocked(s)
    case PushEntry => s.sending.Some?
    case StartTimer(_) => s.starting.Some?
    case ConnectDone(_, _) => s.pc == Idle && s.dialing
    case ConnectTimeout(_) => s.pc == Idle && s.connectTimer
    case HandshakeDone(_) => s.pc == Idle && Unlocked(s) && !s.connectable && s.kind.WS? && s.stream == Open
    case ReadChunk(_) => s.pc == Idle && Unlocked(s) && s.reading && s.stream != NoStream
    case ReadBroken(e) => s.pc == Idle && Unlocked(s) && s.reading && s.stream != NoStream && e != OK
    case WriteDone(c, _) => s.pc == Idle && c in s.inflight
    case RequestTimeout(c) => s.pc == Idle && c in s.armed
    case CloseDone => s.pc == Idle && Unlocked(s) && s.stream == Closing && s.inflight == multiset{}
    case Continue => s.pc != Idle && s.pc != FlushQueue && s.pc != RetryConnect && (Locks(s.pc) ==> Unlocked(s))
    case ContinueFlush(results) => s.pc == FlushQueue && Unlocked(s) && |results| == |s.pending|
    case ContinueRetry(_) => s.pc == RetryConnect && Unlocked(s)
  }

  function Next(s: Socket, a: Action): Socket
    requires Enabled(s, a)
  {
    match a
    case CallConnect(timeout, dial) => DoConnect(s, timeout, dial, true)
    case CallDisconnect => DoDisconnect(s, false)
    case CallSend(body, write) => DoSend(s, body, write)
    case PushEntry => DoPushEntry(s)
    case StartTimer(timerStarts) => DoStartTimer(s, timerStarts)
    case ConnectDone(status, reply) => TakeReply(s.(dialing := false, pc := ConnectLock(status)), reply)
    case ConnectTimeout(reply) => TakeReply(s.(connectTimer := false, pc := ConnectLock(ETIMEDOUT)), reply)
    case HandshakeDone(status) => DoHandshake(s, status)
    case ReadChunk(items) => DoReadChunk(s, items)
    case ReadBroken(error) => DoReadBroken(s, error)
    case WriteDone(c, status) => DoWriteDone(s, c, status)
    case RequestTimeout(c) => DoRequestTimeout(s, c)
    case CloseDone => DoCloseDone(s)
    case Continue => DoContinue(s)
    case ContinueFlush(results) => DoFlush(s, results)
    case ContinueRetry(dial) => DoRetry(s, dial)
  }

  /** An action that cannot happen in a state leaves it alone, so every list of actions is a run. */
  function Step(s: Socket, a: Action): Socket {
    if Enabled(s, a) then Next(s, a) else s
  }

  function Run(s: Socket, run: seq<Action>): Socket
    decreases |run|
  {
    if run == [] then s else Run(Step(s, run[0]), run[1..])
  }

  lemma RunCons(s: Socket, a: Action, run: seq<Action>)
    ensures Run(s, [a] + run) == Run(Step(s, a), run)
  {
    hide Step;
    assert ([a] + run)[1..] == run;
  }

  lemma RunNil(s: Socket)
    ensures Run(s, []) == s
  {
  }
}
