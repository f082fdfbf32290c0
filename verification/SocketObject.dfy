/**
  The socket object itself: fields updated in place, one method for every stretch of code that
  runs without giving up the state mutex, and the loop callbacks put together from them. The
  snapshot of the object moves exactly as the transition system does, so what is proved about
  runs holds of every object.
*/
module SocketObject {
  import opened Basics
  import opened Protocol
  import opened Lifecycle
  import opened Results

  class SocketImpl {
    const kind: Kind
    const connectable: bool
    const authConfig: AuthType
    var state: ConnState
    var handshaking: bool
    var lastError: Error
    var connectTimeout: nat
    var connectTimer: bool
    var pending: seq<Copy>
    var timers: seq<Copy>
    var ws: WsContext
    var next: nat // the next address the heap gives out
    var pc: LoopPc // where the loop thread goes on, with what it holds in local variables
    var sending: Option<Copy> // what a Send holding the state mutex has just written
    var starting: Option<Copy> // and what it has pushed, to start its timer next
    /** The other parts of the state: libtv, the pool, and the history. */
    ghost var world: Socket

    ghost function Snapshot(): Socket
      reads this
    {
      world.(kind := kind, connectable := connectable, authConfig := authConfig,
             state := state, handshaking := handshaking, lastError := lastError, connectTimeout := connectTimeout,
             connectTimer := connectTimer, pending := pending, timers := timers, ws := ws, next := next,
             pc := pc, sending := sending, starting := starting)
    }

    ghost predicate Valid()
      reads this
    {
      Orderly(Snapshot())
    }

    /** A client socket. */
    constructor (kind: Kind, authConfig: AuthType)
      ensures Valid() && Snapshot() == Client(kind, authConfig)
    {
      this.kind, this.connectable, this.authConfig := kind, true, authConfig;
      state, handshaking, lastError, connectTimeout, connectTimer := DISCONNECTED, false, OK, 0, false;
      pending, timers, ws, next := [], [], WsContext(101, UNUSED, 0), 0;
      pc, sending, starting := Idle, None, None;
      world := Client(kind, authConfig);
    }

    /** A socket for an accepted stream, already reading and in the pool of its server. */
    constructor Accept(kind: Kind)
      ensures Valid() && Snapshot() == Accepting(kind)
    {
      this.kind, this.connectable, this.authConfig := kind, false, UNUSED;
      state := if kind.WS? then CONNECTING else CONNECTED;
      handshaking := kind.WS?;
      lastError, connectTimeout, connectTimer := OK, 0, false;
      pending, timers, ws, next := [], [], WsContext(101, UNUSED, 0), 0;
      pc, sending, starting := Idle, None, None;
      world := Accepting(kind);
    }

    // ---- What the application calls ----

    method Connect(timeout: nat, dial: Dial, ghost byUser: bool) returns (e: Error)
      requires Valid()
      modifies this
      ensures Snapshot() == DoConnect(old(Snapshot()), timeout, dial, byUser)
      ensures e == ConnectResult(old(Snapshot()), dial)
      ensures e == OK <==> Appended(old(world.trace), world.trace, Opened(old(world.epoch) + 1, byUser))
      ensures e != OK ==> state == old(state) && ws == old(ws) && connectTimeout == old(connectTimeout)
      ensures !connectable ==> e == EINVAL
      ensures connectable ==>
                e == match old(state)
                     case DISCONNECTED => if dial.room then dial.status else ENOSPC
                     case DISCONNECTING => EBUSY
                     case _ => EALREADY
      ensures connectable && old(state) == DISCONNECTED && dial.room ==> (world.inPool <==> dial.status == OK)
    {
      ConnectAnswer(Snapshot(), timeout, dial, byUser);
      hide Appended;
      if !connectable {
        return EINVAL;
      }
      if state == CONNECTING || state == CONNECTED {
        return EALREADY;
      } else if state == DISCONNECTING {
        return EBUSY;
      }
      if !dial.room {
        return ENOSPC;
      }
      assert Snapshot().state == DISCONNECTED;
      e := dial.status;
      if e == OK {
        Dialled(timeout, dial, byUser);
      } else {
        world := world.(inPool := false);
      }
    }

    /** The virtual Connect() succeeded: the stream is being opened, and the timer may start. */
    method Dialled(timeout: nat, dial: Dial, ghost byUser: bool)
      requires !connectTimer && connectable && state == DISCONNECTED && dial.room && dial.status == OK
      modifies this
      ensures Snapshot() == DoConnect(old(Snapshot()), timeout, dial, byUser)
    {
      ghost var was := Snapshot();
      Opens(was, timeout, dial, byUser);
      hide DoConnect;
      ChooseAuth();
      StartConnectTimer(timeout, dial.timerStarts);
      state := CONNECTING;
      world := Emit(world.(inPool := true, stream := Open, epoch := world.epoch + 1, dialing := true, reading := false,
                           replies := 0, raced := pc == ReleaseSocket),
                    Opened(world.epoch + 1, byUser));
    }

    method ChooseAuth()
      modifies this`ws
      ensures ws == if kind.WS? then old(ws).(auth := authConfig) else old(ws)
    {
      if kind.WS? {
        ws := ws.(auth := authConfig);
      }
    }

    method StartConnectTimer(timeout: nat, starts: bool)
      requires !connectTimer
      modifies this`connectTimeout, this`connectTimer
      ensures connectTimeout == timeout && connectTimer == (timeout > 0 && starts)
    {
      if timeout > 0 {
        connectTimeout := timeout;
        connectTimer := starts;
      } else {
        connectTimeout := 0;
      }
    }

    method Disconnect(handshake: bool) returns (e: Error)
      modifies this`handshaking, this`connectTimer, this`state, this`lastError, this`world
      ensures Snapshot() == DoDisconnect(old(Snapshot()), handshake)
      ensures e == if Live(old(Snapshot())) then OK else EALREADY
    {
      hide Emit;
      handshaking := handshake;
      if state == DISCONNECTING || state == DISCONNECTED {
        return EALREADY;
      }
      Close();
      return OK;
    }

    /** The rest of Disconnect, on a live socket. */
    method Close()
      modifies this`connectTimer, this`state, this`lastError, this`world
      ensures Snapshot() == Emit(old(Snapshot()).(connectTimer := false, state := DISCONNECTING, lastError := OK,
                                                  stream := Closing),
                                 CloseIssued(old(world.epoch)))
    {
      connectTimer := false;
      state := DISCONNECTING;
      lastError := OK;
      world := Emit(world.(stream := Closing), CloseIssued(world.epoch));
    }

    /** Up to the end, but for a request that is written: PushEntry and StartTimer still register it. */
    method Send(body: Message, write: Error) returns (e: Error)
      requires sending.None?
      modifies this`next, this`pending, this`sending, this`world
      ensures Snapshot() == DoSend(old(Snapshot()), body, write)
      ensures e == SendResult(old(Snapshot()), body, write)
      ensures e == OK <==> TakesIn(old(Snapshot()), Snapshot(), Copy(old(next), body))
      ensures e != OK ==> pending == old(pending) && sending == old(sending) && world.inflight == old(world.inflight)
      ensures state == DISCONNECTING || state == DISCONNECTED ==> e == ENOTCONN
      ensures state == CONNECTING || state == CONNECTED ==>
                e == if body.Invalid? then EINVAL else if state == CONNECTING then OK else write
    {
      SendAnswer(Snapshot(), body, write);
      hide TakesIn;
      hide Protocol.QueueUp, Refuse, WriteNow, Protocol.Allocate;
      if state == DISCONNECTING || state == DISCONNECTED {
        return ENOTCONN;
      }
      if body.Invalid? {
        return EINVAL;
      }
      var copy := Copy(next, body);
      if state == CONNECTING {
        QueueUp(copy);
        return OK;
      }
      e := SendCopy(copy, write);
    }

    /** Send while connecting. */
    method QueueUp(copy: Copy)
      modifies this`next, this`pending, this`world
      ensures Snapshot() == Protocol.QueueUp(old(Snapshot()), copy)
    {
      pending := pending + [copy];
      Allocate(copy);
      world := Emit(world, Accepted(copy, true));
    }

    method Allocate(copy: Copy)
      modifies this`next, this`world
      ensures Snapshot() == Protocol.Allocate(old(Snapshot()), copy)
    {
      next := next + 1;
      world := Emit(world, Allocated(copy));
    }

    /** Send while connected: the copy goes to tv_write, or is deleted when tv_write refuses it. */
    method SendCopy(copy: Copy, write: Error) returns (e: Error)
      requires sending.None?
      modifies this`next, this`world, this`sending
      ensures Snapshot() == if write != OK then Refuse(old(Snapshot()), copy)
                            else WriteNow(Protocol.Allocate(old(Snapshot()), copy), copy)
      ensures e == write
    {
      Allocate(copy);
      if write != OK {
        world := Emit(world, Freed(copy));
      } else {
        if copy.body.Request? {
          sending := Some(copy);
        }
        world := HandOver(Emit(world, Accepted(copy, false)), copy);
      }
      return write;
    }

    method PushEntry()
      requires sending.Some?
      modifies this`timers, this`sending, this`starting
      ensures Snapshot() == DoPushEntry(old(Snapshot()))
    {
      timers := timers + [sending.value];
      sending, starting := None, sending;
    }

    /** The mutex of the table has been given up in between. */
    method StartTimer(timerStarts: bool)
      requires starting.Some?
      modifies this`starting, this`world
      ensures Snapshot() == DoStartTimer(old(Snapshot()), timerStarts)
    {
      ghost var entry := starting.value;
      if timerStarts {
        world := world.(armed := world.armed + {entry},
                        stale := if entry in timers then world.stale else world.stale + {entry});
      }
      starting := None;
    }

    // ---- OnConnect ----

    /** WSSocketImpl::OnConnect up to its call of SocketImpl::OnConnect. */
    method TakeReply(reply: Reply)
      modifies this`ws, this`world
      ensures Snapshot() == Protocol.TakeReply(old(Snapshot()), reply)
    {
      hide ReplyContext;
      world := world.(replies := world.replies + 1);
      if kind.TCP? {
        return;
      }
      NoteReply(reply);
    }

    method NoteReply(reply: Reply)
      modifies this`ws
      ensures ws == ReplyContext(old(ws), reply)
    {
      if reply.challenge.Some? {
        var nc := if ws.nc > NC_LIMIT then 0 else ws.nc;
        ws := WsContext(reply.code, reply.challenge.value, nc + 1);
      } else {
        ws := WsContext(reply.code, UNUSED, 0);
      }
    }

    method OnConnect(status: Error, reply: Reply)
      requires Enabled(Snapshot(), ConnectDone(status, reply))
      modifies this`pc, this`ws, this`world
      ensures Snapshot() == Next(old(Snapshot()), ConnectDone(status, reply))
    {
      hide Enabled, Protocol.TakeReply;
      pc := ConnectLock(status);
      world := world.(dialing := false);
      TakeReply(reply);
    }

    method OnConnectTimeout(reply: Reply)
      requires Enabled(Snapshot(), ConnectTimeout(reply))
      modifies this`pc, this`connectTimer, this`ws, this`world
      ensures Snapshot() == Next(old(Snapshot()), ConnectTimeout(reply))
    {
      hide Enabled, Protocol.TakeReply;
      pc := ConnectLock(ETIMEDOUT);
      connectTimer := false;
      TakeReply(reply);
    }

    method OnConnectLocked(status: Error)
      requires Valid() && pc == ConnectLock(status)
      modifies this`connectTimer, this`state, this`lastError, this`pc, this`world
      ensures Snapshot() == DoConnectLock(old(Snapshot()), status)
    {
      hide Orderly, Emit;
      connectTimer := false;
      if state == CONNECTED || state != CONNECTING {
        pc := Idle;
      } else if status != OK {
        FailConnect(status);
      } else {
        Announce();
      }
    }

    method FailConnect(status: Error)
      modifies this`state, this`lastError, this`pc, this`world
      ensures Snapshot() == Emit(old(Snapshot()).(state := DISCONNECTING, lastError := status, pc := IssueClose),
                                 TransportFailed(old(world.epoch), status))
    {
      state := DISCONNECTING;
      lastError := status;
      pc := IssueClose;
      world := Emit(world, TransportFailed(world.epoch, status));
    }

    /** The stream is read from, and the handler told. */
    method Announce()
      modifies this`lastError, this`pc, this`world
      ensures Snapshot() == Emit(old(Snapshot()).(reading := true, lastError := OK, pc := ConnectCallback),
                                 HandlerConnect(old(world.epoch)))
    {
      lastError := OK;
      pc := ConnectCallback;
      world := Emit(world.(reading := true), HandlerConnect(world.epoch));
    }

    method OnConnectFailed()
      modifies this`pc, this`world
      ensures Snapshot() == DoIssueClose(old(Snapshot()))
    {
      pc := Idle;
      world := Emit(world.(stream := Closing), CloseIssued(world.epoch));
    }

    method OnConnectReturned()
      modifies this`pc, this`state
      ensures Snapshot() == DoConnectReturned(old(Snapshot()))
    {
      if state == CONNECTING {
        state := CONNECTED;
      }
      pc := FlushQueue;
    }

    method OnHandshakeComplete(status: Error)
      modifies this`pc, this`state, this`handshaking
      ensures Snapshot() == DoHandshake(old(Snapshot()), status)
    {
      if status != OK {
        pc := HandshakeFailed;
        return;
      }
      handshaking := false;
      state := CONNECTED;
      pc := FlushQueue;
    }

    method OnHandshakeFailed()
      modifies this
      ensures Snapshot() == DoDisconnect(old(Snapshot()).(pc := Idle), true)
    {
      pc := Idle;
      var _ := Disconnect(true);
    }

    // ---- _SendPendingMessages ----

    /** Writes the queue while the mutex is held; what tv_write refuses is reported afterwards. */
    method FlushPending(results: seq<WriteResult>)
      requires pc == FlushQueue && |results| == |pending|
      modifies this
      ensures Snapshot() == DoFlush(old(Snapshot()), results)
    {
      hide FlushLoop, FlushOne;
      ghost var start := Snapshot().(pc := ReportUnsent([]));
      var failToSend: seq<Copy> := [];
      var i := 0;
      assert pending[0..] == pending && results[0..] == results;
      while i < |pending|
        invariant i <= |pending| == |results|
        invariant FlushLoop(Here(i, failToSend), results[i..]) == FlushLoop(start, results)
      {
        FlushUnfold(Here(i, failToSend), results[i..]);
        failToSend := FlushNext(i, failToSend, results[i]);
        assert results[i..][1..] == results[i + 1..];
        i := i + 1;
      }
      FlushEnd(Here(i, failToSend));
      ghost var end := Here(i, failToSend);
      assert results[i..] == [];
      assert end == FlushLoop(start, results);
      pending := [];
      pc := ReportUnsent(failToSend);
      assert Snapshot() == end;
    }

    /** The flush as the specification sees it after i messages. */
    ghost function Here(i: nat, failToSend: seq<Copy>): Socket
      reads this
      requires i <= |pending|
    {
      Snapshot().(pc := ReportUnsent(failToSend), pending := pending[i..])
    }

    method FlushNext(i: nat, failToSend: seq<Copy>, r: WriteResult) returns (failed: seq<Copy>)
      requires i < |pending|
      modifies this`timers, this`world
      ensures Here(i + 1, failed) == FlushOne(old(Here(i, failToSend)), r)
    {
      if state != CONNECTED {
        failed := failToSend + [pending[i]];
      } else if r.status != OK {
        failed := failToSend + [pending[i]];
      } else {
        failed := failToSend;
        if pending[i].body.Request? {
          timers := timers + [pending[i]];
          world := world.(armed := if r.timerStarts then world.armed + {pending[i]} else world.armed);
        }
        world := HandOver(world, pending[i]);
      }
    }

    method ReportNext(unsent: seq<Copy>)
      requires pc == ReportUnsent(unsent)
      modifies this`pc, this`world
      ensures Snapshot() == DoReportUnsent(old(Snapshot()), unsent)
    {
      if unsent == [] {
        pc := Idle;
      } else {
        pc := ReportUnsent(unsent[1..]);
        world := Emit(Emit(world, Failed(unsent[0], NotSent)), Freed(unsent[0]));
      }
    }

    // ---- OnRead ----

    method OnRead(items: seq<Item>)
      modifies this`pc, this`world
      ensures Snapshot() == DoReadChunk(old(Snapshot()), items)
      ensures pc == if state == CONNECTING || state == CONNECTED then ReadItems(items) else old(pc)
    {
      if state != CONNECTING && state != CONNECTED {
        return;
      }
      pc := ReadItems(items);
      world := world.(chunkStart := |world.trace|);
    }

    method OnReadBroken(error: Error)
      modifies this`pc, this`world
      ensures Snapshot() == DoReadBroken(old(Snapshot()), error)
      ensures pc == if state == CONNECTING || state == CONNECTED then ReadFailed(error) else old(pc)
    {
      if state != CONNECTING && state != CONNECTED {
        return;
      }
      pc := ReadFailed(error);
      world := Emit(world, TransportFailed(world.epoch, error));
    }

    method OnReadFailed(error: Error)
      modifies this
      ensures Snapshot() == DoDisconnect(old(Snapshot()).(pc := ReadError(error)), old(handshaking))
    {
      pc := ReadError(error);
      var _ := Disconnect(handshaking);
    }

    method OnReadError(error: Error)
      modifies this`pc, this`lastError
      ensures Snapshot() == old(Snapshot()).(lastError := error, pc := Idle)
    {
      lastError := error;
      pc := Idle;
    }

    /** The search loop of OnRead, OnWrite and OnRequestTimeout. */
    method FindEntry(msgid: nat) returns (i: nat)
      ensures i == IndexOf(timers, msgid)
    {
      i := 0;
      while i < |timers| && !Answers(timers[i], msgid)
        invariant i <= |timers|
        invariant IndexOf(timers, msgid) == i + IndexOf(timers[i..], msgid)
      {
        assert timers[i..][1..] == timers[i + 1..];
        i := i + 1;
      }
    }

    method OnResponse(msgid: nat)
      modifies this`timers, this`world
      ensures Snapshot() == DoResponse(old(Snapshot()), msgid)
    {
      var i := FindEntry(msgid);
      if i < |timers| {
        var entry := timers[i];
        DropEntry(i);
        world := Emit(world, Answered(entry));
      }
    }

    /** One decoded object of the chunk. */
    method ReadNext(items: seq<Item>)
      requires pc == ReadItems(items)
      modifies this
      ensures Snapshot() == DoReadItem(old(Snapshot()), items)
    {
      hide DoResponse, DoDisconnect;
      if items == [] {
        pc := Idle;
        return;
      }
      match items[0] {
        case InResponse(msgid) =>
          pc := ReadItems(items[1..]);
          OnResponse(msgid);
        case Undecodable =>
          pc := Idle;
          var _ := Disconnect(false);
        case _ =>
          pc := ReadItems(items[1..]);
          world := Emit(world, HandlerMessage);
      }
    }

    // ---- OnWrite and OnRequestTimeout ----

    method OnWrite(copy: Copy, status: Error)
      modifies this`timers, this`world
      ensures Snapshot() == DoWriteDone(old(Snapshot()), copy, status)
    {
      if status != OK {
        OnFailedWrite(copy, status);
      } else {
        world := Emit(world.(inflight := world.inflight - multiset{copy}), Freed(copy));
      }
    }

    method OnFailedWrite(copy: Copy, status: Error)
      requires status != OK
      modifies this`timers, this`world
      ensures Snapshot() == DoWriteDone(old(Snapshot()), copy, status)
    {
      var i := |timers|;
      if copy.body.Request? {
        i := FindEntry(copy.body.msgid);
      }
      ghost var found := i < |timers|;
      if i < |timers| {
        DropEntry(i);
      }
      world := Emit(Emit(world.(inflight := world.inflight - multiset{copy}), Failed(copy, WriteError(found))),
          Freed(copy));
    }

    /** Deletes the entry and its timer. */
    method DropEntry(i: nat)
      requires i < |timers|
      modifies this`timers, this`world
      ensures timers == RemoveAt(old(timers), i)
      ensures world == Emit(old(world).(armed := old(world.armed) - {old(timers[i])}), TimerFreed(old(timers[i])))
    {
      var entry := timers[i];
      timers := timers[..i] + timers[i + 1..];
      world := Emit(world.(armed := world.armed - {entry}), TimerFreed(entry));
    }

    method OnRequestTimeout(request: Copy)
      requires request.body.Request?
      modifies this`timers, this`world
      ensures Snapshot() == DoRequestTimeout(old(Snapshot()), request)
    {
      var i := FindEntry(request.body.msgid);
      if i < |timers| {
        timers := timers[..i] + timers[i + 1..];
      }
      world := Emit(Emit(world.(armed := world.armed - {request}), Failed(request, TimedOut)), TimerFreed(request));
    }

    // ---- OnDisconnect ----

    method OnDisconnectLocked()
      modifies this`connectTimer, this`state, this`pc, this`world
      ensures Snapshot() == DoCloseDone(old(Snapshot()))
    {
      StreamClosed();
      if state == DISCONNECTED {
        return;
      }
      state := DISCONNECTED;
      pc := ReleaseSocket;
      world := world.(closing := world.epoch);
    }

    method StreamClosed()
      modifies this`connectTimer, this`world
      ensures Snapshot() == Emit(old(Snapshot()).(connectTimer := false, stream := NoStream, dialing := false,
                                                  reading := false),
                                 Closed(old(world.epoch)))
    {
      connectTimer := false;
      world := Emit(world.(stream := NoStream, dialing := false, reading := false), Closed(world.epoch));
    }

    method LeavePool()
      modifies this`pc, this`world
      ensures Snapshot() == old(Snapshot()).(inPool := false, pc := DecideRetry)
    {
      world := world.(inPool := false);
      pc := DecideRetry;
    }

    method DecideOnRetry()
      modifies this`pc, this`ws
      ensures Snapshot() == DoDecideRetry(old(Snapshot()))
    {
      pc := DiscardQueue;
      if connectable {
        if kind == WS {
          if lastError == EWS {
            if CheckRetryAuth(ws) {
              pc := RetryConnect;
            }
          } else {
            ws := ws.(code := WS_SERVICE_UNAVAILABLE);
          }
        }
      }
    }

    method Retry(dial: Dial)
      requires Valid() && pc == RetryConnect
      modifies this
      ensures Snapshot() == DoRetry(old(Snapshot()), dial)
    {
      RetryOrderly(Snapshot());
      hide Orderly, DoConnect, ConnectResult, Appended, Emit;
      HandOverClose();
      var _ := Connect(connectTimeout, dial, false);
    }

    /** The close ends in a reconnect. */
    method HandOverClose()
      modifies this`pc, this`world
      ensures Snapshot() == Emit(old(Snapshot()).(pc := Idle), CloseRetried(old(world.closing)))
      ensures connectTimeout == old(connectTimeout)
    {
      pc := Idle;
      world := Emit(world, CloseRetried(world.closing));
    }

    /** _DiscardMessages takes the queue. */
    method TakePending()
      modifies this`pc, this`pending
      ensures Snapshot() == old(Snapshot()).(pc := DiscardUnsent(old(pending)), pending := [])
    {
      pc := DiscardUnsent(pending);
      pending := [];
    }

    method DiscardNext(unsent: seq<Copy>)
      requires pc == DiscardUnsent(unsent)
      modifies this`pc, this`timers, this`world
      ensures Snapshot() == DoDiscardUnsent(old(Snapshot()), unsent)
    {
      if unsent == [] {
        TakeTimers();
      } else {
        DiscardOne();
      }
    }

    method TakeTimers()
      modifies this`pc, this`timers
      ensures pc == DiscardTimers(old(timers)) && timers == []
    {
      pc := DiscardTimers(timers);
      timers := [];
    }

    method DiscardOne()
      requires pc.DiscardUnsent? && pc.unsent != []
      modifies this`pc, this`world
      ensures pc == DiscardUnsent(old(pc.unsent)[1..])
      ensures world == old(world).(trace := world.trace)
      ensures world.trace == old(world.trace) + [Failed(old(pc.unsent)[0], Discarded(world.closing)),
                                                 Freed(old(pc.unsent)[0])]
    {
      var message := pc.unsent[0];
      pc := DiscardUnsent(pc.unsent[1..]);
      world := Emit(Emit(world, Failed(message, Discarded(world.closing))), Freed(message));
    }

    method CancelNext(entries: seq<Copy>)
      requires pc == DiscardTimers(entries)
      modifies this`pc, this`world
      ensures Snapshot() == DoDiscardTimers(old(Snapshot()), entries)
    {
      if entries == [] {
        pc := NotifyDisconnect;
      } else {
        CancelOne();
      }
    }

    method CancelOne()
      requires pc.DiscardTimers? && pc.entries != []
      modifies this`pc, this`world
      ensures pc == DiscardTimers(old(pc.entries)[1..])
      ensures world == old(world).(trace := world.trace, armed := old(world.armed) - {old(pc.entries)[0]})
      ensures world.trace == old(world.trace) + [Failed(old(pc.entries)[0], Discarded(world.closing)),
                                                 TimerFreed(old(pc.entries)[0])]
    {
      var entry := pc.entries[0];
      pc := DiscardTimers(pc.entries[1..]);
      world := Emit(Emit(world.(armed := world.armed - {entry}), Failed(entry, Discarded(world.closing))),
          TimerFreed(entry));
    }

    method Report()
      modifies this`pc, this`world
      ensures Snapshot() == DoNotify(old(Snapshot()))
    {
      pc := Idle;
      if handshaking {
        world := Emit(world, Suppressed(world.closing));
      } else {
        world := Emit(world, HandlerDisconnect(world.closing, lastError));
      }
    }

    // ---- Runs ----

    /** The loop thread goes on from where it gave up the mutex or called a handler. */
    method Continue()
      requires Valid() && Enabled(Snapshot(), Action.Continue)
      modifies this
      ensures Snapshot() == DoContinue(old(Snapshot()))
    {
      hide Orderly, Enabled, DoContinue;
      if InClose(pc) {
        GoOnClosing();
      } else {
        GoOn();
      }
    }

    method GoOn()
      requires Valid() && !InClose(pc)
      modifies this
      ensures Snapshot() == DoContinue(old(Snapshot()))
    {
      hide Orderly, DoConnectLock, DoIssueClose, DoConnectReturned, DoReportUnsent, DoReadItem, DoDisconnect,
           DoDiscardUnsent, DoDiscardTimers, DoDecideRetry, DoNotify;
      match pc {
        case ConnectLock(status) => OnConnectLocked(status);
        case IssueClose => OnConnectFailed();
        case ConnectCallback => OnConnectReturned();
        case ReportUnsent(unsent) => ReportNext(unsent);
        case HandshakeFailed => OnHandshakeFailed();
        case ReadItems(items) => ReadNext(items);
        case ReadFailed(error) => OnReadFailed(error);
        case ReadError(error) => OnReadError(error);
        case _ =>
      }
    }

    method GoOnClosing()
      requires InClose(pc)
      modifies this
      ensures Snapshot() == DoContinue(old(Snapshot()))
    {
      ClosingSections(Snapshot());
      hide DoContinue, DoDecideRetry;
      match pc {
        case ReleaseSocket => LeavePool();
        case DecideRetry => DecideOnRetry();
        case DiscardQueue => TakePending();
        case DiscardUnsent(_) => Discard();
        case DiscardTimers(_) => Discard();
        case NotifyDisconnect => Discard();
        case RetryConnect =>
      }
    }

    method Discard()
      requires pc.DiscardUnsent? || pc.DiscardTimers? || pc == NotifyDisconnect
      modifies this
      ensures Snapshot() == DoContinue(old(Snapshot()))
    {
      hide DoDiscardUnsent, DoDiscardTimers, DoNotify;
      match pc {
        case DiscardUnsent(unsent) => DiscardNext(unsent);
        case DiscardTimers(entries) => CancelNext(entries);
        case NotifyDisconnect => Report();
      }
    }

    method Dispatch(a: Action)
      requires Valid() && Enabled(Snapshot(), a)
      requires a.RequestTimeout? ==> a.copy.body.Request?
      modifies this
      ensures Valid() && Snapshot() == Step(old(Snapshot()), a)
    {
      StepGood(Snapshot(), a);
      hide Orderly, Enabled, Next;
      Perform(a);
    }

    method Perform(a: Action)
      requires Valid() && Enabled(Snapshot(), a)
      requires a.RequestTimeout? ==> a.copy.body.Request?
      modifies this
      ensures Snapshot() == Next(old(Snapshot()), a)
    {
      hide Orderly, Enabled, Next;
      if Called(a) {
        Call(a);
      } else if a.Continue? || a.ContinueFlush? || a.ContinueRetry? {
        Resume(a);
      } else {
        Enter(a);
      }
    }

    /** What an application thread does. */
    method Call(a: Action)
      requires Valid() && Enabled(Snapshot(), a) && Called(a)
      modifies this
      ensures Snapshot() == Next(old(Snapshot()), a)
    {
      Allows(Snapshot(), a);
      hide Orderly, Enabled, DoConnect, DoDisconnect, DoSend, DoPushEntry, DoStartTimer;
      match a {
        case CallConnect(timeout, dial) => var _ := Connect(timeout, dial, true);
        case CallDisconnect => var _ := Disconnect(false);
        case CallSend(body, write) => var _ := Send(body, write);
        case PushEntry => PushEntry();
        case StartTimer(timerStarts) => StartTimer(timerStarts);
      }
    }

    /** The loop thread enters a callback. */
    method Enter(a: Action)
      requires Valid() && Enabled(Snapshot(), a)
      requires !Called(a) && !a.Continue? && !a.ContinueFlush? && !a.ContinueRetry?
      requires a.RequestTimeout? ==> a.copy.body.Request?
      modifies this
      ensures Snapshot() == Next(old(Snapshot()), a)
    {
      hide Orderly, Enabled, DoHandshake, DoReadChunk, DoReadBroken, DoWriteDone, DoRequestTimeout, DoCloseDone,
           Protocol.TakeReply;
      match a {
        case ConnectDone(status, reply) => OnConnect(status, reply);
        case ConnectTimeout(reply) => OnConnectTimeout(reply);
        case HandshakeDone(status) => OnHandshakeComplete(status);
        case ReadChunk(items) => OnRead(items);
        case ReadBroken(error) => OnReadBroken(error);
        case WriteDone(copy, status) => OnWrite(copy, status);
        case RequestTimeout(copy) => OnRequestTimeout(copy);
        case CloseDone => OnDisconnectLocked();
      }
    }

    /** The loop thread goes on in one. */
    method Resume(a: Action)
      requires Valid() && Enabled(Snapshot(), a) && (a.Continue? || a.ContinueFlush? || a.ContinueRetry?)
      modifies this
      ensures Snapshot() == Next(old(Snapshot()), a)
    {
      Allows(Snapshot(), a);
      hide Orderly, Enabled, DoContinue, DoFlush, DoRetry;
      match a {
        case Continue => Continue();
        case ContinueFlush(results) => FlushPending(results);
        case ContinueRetry(dial) => Retry(dial);
      }
    }

    method Drive(run: seq<Action>)
      requires Valid() && Possible(Snapshot(), run)
      modifies this
      ensures Valid() && Snapshot() == Run(old(Snapshot()), run)
    {
      var i := 0;
      while i < |run|
        invariant i <= |run|
        invariant Valid() && Possible(Snapshot(), run[i..])
        invariant Run(Snapshot(), run[i..]) == Run(old(Snapshot()), run)
      {
        hide Orderly, Enabled, Step;
        Dispatch(run[i]);
        assert run[i..][1..] == run[i + 1..];
        i := i + 1;
      }
    }

    // ---- Whole loop callbacks, with nobody in between ----

    /** _SendPendingMessages. */
    method SendPendingMessages(results: seq<WriteResult>)
      requires pc == FlushQueue && |results| == |pending|
      modifies this
      ensures pending == [] && pc == Idle && state == old(state)
      ensures world.trace == old(world.trace) + Writes(Taken(old(pending), results, old(state) == CONNECTED))
                             + Reports(Refused(old(pending), results, old(state) == CONNECTED), NotSent)
    {
      FlushedTrace(Snapshot().(pc := ReportUnsent([])), results);
      hide FlushLoop;
      FlushPending(results);
      assert pc.unsent == Refused(old(pending), results, old(state) == CONNECTED);
      ReportAll();
    }

    /** The reporting loop of _SendPendingMessages. */
    method ReportAll()
      requires pc.ReportUnsent?
      modifies this`pc, this`world
      ensures pc == Idle
      ensures world.trace == old(world.trace) + Reports(old(pc.unsent), NotSent)
    {
      ghost var all := pc.unsent;
      ghost var done: nat := 0;
      while pc != ReportUnsent([])
        invariant done <= |all| && pc == ReportUnsent(all[done..])
        invariant world.trace == old(world.trace) + Reports(all[..done], NotSent)
        decreases |all| - done
      {
        ReportNext(pc.unsent);
        ReportsNext(all, done, NotSent);
        done := done + 1;
      }
      ReportNext([]);
      assert all[..done] == all;
    }

    /** _DiscardMessages: the queue first, then the requests with a timer. */
    method DiscardMessages()
      requires pc == DiscardQueue
      modifies this
      ensures pending == [] && timers == [] && pc == NotifyDisconnect
      ensures world.trace == old(world.trace) + Reports(old(pending), Discarded(old(world.closing)))
                             + Cancels(old(timers), old(world.closing))
      ensures world.closing == old(world.closing) && world.inPool == old(world.inPool)
      ensures state == old(state) && handshaking == old(handshaking) && lastError == old(lastError)
    {
      TakePending();
      DiscardAll();
      TakeTimers();
      CancelAll();
    }

    method DiscardAll()
      requires pc.DiscardUnsent?
      modifies this`pc, this`world
      ensures pc == DiscardUnsent([])
      ensures world.closing == old(world.closing) && world.inPool == old(world.inPool)
      ensures world.trace == old(world.trace) + Reports(old(pc.unsent), Discarded(old(world.closing)))
    {
      ghost var all, k := pc.unsent, world.closing;
      ghost var done: nat := 0;
      while pc != DiscardUnsent([])
        invariant done <= |all| && pc == DiscardUnsent(all[done..])
        invariant world.closing == k && world.inPool == old(world.inPool)
        invariant world.trace == old(world.trace) + Reports(all[..done], Discarded(k))
        decreases |all| - done
      {
        DiscardOne();
        ReportsNext(all, done, Discarded(k));
        done := done + 1;
      }
      assert all[..done] == all;
    }

    method CancelAll()
      requires pc.DiscardTimers?
      modifies this`pc, this`world
      ensures pc == NotifyDisconnect
      ensures world.closing == old(world.closing) && world.inPool == old(world.inPool)
      ensures world.trace == old(world.trace) + Cancels(old(pc.entries), old(world.closing))
    {
      ghost var all, k := pc.entries, world.closing;
      ghost var done: nat := 0;
      while pc != DiscardTimers([])
        invariant done <= |all| && pc == DiscardTimers(all[done..])
        invariant world.closing == k && world.inPool == old(world.inPool)
        invariant world.trace == old(world.trace) + Cancels(all[..done], k)
        decreases |all| - done
      {
        CancelOne();
        CancelsNext(all, done, k);
        done := done + 1;
      }
      pc := NotifyDisconnect;
      assert all[..done] == all;
    }

    /** OnDisconnect up to its decision. */
    method CloseStream()
      requires Valid() && Enabled(Snapshot(), CloseDone)
      modifies this
      ensures Valid() && state == DISCONNECTED && !world.inPool && sending.None? && starting.None?
      ensures pc == if old(Retries(Snapshot())) then RetryConnect else DiscardQueue
      ensures pending == old(pending) && timers == old(timers) && handshaking == old(handshaking)
      ensures lastError == old(lastError) && world.closing == old(world.epoch) && world.epoch == old(world.epoch)
      ensures world.trace == old(world.trace) + [Closed(old(world.epoch))]
    {
      CloseOrderly(Snapshot());
      hide Orderly;
      OnDisconnectLocked();
      LeavePool();
      DecideOnRetry();
    }

    /**
      OnDisconnect: either the socket connects again with its queue as it was, or the handler hears
      OnError of everything outstanding and then OnDisconnect, and nothing is left.
    */
    method OnDisconnect(dial: Dial)
      requires Valid() && Enabled(Snapshot(), CloseDone)
      modifies this
      ensures pc == Idle && !old(Retries(Snapshot())) ==>
                && pending == [] && timers == [] && state == DISCONNECTED && !world.inPool
                && world.trace == old(world.trace) + [Closed(old(world.epoch))]
                                  + Reports(old(pending), Discarded(old(world.epoch)))
                                  + Cancels(old(timers), old(world.epoch))
                                  + [if old(handshaking) then Suppressed(old(world.epoch))
                                     else HandlerDisconnect(old(world.epoch), old(lastError))]
      ensures old(Retries(Snapshot())) ==>
                && pending == old(pending) && timers == old(timers)
                && (dial.room && dial.status == OK ==>
                      && state == CONNECTING
                      && world.trace == old(world.trace) + [Closed(old(world.epoch)), CloseRetried(old(world.epoch)),
                                                            Opened(old(world.epoch) + 1, false)])
                && (!dial.room || dial.status != OK ==>
                      && state == DISCONNECTED
                      && world.trace == old(world.trace) + [Closed(old(world.epoch)), CloseRetried(old(world.epoch))])
      ensures pc == Idle
    {
      CloseStream();
      hide Retries;
      if pc == RetryConnect {
        Reconnect(dial);
      } else {
        EndClose();
      }
    }

    method Reconnect(dial: Dial)
      requires Valid() && pc == RetryConnect
      modifies this
      ensures pc == Idle && pending == old(pending) && timers == old(timers)
      ensures connectable && old(state) == DISCONNECTED && dial.room && dial.status == OK ==>
                && state == CONNECTING
                && world.trace == old(world.trace) + [CloseRetried(old(world.closing)),
                                                      Opened(old(world.epoch) + 1, false)]
      ensures !dial.room || dial.status != OK ==>
                && state == old(state) && world.trace == old(world.trace) + [CloseRetried(old(world.closing))]
    {
      RetryTrace(Snapshot(), dial);
      hide DoRetry, Orderly;
      Retry(dial);
    }

    method EndClose()
      requires pc == DiscardQueue
      modifies this
      ensures pending == [] && timers == [] && pc == Idle && state == old(state)
      ensures world.inPool == old(world.inPool)
      ensures world.trace == old(world.trace) + Reports(old(pending), Discarded(old(world.closing)))
                             + Cancels(old(timers), old(world.closing))
                             + [if old(handshaking) then Suppressed(old(world.closing))
                                else HandlerDisconnect(old(world.closing), old(lastError))]
    {
      DiscardMessages();
      Report();
    }
  }

  lemma RetryTrace(s: Socket, dial: Dial)
    ensures var t := DoRetry(s, dial);
            && t.pc == Idle && t.pending == s.pending && t.timers == s.timers
            && (s.connectable && s.state == DISCONNECTED && dial.room && dial.status == OK ==>
                  && t.state == CONNECTING
                  && t.trace == s.trace + [CloseRetried(s.closing), Opened(s.epoch + 1, false)])
            && (!dial.room || dial.status != OK ==>
                  t.state == s.state && t.trace == s.trace + [CloseRetried(s.closing)])
  {
    var u := Emit(s.(pc := Idle), CloseRetried(s.closing));
    assert DoRetry(s, dial) == DoConnect(u, s.connectTimeout, dial, false);
    hide DoRetry;
  }

  /** The three sections of OnDisconnect up to its decision keep the socket in order. */
  lemma CloseOrderly(s: Socket)
    requires Orderly(s) && Enabled(s, CloseDone)
    ensures s.state == DISCONNECTING
    ensures Orderly(DoDecideRetry(DoCloseDone(s).(inPool := false, pc := DecideRetry)))
  {
    ClosesOnce(s);
    hide Orderly, Enabled, DoCloseDone, DoDecideRetry;
    CloseDoneGood(s);
    var t := DoCloseDone(s);
    SameGood(t, t.(inPool := false, pc := DecideRetry));
    DecideGood(t.(inPool := false, pc := DecideRetry));
  }

  lemma ClosesOnce(s: Socket)
    requires Orderly(s) && Enabled(s, CloseDone)
    ensures s.state == DISCONNECTING && DoCloseDone(s).pc == ReleaseSocket
  {
  }

  lemma ClosingSections(s: Socket)
    ensures s.pc == ReleaseSocket ==> DoContinue(s) == s.(inPool := false, pc := DecideRetry)
    ensures s.pc == DecideRetry ==> DoContinue(s) == DoDecideRetry(s)
    ensures s.pc == DiscardQueue ==> DoContinue(s) == s.(pc := DiscardUnsent(s.pending), pending := [])
    ensures s.pc == RetryConnect ==> DoContinue(s) == s
  {
  }

  predicate Called(a: Action) {
    a.CallConnect? || a.CallDisconnect? || a.CallSend? || a.PushEntry? || a.StartTimer?
  }

  /** What the methods behind the actions ask for. */
  lemma Allows(s: Socket, a: Action)
    requires Enabled(s, a)
    ensures a.CallSend? ==> s.sending.None?
    ensures a.PushEntry? ==> s.sending.Some?
    ensures a.StartTimer? ==> s.starting.Some?
    ensures a.ContinueFlush? ==> s.pc == FlushQueue && |a.results| == |s.pending|
    ensures a.ContinueRetry? ==> s.pc == RetryConnect
  {
  }

  /** The guard of the automatic reconnect. */
  predicate Retries(s: Socket) {
    s.connectable && s.kind.WS? && s.lastError == EWS && CheckRetryAuth(s.ws)
  }

  /** Each request is reported and its timer deleted. */
  function Cancels(q: seq<Copy>, k: nat): seq<Event> {
    if q == [] then []
    else Cancels(q[..|q| - 1], k) + [Failed(q[|q| - 1], Discarded(k)), TimerFreed(q[|q| - 1])]
  }

  lemma CancelsNext(q: seq<Copy>, i: nat, k: nat)
    requires i < |q|
    ensures Cancels(q[..i + 1], k) == Cancels(q[..i], k) + [Failed(q[i], Discarded(k)), TimerFreed(q[i])]
  {
    assert q[..i + 1][..i] == q[..i];
  }

  lemma Opens(s: Socket, timeout: nat, dial: Dial, byUser: bool)
    requires s.connectable && s.state == DISCONNECTED && dial.room && dial.status == OK
    ensures DoConnect(s, timeout, dial, byUser)
            == Emit(s.(inPool := true, state := CONNECTING, stream := Open, epoch := s.epoch + 1,
                       dialing := true, reading := false, replies := 0, raced := s.pc == ReleaseSocket,
                       ws := if s.kind.WS? then s.ws.(auth := s.authConfig) else s.ws,
                       connectTimeout := timeout, connectTimer := timeout > 0 && dial.timerStarts),
                    Opened(s.epoch + 1, byUser))
  {
  }

  /** A run in which every action can happen when it comes. */
  ghost predicate Possible(s: Socket, run: seq<Action>)
    decreases |run|
  {
    run == []
    || (&& Enabled(s, run[0])
        && (run[0].RequestTimeout? ==> run[0].copy.body.Request?)
        && Possible(Step(s, run[0]), run[1..]))
  }

  lemma FlushUnfold(s: Socket, results: seq<WriteResult>)
    requires s.pc.ReportUnsent? && |results| == |s.pending| > 0
    ensures FlushLoop(s, results) == FlushLoop(FlushOne(s, results[0]), results[1..])
  {
  }

  lemma FlushEnd(s: Socket)
    requires s.pc.ReportUnsent? && s.pending == []
    ensures FlushLoop(s, []) == s
  {
  }

  // ---- What a whole callback leaves in the history ----

  /** Of the queue, what is written: of a socket that is up, what the transport takes. */
  function Taken(q: seq<Copy>, results: seq<WriteResult>, up: bool): seq<Copy>
    requires |results| == |q|
  {
    if q == [] then []
    else (if up && results[0].status == OK then [q[0]] else []) + Taken(q[1..], results[1..], up)
  }

  function Refused(q: seq<Copy>, results: seq<WriteResult>, up: bool): seq<Copy>
    requires |results| == |q|
  {
    if q == [] then []
    else (if up && results[0].status == OK then [] else [q[0]]) + Refused(q[1..], results[1..], up)
  }

  function Writes(q: seq<Copy>): seq<Event> {
    if q == [] then [] else [Written(q[0])] + Writes(q[1..])
  }

  /** Each message is reported and its copy deleted. */
  function Reports(q: seq<Copy>, cause: Cause): seq<Event> {
    if q == [] then [] else Reports(q[..|q| - 1], cause) + [Failed(q[|q| - 1], cause), Freed(q[|q| - 1])]
  }

  lemma ReportsNext(q: seq<Copy>, i: nat, cause: Cause)
    requires i < |q|
    ensures Reports(q[..i + 1], cause) == Reports(q[..i], cause) + [Failed(q[i], cause), Freed(q[i])]
  {
    assert q[..i + 1][..i] == q[..i];
  }

  lemma {:induction false} FlushedTrace(s: Socket, results: seq<WriteResult>)
    requires s.pc.ReportUnsent? && |results| == |s.pending|
    ensures FlushLoop(s, results).trace == s.trace + Writes(Taken(s.pending, results, s.state == CONNECTED))
    ensures FlushLoop(s, results).pc == ReportUnsent(s.pc.unsent + Refused(s.pending, results, s.state == CONNECTED))
    decreases |results|
  {
    if results != [] {
      var u := FlushOne(s, results[0]);
      assert FlushLoop(s, results) == FlushLoop(u, results[1..]);
      OneFlushed(s, results[0]);
      hide FlushOne, FlushLoop;
      FlushedTrace(u, results[1..]);
      FatesHead(s.pending, results, s.state == CONNECTED, s.trace, s.pc.unsent);
    }
  }

  lemma FatesHead(q: seq<Copy>, results: seq<WriteResult>, up: bool, trace: seq<Event>, unsent: seq<Copy>)
    requires |results| == |q| && q != []
    ensures up && results[0].status == OK ==>
              && trace + Writes(Taken(q, results, up))
                 == trace + [Written(q[0])] + Writes(Taken(q[1..], results[1..], up))
              && Refused(q, results, up) == Refused(q[1..], results[1..], up)
    ensures !(up && results[0].status == OK) ==>
              && Taken(q, results, up) == Taken(q[1..], results[1..], up)
              && unsent + Refused(q, results, up) == unsent + [q[0]] + Refused(q[1..], results[1..], up)
  {
    var rest := Taken(q[1..], results[1..], up);
    assert ([q[0]] + rest)[1..] == rest;
  }

  lemma OneFlushed(s: Socket, r: WriteResult)
    requires s.pc.ReportUnsent? && s.pending != []
    ensures var t := FlushOne(s, r);
            var out := s.state == CONNECTED && r.status == OK;
            && t.state == s.state
            && (out ==> t.trace == s.trace + [Written(s.pending[0])] && t.pc == s.pc)
            && (!out ==> t.trace == s.trace && t.pc == ReportUnsent(s.pc.unsent + [s.pending[0]]))
  {
    hide SendQueued;
    if s.state == CONNECTED && r.status == OK {
      assert FlushOne(s, r) == SendQueued(s.(pending := s.pending[1..]), s.pending[0], r.timerStarts);
      hide FlushOne;
    }
  }
}
