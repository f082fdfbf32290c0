/**
  What the transport reports is what the socket goes by: told from the actions of a run and not from its
  fields, which state it is in, when a connect timer runs, which failure is recorded, that a socket which is
  up reads, which close is followed by a reconnect, and which one the handler does not hear of because the
  handshake was not through.
*/
module Callbacks {
  import opened Basics
  import opened Protocol
  import opened Ledger
  import opened Frames
  import opened Lifecycle
  import opened StreamBooks
  import opened Reports
  import opened LastErrors

  /** Kept along a run, from its actions. */
  datatype Notes = Notes(
    state: ConnState,        // where the reports and calls have led
    marked: bool,            // the handshake is not through, or failed, and nobody closed the connection since
    timeout: nat,            // what the last Connect that succeeded asked for
    asked: bool,             // and whether its timer started
    status: Error,           // the last report of the transport
    ws: WsContext,           // the last handshake reply, and how often one held a challenge
    faults: map<nat, Error>) // of each stream, its last failure

  function AtStart(s: Socket): Notes {
    Notes(s.state, s.handshaking, 0, false, OK, s.ws, map[])
  }

  function Connected(s: Socket, n: Notes, timeout: nat, dial: Dial): Notes {
    n.(state := CONNECTING, timeout := timeout, asked := timeout > 0 && dial.timerStarts,
       ws := if s.kind.WS? then n.ws.(auth := s.authConfig) else n.ws)
  }

  /** A Disconnect closes a connection that is up or coming up; `mark` says whether for its handshake. */
  function Disconnected(n: Notes, mark: bool): Notes {
    n.(state := if n.state == CONNECTING || n.state == CONNECTED then DISCONNECTING else n.state, marked := mark)
  }

  /** A challenge is counted, and the count starts anew after 0xfffd; any other reply forgets it. */
  function Replied(s: Socket, n: Notes, status: Error, reply: Reply): Notes {
    n.(status := status,
       ws := if s.kind.TCP? then n.ws
             else
               match reply.challenge
               case Some(auth) => WsContext(reply.code, auth, if n.ws.nc > 0xfffd then 1 else n.ws.nc + 1)
               case None => WsContext(reply.code, UNUSED, 0))
  }

  /** What a loop callback takes the last report for, where it goes on. */
  function Taken(s: Socket, n: Notes): Notes {
    match s.pc
    case ConnectLock(_) =>
      if n.state != CONNECTING || n.status == OK then n
      else n.(state := DISCONNECTING, faults := n.faults[s.epoch := n.status])
    case ConnectCallback => n.(state := if n.state == CONNECTING then CONNECTED else n.state)
    case HandshakeFailed => Disconnected(n, true)
    case ReadItems(items) => if items != [] && items[0] == Undecodable then Disconnected(n, false) else n
    case ReadFailed(_) => Disconnected(n, n.marked)
    case DecideRetry =>
      if s.connectable && s.kind.WS? && s.lastError != EWS then n.(ws := n.ws.(code := WS_SERVICE_UNAVAILABLE)) else n
    case _ => n
  }

  function NextNotes(s: Socket, a: Action, n: Notes): Notes {
    if !Enabled(s, a) then n
    else
      match a
      case CallConnect(timeout, dial) => if ConnectResult(s, dial) == OK then Connected(s, n, timeout, dial) else n
      case ContinueRetry(dial) => if ConnectResult(s, dial) == OK then Connected(s, n, n.timeout, dial) else n
      case CallDisconnect => Disconnected(n, false)
      case ConnectDone(status, reply) => Replied(s, n, status, reply)
      case ConnectTimeout(reply) => Replied(s, n, ETIMEDOUT, reply)
      case HandshakeDone(status) => if status == OK then n.(state := CONNECTED, marked := false) else n
      case ReadBroken(error) =>
        if n.state == CONNECTING || n.state == CONNECTED then n.(status := error, faults := n.faults[s.epoch := error])
        else n
      case CloseDone => n.(state := DISCONNECTED)
      case Continue => Taken(s, n)
      case _ => n
  }

  function NotesOf(s: Socket, run: seq<Action>, n: Notes): Notes
    decreases |run|
  {
    if run == [] then n else NotesOf(Step(s, run[0]), run[1..], NextNotes(s, run[0], n))
  }

  /** The transport is still connecting, and none of its reports is being taken. */
  predicate Dialling(s: Socket) {
    s.state == CONNECTING && s.dialing && !s.pc.ConnectLock?
  }

  predicate Reading(s: Socket) {
    && (s.state == CONNECTED ==> s.reading)
    && (s.pc == ConnectCallback && s.state == CONNECTING ==> s.reading)
    && (!s.connectable && s.state != DISCONNECTED ==> s.reading)
  }

  predicate Heeds(s: Socket, n: Notes) {
    && s.state == n.state && s.handshaking == n.marked
    && s.connectTimeout == n.timeout && s.ws == n.ws
    && (Dialling(s) ==> s.connectTimer == n.asked)
    && (s.pc.ConnectLock? ==> s.pc.status == n.status)
    && (Failing(s.pc) ==> s.pc.error == n.status)
    && Reading(s)
  }

  ghost predicate Faithful(s: Socket, n: Notes) {
    Heeds(s, n) && Log(s.trace).reasons == n.faults
  }

  // ---- Sections ----

  /** A section that takes no report. */
  lemma SameHeeds(s: Socket, t: Socket, n: Notes)
    requires Heeds(s, n) && t.handshaking == s.handshaking && t.connectTimeout == s.connectTimeout
    requires t.state == s.state && t.connectable == s.connectable && t.reading == s.reading && t.ws == s.ws
    requires t.dialing == s.dialing && t.connectTimer == s.connectTimer
    requires t.pc == s.pc || (!s.pc.ConnectLock? && !t.pc.ConnectLock? && !Failing(t.pc) && t.pc != ConnectCallback)
    ensures Heeds(t, n)
  {
  }

  lemma SameFaithful(s: Socket, t: Socket, n: Notes)
    requires Faithful(s, n) && Log(t.trace).reasons == Log(s.trace).reasons
    requires t.handshaking == s.handshaking && t.connectTimeout == s.connectTimeout
    requires t.state == s.state && t.connectable == s.connectable && t.reading == s.reading && t.ws == s.ws
    requires t.dialing == s.dialing && t.connectTimer == s.connectTimer
    requires t.pc == s.pc || (!s.pc.ConnectLock? && !t.pc.ConnectLock? && !Failing(t.pc) && t.pc != ConnectCallback)
    ensures Faithful(t, n)
  {
    hide Log, Heeds;
    SameHeeds(s, t, n);
  }

  lemma QuietFaithful(s: Socket, t: Socket, e: Event, n: Notes)
    requires Faithful(s, n) && !e.TransportFailed? && (t.trace == s.trace || t.trace == s.trace + [e])
    requires t.handshaking == s.handshaking && t.connectTimeout == s.connectTimeout
    requires t.state == s.state && t.connectable == s.connectable && t.reading == s.reading && t.ws == s.ws
    requires t.dialing == s.dialing && t.connectTimer == s.connectTimer
    requires t.pc == s.pc || (!s.pc.ConnectLock? && !t.pc.ConnectLock? && !Failing(t.pc) && t.pc != ConnectCallback)
    ensures Faithful(t, n)
  {
    hide Log, Faithful;
    OutcomeReasons(s.trace, e);
    SameFaithful(s, t, n);
  }

  lemma DialHeeds(s: Socket, timeout: nat, dial: Dial, byUser: bool, n: Notes)
    requires Orderly(s) && Heeds(s, n) && ConnectResult(s, dial) == OK
    ensures Heeds(DoConnect(s, timeout, dial, byUser), Connected(s, n, timeout, dial))
  {
  }

  lemma ConnectFaithful(s: Socket, timeout: nat, dial: Dial, byUser: bool, n: Notes)
    requires Orderly(s) && Faithful(s, n)
    ensures Faithful(DoConnect(s, timeout, dial, byUser),
                     if ConnectResult(s, dial) == OK then Connected(s, n, timeout, dial) else n)
  {
    hide Orderly, Faithful, DoConnect, ConnectResult, Connected;
    if ConnectResult(s, dial) == OK {
      DialFaithful(s, timeout, dial, byUser, n);
    } else {
      RefusedConnect(s, timeout, dial, byUser);
      SameFaithful(s, DoConnect(s, timeout, dial, byUser), n);
    }
  }

  lemma RefusedConnect(s: Socket, timeout: nat, dial: Dial, byUser: bool)
    requires ConnectResult(s, dial) != OK
    ensures DoConnect(s, timeout, dial, byUser) == s.(inPool := DoConnect(s, timeout, dial, byUser).inPool)
  {
  }

  lemma DialFaithful(s: Socket, timeout: nat, dial: Dial, byUser: bool, n: Notes)
    requires Orderly(s) && Faithful(s, n) && ConnectResult(s, dial) == OK
    ensures Faithful(DoConnect(s, timeout, dial, byUser), Connected(s, n, timeout, dial))
  {
    hide Log, Heeds, Orderly;
    DialHeeds(s, timeout, dial, byUser, n);
    OutcomeReasons(s.trace, Opened(s.epoch + 1, byUser));
  }

  lemma DisconnectHeeds(s: Socket, handshaking: bool, n: Notes)
    requires Heeds(s, n)
    ensures Heeds(DoDisconnect(s, handshaking), Disconnected(n, handshaking))
  {
    if Live(s) {} else {}
  }

  lemma DisconnectFaithful(s: Socket, handshaking: bool, n: Notes)
    requires Faithful(s, n)
    ensures Faithful(DoDisconnect(s, handshaking), Disconnected(n, handshaking))
  {
    hide Log, Heeds;
    DisconnectHeeds(s, handshaking, n);
    OutcomeReasons(s.trace, CloseIssued(s.epoch));
  }

  /** A callback gives up the mutex, or ends. */
  lemma MovedFaithful(s: Socket, pc: LoopPc, n: Notes)
    requires Faithful(s, n) && !s.pc.ConnectLock? && !pc.ConnectLock? && !Failing(pc) && pc != ConnectCallback
    ensures Faithful(s.(pc := pc), n)
  {
    hide Log, Faithful;
    SameFaithful(s, s.(pc := pc), n);
  }

  lemma FailingFaithful(s: Socket, pc: LoopPc, handshaking: bool, n: Notes)
    requires Faithful(s, n) && !s.pc.ConnectLock? && !pc.ConnectLock? && !Failing(pc) && pc != ConnectCallback
    ensures Faithful(DoDisconnect(s.(pc := pc), handshaking), Disconnected(n, handshaking))
  {
    hide Faithful, DoDisconnect;
    MovedFaithful(s, pc, n);
    DisconnectFaithful(s.(pc := pc), handshaking, n);
  }

  // ---- OnConnect ----

  lemma ConnectLockHeeds(s: Socket, n: Notes)
    requires Orderly(s) && Heeds(s, n) && s.pc.ConnectLock?
    ensures Heeds(DoConnectLock(s, s.pc.status),
                  if n.state != CONNECTING || n.status == OK then n else n.(state := DISCONNECTING))
  {
    if s.state != CONNECTING {
    } else if s.pc.status != OK {
    } else {
    }
  }

  lemma ConnectLockReasons(s: Socket, status: Error)
    ensures Log(DoConnectLock(s, status).trace).reasons
            == if s.state == CONNECTING && status != OK then Log(s.trace).reasons[s.epoch := status]
               else Log(s.trace).reasons
  {
    hide Log;
    LogAppend(s.trace, TransportFailed(s.epoch, status));
    OutcomeReasons(s.trace, HandlerConnect(s.epoch));
  }

  lemma ConnectLockFaithful(s: Socket, n: Notes)
    requires Orderly(s) && Faithful(s, n) && s.pc.ConnectLock?
    ensures Faithful(DoConnectLock(s, s.pc.status), Taken(s, n))
  {
    HeedsLast(s, n);
    hide Log, Heeds, DoConnectLock, Orderly;
    ConnectLockHeeds(s, n);
    ConnectLockReasons(s, s.pc.status);
    if s.state == CONNECTING && s.pc.status != OK {
      FaultsHeed(DoConnectLock(s, s.pc.status), n.(state := DISCONNECTING), n.faults[s.epoch := n.status]);
    }
  }

  lemma HeedsLast(s: Socket, n: Notes)
    requires Faithful(s, n)
    ensures s.state == n.state && (s.pc.ConnectLock? ==> s.pc.status == n.status)
  {
  }

  lemma FaultsHeed(t: Socket, n: Notes, faults: map<nat, Error>)
    requires Heeds(t, n)
    ensures Heeds(t, n.(faults := faults))
  {
  }

  lemma ReturnedFaithful(s: Socket, n: Notes)
    requires Orderly(s) && Faithful(s, n) && s.pc == ConnectCallback
    ensures Faithful(DoConnectReturned(s), n.(state := if n.state == CONNECTING then CONNECTED else n.state))
  {
    hide Log;
  }

  lemma EntryHeeds(s: Socket, t: Socket, status: Error, reply: Reply, n: Notes)
    requires Orderly(s) && Heeds(s, n) && s.pc == Idle
    requires t == s.(dialing := t.dialing, connectTimer := t.connectTimer, pc := ConnectLock(status))
    ensures Heeds(TakeReply(t, reply), Replied(s, n, status, reply))
  {
  }

  lemma EntryFaithful(s: Socket, a: Action, n: Notes)
    requires Orderly(s) && Faithful(s, n) && Enabled(s, a) && (a.ConnectDone? || a.ConnectTimeout?)
    ensures Faithful(Next(s, a), NextNotes(s, a, n))
  {
    hide Log, Heeds, Orderly, ReplyContext, Replied;
    match a
    case ConnectDone(status, reply) =>
      EntryHeeds(s, s.(dialing := false, pc := ConnectLock(status)), status, reply, n);
      RepliedFaults(s, n, status, reply);
    case ConnectTimeout(reply) =>
      EntryHeeds(s, s.(connectTimer := false, pc := ConnectLock(ETIMEDOUT)), ETIMEDOUT, reply, n);
      RepliedFaults(s, n, ETIMEDOUT, reply);
  }

  lemma RepliedFaults(s: Socket, n: Notes, status: Error, reply: Reply)
    ensures Replied(s, n, status, reply).faults == n.faults
  {
  }

  // ---- The handshake, and reading ----

  lemma HandshakeFaithful(s: Socket, status: Error, n: Notes)
    requires Orderly(s) && Faithful(s, n) && Enabled(s, HandshakeDone(status))
    ensures Faithful(DoHandshake(s, status), NextNotes(s, HandshakeDone(status), n))
  {
    hide Log;
    if status != OK {} else {}
  }

  lemma BrokenHeeds(s: Socket, error: Error, n: Notes)
    requires Heeds(s, n) && s.pc == Idle && Live(s)
    ensures Heeds(DoReadBroken(s, error), n.(status := error))
  {
  }

  lemma ReadBrokenFaithful(s: Socket, error: Error, n: Notes)
    requires Faithful(s, n) && Enabled(s, ReadBroken(error))
    ensures Faithful(DoReadBroken(s, error), NextNotes(s, ReadBroken(error), n))
  {
    HeedsLast(s, n);
    hide Log, Heeds;
    if Live(s) {
      BrokenHeeds(s, error, n);
      LogAppend(s.trace, TransportFailed(s.epoch, error));
      FaultsHeed(DoReadBroken(s, error), n.(status := error), n.faults[s.epoch := error]);
    }
  }

  lemma ReadChunkFaithful(s: Socket, items: seq<Item>, n: Notes)
    requires Faithful(s, n) && s.pc == Idle
    ensures Faithful(DoReadChunk(s, items), n)
  {
    hide Faithful, Log;
    if Live(s) {
      SameFaithful(s, DoReadChunk(s, items), n);
    }
  }

  lemma ReadFailedHeeds(s: Socket, n: Notes)
    requires Heeds(s, n) && s.pc.ReadFailed?
    ensures Heeds(DoDisconnect(s.(pc := ReadError(s.pc.error)), s.handshaking), Disconnected(n, n.marked))
  {
    if Live(s) {} else {}
  }

  lemma ReadFailedFaithful(s: Socket, n: Notes)
    requires Faithful(s, n) && s.pc.ReadFailed?
    ensures Faithful(DoDisconnect(s.(pc := ReadError(s.pc.error)), s.handshaking), Disconnected(n, n.marked))
  {
    hide Log, Heeds, DoDisconnect;
    ReadFailedHeeds(s, n);
    DisconnectCloses(s.(pc := ReadError(s.pc.error)), s.handshaking);
  }

  lemma ReadErrorFaithful(s: Socket, n: Notes)
    requires Faithful(s, n) && s.pc.ReadError?
    ensures Faithful(s.(lastError := s.pc.error, pc := Idle), n)
  {
    hide Log, Faithful;
    SameFaithful(s, s.(lastError := s.pc.error, pc := Idle), n);
  }

  lemma ResponseFaithful(s: Socket, msgid: nat, n: Notes)
    requires Faithful(s, n)
    ensures Faithful(DoResponse(s, msgid), n)
  {
    hide Faithful, Log, DoResponse;
    ResponseLog(s, msgid);
    SameFaithful(s, DoResponse(s, msgid), n);
  }

  lemma ReadItemFaithful(s: Socket, n: Notes)
    requires Faithful(s, n) && s.pc.ReadItems?
    ensures Faithful(DoReadItem(s, s.pc.items), Taken(s, n))
  {
    hide Faithful, DoDisconnect, DoResponse, Emit;
    if s.pc.items == [] {
      MovedFaithful(s, Idle, n);
    } else {
      var t := s.(pc := ReadItems(s.pc.items[1..]));
      MovedFaithful(s, t.pc, n);
      match s.pc.items[0]
      case InRequest => MessageFaithful(t, n);
      case InNotify => MessageFaithful(t, n);
      case InResponse(msgid) => ResponseFaithful(t, msgid, n);
      case Undecodable => FailingFaithful(s, Idle, false, n);
    }
  }

  lemma MessageFaithful(s: Socket, n: Notes)
    requires Faithful(s, n)
    ensures Faithful(Emit(s, HandlerMessage), n)
  {
    hide Faithful;
    QuietFaithful(s, Emit(s, HandlerMessage), HandlerMessage, n);
  }

  // ---- The other sections ----

  lemma IssueCloseFaithful(s: Socket, n: Notes)
    requires Faithful(s, n) && s.pc == IssueClose
    ensures Faithful(DoIssueClose(s), n)
  {
    hide Faithful;
    QuietFaithful(s, DoIssueClose(s), CloseIssued(s.epoch), n);
  }

  lemma NotifyFaithful(s: Socket, n: Notes)
    requires Faithful(s, n) && s.pc == NotifyDisconnect
    ensures Faithful(DoNotify(s), n)
  {
    hide Faithful;
    QuietFaithful(s, DoNotify(s),
                  if s.handshaking then Suppressed(s.closing) else HandlerDisconnect(s.closing, s.lastError), n);
  }

  lemma DecideFaithful(s: Socket, n: Notes)
    requires Faithful(s, n) && s.pc == DecideRetry
    ensures Faithful(DoDecideRetry(s), Taken(s, n))
  {
    hide Log, Heeds, DoDecideRetry;
    DecideHeeds(s, n);
  }

  lemma DecideHeeds(s: Socket, n: Notes)
    requires Heeds(s, n) && s.pc == DecideRetry
    ensures Heeds(DoDecideRetry(s),
                  if s.connectable && s.kind.WS? && s.lastError != EWS then
                    n.(ws := n.ws.(code := WS_SERVICE_UNAVAILABLE))
                  else n)
  {
    hide Heeds, DoDecideRetry;
    if s.connectable && s.kind.WS? && s.lastError != EWS {
      BecomesUnavailable(s);
      UnavailableHeeds(s, n);
    } else {
      StaysAvailable(s);
      SameHeeds(s, DoDecideRetry(s), n);
    }
  }

  lemma BecomesUnavailable(s: Socket)
    requires s.connectable && s.kind.WS? && s.lastError != EWS
    ensures DoDecideRetry(s) == s.(ws := s.ws.(code := WS_SERVICE_UNAVAILABLE), pc := DiscardQueue)
  {
  }

  lemma StaysAvailable(s: Socket)
    requires !(s.connectable && s.kind.WS? && s.lastError != EWS)
    ensures DoDecideRetry(s).ws == s.ws
  {
    hide CheckRetryAuth;
  }

  lemma UnavailableHeeds(s: Socket, n: Notes)
    requires Heeds(s, n) && s.pc == DecideRetry
    ensures Heeds(s.(ws := s.ws.(code := WS_SERVICE_UNAVAILABLE), pc := DiscardQueue),
                  n.(ws := n.ws.(code := WS_SERVICE_UNAVAILABLE)))
  {
  }

  lemma ReportingFaithful(s: Socket, n: Notes)
    requires Streamed(s) && Faithful(s, n) && (s.pc.ReportUnsent? || s.pc.DiscardUnsent? || s.pc.DiscardTimers?)
    ensures Faithful(DoContinue(s), n)
  {
    hide Faithful, Log, DoReportUnsent, DoDiscardUnsent, DoDiscardTimers;
    if InClose(s.pc) {
      NotEnded(s);
    }
    hide Streamed;
    match s.pc
    case ReportUnsent(unsent) =>
      ReportLog(s, unsent);
      SameFaithful(s, DoReportUnsent(s, unsent), n);
    case DiscardUnsent(unsent) =>
      DiscardUnsentLog(s, unsent);
      SameFaithful(s, DoDiscardUnsent(s, unsent), n);
    case DiscardTimers(entries) =>
      DiscardTimersLog(s, entries);
      SameFaithful(s, DoDiscardTimers(s, entries), n);
  }

  lemma PlainFaithful(s: Socket, n: Notes)
    requires Orderly(s) && Faithful(s, n)
    requires s.pc == IssueClose || s.pc == ConnectCallback || s.pc.ReadError? || s.pc == ReleaseSocket
             || s.pc == DiscardQueue || s.pc == NotifyDisconnect
    ensures Faithful(DoContinue(s), Taken(s, n))
  {
    hide Orderly, Faithful, DoIssueClose, DoConnectReturned, DoNotify;
    match s.pc
    case IssueClose => IssueCloseFaithful(s, n);
    case ConnectCallback => ReturnedFaithful(s, n);
    case ReadError(_) => ReadErrorFaithful(s, n);
    case ReleaseSocket => QuietFaithful(s, s.(inPool := false, pc := DecideRetry), HandlerMessage, n);
    case DiscardQueue => QuietFaithful(s, s.(pc := DiscardUnsent(s.pending), pending := []), HandlerMessage, n);
    case NotifyDisconnect => NotifyFaithful(s, n);
  }

  lemma TakingFaithful(s: Socket, n: Notes)
    requires Orderly(s) && Faithful(s, n) && Enabled(s, Continue)
    requires s.pc.ConnectLock? || s.pc == HandshakeFailed || s.pc.ReadItems? || s.pc.ReadFailed? || s.pc == DecideRetry
    ensures Faithful(DoContinue(s), Taken(s, n))
  {
    hide Orderly, Faithful, Enabled, DoConnectLock, DoDisconnect, DoReadItem, DoDecideRetry;
    match s.pc
    case DecideRetry => DecideFaithful(s, n);
    case ConnectLock(_) => ConnectLockFaithful(s, n);
    case HandshakeFailed => FailingFaithful(s, Idle, true, n);
    case ReadItems(_) => ReadItemFaithful(s, n);
    case ReadFailed(_) => ReadFailedFaithful(s, n);
  }

  lemma ContinueFaithful(s: Socket, n: Notes)
    requires Orderly(s) && Streamed(s) && Faithful(s, n) && Enabled(s, Continue)
    ensures Faithful(DoContinue(s), Taken(s, n))
  {
    hide Orderly, Streamed, Faithful, DoContinue;
    match s.pc
    case ConnectLock(_) => TakingFaithful(s, n);
    case HandshakeFailed => TakingFaithful(s, n);
    case ReadItems(_) => TakingFaithful(s, n);
    case ReadFailed(_) => TakingFaithful(s, n);
    case DecideRetry => TakingFaithful(s, n);
    case ReportUnsent(_) => ReportingFaithful(s, n);
    case DiscardUnsent(_) => ReportingFaithful(s, n);
    case DiscardTimers(_) => ReportingFaithful(s, n);
    case _ => PlainFaithful(s, n);
  }

  lemma RetryFaithful(s: Socket, dial: Dial, n: Notes)
    requires Orderly(s) && Faithful(s, n) && Enabled(s, ContinueRetry(dial))
    ensures Faithful(DoRetry(s, dial), NextNotes(s, ContinueRetry(dial), n))
  {
    var t := Emit(s.(pc := Idle), CloseRetried(s.closing));
    RetryIs(s, dial, n);
    RetryLeaves(s, n);
    hide Orderly, Faithful, DoConnect, Enabled, ConnectResult, NextNotes, Connected, DoRetry, Emit;
    ConnectFaithful(t, s.connectTimeout, dial, false, n);
  }

  lemma RetryIs(s: Socket, dial: Dial, n: Notes)
    requires Enabled(s, ContinueRetry(dial))
    ensures var t := Emit(s.(pc := Idle), CloseRetried(s.closing));
            && DoRetry(s, dial) == DoConnect(t, s.connectTimeout, dial, false)
            && NextNotes(s, ContinueRetry(dial), n)
               == if ConnectResult(t, dial) == OK then Connected(t, n, n.timeout, dial) else n
  {
    hide DoConnect;
  }

  lemma RetryLeaves(s: Socket, n: Notes)
    requires Orderly(s) && Faithful(s, n) && s.pc == RetryConnect
    ensures Orderly(Emit(s.(pc := Idle), CloseRetried(s.closing))) && s.connectTimeout == n.timeout
    ensures Faithful(Emit(s.(pc := Idle), CloseRetried(s.closing)), n)
  {
    RetryOrderly(s);
    hide Log, Orderly;
    QuietFaithful(s, Emit(s.(pc := Idle), CloseRetried(s.closing)), CloseRetried(s.closing), n);
  }

  lemma CloseDoneHeeds(s: Socket, n: Notes)
    requires Heeds(s, n) && s.pc == Idle
    ensures Heeds(DoCloseDone(s), n.(state := DISCONNECTED))
  {
    if s.state == DISCONNECTED {} else {}
  }

  lemma CloseDoneFaithful(s: Socket, n: Notes)
    requires Orderly(s) && Faithful(s, n) && Enabled(s, CloseDone)
    ensures Faithful(DoCloseDone(s), n.(state := DISCONNECTED))
  {
    assert s.state == DISCONNECTING && s.pc == Idle;
    hide Log, Heeds, Orderly;
    CloseDoneHeeds(s, n);
    OutcomeReasons(s.trace, Closed(s.epoch));
  }

  lemma AsideFaithful(s: Socket, t: Socket, n: Notes)
    requires Faithful(s, n) && Aside(s, t)
    ensures Faithful(t, n)
  {
    hide Log, Faithful;
    SameFaithful(s, t, n);
  }

  // ---- Every step, every run ----

  lemma TalksAside(s: Socket, a: Action, n: Notes)
    requires Talks(a)
    ensures NextNotes(s, a, n) == n
  {
  }

  lemma NextFaithful(s: Socket, a: Action, n: Notes)
    requires Orderly(s) && Streamed(s) && Faithful(s, n) && Enabled(s, a)
    ensures Faithful(Next(s, a), NextNotes(s, a, n))
  {
    if Talks(a) {
      hide Faithful, Streamed, Orderly, Aside, Next, Enabled, NextNotes;
      TalkAside(s, a);
      AsideFaithful(s, Next(s, a), n);
      TalksAside(s, a, n);
    } else {
      hide Faithful, Streamed, Orderly, Talks, ConnectResult, DoConnect, DoDisconnect, DoCloseDone, DoContinue, DoRetry,
           TakeReply, DoHandshake, DoReadChunk, DoReadBroken;
      match a
      case CallConnect(timeout, dial) => ConnectFaithful(s, timeout, dial, true, n);
      case CallDisconnect => DisconnectFaithful(s, false, n);
      case CloseDone => CloseDoneFaithful(s, n);
      case Continue => ContinueFaithful(s, n);
      case ContinueRetry(dial) => RetryFaithful(s, dial, n);
      case HandshakeDone(status) => HandshakeFaithful(s, status, n);
      case ReadChunk(items) => ReadChunkFaithful(s, items, n);
      case ReadBroken(error) => ReadBrokenFaithful(s, error, n);
      case _ => EntryFaithful(s, a, n);
    }
  }

  lemma StepFaithful(s: Socket, a: Action, n: Notes)
    requires Orderly(s) && Streamed(s) && Faithful(s, n)
    ensures Faithful(Step(s, a), NextNotes(s, a, n))
  {
    if Enabled(s, a) {
      hide Orderly, Streamed, Faithful, NextNotes, Next, Enabled;
      NextFaithful(s, a, n);
    }
  }

  lemma {:induction false} RunFaithful(s: Socket, run: seq<Action>, n: Notes)
    requires Orderly(s) && Streamed(s) && Faithful(s, n)
    ensures Faithful(Run(s, run), NotesOf(s, run, n))
    decreases |run|
  {
    hide Faithful, Streamed, Orderly, Step, NextNotes;
    if run != [] {
      StepGood(s, run[0]);
      StepStreamed(s, run[0]);
      StepFaithful(s, run[0], n);
      RunFaithful(Step(s, run[0]), run[1..], NextNotes(s, run[0], n));
    }
  }

  lemma InitialFaithful(s: Socket)
    requires Initial(s)
    ensures Faithful(s, AtStart(s))
  {
  }

  lemma ReachedFaithful(s: Socket, run: seq<Action>)
    requires Initial(s)
    ensures Faithful(Run(s, run), NotesOf(s, run, AtStart(s)))
  {
    InitialFaithful(s);
    InitialOrderly(s);
    InitialStreamed(s);
    hide Faithful, Streamed, Orderly, Initial;
    RunFaithful(s, run, AtStart(s));
  }

  /** In every run the state is where the calls and the reports of the transport have led. */
  lemma StateExactly(s: Socket, run: seq<Action>)
    requires Initial(s)
    ensures Run(s, run).state == NotesOf(s, run, AtStart(s)).state
  {
    hide Run, NotesOf, Initial, Log;
    ReachedFaithful(s, run);
  }

  /** In every run, of each stream the failure recorded is the last one the transport reported. */
  lemma FaultsExactly(s: Socket, run: seq<Action>)
    requires Initial(s)
    ensures Log(Run(s, run).trace).reasons == NotesOf(s, run, AtStart(s)).faults
  {
    hide Run, NotesOf, Initial, Log;
    ReachedFaithful(s, run);
  }

  /**
    In every run, while the transport is connecting, the connect timer runs if and only if the last Connect that
    succeeded asked for one and it started; the automatic reconnect asks for what the Connect before it did.
  */
  lemma ConnectTimerExactly(s: Socket, run: seq<Action>)
    requires Initial(s) && Dialling(Run(s, run))
    ensures Run(s, run).connectTimer <==> NotesOf(s, run, AtStart(s)).asked
  {
    hide Run, NotesOf, Initial, Log;
    ReachedFaithful(s, run);
  }

  /** In every run a socket that is CONNECTED reads: between callbacks a chunk can come in. */
  lemma ConnectedReads(s: Socket, run: seq<Action>, items: seq<Item>)
    requires Initial(s) && Run(s, run).state == CONNECTED && Run(s, run).pc == Idle && Unlocked(Run(s, run))
    ensures Enabled(Run(s, run), ReadChunk(items))
  {
    hide Run, NotesOf, Initial, Orderly, Faithful;
    InitialOrderly(s);
    RunGood(s, run);
    ReachedFaithful(s, run);
    ReadsOn(Run(s, run), NotesOf(s, run, AtStart(s)), items);
  }

  lemma ReadsOn(t: Socket, n: Notes, items: seq<Item>)
    requires Orderly(t) && Faithful(t, n) && t.state == CONNECTED && t.pc == Idle && Unlocked(t)
    ensures Enabled(t, ReadChunk(items))
  {
    hide Log;
  }

  /**
    In every run, the handler does not hear of a close if and only if the handshake was not through or failed,
    and nobody closed the connection since, neither the application nor data that could not be decoded.
  */
  lemma SuppressedExactly(s: Socket, run: seq<Action>)
    requires Initial(s) && Run(s, run).pc == NotifyDisconnect
    ensures var t := Run(s, run);
            Step(t, Continue).trace
            == t.trace + [if NotesOf(s, run, AtStart(s)).marked then Suppressed(t.closing)
                          else HandlerDisconnect(t.closing, t.lastError)]
  {
    hide Run, NotesOf, Initial, Log;
    ReachedFaithful(s, run);
  }

  /**
    In every run a close is followed by the automatic reconnect if and only if it is that of a WebSocket client
    which is told that its handshake was refused, by a reply of 401 with a digest challenge, the first or, after
    the count started anew, one counted as the first.
  */
  lemma RetriesExactly(s: Socket, run: seq<Action>)
    requires Initial(s) && Run(s, run).pc == DecideRetry
    ensures var t := Run(s, run);
            var ws := NotesOf(s, run, AtStart(s)).ws;
            Step(t, Continue).pc == RetryConnect
            <==> t.connectable && t.kind.WS? && Told(t.trace, t.closing, OverwrittenIn(s, run, false)) == EWS
                 && ws.code == 401 && ws.auth == DIGEST && ws.nc <= 1
  {
    InitialTelling(s);
    hide Run, NotesOf, OverwrittenIn, Initial, Streamed, Orderly, Blamed, Telling, Log, Faithful;
    ReachedFaithful(s, run);
    RunTelling(s, run, false);
    Decided(Run(s, run), NotesOf(s, run, AtStart(s)), OverwrittenIn(s, run, false));
  }

  lemma InitialTelling(s: Socket)
    requires Initial(s)
    ensures Orderly(s) && Streamed(s) && Blamed(s) && Telling(s, false)
  {
    InitialOrderly(s);
    InitialStreamed(s);
    InitialBlamed(s);
    hide Orderly, Streamed, Blamed;
  }

  lemma Decided(t: Socket, n: Notes, overwritten: bool)
    requires Faithful(t, n) && Telling(t, overwritten) && t.pc == DecideRetry
    ensures Step(t, Continue).pc == RetryConnect
            <==> t.connectable && t.kind.WS? && Told(t.trace, t.closing, overwritten) == EWS
                 && n.ws.code == 401 && n.ws.auth == DIGEST && n.ws.nc <= 1
  {
    hide Log, Reason;
    DecidesStep(t);
    hide Step;
  }

  lemma DecidesStep(t: Socket)
    requires t.pc == DecideRetry
    ensures Step(t, Continue) == DoDecideRetry(t)
  {
  }

  /** The callback reports the end of a connection: a failed connect, handshake or read, or undecodable data. */
  predicate Ends(s: Socket) {
    || (s.pc.ConnectLock? && s.pc.status != OK)
    || s.pc == HandshakeFailed
    || s.pc.ReadFailed?
    || (s.pc.ReadItems? && s.pc.items != [] && s.pc.items[0] == Undecodable)
  }

  /** Then a connection that is still up or coming up is closed, at once or as soon as the mutex is given up. */
  lemma EndCloses(s: Socket)
    requires Orderly(s) && Live(s) && Ends(s) && Enabled(s, Continue)
    ensures var t := Step(s, Continue);
            && t.state == DISCONNECTING
            && (if s.pc.ConnectLock? then Step(t, Continue).trace == t.trace + [CloseIssued(s.epoch)]
                else t.trace == s.trace + [CloseIssued(s.epoch)])
  {
    assert s.pc.ConnectLock? ==> s.state == CONNECTING;
    hide Orderly;
    match s.pc
    case ConnectLock(_) => FailedConnectCloses(s);
    case HandshakeFailed => FailureCloses(s, Idle, true);
    case ReadFailed(error) => FailureCloses(s, ReadError(error), s.handshaking);
    case ReadItems(_) => FailureCloses(s, Idle, false);
  }

  lemma FailedConnectCloses(s: Socket)
    requires s.state == CONNECTING && s.pc.ConnectLock? && s.pc.status != OK && Enabled(s, Continue)
    ensures var t := Step(s, Continue);
            t.state == DISCONNECTING && Step(t, Continue).trace == t.trace + [CloseIssued(s.epoch)]
  {
    var t := Step(s, Continue);
    assert t == DoConnectLock(s, s.pc.status);
    assert t.state == DISCONNECTING && t.pc == IssueClose && t.epoch == s.epoch;
    hide DoConnectLock;
    assert Step(t, Continue) == DoIssueClose(t);
  }

  lemma FailureCloses(s: Socket, pc: LoopPc, handshaking: bool)
    requires Live(s) && Enabled(s, Continue)
    requires DoContinue(s) == DoDisconnect(s.(pc := pc), handshaking)
    ensures Step(s, Continue).state == DISCONNECTING && Step(s, Continue).trace == s.trace + [CloseIssued(s.epoch)]
  {
    hide DoContinue;
  }

  // ---- Clients, and accepted TCP sockets, have no handshake to wait for ----

  lemma StaysUnmarked(s: Socket, a: Action, n: Notes)
    requires Orderly(s) && (s.connectable || s.kind.TCP?) && !n.marked
    ensures !NextNotes(s, a, n).marked
  {
    hide ConnectResult;
  }

  lemma {:induction false} NeverMarked(s: Socket, run: seq<Action>, n: Notes)
    requires Orderly(s) && (s.connectable || s.kind.TCP?) && !n.marked
    ensures !NotesOf(s, run, n).marked
    decreases |run|
  {
    hide Orderly, Step, NextNotes;
    if run != [] {
      StepGood(s, run[0]);
      StaysUnmarked(s, run[0], n);
      NeverMarked(Step(s, run[0]), run[1..], NextNotes(s, run[0], n));
    }
  }

  /** So the handler hears of every close of a client, and of an accepted TCP socket, but for a reconnect. */
  lemma AlwaysReported(s: Socket, run: seq<Action>)
    requires Initial(s) && (s.connectable || s.kind.TCP?) && Run(s, run).pc == NotifyDisconnect
    ensures var t := Run(s, run);
            Step(t, Continue).trace == t.trace + [HandlerDisconnect(t.closing, t.lastError)]
  {
    InitialOrderly(s);
    assert !s.handshaking;
    SuppressedExactly(s, run);
    hide Run, Orderly, Initial;
    NeverMarked(s, run, AtStart(s));
  }
}
