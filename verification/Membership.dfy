/**
  The pool of the delegate and the state of the socket agree, except after a Connect that lands
  between the moment OnDisconnect gives up the state mutex and the moment it leaves the pool.
*/
module Membership {
  import opened Basics
  import opened Protocol
  import opened Lifecycle
  import opened StreamBooks

  predicate Pooled(s: Socket) {
    if s.pc == ReleaseSocket then s.state == DISCONNECTED || s.raced
    else s.inPool == (s.state != DISCONNECTED && !s.raced)
  }

  /** The Connect that undoes the agreement. */
  predicate Races(s: Socket, a: Action) {
    a.CallConnect? && s.pc == ReleaseSocket
  }

  lemma SamePooled(s: Socket, t: Socket)
    requires Pooled(s) && t.inPool == s.inPool && t.raced == s.raced
    requires (t.state == DISCONNECTED) == (s.state == DISCONNECTED)
    requires (t.pc == ReleaseSocket) == (s.pc == ReleaseSocket)
    ensures Pooled(t)
  {
  }

  lemma ConnectPooled(s: Socket, timeout: nat, dial: Dial, byUser: bool)
    requires Pooled(s)
    ensures Pooled(DoConnect(s, timeout, dial, byUser))
  {
    if !s.connectable || s.state != DISCONNECTED || !dial.room {
    } else if dial.status != OK {
    } else {
    }
  }

  lemma DisconnectPooled(s: Socket, handshaking: bool)
    requires Pooled(s)
    ensures Pooled(DoDisconnect(s, handshaking))
  {
    if Live(s) {} else {}
  }

  lemma MoveOnPooled(s: Socket, pc: LoopPc)
    requires Pooled(s) && s.pc != ReleaseSocket && pc != ReleaseSocket
    ensures Pooled(s.(pc := pc))
  {
  }

  lemma MessagePooled(s: Socket)
    requires Pooled(s)
    ensures Pooled(Emit(s, HandlerMessage))
  {
  }

  lemma ResponsePooled(s: Socket, msgid: nat)
    requires Pooled(s)
    ensures Pooled(DoResponse(s, msgid))
  {
    hide DoResponse;
  }

  lemma ReadItemPooled(s: Socket)
    requires Pooled(s) && s.pc.ReadItems?
    ensures Pooled(DoReadItem(s, s.pc.items))
  {
    hide Pooled, DoResponse, DoDisconnect;
    MoveOnPooled(s, Idle);
    if s.pc.items != [] {
      var t := s.(pc := ReadItems(s.pc.items[1..]));
      MoveOnPooled(s, t.pc);
      match s.pc.items[0]
      case InRequest => MessagePooled(t);
      case InNotify => MessagePooled(t);
      case InResponse(msgid) => ResponsePooled(t, msgid);
      case Undecodable => DisconnectPooled(s.(pc := Idle), false);
    }
  }

  lemma ReleasePooled(s: Socket)
    requires Pooled(s) && s.pc == ReleaseSocket
    ensures Pooled(s.(inPool := false, pc := DecideRetry))
  {
  }

  lemma FailingPooled(s: Socket, pc: LoopPc, handshaking: bool)
    requires Pooled(s) && s.pc != ReleaseSocket && pc != ReleaseSocket
    ensures Pooled(DoDisconnect(s.(pc := pc), handshaking))
  {
    SamePooled(s, s.(pc := pc));
    hide Pooled;
    DisconnectPooled(s.(pc := pc), handshaking);
  }

  lemma ConnectLockPooled(s: Socket)
    requires Orderly(s) && Pooled(s) && s.pc.ConnectLock?
    ensures Pooled(DoConnectLock(s, s.pc.status))
  {
    if s.state != CONNECTING {
    } else if s.pc.status != OK {
    } else {
    }
  }

  lemma ReturnedPooled(s: Socket)
    requires Pooled(s) && s.pc == ConnectCallback
    ensures Pooled(DoConnectReturned(s))
  {
  }

  lemma PlainPooled(s: Socket)
    requires Pooled(s) && (s.pc == IssueClose || s.pc.ReadError? || s.pc == DiscardQueue || s.pc == NotifyDisconnect)
    ensures Pooled(DoContinue(s))
  {
    hide Pooled;
    match s.pc
    case IssueClose => SamePooled(s, DoIssueClose(s));
    case ReadError(error) => SamePooled(s, s.(lastError := error, pc := Idle));
    case DiscardQueue => SamePooled(s, s.(pc := DiscardUnsent(s.pending), pending := []));
    case NotifyDisconnect => SamePooled(s, DoNotify(s));
  }

  lemma ReportingPooled(s: Socket)
    requires Pooled(s)
    requires s.pc.ReportUnsent? || s.pc.DiscardUnsent? || s.pc.DiscardTimers? || s.pc == DecideRetry
    ensures Pooled(DoContinue(s))
  {
    hide Pooled, DoReportUnsent, DoDiscardUnsent, DoDiscardTimers, DoDecideRetry;
    match s.pc
    case ReportUnsent(unsent) => SamePooled(s, DoReportUnsent(s, unsent));
    case DecideRetry => SamePooled(s, DoDecideRetry(s));
    case DiscardUnsent(unsent) => SamePooled(s, DoDiscardUnsent(s, unsent));
    case DiscardTimers(entries) => SamePooled(s, DoDiscardTimers(s, entries));
  }

  lemma ContinuePooled(s: Socket)
    requires Orderly(s) && Pooled(s) && Enabled(s, Continue)
    ensures Pooled(DoContinue(s))
  {
    hide Pooled, Orderly, Enabled, DoConnectLock, DoConnectReturned, DoDisconnect, DoReadItem;
    match s.pc
    case ConnectLock(_) => ConnectLockPooled(s);
    case ConnectCallback => ReturnedPooled(s);
    case HandshakeFailed => FailingPooled(s, Idle, true);
    case ReadItems(_) => ReadItemPooled(s);
    case ReadFailed(error) => FailingPooled(s, ReadError(error), s.handshaking);
    case ReleaseSocket => ReleasePooled(s);
    case IssueClose => PlainPooled(s);
    case ReadError(_) => PlainPooled(s);
    case DiscardQueue => PlainPooled(s);
    case NotifyDisconnect => PlainPooled(s);
    case Idle =>
    case FlushQueue =>
    case RetryConnect =>
    case _ => ReportingPooled(s);
  }

  lemma RetryPooled(s: Socket, dial: Dial)
    requires Pooled(s) && s.pc == RetryConnect
    ensures Pooled(DoRetry(s, dial))
  {
    SamePooled(s, Emit(s.(pc := Idle), CloseRetried(s.closing)));
    hide Pooled, DoConnect;
    ConnectPooled(Emit(s.(pc := Idle), CloseRetried(s.closing)), s.connectTimeout, dial, false);
  }

  lemma CloseDonePooled(s: Socket)
    requires Pooled(s) && s.pc == Idle
    ensures Pooled(DoCloseDone(s))
  {
    if s.state == DISCONNECTED {} else {}
  }

  lemma EntryPooled(s: Socket, a: Action)
    requires Orderly(s) && Pooled(s) && Enabled(s, a)
    requires a.ConnectDone? || a.ConnectTimeout? || a.HandshakeDone? || a.ReadChunk? || a.ReadBroken?
    ensures Pooled(Next(s, a))
  {
    hide Pooled, Orderly, DoHandshake, DoReadChunk, DoReadBroken, TakeReply;
    match a
    case HandshakeDone(status) => HandshakePooled(s, status);
    case ReadChunk(items) => ReadPooled(s, items, OK);
    case ReadBroken(error) => ReadPooled(s, [], error);
    case ConnectDone(status, reply) => ReplyPooled(s, s.(dialing := false, pc := ConnectLock(status)), reply);
    case ConnectTimeout(reply) => ReplyPooled(s, s.(connectTimer := false, pc := ConnectLock(ETIMEDOUT)), reply);
  }

  lemma ReplyPooled(s: Socket, t: Socket, reply: Reply)
    requires Pooled(s) && s.pc == Idle && t.pc.ConnectLock?
    requires t == s.(dialing := t.dialing, connectTimer := t.connectTimer, pc := t.pc)
    ensures Pooled(TakeReply(t, reply))
  {
    hide Pooled, ReplyContext;
    SamePooled(s, TakeReply(t, reply));
  }

  lemma HandshakePooled(s: Socket, status: Error)
    requires Orderly(s) && Pooled(s) && Enabled(s, HandshakeDone(status))
    ensures Pooled(DoHandshake(s, status))
  {
  }

  lemma ReadPooled(s: Socket, items: seq<Item>, error: Error)
    requires Pooled(s) && s.pc == Idle
    ensures Pooled(DoReadChunk(s, items)) && Pooled(DoReadBroken(s, error))
  {
    hide Pooled;
    if Live(s) {
      SamePooled(s, DoReadChunk(s, items));
      SamePooled(s, DoReadBroken(s, error));
    }
  }

  lemma AsidePooled(s: Socket, t: Socket)
    requires Pooled(s) && Aside(s, t)
    ensures Pooled(t)
  {
  }

  lemma NextPooled(s: Socket, a: Action)
    requires Orderly(s) && Pooled(s) && Enabled(s, a)
    ensures Pooled(Next(s, a))
  {
    if Talks(a) {
      hide Pooled, Orderly, Aside, Next, Enabled;
      TalkAside(s, a);
      AsidePooled(s, Next(s, a));
    } else {
      hide Pooled, Orderly, Talks, DoConnect, DoDisconnect, DoCloseDone, DoContinue, DoRetry, TakeReply, DoHandshake,
           DoReadChunk, DoReadBroken;
      match a
      case CallConnect(timeout, dial) => ConnectPooled(s, timeout, dial, true);
      case CallDisconnect => DisconnectPooled(s, false);
      case CloseDone => CloseDonePooled(s);
      case Continue => ContinuePooled(s);
      case ContinueRetry(dial) => RetryPooled(s, dial);
      case _ => EntryPooled(s, a);
    }
  }

  lemma StepPooled(s: Socket, a: Action)
    requires Orderly(s) && Pooled(s)
    ensures Pooled(Step(s, a))
  {
    hide Orderly, Pooled, Next, Enabled;
    if Enabled(s, a) {
      NextPooled(s, a);
    }
  }

  lemma {:induction false} RunPooled(s: Socket, run: seq<Action>)
    requires Orderly(s) && Pooled(s)
    ensures Pooled(Run(s, run))
    decreases |run|
  {
    hide Pooled, Orderly, Step;
    if run != [] {
      StepGood(s, run[0]);
      StepPooled(s, run[0]);
      RunPooled(Step(s, run[0]), run[1..]);
    }
  }

  // ---- Which Connect raced, read off the run ----

  predicate Succeeds(s: Socket, dial: Dial) {
    s.connectable && s.state == DISCONNECTED && dial.room && dial.status == OK
  }

  function NextRaced(s: Socket, a: Action, was: bool): bool {
    if !Enabled(s, a) then was
    else
      match a
      case CallConnect(_, dial) => if Succeeds(s, dial) then s.pc == ReleaseSocket else was
      case ContinueRetry(dial) => if Succeeds(s, dial) then false else was
      case _ => was
  }

  /** The last Connect that succeeded came between the mutex and the pool. */
  function RacedIn(s: Socket, run: seq<Action>, was: bool): bool
    decreases |run|
  {
    if run == [] then was else RacedIn(Step(s, run[0]), run[1..], NextRaced(s, run[0], was))
  }

  lemma ReportingRaced(s: Socket)
    requires s.pc.ReportUnsent? || s.pc.DiscardUnsent? || s.pc.DiscardTimers? || s.pc == DecideRetry
    ensures DoContinue(s).raced == s.raced
  {
    hide DoReportUnsent, DoDiscardUnsent, DoDiscardTimers, DoDecideRetry;
  }

  lemma ClosingRaced(s: Socket)
    requires s.pc == HandshakeFailed || s.pc.ReadFailed? || s.pc.ReadItems? || s.pc.ConnectLock?
    ensures DoContinue(s).raced == s.raced
  {
    hide DoDisconnect, DoReadItem, DoConnectLock;
    match s.pc
    case ConnectLock(status) => ConnectLockRaced(s, status);
    case HandshakeFailed => DisconnectRaced(s.(pc := Idle), true);
    case ReadFailed(error) => DisconnectRaced(s.(pc := ReadError(error)), s.handshaking);
    case ReadItems(_) => ReadItemRaced(s);
  }

  lemma PlainRaced(s: Socket)
    requires s.pc == IssueClose || s.pc.ReadError? || s.pc == DiscardQueue || s.pc == NotifyDisconnect
             || s.pc == ReleaseSocket || s.pc == ConnectCallback || s.pc == Idle || s.pc == FlushQueue
                 || s.pc == RetryConnect
    ensures DoContinue(s).raced == s.raced
  {
  }

  lemma ContinueRaced(s: Socket)
    ensures DoContinue(s).raced == s.raced
  {
    hide DoContinue;
    match s.pc
    case ConnectLock(_) => ClosingRaced(s);
    case HandshakeFailed => ClosingRaced(s);
    case ReadFailed(_) => ClosingRaced(s);
    case ReadItems(_) => ClosingRaced(s);
    case ReportUnsent(_) => ReportingRaced(s);
    case DecideRetry => ReportingRaced(s);
    case DiscardUnsent(_) => ReportingRaced(s);
    case DiscardTimers(_) => ReportingRaced(s);
    case _ => PlainRaced(s);
  }

  lemma ConnectLockRaced(s: Socket, status: Error)
    ensures DoConnectLock(s, status).raced == s.raced
  {
  }

  lemma ResponseRaced(s: Socket, msgid: nat)
    ensures DoResponse(s, msgid).raced == s.raced
  {
    hide DoResponse;
  }

  lemma MessageRaced(s: Socket)
    ensures Emit(s, HandlerMessage).raced == s.raced
  {
  }

  lemma ReadItemRaced(s: Socket)
    requires s.pc.ReadItems?
    ensures DoReadItem(s, s.pc.items).raced == s.raced
  {
    hide DoResponse, DoDisconnect, Emit;
    if s.pc.items != [] {
      var t := s.(pc := ReadItems(s.pc.items[1..]));
      MessageRaced(t);
      match s.pc.items[0]
      case InRequest =>
      case InNotify =>
      case InResponse(msgid) => ResponseRaced(t, msgid);
      case Undecodable => DisconnectRaced(s.(pc := Idle), false);
    }
  }

  lemma DisconnectRaced(s: Socket, handshaking: bool)
    ensures DoDisconnect(s, handshaking).raced == s.raced
  {
  }

  lemma ConnectRaced(s: Socket, timeout: nat, dial: Dial, byUser: bool)
    ensures DoConnect(s, timeout, dial, byUser).raced == if Succeeds(s, dial) then s.pc == ReleaseSocket else s.raced
  {
  }

  lemma RetryRaced(s: Socket, dial: Dial)
    ensures DoRetry(s, dial).raced == if Succeeds(s, dial) then false else s.raced
  {
    hide DoConnect;
    ConnectRaced(Emit(s.(pc := Idle), CloseRetried(s.closing)), s.connectTimeout, dial, false);
  }

  lemma EntryRaced(s: Socket, a: Action)
    requires Enabled(s, a)
    requires a.ConnectDone? || a.ConnectTimeout? || a.HandshakeDone? || a.ReadChunk? || a.ReadBroken? || a.CloseDone?
    ensures Next(s, a).raced == s.raced
  {
    hide ReplyContext;
  }

  lemma NextRacedIs(s: Socket, a: Action)
    requires Enabled(s, a)
    ensures Next(s, a).raced == NextRaced(s, a, s.raced)
  {
    if Talks(a) {
      hide Next, Enabled;
      TalkAside(s, a);
    } else {
      hide Enabled, Talks, Succeeds, DoConnect, DoDisconnect, DoCloseDone, DoContinue, DoRetry, TakeReply, DoHandshake,
           DoReadChunk, DoReadBroken;
      match a
      case CallConnect(timeout, dial) => ConnectRaced(s, timeout, dial, true);
      case CallDisconnect => DisconnectRaced(s, false);
      case Continue => ContinueRaced(s);
      case ContinueRetry(dial) => RetryRaced(s, dial);
      case _ => EntryRaced(s, a);
    }
  }

  lemma StepRaced(s: Socket, a: Action)
    ensures Step(s, a).raced == NextRaced(s, a, s.raced)
  {
    if Enabled(s, a) {
      NextRacedIs(s, a);
    }
    hide Next, Enabled;
  }

  lemma {:induction false} RacedIs(s: Socket, run: seq<Action>)
    ensures Run(s, run).raced == RacedIn(s, run, s.raced)
    decreases |run|
  {
    hide Step, NextRaced;
    if run != [] {
      StepRaced(s, run[0]);
      RacedIs(Step(s, run[0]), run[1..]);
    }
  }

  /**
    In every run, whenever the loop is not on its way from the mutex to the pool: the socket is in
    the pool exactly when it is not DISCONNECTED, unless it is up and the last Connect that
    succeeded raced.
  */
  lemma PoolAgreement(s: Socket, run: seq<Action>)
    requires Initial(s)
    ensures var t := Run(s, run);
            t.pc != ReleaseSocket ==>
              ((t.inPool <==> t.state != DISCONNECTED) <==> !(t.state != DISCONNECTED && RacedIn(s, run, false)))
  {
    InitialOrderly(s);
    assert Pooled(s) && !s.raced;
    RunPooled(s, run);
    RacedIs(s, run);
  }

  // ---- Only a Connect in that window races ----

  /** Nobody connects in the window. */
  ghost predicate Unraced(s: Socket, run: seq<Action>)
    decreases |run|
  {
    run == [] || (!Races(s, run[0]) && Unraced(Step(s, run[0]), run[1..]))
  }

  lemma {:induction false} UnracedRun(s: Socket, run: seq<Action>)
    requires Unraced(s, run)
    ensures !RacedIn(s, run, false)
    decreases |run|
  {
    hide Step, Enabled, Succeeds;
    if run != [] {
      UnracedRun(Step(s, run[0]), run[1..]);
    }
  }

  /** Nobody connects in the window: the socket is in the pool exactly when it is not DISCONNECTED. */
  lemma PoolFollowsState(s: Socket, run: seq<Action>)
    requires Initial(s) && Unraced(s, run) && Run(s, run).pc != ReleaseSocket
    ensures Run(s, run).inPool <==> Run(s, run).state != DISCONNECTED
  {
    UnracedRun(s, run);
    PoolAgreement(s, run);
  }

  /** A Connect in the window succeeds, and the socket it opens is not in the pool. */
  lemma ConnectBeforeRelease(s: Socket, timeout: nat, dial: Dial)
    requires s.pc == ReleaseSocket && s.state == DISCONNECTED && s.connectable && Unlocked(s)
    requires dial.room && dial.status == OK
    ensures ConnectResult(s, dial) == OK
    ensures var t := Step(Step(s, CallConnect(timeout, dial)), Continue);
            t.state == CONNECTING && !t.inPool && t.pc == DecideRetry
  {
    var t := DoConnect(s, timeout, dial, true);
    assert Step(s, CallConnect(timeout, dial)) == t;
    assert t.pc == ReleaseSocket && t.state == CONNECTING;
    assert Step(t, Continue) == t.(inPool := false, pc := DecideRetry);
  }

  lemma ConnectedThenClosed(kind: Kind)
    ensures var d := Dial(true, OK, true);
            var t := Step(Step(Step(Client(kind, UNUSED), CallConnect(0, d)), CallDisconnect), CloseDone);
            t.pc == ReleaseSocket && t.state == DISCONNECTED && t.connectable && Unlocked(t)
  {
    var s := Client(kind, UNUSED);
    var s1 := Step(s, CallConnect(0, Dial(true, OK, true)));
    assert s1.state == CONNECTING && s1.stream == Open && s1.connectable && Unlocked(s1) && s1.pc == Idle
           && s1.inflight == multiset{};
    ThenClosed(s1);
  }

  lemma ThenClosed(s: Socket)
    requires s.state == CONNECTING && s.stream == Open && s.connectable && Unlocked(s) && s.pc == Idle
    requires s.inflight == multiset{}
    ensures var t := Step(Step(s, CallDisconnect), CloseDone);
            t.pc == ReleaseSocket && t.state == DISCONNECTED && t.connectable && Unlocked(t)
  {
    var s2 := Step(s, CallDisconnect);
    assert s2.state == DISCONNECTING && s2.stream == Closing && s2.connectable && Unlocked(s2) && s2.pc == Idle
           && s2.inflight == multiset{};
  }

  /** Such a run exists: connect, disconnect, and connect again while OnDisconnect is under way. */
  lemma RaceHappens(kind: Kind)
    ensures exists run :: var t := Run(Client(kind, UNUSED), run);
              t.pc == DecideRetry && t.state == CONNECTING && !t.inPool
  {
    ConnectedThenClosed(kind);
    hide Step, Run, Client;
    var d := Dial(true, OK, true);
    var s0 := Client(kind, UNUSED);
    var s1 := Step(s0, CallConnect(0, d));
    var s2 := Step(s1, CallDisconnect);
    var s3 := Step(s2, CloseDone);
    var s4 := Step(s3, CallConnect(0, d));
    ConnectBeforeRelease(s3, 0, d);
    RunNil(Step(s4, Continue));
    RunCons(s4, Continue, []);
    RunCons(s3, CallConnect(0, d), [Continue] + []);
    RunCons(s2, CloseDone, [CallConnect(0, d)] + ([Continue] + []));
    RunCons(s1, CallDisconnect, [CloseDone] + ([CallConnect(0, d)] + ([Continue] + [])));
    RunCons(s0, CallConnect(0, d), [CallDisconnect] + ([CloseDone] + ([CallConnect(0, d)] + ([Continue] + []))));
  }
}
