/**
  What Connect and Send answer is what they did: the copies accepted are those whose Send answered LNR_OK,
  and the streams opened those whose Connect did, in every run.
*/
module Results {
  import opened Basics
  import opened Protocol
  import opened Ledger
  import opened Frames

  // ---- One Send ----

  /** The event is one of those that a step appended. */
  ghost predicate Appended(before: seq<Event>, after: seq<Event>, e: Event) {
    before <= after && e in after[|before|..]
  }

  ghost predicate TakesIn(s: Socket, t: Socket, c: Copy) {
    Appended(s.trace, t.trace, Accepted(c, true)) || Appended(s.trace, t.trace, Accepted(c, false))
  }

  lemma QueuedTakesIn(s: Socket, c: Copy)
    ensures TakesIn(s, QueueUp(s, c), c)
  {
    QueuedTrace(s, c);
    hide QueueUp;
    assert QueueUp(s, c).trace[|s.trace|..] == [Allocated(c), Accepted(c, true)];
  }

  lemma WrittenTakesIn(s: Socket, c: Copy)
    ensures TakesIn(s, WriteNow(Allocate(s, c), c), c)
  {
    DirectTrace(s, c);
    hide WriteNow, Allocate;
    assert WriteNow(Allocate(s, c), c).trace[|s.trace|..] == [Allocated(c), Accepted(c, false), Written(c)];
  }

  lemma RefusedTakesNothing(s: Socket, c: Copy)
    ensures !TakesIn(s, Refuse(s, c), c)
  {
    RefusedTrace(s, c);
    hide Refuse;
    assert Refuse(s, c).trace[|s.trace|..] == [Allocated(c), Freed(c)];
  }

  /** Send answers LNR_OK if and only if it accepted the message; otherwise it leaves everything as it was. */
  lemma SendAnswer(s: Socket, body: Message, write: Error)
    ensures var t := DoSend(s, body, write);
            && (SendResult(s, body, write) == OK <==> TakesIn(s, t, Copy(s.next, body)))
            && (SendResult(s, body, write) != OK ==>
                  t == s.(next := t.next, trace := t.trace)
                  && (t.trace == s.trace || t.trace == s.trace + [Allocated(Copy(s.next, body))]
                      + [Freed(Copy(s.next, body))]))
  {
    hide TakesIn, QueueUp, Refuse, WriteNow, Allocate;
    var c := Copy(s.next, body);
    if !Live(s) || body.Invalid? {
      NothingTaken(s, c);
    } else if s.state == CONNECTING {
      QueuedTakesIn(s, c);
    } else if write != OK {
      RefusedTakesNothing(s, c);
      RefusedTrace(s, c);
    } else {
      WrittenTakesIn(s, c);
    }
  }

  lemma NothingTaken(s: Socket, c: Copy)
    ensures !TakesIn(s, s, c)
  {
  }

  // ---- Over runs ----

  /** The copy a step accepts, going by the answer of Send. */
  function Confirmed(s: Socket, a: Action): multiset<Copy> {
    if a.CallSend? && Enabled(s, a) && SendResult(s, a.body, a.write) == OK then One(Copy(s.next, a.body))
    else multiset{}
  }

  function AllConfirmed(s: Socket, run: seq<Action>): multiset<Copy>
    decreases |run|
  {
    if run == [] then multiset{} else Confirmed(s, run[0]) + AllConfirmed(Step(s, run[0]), run[1..])
  }

  lemma {:induction false} NoneAccepted(trace: seq<Event>, n: nat)
    requires n <= |trace| && forall i :: n <= i < |trace| ==> !trace[i].Accepted?
    ensures Book(trace).accepted == Book(trace[..n]).accepted
    decreases |trace| - n
  {
    hide Book;
    if n == |trace| {
      assert trace[..n] == trace;
    } else {
      NoneAccepted(trace, n + 1);
      assert trace[..n + 1] == trace[..n] + [trace[n]];
      BookAppend(trace[..n], trace[n]);
    }
  }

  lemma OthersAcceptNothing(s: Socket, a: Action)
    requires !a.CallSend?
    ensures Book(Step(s, a).trace).accepted == Book(s.trace).accepted
  {
    hide Step, Book;
    StepLogs(s, a);
    var trace := Step(s, a).trace;
    assert trace[..|s.trace|] == s.trace;
    NoneAccepted(trace, |s.trace|);
  }

  lemma AcceptedOne(trace: seq<Event>, c: Copy, queued: bool)
    ensures Book(trace + [Accepted(c, queued)]).accepted == Book(trace).accepted + One(c)
  {
    hide Book;
    BookAppend(trace, Accepted(c, queued));
  }

  lemma AcceptedSame(trace: seq<Event>, e: Event)
    requires !e.Accepted?
    ensures Book(trace + [e]).accepted == Book(trace).accepted
  {
    hide Book;
    BookAppend(trace, e);
  }

  lemma SendConfirmed(s: Socket, body: Message, write: Error)
    ensures Book(DoSend(s, body, write).trace).accepted
            == Book(s.trace).accepted + (if SendResult(s, body, write) == OK then One(Copy(s.next, body))
                                         else multiset{})
  {
    hide Book, QueueUp, Refuse, WriteNow, Allocate;
    var c := Copy(s.next, body);
    AcceptedSame(s.trace, Allocated(c));
    if !Live(s) || body.Invalid? {
    } else if s.state == CONNECTING {
      QueuedTrace(s, c);
      AcceptedOne(s.trace + [Allocated(c)], c, true);
    } else if write != OK {
      RefusedTrace(s, c);
      AcceptedSame(s.trace + [Allocated(c)], Freed(c));
    } else {
      DirectTrace(s, c);
      AcceptedOne(s.trace + [Allocated(c)], c, false);
      AcceptedSame(s.trace + [Allocated(c)] + [Accepted(c, false)], Written(c));
    }
  }

  lemma StepConfirmed(s: Socket, a: Action)
    ensures Book(Step(s, a).trace).accepted == Book(s.trace).accepted + Confirmed(s, a)
  {
    hide Book, DoSend;
    if a.CallSend? {
      if Enabled(s, a) {
        SendConfirmed(s, a.body, a.write);
      }
    } else {
      OthersAcceptNothing(s, a);
      hide Step;
    }
  }

  lemma {:induction false} RunConfirmed(s: Socket, run: seq<Action>)
    ensures Book(Run(s, run).trace).accepted == Book(s.trace).accepted + AllConfirmed(s, run)
    decreases |run|
  {
    hide Book, Step, Confirmed;
    if run != [] {
      StepConfirmed(s, run[0]);
      RunConfirmed(Step(s, run[0]), run[1..]);
    }
  }

  /** In every run the messages accepted, the ones the other theorems speak of, are those whose Send answered LNR_OK. */
  lemma AcceptedExactly(s: Socket, run: seq<Action>)
    requires Initial(s)
    ensures Book(Run(s, run).trace).accepted == AllConfirmed(s, run)
  {
    assert s.trace == [];
    RunConfirmed(s, run);
  }

  // ---- Connect ----

  /** Connect answers LNR_OK if and only if it opened a stream, and the socket is CONNECTING on it. */
  lemma ConnectAnswer(s: Socket, timeout: nat, dial: Dial, byUser: bool)
    ensures var t := DoConnect(s, timeout, dial, byUser);
            && (ConnectResult(s, dial) == OK <==> Appended(s.trace, t.trace, Opened(s.epoch + 1, byUser)))
            && (ConnectResult(s, dial) == OK ==> t.state == CONNECTING && t.stream == Open && t.epoch == s.epoch + 1)
            && (ConnectResult(s, dial) != OK ==> t == s.(inPool := t.inPool))
  {
    var t := DoConnect(s, timeout, dial, byUser);
    if ConnectResult(s, dial) == OK {
      assert t.trace[|s.trace|..] == [Opened(s.epoch + 1, byUser)];
    }
  }

  /** The stream a step opens, going by the answer of Connect, and whether the application opened it. */
  function Dials(s: Socket, a: Action): multiset<(nat, bool)> {
    if !Enabled(s, a) then multiset{}
    else
      match a
      case CallConnect(_, dial) => if ConnectResult(s, dial) == OK then One((s.epoch + 1, true)) else multiset{}
      case ContinueRetry(dial) => if ConnectResult(s, dial) == OK then One((s.epoch + 1, false)) else multiset{}
      case _ => multiset{}
  }

  function AllDials(s: Socket, run: seq<Action>): multiset<(nat, bool)>
    decreases |run|
  {
    if run == [] then multiset{} else Dials(s, run[0]) + AllDials(Step(s, run[0]), run[1..])
  }

  /** The streams opened in a history. */
  function Openings(trace: seq<Event>): multiset<(nat, bool)> {
    if trace == [] then multiset{}
    else
      Openings(trace[..|trace| - 1])
      + (if trace[|trace| - 1].Opened? then One((trace[|trace| - 1].epoch, trace[|trace| - 1].byUser)) else multiset{})
  }

  lemma OpeningsAppend(trace: seq<Event>, e: Event)
    ensures Openings(trace + [e]) == Openings(trace) + (if e.Opened? then One((e.epoch, e.byUser)) else multiset{})
  {
    assert (trace + [e])[..|trace|] == trace;
  }

  lemma {:induction false} NoneOpened(trace: seq<Event>, n: nat)
    requires n <= |trace| && forall i :: n <= i < |trace| ==> !trace[i].Opened?
    ensures Openings(trace) == Openings(trace[..n])
    decreases |trace| - n
  {
    hide Openings;
    if n == |trace| {
      assert trace[..n] == trace;
    } else {
      NoneOpened(trace, n + 1);
      assert trace[..n + 1] == trace[..n] + [trace[n]];
      OpeningsAppend(trace[..n], trace[n]);
    }
  }

  lemma ConnectDialled(s: Socket, timeout: nat, dial: Dial, byUser: bool)
    ensures Openings(DoConnect(s, timeout, dial, byUser).trace)
            == Openings(s.trace) + (if ConnectResult(s, dial) == OK then One((s.epoch + 1, byUser)) else multiset{})
  {
    hide Openings;
    OpeningsAppend(s.trace, Opened(s.epoch + 1, byUser));
  }

  lemma RetryDialled(s: Socket, dial: Dial)
    ensures Openings(DoRetry(s, dial).trace)
            == Openings(s.trace) + (if ConnectResult(s, dial) == OK then One((s.epoch + 1, false)) else multiset{})
  {
    hide Openings, DoConnect;
    var t := Emit(s.(pc := Idle), CloseRetried(s.closing));
    OpeningsAppend(s.trace, CloseRetried(s.closing));
    ConnectDialled(t, s.connectTimeout, dial, false);
  }

  lemma OthersOpenNothing(s: Socket, a: Action)
    requires !a.CallConnect? && !a.ContinueRetry?
    ensures Openings(Step(s, a).trace) == Openings(s.trace)
  {
    hide Step, Openings;
    StepLogs(s, a);
    var trace := Step(s, a).trace;
    assert trace[..|s.trace|] == s.trace;
    NoneOpened(trace, |s.trace|);
  }

  lemma StepDialled(s: Socket, a: Action)
    ensures Openings(Step(s, a).trace) == Openings(s.trace) + Dials(s, a)
  {
    hide Openings, DoConnect, DoRetry, ConnectResult, Enabled;
    match a
    case CallConnect(timeout, dial) => ConnectDialled(s, timeout, dial, true);
    case ContinueRetry(dial) => RetryDialled(s, dial);
    case _ =>
      OthersOpenNothing(s, a);
      hide Step;
  }

  lemma {:induction false} RunDialled(s: Socket, run: seq<Action>)
    ensures Openings(Run(s, run).trace) == Openings(s.trace) + AllDials(s, run)
    decreases |run|
  {
    hide Openings, Step, Dials;
    if run != [] {
      StepDialled(s, run[0]);
      RunDialled(Step(s, run[0]), run[1..]);
    }
  }

  /** In every run the streams opened are those for which a Connect, or the automatic one, answered LNR_OK. */
  lemma OpenedExactly(s: Socket, run: seq<Action>)
    requires Initial(s)
    ensures Openings(Run(s, run).trace) == AllDials(s, run)
  {
    assert s.trace == [];
    RunDialled(s, run);
  }
}
