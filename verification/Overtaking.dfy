/**
  The order in which messages reach the transport, queued or not: the order of acceptance, unless a
  message is sent directly while one that goes out later is still pending.
*/
module Overtaking {
  import opened Basics
  import opened Protocol
  import opened Lines
  import opened Conservation
  import opened Timers
  import opened Frames
  import opened Lifecycle
  import opened Delivery

  /** The messages handed to tv_write, in that order. */
  function Handed(trace: seq<Event>): seq<Copy> {
    if trace == [] then []
    else
      Handed(trace[..|trace| - 1]) + if trace[|trace| - 1].Written? then [trace[|trace| - 1].copy] else []
  }

  lemma HandedAppend(trace: seq<Event>, e: Event)
    ensures Handed(trace + [e]) == Handed(trace) + if e.Written? then [e.copy] else []
  {
    assert (trace + [e])[..|trace|] == trace;
  }

  lemma {:induction false} HandedPrefix(trace: seq<Event>, n: nat)
    requires n <= |trace|
    ensures Handed(trace[..n]) <= Handed(trace)
    ensures (forall i :: n <= i < |trace| ==> !trace[i].Written?) ==> Handed(trace[..n]) == Handed(trace)
    decreases |trace| - n
  {
    if n == |trace| {
      assert trace[..n] == trace;
    } else {
      HandedPrefix(trace, n + 1);
      assert trace[..n + 1] == trace[..n] + [trace[n]];
      HandedAppend(trace[..n], trace[n]);
      hide Handed;
    }
  }

  lemma HandedGrows(before: seq<Event>, after: seq<Event>)
    requires before <= after
    ensures Handed(before) <= Handed(after)
  {
    HandedPrefix(after, |before|);
    assert after[..|before|] == before;
    hide Handed;
  }

  /** Those of the queue that go out in the end. */
  function Leaving(pending: seq<Copy>, handed: seq<Copy>): seq<Copy> {
    if pending == [] then []
    else (if pending[0] in handed then [pending[0]] else []) + Leaving(pending[1..], handed)
  }

  lemma {:induction false} LeavingAppend(pending: seq<Copy>, c: Copy, handed: seq<Copy>)
    ensures Leaving(pending + [c], handed) == Leaving(pending, handed) + if c in handed then [c] else []
  {
    if pending != [] {
      assert (pending + [c])[1..] == pending[1..] + [c];
      LeavingAppend(pending[1..], c, handed);
    }
  }

  lemma {:induction false} LeavingAre(pending: seq<Copy>, handed: seq<Copy>)
    ensures forall c :: c in Leaving(pending, handed) <==> c in pending && c in handed
  {
    if pending != [] {
      LeavingAre(pending[1..], handed);
      assert pending == [pending[0]] + pending[1..];
    }
  }

  /** A message is written at once. */
  predicate Direct(s: Socket, a: Action) {
    Enabled(s, a) && a.CallSend? && s.state == CONNECTED && !a.body.Invalid? && a.write == OK
  }

  predicate Overtakes(s: Socket, a: Action, handed: seq<Copy>) {
    Direct(s, a) && exists c :: c in s.pending && c in handed
  }

  /** In the run a message is sent directly while one of those is pending. */
  predicate OvertakesIn(s: Socket, run: seq<Action>, handed: seq<Copy>)
    decreases |run|
  {
    run != [] && (Overtakes(s, run[0], handed) || OvertakesIn(Step(s, run[0]), run[1..], handed))
  }

  // ---- What is handed over, and what is pending ----

  /** The queue is in order, and apart from what went out; the next address is above all. */
  ghost predicate Apart(handed: seq<Copy>, pending: seq<Copy>, next: nat) {
    && Rising(pending) && Below(handed, next) && Below(pending, next)
    && forall c :: c in pending ==> c !in handed
  }

  /** What went out and what of the queue goes out later are in order. */
  ghost predicate InTurn(handed: seq<Copy>, pending: seq<Copy>, all: seq<Copy>) {
    Rising(handed + Leaving(pending, all))
  }

  lemma QueuedTurn(handed: seq<Copy>, pending: seq<Copy>, next: nat, c: Copy, all: seq<Copy>)
    requires Apart(handed, pending, next) && c.ptr == next
    ensures Apart(handed, pending + [c], next + 1)
    ensures InTurn(handed, pending, all) ==> InTurn(handed, pending + [c], all)
  {
    RisingJoin(pending, [c]);
    LeavingAppend(pending, c, all);
    LeavingAre(pending, all);
    if InTurn(handed, pending, all) {
      RisingJoin(handed + Leaving(pending, all), [c]);
      assert Leaving(pending, all) + [] == Leaving(pending, all);
      assert handed + (Leaving(pending, all) + [c]) == handed + Leaving(pending, all) + [c];
    }
  }

  lemma DirectTurn(handed: seq<Copy>, pending: seq<Copy>, next: nat, c: Copy, all: seq<Copy>)
    requires Apart(handed, pending, next) && c.ptr == next
    ensures Apart(handed + [c], pending, next + 1)
    ensures InTurn(handed, pending, all) && (forall d :: d in pending ==> d !in all)
            ==> InTurn(handed + [c], pending, all)
  {
    LeavingAre(pending, all);
    if InTurn(handed, pending, all) && (forall d :: d in pending ==> d !in all) {
      NoneLeaving(pending, all);
      assert handed + [] == handed && handed + [c] + [] == handed + [c];
      RisingJoin(handed, [c]);
    }
  }

  lemma {:induction false} NoneLeaving(pending: seq<Copy>, all: seq<Copy>)
    requires forall d :: d in pending ==> d !in all
    ensures Leaving(pending, all) == []
  {
    if pending != [] {
      assert pending[0] in pending;
      NoneLeaving(pending[1..], all);
    }
  }

  lemma OutTurn(handed: seq<Copy>, pending: seq<Copy>, next: nat, all: seq<Copy>)
    requires Apart(handed, pending, next) && pending != []
    ensures Apart(handed + [pending[0]], pending[1..], next)
    ensures InTurn(handed, pending, all) && pending[0] in all ==> InTurn(handed + [pending[0]], pending[1..], all)
  {
    assert handed + ([pending[0]] + Leaving(pending[1..], all)) == handed + [pending[0]] + Leaving(pending[1..], all);
  }

  lemma DroppedTurn(handed: seq<Copy>, pending: seq<Copy>, next: nat, all: seq<Copy>)
    requires Apart(handed, pending, next) && pending != []
    ensures Apart(handed, pending[1..], next)
    ensures InTurn(handed, pending, all) ==> InTurn(handed, pending[1..], all)
  {
    if InTurn(handed, pending, all) {
      if pending[0] in all {
        RisingWithout(handed, pending[0], Leaving(pending[1..], all));
      } else {
        assert Leaving(pending, all) == Leaving(pending[1..], all);
      }
    }
  }

  lemma EmptiedTurn(handed: seq<Copy>, pending: seq<Copy>, next: nat, all: seq<Copy>)
    requires Apart(handed, pending, next)
    ensures Apart(handed, [], next)
    ensures InTurn(handed, pending, all) ==> InTurn(handed, [], all)
  {
    if InTurn(handed, pending, all) {
      RisingParts(handed, Leaving(pending, all));
      assert handed + [] == handed;
    }
  }

  // ---- Steps ----

  ghost predicate Sorted(s: Socket, all: seq<Copy>) {
    InTurn(Handed(s.trace), s.pending, all)
  }

  ghost predicate Separate(s: Socket) {
    Apart(Handed(s.trace), s.pending, s.next)
  }

  lemma QuietHanded(trace: seq<Event>, e: Event, f: Event)
    requires !e.Written? && !f.Written?
    ensures Handed(trace + [e] + [f]) == Handed(trace)
  {
    HandedAppend(trace, e);
    HandedAppend(trace + [e], f);
  }

  lemma DirectHanded(s: Socket, c: Copy)
    ensures Handed(WriteNow(Allocate(s, c), c).trace) == Handed(s.trace) + [c]
  {
    DirectTrace(s, c);
    QuietHanded(s.trace, Allocated(c), Accepted(c, false));
    HandedAppend(s.trace + [Allocated(c)] + [Accepted(c, false)], Written(c));
    hide Handed;
  }

  lemma DirectSorted(s: Socket, c: Copy, all: seq<Copy>)
    requires Separate(s) && c.ptr == s.next
    ensures var t := WriteNow(Allocate(s, c), c);
            && Separate(t) && Handed(t.trace) == Handed(s.trace) + [c] && t.pending == s.pending
            && (Sorted(s, all) && (forall d :: d in s.pending ==> d !in all) ==> Sorted(t, all))
  {
    DirectHanded(s, c);
    DirectTurn(Handed(s.trace), s.pending, s.next, c, all);
    assert WriteNow(Allocate(s, c), c).next == s.next + 1;
    hide Handed, Apart, InTurn, WriteNow, Allocate;
  }

  lemma QueueUpSorted(s: Socket, c: Copy, all: seq<Copy>)
    requires Separate(s) && c.ptr == s.next
    ensures Separate(QueueUp(s, c)) && (Sorted(s, all) ==> Sorted(QueueUp(s, c), all))
  {
    QueuedTrace(s, c);
    QuietHanded(s.trace, Allocated(c), Accepted(c, true));
    QueuedTurn(Handed(s.trace), s.pending, s.next, c, all);
    hide Handed, Apart, InTurn;
  }

  lemma RefuseSorted(s: Socket, c: Copy, all: seq<Copy>)
    requires Separate(s)
    ensures Separate(Refuse(s, c)) && (Sorted(s, all) ==> Sorted(Refuse(s, c), all))
  {
    RefusedTrace(s, c);
    QuietHanded(s.trace, Allocated(c), Freed(c));
    hide Handed;
  }

  lemma SendSorted(s: Socket, body: Message, write: Error, all: seq<Copy>)
    requires Separate(s) && Enabled(s, CallSend(body, write))
    ensures Separate(DoSend(s, body, write))
    ensures Sorted(s, all) && !Overtakes(s, CallSend(body, write), all) ==> Sorted(DoSend(s, body, write), all)
  {
    hide Separate, Sorted, QueueUp, Refuse, WriteNow, Allocate;
    if Live(s) && !body.Invalid? {
      var c := Copy(s.next, body);
      if s.state == CONNECTING {
        QueueUpSorted(s, c, all);
      } else if write != OK {
        RefuseSorted(s, c, all);
      } else {
        assert Direct(s, CallSend(body, write));
        DirectSorted(s, c, all);
      }
    }
  }

  lemma WrittenSorted(s: Socket, r: WriteResult, all: seq<Copy>)
    requires s.pc.ReportUnsent? && s.pending != [] && Separate(s) && s.state == CONNECTED && r.status == OK
    requires Handed(FlushOne(s, r).trace) <= all
    ensures Separate(FlushOne(s, r)) && (Sorted(s, all) ==> Sorted(FlushOne(s, r), all))
  {
    var c := s.pending[0];
    var t := FlushOne(s, r);
    assert t.trace == s.trace + [Written(c)] && t.pending == s.pending[1..] && t.next == s.next;
    hide SendQueued, FlushOne, Apart, InTurn, Handed;
    HandedAppend(s.trace, Written(c));
    OutTurn(Handed(s.trace), s.pending, s.next, all);
    assert (Handed(s.trace) + [c])[|Handed(s.trace)|] == c;
  }

  lemma UnwrittenSorted(s: Socket, r: WriteResult, all: seq<Copy>)
    requires s.pc.ReportUnsent? && s.pending != [] && Separate(s) && (s.state != CONNECTED || r.status != OK)
    ensures Separate(FlushOne(s, r)) && (Sorted(s, all) ==> Sorted(FlushOne(s, r), all))
  {
    DroppedTurn(Handed(s.trace), s.pending, s.next, all);
    hide Handed, Apart, InTurn;
  }

  lemma FlushOneSorted(s: Socket, r: WriteResult, all: seq<Copy>)
    requires s.pc.ReportUnsent? && s.pending != [] && Separate(s)
    requires Handed(FlushOne(s, r).trace) <= all
    ensures Separate(FlushOne(s, r)) && (Sorted(s, all) ==> Sorted(FlushOne(s, r), all))
  {
    hide Separate, Sorted, Handed, FlushOne;
    if s.state != CONNECTED || r.status != OK {
      UnwrittenSorted(s, r, all);
    } else {
      WrittenSorted(s, r, all);
    }
  }

  lemma {:induction false} FlushLoopSorted(s: Socket, results: seq<WriteResult>, a: Action, all: seq<Copy>)
    requires s.pc.ReportUnsent? && |results| == |s.pending| && Separate(s) && a.ContinueFlush?
    requires Handed(FlushLoop(s, results).trace) <= all
    ensures Separate(FlushLoop(s, results)) && (Sorted(s, all) ==> Sorted(FlushLoop(s, results), all))
    decreases |results|
  {
    hide Separate, Sorted, Handed, FlushOne;
    if results != [] {
      var t := FlushOne(s, results[0]);
      FlushLoopLogs(t, results[1..], a);
      HandedGrows(t.trace, FlushLoop(t, results[1..]).trace);
      FlushOneSorted(s, results[0], all);
      FlushLoopSorted(t, results[1..], a, all);
    }
  }

  lemma OtherSorted(s: Socket, a: Action, all: seq<Copy>)
    requires !a.CallSend? && !a.ContinueFlush? && Separate(s)
    ensures Separate(Step(s, a)) && (Sorted(s, all) ==> Sorted(Step(s, a), all))
  {
    StepLogs(s, a);
    var t := Step(s, a);
    StepQueue(s, a);
    HandedPrefix(t.trace, |s.trace|);
    assert t.trace[..|s.trace|] == s.trace;
    EmptiedTurn(Handed(s.trace), s.pending, s.next, all);
    hide Step, Handed, Apart, InTurn;
  }

  lemma StepQueue(s: Socket, a: Action)
    requires !a.CallSend? && !a.ContinueFlush?
    ensures var t := Step(s, a);
            t.next == s.next && (t.pending == s.pending || t.pending == [])
  {
    if !Loads(a) && NoFreedTimerFires(s, a) {
      StepSteady(s, a);
    } else if Enabled(s, a) {
      hide DoRequestTimeout;
    }
  }

  lemma StepSorted(s: Socket, a: Action, all: seq<Copy>)
    requires Separate(s) && Handed(Step(s, a).trace) <= all
    ensures Separate(Step(s, a))
    ensures Sorted(s, all) && !Overtakes(s, a, all) ==> Sorted(Step(s, a), all)
  {
    if !a.CallSend? && !a.ContinueFlush? {
      hide Step, Separate, Sorted, Handed;
      OtherSorted(s, a, all);
    } else if Enabled(s, a) {
      hide Separate, Sorted, Handed, DoSend, FlushLoop, Enabled, Overtakes;
      match a
      case CallSend(body, write) => SendSorted(s, body, write, all);
      case ContinueFlush(results) => FlushSorted(s, results, a, all);
    }
  }

  lemma FlushSorted(s: Socket, results: seq<WriteResult>, a: Action, all: seq<Copy>)
    requires |results| == |s.pending| && Separate(s) && a.ContinueFlush? && Handed(DoFlush(s, results).trace) <= all
    ensures Separate(DoFlush(s, results)) && (Sorted(s, all) ==> Sorted(DoFlush(s, results), all))
  {
    hide Handed, FlushLoop;
    var t := s.(pc := ReportUnsent([]));
    assert Separate(t) && (Sorted(s, all) ==> Sorted(t, all));
    hide Separate, Sorted;
    FlushLoopSorted(t, results, a, all);
  }

  // ---- Runs ----

  lemma {:induction false} SortedFrom(s: Socket, run: seq<Action>, all: seq<Copy>)
    requires Separate(s) && Sorted(s, all) && Handed(Run(s, run).trace) <= all && !OvertakesIn(s, run, all)
    ensures Rising(Handed(Run(s, run).trace))
    decreases |run|
  {
    if run == [] {
      RisingParts(Handed(s.trace), Leaving(s.pending, all));
    } else {
      var t := Step(s, run[0]);
      RunLogs(t, run[1..]);
      HandedGrows(t.trace, Run(t, run[1..]).trace);
      hide Separate, Sorted, Handed, Step, Overtakes;
      StepSorted(s, run[0], all);
      SortedFrom(t, run[1..], all);
    }
  }

  lemma OvertakerFirst(s: Socket, a: Action, all: seq<Copy>, d: Copy)
    requires Separate(s) && Direct(s, a) && d in s.pending && Handed(Step(s, a).trace) <= all && d in all
    ensures !Rising(all)
  {
    var c := Copy(s.next, a.body);
    assert Step(s, a) == WriteNow(Allocate(s, c), c);
    hide Step;
    DirectSorted(s, c, all);
    hide Handed;
    LaterButOlder(Handed(s.trace), c, all, d);
  }

  lemma LaterButOlder(handed: seq<Copy>, c: Copy, all: seq<Copy>, d: Copy)
    requires handed + [c] <= all && d in all && d !in handed && d.ptr < c.ptr
    ensures !Rising(all)
  {
    var rest := all[|handed| + 1..];
    assert all == (handed + [c]) + rest;
    assert d in rest && c in handed + [c];
    if Rising(all) {
      RisingParts(handed + [c], rest);
    }
  }

  lemma {:induction false} OvertakenFrom(s: Socket, run: seq<Action>, all: seq<Copy>)
    requires Separate(s) && Handed(Run(s, run).trace) == all && OvertakesIn(s, run, all)
    ensures !Rising(all)
    decreases |run|
  {
    var t := Step(s, run[0]);
    RunLogs(t, run[1..]);
    HandedGrows(t.trace, Run(t, run[1..]).trace);
    if Overtakes(s, run[0], all) {
      var d :| d in s.pending && d in all;
      hide Separate, Handed, Step, Direct, Rising;
      OvertakerFirst(s, run[0], all, d);
    } else {
      hide Separate, Handed, Step, Overtakes, Rising;
      StepSorted(s, run[0], all);
      OvertakenFrom(t, run[1..], all);
    }
  }

  /**
    In every run the messages reach tv_write in the order Send accepted them, if and only if none is
    sent directly while one that goes out later is still pending.
  */
  lemma InOrderExactly(s: Socket, run: seq<Action>)
    requires Initial(s)
    ensures var handed := Handed(Run(s, run).trace);
            Rising(handed) <==> !OvertakesIn(s, run, handed)
  {
    var handed := Handed(Run(s, run).trace);
    assert Separate(s) && Sorted(s, handed);
    hide Run, Handed, Initial, Separate, Sorted, Rising;
    if OvertakesIn(s, run, handed) {
      OvertakenFrom(s, run, handed);
    } else {
      SortedFrom(s, run, handed);
    }
  }

  // ---- Addresses and acceptance ----

  /** The messages Send accepted, in that order. */
  function Admitted(trace: seq<Event>): seq<Copy> {
    if trace == [] then []
    else
      Admitted(trace[..|trace| - 1]) + if trace[|trace| - 1].Accepted? then [trace[|trace| - 1].copy] else []
  }

  lemma AdmittedAppend(trace: seq<Event>, e: Event)
    ensures Admitted(trace + [e]) == Admitted(trace) + if e.Accepted? then [e.copy] else []
  {
    assert (trace + [e])[..|trace|] == trace;
  }

  lemma {:induction false} AdmittedSame(trace: seq<Event>, n: nat)
    requires n <= |trace| && forall i :: n <= i < |trace| ==> !trace[i].Accepted?
    ensures Admitted(trace[..n]) == Admitted(trace)
    decreases |trace| - n
  {
    if n == |trace| {
      assert trace[..n] == trace;
    } else {
      AdmittedSame(trace, n + 1);
      assert trace[..n + 1] == trace[..n] + [trace[n]];
      AdmittedAppend(trace[..n], trace[n]);
      hide Admitted;
    }
  }

  ghost predicate Numbered(s: Socket) {
    Rising(Admitted(s.trace)) && Below(Admitted(s.trace), s.next)
  }

  lemma AdmitNumbered(s: Socket, t: Socket, e: Event, f: Event, g: Event, c: Copy)
    requires Numbered(s) && c.ptr == s.next && t.next == s.next + 1
    requires !e.Accepted? && (f.Accepted? ==> f.copy == c) && !g.Accepted?
    requires t.trace == s.trace + [e] + [f] || t.trace == s.trace + [e] + [f] + [g]
    ensures Numbered(t)
  {
    AdmittedAppend(s.trace, e);
    AdmittedAppend(s.trace + [e], f);
    AdmittedAppend(s.trace + [e] + [f], g);
    hide Admitted;
    RisingJoin(Admitted(s.trace), [c]);
  }

  lemma SendNumbered(s: Socket, body: Message, write: Error)
    requires Numbered(s)
    ensures Numbered(DoSend(s, body, write))
  {
    var c := Copy(s.next, body);
    var t := DoSend(s, body, write);
    QueuedTrace(s, c);
    RefusedTrace(s, c);
    DirectTrace(s, c);
    hide Numbered, QueueUp, Refuse, WriteNow, Allocate;
    if Live(s) && !body.Invalid? {
      if s.state == CONNECTING {
        AdmitNumbered(s, t, Allocated(c), Accepted(c, true), HandlerMessage, c);
      } else if write != OK {
        AdmitNumbered(s, t, Allocated(c), Freed(c), HandlerMessage, c);
      } else {
        AdmitNumbered(s, t, Allocated(c), Accepted(c, false), Written(c), c);
      }
    }
  }

  lemma StepNumbered(s: Socket, a: Action)
    requires Numbered(s)
    ensures Numbered(Step(s, a))
  {
    if a.CallSend? {
      hide Numbered;
      SendNumbered(s, a.body, a.write);
    } else {
      var t := Step(s, a);
      StepLogs(s, a);
      NextSame(s, a);
      assert t.trace[..|s.trace|] == s.trace;
      AdmittedSame(t.trace, |s.trace|);
      hide Step, Admitted;
    }
  }

  lemma NextSame(s: Socket, a: Action)
    requires !a.CallSend?
    ensures Step(s, a).next == s.next
  {
    hide FlushLoop;
    if !a.ContinueFlush? {
      StepQueue(s, a);
    }
  }

  lemma {:induction false} NumberedFrom(s: Socket, run: seq<Action>)
    requires Numbered(s)
    ensures Numbered(Run(s, run))
    decreases |run|
  {
    if run != [] {
      hide Numbered, Step;
      StepNumbered(s, run[0]);
      NumberedFrom(Step(s, run[0]), run[1..]);
    }
  }

  /** In every run the order of addresses is the order in which Send accepted the messages. */
  lemma AddressesFollowAcceptance(s: Socket, run: seq<Action>)
    requires Initial(s)
    ensures Rising(Admitted(Run(s, run).trace))
  {
    assert Numbered(s);
    NumberedFrom(s, run);
  }

  // ---- What a caller can do about it ----

  /** No Send comes between the moment the socket is CONNECTED and the flush of its queue. */
  predicate Waits(s: Socket, run: seq<Action>)
    decreases |run|
  {
    run == [] || (!(run[0].CallSend? && s.state == CONNECTED && s.pc == FlushQueue) && Waits(Step(s, run[0]), run[1..]))
  }

  lemma {:induction false} WaitingOvertakesNothing(s: Socket, run: seq<Action>, handed: seq<Copy>)
    requires Orderly(s) && Drained(s) && Waits(s, run)
    ensures !OvertakesIn(s, run, handed)
    decreases |run|
  {
    if run != [] {
      assert Direct(s, run[0]) ==> s.pending == [];
      StepGood(s, run[0]);
      StepDrained(s, run[0]);
      hide Orderly, Drained, Step, Direct;
      WaitingOvertakesNothing(Step(s, run[0]), run[1..], handed);
    }
  }

  /** Then everything goes out in order. */
  lemma WaitingKeepsOrder(s: Socket, run: seq<Action>)
    requires Initial(s) && Waits(s, run)
    ensures Rising(Handed(Run(s, run).trace))
  {
    assert Orderly(s) && Drained(s);
    WaitingOvertakesNothing(s, run, Handed(Run(s, run).trace));
    InOrderExactly(s, run);
  }
}
