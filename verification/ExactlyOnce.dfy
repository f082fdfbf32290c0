/**
  How often the handler hears of a request: once, unless a failed write of it completes when it has
  been settled already, or before its entry was pushed.
*/
module ExactlyOnce {
  import opened Basics
  import opened Protocol
  import opened Ledger
  import opened Stocks
  import opened Conservation
  import opened Frames
  import opened Lifecycle
  import opened Delivery

  /** The write of c is reported failed after c was settled, or while Send has not pushed its entry. */
  ghost predicate Orphaning(s: Socket, a: Action, c: Copy) {
    && a.WriteDone? && Enabled(s, a) && a.copy == c && a.status != OK
    && (c in Book(s.trace).discharged || s.sending == Some(c))
  }

  ghost predicate OrphansIn(s: Socket, run: seq<Action>, c: Copy)
    decreases |run|
  {
    run != [] && (Orphaning(s, run[0], c) || OrphansIn(Step(s, run[0]), run[1..], c))
  }

  lemma PostOrphans(b: Books, e: Event, c: Copy)
    ensures Post(b, e).orphans[c] == b.orphans[c] + if e == Failed(c, WriteError(false)) then 1 else 0
  {
  }

  /** Only such an event makes an orphan of c. */
  lemma {:induction false} OrphansFrom(trace: seq<Event>, n: nat, c: Copy)
    requires n <= |trace| && forall i :: n <= i < |trace| ==> trace[i] != Failed(c, WriteError(false))
    ensures Book(trace).orphans[c] == Book(trace[..n]).orphans[c]
    decreases |trace| - n
  {
    hide Book;
    if n == |trace| {
      assert trace[..n] == trace;
    } else {
      OrphansFrom(trace, n + 1, c);
      assert trace[..n + 1] == trace[..n] + [trace[n]];
      BookAppend(trace[..n], trace[n]);
      PostOrphans(Book(trace[..n]), trace[n], c);
      hide Post;
    }
  }

  lemma OtherOrphans(s: Socket, a: Action, c: Copy)
    requires !(a.WriteDone? && a.copy == c && a.status != OK)
    ensures Book(Step(s, a).trace).orphans[c] == Book(s.trace).orphans[c]
  {
    hide Step, Book;
    StepLogs(s, a);
    var trace := Step(s, a).trace;
    assert trace[..|s.trace|] == s.trace;
    OrphansFrom(trace, |s.trace|, c);
  }

  lemma FailedOrphans(s: Socket, c: Copy, status: Error)
    requires Healthy(s) && Enabled(s, WriteDone(c, status)) && c.body.Request? && status != OK
    ensures Book(Step(s, WriteDone(c, status)).trace).orphans[c]
            == Book(s.trace).orphans[c] + (if Orphaning(s, WriteDone(c, status), c) then 1 else 0)
  {
    OrphanFrom(s, c, status);
    hide Healthy, Book, Step, Enabled;
  }

  lemma StepOrphans(s: Socket, a: Action, c: Copy)
    requires Healthy(s) && c.body.Request?
    ensures Book(Step(s, a).trace).orphans[c] == Book(s.trace).orphans[c] + (if Orphaning(s, a, c) then 1 else 0)
  {
    hide Healthy, Book, Next;
    if a.WriteDone? && a.copy == c && a.status != OK {
      if Enabled(s, a) {
        FailedOrphans(s, c, a.status);
      }
    } else {
      OtherOrphans(s, a, c);
    }
  }

  lemma {:induction false} RunOrphans(s: Socket, run: seq<Action>, c: Copy)
    requires Healthy(s) && FreshRun(s, run) && c.body.Request?
    ensures Book(Run(s, run).trace).orphans[c] >= Book(s.trace).orphans[c]
    ensures Book(Run(s, run).trace).orphans[c] > Book(s.trace).orphans[c] <==> OrphansIn(s, run, c)
    decreases |run|
  {
    if run != [] {
      hide Healthy, Book, Step, Fresh, Orphaning;
      StepHealthy(s, run[0]);
      StepOrphans(s, run[0], c);
      RunOrphans(Step(s, run[0]), run[1..], c);
    }
  }

  /**
    A report of a failed write finds no entry if and only if, in the run, a failed write of that
    request was taken after it had been settled or before its entry was pushed.
  */
  lemma OrphansExactly(s: Socket, run: seq<Action>, c: Copy)
    requires Initial(s) && FreshRun(s, run) && c.body.Request?
    ensures c in Book(Run(s, run).trace).orphans <==> OrphansIn(s, run, c)
  {
    InitialHealthy(s);
    assert Book(s.trace) == BLANK;
    hide Book, Healthy, Initial;
    RunOrphans(s, run, c);
  }

  /**
    By the time a close is reported, and nobody connected meanwhile, the handler has heard of each
    accepted request: exactly once if and only if no such write was taken.
  */
  lemma HeardExactlyOnce(s: Socket, run: seq<Action>, c: Copy)
    requires Initial(s) && FreshRun(s, run)
    requires Run(s, run).pc == NotifyDisconnect && Run(s, run).state == DISCONNECTED
    requires c in Book(Run(s, run).trace).accepted && c.body.Request?
    ensures Book(Run(s, run).trace).terminal[c] >= 1
    ensures Book(Run(s, run).trace).terminal[c] == 1 <==> !OrphansIn(s, run, c)
  {
    hide Run, Book, Initial, FreshRun;
    SettledAtDisconnect(s, run);
    OrphansExactly(s, run, c);
  }
}
