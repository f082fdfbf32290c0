/**
  Bookkeeping over a history: how often each copy and each stream met each fate.
  The books are read off the trace alone, independently of the fields of the socket.
*/
module Ledger {
  import opened Protocol

  function One<T>(x: T): multiset<T> { multiset{x} }

  datatype Books = Books(
    made: multiset<Copy>,        // heap copies made by Send
    freed: multiset<Copy>,       // heap copies deleted
    accepted: multiset<Copy>,    // messages whose Send returned LNR_OK
    discharged: multiset<Copy>,  // accepted messages the engine owes nothing for any more
    written: multiset<Copy>,     // messages tv_write took
    requests: multiset<Copy>,    // the requests among them: each got a RequestTimer
    timersFreed: multiset<Copy>, // RequestTimers deleted
    terminal: multiset<Copy>,    // OnMessage(response) and OnError about a message
    orphans: multiset<Copy>      // write-failure reports that found no timer entry
  )

  const BLANK := Books(multiset{}, multiset{}, multiset{}, multiset{}, multiset{}, multiset{}, multiset{},
                       multiset{}, multiset{})

  /**
    Entry of one event. A request is owed an answer or an error; a response or a notification
    is done with once tv_write took it. A failed write that finds no timer entry settles nothing.
  */
  function Post(b: Books, e: Event): Books {
    match e
    case Allocated(c) => b.(made := b.made + One(c))
    case Freed(c) => b.(freed := b.freed + One(c))
    case Accepted(c, _) => b.(accepted := b.accepted + One(c))
    case Written(c) =>
      if c.body.Request? then b.(written := b.written + One(c), requests := b.requests + One(c))
      else b.(written := b.written + One(c), discharged := b.discharged + One(c))
    case TimerFreed(c) => b.(timersFreed := b.timersFreed + One(c))
    case Answered(c) => b.(terminal := b.terminal + One(c), discharged := b.discharged + One(c))
    case Failed(c, cause) =>
      if cause == WriteError(false) then b.(terminal := b.terminal + One(c), orphans := b.orphans + One(c))
      else b.(terminal := b.terminal + One(c), discharged := b.discharged + One(c))
    case _ => b
  }

  function Book(trace: seq<Event>): Books {
    if trace == [] then BLANK else Post(Book(trace[..|trace| - 1]), trace[|trace| - 1])
  }

  lemma BookAppend(trace: seq<Event>, e: Event)
    ensures Book(trace + [e]) == Post(Book(trace), e)
  {
    assert (trace + [e])[..|trace|] == trace;
  }

  /** What the handler hears about a request: one callback when it is settled, and one per orphan. */
  lemma {:induction false} TerminalSplit(trace: seq<Event>, c: Copy)
    requires c.body.Request?
    ensures Book(trace).terminal[c] == Book(trace).discharged[c] + Book(trace).orphans[c]
  {
    if trace != [] {
      var front, e := trace[..|trace| - 1], trace[|trace| - 1];
      TerminalSplit(front, c);
      assert Book(trace) == Post(Book(front), e);
      hide Book;
      PostSplits(Book(front), e, c);
    }
  }

  lemma PostSplits(b: Books, e: Event, c: Copy)
    requires c.body.Request? && b.terminal[c] == b.discharged[c] + b.orphans[c]
    ensures var d := Post(b, e);
            d.terminal[c] == d.discharged[c] + d.orphans[c]
  {
  }

  datatype Streams = Streams(
    issued: multiset<nat>,    // tv_close
    closed: multiset<nat>,    // close callbacks
    ended: multiset<nat>,     // how a close ended: OnDisconnect, suppressed or retried
    connects: multiset<nat>,  // OnConnect callbacks
    reasons: map<nat, Error>, // the last failure of the transport, by stream
    streak: nat,              // automatic reconnects since the last Connect by the application
    late: nat                 // cancellations by a close that had reported its outcome already
  )

  function Mark(b: Streams, e: Event): Streams {
    match e
    case Opened(_, byUser) => b.(streak := if byUser then 0 else b.streak + 1)
    case TransportFailed(k, error) => b.(reasons := b.reasons[k := error])
    case Failed(_, cause) => if cause.Discarded? && b.ended[cause.epoch] > 0 then b.(late := b.late + 1) else b
    case CloseIssued(k) => b.(issued := b.issued + One(k))
    case Closed(k) => b.(closed := b.closed + One(k))
    case HandlerConnect(k) => b.(connects := b.connects + One(k))
    case HandlerDisconnect(k, _) => b.(ended := b.ended + One(k))
    case Suppressed(k) => b.(ended := b.ended + One(k))
    case CloseRetried(k) => b.(ended := b.ended + One(k))
    case _ => b
  }

  function Log(trace: seq<Event>): Streams {
    if trace == [] then Streams(multiset{}, multiset{}, multiset{}, multiset{}, map[], 0, 0)
    else Mark(Log(trace[..|trace| - 1]), trace[|trace| - 1])
  }

  lemma LogAppend(trace: seq<Event>, e: Event)
    ensures Log(trace + [e]) == Mark(Log(trace), e)
  {
    assert (trace + [e])[..|trace|] == trace;
  }
}
