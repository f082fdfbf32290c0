/**
  The one-shot timer: started, stopped, fired, and started again from inside its own callback.
  A libtv handle is allocated for every Start and must be closed once, by whoever ends it. Other
  threads may stop and start the timer between its expiry and the Stop of OnTimer, and between that
  Stop and the callback.
*/
module TimerObject {
  import opened Basics

  datatype Status = Ok | Already | Failed(code: nat)

  /** What the timer asked of libtv and of the application, in order. */
  datatype Event =
    | Started(handle: nat)
    | CloseIssued(handle: nat)
    | Expired(handle: nat)
    | Fired(handle: nat)
    | Freed(handle: nat)

  datatype Timer = Timer(
    id: int,
    started: bool,
    callback: Option<nat>,
    handle: nat,            // the tv_timer_t last allocated
    handles: nat,           // how many were allocated
    ids: nat,               // the process-wide counter of ids
    due: bool,              // libtv: the handle is running
    expired: Option<nat>,   // libtv: the loop thread is about to deliver the expiry of that handle
    firing: Option<nat>,    // OnTimer has stopped the timer for it, and is about to call back
    trace: seq<Event>
  )

  const IDLE := Timer(-1, false, None, 0, 0, 0, false, None, None, [])

  datatype Operation =
    | Start(callback: Option<nat>, init: Status, start: Status)
    | Stop
    | Expire
    | Deliver
    | Fire

  function StartResult(t: Timer, init: Status, start: Status): Status {
    if t.started then Already else if init != Ok then init else start
  }

  function DoStart(t: Timer, callback: Option<nat>, init: Status, start: Status): Timer {
    if t.started then t
    else if init != Ok || start != Ok then
      t.(handle := t.handles, handles := t.handles + 1, trace := t.trace + [Freed(t.handles)])
    else
      t.(handle := t.handles, handles := t.handles + 1, id := t.ids, ids := t.ids + 1, started := true,
         callback := callback, due := true, trace := t.trace + [Started(t.handles)])
  }

  function DoStop(t: Timer): Timer {
    if !t.started then t else t.(started := false, due := false, trace := t.trace + [CloseIssued(t.handle)])
  }

  function DoExpire(t: Timer): Timer {
    t.(due := false, expired := Some(t.handle), trace := t.trace + [Expired(t.handle)])
  }

  /** OnTimer up to its callback: whatever is running is stopped. */
  function DoDeliver(t: Timer): Timer
    requires t.expired.Some?
  {
    DoStop(t.(expired := None, firing := t.expired))
  }

  /** The callback of OnTimer, the one that was set last. */
  function DoFire(t: Timer): Timer
    requires t.firing.Some?
  {
    if t.callback.None? then t.(firing := None)
    else t.(firing := None, trace := t.trace + [Fired(t.firing.value)])
  }

  /** libtv lets a handle expire once, while it is running, and delivers one expiry at a time. */
  function Step(t: Timer, op: Operation): Timer {
    match op
    case Start(callback, init, start) => DoStart(t, callback, init, start)
    case Stop => DoStop(t)
    case Expire => if t.due && t.expired.None? && t.firing.None? then DoExpire(t) else t
    case Deliver => if t.expired.Some? && t.firing.None? then DoDeliver(t) else t
    case Fire => if t.firing.Some? then DoFire(t) else t
  }

  function Run(t: Timer, run: seq<Operation>): Timer
    decreases |run|
  {
    if run == [] then t else Run(Step(t, run[0]), run[1..])
  }

  // ---- The life of a handle ----

  function Count(trace: seq<Event>, e: Event): nat {
    if trace == [] then 0 else Count(trace[..|trace| - 1], e) + if trace[|trace| - 1] == e then 1 else 0
  }

  lemma CountAppend(trace: seq<Event>, e: Event, x: Event)
    ensures Count(trace + [e], x) == Count(trace, x) + if e == x then 1 else 0
  {
    assert (trace + [e])[..|trace|] == trace;
  }

  lemma CountAppends(trace: seq<Event>, e: Event, h: nat)
    ensures Count(trace + [e], Fired(h)) == Count(trace, Fired(h)) + if e == Fired(h) then 1 else 0
    ensures Count(trace + [e], Expired(h)) == Count(trace, Expired(h)) + if e == Expired(h) then 1 else 0
    ensures Count(trace + [e], CloseIssued(h)) == Count(trace, CloseIssued(h)) + if e == CloseIssued(h) then 1 else 0
    ensures Count(trace + [e], Started(h)) == Count(trace, Started(h)) + if e == Started(h) then 1 else 0
    ensures Count(trace + [e], Freed(h)) == Count(trace, Freed(h)) + if e == Freed(h) then 1 else 0
  {
    CountAppend(trace, e, Fired(h));
    CountAppend(trace, e, Expired(h));
    CountAppend(trace, e, CloseIssued(h));
    CountAppend(trace, e, Started(h));
    CountAppend(trace, e, Freed(h));
  }

  /** The accounts of one handle. */
  predicate KeptAt(t: Timer, h: nat) {
    && Count(t.trace, Fired(h)) <= Count(t.trace, CloseIssued(h))
    && Count(t.trace, Fired(h)) + (if t.expired == Some(h) then 1 else 0) + (if t.firing == Some(h) then 1 else 0)
       <= Count(t.trace, Expired(h))
    && Count(t.trace, Expired(h)) + (if t.due && h == t.handle then 1 else 0) <= Count(t.trace, Started(h))
    && Count(t.trace, Started(h)) + Count(t.trace, Freed(h)) == (if h < t.handles then 1 else 0)
    && Count(t.trace, CloseIssued(h)) + (if t.started && h == t.handle then 1 else 0) == Count(t.trace, Started(h))
    && (t.started ==> t.handle < t.handles) && (t.due ==> t.started)
    && (t.firing == Some(h) ==> !(t.started && h == t.handle))
  }

  lemma StartKept(t: Timer, callback: Option<nat>, init: Status, start: Status, h: nat)
    requires KeptAt(t, h)
    ensures KeptAt(DoStart(t, callback, init, start), h)
  {
    CountAppends(t.trace, if init != Ok || start != Ok then Freed(t.handles) else Started(t.handles), h);
    hide Count;
  }

  lemma StopKept(t: Timer, h: nat)
    requires KeptAt(t, h)
    ensures KeptAt(DoStop(t), h)
  {
    CountAppends(t.trace, CloseIssued(t.handle), h);
    hide Count;
  }

  lemma ExpireKept(t: Timer, h: nat)
    requires KeptAt(t, h) && t.due && t.expired.None? && t.firing.None?
    ensures KeptAt(DoExpire(t), h)
  {
    CountAppends(t.trace, Expired(t.handle), h);
    hide Count;
  }

  lemma DeliverKept(t: Timer, h: nat)
    requires KeptAt(t, h) && t.expired.Some? && t.firing.None?
    ensures KeptAt(DoDeliver(t), h)
  {
    CountAppends(t.trace, CloseIssued(t.handle), h);
    hide Count;
  }

  /** The handle that expired is closed by now, so that its expiry may fire. */
  lemma FireKept(t: Timer, h: nat)
    requires KeptAt(t, h) && t.firing.Some?
    ensures KeptAt(DoFire(t), h)
  {
    hide Count;
    CountAppends(t.trace, Fired(t.firing.value), h);
  }

  lemma StepKept(t: Timer, op: Operation, h: nat)
    requires KeptAt(t, h)
    ensures KeptAt(Step(t, op), h)
  {
    hide KeptAt;
    match op
    case Start(callback, init, start) => StartKept(t, callback, init, start, h);
    case Stop => StopKept(t, h);
    case Expire => if t.due && t.expired.None? && t.firing.None? { ExpireKept(t, h); }
    case Deliver => if t.expired.Some? && t.firing.None? { DeliverKept(t, h); }
    case Fire => if t.firing.Some? { FireKept(t, h); }
  }

  lemma {:induction false} RunKept(t: Timer, run: seq<Operation>, h: nat)
    requires KeptAt(t, h)
    ensures KeptAt(Run(t, run), h)
    decreases |run|
  {
    hide KeptAt;
    if run != [] {
      StepKept(t, run[0], h);
      RunKept(Step(t, run[0]), run[1..], h);
    }
  }

  /**
    In every run of starts, stops, expiries, deliveries and callbacks, in any order, from other threads
    and from inside the callback: a handle fires at most once per start, only when it is closed, and is
    closed at most once, exactly once unless it is the one that is running; a handle that did not
    start is freed instead.
  */
  lemma HandlesClosedOnce(run: seq<Operation>, h: nat)
    ensures var t := Run(IDLE, run);
            && Count(t.trace, Fired(h)) <= Count(t.trace, CloseIssued(h)) <= Count(t.trace, Started(h)) <= 1
            && (Count(t.trace, CloseIssued(h)) < Count(t.trace, Started(h)) <==> t.started && h == t.handle)
            && (h < t.handles ==> Count(t.trace, Started(h)) + Count(t.trace, Freed(h)) == 1)
  {
    RunKept(IDLE, run, h);
  }

  lemma RunCons(t: Timer, op: Operation, run: seq<Operation>)
    ensures Run(t, [op] + run) == Run(Step(t, op), run)
  {
    assert ([op] + run)[1..] == run;
  }

  /** A Stop that comes after the expiry is too late for the callback. */
  lemma StopMayComeLate(t: Timer)
    requires t.due && t.started && t.expired.None? && t.firing.None? && t.callback.Some?
    ensures var u := Run(t, [Expire] + ([Stop] + ([Deliver] + ([Fire] + []))));
            !u.started && u.trace == t.trace + [Expired(t.handle), CloseIssued(t.handle), Fired(t.handle)]
  {
    var t1 := Step(t, Expire);
    var t2 := Step(t1, Stop);
    var t3 := Step(t2, Deliver);
    RunCons(t3, Fire, []);
    RunCons(t2, Deliver, [Fire] + []);
    RunCons(t1, Stop, [Deliver] + ([Fire] + []));
    RunCons(t, Expire, [Stop] + ([Deliver] + ([Fire] + [])));
  }

  /**
    A Start between the Stop of OnTimer and its callback is called back at once: what runs is the callback
    of the new start, whose own handle has not expired and will call it again.
  */
  lemma StartMayComeEarly(t: Timer, callback: nat)
    requires t.due && t.started && t.expired.None? && t.firing.None?
    ensures var u := Run(t, [Expire] + ([Deliver] + ([Start(Some(callback), Ok, Ok)] + [])));
            && u.firing == Some(t.handle) && u.callback == Some(callback) && u.due && u.handle == t.handles
            && Step(u, Fire).trace == t.trace + [Expired(t.handle), CloseIssued(t.handle), Started(t.handles),
                                                 Fired(t.handle)]
  {
    var t1 := Step(t, Expire);
    var t2 := Step(t1, Deliver);
    RunCons(t2, Start(Some(callback), Ok, Ok), []);
    RunCons(t1, Deliver, [Start(Some(callback), Ok, Ok)] + []);
    RunCons(t, Expire, [Deliver] + ([Start(Some(callback), Ok, Ok)] + []));
  }

  predicate IsFired(e: Event) { e.Fired? }
  predicate IsStarted(e: Event) { e.Started? }

  function Total(trace: seq<Event>, counts: Event -> bool): nat {
    if trace == [] then 0
    else Total(trace[..|trace| - 1], counts) + if counts(trace[|trace| - 1]) then 1 else 0
  }

  lemma TotalAppend(trace: seq<Event>, e: Event, counts: Event -> bool)
    ensures Total(trace + [e], counts) == Total(trace, counts) + if counts(e) then 1 else 0
  {
    assert (trace + [e])[..|trace|] == trace;
  }

  /** Fired, about to fire and running, together no more than were started. */
  predicate Counted(t: Timer) {
    && Total(t.trace, IsFired) + (if t.expired.Some? then 1 else 0) + (if t.firing.Some? then 1 else 0)
       + (if t.due then 1 else 0) <= Total(t.trace, IsStarted)
    && (t.due ==> t.started)
  }

  lemma {:induction false} RunCounted(t: Timer, run: seq<Operation>)
    requires Counted(t)
    ensures Counted(Run(t, run))
    decreases |run|
  {
    hide Counted, Step;
    if run != [] {
      StepCounted(t, run[0]);
      RunCounted(Step(t, run[0]), run[1..]);
    }
  }

  /** In every run: callbacks fired, with those still to fire, never exceed successful starts. */
  lemma FiredAtMostStarted(run: seq<Operation>)
    ensures var t := Run(IDLE, run);
            Total(t.trace, IsFired) + (if t.expired.Some? then 1 else 0) + (if t.firing.Some? then 1 else 0)
            + (if t.due then 1 else 0) <= Total(t.trace, IsStarted)
  {
    hide Run;
    RunCounted(IDLE, run);
  }

  lemma NotCounted(trace: seq<Event>, e: Event)
    requires !e.Fired? && !e.Started?
    ensures Total(trace + [e], IsFired) == Total(trace, IsFired)
            && Total(trace + [e], IsStarted) == Total(trace, IsStarted)
  {
    TotalAppend(trace, e, IsFired);
    TotalAppend(trace, e, IsStarted);
  }

  lemma StartCounted(t: Timer, callback: Option<nat>, init: Status, start: Status)
    requires Counted(t)
    ensures Counted(DoStart(t, callback, init, start))
  {
    hide Total;
    NotCounted(t.trace, Freed(t.handles));
    TotalAppend(t.trace, Started(t.handles), IsFired);
    TotalAppend(t.trace, Started(t.handles), IsStarted);
  }

  lemma StopCounted(t: Timer)
    requires Counted(t)
    ensures Counted(DoStop(t))
  {
    hide Total;
    NotCounted(t.trace, CloseIssued(t.handle));
  }

  lemma ExpireCounted(t: Timer)
    requires Counted(t) && t.due && t.expired.None?
    ensures Counted(DoExpire(t))
  {
    hide Total;
    NotCounted(t.trace, Expired(t.handle));
  }

  lemma DeliverCounted(t: Timer)
    requires Counted(t) && t.expired.Some? && t.firing.None?
    ensures Counted(DoDeliver(t))
  {
    hide Total;
    NotCounted(t.trace, CloseIssued(t.handle));
  }

  lemma FireCounted(t: Timer)
    requires Counted(t) && t.firing.Some?
    ensures Counted(DoFire(t))
  {
    hide Total;
    TotalAppend(t.trace, Fired(t.firing.value), IsFired);
    TotalAppend(t.trace, Fired(t.firing.value), IsStarted);
  }

  lemma StepCounted(t: Timer, op: Operation)
    requires Counted(t)
    ensures Counted(Step(t, op))
  {
    hide Counted, DoStart, DoStop, DoExpire, DoDeliver, DoFire;
    match op
    case Start(callback, init, start) => StartCounted(t, callback, init, start);
    case Stop => StopCounted(t);
    case Expire => if t.due && t.expired.None? && t.firing.None? { ExpireCounted(t); }
    case Deliver => if t.expired.Some? && t.firing.None? { DeliverCounted(t); }
    case Fire => if t.firing.Some? { FireCounted(t); }
  }

  // ---- The object ----

  class TimerImpl {
    var id: int
    var started: bool
    var callback: Option<nat>
    var handle: nat
    var handles: nat
    var ids: nat
    ghost var due: bool
    ghost var expired: Option<nat>
    ghost var firing: Option<nat>
    ghost var trace: seq<Event>

    ghost function Snapshot(): Timer
      reads this
    {
      Timer(id, started, callback, handle, handles, ids, due, expired, firing, trace)
    }

    constructor ()
      ensures Snapshot() == IDLE
    {
      id, started, callback, handle, handles, ids := -1, false, None, 0, 0, 0;
      due, expired, firing, trace := false, None, None, [];
    }

    method Start(callback: Option<nat>, init: Status, start: Status) returns (status: Status)
      modifies this
      ensures Snapshot() == DoStart(old(Snapshot()), callback, init, start)
      ensures status == StartResult(old(Snapshot()), init, start)
      ensures old(started) <==> status == Already && trace == old(trace)
      ensures !old(started) ==> status == (if init != Ok then init else start) && handles == old(handles) + 1
      ensures !old(started) && status == Ok ==>
                && started && this.callback == callback && trace == old(trace) + [Started(old(handles))]
                && id == old(ids) && ids == old(ids) + 1
      ensures !old(started) && status != Ok ==> !started && trace == old(trace) + [Freed(old(handles))]
    {
      if started {
        return Already;
      }
      handle := handles;
      handles := handles + 1;
      if init != Ok {
        trace := trace + [Freed(handle)];
        return init;
      }
      if start != Ok {
        trace := trace + [Freed(handle)];
        return start;
      }
      id := ids;
      ids := ids + 1;
      started := true;
      this.callback := callback;
      due := true;
      trace := trace + [Started(handle)];
      return Ok;
    }

    method Stop()
      modifies this
      ensures Snapshot() == DoStop(old(Snapshot()))
    {
      if !started {
        return;
      }
      started := false;
      due := false;
      trace := trace + [CloseIssued(handle)];
    }

    /**
      The delivery of an expiry: the Stop, and the callback if there is one. `between` is what other threads
      do before the callback, `inside` what they and the callback do while it runs.
    */
    method OnTimer(between: seq<Operation>, inside: seq<Operation>)
      requires expired.Some? && forall op :: op in between || op in inside ==> op.Start? || op.Stop?
      modifies this
      ensures var stopped := Run(DoDeliver(old(Snapshot())), between);
              && stopped.firing == old(expired)
              && Snapshot() == Run(DoFire(stopped), if stopped.callback.Some? then inside else [])
    {
      firing := expired;
      expired := None;
      Stop();
      Perform(between);
      if callback.Some? {
        trace := trace + [Fired(firing.value)];
        firing := None;
        Perform(inside);
      } else {
        firing := None;
      }
    }

    method Perform(operations: seq<Operation>)
      requires forall op :: op in operations ==> op.Start? || op.Stop?
      modifies this
      ensures Snapshot() == Run(old(Snapshot()), operations) && firing == old(firing)
    {
      var i := 0;
      while i < |operations|
        invariant i <= |operations| && firing == old(firing)
        invariant Run(Snapshot(), operations[i..]) == Run(old(Snapshot()), operations)
      {
        assert operations[i..][1..] == operations[i + 1..];
        match operations[i] {
          case Start(callback, init, start) => var _ := Start(callback, init, start);
          case Stop => Stop();
          case _ =>
        }
        i := i + 1;
      }
    }
  }
}
