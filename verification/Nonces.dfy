/**
  One-time nonces: a nonce is good from its issue until it is presented or expires, and is accepted
  at most as often as it was issued, even when it expires between the check and the removal.
*/
module Nonces {
  import opened Basics

  datatype Event = Issued(nonce: string) | Accepted(nonce: string) | Refused(nonce: string) | Removed(nonce: string)

  datatype Result = Ok | Already | TimerFailed

  /** The pool, the nonce a request being accepted has just presented, and the history. */
  datatype Nonces = Nonces(pool: seq<string>, presented: Option<string>, trace: seq<Event>)

  const EMPTY := Nonces([], None, [])

  datatype Action =
    | Issue(nonce: string, timerStarts: bool)
    | Check(nonce: string)
    | Consume
    | Expire(nonce: string)

  function Find(pool: seq<string>, nonce: string): (i: nat)
    ensures i <= |pool| && nonce !in pool[..i]
    ensures i < |pool| ==> pool[i] == nonce
  {
    if pool == [] || pool[0] == nonce then 0 else 1 + Find(pool[1..], nonce)
  }

  function AddResult(pool: seq<string>, nonce: string, timerStarts: bool): Result {
    if nonce in pool then Already else if timerStarts then Ok else TimerFailed
  }

  function DoAdd(s: Nonces, nonce: string): Nonces {
    if nonce in s.pool then s else s.(pool := s.pool + [nonce], trace := s.trace + [Issued(nonce)])
  }

  function DoRemove(s: Nonces, nonce: string): Nonces {
    var i := Find(s.pool, nonce);
    if i == |s.pool| then s else s.(pool := RemoveAt(s.pool, i), trace := s.trace + [Removed(nonce)])
  }

  function DoCheck(s: Nonces, nonce: string): Nonces {
    s.(presented := Some(nonce), trace := s.trace + [if nonce in s.pool then Accepted(nonce) else Refused(nonce)])
  }

  /**
    A server accepts one connection at a time, so nothing is issued or checked between the check of
    a nonce and its removal; a timer may well expire there. A timer runs only for a pool entry.
  */
  predicate Enabled(s: Nonces, a: Action) {
    match a
    case Issue(_, _) => s.presented.None?
    case Check(_) => s.presented.None?
    case Consume => s.presented.Some?
    case Expire(nonce) => nonce in s.pool
  }

  function Step(s: Nonces, a: Action): Nonces {
    if !Enabled(s, a) then s
    else
      match a
      case Issue(nonce, _) => DoAdd(s, nonce)
      case Check(nonce) => DoCheck(s, nonce)
      case Consume => DoRemove(s.(presented := None), s.presented.value)
      case Expire(nonce) => DoRemove(s, nonce)
  }

  function Run(s: Nonces, run: seq<Action>): Nonces
    decreases |run|
  {
    if run == [] then s else Run(Step(s, run[0]), run[1..])
  }

  // ---- Read off the history ----

  function Count(trace: seq<Event>, e: Event): nat {
    if trace == [] then 0 else Count(trace[..|trace| - 1], e) + if trace[|trace| - 1] == e then 1 else 0
  }

  /** Issued, and neither presented nor expired since. */
  predicate Standing(trace: seq<Event>, nonce: string) {
    if trace == [] then false
    else if trace[|trace| - 1] == Issued(nonce) then true
    else if trace[|trace| - 1] == Removed(nonce) then false
    else Standing(trace[..|trace| - 1], nonce)
  }

  lemma TraceAppend(trace: seq<Event>, e: Event, x: Event, nonce: string)
    ensures Count(trace + [e], x) == Count(trace, x) + if e == x then 1 else 0
    ensures Standing(trace + [e], nonce) == (e == Issued(nonce) || (e != Removed(nonce) && Standing(trace, nonce)))
  {
    assert (trace + [e])[..|trace|] == trace;
  }

  ghost predicate Distinct(pool: seq<string>) {
    forall i, j :: 0 <= i < j < |pool| ==> pool[i] != pool[j]
  }

  /** Of one nonce: it is in the pool while it stands, and was accepted at most once per issue. */
  predicate KeptFor(s: Nonces, nonce: string) {
    && (nonce in s.pool <==> Standing(s.trace, nonce))
    && Count(s.trace, Accepted(nonce)) + (if nonce in s.pool && s.presented != Some(nonce) then 1 else 0)
       <= Count(s.trace, Issued(nonce))
  }

  lemma AddKept(s: Nonces, nonce: string, n: string)
    requires Distinct(s.pool) && KeptFor(s, n) && s.presented.None?
    ensures Distinct(DoAdd(s, nonce).pool) && KeptFor(DoAdd(s, nonce), n)
  {
    TraceAppend(s.trace, Issued(nonce), Accepted(n), n);
    TraceAppend(s.trace, Issued(nonce), Issued(n), n);
  }

  lemma CheckKept(s: Nonces, nonce: string, n: string)
    requires KeptFor(s, n) && s.presented.None?
    ensures KeptFor(DoCheck(s, nonce), n)
  {
    var e := if nonce in s.pool then Accepted(nonce) else Refused(nonce);
    TraceAppend(s.trace, e, Accepted(n), n);
    TraceAppend(s.trace, e, Issued(n), n);
  }

  lemma RemovedFrom(pool: seq<string>, nonce: string, n: string)
    requires Distinct(pool) && Find(pool, nonce) < |pool|
    ensures Distinct(RemoveAt(pool, Find(pool, nonce)))
    ensures n in RemoveAt(pool, Find(pool, nonce)) <==> n in pool && n != nonce
  {
    DistinctWithout(pool, Find(pool, nonce), n);
  }

  lemma DistinctWithout(pool: seq<string>, i: nat, n: string)
    requires Distinct(pool) && i < |pool|
    ensures Distinct(RemoveAt(pool, i))
    ensures n in RemoveAt(pool, i) <==> n in pool && n != pool[i]
  {
    var r := RemoveAt(pool, i);
    assert forall k :: 0 <= k < |r| ==> r[k] == pool[if k < i then k else k + 1];
    if n in pool && n != pool[i] {
      var j :| 0 <= j < |pool| && pool[j] == n;
      assert r[if j < i then j else j - 1] == n;
    }
  }

  lemma RemoveKept(s: Nonces, nonce: string, n: string)
    requires Distinct(s.pool) && KeptFor(s, n)
    ensures Distinct(DoRemove(s, nonce).pool) && KeptFor(DoRemove(s, nonce), n)
    ensures nonce !in DoRemove(s, nonce).pool
  {
    FindMissing(s.pool, nonce);
    if Find(s.pool, nonce) < |s.pool| {
      RemovedFrom(s.pool, nonce, n);
      RemovedFrom(s.pool, nonce, nonce);
      TraceAppend(s.trace, Removed(nonce), Accepted(n), n);
      TraceAppend(s.trace, Removed(nonce), Issued(n), n);
    }
  }

  lemma FindMissing(pool: seq<string>, nonce: string)
    ensures Find(pool, nonce) == |pool| <==> nonce !in pool
  {
  }

  lemma ConsumeKept(s: Nonces, n: string)
    requires Distinct(s.pool) && KeptFor(s, n) && s.presented.Some?
    ensures var t := DoRemove(s.(presented := None), s.presented.value);
            Distinct(t.pool) && KeptFor(t, n)
  {
    var nonce := s.presented.value;
    RemoveKept(s, nonce, n);
    FindMissing(s.pool, nonce);
    assert DoRemove(s.(presented := None), nonce) == DoRemove(s, nonce).(presented := None);
  }

  lemma StepKept(s: Nonces, a: Action, n: string)
    requires Distinct(s.pool) && KeptFor(s, n)
    ensures Distinct(Step(s, a).pool) && KeptFor(Step(s, a), n)
  {
    if Enabled(s, a) {
      hide KeptFor, Distinct;
      match a
      case Issue(nonce, _) => AddKept(s, nonce, n);
      case Check(nonce) => CheckKept(s, nonce, n);
      case Consume => ConsumeKept(s, n);
      case Expire(nonce) => RemoveKept(s, nonce, n);
    }
  }

  lemma {:induction false} RunKept(s: Nonces, run: seq<Action>, n: string)
    requires Distinct(s.pool) && KeptFor(s, n)
    ensures Distinct(Run(s, run).pool) && KeptFor(Run(s, run), n)
    decreases |run|
  {
    if run != [] {
      StepKept(s, run[0], n);
      hide KeptFor, Distinct;
      RunKept(Step(s, run[0]), run[1..], n);
    }
  }

  /**
    In every run of issues, presentations and expiries: the entries are distinct, a nonce is in the
    pool exactly when it was issued and neither removed by a presentation nor expired since, and it
    was accepted at most as often as it was issued.
  */
  lemma NoncesOnce(run: seq<Action>, nonce: string)
    ensures var t := Run(EMPTY, run);
            && Distinct(t.pool)
            && (nonce in t.pool <==> Standing(t.trace, nonce))
            && Count(t.trace, Accepted(nonce)) <= Count(t.trace, Issued(nonce))
  {
    RunKept(EMPTY, run, nonce);
  }

  /** In every run a nonce presented is accepted if and only if it was issued and not presented or expired since. */
  lemma AcceptedExactly(run: seq<Action>, nonce: string)
    requires Enabled(Run(EMPTY, run), Check(nonce))
    ensures var t := Run(EMPTY, run);
            Step(t, Check(nonce)).trace
            == t.trace + [if Standing(t.trace, nonce) then Accepted(nonce) else Refused(nonce)]
  {
    RunKept(EMPTY, run, nonce);
    hide Run, Count, Standing;
  }

  // ---- The object ----

  class NoncePool {
    var pool: seq<string>
    ghost var presented: Option<string>
    ghost var trace: seq<Event>

    ghost function Snapshot(): Nonces
      reads this
    {
      Nonces(pool, presented, trace)
    }

    constructor ()
      ensures Snapshot() == EMPTY
    {
      pool, presented, trace := [], None, [];
    }

    method Search(nonce: string) returns (i: nat)
      ensures i == Find(pool, nonce)
    {
      i := 0;
      while i < |pool| && pool[i] != nonce
        invariant i <= |pool|
        invariant Find(pool, nonce) == i + Find(pool[i..], nonce)
      {
        assert pool[i..][1..] == pool[i + 1..];
        i := i + 1;
      }
    }

    /** The entry stays in the pool even when its timer does not start. */
    method Add(nonce: string, timerStarts: bool) returns (r: Result)
      modifies this
      ensures Snapshot() == DoAdd(old(Snapshot()), nonce)
      ensures r == AddResult(old(pool), nonce, timerStarts)
      ensures r == Already <==> nonce in old(pool)
      ensures r == TimerFailed <==> nonce !in old(pool) && !timerStarts
      ensures pool == if nonce in old(pool) then old(pool) else old(pool) + [nonce]
    {
      var i := Search(nonce);
      FindMissing(pool, nonce);
      if i < |pool| {
        return Already;
      }
      pool := pool + [nonce];
      trace := trace + [Issued(nonce)];
      return if timerStarts then Ok else TimerFailed;
    }

    method Remove(nonce: string)
      modifies this
      ensures Snapshot() == DoRemove(old(Snapshot()), nonce)
    {
      var i := Search(nonce);
      if i < |pool| {
        pool := pool[..i] + pool[i + 1..];
        trace := trace + [Removed(nonce)];
      }
    }

    method IsValid(nonce: string) returns (valid: bool)
      modifies this`presented, this`trace
      ensures Snapshot() == DoCheck(old(Snapshot()), nonce)
      ensures valid == (nonce in pool)
    {
      var i := Search(nonce);
      FindMissing(pool, nonce);
      presented := Some(nonce);
      trace := trace + [if i < |pool| then Accepted(nonce) else Refused(nonce)];
      return i < |pool|;
    }

    /** The expiry of the timer of an entry. */
    method OnTimer(nonce: string)
      requires nonce in pool
      modifies this
      ensures Snapshot() == Step(old(Snapshot()), Expire(nonce))
    {
      Remove(nonce);
    }

    /** The do-while loop that draws nonces until one is new; `draws` is what the random source gives. */
    method IssueNew(draws: seq<string>, timerStarts: bool) returns (r: Result, nonce: string)
      requires exists d :: d in draws && d !in pool
      modifies this
      ensures nonce in draws && nonce !in old(pool)
      ensures Snapshot() == DoAdd(old(Snapshot()), nonce)
      ensures r == if timerStarts then Ok else TimerFailed
    {
      var i := 0;
      r, nonce := Already, "";
      while r == Already
        invariant i <= |draws|
        invariant r == Already ==> Snapshot() == old(Snapshot()) && exists d :: d in draws[i..] && d !in pool
        invariant r != Already ==> nonce in draws && nonce !in old(pool) && Snapshot() == DoAdd(old(Snapshot()), nonce)
        invariant r != Already ==> r == if timerStarts then Ok else TimerFailed
        decreases |draws| - i, if r == Already then 1 else 0
      {
        nonce := draws[i];
        r := Add(nonce, timerStarts);
        i := i + 1;
      }
    }
  }
}
