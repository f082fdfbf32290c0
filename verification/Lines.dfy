/**
  The order of the queue: what was accepted while the socket was connecting is handed to the
  transport in the order it was accepted, and what is not handed over is reported in that order.
*/
module Lines {
  import opened Basics
  import opened Protocol

  /** Acceptance order, and the fate of each queued message, read off a history. */
  datatype Line = Line(
    accepted: seq<Copy>, // queued by Send
    out: seq<Copy>,      // of these, handed to tv_write
    lost: seq<Copy>      // of these, reported without having been written
  )

  predicate GivesUp(cause: Cause) {
    cause == NotSent || cause.Discarded?
  }

  function Advance(l: Line, e: Event): Line {
    match e
    case Accepted(c, true) => l.(accepted := l.accepted + [c])
    case Written(c) => if c in l.accepted then l.(out := l.out + [c]) else l
    case Failed(c, cause) =>
      if GivesUp(cause) && c in l.accepted && c !in l.out then l.(lost := l.lost + [c]) else l
    case _ => l
  }

  function Follow(trace: seq<Event>): Line {
    if trace == [] then Line([], [], []) else Advance(Follow(trace[..|trace| - 1]), trace[|trace| - 1])
  }

  lemma FollowAppend(trace: seq<Event>, e: Event)
    ensures Follow(trace + [e]) == Advance(Follow(trace), e)
  {
    assert (trace + [e])[..|trace|] == trace;
  }

  /** Addresses only grow: such a sequence is in the order its copies were made. */
  ghost predicate Rising(q: seq<Copy>) {
    forall i, j :: 0 <= i < j < |q| ==> q[i].ptr < q[j].ptr
  }

  lemma RisingParts(p: seq<Copy>, q: seq<Copy>)
    requires Rising(p + q)
    ensures Rising(p) && Rising(q)
    ensures forall c, d :: c in p && d in q ==> c.ptr < d.ptr
  {
    var s := p + q;
    assert forall i :: 0 <= i < |p| ==> p[i] == s[i];
    assert forall j :: 0 <= j < |q| ==> q[j] == s[|p| + j];
  }

  lemma RisingJoin(p: seq<Copy>, q: seq<Copy>)
    requires Rising(p) && Rising(q)
    requires forall c, d :: c in p && d in q ==> c.ptr < d.ptr
    ensures Rising(p + q)
  {
  }

  lemma RisingOnce(q: seq<Copy>, c: Copy)
    requires Rising(q)
    ensures multiset(q)[c] <= 1
  {
    if q != [] {
      assert q == q[..|q| - 1] + [q[|q| - 1]];
      RisingParts(q[..|q| - 1], [q[|q| - 1]]);
      RisingOnce(q[..|q| - 1], c);
    }
  }

  ghost predicate Below(q: seq<Copy>, next: nat) {
    forall c :: c in q ==> c.ptr < next
  }

  /**
    The accepted messages are those out, those lost, those a loop callback has taken to report
    and those still pending; out and pending are in order, lost and unreported and pending too.
  */
  ghost predicate InLine(l: Line, unsent: seq<Copy>, pending: seq<Copy>, timed: multiset<Copy>, next: nat) {
    && Rising(l.accepted) && Below(l.accepted, next)
    && Rising(l.out + pending)
    && Rising(l.lost + (unsent + pending))
    && multiset(l.accepted) == multiset(l.out) + multiset(l.lost) + multiset(unsent) + multiset(pending)
    && (forall c :: c in timed ==> c.ptr < next && (c in l.accepted ==> c in l.out))
  }

  lemma PartsAccepted(l: Line, unsent: seq<Copy>, pending: seq<Copy>, timed: multiset<Copy>, next: nat)
    requires InLine(l, unsent, pending, timed, next)
    ensures forall c :: c in l.out || c in l.lost || c in unsent || c in pending ==> c in l.accepted
    ensures forall c :: c in unsent || c in pending ==> c !in l.out && c !in l.lost
  {
    forall c | c in l.out || c in l.lost || c in unsent || c in pending
      ensures c in l.accepted
    {
      assert c in multiset(l.accepted);
    }
    forall c | c in unsent || c in pending
      ensures c !in l.out && c !in l.lost
    {
      RisingOnce(l.accepted, c);
      assert multiset(unsent)[c] + multiset(pending)[c] > 0;
      assert multiset(l.out)[c] == 0 && multiset(l.lost)[c] == 0;
    }
  }

  // ---- The moves of a message ----

  lemma Joins(l: Line, unsent: seq<Copy>, pending: seq<Copy>, timed: multiset<Copy>, next: nat, c: Copy)
    requires InLine(l, unsent, pending, timed, next) && c.ptr == next
    ensures InLine(Advance(l, Accepted(c, true)), unsent, pending + [c], timed, next + 1)
  {
    PartsAccepted(l, unsent, pending, timed, next);
    RisingJoin(l.accepted, [c]);
    RisingJoin(l.out + pending, [c]);
    RisingJoin(l.lost + (unsent + pending), [c]);
    assert l.out + (pending + [c]) == l.out + pending + [c];
    assert l.lost + (unsent + (pending + [c])) == l.lost + (unsent + pending) + [c];
  }

  lemma RisingWithout(p: seq<Copy>, c: Copy, q: seq<Copy>)
    requires Rising(p + ([c] + q))
    ensures Rising(p + q)
  {
    RisingParts(p, [c] + q);
    RisingParts([c], q);
    RisingJoin(p, q);
  }

  lemma GoesOut(l: Line, unsent: seq<Copy>, pending: seq<Copy>, timed: multiset<Copy>, next: nat)
    requires InLine(l, unsent, pending, timed, next) && pending != []
    ensures InLine(Advance(l, Written(pending[0])), unsent, pending[1..], timed + multiset{pending[0]}, next)
  {
    PartsAccepted(l, unsent, pending, timed, next);
    var c, rest := pending[0], pending[1..];
    HeadMultiset(pending);
    assert l.out + pending == (l.out + [c]) + rest;
    assert l.lost + (unsent + pending) == (l.lost + unsent) + ([c] + rest);
    RisingWithout(l.lost + unsent, c, rest);
    assert l.lost + (unsent + rest) == (l.lost + unsent) + rest;
    hide Rising;
  }

  lemma StaysBehind(l: Line, unsent: seq<Copy>, pending: seq<Copy>, timed: multiset<Copy>, next: nat)
    requires InLine(l, unsent, pending, timed, next) && pending != []
    ensures InLine(l, unsent + [pending[0]], pending[1..], timed, next)
  {
    var c, rest := pending[0], pending[1..];
    assert pending == [c] + rest;
    assert (unsent + [c]) + rest == unsent + pending;
    RisingParts(l.out, pending);
    RisingParts([c], rest);
    RisingJoin(l.out, rest);
  }

  lemma IsReported(l: Line, unsent: seq<Copy>, pending: seq<Copy>, timed: multiset<Copy>, next: nat, cause: Cause)
    requires InLine(l, unsent, pending, timed, next) && unsent != [] && GivesUp(cause)
    ensures InLine(Advance(l, Failed(unsent[0], cause)), unsent[1..], pending, timed, next)
  {
    PartsAccepted(l, unsent, pending, timed, next);
    var c, rest := unsent[0], unsent[1..];
    assert unsent == [c] + rest;
    assert l.lost + (unsent + pending) == (l.lost + [c]) + (rest + pending);
  }

  lemma AllTaken(l: Line, pending: seq<Copy>, timed: multiset<Copy>, next: nat)
    requires InLine(l, [], pending, timed, next)
    ensures InLine(l, pending, [], timed, next)
  {
    RisingParts(l.out, pending);
    assert l.out + [] == l.out && pending + [] == pending && [] + pending == pending;
  }

  lemma StaysInLine(l: Line, unsent: seq<Copy>, pending: seq<Copy>, timed: multiset<Copy>, less: multiset<Copy>,
                    next: nat, more: nat)
    requires InLine(l, unsent, pending, timed, next) && less <= timed && next <= more
    ensures InLine(l, unsent, pending, less, more)
  {
  }

  // ---- What being in line means ----

  /** The elements whose mark is `keep`. */
  function Keep(q: seq<Copy>, marks: seq<bool>, keep: bool): seq<Copy>
    requires |marks| == |q|
  {
    if q == [] then [] else (if marks[0] == keep then [q[0]] else []) + Keep(q[1..], marks[1..], keep)
  }

  function Marks(q: seq<Copy>, chosen: seq<Copy>): (m: seq<bool>)
    ensures |m| == |q| && forall i :: 0 <= i < |q| ==> m[i] == (q[i] in chosen)
  {
    seq(|q|, i requires 0 <= i < |q| => q[i] in chosen)
  }

  lemma KeepHead(q: seq<Copy>, marks: seq<bool>, keep: bool)
    requires q != [] && |marks| == |q|
    ensures marks[0] == keep ==> Keep(q, marks, keep) == [q[0]] + Keep(q[1..], marks[1..], keep)
    ensures marks[0] != keep ==> Keep(q, marks, keep) == Keep(q[1..], marks[1..], keep)
  {
  }

  lemma SplitEmpty(left: seq<Copy>, right: seq<Copy>)
    requires multiset(left) + multiset(right) == multiset{}
    ensures left == [] && right == []
  {
    assert |multiset(left)| + |multiset(right)| == |multiset(left) + multiset(right)|;
  }

  /** Rising sequences split by membership into the two parts they were made of. */
  lemma {:induction false} Separates(q: seq<Copy>, left: seq<Copy>, right: seq<Copy>, marks: seq<bool>)
    requires Rising(q) && Rising(left) && Rising(right) && multiset(q) == multiset(left) + multiset(right)
    requires |marks| == |q| && forall i :: 0 <= i < |q| ==> marks[i] == (q[i] in left)
    ensures Keep(q, marks, true) == left && Keep(q, marks, false) == right
    decreases |q|
  {
    if q == [] {
      SplitEmpty(left, right);
    } else {
      KeepHead(q, marks, true);
      KeepHead(q, marks, false);
      HeadGoes(q, left, right);
      RisingTail(q);
      hide Rising, Keep;
      if q[0] in left {
        Separates(q[1..], left[1..], right, marks[1..]);
      } else {
        Separates(q[1..], left, right[1..], marks[1..]);
      }
    }
  }

  /** The head is the head of its part, which goes on without it. */
  lemma HeadGoes(q: seq<Copy>, left: seq<Copy>, right: seq<Copy>)
    requires Rising(q) && Rising(left) && Rising(right) && multiset(q) == multiset(left) + multiset(right)
    requires q != []
    ensures q[0] in left ==>
              && left != [] && left == [q[0]] + left[1..] && Rising(left[1..])
              && multiset(q[1..]) == multiset(left[1..]) + multiset(right)
              && forall i :: 1 <= i < |q| ==> ((q[i] in left[1..]) == (q[i] in left))
    ensures q[0] !in left ==>
              && right != [] && right == [q[0]] + right[1..] && Rising(right[1..])
              && multiset(q[1..]) == multiset(left) + multiset(right[1..])
  {
    if q[0] in left {
      TakeHead(q, left, right);
      OnlyOnce(left, q);
    } else {
      assert q[0] in multiset(q);
      TakeHead(q, right, left);
    }
  }

  lemma TakeHead(q: seq<Copy>, part: seq<Copy>, other: seq<Copy>)
    requires Rising(q) && Rising(part) && q != [] && q[0] in part
    requires multiset(q) == multiset(part) + multiset(other)
    ensures part == [q[0]] + part[1..] && Rising(part[1..])
    ensures multiset(q[1..]) == multiset(part[1..]) + multiset(other)
  {
    HeadOf(q, part, other);
    HeadTaken(q, part, multiset(other));
    RisingTail(part);
  }

  lemma HeadTaken(q: seq<Copy>, part: seq<Copy>, other: multiset<Copy>)
    requires q != [] && part != [] && part[0] == q[0] && multiset(q) == multiset(part) + other
    ensures multiset(q[1..]) == multiset(part[1..]) + other
  {
    HeadMultiset(q);
    HeadMultiset(part);
    forall x
      ensures multiset(q[1..])[x] == (multiset(part[1..]) + other)[x]
    {
      var c := q[0];
      assert multiset(q)[x] == multiset{c}[x] + multiset(q[1..])[x];
      assert multiset(part)[x] == multiset{c}[x] + multiset(part[1..])[x];
    }
  }

  lemma RisingTail(q: seq<Copy>)
    requires Rising(q) && q != []
    ensures Rising(q[1..])
  {
  }

  lemma OnlyOnce(left: seq<Copy>, q: seq<Copy>)
    requires q != [] && left != [] && left[0] == q[0] && Rising(q)
    ensures forall i :: 1 <= i < |q| ==> ((q[i] in left[1..]) == (q[i] in left))
  {
    assert left == [left[0]] + left[1..];
    forall i | 1 <= i < |q|
      ensures (q[i] in left[1..]) == (q[i] in left)
    {
      assert q[0].ptr < q[i].ptr;
    }
  }

  /** The first of a rising sequence is first in the part it went to. */
  lemma HeadOf(q: seq<Copy>, part: seq<Copy>, other: seq<Copy>)
    requires Rising(q) && Rising(part) && q != [] && q[0] in part
    requires multiset(q) == multiset(part) + multiset(other)
    ensures part != [] && part[0] == q[0]
  {
    assert part[0] in multiset(part);
    assert part[0] in multiset(q);
    assert q[0].ptr <= part[0].ptr;
  }

  /** The messages out and the others are complementary subsequences of the accepted messages. */
  lemma InLineSplits(l: Line, unsent: seq<Copy>, pending: seq<Copy>, timed: multiset<Copy>, next: nat)
    requires InLine(l, unsent, pending, timed, next)
    ensures exists marks: seq<bool> :: |marks| == |l.accepted|
              && Keep(l.accepted, marks, true) == l.out
              && Keep(l.accepted, marks, false) == l.lost + (unsent + pending)
  {
    RisingParts(l.out, pending);
    Separates(l.accepted, l.out, l.lost + (unsent + pending), Marks(l.accepted, l.out));
  }
}
