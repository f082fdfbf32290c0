/**
  Who is in which group and who is in the pool, told from what was done to the server and not from its fields:
  an accepted socket is in the broadcast group until it is taken out, in every interleaving.
*/
module Memberships {
  import opened Basics
  import opened Retention
  import opened Agreement

  // ---- Groups ----

  predicate Room(s: Store) {
    s.max == 0 || |s.pool| < s.max
  }

  /** Whether a socket is in a group after a step, if it `was` before. */
  predicate NextMember(s: Store, a: Action, name: string, id: int, was: bool) {
    if !Enabled(s, a) then was
    else
      match a
      case Accept(x) => was || (x == id && name == BROADCAST && s.serving && Room(s))
      case AppJoin(n, x) => was || (n == name && x == id)
      case AppLeave(n, x) => was && !(n == name && x == id)
      case AppLeaveAll(x) => was && x != id
      case ReleaseGroups(x) => was && x != id
      case ClearNext => was && s.clearing.value[0] != id
      case _ => was
  }

  predicate MemberIn(s: Store, run: seq<Action>, name: string, id: int, was: bool)
    decreases |run|
  {
    if run == [] then was else MemberIn(Step(s, run[0]), run[1..], name, id, NextMember(s, run[0], name, id, was))
  }

  lemma JoinedMembers(groups: Groups, name: string, id: int, n: string, x: int)
    ensures x in Members(Joined(groups, name, id), n) <==> x in Members(groups, n) || (n == name && x == id)
  {
  }

  lemma LeftMembers(groups: Groups, name: string, id: int, n: string, x: int)
    ensures x in Members(Left(groups, name, id), n) <==> x in Members(groups, n) && !(n == name && x == id)
  {
  }

  lemma StepMember(s: Store, a: Action, name: string, id: int)
    ensures id in Members(Step(s, a).groups, name) <==> NextMember(s, a, name, id, id in Members(s.groups, name))
  {
    hide Members, Joined, Left, LeftAll;
    if Enabled(s, a) {
      match a
      case Accept(x) => JoinedMembers(s.groups, BROADCAST, x, name, id);
      case AppJoin(n, x) => JoinedMembers(s.groups, n, x, name, id);
      case AppLeave(n, x) => LeftMembers(s.groups, n, x, name, id);
      case AppLeaveAll(x) => LeaveAllFrame(s.groups, x, name, id);
      case ReleaseGroups(x) => LeaveAllFrame(s.groups, x, name, id);
      case ClearNext => LeaveAllFrame(s.groups, s.clearing.value[0], name, id);
      case _ =>
    }
  }

  lemma {:induction false} RunMember(s: Store, run: seq<Action>, name: string, id: int)
    ensures id in Members(Run(s, run).groups, name) <==> MemberIn(s, run, name, id, id in Members(s.groups, name))
    decreases |run|
  {
    hide Members, Step, NextMember;
    if run != [] {
      StepMember(s, run[0], name, id);
      RunMember(Step(s, run[0]), run[1..], name, id);
    }
  }

  /**
    In every run a socket is in a group if and only if the last thing that concerned the two put it there: it was
    let join, or accepted where there was room for it, in the case of the broadcast group, and since then it has
    neither left that group or all of them nor been released or cleared.
  */
  lemma MembershipExactly(groups: Groups, run: seq<Action>, name: string, id: int)
    ensures id in Members(Run(Fresh(groups), run).groups, name)
            <==> MemberIn(Fresh(groups), run, name, id, id in Members(groups, name))
  {
    RunMember(Fresh(groups), run, name, id);
  }

  // ---- The pool ----

  predicate NextPooled(s: Store, a: Action, id: int, was: bool) {
    if !Enabled(s, a) then was
    else
      match a
      case Accept(x) => was || (x == id && s.serving && Room(s))
      case ReleasePool => was && s.leaving.value != id
      case EndStop => false
      case _ => was
  }

  predicate PooledIn(s: Store, run: seq<Action>, id: int, was: bool)
    decreases |run|
  {
    if run == [] then was else PooledIn(Step(s, run[0]), run[1..], id, NextPooled(s, run[0], id, was))
  }

  lemma StepPooled(s: Store, a: Action, id: int)
    requires Sane(s)
    ensures id in Step(s, a).pool <==> NextPooled(s, a, id, id in s.pool)
  {
    if Enabled(s, a) && a.ReleasePool? {
      RemovedKeeps(s.pool, s.leaving.value, id);
    }
    hide Removed, Sane;
  }

  lemma {:induction false} RunPooled(s: Store, run: seq<Action>, id: int)
    requires Sane(s)
    ensures id in Run(s, run).pool <==> PooledIn(s, run, id, id in s.pool)
    decreases |run|
  {
    hide Sane, Step, NextPooled;
    if run != [] {
      StepSane(s, run[0]);
      StepPooled(s, run[0], id);
      RunPooled(Step(s, run[0]), run[1..], id);
    }
  }

  /** In every run a socket is pooled if and only if it was accepted with room and not released or cleared since. */
  lemma PoolExactly(groups: Groups, run: seq<Action>, id: int)
    ensures id in Run(Fresh(groups), run).pool <==> PooledIn(Fresh(groups), run, id, false)
  {
    RunPooled(Fresh(groups), run, id);
  }

  /** Started, and not stopped since. */
  predicate ServingIn(s: Store, run: seq<Action>, was: bool)
    decreases |run|
  {
    if run == [] then was
    else
      ServingIn(Step(s, run[0]), run[1..],
                if !Enabled(s, run[0]) then was else run[0].Start? || (was && !run[0].BeginStop?))
  }

  lemma {:induction false} RunServing(s: Store, run: seq<Action>)
    ensures Run(s, run).serving == ServingIn(s, run, s.serving)
    decreases |run|
  {
    if run != [] {
      var t := Step(s, run[0]);
      assert t.serving == if !Enabled(s, run[0]) then s.serving else run[0].Start? || (s.serving && !run[0].BeginStop?);
      hide Step, Enabled;
      RunServing(t, run[1..]);
    }
  }

  /** In every run a server accepts from its Start to its Stop. */
  lemma ServesExactly(groups: Groups, run: seq<Action>)
    ensures Run(Fresh(groups), run).serving == ServingIn(Fresh(groups), run, false)
  {
    RunServing(Fresh(groups), run);
  }

  // ---- The broadcast group ----

  /** Whether the application has taken a socket out of the broadcast group since it came in, or last joined it. */
  predicate NextOut(s: Store, a: Action, id: int, was: bool) {
    match a
    case Accept(x) => was && !(x == id && Enabled(s, a))
    case AppJoin(name, x) => was && !(name == BROADCAST && x == id)
    case AppLeave(name, x) => was || (name == BROADCAST && x == id)
    case AppLeaveAll(x) => was || x == id
    case _ => was
  }

  predicate TakenOutIn(s: Store, run: seq<Action>, id: int, was: bool)
    decreases |run|
  {
    if run == [] then was else TakenOutIn(Step(s, run[0]), run[1..], id, NextOut(s, run[0], id, was))
  }

  ghost predicate Reached(s: Store, id: int, out: bool) {
    Retained(s, id) ==> (id in Members(s.groups, BROADCAST) <==> !out)
  }

  /** A step after which a socket is retained found it so, unless it accepted it. */
  lemma RetainedBefore(s: Store, a: Action, id: int)
    requires Sane(s) && Retained(Step(s, a), id) && !(a == Accept(id) && Enabled(s, a))
    ensures Retained(s, id) && (Enabled(s, a) ==> a != ReleaseGroups(id))
    ensures Enabled(s, a) && a.ClearNext? ==> s.clearing.value[0] != id
  {
    if Enabled(s, a) {
      match a
      case ReleasePool => ReleasedRetained(s);
      case ClearNext => ClearedHead(s);
      case _ =>
    }
  }

  lemma AcceptReached(s: Store, id: int, out: bool)
    requires Sane(s) && Enabled(s, Accept(id))
    ensures Reached(Step(s, Accept(id)), id, NextOut(s, Accept(id), id, out))
  {
    StepPooled(s, Accept(id), id);
    StepMember(s, Accept(id), BROADCAST, id);
    assert id !in s.pool;
    hide Sane, Step;
  }

  lemma StepReached(s: Store, a: Action, id: int, out: bool)
    requires Sane(s) && Reached(s, id, out)
    ensures Reached(Step(s, a), id, NextOut(s, a, id, out))
  {
    if a == Accept(id) && Enabled(s, a) {
      hide Sane, Step, Reached;
      AcceptReached(s, id, out);
    } else if Retained(Step(s, a), id) {
      RetainedBefore(s, a, id);
      StepMember(s, a, BROADCAST, id);
      hide Sane, Step, Retained, Members;
    }
  }

  lemma {:induction false} RunReached(s: Store, run: seq<Action>, id: int, out: bool)
    requires Sane(s) && Reached(s, id, out)
    ensures Reached(Run(s, run), id, TakenOutIn(s, run, id, out))
    decreases |run|
  {
    hide Sane, Reached, Step, NextOut;
    if run != [] {
      StepSane(s, run[0]);
      StepReached(s, run[0], id, out);
      RunReached(Step(s, run[0]), run[1..], id, NextOut(s, run[0], id, out));
    }
  }

  /**
    In every run a retained socket is in the broadcast group, and hears what is sent to all, if and only if the
    application has not taken it out since it was accepted or last joined.
  */
  lemma BroadcastExactly(groups: Groups, run: seq<Action>, id: int)
    requires Retained(Run(Fresh(groups), run), id)
    ensures id in Members(Run(Fresh(groups), run).groups, BROADCAST)
            <==> !TakenOutIn(Fresh(groups), run, id, false)
  {
    RunReached(Fresh(groups), run, id, false);
    hide Run, TakenOutIn, Retained, Members;
  }
}
