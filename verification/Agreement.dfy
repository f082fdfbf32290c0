/**
  The pool of a server and the groups agree, except for memberships the application made when the
  socket was on its way out: while it was being released, while Stop was clearing, or later. In every
  interleaving the disagreement is exactly those.
*/
module Agreement {
  import opened Basics
  import opened Retention

  datatype Action =
    | Start
    | BeginStop            // Stop up to the lock of the pool
    | ClearNext            // a socket leaves all groups
    | EndStop              // the pool is emptied
    | Accept(id: int)
    | SetMax(max: nat)
    | ReleaseGroups(id: int) // the two halves of ServerImpl::Release
    | ReleasePool
    | AppJoin(name: string, id: int)
    | AppLeave(name: string, id: int)
    | AppLeaveAll(id: int)

  /**
    Each accepted socket is new; the loop thread releases one socket at a time; Stop holds the mutex
    of the server throughout, and that of the pool while it clears. Groups have a mutex of their own.
  */
  predicate Enabled(s: Store, a: Action) {
    match a
    case Start => s.clearing.None?
    case BeginStop => s.clearing.None? && s.serving
    case ClearNext => s.clearing.Some? && s.clearing.value != []
    case EndStop => s.clearing == Some([])
    case Accept(id) =>
      s.clearing.None? && id >= 0 && id !in s.mine && forall name :: name in s.groups ==> id !in s.groups[name]
    case ReleaseGroups(id) => s.leaving.None? && id in s.mine
    case ReleasePool => s.leaving.Some? && s.clearing.None?
    case _ => true
  }

  function Step(s: Store, a: Action): Store {
    if !Enabled(s, a) then s
    else
      match a
      case Start => s.(serving := true)
      case BeginStop => s.(serving := false, clearing := Some(s.pool))
      case ClearNext =>
        s.(groups := LeftAll(s.groups, s.clearing.value[0]), clearing := Some(s.clearing.value[1..]))
      case EndStop => s.(pool := [], clearing := None)
      case Accept(id) => DoAccept(s, id)
      case SetMax(max) => s.(max := max)
      case ReleaseGroups(id) => s.(groups := LeftAll(s.groups, id), leaving := Some(id))
      case ReleasePool => s.(pool := Removed(s.pool, s.leaving.value), leaving := None)
      case AppJoin(name, id) => s.(groups := Joined(s.groups, name, id))
      case AppLeave(name, id) => s.(groups := Left(s.groups, name, id))
      case AppLeaveAll(id) => s.(groups := LeftAll(s.groups, id))
  }

  function Run(s: Store, run: seq<Action>): Store
    decreases |run|
  {
    if run == [] then s else Run(Step(s, run[0]), run[1..])
  }

  /** Stop, undisturbed, is its steps. */
  lemma {:induction false} ClearingIs(s: Store, run: seq<Action>)
    requires s.clearing.Some? && |run| == |s.clearing.value| && forall a :: a in run ==> a == ClearNext
    ensures Run(s, run) == s.(groups := LeftEach(s.groups, s.clearing.value), clearing := Some([]))
    decreases |run|
  {
    if run != [] {
      assert run[0] in run && forall a :: a in run[1..] ==> a in run;
      ClearingIs(Step(s, run[0]), run[1..]);
    }
  }

  lemma StopIsSteps(s: Store, clears: seq<Action>)
    requires s.serving && s.clearing.None? && |clears| == |s.pool| && forall a :: a in clears ==> a == ClearNext
    ensures Step(Run(Step(s, BeginStop), clears), EndStop) == DoStop(s)
  {
    ClearingIs(Step(s, BeginStop), clears);
  }

  // ---- Who is retained, and who strays ----

  /** In the pool, and on the way out neither by release nor by Stop. */
  predicate Retained(s: Store, id: int) {
    id in s.pool && s.leaving != Some(id) && (s.clearing.Some? ==> id in s.clearing.value)
  }

  /** The application lets a socket of the server join that is not retained. */
  predicate Impolite(s: Store, a: Action) {
    a.AppJoin? && a.id in s.mine && !Retained(s, a.id)
  }

  /** The socket a step takes out of all groups. */
  function Expelled(s: Store, a: Action): Option<int> {
    match a
    case ClearNext => if Enabled(s, a) then Some(s.clearing.value[0]) else None
    case ReleaseGroups(id) => if Enabled(s, a) then Some(id) else None
    case AppLeaveAll(id) => Some(id)
    case _ => None
  }

  /** The memberships made impolitely and not left since. */
  function NextStrays(s: Store, a: Action, strays: set<(string, int)>): set<(string, int)> {
    if Impolite(s, a) then strays + {(a.name, a.id)}
    else if a.AppLeave? then strays - {(a.name, a.id)}
    else set m | m in strays && Expelled(s, a) != Some(m.1)
  }

  function Strays(s: Store, run: seq<Action>, strays: set<(string, int)>): set<(string, int)>
    decreases |run|
  {
    if run == [] then strays else Strays(Step(s, run[0]), run[1..], NextStrays(s, run[0], strays))
  }

  // ---- Invariants ----

  ghost predicate Distinct(pool: seq<int>) {
    forall i, j :: 0 <= i < j < |pool| ==> pool[i] != pool[j]
  }

  ghost predicate Sane(s: Store) {
    && Distinct(s.pool)
    && (forall id :: id in s.pool ==> id in s.mine)
    && (forall id :: id in s.mine ==> id >= 0)
    && (s.leaving.Some? ==> s.leaving.value in s.mine)
    && (s.clearing.Some? ==>
          && Distinct(s.clearing.value) && !s.serving
          && forall id :: id in s.clearing.value ==> id in s.pool)
    && (!s.serving && s.clearing.None? ==> s.pool == [])
  }

  /** Of the memberships of its sockets, those not retained are the strays. */
  ghost predicate Exact(s: Store, strays: set<(string, int)>) {
    forall name, id ::
      (name, id) in strays <==> id in s.mine && id in Members(s.groups, name) && !Retained(s, id)
  }

  lemma RemovedKeeps(pool: seq<int>, id: int, x: int)
    requires Distinct(pool) && id >= 0
    ensures Distinct(Removed(pool, id)) && |Removed(pool, id)| <= |pool|
    ensures x in Removed(pool, id) <==> x in pool && x != id
  {
    FindMissing(pool, id);
    var i := Find(pool, id);
    if i < |pool| {
      var r := RemoveAt(pool, i);
      assert forall k :: 0 <= k < |r| ==> r[k] == pool[if k < i then k else k + 1];
      if x in pool && x != id {
        var j :| 0 <= j < |pool| && pool[j] == x;
        assert r[if j < i then j else j - 1] == x;
      }
    }
  }

  lemma RemovedAre(pool: seq<int>, id: int)
    requires Distinct(pool) && id >= 0
    ensures Distinct(Removed(pool, id)) && (pool == [] ==> Removed(pool, id) == [])
    ensures forall x :: x in Removed(pool, id) <==> x in pool && x != id
  {
    RemovedKeeps(pool, id, 0);
    forall x
      ensures x in Removed(pool, id) <==> x in pool && x != id
    {
      RemovedKeeps(pool, id, x);
    }
  }

  lemma StepSane(s: Store, a: Action)
    requires Sane(s)
    ensures Sane(Step(s, a))
  {
    if Enabled(s, a) {
      match a
      case ReleasePool => RemovedAre(s.pool, s.leaving.value);
      case Accept(id) => assert id !in s.pool;
      case ClearNext => assert forall x :: x in s.clearing.value[1..] ==> x in s.clearing.value;
      case _ =>
    }
  }

  lemma ClearedHead(s: Store)
    requires Sane(s) && Enabled(s, ClearNext)
    ensures forall id :: Retained(Step(s, ClearNext), id) <==> Retained(s, id) && id != s.clearing.value[0]
  {
    var q := s.clearing.value;
    assert q == [q[0]] + q[1..];
    assert q[0] !in q[1..];
  }

  lemma ReleasedRetained(s: Store)
    requires Sane(s) && Enabled(s, ReleasePool)
    ensures forall id :: Retained(Step(s, ReleasePool), id) <==> Retained(s, id)
  {
    RemovedAre(s.pool, s.leaving.value);
  }

  lemma AcceptExact(s: Store, id: int, strays: set<(string, int)>)
    requires Sane(s) && Exact(s, strays) && Enabled(s, Accept(id))
    ensures Exact(DoAccept(s, id), strays)
  {
    var t := DoAccept(s, id);
    assert id !in s.pool;
    forall name, x
      ensures (name, x) in strays <==> x in t.mine && x in Members(t.groups, name) && !Retained(t, x)
    {
      if x != id {
        assert x in Members(t.groups, name) <==> x in Members(s.groups, name);
      } else {
        assert id !in Members(s.groups, name);
      }
    }
  }

  /** A step that takes a socket out of all groups, and leaves the others retained as they are. */
  lemma ExpelledExact(s: Store, t: Store, id: int, strays: set<(string, int)>, rest: set<(string, int)>)
    requires Exact(s, strays) && t.mine == s.mine && t.groups == LeftAll(s.groups, id)
    requires forall x :: x != id ==> (Retained(t, x) <==> Retained(s, x))
    requires rest == set m | m in strays && m.1 != id
    ensures Exact(t, rest)
  {
    forall name, x
      ensures (name, x) in rest <==> x in t.mine && x in Members(t.groups, name) && !Retained(t, x)
    {
      LeaveAllFrame(s.groups, id, name, x);
    }
  }

  lemma SameExact(s: Store, t: Store, strays: set<(string, int)>)
    requires Exact(s, strays) && t.mine == s.mine && t.groups == s.groups
    requires forall x :: Retained(t, x) <==> Retained(s, x)
    ensures Exact(t, strays)
  {
  }

  lemma JoinExact(s: Store, name: string, id: int, strays: set<(string, int)>)
    requires Exact(s, strays)
    ensures Exact(s.(groups := Joined(s.groups, name, id)), NextStrays(s, AppJoin(name, id), strays))
  {
    var t := s.(groups := Joined(s.groups, name, id));
    var next := NextStrays(s, AppJoin(name, id), strays);
    forall n, x
      ensures (n, x) in next <==> x in t.mine && x in Members(t.groups, n) && !Retained(t, x)
    {
      assert x in Members(t.groups, n) <==> x in Members(s.groups, n) || (n == name && x == id);
      assert Retained(t, x) <==> Retained(s, x);
    }
  }

  lemma LeaveExact(s: Store, name: string, id: int, strays: set<(string, int)>)
    requires Exact(s, strays)
    ensures Exact(s.(groups := Left(s.groups, name, id)), NextStrays(s, AppLeave(name, id), strays))
  {
    var t := s.(groups := Left(s.groups, name, id));
    var next := NextStrays(s, AppLeave(name, id), strays);
    forall n, x
      ensures (n, x) in next <==> x in t.mine && x in Members(t.groups, n) && !Retained(t, x)
    {
      assert x in Members(t.groups, n) <==> x in Members(s.groups, n) && !(n == name && x == id);
      assert Retained(t, x) <==> Retained(s, x);
    }
  }

  lemma NobodyExpelled(s: Store, a: Action, strays: set<(string, int)>)
    requires Expelled(s, a).None? && !Impolite(s, a) && !a.AppLeave?
    ensures NextStrays(s, a, strays) == strays
  {
  }

  lemma StepExact(s: Store, a: Action, strays: set<(string, int)>)
    requires Sane(s) && Exact(s, strays)
    ensures Exact(Step(s, a), NextStrays(s, a, strays))
  {
    var next := NextStrays(s, a, strays);
    if a.AppJoin? {
      JoinExact(s, a.name, a.id, strays);
    } else if a.AppLeave? {
      LeaveExact(s, a.name, a.id, strays);
    } else if Expelled(s, a).Some? {
      if a.ClearNext? {
        ClearedHead(s);
      }
      ExpelledExact(s, Step(s, a), Expelled(s, a).value, strays, next);
    } else {
      NobodyExpelled(s, a, strays);
      if Enabled(s, a) {
        match a
        case Accept(id) => AcceptExact(s, id, strays);
        case ReleasePool =>
          ReleasedRetained(s);
          SameExact(s, Step(s, a), strays);
        case _ => SameExact(s, Step(s, a), strays);
      }
    }
  }

  lemma {:induction false} RunExact(s: Store, run: seq<Action>, strays: set<(string, int)>)
    requires Sane(s) && Exact(s, strays)
    ensures Sane(Run(s, run)) && Exact(Run(s, run), Strays(s, run, strays))
    decreases |run|
  {
    hide Sane, Exact, Step, NextStrays;
    if run != [] {
      StepSane(s, run[0]);
      StepExact(s, run[0], strays);
      RunExact(Step(s, run[0]), run[1..], NextStrays(s, run[0], strays));
    }
  }

  /**
    In every run pool ids are distinct; and of the memberships of a server's sockets, in whatever
    group, those whose socket is not retained are exactly those the application made impolitely
    and has not undone.
  */
  lemma StraysExactly(groups: Groups, run: seq<Action>, name: string, id: int)
    ensures var t := Run(Fresh(groups), run);
            && Distinct(t.pool)
            && ((name, id) in Strays(Fresh(groups), run, {})
                <==> id in t.mine && id in Members(t.groups, name) && !Retained(t, id))
  {
    RunExact(Fresh(groups), run, {});
  }

  /** Between releases and stops: every socket of the server in a group is in its pool if and only if there are none. */
  lemma PoolsAgree(groups: Groups, run: seq<Action>)
    requires var t := Run(Fresh(groups), run); t.leaving.None? && t.clearing.None?
    ensures var t := Run(Fresh(groups), run);
            (forall name, id :: id in t.mine && id in Members(t.groups, name) ==> id in t.pool)
            <==> Strays(Fresh(groups), run, {}) == {}
  {
    RunExact(Fresh(groups), run, {});
    hide Run, Strays, Sane;
    AgreeExactly(Run(Fresh(groups), run), Strays(Fresh(groups), run, {}));
  }

  lemma ExactAt(t: Store, strays: set<(string, int)>, name: string, id: int)
    requires Exact(t, strays)
    ensures (name, id) in strays <==> id in t.mine && id in Members(t.groups, name) && !Retained(t, id)
  {
  }

  lemma AgreeExactly(t: Store, strays: set<(string, int)>)
    requires Exact(t, strays) && t.leaving.None? && t.clearing.None?
    ensures (forall name, id :: id in t.mine && id in Members(t.groups, name) ==> id in t.pool) <==> strays == {}
  {
    if strays == {} {
      forall name, id | id in t.mine && id in Members(t.groups, name)
        ensures id in t.pool
      {
        ExactAt(t, strays, name, id);
      }
    } else {
      var m :| m in strays;
      ExactAt(t, strays, m.0, m.1);
      assert m == (m.0, m.1);
      assert !(m.1 in t.mine && m.1 in Members(t.groups, m.0) ==> m.1 in t.pool);
    }
  }

  /** Once Stop is through, a group holds a socket of the server if and only if it strayed there. */
  lemma StopEmptiesGroups(groups: Groups, run: seq<Action>, name: string, id: int)
    requires var t := Run(Fresh(groups), run); !t.serving && t.clearing.None? && id in t.mine
    ensures id in Members(Run(Fresh(groups), run).groups, name) <==> (name, id) in Strays(Fresh(groups), run, {})
  {
    RunExact(Fresh(groups), run, {});
  }

  // ---- Two ways to stray ----

  /** A socket that joins between the halves of its release stays in the group without being retained. */
  lemma JoinDuringRelease(s: Store, id: int, name: string)
    requires Sane(s) && s.leaving.None? && s.clearing.None? && id in s.pool
    ensures var t := Step(Step(Step(s, ReleaseGroups(id)), AppJoin(name, id)), ReleasePool);
            id in Members(t.groups, name) && id !in t.pool
  {
    RemovedKeeps(s.pool, id, id);
  }

  /** So does a socket that joins while Stop clears, after its own turn. */
  lemma JoinDuringStop(s: Store, id: int, name: string)
    requires s.serving && s.clearing.None? && s.pool == [id]
    ensures var t := Step(Step(Step(Step(s, BeginStop), ClearNext), AppJoin(name, id)), EndStop);
            id in Members(t.groups, name) && t.pool == [] && t.clearing.None?
  {
    var t := s.(serving := false, clearing := Some([id]));
    assert Step(s, BeginStop) == t;
    var u := t.(groups := LeftAll(t.groups, id), clearing := Some([]));
    assert [id][1..] == [] && Step(t, ClearNext) == u;
    var v := u.(groups := Joined(u.groups, name, id));
    assert Step(u, AppJoin(name, id)) == v;
    assert Step(v, EndStop) == v.(pool := [], clearing := None);
  }

  // ---- The limit ----

  predicate Within(s: Store) {
    s.max == 0 || |s.pool| <= s.max
  }

  /** The limit is lowered below the size of the pool. */
  predicate Lowers(s: Store, a: Action) {
    a.SetMax? && 0 < a.max < |s.pool|
  }

  predicate LowersIn(s: Store, run: seq<Action>)
    decreases |run|
  {
    run != [] && (Lowers(s, run[0]) || LowersIn(Step(s, run[0]), run[1..]))
  }

  predicate StaysWithin(s: Store, run: seq<Action>)
    decreases |run|
  {
    Within(s) && (run == [] || StaysWithin(Step(s, run[0]), run[1..]))
  }

  lemma StepWithin(s: Store, a: Action)
    requires Sane(s) && Within(s)
    ensures Within(Step(s, a)) <==> !Lowers(s, a)
  {
    if Enabled(s, a) {
      match a
      case ReleasePool => RemovedKeeps(s.pool, s.leaving.value, 0);
      case Accept(id) => AcceptWithin(s, id);
      case _ =>
    }
  }

  lemma AcceptWithin(s: Store, id: int)
    requires Within(s)
    ensures Within(DoAccept(s, id))
  {
  }

  lemma {:induction false} WithinExactly(s: Store, run: seq<Action>)
    requires Sane(s) && Within(s)
    ensures StaysWithin(s, run) <==> !LowersIn(s, run)
    decreases |run|
  {
    if run != [] {
      StepSane(s, run[0]);
      StepWithin(s, run[0]);
      hide Sane, Step, Within, Lowers;
      if !Lowers(s, run[0]) {
        WithinExactly(Step(s, run[0]), run[1..]);
      } else {
        NotWithin(Step(s, run[0]), run[1..]);
      }
    }
  }

  lemma NotWithin(s: Store, run: seq<Action>)
    requires !Within(s)
    ensures !StaysWithin(s, run)
  {
  }

  /** The pool stays within a limit that is not zero as long as, and no longer than, nobody lowers it below the size. */
  lemma LimitHolds(groups: Groups, run: seq<Action>)
    ensures StaysWithin(Fresh(groups), run) <==> !LowersIn(Fresh(groups), run)
  {
    WithinExactly(Fresh(groups), run);
  }
}
