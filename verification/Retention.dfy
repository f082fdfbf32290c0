/**
  The collections that keep sockets: the pool of a server, which retains them, and the groups, which
  are shared by the whole process. They must agree with each other whatever is accepted, released,
  joined and left, and in whatever order.
*/
module Retention {
  import opened Basics

  type Groups = map<string, set<int>>

  const BROADCAST := "$_broadcast_$"

  datatype Result = Ok | Invalid | NoSpace

  // ---- Groups ----

  function Members(groups: Groups, name: string): set<int> {
    if name in groups then groups[name] else {}
  }

  function Joined(groups: Groups, name: string, id: int): Groups {
    groups[name := Members(groups, name) + {id}]
  }

  function Left(groups: Groups, name: string, id: int): Groups {
    groups[name := Members(groups, name) - {id}]
  }

  function LeftAll(groups: Groups, id: int): Groups {
    map name | name in groups :: groups[name] - {id}
  }

  /** Leaving all groups takes that socket out of every group, and changes no other membership. */
  lemma LeaveAllFrame(groups: Groups, id: int, name: string, x: int)
    ensures x in Members(LeftAll(groups, id), name) <==> x in Members(groups, name) && x != id
  {
  }

  function LeftEach(groups: Groups, ids: seq<int>): Groups {
    if ids == [] then groups else LeftEach(LeftAll(groups, ids[0]), ids[1..])
  }

  lemma {:induction false} LeftEachFrame(groups: Groups, ids: seq<int>, name: string, x: int)
    ensures x in Members(LeftEach(groups, ids), name) <==> x in Members(groups, name) && x !in ids
    decreases |ids|
  {
    if ids != [] {
      LeaveAllFrame(groups, ids[0], name, x);
      LeftEachFrame(LeftAll(groups, ids[0]), ids[1..], name, x);
    }
  }

  lemma Inhabited(sockets: set<int>)
    requires sockets != {}
    ensures exists socket :: socket in sockets
  {
    assert (forall socket :: socket !in sockets) ==> sockets == {};
  }

  /** The process-wide pool of groups. */
  class GroupPool {
    var pool: Groups

    constructor ()
      ensures pool == map[]
    {
      pool := map[];
    }

    method Get(name: string) returns (members: set<int>)
      ensures members == Members(pool, name)
    {
      if name in pool {
        return pool[name];
      }
      return {};
    }

    method Join(name: string, id: int)
      modifies this
      ensures pool == Joined(old(pool), name, id)
      ensures forall n, x :: x in Members(pool, n) <==> x in Members(old(pool), n) || (n == name && x == id)
    {
      if name !in pool {
        pool := pool[name := {}];
      }
      pool := pool[name := pool[name] + {id}];
    }

    method Leave(name: string, id: int)
      modifies this
      ensures pool == Left(old(pool), name, id)
      ensures forall n, x :: x in Members(pool, n) <==> x in Members(old(pool), n) && !(n == name && x == id)
    {
      if name !in pool {
        pool := pool[name := {}];
      }
      pool := pool[name := pool[name] - {id}];
    }

    /** The nested loops over all groups and their members. */
    method LeaveAll(id: int)
      modifies this
      ensures pool == LeftAll(old(pool), id)
      ensures forall n, x :: x in Members(pool, n) <==> x in Members(old(pool), n) && x != id
    {
      var names := pool.Keys;
      while names != {}
        invariant names <= pool.Keys == old(pool).Keys
        invariant forall name :: name in names ==> pool[name] == old(pool)[name]
        invariant forall name :: name in pool && name !in names ==> pool[name] == old(pool)[name] - {id}
        decreases names
      {
        var name :| name in names;
        var found := Search(pool[name], id);
        if found {
          pool := pool[name := pool[name] - {id}];
        }
        names := names - {name};
      }
    }

    method Search(sockets: set<int>, id: int) returns (found: bool)
      ensures found == (id in sockets)
    {
      var rest := sockets;
      found := false;
      while rest != {} && !found
        invariant rest <= sockets && found == (id in sockets && id !in rest)
        decreases rest
      {
        Inhabited(rest);
        var socket :| socket in rest;
        rest := rest - {socket};
        found := socket == id;
      }
    }
  }

  // ---- The pool of a server ----

  /**
    `mine` are the sockets of this server; one may be on its way out, having left its groups; and
    while Stop clears the pool, `clearing` are those that have yet to leave theirs.
  */
  datatype Store = Store(
    max: nat, pool: seq<int>, groups: Groups, serving: bool, mine: set<int>, leaving: Option<int>,
    clearing: Option<seq<int>>)

  /** A server before it starts; the groups may hold sockets of others. */
  function Fresh(groups: Groups): Store {
    Store(0xFFFF_FFFF_FFFF_FFFF, [], groups, false, {}, None, None)
  }

  function AddResult(max: nat, pool: seq<int>, id: int): Result {
    if id < 0 then Invalid else if 0 < max <= |pool| then NoSpace else Ok
  }

  function Added(max: nat, pool: seq<int>, id: int): seq<int> {
    if AddResult(max, pool, id) != Ok || id in pool then pool else pool + [id]
  }

  function Find(pool: seq<int>, id: int): (i: nat)
    ensures i <= |pool| && id !in pool[..i]
    ensures i < |pool| ==> pool[i] == id
  {
    if pool == [] || pool[0] == id then 0 else 1 + Find(pool[1..], id)
  }

  function Removed(pool: seq<int>, id: int): seq<int> {
    if id < 0 || Find(pool, id) == |pool| then pool else RemoveAt(pool, Find(pool, id))
  }

  lemma FindMissing(pool: seq<int>, id: int)
    ensures Find(pool, id) == |pool| <==> id !in pool
  {
  }

  class SocketPool {
    var max: nat
    var pool: seq<int>

    /** -1 as a size_t. */
    constructor ()
      ensures max == 0xFFFF_FFFF_FFFF_FFFF && pool == []
    {
      max, pool := 0xFFFF_FFFF_FFFF_FFFF, [];
    }

    method SetMaxLimit(max: nat)
      modifies this`max
      ensures this.max == max
    {
      this.max := max;
    }

    method Search(id: int) returns (i: nat)
      ensures i == Find(pool, id)
    {
      i := 0;
      while i < |pool| && pool[i] != id
        invariant i <= |pool|
        invariant Find(pool, id) == i + Find(pool[i..], id)
      {
        assert pool[i..][1..] == pool[i + 1..];
        i := i + 1;
      }
    }

    method Add(id: int) returns (r: Result)
      modifies this`pool
      ensures pool == Added(max, old(pool), id) && r == AddResult(max, old(pool), id)
      ensures r == NoSpace <==> id >= 0 && max > 0 && |old(pool)| >= max
      ensures r == Ok ==> id in pool && pool == old(pool) + (if id in old(pool) then [] else [id])
      ensures r != Ok ==> pool == old(pool)
    {
      if id < 0 {
        return Invalid;
      }
      if max > 0 && max <= |pool| {
        return NoSpace;
      }
      var i := Search(id);
      FindMissing(pool, id);
      if i < |pool| {
        return Ok;
      }
      pool := pool + [id];
      return Ok;
    }

    method Remove(id: int)
      modifies this`pool
      ensures pool == Removed(old(pool), id)
      ensures multiset(pool) == multiset(old(pool)) - (if id < 0 then multiset{} else multiset{id})
    {
      if id < 0 {
        return;
      }
      var i := Search(id);
      FindMissing(pool, id);
      if i < |pool| {
        RemoveAtMultiset(pool, i);
        pool := pool[..i] + pool[i + 1..];
      }
    }

    /** Every socket of the pool leaves all groups. */
    method Clear(groups: GroupPool)
      modifies this`pool, groups
      ensures pool == [] && groups.pool == LeftEach(old(groups.pool), old(pool))
    {
      var i := 0;
      while i < |pool|
        invariant i <= |pool| && pool == old(pool)
        invariant LeftEach(groups.pool, pool[i..]) == LeftEach(old(groups.pool), old(pool))
      {
        groups.LeaveAll(pool[i]);
        assert pool[i..][1..] == pool[i + 1..];
        i := i + 1;
      }
      pool := [];
    }
  }

  // ---- The server ----

  function DoAccept(s: Store, id: int): Store {
    if !s.serving then s
    else if AddResult(s.max, s.pool, id) == NoSpace then s.(mine := s.mine + {id})
    else s.(mine := s.mine + {id}, pool := Added(s.max, s.pool, id), groups := Joined(s.groups, BROADCAST, id))
  }

  /** Stop with nobody in between: of its steps, one after the other. */
  function DoStop(s: Store): Store {
    if !s.serving then s else s.(serving := false, groups := LeftEach(s.groups, s.pool), pool := [])
  }

  /** A server, with the part of its life that concerns the collections. */
  class TCPServerImpl {
    const pool: SocketPool
    const groups: GroupPool
    var serving: bool
    ghost var mine: set<int>
    ghost var leaving: Option<int>

    ghost function Snapshot(): Store
      reads this, pool, groups
    {
      Store(pool.max, pool.pool, groups.pool, serving, mine, leaving, None)
    }

    constructor (groups: GroupPool)
      ensures this.groups == groups && fresh(pool)
      ensures Snapshot() == Fresh(groups.pool)
    {
      this.groups := groups;
      pool := new SocketPool();
      serving, mine, leaving := false, {}, None;
    }

    /** Refused while serving; `listens` is whether the transport can listen. */
    method Start(listens: bool) returns (started: bool)
      modifies this`serving
      ensures serving == (old(serving) || listens) && started == (!old(serving) && listens)
    {
      if serving || !listens {
        return false;
      }
      serving := true;
      return true;
    }

    /** A socket for which there is no room is disconnected at once, and joins nothing. */
    method OnAccept(accepted: bool, id: int) returns (disconnect: bool)
      modifies this, pool, groups
      ensures Snapshot() == if accepted then DoAccept(old(Snapshot()), id) else old(Snapshot())
      ensures disconnect <==> old(serving) && accepted && id >= 0 && pool.max > 0 && |old(pool.pool)| >= pool.max
      ensures old(serving) && accepted && !disconnect && id >= 0 ==>
                id in pool.pool && id in Members(groups.pool, BROADCAST)
      ensures !old(serving) || !accepted || disconnect ==>
                pool.pool == old(pool.pool) && groups.pool == old(groups.pool)
      ensures forall x :: x != id ==> (x in pool.pool <==> x in old(pool.pool))
      ensures forall name, x :: name != BROADCAST || x != id ==>
                                  (x in Members(groups.pool, name) <==> x in Members(old(groups.pool), name))
    {
      if !serving {
        return false;
      }
      if !accepted {
        return false;
      }
      mine := mine + {id};
      var r := pool.Add(id);
      if r == NoSpace {
        return true;
      }
      groups.Join(BROADCAST, id);
      return false;
    }

    method Stop() returns (wasServing: bool)
      modifies this, pool, groups
      ensures Snapshot() == DoStop(old(Snapshot())) && wasServing == old(serving)
    {
      if !serving {
        return false;
      }
      serving := false;
      pool.Clear(groups);
      return true;
    }

    /** ServerImpl::Release, with nobody between its halves. */
    method Release(id: int)
      requires leaving.None?
      modifies pool, groups
      ensures Snapshot() == old(Snapshot()).(groups := LeftAll(old(groups.pool), id),
              pool := Removed(old(pool.pool), id))
    {
      groups.LeaveAll(id);
      pool.Remove(id);
    }
  }

  // ---- Sending to a group ----

  function Attempts(sends: seq<int>, id: int): nat {
    multiset(sends)[id]
  }

  /** Notify::Send to a group: one attempt for each member of the snapshot but the excepted socket. */
  method SendToGroup(groups: GroupPool, name: string, except: Option<int>) returns (sends: seq<int>)
    ensures forall id :: Attempts(sends, id) == if id in Members(groups.pool, name) && except != Some(id) then 1 else 0
  {
    var sockets := groups.Get(name);
    sends := [];
    if sockets == {} {
      return;
    }
    var it := sockets;
    while it != {}
      invariant it <= sockets
      invariant forall id :: Attempts(sends, id) == if id in sockets && id !in it && except != Some(id) then 1 else 0
      decreases it
    {
      Inhabited(it);
      var socket :| socket in it;
      if except != Some(socket) {
        sends := sends + [socket];
      }
      it := it - {socket};
    }
  }
}
