/** Ports, their masters and the count that keeps a master alive. A port slaved to a master has its messages
    delivered there, so the master must outlive the link. */
module PortTable {
  import FreeIds

  type Id = nat
  type Team = nat

  datatype Code = None | ErrResource | ErrPermission | Panic

  datatype Port = Port(refcount: int, slaved: Id, owner: Team, restrict: int, nowait: int)

  datatype Outcome = Outcome(s: State, code: Code)

  /** `born` tells two ports apart that had the same id at different times, and `master` is the birth of the
      port a port was slaved to. `orphaned` counts, for every port, the ports that were destroyed while
      slaved to it. */
  datatype State = State(ports: map<Id, Port>, born: map<Id, nat>, master: map<Id, nat>, clock: nat,
                         orphaned: map<Id, nat>)

  ghost function Slaves(s: State, m: Id): set<Id> {
    set p | p in s.ports && s.ports[p].slaved == m
  }

  ghost predicate CountOk(s: State, m: Id)
    requires m in s.ports
  {
    m in s.orphaned && s.ports[m].refcount == 1 + |Slaves(s, m)| + s.orphaned[m]
  }

  /** The port that p is slaved to exists, and is the one it was slaved to. */
  ghost predicate MasterOk(s: State, p: Id)
    requires p in s.ports
  {
    var m := s.ports[p].slaved;
    && p in s.born && p in s.master && s.born[p] < s.clock
    && (m != 0 ==> m in s.ports && m in s.born && s.born[m] == s.master[p])
  }

  ghost predicate Inv(s: State) {
    && 0 !in s.ports
    && (forall m {:trigger CountOk(s, m)} :: m in s.ports ==> CountOk(s, m))
    && (forall p {:trigger MasterOk(s, p)} :: p in s.ports ==> MasterOk(s, p))
  }

  // ---------------------------------------------------------------- the calls

  function Created(s: State, id: Id, owner: Team, restrict: int): State {
    s.(ports := s.ports[id := Port(1, 0, owner, restrict, 0)], born := s.born[id := s.clock],
       master := s.master[id := 0], clock := s.clock + 1, orphaned := s.orphaned[id := 0])
  }

  function Destroyed(s: State, id: Id): Outcome {
    if id !in s.ports then Outcome(s, ErrResource)
    else if s.ports[id].refcount == 1 then
      var m := s.ports[id].slaved;
      var orphaned := if m in s.orphaned then s.orphaned[m := s.orphaned[m] + 1] else s.orphaned;
      Outcome(s.(ports := s.ports - {id}, orphaned := orphaned), None)
    else Outcome(s, ErrResource)
  }

  function AddRef(s: State, m: Id, delta: int): State
    requires m in s.ports
  {
    s.(ports := s.ports[m := s.ports[m].(refcount := s.ports[m].refcount + delta)])
  }

  /** Slaves a port to another, or with argument 0 to none. */
  function Reslaved(s: State, id: Id, arg: Id, caller: Team): Outcome {
    if id !in s.ports then Outcome(s, ErrResource)
    else if s.ports[id].owner != caller then Outcome(s, ErrPermission)
    else if arg != 0 && arg !in s.ports then Outcome(s, ErrResource)
    else if arg != 0 && s.ports[arg].owner != caller then Outcome(s, ErrPermission)
    else Remastered(s, id, arg)
  }

  /** The new master gains a reference, then the old one loses its own. */
  function Remastered(s: State, id: Id, arg: Id): Outcome
    requires id in s.ports && (arg != 0 ==> arg in s.ports)
  {
    var s1 := if arg != 0 then AddRef(s, arg, 1) else s;
    var was := s.ports[id].slaved;
    if was != 0 && was !in s1.ports then Outcome(s1, Panic)
    else
      var s2 := if was != 0 then AddRef(s1, was, -1) else s1;
      var birth := if arg in s.born then s.born[arg] else 0;
      Outcome(s2.(ports := s2.ports[id := s2.ports[id].(slaved := arg)], master := s.master[id := birth]), None)
  }

  datatype Step = Create(id: Id, owner: Team, restrict: int) | Destroy(id: Id) | Slave(id: Id, arg: Id, caller: Team)

  /** A port gets an id that is not in use. */
  ghost predicate Enabled(s: State, e: Step) {
    e.Create? ==> e.id != 0 && e.id !in s.ports
  }

  ghost function Apply(s: State, e: Step): Outcome {
    match e
    case Create(id, owner, restrict) => Outcome(Created(s, id, owner, restrict), None)
    case Destroy(id) => Destroyed(s, id)
    case Slave(id, arg, caller) => Reslaved(s, id, arg, caller)
  }

  // ---------------------------------------------------------------- what every call keeps

  lemma CreateKeeps(s: State, id: Id, owner: Team, restrict: int)
    requires Inv(s) && id != 0 && id !in s.ports
    ensures Inv(Created(s, id, owner, restrict))
  {
    var u := Created(s, id, owner, restrict);
    assert Slaves(u, id) == {} by {
      forall p | p in s.ports ensures s.ports[p].slaved != id { assert MasterOk(s, p); }
    }
    forall m | m in u.ports ensures CountOk(u, m) {
      if m != id {
        assert CountOk(s, m);
        assert Slaves(u, m) == Slaves(s, m);
      }
    }
    forall p | p in u.ports ensures MasterOk(u, p) { assert p != id ==> MasterOk(s, p); }
  }

  /** A port that another is slaved to is not destroyed. */
  lemma MasterStays(s: State, p: Id)
    requires Inv(s) && p in s.ports && s.ports[p].slaved != 0
    ensures var m := s.ports[p].slaved;
      m in s.ports && s.ports[m].refcount >= 2 && Destroyed(s, m) == Outcome(s, ErrResource)
  {
    var m := s.ports[p].slaved;
    assert MasterOk(s, p) && CountOk(s, m);
    assert p in Slaves(s, m);
    assert Slaves(s, m) - {p} + {p} == Slaves(s, m);
  }

  lemma DestroyKeeps(s: State, id: Id)
    requires Inv(s)
    ensures Inv(Destroyed(s, id).s)
  {
    if id in s.ports && s.ports[id].refcount == 1 {
      var u := Destroyed(s, id).s;
      assert CountOk(s, id) && MasterOk(s, id);
      forall p | p in u.ports ensures MasterOk(u, p) {
        assert MasterOk(s, p);
        if s.ports[p].slaved == id { MasterStays(s, p); }
      }
      forall m | m in u.ports ensures CountOk(u, m) {
        assert CountOk(s, m);
        if m == s.ports[id].slaved {
          assert Slaves(u, m) == Slaves(s, m) - {id};
        } else {
          assert Slaves(u, m) == Slaves(s, m);
        }
      }
    }
  }

  /** The counts after a port has moved from one master to another. */
  lemma MovedCount(s: State, u: State, id: Id, arg: Id, m: Id)
    requires Inv(s) && id in s.ports && m in s.ports && u.ports.Keys == s.ports.Keys && u.orphaned == s.orphaned
    requires forall p :: p in s.ports ==> u.ports[p].slaved == if p == id then arg else s.ports[p].slaved
    requires u.ports[m].refcount == s.ports[m].refcount + (if m == arg then 1 else 0)
      - (if m == s.ports[id].slaved then 1 else 0)
    ensures CountOk(u, m)
  {
    assert CountOk(s, m);
    if m == arg && m != s.ports[id].slaved {
      assert Slaves(u, m) == Slaves(s, m) + {id};
    } else if m != arg && m == s.ports[id].slaved {
      assert Slaves(u, m) == Slaves(s, m) - {id};
    } else {
      assert Slaves(u, m) == Slaves(s, m);
    }
  }

  /** What a successful change of master does to the port m. */
  lemma ReslavedAt(s: State, id: Id, arg: Id, caller: Team, m: Id)
    requires Reslaved(s, id, arg, caller).code == None && m in s.ports
    ensures id in s.ports && m in Reslaved(s, id, arg, caller).s.ports
    ensures var p, was := Reslaved(s, id, arg, caller).s.ports[m], s.ports[id].slaved;
      && p.slaved == (if m == id then arg else s.ports[m].slaved)
      && p.refcount == s.ports[m].refcount + (if m == arg && arg != 0 then 1 else 0)
         - (if m == was && was != 0 then 1 else 0)
  {
  }

  lemma ReslavedKeys(s: State, id: Id, arg: Id, caller: Team)
    ensures var u := Reslaved(s, id, arg, caller).s; u.ports.Keys == s.ports.Keys && u.orphaned == s.orphaned
  {
  }

  lemma SlaveKeepsMaster(s: State, id: Id, arg: Id, caller: Team, p: Id)
    requires Inv(s) && Reslaved(s, id, arg, caller).code == None && p in s.ports
    ensures var u := Reslaved(s, id, arg, caller).s; p in u.ports && MasterOk(u, p)
  {
    ReslavedKeys(s, id, arg, caller);
    ReslavedAt(s, id, arg, caller, p);
    assert MasterOk(s, p) && (arg in s.ports ==> MasterOk(s, arg));
  }

  lemma SlaveKeeps(s: State, id: Id, arg: Id, caller: Team)
    requires Inv(s)
    ensures Inv(Reslaved(s, id, arg, caller).s) && Reslaved(s, id, arg, caller).code != Panic
  {
    ReslavedKeys(s, id, arg, caller);
    if id in s.ports { assert MasterOk(s, id); }
    if Reslaved(s, id, arg, caller).code == None {
      hide Reslaved;
      var u := Reslaved(s, id, arg, caller).s;
      forall m | m in s.ports ensures u.ports[m].slaved == if m == id then arg else s.ports[m].slaved {
        ReslavedAt(s, id, arg, caller, m);
      }
      forall m | m in u.ports ensures CountOk(u, m) {
        ReslavedAt(s, id, arg, caller, m);
        MovedCount(s, u, id, arg, m);
      }
      forall p | p in u.ports ensures MasterOk(u, p) { SlaveKeepsMaster(s, id, arg, caller, p); }
    }
  }

  ghost predicate Legal(s: State, run: seq<Step>)
    decreases |run|
  {
    run != [] ==> Enabled(s, run[0]) && Legal(Apply(s, run[0]).s, run[1..])
  }

  ghost function After(s: State, run: seq<Step>): State
    requires Legal(s, run)
    decreases |run|
  {
    if run == [] then s else After(Apply(s, run[0]).s, run[1..])
  }

  lemma StepKeeps(s: State, e: Step)
    requires Inv(s) && Enabled(s, e)
    ensures Inv(Apply(s, e).s) && Apply(s, e).code != Panic
  {
    match e
    case Create(id, owner, restrict) => CreateKeeps(s, id, owner, restrict);
    case Destroy(id) => DestroyKeeps(s, id);
    case Slave(id, arg, caller) => SlaveKeeps(s, id, arg, caller);
  }

  /** In every run the counts are right, every master is there, and the panic is not reached. */
  lemma {:induction false} EveryRun(s: State, run: seq<Step>)
    requires Inv(s) && Legal(s, run)
    ensures Inv(After(s, run))
    ensures forall k {:trigger run[..k]} :: 0 <= k < |run| && Legal(s, run[..k]) ==>
      Apply(After(s, run[..k]), run[k]).code != Panic
    decreases |run|
  {
    if run != [] {
      var u, rest := Apply(s, run[0]).s, run[1..];
      StepKeeps(s, run[0]);
      EveryRun(u, rest);
      forall k | 0 <= k < |run| && Legal(s, run[..k]) ensures Apply(After(s, run[..k]), run[k]).code != Panic {
        if k > 0 { assert run[..k][1..] == rest[..k - 1] && run[k] == rest[k - 1]; }
      }
    }
  }

  /** As long as a port stays slaved, its master stays, and stays the same port. */
  lemma MasterSame(s: State, e: Step, p: Id)
    requires Inv(s) && Enabled(s, e) && p in s.ports && s.ports[p].slaved != 0
    ensures var u, m := Apply(s, e).s, s.ports[p].slaved;
      m in u.ports && m in u.born && p in s.master && u.born[m] == s.master[p] && !(e.Create? && e.id == m)
  {
    assert MasterOk(s, p);
    MasterStays(s, p);
  }

  // ---------------------------------------------------------------- when a port can go

  ghost predicate Owns(s: State, id: Id, team: Team) {
    id in s.ports && s.ports[id].owner == team
  }

  /** A port is slaved exactly when the caller owns it and its new master; then it alone has a new master, and owners
      stay. Any refusal leaves the table as it was. */
  lemma SlavedExactlyWhen(s: State, id: Id, arg: Id, caller: Team)
    requires Inv(s)
    ensures var u := Apply(s, Slave(id, arg, caller));
      && (u.code == None <==> Owns(s, id, caller) && (arg == 0 || Owns(s, arg, caller)))
      && (u.code == ErrResource <==> id !in s.ports || (Owns(s, id, caller) && arg != 0 && arg !in s.ports))
      && u.code != Panic && (u.code != None ==> u.s == s)
      && (u.code == None ==> u.s.ports.Keys == s.ports.Keys && forall p :: p in s.ports ==>
            u.s.ports[p].slaved == (if p == id then arg else s.ports[p].slaved)
              && u.s.ports[p].owner == s.ports[p].owner)
  {
    if id in s.ports { assert MasterOk(s, id); }
  }

  /** A new port has no master and can be slaved by its owner only; and it can be destroyed at once. */
  lemma CreatedFor(s: State, id: Id, owner: Team, restrict: int, team: Team)
    requires Inv(s) && Enabled(s, Create(id, owner, restrict))
    ensures var u := Apply(s, Create(id, owner, restrict)).s;
      && id in u.ports && u.ports[id].slaved == 0 && u.ports[id].restrict == restrict
      && (Apply(u, Slave(id, 0, team)).code == None <==> team == owner)
      && Apply(u, Destroy(id)).code == None && Apply(u, Destroy(id)).s.ports == s.ports
  {
    assert s.ports[id := Port(1, 0, owner, restrict, 0)] - {id} == s.ports;
  }

  /** A port without slaves should be free to go; one that lost a slave to its destruction is not. It can be
      destroyed exactly when no port is slaved to it and none was destroyed while slaved to it. */
  lemma DestroyedExactlyWhen(s: State, id: Id)
    requires Inv(s)
    ensures Destroyed(s, id).code == None <==>
      id in s.ports && Slaves(s, id) == {} && id in s.orphaned && s.orphaned[id] == 0
  {
    if id in s.ports { assert CountOk(s, id); }
  }

  ghost const EMPTY := State(map[], map[], map[], 0, map[])

  /** Two ports, one slaved to the other and destroyed first: the other has no slaves, and stays for good. */
  lemma StuckPort(owner: Team, m: Id, p: Id)
    requires m != 0 && p != 0 && m != p
    ensures var s := Destroyed(Reslaved(Created(Created(EMPTY, m, owner, 0), p, owner, 0), p, m, owner).s, p).s;
      Inv(s) && m in s.ports && Slaves(s, m) == {} && Destroyed(s, m).code == ErrResource
  {
    var s1 := Created(EMPTY, m, owner, 0);
    var s2 := Created(s1, p, owner, 0);
    CreateKeeps(EMPTY, m, owner, 0);
    CreateKeeps(s1, p, owner, 0);
    SlaveKeeps(s2, p, m, owner);
    var s3 := Reslaved(s2, p, m, owner).s;
    assert s3.ports[p].refcount == 1 && s3.ports[m].refcount == 2;
    DestroyKeeps(s3, p);
  }

  /** Once that has happened the port outlives every run. */
  lemma {:induction false} StuckForGood(s: State, run: seq<Step>, m: Id)
    requires Inv(s) && Legal(s, run) && m in s.ports && m in s.orphaned && s.orphaned[m] > 0
    ensures var u := After(s, run); m in u.ports && m in u.born && m in s.born && u.born[m] == s.born[m]
    decreases |run|
  {
    assert MasterOk(s, m);
    if run != [] {
      StepKeeps(s, run[0]);
      assert CountOk(s, m) && MasterOk(s, m);
      StuckForGood(Apply(s, run[0]).s, run[1..], m);
    }
  }

  // ---------------------------------------------------------------- the code

  ghost predicate IdsAt(queueOf: map<Id, Id>, free: seq<nat>, n: nat, p: Id) {
    p in queueOf ==>
      && 0 < p < n && p !in free && 0 < queueOf[p] < n && queueOf[p] !in free && queueOf[p] !in queueOf
      && forall r {:trigger queueOf[r]} :: r in queueOf && r != p ==> queueOf[r] != queueOf[p]
  }

  /** The ids in use are not on the free list, and no two uses share one. */
  ghost predicate IdsOk(queueOf: map<Id, Id>, free: seq<nat>, n: nat) {
    FreeIds.Distinct(free) && forall p {:trigger IdsAt(queueOf, free, n, p)} :: IdsAt(queueOf, free, n, p)
  }

  lemma IdsTaken(queueOf: map<Id, Id>, free: seq<nat>, n: nat)
    requires IdsOk(queueOf, free, n) && |free| >= 2 && 0 < free[0] < n && 0 < free[1] < n
    ensures IdsOk(queueOf[free[0] := free[1]], free[2..], n) && free[0] !in queueOf
  {
    var u, rest := queueOf[free[0] := free[1]], free[2..];
    assert IdsAt(queueOf, free, n, free[0]) && IdsAt(queueOf, free, n, free[1]) && free[0] in free && free[1] in free;
    forall r | r in queueOf ensures queueOf[r] !in free { assert IdsAt(queueOf, free, n, r); }
    forall p ensures IdsAt(u, rest, n, p) { assert IdsAt(queueOf, free, n, p); }
  }

  lemma IdsGiven(queueOf: map<Id, Id>, free: seq<nat>, n: nat, id: Id)
    requires IdsOk(queueOf, free, n) && id in queueOf
    ensures id !in free && queueOf[id] !in [id] + free && 0 < id < n && 0 < queueOf[id] < n
    ensures IdsOk(queueOf - {id}, [queueOf[id], id] + free, n)
  {
    var u, more := queueOf - {id}, [queueOf[id], id] + free;
    assert IdsAt(queueOf, free, n, id);
    forall p ensures IdsAt(u, more, n, p) { assert IdsAt(queueOf, free, n, p); }
  }

  /** The table of ports. Their ids, and those of their send queues, come off the kernel's list of free ids. */
  class Table {
    const ids: FreeIds.FreeList
    var ports: map<Id, Port>
    var queueOf: map<Id, Id>
    ghost var born: map<Id, nat>
    ghost var master: map<Id, nat>
    ghost var clock: nat
    ghost var orphaned: map<Id, nat>

    ghost function View(): State
      reads this
    {
      State(ports, born, master, clock, orphaned)
    }

    ghost predicate Valid()
      reads this, ids, ids.next
    {
      ids.Valid() && queueOf.Keys == ports.Keys && IdsOk(queueOf, ids.free, ids.next.Length) && Inv(View())
    }

    constructor (n: nat)
      requires n >= 2
      ensures Valid() && View() == EMPTY && fresh(ids) && fresh(ids.next)
    {
      ids := new FreeIds.FreeList(n);
      ports, queueOf := map[], map[];
      born, master, clock, orphaned := map[], map[], 0, map[];
    }

    /** Gives the new port the id released last, and its send queue the one before; 0 when ids run out. */
    method PortCreate(owner: Team, restrict: int) returns (id: Id)
      requires Valid()
      modifies this, ids
      ensures id == 0 <==> |old(ids.free)| < 2
      ensures id != 0 ==> Valid() && id == old(ids.free)[0] && ids.free == old(ids.free)[2..] && id !in old(ports)
      ensures View() == if id == 0 then old(View()) else Created(old(View()), id, owner, restrict)
    {
      ghost var free := ids.free;
      id := ids.Take();
      if id == 0 { return; }
      var q := ids.Take();
      if q == 0 { return 0; }
      IdsTaken(queueOf, free, ids.next.Length);
      CreateKeeps(View(), id, owner, restrict);
      Fill(id, q, owner, restrict);
      assert free[1..][1..] == free[2..];
    }

    method Fill(id: Id, q: Id, owner: Team, restrict: int)
      modifies this
      ensures View() == Created(old(View()), id, owner, restrict) && queueOf == old(queueOf)[id := q]
    {
      ports := ports[id := Port(1, 0, owner, restrict, 0)];
      queueOf := queueOf[id := q];
      born, master, clock, orphaned := born[id := clock], master[id := 0], clock + 1, orphaned[id := 0];
    }

    method PortDestroy(id: Id) returns (code: Code)
      requires Valid()
      modifies this, ids, ids.next
      ensures Valid() && View() == Destroyed(old(View()), id).s && code == Destroyed(old(View()), id).code
      ensures code == None ==> id in old(queueOf) && ids.free == [old(queueOf)[id], id] + old(ids.free)
    {
      DestroyKeeps(View(), id);
      if id !in ports { return ErrResource; }
      if ports[id].refcount == 1 {
        var q := queueOf[id];
        IdsGiven(queueOf, ids.free, ids.next.Length, id);
        ghost var free := ids.free;
        Drop(id);
        ids.Put(id);
        ids.Put(q);
        assert [q] + ([id] + free) == [q, id] + free;
        return None;
      }
      return ErrResource;
    }

    method Drop(id: Id)
      requires id in ports && ports[id].refcount == 1
      modifies this
      ensures View() == Destroyed(old(View()), id).s && queueOf == old(queueOf) - {id}
    {
      ghost var m := ports[id].slaved;
      ports := ports - {id};
      queueOf := queueOf - {id};
      orphaned := if m in orphaned then orphaned[m := orphaned[m] + 1] else orphaned;
    }

    method Count(m: Id, delta: int)
      requires m in ports
      modifies this`ports
      ensures View() == AddRef(old(View()), m, delta)
    {
      ports := ports[m := ports[m].(refcount := ports[m].refcount + delta)];
    }

    /** What the option refuses. */
    method Check(id: Id, arg: Id, caller: Team) returns (code: Code)
      ensures code != Panic && (code != None ==> Reslaved(View(), id, arg, caller) == Outcome(View(), code))
      ensures code == None ==>
        id in ports && ports[id].owner == caller && (arg != 0 ==> arg in ports && ports[arg].owner == caller)
    {
      if id !in ports { return ErrResource; }
      if ports[id].owner != caller { return ErrPermission; }
      if arg != 0 {
        if arg !in ports { return ErrResource; }
        if ports[arg].owner != caller { return ErrPermission; }
      }
      return None;
    }

    /** The slave option: the new master gains a reference, then the old one loses its own. */
    method PortSlave(id: Id, arg: Id, caller: Team) returns (code: Code)
      requires Valid()
      modifies this
      ensures Valid() && View() == Reslaved(old(View()), id, arg, caller).s
        && code == Reslaved(old(View()), id, arg, caller).code
      ensures code != Panic
    {
      SlaveKeeps(View(), id, arg, caller);
      ReslavedKeys(View(), id, arg, caller);
      code := Check(id, arg, caller);
      if code == None {
        hide Inv, IdsOk, Remastered;
        code := Remaster(id, arg);
      }
    }

    method Remaster(id: Id, arg: Id) returns (code: Code)
      requires id in ports && (arg != 0 ==> arg in ports)
      modifies this`ports, this`master
      ensures Outcome(View(), code) == Remastered(old(View()), id, arg)
    {
      if arg != 0 { Count(arg, 1); }
      var was := ports[id].slaved;
      if was != 0 {
        if was !in ports { return Panic; }
        Count(was, -1);
      }
      ports := ports[id := ports[id].(slaved := arg)];
      master := master[id := if arg in born then born[arg] else 0];
      return None;
    }
  }
}
