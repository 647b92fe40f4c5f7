/** A last-in first-out list of free numbers threaded through an array, ended by 0. The kernel keeps its
    resource ids this way, and its physical pages. */
module FreeIds {

  ghost predicate Distinct(q: seq<nat>) {
    forall i, j :: 0 <= i < j < |q| ==> q[i] != q[j]
  }

  ghost function After(q: seq<nat>, i: int): nat {
    if 0 <= i + 1 < |q| then q[i + 1] else 0
  }

  ghost predicate EntryOk(next: seq<nat>, q: seq<nat>, i: int)
    requires 0 <= i < |q|
  {
    0 < q[i] < |next| && next[q[i]] == After(q, i)
  }

  /** The entries reached from head are those of q, in order. */
  ghost predicate Threaded(next: seq<nat>, head: nat, q: seq<nat>) {
    && Distinct(q) && head == After(q, -1)
    && forall i {:trigger EntryOk(next, q, i)} :: 0 <= i < |q| ==> EntryOk(next, q, i)
  }

  class FreeList {
    const next: array<nat>
    var head: nat
    ghost var free: seq<nat>

    ghost predicate Valid()
      reads this, next
    {
      Threaded(next[..], head, free)
    }

    /** All numbers but 0 are free, the smallest first. */
    constructor (n: nat)
      requires n >= 2
      ensures Valid() && fresh(next) && next.Length == n && |free| == n - 1
      ensures forall i :: 0 <= i < n - 1 ==> free[i] == i + 1
    {
      var a := new nat[n];
      next, head := a, 1;
      free := seq(n - 1, i => i + 1);
      new;
      var i := 0;
      while i < n
        invariant 0 <= i <= n && next == a && head == 1 && free == seq(n - 1, i => i + 1)
        invariant forall k :: 0 <= k < i ==> a[k] == k + 1
      {
        a[i] := i + 1;
        i := i + 1;
      }
      a[n - 1] := 0;
      forall i | 0 <= i < |free| ensures EntryOk(next[..], free, i) {}
    }

    /** Takes the number given back last; 0 says that none is free. */
    method Take() returns (id: nat)
      requires Valid()
      modifies this
      ensures Valid() && (id == 0 <==> old(free) == [])
      ensures id != 0 ==> id == old(free)[0] && free == old(free)[1..] && id !in free && id < next.Length
      ensures id == 0 ==> free == old(free) && head == old(head)
    {
      id := head;
      if free != [] { assert EntryOk(next[..], free, 0); }
      if id != 0 {
        head := next[id];
        Taken(next[..], id, free);
        free := free[1..];
      }
    }

    method Put(id: nat)
      requires Valid() && 0 < id < next.Length && id !in free
      modifies this, next
      ensures Valid() && free == [id] + old(free)
    {
      PutBack(next[..], head, free, id);
      next[id] := head;
      head := id;
      free := [id] + free;
      assert next[..] == old(next[..])[id := old(head)];
    }
  }

  lemma InRange(next: seq<nat>, head: nat, q: seq<nat>)
    requires Threaded(next, head, q)
    ensures forall p {:trigger p in q} :: p in q ==> 0 < p < |next|
  {
    forall i | 0 <= i < |q| ensures 0 < q[i] < |next| { assert EntryOk(next, q, i); }
  }

  lemma Taken(next: seq<nat>, head: nat, q: seq<nat>)
    requires Threaded(next, head, q) && q != []
    ensures head < |next| && Threaded(next, next[head], q[1..]) && head !in q[1..]
  {
    assert EntryOk(next, q, 0);
    var r := q[1..];
    forall i | 0 <= i < |r| ensures EntryOk(next, r, i) { assert EntryOk(next, q, i + 1); }
  }

  lemma PutBack(next: seq<nat>, head: nat, q: seq<nat>, id: nat)
    requires Threaded(next, head, q) && 0 < id < |next| && id !in q
    ensures Threaded(next[id := head], id, [id] + q)
  {
    var r, t := [id] + q, next[id := head];
    forall i | 0 <= i < |r| ensures EntryOk(t, r, i) {
      assert i > 0 ==> EntryOk(next, q, i - 1);
      assert i > 0 ==> r[i] == q[i - 1];
    }
  }
}
