/** The double-hashing table: tombstones on removal, a rebuild into the next larger size when the
    load is exceeded and into the next smaller one when tombstones pile up.  It refines a map. */
module HashTable {
  import opened Probing
  import opened Counting

  datatype Option<+T> = None | Some(value: T)

  datatype Entry<+V> = Entry(data: V, dsize: int)

  /** A slot has never been used, or holds an entry; a dirty slot's entry has been removed. */
  datatype Slot<+V> = Empty | Used(dirty: bool, key: int, entry: Entry<V>)

  type Slots<V> = seq<Slot<V>>

  ghost predicate Live<V>(t: Slots<V>, i: int) {
    0 <= i < |t| && t[i].Used? && !t[i].dirty
  }

  /** The slots looked at for a key before its n-th have all been used. */
  ghost predicate Reach<V>(t: Slots<V>, key: int, n: nat)
    requires |t| > 2
  {
    forall m: nat {:trigger Probe(key, |t|, m)} :: m < n ==> t[Probe(key, |t|, m)].Used?
  }

  /** Where the insertion loop stops: at the first slot if it was never used, and else at the first slot after it
      that holds no live entry. */
  ghost predicate Target<V>(t: Slots<V>, key: int, n: nat)
    requires |t| > 2
  {
    if n == 0 then t[Probe(key, |t|, 0)].Empty?
    else
      t[Probe(key, |t|, 0)].Used? && !Live(t, Probe(key, |t|, n)) && LiveBefore(t, key, n)
  }

  ghost predicate LiveBefore<V>(t: Slots<V>, key: int, n: nat)
    requires |t| > 2
  {
    forall m: nat {:trigger Probe(key, |t|, m)} :: 1 <= m < n ==> Live(t, Probe(key, |t|, m))
  }

  lemma LiveStep<V>(t: Slots<V>, key: int, n: nat)
    requires |t| > 2 && LiveBefore(t, key, n) && Live(t, Probe(key, |t|, n))
    ensures LiveBefore(t, key, n + 1)
  {
  }

  ghost predicate Found<V>(t: Slots<V>, key: int, i: int)
    requires |t| > 2
  {
    exists n: nat :: n < |t| && Probe(key, |t|, n) == i && Reach(t, key, n)
  }

  ghost predicate Holds<V>(t: Slots<V>, m: map<int, Entry<V>>, pos: map<int, int>, k: int)
    requires |t| > 2 && k in m && k in pos
  {
    Live(t, pos[k]) && t[pos[k]].key == k && t[pos[k]].entry == m[k] && Found(t, k, pos[k])
  }

  ghost function UsedSlots<V>(t: Slots<V>): set<int> {
    set i | 0 <= i < |t| && t[i].Used?
  }

  /** The table t stores the map m, key k in slot pos[k] on its probe sequence. */
  ghost predicate Stores<V>(t: Slots<V>, m: map<int, Entry<V>>, pos: map<int, int>) {
    && IsPrime(|t|) && |t| >= 7 && pos.Keys == m.Keys
    && (forall k {:trigger Holds(t, m, pos, k)} :: k in m ==> Holds(t, m, pos, k))
    && (forall i {:trigger Live(t, i)} :: Live(t, i) ==> t[i].key in m && pos[t[i].key] == i)
  }

  ghost predicate NoneDirty<V>(t: Slots<V>) {
    forall i :: 0 <= i < |t| && t[i].Used? ==> !t[i].dirty
  }

  // ---------------------------------------------------------------- what the probe loops rely on

  /** While some slot is unused every probe sequence meets one. */
  lemma EmptyAhead<V>(t: Slots<V>, key: int) returns (n: nat)
    requires IsPrime(|t|) && |t| >= 7 && |UsedSlots(t)| < |t|
    ensures n < |t| && t[Probe(key, |t|, n)].Empty?
  {
    BelowCount(|t|);
    assert UsedSlots(t) <= Below(|t|);
    assert UsedSlots(t) != Below(|t|);
    var i :| i in Below(|t|) && i !in UsedSlots(t);
    n := ProbeOnto(key, |t|, i);
  }

  /** A probe that meets an unused slot before the key has shown that the key is absent. */
  lemma AbsentKey<V>(t: Slots<V>, m: map<int, Entry<V>>, pos: map<int, int>, key: int, n: nat)
    requires Stores(t, m, pos) && n < |t| && t[Probe(key, |t|, n)].Empty?
    requires forall j: nat {:trigger Probe(key, |t|, j)} :: j < n ==>
      !(Live(t, Probe(key, |t|, j)) && t[Probe(key, |t|, j)].key == key)
    ensures key !in m
  {
    if key in m {
      assert Holds(t, m, pos, key);
      var k: nat :| k < |t| && Probe(key, |t|, k) == pos[key] && Reach(t, key, k);
    }
  }

  /** One step of a probe loop from a used slot. */
  lemma ReachStep<V>(t: Slots<V>, key: int, n: nat)
    requires |t| > 2 && Reach(t, key, n) && t[Probe(key, |t|, n)].Used?
    ensures Reach(t, key, n + 1)
    ensures Probe(key, |t|, n + 1) == Next(Probe(key, |t|, n), Rehash(key, |t|), |t|)
  {
  }

  lemma UsedAfter<V>(t: Slots<V>, i: int, s: Slot<V>)
    requires 0 <= i < |t| && s.Used?
    ensures |UsedSlots(t[i := s])| == |UsedSlots(t)| + if t[i].Used? then 0 else 1
  {
    assert UsedSlots(t[i := s]) == UsedSlots(t) + {i};
    if t[i].Used? { assert UsedSlots(t) + {i} == UsedSlots(t); } else { assert i !in UsedSlots(t); }
  }

  lemma ReachGrows<V>(t: Slots<V>, i: int, s: Slot<V>, key: int, j: int)
    requires 0 <= i < |t| && s.Used? && |t| > 2 && Found(t, key, j)
    ensures Found(t[i := s], key, j)
  {
    var n: nat :| n < |t| && Probe(key, |t|, n) == j && Reach(t, key, n);
    assert Reach(t[i := s], key, n);
  }

  /** An entry put into an unused or dirty slot of its probe sequence. */
  lemma Inserted<V>(t: Slots<V>, m: map<int, Entry<V>>, pos: map<int, int>, key: int, e: Entry<V>, n: nat)
    requires Stores(t, m, pos) && key !in m && n < |t| && Reach(t, key, n) && !Live(t, Probe(key, |t|, n))
    ensures var i := Probe(key, |t|, n); Stores(t[i := Used(false, key, e)], m[key := e], pos[key := i])
  {
    var i := Probe(key, |t|, n);
    var t', m', pos' := t[i := Used(false, key, e)], m[key := e], pos[key := i];
    forall k | k in m' ensures Holds(t', m', pos', k) {
      if k == key {
        assert Reach(t', key, n);
      } else {
        assert Holds(t, m, pos, k);
        ReachGrows(t, i, Used(false, key, e), k, pos[k]);
      }
    }
    forall j | Live(t', j) ensures t'[j].key in m' && pos'[t'[j].key] == j {
      if j != i { assert Live(t, j); }
    }
  }

  /** The table stores some map. */
  ghost predicate StoresSome<V(!new)>(t: Slots<V>) {
    exists m, pos :: Stores(t, m, pos)
  }

  /** The insertion loop does not look at keys: what it leaves is a map again exactly when the key was not stored. */
  lemma InsertedExactlyWhen<V(!new)>(t: Slots<V>, m: map<int, Entry<V>>, pos: map<int, int>, key: int, e: Entry<V>,
                                     n: nat)
    requires Stores(t, m, pos) && n < |t| && Reach(t, key, n) && !Live(t, Probe(key, |t|, n))
    ensures StoresSome(t[Probe(key, |t|, n) := Used(false, key, e)]) <==> key !in m
  {
    var i := Probe(key, |t|, n);
    var u := t[i := Used(false, key, e)];
    if key !in m {
      Inserted(t, m, pos, key, e, n);
    } else {
      assert Holds(t, m, pos, key);
      assert Live(u, i) && Live(u, pos[key]) && i != pos[key];
      forall m', pos' ensures !Stores(u, m', pos') {}
    }
  }

  /** The entry of a key marked as removed. */
  lemma Removed<V>(t: Slots<V>, m: map<int, Entry<V>>, pos: map<int, int>, key: int)
    requires Stores(t, m, pos) && key in m
    ensures var i := pos[key];
      0 <= i < |t| && t[i].Used? && Stores(t[i := t[i].(dirty := true)], m - {key}, pos - {key})
  {
    assert Holds(t, m, pos, key);
    var i := pos[key];
    var t', m', pos' := t[i := t[i].(dirty := true)], m - {key}, pos - {key};
    forall k | k in m' ensures Holds(t', m', pos', k) {
      assert Holds(t, m, pos, k);
      ReachGrows(t, i, t[i].(dirty := true), k, pos[k]);
    }
    forall j | Live(t', j) ensures t'[j].key in m' && pos'[t'[j].key] == j {
      assert Live(t, j);
    }
  }

  /** Below the load limit at least two slots have never been used. */
  lemma LoadLeavesSlots(used: nat, p: int, maxLoad: real)
    requires p >= 7 && 0.0 < maxLoad && 7.0 * maxLoad < 6.0 && used as real <= maxLoad * (p as real)
    ensures used + 1 < p
  {
    var x := p as real;
    assert (7.0 * maxLoad) * x < 6.0 * x;
    assert 7.0 * (used as real) < 6.0 * x;
    assert 7 * used < 6 * p;
  }

  lemma EmptyStores<V>(t: Slots<V>)
    requires IsPrime(|t|) && |t| >= 7 && forall i :: 0 <= i < |t| ==> t[i] == Empty
    ensures Stores(t, map[], map[]) && UsedSlots(t) == {}
  {
  }

  /** There are at least as many used slots as keys. */
  lemma KeysUsed<V>(t: Slots<V>, m: map<int, Entry<V>>, pos: map<int, int>)
    requires Stores(t, m, pos)
    ensures |m| <= |UsedSlots(t)|
  {
    forall k | k in m.Keys ensures k in pos && pos[k] in UsedSlots(t) && t[pos[k]].Used? && t[pos[k]].key == k {
      assert Holds(t, m, pos, k);
    }
    InjectionCount(m.Keys, pos, UsedSlots(t));
  }

  // ---------------------------------------------------------------- the part of a map already moved

  ghost function Part<V>(m: map<int, Entry<V>>, pos: map<int, int>, i: int): map<int, Entry<V>> {
    map k | k in m && k in pos && pos[k] < i :: m[k]
  }

  lemma PartStep<V>(t: Slots<V>, m: map<int, Entry<V>>, pos: map<int, int>, i: int)
    requires Stores(t, m, pos) && 0 <= i < |t|
    ensures if Live(t, i) then
        && t[i].key !in Part(m, pos, i) && |Part(m, pos, i)| < |m|
        && Part(m, pos, i + 1) == Part(m, pos, i)[t[i].key := t[i].entry]
      else Part(m, pos, i + 1) == Part(m, pos, i)
  {
    if Live(t, i) {
      var k := t[i].key;
      assert Holds(t, m, pos, k);
      assert Part(m, pos, i).Keys <= m.Keys - {k};
      SubsetCount(Part(m, pos, i).Keys, m.Keys - {k});
      forall x | x in m && pos[x] == i ensures x == k { assert Holds(t, m, pos, x); }
    } else {
      forall x | x in m ensures pos[x] != i { assert Holds(t, m, pos, x); }
    }
  }

  lemma PartWhole<V>(t: Slots<V>, m: map<int, Entry<V>>, pos: map<int, int>)
    requires Stores(t, m, pos)
    ensures Part(m, pos, |t|) == m
  {
    forall k | k in m ensures pos[k] < |t| { assert Holds(t, m, pos, k); }
  }

  // ---------------------------------------------------------------- the table

  class Table<V> {
    const sizes: seq<int>
    const maxLoad: real
    var table: array<Slot<V>>
    var sizeIndex: nat
    var used: nat
    var dirty: nat
    ghost var contents: map<int, Entry<V>>
    ghost var pos: map<int, int>

    ghost predicate Sized() {
      && |sizes| > 0 && (forall i :: 0 <= i < |sizes| ==> IsPrime(sizes[i]) && sizes[i] >= 7)
      && (forall i, j :: 0 <= i < j < |sizes| ==> sizes[i] < sizes[j])
      && 0.0 < maxLoad && 7.0 * maxLoad < 6.0
    }

    ghost predicate Valid()
      reads this, table
    {
      && Sized() && sizeIndex < |sizes| && table.Length == sizes[sizeIndex]
      && Stores(table[..], contents, pos)
      && used == |UsedSlots(table[..])| && used < table.Length
      && (|contents| > 0 ==> !Over(|contents| - 1, |sizes| - 1))
    }

    /** n used slots exceed the load limit of the i-th size. */
    predicate Over(n: nat, i: nat)
      requires i < |sizes|
    {
      n as real > maxLoad * (sizes[i] as real)
    }

    /** No slot is dirty, so every used slot counts for one key. */
    ghost predicate Clean()
      reads this, table
    {
      used == |contents| && NoneDirty(table[..])
    }

    /** One more key fits below the load limit of the largest size. */
    ghost predicate Room()
      reads this
    {
      && |sizes| > 0
      && !Over(|contents|, |sizes| - 1)
      && (sizeIndex == |sizes| - 1 ==> !Over(used, |sizes| - 1))
    }

    constructor (sizes: seq<int>, maxLoad: real)
      requires |sizes| > 0 && forall i :: 0 <= i < |sizes| ==> IsPrime(sizes[i]) && sizes[i] >= 7
      requires forall i, j :: 0 <= i < j < |sizes| ==> sizes[i] < sizes[j]
      requires 0.0 < maxLoad && 7.0 * maxLoad < 6.0
      ensures Valid() && contents == map[] && fresh(table) && this.sizes == sizes && this.maxLoad == maxLoad
    {
      this.sizes, this.maxLoad := sizes, maxLoad;
      sizeIndex, used, dirty := 0, 0, 0;
      table := new Slot<V>[sizes[0]](_ => Empty);
      contents, pos := map[], map[];
      new;
      EmptyStores(table[..]);
    }

    /** The slot a new key goes to: its first one if that was never used, and otherwise the first
        further one that was never used or is dirty. */
    method FindSlot(key: int) returns (i: int, ghost n: nat)
      requires Valid()
      ensures n < table.Length && i == Probe(key, table.Length, n) && Reach(table[..], key, n) && !Live(table[..], i)
      ensures Target(table[..], key, n)
    {
      var p := table.Length;
      ghost var t := table[..];
      ghost var e := EmptyAhead(t, key);
      i, n := Hash(key, p), 0;
      if table[i].Used? {
        ReachStep(t, key, 0);
        i, n := Next(i, Rehash(key, p), p), 1;
        assert LiveBefore(t, key, 1);
        hide Reach, LiveBefore, Walk, Stores;
        while table[i].Used? && !table[i].dirty
          invariant 1 <= n <= e && i == Probe(key, p, n) && Reach(t, key, n) && LiveBefore(t, key, n)
          decreases e - n
        {
          ReachStep(t, key, n);
          LiveStep(t, key, n);
          i, n := Next(i, Rehash(key, p), p), n + 1;
        }
      }
    }

    /** Stores an entry in the slot found for it. */
    method Place(key: int, e: Entry<V>)
      requires Valid() && key !in contents && used + 1 < table.Length
      requires !Over(|contents|, |sizes| - 1)
      modifies this, table
      ensures Valid() && contents == old(contents)[key := e] && table == old(table) && sizeIndex == old(sizeIndex)
      ensures old(Clean()) ==> Clean()
    {
      var i;
      ghost var n;
      i, n := FindSlot(key);
      ghost var t := table[..];
      var s := Used(false, key, e);
      Inserted(t, contents, pos, key, e, n);
      UsedAfter(t, i, s);
      var fresh_ := table[i].Empty?;
      assert NoneDirty(t) ==> NoneDirty(t[i := s]);
      if fresh_ { used := used + 1; }
      table[i] := s;
      assert table[..] == t[i := s];
      contents, pos := contents[key := e], pos[key := i];
    }

    /** The next larger size leaves room for every key and one more. */
    method Grow()
      requires Valid() && sizeIndex + 1 < |sizes|
      modifies this
      ensures Valid() && contents == old(contents) && used + 1 < table.Length && fresh(table) && Clean()
      ensures sizeIndex > old(sizeIndex)
      decreases |sizes| - sizeIndex - 1, 4
    {
      KeysUsed(table[..], contents, pos);
      Rebuild(1);
      assert sizes[old(sizeIndex)] < sizes[sizeIndex];
    }

    /** Grows the table when its load is exceeded, so that a never-used slot will remain. */
    method Relieve()
      requires Valid() && Room()
      modifies this
      ensures Valid() && contents == old(contents) && used + 1 < table.Length
      ensures fresh(table) || (table == old(table) && table[..] == old(table[..]) && used == old(used))
      ensures if old(Over(used, sizeIndex)) then sizeIndex > old(sizeIndex) && fresh(table)
              else sizeIndex == old(sizeIndex) && table == old(table)
      ensures old(Clean()) ==> Clean()
      decreases |sizes| - sizeIndex, 0
    {
      if Over(used, sizeIndex) {
        Grow();
      } else {
        LoadLeavesSlots(used, table.Length, maxLoad);
      }
    }

    /** Inserts a key that is not present, growing the table first when its load is exceeded. */
    method Insert(key: int, data: V, dsize: int)
      requires Valid() && key !in contents && Room()
      modifies this, table
      ensures Valid() && contents == old(contents)[key := Entry(data, dsize)]
      ensures fresh(table) || table == old(table)
      ensures if old(Over(used, sizeIndex)) then sizeIndex > old(sizeIndex) && fresh(table)
              else sizeIndex == old(sizeIndex) && table == old(table)
      ensures old(Clean()) ==> Clean()
      decreases |sizes| - sizeIndex, 1
    {
      Relieve();
      Place(key, Entry(data, dsize));
    }

    ghost function NewIndex(dir: int): int
      reads this
    {
      if dir == -1 then (if sizeIndex == 0 then 0 else sizeIndex - 1) else sizeIndex + dir
    }

    /** Inserts the live entries of an old table into a new, empty one. */
    method Refill(from: array<Slot<V>>, ghost m: map<int, Entry<V>>, ghost q: map<int, int>)
      requires Valid() && Clean() && contents == map[] && from != table && Stores(from[..], m, q)
      requires |m| > 0 ==> !Over(|m| - 1, |sizes| - 1)
      modifies this, table
      ensures Valid() && contents == m && Clean() && (fresh(table) || table == old(table))
        && sizeIndex >= old(sizeIndex)
      decreases |sizes| - sizeIndex, 2
    {
      ghost var t := from[..];
      assert Part(m, q, 0) == map[] by {
        forall k | k in m ensures q[k] >= 0 { assert Holds(t, m, q, k); }
      }
      var i := 0;
      while i < from.Length
        invariant 0 <= i <= from.Length && from[..] == t && (fresh(table) || table == old(table))
        invariant Valid() && Clean() && contents == Part(m, q, i) && sizeIndex >= old(sizeIndex)
      {
        PartStep(t, m, q, i);
        var s := from[i];
        assert s == t[i];
        if s.Used? && !s.dirty {
          assert Live(t, i);
          Insert(s.key, s.entry.data, s.entry.dsize);
        }
        i := i + 1;
      }
      PartWhole(t, m, q);
    }

    /** Moves every entry into a new table of the next smaller, the same or the next larger size.
        The insertions may themselves grow the new table. */
    method Rebuild(dir: int)
      requires Valid() && -1 <= dir <= 1 && NewIndex(dir) < |sizes|
      modifies this
      ensures Valid() && contents == old(contents) && Clean() && fresh(table)
      ensures sizeIndex >= old(NewIndex(dir))
      decreases |sizes| - NewIndex(dir), 3
    {
      var from := table;
      ghost var m, q := contents, pos;
      if dir == -1 {
        sizeIndex := if sizeIndex == 0 then 0 else sizeIndex - 1;
      } else {
        sizeIndex := sizeIndex + dir;
      }
      used, dirty := 0, 0;
      table := new Slot<V>[sizes[sizeIndex]](_ => Empty);
      contents, pos := map[], map[];
      EmptyStores(table[..]);
      Refill(from, m, q);
    }

    method Lookup(key: int) returns (r: Option<Entry<V>>)
      requires Valid()
      ensures r == if key in contents then Some(contents[key]) else None
    {
      var i, found := Search(key);
      if found { r := Some(table[i].entry); } else { r := None; }
    }

    /** The probe loop of lookup and removal. */
    method Search(key: int) returns (i: int, found: bool)
      requires Valid()
      ensures found <==> key in contents
      ensures found ==> i == pos[key] && 0 <= i < table.Length && Live(table[..], i) && table[i].entry == contents[key]
    {
      var p := table.Length;
      ghost var t := table[..];
      ghost var e := EmptyAhead(t, key);
      ghost var n: nat := 0;
      i := Hash(key, p);
      while table[i].Used?
        invariant n <= e && i == Probe(key, p, n) && Reach(t, key, n)
        invariant forall j: nat {:trigger Probe(key, p, j)} :: j < n ==>
          !(Live(t, Probe(key, p, j)) && t[Probe(key, p, j)].key == key)
        decreases e - n
      {
        if table[i].key == key && !table[i].dirty {
          assert Live(t, i);
          assert Holds(t, contents, pos, key);
          return i, true;
        }
        ReachStep(t, key, n);
        i, n := Next(i, Rehash(key, p), p), n + 1;
      }
      AbsentKey(t, contents, pos, key, n);
      found := false;
    }

    /** n dirty slots are more than the load limit leaves of the i-th size. */
    predicate Piled(n: nat, i: nat)
      requires i < |sizes|
    {
      n as real > (1.0 - maxLoad) * (sizes[i] as real)
    }

    /** Takes a key out of the slot it is in; the slot stays used. */
    method MarkDirty(key: int, i: int)
      requires Valid() && key in contents && i == pos[key] && 0 <= i < table.Length && Live(table[..], i)
      modifies this`contents, this`pos, this`dirty, table
      ensures Valid() && contents == old(contents) - {key} && dirty == old(dirty) + 1
    {
      ghost var t := table[..];
      var s := table[i];
      Removed(t, contents, pos, key);
      UsedAfter(t, i, s.(dirty := true));
      hide Stores, NoneDirty;
      table[i] := s.(dirty := true);
      assert table[..] == t[i := s.(dirty := true)];
      contents, pos := contents - {key}, pos - {key};
      dirty := dirty + 1;
    }

    /** Removes a key by marking its slot dirty; the table shrinks when dirty slots pile up. */
    method Remove(key: int) returns (r: Option<Entry<V>>)
      requires Valid()
      modifies this, table
      ensures Valid() && r == (if key in old(contents) then Some(old(contents)[key]) else None)
      ensures contents == old(contents) - {key}
      ensures fresh(table) || table == old(table)
      ensures
        if key in old(contents) && Piled(old(dirty) + 1, old(sizeIndex)) && old(sizeIndex) != 0 then
          fresh(table) && Clean() && sizeIndex >= old(sizeIndex) - 1
        else
          table == old(table) && sizeIndex == old(sizeIndex)
            && dirty == old(dirty) + if key in old(contents) then 1 else 0
    {
      hide Stores, NoneDirty, IsPrime, Piled;
      var i, found := Search(key);
      if !found {
        assert contents - {key} == contents;
        return None;
      }
      var s := table[i];
      MarkDirty(key, i);
      if Piled(dirty, sizeIndex) && sizeIndex != 0 {
        Rebuild(-1);
      }
      r := Some(s.entry);
    }
  }
}
