/** How full a table of one size may get: runs of insertions and removals that do not make it grow. */
module HashLoad {
  import opened Probing
  import opened Counting
  import opened HashTable

  /** An insertion and the number of steps its loop takes, or the removal of the entry in a slot. */
  datatype Call<+V> = Insert(key: int, entry: Entry<V>, n: nat) | Remove(i: int)

  ghost predicate KeyIn<V>(t: Slots<V>, key: int) {
    exists i :: Live(t, i) && t[i].key == key
  }

  /** The load does not make the table grow before an insertion. */
  ghost predicate Stays(used: nat, p: int, maxLoad: real) {
    used as real <= maxLoad * (p as real)
  }

  ghost predicate Enabled<V>(t: Slots<V>, c: Call<V>, maxLoad: real)
    requires |t| > 2
  {
    match c
    case Insert(key, entry, n) => !KeyIn(t, key) && Stays(|UsedSlots(t)|, |t|, maxLoad) && Target(t, key, n)
    case Remove(i) => Live(t, i)
  }

  ghost function Apply<V>(t: Slots<V>, c: Call<V>): (u: Slots<V>)
    requires |t| > 2 && (c.Remove? ==> Live(t, c.i))
    ensures |u| == |t|
  {
    match c
    case Insert(key, entry, n) => t[Probe(key, |t|, n) := Used(false, key, entry)]
    case Remove(i) => t[i := t[i].(dirty := true)]
  }

  ghost predicate Legal<V>(t: Slots<V>, run: seq<Call<V>>, maxLoad: real)
    requires |t| > 2
    decreases |run|
  {
    run != [] ==> Enabled(t, run[0], maxLoad) && Legal(Apply(t, run[0]), run[1..], maxLoad)
  }

  ghost function After<V>(t: Slots<V>, run: seq<Call<V>>, maxLoad: real): (u: Slots<V>)
    requires |t| > 2 && Legal(t, run, maxLoad)
    ensures |u| == |t|
    decreases |run|
  {
    if run == [] then t else After(Apply(t, run[0]), run[1..], maxLoad)
  }

  ghost function Fresh<V>(p: nat): Slots<V> {
    seq(p, _ => Empty)
  }

  lemma {:induction false} Joined<V>(t: Slots<V>, run: seq<Call<V>>, c: Call<V>, maxLoad: real)
    requires |t| > 2 && Legal(t, run, maxLoad) && Enabled(After(t, run, maxLoad), c, maxLoad)
    ensures Legal(t, run + [c], maxLoad) && After(t, run + [c], maxLoad) == Apply(After(t, run, maxLoad), c)
    decreases |run|
  {
    hide Apply, Target, Stays, KeyIn;
    if run == [] {
      assert [c][1..] == [] && run + [c] == [c];
    } else {
      Joined(Apply(t, run[0]), run[1..], c, maxLoad);
      assert (run + [c])[1..] == run[1..] + [c];
    }
  }

  // ---------------------------------------------------------------- a slot is left

  lemma StepUses<V>(t: Slots<V>, c: Call<V>, maxLoad: real)
    requires |t| > 2 && Enabled(t, c, maxLoad)
    ensures |UsedSlots(Apply(t, c))| <= |UsedSlots(t)| + if c.Insert? then 1 else 0
  {
    if c.Insert? {
      UsedAfter(t, Probe(c.key, |t|, c.n), Used(false, c.key, c.entry));
    } else {
      UsedAfter(t, c.i, t[c.i].(dirty := true));
    }
  }

  lemma {:induction false} SlotLeft<V>(t: Slots<V>, run: seq<Call<V>>, maxLoad: real)
    requires |t| > 2 && Legal(t, run, maxLoad) && |UsedSlots(t)| < |t| && !Stays(|t| - 1, |t|, maxLoad)
    ensures |UsedSlots(After(t, run, maxLoad))| < |t|
    decreases |run|
  {
    if run != [] {
      StepUses(t, run[0], maxLoad);
      SlotLeft(Apply(t, run[0]), run[1..], maxLoad);
    }
  }

  // ---------------------------------------------------------------- the table fills up

  ghost predicate AllDifferent(keys: seq<int>) {
    forall i, j :: 0 <= i < j < |keys| ==> keys[i] != keys[j]
  }

  /** The table holds exactly as many entries as it has used slots, all with keys from the list. */
  ghost predicate HoldsSome<V>(t: Slots<V>, keys: seq<int>) {
    NoneDirty(t) && |UsedSlots(t)| == |keys| && forall i {:trigger Live(t, i)} :: Live(t, i) ==> t[i].key in keys
  }

  lemma {:induction false} Stops<V>(t: Slots<V>, key: int, m: nat, n: nat) returns (r: nat)
    requires |t| > 2 && NoneDirty(t) && 1 <= m <= n && t[Probe(key, |t|, 0)].Used? && t[Probe(key, |t|, n)].Empty?
    requires LiveBefore(t, key, m)
    ensures Target(t, key, r) && t[Probe(key, |t|, r)].Empty?
    decreases n - m
  {
    if t[Probe(key, |t|, m)].Empty? {
      r := m;
    } else {
      r := Stops(t, key, m + 1, n);
    }
  }

  /** While a slot was never used, and none is dirty, an insertion ends, in a slot never used. */
  lemma Finds<V>(t: Slots<V>, key: int) returns (n: nat)
    requires IsPrime(|t|) && |t| >= 7 && NoneDirty(t) && |UsedSlots(t)| < |t|
    ensures Target(t, key, n) && t[Probe(key, |t|, n)].Empty?
  {
    n := EmptyAhead(t, key);
    if t[Probe(key, |t|, 0)].Empty? { n := 0; } else { n := Stops(t, key, 1, n); }
  }

  /** Inserting the keys of a list, in order. */
  ghost predicate Inserts<V>(run: seq<Call<V>>, keys: seq<int>) {
    |run| == |keys| && forall j :: 0 <= j < |run| ==> run[j].Insert? && run[j].key == keys[j]
  }

  lemma OneMore<V>(t: Slots<V>, keys: seq<int>, key: int, e: Entry<V>, maxLoad: real) returns (c: Call<V>)
    requires IsPrime(|t|) && |t| >= 7 && HoldsSome(t, keys) && |keys| < |t| && key !in keys
      && Stays(|keys|, |t|, maxLoad)
    ensures Enabled(t, c, maxLoad) && c.Insert? && c.key == key && HoldsSome(Apply(t, c), keys + [key])
  {
    var n := Finds(t, key);
    c := Insert(key, e, n);
    var i, u := Probe(key, |t|, n), Apply(t, c);
    UsedAfter(t, i, Used(false, key, e));
    forall j | Live(u, j) ensures u[j].key in keys + [key] {
      if j != i { assert Live(t, j); }
    }
  }

  lemma StaysBelow(used: nat, more: nat, p: int, maxLoad: real)
    requires Stays(more, p, maxLoad) && used <= more
    ensures Stays(used, p, maxLoad)
  {
  }

  /** Any different keys, as many as there are slots, go into a fresh table one after the other without making it
      grow, if the load limit lets the last slot be taken. */
  lemma {:induction false} Fills<V>(keys: seq<int>, e: Entry<V>, p: int, maxLoad: real) returns (run: seq<Call<V>>)
    requires IsPrime(p) && p >= 7 && AllDifferent(keys) && |keys| <= p && Stays(p - 1, p, maxLoad)
    ensures Legal(Fresh(p), run, maxLoad) && Inserts(run, keys) && HoldsSome(After(Fresh(p), run, maxLoad), keys)
    decreases |keys|
  {
    if keys == [] {
      run := [];
      EmptyStores<V>(Fresh(p));
    } else {
      var front, key := keys[..|keys| - 1], keys[|keys| - 1];
      run := Fills(front, e, p, maxLoad);
      var t := After(Fresh(p), run, maxLoad);
      StaysBelow(|front|, p - 1, p, maxLoad);
      hide Enabled, Apply, HoldsSome, Legal, After;
      var c := OneMore(t, front, key, e, maxLoad);
      Joined(Fresh(p), run, c, maxLoad);
      assert front + [key] == keys;
      run := run + [c];
    }
  }

  /** The lookup loop for a key goes on at its n-th slot. */
  ghost predicate GoesOn<V>(t: Slots<V>, key: int, n: nat)
    requires |t| > 2
  {
    var i := Probe(key, |t|, n);
    t[i].Used? && !(Live(t, i) && t[i].key == key)
  }

  /** In such a table the lookup of any other key never ends. */
  lemma NeverEnds<V>(keys: seq<int>, key: int, e: Entry<V>, p: int, maxLoad: real) returns (run: seq<Call<V>>)
    requires IsPrime(p) && p >= 7 && AllDifferent(keys) && |keys| == p && key !in keys && Stays(p - 1, p, maxLoad)
    ensures Legal(Fresh(p), run, maxLoad) && Inserts(run, keys)
    ensures forall n {:trigger GoesOn(After(Fresh(p), run, maxLoad), key, n)} ::
      GoesOn(After(Fresh(p), run, maxLoad), key, n)
  {
    run := Fills(keys, e, p, maxLoad);
    var t := After(Fresh(p), run, maxLoad);
    BelowCount(|t|);
    SubsetCount(UsedSlots(t), Below(|t|));
    forall n: nat ensures GoesOn(t, key, n) { assert Probe(key, |t|, n) in UsedSlots(t); }
  }

  // ---------------------------------------------------------------- exactly when

  ghost predicate AlwaysLeft<V(!new)>(p: int, maxLoad: real)
    requires p > 2
  {
    forall run: seq<Call<V>> {:trigger Legal(Fresh(p), run, maxLoad)} ::
      Legal(Fresh(p), run, maxLoad) ==> |UsedSlots(After(Fresh(p), run, maxLoad))| < p
  }

  ghost function UpTo(n: nat): seq<int> { seq(n, i => i) }

  /** A table of p slots always keeps one that was never used, in every run that does not make it grow, exactly when
      the load limit makes it grow before the last slot is taken. */
  lemma SlotLeftExactlyWhen<V(!new)>(p: int, maxLoad: real, e: Entry<V>)
    requires IsPrime(p) && p >= 7
    ensures AlwaysLeft<V>(p, maxLoad) <==> maxLoad * (p as real) < (p - 1) as real
  {
    var fresh0: Slots<V> := Fresh(p);
    EmptyStores(fresh0);
    if Stays(p - 1, p, maxLoad) {
      var run := Fills(UpTo(p), e, p, maxLoad);
      assert Legal(Fresh(p), run, maxLoad);
    } else {
      forall run: seq<Call<V>> | Legal(Fresh(p), run, maxLoad) ensures |UsedSlots(After(Fresh(p), run, maxLoad))| < p {
        SlotLeft(fresh0, run, maxLoad);
      }
    }
  }

  lemma SevenIsPrime()
    ensures IsPrime(7)
  {
    forall d | 1 < d < 7 ensures !Divides(d, 7) {}
  }

  /** For the smallest table the limit is six sevenths. */
  lemma SmallestTable<V(!new)>(maxLoad: real, e: Entry<V>)
    ensures AlwaysLeft<V>(7, maxLoad) <==> 7.0 * maxLoad < 6.0
  {
    SevenIsPrime();
    SlotLeftExactlyWhen(7, maxLoad, e);
  }
}
