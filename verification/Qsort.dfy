/** The library sort: Bentley and McIlroy's quicksort with a three-way partition, which switches to
    insertion sort for short ranges and for ranges in which the partition moved nothing. */
module Qsort {

  /** Swapping the arguments of a comparison flips its sign. */
  ghost predicate Flip<T>(cmp: (T, T) -> int, x: T, y: T) {
    (cmp(x, y) < 0 <==> cmp(y, x) > 0) && (cmp(x, y) == 0 <==> cmp(y, x) == 0)
  }

  ghost predicate Chain<T>(cmp: (T, T) -> int, x: T, y: T, z: T) {
    && (cmp(x, y) <= 0 && cmp(y, z) <= 0 ==> cmp(x, z) <= 0)
    && (cmp(x, y) <= 0 && cmp(y, z) < 0 ==> cmp(x, z) < 0)
    && (cmp(x, y) < 0 && cmp(y, z) <= 0 ==> cmp(x, z) < 0)
  }

  /** A comparison function of a total preorder. */
  ghost predicate Preorder<T(!new)>(cmp: (T, T) -> int) {
    && (forall x, y {:trigger Flip(cmp, x, y)} :: Flip(cmp, x, y))
    && (forall x, y, z {:trigger Chain(cmp, x, y, z)} :: Chain(cmp, x, y, z))
  }

  ghost predicate Sorted<T>(s: seq<T>, cmp: (T, T) -> int) {
    forall i, j :: 0 <= i < j < |s| ==> cmp(s[i], s[j]) <= 0
  }

  /** How often x occurs between lo and hi. */
  ghost function Count<T>(s: seq<T>, lo: int, hi: int, x: T): nat
    requires 0 <= lo <= hi <= |s|
    decreases hi - lo
  {
    if lo == hi then 0 else Count(s, lo, hi - 1, x) + if s[hi - 1] == x then 1 else 0
  }

  ghost predicate SameCount<T>(s: seq<T>, t: seq<T>, lo: int, hi: int, x: T)
    requires 0 <= lo <= hi <= |s| && hi <= |t|
  {
    Count(s, lo, hi, x) == Count(t, lo, hi, x)
  }

  /** t is s with the elements between lo and hi rearranged. */
  ghost predicate Rearranged<T(!new)>(s: seq<T>, t: seq<T>, lo: int, hi: int) {
    && |s| == |t| && 0 <= lo <= hi <= |s|
    && (forall x {:trigger SameCount(s, t, lo, hi, x)} :: SameCount(s, t, lo, hi, x))
    && forall i {:trigger t[i]} :: 0 <= i < |s| && !(lo <= i < hi) ==> t[i] == s[i]
  }

  lemma {:induction false} CountSplit<T>(s: seq<T>, lo: int, mid: int, hi: int, x: T)
    requires 0 <= lo <= mid <= hi <= |s|
    ensures Count(s, lo, hi, x) == Count(s, lo, mid, x) + Count(s, mid, hi, x)
    decreases hi - mid
  {
    if mid < hi { CountSplit(s, lo, mid, hi - 1, x); }
  }

  lemma {:induction false} CountSame<T>(s: seq<T>, t: seq<T>, lo: int, hi: int, x: T)
    requires 0 <= lo <= hi <= |s| && hi <= |t| && forall i :: lo <= i < hi ==> s[i] == t[i]
    ensures Count(s, lo, hi, x) == Count(t, lo, hi, x)
    decreases hi - lo
  {
    if lo < hi { CountSame(s, t, lo, hi - 1, x); }
  }

  lemma {:induction false} CountMember<T>(s: seq<T>, lo: int, hi: int, x: T) returns (i: int)
    requires 0 <= lo <= hi <= |s| && Count(s, lo, hi, x) > 0
    ensures lo <= i < hi && s[i] == x
    decreases hi - lo
  {
    if s[hi - 1] == x { i := hi - 1; } else { i := CountMember(s, lo, hi - 1, x); }
  }

  lemma {:induction false} MemberCount<T>(s: seq<T>, lo: int, hi: int, i: int)
    requires 0 <= lo <= i < hi <= |s|
    ensures Count(s, lo, hi, s[i]) > 0
    decreases hi
  {
    if i < hi - 1 { MemberCount(s, lo, hi - 1, i); }
  }

  lemma RearrangedTrans<T(!new)>(s: seq<T>, t: seq<T>, u: seq<T>, lo: int, hi: int)
    requires Rearranged(s, t, lo, hi) && Rearranged(t, u, lo, hi)
    ensures Rearranged(s, u, lo, hi)
  {
    forall x ensures SameCount(s, u, lo, hi, x) {
      assert SameCount(s, t, lo, hi, x) && SameCount(t, u, lo, hi, x);
    }
    forall i | 0 <= i < |s| && !(lo <= i < hi) ensures u[i] == s[i] { assert t[i] == s[i]; }
  }

  /** Rearranging part of a range rearranges the range. */
  lemma RearrangedWider<T(!new)>(s: seq<T>, t: seq<T>, lo: int, hi: int, lo': int, hi': int)
    requires Rearranged(s, t, lo, hi) && 0 <= lo' <= lo && hi <= hi' <= |s|
    ensures Rearranged(s, t, lo', hi')
  {
    forall x ensures SameCount(s, t, lo', hi', x) {
      assert SameCount(s, t, lo, hi, x);
      CountSplit(s, lo', lo, hi', x);
      CountSplit(s, lo, hi, hi', x);
      CountSplit(t, lo', lo, hi', x);
      CountSplit(t, lo, hi, hi', x);
      CountSame(s, t, lo', lo, x);
      CountSame(s, t, hi, hi', x);
    }
  }

  lemma CountUpdate<T>(s: seq<T>, lo: int, hi: int, i: int, v: T, x: T)
    requires 0 <= lo <= i < hi <= |s|
    ensures Count(s[i := v], lo, hi, x) == Count(s, lo, hi, x) - (if s[i] == x then 1 else 0)
      + (if v == x then 1 else 0)
  {
    var t := s[i := v];
    CountSplit(s, lo, i, hi, x);
    CountSplit(s, i, i + 1, hi, x);
    CountSplit(t, lo, i, hi, x);
    CountSplit(t, i, i + 1, hi, x);
    CountSame(s, t, lo, i, x);
    CountSame(s, t, i + 1, hi, x);
  }

  lemma SwapRearranges<T(!new)>(s: seq<T>, i: int, j: int, lo: int, hi: int)
    requires 0 <= lo <= i < hi <= |s| && lo <= j < hi
    ensures Rearranged(s, s[i := s[j]][j := s[i]], lo, hi)
  {
    var t := s[i := s[j]][j := s[i]];
    forall x ensures SameCount(s, t, lo, hi, x) {
      CountUpdate(s, lo, hi, i, s[j], x);
      CountUpdate(s[i := s[j]], lo, hi, j, s[i], x);
    }
  }

  /** What holds of every element of a range still does after a rearrangement of it. */
  lemma RearrangedAll<T(!new)>(s: seq<T>, t: seq<T>, lo: int, hi: int, p: T -> bool)
    requires Rearranged(s, t, lo, hi) && forall i :: lo <= i < hi ==> p(s[i])
    ensures forall i :: lo <= i < hi ==> p(t[i])
  {
    forall i | lo <= i < hi ensures p(t[i]) {
      MemberCount(t, lo, hi, i);
      assert SameCount(s, t, lo, hi, t[i]);
      var k := CountMember(s, lo, hi, t[i]);
    }
  }

  lemma RearrangedRefl<T(!new)>(s: seq<T>, lo: int, hi: int)
    requires 0 <= lo <= hi <= |s|
    ensures Rearranged(s, s, lo, hi)
  {
  }

  lemma {:induction false} CountIsMultiset<T>(s: seq<T>, hi: int, x: T)
    requires 0 <= hi <= |s|
    ensures Count(s, 0, hi, x) == multiset(s[..hi])[x]
  {
    if hi > 0 {
      CountIsMultiset(s, hi - 1, x);
      assert s[..hi] == s[..hi - 1] + [s[hi - 1]];
    }
  }

  /** A rearranged sequence has the same elements, each as often. */
  lemma RearrangedIsPermutation<T(!new)>(s: seq<T>, t: seq<T>)
    requires Rearranged(s, t, 0, |s|)
    ensures multiset(s) == multiset(t)
  {
    assert s[..|s|] == s && t[..|t|] == t;
    forall x ensures multiset(s)[x] == multiset(t)[x] {
      CountIsMultiset(s, |s|, x);
      CountIsMultiset(t, |t|, x);
      assert SameCount(s, t, 0, |s|, x);
    }
  }

  method Swap<T(!new)>(a: array<T>, i: int, j: int, ghost lo: int, ghost hi: int)
    requires 0 <= lo <= i < hi <= a.Length && lo <= j < hi
    modifies a
    ensures a[..] == old(a[..])[i := old(a[j])][j := old(a[i])]
    ensures Rearranged(old(a[..]), a[..], lo, hi)
  {
    SwapRearranges(a[..], i, j, lo, hi);
    a[i], a[j] := a[j], a[i];
    assert a[..] == old(a[..])[i := old(a[j])][j := old(a[i])];
  }

  // ---------------------------------------------------------------- insertion sort

  /** s is sorted between lo and hi, except that the element at k may be too small. */
  ghost predicate SortedBut<T>(s: seq<T>, lo: int, hi: int, k: int, cmp: (T, T) -> int) {
    0 <= lo && hi <= |s| && forall i, j :: lo <= i < j < hi && j != k ==> cmp(s[i], s[j]) <= 0
  }

  ghost predicate SortedRange<T>(s: seq<T>, lo: int, hi: int, cmp: (T, T) -> int) {
    0 <= lo && hi <= |s| && forall i, j :: lo <= i < j < hi ==> cmp(s[i], s[j]) <= 0
  }

  lemma BubbleStep<T(!new)>(s: seq<T>, lo: int, hi: int, k: int, cmp: (T, T) -> int)
    requires Preorder(cmp) && SortedBut(s, lo, hi, k, cmp) && 0 <= lo < k < hi <= |s| && cmp(s[k - 1], s[k]) > 0
    ensures SortedBut(s[k := s[k - 1]][k - 1 := s[k]], lo, hi, k - 1, cmp)
  {
    var t := s[k := s[k - 1]][k - 1 := s[k]];
    assert Flip(cmp, s[k - 1], s[k]);
    forall i, j | lo <= i < j < hi && j != k - 1 ensures cmp(t[i], t[j]) <= 0 {
      assert j != k ==> t[j] == s[j];
    }
  }

  lemma BubbleDone<T(!new)>(s: seq<T>, lo: int, hi: int, k: int, cmp: (T, T) -> int)
    requires Preorder(cmp) && SortedBut(s, lo, hi, k, cmp) && 0 <= lo <= k < hi <= |s|
      && (k == lo || cmp(s[k - 1], s[k]) <= 0)
    ensures SortedRange(s, lo, hi, cmp)
  {
    forall i, j | lo <= i < j < hi ensures cmp(s[i], s[j]) <= 0 {
      if j == k && i < k - 1 { assert Chain(cmp, s[i], s[k - 1], s[k]); }
    }
  }

  /** Moves the element at pm down to its place among the sorted ones before it. */
  method Sink<T(!new)>(a: array<T>, lo: int, pm: int, cmp: (T, T) -> int)
    requires Preorder(cmp) && 0 <= lo <= pm < a.Length && SortedRange(a[..], lo, pm, cmp)
    modifies a
    ensures Rearranged(old(a[..]), a[..], lo, pm + 1) && SortedRange(a[..], lo, pm + 1, cmp)
  {
    var pl := pm;
    RearrangedRefl(a[..], lo, pm + 1);
    while pl > lo && cmp(a[pl - 1], a[pl]) > 0
      invariant lo <= pl <= pm && Rearranged(old(a[..]), a[..], lo, pm + 1) && SortedBut(a[..], lo, pm + 1, pl, cmp)
    {
      ghost var s := a[..];
      BubbleStep(s, lo, pm + 1, pl, cmp);
      Swap(a, pl, pl - 1, lo, pm + 1);
      RearrangedTrans(old(a[..]), s, a[..], lo, pm + 1);
      pl := pl - 1;
    }
    BubbleDone(a[..], lo, pm + 1, pl, cmp);
  }

  method InsertionSort<T(!new)>(a: array<T>, lo: int, n: nat, cmp: (T, T) -> int)
    requires Preorder(cmp) && 0 <= lo && lo + n <= a.Length
    modifies a
    ensures Rearranged(old(a[..]), a[..], lo, lo + n) && SortedRange(a[..], lo, lo + n, cmp)
  {
    var pm := lo + 1;
    RearrangedRefl(a[..], lo, lo + n);
    while pm < lo + n
      invariant lo < pm && (n > 0 ==> pm <= lo + n)
      invariant Rearranged(old(a[..]), a[..], lo, lo + n) && (n > 0 ==> SortedRange(a[..], lo, pm, cmp))
    {
      ghost var s := a[..];
      Sink(a, lo, pm, cmp);
      RearrangedWider(s, a[..], lo, pm + 1, lo, lo + n);
      RearrangedTrans(old(a[..]), s, a[..], lo, lo + n);
      pm := pm + 1;
    }
  }

  // ---------------------------------------------------------------- choosing the pivot

  /** The middle one of three positions, by value. */
  method Med3<T(!new)>(s: seq<T>, a: int, b: int, c: int, cmp: (T, T) -> int) returns (m: int)
    requires Preorder(cmp) && 0 <= a < |s| && 0 <= b < |s| && 0 <= c < |s|
    ensures m == a || m == b || m == c
    ensures var x, y, z := s[a], s[b], s[c]; var v := s[m];
      || (v == x && ((cmp(y, x) <= 0 && cmp(x, z) <= 0) || (cmp(z, x) <= 0 && cmp(x, y) <= 0)))
      || (v == y && ((cmp(x, y) <= 0 && cmp(y, z) <= 0) || (cmp(z, y) <= 0 && cmp(y, x) <= 0)))
      || (v == z && ((cmp(x, z) <= 0 && cmp(z, y) <= 0) || (cmp(y, z) <= 0 && cmp(z, x) <= 0)))
  {
    assert Flip(cmp, s[a], s[b]) && Flip(cmp, s[b], s[c]) && Flip(cmp, s[a], s[c]);
    m := if cmp(s[a], s[b]) < 0 then
           (if cmp(s[b], s[c]) < 0 then b else if cmp(s[a], s[c]) < 0 then c else a)
         else
           (if cmp(s[b], s[c]) > 0 then b else if cmp(s[a], s[c]) < 0 then a else c);
  }

  /** The position the pivot is taken from: the middle, or for longer ranges a median. */
  method PivotAt<T(!new)>(s: seq<T>, lo: int, n: nat, cmp: (T, T) -> int) returns (pm: int)
    requires Preorder(cmp) && 0 <= lo && 7 <= n && lo + n <= |s|
    ensures lo <= pm < lo + n
  {
    pm := lo + n / 2;
    if n > 7 {
      var pl, pn := lo, lo + (n - 1);
      if n > 40 {
        var d := n / 8;
        pl := Med3(s, pl, pl + d, pl + 2 * d, cmp);
        pm := Med3(s, pm - d, pm, pm + d, cmp);
        pn := Med3(s, pn - 2 * d, pn - d, pn, cmp);
      }
      pm := Med3(s, pl, pm, pn, cmp);
    }
  }

  // ---------------------------------------------------------------- the partition

  /** Every element from lo up to hi compares with v as the sign says. */
  ghost predicate All<T>(s: seq<T>, lo: int, hi: int, v: T, sign: int, cmp: (T, T) -> int) {
    0 <= lo && hi <= |s| && forall i {:trigger s[i]} :: lo <= i < hi ==> HasSign(cmp(s[i], v), sign)
  }

  ghost predicate HasSign(c: int, sign: int) {
    (c < 0 <==> sign < 0) && (c > 0 <==> sign > 0)
  }

  /** The four runs the pointers keep apart: equal, less, (unseen), greater, equal. */
  ghost predicate Parted<T>(s: seq<T>, lo: int, hi: int, pa: int, pb: int, pc: int, pd: int, v: T, cmp: (T, T) -> int) {
    && 0 <= lo < pa <= pb <= pc + 1 && pc <= pd < hi <= |s| && s[lo] == v
    && All(s, lo, pa, v, 0, cmp) && All(s, pa, pb, v, -1, cmp)
    && All(s, pc + 1, pd + 1, v, 1, cmp) && All(s, pd + 1, hi, v, 0, cmp)
  }

  ghost function Swapped<T>(s: seq<T>, i: int, j: int): seq<T>
    requires 0 <= i < |s| && 0 <= j < |s|
  {
    s[i := s[j]][j := s[i]]
  }

  lemma EqualLeft<T>(s: seq<T>, lo: int, hi: int, pa: int, pb: int, pc: int, pd: int, v: T, cmp: (T, T) -> int)
    requires Parted(s, lo, hi, pa, pb, pc, pd, v, cmp) && pb <= pc && cmp(s[pb], v) == 0
    ensures Parted(Swapped(s, pa, pb), lo, hi, pa + 1, pb + 1, pc, pd, v, cmp)
  {
  }

  lemma EqualRight<T>(s: seq<T>, lo: int, hi: int, pa: int, pb: int, pc: int, pd: int, v: T, cmp: (T, T) -> int)
    requires Parted(s, lo, hi, pa, pb, pc, pd, v, cmp) && pb <= pc && cmp(s[pc], v) == 0
    ensures Parted(Swapped(s, pc, pd), lo, hi, pa, pb, pc - 1, pd - 1, v, cmp)
  {
  }

  lemma Exchange<T>(s: seq<T>, lo: int, hi: int, pa: int, pb: int, pc: int, pd: int, v: T, cmp: (T, T) -> int)
    requires Parted(s, lo, hi, pa, pb, pc, pd, v, cmp) && pb < pc && cmp(s[pb], v) > 0 && cmp(s[pc], v) < 0
    ensures Parted(Swapped(s, pb, pc), lo, hi, pa, pb + 1, pc - 1, pd, v, cmp)
  {
  }

  method ScanUp<T(!new)>(a: array<T>, lo: int, ghost hi: int, pa0: int, pb0: int, pc: int, pd: int,
                         cmp: (T, T) -> int, ghost v: T)
    returns (pa: int, pb: int, swapped: bool)
    requires Parted(a[..], lo, hi, pa0, pb0, pc, pd, v, cmp)
    modifies a
    ensures Parted(a[..], lo, hi, pa, pb, pc, pd, v, cmp) && pb0 <= pb
    ensures Rearranged(old(a[..]), a[..], lo, hi) && (pb <= pc ==> cmp(a[pb], v) > 0)
  {
    pa, pb, swapped := pa0, pb0, false;
    RearrangedRefl(a[..], lo, hi);
    while pb <= pc && cmp(a[pb], a[lo]) <= 0
      invariant Parted(a[..], lo, hi, pa, pb, pc, pd, v, cmp) && pb0 <= pb
      invariant Rearranged(old(a[..]), a[..], lo, hi)
    {
      if cmp(a[pb], a[lo]) == 0 {
        swapped := true;
        ghost var s := a[..];
        EqualLeft(s, lo, hi, pa, pb, pc, pd, v, cmp);
        Swap(a, pa, pb, lo, hi);
        RearrangedTrans(old(a[..]), s, a[..], lo, hi);
        pa := pa + 1;
      }
      pb := pb + 1;
    }
  }

  method ScanDown<T(!new)>(a: array<T>, lo: int, ghost hi: int, pa: int, pb: int, pc0: int, pd0: int,
                           cmp: (T, T) -> int, ghost v: T)
    returns (pc: int, pd: int, swapped: bool)
    requires Parted(a[..], lo, hi, pa, pb, pc0, pd0, v, cmp)
    modifies a
    ensures Parted(a[..], lo, hi, pa, pb, pc, pd, v, cmp) && pc <= pc0
    ensures Rearranged(old(a[..]), a[..], lo, hi) && (pb <= pc ==> cmp(a[pc], v) < 0)
    ensures pb <= pc ==> a[pb] == old(a[pb])
  {
    pc, pd, swapped := pc0, pd0, false;
    RearrangedRefl(a[..], lo, hi);
    while pb <= pc && cmp(a[pc], a[lo]) >= 0
      invariant Parted(a[..], lo, hi, pa, pb, pc, pd, v, cmp) && pc <= pc0
      invariant Rearranged(old(a[..]), a[..], lo, hi) && (pb <= pc ==> a[pb] == old(a[pb]))
    {
      if cmp(a[pc], a[lo]) == 0 {
        swapped := true;
        ghost var s := a[..];
        EqualRight(s, lo, hi, pa, pb, pc, pd, v, cmp);
        Swap(a, pc, pd, lo, hi);
        RearrangedTrans(old(a[..]), s, a[..], lo, hi);
        pd := pd - 1;
      }
      pc := pc - 1;
    }
  }

  /** Runs the two scans towards each other until they meet. */
  method Partition<T(!new)>(a: array<T>, lo: int, n: nat, cmp: (T, T) -> int)
    returns (pa: int, pb: int, pc: int, pd: int, swapped: bool)
    requires 0 <= lo && 2 <= n && lo + n <= a.Length && Preorder(cmp)
    modifies a
    ensures Parted(a[..], lo, lo + n, pa, pb, pc, pd, a[lo], cmp) && pb == pc + 1
    ensures Rearranged(old(a[..]), a[..], lo, lo + n)
  {
    var hi := lo + n;
    ghost var v := a[lo];
    assert Flip(cmp, v, v);
    pa, pb, pc, pd, swapped := lo + 1, lo + 1, lo + (n - 1), lo + (n - 1), false;
    RearrangedRefl(a[..], lo, hi);
    while true
      invariant Parted(a[..], lo, hi, pa, pb, pc, pd, v, cmp) && Rearranged(old(a[..]), a[..], lo, hi)
      decreases pc - pb
    {
      var moved;
      ghost var s := a[..];
      pa, pb, moved := ScanUp(a, lo, hi, pa, pb, pc, pd, cmp, v);
      RearrangedTrans(old(a[..]), s, a[..], lo, hi);
      swapped := swapped || moved;
      s := a[..];
      pc, pd, moved := ScanDown(a, lo, hi, pa, pb, pc, pd, cmp, v);
      RearrangedTrans(old(a[..]), s, a[..], lo, hi);
      swapped := swapped || moved;
      if pb > pc { break; }
      s := a[..];
      Exchange(s, lo, hi, pa, pb, pc, pd, v, cmp);
      Swap(a, pb, pc, lo, hi);
      RearrangedTrans(old(a[..]), s, a[..], lo, hi);
      swapped := true;
      pb, pc := pb + 1, pc - 1;
    }
  }

  // ---------------------------------------------------------------- moving the equal runs inwards

  /** t is s with the n elements at i and the n elements at j exchanged. */
  ghost predicate BlocksSwapped<T>(s: seq<T>, t: seq<T>, i: int, j: int, n: int) {
    && |s| == |t| && 0 <= i && 0 <= n && i + n <= j && j + n <= |s|
    && (forall k {:trigger t[k]} :: 0 <= k < |s| ==>
          t[k] == if i <= k < i + n then s[k - i + j] else if j <= k < j + n then s[k - j + i] else s[k])
  }

  method VecSwap<T(!new)>(a: array<T>, i: int, j: int, n: nat, ghost lo: int, ghost hi: int)
    requires 0 <= lo <= i && i + n <= j && j + n <= hi <= a.Length
    modifies a
    ensures BlocksSwapped(old(a[..]), a[..], i, j, n) && Rearranged(old(a[..]), a[..], lo, hi)
  {
    var k := 0;
    RearrangedRefl(a[..], lo, hi);
    while k < n
      invariant 0 <= k <= n && BlocksSwapped(old(a[..]), a[..], i, j, k) && Rearranged(old(a[..]), a[..], lo, hi)
    {
      ghost var s := a[..];
      Swap(a, i + k, j + k, lo, hi);
      RearrangedTrans(old(a[..]), s, a[..], lo, hi);
      k := k + 1;
    }
  }

  ghost predicate Divided<T>(s: seq<T>, lo: int, l: int, g: int, hi: int, v: T, cmp: (T, T) -> int) {
    && 0 <= lo <= l < g <= hi <= |s|
    && All(s, lo, l, v, -1, cmp) && All(s, l, g, v, 0, cmp) && All(s, g, hi, v, 1, cmp)
  }

  lemma LeftBlock<T>(s: seq<T>, t: seq<T>, lo: int, pa: int, pb: int, v: T, cmp: (T, T) -> int)
    requires lo <= pa <= pb && All(s, lo, pa, v, 0, cmp) && All(s, pa, pb, v, -1, cmp)
    requires var r := if pa - lo < pb - pa then pa - lo else pb - pa; BlocksSwapped(s, t, lo, pb - r, r)
    ensures All(t, lo, lo + (pb - pa), v, -1, cmp) && All(t, lo + (pb - pa), pb, v, 0, cmp)
  {
  }

  lemma RightBlock<T>(s: seq<T>, t: seq<T>, pb: int, pd: int, hi: int, v: T, cmp: (T, T) -> int)
    requires pb <= pd + 1 <= hi && All(s, pb, pd + 1, v, 1, cmp) && All(s, pd + 1, hi, v, 0, cmp)
    requires var r := if pd - pb + 1 < hi - pd - 1 then pd - pb + 1 else hi - pd - 1; BlocksSwapped(s, t, pb, hi - r, r)
    ensures All(t, pb, hi - (pd - pb + 1), v, 0, cmp) && All(t, hi - (pd - pb + 1), hi, v, 1, cmp)
  {
  }

  function Less(x: int, y: int): int { if x < y then x else y }

  lemma Gathered<T>(s: seq<T>, t: seq<T>, u: seq<T>, lo: int, hi: int, pa: int, pb: int, pc: int, pd: int, v: T,
                    cmp: (T, T) -> int)
    requires Parted(s, lo, hi, pa, pb, pc, pd, v, cmp) && pb == pc + 1
    requires BlocksSwapped(s, t, lo, pb - Less(pa - lo, pb - pa), Less(pa - lo, pb - pa))
    requires BlocksSwapped(t, u, pb, hi - Less(pd - pc, hi - pd - 1), Less(pd - pc, hi - pd - 1))
    ensures Divided(u, lo, lo + (pb - pa), hi - (pd - pc), hi, v, cmp)
  {
    LeftBlock(s, t, lo, pa, pb, v, cmp);
    RightBlock(t, u, pb, pd, hi, v, cmp);
  }

  /** Brings the two runs of elements equal to the pivot to the middle. */
  method Gather<T(!new)>(a: array<T>, lo: int, n: nat, pa: int, pb: int, pc: int, pd: int) returns (ghost s: seq<T>)
    requires 0 <= lo < pa <= pb == pc + 1 && pc <= pd < lo + n <= a.Length
    modifies a
    ensures Rearranged(old(a[..]), a[..], lo, lo + n)
    ensures BlocksSwapped(old(a[..]), s, lo, pb - Less(pa - lo, pb - pa), Less(pa - lo, pb - pa))
    ensures BlocksSwapped(s, a[..], pb, lo + n - Less(pd - pc, lo + n - pd - 1), Less(pd - pc, lo + n - pd - 1))
  {
    hide Rearranged, BlocksSwapped;
    var pn := lo + n;
    var r := Less(pa - lo, pb - pa);
    VecSwap(a, lo, pb - r, r, lo, lo + n);
    s := a[..];
    r := Less(pd - pc, pn - pd - 1);
    VecSwap(a, pb, pn - r, r, lo, lo + n);
    RearrangedTrans(old(a[..]), s, a[..], lo, lo + n);
  }

  // ---------------------------------------------------------------- the sort

  ghost predicate NotAbove<T>(s: seq<T>, lo: int, mid: int, x: T, cmp: (T, T) -> int) {
    0 <= lo && mid <= |s| && forall i {:trigger s[i]} :: lo <= i < mid ==> cmp(s[i], x) <= 0
  }

  /** The elements before mid are sorted, and none of them is above one at or after mid. */
  ghost predicate LeftDone<T>(s: seq<T>, lo: int, mid: int, hi: int, cmp: (T, T) -> int) {
    && 0 <= lo <= mid <= hi <= |s| && SortedRange(s, lo, mid, cmp)
    && forall j {:trigger s[j]} :: mid <= j < hi ==> NotAbove(s, lo, mid, s[j], cmp)
  }

  lemma LeftDoneKept<T(!new)>(s: seq<T>, t: seq<T>, lo: int, mid: int, hi: int, cmp: (T, T) -> int)
    requires LeftDone(s, lo, mid, hi, cmp) && Rearranged(s, t, mid, hi)
    ensures LeftDone(t, lo, mid, hi, cmp)
  {
    RearrangedAll(s, t, mid, hi, x => NotAbove(s, lo, mid, x, cmp));
    forall j | mid <= j < hi ensures NotAbove(t, lo, mid, t[j], cmp) {
      assert NotAbove(s, lo, mid, t[j], cmp);
    }
  }

  lemma AllKept<T(!new)>(s: seq<T>, t: seq<T>, lo: int, hi: int, v: T, sign: int, cmp: (T, T) -> int)
    requires All(s, lo, hi, v, sign, cmp) && Rearranged(s, t, lo, hi)
    ensures All(t, lo, hi, v, sign, cmp)
  {
    RearrangedAll(s, t, lo, hi, x => HasSign(cmp(x, v), sign));
  }

  lemma DividedKept<T(!new)>(s: seq<T>, t: seq<T>, lo: int, l: int, g: int, hi: int, v: T, cmp: (T, T) -> int)
    requires Divided(s, lo, l, g, hi, v, cmp) && Rearranged(s, t, lo, l)
    ensures Divided(t, lo, l, g, hi, v, cmp)
  {
    AllKept(s, t, lo, l, v, -1, cmp);
  }

  lemma ThroughPivot<T(!new)>(x: T, v: T, y: T, cmp: (T, T) -> int)
    requires Preorder(cmp) && cmp(x, v) <= 0 && cmp(y, v) >= 0
    ensures cmp(x, y) <= 0
  {
    assert Flip(cmp, y, v) && Chain(cmp, x, v, y);
  }

  /** Once the part below the pivot is sorted, only the part above it remains. */
  lemma PivotDone<T(!new)>(s: seq<T>, lo0: int, lo: int, l: int, g: int, hi: int, v: T, cmp: (T, T) -> int)
    requires Preorder(cmp) && LeftDone(s, lo0, lo, hi, cmp) && Divided(s, lo, l, g, hi, v, cmp)
      && SortedRange(s, lo, l, cmp)
    ensures LeftDone(s, lo0, g, hi, cmp)
  {
    forall i, j | lo0 <= i < g && i < j < hi && (j < g || g <= j) ensures cmp(s[i], s[j]) <= 0 {
      if i < lo {
        assert j < lo || NotAbove(s, lo0, lo, s[j], cmp);
      } else if j >= l {
        ThroughPivot(s[i], v, s[j], cmp);
      }
    }
  }

  lemma LastPart<T(!new)>(s: seq<T>, lo: int, mid: int, hi: int, cmp: (T, T) -> int)
    requires LeftDone(s, lo, mid, hi, cmp) && SortedRange(s, mid, hi, cmp)
    ensures SortedRange(s, lo, hi, cmp)
  {
    forall i, j | lo <= i < j < hi ensures cmp(s[i], s[j]) <= 0 {
      if i < mid <= j { assert NotAbove(s, lo, mid, s[j], cmp); }
    }
  }

  method PartitionAtPivot<T(!new)>(a: array<T>, lo: int, n: nat, cmp: (T, T) -> int)
    returns (pa: int, pb: int, pc: int, pd: int, swapped: bool)
    requires Preorder(cmp) && 0 <= lo && 7 <= n && lo + n <= a.Length
    modifies a
    ensures Parted(a[..], lo, lo + n, pa, pb, pc, pd, a[lo], cmp) && pb == pc + 1
    ensures Rearranged(old(a[..]), a[..], lo, lo + n)
  {
    var pm := PivotAt(a[..], lo, n, cmp);
    Swap(a, lo, pm, lo, lo + n);
    ghost var s := a[..];
    pa, pb, pc, pd, swapped := Partition(a, lo, n, cmp);
    RearrangedTrans(old(a[..]), s, a[..], lo, lo + n);
  }

  method GatherAround<T(!new)>(a: array<T>, lo: int, n: nat, pa: int, pb: int, pc: int, pd: int, ghost v: T,
                               ghost cmp: (T, T) -> int)
    requires 0 <= lo && lo + n <= a.Length && Parted(a[..], lo, lo + n, pa, pb, pc, pd, v, cmp) && pb == pc + 1
    modifies a
    ensures Rearranged(old(a[..]), a[..], lo, lo + n)
    ensures Divided(a[..], lo, lo + (pb - pa), lo + n - (pd - pc), lo + n, v, cmp)
  {
    ghost var t := Gather(a, lo, n, pa, pb, pc, pd);
    Gathered(old(a[..]), t, a[..], lo, lo + n, pa, pb, pc, pd, v, cmp);
  }

  /** One pass: picks a pivot and splits the range around it, or reports that nothing had to move. */
  method Split<T(!new)>(a: array<T>, lo: int, n: nat, cmp: (T, T) -> int)
    returns (l: int, g: int, swapped: bool, ghost v: T)
    requires Preorder(cmp) && 0 <= lo && 7 <= n && lo + n <= a.Length
    modifies a
    ensures Rearranged(old(a[..]), a[..], lo, lo + n)
    ensures swapped ==> Divided(a[..], lo, l, g, lo + n, v, cmp)
  {
    var pa, pb, pc, pd;
    pa, pb, pc, pd, swapped := PartitionAtPivot(a, lo, n, cmp);
    v := a[lo];
    l, g := lo + (pb - pa), lo + n - (pd - pc);
    if swapped {
      ghost var s := a[..];
      GatherAround(a, lo, n, pa, pb, pc, pd, v, cmp);
      RearrangedTrans(old(a[..]), s, a[..], lo, lo + n);
    }
  }

  /** Sorts the n elements from lo: the range ends up sorted and rearranged, and nothing else moves. */
  method SortRange<T(!new)>(a: array<T>, lo0: int, n0: nat, cmp: (T, T) -> int)
    requires Preorder(cmp) && 0 <= lo0 && lo0 + n0 <= a.Length
    modifies a
    ensures Rearranged(old(a[..]), a[..], lo0, lo0 + n0) && SortedRange(a[..], lo0, lo0 + n0, cmp)
    decreases n0
  {
    var lo, n := lo0, n0;
    var hi := lo0 + n0;
    RearrangedRefl(a[..], lo, hi);
    while true
      invariant n <= n0 && lo + n == hi && LeftDone(a[..], lo0, lo, hi, cmp) && Rearranged(old(a[..]), a[..], lo0, hi)
      decreases n
    {
      ghost var s := a[..];
      if n < 7 {
        InsertionSort(a, lo, n, cmp);
        Finish(old(a[..]), s, a[..], lo0, lo, hi, cmp);
        return;
      }
      var l, g, swapped; ghost var v;
      l, g, swapped, v := Split(a, lo, n, cmp);
      Progress(old(a[..]), s, a[..], lo0, lo, hi, cmp);
      s := a[..];
      if !swapped {
        InsertionSort(a, lo, n, cmp);
        Finish(old(a[..]), s, a[..], lo0, lo, hi, cmp);
        return;
      }
      if l - lo > 1 {
        SortRange(a, lo, l - lo, cmp);
      } else {
        RearrangedRefl(s, lo, l);
      }
      LeftSorted(old(a[..]), s, a[..], lo0, lo, l, g, hi, v, cmp);
      if hi - g <= 1 {
        LastPart(a[..], lo0, g, hi, cmp);
        return;
      }
      lo, n := g, hi - g;
    }
  }

  lemma Progress<T(!new)>(o: seq<T>, s: seq<T>, t: seq<T>, lo0: int, lo: int, hi: int, cmp: (T, T) -> int)
    requires LeftDone(s, lo0, lo, hi, cmp) && Rearranged(o, s, lo0, hi) && Rearranged(s, t, lo, hi)
    ensures LeftDone(t, lo0, lo, hi, cmp) && Rearranged(o, t, lo0, hi)
  {
    LeftDoneKept(s, t, lo0, lo, hi, cmp);
    RearrangedWider(s, t, lo, hi, lo0, hi);
    RearrangedTrans(o, s, t, lo0, hi);
  }

  lemma Finish<T(!new)>(o: seq<T>, s: seq<T>, t: seq<T>, lo0: int, lo: int, hi: int, cmp: (T, T) -> int)
    requires LeftDone(s, lo0, lo, hi, cmp) && Rearranged(o, s, lo0, hi) && Rearranged(s, t, lo, hi)
    requires SortedRange(t, lo, hi, cmp)
    ensures SortedRange(t, lo0, hi, cmp) && Rearranged(o, t, lo0, hi)
  {
    Progress(o, s, t, lo0, lo, hi, cmp);
    LastPart(t, lo0, lo, hi, cmp);
  }

  lemma LeftSorted<T(!new)>(o: seq<T>, s: seq<T>, t: seq<T>, lo0: int, lo: int, l: int, g: int, hi: int, v: T,
                            cmp: (T, T) -> int)
    requires Preorder(cmp) && LeftDone(s, lo0, lo, hi, cmp) && Rearranged(o, s, lo0, hi)
    requires Divided(s, lo, l, g, hi, v, cmp) && Rearranged(s, t, lo, l) && SortedRange(t, lo, l, cmp)
    ensures LeftDone(t, lo0, g, hi, cmp) && Rearranged(o, t, lo0, hi)
  {
    RearrangedWider(s, t, lo, l, lo, hi);
    Progress(o, s, t, lo0, lo, hi, cmp);
    DividedKept(s, t, lo, l, g, hi, v, cmp);
    PivotDone(t, lo0, lo, l, g, hi, v, cmp);
  }

  /** The whole array ends up sorted, and holds what it held before. */
  method Qsort<T(!new)>(a: array<T>, cmp: (T, T) -> int)
    requires Preorder(cmp)
    modifies a
    ensures Sorted(a[..], cmp) && multiset(a[..]) == multiset(old(a[..]))
  {
    SortRange(a, 0, a.Length, cmp);
    RearrangedIsPermutation(old(a[..]), a[..]);
  }
}
