/** The bins of the user heap: which bin a size belongs to, the lists of free chunks, and the
    one-word index of blocks of bins.  A list runs from the bin header's `fd` side to its `bk`
    side, so the last element of a sequence is what the C code reads as last(bin). */
module Bins {

  const NAV := 128
  const BINBLOCKWIDTH := 4
  const MAX_SMALLBIN_SIZE := 512
  const SMALLBIN_WIDTH := 8
  /** The list of bin 1 holds the remainder of the latest split, if any. */
  const LAST_REMAINDER := 1

  function BinIndex(sz: nat): (i: nat)
    ensures sz >= 16 ==> 2 <= i < NAV - 1
  {
    if sz / 512 == 0 then sz / 8
    else if sz / 512 <= 4 then 56 + sz / 64
    else if sz / 512 <= 20 then 91 + sz / 512
    else if sz / 512 <= 84 then 110 + sz / 4096
    else if sz / 512 <= 340 then 119 + sz / 32768
    else if sz / 512 <= 1364 then 124 + sz / 262144
    else 126
  }

  /** How far apart the sizes in one bin can be; the last bin takes what is left. */
  lemma BinSpacing(a: nat, b: nat)
    requires a <= b && BinIndex(a) == BinIndex(b)
    ensures var i := BinIndex(a);
      && (i < 64 ==> b - a < 8) && (i < 96 ==> b - a < 64) && (i < 112 ==> b - a < 512)
      && (i < 120 ==> b - a < 4096) && (i < 124 ==> b - a < 32768) && (i < 126 ==> b - a < 262144)
      && (i == 126 <==> 524288 <= a)
  {
  }

  /** Larger chunks never sit in a lower bin, in spite of the slop in the bin boundaries. */
  lemma BinIndexMonotone(a: nat, b: nat)
    requires a <= b
    ensures BinIndex(a) <= BinIndex(b)
  {
    if a / 512 != b / 512 {
      assert a / 512 < b / 512;
    }
  }

  /** Every size below 512 has a bin of its own. */
  lemma OwnBin(a: nat, b: nat)
    requires a < 512 && a % 8 == 0 && b % 8 == 0
    ensures BinIndex(a) == BinIndex(b) <==> a == b
  {
    if b >= 512 { BinIndexMonotone(512, b); }
  }

  type BinLists = seq<seq<int>>

  ghost predicate NoDup(s: seq<int>) {
    forall i, j :: 0 <= i < j < |s| ==> s[i] != s[j]
  }

  /** Sizes never increase from the front of a list to its back. */
  ghost predicate Sorted(s: seq<int>, f: map<int, int>) {
    forall i, j :: 0 <= i < j < |s| && s[i] in f && s[j] in f ==> f[s[i]] >= f[s[j]]
  }

  ghost predicate BinOk(bins: BinLists, f: map<int, int>, i: int)
    requires 0 <= i < |bins|
  {
    && NoDup(bins[i])
    && Sorted(bins[i], f)
    && (forall p :: p in bins[i] ==> p in f && (i != LAST_REMAINDER ==> f[p] >= 16 && BinIndex(f[p]) == i))
  }

  /** Chunk p is on exactly one list: the last remainder, or the bin of its size. */
  ghost predicate Placed(bins: BinLists, f: map<int, int>, p: int)
    requires |bins| == NAV && p in f
  {
    f[p] >= 16 && f[p] % 8 == 0 && ((p in bins[LAST_REMAINDER]) != (p in bins[BinIndex(f[p])]))
  }

  /** The lists hold the free chunks `f` (address to size), each of them once. */
  ghost predicate BinsOk(bins: BinLists, f: map<int, int>)
  {
    && |bins| == NAV && bins[0] == [] && |bins[LAST_REMAINDER]| <= 1
    && (forall i {:trigger BinOk(bins, f, i)} :: 0 <= i < NAV ==> BinOk(bins, f, i))
    && (forall p {:trigger Placed(bins, f, p)} :: p in f ==> Placed(bins, f, p))
  }

  // ---------------------------------------------------------------- taking a chunk off its list

  function Remove(s: seq<int>, p: int): (r: seq<int>)
    ensures |s| - 1 <= |r| <= |s|
  {
    if s == [] then [] else if s[0] == p then s[1..] else [s[0]] + Remove(s[1..], p)
  }

  lemma {:induction false} RemoveMembers(s: seq<int>, p: int)
    requires NoDup(s)
    ensures NoDup(Remove(s, p))
    ensures forall x :: x in Remove(s, p) <==> x in s && x != p
    decreases |s|
  {
    if s != [] {
      assert s == [s[0]] + s[1..];
      assert forall x :: x in s <==> x == s[0] || x in s[1..];
      if s[0] != p {
        RemoveMembers(s[1..], p);
        var r := Remove(s[1..], p);
        assert Remove(s, p) == [s[0]] + r;
        forall i, j | 0 <= i < j < |[s[0]] + r| ensures ([s[0]] + r)[i] != ([s[0]] + r)[j] {
          assert r[j - 1] in r;
          assert r[j - 1] in s[1..];
          if i > 0 { assert r[i - 1] != r[j - 1]; }
        }
      } else {
        forall x | x in s[1..] ensures x != p { }
      }
    }
  }

  lemma {:induction false} RemoveSorted(s: seq<int>, p: int, f: map<int, int>)
    requires NoDup(s) && Sorted(s, f)
    ensures Sorted(Remove(s, p), f - {p})
    decreases |s|
  {
    if s != [] {
      if s[0] != p {
        assert Sorted(s[1..], f);
        RemoveSorted(s[1..], p, f);
        RemoveMembers(s[1..], p);
        var r := Remove(s[1..], p);
        assert Remove(s, p) == [s[0]] + r;
        forall i, j | 0 <= i < j < |[s[0]] + r| && ([s[0]] + r)[i] in f - {p} && ([s[0]] + r)[j] in f - {p}
          ensures (f - {p})[([s[0]] + r)[i]] >= (f - {p})[([s[0]] + r)[j]]
        {
          if i == 0 {
            assert r[j - 1] in r;
            var k :| 0 <= k < |s[1..]| && s[1..][k] == r[j - 1];
            assert s[k + 1] == r[j - 1];
          }
        }
      }
    }
  }

  /** unlink: p comes off whatever list it is on. */
  function Unlinked(bins: BinLists, p: int): (r: BinLists)
    ensures |r| == |bins|
    ensures forall i :: 0 <= i < |bins| ==> r[i] == Remove(bins[i], p)
  {
    seq(|bins|, i requires 0 <= i < |bins| => Remove(bins[i], p))
  }

  lemma UnlinkedOk(bins: BinLists, f: map<int, int>, p: int)
    requires BinsOk(bins, f)
    ensures BinsOk(Unlinked(bins, p), f - {p})
  {
    var r := Unlinked(bins, p);
    forall i | 0 <= i < NAV ensures BinOk(r, f - {p}, i) {
      assert BinOk(bins, f, i);
      RemoveMembers(bins[i], p);
      RemoveSorted(bins[i], p, f);
    }
    assert BinOk(bins, f, LAST_REMAINDER);
    RemoveMembers(bins[LAST_REMAINDER], p);
    forall q | q in f - {p} ensures Placed(r, f - {p}, q) {
      assert Placed(bins, f, q);
      assert BinOk(bins, f, BinIndex(f[q]));
      RemoveMembers(bins[BinIndex(f[q])], p);
    }
  }

  // ---------------------------------------------------------------- putting a chunk on a list

  function InsertedAt(s: seq<int>, k: nat, p: int): seq<int>
    requires k <= |s|
  {
    s[..k] + [p] + s[k..]
  }

  lemma InsertedMembers(s: seq<int>, k: nat, p: int)
    requires k <= |s| && NoDup(s) && p !in s
    ensures NoDup(InsertedAt(s, k, p))
    ensures forall x :: x in InsertedAt(s, k, p) <==> x in s || x == p
  {
    var r := InsertedAt(s, k, p);
    assert forall j :: 0 <= j < |s| ==> s[j] == r[if j < k then j else j + 1];
    assert r[k] == p;
  }

  lemma InsertedSorted(s: seq<int>, k: nat, p: int, sz: int, f: map<int, int>)
    requires k <= |s| && Sorted(s, f) && p !in s && (forall j :: 0 <= j < |s| ==> s[j] in f)
    requires forall j :: 0 <= j < k ==> f[s[j]] >= sz
    requires k < |s| ==> f[s[k]] <= sz
    ensures Sorted(InsertedAt(s, k, p), f[p := sz])
  {
    var r, g := InsertedAt(s, k, p), f[p := sz];
    forall i, j | 0 <= i < j < |r| && r[i] in g && r[j] in g ensures g[r[i]] >= g[r[j]] {
      assert i != k ==> r[i] == s[if i < k then i else i - 1];
      assert j != k ==> r[j] == s[if j < k then j else j - 1];
    }
  }

  /** frontlink: p goes into the bin of its size, behind every larger chunk and ahead of the rest. */
  lemma FrontlinkedOk(bins: BinLists, f: map<int, int>, p: int, sz: nat, k: nat)
    requires BinsOk(bins, f) && p !in f && sz >= 16 && sz % 8 == 0
    requires var s := bins[BinIndex(sz)];
      k <= |s| && (forall j :: 0 <= j < k ==> s[j] in f && f[s[j]] >= sz) && (k < |s| ==> s[k] in f && f[s[k]] <= sz)
    ensures var b := BinIndex(sz); BinsOk(bins[b := InsertedAt(bins[b], k, p)], f[p := sz])
  {
    hide BinIndex, InsertedAt;
    var b := BinIndex(sz);
    var r, g := bins[b := InsertedAt(bins[b], k, p)], f[p := sz];
    assert BinOk(bins, f, b);
    InsertedMembers(bins[b], k, p);
    InsertedSorted(bins[b], k, p, sz, f);
    forall i | 0 <= i < NAV ensures BinOk(r, g, i) {
      assert BinOk(bins, f, i);
    }
    forall q | q in g ensures Placed(r, g, q) {
      assert BinOk(bins, f, LAST_REMAINDER);
      if q != p { assert Placed(bins, f, q); }
    }
  }

  /** link_last_remainder on an empty remainder bin. */
  lemma RemainderLinkedOk(bins: BinLists, f: map<int, int>, p: int, sz: nat)
    requires BinsOk(bins, f) && p !in f && sz >= 16 && sz % 8 == 0 && bins[LAST_REMAINDER] == []
    ensures BinsOk(bins[LAST_REMAINDER := [p]], f[p := sz])
  {
    var r, g := bins[LAST_REMAINDER := [p]], f[p := sz];
    forall i | 0 <= i < NAV ensures BinOk(r, g, i) {
      assert BinOk(bins, f, i);
    }
    forall q | q in g ensures Placed(r, g, q) {
      if q != p { assert Placed(bins, f, q); } else { assert BinOk(bins, f, BinIndex(sz)); }
    }
  }

  // ---------------------------------------------------------------- blocks of bins

  /** A bin that holds a chunk always has its block among the marked ones. */
  ghost predicate BlocksOk(bins: BinLists, blocks: set<int>) {
    |bins| == NAV && forall i {:trigger bins[i]} :: 2 <= i < NAV && bins[i] != [] ==> i / BINBLOCKWIDTH in blocks
  }

  lemma UnlinkedBlocks(bins: BinLists, blocks: set<int>, p: int)
    requires BlocksOk(bins, blocks)
    ensures BlocksOk(Unlinked(bins, p), blocks)
  {
  }

  /** Bins of the blocks from b0 up to b hold nothing when none of those blocks is marked. */
  lemma EmptyBetween(bins: BinLists, blocks: set<int>, b0: int, b: int)
    requires BlocksOk(bins, blocks) && 1 <= b0 <= b <= 32 && forall d :: b0 <= d < b ==> d !in blocks
    ensures forall i :: BINBLOCKWIDTH * b0 <= i < BINBLOCKWIDTH * b ==> bins[i] == []
  {
    forall i | BINBLOCKWIDTH * b0 <= i < BINBLOCKWIDTH * b ensures bins[i] == [] {
      assert b0 <= i / BINBLOCKWIDTH < b;
    }
  }
}
