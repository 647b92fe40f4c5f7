/** The circular doubly linked lists of free chunks as they sit in memory.  Addresses are counted
    from the bin table: the header of bin i is at 8 * i, and every list node, header or chunk,
    keeps its `fd` link eight bytes in and its `bk` link twelve bytes in. */
module FreeLists {
  import opened HeapTiling
  import opened Bins

  /** The first address past the bin table. */
  const FIRST := 1040

  function Hdr(i: int): int { 8 * i }

  /** The node at position k of list i, the header standing at both ends. */
  function Node(i: int, s: seq<int>, k: int): int {
    if 0 <= k < |s| then s[k] else Hdr(i)
  }

  ghost predicate LinkedAt(m: Words, i: int, s: seq<int>, k: int) {
    Rd(m, Node(i, s, k - 1) + 8) == Node(i, s, k) && Rd(m, Node(i, s, k) + 12) == Node(i, s, k - 1)
  }

  ghost predicate Linked(m: Words, i: int, s: seq<int>) {
    forall k {:trigger LinkedAt(m, i, s, k)} :: 0 <= k <= |s| ==> LinkedAt(m, i, s, k)
  }

  /** Every list but the unused list 0 is linked in memory in the order its sequence gives. */
  ghost predicate LinksOk(m: Words, bins: BinLists) {
    |bins| == NAV && forall i {:trigger Linked(m, i, bins[i])} :: 1 <= i < NAV ==> Linked(m, i, bins[i])
  }

  ghost predicate Keys(f: map<int, int>) {
    forall p :: p in f ==> p % 8 == 0 && FIRST <= p
  }

  /** The words that may hold a link while the chunks on lists are `ks`. */
  ghost predicate LinkWord(ks: set<int>, a: int) {
    a < FIRST || a - 8 in ks || a - 12 in ks
  }

  ghost predicate SameExceptLinks(m: Words, m': Words, ks: set<int>) {
    forall a {:trigger Rd(m', a)} :: LinkWord(ks, a) || Rd(m', a) == Rd(m, a)
  }

  /** No chunk is on two lists. */
  lemma OneList(bins: BinLists, f: map<int, int>, i: int, j: int, p: int)
    requires BinsOk(bins, f) && 0 <= i < NAV && 0 <= j < NAV && i != j
    requires p in bins[i]
    ensures p !in bins[j]
  {
    assert BinOk(bins, f, i) && BinOk(bins, f, j);
    assert Placed(bins, f, p);
  }

  /** Nodes of different lists, or at different positions of one list, are different. */
  lemma NodesApart(bins: BinLists, f: map<int, int>, i: int, k: int, j: int, l: int)
    requires BinsOk(bins, f) && Keys(f)
    requires 1 <= i < NAV && 1 <= j < NAV && -1 <= k < |bins[i]| && -1 <= l < |bins[j]|
    requires (i, k) != (j, l)
    ensures Node(i, bins[i], k) != Node(j, bins[j], l)
    ensures Node(i, bins[i], k) % 8 == 0
  {
    assert BinOk(bins, f, i) && BinOk(bins, f, j);
    if k >= 0 { assert bins[i][k] in bins[i]; }
    if l >= 0 { assert bins[j][l] in bins[j]; }
    if i != j && k >= 0 { OneList(bins, f, i, j, bins[i][k]); }
  }

  /** Writing one node's link leaves the links of another node alone. */
  lemma LinkWrite(m: Words, x: int, y: int, v: int)
    requires x % 8 == 0 && y % 8 == 0
    ensures Rd(m[x + 8 := v], y + 12) == Rd(m, y + 12)
    ensures Rd(m[x + 12 := v], y + 8) == Rd(m, y + 8)
    ensures x != y ==> Rd(m[x + 8 := v], y + 8) == Rd(m, y + 8)
    ensures x != y ==> Rd(m[x + 12 := v], y + 12) == Rd(m, y + 12)
    ensures Rd(m[x + 8 := v], x + 8) == v && Rd(m[x + 12 := v], x + 12) == v
  {
  }

  // ---------------------------------------------------------------- unlink

  function UnlinkWrites(m: Words, bk: int, fd: int): Words {
    m[fd + 12 := bk][bk + 8 := fd]
  }

  function DropAt(s: seq<int>, k: nat): seq<int>
    requires k < |s|
  {
    s[..k] + s[k + 1..]
  }

  lemma {:induction false} RemoveAt(s: seq<int>, k: nat)
    requires NoDup(s) && k < |s|
    ensures Remove(s, s[k]) == DropAt(s, k)
  {
    if k > 0 {
      assert s[1..][k - 1] == s[k];
      RemoveAt(s[1..], k - 1);
      assert DropAt(s, k) == [s[0]] + DropAt(s[1..], k - 1);
    }
  }

  lemma {:induction false} RemoveAbsent(s: seq<int>, p: int)
    requires p !in s
    ensures Remove(s, p) == s
  {
    if s != [] { RemoveAbsent(s[1..], p); }
  }

  lemma UnlinkedIs(bins: BinLists, f: map<int, int>, i: int, k: nat)
    requires BinsOk(bins, f) && 0 <= i < NAV && k < |bins[i]|
    ensures Unlinked(bins, bins[i][k]) == bins[i := DropAt(bins[i], k)]
  {
    var p := bins[i][k];
    assert BinOk(bins, f, i);
    RemoveAt(bins[i], k);
    forall j | 0 <= j < NAV && j != i ensures Remove(bins[j], p) == bins[j] {
      OneList(bins, f, i, j, p);
      RemoveAbsent(bins[j], p);
    }
  }

  lemma UnlinkKeepsOther(m: Words, bins: BinLists, f: map<int, int>, i: int, k: nat, j: int, l: nat)
    requires BinsOk(bins, f) && Keys(f) && LinksOk(m, bins)
    requires 1 <= i < NAV && k < |bins[i]| && 1 <= j < NAV && l <= |bins[j]|
    requires (i, k) != (j, l) && (i, k + 1) != (j, l)
    ensures LinkedAt(UnlinkWrites(m, Node(i, bins[i], k - 1), Node(i, bins[i], k + 1)), j, bins[j], l)
  {
    var s := bins[i];
    var bk, fd := Node(i, s, k - 1), Node(i, s, k + 1);
    var k' := if k + 1 == |s| then -1 else k + 1;
    var l' := if l == |bins[j]| then -1 else l;
    assert Linked(m, j, bins[j]);
    assert LinkedAt(m, j, bins[j], l);
    NodesApart(bins, f, i, k', j, l');
    NodesApart(bins, f, j, l', i, k');
    NodesApart(bins, f, i, k - 1, j, l - 1);
    NodesApart(bins, f, j, l - 1, i, k - 1);
    var x, y := Node(j, bins[j], l - 1), Node(j, bins[j], l);
    LinkWrite(m, fd, x, bk);
    LinkWrite(m, fd, y, bk);
    LinkWrite(m[fd + 12 := bk], bk, x, fd);
    LinkWrite(m[fd + 12 := bk], bk, y, fd);
  }

  lemma UnlinkLinkedAt(m: Words, bins: BinLists, f: map<int, int>, i: int, k: nat, l: nat)
    requires BinsOk(bins, f) && Keys(f) && LinksOk(m, bins)
    requires 1 <= i < NAV && k < |bins[i]| && l < |bins[i]|
    ensures LinkedAt(UnlinkWrites(m, Node(i, bins[i], k - 1), Node(i, bins[i], k + 1)), i, DropAt(bins[i], k), l)
  {
    var s := bins[i];
    if l < k {
      UnlinkKeepsOther(m, bins, f, i, k, i, l);
    } else if l == k {
      var bk, fd := Node(i, s, k - 1), Node(i, s, k + 1);
      NodeAligned(bins, f, i, k - 1);
      NodeAligned(bins, f, i, k + 1);
      LinkWrite(m, fd, fd, bk);
      LinkWrite(m[fd + 12 := bk], bk, fd, fd);
    } else {
      UnlinkKeepsOther(m, bins, f, i, k, i, l + 1);
    }
  }

  lemma UnlinkKeepsLinks(m: Words, bins: BinLists, f: map<int, int>, i: int, k: nat)
    requires BinsOk(bins, f) && Keys(f) && LinksOk(m, bins)
    requires 1 <= i < NAV && k < |bins[i]|
    ensures var m' := UnlinkWrites(m, Node(i, bins[i], k - 1), Node(i, bins[i], k + 1));
      LinksOk(m', Unlinked(bins, bins[i][k]))
  {
    var m' := UnlinkWrites(m, Node(i, bins[i], k - 1), Node(i, bins[i], k + 1));
    UnlinkedIs(bins, f, i, k);
    var bins' := bins[i := DropAt(bins[i], k)];
    forall j | 1 <= j < NAV ensures Linked(m', j, bins'[j]) {
      forall l | 0 <= l <= |bins'[j]| ensures LinkedAt(m', j, bins'[j], l) {
        if j != i {
          UnlinkKeepsOther(m, bins, f, i, k, j, l);
        } else {
          UnlinkLinkedAt(m, bins, f, i, k, l);
        }
      }
    }
  }

  lemma UnlinkTouchesLinks(m: Words, bins: BinLists, f: map<int, int>, i: int, k: nat)
    requires BinsOk(bins, f) && Keys(f)
    requires 1 <= i < NAV && k < |bins[i]|
    ensures SameExceptLinks(m, UnlinkWrites(m, Node(i, bins[i], k - 1), Node(i, bins[i], k + 1)), f.Keys - {bins[i][k]})
  {
    assert BinOk(bins, f, i);
    assert k > 0 ==> bins[i][k - 1] in bins[i];
    assert k + 1 < |bins[i]| ==> bins[i][k + 1] in bins[i];
  }

  lemma NodeAligned(bins: BinLists, f: map<int, int>, i: int, k: int)
    requires BinsOk(bins, f) && Keys(f) && 1 <= i < NAV
    ensures Node(i, bins[i], k) % 8 == 0
    ensures Node(i, bins[i], k) in f || Node(i, bins[i], k) == Hdr(i)
  {
    assert BinOk(bins, f, i);
    if 0 <= k < |bins[i]| { assert bins[i][k] in bins[i]; }
  }

  // ---------------------------------------------------------------- linking in

  function LinkWrites(m: Words, p: int, bk: int, fd: int): Words {
    m[p + 12 := bk][p + 8 := fd][fd + 12 := p][bk + 8 := p]
  }

  /** p is a chunk that is on no list yet. */
  ghost predicate Fresh(f: map<int, int>, p: int) {
    p !in f && p % 8 == 0 && FIRST <= p
  }

  lemma LinkKeepsOther(m: Words, bins: BinLists, f: map<int, int>, p: int, i: int, k: nat, j: int, l: nat)
    requires BinsOk(bins, f) && Keys(f) && LinksOk(m, bins) && Fresh(f, p)
    requires 1 <= i < NAV && k <= |bins[i]| && 1 <= j < NAV && l <= |bins[j]|
    requires (i, k) != (j, l)
    ensures LinkedAt(LinkWrites(m, p, Node(i, bins[i], k - 1), Node(i, bins[i], k)), j, bins[j], l)
  {
    var s := bins[i];
    var bk, fd := Node(i, s, k - 1), Node(i, s, k);
    var k' := if k == |s| then -1 else k;
    var l' := if l == |bins[j]| then -1 else l;
    assert Linked(m, j, bins[j]);
    assert LinkedAt(m, j, bins[j], l);
    NodesApart(bins, f, i, k', j, l');
    NodesApart(bins, f, j, l', i, k');
    NodesApart(bins, f, i, k - 1, j, l - 1);
    NodesApart(bins, f, j, l - 1, i, k - 1);
    NodeAligned(bins, f, j, l - 1);
    NodeAligned(bins, f, j, l);
    var x, y := Node(j, bins[j], l - 1), Node(j, bins[j], l);
    assert x != p && y != p;
    LinkWrite(m, p, x, bk);
    LinkWrite(m, p, y, bk);
    var m1 := m[p + 12 := bk];
    LinkWrite(m1, p, x, fd);
    LinkWrite(m1, p, y, fd);
    var m2 := m1[p + 8 := fd];
    LinkWrite(m2, fd, x, p);
    LinkWrite(m2, fd, y, p);
    LinkWrite(m2[fd + 12 := p], bk, x, p);
    LinkWrite(m2[fd + 12 := p], bk, y, p);
  }

  lemma LinkJoins(m: Words, p: int, bk: int, fd: int)
    requires p % 8 == 0 && bk % 8 == 0 && fd % 8 == 0 && p != bk && p != fd
    ensures var m' := LinkWrites(m, p, bk, fd);
      Rd(m', bk + 8) == p && Rd(m', p + 12) == bk && Rd(m', p + 8) == fd && Rd(m', fd + 12) == p
  {
  }

  lemma LinkKeepsLinks(m: Words, bins: BinLists, f: map<int, int>, p: int, i: int, k: nat)
    requires BinsOk(bins, f) && Keys(f) && LinksOk(m, bins) && Fresh(f, p)
    requires 1 <= i < NAV && k <= |bins[i]|
    ensures var m' := LinkWrites(m, p, Node(i, bins[i], k - 1), Node(i, bins[i], k));
      && LinksOk(m', bins[i := InsertedAt(bins[i], k, p)])
      && SameExceptLinks(m, m', f.Keys + {p})
  {
    var bk, fd := Node(i, bins[i], k - 1), Node(i, bins[i], k);
    var m', bins' := LinkWrites(m, p, bk, fd), bins[i := InsertedAt(bins[i], k, p)];
    forall j | 1 <= j < NAV ensures Linked(m', j, bins'[j]) {
      hide BinsOk, LinkedAt, LinkWrites;
      forall l | 0 <= l <= |bins'[j]| ensures LinkedAt(m', j, bins'[j], l) {
        if j == i { LinkKeepsOwn(m, bins, f, p, i, k, l); } else { LinkKeepsOther(m, bins, f, p, i, k, j, l); }
      }
    }
    assert SameExceptLinks(m, m', f.Keys + {p}) by {
      NodeAligned(bins, f, i, k - 1);
      NodeAligned(bins, f, i, k);
    }
  }

  lemma InsertedNode(i: int, s: seq<int>, k: nat, p: int, l: int)
    requires k <= |s| && -1 <= l <= |s| + 1
    ensures Node(i, InsertedAt(s, k, p), l) == if l < k then Node(i, s, l) else if l == k then p else Node(i, s, l - 1)
  {
  }

  lemma LinkKeepsOwn(m: Words, bins: BinLists, f: map<int, int>, p: int, i: int, k: nat, l: nat)
    requires BinsOk(bins, f) && Keys(f) && LinksOk(m, bins) && Fresh(f, p)
    requires 1 <= i < NAV == |bins| && k <= |bins[i]| && l <= |bins[i]| + 1
    ensures LinkedAt(LinkWrites(m, p, Node(i, bins[i], k - 1), Node(i, bins[i], k)), i, InsertedAt(bins[i], k, p), l)
  {
    hide BinsOk, LinksOk, Keys, Node, InsertedAt, LinkWrites;
    InsertedNode(i, bins[i], k, p, l - 1);
    InsertedNode(i, bins[i], k, p, l);
    if l < k {
      LinkKeepsOther(m, bins, f, p, i, k, i, l);
    } else if l <= k + 1 {
      NodeAligned(bins, f, i, k - 1);
      NodeAligned(bins, f, i, k);
      LinkJoins(m, p, Node(i, bins[i], k - 1), Node(i, bins[i], k));
    } else {
      LinkKeepsOther(m, bins, f, p, i, k, i, l - 1);
    }
  }

  // ---------------------------------------------------------------- the last remainder

  function RemainderWrites(m: Words, p: int): Words {
    var h := Hdr(LAST_REMAINDER);
    m[h + 8 := p][h + 12 := p][p + 8 := h][p + 12 := h]
  }

  function ClearWrites(m: Words): Words {
    m[Hdr(LAST_REMAINDER) + 8 := Hdr(LAST_REMAINDER)][Hdr(LAST_REMAINDER) + 12 := Hdr(LAST_REMAINDER)]
  }

  lemma ClearKeepsLinks(m: Words, bins: BinLists, f: map<int, int>)
    requires BinsOk(bins, f) && Keys(f) && LinksOk(m, bins)
    ensures LinksOk(ClearWrites(m), bins[LAST_REMAINDER := []])
    ensures SameExceptLinks(m, ClearWrites(m), {})
  {
    var m', bins' := ClearWrites(m), bins[LAST_REMAINDER := []];
    forall j | 1 <= j < NAV ensures Linked(m', j, bins'[j]) {
      forall l | 0 <= l <= |bins'[j]| ensures LinkedAt(m', j, bins'[j], l) {
        if j != LAST_REMAINDER {
          assert Linked(m, j, bins[j]);
          assert LinkedAt(m, j, bins[j], l);
          NodeAligned(bins, f, j, l);
          NodeAligned(bins, f, j, l - 1);
        }
      }
    }
  }

  lemma RemainderKeepsLinks(m: Words, bins: BinLists, f: map<int, int>, p: int)
    requires BinsOk(bins, f) && Keys(f) && LinksOk(m, bins) && Fresh(f, p)
    ensures LinksOk(RemainderWrites(m, p), bins[LAST_REMAINDER := [p]])
    ensures SameExceptLinks(m, RemainderWrites(m, p), f.Keys + {p})
  {
    var m', bins' := RemainderWrites(m, p), bins[LAST_REMAINDER := [p]];
    forall j | 1 <= j < NAV ensures Linked(m', j, bins'[j]) {
      forall l | 0 <= l <= |bins'[j]| ensures LinkedAt(m', j, bins'[j], l) {
        if j != LAST_REMAINDER {
          assert Linked(m, j, bins[j]);
          assert LinkedAt(m, j, bins[j], l);
          NodeAligned(bins, f, j, l);
          NodeAligned(bins, f, j, l - 1);
        }
      }
    }
  }
}
