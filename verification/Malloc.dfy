/** The user heap: malloc, free and realloc over boundary tags, in-memory free lists and a
    block index.  Only `mem`, `top`, `binblocks`, `brk` and `sbrkBase` are read by the code; the
    tiling, the lists and the first chunk's address are kept beside them for specification. */
module Malloc {
  import opened HeapTiling
  import opened Bins
  import opened FreeLists
  import opened HeapState
  import opened HeapSteps
  import opened BlockIndex

  /** The system's side of sbrk: the requests it has refused, for specification only. */
  class System {
    ghost var refused: nat
  }

  class Heap {
    var mem: Words
    var top: int
    var binblocks: nat
    var brk: int
    var sbrkBase: int
    ghost var c: Tiling
    ghost var bins: BinLists
    ghost var base: int
    ghost var blocks: set<int>
    ghost const sys: System

    ghost function St(): State
      reads this
    {
      State(mem, c, bins, blocks, base, top, brk)
    }

    ghost predicate Valid()
      reads this
    {
      Inv(St()) && WordIs(binblocks, blocks) && (top != 0 ==> sbrkBase != -1)
    }

    /** An empty heap above a process image that ends at `start`. */
    constructor (start: int)
      requires FIRST <= start
      ensures Valid() && LiveMap(c) == map[] && brk == start && fresh(sys)
    {
      var m: Words := map[];
      var i := 1;
      while i < NAV
        invariant 1 <= i <= NAV
        invariant forall j :: 1 <= j < i ==> Rd(m, Hdr(j) + 8) == Hdr(j) && Rd(m, Hdr(j) + 12) == Hdr(j)
        invariant forall a :: a in m ==> a < Hdr(i) + 8
      {
        m := m[Hdr(i) + 8 := Hdr(i)][Hdr(i) + 12 := Hdr(i)];
        i := i + 1;
      }
      mem, top, binblocks, brk, sbrkBase := m, 0, 0, start, -1;
      c, base, blocks := map[], 0, {};
      bins := seq(NAV, _ => []);
      sys := new System;
      new;
      ZeroWord();
      forall j | 1 <= j < NAV ensures Linked(mem, j, bins[j]) {
        assert bins[j] == [];
        assert LinkedAt(mem, j, bins[j], 0);
      }
      assert forall j {:trigger BinOk(bins, map[], j)} :: 0 <= j < NAV ==> bins[j] == [];
      assert FreeMap(c) == map[];
    }

    // -------------------------------------------------------------- list macros

    method Unlink(p: int, ghost f: map<int, int>)
      requires BinsOk(bins, f) && Keys(f) && LinksOk(mem, bins) && BlocksOk(bins, blocks) && p in f
      modifies this`mem, this`bins
      ensures bins == Unlinked(old(bins), p)
      ensures BinsOk(bins, f - {p}) && LinksOk(mem, bins) && BlocksOk(bins, blocks)
      ensures SameExceptLinks(old(mem), mem, f.Keys - {p})
    {
      ghost var i, k := Where(bins, f, p);
      assert Linked(mem, i, bins[i]) && LinkedAt(mem, i, bins[i], k) && LinkedAt(mem, i, bins[i], k + 1);
      var bk := Rd(mem, p + 12);
      var fd := Rd(mem, p + 8);
      UnlinkKeepsLinks(mem, bins, f, i, k);
      UnlinkTouchesLinks(mem, bins, f, i, k);
      UnlinkedOk(bins, f, p);
      UnlinkedBlocks(bins, blocks, p);
      mem := mem[fd + 12 := bk];
      mem := mem[bk + 8 := fd];
      bins := Unlinked(bins, p);
    }

    method MarkBinblock(idx: nat, ghost s: seq<int>)
      requires BlocksOk(bins, blocks) && WordIs(binblocks, blocks) && 2 <= idx < NAV
      modifies this`binblocks, this`blocks
      ensures BlocksOk(bins[idx := s], blocks) && WordIs(binblocks, blocks)
    {
      binblocks := Mark(binblocks, idx / BINBLOCKWIDTH, blocks);
      blocks := blocks + {idx / BINBLOCKWIDTH};
    }

    /** Walks a large bin past the chunks that are larger than sz. */
    method FrontSlot(idx: nat, sz: nat, ghost f: map<int, int>) returns (fd: int, ghost k: nat)
      requires BinsOk(bins, f) && Keys(f) && LinksOk(mem, bins) && SizesOk(mem, f) && 1 <= idx < NAV
      ensures k <= |bins[idx]| && k == FrontPos(bins[idx], f, sz) && fd == Node(idx, bins[idx], k)
    {
      ghost var s := bins[idx];
      assert BinOk(bins, f, idx) && Linked(mem, idx, s);
      assert forall j :: 0 <= j < |s| ==> s[j] in s;
      assert LinkedAt(mem, idx, s, 0);
      fd, k := Rd(mem, Hdr(idx) + 8), 0;
      while fd != Hdr(idx) && sz < SizeOf(Rd(mem, fd + 4))
        invariant k <= |s| && fd == Node(idx, s, k)
        invariant forall j :: 0 <= j < k ==> f[s[j]] > sz
        decreases |s| - k
      {
        assert k < |s| && s[k] in f;
        assert LinkedAt(mem, idx, s, k + 1);
        fd := Rd(mem, fd + 8);
        k := k + 1;
      }
      if k < |s| { NodesApart(bins, f, idx, k, idx, -1); }
      FrontPosIs(s, f, sz, k);
    }

    /** Where p goes, in the order of the C code: small bins take it at the front. */
    method FrontEnds(p: int, idx: nat, sz: nat, ghost f: map<int, int>) returns (bk: int, fd: int, ghost k: nat)
      requires BinsOk(bins, f) && Keys(f) && LinksOk(mem, bins) && BlocksOk(bins, blocks) && WordIs(binblocks, blocks)
      requires MINSIZE <= sz && sz % 8 == 0 && SizesOk(mem, f) && idx == BinIndex(sz)
      modifies this`binblocks, this`blocks
      ensures k == FrontPos(bins[idx], f, sz)
      ensures bk == Node(idx, bins[idx], k - 1) && fd == Node(idx, bins[idx], k)
      ensures BlocksOk(bins[idx := InsertedAt(bins[idx], k, p)], blocks)
      ensures WordIs(binblocks, blocks)
    {
      ghost var s := bins[idx];
      assert BinOk(bins, f, idx) && Linked(mem, idx, s);
      assert |s| > 0 ==> s[0] in s && Placed(bins, f, s[0]);
      assert LinkedAt(mem, idx, s, 0);
      hide BinsOk, BlocksOk, WordIs;
      bk, k := Hdr(idx), 0;
      fd := Rd(mem, bk + 8);
      if sz < MAX_SMALLBIN_SIZE {
        if |s| > 0 { OwnBin(sz, f[s[0]]); }
        MarkBinblock(idx, InsertedAt(s, 0, p));
      } else if fd == bk {
        if |s| > 0 { NodesApart(bins, f, idx, 0, idx, -1); assert false; }
        MarkBinblock(idx, InsertedAt(s, 0, p));
      } else {
        fd, k := FrontSlot(idx, sz, f);
        assert LinkedAt(mem, idx, s, k);
        bk := Rd(mem, fd + 12);
        BlocksGrow(bins, blocks, idx, InsertedAt(s, k, p));
      }
    }

    /** Places p in the bin of its size, behind the larger chunks and ahead of the others. */
    method Frontlink(p: int, sz: nat, ghost f: map<int, int>)
      requires BinsOk(bins, f) && Keys(f) && LinksOk(mem, bins) && BlocksOk(bins, blocks) && WordIs(binblocks, blocks)
      requires Fresh(f, p) && MINSIZE <= sz && sz % 8 == 0 && SizesOk(mem, f)
      modifies this`mem, this`bins, this`binblocks, this`blocks
      ensures var b := BinIndex(sz); bins == old(bins)[b := InsertedAt(old(bins)[b], FrontPos(old(bins)[b], f, sz), p)]
      ensures BinsOk(bins, f[p := sz]) && LinksOk(mem, bins) && BlocksOk(bins, blocks)
      ensures SameExceptLinks(old(mem), mem, f.Keys + {p})
      ensures WordIs(binblocks, blocks)
    {
      var idx := BinIndex(sz);
      var bk, fd;
      ghost var k;
      bk, fd, k := FrontEnds(p, idx, sz, f);
      LinkKeepsLinks(mem, bins, f, p, idx, k);
      assert BinOk(bins, f, idx);
      FrontPosOk(bins[idx], f, sz);
      FrontlinkedOk(bins, f, p, sz, k);
      hide BinsOk, LinksOk, BlocksOk, WordIs, SameExceptLinks, BinOk, Node, FrontPos, SizesOk, LinkWrites, InsertedAt;
      WriteLinks(p, bk, fd);
      bins := bins[idx := InsertedAt(bins[idx], k, p)];
    }

    method WriteLinks(p: int, bk: int, fd: int)
      modifies this`mem
      ensures mem == LinkWrites(old(mem), p, bk, fd)
    {
      mem := mem[p + 12 := bk];
      mem := mem[p + 8 := fd];
      mem := mem[fd + 12 := p];
      mem := mem[bk + 8 := p];
    }

    /** Makes p the last remainder in place of whatever was. */
    method LinkLastRemainder(p: int, ghost f: map<int, int>)
      requires BinsOk(bins, f) && Keys(f) && LinksOk(mem, bins) && BlocksOk(bins, blocks) && Fresh(f, p)
      modifies this`mem, this`bins
      ensures bins == old(bins)[LAST_REMAINDER := [p]]
      ensures LinksOk(mem, bins) && BlocksOk(bins, blocks)
      ensures SameExceptLinks(old(mem), mem, f.Keys + {p})
    {
      RemainderKeepsLinks(mem, bins, f, p);
      mem := mem[Hdr(LAST_REMAINDER) + 8 := p][Hdr(LAST_REMAINDER) + 12 := p];
      mem := mem[p + 8 := Hdr(LAST_REMAINDER)][p + 12 := Hdr(LAST_REMAINDER)];
      bins := bins[LAST_REMAINDER := [p]];
    }

    method ClearLastRemainder(ghost f: map<int, int>)
      requires BinsOk(bins, f) && Keys(f) && LinksOk(mem, bins) && BlocksOk(bins, blocks)
      modifies this`mem, this`bins
      ensures bins == old(bins)[LAST_REMAINDER := []]
      ensures LinksOk(mem, bins) && BlocksOk(bins, blocks)
      ensures SameExceptLinks(old(mem), mem, {})
    {
      ClearKeepsLinks(mem, bins, f);
      mem := mem[Hdr(LAST_REMAINDER) + 8 := Hdr(LAST_REMAINDER)][Hdr(LAST_REMAINDER) + 12 := Hdr(LAST_REMAINDER)];
      bins := bins[LAST_REMAINDER := []];
    }

    // -------------------------------------------------------------- free

    /** The block joins top, together with a free chunk before it. */
    method FreeIntoTop(p0: int)
      requires Valid() && p0 in LiveMap(c) && p0 + LiveMap(c)[p0] == top
      modifies this
      ensures Valid() && brk == old(brk)
      ensures LiveMap(c) == old(LiveMap(c)) - {p0}
      ensures Kept(old(mem), mem, LiveMap(c))
    {
      hide Tiled, Fused, Tags, BinsOk, LinksOk, BlocksOk, WordIs;
      ghost var s0 := St();
      StepToTop(s0, p0);
      var p, hd := p0, Rd(mem, p0 + 4);
      var sz := ClearBit(hd) + SizeOf(Rd(mem, top + 4));
      if !PrevInUse(hd) {
        var prevsz := Rd(mem, p);
        p := p - prevsz;
        sz := sz + prevsz;
        Unlink(p, FreeMap(s0.c));
      }
      FreedIntoTop(s0, mem, bins, p0, p);
      mem := mem[p + 4 := sz + 1];
      top := p;
      c := RecutTop(c, p, brk);
    }

    /** Takes a free chunk off its bin, but leaves it alone when it is the last remainder. */
    method DetachPrev(p: int, ghost f: map<int, int>) returns (islr: bool)
      requires BinsOk(bins, f) && Keys(f) && LinksOk(mem, bins) && BlocksOk(bins, blocks) && p in f
      modifies this`mem, this`bins
      ensures LinksOk(mem, bins) && BlocksOk(bins, blocks) && SameExceptLinks(old(mem), mem, f.Keys)
      ensures islr ==> bins == old(bins) && bins[LAST_REMAINDER] == [p]
      ensures !islr ==> BinsOk(bins, f - {p}) && p !in old(bins)[LAST_REMAINDER]
    {
      RemainderTest(mem, bins, f, p);
      islr := Rd(mem, p + 8) == Hdr(LAST_REMAINDER);
      if !islr { Unlink(p, f); }
    }

    /** Takes the free chunk `next` off its list; if it is the last remainder, p takes its place. */
    method DetachNext(p: int, next: int, islr0: bool, ghost f: map<int, int>) returns (islr: bool)
      requires BinsOk(bins, f) && Keys(f) && LinksOk(mem, bins) && BlocksOk(bins, blocks) && next in f
      requires if islr0 then bins[LAST_REMAINDER] == [p] && p != next else Fresh(f, p)
      modifies this`mem, this`bins
      ensures LinksOk(mem, bins) && BlocksOk(bins, blocks) && SameExceptLinks(old(mem), mem, f.Keys + {p})
      ensures islr ==> bins[LAST_REMAINDER] == [p] && BinsOk(bins, (f - {next})[p := MINSIZE])
      ensures !islr ==> BinsOk(bins, f - {next})
      ensures islr <==> islr0 || next in old(bins)[LAST_REMAINDER]
    {
      RemainderTest(mem, bins, f, next);
      islr := islr0;
      if !islr && Rd(mem, next + 8) == Hdr(LAST_REMAINDER) {
        islr := true;
        RemainderMoved(bins, f, next, p, MINSIZE);
        LinkLastRemainder(p, f);
      } else {
        if islr {
          assert BinOk(bins, f, LAST_REMAINDER);
          assert p in bins[LAST_REMAINDER];
        }
        RemoveAbsent(bins[LAST_REMAINDER], next);
        Unlink(next, f);
        if islr { RemainderResized(bins, f - {next}, p, MINSIZE); }
      }
    }

    /** Steps back over a free chunk before block p0. */
    method JoinPrev(p0: int, next: int, nextsz: int, ghost s: State) returns (p: int, sz: int, islr: bool)
      requires Inv(s) && p0 in LiveMap(s.c) && next == p0 + LiveMap(s.c)[p0] != s.top
      requires next in s.c && nextsz == s.c[next].size
      requires mem == s.m[next + 4 := nextsz] && bins == s.bins && blocks == s.w && LinksOk(mem, bins)
      modifies this`mem, this`bins
      ensures p == Start(s, p0) && p + sz == next
      ensures LinksOk(mem, bins) && BlocksOk(bins, blocks)
      ensures Frame(s.m, mem, s.c, p, End(s, p0))
      ensures Rd(mem, next + 4) == nextsz && Rd(mem, next + nextsz + 4) == Rd(s.m, next + nextsz + 4)
      ensures islr ==> bins[LAST_REMAINDER] == [p] && BinsOk(bins, FreeMap(s.c))
      ensures !islr ==> BinsOk(bins, FreeMap(s.c) - {p})
    {
      hide Tiled, Fused, Tags, BinsOk, LinksOk, BlocksOk, WordIs;
      StepToBin(s, p0);
      FreedSpace(s, p0);
      NotLink(s, next);
      NotLink(s, next + nextsz);
      Neighbours(s, next);
      var hd := Rd(mem, p0 + 4);
      sz := ClearBit(hd);
      p, islr := p0, false;
      FrameWrite(s.m, s.m, s.c, Start(s, p0), End(s, p0), next + 4, nextsz);
      if !PrevInUse(hd) {
        var prevsz := Rd(mem, p);
        p := p - prevsz;
        sz := sz + prevsz;
        ghost var m1 := mem;
        islr := DetachPrev(p, FreeMap(s.c));
        FrameLinks(s.m, m1, mem, s.c, Start(s, p0), End(s, p0), FreeMap(s.c).Keys);
      }
    }

    /** Takes the free neighbours of block p0 off their lists, all but a last remainder before it. */
    method Consolidate(p0: int, next: int, nextsz: int, ghost s: State) returns (p: int, sz: int, islr: bool)
      requires Inv(s) && p0 in LiveMap(s.c) && next == p0 + LiveMap(s.c)[p0] != s.top
      requires next in s.c && nextsz == s.c[next].size
      requires mem == s.m[next + 4 := nextsz] && bins == s.bins && blocks == s.w && LinksOk(mem, bins)
      modifies this`mem, this`bins
      ensures p == Start(s, p0) && p + sz == End(s, p0) && p + sz in s.c
      ensures LinksOk(mem, bins) && BlocksOk(bins, blocks)
      ensures Frame(s.m, mem, s.c, p, p + sz)
      ensures Rd(mem, p + sz + 4) == s.c[p + sz].size
      ensures islr ==> bins[LAST_REMAINDER] == [p] && BinsOk(bins, Rest(s, p0)[p := MINSIZE])
      ensures !islr ==> BinsOk(bins, Rest(s, p0))
    {
      hide Inv, Arena, BinsOk, BlocksOk, LinksOk, WordIs, Frame, Rest, Start, End;
      StepToBin(s, p0);
      FreedSpace(s, p0);
      NextFree(s, p0);
      p, sz, islr := JoinPrev(p0, next, nextsz, s);
      ghost var f := if islr then FreeMap(s.c) else FreeMap(s.c) - {p};
      RestMaps(s, p0, f, islr);
      if !PrevInUse(Rd(mem, next + nextsz + 4)) {
        sz := sz + nextsz;
        ghost var m1 := mem;
        islr := DetachNext(p, next, islr, f);
        NotLink(s, next + nextsz);
        FrameLinks(s.m, m1, mem, s.c, p, p + sz, f.Keys + {p});
      } else {
        if islr { RemainderResized(bins, f, p, MINSIZE); }
      }
    }

    /** Puts the merged chunk into its bin, unless it has the place of the last remainder. */
    method PlaceFreed(p: int, sz: nat, islr: bool, ghost s: State, ghost p0: int)
      requires Inv(s) && p0 in LiveMap(s.c) && p0 + LiveMap(s.c)[p0] != s.top
      requires p == Start(s, p0) && p + sz == End(s, p0) && MINSIZE <= sz && sz % 8 == 0
      requires FreedMem(s, p0, mem) && LinksOk(mem, bins) && BlocksOk(bins, blocks) && WordIs(binblocks, blocks)
      requires Keys(Rest(s, p0)) && Fresh(Rest(s, p0), p) && SizesOk(mem, Rest(s, p0))
      requires islr ==> bins[LAST_REMAINDER] == [p] && BinsOk(bins, Rest(s, p0)[p := MINSIZE])
      requires !islr ==> BinsOk(bins, Rest(s, p0))
      modifies this`mem, this`bins, this`binblocks, this`blocks
      ensures FreedMem(s, p0, mem) && LinksOk(mem, bins) && BlocksOk(bins, blocks)
      ensures BinsOk(bins, Rest(s, p0)[p := sz])
      ensures WordIs(binblocks, blocks)
    {
      ghost var m := mem;
      if islr {
        RemainderResized(bins, Rest(s, p0)[p := MINSIZE], p, sz);
        assert Rest(s, p0)[p := MINSIZE][p := sz] == Rest(s, p0)[p := sz];
      } else {
        Frontlink(p, sz, Rest(s, p0));
        FreedLinks(s, p0, m, mem);
      }
    }

    /** Records in the chunk after p0 that p0 is no longer in use. */
    method ClearInUse(p0: int) returns (next: int, nextsz: int)
      requires Valid() && p0 in LiveMap(c) && p0 + LiveMap(c)[p0] != top
      modifies this`mem
      ensures next == p0 + LiveMap(c)[p0] && next in c && nextsz == c[next].size
      ensures mem == old(mem)[next + 4 := nextsz] && LinksOk(mem, bins)
    {
      ghost var s := St();
      StepToBin(s, p0);
      next := p0 + ClearBit(Rd(mem, p0 + 4));
      nextsz := SizeOf(Rd(mem, next + 4));
      TagWrite(s, next, bins, FreeMap(c), mem, next + 4, nextsz);
      mem := mem[next + 4 := nextsz];
    }

    /** Writes the head and foot of the merged chunk. */
    method WriteFreed(p: int, sz: int, ghost s: State, ghost p0: int, ghost g: map<int, int>)
      requires Inv(s) && p0 in LiveMap(s.c) && p0 + LiveMap(s.c)[p0] != s.top
      requires p == Start(s, p0) && p + sz == End(s, p0) && p + sz in s.c
      requires Frame(s.m, mem, s.c, p, p + sz) && Rd(mem, p + sz + 4) == s.c[p + sz].size
      requires BinsOk(bins, g) && LinksOk(mem, bins) && g.Keys <= Rest(s, p0).Keys + {p}
      modifies this`mem
      ensures FreedMem(s, p0, mem) && LinksOk(mem, bins)
      ensures Keys(Rest(s, p0)) && Fresh(Rest(s, p0), p) && SizesOk(mem, Rest(s, p0))
    {
      FreedTags(s, p0, mem, bins, g);
      mem := mem[p + 4 := sz + 1];
      mem := mem[p + sz := sz];
    }

    /** Merges block p0 with its free neighbours and writes the tags of the merged chunk. */
    method Merge(p0: int) returns (p: int, sz: int, islr: bool)
      requires Valid() && p0 in LiveMap(c) && p0 + LiveMap(c)[p0] != top
      modifies this`mem, this`bins
      ensures var s := old(St());
        && p == Start(s, p0) && p + sz == End(s, p0) && MINSIZE <= sz && sz % 8 == 0
        && FreedMem(s, p0, mem) && LinksOk(mem, bins) && BlocksOk(bins, blocks)
        && Keys(Rest(s, p0)) && Fresh(Rest(s, p0), p) && SizesOk(mem, Rest(s, p0))
        && (islr ==> bins[LAST_REMAINDER] == [p] && BinsOk(bins, Rest(s, p0)[p := MINSIZE]))
        && (!islr ==> BinsOk(bins, Rest(s, p0)))
    {
      hide Tiled, Fused, Tags, BinsOk, LinksOk, BlocksOk, WordIs;
      ghost var s := St();
      FreedSpace(s, p0);
      var next, nextsz := ClearInUse(p0);
      p, sz, islr := Consolidate(p0, next, nextsz, s);
      WriteFreed(p, sz, s, p0, if islr then Rest(s, p0)[p := MINSIZE] else Rest(s, p0));
    }

    /** The block joins its free neighbours; the result keeps the place of the last remainder if
        that was one of them, and otherwise goes into the bin of its size. */
    method FreeIntoBin(p0: int)
      requires Valid() && p0 in LiveMap(c) && p0 + LiveMap(c)[p0] != top
      modifies this
      ensures Valid() && brk == old(brk)
      ensures LiveMap(c) == old(LiveMap(c)) - {p0}
      ensures Kept(old(mem), mem, LiveMap(c))
    {
      hide Inv, Arena, BinsOk, LinksOk, BlocksOk, WordIs, Kept, LiveMap, Recut1;
      ghost var s := St();
      FreedSpace(s, p0);
      var p, sz, islr := Merge(p0);
      PlaceFreed(p, sz, islr, s, p0);
      c := Recut1(c, p, p + sz, Kind.Free);
      FreedIntoBin(s, St(), p0);
    }

    method Free(mp: int)
      requires Valid() && (mp == 0 || mp - 8 in LiveMap(c))
      modifies this
      ensures Valid() && brk == old(brk)
      ensures mp == 0 ==> St() == old(St())
      ensures mp != 0 ==> LiveMap(c) == old(LiveMap(c)) - {mp - 8}
      ensures Kept(old(mem), mem, LiveMap(c))
    {
      if mp == 0 { return; }
      var p := mp - 8;
      BlockSize(St(), p);
      if p + ClearBit(Rd(mem, p + 4)) == top {
        FreeIntoTop(p);
      } else {
        FreeIntoBin(p);
      }
    }

    // -------------------------------------------------------------- malloc

    /** Marks a chunk that is off its list as in use. */
    method MarkTaken(v: int, vs: int, ghost s: State)
      requires Inv(s) && v in FreeMap(s.c) && vs == FreeMap(s.c)[v]
      requires s == State(s.m, c, s.bins, blocks, base, top, brk)
      requires SameExceptLinks(s.m, mem, FreeMap(s.c).Keys - {v}) && LinksOk(mem, bins) && BlocksOk(bins, blocks)
      requires BinsOk(bins, FreeMap(s.c) - {v})
      modifies this`mem, this`c
      ensures Inv(St()) && LiveMap(c) == LiveMap(s.c)[v := vs] && Kept(s.m, mem, LiveMap(s.c))
    {
      hide Tiled, Fused, Tags, BinsOk, LinksOk, BlocksOk, WordIs;
      FreeChunk(s, v);
      TookWhole(s, mem, bins, v);
      var word := SetBit(Rd(mem, v + vs + 4));
      assert word == s.c[v + vs].size + 1;
      mem := mem[v + vs + 4 := word];
      c := Recut1(c, v, v + vs, Used);
    }

    /** Takes a free chunk whole. */
    method TakeWhole(v: int, vs: int)
      requires Valid() && v in FreeMap(c) && vs == FreeMap(c)[v]
      modifies this
      ensures Valid() && top == old(top) && brk == old(brk)
      ensures LiveMap(c) == old(LiveMap(c))[v := vs] && Kept(old(mem), mem, old(LiveMap(c)))
    {
      ghost var s := St();
      FreeChunk(s, v);
      Unlink(v, FreeMap(c));
      MarkTaken(v, vs, s);
    }

    /** Writes the tags of the rest of a split chunk. */
    method FinishSplit(v: int, nb: int, rem: int, rs: int, ghost s: State)
      requires Inv(s) && v in FreeMap(s.c) && rem == v + nb && rs == FreeMap(s.c)[v] - nb
      requires MINSIZE <= nb && nb % 8 == 0 && MINSIZE <= rs
      requires s == State(s.m, c, s.bins, s.w, base, top, brk)
      requires Frame(s.m, mem, s.c, v, rem + rs) && Rd(mem, v + 4) == nb + 1
        && Rd(mem, rem + rs + 4) == Rd(s.m, rem + rs + 4)
      requires BinsOk(bins, (FreeMap(s.c) - {v})[rem := rs]) && LinksOk(mem, bins) && BlocksOk(bins, blocks)
      modifies this`mem, this`c
      ensures Inv(St()) && LiveMap(c) == LiveMap(s.c)[v := nb] && Kept(s.m, mem, LiveMap(s.c))
    {
      hide Inv, Arena, BinsOk, LinksOk, BlocksOk, WordIs, Frame, Kept, LiveMap, Recut2;
      FreeChunk(s, v);
      ghost var g := (FreeMap(s.c) - {v})[rem := rs];
      assert Keys(g);
      SplitWrite(s, v, rem, bins, g, mem, rem + 4, rs + 1);
      FrameWrite(s.m, mem, s.c, v, rem + rs, rem + 4, rs + 1);
      mem := mem[rem + 4 := rs + 1];
      SplitWrite(s, v, rem, bins, g, mem, rem + rs, rs);
      FrameWrite(s.m, mem, s.c, v, rem + rs, rem + rs, rs);
      mem := mem[rem + rs := rs];
      c := Recut2(c, v, rem, rem + rs, Used, Kind.Free);
      SplitDone(s, St(), v, rem);
    }

    /** Shortens a binned chunk to nb bytes and takes it off its list. */
    method CutBinned(v: int, vs: int, nb: int, ghost rem: int)
      requires Valid() && v in FreeMap(c) && vs == FreeMap(c)[v] && rem == v + nb
      requires MINSIZE <= nb && nb % 8 == 0 && nb + MINSIZE <= vs
      modifies this`mem, this`bins
      ensures bins == Unlinked(old(bins), v)
      ensures BinsOk(bins, FreeMap(c) - {v}) && LinksOk(mem, bins) && BlocksOk(bins, blocks)
      ensures Frame(old(mem), mem, c, v, v + vs) && Rd(mem, v + 4) == nb + 1
        && Rd(mem, v + vs + 4) == old(Rd(mem, v + vs + 4))
    {
      hide Tiled, Fused, Tags, BinsOk, LinksOk, BlocksOk, WordIs;
      ghost var s := St();
      ghost var f := FreeMap(c);
      FreeChunk(s, v);
      SplitPoint(s, v, rem);
      TagWrite(s, v, bins, f, mem, v + 4, nb + 1);
      FrameWrite(s.m, s.m, s.c, v, v + vs, v + 4, nb + 1);
      mem := mem[v + 4 := nb + 1];
      ghost var m1 := mem;
      Unlink(v, f);
      FrameLinks(s.m, m1, mem, s.c, v, v + vs, f.Keys - {v});
    }

    /** Splits a binned chunk; the rest becomes the last remainder. */
    method SplitBinned(v: int, vs: int, nb: int)
      requires Valid() && v in FreeMap(c) && vs == FreeMap(c)[v] && bins[LAST_REMAINDER] == []
      requires MINSIZE <= nb && nb % 8 == 0 && nb + MINSIZE <= vs
      modifies this
      ensures Valid() && top == old(top) && brk == old(brk)
      ensures LiveMap(c) == old(LiveMap(c))[v := nb] && Kept(old(mem), mem, old(LiveMap(c)))
      ensures bins[LAST_REMAINDER] == [v + nb]
    {
      hide Inv, Arena, BinsOk, LinksOk, BlocksOk, WordIs, Frame, SameExceptLinks, Kept, LiveMap;
      ghost var s := St();
      ghost var f := FreeMap(c) - {v};
      FreeChunk(s, v);
      BinCount(s);
      var rem, rs := v + nb, vs - nb;
      SplitPoint(s, v, rem);
      CutBinned(v, vs, nb, rem);
      ghost var m1 := mem;
      RemainderLinkedOk(bins, f, rem, rs);
      LinkLastRemainder(rem, f);
      RemainderFramed(s, v, rem, m1, mem);
      FinishSplit(v, nb, rem, rs, s);
    }

    /** Splits the last remainder; the rest is the new last remainder. */
    method Resplit(v: int, vs: int, nb: int)
      requires Valid() && v in FreeMap(c) && vs == FreeMap(c)[v] && bins[LAST_REMAINDER] == [v]
      requires MINSIZE <= nb && nb % 8 == 0 && nb + MINSIZE <= vs
      modifies this
      ensures Valid() && top == old(top) && brk == old(brk)
      ensures LiveMap(c) == old(LiveMap(c))[v := nb] && Kept(old(mem), mem, old(LiveMap(c)))
      ensures bins[LAST_REMAINDER] == [v + nb]
    {
      hide Tiled, Fused, Tags, BinsOk, BlocksOk, WordIs;
      ghost var s := St();
      ghost var f := FreeMap(c);
      FreeChunk(s, v);
      var rem, rs := v + nb, vs - nb;
      SplitPoint(s, v, rem);
      assert BinsOk(bins, f) && LinksOk(mem, bins);
      hide Inv, Arena, LinksOk, Frame, SameExceptLinks, Kept;
      TagWrite(s, v, bins, f, mem, v + 4, nb + 1);
      FrameWrite(s.m, s.m, s.c, v, v + vs, v + 4, nb + 1);
      mem := mem[v + 4 := nb + 1];
      ghost var m1 := mem;
      RemainderMoved(bins, f, v, rem, rs);
      LinkLastRemainder(rem, f);
      FrameLinks(s.m, m1, mem, s.c, v, v + vs, f.Keys + {rem});
      FinishSplit(v, nb, rem, rs, s);
    }

    /** Memory from the system, contiguous with what came before; the system may refuse. */
    method Sbrk(size: int) returns (a: int)
      requires FIRST <= brk && 0 <= size
      modifies this`brk, sys
      ensures sys.refused == old(sys.refused) + if a == 0 then 1 else 0
      ensures if a == 0 then brk == old(brk) else a == old(brk) && brk == old(brk) + size
    {
      if * {
        a, sys.refused := 0, sys.refused + 1;
      } else {
        a, brk := brk, brk + size;
      }
    }

    function TopSize(): int
      reads this
    {
      if top == 0 then 0 else SizeOf(Rd(mem, top + 4))
    }

    /** New memory that follows the old: top grows in place. */
    method GrowTop(topSize: int, size: int, ghost s: State)
      requires Inv(s) && s.top != 0 && s == State(mem, c, bins, blocks, base, top, s.end) && topSize == TopSize()
      requires 0 <= size && size % PAGE == 0 && brk == s.end + size
      modifies this`mem, this`c
      ensures Inv(St()) && LiveMap(c) == LiveMap(s.c) && FreeMap(c) == FreeMap(s.c) && Kept(s.m, mem, LiveMap(c))
      ensures TopSize() == topSize + size
    {
      GrownTopWord(s, size);
      TopExtended(s, size);
      hide Inv, SizeOf;
      mem := mem[top + 4 := topSize + size + 1];
      c := RecutTop(c, top, brk);
      assert Rd(mem, top + 4) == topSize + size + 1;
    }

    /** The first memory obtained: align its start, and ask for more up to a page boundary. */
    method StartTop(a: int, size: int, ghost s: State)
      requires Inv(s) && s.top == 0 && s == State(mem, c, bins, blocks, base, top, a)
      requires MINSIZE <= size && size % 8 == 0 && brk == a + size
      modifies this`mem, this`c, this`top, this`base, this`brk, this`sbrkBase, sys
      ensures sys.refused >= old(sys.refused) && (top == 0 ==> sys.refused > old(sys.refused))
      ensures Inv(St()) && (top != 0 ==> sbrkBase != -1) && bins == s.bins && brk >= s.end
      ensures LiveMap(c) == LiveMap(s.c) == map[] && FreeMap(c) == FreeMap(s.c)
      ensures top == 0 || size <= TopSize()
    {
      hide Tiled, Fused, Tags, BinsOk, LinksOk, BlocksOk, WordIs;
      if sbrkBase == -1 { sbrkBase := a; }
      var misalign := (a + 8) % 8;
      var correction := if misalign > 0 then 8 - misalign else 0;
      FirstTopEnd(a, size, correction);
      var first := a + correction;
      correction := correction + (PAGE - (first + size) % PAGE);
      var a2 := Sbrk(correction);
      if a2 == 0 { return; }
      InstallTop(first, a2 - first + correction, s);
    }

    /** Makes all the memory from an address on the top chunk. */
    method InstallTop(first: int, topSize: int, ghost s: State)
      requires Inv(s) && s.top == 0 && s == State(mem, c, bins, blocks, base, top, s.end)
      requires s.end <= first && first % 8 == 0 && brk % PAGE == 0 && MINSIZE <= topSize == brk - first
      modifies this`mem, this`c, this`top, this`base
      ensures Inv(St()) && top == first && TopSize() == topSize
      ensures LiveMap(c) == LiveMap(s.c) == map[] && FreeMap(c) == FreeMap(s.c)
    {
      hide Tiled, Fused, Tags, BinsOk, LinksOk, BlocksOk, WordIs;
      top := first;
      FirstTop(s, first, brk);
      mem := mem[first + 4 := topSize + 1];
      c, base := map[first := Chunk(topSize, Top, 0)], first;
      PageAligned(brk);
      AlignedDiff(brk, first);
      WordParts(topSize, 1);
    }

    /** Extends top by enough for nb bytes and a remainder; only a refusal of the system leaves it
        as it is. */
    method ExtendTop(nb: int)
      requires Valid() && MINSIZE <= nb && nb % 8 == 0
      modifies this, sys
      ensures sys.refused >= old(sys.refused)
      ensures sys.refused == old(sys.refused) ==> top != 0 && nb + MINSIZE <= TopSize()
      ensures Valid() && LiveMap(c) == old(LiveMap(c)) && FreeMap(c) == old(FreeMap(c))
        && Kept(old(mem), mem, LiveMap(c))
      ensures bins == old(bins) && old(brk) <= brk
      ensures top == old(top) || old(top) == 0
      ensures (top == old(top) && TopSize() == old(TopSize())) || (top != 0 && nb + MINSIZE <= TopSize())
    {
      hide Tiled, Fused, Tags, BinsOk, LinksOk, BlocksOk, WordIs;
      ghost var s := St();
      var size := nb + MINSIZE;
      if sbrkBase != -1 {
        PageRounded(size);
        size := PageRound(size);
        PageAligned(size);
      }
      var topSize := TopSize();
      if top != 0 { TopExtended(s, size); }
      var oldEnd := top + topSize;
      var a := Sbrk(size);
      if a == 0 || (a < oldEnd && top != 0) { return; }
      if a == oldEnd {
        GrowTop(topSize, size, s);
      } else {
        StartTop(a, size, s);
      }
    }

    /** Splits off the front of top, extending it first if it is too small. */
    method UseTop(nb: int) returns (r: int)
      requires Valid() && MINSIZE <= nb && nb % 8 == 0
      modifies this, sys
      ensures sys.refused >= old(sys.refused)
      ensures r == 0 ==> old(TopSize()) < nb + MINSIZE && sys.refused > old(sys.refused)
      ensures nb + MINSIZE <= old(TopSize()) ==> brk == old(brk) && sys.refused == old(sys.refused)
      ensures r != 0 && old(top) != 0 ==> r - 8 == old(top)
      ensures Valid() && Kept(old(mem), mem, old(LiveMap(c)))
      ensures r == 0 ==> LiveMap(c) == old(LiveMap(c))
      ensures r != 0 ==>
        LiveMap(c) == old(LiveMap(c))[r - 8 := nb] && r - 8 !in old(LiveMap(c)) && r - 8 !in old(FreeMap(c))
    {
      ghost var m0 := mem;
      if TopSize() - nb < MINSIZE {
        ExtendTop(nb);
        if TopSize() - nb < MINSIZE { return 0; }
      }
      r := SplitTop(nb);
      KeptTrans(old(mem), m0, mem, old(LiveMap(c)));
    }

    method SplitTop(nb: int) returns (r: int)
      requires Valid() && MINSIZE <= nb && nb % 8 == 0 && nb + MINSIZE <= TopSize()
      modifies this
      ensures Valid() && Kept(old(mem), mem, old(LiveMap(c))) && r == old(top) + 8 && brk == old(brk)
      ensures LiveMap(c) == old(LiveMap(c))[r - 8 := nb] && r - 8 !in old(LiveMap(c)) && r - 8 !in old(FreeMap(c))
    {
      hide Inv, WordIs, SizeOf, LiveMap, FreeMap, Kept, RecutUsedTop;
      ghost var s := St();
      TopWord(s);
      TopDone(s, nb);
      r := top + 8;
      TopWrites(top, TopSize() - nb, nb);
    }

    method TopWrites(v: int, rs: int, nb: int)
      requires v in c
      modifies this`mem, this`c, this`top
      ensures mem == old(mem)[v + 4 := nb + 1][v + nb + 4 := rs + 1]
      ensures top == v + nb && c == RecutUsedTop(old(c), v, top, brk)
    {
      mem := mem[v + 4 := nb + 1];
      top := v + nb;
      mem := mem[top + 4 := rs + 1];
      c := RecutUsedTop(c, v, top, brk);
    }

    /** Hands out a binned chunk that leaves no remainder. */
    method TakeFit(v: int, vs: int, nb: int)
      requires Valid() && v in FreeMap(c) && vs == FreeMap(c)[v] && nb <= vs < nb + MINSIZE
      modifies this
      ensures Valid() && Alloc(old(St()), St(), v, nb) && top == old(top) && brk == old(brk)
    {
      FreeChunk(St(), v);
      TakeWhole(v, vs);
    }

    /** The last chunk of a small request's own bin, or of the next one, or the header it stopped at. */
    method SmallVictim(nb: int) returns (q: int, victim: int)
      requires Valid() && nb % 8 == 0 && MINSIZE <= nb < MAX_SMALLBIN_SIZE - SMALLBIN_WIDTH
      ensures victim == q ==> ScanFrom(St(), nb, nb / 8 + 2)
      ensures victim != q ==>
        && victim in FreeMap(c) && victim !in bins[LAST_REMAINDER] && BestFit(St(), nb, victim)
        && SizeOf(Rd(mem, victim + 4)) == FreeMap(c)[victim] < nb + MINSIZE
    {
      ghost var s := St();
      var idx := nb / 8;
      q := Hdr(idx);
      SmallFound(s, nb);
      victim := Rd(mem, q + 12);
      if victim == q {
        q := q + 8;
        victim := Rd(mem, q + 12);
      }
    }

    /** Exact fits for a small request: its own bin, or the next, needs no size check. */
    method ExactSmall(nb: int) returns (r: int, idx: int)
      requires Valid() && nb % 8 == 0 && MINSIZE <= nb < MAX_SMALLBIN_SIZE - SMALLBIN_WIDTH
      modifies this
      ensures r != 0 ==>
        Alloc(old(St()), St(), r - 8, nb) && BestFit(old(St()), nb, r - 8) && r - 8 !in old(bins)[LAST_REMAINDER]
      ensures r != 0 ==> Valid() && top == old(top) && brk == old(brk)
      ensures r == 0 ==> Valid() && St() == old(St()) && ScanFrom(St(), nb, idx)
      ensures r == 0 <==> NoExact(old(St()), nb)
    {
      hide Tiled, Fused, Tags, BinsOk, LinksOk, BlocksOk, WordIs;
      var q, victim := SmallVictim(nb);
      if victim != q {
        FreeChunk(St(), victim);
        TakeFit(victim, SizeOf(Rd(mem, victim + 4)), nb);
        return victim + 8, nb / 8;
      }
      return 0, nb / 8 + 2;
    }

    /** Exact fits for a large request: its bin is walked from the smallest chunk up. */
    method ExactLarge(nb: int) returns (r: int, idx: int)
      requires Valid() && nb % 8 == 0 && MAX_SMALLBIN_SIZE - SMALLBIN_WIDTH <= nb
      modifies this
      ensures r != 0 ==>
        Alloc(old(St()), St(), r - 8, nb) && BestFit(old(St()), nb, r - 8) && r - 8 !in old(bins)[LAST_REMAINDER]
      ensures r != 0 ==> Valid() && top == old(top) && brk == old(brk)
      ensures r == 0 ==> Valid() && St() == old(St()) && ScanFrom(St(), nb, idx)
      ensures r == 0 <==> NoExact(old(St()), nb)
    {
      ghost var s := St();
      idx := BinIndex(nb);
      var victim, vs, k := FindInBin(nb, idx);
      if victim == Hdr(idx) {
        LargeScan(s, nb, false);
        return 0, idx + 1;
      }
      assert s.bins[idx][k] in s.bins[idx];
      LargeScan(s, nb, true);
      FirstIsBest(s, nb, idx, idx, k);
      if vs - nb >= MINSIZE { return 0, idx; }
      Listed(s, idx, k);
      FreeChunk(s, victim);
      hide Inv, WordIs, Alloc, BestFit, ScanFrom;
      TakeFit(victim, vs, nb);
      return victim + 8, idx;
    }

    /** Tries the last remainder: split again, used up, or put into its bin for the scan. */
    method UseRemainder(nb: int, ghost idx: int) returns (r: int)
      requires Valid() && nb % 8 == 0 && MINSIZE <= nb && ScanFrom(St(), nb, idx)
      modifies this
      ensures Valid() && top == old(top) && brk == old(brk)
      ensures r != 0 ==>
        Alloc(old(St()), St(), r - 8, nb) && r - 8 in old(bins)[LAST_REMAINDER] && r - 8 in old(FreeMap(c))
          && nb <= old(FreeMap(c))[r - 8]
      ensures r == 0 ==> forall v :: v in old(bins)[LAST_REMAINDER] ==> v in FreeMap(c) && FreeMap(c)[v] < nb
      ensures r == 0 ==>
        c == old(c) && bins[LAST_REMAINDER] == [] && ScanFrom(St(), nb, idx) && Kept(old(mem), mem, LiveMap(c))
      ensures r == 0 ==> forall q :: BestFit(St(), nb, q) ==> BestFit(old(St()), nb, q)
    {
      ghost var s := St();
      LastOf(s, LAST_REMAINDER);
      var victim := Rd(mem, Hdr(LAST_REMAINDER) + 8);
      if victim == Hdr(LAST_REMAINDER) { return 0; }
      Listed(s, LAST_REMAINDER, 0);
      FreeChunk(s, victim);
      var vs := SizeOf(Rd(mem, victim + 4));
      if vs - nb >= MINSIZE {
        Resplit(victim, vs, nb);
        return victim + 8;
      }
      if vs - nb >= 0 {
        TakeRemainder(victim, vs, nb);
        return victim + 8;
      }
      BinRemainder(victim, vs);
      RemainderBinned(s, St(), nb, idx, victim, FrontPos(s.bins[BinIndex(vs)], FreeMap(c) - {victim}, vs));
      r := 0;
    }

    /** Uses up the last remainder. */
    method TakeRemainder(v: int, vs: int, nb: int)
      requires Valid() && v in FreeMap(c) && vs == FreeMap(c)[v] && nb <= vs < nb + MINSIZE
        && bins[LAST_REMAINDER] == [v]
      modifies this
      ensures Valid() && Alloc(old(St()), St(), v, nb) && top == old(top) && brk == old(brk)
    {
      ghost var s := St();
      FreeChunk(s, v);
      DropRemainder(s, v);
      ClearLastRemainder(FreeMap(c));
      UnlinkedOk(s.bins, FreeMap(c), v);
      SameBoth(s.m, s.m, mem, {}, {}, FreeMap(c).Keys - {v});
      MarkTaken(v, vs, s);
    }

    /** Moves the last remainder into the bin of its size. */
    method BinRemainder(v: int, vs: int)
      requires Valid() && v in FreeMap(c) && vs == FreeMap(c)[v] && bins[LAST_REMAINDER] == [v]
      modifies this`mem, this`bins, this`binblocks, this`blocks
      ensures Valid() && Kept(old(mem), mem, LiveMap(c)) && MINSIZE <= vs
      ensures var b := BinIndex(vs);
        var l := InsertedAt(old(bins)[b], FrontPos(old(bins)[b], FreeMap(c) - {v}, vs), v);
        bins == old(bins)[LAST_REMAINDER := []][b := l]
    {
      hide Tiled, Fused, Tags, BinsOk, LinksOk, BlocksOk, WordIs;
      ghost var s := St();
      ghost var f := FreeMap(c);
      FreeChunk(s, v);
      DropRemainder(s, v);
      UnlinkedOk(s.bins, f, v);
      ClearLastRemainder(f);
      LinkSizes(s, mem, {}, f - {v});
      ghost var m1 := mem;
      Frontlink(v, vs, f - {v});
      assert (f - {v})[v := vs] == f;
      SameBoth(s.m, m1, mem, {}, f.Keys - {v} + {v}, f.Keys);
      LinkArena(s, mem);
    }

    /** Takes a binned chunk, splitting it when the rest is large enough to be a chunk. */
    method TakeOrSplit(v: int, vs: int, nb: int)
      requires Valid() && v in FreeMap(c) && vs == FreeMap(c)[v] && bins[LAST_REMAINDER] == []
      requires MINSIZE <= nb <= vs && nb % 8 == 0
      modifies this
      ensures Valid() && Alloc(old(St()), St(), v, nb) && top == old(top) && brk == old(brk) && v >= FIRST
    {
      FreeChunk(St(), v);
      if vs - nb >= MINSIZE {
        SplitBinned(v, vs, nb);
      } else {
        TakeFit(v, vs, nb);
      }
    }

    /** Searches one bin from its smallest chunk on; the header stands for none. */
    method FindInBin(nb: int, idx: int) returns (victim: int, vs: int, ghost k: int)
      requires Valid() && 1 <= idx < NAV
      ensures -1 <= k < |bins[idx]| && victim == Node(idx, bins[idx], k) && (k == -1 <==> victim == Hdr(idx))
      ensures k >= 0 ==> victim in FreeMap(c) && vs == FreeMap(c)[victim] >= nb
      ensures forall j :: k < j < |bins[idx]| ==> bins[idx][j] in FreeMap(c) && FreeMap(c)[bins[idx][j]] < nb
    {
      ghost var s, l := St(), bins[idx];
      LastOf(s, idx);
      assert 1 <= idx < NAV;
      hide Inv, WordIs;
      victim, vs, k := Rd(mem, Hdr(idx) + 12), 0, |l| - 1;
      while victim != Hdr(idx)
        invariant -1 <= k < |l| && victim == Node(idx, l, k)
        invariant forall j :: k < j < |l| ==> l[j] in FreeMap(c) && FreeMap(c)[l[j]] < nb
        decreases k
      {
        Listed(s, idx, k);
        vs := SizeOf(Rd(mem, victim + 4));
        if vs - nb >= 0 { return; }
        victim := Rd(mem, victim + 12);
        k := k - 1;
      }
      if k >= 0 { Listed(s, idx, k); }
    }

    /** Searches one bin of the scan, smallest chunk first, and takes or splits the first that fits. */
    method ScanBin(nb: int, idx: int, ghost idx0: int) returns (r: int)
      requires Valid() && nb % 8 == 0 && MINSIZE <= nb && bins[LAST_REMAINDER] == []
      requires ScanFrom(St(), nb, idx0) && idx0 <= idx < NAV && forall j :: idx0 <= j < idx ==> bins[j] == []
      modifies this
      ensures r != 0 ==> Valid() && Alloc(old(St()), St(), r - 8, nb) && BestFit(old(St()), nb, r - 8)
      ensures r != 0 ==> top == old(top) && brk == old(brk)
      ensures r == 0 ==> Valid() && St() == old(St()) && bins[idx] == []
    {
      ghost var s := St();
      var victim, vs, k := FindInBin(nb, idx);
      if victim == Hdr(idx) {
        if bins[idx] != [] {
          BinFits(s, nb, idx0, idx);
          assert false;
        }
        return 0;
      }
      FirstIsBest(s, nb, idx0, idx, k);
      hide Inv, WordIs, Alloc, BestFit;
      TakeOrSplit(victim, vs, nb);
      return victim + 8;
    }

    /** Searches the rest of a block of bins. */
    method ScanBlock(nb: int, start: int, ghost idx0: int) returns (r: int, idx: int)
      requires Valid() && nb % 8 == 0 && MINSIZE <= nb && bins[LAST_REMAINDER] == []
      requires ScanFrom(St(), nb, idx0) && idx0 <= start < NAV && forall j :: idx0 <= j < start ==> bins[j] == []
      modifies this
      ensures r != 0 ==> Valid() && Alloc(old(St()), St(), r - 8, nb) && BestFit(old(St()), nb, r - 8)
      ensures r != 0 ==> top == old(top) && brk == old(brk)
      ensures r == 0 ==> Valid() && St() == old(St())
      ensures r == 0 ==>
        idx == start - start % BINBLOCKWIDTH + BINBLOCKWIDTH && forall j :: idx0 <= j < idx ==> bins[j] == []
    {
      ghost var s := St();
      idx := start;
      assert |bins| == NAV;
      hide Inv, WordIs, Alloc, BestFit, ScanFrom;
      while true
        invariant Valid() && St() == s && start <= idx < start - start % BINBLOCKWIDTH + BINBLOCKWIDTH
        invariant forall j :: idx0 <= j < idx ==> bins[j] == []
        decreases NAV - idx
      {
        r := ScanBin(nb, idx, idx0);
        if r != 0 { return; }
        idx := idx + 1;
        if idx % BINBLOCKWIDTH == 0 { break; }
      }
    }

    /** Clears the block bit if the bins of the block before `start` are empty too. */
    method ClearEmptyBlock(start: int, b: nat)
      requires Valid() && 1 <= b < 32 && b == start / BINBLOCKWIDTH
      requires forall j :: start <= j < BINBLOCKWIDTH * b + BINBLOCKWIDTH ==> bins[j] == []
      modifies this`binblocks, this`blocks
      ensures Valid()
    {
      var i, q := start, Hdr(start);
      while true
        invariant binblocks == old(binblocks) && blocks == old(blocks) && q == Hdr(i) && BINBLOCKWIDTH * b <= i <= start
        invariant forall j :: i <= j < BINBLOCKWIDTH * b + BINBLOCKWIDTH ==> bins[j] == []
        decreases i
      {
        if i % BINBLOCKWIDTH == 0 {
          binblocks := Unmark(binblocks, b, blocks);
          blocks := blocks - {b};
          break;
        }
        i, q := i - 1, q - 8;
        LastOf(St(), i);
        if Rd(mem, q + 8) != q { break; }
      }
    }

    /** Best fit over the bins from idx0 up, a block of bins at a time.  The block mask is always
        the one of the block that idx is in. */
    method Scan(nb: int, idx0: int) returns (r: int)
      requires Valid() && nb % 8 == 0 && MINSIZE <= nb && bins[LAST_REMAINDER] == [] && ScanFrom(St(), nb, idx0)
      modifies this
      ensures Valid() && top == old(top) && brk == old(brk)
      ensures r != 0 ==> Alloc(old(St()), St(), r - 8, nb) && BestFit(old(St()), nb, r - 8)
      ensures r == 0 ==> mem == old(mem) && c == old(c) && bins == old(bins) && base == old(base) && NoFit(St(), nb)
    {
      var idx := idx0;
      assert |bins| == NAV && BINBLOCKWIDTH <= idx0 < NAV;
      hide Inv, WordIs, Alloc, BestFit, ScanFrom, NoFit;
      var b := FirstMarked(binblocks, idx / BINBLOCKWIDTH, blocks);
      if b > idx / BINBLOCKWIDTH {
        UnmarkedBetween(St(), idx / BINBLOCKWIDTH, b);
        idx := BINBLOCKWIDTH * b;
      }
      while b < 32
        invariant Valid() && St() == old(St()).(w := blocks)
        invariant 1 <= b <= 32 && idx / BINBLOCKWIDTH == b && idx0 <= idx
        invariant forall j :: idx0 <= j < idx && j < NAV ==> bins[j] == []
        decreases 32 - b
      {
        var start := idx;
        r, idx := ScanBlock(nb, start, idx0);
        if r != 0 { return; }
        ClearEmptyBlock(start, b);
        var next := FirstMarked(binblocks, b + 1, blocks);
        if next > b + 1 { UnmarkedBetween(St(), b + 1, next); }
        b := next;
        idx := BINBLOCKWIDTH * b;
      }
      NothingFits(St(), nb, idx0);
      r := 0;
    }

    /** The padded request is served from its bin, the last remainder, the smallest larger binned
        chunk, or top, in this order. */
    method AllocPadded(nb: int) returns (r: int)
      requires Valid() && nb % 8 == 0 && MINSIZE <= nb
      modifies this, sys
      ensures sys.refused >= old(sys.refused)
      ensures r == 0 ==> old(TopSize()) < nb + MINSIZE && sys.refused > old(sys.refused)
      ensures nb + MINSIZE <= old(TopSize()) ==> brk == old(brk) && sys.refused == old(sys.refused)
      ensures r != 0 && r - 8 !in old(FreeMap(c)) && old(top) != 0 ==> r - 8 == old(top)
      ensures Valid()
      ensures r == 0 ==> LiveMap(c) == old(LiveMap(c)) && Kept(old(mem), mem, old(LiveMap(c))) && NoFit(old(St()), nb)
      ensures r != 0 ==> Alloc(old(St()), St(), r - 8, nb)
      ensures r != 0 && r - 8 !in old(FreeMap(c)) ==> NoFit(old(St()), nb)
      ensures r != 0 && r - 8 in old(FreeMap(c)) && r - 8 !in old(bins)[LAST_REMAINDER] ==>
        BestFit(old(St()), nb, r - 8)
      ensures r != 0 && r - 8 in old(FreeMap(c)) ==> top == old(top) && brk == old(brk)
      ensures r != 0 && r - 8 in old(bins)[LAST_REMAINDER] <==> RemainderServes(old(St()), nb)
    {
      hide Inv, WordIs, Alloc, NoFit, ScanFrom, NoExact, Kept, LiveMap, FreeMap, SizeOf;
      var idx;
      if nb < MAX_SMALLBIN_SIZE - SMALLBIN_WIDTH {
        r, idx := ExactSmall(nb);
      } else {
        r, idx := ExactLarge(nb);
      }
      if r != 0 { return; }
      r := RemainderOrScan(nb, idx);
    }

    /** With no exact fit: the last remainder, then the bins from idx up, then top. */
    method RemainderOrScan(nb: int, idx: int) returns (r: int)
      requires Valid() && nb % 8 == 0 && MINSIZE <= nb && ScanFrom(St(), nb, idx) && NoExact(St(), nb)
      modifies this, sys
      ensures sys.refused >= old(sys.refused)
      ensures r == 0 ==> old(TopSize()) < nb + MINSIZE && sys.refused > old(sys.refused)
      ensures nb + MINSIZE <= old(TopSize()) ==> brk == old(brk) && sys.refused == old(sys.refused)
      ensures r != 0 && r - 8 !in old(FreeMap(c)) && old(top) != 0 ==> r - 8 == old(top)
      ensures Valid()
      ensures r == 0 ==> LiveMap(c) == old(LiveMap(c)) && Kept(old(mem), mem, old(LiveMap(c))) && NoFit(old(St()), nb)
      ensures r != 0 ==> Alloc(old(St()), St(), r - 8, nb)
      ensures r != 0 && r - 8 !in old(FreeMap(c)) ==> NoFit(old(St()), nb)
      ensures r != 0 && r - 8 in old(FreeMap(c)) && r - 8 !in old(bins)[LAST_REMAINDER] ==>
        BestFit(old(St()), nb, r - 8)
      ensures r != 0 && r - 8 in old(FreeMap(c)) ==> top == old(top) && brk == old(brk)
      ensures r != 0 && r - 8 in old(bins)[LAST_REMAINDER] <==> RemainderServes(old(St()), nb)
    {
      hide Inv, WordIs, ScanFrom, NoExact, LiveMap, FreeMap, SizeOf;
      ghost var s := St();
      r := UseRemainder(nb, idx);
      if r != 0 { return; }
      ghost var s1 := St();
      if top != 0 { SameTop(s, s1); }
      r := ScanOrTop(nb, idx);
    }

    /** The bins from idx up, and top when none of them serves. */
    method ScanOrTop(nb: int, idx: int) returns (r: int)
      requires Valid() && nb % 8 == 0 && MINSIZE <= nb && bins[LAST_REMAINDER] == [] && ScanFrom(St(), nb, idx)
      modifies this, sys
      ensures sys.refused >= old(sys.refused)
      ensures r == 0 ==> old(TopSize()) < nb + MINSIZE && sys.refused > old(sys.refused)
      ensures nb + MINSIZE <= old(TopSize()) ==> brk == old(brk) && sys.refused == old(sys.refused)
      ensures r != 0 && r - 8 !in old(FreeMap(c)) && old(top) != 0 ==> r - 8 == old(top)
      ensures Valid() && Kept(old(mem), mem, old(LiveMap(c)))
      ensures r == 0 ==> LiveMap(c) == old(LiveMap(c)) && NoFit(old(St()), nb)
      ensures r != 0 ==> Alloc(old(St()), St(), r - 8, nb)
      ensures r != 0 && r - 8 !in old(FreeMap(c)) ==> NoFit(old(St()), nb)
      ensures r != 0 && r - 8 in old(FreeMap(c)) ==> BestFit(old(St()), nb, r - 8) && top == old(top) && brk == old(brk)
    {
      r := Scan(nb, idx);
      if r != 0 { return; }
      r := UseTop(nb);
    }

    /** malloc: the block holds the whole request unless padding wrapped; see RequestFits. */
    method Malloc(bytes: nat) returns (r: int)
      requires Valid() && bytes < BlockIndex.TWO_32
      modifies this, sys
      ensures r == 0 ==> sys.refused > old(sys.refused) && old(TopSize()) < Request2Size(bytes) + MINSIZE
      ensures Request2Size(bytes) + MINSIZE <= old(TopSize()) ==> brk == old(brk) && sys.refused == old(sys.refused)
      ensures r != 0 && r - 8 !in old(FreeMap(c)) && old(top) != 0 ==> r - 8 == old(top)
      ensures Valid()
      ensures var s, nb := old(St()), Request2Size(bytes);
        && (r == 0 ==> LiveMap(c) == LiveMap(s.c) && Kept(s.m, mem, LiveMap(s.c)) && NoFit(s, nb))
        && (r != 0 ==> Alloc(s, St(), r - 8, nb))
        && (r != 0 && r - 8 !in FreeMap(s.c) ==> NoFit(s, nb))
        && (r != 0 && r - 8 in FreeMap(s.c) && r - 8 !in s.bins[LAST_REMAINDER] ==> BestFit(s, nb, r - 8))
        && (r != 0 && r - 8 in FreeMap(s.c) ==> top == old(top) && brk == old(brk))
        && (r != 0 && r - 8 in s.bins[LAST_REMAINDER] <==> RemainderServes(s, nb))
    {
      r := AllocPadded(Request2Size(bytes));
    }

    /** A client writes a word of its block. */
    method Store(mp: int, offset: int, v: int)
      requires Valid() && mp - 8 in LiveMap(c) && 0 <= offset < LiveMap(c)[mp - 8] - SIZE_SZ && offset % SIZE_SZ == 0
      modifies this`mem
      ensures Valid() && mem == old(mem)[mp + offset := v]
      ensures Kept(old(mem), mem, LiveMap(c) - {mp - 8})
    {
      PayloadWritten(St(), mem[mp + offset := v], mp - 8);
      mem := mem[mp + offset := v];
    }

    // -------------------------------------------------------------- realloc

    /** Copies words upwards; the source may overlap the destination from above. */
    method CopyWords(dst: int, src: int, n: int)
      requires 0 <= n && n % SIZE_SZ == 0 && (dst <= src || src + n <= dst)
      modifies this`mem
      ensures Moved(old(mem), mem, src - 8, dst - 8, n) && SameBut(old(mem), mem, dst, dst + n)
    {
      var i := 0;
      while i < n
        invariant 0 <= i <= n && i % SIZE_SZ == 0
        invariant forall o :: 0 <= o < i && o % SIZE_SZ == 0 ==> Rd(mem, dst + o) == old(Rd(mem, src + o))
        invariant forall a {:trigger Rd(mem, a)} :: !(dst <= a < dst + i) ==> Rd(mem, a) == old(Rd(mem, a))
      {
        ghost var m := mem;
        mem := mem[dst + i := Rd(mem, src + i)];
        assert forall a {:trigger Rd(mem, a)} :: a != dst + i ==> Rd(mem, a) == Rd(m, a);
        i := i + SIZE_SZ;
      }
    }

    /** A region whose chunks are off their lists, about to be recut into blocks. */
    ghost predicate Open(s: State, lo: int, hi: int)
      reads this
    {
      && Inv(s) && s.top != 0 && lo in s.c && hi in s.c && lo + MINSIZE <= hi
      && RegionMem(s, lo, hi, mem) && s == State(s.m, c, s.bins, blocks, base, top, brk)
      && BinsOk(bins, Outside(FreeMap(s.c), lo, hi)) && LinksOk(mem, bins) && BlocksOk(bins, blocks)
      && WordIs(binblocks, blocks) && sbrkBase != -1
    }

    method CutRegion(lo: int, size: int, nb: int, ghost s: State)
      requires Open(s, lo, lo + size) && MINSIZE <= nb && nb + MINSIZE <= size && nb % 8 == 0
      modifies this`mem, this`c
      ensures Valid() && LiveMap(c) == Outside(LiveMap(s.c), lo, lo + size)[lo := nb][lo + nb := size - nb]
      ensures Kept(s.m, mem, Outside(LiveMap(s.c), lo, lo + size))
      ensures SamePayload(old(mem), mem, lo, nb)
    {
      hide Inv, RegionMem, BinsOk, LinksOk, BlocksOk, WordIs, Kept, SamePayload, Outside, LiveMap, FreeMap, Recut2;
      var rem, rs := lo + nb, size - nb;
      RegionAligned(s, lo, nb);
      RegionCut(s, lo, rem, lo + size, mem, bins);
      var head := nb + Rd(mem, lo + 4) % 2;
      var word := SetBit(Rd(mem, lo + size + 4));
      mem := mem[lo + 4 := head];
      mem := mem[rem + 4 := rs + 1];
      mem := mem[lo + size + 4 := word];
      c := Recut2(c, lo, rem, lo + size, Used, Used);
    }

    method WholeRegion(lo: int, size: int, ghost s: State)
      requires Open(s, lo, lo + size)
      modifies this`mem, this`c
      ensures Valid() && LiveMap(c) == Outside(LiveMap(s.c), lo, lo + size)[lo := size]
      ensures Kept(s.m, mem, Outside(LiveMap(s.c), lo, lo + size))
      ensures SamePayload(old(mem), mem, lo, size)
    {
      hide Tiled, Fused, Tags, BinsOk, BlocksOk, WordIs;
      RegionWhole(s, lo, lo + size, mem, bins);
      var word := SetBit(Rd(mem, lo + size + 4));
      mem := mem[lo + 4 := size + Rd(mem, lo + 4) % 2];
      mem := mem[lo + size + 4 := word];
      c := Recut1(c, lo, lo + size, Used);
    }

    /** Frees the second of two blocks that came out of a region. */
    method DropTail(lo: int, nb: int, rs: int, ghost live: map<int, int>)
      requires Valid() && 0 < lo && 0 < nb && lo !in live && lo + nb !in live
        && LiveMap(c) == live[lo := nb][lo + nb := rs]
      modifies this
      ensures Valid() && LiveMap(c) == live[lo := nb] && Kept(old(mem), mem, live) && SamePayload(old(mem), mem, lo, nb)
    {
      ghost var m1 := mem;
      AddDrop(live, lo, nb, lo + nb, rs);
      Free(lo + nb + 8);
      KeptOne(m1, mem, live, lo, nb);
    }

    /** Makes a block of nb bytes at the front of a region, and frees the rest if it is large enough. */
    method SplitTail(lo: int, size: int, nb: int, ghost s: State) returns (ghost got: int)
      requires Open(s, lo, lo + size) && MINSIZE <= nb <= size && nb % 8 == 0 && size % 8 == 0
      modifies this
      ensures Valid() && nb <= got < nb + MINSIZE
      ensures LiveMap(c) == Outside(LiveMap(s.c), lo, lo + size)[lo := got]
      ensures Kept(s.m, mem, Outside(LiveMap(s.c), lo, lo + size))
      ensures SamePayload(old(mem), mem, lo, nb)
    {
      hide Tiled, Fused, Tags, BinsOk, LinksOk, BlocksOk, WordIs;
      ghost var live := Outside(LiveMap(s.c), lo, lo + size);
      if size - nb >= MINSIZE {
        CutRegion(lo, size, nb, s);
        got := nb;
        ghost var m1 := mem;
        RegionAligned(s, lo, nb);
        DropTail(lo, nb, size - nb, live);
        KeptTrans(s.m, m1, mem, live);
      } else {
        WholeRegion(lo, size, s);
        got := size;
      }
    }

    /** Takes the free chunks of a region off their lists. */
    method OpenRegion(p0: int, prev: int, next: int, back: bool, fwd: bool)
      requires Valid() && Region(St(), p0, back, fwd)
      requires (back ==> prev == c[p0].prev) && (fwd ==> next == p0 + c[p0].size)
      modifies this`mem, this`bins
      ensures Open(old(St()), RegionLo(old(St()), p0, back), RegionHi(old(St()), p0, fwd))
      ensures SamePayload(old(mem), mem, p0, c[p0].size)
    {
      ghost var s := St();
      RegionBounds(s, p0, back, fwd);
      RegionMaps(s, p0, back, fwd);
      FreeKeys(s);
      ghost var lo, hi := RegionLo(s, p0, back), RegionHi(s, p0, fwd);
      ghost var f := FreeMap(c);
      if fwd {
        Unlink(next, f);
        f := f - {next};
      }
      ghost var m1 := mem;
      if back {
        Unlink(prev, f);
        f := f - {prev};
      }
      assert f == RegionRest(s, p0, back, fwd);
      SameBoth(s.m, m1, mem, FreeMap(c).Keys, FreeMap(c).Keys, FreeMap(c).Keys);
      OpenedMem(s, p0, lo, hi, mem);
    }

    /** Moves the block back over the free chunk before it; source and destination may overlap. */
    method ShiftBack(p0: int, lo: int, oldsize: int, ghost s: State, ghost hi: int)
      requires Open(s, lo, hi) && p0 in LiveMap(s.c) && oldsize == s.c[p0].size && lo < p0 && p0 + oldsize <= hi
      requires SamePayload(s.m, mem, p0, oldsize)
      modifies this`mem
      ensures Open(s, lo, hi) && Moved(s.m, mem, p0, lo, oldsize - SIZE_SZ)
    {
      hide Inv, Arena, BinsOk, LinksOk, BlocksOk, WordIs, Moved, SameBut, SamePayload, RegionMem;
      BlockSize(s, p0);
      Neighbours(s, p0);
      ghost var m1 := mem;
      CopyWords(lo + 8, p0 + 8, oldsize - SIZE_SZ);
      MovedFrom(s.m, m1, mem, p0, lo, oldsize);
      WrittenInside(s, lo, hi, m1, mem, lo + 4 + oldsize, bins);
    }

    /** Opens the region a block grows into and moves the block to its front. */
    method MakeRoom(p0: int, oldsize: int, prev: int, next: int, back: bool, fwd: bool) returns (lo: int)
      requires Valid() && Region(St(), p0, back, fwd) && oldsize == c[p0].size
      requires (back ==> prev == c[p0].prev) && (fwd ==> next == p0 + oldsize)
      modifies this`mem, this`bins
      ensures lo == RegionLo(old(St()), p0, back)
      ensures Open(old(St()), lo, RegionHi(old(St()), p0, fwd))
      ensures Moved(old(mem), mem, p0, lo, oldsize - SIZE_SZ)
    {
      ghost var s := St();
      RegionBounds(s, p0, back, fwd);
      lo := if back then prev else p0;
      OpenRegion(p0, prev, next, back, fwd);
      if back {
        ShiftBack(p0, lo, oldsize, s, RegionHi(s, p0, fwd));
      } else {
        MovedStill(s.m, mem, p0, oldsize);
      }
    }

    /** Grows the block over the free chunks beside it. */
    method GrowInPlace(p0: int, oldsize: int, prev: int, next: int, back: bool, fwd: bool, newsize: int, nb: int)
      returns (r: int)
      requires Valid() && Region(St(), p0, back, fwd) && oldsize == c[p0].size < nb && nb % 8 == 0
      requires (back ==> prev == c[p0].prev) && (fwd ==> next == p0 + oldsize)
      requires RegionLo(St(), p0, back) + newsize == RegionHi(St(), p0, fwd) && nb <= newsize
      modifies this
      ensures r != 0 && Realloced(old(St()), St(), p0, r - 8, nb) && Valid()
      ensures r - 8 == RegionLo(old(St()), p0, back)
    {
      hide Tiled, Fused, Tags, BinsOk, LinksOk, BlocksOk, WordIs;
      ghost var s := St();
      RegionBounds(s, p0, back, fwd);
      var lo := MakeRoom(p0, oldsize, prev, next, back, fwd);
      ghost var m1 := mem;
      ghost var got := SplitTail(lo, newsize, nb, s);
      RegionLive(s, p0, back, fwd);
      MovedThen(s.m, m1, mem, p0, lo, oldsize - SIZE_SZ, nb);
      GrownIs(s, St(), p0, lo, lo + newsize, nb, got);
      r := lo + 8;
    }

    /** Makes a block of nb bytes at the front of a region that ends at top; top takes the rest. */
    method CutIntoTop(lo: int, newsize: int, nb: int, ghost s: State)
      requires Open(s, lo, top) && lo + newsize == brk && MINSIZE <= nb && nb + MINSIZE <= newsize && nb % 8 == 0
      modifies this`mem, this`c, this`top
      ensures Valid() && LiveMap(c) == Outside(LiveMap(s.c), lo, s.top)[lo := nb]
      ensures Kept(s.m, mem, Outside(LiveMap(s.c), lo, s.top)) && SamePayload(old(mem), mem, lo, nb)
    {
      hide Inv, RegionMem, BinsOk, LinksOk, BlocksOk, WordIs, Kept, SamePayload, Outside, LiveMap, FreeMap,
        RecutUsedTop;
      RegionAligned(s, lo, nb);
      RegionTop(s, lo, lo + nb, mem, bins);
      CutWrites(lo, newsize, nb);
    }

    method CutWrites(lo: int, newsize: int, nb: int)
      requires lo in c
      modifies this`mem, this`c, this`top
      ensures mem == old(mem)[lo + nb + 4 := newsize - nb + 1][lo + 4 := nb + Rd(old(mem), lo + 4) % 2]
      ensures top == lo + nb && c == RecutUsedTop(old(c), lo, top, brk)
    {
      var word := nb + Rd(mem, lo + 4) % 2;
      top := lo + nb;
      mem := mem[top + 4 := newsize - nb + 1];
      mem := mem[lo + 4 := word];
      c := RecutUsedTop(c, lo, top, brk);
    }

    /** Grows the block into top, over a free chunk before it if asked; top keeps a remainder. */
    method GrowIntoTop(p0: int, oldsize: int, prev: int, back: bool, newsize: int, nb: int) returns (r: int)
      requires Valid() && Region(St(), p0, back, false) && oldsize == c[p0].size < nb && nb % 8 == 0
      requires p0 + oldsize == top && (back ==> prev == c[p0].prev)
      requires RegionLo(St(), p0, back) + newsize == brk && nb + MINSIZE <= newsize
      modifies this
      ensures r != 0 && Realloced(old(St()), St(), p0, r - 8, nb) && Valid()
      ensures r - 8 == RegionLo(old(St()), p0, back)
    {
      hide Tiled, Fused, Tags, BinsOk, LinksOk, BlocksOk, WordIs;
      ghost var s := St();
      RegionBounds(s, p0, back, false);
      var lo := MakeRoom(p0, oldsize, prev, 0, back, false);
      ghost var m1 := mem;
      CutIntoTop(lo, newsize, nb, s);
      RegionLive(s, p0, back, false);
      MovedThen(s.m, m1, mem, p0, lo, oldsize - SIZE_SZ, nb);
      GrownIs(s, St(), p0, lo, s.top, nb, nb);
      r := lo + 8;
    }

    /** The block is large enough already: any tail of it goes back to the heap. */
    method Shrink(p0: int, oldsize: int, nb: int) returns (r: int)
      requires Valid() && p0 in LiveMap(c) && oldsize == c[p0].size >= nb >= MINSIZE && nb % 8 == 0
      modifies this
      ensures r == p0 + 8 != 0 && Realloced(old(St()), St(), p0, p0, nb) && Valid()
    {
      ghost var s := St();
      RegionBounds(s, p0, false, false);
      RegionMaps(s, p0, false, false);
      ghost var got := SplitTail(p0, oldsize, nb, s);
      MovedStill(s.m, mem, p0, nb);
      GrownIs(s, St(), p0, p0, p0 + oldsize, nb, got);
      r := p0 + 8;
    }

    /** The new block came right after the old one: the two are joined and split again. */
    method JoinNew(p0: int, oldsize: int, q: int, nb: int, ghost s: State)
      requires Valid() && p0 in LiveMap(s.c) && p0 in LiveMap(c) && q in LiveMap(c)
      requires oldsize == s.c[p0].size == c[p0].size < nb && q == p0 + oldsize && nb % 8 == 0 && MINSIZE <= nb
      requires Alloc(s, St(), q, nb)
      modifies this
      ensures Valid() && Realloced(s, St(), p0, p0, nb)
    {
      ghost var s1 := St();
      AdjacentRegion(s1, p0, q);
      BlockSize(s1, q);
      var newsize := oldsize + SizeOf(Rd(mem, q + 4));
      ghost var got := SplitTail(p0, newsize, nb, s1);
      ReallocMerged(s, s1, St(), p0, q, nb, got);
    }

    /** Copies the words of one block into a larger one. */
    method CopyBlock(p0: int, oldsize: int, q: int)
      requires Valid() && p0 in LiveMap(c) && q in LiveMap(c) && p0 != q && oldsize == c[p0].size <= c[q].size
      modifies this`mem
      ensures Valid() && Kept(old(mem), mem, LiveMap(c) - {q}) && Moved(old(mem), mem, p0, q, oldsize - SIZE_SZ)
    {
      ghost var s := St();
      BlocksApart(s, p0, q);
      hide Inv, WordIs, Moved, SameBut, Kept;
      CopyWords(q + 8, p0 + 8, oldsize - SIZE_SZ);
      FrontWritten(s, mem, q, oldsize - SIZE_SZ);
    }

    /** Copies the old block into the new one and frees it. */
    method CopyNew(p0: int, oldsize: int, q: int, nb: int, ghost s: State)
      requires Valid() && p0 in LiveMap(s.c) && p0 in LiveMap(c) && q in LiveMap(c) && p0 != q
      requires oldsize == s.c[p0].size == c[p0].size < nb <= c[q].size && nb % 8 == 0
      requires Alloc(s, St(), q, nb)
      modifies this
      ensures Valid() && Realloced(s, St(), p0, q, nb)
    {
      ghost var s1 := St();
      BlockSize(s1, p0);
      Neighbours(s1, p0);
      assert p0 + 8 != 0;
      hide Inv, WordIs, Realloced, Moved, Kept;
      CopyBlock(p0, oldsize, q);
      ghost var m2 := mem;
      Free(p0 + 8);
      ReallocCopied(s, s1, m2, St(), p0, q, nb);
    }

    method AllocCopy(p0: int, oldsize: int, nb: int) returns (r: int)
      requires Valid() && p0 in LiveMap(c) && oldsize == c[p0].size < nb && nb % 8 == 0
      modifies this, sys
      ensures r == 0 ==> sys.refused > old(sys.refused)
      ensures Valid()
      ensures r == 0 ==> LiveMap(c) == old(LiveMap(c)) && Kept(old(mem), mem, old(LiveMap(c)))
      ensures r != 0 ==> Realloced(old(St()), St(), p0, r - 8, nb)
    {
      hide Inv, Arena, WordIs, Realloced, Kept;
      ghost var s := St();
      BlockSize(s, p0);
      Neighbours(s, p0);
      r := AllocPadded(nb);
      if r == 0 { return; }
      var q := r - 8;
      assert p0 in LiveMap(c) && LiveMap(c)[p0] == oldsize;
      if q == p0 + oldsize {
        JoinNew(p0, oldsize, q, nb, s);
        r := p0 + 8;
      } else {
        CopyNew(p0, oldsize, q, nb, s);
      }
    }

    /** Forward, into top only if it keeps a remainder; nothing is done if the room is too small. */
    method GrowForward(p0: int, oldsize: int, nb: int, next: int, nextsize: int, nextFree: bool) returns (r: int)
      requires Valid() && p0 in LiveMap(c) && oldsize == c[p0].size < nb && nb % 8 == 0
      requires next == p0 + oldsize && next in c && nextsize == c[next].size
        && (nextFree <==> next != top && next in FreeMap(c))
      modifies this
      ensures r != 0 <==> FitsAfter(old(St()), p0, oldsize, nb)
      ensures r != 0 ==> r == p0 + 8
      ensures Valid() && (r == 0 ==> St() == old(St()))
      ensures r != 0 ==> Realloced(old(St()), St(), p0, r - 8, nb)
    {
      hide Tiled, Fused, Tags, BinsOk, LinksOk, BlocksOk, WordIs;
      GrowFacts(St(), p0);
      if next == top {
        if nextsize + oldsize >= nb + MINSIZE {
          r := GrowIntoTop(p0, oldsize, 0, false, oldsize + nextsize, nb);
          return;
        }
      } else if nextFree && nextsize + oldsize >= nb {
        r := GrowInPlace(p0, oldsize, 0, next, false, true, oldsize + nextsize, nb);
        return;
      }
      r := 0;
    }

    /** Back over a free chunk, together with the room after the block if there is any. */
    method GrowBackward(p0: int, oldsize: int, nb: int, next: int, nextsize: int, nextFree: bool) returns (r: int)
      requires Valid() && p0 in LiveMap(c) && oldsize == c[p0].size < nb && nb % 8 == 0
      requires next == p0 + oldsize && next in c && nextsize == c[next].size
        && (nextFree <==> next != top && next in FreeMap(c))
      requires !PrevInUse(Rd(mem, p0 + 4))
      modifies this
      ensures r != 0 <==> FitsBefore(old(St()), p0, nb)
      ensures r != 0 ==> r - 8 == old(c)[p0].prev
      ensures Valid() && (r == 0 ==> St() == old(St()))
      ensures r != 0 ==> Realloced(old(St()), St(), p0, r - 8, nb)
    {
      hide Tiled, Fused, Tags, BinsOk, LinksOk, BlocksOk, WordIs;
      GrowFacts(St(), p0);
      var prevsize := Rd(mem, p0);
      var prev := p0 - prevsize;
      if next == top {
        if nextsize + prevsize + oldsize >= nb + MINSIZE {
          r := GrowIntoTop(p0, oldsize, prev, true, oldsize + prevsize + nextsize, nb);
          return;
        }
      } else if nextFree && nextsize + prevsize + oldsize >= nb {
        r := GrowInPlace(p0, oldsize, prev, next, true, true, oldsize + nextsize + prevsize, nb);
        return;
      }
      if prevsize + oldsize >= nb {
        r := GrowInPlace(p0, oldsize, prev, 0, true, false, oldsize + prevsize, nb);
        return;
      }
      r := 0;
    }

    /** The ways a block can grow, in the order they are tried: forward, forward and back, back, and
        into a new block. */
    method Grow(p0: int, oldsize: int, nb: int) returns (r: int)
      requires Valid() && p0 in LiveMap(c) && oldsize == c[p0].size < nb && nb % 8 == 0
      modifies this, sys
      ensures r == 0 ==> sys.refused > old(sys.refused)
      ensures FitsAfter(old(St()), p0, oldsize, nb) ==> r == p0 + 8
      ensures !FitsAfter(old(St()), p0, oldsize, nb) && FitsBefore(old(St()), p0, nb) ==>
        r != 0 && r - 8 == old(c)[p0].prev
      ensures Valid()
      ensures r == 0 ==> LiveMap(c) == old(LiveMap(c)) && Kept(old(mem), mem, old(LiveMap(c)))
      ensures r != 0 ==> Realloced(old(St()), St(), p0, r - 8, nb)
    {
      hide Inv, WordIs, Realloced, Kept, FitsAfter, FitsBefore, LiveMap, FreeMap, PrevInUse, SizeOf;
      GrowFacts(St(), p0);
      NoRoomBefore(St(), p0, nb);
      var next := p0 + oldsize;
      var nextsize := SizeOf(Rd(mem, next + 4));
      var nextFree := next != top && !PrevInUse(Rd(mem, next + nextsize + 4));
      r := GrowForward(p0, oldsize, nb, next, nextsize, nextFree);
      if r != 0 { return; }
      if !PrevInUse(Rd(mem, p0 + 4)) {
        r := GrowBackward(p0, oldsize, nb, next, nextsize, nextFree);
        if r != 0 { return; }
      }
      r := AllocCopy(p0, oldsize, nb);
    }

    method ReadSize(p: int) returns (size: int)
      requires Valid() && p in LiveMap(c)
      ensures size == c[p].size
    {
      BlockSize(St(), p);
      size := SizeOf(Rd(mem, p + 4));
    }

    /** realloc of a block to a padded size. */
    method Resize(p0: int, nb: int) returns (r: int)
      requires Valid() && p0 in LiveMap(c) && MINSIZE <= nb && nb % 8 == 0
      modifies this, sys
      ensures r == 0 ==> sys.refused > old(sys.refused)
      ensures var s := old(St());
        var size := s.c[p0].size;
        && (nb <= size || FitsAfter(s, p0, size, nb) ==> r == p0 + 8)
        && (size < nb && !FitsAfter(s, p0, size, nb) && FitsBefore(s, p0, nb) ==> r != 0 && r - 8 == s.c[p0].prev)
      ensures Valid()
      ensures r == 0 ==> LiveMap(c) == old(LiveMap(c)) && Kept(old(mem), mem, old(LiveMap(c)))
      ensures r != 0 ==> Realloced(old(St()), St(), p0, r - 8, nb)
    {
      var oldsize := ReadSize(p0);
      if oldsize < nb {
        r := Grow(p0, oldsize, nb);
      } else {
        r := Shrink(p0, oldsize, nb);
      }
    }

    /** realloc: on success the block starts with the words of the old one, as far as both reach,
        and no other block is disturbed; on failure the old block stays. */
    method Realloc(mp: int, bytes: nat) returns (r: int)
      requires Valid() && bytes < BlockIndex.TWO_32 && (mp == 0 || mp - 8 in LiveMap(c))
      modifies this, sys
      ensures r == 0 ==> sys.refused > old(sys.refused)
      ensures mp != 0 ==>
        var s, p0, nb := old(St()), mp - 8, Request2Size(bytes);
        var size := s.c[p0].size;
        && (nb <= size || FitsAfter(s, p0, size, nb) ==> r == mp)
        && (size < nb && !FitsAfter(s, p0, size, nb) && FitsBefore(s, p0, nb) ==> r != 0 && r - 8 == s.c[p0].prev)
      ensures Valid()
      ensures r == 0 ==> LiveMap(c) == old(LiveMap(c)) && Kept(old(mem), mem, old(LiveMap(c)))
      ensures r != 0 && mp == 0 ==> Alloc(old(St()), St(), r - 8, Request2Size(bytes))
      ensures r != 0 && mp != 0 ==> Realloced(old(St()), St(), mp - 8, r - 8, Request2Size(bytes))
    {
      if mp == 0 {
        r := Malloc(bytes);
      } else {
        r := Resize(mp - 8, Request2Size(bytes));
      }
    }
  }
}
