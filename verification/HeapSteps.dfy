/** What the single steps of malloc, free and realloc read from the tags, and what they do to the
    heap's invariant. */
module HeapSteps {
  import opened HeapTiling
  import opened Bins
  import opened FreeLists
  import opened HeapState

  const TWO_31 := 0x8000_0000
  const TWO_32 := 0x1_0000_0000

  /** Signed reading of a 32-bit word. */
  function Long(x: int): int {
    var w := x % TWO_32;
    if w < TWO_31 then w else w - TWO_32
  }

  /** Padding of a request, in 32-bit arithmetic with the signed comparison of the macro. */
  function Request2Size(req: nat): (nb: int)
    requires req < TWO_32
    ensures nb % 8 == 0 && MINSIZE <= nb < TWO_31
  {
    var padded := (req + 11) % TWO_32;
    if Long(padded) < MINSIZE + 7 then MINSIZE else padded - padded % 8
  }

  /** The padded size leaves room for the request and one size word, unless the padded sum
      reaches the sign bit; past that point every request is taken for the smallest one. */
  lemma RequestFits(req: nat)
    requires req < TWO_32
    ensures Request2Size(req) >= req + SIZE_SZ <==> req + 11 < TWO_31
    ensures req + 11 < TWO_31 ==> Request2Size(req) < req + SIZE_SZ + MINSIZE
  {
  }

  /** Size part and in-use bit of a size word. */
  function SizeOf(word: int): int { word - word % 4 }

  function PrevInUse(word: int): bool { word % 2 == 1 }

  function ClearBit(word: int): int { word - word % 2 }

  function SetBit(word: int): int { word - word % 2 + 1 }

  lemma WordParts(size: int, bit: int)
    requires size % 8 == 0 && 0 <= bit <= 1
    ensures SizeOf(size + bit) == size && PrevInUse(size + bit) == (bit == 1)
    ensures ClearBit(size + bit) == size && SetBit(size + bit) == size + 1
  {
  }

  /** How many chunks at the front of a list are larger than sz. */
  ghost function FrontPos(s: seq<int>, f: map<int, int>, sz: int): (k: nat)
    ensures k <= |s|
  {
    if s == [] || s[0] !in f || f[s[0]] <= sz then 0 else 1 + FrontPos(s[1..], f, sz)
  }

  lemma {:induction false} FrontPosOk(s: seq<int>, f: map<int, int>, sz: int)
    requires forall j :: 0 <= j < |s| ==> s[j] in f
    ensures var k := FrontPos(s, f, sz); (forall j :: 0 <= j < k ==> f[s[j]] > sz) && (k < |s| ==> f[s[k]] <= sz)
  {
    if s != [] && f[s[0]] > sz {
      forall j | 0 <= j < |s| - 1 ensures s[1..][j] in f { assert s[1..][j] == s[j + 1]; }
      FrontPosOk(s[1..], f, sz);
      forall j | 0 < j < FrontPos(s, f, sz) ensures f[s[j]] > sz { assert s[j] == s[1..][j - 1]; }
    }
  }

  lemma {:induction false} FrontPosIs(s: seq<int>, f: map<int, int>, sz: int, k: nat)
    requires k <= |s|
    requires forall j :: 0 <= j < k ==> s[j] in f && f[s[j]] > sz
    requires k < |s| ==> s[k] in f && f[s[k]] <= sz
    ensures FrontPos(s, f, sz) == k
  {
    if k > 0 {
      assert s[1..] == s[1..];
      forall j | 0 <= j < k - 1 ensures s[1..][j] in f && f[s[1..][j]] > sz { assert s[1..][j] == s[j + 1]; }
      FrontPosIs(s[1..], f, sz, k - 1);
    }
  }

  /** The size words of the listed chunks are in place. */
  ghost predicate SizesOk(m: Words, f: map<int, int>) {
    forall q {:trigger q in f} :: q in f ==> SizeOf(Rd(m, q + 4)) == f[q]
  }

  lemma Where(bins: BinLists, f: map<int, int>, p: int) returns (i: int, k: nat)
    requires BinsOk(bins, f) && p in f
    ensures 1 <= i < NAV && k < |bins[i]| && bins[i][k] == p
    ensures f[p] >= MINSIZE && (i == LAST_REMAINDER || i == BinIndex(f[p]))
  {
    assert Placed(bins, f, p);
    i := if p in bins[LAST_REMAINDER] then LAST_REMAINDER else BinIndex(f[p]);
    k :| 0 <= k < |bins[i]| && bins[i][k] == p;
  }

  /** The chunk where the space freed by p0 will start. */
  ghost function Start(s: State, p0: int): int
    requires p0 in s.c
  {
    if PrevBit(s.c, s.base, p0) == 1 then p0 else s.c[p0].prev
  }

  /** The chunk that will follow the space freed by p0. */
  ghost function End(s: State, p0: int): int
    requires p0 in s.c
  {
    var next := p0 + s.c[p0].size;
    if next in s.c && s.c[next].kind == Free then next + s.c[next].size else next
  }

  /** The free chunks that are not merged with p0. */
  ghost function Rest(s: State, p0: int): map<int, int>
    requires p0 in s.c
  {
    FreeMap(s.c) - {Start(s, p0)} - {p0 + s.c[p0].size}
  }

  lemma NextFree(s: State, p0: int)
    requires p0 in s.c && p0 + s.c[p0].size in s.c
    ensures var next := p0 + s.c[p0].size;
      && (next in FreeMap(s.c) <==> s.c[next].kind == Free)
      && End(s, p0) == if next in FreeMap(s.c) then next + s.c[next].size else next
  {
  }

  /** The free chunks left when the chunk before a block, unless it is the last remainder, and then the one after it
      are taken off their lists. */
  lemma RestMaps(s: State, p0: int, f: map<int, int>, islr: bool)
    requires p0 in s.c && f == if islr then FreeMap(s.c) else FreeMap(s.c) - {Start(s, p0)}
    ensures var p, next, r := Start(s, p0), p0 + s.c[p0].size, Rest(s, p0);
      && (f - {next})[p := MINSIZE] == r[p := MINSIZE] && (!islr ==> f - {next} == r)
      && (next !in FreeMap(s.c) ==> f - {next} == f)
  {
  }

  /** What the tags around a block that borders top say. */
  lemma StepToTop(s: State, p0: int)
    requires Inv(s) && p0 in LiveMap(s.c) && p0 + LiveMap(s.c)[p0] == s.top
    ensures s.top != 0 && Keys(FreeMap(s.c))
    ensures ClearBit(Rd(s.m, p0 + 4)) == s.top - p0 && SizeOf(Rd(s.m, s.top + 4)) == s.end - s.top
    ensures PrevInUse(Rd(s.m, p0 + 4)) <==> Start(s, p0) == p0
    ensures Start(s, p0) != p0 ==> Start(s, p0) in FreeMap(s.c) && Rd(s.m, p0) == p0 - Start(s, p0)
    ensures FreeMap(s.c) - {p0} == FreeMap(s.c)
  {
    Neighbours(s, p0);
    Neighbours(s, s.top);
    FreeKeys(s);
    assert ChunkOk(s.c, s.base, s.top, s.end, s.top);
    WordParts(s.c[p0].size, PrevBit(s.c, s.base, p0));
    WordParts(s.c[s.top].size, PrevBit(s.c, s.base, s.top));
  }

  lemma FreedIntoTop(s: State, m: Words, bins: BinLists, p0: int, p: int)
    requires Inv(s) && p0 in LiveMap(s.c) && p0 + LiveMap(s.c)[p0] == s.top && p == Start(s, p0) && p in s.c
    requires SameExceptLinks(s.m, m, FreeMap(s.c).Keys - {p}) && LinksOk(m, bins) && BlocksOk(bins, s.w)
    requires BinsOk(bins, FreeMap(s.c) - {p})
    ensures var s' := s.(m := m[p + 4 := s.end - p + 1], bins := bins, top := p, c := RecutTop(s.c, p, s.end));
      Inv(s') && LiveMap(s'.c) == LiveMap(s.c) - {p0} && Kept(s.m, s'.m, LiveMap(s'.c))
  {
    var s' := s.(m := m[p + 4 := s.end - p + 1], bins := bins, top := p, c := RecutTop(s.c, p, s.end));
    StepToTop(s, p0);
    Neighbours(s, p0);
    Neighbours(s, p);
    FreedMaps(s, p0, p, s.top);
    assert ChunkOk(s.c, s.base, s.top, s.end, p) && ChunkOk(s.c, s.base, s.top, s.end, s.top);
    BelowTop(s.c, s.base, s.top, s.end);
    FrameLinks(s.m, s.m, m, s.c, p, s.end, FreeMap(s.c).Keys - {p});
    FrameWrite(s.m, m, s.c, p, s.end, p + 4, s.end - p + 1);
    RecutTopArena(s, s', p);
    FreeKeys(s);
    TagWrite(s, p, bins, FreeMap(s.c) - {p}, m, p + 4, s.end - p + 1);
  }

  /** Between the start of the freed space and the end of the block lie only p0 and the free chunk before it. */
  lemma FreedMaps(s: State, p0: int, p: int, next: int)
    requires Arena(s) && p0 in LiveMap(s.c) && next == p0 + LiveMap(s.c)[p0] && p == Start(s, p0)
    ensures Outside(FreeMap(s.c), p, next) == FreeMap(s.c) - {p}
    ensures Outside(LiveMap(s.c), p, next) == LiveMap(s.c) - {p0}
  {
    Neighbours(s, p0);
    Neighbours(s, p);
    assert ChunkOk(s.c, s.base, s.top, s.end, p0);
    OutsideOne(s.c, s.base, s.top, s.end, p0);
    if p != p0 {
      OutsideOne(s.c, s.base, s.top, s.end, p);
      OutsideJoin(FreeMap(s.c), p, p0, next);
      OutsideJoin(LiveMap(s.c), p, p0, next);
      OutsideMinus(FreeMap(s.c), p, p0, next);
      OutsideMinus(LiveMap(s.c), p, p0, next);
    }
  }

  /** A listed chunk points forward to the remainder header exactly when it is the last remainder. */
  lemma RemainderTest(m: Words, bins: BinLists, f: map<int, int>, p: int)
    requires BinsOk(bins, f) && Keys(f) && LinksOk(m, bins) && p in f
    ensures Rd(m, p + 8) == Hdr(LAST_REMAINDER) <==> p in bins[LAST_REMAINDER]
    ensures p in bins[LAST_REMAINDER] ==> bins[LAST_REMAINDER] == [p]
  {
    var i, k := Where(bins, f, p);
    assert Linked(m, i, bins[i]) && LinkedAt(m, i, bins[i], k + 1);
    if i != LAST_REMAINDER {
      OneList(bins, f, i, LAST_REMAINDER, p);
      if k + 1 < |bins[i]| { NodesApart(bins, f, i, k + 1, LAST_REMAINDER, -1); }
    }
  }

  lemma RemainderResized(bins: BinLists, f: map<int, int>, p: int, sz: nat)
    requires BinsOk(bins, f) && bins[LAST_REMAINDER] == [p] && sz >= MINSIZE && sz % 8 == 0
    ensures BinsOk(bins, f[p := sz])
  {
    var g := f[p := sz];
    assert p in bins[LAST_REMAINDER];
    forall i | 0 <= i < NAV ensures BinOk(bins, g, i) {
      assert BinOk(bins, f, i);
      if i != LAST_REMAINDER { OneList(bins, f, LAST_REMAINDER, i, p); }
    }
    assert BinOk(bins, f, LAST_REMAINDER);
    forall q | q in g ensures Placed(bins, g, q) {
      assert Placed(bins, f, q);
      if q == p && BinIndex(sz) != LAST_REMAINDER { OneList(bins, f, LAST_REMAINDER, BinIndex(sz), p); }
    }
  }

  lemma RemainderMoved(bins: BinLists, f: map<int, int>, old_: int, p: int, sz: nat)
    requires BinsOk(bins, f) && bins[LAST_REMAINDER] == [old_] && old_ in f && p !in f && sz >= MINSIZE && sz % 8 == 0
    ensures BinsOk(bins[LAST_REMAINDER := [p]], (f - {old_})[p := sz])
  {
    assert bins[LAST_REMAINDER][0] == old_;
    UnlinkedIs(bins, f, LAST_REMAINDER, 0);
    UnlinkedOk(bins, f, old_);
    var bins1 := Unlinked(bins, old_);
    assert bins1[LAST_REMAINDER] == [];
    RemainderLinkedOk(bins1, f - {old_}, p, sz);
    assert bins1[LAST_REMAINDER := [p]] == bins[LAST_REMAINDER := [p]];
  }

  /** What the tags around a block say when the chunk after it is not top. */
  lemma StepToBin(s: State, p0: int)
    requires Inv(s) && p0 in LiveMap(s.c) && p0 + LiveMap(s.c)[p0] != s.top
    ensures Arena(s) && Keys(FreeMap(s.c)) && FreeMap(s.c) - {p0} == FreeMap(s.c)
    ensures ClearBit(Rd(s.m, p0 + 4)) == s.c[p0].size
    ensures var next := p0 + s.c[p0].size;
      && next in s.c && s.c[next].kind != Top && SizeOf(Rd(s.m, next + 4)) == s.c[next].size
      && next + s.c[next].size in s.c
      && (PrevInUse(Rd(s.m, next + s.c[next].size + 4)) <==> s.c[next].kind == Used)
      && (s.c[next].kind == Free ==> Rd(s.m, next + s.c[next].size + 4) == s.c[next + s.c[next].size].size)
    ensures PrevInUse(Rd(s.m, p0 + 4)) <==> Start(s, p0) == p0
    ensures Start(s, p0) != p0 ==> Start(s, p0) in FreeMap(s.c) && Rd(s.m, p0) == p0 - Start(s, p0)
  {
    hide Inv, Arena, SizeOf, ClearBit, PrevInUse;
    BlockSize(s, p0);
    Neighbours(s, p0);
    var next := p0 + s.c[p0].size;
    Neighbours(s, next);
    TopKind(s, next);
    FreeKeys(s);
    TagWord(s, p0);
    TagWord(s, next);
    TagWord(s, next + s.c[next].size);
  }

  lemma TopKind(s: State, p: int)
    requires Arena(s) && p in s.c
    ensures s.c[p].kind == Top <==> p == s.top
  {
    assert ChunkOk(s.c, s.base, s.top, s.end, p);
  }

  /** What the size word of a chunk says. */
  lemma TagWord(s: State, p: int)
    requires Arena(s) && p in s.c
    ensures SizeOf(Rd(s.m, p + 4)) == s.c[p].size == ClearBit(Rd(s.m, p + 4))
    ensures PrevInUse(Rd(s.m, p + 4)) <==> PrevBit(s.c, s.base, p) == 1
    ensures Rd(s.m, p + 4) == s.c[p].size + PrevBit(s.c, s.base, p)
    ensures PrevBit(s.c, s.base, p) == 0 ==> PrevFree(s, p)
  {
    Neighbours(s, p);
    WordParts(s.c[p].size, PrevBit(s.c, s.base, p));
  }

  /** Bounds of the space that freeing p0 makes. */
  lemma FreedSpace(s: State, p0: int)
    requires Inv(s) && p0 in LiveMap(s.c) && p0 + LiveMap(s.c)[p0] != s.top
    ensures var lo, hi := Start(s, p0), End(s, p0);
      && Arena(s) && lo in s.c && hi in s.c && lo <= p0 && lo + MINSIZE <= hi && (hi - lo) % 8 == 0
      && lo + MINSIZE <= p0 + s.c[p0].size <= hi && lo % 8 == 0 && FIRST <= lo
      && PrevBit(s.c, s.base, lo) == 1 && s.c[hi].kind == Used
      && lo !in Rest(s, p0)
  {
    StepToBin(s, p0);
    var lo, next, hi := Start(s, p0), p0 + s.c[p0].size, End(s, p0);
    Neighbours(s, p0);
    Neighbours(s, lo);
    Neighbours(s, next);
    Neighbours(s, hi);
    assert ChunkOk(s.c, s.base, s.top, s.end, next);
    AlignedDiff(hi, lo);
  }

  lemma FreedSpaceMaps(s: State, p0: int)
    requires Inv(s) && p0 in LiveMap(s.c) && p0 + LiveMap(s.c)[p0] != s.top
    ensures var lo, hi := Start(s, p0), End(s, p0);
      && Outside(FreeMap(s.c), lo, hi) == Rest(s, p0)
      && Outside(LiveMap(s.c), lo, hi) == LiveMap(s.c) - {p0}
  {
    FreedSpace(s, p0);
    var lo, next, hi := Start(s, p0), p0 + s.c[p0].size, End(s, p0);
    FreedMaps(s, p0, lo, next);
    StepToBin(s, p0);
    assert ChunkOk(s.c, s.base, s.top, s.end, next);
    if hi != next {
      OutsideOne(s.c, s.base, s.top, s.end, next);
      OutsideJoin(FreeMap(s.c), lo, next, hi);
      OutsideJoin(LiveMap(s.c), lo, next, hi);
      OutsideMinus(FreeMap(s.c), lo, next, hi);
      OutsideMinus(LiveMap(s.c), p0, next, hi);
    }
  }

  /** The memory around the space that freeing p0 makes, once its tags are written. */
  ghost predicate FreedMem(s: State, p0: int, m: Words)
    requires p0 in s.c
  {
    var lo, hi := Start(s, p0), End(s, p0);
    && hi in s.c
    && Frame(s.m, m, s.c, lo, hi)
    && Rd(m, lo + 4) == hi - lo + 1 && Rd(m, hi) == hi - lo && Rd(m, hi + 4) == s.c[hi].size
  }

  lemma RestKeys(s: State, p0: int)
    requires Inv(s) && p0 in LiveMap(s.c) && p0 + LiveMap(s.c)[p0] != s.top
    ensures Keys(Rest(s, p0)) && Fresh(Rest(s, p0), Start(s, p0)) && Rest(s, p0).Keys + {Start(s, p0)} <= s.c.Keys
  {
    FreedSpace(s, p0);
    FreeKeys(s);
  }

  lemma FreedTags(s: State, p0: int, m1: Words, bins: BinLists, g: map<int, int>)
    requires Inv(s) && p0 in LiveMap(s.c) && p0 + LiveMap(s.c)[p0] != s.top
    requires var lo, hi := Start(s, p0), End(s, p0);
      && hi in s.c && Frame(s.m, m1, s.c, lo, hi) && Rd(m1, hi + 4) == s.c[hi].size
      && BinsOk(bins, g) && LinksOk(m1, bins) && g.Keys <= Rest(s, p0).Keys + {lo}
    ensures var lo, hi := Start(s, p0), End(s, p0);
      var m2 := m1[lo + 4 := hi - lo + 1][hi := hi - lo];
      && FreedMem(s, p0, m2) && LinksOk(m2, bins)
      && Keys(Rest(s, p0)) && Fresh(Rest(s, p0), lo) && SizesOk(m2, Rest(s, p0))
  {
    FreedSpace(s, p0);
    RestKeys(s, p0);
    FreedSpaceMaps(s, p0);
    var lo, hi, f := Start(s, p0), End(s, p0), Rest(s, p0);
    assert Keys(g) && g.Keys <= s.c.Keys;
    hide Inv, Arena, BinsOk, LinksOk, Frame, SizesOk, Start, End, Rest, Keys, Fresh, Outside;
    TagWrite(s, lo, bins, g, m1, lo + 4, hi - lo + 1);
    TagWrite(s, hi, bins, g, m1[lo + 4 := hi - lo + 1], hi, hi - lo);
    FrameWrite(s.m, m1, s.c, lo, hi, lo + 4, hi - lo + 1);
    FrameWrite(s.m, m1[lo + 4 := hi - lo + 1], s.c, lo, hi, hi, hi - lo);
    FrameSizes(s, m1[lo + 4 := hi - lo + 1][hi := hi - lo], lo, hi, f);
  }

  /** Free chunks outside the interval still show their size. */
  lemma FrameSizes(s: State, m: Words, lo: int, hi: int, f: map<int, int>)
    requires Arena(s) && lo in s.c && lo <= hi && hi in s.c && s.c[hi].kind != Free && Frame(s.m, m, s.c, lo, hi)
    requires f == Outside(FreeMap(s.c), lo, hi)
    ensures SizesOk(m, f)
  {
    FrameTags(s, m, lo, hi);
    forall q | q in f ensures SizeOf(Rd(m, q + 4)) == f[q] {
      assert TagKept(s.m, m, s.c, lo, hi, q);
      Neighbours(s, q);
      WordParts(s.c[q].size, PrevBit(s.c, s.base, q));
    }
  }

  lemma FreedLinks(s: State, p0: int, m2: Words, m3: Words)
    requires Inv(s) && p0 in LiveMap(s.c) && p0 + LiveMap(s.c)[p0] != s.top
    requires FreedMem(s, p0, m2) && SameExceptLinks(m2, m3, Rest(s, p0).Keys + {Start(s, p0)})
    ensures FreedMem(s, p0, m3)
  {
    FreedSpace(s, p0);
    var lo, hi := Start(s, p0), End(s, p0);
    NotLink(s, lo);
    NotLink(s, hi);
    FrameLinks(s.m, m2, m3, s.c, lo, hi, Rest(s, p0).Keys + {lo});
  }

  lemma FreedIntoBin(s: State, s': State, p0: int)
    requires Inv(s) && p0 in LiveMap(s.c) && p0 + LiveMap(s.c)[p0] != s.top
    requires FreedMem(s, p0, s'.m)
    requires Start(s, p0) in s.c && s'.c == Recut1(s.c, Start(s, p0), End(s, p0), Free)
    requires BinsOk(s'.bins, Rest(s, p0)[Start(s, p0) := End(s, p0) - Start(s, p0)])
    requires LinksOk(s'.m, s'.bins) && BlocksOk(s'.bins, s'.w)
    requires s'.base == s.base && s'.top == s.top && s'.end == s.end
    ensures Inv(s') && LiveMap(s'.c) == LiveMap(s.c) - {p0} && Kept(s.m, s'.m, LiveMap(s'.c))
  {
    FreedSpace(s, p0);
    FreedSpaceMaps(s, p0);
    Recut1Arena(s, s', Start(s, p0), End(s, p0), Free);
  }

  /** A list of a bin changes while its block is marked. */
  lemma BlocksGrow(bins: BinLists, w: set<int>, i: nat, s: seq<int>)
    requires BlocksOk(bins, w) && 2 <= i < NAV && i / BINBLOCKWIDTH in w
    ensures BlocksOk(bins[i := s], w)
  {
  }

  lemma BlockSize(s: State, p: int)
    requires Inv(s) && p in LiveMap(s.c)
    ensures Arena(s) && ClearBit(Rd(s.m, p + 4)) == s.c[p].size == SizeOf(Rd(s.m, p + 4)) && p != s.top
  {
    assert s.top != 0 && ChunkOk(s.c, s.base, s.top, s.end, p);
    assert TagOk(s.m, s.c, s.base, p);
    WordParts(s.c[p].size, PrevBit(s.c, s.base, p));
  }

  // ---------------------------------------------------------------- allocation

  /** The tags of a free chunk and of the used chunk after it. */
  lemma FreeChunk(s: State, v: int)
    requires Inv(s) && v in FreeMap(s.c)
    ensures Arena(s) && Keys(FreeMap(s.c)) && FIRST <= v && v % 8 == 0
    ensures var sz := s.c[v].size; var hi := v + sz;
      && sz >= MINSIZE && sz % 8 == 0
      && Rd(s.m, v + 4) == sz + 1 && SizeOf(Rd(s.m, v + 4)) == sz
      && hi in s.c && s.c[hi].kind == Used && Rd(s.m, hi + 4) == s.c[hi].size
      && SetBit(Rd(s.m, hi + 4)) == s.c[hi].size + 1
      && PrevBit(s.c, s.base, v) == 1
  {
    Neighbours(s, v);
    var hi := v + s.c[v].size;
    Neighbours(s, hi);
    FreeKeys(s);
    assert ChunkOk(s.c, s.base, s.top, s.end, v);
    WordParts(s.c[v].size, 1);
    WordParts(s.c[hi].size, 0);
  }

  lemma FreeChunkMaps(s: State, v: int)
    requires Inv(s) && v in FreeMap(s.c)
    ensures Outside(FreeMap(s.c), v, v + s.c[v].size) == FreeMap(s.c) - {v}
    ensures Outside(LiveMap(s.c), v, v + s.c[v].size) == LiveMap(s.c)
  {
    FreeChunk(s, v);
    assert ChunkOk(s.c, s.base, s.top, s.end, v);
    OutsideOne(s.c, s.base, s.top, s.end, v);
  }

  /** A whole free chunk handed out. */
  lemma TookWhole(s: State, m: Words, bins: BinLists, v: int)
    requires Inv(s) && v in FreeMap(s.c)
    requires SameExceptLinks(s.m, m, FreeMap(s.c).Keys - {v}) && LinksOk(m, bins) && BlocksOk(bins, s.w)
    requires BinsOk(bins, FreeMap(s.c) - {v})
    ensures var hi := v + FreeMap(s.c)[v];
      && hi in s.c && Rd(m, hi + 4) == Rd(s.m, hi + 4)
      && var s' := s.(m := m[hi + 4 := s.c[hi].size + 1], bins := bins, c := Recut1(s.c, v, hi, Used));
         && Inv(s') && LiveMap(s'.c) == LiveMap(s.c)[v := FreeMap(s.c)[v]] && Kept(s.m, s'.m, LiveMap(s.c))
  {
    FreeChunk(s, v);
    var hi := v + FreeMap(s.c)[v];
    NotLink(s, v);
    NotLink(s, hi);
    var m' := m[hi + 4 := s.c[hi].size + 1];
    FrameLinks(s.m, s.m, m, s.c, v, hi, FreeMap(s.c).Keys - {v});
    FrameWrite(s.m, m, s.c, v, hi, hi + 4, s.c[hi].size + 1);
    var s' := s.(m := m', bins := bins, c := Recut1(s.c, v, hi, Used));
    assert Rd(m', v + 4) == Rd(m, v + 4);
    FreeChunkMaps(s, v);
    Recut1Arena(s, s', v, hi, Used);
    TagWrite(s, hi, bins, FreeMap(s.c) - {v}, m, hi + 4, s.c[hi].size + 1);
  }

  /** The address a free chunk is split at starts no chunk, and its links miss the chunk's ends. */
  lemma SplitPoint(s: State, v: int, mid: int)
    requires Inv(s) && v in FreeMap(s.c) && v + MINSIZE <= mid && mid + MINSIZE <= v + FreeMap(s.c)[v] && mid % 8 == 0
    ensures Fresh(FreeMap(s.c), mid)
    ensures !LinkWord(FreeMap(s.c).Keys + {mid}, v + 4)
    ensures !LinkWord(FreeMap(s.c).Keys + {mid}, v + FreeMap(s.c)[v] + 4)
  {
    FreeChunk(s, v);
    NotLink(s, v);
    NotLink(s, v + s.c[v].size);
    assert Apart(s.c, v, mid);
  }

  lemma BinCount(s: State)
    requires Inv(s)
    ensures |s.bins| == NAV
  {
  }

  /** Linking the remainder of a split leaves the tags at both ends of the chunk. */
  lemma RemainderFramed(s: State, v: int, mid: int, m1: Words, m2: Words)
    requires Inv(s) && v in FreeMap(s.c) && v + MINSIZE <= mid && mid + MINSIZE <= v + FreeMap(s.c)[v] && mid % 8 == 0
    requires Frame(s.m, m1, s.c, v, v + FreeMap(s.c)[v])
    requires SameExceptLinks(m1, m2, (FreeMap(s.c) - {v}).Keys + {mid})
    ensures Frame(s.m, m2, s.c, v, v + FreeMap(s.c)[v])
    ensures Rd(m2, v + 4) == Rd(m1, v + 4) && Rd(m2, v + FreeMap(s.c)[v] + 4) == Rd(m1, v + FreeMap(s.c)[v] + 4)
  {
    hide Inv, Frame;
    var ks, hi := (FreeMap(s.c) - {v}).Keys + {mid}, v + FreeMap(s.c)[v];
    SplitPoint(s, v, mid);
    FrameLinks(s.m, m1, m2, s.c, v, hi, ks);
    assert !LinkWord(ks, v + 4) && !LinkWord(ks, hi + 4);
  }

  /** Tags of a split are written where no link is. */
  lemma SplitWrite(s: State, v: int, mid: int, bins: BinLists, g: map<int, int>, m: Words, a: int, x: int)
    requires Inv(s) && v in FreeMap(s.c) && v + MINSIZE <= mid && mid + MINSIZE <= v + FreeMap(s.c)[v] && mid % 8 == 0
    requires BinsOk(bins, g) && Keys(g) && g.Keys == FreeMap(s.c).Keys - {v} + {mid} && LinksOk(m, bins)
    requires a == v + 4 || a == mid + 4 || a == v + FreeMap(s.c)[v]
    ensures LinksOk(m[a := x], bins)
  {
    FreeChunk(s, v);
    var hi := v + s.c[v].size;
    NotLink(s, v);
    NotLink(s, hi);
    forall k | k in g ensures k + 8 != a && k + 12 != a {
      if k != mid {
        assert Apart(s.c, v, k);
        assert k + 8 != hi && k + 12 != hi;
      }
    }
    assert a - 8 !in g && a - 12 !in g;
    LinksSurvive(m, m[a := x], bins, g);
  }

  /** A free chunk split: the front handed out, the rest free again. */
  lemma SplitDone(s: State, s': State, v: int, mid: int)
    requires Inv(s) && v in FreeMap(s.c) && v + MINSIZE <= mid && mid + MINSIZE <= v + FreeMap(s.c)[v] && mid % 8 == 0
    requires var hi := v + FreeMap(s.c)[v];
      && hi in s.c && s'.c == Recut2(s.c, v, mid, hi, Used, Kind.Free)
      && Frame(s.m, s'.m, s.c, v, hi)
      && Rd(s'.m, v + 4) == mid - v + 1 && Rd(s'.m, mid + 4) == hi - mid + 1 && Rd(s'.m, hi) == hi - mid
      && Rd(s'.m, hi + 4) == Rd(s.m, hi + 4)
      && BinsOk(s'.bins, (FreeMap(s.c) - {v})[mid := hi - mid])
    requires LinksOk(s'.m, s'.bins) && BlocksOk(s'.bins, s'.w)
    requires s'.base == s.base && s'.top == s.top && s'.end == s.end
    ensures Inv(s') && LiveMap(s'.c) == LiveMap(s.c)[v := mid - v] && Kept(s.m, s'.m, LiveMap(s.c))
  {
    FreeChunk(s, v);
    FreeChunkMaps(s, v);
    Recut2Arena(s, s', v, mid, v + FreeMap(s.c)[v], Kind.Free);
  }

  /** The front of top handed out. */
  lemma TopDone(s: State, nb: int)
    requires Inv(s) && s.top != 0 && MINSIZE <= nb && nb % 8 == 0 && nb + MINSIZE <= s.c[s.top].size
    ensures SizeOf(Rd(s.m, s.top + 4)) == s.end - s.top
    ensures var mid := s.top + nb;
      var s' := s.(m := s.m[s.top + 4 := nb + 1][mid + 4 := s.end - mid + 1], top := mid,
        c := RecutUsedTop(s.c, s.top, mid, s.end));
      && Inv(s') && LiveMap(s'.c) == LiveMap(s.c)[s.top := nb] && Kept(s.m, s'.m, LiveMap(s.c))
      && s.top in s.c && s.top !in LiveMap(s.c) && s.top !in FreeMap(s.c)
  {
    hide Arena, BinsOk, LinksOk, BlocksOk, Kept, RecutUsedTop;
    TopWord(s);
    RegionAligned(s, s.top, nb);
    var mid := s.top + nb;
    assert Outside(LiveMap(s.c), s.top, s.top) == LiveMap(s.c);
    assert Outside(FreeMap(s.c), s.top, s.top) == FreeMap(s.c);
    RegionTop(s, s.top, mid, s.m, s.bins);
    assert s.m[s.top + 4 := nb + 1][mid + 4 := s.end - mid + 1] == s.m[mid + 4 := s.end - mid + 1][s.top + 4 := nb + 1];
  }

  lemma GrownTopWord(s: State, size: int)
    requires Inv(s) && s.top != 0 && 0 <= size && size % PAGE == 0
    ensures s.top in s.c && SizeOf(s.end - s.top + size + 1) == s.end - s.top + size
  {
    assert ChunkOk(s.c, s.base, s.top, s.end, s.top);
    PageAligned(s.end + size);
    AlignedDiff(s.end + size, s.top);
    WordParts(s.end - s.top + size, 1);
  }

  /** Top grown in place by `size` bytes of new memory. */
  lemma TopExtended(s: State, size: int)
    requires Inv(s) && s.top != 0 && 0 <= size && size % PAGE == 0
    ensures SizeOf(Rd(s.m, s.top + 4)) == s.end - s.top
    ensures var s' := s.(m := s.m[s.top + 4 := s.end - s.top + size + 1], end := s.end + size,
      c := RecutTop(s.c, s.top, s.end + size));
      && Inv(s') && LiveMap(s'.c) == LiveMap(s.c) && FreeMap(s'.c) == FreeMap(s.c) && Kept(s.m, s'.m, LiveMap(s.c))
      && s'.c[s'.top].size == s.c[s.top].size + size
  {
    Neighbours(s, s.top);
    assert ChunkOk(s.c, s.base, s.top, s.end, s.top);
    WordParts(s.c[s.top].size, 1);
    BelowTop(s.c, s.base, s.top, s.end);
    var end' := s.end + size;
    var m' := s.m[s.top + 4 := end' - s.top + 1];
    var s' := s.(m := m', end := end', c := RecutTop(s.c, s.top, end'));
    FrameWrite(s.m, s.m, s.c, s.top, end', s.top + 4, end' - s.top + 1);
    RecutTopArena(s, s', s.top);
    assert Outside(LiveMap(s.c), s.top, s.top) == LiveMap(s.c);
    assert Outside(FreeMap(s.c), s.top, s.top) == FreeMap(s.c);
    FreeKeys(s);
    TagWrite(s, s.top, s.bins, FreeMap(s.c), s.m, s.top + 4, end' - s.top + 1);
  }

  /** The first memory obtained from the system becomes the first top chunk. */
  lemma FirstTop(s: State, t: int, e: int)
    requires Inv(s) && s.top == 0 && s.end <= t && t % 8 == 0 && e % PAGE == 0 && t + MINSIZE <= e
    ensures var s' := s.(m := s.m[t + 4 := e - t + 1], top := t, base := t, end := e,
      c := map[t := Chunk(e - t, Top, 0)]);
      Inv(s') && LiveMap(s'.c) == map[] && LiveMap(s.c) == map[] && FreeMap(s'.c) == FreeMap(s.c) == map[]
  {
    var s' := s.(m := s.m[t + 4 := e - t + 1], top := t, base := t, end := e, c := map[t := Chunk(e - t, Top, 0)]);
    PageAligned(e);
    AlignedDiff(e, t);
    assert FreeMap(s.c) == map[];
    assert FreeMap(s'.c) == map[];
    assert ChunkOk(s'.c, t, t, e, t);
    assert TagOk(s'.m, s'.c, t, t);
    LinksSurvive(s.m, s'.m, s.bins, map[]);
  }

  function PageRound(x: int): int { x + (PAGE - 1) - (x + (PAGE - 1)) % PAGE }

  lemma PageRounded(x: int)
    ensures PageRound(x) % PAGE == 0 && x <= PageRound(x)
  {
  }

  lemma PageEnd(a: int)
    ensures (a + PAGE - a % PAGE) % PAGE == 0 && PAGE - a % PAGE > 0
  {
    assert a + PAGE - a % PAGE == (a / PAGE + 1) * PAGE;
  }

  /** The end of the first top: aligned start, request, and a correction up to a page boundary. */
  lemma FirstTopEnd(brk: int, size: int, fix: int)
    requires 0 <= size && fix == (if (brk + 8) % 8 > 0 then 8 - (brk + 8) % 8 else 0)
    ensures (brk + fix) % 8 == 0 && 0 <= fix < 8
    ensures var corr := fix + PAGE - (brk + fix + size) % PAGE;
      (brk + size + corr) % PAGE == 0 && corr > 0
  {
    PageEnd(brk + fix + size);
  }

  lemma KeptTrans(m: Words, m1: Words, m2: Words, live: map<int, int>)
    requires Kept(m, m1, live) && Kept(m1, m2, live)
    ensures Kept(m, m2, live)
  {
    forall q | q in live ensures SamePayload(m, m2, q, live[q]) {
      assert SamePayload(m, m1, q, live[q]) && SamePayload(m1, m2, q, live[q]);
    }
  }

  // ---------------------------------------------------------------- searching the bins

  /** The last node of a list is its header exactly when the list is empty. */
  lemma LastOf(s: State, i: int)
    requires Inv(s) && 1 <= i < NAV
    ensures Rd(s.m, Hdr(i) + 12) == Node(i, s.bins[i], |s.bins[i]| - 1)
    ensures Rd(s.m, Hdr(i) + 8) == Node(i, s.bins[i], 0)
    ensures Rd(s.m, Hdr(i) + 12) == Hdr(i) <==> s.bins[i] == []
    ensures Rd(s.m, Hdr(i) + 8) == Hdr(i) <==> s.bins[i] == []
  {
    ListedKeys(s);
    assert Linked(s.m, i, s.bins[i]);
    assert LinkedAt(s.m, i, s.bins[i], |s.bins[i]|) && LinkedAt(s.m, i, s.bins[i], 0);
    if s.bins[i] != [] {
      NodesApart(s.bins, FreeMap(s.c), i, |s.bins[i]| - 1, i, -1);
      NodesApart(s.bins, FreeMap(s.c), i, 0, i, -1);
    }
  }

  /** Bins of blocks that are not marked hold nothing. */
  lemma UnmarkedBetween(s: State, b0: int, b: int)
    requires Inv(s) && 1 <= b0 <= b <= 32 && forall d :: b0 <= d < b ==> d !in s.w
    ensures |s.bins| == NAV && forall i :: BINBLOCKWIDTH * b0 <= i < BINBLOCKWIDTH * b ==> s.bins[i] == []
  {
    EmptyBetween(s.bins, s.w, b0, b);
  }

  lemma ListedKeys(s: State)
    requires Inv(s)
    ensures Keys(FreeMap(s.c))
  {
    if s.top != 0 { FreeKeys(s); }
  }

  /** A chunk on list i: its size word, and the node before it. */
  lemma Listed(s: State, i: int, k: nat)
    requires Inv(s) && 1 <= i < NAV && k < |s.bins[i]|
    ensures var p := s.bins[i][k];
      && p in FreeMap(s.c) && SizeOf(Rd(s.m, p + 4)) == FreeMap(s.c)[p] >= MINSIZE && FreeMap(s.c)[p] % 8 == 0
      && (i != LAST_REMAINDER ==> BinIndex(FreeMap(s.c)[p]) == i && p !in s.bins[LAST_REMAINDER])
      && Rd(s.m, p + 12) == Node(i, s.bins[i], k - 1)
      && p != Hdr(i)
  {
    ListedKeys(s);
    var p := s.bins[i][k];
    assert p in s.bins[i] && BinOk(s.bins, FreeMap(s.c), i);
    FreeChunk(s, p);
    if i != LAST_REMAINDER { OneList(s.bins, FreeMap(s.c), i, LAST_REMAINDER, p); }
    assert Linked(s.m, i, s.bins[i]) && LinkedAt(s.m, i, s.bins[i], k);
    NodesApart(s.bins, FreeMap(s.c), i, k, i, -1);
  }

  /** A free chunk that is not the last remainder is in the bin of its size. */
  lemma Binned(s: State, q: int)
    requires Inv(s) && q in FreeMap(s.c) && q !in s.bins[LAST_REMAINDER]
    ensures FreeMap(s.c)[q] >= MINSIZE && FreeMap(s.c)[q] % 8 == 0 && q in s.bins[BinIndex(FreeMap(s.c)[q])]
  {
    assert Placed(s.bins, FreeMap(s.c), q);
  }

  ghost predicate HasFit(s: State, nb: int, i: int)
    requires 0 <= i < |s.bins|
  {
    exists p {:trigger p in s.bins[i]} :: p in s.bins[i] && p in FreeMap(s.c) && FreeMap(s.c)[p] >= nb
  }

  /** Every binned chunk that fits is in bin idx or above; in the request's own bin one does fit. */
  ghost predicate ScanFrom(s: State, nb: nat, idx: int) {
    && |s.bins| == NAV && BINBLOCKWIDTH <= idx < NAV && BinIndex(nb) <= idx
    && (idx == BinIndex(nb) ==> HasFit(s, nb, idx))
    && forall q {:trigger q in FreeMap(s.c)} ::
         q in FreeMap(s.c) && q !in s.bins[LAST_REMAINDER] && FreeMap(s.c)[q] >= nb ==>
           BinIndex(FreeMap(s.c)[q]) >= idx
  }

  /** No binned chunk fits without leaving a remainder: none at all for a small request, none in
      the request's own bin for a large one. */
  ghost predicate NoExact(s: State, nb: nat) {
    && |s.bins| == NAV
    && forall q {:trigger q in FreeMap(s.c)} ::
         q in FreeMap(s.c) && q !in s.bins[LAST_REMAINDER] && nb <= FreeMap(s.c)[q] < nb + MINSIZE ==>
           MAX_SMALLBIN_SIZE - SMALLBIN_WIDTH <= nb && BinIndex(FreeMap(s.c)[q]) != BinIndex(nb)
  }

  /** The last remainder's turn: no exact fit is binned and it is large enough. */
  ghost predicate RemainderServes(s: State, nb: nat) {
    && NoExact(s, nb)
    && exists v {:trigger v in s.bins[LAST_REMAINDER]} ::
         v in s.bins[LAST_REMAINDER] && v in FreeMap(s.c) && nb <= FreeMap(s.c)[v]
  }

  /** The top chunk has the same size in two heaps that end at the same place. */
  lemma SameTop(s: State, s': State)
    requires Inv(s) && Inv(s') && s.top == s'.top != 0 && s.end == s'.end
    ensures SizeOf(Rd(s.m, s.top + 4)) == SizeOf(Rd(s'.m, s'.top + 4))
  {
    hide Inv;
    TopWord(s);
    TopWord(s');
  }

  /** What realloc can use in front of and behind a block. */
  ghost predicate FitsAfter(s: State, p0: int, room: int, nb: int)
    requires p0 in s.c
  {
    var next := p0 + s.c[p0].size;
    next in s.c && (if next == s.top then nb + MINSIZE <= room + s.c[next].size
                    else next in FreeMap(s.c) && nb <= room + s.c[next].size)
  }

  ghost predicate FitsBefore(s: State, p0: int, nb: int)
    requires p0 in s.c
  {
    var prev := s.c[p0].prev;
    && p0 != s.base && prev in FreeMap(s.c) && prev in s.c
    && (nb <= s.c[prev].size + s.c[p0].size || FitsAfter(s, p0, s.c[prev].size + s.c[p0].size, nb))
  }

  /** The smallest chunk that fits in a bin, all lower bins holding none, is the best fit. */
  lemma FirstIsBest(s: State, nb: nat, idx: int, i: int, k: nat)
    requires Inv(s) && ScanFrom(s, nb, idx) && idx <= i < NAV && k < |s.bins[i]|
    requires forall j :: idx <= j < i ==> s.bins[j] == []
    requires s.bins[i][k] in FreeMap(s.c) && FreeMap(s.c)[s.bins[i][k]] >= nb
    requires forall j :: k < j < |s.bins[i]| ==> s.bins[i][j] in FreeMap(s.c) && FreeMap(s.c)[s.bins[i][j]] < nb
    ensures BestFit(s, nb, s.bins[i][k])
  {
    var f := FreeMap(s.c);
    var v := s.bins[i][k];
    Listed(s, i, k);
    assert BinOk(s.bins, f, i);
    forall q | q in f && q !in s.bins[LAST_REMAINDER] && f[q] >= nb ensures f[v] <= f[q] {
      Binned(s, q);
      var b := BinIndex(f[q]);
      if b == i {
        var j :| 0 <= j < |s.bins[i]| && s.bins[i][j] == q;
        assert j <= k;
      } else {
        assert s.bins[b] != [];
        assert b > i;
        if f[q] < f[v] { BinIndexMonotone(f[q], f[v]); }
      }
    }
  }

  /** Once every bin from idx up is empty, nothing fits. */
  lemma NothingFits(s: State, nb: nat, idx: int)
    requires Inv(s) && ScanFrom(s, nb, idx) && s.bins[LAST_REMAINDER] == []
    requires forall j :: idx <= j < NAV ==> s.bins[j] == []
    ensures NoFit(s, nb)
  {
    forall q | q in FreeMap(s.c) ensures FreeMap(s.c)[q] < nb {
      Binned(s, q);
    }
  }

  /** A bin in the range of the scan is empty or holds a chunk that fits. */
  lemma BinFits(s: State, nb: nat, idx: int, i: int)
    requires Inv(s) && ScanFrom(s, nb, idx) && idx <= i < NAV && s.bins[i] != []
    ensures exists k :: 0 <= k < |s.bins[i]| && s.bins[i][k] in FreeMap(s.c) && FreeMap(s.c)[s.bins[i][k]] >= nb
  {
    if i == BinIndex(nb) {
      assert HasFit(s, nb, idx);
    } else {
      Listed(s, i, 0);
      var p := s.bins[i][0];
      if FreeMap(s.c)[p] < nb { BinIndexMonotone(FreeMap(s.c)[p], nb); }
    }
  }

  /** Small requests: the two bins already looked at hold the only exact fits. */
  lemma SmallBest(s: State, nb: nat, i: int, k: nat)
    requires Inv(s) && nb % 8 == 0 && MINSIZE <= nb < MAX_SMALLBIN_SIZE - SMALLBIN_WIDTH
    requires nb / 8 <= i <= nb / 8 + 1 && k < |s.bins[i]| && (i == nb / 8 + 1 ==> s.bins[nb / 8] == [])
    ensures var v := s.bins[i][k]; v in FreeMap(s.c) && nb <= FreeMap(s.c)[v] < nb + MINSIZE && BestFit(s, nb, v)
  {
    var f := FreeMap(s.c);
    Listed(s, i, k);
    var v := s.bins[i][k];
    OwnBin(8 * i, f[v]);
    forall q | q in f && q !in s.bins[LAST_REMAINDER] && f[q] >= nb ensures f[v] <= f[q] {
      Binned(s, q);
      if f[q] == nb { assert s.bins[nb / 8] != []; }
    }
  }

  lemma SmallScan(s: State, nb: nat)
    requires Inv(s) && nb % 8 == 0 && MINSIZE <= nb < MAX_SMALLBIN_SIZE - SMALLBIN_WIDTH
    requires s.bins[nb / 8] == [] && s.bins[nb / 8 + 1] == []
    ensures ScanFrom(s, nb, nb / 8 + 2)
  {
    var f := FreeMap(s.c);
    forall q | q in f && q !in s.bins[LAST_REMAINDER] && f[q] >= nb ensures BinIndex(f[q]) >= nb / 8 + 2 {
      Binned(s, q);
      BinIndexMonotone(nb, f[q]);
      assert BinIndex(f[q]) != nb / 8 && BinIndex(f[q]) != nb / 8 + 1;
    }
  }

  lemma LargeScan(s: State, nb: nat, found: bool)
    requires Inv(s) && nb % 8 == 0 && MAX_SMALLBIN_SIZE - SMALLBIN_WIDTH <= nb
    requires found ==> HasFit(s, nb, BinIndex(nb))
    requires !found ==> !HasFit(s, nb, BinIndex(nb))
    ensures ScanFrom(s, nb, if found then BinIndex(nb) else BinIndex(nb) + 1)
  {
    var f := FreeMap(s.c);
    forall q | q in f && q !in s.bins[LAST_REMAINDER] && f[q] >= nb
      ensures BinIndex(f[q]) >= if found then BinIndex(nb) else BinIndex(nb) + 1
    {
      Binned(s, q);
      BinIndexMonotone(nb, f[q]);
    }
  }

  /** Moving a remainder that is too small into its bin does not disturb the scan. */
  lemma RemainderBinned(s: State, s': State, nb: nat, idx: int, v: int, k: nat)
    requires Inv(s) && ScanFrom(s, nb, idx) && s.bins[LAST_REMAINDER] == [v] && v in FreeMap(s.c)
      && 0 <= FreeMap(s.c)[v] < nb
    requires s'.c == s.c
    requires var b := BinIndex(FreeMap(s.c)[v]);
      && 2 <= b < NAV && k <= |s.bins[b]|
      && s'.bins == s.bins[LAST_REMAINDER := []][b := InsertedAt(s.bins[b], k, v)]
    ensures ScanFrom(s', nb, idx)
    ensures forall w :: BestFit(s', nb, w) ==> BestFit(s, nb, w)
  {
    var f := FreeMap(s.c);
    var b := BinIndex(f[v]);
    if idx == BinIndex(nb) {
      var p :| p in s.bins[idx] && p in f && f[p] >= nb;
      var j :| 0 <= j < |s.bins[idx]| && s.bins[idx][j] == p;
      if b == idx { assert p == s'.bins[idx][if j < k then j else j + 1]; }
      assert p in s'.bins[idx];
    }
    assert forall q :: q in s.bins[LAST_REMAINDER] <==> q == v;
  }

  lemma TopWord(s: State)
    requires Inv(s) && s.top != 0
    ensures SizeOf(Rd(s.m, s.top + 4)) == s.c[s.top].size == s.end - s.top && Rd(s.m, s.top + 4) % 2 == 1
    ensures s.top in s.c && s.top !in FreeMap(s.c) && s.top !in LiveMap(s.c)
  {
    Neighbours(s, s.top);
    assert ChunkOk(s.c, s.base, s.top, s.end, s.top);
    WordParts(s.c[s.top].size, PrevBit(s.c, s.base, s.top));
  }

  lemma DropRemainder(s: State, v: int)
    requires Inv(s) && s.bins[LAST_REMAINDER] == [v]
    ensures Unlinked(s.bins, v) == s.bins[LAST_REMAINDER := []]
  {
    assert s.bins[LAST_REMAINDER][0] == v;
    UnlinkedIs(s.bins, FreeMap(s.c), LAST_REMAINDER, 0);
  }

  lemma SameBoth(m: Words, m1: Words, m2: Words, ks1: set<int>, ks2: set<int>, ks: set<int>)
    requires SameExceptLinks(m, m1, ks1) && SameExceptLinks(m1, m2, ks2) && ks1 <= ks && ks2 <= ks
    ensures SameExceptLinks(m, m2, ks)
  {
    forall a ensures LinkWord(ks, a) || Rd(m2, a) == Rd(m, a) {
      assert LinkWord(ks2, a) || Rd(m2, a) == Rd(m1, a);
    }
  }

  /** Writing links of free chunks disturbs neither the arena nor any live block. */
  lemma LinkArena(s: State, m: Words)
    requires Arena(s) && SameExceptLinks(s.m, m, FreeMap(s.c).Keys)
    ensures Arena(s.(m := m)) && Kept(s.m, m, LiveMap(s.c))
  {
    forall p | p in s.c ensures TagOk(m, s.c, s.base, p) {
      assert TagOk(s.m, s.c, s.base, p) && ChunkOk(s.c, s.base, s.top, s.end, p);
      NotLink(s, p);
      if s.c[p].kind == Free { NotLink(s, p + s.c[p].size); }
    }
    forall q | q in LiveMap(s.c) ensures SamePayload(s.m, m, q, LiveMap(s.c)[q]) {
      forall a | q + 8 <= a < q + s.c[q].size + 4 ensures Rd(m, a) == Rd(s.m, a) { PayloadNotLink(s, q, a); }
    }
  }

  lemma LinkSizes(s: State, m: Words, ks: set<int>, f: map<int, int>)
    requires Inv(s) && s.top != 0 && SameExceptLinks(s.m, m, ks) && ks <= FreeMap(s.c).Keys
    requires forall q :: q in f ==> q in FreeMap(s.c) && f[q] == FreeMap(s.c)[q]
    ensures SizesOk(m, f)
  {
    forall q | q in f ensures SizeOf(Rd(m, q + 4)) == f[q] {
      FreeChunk(s, q);
      NotLink(s, q);
    }
  }

  /** A chunk that serves a small request exactly. */
  ghost predicate SmallFit(s: State, nb: int, v: int) {
    && |s.bins| == NAV && v in FreeMap(s.c) && v !in s.bins[LAST_REMAINDER] && BestFit(s, nb, v)
    && SizeOf(Rd(s.m, v + 4)) == FreeMap(s.c)[v] < nb + MINSIZE
  }

  lemma SmallFitAt(s: State, nb: nat, i: int)
    requires Inv(s) && nb % 8 == 0 && MINSIZE <= nb < MAX_SMALLBIN_SIZE - SMALLBIN_WIDTH
    requires nb / 8 <= i <= nb / 8 + 1 && s.bins[i] != [] && (i == nb / 8 + 1 ==> s.bins[nb / 8] == [])
    ensures SmallFit(s, nb, Rd(s.m, Hdr(i) + 12))
  {
    LastOf(s, i);
    Listed(s, i, |s.bins[i]| - 1);
    SmallBest(s, nb, i, |s.bins[i]| - 1);
  }

  lemma SmallFound(s: State, nb: nat)
    requires Inv(s) && nb % 8 == 0 && MINSIZE <= nb < MAX_SMALLBIN_SIZE - SMALLBIN_WIDTH
    ensures var q := Hdr(nb / 8); var v, v' := Rd(s.m, q + 12), Rd(s.m, q + 20);
      && (v != q ==> SmallFit(s, nb, v))
      && (v == q && v' != q + 8 ==> SmallFit(s, nb, v'))
      && (v == q && v' == q + 8 ==> ScanFrom(s, nb, nb / 8 + 2))
  {
    var i := nb / 8;
    assert Hdr(i + 1) == Hdr(i) + 8;
    LastOf(s, i);
    LastOf(s, i + 1);
    if s.bins[i] != [] {
      SmallFitAt(s, nb, i);
    } else if s.bins[i + 1] != [] {
      SmallFitAt(s, nb, i + 1);
    } else {
      SmallScan(s, nb);
    }
  }

  // ---------------------------------------------------------------- realloc

  /** The region a block can grow into: back over a free chunk before it, forward over one after it. */
  ghost function RegionLo(s: State, p0: int, back: bool): int
    requires p0 in s.c
  {
    if back then s.c[p0].prev else p0
  }

  ghost function RegionHi(s: State, p0: int, fwd: bool): int
    requires p0 in s.c
  {
    var next := p0 + s.c[p0].size;
    if fwd && next in s.c then next + s.c[next].size else next
  }

  ghost predicate Region(s: State, p0: int, back: bool, fwd: bool) {
    && Inv(s) && p0 in LiveMap(s.c)
    && (back ==> s.c[p0].prev in FreeMap(s.c) && p0 != s.base)
    && (fwd ==> p0 + s.c[p0].size in FreeMap(s.c))
  }

  lemma RegionBounds(s: State, p0: int, back: bool, fwd: bool)
    requires Region(s, p0, back, fwd)
    ensures var lo, hi := RegionLo(s, p0, back), RegionHi(s, p0, fwd);
      && Arena(s) && lo in s.c && hi in s.c && lo <= p0 && p0 + s.c[p0].size <= hi && lo + MINSIZE <= hi
         && (hi - lo) % 8 == 0
      && MINSIZE <= s.c[p0].size
      && (back ==> lo + MINSIZE <= p0 && p0 == lo + s.c[lo].size && lo !in LiveMap(s.c))
      && (fwd ==> hi == p0 + s.c[p0].size + s.c[p0 + s.c[p0].size].size)
      && FIRST <= lo
  {
    BlockSize(s, p0);
    Neighbours(s, p0);
    assert ChunkOk(s.c, s.base, s.top, s.end, p0);
    var lo, next, hi := RegionLo(s, p0, back), p0 + s.c[p0].size, RegionHi(s, p0, fwd);
    Neighbours(s, lo);
    Neighbours(s, next);
    if fwd { assert ChunkOk(s.c, s.base, s.top, s.end, next); }
    Neighbours(s, hi);
    AlignedDiff(hi, lo);
  }

  ghost function RegionRest(s: State, p0: int, back: bool, fwd: bool): map<int, int>
    requires p0 in s.c
  {
    var f := if back then FreeMap(s.c) - {s.c[p0].prev} else FreeMap(s.c);
    if fwd then f - {p0 + s.c[p0].size} else f
  }

  lemma RegionMaps(s: State, p0: int, back: bool, fwd: bool)
    requires Region(s, p0, back, fwd)
    ensures var lo, hi := RegionLo(s, p0, back), RegionHi(s, p0, fwd);
      Outside(FreeMap(s.c), lo, hi) == RegionRest(s, p0, back, fwd)
        && Outside(LiveMap(s.c), lo, hi) == LiveMap(s.c) - {p0}
  {
    RegionBounds(s, p0, back, fwd);
    BlockSize(s, p0);
    var c := s.c;
    var lo, next, hi := RegionLo(s, p0, back), p0 + c[p0].size, RegionHi(s, p0, fwd);
    OutsideOne(c, s.base, s.top, s.end, p0);
    assert FreeMap(c) - {p0} == FreeMap(c);
    if back {
      assert ChunkOk(c, s.base, s.top, s.end, lo);
      OutsideOne(c, s.base, s.top, s.end, lo);
      RegionBack(s, p0, lo, next);
    }
    if fwd {
      assert ChunkOk(c, s.base, s.top, s.end, next);
      OutsideOne(c, s.base, s.top, s.end, next);
      RegionFwd(s, p0, lo, next, hi);
    }
  }

  lemma RegionBack(s: State, p0: int, lo: int, next: int)
    requires lo <= p0 <= next
    requires Outside(FreeMap(s.c), lo, p0) == FreeMap(s.c) - {lo}
      && Outside(LiveMap(s.c), lo, p0) == LiveMap(s.c) - {lo}
    requires Outside(FreeMap(s.c), p0, next) == FreeMap(s.c) && Outside(LiveMap(s.c), p0, next) == LiveMap(s.c) - {p0}
    requires lo !in LiveMap(s.c)
    ensures Outside(FreeMap(s.c), lo, next) == FreeMap(s.c) - {lo}
      && Outside(LiveMap(s.c), lo, next) == LiveMap(s.c) - {p0}
  {
    OutsideJoin(FreeMap(s.c), lo, p0, next);
    OutsideJoin(LiveMap(s.c), lo, p0, next);
    OutsideMinus(FreeMap(s.c), lo, p0, next);
  }

  lemma RegionFwd(s: State, p0: int, lo: int, next: int, hi: int)
    requires lo <= next <= hi
    requires Outside(FreeMap(s.c), next, hi) == FreeMap(s.c) - {next}
      && Outside(LiveMap(s.c), next, hi) == LiveMap(s.c) - {next}
    requires next !in LiveMap(s.c)
    ensures Outside(FreeMap(s.c), lo, hi) == Outside(FreeMap(s.c), lo, next) - {next}
    ensures Outside(LiveMap(s.c), lo, hi) == Outside(LiveMap(s.c), lo, next)
  {
    OutsideTail(FreeMap(s.c), lo, next, hi);
    OutsideTail(LiveMap(s.c), lo, next, hi);
  }

  lemma OutsideTail(f: map<int, int>, lo: int, next: int, hi: int)
    requires lo <= next <= hi && Outside(f, next, hi) == f - {next}
    ensures Outside(f, lo, hi) == Outside(f, lo, next) - {next}
  {
    forall q | q in f ensures next <= q < hi <==> q == next {
      assert q in Outside(f, next, hi) <==> q in f - {next};
    }
  }

  /** The memory of a region about to become one block: only its inside and links have changed, and
      the size words at both ends are as they were. */
  ghost predicate RegionMem(s: State, lo: int, hi: int, m: Words) {
    Frame(s.m, m, s.c, lo, hi) && Rd(m, lo + 4) == Rd(s.m, lo + 4) && Rd(m, hi + 4) == Rd(s.m, hi + 4)
  }

  /** Tag writes at the ends or inside a region spare the links of the chunks outside it. */
  lemma RegionLinks(s: State, lo: int, hi: int, m: Words, m': Words, bins: BinLists)
    requires Arena(s) && lo in s.c && hi in s.c && lo < hi
    requires BinsOk(bins, Outside(FreeMap(s.c), lo, hi)) && LinksOk(m, bins)
    requires forall a {:trigger Rd(m', a)} :: !(lo + 4 <= a <= hi + 4) ==> Rd(m', a) == Rd(m, a)
    ensures LinksOk(m', bins)
  {
    var g := Outside(FreeMap(s.c), lo, hi);
    FreeKeys(s);
    assert ChunkOk(s.c, s.base, s.top, s.end, lo);
    forall k | k in g ensures k + 12 < lo + 4 || hi + 4 < k + 8 {
      assert ChunkOk(s.c, s.base, s.top, s.end, k);
      assert Apart(s.c, k, lo);
    }
    forall a | LinkWord(g.Keys, a) ensures Rd(m', a) == Rd(m, a) {
      if a - 8 in g { assert (a - 8) + 8 == a; }
      if a - 12 in g { assert (a - 12) + 12 == a; }
    }
    LinksSurvive(m, m', bins, g);
  }

  /** The whole region becomes one block. */
  lemma RegionWhole(s: State, lo: int, hi: int, m: Words, bins: BinLists)
    requires Inv(s) && s.top != 0 && lo in s.c && hi in s.c && lo < hi && RegionMem(s, lo, hi, m)
    requires BinsOk(bins, Outside(FreeMap(s.c), lo, hi)) && LinksOk(m, bins) && BlocksOk(bins, s.w)
    ensures var m' := m[lo + 4 := hi - lo + Rd(m, lo + 4) % 2][hi + 4 := SetBit(Rd(m, hi + 4))];
      var s' := s.(m := m', bins := bins, c := Recut1(s.c, lo, hi, Used));
      && Inv(s') && LiveMap(s'.c) == Outside(LiveMap(s.c), lo, hi)[lo := hi - lo]
         && Kept(s.m, m', Outside(LiveMap(s.c), lo, hi))
      && SamePayload(m, m', lo, hi - lo)
  {
    hide Tiled, Fused, Tags, BinsOk, LinksOk, BlocksOk, Kept, LiveMap, FreeMap, Outside;
    var m' := m[lo + 4 := hi - lo + Rd(m, lo + 4) % 2][hi + 4 := SetBit(Rd(m, hi + 4))];
    var s' := s.(m := m', bins := bins, c := Recut1(s.c, lo, hi, Used));
    Neighbours(s, lo);
    Neighbours(s, hi);
    WordParts(s.c[lo].size, PrevBit(s.c, s.base, lo));
    WordParts(s.c[hi].size, PrevBit(s.c, s.base, hi));
    FrameInside(s.m, m, m', s.c, lo, hi);
    Recut1Arena(s, s', lo, hi, Used);
    RegionLinks(s, lo, hi, m, m', bins);
  }

  /** The region becomes two blocks that meet at mid. */
  lemma RegionCut(s: State, lo: int, mid: int, hi: int, m: Words, bins: BinLists)
    requires Inv(s) && s.top != 0 && lo in s.c && hi in s.c && RegionMem(s, lo, hi, m)
    requires lo + MINSIZE <= mid && mid + MINSIZE <= hi && mid % 8 == 0
    requires BinsOk(bins, Outside(FreeMap(s.c), lo, hi)) && LinksOk(m, bins) && BlocksOk(bins, s.w)
    ensures var bit, last := Rd(m, lo + 4) % 2, SetBit(Rd(m, hi + 4));
      var m' := m[lo + 4 := mid - lo + bit][mid + 4 := hi - mid + 1][hi + 4 := last];
      var s' := s.(m := m', bins := bins, c := Recut2(s.c, lo, mid, hi, Used, Used));
      && Inv(s') && LiveMap(s'.c) == Outside(LiveMap(s.c), lo, hi)[lo := mid - lo][mid := hi - mid]
         && SamePayload(m, m', lo, mid - lo)
      && Kept(s.m, m', Outside(LiveMap(s.c), lo, hi))
  {
    var m' := m[lo + 4 := mid - lo + Rd(m, lo + 4) % 2][mid + 4 := hi - mid + 1][hi + 4 := SetBit(Rd(m, hi + 4))];
    var s' := s.(m := m', bins := bins, c := Recut2(s.c, lo, mid, hi, Used, Used));
    Neighbours(s, lo);
    Neighbours(s, hi);
    WordParts(s.c[lo].size, PrevBit(s.c, s.base, lo));
    WordParts(s.c[hi].size, PrevBit(s.c, s.base, hi));
    FrameInside(s.m, m, m', s.c, lo, hi);
    Recut2Arena(s, s', lo, mid, hi, Used);
    RegionLinks(s, lo, hi, m, m', bins);
  }

  /** The region and top become one block and a smaller top. */
  lemma RegionTop(s: State, lo: int, mid: int, m: Words, bins: BinLists)
    requires Inv(s) && s.top != 0 && lo in s.c && RegionMem(s, lo, s.top, m)
    requires lo + MINSIZE <= mid && mid + MINSIZE <= s.end && mid % 8 == 0
    requires BinsOk(bins, Outside(FreeMap(s.c), lo, s.top)) && LinksOk(m, bins) && BlocksOk(bins, s.w)
    ensures var m' := m[mid + 4 := s.end - mid + 1][lo + 4 := mid - lo + Rd(m, lo + 4) % 2];
      var s' := s.(m := m', bins := bins, top := mid, c := RecutUsedTop(s.c, lo, mid, s.end));
      && Inv(s') && LiveMap(s'.c) == Outside(LiveMap(s.c), lo, s.top)[lo := mid - lo]
         && Kept(s.m, m', Outside(LiveMap(s.c), lo, s.top))
      && SamePayload(m, m', lo, mid - lo)
  {
    var m' := m[mid + 4 := s.end - mid + 1][lo + 4 := mid - lo + Rd(m, lo + 4) % 2];
    var s' := s.(m := m', bins := bins, top := mid, c := RecutUsedTop(s.c, lo, mid, s.end));
    Neighbours(s, lo);
    WordParts(s.c[lo].size, PrevBit(s.c, s.base, lo));
    assert ChunkOk(s.c, s.base, s.top, s.end, s.top);
    FrameWider(s, m, lo);
    FrameInside(s.m, m, m', s.c, lo, s.end);
    RecutUsedTopArena(s, s', lo, mid);
    RegionTopLinks(s, lo, m, m', bins);
  }

  lemma FrameWider(s: State, m: Words, lo: int)
    requires Arena(s) && Frame(s.m, m, s.c, lo, s.top)
    ensures Frame(s.m, m, s.c, lo, s.end)
  {
    assert ChunkOk(s.c, s.base, s.top, s.end, s.top);
    forall b ensures lo + 4 <= b <= s.end + 4 || LinkWord(FreeMap(s.c).Keys, b) || Rd(m, b) == Rd(s.m, b) { }
  }

  lemma RegionTopLinks(s: State, lo: int, m: Words, m': Words, bins: BinLists)
    requires Arena(s) && lo in s.c
    requires BinsOk(bins, Outside(FreeMap(s.c), lo, s.top)) && LinksOk(m, bins)
    requires forall a {:trigger Rd(m', a)} :: a < lo + 4 ==> Rd(m', a) == Rd(m, a)
    ensures LinksOk(m', bins)
  {
    var g := Outside(FreeMap(s.c), lo, s.top);
    FreeKeys(s);
    assert ChunkOk(s.c, s.base, s.top, s.end, lo);
    BelowTop(s.c, s.base, s.top, s.end);
    forall k | k in g ensures k + 12 < lo + 4 {
      assert ChunkOk(s.c, s.base, s.top, s.end, k);
      assert Apart(s.c, k, lo);
    }
    forall a | LinkWord(g.Keys, a) ensures Rd(m', a) == Rd(m, a) {
      if a - 8 in g { assert (a - 8) + 8 == a; }
      if a - 12 in g { assert (a - 12) + 12 == a; }
    }
    LinksSurvive(m, m', bins, g);
  }

  /** Writes inside the block of a live chunk disturb nothing else. */
  lemma PayloadWritten(s: State, m: Words, q: int)
    requires Inv(s) && q in LiveMap(s.c)
    requires forall a {:trigger Rd(m, a)} :: !(q + 8 <= a < q + s.c[q].size + 4) ==> Rd(m, a) == Rd(s.m, a)
    ensures Inv(s.(m := m)) && Kept(s.m, m, LiveMap(s.c) - {q})
  {
    BlockSize(s, q);
    FreeKeys(s);
    forall p | p in s.c ensures TagOk(m, s.c, s.base, p) {
      assert TagOk(s.m, s.c, s.base, p) && ChunkOk(s.c, s.base, s.top, s.end, p);
      assert Apart(s.c, p, q) && Apart(s.c, q, p);
      if s.c[p].kind == Free { assert FusedAt(s.c, p); }
    }
    forall a | LinkWord(FreeMap(s.c).Keys, a) ensures Rd(m, a) == Rd(s.m, a) {
      if q + 8 <= a < q + s.c[q].size + 4 { PayloadNotLink(s, q, a); }
    }
    LinksSurvive(s.m, m, s.bins, FreeMap(s.c));
    forall p | p in LiveMap(s.c) - {q} ensures SamePayload(s.m, m, p, LiveMap(s.c)[p]) {
      assert Apart(s.c, p, q) && Apart(s.c, q, p);
    }
  }

  /** Nothing has changed but the words from lo up to hi. */
  ghost predicate SameBut(m: Words, m': Words, lo: int, hi: int) {
    forall a {:trigger Rd(m', a)} :: !(lo <= a < hi) ==> Rd(m', a) == Rd(m, a)
  }

  lemma BlocksApart(s: State, p: int, q: int)
    requires Inv(s) && p in LiveMap(s.c) && q in LiveMap(s.c) && p != q
    ensures s.c[p].size % 8 == 0 && s.c[p].size >= MINSIZE
    ensures p + s.c[p].size <= q || q + s.c[q].size <= p
  {
    BlockSize(s, p);
    assert ChunkOk(s.c, s.base, s.top, s.end, p) && Apart(s.c, p, q) && Apart(s.c, q, p);
  }

  /** Writing to the front of a block, as far as it reaches, keeps the heap and every other block. */
  lemma FrontWritten(s: State, m: Words, q: int, n: int)
    requires Inv(s) && q in LiveMap(s.c) && n + SIZE_SZ <= s.c[q].size && SameBut(s.m, m, q + 8, q + 8 + n)
    ensures Inv(s.(m := m)) && Kept(s.m, m, LiveMap(s.c) - {q})
  {
    hide Inv;
    PayloadWritten(s, m, q);
  }

  /** Writes strictly inside a region spare its tags, and the links of the chunks outside it. */
  lemma WrittenInside(s: State, lo: int, hi: int, m: Words, m': Words, end: int, bins: BinLists)
    requires Arena(s) && lo in s.c && hi in s.c && lo < hi && end <= hi + 4 && RegionMem(s, lo, hi, m)
    requires BinsOk(bins, Outside(FreeMap(s.c), lo, hi)) && LinksOk(m, bins) && SameBut(m, m', lo + 8, end)
    ensures RegionMem(s, lo, hi, m') && LinksOk(m', bins)
  {
    hide Arena, BinsOk, LinksOk;
    FrameInside(s.m, m, m', s.c, lo, hi);
    RegionLinks(s, lo, hi, m, m', bins);
  }

  lemma RegionAligned(s: State, lo: int, nb: int)
    requires Inv(s) && s.top != 0 && lo in s.c && nb % 8 == 0
    ensures (lo + nb) % 8 == 0 && FIRST <= lo
  {
    assert ChunkOk(s.c, s.base, s.top, s.end, lo);
  }

  /** Two blocks added and the second dropped again. */
  lemma AddDrop(live: map<int, int>, lo: int, x: int, mid: int, y: int)
    requires mid !in live && mid != lo
    ensures live[lo := x][mid := y] - {mid} == live[lo := x]
  {
  }

  lemma KeptOne(m: Words, m': Words, live: map<int, int>, lo: int, x: int)
    requires Kept(m, m', live[lo := x]) && lo !in live
    ensures Kept(m, m', live) && SamePayload(m, m', lo, x)
  {
    assert lo in live[lo := x];
    forall q | q in live ensures SamePayload(m, m', q, live[q]) { assert q in live[lo := x]; }
  }

  /** Unlinking chunks leaves a region's ends and the block in it as they were. */
  lemma OpenedMem(s: State, p0: int, lo: int, hi: int, m: Words)
    requires Inv(s) && p0 in LiveMap(s.c) && lo in s.c && hi in s.c && lo <= hi
    requires SameExceptLinks(s.m, m, FreeMap(s.c).Keys)
    ensures RegionMem(s, lo, hi, m) && SamePayload(s.m, m, p0, s.c[p0].size)
  {
    BlockSize(s, p0);
    NotLink(s, lo);
    NotLink(s, hi);
    FrameLinks(s.m, s.m, m, s.c, lo, hi, FreeMap(s.c).Keys);
    LinkArena(s, m);
    assert p0 in LiveMap(s.c);
  }

  /** The first n bytes of the block at p0 are now those of the block at p. */
  ghost predicate Moved(m: Words, m': Words, p0: int, p: int, n: int) {
    forall o :: 0 <= o < n && o % SIZE_SZ == 0 ==> Rd(m', p + 8 + o) == Rd(m, p0 + 8 + o)
  }

  /** Block p0 was replaced by a block of at least nb bytes at p that starts with the same words. */
  ghost predicate Realloced(s: State, s': State, p0: int, p: int, nb: int) {
    && Inv(s') && p0 in LiveMap(s.c) && p in LiveMap(s'.c) && p !in LiveMap(s.c) - {p0}
    && nb <= LiveMap(s'.c)[p] < nb + MINSIZE
    && LiveMap(s'.c) == (LiveMap(s.c) - {p0})[p := LiveMap(s'.c)[p]]
    && Kept(s.m, s'.m, LiveMap(s.c) - {p0})
    && Moved(s.m, s'.m, p0, p, (if nb < s.c[p0].size then nb else s.c[p0].size) - SIZE_SZ)
  }

  lemma MovedThen(m: Words, m1: Words, m2: Words, p0: int, p: int, n: int, size: int)
    requires Moved(m, m1, p0, p, n) && SamePayload(m1, m2, p, size) && n + SIZE_SZ <= size
    ensures Moved(m, m2, p0, p, n)
  {
  }

  lemma MovedFrom(m: Words, m1: Words, m2: Words, p0: int, p: int, size: int)
    requires SamePayload(m, m1, p0, size) && Moved(m1, m2, p0, p, size - SIZE_SZ)
    ensures Moved(m, m2, p0, p, size - SIZE_SZ)
  {
  }

  lemma MovedStill(m: Words, m1: Words, p: int, size: int)
    requires SamePayload(m, m1, p, size)
    ensures Moved(m, m1, p, p, size - SIZE_SZ)
  {
  }

  /** A region that held block p0 and free chunks has become a block at its front. */
  lemma GrownIs(s: State, s': State, p0: int, lo: int, hi: int, nb: int, got: int)
    requires Inv(s') && p0 in LiveMap(s.c) && lo <= p0 < hi && Outside(LiveMap(s.c), lo, hi) == LiveMap(s.c) - {p0}
    requires LiveMap(s'.c) == Outside(LiveMap(s.c), lo, hi)[lo := got] && nb <= got < nb + MINSIZE
    requires Kept(s.m, s'.m, Outside(LiveMap(s.c), lo, hi))
    requires Moved(s.m, s'.m, p0, lo, (if nb < s.c[p0].size then nb else s.c[p0].size) - SIZE_SZ)
    ensures Realloced(s, s', p0, lo, nb)
  {
    assert lo !in Outside(LiveMap(s.c), lo, hi);
    assert lo in LiveMap(s'.c) && LiveMap(s'.c)[lo] == got;
  }

  lemma RegionLive(s: State, p0: int, back: bool, fwd: bool)
    requires Region(s, p0, back, fwd)
    ensures Outside(LiveMap(s.c), RegionLo(s, p0, back), RegionHi(s, p0, fwd)) == LiveMap(s.c) - {p0}
  {
    RegionMaps(s, p0, back, fwd);
  }

  /** Two adjacent blocks form a region without free chunks. */
  lemma AdjacentRegion(s: State, p0: int, q: int)
    requires Inv(s) && p0 in LiveMap(s.c) && q in LiveMap(s.c) && q == p0 + s.c[p0].size
    ensures var hi := q + s.c[q].size;
      && s.top != 0 && hi in s.c && RegionMem(s, p0, hi, s.m) && (hi - p0) % 8 == 0 && p0 + MINSIZE <= hi
      && Outside(FreeMap(s.c), p0, hi) == FreeMap(s.c) && Outside(LiveMap(s.c), p0, hi) == LiveMap(s.c) - {p0} - {q}
  {
    BlockSize(s, p0);
    BlockSize(s, q);
    Neighbours(s, p0);
    Neighbours(s, q);
    var hi := q + s.c[q].size;
    Neighbours(s, hi);
    AlignedDiff(hi, p0);
    OutsideOne(s.c, s.base, s.top, s.end, p0);
    OutsideOne(s.c, s.base, s.top, s.end, q);
    AdjacentMaps(FreeMap(s.c), LiveMap(s.c), p0, q, hi);
  }

  lemma AdjacentMaps(f: map<int, int>, live: map<int, int>, p0: int, q: int, hi: int)
    requires p0 < q < hi && p0 !in f && q !in f
    requires Outside(f, p0, q) == f - {p0} && Outside(f, q, hi) == f - {q}
    requires Outside(live, p0, q) == live - {p0} && Outside(live, q, hi) == live - {q}
    ensures Outside(f, p0, hi) == f && Outside(live, p0, hi) == live - {p0} - {q}
  {
    OutsideTail(f, p0, q, hi);
    OutsideTail(live, p0, q, hi);
  }

  /** Malloc followed by a merge into the old block, or by a copy and free, is a realloc. */
  lemma ReallocMerged(s: State, s1: State, s': State, p0: int, q: int, nb: int, got: int)
    requires p0 in LiveMap(s.c) && s.c[p0].size < nb && Alloc(s, s1, q, nb) && Inv(s') && nb <= got < nb + MINSIZE
    requires LiveMap(s'.c) == (LiveMap(s1.c) - {p0} - {q})[p0 := got]
    requires Kept(s1.m, s'.m, LiveMap(s1.c) - {p0} - {q}) && SamePayload(s1.m, s'.m, p0, nb)
    ensures Realloced(s, s', p0, p0, nb)
  {
    var rest := LiveMap(s.c) - {p0};
    assert LiveMap(s1.c) - {p0} - {q} == rest;
    assert Kept(s.m, s1.m, rest) by {
      forall x | x in rest ensures SamePayload(s.m, s1.m, x, rest[x]) { assert x in LiveMap(s.c); }
    }
    KeptTrans(s.m, s1.m, s'.m, rest);
    assert SamePayload(s.m, s1.m, p0, s.c[p0].size) by { assert p0 in LiveMap(s.c); }
    MovedStill(s.m, s1.m, p0, s.c[p0].size);
    MovedThen(s.m, s1.m, s'.m, p0, p0, s.c[p0].size - SIZE_SZ, nb);
  }

  lemma ReallocCopied(s: State, s1: State, m2: Words, s': State, p0: int, q: int, nb: int)
    requires p0 in LiveMap(s.c) && s.c[p0].size < nb && Alloc(s, s1, q, nb) && Inv(s')
    requires LiveMap(s'.c) == LiveMap(s1.c) - {p0}
    requires Kept(s1.m, m2, LiveMap(s1.c) - {q}) && Moved(s1.m, m2, p0, q, s.c[p0].size - SIZE_SZ)
    requires Kept(m2, s'.m, LiveMap(s'.c))
    ensures Realloced(s, s', p0, q, nb)
  {
    var rest := LiveMap(s.c) - {p0};
    assert LiveMap(s'.c) == rest[q := LiveMap(s'.c)[q]];
    forall x | x in rest ensures SamePayload(s.m, s'.m, x, rest[x]) {
      assert x in LiveMap(s.c) && x in LiveMap(s1.c) - {q} && x in LiveMap(s'.c);
      assert SamePayload(s.m, s1.m, x, rest[x]) && SamePayload(s1.m, m2, x, rest[x])
        && SamePayload(m2, s'.m, x, rest[x]);
    }
    assert p0 in LiveMap(s.c);
    MovedStill(s.m, s1.m, p0, s.c[p0].size);
    forall o | 0 <= o < s.c[p0].size - SIZE_SZ && o % SIZE_SZ == 0 ensures Rd(m2, q + 8 + o) == Rd(s.m, p0 + 8 + o) {
      assert Rd(s1.m, p0 + 8 + o) == Rd(s.m, p0 + 8 + o);
    }
    assert q in LiveMap(s'.c);
    MovedThen(s.m, m2, s'.m, p0, q, s.c[p0].size - SIZE_SZ, LiveMap(s'.c)[q]);
  }

  /** What realloc reads about the neighbours of a block. */
  lemma GrowFacts(s: State, p0: int)
    requires Inv(s) && p0 in LiveMap(s.c)
    ensures var next := p0 + s.c[p0].size;
      && next in s.c && SizeOf(Rd(s.m, next + 4)) == s.c[next].size && MINSIZE <= s.c[p0].size
      && (next == s.top ==> next + s.c[next].size == s.end)
      && (next != s.top ==> next + s.c[next].size in s.c)
      && (next != s.top ==> (PrevInUse(Rd(s.m, next + s.c[next].size + 4)) <==> next !in FreeMap(s.c)))
      && RegionHi(s, p0, true) == next + s.c[next].size
    ensures !PrevInUse(Rd(s.m, p0 + 4)) <==> p0 != s.base && s.c[p0].prev in FreeMap(s.c)
    ensures !PrevInUse(Rd(s.m, p0 + 4)) ==> s.c[p0].prev == p0 - Rd(s.m, p0) == p0 - s.c[s.c[p0].prev].size
  {
    BlockSize(s, p0);
    Neighbours(s, p0);
    WordParts(s.c[p0].size, PrevBit(s.c, s.base, p0));
    var next := p0 + s.c[p0].size;
    if next == s.top {
      TopWord(s);
    } else {
      StepToBin(s, p0);
    }
  }

  lemma NoRoomBefore(s: State, p0: int, nb: int)
    requires Inv(s) && p0 in LiveMap(s.c)
    ensures PrevInUse(Rd(s.m, p0 + 4)) ==> !FitsBefore(s, p0, nb)
  {
    hide Inv;
    GrowFacts(s, p0);
  }

  // ---------------------------------------------------------------- the checks of the debug build

  /** A free chunk claims to be free, has a matching footer, is fully consolidated, is on exactly one
      list, the bin of its size or the last remainder, and its links are sane. */
  lemma CheckFreeChunk(s: State, p: int)
    requires Inv(s) && p in FreeMap(s.c)
    ensures var sz := SizeOf(Rd(s.m, p + 4)); var next := p + sz;
      && sz == s.c[p].size && sz % 8 == 0 && sz >= MINSIZE && s.base <= p && next <= s.top && (p + 8) % 8 == 0
      && !PrevInUse(Rd(s.m, next + 4)) && Rd(s.m, next) == sz
      && PrevInUse(Rd(s.m, p + 4))
      && next != s.top && PrevInUse(Rd(s.m, next + SizeOf(Rd(s.m, next + 4)) + 4))
      && Rd(s.m, Rd(s.m, p + 8) + 12) == p && Rd(s.m, Rd(s.m, p + 12) + 8) == p
      && ((p in s.bins[LAST_REMAINDER]) != (p in s.bins[BinIndex(sz)]))
  {
    FreeChunk(s, p);
    assert ChunkOk(s.c, s.base, s.top, s.end, p) && TagOk(s.m, s.c, s.base, p);
    var next := p + s.c[p].size;
    Neighbours(s, next);
    assert ChunkOk(s.c, s.base, s.top, s.end, next);
    hide Arena, Lists, SizeOf, PrevInUse;
    TagWord(s, p);
    TagWord(s, next);
    TagWord(s, next + s.c[next].size);
    FreeChunkListed(s, p);
  }

  lemma FreeChunkListed(s: State, p: int)
    requires Inv(s) && p in FreeMap(s.c)
    ensures Rd(s.m, Rd(s.m, p + 8) + 12) == p && Rd(s.m, Rd(s.m, p + 12) + 8) == p
    ensures s.c[p].size >= MINSIZE && (p in s.bins[LAST_REMAINDER]) != (p in s.bins[BinIndex(s.c[p].size)])
  {
    FreeChunk(s, p);
    assert Placed(s.bins, FreeMap(s.c), p);
    var i, k := Where(s.bins, FreeMap(s.c), p);
    assert Linked(s.m, i, s.bins[i]) && LinkedAt(s.m, i, s.bins[i], k) && LinkedAt(s.m, i, s.bins[i], k + 1);
  }

  /** A block in use claims to be in use; a free chunk before it ends where it starts; and after it
      comes a used chunk, a free chunk, or a top of at least the minimum size. */
  lemma CheckInUseChunk(s: State, p: int)
    requires Inv(s) && p in LiveMap(s.c)
    ensures var sz := SizeOf(Rd(s.m, p + 4)); var next := p + sz;
      && sz == s.c[p].size && sz % 8 == 0 && sz >= MINSIZE && s.base <= p && next <= s.top && (p + 8) % 8 == 0
      && next in s.c && PrevInUse(Rd(s.m, next + 4))
      && (!PrevInUse(Rd(s.m, p + 4)) ==> p - Rd(s.m, p) in FreeMap(s.c) && FreeMap(s.c)[p - Rd(s.m, p)] == Rd(s.m, p))
      && (next == s.top ==> SizeOf(Rd(s.m, next + 4)) >= MINSIZE)
  {
    BlockSize(s, p);
    Neighbours(s, p);
    assert ChunkOk(s.c, s.base, s.top, s.end, p);
    WordParts(s.c[p].size, PrevBit(s.c, s.base, p));
    var next := p + s.c[p].size;
    Neighbours(s, next);
    WordParts(s.c[next].size, PrevBit(s.c, s.base, next));
  }
}
