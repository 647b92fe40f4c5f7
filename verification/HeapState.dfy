/** The whole state of the user heap, the invariant every call keeps, and what the recutting of
    an interval of chunks does to it. */
module HeapState {
  import opened HeapTiling
  import opened Bins
  import opened FreeLists

  const PAGE := 4096

  /** Memory, tiling, free lists, marked blocks, first chunk, top chunk and break.
      Until the first chunk exists, top is the header of bin 0, at address 0. */
  datatype State = State(m: Words, c: Tiling, bins: BinLists, w: set<int>, base: int, top: int, end: int)

  ghost predicate Arena(s: State) {
    && FIRST <= s.base
    && Tiled(s.c, s.base, s.top, s.end)
    && Fused(s.c)
    && Tags(s.m, s.c, s.base)
    && s.c[s.top].size >= MINSIZE
    && s.end % PAGE == 0
  }

  ghost predicate Lists(s: State) {
    BinsOk(s.bins, FreeMap(s.c)) && LinksOk(s.m, s.bins) && BlocksOk(s.bins, s.w)
  }

  ghost predicate Inv(s: State) {
    && Lists(s)
    && FIRST <= s.end
    && (if s.top == 0 then s.c == map[] else Arena(s))
  }

  /** Outside the interval from lo to hi only links of free chunks have changed. */
  ghost predicate Frame(m: Words, m': Words, c: Tiling, lo: int, hi: int) {
    forall a {:trigger Rd(m', a)} ::
      lo + 4 <= a <= hi + 4 || LinkWord(FreeMap(c).Keys, a) || Rd(m', a) == Rd(m, a)
  }

  lemma FrameWrite(m: Words, m1: Words, c: Tiling, lo: int, hi: int, a: int, v: int)
    requires Frame(m, m1, c, lo, hi) && lo + 4 <= a <= hi + 4
    ensures Frame(m, m1[a := v], c, lo, hi)
  {
    forall b ensures lo + 4 <= b <= hi + 4 || LinkWord(FreeMap(c).Keys, b) || Rd(m1[a := v], b) == Rd(m, b) {
      assert b == a || Rd(m1[a := v], b) == Rd(m1, b);
    }
  }

  /** Links written into free chunks, or into chunks inside the interval. */
  lemma FrameLinks(m: Words, m1: Words, m2: Words, c: Tiling, lo: int, hi: int, ks: set<int>)
    requires Frame(m, m1, c, lo, hi) && SameExceptLinks(m1, m2, ks)
    requires forall k :: k in ks ==> k in FreeMap(c) || lo <= k <= hi - 8
    ensures Frame(m, m2, c, lo, hi)
  {
    forall b ensures lo + 4 <= b <= hi + 4 || LinkWord(FreeMap(c).Keys, b) || Rd(m2, b) == Rd(m, b) {
      assert LinkWord(ks, b) || Rd(m2, b) == Rd(m1, b);
    }
  }

  /** Any words inside the interval. */
  lemma FrameInside(m: Words, m1: Words, m2: Words, c: Tiling, lo: int, hi: int)
    requires Frame(m, m1, c, lo, hi)
    requires forall a {:trigger Rd(m2, a)} :: !(lo + 4 <= a <= hi + 4) ==> Rd(m2, a) == Rd(m1, a)
    ensures Frame(m, m2, c, lo, hi)
  {
    forall b ensures lo + 4 <= b <= hi + 4 || LinkWord(FreeMap(c).Keys, b) || Rd(m2, b) == Rd(m, b) {
      assert lo + 4 <= b <= hi + 4 || Rd(m2, b) == Rd(m1, b);
    }
  }

  // ---------------------------------------------------------------- links never lie on tags or payloads

  lemma FreeKeys(s: State)
    requires Arena(s)
    ensures Keys(FreeMap(s.c))
  {
    forall p | p in FreeMap(s.c) ensures p % 8 == 0 && FIRST <= p {
      assert ChunkOk(s.c, s.base, s.top, s.end, p);
    }
  }

  /** The words at a chunk boundary never hold a link of any chunk. */
  lemma NotLink(s: State, q: int)
    requires Arena(s) && q in s.c
    ensures !LinkWord(s.c.Keys, q) && !LinkWord(s.c.Keys, q + 4)
    ensures !LinkWord(FreeMap(s.c).Keys, q) && !LinkWord(FreeMap(s.c).Keys, q + 4)
  {
    var c := s.c;
    assert ChunkOk(c, s.base, s.top, s.end, q);
    forall r | r in c ensures r + 8 != q && r + 12 != q && r + 8 != q + 4 && r + 12 != q + 4 {
      assert ChunkOk(c, s.base, s.top, s.end, r);
      assert Apart(c, r, q);
    }
    assert q - 8 !in c && q - 12 !in c && q + 4 - 8 !in c && q + 4 - 12 !in c;
  }

  lemma FrameTags(s: State, m': Words, lo: int, hi: int)
    requires Arena(s) && lo in s.c && lo <= hi && Frame(s.m, m', s.c, lo, hi)
    ensures TagsKept(s.m, m', s.c, lo, hi)
  {
    var c := s.c;
    forall q ensures TagKept(s.m, m', c, lo, hi, q) {
      if q in c {
        assert ChunkOk(c, s.base, s.top, s.end, q);
        NotLink(s, q);
        assert Apart(c, q, lo);
        if c[q].kind == Free { NotLink(s, q + c[q].size); }
      }
    }
  }

  /** Live blocks outside the interval keep every word. */
  lemma FrameKept(s: State, m': Words, lo: int, hi: int)
    requires Arena(s) && lo in s.c && lo <= hi && Frame(s.m, m', s.c, lo, hi)
    ensures Kept(s.m, m', Outside(LiveMap(s.c), lo, hi))
  {
    var c := s.c;
    forall q | q in Outside(LiveMap(c), lo, hi) ensures SamePayload(s.m, m', q, c[q].size) {
      assert ChunkOk(c, s.base, s.top, s.end, q);
      assert Apart(c, q, lo);
      forall a | q + 8 <= a < q + c[q].size + 4 ensures Rd(m', a) == Rd(s.m, a) {
        PayloadNotLink(s, q, a);
      }
    }
  }

  lemma PayloadNotLink(s: State, q: int, a: int)
    requires Arena(s) && q in LiveMap(s.c) && q + 8 <= a < q + s.c[q].size + 4
    ensures !LinkWord(FreeMap(s.c).Keys, a)
  {
    LinksMiss(s, q);
    assert ChunkOk(s.c, s.base, s.top, s.end, q);
  }

  lemma LinksMiss(s: State, q: int)
    requires Arena(s) && q in LiveMap(s.c)
    ensures forall r :: r in FreeMap(s.c) ==> r + MINSIZE <= q || q + s.c[q].size <= r
  {
    forall r | r in FreeMap(s.c) ensures r + MINSIZE <= q || q + s.c[q].size <= r {
      assert ChunkOk(s.c, s.base, s.top, s.end, r);
      assert Apart(s.c, r, q) && Apart(s.c, q, r);
    }
  }

  // ---------------------------------------------------------------- recutting keeps the arena

  lemma Recut1Arena(s: State, s': State, lo: int, hi: int, k: Kind)
    requires Arena(s) && lo in s.c && hi in s.c && lo < hi && k != Top
    requires s'.c == Recut1(s.c, lo, hi, k) && s'.base == s.base && s'.top == s.top && s'.end == s.end
    requires Frame(s.m, s'.m, s.c, lo, hi)
    requires Rd(s'.m, lo + 4) == hi - lo + PrevBit(s.c, s.base, lo)
    requires Rd(s'.m, hi + 4) == s.c[hi].size + (if k == Used then 1 else 0)
    requires k == Free ==> Rd(s'.m, hi) == hi - lo && s.c[hi].kind == Used && PrevBit(s.c, s.base, lo) == 1
    ensures Arena(s')
    ensures LiveMap(s'.c) == if k == Used then Outside(LiveMap(s.c), lo, hi)[lo := hi - lo]
      else Outside(LiveMap(s.c), lo, hi)
    ensures FreeMap(s'.c) == if k == Free then Outside(FreeMap(s.c), lo, hi)[lo := hi - lo]
      else Outside(FreeMap(s.c), lo, hi)
    ensures Kept(s.m, s'.m, Outside(LiveMap(s.c), lo, hi))
  {
    FrameTags(s, s'.m, lo, hi);
    FrameKept(s, s'.m, lo, hi);
    Recut1Tiled(s.c, s.base, s.top, s.end, lo, hi, k);
    Recut1Tags(s.m, s'.m, s.c, s.base, s.top, s.end, lo, hi, k);
    Recut1Fused(s.c, s.base, s.top, s.end, lo, hi, k);
    Recut1Maps(s.c, lo, hi, k);
    assert ChunkOk(s.c, s.base, s.top, s.end, hi);
  }

  lemma Recut2Arena(s: State, s': State, lo: int, mid: int, hi: int, k2: Kind)
    requires Arena(s) && lo in s.c && hi in s.c && lo + MINSIZE <= mid && mid + MINSIZE <= hi && mid % 8 == 0
    requires k2 != Top && (k2 == Free ==> s.c[hi].kind == Used)
    requires s'.c == Recut2(s.c, lo, mid, hi, Used, k2) && s'.base == s.base && s'.top == s.top && s'.end == s.end
    requires Frame(s.m, s'.m, s.c, lo, hi)
    requires Rd(s'.m, lo + 4) == mid - lo + PrevBit(s.c, s.base, lo)
    requires Rd(s'.m, mid + 4) == hi - mid + 1
    requires Rd(s'.m, hi + 4) == s.c[hi].size + (if k2 == Used then 1 else 0)
    requires k2 == Free ==> Rd(s'.m, hi) == hi - mid
    ensures Arena(s')
    ensures LiveMap(s'.c) == if k2 == Used then Outside(LiveMap(s.c), lo, hi)[lo := mid - lo][mid := hi - mid]
                             else Outside(LiveMap(s.c), lo, hi)[lo := mid - lo]
    ensures FreeMap(s'.c) == if k2 == Free then Outside(FreeMap(s.c), lo, hi)[mid := hi - mid]
      else Outside(FreeMap(s.c), lo, hi)
    ensures Kept(s.m, s'.m, Outside(LiveMap(s.c), lo, hi))
  {
    FrameTags(s, s'.m, lo, hi);
    FrameKept(s, s'.m, lo, hi);
    Recut2Tiled(s.c, s.base, s.top, s.end, lo, mid, hi, Used, k2);
    Recut2Tags(s.m, s'.m, s.c, s.base, s.top, s.end, lo, mid, hi, k2);
    Recut2Fused(s.c, s.base, s.top, s.end, lo, mid, hi, k2);
    Recut2Maps(s.c, lo, mid, hi, k2);
    assert ChunkOk(s.c, s.base, s.top, s.end, hi);
  }

  lemma RecutTopArena(s: State, s': State, lo: int)
    requires Arena(s) && lo in s.c && PrevBit(s.c, s.base, lo) == 1 && s.end <= s'.end && s'.end % PAGE == 0
    requires s'.c == RecutTop(s.c, lo, s'.end) && s'.base == s.base && s'.top == lo
    requires Frame(s.m, s'.m, s.c, lo, s'.end)
    requires Rd(s'.m, lo + 4) == s'.end - lo + 1
    ensures Arena(s')
    ensures LiveMap(s'.c) == Outside(LiveMap(s.c), lo, s.top)
    ensures FreeMap(s'.c) == Outside(FreeMap(s.c), lo, s.top)
    ensures Kept(s.m, s'.m, Outside(LiveMap(s.c), lo, s.top))
  {
    assert ChunkOk(s.c, s.base, s.top, s.end, s.top) && ChunkOk(s.c, s.base, s.top, s.end, lo);
    PageAligned(s'.end);
    FrameTags(s, s'.m, lo, s'.end);
    FrameKept(s, s'.m, lo, s'.end);
    BelowTop(s.c, s.base, s.top, s.end);
    assert Outside(LiveMap(s.c), lo, s'.end) == Outside(LiveMap(s.c), lo, s.top);
    RecutTopTiled(s.c, s.base, s.top, s.end, s'.end, lo);
    RecutTopTags(s.m, s'.m, s.c, s.base, s.top, s.end, s'.end, lo);
    RecutTopFused(s.c, s.base, s.top, s.end, lo, s'.end);
    RecutTopMaps(s.c, s.base, s.top, s.end, lo, s'.end);
  }

  lemma RecutUsedTopArena(s: State, s': State, lo: int, mid: int)
    requires Arena(s) && lo in s.c
    requires lo + MINSIZE <= mid && mid + MINSIZE <= s.end && mid % 8 == 0
    requires s'.c == RecutUsedTop(s.c, lo, mid, s.end) && s'.base == s.base && s'.top == mid && s'.end == s.end
    requires Frame(s.m, s'.m, s.c, lo, s.end)
    requires Rd(s'.m, lo + 4) == mid - lo + PrevBit(s.c, s.base, lo)
    requires Rd(s'.m, mid + 4) == s.end - mid + 1
    ensures Arena(s')
    ensures LiveMap(s'.c) == Outside(LiveMap(s.c), lo, s.top)[lo := mid - lo]
    ensures FreeMap(s'.c) == Outside(FreeMap(s.c), lo, s.top)
    ensures Kept(s.m, s'.m, Outside(LiveMap(s.c), lo, s.top))
  {
    assert ChunkOk(s.c, s.base, s.top, s.end, s.top) && ChunkOk(s.c, s.base, s.top, s.end, lo);
    PageAligned(s.end);
    FrameTags(s, s'.m, lo, s.end);
    FrameKept(s, s'.m, lo, s.end);
    BelowTop(s.c, s.base, s.top, s.end);
    assert Outside(LiveMap(s.c), lo, s.end) == Outside(LiveMap(s.c), lo, s.top);
    RecutUsedTopTiled(s.c, s.base, s.top, s.end, lo, mid);
    RecutUsedTopTags(s.m, s'.m, s.c, s.base, s.top, s.end, lo, mid);
    RecutUsedTopFused(s.c, s.base, s.top, s.end, lo, mid);
    RecutUsedTopMaps(s.c, s.base, s.top, s.end, lo, mid);
  }

  lemma PageAligned(x: int)
    requires x % PAGE == 0
    ensures x % 8 == 0
  {
    assert x == 8 * (512 * (x / PAGE));
  }

  // ---------------------------------------------------------------- neighbours

  /** Free chunks border used ones, and so does top. */
  lemma Neighbours(s: State, p: int)
    requires Arena(s) && p in s.c
    ensures s.c[p].kind != Used ==> PrevBit(s.c, s.base, p) == 1
    ensures p != s.top ==> p + s.c[p].size in s.c && s.c[p + s.c[p].size].prev == p && p + s.c[p].size != s.base
    ensures s.c[p].kind == Free ==> p + s.c[p].size in s.c && s.c[p + s.c[p].size].kind == Used
    ensures Rd(s.m, p + 4) == s.c[p].size + PrevBit(s.c, s.base, p)
    ensures s.c[p].size % 8 == 0 && s.c[p].size >= MINSIZE && p % 8 == 0
    ensures FIRST <= p
    ensures PrevBit(s.c, s.base, p) == 0 ==> PrevFree(s, p)
  {
    assert ChunkOk(s.c, s.base, s.top, s.end, p) && TagOk(s.m, s.c, s.base, p) && FusedAt(s.c, p);
    if PrevBit(s.c, s.base, p) == 0 {
      var r := s.c[p].prev;
      assert ChunkOk(s.c, s.base, s.top, s.end, r) && TagOk(s.m, s.c, s.base, r) && FusedAt(s.c, r);
    }
  }

  /** The chunk before p is free, and the word at p gives its size. */
  ghost predicate PrevFree(s: State, p: int) {
    && p in s.c && s.c[p].prev in s.c && s.c[s.c[p].prev].kind == Free
    && s.c[p].prev + s.c[s.c[p].prev].size == p
    && Rd(s.m, p) == s.c[s.c[p].prev].size
    && s.c[s.c[p].prev].size >= MINSIZE
  }

  // ---------------------------------------------------------------- links under tag writes

  /** A change that spares every link word leaves the lists linked as they were. */
  lemma LinksSurvive(m: Words, m': Words, bins: BinLists, f: map<int, int>)
    requires BinsOk(bins, f) && Keys(f) && LinksOk(m, bins)
    requires forall a {:trigger Rd(m', a)} :: LinkWord(f.Keys, a) ==> Rd(m', a) == Rd(m, a)
    ensures LinksOk(m', bins)
  {
    forall i | 1 <= i < NAV ensures Linked(m', i, bins[i]) {
      assert Linked(m, i, bins[i]);
      forall k | 0 <= k <= |bins[i]| ensures LinkedAt(m', i, bins[i], k) {
        assert LinkedAt(m, i, bins[i], k);
        NodeAligned(bins, f, i, k);
        NodeAligned(bins, f, i, k - 1);
      }
    }
  }

  /** One tag word written at a chunk boundary. */
  lemma TagWrite(s: State, q: int, bins: BinLists, f: map<int, int>, m: Words, a: int, v: int)
    requires Arena(s) && q in s.c && (a == q || a == q + 4)
    requires BinsOk(bins, f) && Keys(f) && f.Keys <= s.c.Keys && LinksOk(m, bins)
    ensures LinksOk(m[a := v], bins)
  {
    NotLink(s, q);
    LinksSurvive(m, m[a := v], bins, f);
  }

  // ---------------------------------------------------------------- what callers of the heap see

  /** Block p was handed out: no live block moved, changed size or lost a word. */
  ghost predicate Alloc(s: State, s': State, p: int, nb: int) {
    && Inv(s')
    && p !in LiveMap(s.c)
    && p in LiveMap(s'.c)
    && LiveMap(s'.c) == LiveMap(s.c)[p := LiveMap(s'.c)[p]]
    && nb <= LiveMap(s'.c)[p] < nb + MINSIZE
    && Kept(s.m, s'.m, LiveMap(s.c))
  }

  /** No free chunk, binned or last remainder, is large enough. */
  ghost predicate NoFit(s: State, nb: int) {
    forall q {:trigger q in FreeMap(s.c)} :: q in FreeMap(s.c) ==> FreeMap(s.c)[q] < nb
  }

  /** v is the smallest of the binned chunks that are large enough. */
  ghost predicate BestFit(s: State, nb: int, v: int) {
    && |s.bins| == NAV
    && v in FreeMap(s.c) && FreeMap(s.c)[v] >= nb
    && forall q {:trigger q in FreeMap(s.c)} ::
         q in FreeMap(s.c) && q !in s.bins[LAST_REMAINDER] && FreeMap(s.c)[q] >= nb ==>
           FreeMap(s.c)[v] <= FreeMap(s.c)[q]
  }
}
