/** The arena of the user heap: words of memory, the chunks that tile it, and the boundary
    tags that record the tiling in the words.  Addresses are byte addresses and a word is four
    bytes wide; every word the allocator or its clients touch sits at a multiple of four, so
    a map from address to word value carries the whole memory. */
module HeapTiling {

  type Words = map<int, int>

  /** Fresh memory reads as zero until something is written to it. */
  function Rd(m: Words, a: int): int {
    if a in m then m[a] else 0
  }

  const SIZE_SZ := 4
  const MINSIZE := 16

  /** Used chunks belong to a client, free ones to a bin, and the one top chunk borders the break. */
  datatype Kind = Used | Free | Top

  /** `prev` is the address of the physically preceding chunk. */
  datatype Chunk = Chunk(size: int, kind: Kind, prev: int)

  type Tiling = map<int, Chunk>

  ghost predicate ChunkOk(c: Tiling, base: int, top: int, end: int, p: int)
    requires p in c
  {
    && p % 8 == 0 && base <= p
    && c[p].size % 8 == 0
    && (c[p].kind == Top <==> p == top)
    && (p == top ==> 0 <= c[p].size && p + c[p].size == end)
    && (p != top ==> MINSIZE <= c[p].size && p + c[p].size <= top && p + c[p].size in c && c[p + c[p].size].prev == p)
    && (p != base ==> c[p].prev in c && c[p].prev < p && c[p].prev + c[c[p].prev].size == p)
  }

  ghost predicate Apart(c: Tiling, p: int, q: int)
  {
    p in c && q in c && p < q ==> p + c[p].size <= q
  }

  /** The chunks run from `base` to `end` without gap or overlap, the last one being top. */
  ghost predicate Tiled(c: Tiling, base: int, top: int, end: int)
  {
    && base in c && top in c && base <= top
    && (forall p {:trigger ChunkOk(c, base, top, end, p)} :: p in c ==> ChunkOk(c, base, top, end, p))
    && (forall p, q {:trigger Apart(c, p, q)} :: Apart(c, p, q))
  }

  ghost predicate FusedAt(c: Tiling, p: int)
  {
    p in c && c[p].kind == Free ==> p + c[p].size in c && c[p + c[p].size].kind == Used
  }

  /** No free chunk borders another free chunk, or top. */
  ghost predicate Fused(c: Tiling)
  {
    forall p {:trigger FusedAt(c, p)} :: FusedAt(c, p)
  }

  /** The PREV_INUSE bit a chunk's size word has to carry; the first chunk always has it set. */
  ghost function PrevBit(c: Tiling, base: int, p: int): int
    requires p in c
  {
    if p == base || (c[p].prev in c && c[c[p].prev].kind == Used) then 1 else 0
  }

  ghost predicate TagOk(m: Words, c: Tiling, base: int, p: int)
    requires p in c
  {
    && Rd(m, p + 4) == c[p].size + PrevBit(c, base, p)
    && (c[p].kind == Free ==> Rd(m, p + c[p].size) == c[p].size)
  }

  /** Size words agree with the tiling, and so do the trailing size words of free chunks. */
  ghost predicate Tags(m: Words, c: Tiling, base: int)
  {
    forall p {:trigger TagOk(m, c, base, p)} :: p in c ==> TagOk(m, c, base, p)
  }

  /** The tags of chunk q, when q lies outside the interval from lo to hi. */
  ghost predicate TagKept(m: Words, m': Words, c: Tiling, lo: int, hi: int, q: int) {
    q in c ==>
      && (q < lo || hi < q ==> Rd(m', q + 4) == Rd(m, q + 4))
      && (c[q].kind == Free && (q < lo || hi <= q) ==> Rd(m', q + c[q].size) == Rd(m, q + c[q].size))
  }

  ghost predicate TagsKept(m: Words, m': Words, c: Tiling, lo: int, hi: int) {
    forall q {:trigger TagKept(m, m', c, lo, hi, q)} :: TagKept(m, m', c, lo, hi, q)
  }

  /** The words a client may use in the block of chunk p: up to and including the word that
      would hold the trailing size if the chunk were free. */
  ghost predicate SamePayload(m: Words, m': Words, p: int, size: int)
  {
    forall a :: p + 8 <= a < p + size + 4 ==> Rd(m', a) == Rd(m, a)
  }

  // ---------------------------------------------------------------- recutting an interval

  /** The chunks between lo and hi become one chunk. */
  ghost function Recut1(c: Tiling, lo: int, hi: int, k: Kind): Tiling
    requires lo in c && hi in c
  {
    map q | q in c && !(lo < q < hi) ::
      if q == lo then Chunk(hi - lo, k, c[lo].prev)
      else if q == hi then c[hi].(prev := lo)
      else c[q]
  }

  /** The chunks between lo and hi become two chunks that meet at mid. */
  ghost function Recut2(c: Tiling, lo: int, mid: int, hi: int, k1: Kind, k2: Kind): Tiling
    requires lo in c && hi in c
  {
    map q | q in c.Keys + {mid} && (q == mid || !(lo < q < hi)) ::
      if q == lo then Chunk(mid - lo, k1, c[lo].prev)
      else if q == mid then Chunk(hi - mid, k2, lo)
      else if q == hi then c[hi].(prev := mid)
      else c[q]
  }

  /** Everything from lo up becomes top, which then ends at `end`. */
  ghost function RecutTop(c: Tiling, lo: int, end: int): Tiling
    requires lo in c
  {
    map q | q in c && q <= lo :: if q == lo then Chunk(end - lo, Top, c[lo].prev) else c[q]
  }

  /** Everything from lo up becomes one used chunk followed by top. */
  ghost function RecutUsedTop(c: Tiling, lo: int, mid: int, end: int): Tiling
    requires lo in c
  {
    map q | q in c.Keys + {mid} && (q <= lo || q == mid) ::
      if q == lo then Chunk(mid - lo, Used, c[lo].prev)
      else if q == mid then Chunk(end - mid, Top, lo)
      else c[q]
  }

  lemma AlignedDiff(x: int, y: int)
    requires x % 8 == 0 && y % 8 == 0
    ensures (x - y) % 8 == 0
  {
  }

  lemma Recut1Apart(c: Tiling, lo: int, hi: int, k: Kind, p: int, q: int)
    requires lo in c && hi in c && lo < hi
    requires Apart(c, p, q) && Apart(c, hi, q) && Apart(c, p, lo)
    ensures Apart(Recut1(c, lo, hi, k), p, q)
  {
  }

  lemma Recut1Tiled(c: Tiling, base: int, top: int, end: int, lo: int, hi: int, k: Kind)
    requires Tiled(c, base, top, end)
    requires lo in c && hi in c && lo < hi && k != Top
    ensures Tiled(Recut1(c, lo, hi, k), base, top, end)
  {
    var c' := Recut1(c, lo, hi, k);
    assert ChunkOk(c, base, top, end, lo) && ChunkOk(c, base, top, end, hi) && ChunkOk(c, base, top, end, top);
    assert Apart(c, lo, hi) && Apart(c, lo, top) && Apart(c, top, hi);
    AlignedDiff(hi, lo);
    forall p | p in c' ensures ChunkOk(c', base, top, end, p) {
      assert ChunkOk(c, base, top, end, p);
      assert p != lo ==> Apart(c, p, lo);
      assert p != hi && p != base ==> Apart(c, lo, p) && Apart(c, hi, p) && Apart(c, c[p].prev, hi);
    }
    forall p, q ensures Apart(c', p, q) {
      assert Apart(c, p, q) && Apart(c, hi, q) && Apart(c, p, lo);
      Recut1Apart(c, lo, hi, k, p, q);
    }
  }

  lemma Recut2Apart(c: Tiling, lo: int, mid: int, hi: int, k1: Kind, k2: Kind, p: int, q: int)
    requires lo in c && hi in c && lo < mid < hi
    requires Apart(c, p, q) && Apart(c, hi, q) && Apart(c, p, lo)
    ensures Apart(Recut2(c, lo, mid, hi, k1, k2), p, q)
  {
  }

  lemma Recut2Tiled(c: Tiling, base: int, top: int, end: int, lo: int, mid: int, hi: int, k1: Kind, k2: Kind)
    requires Tiled(c, base, top, end)
    requires lo in c && hi in c && lo + MINSIZE <= mid && mid + MINSIZE <= hi && mid % 8 == 0
    requires k1 != Top && k2 != Top
    ensures Tiled(Recut2(c, lo, mid, hi, k1, k2), base, top, end)
  {
    var c' := Recut2(c, lo, mid, hi, k1, k2);
    assert base in c' && top in c' by {
      assert ChunkOk(c, base, top, end, lo) && ChunkOk(c, base, top, end, hi) && Apart(c, top, hi);
    }
    forall p | p in c' ensures ChunkOk(c', base, top, end, p) {
      Recut2Chunk(c, base, top, end, lo, mid, hi, k1, k2, p);
    }
    forall p, q ensures Apart(c', p, q) {
      assert Apart(c, p, q) && Apart(c, hi, q) && Apart(c, p, lo);
      Recut2Apart(c, lo, mid, hi, k1, k2, p, q);
    }
  }

  lemma Recut2Chunk(c: Tiling, base: int, top: int, end: int, lo: int, mid: int, hi: int, k1: Kind, k2: Kind, p: int)
    requires Tiled(c, base, top, end)
    requires lo in c && hi in c && lo + MINSIZE <= mid && mid + MINSIZE <= hi && mid % 8 == 0
    requires k1 != Top && k2 != Top && p in Recut2(c, lo, mid, hi, k1, k2)
    ensures ChunkOk(Recut2(c, lo, mid, hi, k1, k2), base, top, end, p)
  {
    assert ChunkOk(c, base, top, end, lo) && ChunkOk(c, base, top, end, hi) && ChunkOk(c, base, top, end, top);
    assert Apart(c, lo, hi) && Apart(c, lo, top) && Apart(c, top, hi);
    AlignedDiff(hi, mid);
    AlignedDiff(mid, lo);
    if p != mid {
      assert ChunkOk(c, base, top, end, p);
      assert p != lo ==> Apart(c, p, lo);
      assert p != hi && p != base ==> Apart(c, lo, p) && Apart(c, hi, p) && Apart(c, c[p].prev, hi);
    }
    hide Tiled;
  }

  lemma RecutTopTiled(c: Tiling, base: int, top: int, end: int, end': int, lo: int)
    requires Tiled(c, base, top, end)
    requires lo in c && top <= end' && end' % 8 == 0
    ensures Tiled(RecutTop(c, lo, end'), base, lo, end')
  {
    var c' := RecutTop(c, lo, end');
    assert ChunkOk(c, base, top, end, lo) && ChunkOk(c, base, top, end, top);
    forall p | p in c' ensures ChunkOk(c', base, lo, end', p) {
      assert ChunkOk(c, base, top, end, p);
      assert Apart(c, p, lo) && Apart(c, lo, top);
    }
    forall p, q ensures Apart(c', p, q) { assert Apart(c, p, q); }
  }

  lemma RecutUsedTopApart(c: Tiling, lo: int, mid: int, end: int, p: int, q: int)
    requires lo in c && lo < mid
    requires Apart(c, p, q) && Apart(c, p, lo)
    ensures Apart(RecutUsedTop(c, lo, mid, end), p, q)
  {
  }

  lemma RecutUsedTopTiled(c: Tiling, base: int, top: int, end: int, lo: int, mid: int)
    requires Tiled(c, base, top, end)
    requires lo in c && lo + MINSIZE <= mid <= end && mid % 8 == 0 && end % 8 == 0
    ensures Tiled(RecutUsedTop(c, lo, mid, end), base, mid, end)
  {
    var c' := RecutUsedTop(c, lo, mid, end);
    assert ChunkOk(c, base, top, end, lo);
    AlignedDiff(end, mid); AlignedDiff(mid, lo);
    forall p | p in c' ensures ChunkOk(c', base, mid, end, p) {
      if p != mid {
        assert ChunkOk(c, base, top, end, p);
        assert Apart(c, p, lo) && Apart(c, lo, top);
      }
    }
    forall p, q ensures Apart(c', p, q) {
      assert Apart(c, p, q) && Apart(c, p, lo);
      RecutUsedTopApart(c, lo, mid, end, p, q);
    }
  }

  // ---------------------------------------------------------------- tags after recutting

  lemma Recut1Tags(m: Words, m': Words, c: Tiling, base: int, top: int, end: int, lo: int, hi: int, k: Kind)
    requires Tiled(c, base, top, end) && Tags(m, c, base)
    requires lo in c && hi in c && lo < hi && k != Top
    requires TagsKept(m, m', c, lo, hi)
    requires Rd(m', lo + 4) == hi - lo + PrevBit(c, base, lo)
    requires Rd(m', hi + 4) == c[hi].size + (if k == Used then 1 else 0)
    requires k == Free ==> Rd(m', hi) == hi - lo
    ensures Tags(m', Recut1(c, lo, hi, k), base)
  {
    var c' := Recut1(c, lo, hi, k);
    assert ChunkOk(c, base, top, end, lo) && ChunkOk(c, base, top, end, hi);
    forall p | p in c' ensures TagOk(m', c', base, p) {
      assert ChunkOk(c, base, top, end, p) && TagOk(m, c, base, p) && TagKept(m, m', c, lo, hi, p);
      assert Apart(c, p, lo) && Apart(c, hi, p) && Apart(c, c[p].prev, hi) && Apart(c, hi, c[p].prev);
    }
  }

  lemma Recut2Tags(m: Words, m': Words, c: Tiling, base: int, top: int, end: int, lo: int, mid: int, hi: int, k2: Kind)
    requires Tiled(c, base, top, end) && Tags(m, c, base)
    requires lo in c && hi in c && lo + MINSIZE <= mid && mid + MINSIZE <= hi && mid % 8 == 0
    requires k2 != Top
    requires TagsKept(m, m', c, lo, hi)
    requires Rd(m', lo + 4) == mid - lo + PrevBit(c, base, lo)
    requires Rd(m', mid + 4) == hi - mid + 1
    requires Rd(m', hi + 4) == c[hi].size + (if k2 == Used then 1 else 0)
    requires k2 == Free ==> Rd(m', hi) == hi - mid
    ensures Tags(m', Recut2(c, lo, mid, hi, Used, k2), base)
  {
    var c' := Recut2(c, lo, mid, hi, Used, k2);
    assert ChunkOk(c, base, top, end, lo) && ChunkOk(c, base, top, end, hi);
    forall p | p in c' ensures TagOk(m', c', base, p) {
      if p != mid {
        assert ChunkOk(c, base, top, end, p) && TagOk(m, c, base, p) && TagKept(m, m', c, lo, hi, p);
        assert Apart(c, p, lo) && Apart(c, hi, p) && Apart(c, c[p].prev, hi) && Apart(c, hi, c[p].prev);
      }
    }
  }

  lemma RecutTopTags(m: Words, m': Words, c: Tiling, base: int, top: int, end: int, end': int, lo: int)
    requires Tiled(c, base, top, end) && Tags(m, c, base)
    requires lo in c && top <= end'
    requires TagsKept(m, m', c, lo, end')
    requires Rd(m', lo + 4) == end' - lo + PrevBit(c, base, lo)
    ensures Tags(m', RecutTop(c, lo, end'), base)
  {
    var c' := RecutTop(c, lo, end');
    assert ChunkOk(c, base, top, end, lo);
    forall p | p in c' ensures TagOk(m', c', base, p) {
      assert ChunkOk(c, base, top, end, p) && TagOk(m, c, base, p) && TagKept(m, m', c, lo, end', p);
      assert Apart(c, p, lo);
    }
  }

  lemma RecutUsedTopTags(m: Words, m': Words, c: Tiling, base: int, top: int, end: int, lo: int, mid: int)
    requires Tiled(c, base, top, end) && Tags(m, c, base)
    requires lo in c && lo + MINSIZE <= mid <= end
    requires TagsKept(m, m', c, lo, end)
    requires Rd(m', lo + 4) == mid - lo + PrevBit(c, base, lo)
    requires Rd(m', mid + 4) == end - mid + 1
    ensures Tags(m', RecutUsedTop(c, lo, mid, end), base)
  {
    var c' := RecutUsedTop(c, lo, mid, end);
    assert ChunkOk(c, base, top, end, lo);
    forall p | p in c' ensures TagOk(m', c', base, p) {
      if p != mid {
        assert ChunkOk(c, base, top, end, p) && TagOk(m, c, base, p) && TagKept(m, m', c, lo, end, p);
        assert Apart(c, p, lo);
      }
    }
  }

  // ---------------------------------------------------------------- consolidation after recutting

  lemma Recut1Fused(c: Tiling, base: int, top: int, end: int, lo: int, hi: int, k: Kind)
    requires Tiled(c, base, top, end) && Fused(c)
    requires lo in c && hi in c && lo < hi && k != Top
    requires k == Free ==> c[hi].kind == Used && PrevBit(c, base, lo) == 1
    ensures Fused(Recut1(c, lo, hi, k))
  {
    var c' := Recut1(c, lo, hi, k);
    assert ChunkOk(c, base, top, end, lo) && ChunkOk(c, base, top, end, hi);
    forall p ensures FusedAt(c', p) {
      if p in c' {
        assert FusedAt(c, p) && ChunkOk(c, base, top, end, p);
        assert Apart(c, p, lo) && Apart(c, lo, p);
        if c'[p].kind == Free && p + c'[p].size == lo { assert c[lo].prev == p; }
      }
    }
  }

  lemma Recut2Fused(c: Tiling, base: int, top: int, end: int, lo: int, mid: int, hi: int, k2: Kind)
    requires Tiled(c, base, top, end) && Fused(c)
    requires lo in c && hi in c && lo < mid < hi && k2 != Top
    requires k2 == Free ==> c[hi].kind == Used
    ensures Fused(Recut2(c, lo, mid, hi, Used, k2))
  {
    var c' := Recut2(c, lo, mid, hi, Used, k2);
    forall p ensures FusedAt(c', p) {
      if p in c' && p != mid {
        assert FusedAt(c, p) && ChunkOk(c, base, top, end, p);
        assert Apart(c, p, lo) && Apart(c, lo, p);
      }
    }
  }

  lemma RecutTopFused(c: Tiling, base: int, top: int, end: int, lo: int, end': int)
    requires Tiled(c, base, top, end) && Fused(c)
    requires lo in c && PrevBit(c, base, lo) == 1
    ensures Fused(RecutTop(c, lo, end'))
  {
    var c' := RecutTop(c, lo, end');
    forall p ensures FusedAt(c', p) {
      if p in c' {
        assert FusedAt(c, p) && ChunkOk(c, base, top, end, p) && ChunkOk(c, base, top, end, lo);
        assert Apart(c, p, lo);
      }
    }
  }

  lemma RecutUsedTopFused(c: Tiling, base: int, top: int, end: int, lo: int, mid: int)
    requires Tiled(c, base, top, end) && Fused(c)
    requires lo in c && lo < mid
    ensures Fused(RecutUsedTop(c, lo, mid, end))
  {
    var c' := RecutUsedTop(c, lo, mid, end);
    forall p ensures FusedAt(c', p) {
      if p in c' && p != mid {
        assert FusedAt(c, p) && ChunkOk(c, base, top, end, p);
        assert Apart(c, p, lo);
      }
    }
  }

  // ---------------------------------------------------------------- free and live chunks

  /** The free chunks, address to size. */
  ghost function FreeMap(c: Tiling): map<int, int> {
    map p | p in c && c[p].kind == Free :: c[p].size
  }

  /** The chunks handed out to clients, address to size. */
  ghost function LiveMap(c: Tiling): map<int, int> {
    map p | p in c && c[p].kind == Used :: c[p].size
  }

  /** Two live blocks never share a word. */
  lemma LiveDisjoint(c: Tiling, base: int, top: int, end: int, p: int, q: int, a: int)
    requires Tiled(c, base, top, end)
    requires p in LiveMap(c) && q in LiveMap(c) && p != q
    requires p + 8 <= a < p + LiveMap(c)[p] + 4
    ensures !(q + 8 <= a < q + LiveMap(c)[q] + 4)
  {
    assert Apart(c, p, q) && Apart(c, q, p);
  }

  /** Entries of an address map outside an interval. */
  ghost function Outside(f: map<int, int>, lo: int, hi: int): map<int, int> {
    map q | q in f && !(lo <= q < hi) :: f[q]
  }

  lemma OutsideOne(c: Tiling, base: int, top: int, end: int, p: int)
    requires Tiled(c, base, top, end) && p in c && p != top
    ensures Outside(FreeMap(c), p, p + c[p].size) == FreeMap(c) - {p}
    ensures Outside(LiveMap(c), p, p + c[p].size) == LiveMap(c) - {p}
  {
    assert ChunkOk(c, base, top, end, p);
    forall q | q in c && p < q ensures p + c[p].size <= q { assert Apart(c, p, q); }
  }

  /** An interval cut at a chunk boundary can be taken out piece by piece. */
  lemma OutsideJoin(f: map<int, int>, lo: int, mid: int, hi: int)
    requires lo <= mid <= hi
    ensures Outside(Outside(f, lo, mid), mid, hi) == Outside(f, lo, hi)
  {
  }

  lemma OutsideMinus(f: map<int, int>, p: int, lo: int, hi: int)
    ensures Outside(f - {p}, lo, hi) == Outside(f, lo, hi) - {p}
  {
  }

  lemma Recut1Maps(c: Tiling, lo: int, hi: int, k: Kind)
    requires lo in c && hi in c && lo < hi
    ensures var c' := Recut1(c, lo, hi, k);
      && FreeMap(c') == (if k == Free then Outside(FreeMap(c), lo, hi)[lo := hi - lo] else Outside(FreeMap(c), lo, hi))
      && LiveMap(c') == (if k == Used then Outside(LiveMap(c), lo, hi)[lo := hi - lo] else Outside(LiveMap(c), lo, hi))
  {
  }

  lemma Recut2Maps(c: Tiling, lo: int, mid: int, hi: int, k2: Kind)
    requires lo in c && hi in c && lo < mid < hi && k2 != Top
    ensures var c' := Recut2(c, lo, mid, hi, Used, k2);
      && FreeMap(c') == (if k2 == Free then Outside(FreeMap(c), lo, hi)[mid := hi - mid]
         else Outside(FreeMap(c), lo, hi))
      && LiveMap(c') == (if k2 == Used then Outside(LiveMap(c), lo, hi)[lo := mid - lo][mid := hi - mid]
                         else Outside(LiveMap(c), lo, hi)[lo := mid - lo])
  {
    Recut2Free(c, lo, mid, hi, k2);
    Recut2Live(c, lo, mid, hi, k2);
    hide Recut2, FreeMap, LiveMap, Outside;
  }

  lemma Recut2Free(c: Tiling, lo: int, mid: int, hi: int, k2: Kind)
    requires lo in c && hi in c && lo < mid < hi && k2 != Top
    ensures var c', f := Recut2(c, lo, mid, hi, Used, k2), Outside(FreeMap(c), lo, hi);
      FreeMap(c') == if k2 == Free then f[mid := hi - mid] else f
  {
    hide LiveMap;
  }

  lemma Recut2Live(c: Tiling, lo: int, mid: int, hi: int, k2: Kind)
    requires lo in c && hi in c && lo < mid < hi && k2 != Top
    ensures var c', f := Recut2(c, lo, mid, hi, Used, k2), Outside(LiveMap(c), lo, hi)[lo := mid - lo];
      LiveMap(c') == if k2 == Used then f[mid := hi - mid] else f
  {
    hide FreeMap;
  }

  lemma RecutTopMaps(c: Tiling, base: int, top: int, end: int, lo: int, end': int)
    requires Tiled(c, base, top, end) && lo in c
    ensures var c' := RecutTop(c, lo, end');
      FreeMap(c') == Outside(FreeMap(c), lo, top) && LiveMap(c') == Outside(LiveMap(c), lo, top)
  {
    BelowTop(c, base, top, end);
  }

  lemma RecutUsedTopMaps(c: Tiling, base: int, top: int, end: int, lo: int, mid: int)
    requires Tiled(c, base, top, end) && lo in c && lo < mid
    ensures var c' := RecutUsedTop(c, lo, mid, end);
      FreeMap(c') == Outside(FreeMap(c), lo, top) && LiveMap(c') == Outside(LiveMap(c), lo, top)[lo := mid - lo]
  {
    RecutUsedTopFree(c, base, top, end, lo, mid);
    RecutUsedTopLive(c, base, top, end, lo, mid);
    hide RecutUsedTop, FreeMap, LiveMap, Outside;
  }

  lemma RecutUsedTopFree(c: Tiling, base: int, top: int, end: int, lo: int, mid: int)
    requires Tiled(c, base, top, end) && lo in c && lo < mid
    ensures FreeMap(RecutUsedTop(c, lo, mid, end)) == Outside(FreeMap(c), lo, top)
  {
    BelowTop(c, base, top, end);
    hide Tiled, LiveMap;
  }

  lemma RecutUsedTopLive(c: Tiling, base: int, top: int, end: int, lo: int, mid: int)
    requires Tiled(c, base, top, end) && lo in c && lo < mid
    ensures LiveMap(RecutUsedTop(c, lo, mid, end)) == Outside(LiveMap(c), lo, top)[lo := mid - lo]
  {
    BelowTop(c, base, top, end);
    hide Tiled, FreeMap;
  }

  lemma BelowTop(c: Tiling, base: int, top: int, end: int)
    requires Tiled(c, base, top, end)
    ensures forall q :: q in c ==> q <= top && (q == top <==> c[q].kind == Top)
  {
    forall q | q in c ensures q <= top && (q == top <==> c[q].kind == Top) {
      assert ChunkOk(c, base, top, end, q);
    }
  }

  /** Every live block outside a recut interval keeps its words. */
  ghost predicate Kept(m: Words, m': Words, live: map<int, int>) {
    forall q {:trigger q in live} :: q in live ==> SamePayload(m, m', q, live[q])
  }
}
