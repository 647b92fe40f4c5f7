/** Areas of memory, the page groups they share, and the physical pages the groups take. */
module Areas {
  import FreeIds

  type Page = nat
  type GroupId = nat
  type AreaId = nat
  type SpaceId = nat

  const SLOTS := 6
  const TABLE := 1024

  /** A page group keeps its pages in chunks of six; all chunks but the last are full. */
  datatype Group = Group(refcount: int, size: nat, chunks: seq<seq<Page>>, physmap: bool)

  datatype Area = Area(group: GroupId, space: SpaceId, virt: nat, length: nat, maxlength: nat)

  datatype Entry = Unmapped | Frame(page: Page)

  /** `free` lists the free pages, the next one to hand out first; `owner` names the group of every page taken;
      `given` says how many of a group's first pages were named by its creator and not taken. */
  datatype State = State(groups: map<GroupId, Group>, areas: map<AreaId, Area>, spaces: map<SpaceId, seq<Entry>>,
                         free: seq<Page>, owner: map<Page, GroupId>, given: map<GroupId, nat>)

  // ---------------------------------------------------------------- chunks

  /** As many chunks as the size needs, each with six slots. */
  ghost predicate Shaped(chunks: seq<seq<Page>>, size: nat) {
    |chunks| == (size + SLOTS - 1) / SLOTS
      && forall k {:trigger chunks[k]} :: 0 <= k < |chunks| ==> |chunks[k]| == SLOTS
  }

  ghost function Slot(chunks: seq<seq<Page>>, i: nat): Page {
    if i / SLOTS < |chunks| && i % SLOTS < |chunks[i / SLOTS]| then chunks[i / SLOTS][i % SLOTS] else 0
  }

  /** The pages of a group, in order. */
  ghost function Flat(g: Group): seq<Page> {
    seq(g.size, i requires 0 <= i => Slot(g.chunks, i))
  }

  function SetSlot(chunks: seq<seq<Page>>, k: nat, j: nat, p: Page): seq<seq<Page>>
    requires k < |chunks| && j < |chunks[k]|
  {
    var row: seq<Page> := chunks[k][j := p];
    chunks[k := row]
  }

  lemma SlotSet(chunks: seq<seq<Page>>, i: nat, p: Page, m: nat)
    requires i / SLOTS < |chunks| && i % SLOTS < |chunks[i / SLOTS]|
    ensures Slot(SetSlot(chunks, i / SLOTS, i % SLOTS, p), m) == if m == i then p else Slot(chunks, m)
  {
    assert m / SLOTS == i / SLOTS && m % SLOTS == i % SLOTS ==> m == i;
  }

  lemma SlotAt(chunks: seq<seq<Page>>, k: nat, j: nat)
    requires k < |chunks| && j < SLOTS && |chunks[k]| == SLOTS
    ensures Slot(chunks, k * SLOTS + j) == chunks[k][j]
  {
    var m := k * SLOTS + j;
    assert m / SLOTS == k && m % SLOTS == j;
  }

  // ---------------------------------------------------------------- the invariant

  ghost function Elems(q: seq<Page>): set<Page> { set p | p in q }

  ghost function Sharers(s: State, g: GroupId): set<AreaId> {
    set a | a in s.areas && s.areas[a].group == g
  }

  /** The pages a group took from the free list: all of them, or those it has grown by. */
  ghost function Owned(s: State, g: GroupId): seq<Page>
    requires g in s.groups && g in s.given && s.given[g] <= s.groups[g].size
  {
    Flat(s.groups[g])[s.given[g]..]
  }

  ghost predicate OwnsAll(s: State, g: GroupId)
    requires g in s.groups && g in s.given && s.given[g] <= s.groups[g].size
  {
    FreeIds.Distinct(Owned(s, g)) &&
    forall p {:trigger p in s.owner} :: p in Owned(s, g) <==> p in s.owner && s.owner[p] == g
  }

  /** A group is shared by as many areas as it counts, has its chunks in order, and owns the pages it took. */
  ghost predicate GroupOk(s: State, g: GroupId)
    requires g in s.groups
  {
    var x := s.groups[g];
    && x.refcount == |Sharers(s, g)| && x.refcount > 0 && x.size > 0 && Shaped(x.chunks, x.size)
    && g in s.given && s.given[g] <= x.size && (x.physmap <==> s.given[g] > 0) && OwnsAll(s, g)
  }

  ghost predicate AreaOk(s: State, a: AreaId)
    requires a in s.areas
  {
    var x := s.areas[a];
    x.group in s.groups && x.space in s.spaces && 0 < x.length <= s.groups[x.group].size
  }

  ghost predicate Inv(s: State) {
    && FreeIds.Distinct(s.free)
    && (forall p :: p in s.owner ==> p !in s.free && s.owner[p] in s.groups)
    && (forall g {:trigger GroupOk(s, g)} :: g in s.groups ==> GroupOk(s, g))
    && (forall a {:trigger AreaOk(s, a)} :: a in s.areas ==> AreaOk(s, a))
    && (forall d :: d in s.spaces ==> |s.spaces[d]| == TABLE)
  }

  /** Every page there is. */
  ghost function Pages(s: State): set<Page> {
    Elems(s.free) + s.owner.Keys
  }

  // ---------------------------------------------------------------- the calls

  ghost predicate FreeSpan(t: seq<Entry>, at: nat, n: nat) {
    0 < at && at + n <= |t| && forall k {:trigger t[k]} :: at <= k < at + n ==> t[k] == Unmapped
  }

  ghost function MapPages(t: seq<Entry>, at: nat, ps: seq<Page>): seq<Entry> {
    seq(|t|, k requires 0 <= k < |t| => if at <= k < at + |ps| then Frame(ps[k - at]) else t[k])
  }

  ghost function Cleared(t: seq<Entry>, at: nat, n: nat): seq<Entry> {
    seq(|t|, k requires 0 <= k < |t| => if at <= k < at + n then Unmapped else t[k])
  }

  ghost function Claimed(owner: map<Page, GroupId>, ps: seq<Page>, g: GroupId): map<Page, GroupId> {
    map p | p in owner.Keys + Elems(ps) :: if p in ps then g else owner[p]
  }

  ghost function Run(first: Page, n: nat): seq<Page> { seq(n, i requires 0 <= i => first + i) }

  ghost function Reversed(q: seq<Page>): seq<Page>
    ensures |Reversed(q)| == |q|
  {
    if q == [] then [] else Reversed(q[1..]) + [q[0]]
  }

  /** A new group of n pages, mapped at a free span of one space. */
  ghost predicate CreateStep(s: State, u: State, g: GroupId, a: AreaId, d: SpaceId, at: nat, n: nat, physmap: bool,
                             first: Page) {
    && g !in s.groups && a !in s.areas && d in s.spaces && n > 0 && FreeSpan(s.spaces[d], at, n)
    && g in u.groups && var x := u.groups[g];
       && u.groups == s.groups[g := x] && x.refcount == 1 && x.size == n && x.physmap == physmap && Shaped(x.chunks, n)
       && (if physmap then Flat(x) == Run(first, n) && u.free == s.free && u.owner == s.owner
           else && n <= |s.free| && Flat(x) == s.free[..n] && u.free == s.free[n..]
                && u.owner == Claimed(s.owner, s.free[..n], g))
       && u.areas == s.areas[a := Area(g, d, at, n, n)] && u.given == s.given[g := if physmap then n else 0]
       && u.spaces == s.spaces[d := MapPages(s.spaces[d], at, Flat(x))]
  }

  /** A second area for the group of the first, as long as the first. */
  ghost predicate CloneStep(s: State, u: State, a: AreaId, b: AreaId, d: SpaceId, at: nat) {
    && a in s.areas && b !in s.areas && d in s.spaces && s.areas[a].group in s.groups
    && var x, g := s.areas[a], s.areas[a].group;
       var y := s.groups[g];
       && x.length <= y.size && FreeSpan(s.spaces[d], at, x.length)
       && u.groups == s.groups[g := y.(refcount := y.refcount + 1)]
       && u.areas == s.areas[b := Area(g, d, at, x.length, x.maxlength)]
       && u.spaces == s.spaces[d := MapPages(s.spaces[d], at, Flat(y)[..x.length])]
       && u.free == s.free && u.owner == s.owner && u.given == s.given
  }

  /** n more pages, off the free list, for the group of an area. They are mapped at the addresses beyond the end of
      the group in the space d of the caller, which nobody compares with the area's own. */
  ghost predicate ResizeStep(s: State, u: State, d: SpaceId, a: AreaId, n: nat) {
    && a in s.areas && s.areas[a].group in s.groups && d in s.spaces && n <= |s.free|
    && var x, g := s.areas[a], s.areas[a].group;
       var y := s.groups[g];
       && n > 0 && FreeSpan(s.spaces[d], x.virt + y.size, n) && g in u.groups
       && var z := u.groups[g];
          && u.groups == s.groups[g := z] && z.refcount == y.refcount && z.size == y.size + n
          && z.physmap == y.physmap && u.given == s.given
          && Shaped(z.chunks, z.size) && Flat(z) == Flat(y) + s.free[..n]
          && u.areas == s.areas[a := x.(length := x.length + n, maxlength := x.maxlength + n)]
          && u.spaces == s.spaces[d := MapPages(s.spaces[d], x.virt + y.size, s.free[..n])]
          && u.free == s.free[n..] && u.owner == Claimed(s.owner, s.free[..n], g)
  }

  /** The area goes; with the last one sharing its group the group goes, and its pages go back, the first of them
      deepest. No page of a group with given pages goes back, not even those it has grown by. */
  ghost predicate DestroyStep(s: State, u: State, a: AreaId) {
    && a in s.areas && s.areas[a].group in s.groups && s.areas[a].space in s.spaces
    && var x, g, d := s.areas[a], s.areas[a].group, s.areas[a].space;
       var y := s.groups[g];
       && u.areas == s.areas - {a} && u.spaces == s.spaces[d := Cleared(s.spaces[d], x.virt, x.length)]
       && if y.refcount == 1 then
            && g in s.given && s.given[g] <= y.size
            && u.groups == s.groups - {g} && u.given == s.given - {g} && u.owner == s.owner - Elems(Owned(s, g))
            && u.free == if y.physmap then s.free else Reversed(Flat(y)) + s.free
          else
            && u.groups == s.groups[g := y.(refcount := y.refcount - 1)] && u.given == s.given
            && u.free == s.free && u.owner == s.owner
  }

  // ---------------------------------------------------------------- what every call keeps

  /** The groups and areas that a call does not touch. */
  lemma OtherGroup(s: State, u: State, g: GroupId)
    requires g in s.groups && GroupOk(s, g) && g in u.groups && u.groups[g] == s.groups[g]
      && Sharers(u, g) == Sharers(s, g) && g in u.given && u.given[g] == s.given[g]
    requires forall p :: (p in s.owner && s.owner[p] == g) <==> (p in u.owner && u.owner[p] == g)
    ensures GroupOk(u, g)
  {
  }

  lemma TakeSplit(free: seq<Page>, n: nat)
    requires FreeIds.Distinct(free) && n <= |free|
    ensures FreeIds.Distinct(free[..n]) && FreeIds.Distinct(free[n..])
    ensures forall p {:trigger p in free[..n]} {:trigger p in free[n..]} ::
      !(p in free[..n] && p in free[n..]) && (p in free <==> p in free[..n] || p in free[n..])
  {
    assert free == free[..n] + free[n..];
  }

  lemma NoSharers(s: State, g: GroupId)
    requires Inv(s) && g !in s.groups
    ensures Sharers(s, g) == {}
  {
    forall b | b in s.areas ensures s.areas[b].group != g { assert AreaOk(s, b); }
  }

  lemma CreatedGroup(s: State, u: State, g: GroupId, a: AreaId, d: SpaceId, at: nat, n: nat, physmap: bool, first: Page)
    requires Inv(s) && CreateStep(s, u, g, a, d, at, n, physmap, first)
    ensures GroupOk(u, g)
  {
    if !physmap { TakeSplit(s.free, n); }
    NoSharers(s, g);
    assert Sharers(u, g) == Sharers(s, g) + {a};
    assert Owned(u, g) == if physmap then [] else s.free[..n];
  }

  /** Pages that go from the free list to a group stay the pages there are. */
  lemma ClaimedPages(s: State, u: State, g: GroupId, n: nat)
    requires Inv(s) && n <= |s.free| && u.free == s.free[n..] && u.owner == Claimed(s.owner, s.free[..n], g)
    ensures FreeIds.Distinct(u.free) && Pages(u) == Pages(s)
    ensures forall p :: p in u.owner ==> p !in u.free && (u.owner[p] == g || (p in s.owner && u.owner[p] == s.owner[p]))
    ensures forall h {:trigger OwnSame(s, u, h)} :: h != g ==> OwnSame(s, u, h)
  {
    TakeSplit(s.free, n);
  }

  /** A group owns the same pages before and after. */
  ghost predicate OwnSame(s: State, u: State, h: GroupId) {
    forall p :: (p in s.owner && s.owner[p] == h) <==> (p in u.owner && u.owner[p] == h)
  }

  /** A call that makes or changes one group. */
  lemma OneGroup(s: State, u: State, g: GroupId)
    requires Inv(s) && g in u.groups && u.groups == s.groups[g := u.groups[g]] && GroupOk(u, g)
    requires FreeIds.Distinct(u.free) && forall p :: p in u.owner ==> p !in u.free && u.owner[p] in u.groups
    requires forall h {:trigger OwnSame(s, u, h)} :: h != g ==> OwnSame(s, u, h)
    requires forall h {:trigger Sharers(u, h)} :: h in s.groups && h != g ==> Sharers(u, h) == Sharers(s, h)
    requires forall h {:trigger s.given[h]} :: h in s.given && h != g ==> h in u.given && u.given[h] == s.given[h]
    requires (forall b :: b in u.areas ==> AreaOk(u, b)) && (forall d :: d in u.spaces ==> |u.spaces[d]| == TABLE)
    ensures Inv(u)
  {
    forall h | h in u.groups && h != g ensures GroupOk(u, h) {
      assert GroupOk(s, h) && OwnSame(s, u, h) && Sharers(u, h) == Sharers(s, h);
      OtherGroup(s, u, h);
    }
  }

  lemma CreateKeeps(s: State, u: State, g: GroupId, a: AreaId, d: SpaceId, at: nat, n: nat, physmap: bool, first: Page)
    requires Inv(s) && CreateStep(s, u, g, a, d, at, n, physmap, first)
    ensures Inv(u) && Pages(u) == Pages(s)
  {
    if !physmap { ClaimedPages(s, u, g, n); } else { assert Pages(u) == Pages(s); }
    CreatedGroup(s, u, g, a, d, at, n, physmap, first);
    hide Shaped, FreeSpan, Flat, Pages, Claimed, GroupOk;
    forall h | h in s.groups && h != g ensures Sharers(u, h) == Sharers(s, h) {}
    forall b | b in u.areas ensures AreaOk(u, b) { assert b != a ==> AreaOk(s, b); }
    OneGroup(s, u, g);
  }

  /** A change of the counts and areas alone. */
  lemma Recounted(s: State, u: State, g: GroupId)
    requires Inv(s) && g in s.groups && u.groups == s.groups[g := s.groups[g].(refcount := |Sharers(u, g)|)]
    requires u.free == s.free && u.owner == s.owner && u.given == s.given && Sharers(u, g) != {}
    requires forall h :: h in s.groups && h != g ==> Sharers(u, h) == Sharers(s, h)
    requires (forall b :: b in u.areas ==> AreaOk(u, b)) && (forall d :: d in u.spaces ==> |u.spaces[d]| == TABLE)
    ensures Inv(u) && Pages(u) == Pages(s)
  {
    assert GroupOk(s, g);
    forall h | h in u.groups ensures GroupOk(u, h) {
      assert GroupOk(s, h);
      if h != g { OtherGroup(s, u, h); }
    }
  }

  lemma CloneKeeps(s: State, u: State, a: AreaId, b: AreaId, d: SpaceId, at: nat)
    requires Inv(s) && CloneStep(s, u, a, b, d, at)
    ensures Inv(u) && Pages(u) == Pages(s)
  {
    var g := s.areas[a].group;
    assert GroupOk(s, g);
    assert Sharers(u, g) == Sharers(s, g) + {b};
    forall h | h in s.groups && h != g ensures Sharers(u, h) == Sharers(s, h) {}
    forall c | c in u.areas ensures AreaOk(u, c) { assert AreaOk(s, a) && (c != b ==> AreaOk(s, c)); }
    Recounted(s, u, g);
  }

  lemma SameSharers(s: State, u: State, a: AreaId, h: GroupId)
    requires a in s.areas && a in u.areas && u.areas == s.areas[a := u.areas[a]] && u.areas[a].group == s.areas[a].group
    ensures Sharers(u, h) == Sharers(s, h)
  {
  }

  lemma ResizeKeeps(s: State, u: State, d: SpaceId, a: AreaId, n: nat)
    requires Inv(s) && ResizeStep(s, u, d, a, n)
    ensures Inv(u) && Pages(u) == Pages(s)
  {
    var g := s.areas[a].group;
    ClaimedPages(s, u, g, n);
    assert GroupOk(s, g);
    GrownOwns(s, u, g, n);
    hide Shaped, FreeSpan, Flat, Pages, Claimed;
    forall h ensures Sharers(u, h) == Sharers(s, h) { SameSharers(s, u, a, h); }
    assert GroupOk(u, g);
    hide GroupOk, Sharers;
    forall c | c in u.areas ensures AreaOk(u, c) { assert AreaOk(s, c); }
    OneGroup(s, u, g);
  }

  lemma GrownOwns(s: State, u: State, g: GroupId, n: nat)
    requires Inv(s) && g in s.groups && g in u.groups && n <= |s.free| && u.given == s.given
    requires Flat(u.groups[g]) == Flat(s.groups[g]) + s.free[..n] && u.owner == Claimed(s.owner, s.free[..n], g)
    ensures g in u.given && u.given[g] <= u.groups[g].size && OwnsAll(u, g)
  {
    assert GroupOk(s, g);
    TakeSplit(s.free, n);
    var f, t := Owned(s, g), s.free[..n];
    assert |Flat(u.groups[g])| == u.groups[g].size && Owned(u, g) == f + t;
    forall i, j | 0 <= i < |f| && 0 <= j < |t| ensures f[i] != t[j] {
      assert f[i] in s.owner;
      assert t[j] in s.free;
    }
  }

  lemma {:induction false} ReversedElems(q: seq<Page>)
    requires FreeIds.Distinct(q)
    ensures FreeIds.Distinct(Reversed(q)) && forall p :: p in Reversed(q) <==> p in q
  {
    if q != [] {
      var x, rest := q[0], q[1..];
      ReversedElems(rest);
      assert q == [x] + rest;
      assert x !in rest;
    }
  }

  lemma GivenBack(s: State, g: GroupId)
    requires Inv(s) && g in s.groups && !s.groups[g].physmap
    ensures FreeIds.Distinct(Reversed(Flat(s.groups[g])) + s.free)
    ensures forall p :: p in Reversed(Flat(s.groups[g])) <==> p in Flat(s.groups[g])
  {
    assert GroupOk(s, g) && Owned(s, g) == Flat(s.groups[g]);
    ReversedElems(Flat(s.groups[g]));
    var r := Reversed(Flat(s.groups[g]));
    forall i, j | 0 <= i < |r| && 0 <= j < |s.free| ensures r[i] != s.free[j] {
      assert r[i] in Flat(s.groups[g]);
      assert r[i] in s.owner;
    }
  }

  /** The last area of a group goes that was given pages and has grown since. */
  ghost predicate Loses(s: State, a: AreaId) {
    && a in s.areas && s.areas[a].group in s.groups && s.areas[a].group in s.given
    && var g := s.areas[a].group;
       s.groups[g].refcount == 1 && s.groups[g].physmap && s.given[g] < s.groups[g].size
  }

  /** With its last area a group goes, and its pages are free again, or lost. */
  lemma LastDestroyKeeps(s: State, u: State, a: AreaId)
    requires Inv(s) && DestroyStep(s, u, a) && s.groups[s.areas[a].group].refcount == 1
    ensures Inv(u)
    ensures var g := s.areas[a].group; Pages(u) == Pages(s) - if s.groups[g].physmap then Elems(Owned(s, g)) else {}
  {
    hide Shaped, Flat, Reversed, OwnsAll, Owned, Pages, FreeIds.Distinct;
    var g := s.areas[a].group;
    assert GroupOk(s, g);
    LastDestroyPages(s, u, a);
    assert a in Sharers(s, g) && |Sharers(s, g) - {a}| == 0;
    forall c | c in u.areas ensures AreaOk(u, c) {
      assert AreaOk(s, c);
      assert c !in Sharers(s, g) - {a};
    }
    forall h | h in u.groups ensures GroupOk(u, h) {
      assert GroupOk(s, h) && OwnSame(s, u, h);
      assert Sharers(u, h) == Sharers(s, h);
      OtherGroup(s, u, h);
    }
  }

  lemma LastDestroyPages(s: State, u: State, a: AreaId)
    requires Inv(s) && DestroyStep(s, u, a) && s.groups[s.areas[a].group].refcount == 1
    ensures FreeIds.Distinct(u.free) && forall p :: p in u.owner ==> p !in u.free && u.owner[p] in u.groups
    ensures forall h {:trigger OwnSame(s, u, h)} :: h in u.groups ==> OwnSame(s, u, h)
    ensures var g := s.areas[a].group; Pages(u) == Pages(s) - if s.groups[g].physmap then Elems(Owned(s, g)) else {}
  {
    var g := s.areas[a].group;
    var y := s.groups[g];
    assert GroupOk(s, g);
    if !y.physmap {
      GivenBack(s, g);
      assert Owned(s, g) == Flat(y);
    }
    hide Shaped, Flat, Reversed;
  }

  lemma DestroyKeeps(s: State, u: State, a: AreaId)
    requires Inv(s) && DestroyStep(s, u, a)
    ensures Inv(u) && Pages(u) <= Pages(s)
    ensures Pages(u) == Pages(s) <==> !Loses(s, a)
  {
    var g := s.areas[a].group;
    assert GroupOk(s, g);
    if s.groups[g].refcount == 1 {
      LastDestroyKeeps(s, u, a);
      if Loses(s, a) { SomePage(s, g); }
    } else {
      assert Sharers(u, g) == Sharers(s, g) - {a};
      forall h | h in s.groups && h != g ensures Sharers(u, h) == Sharers(s, h) {}
      forall c | c in u.areas ensures AreaOk(u, c) { assert AreaOk(s, c); }
      Recounted(s, u, g);
    }
  }

  lemma SomePage(s: State, g: GroupId)
    requires Inv(s) && g in s.groups && g in s.given && s.given[g] < s.groups[g].size
    ensures exists p :: p in Owned(s, g) && p in Pages(s)
  {
    assert GroupOk(s, g) && |Owned(s, g)| > 0;
    var p := Owned(s, g)[0];
    assert p in Owned(s, g) && p in s.owner;
  }

  // ---------------------------------------------------------------- whole runs

  datatype Call =
    | NewSpace(d: SpaceId)
    | Create(g: GroupId, a: AreaId, d: SpaceId, at: nat, n: nat, physmap: bool, first: Page)
    | Clone(a: AreaId, b: AreaId, d: SpaceId, at: nat)
    | Resize(d: SpaceId, a: AreaId, n: nat)
    | Destroy(a: AreaId)

  ghost predicate Step(s: State, c: Call, u: State) {
    match c
    case NewSpace(d) => d !in s.spaces && u == s.(spaces := s.spaces[d := seq(TABLE, i => Unmapped)])
    case Create(g, a, d, at, n, physmap, first) => CreateStep(s, u, g, a, d, at, n, physmap, first)
    case Clone(a, b, d, at) => CloneStep(s, u, a, b, d, at)
    case Resize(d, a, n) => ResizeStep(s, u, d, a, n)
    case Destroy(a) => DestroyStep(s, u, a)
  }

  lemma NewSpaceKeeps(s: State, u: State, d: SpaceId)
    requires Inv(s) && d !in s.spaces && u == s.(spaces := s.spaces[d := seq(TABLE, i => Unmapped)])
    ensures Inv(u) && Pages(u) == Pages(s)
  {
    forall h | h in u.groups ensures GroupOk(u, h) {
      assert GroupOk(s, h);
      assert Sharers(u, h) == Sharers(s, h);
      OtherGroup(s, u, h);
    }
    forall c | c in u.areas ensures AreaOk(u, c) { assert AreaOk(s, c); }
  }

  ghost predicate LosesPages(s: State, c: Call) {
    c.Destroy? && Loses(s, c.a)
  }

  /** Every call keeps the invariant, makes up no page, and loses one exactly if it is such a destruction. */
  lemma StepKeeps(s: State, c: Call, u: State)
    requires Inv(s) && Step(s, c, u)
    ensures Inv(u) && Pages(u) <= Pages(s)
    ensures Pages(u) == Pages(s) <==> !LosesPages(s, c)
  {
    match c
    case NewSpace(d) => NewSpaceKeeps(s, u, d);
    case Create(g, a, d, at, n, physmap, first) => CreateKeeps(s, u, g, a, d, at, n, physmap, first);
    case Clone(a, b, d, at) => CloneKeeps(s, u, a, b, d, at);
    case Resize(d, a, n) => ResizeKeeps(s, u, d, a, n);
    case Destroy(a) => DestroyKeeps(s, u, a);
  }

  ghost predicate Behaviour(ss: seq<State>, cs: seq<Call>) {
    |ss| == |cs| + 1 && forall i {:trigger cs[i]} :: 0 <= i < |cs| ==> Step(ss[i], cs[i], ss[i + 1])
  }

  ghost predicate NoneLost(ss: seq<State>, cs: seq<Call>, k: nat)
    requires k <= |cs| && |ss| == |cs| + 1
  {
    forall i {:trigger cs[i]} :: 0 <= i < k ==> !LosesPages(ss[i], cs[i])
  }

  /** Through any calls, every page stays free or in one slot of one group, or is lost for good; and all are still
      there exactly when no call destroyed the last area of a grown group of given pages. */
  lemma {:induction false} RunKeeps(ss: seq<State>, cs: seq<Call>, k: nat)
    requires Behaviour(ss, cs) && Inv(ss[0]) && k < |ss|
    ensures Inv(ss[k]) && Pages(ss[k]) <= Pages(ss[0])
    ensures Pages(ss[k]) == Pages(ss[0]) <==> NoneLost(ss, cs, k)
    decreases k
  {
    if k > 0 {
      RunKeeps(ss, cs, k - 1);
      hide Step, LosesPages, Pages;
      assert Step(ss[k - 1], cs[k - 1], ss[k]);
      StepKeeps(ss[k - 1], cs[k - 1], ss[k]);
    }
  }

  /** No group has grown beyond the pages it was given. */
  ghost predicate Ungrown(s: State) {
    forall g {:trigger s.groups[g]} :: g in s.groups && s.groups[g].physmap ==>
      g in s.given && s.given[g] == s.groups[g].size
  }

  ghost predicate GrowsGiven(s: State, c: Call) {
    c.Resize? && c.a in s.areas && s.areas[c.a].group in s.groups && s.groups[s.areas[c.a].group].physmap
  }

  lemma StepUngrown(s: State, c: Call, u: State)
    requires Inv(s) && Ungrown(s) && Step(s, c, u) && !GrowsGiven(s, c)
    ensures Ungrown(u) && !LosesPages(s, c)
  {
    hide Inv, Shaped, Flat, FreeSpan, MapPages;
  }

  /** So nothing is lost while nobody grows an area of given pages. */
  lemma {:induction false} Conserved(ss: seq<State>, cs: seq<Call>, k: nat)
    requires Behaviour(ss, cs) && Inv(ss[0]) && Ungrown(ss[0]) && k < |ss|
    requires forall i {:trigger cs[i]} :: 0 <= i < |cs| ==> !GrowsGiven(ss[i], cs[i])
    ensures Ungrown(ss[k]) && Pages(ss[k]) == Pages(ss[0])
    decreases k
  {
    if k > 0 {
      hide Step, LosesPages, Pages, Inv, Ungrown, GrowsGiven;
      Conserved(ss, cs, k - 1);
      RunKeeps(ss, cs, k - 1);
      assert Step(ss[k - 1], cs[k - 1], ss[k]) && !GrowsGiven(ss[k - 1], cs[k - 1]);
      StepUngrown(ss[k - 1], cs[k - 1], ss[k]);
      StepKeeps(ss[k - 1], cs[k - 1], ss[k]);
    }
  }

  lemma NoGroups(s: State)
    requires Inv(s) && s.areas == map[]
    ensures s.groups == map[] && Elems(s.free) == Pages(s)
  {
    forall g ensures g !in s.groups {
      assert Sharers(s, g) == {};
      assert g in s.groups ==> GroupOk(s, g);
    }
    assert s.groups.Keys == {} && s.owner.Keys == {};
  }

  /** When the last area is gone, so are the groups, and the free pages are all there were exactly when no call lost
      one. */
  lemma AllReturned(ss: seq<State>, cs: seq<Call>, k: nat)
    requires Behaviour(ss, cs) && Inv(ss[0]) && k < |ss| && ss[k].areas == map[]
    ensures ss[k].groups == map[] && (Elems(ss[k].free) == Pages(ss[0]) <==> NoneLost(ss, cs, k))
  {
    RunKeeps(ss, cs, k);
    NoGroups(ss[k]);
  }

  // ---------------------------------------------------------------- what the areas map

  /** The pages of its group, from the first, at the addresses of an area. */
  ghost predicate Mapped(s: State, a: AreaId)
    requires a in s.areas
  {
    var x := s.areas[a];
    && x.group in s.groups && x.space in s.spaces && 0 < x.length <= s.groups[x.group].size
       && x.virt + x.length <= |s.spaces[x.space]|
    && var t, f := s.spaces[x.space], Flat(s.groups[x.group]);
       forall k {:trigger f[k]} :: 0 <= k < x.length ==> t[x.virt + k] == Frame(f[k])
  }

  ghost predicate Apart(s: State, a: AreaId, b: AreaId)
    requires a in s.areas && b in s.areas
  {
    var x, y := s.areas[a], s.areas[b];
    a == b || x.space != y.space || x.virt + x.length <= y.virt || y.virt + y.length <= x.virt
  }

  ghost predicate Covers(s: State, a: AreaId, d: SpaceId, k: nat) {
    a in s.areas && s.areas[a].space == d && s.areas[a].virt <= k < s.areas[a].virt + s.areas[a].length
  }

  /** Every mapped page of a space belongs to an area. */
  ghost predicate Covered(s: State, d: SpaceId, k: nat) {
    d in s.spaces && k < |s.spaces[d]| && s.spaces[d][k] != Unmapped ==> exists a :: Covers(s, a, d, k)
  }

  ghost predicate MapInv(s: State) {
    && (forall a {:trigger Mapped(s, a)} :: a in s.areas ==> Mapped(s, a))
    && (forall a, b {:trigger Apart(s, a, b)} :: a in s.areas && b in s.areas ==> Apart(s, a, b))
    && (forall d, k {:trigger Covered(s, d, k)} :: Covered(s, d, k))
  }

  /** An area keeps its mapping when its entries and its pages stay. */
  lemma StillMapped(s: State, u: State, a: AreaId)
    requires a in s.areas && Mapped(s, a) && a in u.areas && u.areas[a] == s.areas[a]
    requires var x := s.areas[a];
      && x.group in u.groups && Flat(s.groups[x.group]) <= Flat(u.groups[x.group])
      && x.space in u.spaces && |u.spaces[x.space]| == |s.spaces[x.space]|
      && forall k :: x.virt <= k < x.virt + x.length ==> u.spaces[x.space][k] == s.spaces[x.space][k]
    ensures Mapped(u, a)
  {
    var x := s.areas[a];
    var f, h := Flat(s.groups[x.group]), Flat(u.groups[x.group]);
    forall k | 0 <= k < x.length ensures u.spaces[x.space][x.virt + k] == Frame(h[k]) {
      assert f[k] == h[k];
    }
  }

  /** A free span meets no area. */
  lemma SpanMeetsNone(s: State, d: SpaceId, at: nat, n: nat, b: AreaId)
    requires b in s.areas && Mapped(s, b) && d in s.spaces && FreeSpan(s.spaces[d], at, n) && n > 0
    ensures var y := s.areas[b]; y.length > 0 && (y.space != d || at + n <= y.virt || y.virt + y.length <= at)
  {
    var y := s.areas[b];
    var f, k := Flat(s.groups[y.group]), if at < y.virt then y.virt else at;
    assert y.virt <= k < y.virt + y.length ==> s.spaces[y.space][y.virt + (k - y.virt)] == Frame(f[k - y.virt]);
  }

  /** Mapping a free span of one space: what was mapped stays, and what is new is the span. */
  ghost predicate SpanMapped(s: State, u: State, d: SpaceId, at: nat, ps: seq<Page>) {
    && d in s.spaces && FreeSpan(s.spaces[d], at, |ps|) && |ps| > 0
    && u.spaces == s.spaces[d := MapPages(s.spaces[d], at, ps)]
    && forall h {:trigger h in u.groups} :: h in s.groups ==> h in u.groups && Flat(s.groups[h]) <= Flat(u.groups[h])
  }

  lemma OthersMapped(s: State, u: State, d: SpaceId, at: nat, ps: seq<Page>, b: AreaId)
    requires MapInv(s) && SpanMapped(s, u, d, at, ps) && b in s.areas && b in u.areas && u.areas[b] == s.areas[b]
    ensures Mapped(u, b)
  {
    assert Mapped(s, b);
    SpanMeetsNone(s, d, at, |ps|, b);
    StillMapped(s, u, b);
  }

  lemma SpanCovered(s: State, u: State, d: SpaceId, at: nat, ps: seq<Page>, a: AreaId, e: SpaceId, k: nat)
    requires MapInv(s) && SpanMapped(s, u, d, at, ps) && (forall j :: at <= j < at + |ps| ==> Covers(u, a, d, j))
    requires forall b, f, j :: Covers(s, b, f, j) ==> Covers(u, b, f, j)
    ensures Covered(u, e, k)
  {
    assert Covered(s, e, k);
    assert e == d && at <= k < at + |ps| ==> Covers(u, a, d, k);
  }

  lemma NewlyMapped(s: State, u: State, a: AreaId, x: Area, ps: seq<Page>)
    requires u.areas == s.areas[a := x] && SpanMapped(s, u, x.space, x.virt, ps)
    requires |ps| == x.length && x.group in u.groups && ps <= Flat(u.groups[x.group])
    ensures Mapped(u, a)
  {
    var t, f := u.spaces[x.space], Flat(u.groups[x.group]);
    forall k | 0 <= k < x.length ensures t[x.virt + k] == Frame(f[k]) { assert f[k] == ps[k]; }
  }

  /** A new area over a free span, for create and for clone. */
  lemma AddedArea(s: State, u: State, a: AreaId, x: Area, ps: seq<Page>)
    requires MapInv(s) && a !in s.areas && u.areas == s.areas[a := x] && SpanMapped(s, u, x.space, x.virt, ps)
    requires |ps| == x.length && x.group in u.groups && ps <= Flat(u.groups[x.group])
    ensures MapInv(u)
  {
    NewlyMapped(s, u, a, x, ps);
    hide Mapped, FreeSpan, MapPages, Covered;
    forall b | b in u.areas ensures Mapped(u, b) {
      if b != a { OthersMapped(s, u, x.space, x.virt, ps, b); }
    }
    forall b, c | b in u.areas && c in u.areas ensures Apart(u, b, c) {
      if b != a && c != a { assert Apart(s, b, c); }
      if b != a { SpanMeetsNone(s, x.space, x.virt, |ps|, b); }
      if c != a { SpanMeetsNone(s, x.space, x.virt, |ps|, c); }
    }
    forall d, k ensures Covered(u, d, k) { SpanCovered(s, u, x.space, x.virt, ps, a, d, k); }
  }

  lemma CreateMaps(s: State, u: State, g: GroupId, a: AreaId, d: SpaceId, at: nat, n: nat, physmap: bool, first: Page)
    requires Inv(s) && MapInv(s) && CreateStep(s, u, g, a, d, at, n, physmap, first)
    ensures MapInv(u)
  {
    AddedArea(s, u, a, u.areas[a], Flat(u.groups[g]));
  }

  lemma CloneMaps(s: State, u: State, a: AreaId, b: AreaId, d: SpaceId, at: nat)
    requires Inv(s) && MapInv(s) && CloneStep(s, u, a, b, d, at)
    ensures MapInv(u)
  {
    assert Mapped(s, a);
    var x := s.areas[a];
    assert Flat(u.groups[x.group]) == Flat(s.groups[x.group]);
    AddedArea(s, u, b, u.areas[b], Flat(s.groups[x.group])[..x.length]);
  }

  lemma DestroyMaps(s: State, u: State, a: AreaId)
    requires Inv(s) && MapInv(s) && DestroyStep(s, u, a)
    ensures MapInv(u)
  {
    var x := s.areas[a];
    assert GroupOk(s, x.group) && a in Sharers(s, x.group);
    forall b | b in u.areas ensures Mapped(u, b) {
      assert Mapped(s, b) && Apart(s, a, b);
      LoneArea(s, a, b);
      StillMapped(s, u, b);
    }
    forall b, c | b in u.areas && c in u.areas ensures Apart(u, b, c) { assert Apart(s, b, c); }
    forall d, k ensures Covered(u, d, k) {
      assert Covered(s, d, k);
      forall b | Covers(s, b, d, k) && b != a ensures Covers(u, b, d, k) {}
    }
  }

  /** The group of another area outlives the destruction of this one. */
  lemma LoneArea(s: State, a: AreaId, b: AreaId)
    requires Inv(s) && a in s.areas && b in s.areas && a != b && s.areas[a].group in s.groups
    ensures s.areas[b].group == s.areas[a].group ==> s.groups[s.areas[a].group].refcount != 1
  {
    var g := s.areas[a].group;
    assert GroupOk(s, g) && a in Sharers(s, g);
    assert s.areas[b].group == g ==> b in Sharers(s, g) - {a};
    assert |Sharers(s, g) - {a}| == |Sharers(s, g)| - 1;
  }

  /** The caller is in the area's own space, and the area maps its whole group. */
  ghost predicate WholeAndOwn(s: State, d: SpaceId, a: AreaId) {
    && a in s.areas && s.areas[a].group in s.groups
    && d == s.areas[a].space && s.areas[a].length == s.groups[s.areas[a].group].size
  }

  /** Growing an area that maps its whole group, from its own space, keeps every mapping right. */
  lemma ResizeMaps(s: State, u: State, d: SpaceId, a: AreaId, n: nat)
    requires Inv(s) && MapInv(s) && ResizeStep(s, u, d, a, n) && WholeAndOwn(s, d, a)
    ensures MapInv(u)
  {
    hide Inv, Mapped, FreeSpan, MapPages, Covered, SpanMapped, Flat, Shaped, Claimed;
    var x := s.areas[a];
    var g, at := x.group, x.virt + x.length;
    var ps := s.free[..n];
    assert Mapped(s, a);
    GrowthSpan(s, u, d, a, n);
    forall b | b in u.areas ensures Mapped(u, b) {
      if b != a { OthersMapped(s, u, d, at, ps, b); } else { GrownMapped(s, u, d, a, n); }
    }
    forall b, c | b in u.areas && c in u.areas ensures Apart(u, b, c) {
      assert Apart(s, b, c);
      SpanMeetsNone(s, d, at, n, b);
      SpanMeetsNone(s, d, at, n, c);
    }
    forall e, k ensures Covered(u, e, k) { SpanCovered(s, u, d, at, ps, a, e, k); }
  }

  lemma GrowthSpan(s: State, u: State, d: SpaceId, a: AreaId, n: nat)
    requires ResizeStep(s, u, d, a, n) && WholeAndOwn(s, d, a)
    ensures SpanMapped(s, u, d, s.areas[a].virt + s.areas[a].length, s.free[..n])
  {
    hide Shaped, Claimed, MapPages;
  }

  lemma GrownMapped(s: State, u: State, d: SpaceId, a: AreaId, n: nat)
    requires ResizeStep(s, u, d, a, n) && WholeAndOwn(s, d, a) && Mapped(s, a)
    ensures Mapped(u, a)
  {
    var x := s.areas[a];
    var f, h := Flat(s.groups[x.group]), Flat(u.groups[x.group]);
    forall k | 0 <= k < x.length + n ensures u.spaces[x.space][x.virt + k] == Frame(h[k]) {
      assert k < x.length ==> h[k] == f[k];
    }
  }

  /** A successful growth keeps the mappings right exactly when the caller was in the area's own space and the area
      mapped its whole group before. */
  lemma ResizeMapsExactlyWhen(s: State, u: State, d: SpaceId, a: AreaId, n: nat)
    requires Inv(s) && MapInv(s) && ResizeStep(s, u, d, a, n)
    ensures MapInv(u) <==> d == s.areas[a].space && s.areas[a].length == s.groups[s.areas[a].group].size
  {
    assert Mapped(s, a);
    if WholeAndOwn(s, d, a) { ResizeMaps(s, u, d, a, n); } else { HoleLeft(s, u, d, a, n); }
  }

  lemma NotMapped(u: State, a: AreaId, k: nat)
    requires a in u.areas && k < u.areas[a].length && u.areas[a].space in u.spaces && u.areas[a].group in u.groups
    requires u.areas[a].virt + k < |u.spaces[u.areas[a].space]|
      && u.spaces[u.areas[a].space][u.areas[a].virt + k] == Unmapped
    ensures !Mapped(u, a)
  {
    var f := Flat(u.groups[u.areas[a].group]);
    if k < |f| { assert Frame(f[k]) != Unmapped; }
  }

  /** Otherwise nothing is mapped right behind the area in its own space, or another area is. */
  lemma HoleLeft(s: State, u: State, d: SpaceId, a: AreaId, n: nat)
    requires Inv(s) && MapInv(s) && ResizeStep(s, u, d, a, n) && !WholeAndOwn(s, d, a)
    ensures !MapInv(u)
  {
    var x := s.areas[a];
    var k := x.virt + x.length;
    assert Mapped(s, a) && Covered(s, x.space, k) && k < |s.spaces[x.space]|;
    if s.spaces[x.space][k] == Unmapped {
      assert u.spaces[x.space][k] == Unmapped && u.areas[a].length > x.length;
      NotMapped(u, a, x.length);
    } else {
      var b :| Covers(s, b, x.space, k);
      assert b != a && !Apart(u, a, b);
    }
  }

  lemma NewSpaceMaps(s: State, u: State, d: SpaceId)
    requires MapInv(s) && d !in s.spaces && u == s.(spaces := s.spaces[d := seq(TABLE, i => Unmapped)])
    ensures MapInv(u)
  {
    forall b | b in u.areas ensures Mapped(u, b) {
      assert Mapped(s, b);
      StillMapped(s, u, b);
    }
    forall b, c | b in u.areas && c in u.areas ensures Apart(u, b, c) { assert Apart(s, b, c); }
    forall e, k ensures Covered(u, e, k) {
      assert Covered(s, e, k);
      forall b | Covers(s, b, e, k) ensures Covers(u, b, e, k) {}
    }
  }

  /** A call that grows an area, grows one that maps its whole group, from the area's own space. */
  ghost predicate GrowsWhole(s: State, c: Call) {
    c.Resize? ==> WholeAndOwn(s, c.d, c.a)
  }

  lemma StepMaps(s: State, c: Call, u: State)
    requires Inv(s) && MapInv(s) && Step(s, c, u) && GrowsWhole(s, c)
    ensures MapInv(u)
  {
    hide Inv, MapInv;
    match c
    case NewSpace(d) => NewSpaceMaps(s, u, d);
    case Create(g, a, d, at, n, physmap, first) => CreateMaps(s, u, g, a, d, at, n, physmap, first);
    case Clone(a, b, d, at) => CloneMaps(s, u, a, b, d, at);
    case Resize(d, a, n) => ResizeMaps(s, u, d, a, n);
    case Destroy(a) => DestroyMaps(s, u, a);
  }

  ghost predicate AllWhole(ss: seq<State>, cs: seq<Call>)
    requires |ss| == |cs| + 1
  {
    forall i {:trigger cs[i]} :: 0 <= i < |cs| ==> GrowsWhole(ss[i], cs[i])
  }

  lemma WholeStep(ss: seq<State>, cs: seq<Call>, k: nat)
    requires Behaviour(ss, cs) && AllWhole(ss, cs) && k < |cs|
    ensures Step(ss[k], cs[k], ss[k + 1]) && GrowsWhole(ss[k], cs[k])
  {
    hide Step, GrowsWhole;
    assert Step(ss[k], cs[k], ss[k + 1]);
  }

  /** Through any calls that grow only areas that map their whole group, and from their own space, every area maps
      its pages. */
  lemma {:induction false} RunMaps(ss: seq<State>, cs: seq<Call>, k: nat)
    requires Behaviour(ss, cs) && Inv(ss[0]) && MapInv(ss[0]) && k < |ss| && AllWhole(ss, cs)
    ensures MapInv(ss[k])
    decreases k
  {
    hide Step, Inv, MapInv, GrowsWhole, Pages, NoneLost, AllWhole;
    if k > 0 {
      WholeStep(ss, cs, k - 1);
      RunMaps(ss, cs, k - 1);
      RunKeeps(ss, cs, k - 1);
      StepMaps(ss[k - 1], cs[k - 1], ss[k]);
    }
  }

  // ---------------------------------------------------------------- runs that go wrong

  ghost function EmptyState(free: seq<Page>): State { State(map[], map[], map[], free, map[], map[]) }

  lemma CreateOne(s: State, g: GroupId, a: AreaId, d: SpaceId, at: nat, physmap: bool, first: Page) returns (u: State)
    requires g !in s.groups && a !in s.areas && d in s.spaces && FreeSpan(s.spaces[d], at, 1) && s.free != []
    ensures CreateStep(s, u, g, a, d, at, 1, physmap, first)
  {
    var p := if physmap then first else s.free[0];
    var x := Group(1, 1, [[p, 0, 0, 0, 0, 0]], physmap);
    assert Flat(x) == [p] && s.free[..1] == [s.free[0]] && Run(first, 1) == [first];
    u := State(s.groups[g := x], s.areas[a := Area(g, d, at, 1, 1)], s.spaces[d := MapPages(s.spaces[d], at, [p])],
               if physmap then s.free else s.free[1..], if physmap then s.owner else Claimed(s.owner, [p], g),
               s.given[g := if physmap then 1 else 0]);
  }

  lemma CloneTo(s: State, a: AreaId, b: AreaId, d: SpaceId, at: nat) returns (u: State)
    requires a in s.areas && b !in s.areas && d in s.spaces && s.areas[a].group in s.groups
    requires s.areas[a].length <= s.groups[s.areas[a].group].size && FreeSpan(s.spaces[d], at, s.areas[a].length)
    ensures CloneStep(s, u, a, b, d, at)
  {
    var x := s.areas[a];
    var y := s.groups[x.group];
    u := s.(groups := s.groups[x.group := y.(refcount := y.refcount + 1)],
            areas := s.areas[b := Area(x.group, d, at, x.length, x.maxlength)],
            spaces := s.spaces[d := MapPages(s.spaces[d], at, Flat(y)[..x.length])]);
  }

  lemma GrowOne(s: State, d: SpaceId, a: AreaId) returns (u: State)
    requires a in s.areas && s.areas[a].group in s.groups && d in s.spaces && s.free != []
    requires var x := s.areas[a]; var y := s.groups[x.group];
      Shaped(y.chunks, y.size) && FreeSpan(s.spaces[d], x.virt + y.size, 1)
    ensures ResizeStep(s, u, d, a, 1)
  {
    var x, p := s.areas[a], s.free[0];
    var y := s.groups[x.group];
    assert s.free[..1] == [p];
    AddedOne(y.chunks, y.size, Flat(y), p);
    hide Shaped, Holds, MapPages, FreeSpan;
    var room := RoomFor(y.chunks, y.size % SLOTS);
    var z := y.(size := y.size + 1, chunks := SetSlot(room, |room| - 1, y.size % SLOTS, p));
    HoldsFlat(z, Flat(y) + [p]);
    u := State(s.groups[x.group := z], s.areas[a := x.(length := x.length + 1, maxlength := x.maxlength + 1)],
               s.spaces[d := MapPages(s.spaces[d], x.virt + y.size, [p])],
               s.free[1..], Claimed(s.owner, [p], x.group), s.given);
  }

  /** Which addresses of a space are mapped, at most. */
  ghost predicate OnlyAt(s: State, d: SpaceId, used: set<nat>) {
    && d in s.spaces && |s.spaces[d]| == TABLE
    && forall k {:trigger s.spaces[d][k]} :: 0 <= k < TABLE && k !in used ==> s.spaces[d][k] == Unmapped
  }

  /** From an empty manager: an area, its clone, growth of the area, and growth of the clone, whose addresses then
      have a hole. */
  lemma WrongMapping(free: seq<Page>) returns (s1: State, s2: State, s3: State, s4: State, s5: State)
    requires FreeIds.Distinct(free) && |free| >= 3
    ensures Step(EmptyState(free), NewSpace(0), s1) && Step(s1, Create(0, 0, 0, 1, 1, false, 0), s2)
    ensures Step(s2, Clone(0, 1, 0, 10), s3) && Step(s3, Resize(0, 0, 1), s4) && Step(s4, Resize(0, 1, 1), s5)
    ensures Inv(EmptyState(free)) && MapInv(EmptyState(free)) && MapInv(s4) && !MapInv(s5)
  {
    s1 := FirstSpace(free);
    hide Step, Inv, MapInv, OnlyAt, TwoShare;
    s2, s3 := TwoAreas(s1);
    s4, s5 := TwoGrowths(s3);
  }

  lemma FirstSpace(free: seq<Page>) returns (s1: State)
    requires FreeIds.Distinct(free)
    ensures Step(EmptyState(free), NewSpace(0), s1) && Inv(EmptyState(free)) && MapInv(EmptyState(free))
    ensures Inv(s1) && MapInv(s1) && s1.areas == map[] && s1.groups == map[] && OnlyAt(s1, 0, {}) && s1.free == free
    ensures s1.spaces.Keys == {0}
  {
    s1 := SpaceAdded(EmptyState(free), 0);
  }

  lemma SpaceAdded(s: State, d: SpaceId) returns (u: State)
    requires Inv(s) && MapInv(s) && d !in s.spaces
    ensures Step(s, NewSpace(d), u) && Inv(u) && MapInv(u) && u == s.(spaces := u.spaces) && OnlyAt(u, d, {})
    ensures u.spaces.Keys == s.spaces.Keys + {d} && forall e :: e in s.spaces ==> u.spaces[e] == s.spaces[e]
  {
    u := s.(spaces := s.spaces[d := seq(TABLE, i => Unmapped)]);
    NewSpaceMaps(s, u, d);
    NewSpaceKeeps(s, u, d);
  }

  /** Area 0 of one page at 1, and its clone at 10. */
  ghost predicate TwoShare(s: State) {
    && OnlyAt(s, 0, {1, 10}) && 0 in s.groups && s.groups[0].size == 1 && |s.free| >= 2
    && 0 in s.areas && s.areas[0] == Area(0, 0, 1, 1, 1) && 1 in s.areas && s.areas[1] == Area(0, 0, 10, 1, 1)
  }

  lemma TwoAreas(s1: State) returns (s2: State, s3: State)
    requires Inv(s1) && MapInv(s1) && s1.areas == map[] && s1.groups == map[] && OnlyAt(s1, 0, {}) && |s1.free| >= 3
    ensures Step(s1, Create(0, 0, 0, 1, 1, false, 0), s2) && Step(s2, Clone(0, 1, 0, 10), s3)
    ensures Inv(s3) && MapInv(s3) && TwoShare(s3)
  {
    s2 := CreateOne(s1, 0, 0, 0, 1, false, 0);
    CreateKeeps(s1, s2, 0, 0, 0, 1, 1, false, 0);
    CreateMaps(s1, s2, 0, 0, 0, 1, 1, false, 0);
    assert OnlyAt(s2, 0, {1});
    s3 := CloneTo(s2, 0, 1, 0, 10);
    CloneKeeps(s2, s3, 0, 1, 0, 10);
    CloneMaps(s2, s3, 0, 1, 0, 10);
  }

  lemma TwoGrowths(s3: State) returns (s4: State, s5: State)
    requires Inv(s3) && MapInv(s3) && TwoShare(s3)
    ensures Step(s3, Resize(0, 0, 1), s4) && Step(s4, Resize(0, 1, 1), s5) && MapInv(s4) && !MapInv(s5)
  {
    assert GroupOk(s3, 0);
    s4 := GrowOne(s3, 0, 0);
    ResizeKeeps(s3, s4, 0, 0, 1);
    ResizeMaps(s3, s4, 0, 0, 1);
    assert OnlyAt(s4, 0, {1, 2, 10}) && GroupOk(s4, 0);
    s5 := GrowOne(s4, 0, 1);
    HoleLeft(s4, s5, 0, 1, 1);
  }

  /** Area 0 of one page, at 1 in space 0, is all there is. */
  ghost predicate OneArea(s: State) {
    && OnlyAt(s, 0, {1}) && s.groups.Keys == {0} && s.groups[0].size == 1
    && s.areas == map[0 := Area(0, 0, 1, 1, 1)]
  }

  lemma FirstArea(s: State, physmap: bool, first: Page) returns (u: State)
    requires Inv(s) && MapInv(s) && s.areas == map[] && s.groups == map[] && OnlyAt(s, 0, {}) && s.free != []
    ensures Step(s, Create(0, 0, 0, 1, 1, physmap, first), u) && Inv(u) && MapInv(u) && OneArea(u)
    ensures u.groups[0].physmap == physmap && 0 in u.given && u.given[0] == (if physmap then 1 else 0)
    ensures u.spaces.Keys == s.spaces.Keys && (forall e :: e in s.spaces && e != 0 ==> u.spaces[e] == s.spaces[e])
    ensures u.free == (if physmap then s.free else s.free[1..]) && (physmap ==> u.owner == s.owner)
  {
    u := CreateOne(s, 0, 0, 0, 1, physmap, first);
    CreateKeeps(s, u, 0, 0, 0, 1, 1, physmap, first);
    CreateMaps(s, u, 0, 0, 0, 1, 1, physmap, first);
  }

  /** From an empty manager: an area that maps its whole group is grown from another space. The area has a page with
      no mapping then, and the other space a mapping under no area. */
  lemma ForeignGrowth(free: seq<Page>) returns (s1: State, s2: State, s3: State, s4: State)
    requires FreeIds.Distinct(free) && |free| >= 2
    ensures Step(EmptyState(free), NewSpace(0), s1) && Step(s1, NewSpace(1), s2)
    ensures Step(s2, Create(0, 0, 0, 1, 1, false, 0), s3) && Step(s3, Resize(1, 0, 1), s4)
    ensures 0 in s3.areas && 0 in s3.groups && s3.areas[0].group == 0 && s3.areas[0].length == s3.groups[0].size
    ensures MapInv(s3) && !MapInv(s4) && 0 in s4.areas && !Mapped(s4, 0) && !Covered(s4, 1, 2)
  {
    s1 := FirstSpace(free);
    s2 := SpaceAdded(s1, 1);
    s3 := FirstArea(s2, false, 0);
    s4 := GrownFrom(s3);
  }

  lemma GrownFrom(s: State) returns (u: State)
    requires Inv(s) && MapInv(s) && OneArea(s) && OnlyAt(s, 1, {}) && s.free != []
    ensures Step(s, Resize(1, 0, 1), u) && !MapInv(u) && 0 in u.areas && !Mapped(u, 0) && !Covered(u, 1, 2)
  {
    assert GroupOk(s, 0);
    u := GrowOne(s, 1, 0);
    HoleLeft(s, u, 1, 0, 1);
    NotMapped(u, 0, 1);
    assert u.spaces[1][2] != Unmapped;
    forall a ensures !Covers(u, a, 1, 2) {}
  }

  /** From an empty manager: an area of one given page is made, grown by a page and destroyed. No area is left, and
      the page it grew by is neither free nor anybody's. */
  lemma LostPage(free: seq<Page>, first: Page) returns (s1: State, s2: State, s3: State, s4: State)
    requires FreeIds.Distinct(free) && |free| >= 1
    ensures Step(EmptyState(free), NewSpace(0), s1) && Step(s1, Create(0, 0, 0, 1, 1, true, first), s2)
    ensures Step(s2, Resize(0, 0, 1), s3) && Step(s3, Destroy(0), s4)
    ensures s4.areas == map[] && free[0] in Pages(EmptyState(free)) && free[0] !in Pages(s4)
  {
    s1 := FirstSpace(free);
    s2 := FirstArea(s1, true, first);
    s3, s4 := GrownAndGone(s2);
  }

  lemma GrownAndGone(s: State) returns (s3: State, s4: State)
    requires Inv(s) && MapInv(s) && OneArea(s) && s.groups[0].physmap && 0 in s.given && s.given[0] == 1 && s.free != []
    ensures Step(s, Resize(0, 0, 1), s3) && Step(s3, Destroy(0), s4) && s4.areas == map[] && s.free[0] !in Pages(s4)
  {
    hide Inv, MapInv, GroupOk, Shaped, FreeSpan, MapPages, Pages, Claimed, OnlyAt;
    RoomBehind(s);
    s3 := GrowOne(s, 0, 0);
    ResizeKeeps(s, s3, 0, 0, 1);
    assert Flat(s3.groups[0])[1..] == [s.free[0]] && s3.areas == map[0 := Area(0, 0, 1, 2, 2)];
    assert s3.groups[0].physmap && s3.given[0] == 1 && 0 in s3.spaces && s3.groups.Keys == {0};
    hide ResizeStep, OneArea;
    s4 := LastGone(s3);
    assert s.free[0] in [s.free[0]];
  }

  lemma RoomBehind(s: State)
    requires Inv(s) && OneArea(s)
    ensures 0 in s.spaces && FreeSpan(s.spaces[0], 2, 1) && Shaped(s.groups[0].chunks, 1)
  {
    assert GroupOk(s, 0);
  }

  lemma LastGone(s: State) returns (u: State)
    requires Inv(s) && s.groups.Keys == {0} && s.areas == map[0 := Area(0, 0, 1, 2, 2)] && 0 in s.spaces
    requires s.groups[0].physmap && 0 in s.given && s.given[0] == 1
    ensures Step(s, Destroy(0), u) && u.areas == map[] && 1 <= |Flat(s.groups[0])|
    ensures forall p :: p in Flat(s.groups[0])[1..] ==> p !in Pages(u)
  {
    assert GroupOk(s, 0) && Sharers(s, 0) == {0};
    u := State(s.groups - {0}, s.areas - {0}, s.spaces[0 := Cleared(s.spaces[0], 1, 2)], s.free,
               s.owner - Elems(Owned(s, 0)), s.given - {0});
    LastDestroyKeeps(s, u, 0);
  }

  // ---------------------------------------------------------------- the code

  /** What a call returns; or it stops the kernel for want of a page, or writes past the end of the page table. */
  datatype Code = Ok | ErrResource | ErrMemory | Panic | Overrun

  function PagesFor(bytes: nat): nat {
    var n := if bytes % 0x1000 != 0 then bytes / 0x1000 + 1 else bytes / 0x1000;
    if n < 1 then 1 else n
  }

  function StartPage(virt: nat): nat { if virt < 1 || virt > 1023 then 512 else virt }

  /** The pages hold the bytes, with less than a page to spare; there is one page even for no bytes. */
  lemma PagesEnough(bytes: nat)
    ensures var n := PagesFor(bytes); if bytes == 0 then n == 1 else bytes <= n * 0x1000 < bytes + 0x1000
  {
    assert bytes == bytes / 0x1000 * 0x1000 + bytes % 0x1000;
  }

  /** The first free span of n pages at or after the page asked for, or page 512 if that is not in the table. */
  ghost predicate FirstSpan(t: seq<Entry>, virt: nat, n: nat, at: nat) {
    && FreeSpan(t, at, n)
    && (if 0 < virt < TABLE then virt <= at else 512 <= at)
    && (forall k :: (if 0 < virt < TABLE then virt else 512) <= k < at ==> !FreeSpan(t, k, n))
  }

  ghost predicate HasSpan(t: seq<Entry>, virt: nat, n: nat) {
    exists k :: StartPage(virt) <= k && FreeSpan(t, k, n)
  }

  /** Finds the first n unmapped pages in a row at or after a page. If there are none it gives what is unmapped at the
      end of the table, or 0 if nothing is. */
  method LocateSpan(t: seq<Entry>, virt: nat, n: nat) returns (at: nat)
    requires |t| == TABLE
    ensures n == 0 ==> at == 0
    ensures n > 0 && FreeSpan(t, at, n) ==>
      StartPage(virt) <= at && forall k :: StartPage(virt) <= k < at ==> !FreeSpan(t, k, n)
    ensures n > 0 && !FreeSpan(t, at, n) ==> !HasSpan(t, virt, n)
    ensures n > 0 && !FreeSpan(t, at, n) ==>
      if t[TABLE - 1] != Unmapped then at == 0
      else && StartPage(virt) <= at < TABLE < at + n && FreeSpan(t, at, TABLE - at)
           && (at > StartPage(virt) ==> t[at - 1] != Unmapped)
  {
    var start, found := StartPage(virt), 0;
    at := 0;
    while found < n && start < TABLE
      invariant StartPage(virt) <= start <= TABLE && found <= n
      invariant if found == 0 then at == 0 else StartPage(virt) <= at && at + found == start && FreeSpan(t, at, found)
      invariant var last := if found == 0 then start else at; last > StartPage(virt) ==> t[last - 1] != Unmapped
      invariant forall k :: StartPage(virt) <= k < (if found == 0 then start else at) ==> !FreeSpan(t, k, n)
      decreases TABLE - start
    {
      if t[start] != Unmapped {
        forall k | StartPage(virt) <= k <= start ensures !FreeSpan(t, k, n) {}
        found := 0;
        at := 0;
      } else {
        if found == 0 { at := start; }
        found := found + 1;
      }
      start := start + 1;
    }
  }

  lemma MapOneMore(t: seq<Entry>, at: nat, ps: seq<Page>, p: Page)
    requires at + |ps| < |t|
    ensures MapPages(t, at, ps + [p]) == MapPages(t, at, ps)[at + |ps| := Frame(p)]
  {
  }

  ghost predicate Holds(chunks: seq<seq<Page>>, ps: seq<Page>) {
    forall i {:trigger ps[i]} :: 0 <= i < |ps| ==> Slot(chunks, i) == ps[i]
  }

  lemma HoldsOneMore(chunks: seq<seq<Page>>, ps: seq<Page>, p: Page)
    requires Holds(chunks, ps) && |ps| / SLOTS < |chunks| && |chunks[|ps| / SLOTS]| == SLOTS
    ensures Holds(SetSlot(chunks, |ps| / SLOTS, |ps| % SLOTS, p), ps + [p])
  {
    var u, r := SetSlot(chunks, |ps| / SLOTS, |ps| % SLOTS, p), ps + [p];
    forall i | 0 <= i < |r| ensures Slot(u, i) == r[i] { SlotSet(chunks, |ps|, p, i); }
  }

  /** The pages of a group beyond its first k chunks. */
  function Left(size: nat, k: nat): nat { if k * SLOTS < size then size - k * SLOTS else 0 }

  lemma ChunkPages(y: Group, k: nat)
    requires Shaped(y.chunks, y.size) && k < |y.chunks|
    ensures |y.chunks[k]| == SLOTS && |Flat(y)| == y.size
    ensures Left(y.size, k + 1) == (if Left(y.size, k) > SLOTS then Left(y.size, k) - SLOTS else 0)
    ensures forall j :: 0 <= j < SLOTS && j < Left(y.size, k) ==>
      y.chunks[k][j] == Flat(y)[y.size - Left(y.size, k) + j]
  {
    forall j | 0 <= j < SLOTS && j < Left(y.size, k)
      ensures y.chunks[k][j] == Flat(y)[y.size - Left(y.size, k) + j]
    {
      SlotAt(y.chunks, k, j);
    }
  }

  lemma NoneLeft(y: Group)
    requires Shaped(y.chunks, y.size)
    ensures Left(y.size, |y.chunks|) == 0
  {
  }

  /** When the last chunk is full, an empty one goes behind it. */
  lemma OneMoreChunk(chunks: seq<seq<Page>>, size: nat, ps: seq<Page>)
    requires Shaped(chunks, size) && Holds(chunks, ps) && |ps| == size && size % SLOTS == 0
    ensures var u := chunks + [[0, 0, 0, 0, 0, 0]]; Shaped(u, size + 1) && Holds(u, ps) && |u| == size / SLOTS + 1
  {
    var u := chunks + [[0, 0, 0, 0, 0, 0]];
    forall i | 0 <= i < |ps| ensures Slot(u, i) == ps[i] { assert Slot(chunks, i) == ps[i]; }
  }

  function RoomFor(chunks: seq<seq<Page>>, j: nat): seq<seq<Page>> {
    if j == 0 then chunks + [[0, 0, 0, 0, 0, 0]] else chunks
  }

  lemma AddedOne(chunks: seq<seq<Page>>, size: nat, ps: seq<Page>, p: Page)
    requires Shaped(chunks, size) && Holds(chunks, ps) && |ps| == size
    ensures var u := RoomFor(chunks, size % SLOTS);
      && |u| == size / SLOTS + 1 && size % SLOTS < |u[|u| - 1]|
      && Shaped(SetSlot(u, |u| - 1, size % SLOTS, p), size + 1) && Holds(SetSlot(u, |u| - 1, size % SLOTS, p), ps + [p])
  {
    if size % SLOTS == 0 { OneMoreChunk(chunks, size, ps); }
    HoldsOneMore(RoomFor(chunks, size % SLOTS), ps, p);
  }

  lemma PutOne(chunks: seq<seq<Page>>, n: nat, ps: seq<Page>, p: Page)
    requires Shaped(chunks, n) && Holds(chunks, ps) && |ps| < n
    ensures var k, j := |ps| / SLOTS, |ps| % SLOTS;
      && k < |chunks| && j < |chunks[k]| && Shaped(SetSlot(chunks, k, j, p), n)
         && Holds(SetSlot(chunks, k, j, p), ps + [p])
  {
    HoldsOneMore(chunks, ps, p);
  }

  lemma HoldsBeyond(chunks: seq<seq<Page>>, ps: seq<Page>, k: nat, j: nat, p: Page)
    requires Holds(chunks, ps) && |ps| <= k * SLOTS + j && j < SLOTS && k < |chunks| && |chunks[k]| == SLOTS
    ensures Holds(SetSlot(chunks, k, j, p), ps)
  {
    var u, m := SetSlot(chunks, k, j, p), k * SLOTS + j;
    assert m / SLOTS == k && m % SLOTS == j;
    forall i | 0 <= i < |ps| ensures Slot(u, i) == ps[i] { SlotSet(chunks, m, p, i); }
  }

  lemma HoldsFlat(g: Group, ps: seq<Page>)
    requires Holds(g.chunks, ps) && g.size == |ps|
    ensures Flat(g) == ps
  {
  }

  /** Zeroes the slots of the last chunk that stay empty, if there are any. */
  method ZeroRest(chunks0: seq<seq<Page>>, n: nat, pp: nat, ppo0: nat, ghost ps: seq<Page>)
    returns (chunks: seq<seq<Page>>)
    requires Shaped(chunks0, n) && Holds(chunks0, ps) && |ps| == n && pp == n / SLOTS && ppo0 == n % SLOTS
    ensures Shaped(chunks, n) && Holds(chunks, ps)
    ensures forall j :: ppo0 <= j < SLOTS && pp < |chunks| ==> chunks[pp][j] == 0
  {
    var ppo := ppo0;
    chunks := chunks0;
    while ppo < SLOTS && pp < |chunks|
      invariant ppo0 <= ppo <= SLOTS && Shaped(chunks, n) && Holds(chunks, ps)
      invariant pp < |chunks| ==> forall j :: ppo0 <= j < ppo ==> chunks[pp][j] == 0
      decreases SLOTS - ppo
    {
      HoldsBeyond(chunks, ps, pp, ppo, 0);
      chunks := SetSlot(chunks, pp, ppo, 0);
      ppo := ppo + 1;
    }
  }

  ghost predicate InRange(owner: map<Page, GroupId>, n: nat) {
    forall p {:trigger p in owner} :: p in owner ==> 0 < p < n
  }

  lemma ClaimedInRange(owner: map<Page, GroupId>, ps: seq<Page>, g: GroupId, next: seq<Page>, head: Page,
                       free: seq<Page>)
    requires InRange(owner, |next|) && FreeIds.Threaded(next, head, free) && ps <= free
    ensures InRange(Claimed(owner, ps, g), |next|)
  {
    FreeIds.InRange(next, head, free);
    forall i | 0 <= i < |ps| ensures ps[i] in free { assert ps[i] == free[i]; }
  }

  lemma OwnedPages(s: State, g: GroupId, n: nat)
    requires Inv(s) && g in s.groups && !s.groups[g].physmap && InRange(s.owner, n)
    ensures FreeIds.Distinct(Flat(s.groups[g]))
    ensures forall p {:trigger p in Flat(s.groups[g])} :: p in Flat(s.groups[g]) ==> p !in s.free && 0 < p < n
  {
    assert GroupOk(s, g) && Owned(s, g) == Flat(s.groups[g]);
    forall p | p in Flat(s.groups[g]) ensures p in s.owner {}
  }

  lemma ReversedOneMore(q: seq<Page>, n: nat)
    requires n < |q|
    ensures Reversed(q[..n + 1]) == [q[n]] + Reversed(q[..n])
    decreases n
  {
    var r := q[..n + 1];
    if n > 0 {
      ReversedOneMore(q[1..], n - 1);
      assert r[1..] == q[1..][..n] && q[..n][1..] == q[1..][..n - 1];
    }
  }

  lemma ReversedMembers(q: seq<Page>, p: Page)
    ensures p in Reversed(q) <==> p in q
  {
    if q != [] {
      ReversedMembers(q[1..], p);
      assert q == [q[0]] + q[1..];
    }
  }

  /** The next page of a group to give back is not on the free list yet. */
  lemma PutNext(all: seq<Page>, free: seq<Page>, m: nat)
    requires FreeIds.Distinct(all) && m < |all| && forall p {:trigger p in all} :: p in all ==> p !in free
    ensures all[m] !in Reversed(all[..m]) + free
    ensures Reversed(all[..m + 1]) + free == [all[m]] + (Reversed(all[..m]) + free)
  {
    ReversedMembers(all[..m], all[m]);
    ReversedOneMore(all, m);
    assert all[m] in all;
  }

  lemma GroupThere(s: State, a: AreaId)
    requires Inv(s) && a in s.areas
    ensures s.areas[a].group in s.groups && s.areas[a].space in s.spaces
  {
    assert AreaOk(s, a);
  }

  /** These are the pages to fill slots with, one after the other: given ones, or those of the free list, as far as
      it goes. */
  ghost predicate Supplies(all: seq<Page>, physmap: bool, first: Page, free: seq<Page>) {
    forall i {:trigger all[i]} :: 0 <= i < |all| && (physmap || i < |free|) ==>
      all[i] == if physmap then first + i else free[i]
  }

  lemma SupplyAt(all: seq<Page>, physmap: bool, first: Page, free: seq<Page>, i: nat)
    requires Supplies(all, physmap, first, free) && i < |all| && (physmap || i < |free|)
    ensures all[i] == if physmap then first + i else free[i]
  {
  }

  lemma NothingFilled(chunks: seq<seq<Page>>, t: seq<Entry>, at: nat, all: seq<Page>)
    ensures Holds(chunks, all[..0]) && MapPages(t, at, all[..0]) == t
  {
  }

  lemma SlotOf(i: nat, k: nat, j: nat)
    requires i == k * SLOTS + j && j < SLOTS
    ensures i / SLOTS == k && i % SLOTS == j
  {
  }

  /** The memory manager's tables, and the free physical pages. */
  class Manager {
    const pages: FreeIds.FreeList
    var groups: map<GroupId, Group>
    var areas: map<AreaId, Area>
    var spaces: map<SpaceId, seq<Entry>>
    ghost var owner: map<Page, GroupId>
    ghost var given: map<GroupId, nat>

    ghost function View(): State
      reads this, pages
    {
      State(groups, areas, spaces, pages.free, owner, given)
    }

    ghost predicate Valid()
      reads this, pages, pages.next
    {
      pages.Valid() && Inv(View()) && InRange(owner, pages.next.Length)
    }

    constructor (n: nat)
      requires n >= 2
      ensures Valid() && View() == EmptyState(pages.free) && fresh(pages) && fresh(pages.next)
    {
      pages := new FreeIds.FreeList(n);
      groups, areas, spaces, owner, given := map[], map[], map[], map[], map[];
    }

    /** Fills slot after slot and maps page after page, with given pages or pages off the free list, if there are
        enough. */
    method FillSlots(chunks0: seq<seq<Page>>, n: nat, physmap: bool, first: Page, t0: seq<Entry>, at: nat,
                     ghost all: seq<Page>)
      returns (ok: bool, chunks: seq<seq<Page>>, t: seq<Entry>)
      requires pages.Valid() && Shaped(chunks0, n) && at + n <= |t0| && |all| == n
      requires Supplies(all, physmap, first, pages.free)
      modifies pages
      ensures pages.Valid() && ok == (physmap || n <= |old(pages.free)|)
      ensures ok ==> pages.free == if physmap then old(pages.free) else old(pages.free)[n..]
      ensures ok ==> Shaped(chunks, n) && Holds(chunks, all) && t == MapPages(t0, at, all)
    {
      hide Shaped, Holds, MapPages, Supplies, FreeIds.Threaded;
      ghost var free := pages.free;
      ok, chunks, t := true, chunks0, t0;
      var pp, ppo, i := 0, 0, 0;
      NothingFilled(chunks0, t0, at, all);
      while i < n
        invariant 0 <= i <= n && i == pp * SLOTS + ppo && ppo < SLOTS && pages.Valid() && Shaped(chunks, n)
        invariant Holds(chunks, all[..i]) && t == MapPages(t0, at, all[..i]) && |t| == |t0|
        invariant (physmap || i <= |free|) && pages.free == if physmap then free else free[i..]
      {
        ok, chunks, t := FillPage(chunks, n, pp, ppo, physmap, first + i, t, at + i, all[..i]);
        if !ok { return; }
        SupplyAt(all, physmap, first, free, i);
        assert all[..i + 1] == all[..i] + [all[i]];
        MapOneMore(t0, at, all[..i], all[i]);
        ppo := ppo + 1;
        if ppo == SLOTS {
          ppo := 0;
          pp := pp + 1;
        }
        i := i + 1;
      }
      assert all[..n] == all;
      SlotOf(n, pp, ppo);
      chunks := ZeroRest(chunks, n, pp, ppo, all);
    }

    /** One page, off the free list or given, in one slot and at one address. */
    method FillPage(chunks0: seq<seq<Page>>, n: nat, pp: nat, ppo: nat, physmap: bool, given: Page,
                    t0: seq<Entry>, at: nat, ghost ps: seq<Page>)
      returns (ok: bool, chunks: seq<seq<Page>>, t: seq<Entry>)
      requires pages.Valid() && Shaped(chunks0, n) && Holds(chunks0, ps) && |ps| < n && at < |t0|
      requires |ps| == pp * SLOTS + ppo && ppo < SLOTS
      modifies pages
      ensures pages.Valid() && ok == (physmap || old(pages.free) != [])
      ensures ok ==> pages.free == if physmap then old(pages.free) else old(pages.free)[1..]
      ensures ok ==> var p := if physmap then given else old(pages.free)[0];
        Shaped(chunks, n) && Holds(chunks, ps + [p]) && t == t0[at := Frame(p)]
    {
      var page := given;
      ok, chunks, t := true, chunks0, t0;
      if !physmap {
        page := pages.Take();
        if page == 0 { return false, chunks, t; }
      }
      SlotOf(|ps|, pp, ppo);
      PutOne(chunks0, n, ps, page);
      hide Shaped, Holds;
      t := t0[at := Frame(page)];
      chunks := SetSlot(chunks0, pp, ppo, page);
    }

    /** Makes the chunks of a new group, one at a time. */
    method NewChunks(n: nat) returns (chunks: seq<seq<Page>>)
      ensures Shaped(chunks, n)
    {
      var i := 0;
      chunks := [];
      while i < n
        invariant i == |chunks| * SLOTS && i < n + SLOTS
        invariant forall k {:trigger chunks[k]} :: 0 <= k < |chunks| ==> |chunks[k]| == SLOTS
      {
        chunks := [[0, 0, 0, 0, 0, 0]] + chunks;
        i := i + SLOTS;
      }
    }

    /** A new area of fresh pages, or of given ones, at the first free span. The source does not see that the span it
        found is too short. */
    method AreaCreate(d: SpaceId, bytes: nat, virt: nat, physmap: bool, first: Page, g: GroupId, a: AreaId)
      returns (code: Code)
      requires Valid() && d in spaces && g !in groups && a !in areas
      modifies this, pages
      ensures code != Panic ==> Valid()
      ensures var t, n := old(spaces)[d], PagesFor(bytes);
        code == if !HasSpan(t, virt / 0x1000, n) then (if t[TABLE - 1] == Unmapped then Overrun else ErrMemory)
                else if !physmap && n > |old(pages.free)| then Panic
                else Ok
      ensures code == Ok ==>
        a in areas && CreateStep(old(View()), View(), g, a, d, areas[a].virt, PagesFor(bytes), physmap, first)
      ensures code == Ok ==>
        var n := areas[a].length;
        && (if bytes == 0 then n == 1 else bytes <= n * 0x1000 < bytes + 0x1000)
        && FirstSpan(old(spaces)[d], virt / 0x1000, n, areas[a].virt)
      ensures code == ErrMemory || code == Overrun ==> View() == old(View())
    {
      var n := PagesFor(bytes);
      PagesEnough(bytes);
      ghost var s := View();
      assert |spaces[d]| == TABLE;
      var at := LocateSpan(spaces[d], virt / 0x1000, n);
      if at == 0 { return ErrMemory; }
      if at + n > TABLE { return Overrun; }
      code := Fill(d, at, n, physmap, first, g, a);
    }

    method Fill(d: SpaceId, at: nat, n: nat, physmap: bool, first: Page, g: GroupId, a: AreaId) returns (code: Code)
      requires Valid() && d in spaces && g !in groups && a !in areas && n > 0 && FreeSpan(spaces[d], at, n)
      modifies this, pages
      ensures code == if physmap || n <= |old(pages.free)| then Ok else Panic
      ensures code == Ok ==> Valid() && CreateStep(old(View()), View(), g, a, d, at, n, physmap, first)
      ensures code == Ok ==> a in areas && areas[a].virt == at && areas[a].length == n
    {
      hide Inv, Shaped, Holds, MapPages, FreeIds.Threaded;
      ghost var s := View();
      if !physmap && n <= |pages.free| {
        ClaimedInRange(owner, pages.free[..n], g, pages.next[..], pages.head, pages.free);
      }
      var chunks := NewChunks(n);
      var ok, t;
      ghost var ps := if physmap then Run(first, n) else seq(n, i => if 0 <= i < |s.free| then s.free[i] else 0);
      ok, chunks, t := FillSlots(chunks, n, physmap, first, spaces[d], at, ps);
      if !ok { return Panic; }
      assert !physmap ==> ps == s.free[..n];
      var x := Group(1, n, chunks, physmap);
      HoldsFlat(x, ps);
      hide InRange, Claimed, Flat, Supplies;
      Enter(g, x, a, Area(g, d, at, n, n), d, t, if physmap then owner else Claimed(owner, ps, g));
      given := given[g := if physmap then n else 0];
      CreateKeeps(s, View(), g, a, d, at, n, physmap, first);
      return Ok;
    }

    method Enter(g: GroupId, x: Group, a: AreaId, y: Area, d: SpaceId, t: seq<Entry>, ghost claimed: map<Page, GroupId>)
      modifies this`groups, this`areas, this`spaces, this`owner
      ensures groups == old(groups)[g := x] && areas == old(areas)[a := y] && spaces == old(spaces)[d := t]
        && owner == claimed
    {
      groups := groups[g := x];
      areas := areas[a := y];
      spaces := spaces[d := t];
      owner := claimed;
    }

    /** A second area for the pages of the first. */
    method AreaClone(d: SpaceId, a: AreaId, virt: nat, b: AreaId) returns (code: Code)
      requires Valid() && d in spaces && b !in areas
      modifies this
      ensures Valid()
      ensures code == if a !in old(areas) then ErrResource
                      else var t := old(spaces)[d];
                        if HasSpan(t, virt / 0x1000, old(areas)[a].length) then Ok
                        else if t[TABLE - 1] == Unmapped then Overrun
                        else ErrMemory
      ensures code == Ok ==> b in areas && CloneStep(old(View()), View(), a, b, d, areas[b].virt)
      ensures code == Ok ==> FirstSpan(old(spaces)[d], virt / 0x1000, old(areas)[a].length, areas[b].virt)
      ensures code != Ok ==> View() == old(View())
    {
      if a !in areas { return ErrResource; }
      ghost var s := View();
      assert AreaOk(s, a) && |spaces[d]| == TABLE;
      var x := areas[a];
      var y := groups[x.group];
      assert GroupOk(s, x.group);
      var at := LocateSpan(spaces[d], virt / 0x1000, x.length);
      if at == 0 { return ErrMemory; }
      if at + x.length > TABLE { return Overrun; }
      var t := MapChunks(y, x.length, spaces[d], at);
      groups := groups[x.group := y.(refcount := y.refcount + 1)];
      areas := areas[b := Area(x.group, d, at, x.length, x.maxlength)];
      spaces := spaces[d := t];
      CloneKeeps(s, View(), a, b, d, at);
      return Ok;
    }

    /** Gives back the pages of one chunk, or what is left of the group. */
    method ReleaseChunk(chunk: seq<Page>, size0: nat, ghost all: seq<Page>, ghost free: seq<Page>) returns (size: nat)
      requires pages.Valid() && FreeIds.Distinct(all) && size0 <= |all| && |chunk| == SLOTS
      requires forall p {:trigger p in all} :: p in all ==> p !in free && 0 < p < pages.next.Length
      requires forall j :: 0 <= j < SLOTS && j < size0 ==> chunk[j] == all[|all| - size0 + j]
      requires pages.free == Reversed(all[..|all| - size0]) + free
      modifies pages, pages.next
      ensures pages.Valid() && size == (if size0 > SLOTS then size0 - SLOTS else 0)
      ensures pages.free == Reversed(all[..|all| - size]) + free
    {
      var count := 0;
      size := size0;
      while size > 0 && count < SLOTS
        invariant 0 <= count <= SLOTS && size <= size0 && size == (if count < size0 then size0 - count else 0)
        invariant pages.Valid() && pages.free == Reversed(all[..|all| - size]) + free
        decreases SLOTS - count
      {
        PutNext(all, free, |all| - size);
        assert chunk[count] == all[|all| - size] && all[|all| - size] in all;
        pages.Put(chunk[count]);
        size := size - 1;
        count := count + 1;
      }
    }

    /** Gives the pages of a group back, chunk by chunk, and counts its size down. */
    method ReleasePages(y: Group)
      requires pages.Valid() && Shaped(y.chunks, y.size) && FreeIds.Distinct(Flat(y))
      requires forall p {:trigger p in Flat(y)} :: p in Flat(y) ==> p !in pages.free && 0 < p < pages.next.Length
      modifies pages, pages.next
      ensures pages.Valid() && pages.free == Reversed(Flat(y)) + old(pages.free)
    {
      ghost var all, free := Flat(y), pages.free;
      assert |all| == y.size && Reversed(all[..0]) == [];
      hide Shaped, Flat, Reversed, FreeIds.Distinct;
      var k, size := 0, y.size;
      while k < |y.chunks|
        invariant 0 <= k <= |y.chunks| && size == Left(y.size, k)
        invariant pages.Valid() && pages.free == Reversed(all[..y.size - size]) + free
      {
        ChunkPages(y, k);
        size := ReleaseChunk(y.chunks[k], size, all, free);
        k := k + 1;
      }
      NoneLeft(y);
      assert all[..y.size] == all;
    }

    /** The area goes; the last area of a group takes it along. */
    method AreaDestroy(d: SpaceId, a: AreaId) returns (code: Code)
      requires Valid()
      modifies this, pages, pages.next
      ensures Valid() && code == (if a in old(areas) && old(areas)[a].space == d then Ok else ErrResource)
      ensures code == Ok ==> DestroyStep(old(View()), View(), a)
      ensures code != Ok ==> View() == old(View())
    {
      hide Inv, Shaped, Reversed, Flat, Owned, FreeIds.Threaded, Cleared;
      if a !in areas { return ErrResource; }
      if areas[a].space != d { return ErrResource; }
      ghost var s := View();
      GroupThere(s, a);
      var x := areas[a];
      var y := groups[x.group];
      var t := Unmap(spaces[d], x.virt, x.length);
      if y.refcount - 1 == 0 {
        DropGroup(x.group, s);
      } else {
        groups := groups[x.group := y.(refcount := y.refcount - 1)];
      }
      areas := areas - {a};
      spaces := spaces[d := t];
      DestroyKeeps(s, View(), a);
      return Ok;
    }

    /** A group goes; its pages go back to the free list, if it was not given any. */
    method DropGroup(g: GroupId, ghost s: State)
      requires Valid() && s == View() && g in groups
      modifies this`groups, this`owner, this`given, pages, pages.next
      ensures pages.Valid() && g in s.given && s.given[g] <= s.groups[g].size
      ensures groups == s.groups - {g} && given == s.given - {g} && owner == s.owner - Elems(Owned(s, g))
      ensures pages.free == if s.groups[g].physmap then s.free else Reversed(Flat(s.groups[g])) + s.free
    {
      assert GroupOk(s, g);
      hide Inv, Reversed, Flat, FreeIds.Threaded, FreeIds.Distinct, OwnsAll, Sharers;
      if !groups[g].physmap {
        OwnedPages(s, g, pages.next.Length);
        ReleasePages(groups[g]);
      }
      owner, given := owner - Elems(Owned(s, g)), given - {g};
      groups := groups - {g};
    }

    method Unmap(t0: seq<Entry>, at: nat, n: nat) returns (t: seq<Entry>)
      ensures t == Cleared(t0, at, n)
    {
      t := t0;
      var i := 0;
      while i < n
        invariant 0 <= i <= n && t == Cleared(t0, at, i)
      {
        if at + i < |t| { t := t[at + i := Unmapped]; }
        i := i + 1;
      }
    }

    /** One more page, in the next slot and at the next address, if there is one. */
    method AddPage(chunks0: seq<seq<Page>>, size: nat, t0: seq<Entry>, at: nat, ghost ps: seq<Page>)
      returns (ok: bool, chunks: seq<seq<Page>>, t: seq<Entry>)
      requires pages.Valid() && Shaped(chunks0, size) && Holds(chunks0, ps) && |ps| == size && at < |t0|
      modifies pages
      ensures pages.Valid() && ok == (old(pages.free) != [])
      ensures ok ==> pages.free == old(pages.free)[1..] && t == t0[at := Frame(old(pages.free)[0])]
      ensures ok ==> Shaped(chunks, size + 1) && Holds(chunks, ps + [old(pages.free)[0]])
    {
      hide Shaped, Holds;
      var ppo := size % SLOTS;
      chunks, t := RoomFor(chunks0, ppo), t0;
      var p := pages.Take();
      if p == 0 { return false, chunks, t; }
      AddedOne(chunks0, size, ps, p);
      t := t0[at := Frame(p)];
      chunks := SetSlot(chunks, |chunks| - 1, ppo, p);
      ok := true;
    }

    /** Adds n pages after those a group has, with a new chunk whenever the last one is full, if there are enough. */
    method AddPages(chunks0: seq<seq<Page>>, size: nat, n: nat, t0: seq<Entry>, at: nat, ghost had: seq<Page>)
      returns (ok: bool, chunks: seq<seq<Page>>, t: seq<Entry>)
      requires pages.Valid() && Shaped(chunks0, size) && 0 < size == |had| && Holds(chunks0, had) && at + n <= |t0|
      modifies pages
      ensures pages.Valid() && ok == (n <= |old(pages.free)|)
      ensures ok ==> pages.free == old(pages.free)[n..] && Shaped(chunks, size + n)
      ensures ok ==> Holds(chunks, had + old(pages.free)[..n]) && t == MapPages(t0, at, old(pages.free)[..n])
    {
      ghost var free := pages.free;
      ok, chunks, t := true, chunks0, t0;
      var i := 0;
      assert had + free[..0] == had && t == MapPages(t0, at, free[..0]);
      while i < n
        invariant 0 <= i <= n && i <= |free| && pages.Valid() && pages.free == free[i..] && |t| == |t0|
        invariant Shaped(chunks, size + i) && Holds(chunks, had + free[..i]) && t == MapPages(t0, at, free[..i]) && ok
      {
        hide Shaped, Holds, MapPages;
        ok, chunks, t := AddPage(chunks, size + i, t, at + i, had + free[..i]);
        if !ok { return; }
        assert free[..i + 1] == free[..i] + [free[i]] && had + free[..i + 1] == had + free[..i] + [free[i]];
        MapOneMore(t0, at, free[..i], free[i]);
        i := i + 1;
      }
    }

    /** What a growth to so many bytes comes to, called from space d. */
    ghost function ResizeCode(d: SpaceId, a: AreaId, bytes: nat): Code
      requires Valid() && d in spaces
      reads this, pages, pages.next
    {
      if a !in areas then ErrResource
      else
        assert AreaOk(View(), a);
        var y, t := groups[areas[a].group], spaces[d];
        var n, at := bytes / 0x1000 - y.size, areas[a].virt + y.size;
        if bytes <= y.size * 0x1000 then Ok
        else if n <= 0 || at >= TABLE then ErrMemory
        else if FreeSpan(t, at, n) then (if n <= |pages.free| then Ok else Panic)
        else if !HasSpan(t, at, n) && FreeSpan(t, at, TABLE - at) then Overrun
        else ErrMemory
    }

    /** Grows an area, and the group it shares, to so many bytes; it never shrinks one. The pages are mapped in the
        space of the caller. */
    method AreaResize(d: SpaceId, a: AreaId, bytes: nat) returns (code: Code)
      requires Valid() && d in spaces
      modifies this, pages
      ensures code == old(ResizeCode(d, a, bytes)) && (code != Panic ==> Valid())
      ensures code == Ok ==> a in old(areas) && old(areas)[a].group in old(groups)
      ensures code == Ok ==>
        var y := old(groups)[old(areas)[a].group];
        if bytes <= y.size * 0x1000 then View() == old(View())
        else bytes / 0x1000 > y.size && ResizeStep(old(View()), View(), d, a, bytes / 0x1000 - y.size)
      ensures code != Ok && code != Panic ==> View() == old(View())
    {
      assert |spaces[d]| == TABLE;
      if a !in areas { return ErrResource; }
      ghost var s := View();
      assert AreaOk(s, a) && GroupOk(s, areas[a].group);
      var x := areas[a];
      var y := groups[x.group];
      if bytes <= y.size * 0x1000 { return Ok; }
      var n := bytes / 0x1000 - y.size;
      var at := LocateSpan(spaces[d], x.virt + y.size, n);
      if at != x.virt + y.size { return ErrMemory; }
      if at + n > TABLE { return Overrun; }
      if n <= |pages.free| {
        ClaimedInRange(owner, pages.free[..n], x.group, pages.next[..], pages.head, pages.free);
      }
      code := Grow(d, a, n, at);
    }

    method Grow(d: SpaceId, a: AreaId, n: nat, at: nat) returns (code: Code)
      requires Valid() && d in spaces && a in areas && areas[a].group in groups && n > 0
      requires at == areas[a].virt + groups[areas[a].group].size && FreeSpan(spaces[d], at, n)
      requires n <= |pages.free| ==> InRange(Claimed(owner, pages.free[..n], areas[a].group), pages.next.Length)
      modifies this, pages
      ensures code == if n <= |old(pages.free)| then Ok else Panic
      ensures code == Ok ==> Valid() && ResizeStep(old(View()), View(), d, a, n)
    {
      ghost var s := View();
      var x := areas[a];
      var y := groups[x.group];
      assert GroupOk(s, x.group);
      hide FreeIds.Threaded, Shaped, MapPages, InRange;
      ghost var had := Flat(y);
      var ok, chunks, t := AddPages(y.chunks, y.size, n, spaces[d], at, had);
      if !ok { return Panic; }
      var z := y.(chunks := chunks, size := y.size + n);
      HoldsFlat(z, had + s.free[..n]);
      Enter(x.group, z, a, x.(length := x.length + n, maxlength := x.maxlength + n), d, t,
            Claimed(owner, s.free[..n], x.group));
      ResizeKeeps(s, View(), d, a, n);
      return Ok;
    }

    /** Maps the first n pages of a group, chunk by chunk. */
    method MapChunks(y: Group, n: nat, t0: seq<Entry>, at: nat) returns (t: seq<Entry>)
      requires Shaped(y.chunks, y.size) && n <= y.size && at + n <= |t0|
      ensures t == MapPages(t0, at, Flat(y)[..n])
    {
      ghost var all := Flat(y)[..n];
      var pp, ppo, i := 0, 0, 0;
      t := t0;
      while i < n
        invariant 0 <= i <= n && pp == i / SLOTS && ppo == i % SLOTS && t == MapPages(t0, at, all[..i])
      {
        var p := y.chunks[pp][ppo];
        assert p == all[i] && all[..i + 1] == all[..i] + [p];
        MapOneMore(t0, at, all[..i], p);
        t := t[at + i := Frame(p)];
        ppo := ppo + 1;
        if ppo == SLOTS {
          ppo := 0;
          pp := pp + 1;
        }
        i := i + 1;
      }
      assert all[..n] == all;
    }
  }
}
