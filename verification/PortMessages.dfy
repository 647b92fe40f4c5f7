/** The messages queued on ports, as the kernel stores them: chains of nodes, each with a buffer for its
    data, and a pool that threads the large buffers not in use through their own first word. */
module PortMessages {

  type Ptr = nat
  type PortId = nat
  type Byte = x: int | 0 <= x < 256

  datatype Node = Node(next: Ptr, size: nat, code: int, from: int, to: int, data: Ptr)

  /** What a buffer holds: bytes of a message, or the link of the pool. */
  datatype Cell = Bytes(b: seq<Byte>) | Link(next: Ptr)

  /** The part of a port that queues messages. */
  datatype Ends = Ends(first: Ptr, last: Ptr, msgcount: int)

  datatype Message = Message(from: int, to: int, code: int, data: seq<Byte>)

  const NULL: Ptr := 0
  const SMALL := 256
  const PAGE := 4096
  const MAX_MSGCOUNT := 16

  /** The tables of the kernel, and beside them what they stand for: the nodes of each port in order, the
      buffers of the pool in order, the node each buffer in use belongs to, the port of each node, and how
      many bytes the allocator gave for each buffer. */
  datatype Memory = Memory(nodes: map<Ptr, Node>, store: map<Ptr, Cell>, pool: Ptr, ports: map<PortId, Ends>,
                           chains: map<PortId, seq<Ptr>>, pooled: seq<Ptr>, user: map<Ptr, Ptr>, home: map<Ptr, PortId>,
                           room: map<Ptr, nat>)

  /** What the allocator is asked for: a small message gets its size, any other a page. */
  function RoomFor(size: nat): nat { if size < SMALL then size else PAGE }

  // ---------------------------------------------------------------- the invariant

  ghost predicate Distinct(q: seq<Ptr>) {
    forall i, j :: 0 <= i < j < |q| ==> q[i] != q[j]
  }

  ghost function NextOf(q: seq<Ptr>, i: int): Ptr {
    if 0 <= i < |q| - 1 then q[i + 1] else NULL
  }

  ghost predicate NodeAt(s: Memory, p: PortId, q: seq<Ptr>, i: int)
    requires 0 <= i < |q|
  {
    && q[i] != NULL && q[i] in s.nodes && s.nodes[q[i]].next == NextOf(q, i)
    && q[i] in s.home && s.home[q[i]] == p
  }

  ghost predicate ChainOk(s: Memory, p: PortId) {
    && p in s.ports && p in s.chains && Distinct(s.chains[p])
    && var q, e := s.chains[p], s.ports[p];
       && e.msgcount == |q|
       && e.first == (if q == [] then NULL else q[0]) && e.last == (if q == [] then NULL else q[|q| - 1])
       && forall i {:trigger NodeAt(s, p, q, i)} :: 0 <= i < |q| ==> NodeAt(s, p, q, i)
  }

  /** The buffer of a node holds as many bytes as the node says, and is that node's alone. */
  ghost predicate DataOk(s: Memory, n: Ptr) {
    n in s.nodes && s.nodes[n].size > 0 ==>
      var d := s.nodes[n].data;
      d != NULL && d in s.store && s.store[d].Bytes? && |s.store[d].b| == s.nodes[n].size && d in s.user
        && s.user[d] == n && d in s.room && s.nodes[n].size <= s.room[d] == RoomFor(s.nodes[n].size)
  }

  ghost predicate PooledAt(s: Memory, q: seq<Ptr>, i: int)
    requires 0 <= i < |q|
  {
    q[i] != NULL && q[i] in s.store && s.store[q[i]] == Link(NextOf(q, i)) && q[i] !in s.user
      && q[i] in s.room && s.room[q[i]] == PAGE
  }

  ghost predicate PoolOk(s: Memory) {
    && s.pool == (if s.pooled == [] then NULL else s.pooled[0]) && Distinct(s.pooled)
    && forall i {:trigger PooledAt(s, s.pooled, i)} :: 0 <= i < |s.pooled| ==> PooledAt(s, s.pooled, i)
  }

  ghost predicate Inv(s: Memory) {
    && s.chains.Keys == s.ports.Keys && PoolOk(s)
    && (forall p {:trigger ChainOk(s, p)} :: p in s.ports ==> ChainOk(s, p))
    && (forall n {:trigger DataOk(s, n)} :: DataOk(s, n))
    && (forall n :: n in s.nodes ==> n in s.home)
  }

  // ---------------------------------------------------------------- what the tables mean

  ghost function Payload(s: Memory, n: Ptr): seq<Byte>
    requires n in s.nodes && DataOk(s, n)
  {
    if s.nodes[n].size == 0 then [] else s.store[s.nodes[n].data].b
  }

  ghost function MessageOf(s: Memory, n: Ptr): Message
    requires n in s.nodes && DataOk(s, n)
  {
    var x := s.nodes[n];
    Message(x.from, x.to, x.code, Payload(s, n))
  }

  ghost function Queued(s: Memory, p: PortId): (r: seq<Message>)
    requires Inv(s) && p in s.ports
    ensures |r| == |s.chains[p]| == s.ports[p].msgcount
  {
    assert ChainOk(s, p);
    var q := s.chains[p];
    seq(|q|, i requires 0 <= i < |q| => assert NodeAt(s, p, q, i) && DataOk(s, q[i]); MessageOf(s, q[i]))
  }

  /** A buffer that belongs to nobody yet, or to nobody any more. */
  ghost predicate Loose(s: Memory, d: Ptr) {
    d != NULL && d in s.store && d !in s.user && d !in s.pooled
  }

  ghost predicate RoomIs(s: Memory, d: Ptr, n: nat) {
    d in s.room && s.room[d] == n
  }

  /** No queued message lives in a pooled buffer. */
  lemma PoolNeverAliases(s: Memory, p: PortId, i: int, j: int)
    requires Inv(s) && p in s.ports && 0 <= i < |s.chains[p]| && 0 <= j < |s.pooled|
    ensures var n := s.chains[p][i]; n in s.nodes && (s.nodes[n].size > 0 ==> s.nodes[n].data != s.pooled[j])
  {
    assert ChainOk(s, p) && NodeAt(s, p, s.chains[p], i) && DataOk(s, s.chains[p][i]) && PooledAt(s, s.pooled, j);
  }

  /** Two queued messages never share a buffer. */
  lemma MessagesNeverAlias(s: Memory, p: PortId, i: int, r: PortId, j: int)
    requires Inv(s) && p in s.ports && r in s.ports && 0 <= i < |s.chains[p]| && 0 <= j < |s.chains[r]|
      && (p != r || i != j)
    ensures var n, m := s.chains[p][i], s.chains[r][j];
      n in s.nodes && m in s.nodes && n != m
        && (s.nodes[n].size > 0 && s.nodes[m].size > 0 ==> s.nodes[n].data != s.nodes[m].data)
  {
    assert ChainOk(s, p) && NodeAt(s, p, s.chains[p], i) && DataOk(s, s.chains[p][i]);
    assert ChainOk(s, r) && NodeAt(s, r, s.chains[r], j) && DataOk(s, s.chains[r][j]);
  }

  /** A message is never longer than its buffer, and every pooled buffer has a whole page. */
  lemma BuffersFit(s: Memory, p: PortId, i: int, j: int)
    requires Inv(s) && p in s.ports
    ensures 0 <= i < |s.chains[p]| ==>
      var n := s.chains[p][i];
      n in s.nodes && (s.nodes[n].size > 0 ==> s.nodes[n].data in s.room && s.nodes[n].size <= s.room[s.nodes[n].data])
    ensures 0 <= j < |s.pooled| ==> s.pooled[j] in s.room && s.room[s.pooled[j]] == PAGE
  {
    if 0 <= i < |s.chains[p]| { assert ChainOk(s, p) && NodeAt(s, p, s.chains[p], i) && DataOk(s, s.chains[p][i]); }
    if 0 <= j < |s.pooled| { assert PooledAt(s, s.pooled, j); }
  }

  ghost predicate SameQueues(s: Memory, u: Memory) {
    Inv(s) && Inv(u) && u.ports.Keys == s.ports.Keys
      && forall p {:trigger Queued(u, p)} :: p in s.ports ==> Queued(u, p) == Queued(s, p)
  }

  // ---------------------------------------------------------------- buffers

  /** Writing to a loose buffer, or adding one, changes no message. */
  lemma LooseWrite(s: Memory, d: Ptr, c: Cell, room: map<Ptr, nat>)
    requires Inv(s) && d != NULL && d !in s.user && d !in s.pooled
    requires forall x :: x in s.room && x != d ==> x in room && room[x] == s.room[x]
    ensures var u := s.(store := s.store[d := c], room := room); SameQueues(s, u) && Loose(u, d)
  {
    var u := s.(store := s.store[d := c], room := room);
    forall n ensures DataOk(u, n) { assert DataOk(s, n); }
    forall p | p in u.ports ensures ChainOk(u, p) { ChainKept(s, u, p); }
    forall i | 0 <= i < |u.pooled| ensures PooledAt(u, u.pooled, i) { assert PooledAt(s, s.pooled, i); }
    QueuesKept(s, u);
  }

  lemma ChainKept(s: Memory, u: Memory, p: PortId)
    requires ChainOk(s, p) && u.nodes == s.nodes && u.ports == s.ports && u.chains == s.chains && u.home == s.home
    ensures ChainOk(u, p)
  {
    var q := s.chains[p];
    forall i | 0 <= i < |q| ensures NodeAt(u, p, q, i) { assert NodeAt(s, p, q, i); }
  }

  lemma QueuesKept(s: Memory, u: Memory)
    requires Inv(s) && Inv(u) && u.nodes == s.nodes && u.ports == s.ports && u.chains == s.chains
    requires forall d :: d in s.user && d in s.store ==> d in u.store && u.store[d] == s.store[d]
    ensures SameQueues(s, u)
  {
    forall p | p in s.ports ensures Queued(u, p) == Queued(s, p) {
      assert ChainOk(s, p) && ChainOk(u, p);
      var q := s.chains[p];
      forall i | 0 <= i < |q| ensures Queued(u, p)[i] == Queued(s, p)[i] {
        assert NodeAt(s, p, q, i) && DataOk(s, q[i]) && DataOk(u, q[i]);
      }
    }
  }

  lemma Popped(s: Memory)
    requires Inv(s) && s.pool != NULL
    ensures s.pool in s.store && s.store[s.pool].Link? && s.pooled != []
    ensures var u := s.(pool := s.store[s.pool].next, pooled := s.pooled[1..]); SameQueues(s, u) && Loose(u, s.pool)
    ensures s.pool in s.room && s.room[s.pool] == PAGE
  {
    assert PooledAt(s, s.pooled, 0);
    var u := s.(pool := s.store[s.pool].next, pooled := s.pooled[1..]);
    forall i | 0 <= i < |u.pooled| ensures PooledAt(u, u.pooled, i) { assert PooledAt(s, s.pooled, i + 1); }
    forall n ensures DataOk(u, n) { assert DataOk(s, n); }
    forall p | p in u.ports ensures ChainOk(u, p) { ChainKept(s, u, p); }
    QueuesKept(s, u);
  }

  lemma Pushed(s: Memory, d: Ptr)
    requires Inv(s) && Loose(s, d) && d in s.room && s.room[d] == PAGE
    ensures SameQueues(s, s.(store := s.store[d := Link(s.pool)], pool := d, pooled := [d] + s.pooled))
  {
    var u := s.(store := s.store[d := Link(s.pool)], pool := d, pooled := [d] + s.pooled);
    forall i | 0 <= i < |u.pooled| ensures PooledAt(u, u.pooled, i) {
      assert i > 0 ==> PooledAt(s, s.pooled, i - 1);
    }
    forall n ensures DataOk(u, n) { assert DataOk(s, n); }
    forall p | p in u.ports ensures ChainOk(u, p) { ChainKept(s, u, p); }
    QueuesKept(s, u);
  }

  lemma Freed(s: Memory, d: Ptr)
    requires Inv(s) && Loose(s, d)
    ensures SameQueues(s, s.(store := s.store - {d}))
  {
    var u := s.(store := s.store - {d});
    forall i | 0 <= i < |u.pooled| ensures PooledAt(u, u.pooled, i) { assert PooledAt(s, s.pooled, i); }
    forall n ensures DataOk(u, n) { assert DataOk(s, n); }
    forall p | p in u.ports ensures ChainOk(u, p) { ChainKept(s, u, p); }
    QueuesKept(s, u);
  }

  // ---------------------------------------------------------------- the ends of a chain

  ghost predicate HasEnds(s: Memory, p: PortId) {
    p in s.ports && p in s.chains && (s.ports[p].last != NULL ==> s.ports[p].last in s.nodes)
  }

  ghost function Linked(s: Memory, p: PortId, n: Ptr, x: Node): Memory
    requires HasEnds(s, p)
  {
    var e := s.ports[p];
    var before := if e.last == NULL then s.nodes else s.nodes[e.last := s.nodes[e.last].(next := n)];
    s.(nodes := before[n := x],
       ports := s.ports[p := Ends(if e.last == NULL then n else e.first, n, e.msgcount + 1)],
       chains := s.chains[p := s.chains[p] + [n]],
       user := if x.size > 0 then s.user[x.data := n] else s.user,
       home := s.home[n := p])
  }

  ghost predicate Linkable(s: Memory, p: PortId, n: Ptr, x: Node) {
    && Inv(s) && p in s.ports && n != NULL && n !in s.nodes && x.next == NULL
    && (x.size > 0 ==> Loose(s, x.data) && s.store[x.data].Bytes? && |s.store[x.data].b| == x.size)
    && (x.size > 0 ==> x.data in s.room && x.size <= s.room[x.data] == RoomFor(x.size))
  }

  lemma LastNode(s: Memory, p: PortId)
    requires Inv(s) && p in s.ports
    ensures s.ports[p].last == NULL <==> s.chains[p] == []
    ensures s.chains[p] != [] ==> s.ports[p].last in s.nodes && s.ports[p].last == s.chains[p][|s.chains[p]| - 1]
    ensures s.chains[p] != [] ==> s.ports[p].first in s.nodes && s.ports[p].first == s.chains[p][0]
  {
    assert ChainOk(s, p);
    if s.chains[p] != [] {
      assert NodeAt(s, p, s.chains[p], 0) && NodeAt(s, p, s.chains[p], |s.chains[p]| - 1);
    }
  }

  lemma LinkedChains(s: Memory, p: PortId, n: Ptr, x: Node, r: PortId)
    requires Linkable(s, p, n, x) && r in s.ports
    requires s.ports[p].last != NULL ==> s.ports[p].last in s.nodes
    ensures ChainOk(Linked(s, p, n, x), r)
  {
    var u := Linked(s, p, n, x);
    LastNode(s, p);
    assert ChainOk(s, r) && ChainOk(s, p);
    var c, q := s.chains[r], u.chains[r];
    forall i | 0 <= i < |c| ensures c[i] != n { assert NodeAt(s, r, c, i); }
    if s.chains[p] != [] { assert NodeAt(s, p, s.chains[p], |s.chains[p]| - 1); }
    forall i | 0 <= i < |q| ensures NodeAt(u, r, q, i) {
      assert i < |c| ==> NodeAt(s, r, c, i);
    }
  }

  lemma LinkedInv(s: Memory, p: PortId, n: Ptr, x: Node)
    requires Linkable(s, p, n, x)
    requires s.ports[p].last != NULL ==> s.ports[p].last in s.nodes
    ensures Inv(Linked(s, p, n, x))
  {
    var u := Linked(s, p, n, x);
    forall r | r in u.ports ensures ChainOk(u, r) { LinkedChains(s, p, n, x, r); }
    forall m ensures DataOk(u, m) { assert DataOk(s, m); }
    forall i | 0 <= i < |u.pooled| ensures PooledAt(u, u.pooled, i) { assert PooledAt(s, s.pooled, i); }
  }

  /** Linking a node at the end adds its message to the port's queue, and leaves every other queue alone. */
  lemma Appends(s: Memory, p: PortId, n: Ptr, x: Node)
    requires Linkable(s, p, n, x)
    requires s.ports[p].last != NULL ==> s.ports[p].last in s.nodes
    ensures var u, d := Linked(s, p, n, x), if x.size == 0 then [] else s.store[x.data].b;
      && Inv(u) && Queued(u, p) == Queued(s, p) + [Message(x.from, x.to, x.code, d)]
      && forall r {:trigger Queued(u, r)} :: r in s.ports && r != p ==> Queued(u, r) == Queued(s, r)
  {
    var u := Linked(s, p, n, x);
    LinkedInv(s, p, n, x);
    forall r | r in s.ports ensures |Queued(u, r)| >= |Queued(s, r)| && Queued(u, r)[..|Queued(s, r)|] == Queued(s, r) {
      LinkedKeeps(s, p, n, x, r);
    }
    assert ChainOk(u, p) && NodeAt(u, p, u.chains[p], |s.chains[p]|) && DataOk(u, n);
  }

  lemma LinkedKeeps(s: Memory, p: PortId, n: Ptr, x: Node, r: PortId)
    requires Linkable(s, p, n, x) && r in s.ports
    requires s.ports[p].last != NULL ==> s.ports[p].last in s.nodes
    requires Inv(Linked(s, p, n, x))
    ensures var u := Linked(s, p, n, x);
      |Queued(u, r)| >= |Queued(s, r)| && Queued(u, r)[..|Queued(s, r)|] == Queued(s, r)
  {
    var u := Linked(s, p, n, x);
    assert ChainOk(s, r) && ChainOk(u, r);
    var c := s.chains[r];
    forall i | 0 <= i < |c| ensures Queued(u, r)[i] == Queued(s, r)[i] {
      assert NodeAt(s, r, c, i) && NodeAt(u, r, u.chains[r], i) && DataOk(s, c[i]) && DataOk(u, c[i]);
    }
  }

  ghost function Unlinked(s: Memory, p: PortId): Memory
    requires p in s.ports && p in s.chains && s.ports[p].first in s.nodes && s.chains[p] != []
  {
    var e := s.ports[p];
    var x := s.nodes[e.first];
    s.(nodes := s.nodes - {e.first},
       ports := s.ports[p := Ends(x.next, if x.next == NULL then NULL else e.last, e.msgcount - 1)],
       chains := s.chains[p := s.chains[p][1..]],
       user := if x.size > 0 then s.user - {x.data} else s.user,
       home := s.home - {e.first})
  }

  lemma UnlinkedChains(s: Memory, p: PortId, r: PortId)
    requires Inv(s) && p in s.ports && s.ports[p].first in s.nodes && s.chains[p] != [] && r in s.ports
    ensures ChainOk(Unlinked(s, p), r)
  {
    var u := Unlinked(s, p);
    assert ChainOk(s, r) && ChainOk(s, p) && NodeAt(s, p, s.chains[p], 0);
    var c, q := s.chains[r], u.chains[r];
    var off := if r == p then 1 else 0;
    forall i | 0 <= i < |q| ensures NodeAt(u, r, q, i) {
      assert NodeAt(s, r, c, i + off);
    }
    if r == p && |c| > 1 { assert NodeAt(s, p, c, 1); }
  }

  lemma UnlinkedInv(s: Memory, p: PortId)
    requires Inv(s) && p in s.ports && s.ports[p].first in s.nodes && s.chains[p] != []
    ensures Inv(Unlinked(s, p))
  {
    var u, n := Unlinked(s, p), s.ports[p].first;
    forall r | r in u.ports ensures ChainOk(u, r) { UnlinkedChains(s, p, r); }
    assert DataOk(s, n);
    forall m ensures DataOk(u, m) { assert DataOk(s, m); }
    forall i | 0 <= i < |u.pooled| ensures PooledAt(u, u.pooled, i) { assert PooledAt(s, s.pooled, i); }
  }

  /** Unlinking the first node takes the first message off, and leaves its buffer loose. */
  lemma TakesFirst(s: Memory, p: PortId)
    requires Inv(s) && p in s.ports && s.ports[p].first in s.nodes && s.chains[p] != []
    ensures var u, n := Unlinked(s, p), s.ports[p].first;
      && Inv(u) && Queued(u, p) == Queued(s, p)[1..] && DataOk(s, n) && Queued(s, p)[0] == MessageOf(s, n)
      && (s.nodes[n].size > 0 ==> Loose(u, s.nodes[n].data) && RoomIs(u, s.nodes[n].data, RoomFor(s.nodes[n].size)))
      && forall r {:trigger Queued(u, r)} :: r in s.ports && r != p ==> Queued(u, r) == Queued(s, r)
  {
    var u, n := Unlinked(s, p), s.ports[p].first;
    UnlinkedInv(s, p);
    assert ChainOk(s, p) && NodeAt(s, p, s.chains[p], 0) && DataOk(s, n);
    UnlinkedKeeps(s, p, p);
    forall r | r in s.ports && r != p ensures Queued(u, r) == Queued(s, r) { UnlinkedKeeps(s, p, r); }
    if s.nodes[n].size > 0 {
      forall i | 0 <= i < |s.pooled| ensures s.pooled[i] != s.nodes[n].data { assert PooledAt(s, s.pooled, i); }
    }
  }

  lemma UnlinkedKeeps(s: Memory, p: PortId, r: PortId)
    requires Inv(s) && p in s.ports && s.ports[p].first in s.nodes && s.chains[p] != [] && r in s.ports
    requires Inv(Unlinked(s, p))
    ensures var u := Unlinked(s, p); Queued(u, r) == if r == p then Queued(s, r)[1..] else Queued(s, r)
  {
    var u := Unlinked(s, p);
    assert ChainOk(s, r) && ChainOk(u, r);
    var c, q := s.chains[r], u.chains[r];
    var off := if r == p then 1 else 0;
    forall i | 0 <= i < |q| ensures Queued(u, r)[i] == Queued(s, r)[i + off] {
      assert NodeAt(s, r, c, i + off) && NodeAt(u, r, q, i) && DataOk(s, q[i]) && DataOk(u, q[i]);
    }
  }

  // ---------------------------------------------------------------- sending and receiving

  ghost predicate Spare(s: Memory, d: Ptr) {
    d != NULL && d !in s.store && d !in s.user && d !in s.pooled
  }

  /** Where the data of a message goes: nowhere, to a small block, to the first of the pool, or to a fresh page. */
  function BufferFor(pool: Ptr, size: nat, spare: Ptr): Ptr {
    if size == 0 then NULL else if size < SMALL || pool == NULL then spare else pool
  }

  ghost function Buffered(s: Memory, size: nat, spare: Ptr): Memory {
    if size == 0 then s
    else if size < SMALL || s.pool == NULL then
      s.(store := s.store[spare := Bytes([])], room := s.room[spare := RoomFor(size)])
    else s.(pool := if s.pool in s.store && s.store[s.pool].Link? then s.store[s.pool].next else NULL,
            pooled := if s.pooled == [] then [] else s.pooled[1..])
  }

  lemma BufferedOk(s: Memory, size: nat, spare: Ptr)
    requires Inv(s) && Spare(s, spare)
    ensures var u := Buffered(s, size, spare);
      && SameQueues(s, u) && u.ports == s.ports && u.chains == s.chains && u.nodes == s.nodes
      && (size > 0 ==> var d := BufferFor(s.pool, size, spare); Loose(u, d) && RoomIs(u, d, RoomFor(size)))
  {
    if size == 0 {
      QueuesKept(s, s);
    } else if size < SMALL || s.pool == NULL {
      LooseWrite(s, spare, Bytes([]), s.room[spare := RoomFor(size)]);
    } else {
      Popped(s);
    }
  }

  lemma NoBuffer(pool: Ptr, spare: Ptr)
    ensures BufferFor(pool, 0, spare) == NULL
  {
  }

  ghost function Written(s: Memory, d: Ptr, data: seq<Byte>): Memory {
    if data == [] then s else s.(store := s.store[d := Bytes(data)])
  }

  lemma WrittenOk(s: Memory, d: Ptr, data: seq<Byte>)
    requires Inv(s) && (data != [] ==> Loose(s, d))
    ensures SameQueues(s, Written(s, d, data)) && (data != [] ==> Loose(Written(s, d, data), d))
  {
    if data == [] { QueuesKept(s, s); } else { LooseWrite(s, d, Bytes(data), s.room); }
  }

  /** The memory with a message's bytes in their buffer, before its node is linked. */
  ghost function Prepared(s: Memory, data: seq<Byte>, spare: Ptr): Memory {
    Written(Buffered(s, |data|, spare), BufferFor(s.pool, |data|, spare), data)
  }

  lemma PreparedOk(s: Memory, data: seq<Byte>, spare: Ptr)
    requires Inv(s) && Spare(s, spare)
    ensures var u, d := Prepared(s, data, spare), BufferFor(s.pool, |data|, spare);
      && SameQueues(s, u) && u.ports == s.ports && u.chains == s.chains && u.nodes == s.nodes
      && (data != [] ==> Loose(u, d) && u.store[d] == Bytes(data) && RoomIs(u, d, RoomFor(|data|)))
      && (data == [] ==> d == NULL)
  {
    hide Inv, Queued, Buffered, BufferFor, RoomFor, Loose;
    BufferedOk(s, |data|, spare);
    var b := Buffered(s, |data|, spare);
    assert data == [] ==> BufferFor(s.pool, |data|, spare) == NULL by { NoBuffer(s.pool, spare); }
    WrittenOk(b, BufferFor(s.pool, |data|, spare), data);
    var u := Prepared(s, data, spare);
    forall r | r in s.ports ensures Queued(u, r) == Queued(s, r) { assert Queued(b, r) == Queued(s, r); }
  }

  /** The memory after a message has been put on a port's queue. */
  ghost function Sent(s: Memory, p: PortId, m: Message, node: Ptr, spare: Ptr): Memory
    requires HasEnds(s, p)
  {
    var d := BufferFor(s.pool, |m.data|, spare);
    Linked(Prepared(s, m.data, spare), p, node, Node(NULL, |m.data|, m.code, m.from, m.to, d))
  }

  /** A message sent is the last of its port's queue, whole, and no other queue changes. */
  lemma SentOk(s: Memory, p: PortId, m: Message, node: Ptr, spare: Ptr)
    requires Inv(s) && p in s.ports && node != NULL && node !in s.nodes && Spare(s, spare) && |m.data| <= PAGE
    ensures HasEnds(s, p)
    ensures var u := Sent(s, p, m, node, spare);
      && Inv(u) && u.ports.Keys == s.ports.Keys && Queued(u, p) == Queued(s, p) + [m]
      && forall r {:trigger Queued(u, r)} :: r in s.ports && r != p ==> Queued(u, r) == Queued(s, r)
  {
    LastNode(s, p);
    PreparedOk(s, m.data, spare);
    var w, d := Prepared(s, m.data, spare), BufferFor(s.pool, |m.data|, spare);
    var x := Node(NULL, |m.data|, m.code, m.from, m.to, d);
    assert Linkable(w, p, node, x);
    hide Inv, Queued, Linkable, Prepared, Loose;
    Appends(w, p, node, x);
    var u := Linked(w, p, node, x);
    forall r | r in s.ports && r != p ensures Queued(u, r) == Queued(s, r) { assert Queued(w, r) == Queued(s, r); }
    assert Queued(w, p) == Queued(s, p);
  }

  ghost function Returned(s: Memory, size: nat, d: Ptr): Memory {
    if size == 0 then s
    else if size < SMALL then s.(store := s.store - {d})
    else s.(store := s.store[d := Link(s.pool)], pool := d, pooled := [d] + s.pooled)
  }

  lemma ReturnedOk(s: Memory, size: nat, d: Ptr)
    requires Inv(s) && (size > 0 ==> Loose(s, d) && RoomIs(s, d, RoomFor(size)))
    ensures SameQueues(s, Returned(s, size, d))
  {
    if size == 0 {
      QueuesKept(s, s);
    } else if size < SMALL {
      Freed(s, d);
    } else {
      Pushed(s, d);
    }
  }

  ghost predicate HasFirst(s: Memory, p: PortId) {
    p in s.ports && p in s.chains && s.ports[p].first in s.nodes && s.chains[p] != []
  }

  /** The memory after the first message has been taken off a port's queue. */
  ghost function Received(s: Memory, p: PortId): Memory
    requires HasFirst(s, p)
  {
    var x := s.nodes[s.ports[p].first];
    Returned(Unlinked(s, p), x.size, x.data)
  }

  lemma ReceivedOk(s: Memory, p: PortId)
    requires Inv(s) && p in s.ports && s.chains[p] != []
    ensures HasFirst(s, p) && Inv(Received(s, p)) && Received(s, p).ports.Keys == s.ports.Keys
    ensures Queued(s, p) != [] && Queued(Received(s, p), p) == Queued(s, p)[1..]
    ensures forall r {:trigger Queued(Received(s, p), r)} ::
      r in s.ports && r != p ==> Queued(Received(s, p), r) == Queued(s, r)
  {
    LastNode(s, p);
    var x, u := s.nodes[s.ports[p].first], Unlinked(s, p);
    TakesFirst(s, p);
    ReturnedOk(u, x.size, x.data);
    var w := Returned(u, x.size, x.data);
    assert Queued(w, p) == Queued(u, p);
    forall r | r in s.ports && r != p ensures Queued(w, r) == Queued(s, r) { assert Queued(u, r) == Queued(s, r); }
  }

  /** A large message's page goes on top of the pool, and the next large message is put there; nothing is allocated for
      it, and nothing else leaves the pool.  A small message's block goes back to the allocator. */
  lemma PageComesBack(s: Memory, p: PortId, r: PortId, m: Message, node: Ptr, spare: Ptr)
    requires Inv(s) && HasFirst(s, p) && s.nodes[s.ports[p].first].size > 0 && r in s.ports && SMALL <= |m.data| <= PAGE
    ensures var x, u := s.nodes[s.ports[p].first], Received(s, p);
      if x.size < SMALL then u.store.Keys == s.store.Keys - {x.data} && u.pooled == s.pooled
      else && u.store.Keys == s.store.Keys && HasEnds(u, r)
           && var w := Sent(u, r, m, node, spare);
              node in w.nodes && w.nodes[node].data == x.data && w.store.Keys == s.store.Keys && w.pooled == s.pooled
  {
    var n, u := s.ports[p].first, Received(s, p);
    assert DataOk(s, n);
    ReceivedOk(s, p);
    LastNode(u, r);
  }

  // ---------------------------------------------------------------- the code

  function Min(a: nat, b: nat): nat { if a < b then a else b }

  /** The kernel's tables, updated in place. Addresses the kernel allocator hands out are parameters. */
  class Kernel {
    var nodes: map<Ptr, Node>
    var store: map<Ptr, Cell>
    var pool: Ptr
    var ports: map<PortId, Ends>
    ghost var chains: map<PortId, seq<Ptr>>
    ghost var pooled: seq<Ptr>
    ghost var user: map<Ptr, Ptr>
    ghost var home: map<Ptr, PortId>
    ghost var room: map<Ptr, nat>

    ghost function View(): Memory
      reads this
    {
      Memory(nodes, store, pool, ports, chains, pooled, user, home, room)
    }

    constructor ()
      ensures Inv(View()) && ports == map[]
    {
      nodes, store, pool, ports := map[], map[], NULL, map[];
      chains, pooled, user, home, room := map[], [], map[], map[], map[];
    }

    method Create(p: PortId)
      requires Inv(View()) && p !in ports
      modifies this
      ensures Inv(View()) && ports.Keys == old(ports.Keys) + {p} && Queued(View(), p) == []
      ensures forall r {:trigger Queued(View(), r)} :: r in old(ports) ==> Queued(View(), r) == old(Queued(View(), r))
    {
      ghost var s := View();
      ports := ports[p := Ends(NULL, NULL, 0)];
      chains := chains[p := []];
      CreateOk(s, p);
    }

    /** The kernel allocator: memory that nobody uses, as much as was asked for. */
    method Allocate(size: nat, spare: Ptr) returns (d: Ptr)
      modifies this`store, this`room
      ensures d == spare && store == old(store)[d := Bytes([])] && room == old(room)[d := size]
    {
      d := spare;
      store := store[d := Bytes([])];
      room := room[d := size];
    }

    /** A buffer for a message: none, a small block, the first of the pool, or a fresh page. */
    method GetBuffer(size: nat, spare: Ptr) returns (d: Ptr)
      requires Inv(View())
      modifies this`store, this`pool, this`pooled, this`room
      ensures View() == Buffered(old(View()), size, spare) && d == BufferFor(old(pool), size, spare)
    {
      if size < SMALL {
        if size == 0 {
          d := NULL;
        } else {
          d := Allocate(size, spare);
        }
      } else if pool != NULL {
        Popped(View());
        d := pool;
        pool := store[pool].next;
        pooled := pooled[1..];
      } else {
        d := Allocate(PAGE, spare);
      }
    }

    /** Copies the sender's bytes one by one. */
    method Fill(d: Ptr, msg: seq<Byte>)
      modifies this`store
      ensures View() == Written(old(View()), d, msg)
    {
      var copied: seq<Byte> := [];
      var i := 0;
      while i < |msg|
        invariant 0 <= i <= |msg| && copied == msg[..i] && View() == Written(old(View()), d, copied)
      {
        copied := copied + [msg[i]];
        store := store[d := Bytes(copied)];
        i := i + 1;
      }
      assert msg[..i] == msg;
    }

    method LinkLast(p: PortId, n: Ptr, x: Node)
      requires HasEnds(View(), p)
      modifies this
      ensures View() == Linked(old(View()), p, n, x)
    {
      var e := ports[p];
      if e.last != NULL {
        nodes := nodes[e.last := nodes[e.last].(next := n)];
        ports := ports[p := Ends(e.first, n, e.msgcount + 1)];
      } else {
        ports := ports[p := Ends(n, n, e.msgcount + 1)];
      }
      nodes := nodes[n := x];
      chains := chains[p := chains[p] + [n]];
      user := if x.size > 0 then user[x.data := n] else user;
      home := home[n := p];
    }

    /** What a send does once there is room: the message is the last of its port's queue. */
    method Send(p: PortId, src: int, dst: int, code: int, msg: seq<Byte>, node: Ptr, spare: Ptr)
      requires Inv(View()) && p in ports && ports[p].msgcount < MAX_MSGCOUNT
      requires node != NULL && node !in nodes && Spare(View(), spare) && |msg| <= PAGE
      modifies this
      ensures Inv(View()) && ports.Keys == old(ports.Keys)
      ensures HasEnds(old(View()), p) && View() == Sent(old(View()), p, Message(src, dst, code, msg), node, spare)
      ensures Queued(View(), p) == old(Queued(View(), p)) + [Message(src, dst, code, msg)]
      ensures forall r {:trigger Queued(View(), r)} :: r in old(ports) && r != p ==>
        Queued(View(), r) == old(Queued(View(), r))
    {
      SentOk(View(), p, Message(src, dst, code, msg), node, spare);
      hide Queued, Linked;
      var d := GetBuffer(|msg|, spare);
      Fill(d, msg);
      LinkLast(p, node, Node(NULL, |msg|, code, src, dst, d));
    }

    method PutBuffer(size: nat, d: Ptr)
      modifies this`store, this`pool, this`pooled
      ensures View() == Returned(old(View()), size, d)
    {
      if size < SMALL {
        if size > 0 { store := store - {d}; }
      } else {
        store := store[d := Link(pool)];
        pool := d;
        pooled := [d] + pooled;
      }
    }

    method UnlinkFirst(p: PortId) returns (x: Node)
      requires HasFirst(View(), p)
      modifies this`nodes, this`ports, this`chains, this`user, this`home
      ensures View() == Unlinked(old(View()), p) && x == old(nodes)[old(ports)[p].first]
    {
      var e := ports[p];
      x := nodes[e.first];
      nodes := nodes - {e.first};
      ports := ports[p := Ends(x.next, if x.next == NULL then NULL else e.last, e.msgcount - 1)];
      chains := chains[p := chains[p][1..]];
      user := if x.size > 0 then user - {x.data} else user;
      home := home - {e.first};
    }

    /** Copies a message's bytes out, as many as there are and fit. */
    method CopyOut(x: Node, size: nat) returns (out: seq<Byte>)
      requires x.size > 0 ==> |BytesOf(store, x.data)| == x.size
      ensures out == if x.size == 0 then [] else BytesOf(store, x.data)[..Min(size, x.size)]
    {
      var bytes, i := BytesOf(store, x.data), 0;
      out := [];
      while i < x.size && i < size
        invariant 0 <= i <= x.size && i <= size && (x.size > 0 ==> out == bytes[..i]) && (x.size == 0 ==> out == [])
      {
        out := out + [bytes[i]];
        i := i + 1;
      }
    }

    /** What a receive does once there is a message: the first of the queue leaves it, whole but for the
        bytes that do not fit. */
    method Receive(p: PortId, size: nat) returns (src: int, code: int, out: seq<Byte>)
      requires Inv(View()) && p in ports && ports[p].msgcount > 0
      modifies this
      ensures Inv(View()) && ports.Keys == old(ports.Keys)
      ensures HasFirst(old(View()), p) && View() == Received(old(View()), p)
      ensures old(Queued(View(), p)) != [] && Queued(View(), p) == old(Queued(View(), p))[1..]
      ensures var m := old(Queued(View(), p))[0];
        src == m.from && code == m.code && out == m.data[..Min(size, |m.data|)]
      ensures forall r {:trigger Queued(View(), r)} :: r in old(ports) && r != p ==>
        Queued(View(), r) == old(Queued(View(), r))
    {
      ghost var s := View();
      assert ChainOk(s, p);
      ReceivedOk(s, p);
      FirstMessage(s, p);
      hide Queued, Inv;
      var x := UnlinkFirst(p);
      src, code := x.from, x.code;
      out := CopyOut(x, size);
      PutBuffer(x.size, x.data);
    }
  }

  /** The first message of a queue, as its node and buffer hold it. */
  lemma FirstMessage(s: Memory, p: PortId)
    requires Inv(s) && HasFirst(s, p)
    ensures var x := s.nodes[s.ports[p].first];
      && (x.size > 0 ==> |BytesOf(s.store, x.data)| == x.size)
      && Queued(s, p) != []
      && Queued(s, p)[0] == Message(x.from, x.to, x.code, if x.size == 0 then [] else BytesOf(s.store, x.data))
  {
    TakesFirst(s, p);
  }

  function BytesOf(store: map<Ptr, Cell>, d: Ptr): seq<Byte> {
    if d in store && store[d].Bytes? then store[d].b else []
  }

  lemma CreateOk(s: Memory, p: PortId)
    requires Inv(s) && p !in s.ports
    ensures var u := s.(ports := s.ports[p := Ends(NULL, NULL, 0)], chains := s.chains[p := []]);
      && Inv(u) && Queued(u, p) == []
      && forall r {:trigger Queued(u, r)} :: r in s.ports ==> Queued(u, r) == Queued(s, r)
  {
    var u := s.(ports := s.ports[p := Ends(NULL, NULL, 0)], chains := s.chains[p := []]);
    forall n ensures DataOk(u, n) { assert DataOk(s, n); }
    forall i | 0 <= i < |u.pooled| ensures PooledAt(u, u.pooled, i) { assert PooledAt(s, s.pooled, i); }
    forall r | r in u.ports ensures ChainOk(u, r) {
      if r != p {
        assert ChainOk(s, r);
        forall i | 0 <= i < |s.chains[r]| ensures NodeAt(u, r, u.chains[r], i) { assert NodeAt(s, r, s.chains[r], i); }
      }
    }
    forall r | r in s.ports ensures Queued(u, r) == Queued(s, r) {
      assert ChainOk(s, r) && ChainOk(u, r);
      forall i | 0 <= i < |s.chains[r]| ensures Queued(u, r)[i] == Queued(s, r)[i] {
        assert NodeAt(s, r, s.chains[r], i) && DataOk(s, s.chains[r][i]) && DataOk(u, s.chains[r][i]);
      }
    }
  }
}
