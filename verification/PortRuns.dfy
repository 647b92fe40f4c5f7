/** Runs of many threads on many ports, over the kernel's own tables of nodes and buffers: sends and receives
    decide by the count a port keeps and read messages out of the nodes and buffers they find there. */
module PortRuns {
  import opened PortMessages
  import B = PortBlocking

  /** The threads around each port, the tables, and what each port gave so far, read out of the tables. */
  datatype World = World(ports: map<PortId, B.State>, mem: Memory, got: map<PortId, seq<B.Receipt>>)

  /** A new port, or a thread's step on one; a send takes its node and a spare buffer from the allocator. */
  datatype Step = Create(p: PortId) | On(p: PortId, e: B.Step, node: Ptr, spare: Ptr)

  ghost const EMPTY := World(map[], Memory(map[], map[], NULL, map[], map[], [], map[], map[], map[]), map[])

  // ---------------------------------------------------------------- steps

  /** The code of a send after its wait: it looks at the port's count, and checks the request. */
  ghost function Put(m: Memory, p: PortId, r: B.Request, node: Ptr, spare: Ptr): Memory
    requires HasEnds(m, p)
  {
    if m.ports[p].msgcount >= MAX_MSGCOUNT || !B.ValidRequest(r) then m else Sent(m, p, r.m, node, spare)
  }

  ghost function Get(m: Memory, p: PortId): Memory {
    if HasFirst(m, p) && m.ports[p].msgcount != 0 then Received(m, p) else m
  }

  /** What a receive reads: the fields of the first node, and as many bytes of its buffer as fit. */
  ghost function ReadFirst(m: Memory, p: PortId, size: nat): B.Receipt
    requires HasFirst(m, p)
  {
    var x := m.nodes[m.ports[p].first];
    var bytes := if x.size == 0 then [] else BytesOf(m.store, x.data);
    B.Receipt(size, x.from, x.code, bytes[..Min(size, |bytes|)])
  }

  ghost function Reads(m: Memory, p: PortId, size: nat): seq<B.Receipt> {
    if HasFirst(m, p) && m.ports[p].msgcount != 0 then [ReadFirst(m, p, size)] else []
  }

  ghost function MemoryAfter(m: Memory, p: PortId, s: B.State, e: B.Step, node: Ptr, spare: Ptr): Memory
    requires HasEnds(m, p) && B.Enabled(s, e)
  {
    match e
    case Send(t, r) => Put(m, p, r, node, spare)
    case SendAgain(t) => Put(m, p, s.asked[t], node, spare)
    case Receive(t, size) => Get(m, p)
    case ReceiveAgain(t) => Get(m, p)
    case SetNowait(on) => m
  }

  ghost function Given(m: Memory, p: PortId, s: B.State, e: B.Step): seq<B.Receipt>
    requires B.Enabled(s, e)
  {
    match e
    case Receive(t, size) => Reads(m, p, size)
    case ReceiveAgain(t) => Reads(m, p, s.sizes[t])
    case _ => []
  }

  ghost predicate Enabled(w: World, e: Step) {
    match e
    case Create(p) => p !in w.mem.ports
    case On(p, b, node, spare) =>
      && p in w.ports && p in w.got && B.Enabled(w.ports[p], b) && HasEnds(w.mem, p)
      && node != NULL && node !in w.mem.nodes && Spare(w.mem, spare)
  }

  ghost function Apply(w: World, e: Step): World
    requires Enabled(w, e)
  {
    match e
    case Create(p) =>
      World(w.ports[p := B.INIT],
            w.mem.(ports := w.mem.ports[p := Ends(NULL, NULL, 0)], chains := w.mem.chains[p := []]),
            w.got[p := []])
    case On(p, b, node, spare) =>
      World(w.ports[p := B.Apply(w.ports[p], b)],
            MemoryAfter(w.mem, p, w.ports[p], b, node, spare),
            w.got[p := w.got[p] + Given(w.mem, p, w.ports[p], b)])
  }

  ghost predicate Legal(w: World, run: seq<Step>)
    decreases |run|
  {
    run != [] ==> Enabled(w, run[0]) && Legal(Apply(w, run[0]), run[1..])
  }

  ghost function After(w: World, run: seq<Step>): World
    requires Legal(w, run)
    decreases |run|
  {
    if run == [] then w else After(Apply(w, run[0]), run[1..])
  }

  // ---------------------------------------------------------------- what every step keeps

  /** The tables hold a port's queue, and its receipts were read out of them. */
  ghost predicate PortOk(w: World, p: PortId)
    requires Inv(w.mem)
  {
    && p in w.ports && p in w.got && p in w.mem.ports
    && w.ports[p].queue == Queued(w.mem, p) && w.got[p] == w.ports[p].received && B.InOrder(w.ports[p])
  }

  ghost predicate Coupled(w: World) {
    && Inv(w.mem) && w.ports.Keys == w.mem.ports.Keys
    && forall p {:trigger PortOk(w, p)} :: p in w.mem.ports ==> PortOk(w, p)
  }

  lemma PutOk(m: Memory, p: PortId, r: B.Request, node: Ptr, spare: Ptr)
    requires Inv(m) && p in m.ports && node != NULL && node !in m.nodes && Spare(m, spare)
    ensures HasEnds(m, p)
    ensures var u := Put(m, p, r, node, spare);
      && Inv(u) && u.ports.Keys == m.ports.Keys
      && Queued(u, p) == Queued(m, p) + (if |Queued(m, p)| >= MAX_MSGCOUNT || !B.ValidRequest(r) then [] else [r.m])
      && forall q {:trigger Queued(u, q)} :: q in m.ports && q != p ==> Queued(u, q) == Queued(m, q)
  {
    LastNode(m, p);
    if B.ValidRequest(r) { SentOk(m, p, r.m, node, spare); }
  }

  lemma GetOk(m: Memory, p: PortId, size: nat)
    requires Inv(m) && p in m.ports
    ensures var u, q := Get(m, p), Queued(m, p);
      && Inv(u) && u.ports.Keys == m.ports.Keys
      && Queued(u, p) == (if q == [] then [] else q[1..])
      && Reads(m, p, size) ==
         (if q == [] then [] else [B.Receipt(size, q[0].from, q[0].code, q[0].data[..Min(size, |q[0].data|)])])
      && forall r {:trigger Queued(u, r)} :: r in m.ports && r != p ==> Queued(u, r) == Queued(m, r)
  {
    if m.chains[p] != [] {
      ReceivedOk(m, p);
      FirstMessage(m, p);
    }
  }

  lemma SendQueue(s: B.State, t: B.Thread, r: B.Request)
    ensures var u := B.TrySend(s, t, r);
      && u.received == s.received
      && u.queue == s.queue + (if |s.queue| >= MAX_MSGCOUNT || !B.ValidRequest(r) then [] else [r.m])
  {
  }

  lemma ReceiveQueue(s: B.State, t: B.Thread, size: nat)
    ensures var u, q := B.TryReceive(s, t, size), s.queue;
      && u.queue == (if q == [] then [] else q[1..])
      && u.received == s.received +
           (if q == [] then [] else [B.Receipt(size, q[0].from, q[0].code, q[0].data[..Min(size, |q[0].data|)])])
  {
  }

  /** A thread's step leaves in the tables what it leaves in the queue of the port, and reads what it is given. */
  lemma OnPort(w: World, p: PortId, e: B.Step, node: Ptr, spare: Ptr)
    requires Coupled(w) && Enabled(w, On(p, e, node, spare))
    ensures var u := Apply(w, On(p, e, node, spare));
      && Inv(u.mem) && u.mem.ports.Keys == w.mem.ports.Keys && PortOk(u, p)
      && forall r {:trigger Queued(u.mem, r)} :: r in w.mem.ports && r != p ==> Queued(u.mem, r) == Queued(w.mem, r)
  {
    var s := w.ports[p];
    assert PortOk(w, p);
    B.StepInOrder(s, e);
    hide Inv, Queued, Put, Get, Reads, Spare, B.InOrder, B.TrySend, B.TryReceive, B.ValidRequest, Coupled;
    match e {
      case Send(t, r) =>
        PutOk(w.mem, p, r, node, spare);
        SendQueue(s, t, r);
      case SendAgain(t) =>
        PutOk(w.mem, p, s.asked[t], node, spare);
        SendQueue(s.(wokenSenders := s.wokenSenders - {t}), t, s.asked[t]);
      case Receive(t, size) =>
        GetOk(w.mem, p, size);
        ReceiveQueue(s, t, size);
      case ReceiveAgain(t) =>
        GetOk(w.mem, p, s.sizes[t]);
        ReceiveQueue(s.(wokenReceivers := s.wokenReceivers - {t}), t, s.sizes[t]);
      case SetNowait(on) =>
    }
  }

  lemma StepCoupled(w: World, e: Step)
    requires Coupled(w) && Enabled(w, e)
    ensures Coupled(Apply(w, e))
  {
    var u := Apply(w, e);
    match e {
      case Create(p) => CreateOk(w.mem, p);
      case On(p, b, node, spare) => OnPort(w, p, b, node, spare);
    }
    Others(w, u, e.p);
  }

  lemma Others(w: World, u: World, p: PortId)
    requires Coupled(w) && Inv(u.mem) && PortOk(u, p) && u.mem.ports.Keys == w.mem.ports.Keys + {p}
    requires p in u.ports && u.ports == w.ports[p := u.ports[p]] && p in u.got && u.got == w.got[p := u.got[p]]
    requires forall r {:trigger Queued(u.mem, r)} :: r in w.mem.ports && r != p ==> Queued(u.mem, r) == Queued(w.mem, r)
    ensures Coupled(u)
  {
    hide Inv, Queued, B.InOrder;
    forall r | r in u.mem.ports ensures PortOk(u, r) {
      if r != p { assert PortOk(w, r); }
    }
  }

  lemma {:induction false} RunCoupled(w: World, run: seq<Step>)
    requires Coupled(w) && Legal(w, run)
    ensures Coupled(After(w, run))
    decreases |run|
  {
    if run != [] {
      StepCoupled(w, run[0]);
      RunCoupled(Apply(w, run[0]), run[1..]);
    }
  }

  // ---------------------------------------------------------------- delivery

  /** What a port gave, read out of the tables, and what the tables still hold make up what it accepted, in order
      and once each; a message is only ever cut to the size asked for. */
  ghost predicate Delivered(w: World, p: PortId)
    requires Inv(w.mem)
  {
    && p in w.ports && p in w.got && p in w.mem.ports
    && var accepted, got := w.ports[p].accepted, w.got[p];
       && |got| <= |accepted| && Queued(w.mem, p) == accepted[|got|..]
       && forall i {:trigger got[i]} :: 0 <= i < |got| ==> B.Cut(got[i], accepted[i])
  }

  /** The buffers of two messages that wait are two buffers, and neither is in the pool. */
  ghost predicate Apart(m: Memory, n: Ptr, k: Ptr) {
    && n in m.nodes && k in m.nodes && n != k
    && (m.nodes[n].size > 0 ==> m.nodes[n].data !in m.pooled)
    && (m.nodes[n].size > 0 && m.nodes[k].size > 0 ==> m.nodes[n].data != m.nodes[k].data)
  }

  lemma QueuedApart(m: Memory, p: PortId, i: int, r: PortId, j: int)
    requires Inv(m) && p in m.ports && r in m.ports && (p != r || i != j)
    requires 0 <= i < |m.chains[p]| && 0 <= j < |m.chains[r]|
    ensures Apart(m, m.chains[p][i], m.chains[r][j])
  {
    MessagesNeverAlias(m, p, i, r, j);
    var x := m.nodes[m.chains[p][i]];
    forall k | 0 <= k < |m.pooled| ensures x.size > 0 ==> x.data != m.pooled[k] { PoolNeverAliases(m, p, i, k); }
  }

  /** In every run of sends, receives and new ports, on every port at once: the messages come out of the tables
      whole, in order and once each, and no two messages that wait share a buffer with each other or the pool. */
  lemma DeliveryInMemory(run: seq<Step>)
    requires Legal(EMPTY, run)
    ensures var w := After(EMPTY, run);
      && Inv(w.mem)
      && (forall p {:trigger Delivered(w, p)} :: p in w.mem.ports ==> Delivered(w, p))
      && (forall p, i, r, j {:trigger w.mem.chains[p][i], w.mem.chains[r][j]} ::
            p in w.mem.ports && r in w.mem.ports && (p != r || i != j)
            && 0 <= i < |w.mem.chains[p]| && 0 <= j < |w.mem.chains[r]| ==>
              Apart(w.mem, w.mem.chains[p][i], w.mem.chains[r][j]))
  {
    RunCoupled(EMPTY, run);
    var w := After(EMPTY, run);
    hide Legal, After, Apply;
    forall p | p in w.mem.ports ensures Delivered(w, p) { assert PortOk(w, p); }
    forall p, i, r, j | p in w.mem.ports && r in w.mem.ports && (p != r || i != j)
                        && 0 <= i < |w.mem.chains[p]| && 0 <= j < |w.mem.chains[r]|
      ensures Apart(w.mem, w.mem.chains[p][i], w.mem.chains[r][j])
    {
      QueuedApart(w.mem, p, i, r, j);
    }
  }
}
