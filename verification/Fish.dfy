/** Fish that swim from tank to tank. A tank offers a fish to a neighbour, the neighbour acknowledges, and the
    tank then lets go of the fish and sends it over. Offers and acknowledgements may be lost, repeated or
    late; the packet that carries the fish may be lost or late. Every tank on the network sees every packet but
    those it sent itself. */
module Fish {

  type TankId = nat
  type Key = nat
  type Soul = nat
  type Uid = nat
  type SyncId = nat

  /** Packets carry one byte for each coordinate. */
  type Byte = n: int | 0 <= n < 256

  datatype Addr = Addr(x: Byte, y: Byte)

  datatype Mood = Dead | Live | Xmit

  /** `soul` tells which fish this is a copy of; the program itself only has uids, and two fish may have the same. */
  datatype Fish = Fish(soul: Soul, uid: Uid, state: Mood)

  /** The fish of a tank, and the order of its list. */
  datatype Tank = Tank(addr: Addr, order: seq<Key>, fish: map<Key, Fish>)

  datatype Packet = Offer(src: Addr, dst: Addr, uid: Uid) | Ack(src: Addr, dst: Addr, uid: Uid)

  /** A packet, and the tank that put it on the wire. */
  datatype Sent = Sent(from: TankId, p: Packet)

  /** A fish on its way from a tank; `unseen` are the tanks that have not looked at the packet yet. */
  datatype Sync = Sync(from: TankId, dst: Addr, soul: Soul, unseen: set<TankId>)

  /** `sent` holds every offer and acknowledgement ever sent, any of which may arrive at any time. `may` holds
      the addresses that each tank's user may ever move it to. */
  datatype State = State(tanks: map<TankId, Tank>, sent: set<Sent>, syncs: map<SyncId, Sync>, souls: set<Soul>,
                         may: map<TankId, set<Addr>>)

  datatype Search = Nobody | Somebody(key: Key)

  // ---------------------------------------------------------------- one tank

  function Added(t: Tank, k: Key, f: Fish): Tank {
    t.(order := [k] + t.order, fish := t.fish[k := f])
  }

  function InMood(t: Tank, k: Key, m: Mood): Tank
    requires k in t.fish
  {
    t.(fish := t.fish[k := t.fish[k].(state := m)])
  }

  predicate Matches(t: Tank, k: Key, uid: Uid) {
    k in t.fish && t.fish[k].state == Xmit && t.fish[k].uid == uid
  }

  /** The first fish of the list that is being offered under this uid. */
  ghost function FirstOffered(t: Tank, order: seq<Key>, uid: Uid): (r: Search)
    ensures r.Somebody? ==> r.key in order && Matches(t, r.key, uid)
    ensures r.Nobody? ==> forall k :: k in order ==> !Matches(t, k, uid)
  {
    if order == [] then Nobody
    else if Matches(t, order[0], uid) then Somebody(order[0])
    else FirstOffered(t, order[1..], uid)
  }

  /** Takes the fish at a place of the list off it. */
  function Expired(t: Tank, i: nat): Tank
    requires i < |t.order|
  {
    t.(order := t.order[..i] + t.order[i + 1..], fish := t.fish - {t.order[i]})
  }

  /** One step apart; a coordinate of -1 or 256 is sent as 255 or 0. */
  ghost predicate Beside(m: Byte, n: Byte) {
    n == (m + 1) % 256 || m == (n + 1) % 256
  }

  ghost predicate Neighbours(a: Addr, b: Addr) {
    (a.y == b.y && Beside(a.x, b.x)) || (a.x == b.x && Beside(a.y, b.y))
  }

  // ---------------------------------------------------------------- steps

  datatype Step =
    | Spawn(t: TankId, key: Key, soul: Soul, uid: Uid)    // a new fish
    | MakeOffer(t: TankId, key: Key, home: Addr, at: Addr) // a fish at the edge is offered to a neighbour
    | Timeout(t: TankId, key: Key)                        // an offer nobody took
    | GetOffer(t: TankId, m: Sent)
    | GetAck(t: TankId, m: Sent, sync: SyncId)
    | GetSync(t: TankId, sync: SyncId, key: Key, uid: Uid)
    | Expire(t: TankId, i: nat)                           // a dead fish is taken off the list
    | Relocate(t: TankId, at: Addr)                       // the user moves the tank

  ghost predicate Enabled(s: State, e: Step) {
    && e.t in s.tanks && e.t in s.may
    && var x := s.tanks[e.t];
       match e
       case Spawn(t, key, soul, uid) => key !in x.fish && soul !in s.souls
       case MakeOffer(t, key, home, at) => key in x.fish && x.fish[key].state == Live && home in s.may[t]
         && Neighbours(home, at)
       case Timeout(t, key) => key in x.fish && x.fish[key].state == Xmit
       case GetOffer(t, m) => m in s.sent && m.from != t && m.p.Offer?
       case GetAck(t, m, sync) => m in s.sent && m.from != t && m.p.Ack? && sync !in s.syncs
       case GetSync(t, sync, key, uid) => sync in s.syncs && t in s.syncs[sync].unseen && key !in x.fish
       case Expire(t, i) => 0 < i < |x.order| && x.order[i] in x.fish && x.fish[x.order[i]].state == Dead
       case Relocate(t, at) => at in s.may[t]
  }

  ghost function With(s: State, t: TankId, x: Tank): State { s.(tanks := s.tanks[t := x]) }

  ghost function Apply(s: State, e: Step): State
    requires Enabled(s, e)
  {
    var x := s.tanks[e.t];
    match e
    case Spawn(t, key, soul, uid) => With(s, t, Added(x, key, Fish(soul, uid, Live))).(souls := s.souls + {soul})
    case MakeOffer(t, key, home, at) =>
      With(s, t, InMood(x, key, Xmit)).(sent := s.sent + {Sent(t, Offer(x.addr, at, x.fish[key].uid))})
    case Timeout(t, key) => With(s, t, InMood(x, key, Live))
    case GetOffer(t, m) =>
      if m.p.dst == x.addr then s.(sent := s.sent + {Sent(t, Ack(x.addr, m.p.src, m.p.uid))}) else s
    case GetAck(t, m, sync) =>
      var found := FirstOffered(x, x.order, m.p.uid);
      if m.p.dst != x.addr || found.Nobody? then s
      else
        var packet := Sync(t, m.p.src, x.fish[found.key].soul, s.tanks.Keys - {t});
        With(s, t, InMood(x, found.key, Dead)).(syncs := s.syncs[sync := packet])
    case GetSync(t, sync, key, uid) =>
      var y := s.syncs[sync];
      var seen := s.(syncs := s.syncs[sync := y.(unseen := y.unseen - {t})]);
      if y.dst == x.addr then With(seen, t, Added(x, key, Fish(y.soul, uid, Live))) else seen
    case Expire(t, i) => With(s, t, Expired(x, i))
    case Relocate(t, at) => With(s, t, x.(addr := at))
  }

  // ---------------------------------------------------------------- copies

  /** Where a copy of a fish can be: in a tank, or in a packet that some tank can still take it from. */
  datatype Place = InTank(t: TankId, k: Key) | InFlight(sync: SyncId)

  /** Some tank has not looked at the packet, and has or can get its address. */
  ghost predicate Open(s: State, i: SyncId) {
    i in s.syncs && exists t :: t in s.syncs[i].unseen && t in s.may && s.syncs[i].dst in s.may[t]
  }

  ghost predicate Copy(s: State, p: Place, soul: Soul) {
    match p
    case InTank(t, k) => t in s.tanks && k in s.tanks[t].fish && s.tanks[t].fish[k].state != Dead
      && s.tanks[t].fish[k].soul == soul
    case InFlight(i) => Open(s, i) && s.syncs[i].soul == soul
  }

  ghost predicate AtMostOne(s: State) {
    forall p, q, soul {:trigger Copy(s, p, soul), Copy(s, q, soul)} :: Copy(s, p, soul) && Copy(s, q, soul) ==> p == q
  }

  /** The tank may have an address next to this one. */
  ghost predicate NextTo(may: map<TankId, set<Addr>>, r: TankId, d: Addr) {
    r in may && exists x :: x in may[r] && Neighbours(x, d)
  }

  /** The tank may come to send a fish to this address: some tank, itself or another whose address it may have, may
      make an offer there. */
  ghost predicate Sends(may: map<TankId, set<Addr>>, t: TankId, d: Addr) {
    t in may && exists r, y :: r in may && y in may[r] && y in may[t] && NextTo(may, r, d)
  }

  /** No address that two tanks may have is one that a third tank may send a fish to. */
  ghost predicate Clear(may: map<TankId, set<Addr>>) {
    forall t, b, c, d {:trigger Sends(may, t, d), d in may[b], d in may[c]} ::
      Sends(may, t, d) && b in may && c in may && t != b && t != c && b != c && d in may[b] ==> d !in may[c]
  }

  ghost predicate SentOk(may: map<TankId, set<Addr>>, m: Sent) {
    match m.p
    case Offer(src, dst, uid) => m.from in may && src in may[m.from] && NextTo(may, m.from, dst)
    case Ack(src, dst, uid) => exists r :: r in may && dst in may[r] && NextTo(may, r, src)
  }

  ghost predicate SyncOk(s: State, y: Sync) {
    Sends(s.may, y.from, y.dst) && y.from !in y.unseen && y.soul in s.souls
  }

  ghost predicate Inv(s: State) {
    && AtMostOne(s) && s.tanks.Keys == s.may.Keys
    && (forall t {:trigger s.tanks[t]} :: t in s.tanks ==> s.tanks[t].addr in s.may[t])
    && (forall m {:trigger SentOk(s.may, m)} :: m in s.sent ==> SentOk(s.may, m))
    && (forall i {:trigger s.syncs[i]} :: i in s.syncs ==> SyncOk(s, s.syncs[i]))
    && (forall t, k {:trigger s.tanks[t].fish[k]} :: t in s.tanks && k in s.tanks[t].fish ==>
          s.tanks[t].fish[k].soul in s.souls)
  }

  // ---------------------------------------------------------------- what every step keeps

  /** No copy appears. */
  lemma Fewer(s: State, u: State)
    requires AtMostOne(s) && forall p, x {:trigger Copy(u, p, x)} :: Copy(u, p, x) ==> Copy(s, p, x)
    ensures AtMostOne(u)
  {
  }

  /** One copy moves. */
  lemma Moved(s: State, u: State, here: Place, there: Place, soul: Soul)
    requires AtMostOne(s) && Copy(s, here, soul)
    requires forall p, x {:trigger Copy(u, p, x)} :: Copy(u, p, x) ==>
      (p == there && x == soul) || (p != here && Copy(s, p, x))
    ensures AtMostOne(u)
  {
  }

  /** A fish with a new soul appears. */
  lemma Appeared(s: State, u: State, there: Place, soul: Soul)
    requires AtMostOne(s) && forall p {:trigger Copy(s, p, soul)} :: !Copy(s, p, soul)
    requires forall p, x {:trigger Copy(u, p, x)} :: Copy(u, p, x) ==> (p == there && x == soul) || Copy(s, p, x)
    ensures AtMostOne(u)
  {
  }

  /** What Inv says besides. */
  lemma Rest(s: State, u: State)
    requires Inv(s) && AtMostOne(u) && u.may == s.may && s.souls <= u.souls && u.tanks.Keys == s.tanks.Keys
    requires forall t {:trigger u.tanks[t]} :: t in u.tanks ==> u.tanks[t].addr in u.may[t]
    requires forall m :: m in u.sent ==> m in s.sent || SentOk(s.may, m)
    requires forall i :: i in u.syncs ==> SyncOk(u, u.syncs[i])
    requires forall t, k {:trigger u.tanks[t].fish[k]} ::
      t in u.tanks && k in u.tanks[t].fish ==> u.tanks[t].fish[k].soul in u.souls
    ensures Inv(u)
  {
    forall m | m in u.sent ensures SentOk(u.may, m) { assert SentOk(s.may, m); }
  }

  /** A packet that is open after a step was open before it, if the step only looked at it. */
  lemma SameOpen(s: State, u: State, p: Place)
    requires u.may == s.may
    requires p.InFlight? ==>
      && p.sync in u.syncs && p.sync in s.syncs && u.syncs[p.sync].dst == s.syncs[p.sync].dst
      && u.syncs[p.sync].unseen <= s.syncs[p.sync].unseen
    ensures p.InFlight? && Open(u, p.sync) ==> Open(s, p.sync)
  {
    if p.InFlight? && Open(u, p.sync) {
      var t :| t in u.syncs[p.sync].unseen && t in u.may && u.syncs[p.sync].dst in u.may[t];
      assert t in s.syncs[p.sync].unseen;
    }
  }

  lemma SpawnKeeps(s: State, t: TankId, key: Key, soul: Soul, uid: Uid)
    requires Inv(s) && Enabled(s, Spawn(t, key, soul, uid))
    ensures Inv(Apply(s, Spawn(t, key, soul, uid)))
  {
    var u := Apply(s, Spawn(t, key, soul, uid));
    forall p ensures !Copy(s, p, soul) {
      if p.InFlight? { assert p.sync in s.syncs ==> s.syncs[p.sync].soul != soul; }
    }
    forall p, x | Copy(u, p, x) ensures (p == InTank(t, key) && x == soul) || Copy(s, p, x) { SameOpen(s, u, p); }
    Appeared(s, u, InTank(t, key), soul);
    Rest(s, u);
  }

  /** A fish between live and offered stays the copy it was. */
  lemma MoodKeeps(s: State, u: State, t: TankId, key: Key, m: Mood)
    requires Inv(s) && t in s.tanks && key in s.tanks[t].fish && s.tanks[t].fish[key].state != Dead && m != Dead
    requires u.tanks == s.tanks[t := InMood(s.tanks[t], key, m)] && u.syncs == s.syncs && u.souls == s.souls
      && u.may == s.may
    requires forall m :: m in u.sent ==> m in s.sent || SentOk(s.may, m)
    ensures Inv(u)
  {
    forall p, x | Copy(u, p, x) ensures Copy(s, p, x) { SameOpen(s, u, p); }
    Fewer(s, u);
    Rest(s, u);
  }

  lemma OfferKeeps(s: State, t: TankId, key: Key, home: Addr, at: Addr)
    requires Inv(s) && Enabled(s, MakeOffer(t, key, home, at))
    ensures Inv(Apply(s, MakeOffer(t, key, home, at)))
  {
    assert s.tanks[t].addr in s.may[t] && NextTo(s.may, t, at);
    MoodKeeps(s, Apply(s, MakeOffer(t, key, home, at)), t, key, Xmit);
  }

  lemma GetOfferKeeps(s: State, t: TankId, m: Sent)
    requires Inv(s) && Enabled(s, GetOffer(t, m))
    ensures Inv(Apply(s, GetOffer(t, m)))
  {
    var u := Apply(s, GetOffer(t, m));
    assert SentOk(s.may, m) && (m.p.dst == s.tanks[t].addr ==> SentOk(s.may, Sent(t, Ack(m.p.dst, m.p.src, m.p.uid))));
    forall q, x | Copy(u, q, x) ensures Copy(s, q, x) { SameOpen(s, u, q); }
    Fewer(s, u);
    Rest(s, u);
  }

  lemma MaySend(s: State, t: TankId, m: Sent)
    requires Inv(s) && t in s.tanks && m in s.sent && m.p.Ack? && m.p.dst == s.tanks[t].addr
    ensures Sends(s.may, t, m.p.src)
  {
    assert SentOk(s.may, m);
    var r :| r in s.may && m.p.dst in s.may[r] && NextTo(s.may, r, m.p.src);
    assert m.p.dst in s.may[t];
  }

  /** The fish leaves the list as it enters the packet. */
  lemma GetAckKeeps(s: State, t: TankId, m: Sent, sync: SyncId)
    requires Inv(s) && Enabled(s, GetAck(t, m, sync))
    ensures Inv(Apply(s, GetAck(t, m, sync)))
  {
    var u, x := Apply(s, GetAck(t, m, sync)), s.tanks[t];
    var found := FirstOffered(x, x.order, m.p.uid);
    if m.p.dst == x.addr && found.Somebody? {
      MaySend(s, t, m);
      var soul := x.fish[found.key].soul;
      assert Copy(s, InTank(t, found.key), soul);
      forall q, y | Copy(u, q, y)
        ensures (q == InFlight(sync) && y == soul) || (q != InTank(t, found.key) && Copy(s, q, y))
      {
        if q.InFlight? && q.sync != sync { SameOpen(s, u, q); }
      }
      Moved(s, u, InTank(t, found.key), InFlight(sync), soul);
      Rest(s, u);
    }
  }

  /** The one tank that may take the fish out of the packet does. */
  lemma Taken(s: State, t: TankId, sync: SyncId, key: Key, uid: Uid)
    requires Inv(s) && Enabled(s, GetSync(t, sync, key, uid)) && s.syncs[sync].dst == s.tanks[t].addr
    requires forall r :: r in s.may && r in s.syncs[sync].unseen && r != t ==> s.syncs[sync].dst !in s.may[r]
    ensures Inv(Apply(s, GetSync(t, sync, key, uid)))
  {
    var u, y := Apply(s, GetSync(t, sync, key, uid)), s.syncs[sync];
    assert !Open(u, sync) && Copy(s, InFlight(sync), y.soul);
    forall q, z | Copy(u, q, z)
      ensures (q == InTank(t, key) && z == y.soul) || (q != InFlight(sync) && Copy(s, q, z))
    {
      if q.InFlight? { SameOpen(s, u, q); }
    }
    Moved(s, u, InFlight(sync), InTank(t, key), y.soul);
    Rest(s, u);
  }

  lemma PassedOn(s: State, t: TankId, sync: SyncId, key: Key, uid: Uid)
    requires Inv(s) && Enabled(s, GetSync(t, sync, key, uid)) && s.syncs[sync].dst != s.tanks[t].addr
    ensures Inv(Apply(s, GetSync(t, sync, key, uid)))
  {
    var u := Apply(s, GetSync(t, sync, key, uid));
    forall q, z | Copy(u, q, z) ensures Copy(s, q, z) { SameOpen(s, u, q); }
    Fewer(s, u);
    Rest(s, u);
  }

  lemma GetSyncKeeps(s: State, t: TankId, sync: SyncId, key: Key, uid: Uid)
    requires Inv(s) && Clear(s.may) && Enabled(s, GetSync(t, sync, key, uid))
    ensures Inv(Apply(s, GetSync(t, sync, key, uid)))
  {
    hide Inv, Clear, Apply;
    if s.syncs[sync].dst == s.tanks[t].addr {
      OnlyTaker(s, t, sync);
      Taken(s, t, sync, key, uid);
    } else {
      PassedOn(s, t, sync, key, uid);
    }
  }

  lemma OnlyTaker(s: State, t: TankId, sync: SyncId)
    requires Inv(s) && Clear(s.may) && sync in s.syncs && t in s.tanks && t in s.syncs[sync].unseen
    requires s.tanks[t].addr == s.syncs[sync].dst
    ensures forall r :: r in s.may && r in s.syncs[sync].unseen && r != t ==> s.syncs[sync].dst !in s.may[r]
  {
    var y := s.syncs[sync];
    assert SyncOk(s, y) && y.dst in s.may[t];
    forall r | r in s.may && r in y.unseen && r != t ensures y.dst !in s.may[r] {
      assert Sends(s.may, y.from, y.dst);
    }
  }

  lemma ExpireKeeps(s: State, t: TankId, i: nat)
    requires Inv(s) && Enabled(s, Expire(t, i))
    ensures Inv(Apply(s, Expire(t, i)))
  {
    var u := Apply(s, Expire(t, i));
    forall q, x | Copy(u, q, x) ensures Copy(s, q, x) { SameOpen(s, u, q); }
    Fewer(s, u);
    Rest(s, u);
  }

  /** A dead fish that is taken off the list is gone from the tank; every other fish stays, in its place in the order,
      and no copy of any fish comes or goes. */
  lemma Expires(s: State, t: TankId, i: nat)
    requires Enabled(s, Expire(t, i))
    requires var q := s.tanks[t].order; forall j, k :: 0 <= j < k < |q| ==> q[j] != q[k]
    ensures var u, x := Apply(s, Expire(t, i)), s.tanks[t];
      && t in u.tanks && x.order[i] !in u.tanks[t].fish && x.order[i] !in u.tanks[t].order
      && u.tanks[t].fish.Keys == x.fish.Keys - {x.order[i]} && |u.tanks[t].order| == |x.order| - 1
      && (forall j :: 0 <= j < |x.order| && j != i ==> x.order[j] == u.tanks[t].order[if j < i then j else j - 1])
      && (forall p, soul {:trigger Copy(u, p, soul)} :: Copy(u, p, soul) <==> Copy(s, p, soul))
  {
    var u := Apply(s, Expire(t, i));
    forall p, soul ensures Copy(u, p, soul) <==> Copy(s, p, soul) {
      if p.InFlight? { assert Open(u, p.sync) <==> Open(s, p.sync); }
    }
  }

  lemma TimeoutKeeps(s: State, t: TankId, key: Key)
    requires Inv(s) && Enabled(s, Timeout(t, key))
    ensures Inv(Apply(s, Timeout(t, key)))
  {
    MoodKeeps(s, Apply(s, Timeout(t, key)), t, key, Live);
  }

  lemma RelocateKeeps(s: State, t: TankId, at: Addr)
    requires Inv(s) && Enabled(s, Relocate(t, at))
    ensures Inv(Apply(s, Relocate(t, at)))
  {
    var u := Apply(s, Relocate(t, at));
    forall q, x | Copy(u, q, x) ensures Copy(s, q, x) { SameOpen(s, u, q); }
    Fewer(s, u);
    Rest(s, u);
  }

  lemma StepKeeps(s: State, e: Step)
    requires Inv(s) && Clear(s.may) && Enabled(s, e)
    ensures Inv(Apply(s, e)) && Apply(s, e).may == s.may
  {
    StepMay(s, e);
    hide Apply, Inv, Enabled;
    match e
    case Spawn(t, key, soul, uid) => SpawnKeeps(s, t, key, soul, uid);
    case MakeOffer(t, key, home, at) => OfferKeeps(s, t, key, home, at);
    case Timeout(t, key) => TimeoutKeeps(s, t, key);
    case GetOffer(t, m) => GetOfferKeeps(s, t, m);
    case GetAck(t, m, sync) => GetAckKeeps(s, t, m, sync);
    case GetSync(t, sync, key, uid) => GetSyncKeeps(s, t, sync, key, uid);
    case Expire(t, i) => ExpireKeeps(s, t, i);
    case Relocate(t, at) => RelocateKeeps(s, t, at);
  }

  lemma StepMay(s: State, e: Step)
    requires Enabled(s, e)
    ensures Apply(s, e).may == s.may
  {
  }

  // ---------------------------------------------------------------- whole runs

  ghost predicate Legal(s: State, run: seq<Step>)
    decreases |run|
  {
    run != [] ==> Enabled(s, run[0]) && Legal(Apply(s, run[0]), run[1..])
  }

  ghost function After(s: State, run: seq<Step>): State
    requires Legal(s, run)
    decreases |run|
  {
    if run == [] then s else After(Apply(s, run[0]), run[1..])
  }

  lemma {:induction false} RunKeeps(s: State, run: seq<Step>)
    requires Inv(s) && Clear(s.may) && Legal(s, run)
    ensures Inv(After(s, run))
    decreases |run|
  {
    if run != [] {
      hide Apply, Inv, Enabled;
      StepKeeps(s, run[0]);
      RunKeeps(Apply(s, run[0]), run[1..]);
    }
  }

  /** Each tank starts at an address that it may have. */
  ghost predicate Housed(may: map<TankId, set<Addr>>, addrs: map<TankId, Addr>) {
    addrs.Keys == may.Keys && forall t {:trigger may[t]} :: t in may ==> addrs[t] in may[t]
  }

  /** Empty tanks at these addresses. */
  ghost function Init(may: map<TankId, set<Addr>>, addrs: map<TankId, Addr>): State {
    State(map t | t in addrs :: Tank(addrs[t], [], map[]), {}, map[], {}, may)
  }

  /** If no address that two tanks may have is one that a third may send a fish to, a fish never has two copies. */
  lemma NeverTwice(may: map<TankId, set<Addr>>, addrs: map<TankId, Addr>, run: seq<Step>)
    requires Clear(may) && Housed(may, addrs) && Legal(Init(may, addrs), run)
    ensures AtMostOne(After(Init(may, addrs), run))
  {
    hide Legal, After, Apply, Enabled, Clear;
    RunKeeps(Init(may, addrs), run);
  }

  // ---------------------------------------------------------------- a fish that gets across

  /** The only fish that a tank's list has on offer, or may have, under its uid. */
  ghost predicate OnlyOne(x: Tank, k: Key) {
    && k in x.fish && k in x.order && x.fish[k].state != Dead
    && forall j :: j in x.order && j != k ==> !Matches(x, j, x.fish[k].uid)
  }

  /** The offer, its answer, the packet and its arrival, one after the other. */
  lemma Crosses(s: State, a: TankId, k: Key, b: TankId, sync: SyncId, key: Key, uid: Uid)
    returns (s1: State, s2: State, s3: State, s4: State)
    requires Inv(s) && a in s.tanks && b in s.tanks && a != b && Neighbours(s.tanks[a].addr, s.tanks[b].addr)
    requires OnlyOne(s.tanks[a], k) && s.tanks[a].fish[k].state == Live && sync !in s.syncs && key !in s.tanks[b].fish
    ensures var x, y, n := s.tanks[a].addr, s.tanks[b].addr, s.tanks[a].fish[k].uid;
      var e1, e2 := MakeOffer(a, k, x, y), GetOffer(b, Sent(a, Offer(x, y, n)));
      var e3, e4 := GetAck(a, Sent(b, Ack(y, x, n)), sync), GetSync(b, sync, key, uid);
      && Enabled(s, e1) && s1 == Apply(s, e1) && Enabled(s1, e2) && s2 == Apply(s1, e2)
      && Enabled(s2, e3) && s3 == Apply(s2, e3) && Enabled(s3, e4) && s4 == Apply(s3, e4)
    ensures a in s4.tanks && k in s4.tanks[a].fish && s4.tanks[a].fish[k].state == Dead
    ensures b in s4.tanks && key in s4.tanks[b].fish
      && s4.tanks[b].fish[key] == Fish(s.tanks[a].fish[k].soul, uid, Live)
  {
    var x, y, n := s.tanks[a].addr, s.tanks[b].addr, s.tanks[a].fish[k].uid;
    assert x in s.may[a] && a in s.may && b in s.may;
    hide Inv, Neighbours;
    s1 := Apply(s, MakeOffer(a, k, x, y));
    s2 := Apply(s1, GetOffer(b, Sent(a, Offer(x, y, n))));
    var t := s2.tanks[a];
    assert Matches(t, k, n) && forall j :: j in t.order && j != k ==> !Matches(t, j, n);
    s3 := Apply(s2, GetAck(a, Sent(b, Ack(y, x, n)), sync));
    s4 := Apply(s3, GetSync(b, sync, key, uid));
  }

  /** A fish whose offer nobody took is live again, is offered again, and gets across to a neighbour: the other tank
      then has it, and the tank it came from has let it go. */
  lemma GetsAcross(s: State, a: TankId, k: Key, b: TankId, sync: SyncId, key: Key, uid: Uid)
    returns (run: seq<Step>)
    requires Inv(s) && a in s.tanks && b in s.tanks && a != b && Neighbours(s.tanks[a].addr, s.tanks[b].addr)
    requires OnlyOne(s.tanks[a], k) && sync !in s.syncs && key !in s.tanks[b].fish
    ensures Legal(s, run) && var u := After(s, run);
      && a in u.tanks && k in u.tanks[a].fish && u.tanks[a].fish[k].state == Dead
      && b in u.tanks && key in u.tanks[b].fish
      && u.tanks[b].fish[key] == Fish(s.tanks[a].fish[k].soul, uid, Live)
  {
    run := [];
    if s.tanks[a].fish[k].state == Xmit {
      TimeoutKeeps(s, a, k);
      Joined(s, run, Timeout(a, k));
      run := run + [Timeout(a, k)];
    }
    var s0 := After(s, run);
    var x, y, n := s0.tanks[a].addr, s0.tanks[b].addr, s0.tanks[a].fish[k].uid;
    assert OnlyOne(s0.tanks[a], k);
    hide Inv, Apply, Enabled, Neighbours, Legal, After;
    var s1, s2, s3, s4 := Crosses(s0, a, k, b, sync, key, uid);
    Joined(s, run, MakeOffer(a, k, x, y));
    run := run + [MakeOffer(a, k, x, y)];
    Joined(s, run, GetOffer(b, Sent(a, Offer(x, y, n))));
    run := run + [GetOffer(b, Sent(a, Offer(x, y, n)))];
    Joined(s, run, GetAck(a, Sent(b, Ack(y, x, n)), sync));
    run := run + [GetAck(a, Sent(b, Ack(y, x, n)), sync)];
    Joined(s, run, GetSync(b, sync, key, uid));
    run := run + [GetSync(b, sync, key, uid)];
  }

  // ---------------------------------------------------------------- two tanks that take one fish

  ghost predicate AllApart(s: State) {
    forall t, r :: t in s.tanks && r in s.tanks && t != r ==> s.tanks[t].addr != s.tanks[r].addr
  }

  /** At no time of the run do two tanks have the same address. */
  ghost predicate ApartThroughout(s: State, run: seq<Step>)
    requires Legal(s, run)
    decreases |run|
  {
    AllApart(s) && (run != [] ==> ApartThroughout(Apply(s, run[0]), run[1..]))
  }

  lemma {:induction false} Joined(s: State, run: seq<Step>, e: Step)
    requires Legal(s, run) && Enabled(After(s, run), e)
    ensures Legal(s, run + [e]) && After(s, run + [e]) == Apply(After(s, run), e)
    ensures ApartThroughout(s, run) && AllApart(Apply(After(s, run), e)) ==> ApartThroughout(s, run + [e])
    decreases |run|
  {
    hide Apply, Enabled, AllApart;
    if run == [] {
      assert [e][1..] == [] && run + [e] == [e];
    } else {
      Joined(Apply(s, run[0]), run[1..], e);
      assert (run + [e])[1..] == run[1..] + [e];
    }
  }

  ghost predicate SameAddrs(s: State, addrs: map<TankId, Addr>) {
    s.tanks.Keys == addrs.Keys && forall t {:trigger s.tanks[t]} :: t in addrs ==> s.tanks[t].addr == addrs[t]
  }

  ghost predicate Injective(addrs: map<TankId, Addr>) {
    forall t, r :: t in addrs && r in addrs && t != r ==> addrs[t] != addrs[r]
  }

  lemma InjectiveApart(s: State, addrs: map<TankId, Addr>)
    requires SameAddrs(s, addrs) && Injective(addrs)
    ensures AllApart(s)
  {
  }

  function Beyond(a: Addr): Addr { Addr((a.x + 1) % 256, a.y) }

  /** Nothing is on its way, and no tank has a fish under the key 2. */
  ghost predicate Quiet(s: State, may: map<TankId, set<Addr>>, addrs: map<TankId, Addr>) {
    && s.may == may && SameAddrs(s, addrs) && s.syncs == map[]
    && forall t {:trigger s.tanks[t]} :: t in addrs ==> 2 !in s.tanks[t].fish
  }

  /** A fish is born in a tank under a key that is new to it, and offered to a neighbour of an address the tank may
      have. */
  lemma BornAndOffered(s: State, may: map<TankId, set<Addr>>, addrs: map<TankId, Addr>, t: TankId, k: Key, x: Addr,
                       d: Addr)
    returns (s1: State, s2: State)
    requires Quiet(s, may, addrs) && t in addrs && t in may && k < 2 && k !in s.tanks[t].fish && k !in s.souls
    requires x in may[t] && Neighbours(x, d)
    ensures var e1, e2 := Spawn(t, k, k, 0), MakeOffer(t, k, x, d);
      && Enabled(s, e1) && s1 == Apply(s, e1) && Enabled(s1, e2) && s2 == Apply(s1, e2)
      && SameAddrs(s1, addrs) && SameAddrs(s2, addrs) && Quiet(s2, may, addrs) && s2.souls == s.souls + {k}
    ensures Sent(t, Offer(addrs[t], d, 0)) in s2.sent && s.sent <= s2.sent
    ensures t in s2.tanks && k in s2.tanks[t].order && Matches(s2.tanks[t], k, 0)
    ensures forall r, j {:trigger j in s2.tanks[r].fish} :: r in addrs && (r, j) != (t, k) ==>
      (j in s2.tanks[r].fish <==> j in s.tanks[r].fish)
    ensures forall r, j {:trigger Matches(s2.tanks[r], j, 0)} :: r in addrs && j in s.tanks[r].order ==>
      j in s2.tanks[r].order && (Matches(s.tanks[r], j, 0) && j != k ==> Matches(s2.tanks[r], j, 0))
  {
    hide Apply, Enabled, Neighbours;
    s1, s2 := OfferSteps(s, t, k, x, d);
  }

  lemma OfferSteps(s: State, t: TankId, k: Key, x: Addr, d: Addr) returns (s1: State, s2: State)
    requires t in s.tanks && t in s.may && k !in s.tanks[t].fish && k !in s.souls && x in s.may[t] && Neighbours(x, d)
    ensures var e1, e2 := Spawn(t, k, k, 0), MakeOffer(t, k, x, d);
      Enabled(s, e1) && s1 == Apply(s, e1) && Enabled(s1, e2) && s2 == Apply(s1, e2)
    ensures s1.tanks == s.tanks[t := Added(s.tanks[t], k, Fish(k, 0, Live))]
    ensures s2 == s.(tanks := s.tanks[t := InMood(Added(s.tanks[t], k, Fish(k, 0, Live)), k, Xmit)],
                     sent := s.sent + {Sent(t, Offer(s.tanks[t].addr, d, 0))}, souls := s.souls + {k})
  {
    hide Neighbours;
    s1 := Apply(s, Spawn(t, k, k, 0));
    s2 := Apply(s1, MakeOffer(t, k, x, d));
  }

  /** A fish is on its way from t to d, and every other tank can still take it. */
  ghost predicate OnItsWay(s: State, may: map<TankId, set<Addr>>, addrs: map<TankId, Addr>, t: TankId, d: Addr) {
    && s.may == may && SameAddrs(s, addrs) && 0 in s.syncs
    && s.syncs == map[0 := Sync(t, d, s.syncs[0].soul, addrs.Keys - {t})]
    && forall r {:trigger s.tanks[r]} :: r in addrs ==> 2 !in s.tanks[r].fish
  }

  /** o answers an offer of r, and t, at the address of r, lets go of a fish it has on offer under the same uid. */
  lemma Answered(s: State, may: map<TankId, set<Addr>>, addrs: map<TankId, Addr>, t: TankId, r: TankId, o: TankId)
    returns (s1: State, s2: State)
    requires Quiet(s, may, addrs) && t in addrs && r in addrs && o in addrs && o != r && o != t
    requires addrs.Keys == may.Keys && addrs[r] == addrs[t] && Sent(r, Offer(addrs[r], addrs[o], 0)) in s.sent
    requires exists k :: k in s.tanks[t].order && Matches(s.tanks[t], k, 0)
    ensures var e1 := GetOffer(o, Sent(r, Offer(addrs[r], addrs[o], 0)));
      var e2 := GetAck(t, Sent(o, Ack(addrs[o], addrs[r], 0)), 0);
      && Enabled(s, e1) && s1 == Apply(s, e1) && Enabled(s1, e2) && s2 == Apply(s1, e2)
      && SameAddrs(s1, addrs) && SameAddrs(s2, addrs) && OnItsWay(s2, may, addrs, t, addrs[o])
  {
    var ack := Sent(o, Ack(addrs[o], addrs[r], 0));
    s1 := Apply(s, GetOffer(o, Sent(r, Offer(addrs[r], addrs[o], 0))));
    assert s1 == s.(sent := s.sent + {ack});
    s2 := LetGo(s1, may, addrs, t, ack);
  }

  lemma LetGo(s: State, may: map<TankId, set<Addr>>, addrs: map<TankId, Addr>, t: TankId, m: Sent) returns (u: State)
    requires Quiet(s, may, addrs) && t in addrs && addrs.Keys == may.Keys
    requires m in s.sent && m.from != t && m.p.Ack? && m.p.dst == addrs[t] && m.p.uid == 0
    requires exists k :: k in s.tanks[t].order && Matches(s.tanks[t], k, 0)
    ensures Enabled(s, GetAck(t, m, 0)) && u == Apply(s, GetAck(t, m, 0)) && OnItsWay(u, may, addrs, t, m.p.src)
  {
    var found := FirstOffered(s.tanks[t], s.tanks[t].order, 0);
    assert found.Somebody? && found.key in s.tanks[t].fish;
    hide FirstOffered;
    u := Apply(s, GetAck(t, m, 0));
  }

  /** The tanks after b has taken the fish that t sent to d; they may have moved since. */
  ghost predicate TakenBy(s: State, may: map<TankId, set<Addr>>, addrs: map<TankId, Addr>, t: TankId, d: Addr,
                          b: TankId)
  {
    && s.may == may && SameAddrs(s, addrs) && b in addrs && 0 in s.syncs
    && s.syncs == map[0 := Sync(t, d, s.syncs[0].soul, addrs.Keys - {t} - {b})]
    && (forall r {:trigger s.tanks[r]} :: r in addrs && r != b ==> 2 !in s.tanks[r].fish)
    && 2 in s.tanks[b].fish && s.tanks[b].fish[2] == Fish(s.syncs[0].soul, 0, Live)
  }

  lemma FirstTakes(s: State, may: map<TankId, set<Addr>>, addrs: map<TankId, Addr>, t: TankId, b: TankId)
    returns (u: State)
    requires b in addrs && b != t && addrs.Keys == may.Keys && OnItsWay(s, may, addrs, t, addrs[b])
    ensures var e := GetSync(b, 0, 2, 0); Enabled(s, e) && u == Apply(s, e) && TakenBy(u, may, addrs, t, addrs[b], b)
  {
    hide Neighbours;
    var y := s.syncs[0].(unseen := s.syncs[0].unseen - {b});
    assert y.dst == s.tanks[b].addr && s.syncs[0 := y] == map[0 := y];
    u := Apply(s, GetSync(b, 0, 2, 0));
  }

  lemma Moves(s: State, may: map<TankId, set<Addr>>, addrs: map<TankId, Addr>, t: TankId, d: Addr, b: TankId,
              r: TankId, at: Addr)
    returns (u: State)
    requires TakenBy(s, may, addrs, t, d, b) && r in addrs && r in may && at in may[r]
    ensures Enabled(s, Relocate(r, at)) && u == Apply(s, Relocate(r, at)) && TakenBy(u, may, addrs[r := at], t, d, b)
  {
    u := Apply(s, Relocate(r, at));
    assert addrs[r := at].Keys == addrs.Keys;
  }

  lemma SecondTakes(s: State, may: map<TankId, set<Addr>>, addrs: map<TankId, Addr>, t: TankId, d: Addr, b: TankId,
                    c: TankId)
    returns (u: State)
    requires TakenBy(s, may, addrs, t, d, b) && c in addrs && c in may && c != b && c != t && addrs[c] == d
    ensures var e := GetSync(c, 0, 2, 0); Enabled(s, e) && u == Apply(s, e) && SameAddrs(u, addrs) && !AtMostOne(u)
  {
    u := Apply(s, GetSync(c, 0, 2, 0));
    assert Copy(u, InTank(b, 2), s.syncs[0].soul) && Copy(u, InTank(c, 2), s.syncs[0].soul);
  }

  lemma TakesAndMoves(s: State, may: map<TankId, set<Addr>>, addrs: map<TankId, Addr>,
                      t: TankId, b: TankId, c: TankId, f: Addr)
    returns (s1: State, s2: State, s3: State, s4: State)
    requires addrs.Keys == may.Keys && b in addrs && c in addrs && b != c && b != t && c != t
    requires OnItsWay(s, may, addrs, t, addrs[b]) && f in may[b] && addrs[b] in may[c]
    ensures var e1, e2, e3, e4 := GetSync(b, 0, 2, 0), Relocate(b, f), Relocate(c, addrs[b]), GetSync(c, 0, 2, 0);
      && Enabled(s, e1) && s1 == Apply(s, e1) && Enabled(s1, e2) && s2 == Apply(s1, e2)
      && Enabled(s2, e3) && s3 == Apply(s2, e3) && Enabled(s3, e4) && s4 == Apply(s3, e4)
    ensures SameAddrs(s1, addrs) && SameAddrs(s2, addrs[b := f]) && SameAddrs(s3, addrs[b := f][c := addrs[b]])
    ensures SameAddrs(s4, addrs[b := f][c := addrs[b]]) && !AtMostOne(s4)
  {
    var d := addrs[b];
    s1 := FirstTakes(s, may, addrs, t, b);
    hide Apply, Enabled, AtMostOne, SameAddrs;
    s2 := Moves(s1, may, addrs, t, d, b, b, f);
    s3 := Moves(s2, may, addrs[b := f], t, d, b, c, d);
    s4 := SecondTakes(s3, may, addrs[b := f][c := d], t, d, b, c);
  }

  lemma MovedAway(addrs: map<TankId, Addr>, t: TankId, at: Addr)
    requires Injective(addrs) && forall r {:trigger addrs[r]} :: r in addrs && r != t ==> addrs[r] != at
    ensures Injective(addrs[t := at])
  {
  }

  lemma MovesApart(s1: State, s2: State, s3: State, s4: State, addrs: map<TankId, Addr>, b: TankId, c: TankId, f: Addr)
    requires b in addrs && c in addrs && b != c && Injective(addrs) && f !in addrs.Values
    requires SameAddrs(s1, addrs) && SameAddrs(s2, addrs[b := f])
    requires SameAddrs(s3, addrs[b := f][c := addrs[b]]) && SameAddrs(s4, addrs[b := f][c := addrs[b]])
    ensures AllApart(s1) && AllApart(s2) && AllApart(s3) && AllApart(s4)
  {
    var moved := addrs[b := f];
    forall r | r in addrs ensures addrs[r] != f { assert addrs[r] in addrs.Values; }
    MovedAway(addrs, b, f);
    MovedAway(moved, c, addrs[b]);
    hide Injective;
    InjectiveApart(s1, addrs);
    InjectiveApart(s2, addrs[b := f]);
    InjectiveApart(s3, addrs[b := f][c := addrs[b]]);
    InjectiveApart(s4, addrs[b := f][c := addrs[b]]);
  }

  /** What the run up to the packet needs: t and r at one address, o at one that r may have a neighbour of. */
  ghost predicate Posted(may: map<TankId, set<Addr>>, addrs: map<TankId, Addr>, t: TankId, r: TankId, o: TankId,
                         x: Addr)
  {
    && Housed(may, addrs) && t in addrs && r in addrs && o in addrs && o != r && o != t
    && addrs[r] == addrs[t] && x in may[r] && Neighbours(x, addrs[o])
  }

  lemma StartsQuiet(may: map<TankId, set<Addr>>, addrs: map<TankId, Addr>)
    requires Housed(may, addrs)
    ensures var s := Init(may, addrs); Quiet(s, may, addrs) && s.souls == {}
    ensures forall t, k {:trigger k in Init(may, addrs).tanks[t].fish} :: t in addrs ==>
      k !in Init(may, addrs).tanks[t].fish
  {
  }

  lemma BesideBeyond(a: Addr)
    ensures Neighbours(a, Beyond(a))
  {
  }

  /** t has a fish on offer to somebody, r offers one to the address of o, o answers, and t, at the address of r,
      lets go of its own. */
  lemma SentOff(may: map<TankId, set<Addr>>, addrs: map<TankId, Addr>, t: TankId, r: TankId, o: TankId, x: Addr)
    returns (run: seq<Step>)
    requires Posted(may, addrs, t, r, o, x)
    ensures Legal(Init(may, addrs), run) && OnItsWay(After(Init(may, addrs), run), may, addrs, t, addrs[o])
    ensures Injective(addrs) ==> ApartThroughout(Init(may, addrs), run)
  {
    var s0, y, d := Init(may, addrs), addrs[t], addrs[o];
    StartsQuiet(may, addrs);
    BesideBeyond(y);
    hide Apply, Enabled, AllApart, Init, OnItsWay, Neighbours, Matches, Quiet;
    var e1, e2, e3, e4 := Spawn(t, 0, 0, 0), MakeOffer(t, 0, y, Beyond(y)), Spawn(r, 1, 1, 0), MakeOffer(r, 1, x, d);
    var e5, e6 := GetOffer(o, Sent(r, Offer(y, d, 0))), GetAck(t, Sent(o, Ack(d, y, 0)), 0);
    var s1, s2 := BornAndOffered(s0, may, addrs, t, 0, y, Beyond(y));
    var s3, s4 := BornAndOffered(s2, may, addrs, r, 1, x, d);
    assert 0 in s4.tanks[t].order && Matches(s4.tanks[t], 0, 0);
    var s5, s6 := Answered(s4, may, addrs, t, r, o);
    if Injective(addrs) {
      InjectiveApart(s0, addrs);
      InjectiveApart(s1, addrs);
      InjectiveApart(s2, addrs);
      InjectiveApart(s3, addrs);
      InjectiveApart(s4, addrs);
      InjectiveApart(s5, addrs);
      InjectiveApart(s6, addrs);
    }
    run := [e1] + [e2] + [e3] + [e4] + [e5] + [e6];
    SixSteps(s0, e1, e2, e3, e4, e5, e6);
  }

  lemma SixSteps(s: State, e1: Step, e2: Step, e3: Step, e4: Step, e5: Step, e6: Step)
    requires Enabled(s, e1) && Enabled(Apply(s, e1), e2)
    requires var s2 := Apply(Apply(s, e1), e2); Enabled(s2, e3) && Enabled(Apply(s2, e3), e4)
    requires var s4 := Apply(Apply(Apply(Apply(s, e1), e2), e3), e4); Enabled(s4, e5) && Enabled(Apply(s4, e5), e6)
    ensures var run := [e1] + [e2] + [e3] + [e4] + [e5] + [e6];
      var s2 := Apply(Apply(s, e1), e2);
      var s4 := Apply(Apply(s2, e3), e4);
      var s6 := Apply(Apply(s4, e5), e6);
      && Legal(s, run) && After(s, run) == s6
      && ((&& AllApart(s) && AllApart(Apply(s, e1)) && AllApart(s2) && AllApart(Apply(s2, e3)) && AllApart(s4)
           && AllApart(Apply(s4, e5)) && AllApart(s6)) ==> ApartThroughout(s, run))
  {
    hide Apply, Enabled, AllApart;
    assert Legal(s, []) && [] + [e1] == [e1];
    Joined(s, [], e1);
    Joined(s, [e1], e2);
    Joined(s, [e1] + [e2], e3);
    Joined(s, [e1] + [e2] + [e3], e4);
    Joined(s, [e1] + [e2] + [e3] + [e4], e5);
    Joined(s, [e1] + [e2] + [e3] + [e4] + [e5], e6);
  }

  /** t sends a fish to the address of o. o takes it and moves to f, e moves to the address o had, and takes it too. */
  lemma Clash(may: map<TankId, set<Addr>>, addrs: map<TankId, Addr>, t: TankId, r: TankId, o: TankId, e: TankId,
              x: Addr, f: Addr)
    returns (run: seq<Step>)
    requires Posted(may, addrs, t, r, o, x) && e in addrs && e != t && e != o && f in may[o] && addrs[o] in may[e]
    ensures Legal(Init(may, addrs), run) && !AtMostOne(After(Init(may, addrs), run))
    ensures Injective(addrs) && f !in addrs.Values ==> ApartThroughout(Init(may, addrs), run)
  {
    run := SentOff(may, addrs, t, r, o, x);
    var s0, d := Init(may, addrs), addrs[o];
    hide Apply, Enabled, AllApart, Init, OnItsWay, AtMostOne, Neighbours, Injective;
    var s := After(s0, run);
    var e1, e2, e3, e4 := GetSync(o, 0, 2, 0), Relocate(o, f), Relocate(e, d), GetSync(e, 0, 2, 0);
    var s1, s2, s3, s4 := TakesAndMoves(s, may, addrs, t, o, e, f);
    if Injective(addrs) && f !in addrs.Values { MovesApart(s1, s2, s3, s4, addrs, o, e, f); }
    Joined(s0, run, e1);
    Joined(s0, run + [e1], e2);
    Joined(s0, run + [e1] + [e2], e3);
    Joined(s0, run + [e1] + [e2] + [e3], e4);
    run := run + [e1] + [e2] + [e3] + [e4];
  }

  /** Three tanks are enough: b takes a fish of a and moves away to f, c moves to the address b had, and takes it again.
      No two tanks ever have one address at a time. */
  lemma TakenTwice(may: map<TankId, set<Addr>>, addrs: map<TankId, Addr>, a: TankId, b: TankId, c: TankId, f: Addr)
    returns (run: seq<Step>)
    requires Housed(may, addrs) && a in addrs && b in addrs && c in addrs && a != b && b != c && a != c
    requires Neighbours(addrs[a], addrs[b]) && f in may[b] && addrs[b] in may[c]
    ensures Legal(Init(may, addrs), run) && !AtMostOne(After(Init(may, addrs), run))
    ensures Injective(addrs) && f !in addrs.Values ==> ApartThroughout(Init(may, addrs), run)
  {
    run := Clash(may, addrs, a, a, b, c, addrs[a], f);
  }

  ghost predicate AlwaysOnce(may: map<TankId, set<Addr>>) {
    forall addrs, run {:trigger Legal(Init(may, addrs), run)} ::
      Housed(may, addrs) && Legal(Init(may, addrs), run) ==> AtMostOne(After(Init(may, addrs), run))
  }

  /** A fish never has two copies, from any start and in any run, exactly when no address that two tanks may have is
      one that a third tank may send a fish to. */
  lemma OnceExactlyWhen(may: map<TankId, set<Addr>>)
    requires forall t {:trigger may[t]} :: t in may ==> may[t] != {}
    ensures AlwaysOnce(may) <==> Clear(may)
  {
    hide Legal, After, AtMostOne, Init, Sends;
    if Clear(may) {
      forall addrs, run | Housed(may, addrs) && Legal(Init(may, addrs), run)
        ensures AtMostOne(After(Init(may, addrs), run))
      {
        NeverTwice(may, addrs, run);
      }
    } else {
      var t, b, c, d :| Sends(may, t, d) && b in may && c in may && t != b && t != c && b != c && d in may[b]
        && d in may[c];
      var addrs, run := SharedTwice(may, t, b, c, d);
    }
  }

  lemma SharedTwice(may: map<TankId, set<Addr>>, t: TankId, b: TankId, c: TankId, d: Addr)
    returns (addrs: map<TankId, Addr>, run: seq<Step>)
    requires forall t {:trigger may[t]} :: t in may ==> may[t] != {}
    requires Sends(may, t, d) && b in may && c in may && t != b && t != c && b != c && d in may[b] && d in may[c]
    ensures Housed(may, addrs) && Legal(Init(may, addrs), run) && !AtMostOne(After(Init(may, addrs), run))
  {
    hide Legal, After, AtMostOne, Init, Neighbours;
    var r, y :| r in may && y in may[r] && y in may[t] && NextTo(may, r, d);
    var x :| x in may[r] && Neighbours(x, d);
    var o, e := if r != b then b else c, if r != b then c else b;
    addrs := SomeAddrs(may)[r := y][t := y][o := d];
    assert addrs.Keys == may.Keys;
    run := Clash(may, addrs, t, r, o, e, x, d);
  }

  /** Two tanks never clash, whatever addresses they take: it needs three. */
  lemma NeedsThree(may: map<TankId, set<Addr>>)
    ensures !Clear(may) ==> |may| >= 3
  {
    hide Sends;
    if !Clear(may) {
      var t, b, c, d :| Sends(may, t, d) && b in may && c in may && t != b && t != c && b != c && d in may[b]
        && d in may[c];
      assert t in may by { Sender(may, t, d); }
      assert |{t, b, c}| == 3;
      Subset({t, b, c}, may.Keys);
    }
  }

  lemma Sender(may: map<TankId, set<Addr>>, t: TankId, d: Addr)
    requires Sends(may, t, d)
    ensures t in may
  {
  }

  lemma {:induction false} Subset(p: set<TankId>, q: set<TankId>)
    requires p <= q
    ensures |p| <= |q|
    decreases p
  {
    if p != {} {
      var x :| x in p;
      Subset(p - {x}, q - {x});
    }
  }

  ghost function SomeAddrs(may: map<TankId, set<Addr>>): map<TankId, Addr>
    requires forall t {:trigger may[t]} :: t in may ==> may[t] != {}
    ensures Housed(may, SomeAddrs(may))
  {
    map t | t in may :: Pick(may[t])
  }

  ghost function Pick(s: set<Addr>): Addr
    requires s != {}
    ensures Pick(s) in s
  {
    assert exists x :: x in s by { assert (forall x :: x !in s) ==> s == {}; }
    var x :| x in s; x
  }

  // ---------------------------------------------------------------- the code

  /** One tank's program. */
  class TankProgram {
    var addr: Addr
    var order: seq<Key>
    var fish: map<Key, Fish>

    function View(): Tank
      reads this
    {
      Tank(addr, order, fish)
    }

    constructor (addr: Addr)
      ensures View() == Tank(addr, [], map[])
    {
      this.addr, order, fish := addr, [], map[];
    }

    /** This is tank t of the network. */
    ghost predicate Is(s: State, t: TankId)
      reads this
    {
      t in s.tanks && s.tanks[t] == View()
    }

    /** The command that moves the tank; its check of the second coordinate has no upper bound. */
    method Relocate(x: int, y: int, ghost s: State, ghost t: TankId)
      requires y < 256 && Is(s, t)
      modifies this
      ensures View() == old(View()).(addr := if 0 <= x <= 9 && 0 <= y then Addr(x, y) else old(addr))
      ensures Enabled(s, Step.Relocate(t, addr)) ==> Apply(s, Step.Relocate(t, addr)) == With(s, t, View())
    {
      if x < 0 || x > 9 || y < 0 || x > 9 { return; }
      addr := Addr(x, y);
    }

    /** A fish is put at the head of the list. */
    method NewFish(k: Key, soul: Soul, uid: Uid)
      requires k !in fish
      modifies this`fish, this`order
      ensures View() == Added(old(View()), k, Fish(soul, uid, Live))
    {
      fish := fish[k := Fish(soul, uid, Live)];
      order := [k] + order;
    }

    /** A fish is made here: one step of the network. */
    method MakeFish(k: Key, soul: Soul, uid: Uid, ghost s: State, ghost t: TankId)
      requires Is(s, t) && Enabled(s, Spawn(t, k, soul, uid))
      modifies this
      ensures Apply(s, Spawn(t, k, soul, uid)) == With(s, t, View()).(souls := s.souls + {soul})
    {
      NewFish(k, soul, uid);
    }

    /** A fish that came with a packet for this tank is let in; packets for others are ignored. */
    method GetSync(dst: Addr, k: Key, soul: Soul, uid: Uid, ghost s: State, ghost t: TankId, ghost sync: SyncId)
      requires Is(s, t) && Enabled(s, Step.GetSync(t, sync, k, uid)) && dst == s.syncs[sync].dst
      requires soul == s.syncs[sync].soul
      modifies this
      ensures var y := s.syncs[sync];
        Apply(s, Step.GetSync(t, sync, k, uid))
          == With(s, t, View()).(syncs := s.syncs[sync := y.(unseen := y.unseen - {t})])
    {
      if dst != addr {
        assert s.tanks[t := View()] == s.tanks;
        return;
      }
      NewFish(k, soul, uid);
    }

    /** A fish is offered to a neighbour of the address the tank had when it last looked. */
    method SendFish(k: Key, home: Addr, at: Addr, ghost s: State, ghost t: TankId) returns (p: Packet)
      requires k in fish && Is(s, t) && Enabled(s, MakeOffer(t, k, home, at))
      modifies this
      ensures Apply(s, MakeOffer(t, k, home, at)) == With(s, t, View()).(sent := s.sent + {Sent(t, p)})
    {
      fish := fish[k := fish[k].(state := Xmit)];
      p := Offer(addr, at, fish[k].uid);
    }

    method GetOffer(p: Packet, ghost s: State, ghost t: TankId, ghost from: TankId) returns (reply: seq<Packet>)
      requires Is(s, t) && Enabled(s, Step.GetOffer(t, Sent(from, p))) && p.Offer?
      ensures Apply(s, Step.GetOffer(t, Sent(from, p)))
           == if reply == [] then s else s.(sent := s.sent + {Sent(t, reply[0])})
      ensures |reply| == if p.dst == addr then 1 else 0
    {
      if p.dst != addr { return []; }
      return [Ack(addr, p.src, p.uid)];
    }

    /** Searches the list for the first fish on offer under the uid. */
    method Find(uid: Uid) returns (found: Search)
      ensures found == FirstOffered(View(), order, uid)
    {
      var i := 0;
      while i < |order|
        invariant 0 <= i <= |order| && FirstOffered(View(), order, uid) == FirstOffered(View(), order[i..], uid)
      {
        var k := order[i];
        if k in fish && fish[k].state == Xmit && fish[k].uid == uid { return Somebody(k); }
        assert order[i..][1..] == order[i + 1..];
        i := i + 1;
      }
      return Nobody;
    }

    /** Lets go of the first fish on offer under the uid, and sends it. */
    method GetAck(p: Packet, ghost s: State, ghost t: TankId, ghost from: TankId, ghost sync: SyncId)
      returns (gone: seq<Fish>)
      requires p.Ack? && Is(s, t) && Enabled(s, Step.GetAck(t, Sent(from, p), sync))
      modifies this
      ensures var found := FirstOffered(old(View()), old(order), p.uid);
        if p.dst != addr || found.Nobody? then gone == [] && View() == old(View())
        else gone == [old(fish)[found.key]] && View() == InMood(old(View()), found.key, Dead)
      ensures Apply(s, Step.GetAck(t, Sent(from, p), sync)) == if gone == [] then s
        else With(s, t, View()).(syncs := s.syncs[sync := Sync(t, p.src, gone[0].soul, s.tanks.Keys - {t})])
    {
      hide FirstOffered;
      gone := [];
      if p.dst != addr { return; }
      var found := Find(p.uid);
      if found.Somebody? {
        gone := [fish[found.key]];
        fish := fish[found.key := fish[found.key].(state := Dead)];
      }
    }
  }
}
