/** Threads that send to and receive from one port. A send into a full port and a receive from an empty one
    sleep, and look again each time they are woken; other threads may run in between. */
module PortBlocking {
  import opened PortMessages

  type Thread = nat

  /** A call to send: the message, and the user address its bytes are read from. */
  datatype Request = Request(m: Message, at: nat)

  /** What a receive of some size gave. */
  datatype Receipt = Receipt(size: nat, from: int, code: int, data: seq<Byte>)

  /** The senders and receivers asleep in the order they will be woken, those woken that have not run yet,
      what each was asked for, and what the port accepted and gave so far. */
  datatype State = State(queue: seq<Message>, senders: seq<Thread>, receivers: seq<Thread>,
                         wokenSenders: set<Thread>, wokenReceivers: set<Thread>,
                         asked: map<Thread, Request>, sizes: map<Thread, nat>, nowait: bool,
                         accepted: seq<Message>, received: seq<Receipt>)

  datatype Step =
    | Send(t: Thread, r: Request)
    | SendAgain(t: Thread)
    | Receive(t: Thread, size: nat)
    | ReceiveAgain(t: Thread)
    | SetNowait(on: bool)

  ghost const INIT := State([], [], [], {}, {}, map[], map[], false, [], [])

  /** The check made after the wait. */
  ghost predicate ValidRequest(r: Request) {
    r.at <= 0x400000 && |r.m.data| <= 4096
  }

  ghost predicate Outside(s: State, t: Thread) {
    t !in s.senders && t !in s.receivers && t !in s.wokenSenders && t !in s.wokenReceivers
  }

  ghost predicate Enabled(s: State, e: Step) {
    match e
    case Send(t, r) => Outside(s, t)
    case SendAgain(t) => t in s.wokenSenders && t in s.asked
    case Receive(t, size) => Outside(s, t)
    case ReceiveAgain(t) => t in s.wokenReceivers && t in s.sizes
    case SetNowait(on) => true
  }

  ghost function Accept(s: State, m: Message): State {
    var u := s.(queue := s.queue + [m], accepted := s.accepted + [m]);
    if s.receivers == [] then u
    else u.(receivers := s.receivers[1..], wokenReceivers := s.wokenReceivers + {s.receivers[0]})
  }

  ghost function TrySend(s: State, t: Thread, r: Request): State {
    if |s.queue| >= MAX_MSGCOUNT then
      if s.nowait then s else s.(senders := s.senders + [t], asked := s.asked[t := r])
    else if !ValidRequest(r) then s
    else Accept(s, r.m)
  }

  ghost function Take(s: State, size: nat): State
    requires s.queue != []
  {
    var m := s.queue[0];
    var got := Receipt(size, m.from, m.code, m.data[..Min(size, |m.data|)]);
    var u := s.(queue := s.queue[1..], received := s.received + [got]);
    if s.senders == [] || |s.queue| > MAX_MSGCOUNT then u
    else u.(senders := s.senders[1..], wokenSenders := s.wokenSenders + {s.senders[0]})
  }

  ghost function TryReceive(s: State, t: Thread, size: nat): State {
    if s.queue == [] then
      if s.nowait then s else s.(receivers := s.receivers + [t], sizes := s.sizes[t := size])
    else Take(s, size)
  }

  ghost function Apply(s: State, e: Step): State
    requires Enabled(s, e)
  {
    match e
    case Send(t, r) => TrySend(s, t, r)
    case SendAgain(t) => TrySend(s.(wokenSenders := s.wokenSenders - {t}), t, s.asked[t])
    case Receive(t, size) => TryReceive(s, t, size)
    case ReceiveAgain(t) => TryReceive(s.(wokenReceivers := s.wokenReceivers - {t}), t, s.sizes[t])
    case SetNowait(on) => s.(nowait := on)
  }

  ghost predicate Legal(s: State, run: seq<Step>)
    decreases |run|
  {
    run != [] ==> Enabled(s, run[0]) && Legal(Apply(s, run[0]), run[1..])
  }

  ghost function After(s: State, run: seq<Step>): State
    requires Legal(s, run)
    decreases |run|
  {
    if run == [] then s else After(Apply(s, run[0]), run[1..])
  }

  // ---------------------------------------------------------------- the messages

  ghost predicate Cut(got: Receipt, m: Message) {
    got.from == m.from && got.code == m.code && got.data == m.data[..Min(got.size, |m.data|)]
  }

  /** What was received is what was accepted, in order and once each, up to what still waits. */
  ghost predicate InOrder(s: State) {
    && |s.received| <= |s.accepted| && s.queue == s.accepted[|s.received|..] && |s.queue| <= MAX_MSGCOUNT
    && forall i {:trigger s.received[i]} :: 0 <= i < |s.received| ==> Cut(s.received[i], s.accepted[i])
  }

  lemma AcceptInOrder(s: State, m: Message)
    requires InOrder(s) && |s.queue| < MAX_MSGCOUNT
    ensures InOrder(Accept(s, m))
  {
    assert (s.accepted + [m])[|s.received|..] == s.accepted[|s.received|..] + [m];
  }

  lemma TakeInOrder(s: State, size: nat)
    requires InOrder(s) && s.queue != []
    ensures InOrder(Take(s, size))
  {
    assert s.queue[0] == s.accepted[|s.received|];
  }

  lemma StepInOrder(s: State, e: Step)
    requires InOrder(s) && Enabled(s, e)
    ensures InOrder(Apply(s, e))
  {
    match e
    case Send(t, r) => if |s.queue| < MAX_MSGCOUNT { AcceptInOrder(s, r.m); }
    case SendAgain(t) =>
      if |s.queue| < MAX_MSGCOUNT { AcceptInOrder(s.(wokenSenders := s.wokenSenders - {t}), s.asked[t].m); }
    case Receive(t, size) => if s.queue != [] { TakeInOrder(s, size); }
    case ReceiveAgain(t) => if s.queue != [] { TakeInOrder(s.(wokenReceivers := s.wokenReceivers - {t}), s.sizes[t]); }
    case SetNowait(on) =>
  }

  lemma {:induction false} RunInOrder(s: State, run: seq<Step>)
    requires InOrder(s) && Legal(s, run)
    ensures InOrder(After(s, run))
    decreases |run|
  {
    if run != [] {
      StepInOrder(s, run[0]);
      RunInOrder(Apply(s, run[0]), run[1..]);
    }
  }

  /** In every run the receipts are a prefix of the accepted messages, each cut to the size asked for. */
  lemma Delivery(run: seq<Step>)
    requires Legal(INIT, run)
    ensures var s := After(INIT, run); InOrder(s) && |s.received| + |s.queue| == |s.accepted|
  {
    RunInOrder(INIT, run);
  }

  // ---------------------------------------------------------------- the sleepers

  ghost predicate Distinct(q: seq<Thread>) {
    forall i, j :: 0 <= i < j < |q| ==> q[i] != q[j]
  }

  /** No thread is in two places. */
  ghost predicate Placed(s: State) {
    && Distinct(s.senders) && Distinct(s.receivers)
    && (forall t :: t in s.senders ==> t !in s.receivers && t !in s.wokenSenders && t !in s.wokenReceivers)
    && (forall t :: t in s.receivers ==> t !in s.wokenSenders && t !in s.wokenReceivers)
    && s.wokenSenders !! s.wokenReceivers
  }

  /** While a receiver sleeps, there are no more messages than receivers on their way to them. */
  ghost predicate ReceiversKept(s: State) {
    s.receivers != [] ==> |s.queue| <= |s.wokenReceivers|
  }

  /** While a sender sleeps, every free place has a sender on its way to it. */
  ghost predicate SendersKept(s: State) {
    s.senders != [] ==> |s.queue| + |s.wokenSenders| >= MAX_MSGCOUNT
  }

  ghost predicate AsksValid(s: State) {
    forall t :: (t in s.senders || t in s.wokenSenders) ==> t in s.asked && ValidRequest(s.asked[t])
  }

  lemma TrySendKeeps(s: State, t: Thread, r: Request)
    requires Placed(s) && ReceiversKept(s) && Outside(s, t)
    ensures Placed(TrySend(s, t, r)) && ReceiversKept(TrySend(s, t, r))
  {
    if |s.queue| < MAX_MSGCOUNT && ValidRequest(r) { AcceptKeeps(s, r.m); }
  }

  lemma AcceptKeeps(s: State, m: Message)
    requires Placed(s) && ReceiversKept(s)
    ensures Placed(Accept(s, m)) && ReceiversKept(Accept(s, m))
  {
    if s.receivers != [] { assert s.receivers[0] in s.receivers; }
  }

  lemma TryReceiveKeeps(s: State, t: Thread, size: nat)
    requires Placed(s) && Outside(s, t) && (s.receivers != [] ==> |s.queue| <= |s.wokenReceivers| + 1)
    ensures Placed(TryReceive(s, t, size)) && ReceiversKept(TryReceive(s, t, size))
  {
    if s.queue != [] { TakePlaced(s, size); }
  }

  lemma TakePlaced(s: State, size: nat)
    requires Placed(s) && s.queue != []
    ensures Placed(Take(s, size))
  {
    if s.senders != [] { assert s.senders[0] in s.senders; }
  }

  /** No step of any kind loses a receiver's wake-up. */
  lemma StepKeepsReceivers(s: State, e: Step)
    requires Placed(s) && ReceiversKept(s) && Enabled(s, e)
    ensures Placed(Apply(s, e)) && ReceiversKept(Apply(s, e))
  {
    match e
    case Send(t, r) => TrySendKeeps(s, t, r);
    case SendAgain(t) => TrySendKeeps(s.(wokenSenders := s.wokenSenders - {t}), t, s.asked[t]);
    case Receive(t, size) => TryReceiveKeeps(s, t, size);
    case ReceiveAgain(t) =>
      assert |s.wokenReceivers - {t}| == |s.wokenReceivers| - 1;
      TryReceiveKeeps(s.(wokenReceivers := s.wokenReceivers - {t}), t, s.sizes[t]);
    case SetNowait(on) =>
  }

  ghost predicate SendsValid(e: Step) {
    e.Send? ==> ValidRequest(e.r)
  }

  lemma SendKeepsSenders(s: State, t: Thread, r: Request)
    requires Placed(s) && AsksValid(s) && Outside(s, t) && ValidRequest(r)
    requires s.senders != [] ==> |s.queue| + |s.wokenSenders| >= MAX_MSGCOUNT - 1
    requires s.senders != [] && |s.queue| >= MAX_MSGCOUNT ==> SendersKept(s)
    ensures SendersKept(TrySend(s, t, r)) && AsksValid(TrySend(s, t, r))
  {
  }

  lemma ReceiveKeepsSenders(s: State, t: Thread, size: nat)
    requires Placed(s) && SendersKept(s) && AsksValid(s) && |s.queue| <= MAX_MSGCOUNT
    ensures SendersKept(TryReceive(s, t, size)) && AsksValid(TryReceive(s, t, size))
  {
    if s.senders != [] { assert s.senders[0] in s.senders; }
  }

  /** A sender's wake-up is lost by no step either, as long as the requests are valid. */
  lemma StepKeepsSenders(s: State, e: Step)
    requires Placed(s) && SendersKept(s) && AsksValid(s) && Enabled(s, e) && SendsValid(e) && |s.queue| <= MAX_MSGCOUNT
    ensures SendersKept(Apply(s, e)) && AsksValid(Apply(s, e))
  {
    match e
    case Send(t, r) => SendKeepsSenders(s, t, r);
    case SendAgain(t) =>
      assert |s.wokenSenders - {t}| == |s.wokenSenders| - 1;
      SendKeepsSenders(s.(wokenSenders := s.wokenSenders - {t}), t, s.asked[t]);
    case Receive(t, size) => ReceiveKeepsSenders(s, t, size);
    case ReceiveAgain(t) => ReceiveKeepsSenders(s.(wokenReceivers := s.wokenReceivers - {t}), t, s.sizes[t]);
    case SetNowait(on) =>
  }

  lemma {:induction false} RunKeepsReceivers(s: State, run: seq<Step>)
    requires Placed(s) && ReceiversKept(s) && Legal(s, run)
    ensures Placed(After(s, run)) && ReceiversKept(After(s, run))
    decreases |run|
  {
    if run != [] {
      StepKeepsReceivers(s, run[0]);
      RunKeepsReceivers(Apply(s, run[0]), run[1..]);
    }
  }

  ghost predicate AllValid(run: seq<Step>) {
    forall i :: 0 <= i < |run| ==> SendsValid(run[i])
  }

  lemma {:induction false} RunKeepsSenders(s: State, run: seq<Step>)
    requires InOrder(s) && Placed(s) && ReceiversKept(s) && SendersKept(s) && AsksValid(s) && Legal(s, run)
      && AllValid(run)
    ensures SendersKept(After(s, run))
    decreases |run|
  {
    if run != [] {
      StepInOrder(s, run[0]);
      StepKeepsReceivers(s, run[0]);
      StepKeepsSenders(s, run[0]);
      RunKeepsSenders(Apply(s, run[0]), run[1..]);
    }
  }

  /** Once every woken thread has run, no receiver sleeps beside a message, and no sender beside a free place. */
  lemma NoLostWakeups(run: seq<Step>)
    requires Legal(INIT, run)
    ensures var s := After(INIT, run);
      && ReceiversKept(s)
      && (s.wokenReceivers == {} && s.receivers != [] ==> s.queue == [])
      && (AllValid(run) ==> SendersKept(s))
      && (AllValid(run) && s.wokenSenders == {} && s.senders != [] ==> |s.queue| == MAX_MSGCOUNT)
  {
    RunInOrder(INIT, run);
    RunKeepsReceivers(INIT, run);
    if AllValid(run) { RunKeepsSenders(INIT, run); }
  }

  // ---------------------------------------------------------------- what each call does

  /** A receive takes the oldest message and wakes the first sleeping sender; from an empty port it
      sleeps behind the other receivers, unless the port is told not to wait, when nothing happens. */
  lemma ReceiveOutcome(s: State, e: Step)
    requires Enabled(s, e) && (e.Receive? || e.ReceiveAgain?) && |s.queue| <= MAX_MSGCOUNT
    ensures var u, t := Apply(s, e), e.t;
      var size := if e.Receive? then e.size else s.sizes[t];
      && u.accepted == s.accepted && u.wokenReceivers == s.wokenReceivers - {t} && u.asked == s.asked
      && (s.queue != [] ==>
            && |u.received| == |s.received| + 1 && u.received[..|s.received|] == s.received
            && u.received[|s.received|].size == size && Cut(u.received[|s.received|], s.queue[0])
            && u.queue == s.queue[1..] && u.receivers == s.receivers && u.sizes == s.sizes
            && if s.senders == [] then u.senders == [] && u.wokenSenders == s.wokenSenders
               else u.senders == s.senders[1..] && u.wokenSenders == s.wokenSenders + {s.senders[0]})
      && (s.queue == [] ==>
            && u.received == s.received && u.queue == [] && u.senders == s.senders
            && u.wokenSenders == s.wokenSenders
            && u.receivers == s.receivers + (if s.nowait then [] else [t])
            && (!s.nowait ==> t in u.sizes && u.sizes[t] == size))
  {
    assert e.Receive? ==> s.wokenReceivers - {e.t} == s.wokenReceivers;
  }

  /** A send into a port with room is accepted, if it is valid, and wakes the first sleeping receiver;
      into a full port it sleeps behind the other senders.  It is refused, and nothing happens, when the
      port is full and told not to wait, and when there is room and the request is not valid. */
  lemma SendOutcome(s: State, e: Step)
    requires Enabled(s, e) && (e.Send? || e.SendAgain?)
    ensures var u, t, room := Apply(s, e), e.t, |s.queue| < MAX_MSGCOUNT;
      var r := if e.Send? then e.r else s.asked[t];
      && u.received == s.received && u.wokenSenders == s.wokenSenders - {t} && u.sizes == s.sizes
      && (room && ValidRequest(r) ==>
            && u.accepted == s.accepted + [r.m] && u.queue == s.queue + [r.m] && u.senders == s.senders
            && if s.receivers == [] then u.receivers == [] && u.wokenReceivers == s.wokenReceivers
               else u.receivers == s.receivers[1..] && u.wokenReceivers == s.wokenReceivers + {s.receivers[0]})
      && (!(room && ValidRequest(r)) ==>
            && u.accepted == s.accepted && u.queue == s.queue && u.receivers == s.receivers
            && u.wokenReceivers == s.wokenReceivers
            && u.senders == s.senders + (if room || s.nowait then [] else [t])
            && (!room && !s.nowait ==> t in u.asked && u.asked[t] == r))
  {
    assert e.Send? ==> s.wokenSenders - {e.t} == s.wokenSenders;
  }

  /** The switch decides between sleeping and giving up, from the next call on. */
  lemma NowaitDecides(s: State, on: bool, t: Thread, size: nat)
    requires s.queue == [] && Outside(s, t)
    ensures var u := Apply(s, SetNowait(on));
      Enabled(u, Receive(t, size)) && Apply(u, Receive(t, size)).receivers == s.receivers + (if on then [] else [t])
  {
    assert s.receivers + [] == s.receivers;
  }

  /** A queue of sleepers that lost its first n, woken, and may have gained at its end. */
  ghost predicate MovedUp(q: seq<Thread>, q': seq<Thread>, woken: set<Thread>, n: int) {
    && 0 <= n <= 1 && (n == 0 ==> q <= q')
    && (n == 1 && q != [] ==> q[1..] <= q' && q[0] in woken)
  }

  lemma StepTurns(s: State, e: Step)
    requires InOrder(s) && Enabled(s, e)
    ensures var u := Apply(s, e);
      && MovedUp(s.receivers, u.receivers, u.wokenReceivers, |u.accepted| - |s.accepted|)
      && MovedUp(s.senders, u.senders, u.wokenSenders, |u.received| - |s.received|)
  {
    if e.Send? || e.SendAgain? { SendOutcome(s, e); }
    if e.Receive? || e.ReceiveAgain? { ReceiveOutcome(s, e); }
  }

  /** A receiver asleep at some rank moves up by one with each message accepted, by nothing else, and is
      woken by the message that its rank counts to. */
  lemma {:induction false} ReceiversInTurn(s: State, run: seq<Step>, rank: nat) returns (k: nat)
    requires InOrder(s) && Legal(s, run) && rank < |s.receivers|
    ensures var u := After(s, run);
      var n := |u.accepted| - |s.accepted|;
      && 0 <= n && (n <= rank ==> rank - n < |u.receivers| && u.receivers[rank - n] == s.receivers[rank])
      && (n > rank ==>
            && k <= |run| && Legal(s, run[..k]) && s.receivers[rank] in After(s, run[..k]).wokenReceivers
            && |After(s, run[..k]).accepted| == |s.accepted| + rank + 1)
    decreases |run|
  {
    hide Apply, Enabled;
    k := 0;
    if run != [] {
      var s1 := Apply(s, run[0]);
      StepInOrder(s, run[0]);
      StepTurns(s, run[0]);
      var d := |s1.accepted| - |s.accepted|;
      if d == 1 && rank == 0 {
        k := 1;
        assert run[..1][1..] == [];
        AcceptedGrows(s1, run[1..]);
      } else {
        assert s1.receivers[rank - d] == s.receivers[rank];
        var k' := ReceiversInTurn(s1, run[1..], rank - d);
        k := k' + 1;
        if |After(s, run).accepted| - |s.accepted| > rank { assert run[..k][1..] == run[1..][..k']; }
      }
    }
  }

  lemma {:induction false} AcceptedGrows(s: State, run: seq<Step>)
    requires InOrder(s) && Legal(s, run)
    ensures |s.accepted| <= |After(s, run).accepted| && |s.received| <= |After(s, run).received|
    decreases |run|
  {
    hide Apply, Enabled;
    if run != [] {
      StepInOrder(s, run[0]);
      StepTurns(s, run[0]);
      AcceptedGrows(Apply(s, run[0]), run[1..]);
    }
  }

  /** The same for senders and the messages received. */
  lemma {:induction false} SendersInTurn(s: State, run: seq<Step>, rank: nat) returns (k: nat)
    requires InOrder(s) && Legal(s, run) && rank < |s.senders|
    ensures var u := After(s, run);
      var n := |u.received| - |s.received|;
      && 0 <= n && (n <= rank ==> rank - n < |u.senders| && u.senders[rank - n] == s.senders[rank])
      && (n > rank ==>
            && k <= |run| && Legal(s, run[..k]) && s.senders[rank] in After(s, run[..k]).wokenSenders
            && |After(s, run[..k]).received| == |s.received| + rank + 1)
    decreases |run|
  {
    hide Apply, Enabled;
    k := 0;
    if run != [] {
      var s1 := Apply(s, run[0]);
      StepInOrder(s, run[0]);
      StepTurns(s, run[0]);
      var d := |s1.received| - |s.received|;
      if d == 1 && rank == 0 {
        k := 1;
        assert run[..1][1..] == [];
        AcceptedGrows(s1, run[1..]);
      } else {
        assert s1.senders[rank - d] == s.senders[rank];
        var k' := SendersInTurn(s1, run[1..], rank - d);
        k := k' + 1;
        if |After(s, run).received| - |s.received| > rank { assert run[..k][1..] == run[1..][..k']; }
      }
    }
  }

  /** A receiver that finds the port empty sleeps, is woken by the next message accepted, and gets it. */
  lemma SleeperServed(s: State, t: Thread, size: nat, x: Thread, r: Request)
    requires Outside(s, t) && Outside(s, x) && t != x && s.queue == [] && s.receivers == [] && !s.nowait
      && ValidRequest(r)
    ensures var run := [Receive(t, size), Send(x, r), ReceiveAgain(t)];
      && Legal(s, run[..1]) && After(s, run[..1]).receivers == [t] && Legal(s, run)
      && var u := After(s, run);
         && |u.received| == |s.received| + 1 && u.received[|s.received|].size == size
         && Cut(u.received[|s.received|], r.m) && u.queue == [] && Outside(u, t)
  {
    var run := [Receive(t, size), Send(x, r), ReceiveAgain(t)];
    hide Apply;
    var s1 := Apply(s, run[0]);
    ReceiveOutcome(s, run[0]);
    assert Outside(s1, x);
    var s2 := Apply(s1, run[1]);
    SendOutcome(s1, run[1]);
    ReceiveOutcome(s2, run[2]);
    ThreeSteps(s, run[0], run[1], run[2]);
  }

  lemma ThreeSteps(s: State, a: Step, b: Step, c: Step)
    requires Enabled(s, a) && Enabled(Apply(s, a), b) && Enabled(Apply(Apply(s, a), b), c)
    ensures Legal(s, [a, b, c][..1]) && After(s, [a, b, c][..1]) == Apply(s, a)
    ensures Legal(s, [a, b, c]) && After(s, [a, b, c]) == Apply(Apply(Apply(s, a), b), c)
  {
    hide Apply, Enabled;
    var s1 := Apply(s, a);
    assert [a, b, c][1..] == [b, c] && [b, c][1..] == [c] && [c][1..] == [] && [a, b, c][..1] == [a] && [a][1..] == [];
    assert Legal(Apply(s1, b), [c]) && Legal(s1, [b, c]);
    assert After(Apply(s1, b), [c]) == Apply(Apply(s1, b), c);
  }

  // ---------------------------------------------------------------- requests that are not valid

  /** All sends of a run are ones that p allows. */
  ghost predicate Uses(run: seq<Step>, p: Request -> bool) {
    forall i :: 0 <= i < |run| && run[i].Send? ==> p(run[i].r)
  }

  lemma {:induction false} NothingAccepted(s: State, run: seq<Step>, p: Request -> bool)
    requires s.queue == [] && s.senders == [] && s.wokenSenders == {} && Legal(s, run) && Uses(run, p)
    requires forall r :: p(r) ==> !ValidRequest(r)
    ensures After(s, run).senders == []
    decreases |run|
  {
    if run != [] { NothingAccepted(Apply(s, run[0]), run[1..], p); }
  }

  lemma Then(s: State, e: Step, run: seq<Step>, p: Request -> bool) returns (longer: seq<Step>)
    requires Enabled(s, e) && Legal(Apply(s, e), run) && Uses(run, p) && (e.Send? ==> p(e.r))
    ensures Legal(s, longer) && Uses(longer, p) && After(s, longer) == After(Apply(s, e), run)
  {
    longer := [e] + run;
    assert longer[1..] == run;
  }

  /** The state in which n copies of a message wait and nobody sleeps. */
  ghost function Filled(m: Message, n: nat): State {
    var ms := seq(n, i => m);
    INIT.(queue := ms, accepted := ms)
  }

  lemma {:induction false} FillPort(good: Request, n: nat, run: seq<Step>, p: Request -> bool)
    returns (longer: seq<Step>)
    requires ValidRequest(good) && p(good) && n <= MAX_MSGCOUNT && Legal(Filled(good.m, n), run) && Uses(run, p)
    ensures Legal(INIT, longer) && Uses(longer, p) && After(INIT, longer) == After(Filled(good.m, n), run)
    decreases n
  {
    if n == 0 {
      assert Filled(good.m, 0) == INIT;
      longer := run;
    } else {
      var e, s := Send(0, good), Filled(good.m, n - 1);
      assert Apply(s, e) == Filled(good.m, n);
      longer := Then(s, e, run, p);
      longer := FillPort(good, n - 1, longer, p);
    }
  }

  /** A sender that is woken and then refused keeps its wake-up from the next one: the port has a free place,
      nobody is on the way to it, and a sender sleeps. */
  lemma RefusedSender(good: Request, bad: Request, p: Request -> bool) returns (run: seq<Step>)
    requires ValidRequest(good) && !ValidRequest(bad) && p(good) && p(bad)
    ensures Legal(INIT, run) && Uses(run, p) && !SendersKept(After(INIT, run))
  {
    var s0 := Filled(good.m, MAX_MSGCOUNT);
    var s1 := Apply(s0, Send(1, bad));
    var s2 := Apply(s1, Send(2, good));
    var s3 := Apply(s2, Receive(3, 0));
    assert s3.wokenSenders == {1} && s3.senders == [2] && |s3.queue| == MAX_MSGCOUNT - 1;
    var s4 := Apply(s3, SendAgain(1));
    assert s4.wokenSenders == {} && s4.senders == [2] && |s4.queue| == MAX_MSGCOUNT - 1;
    run := Then(s3, SendAgain(1), [], p);
    run := Then(s2, Receive(3, 0), run, p);
    run := Then(s1, Send(2, good), run, p);
    run := Then(s0, Send(1, bad), run, p);
    run := FillPort(good, MAX_MSGCOUNT, run, p);
  }

  ghost predicate NeverLost(p: Request -> bool) {
    forall run {:trigger Uses(run, p)} :: Legal(INIT, run) && Uses(run, p) ==> SendersKept(After(INIT, run))
  }

  /** Senders that make only the requests p allows lose no wake-up exactly when p does not mix requests
      that pass the check with requests that fail it. */
  lemma SendersKeptExactlyWhen(p: Request -> bool)
    ensures NeverLost(p) <==> (forall r :: p(r) ==> ValidRequest(r)) || (forall r :: p(r) ==> !ValidRequest(r))
  {
    if forall r :: p(r) ==> ValidRequest(r) {
      forall run | Legal(INIT, run) && Uses(run, p)
        ensures SendersKept(After(INIT, run))
      {
        RunKeepsSenders(INIT, run);
      }
    } else if forall r :: p(r) ==> !ValidRequest(r) {
      forall run | Legal(INIT, run) && Uses(run, p)
        ensures SendersKept(After(INIT, run))
      {
        NothingAccepted(INIT, run, p);
      }
    } else {
      var bad :| p(bad) && !ValidRequest(bad);
      var good :| p(good) && ValidRequest(good);
      var run := RefusedSender(good, bad, p);
    }
  }
}
