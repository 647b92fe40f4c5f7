/** The user-level semaphore: an atomic counter decides the uncontended cases, and a kernel semaphore
    that starts at zero parks the threads that have to wait. Threads interleave between the atomic add
    and the kernel call, and there may be any number of them. */
module Qsem {

  type Thread = nat

  datatype Woken = Nobody | Somebody(thread: Thread)

  /** The counter, the kernel semaphore, and where every thread stands. `entering` and `leaving` are the
      threads between the atomic add of an acquire or a release and its kernel call; `hold` counts the
      units held; `signals` counts releases by threads that held nothing. */
  datatype State = State(count: int, kernelCount: int, queue: seq<Thread>, entering: set<Thread>, leaving: set<Thread>,
                         hold: multiset<Thread>, signals: nat)

  datatype Step =
    | AddForAcquire(t: Thread)
    | KernelAcquire(t: Thread)
    | AddForRelease(t: Thread)
    | KernelRelease(t: Thread)

  ghost function Init(count: int): State {
    State(count, 0, [], {}, {}, multiset{}, 0)
  }

  /** A thread inside neither call. */
  ghost predicate Outside(s: State, t: Thread) {
    t !in s.queue && t !in s.entering && t !in s.leaving
  }

  ghost predicate Enabled(s: State, e: Step) {
    match e
    case AddForAcquire(t) => Outside(s, t)
    case KernelAcquire(t) => t in s.entering
    case AddForRelease(t) => Outside(s, t)
    case KernelRelease(t) => t in s.leaving
  }

  ghost function Apply(s: State, e: Step): State
    requires Enabled(s, e)
  {
    match e
    case AddForAcquire(t) =>
      if s.count <= 0 then s.(count := s.count - 1, entering := s.entering + {t})
      else s.(count := s.count - 1, hold := s.hold + multiset{t})
    case KernelAcquire(t) =>
      var left := s.(entering := s.entering - {t}, kernelCount := s.kernelCount - 1);
      if s.kernelCount > 0 then left.(hold := s.hold + multiset{t}) else left.(queue := s.queue + [t])
    case AddForRelease(t) =>
      var given := if t in s.hold then s.(hold := s.hold - multiset{t}) else s.(signals := s.signals + 1);
      if s.count < 0 then given.(count := s.count + 1, leaving := s.leaving + {t}) else given.(count := s.count + 1)
    case KernelRelease(t) =>
      var left := s.(leaving := s.leaving - {t}, kernelCount := s.kernelCount + 1);
      if s.queue == [] then left
      else left.(queue := s.queue[1..], hold := s.hold + multiset{s.queue[0]})
  }

  ghost predicate Legal(s: State, run: seq<Step>)
    decreases |run|
  {
    run != [] ==> Enabled(s, run[0]) && Legal(Apply(s, run[0]), run[1..])
  }

  ghost function After(s: State, run: seq<Step>): State
    requires Legal(s, run)
    decreases |run|
  {
    if run == [] then s else After(Apply(s, run[0]), run[1..])
  }

  // ---------------------------------------------------------------- what every step keeps

  ghost function Deficit(n: int): nat { if n < 0 then -n else 0 }

  ghost predicate Distinct(q: seq<Thread>) {
    forall i, j :: 0 <= i < j < |q| ==> q[i] != q[j]
  }

  /** With initial count n. */
  ghost predicate Inv(s: State, n: int) {
    && |s.queue| == Deficit(s.kernelCount)
    && s.kernelCount == |s.entering| - |s.leaving| - Deficit(s.count) + Deficit(n)
    && |s.hold| == n + s.signals - s.count - |s.entering| - |s.queue|
    && Distinct(s.queue)
    && (forall t :: t in s.queue ==> t !in s.entering && t !in s.leaving)
    && s.entering !! s.leaving
  }

  lemma AcquireKeepsInv(s: State, t: Thread, n: int)
    requires Inv(s, n) && Outside(s, t)
    ensures Inv(Apply(s, AddForAcquire(t)), n)
  {
    assert |s.entering + {t}| == |s.entering| + 1;
  }

  lemma ReleaseKeepsInv(s: State, t: Thread, n: int)
    requires Inv(s, n) && Outside(s, t)
    ensures Inv(Apply(s, AddForRelease(t)), n)
  {
    assert |s.leaving + {t}| == |s.leaving| + 1;
  }

  lemma KernelKeepsInv(s: State, e: Step, n: int)
    requires Inv(s, n) && Enabled(s, e) && (e.KernelAcquire? || e.KernelRelease?)
    ensures Inv(Apply(s, e), n)
  {
    assert e.KernelAcquire? ==> |s.entering - {e.t}| == |s.entering| - 1;
    assert e.KernelRelease? ==> |s.leaving - {e.t}| == |s.leaving| - 1;
  }

  lemma StepKeepsInv(s: State, e: Step, n: int)
    requires Inv(s, n) && Enabled(s, e)
    ensures Inv(Apply(s, e), n)
  {
    match e
    case AddForAcquire(t) => AcquireKeepsInv(s, t, n);
    case AddForRelease(t) => ReleaseKeepsInv(s, t, n);
    case _ => KernelKeepsInv(s, e, n);
  }

  lemma {:induction false} RunKeepsInv(s: State, run: seq<Step>, n: int)
    requires Inv(s, n) && Legal(s, run)
    ensures Inv(After(s, run), n)
    decreases |run|
  {
    if run != [] {
      StepKeepsInv(s, run[0], n);
      RunKeepsInv(Apply(s, run[0]), run[1..], n);
    }
  }

  // ---------------------------------------------------------------- what the semaphore promises

  /** No more units are held than there were at first, plus those signalled in; none while that is negative. */
  ghost predicate Bounded(s: State, n: int) {
    |s.hold| <= if n + s.signals < 0 then 0 else n + s.signals
  }

  /** A thread waits only while every unit is held or on its way back. */
  ghost predicate WaitsForAll(s: State, n: int) {
    s.queue != [] ==> |s.hold| + |s.leaving| + Deficit(-s.count) == n + s.signals
  }

  lemma InvImplies(s: State, n: int)
    requires Inv(s, n) && n >= 0
    ensures Bounded(s, n) && WaitsForAll(s, n)
    ensures s.queue != [] && s.leaving == {} ==> |s.hold| == n + s.signals
  {
  }

  /** Every interleaving, from every non-negative count. */
  lemma EveryRun(n: nat, run: seq<Step>)
    requires Legal(Init(n), run)
    ensures var s := After(Init(n), run);
      && Bounded(s, n) && |s.hold| <= n + s.signals
      && |s.queue| == Deficit(s.kernelCount)
      && (s.queue != [] && s.leaving == {} ==> |s.hold| == n + s.signals)
      && (s.entering == s.leaving == {} ==> |s.queue| == Deficit(s.count))
  {
    RunKeepsInv(Init(n), run, n);
    InvImplies(After(Init(n), run), n);
  }

  /** From a negative count the bound holds at first, and one release and one acquire break it: the release hands its
      unit to a thread although the count is still not positive. */
  lemma NegativeCount(n: int, t: Thread) returns (run: seq<Step>)
    requires n < 0
    ensures Bounded(Init(n), n) && Legal(Init(n), run) && !Bounded(After(Init(n), run), n)
  {
    var s1 := Apply(Init(n), AddForRelease(t));
    var s2 := Apply(s1, KernelRelease(t));
    var s3 := Apply(s2, AddForAcquire(t));
    var s4 := Apply(s3, KernelAcquire(t));
    run := Before(s3, KernelAcquire(t), []);
    run := Before(s2, AddForAcquire(t), run);
    run := Before(s1, KernelRelease(t), run);
    run := Before(Init(n), AddForRelease(t), run);
    assert s4.hold == multiset{t} && s4.signals == 1;
  }

  lemma Before(s: State, e: Step, run: seq<Step>) returns (longer: seq<Step>)
    requires Enabled(s, e) && Legal(Apply(s, e), run)
    ensures Legal(s, longer) && After(s, longer) == After(Apply(s, e), run)
  {
    longer := [e] + run;
    assert longer[1..] == run;
  }

  /** The bound holds in every run exactly when the semaphore is created with a non-negative count. */
  lemma BoundedExactlyWhen(n: int)
    ensures (forall run :: Legal(Init(n), run) ==> Bounded(After(Init(n), run), n)) <==> n >= 0
  {
    if n >= 0 {
      forall run | Legal(Init(n), run) ensures Bounded(After(Init(n), run), n) { EveryRun(n, run); }
    } else {
      var run := NegativeCount(n, 0);
    }
  }

  // ---------------------------------------------------------------- the code

  /** The kernel semaphore. The kernel runs each call to its end before anything else runs. */
  class Semaphore {
    var count: int
    var queue: seq<Thread>

    constructor (initial: int)
      ensures count == initial && queue == []
    {
      count, queue := initial, [];
    }

    method Acquire(t: Thread) returns (blocked: bool)
      modifies this
      ensures blocked == (old(count) <= 0) && count == old(count) - 1
      ensures queue == if blocked then old(queue) + [t] else old(queue)
    {
      if count > 0 {
        count := count - 1;
        blocked := false;
      } else {
        count := count - 1;
        queue := queue + [t];
        blocked := true;
      }
    }

    method Release() returns (woken: Woken)
      modifies this
      ensures count == old(count) + 1
      ensures old(queue) == [] ==> woken == Nobody && queue == []
      ensures old(queue) != [] ==> woken == Somebody(old(queue)[0]) && queue == old(queue)[1..]
    {
      count := count + 1;
      if queue != [] {
        woken := Somebody(queue[0]);
        queue := queue[1..];
      } else {
        woken := Nobody;
      }
    }
  }

  /** The semaphore as its users see it; each method is one atomic step of a thread's call. */
  class FastSemaphore {
    var count: int
    const mutex: Semaphore
    ghost var entering: set<Thread>
    ghost var leaving: set<Thread>
    ghost var hold: multiset<Thread>
    ghost var signals: nat
    ghost const initial: int

    ghost function View(): State
      reads this, mutex
    {
      State(count, mutex.count, mutex.queue, entering, leaving, hold, signals)
    }

    ghost predicate Valid()
      reads this, mutex
    {
      Inv(View(), initial)
    }

    constructor (n: int)
      ensures Valid() && View() == Init(n) && initial == n && fresh(mutex)
    {
      mutex := new Semaphore(0);
      count := n;
      entering, leaving, hold, signals, initial := {}, {}, multiset{}, 0, n;
    }

    /** The atomic add of an acquire; the thread goes on to the kernel when it is not granted. */
    method AddForAcquire(t: Thread) returns (granted: bool)
      requires Valid() && Outside(View(), t)
      modifies this
      ensures Valid() && View() == Apply(old(View()), Step.AddForAcquire(t))
      ensures granted <==> t !in entering
    {
      StepKeepsInv(View(), Step.AddForAcquire(t), initial);
      var was := count;
      count := count - 1;
      granted := was > 0;
      if granted { hold := hold + multiset{t}; } else { entering := entering + {t}; }
    }

    method KernelAcquire(t: Thread) returns (blocked: bool)
      requires Valid() && t in entering
      modifies this, mutex
      ensures Valid() && View() == Apply(old(View()), Step.KernelAcquire(t))
      ensures blocked <==> t in mutex.queue
    {
      StepKeepsInv(View(), Step.KernelAcquire(t), initial);
      blocked := mutex.Acquire(t);
      entering := entering - {t};
      if !blocked { hold := hold + multiset{t}; }
    }

    method AddForRelease(t: Thread) returns (done: bool)
      requires Valid() && Outside(View(), t)
      modifies this
      ensures Valid() && View() == Apply(old(View()), Step.AddForRelease(t))
      ensures done <==> t !in leaving
    {
      hide Inv;
      StepKeepsInv(View(), Step.AddForRelease(t), initial);
      var was := count;
      count := count + 1;
      done := was >= 0;
      if t in hold { hold := hold - multiset{t}; } else { signals := signals + 1; }
      if !done { leaving := leaving + {t}; }
    }

    method KernelRelease(t: Thread) returns (woken: Woken)
      requires Valid() && t in leaving
      modifies this, mutex
      ensures Valid() && View() == Apply(old(View()), Step.KernelRelease(t))
      ensures woken.Nobody? <==> old(mutex.queue) == []
    {
      StepKeepsInv(View(), Step.KernelRelease(t), initial);
      woken := mutex.Release();
      leaving := leaving - {t};
      if woken.Somebody? { hold := hold + multiset{woken.thread}; }
    }
  }
}
