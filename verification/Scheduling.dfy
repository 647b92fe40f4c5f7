/** Where the kernel keeps its tasks. Kernel code runs to its end between switches, so every system call
    and interrupt is one step on the value below; the class at the end of the file carries the steps out
    on the kernel's own fields. */
module Scheduling {
  import opened KernelLists
  datatype Flag = Running | Ready | Dead | Waiting | SleepIrq

  const IDLE: Task := 0
  const RUN := Queue(0)
  const REAPER := Queue(1)

  /** `on` maps each task to the resource its waiting_on field names; a task whose field is null is absent.
      `exited` is set when nothing is left to run and no task is alive. */
  datatype State = State(current: Task, flags: map<Task, Flag>, on: map<Task, Resource>,
                         queues: map<Resource, seq<Task>>, irq: map<Task, int>, irqTask: map<int, Task>,
                         live: int, exited: bool)

  // ---------------------------------------------------------------- queues

  ghost predicate Distinct(q: seq<Task>) {
    forall i, j :: 0 <= i < j < |q| ==> q[i] != q[j]
  }

  ghost predicate NamesIt(s: State, r: Resource, t: Task) {
    t in s.on && s.on[t] == r
  }

  ghost predicate QueueOk(s: State, r: Resource)
    requires r in s.queues
  {
    Distinct(s.queues[r]) && forall t {:trigger NamesIt(s, r, t)} :: t in s.queues[r] <==> NamesIt(s, r, t)
  }

  /** Every queue holds exactly the tasks whose waiting_on names it, once each. */
  ghost predicate QueuesOk(s: State) {
    && RUN in s.queues && REAPER in s.queues && IDLE in s.flags && IDLE !in s.on
    && (forall r {:trigger QueueOk(s, r)} :: r in s.queues ==> QueueOk(s, r))
    && (forall t :: t in s.on ==> t in s.flags && s.on[t] in s.queues)
    && (forall t :: t in s.flags && t != IDLE ==> EndOf(t) in s.queues)
  }

  function Enqueue(s: State, r: Resource, t: Task): State
    requires r in s.queues
  {
    s.(flags := s.flags[t := Waiting], on := s.on[t := r], queues := s.queues[r := s.queues[r] + [t]])
  }

  function Dequeue(s: State, r: Resource): State
    requires r in s.queues && s.queues[r] != []
  {
    var t := s.queues[r][0];
    s.(flags := s.flags[t := Ready], on := s.on - {t}, queues := s.queues[r := s.queues[r][1..]])
  }

  lemma EnqueueOk(s: State, r: Resource, t: Task)
    requires QueuesOk(s) && r in s.queues && t in s.flags && t !in s.on && t != IDLE
    ensures QueuesOk(Enqueue(s, r, t))
  {
    var u := Enqueue(s, r, t);
    assert QueueOk(s, r) && !NamesIt(s, r, t);
    forall r' | r' in u.queues ensures QueueOk(u, r') {
      assert QueueOk(s, r');
      forall x ensures x in u.queues[r'] <==> NamesIt(u, r', x) {
        assert NamesIt(s, r', x) <==> x in s.queues[r'];
        assert NamesIt(s, r', t) <==> t in s.queues[r'];
      }
    }
  }

  lemma DequeueOk(s: State, r: Resource)
    requires QueuesOk(s) && r in s.queues && s.queues[r] != []
    ensures QueuesOk(Dequeue(s, r)) && s.queues[r][0] in s.on && s.on[s.queues[r][0]] == r
  {
    var u, t := Dequeue(s, r), s.queues[r][0];
    assert QueueOk(s, r) && NamesIt(s, r, t);
    forall r' | r' in u.queues ensures QueueOk(u, r') {
      assert QueueOk(s, r');
      forall x ensures x in u.queues[r'] <==> NamesIt(u, r', x) {
        assert NamesIt(s, r', x) <==> x in s.queues[r'];
        assert r' == r ==> s.queues[r] == [t] + u.queues[r];
      }
    }
  }

  // ---------------------------------------------------------------- the invariant

  /** A task that is not running sleeps on an interrupt, or waits in the queue it names; the dead wait for
      the reaper and nothing else does. */
  ghost predicate Parked(s: State, t: Task) {
    && t in s.flags
    && if t in s.on then s.flags[t] == (if s.on[t] == REAPER then Dead else Waiting) else s.flags[t] == SleepIrq
  }

  ghost predicate OthersParked(s: State, x: Task) {
    forall t {:trigger Parked(s, t)} :: t in s.flags && t != IDLE && t != x ==> Parked(s, t)
  }

  ghost function Alive(s: State): set<Task> {
    set t | t in s.flags && t != IDLE && s.flags[t] != Dead
  }

  ghost predicate Inv(s: State) {
    && QueuesOk(s) && OthersParked(s, s.current)
    && s.current in s.flags && s.flags[s.current] == Running && s.current !in s.on
    && s.live == |Alive(s)|
  }

  /** How many of the three places a task is in. */
  ghost function Places(s: State, t: Task): nat
    requires t in s.flags
  {
    (if t == s.current then 1 else 0) + (if s.flags[t] == SleepIrq then 1 else 0) + if t in s.on then 1 else 0
  }

  /** A task is current, asleep on an interrupt, or in one queue, and in one queue only, the one it names. */
  lemma OnePlace(s: State, t: Task)
    requires Inv(s) && t in s.flags && t != IDLE
    ensures Places(s, t) == 1
    ensures forall r {:trigger s.queues[r]} :: r in s.queues ==> (t in s.queues[r] <==> NamesIt(s, r, t))
    ensures t in s.on ==> t in s.queues[s.on[t]] && (s.flags[t] == Dead <==> s.on[t] == REAPER)
  {
    assert t == s.current || Parked(s, t);
    forall r | r in s.queues ensures t in s.queues[r] <==> NamesIt(s, r, t) {
      assert QueueOk(s, r);
    }
    assert t in s.on ==> NamesIt(s, s.on[t], t);
  }

  lemma IdleNowhere(s: State, r: Resource)
    requires Inv(s) && r in s.queues
    ensures IDLE !in s.queues[r]
  {
    assert QueueOk(s, r) && !NamesIt(s, r, IDLE);
  }

  // ---------------------------------------------------------------- switching

  /** Puts a detached task at the end of the run queue. */
  function Wake(s: State, t: Task): State
    requires RUN in s.queues
  {
    Enqueue(s, RUN, t)
  }

  function Requeued(s: State): State
    requires RUN in s.queues
  {
    if s.current != IDLE then Enqueue(s, RUN, s.current) else s
  }

  function Run(s: State, t: Task): State {
    s.(current := t, flags := s.flags[t := Running])
  }

  function Switch(s: State): (u: State)
    requires RUN in s.queues && s.current in s.flags
    ensures u.queues.Keys == s.queues.Keys
  {
    if s.queues[RUN] == [] && s.flags[s.current] == Running then s else
    Picked(if s.flags[s.current] == Running then Requeued(s) else s)
  }

  /** The next task to run: the first of the run queue, or idle when there is none. */
  function Picked(s: State): State
    requires RUN in s.queues
  {
    if s.queues[RUN] != [] then Run(Dequeue(s, RUN), s.queues[RUN][0])
    else Run(s.(exited := s.live == 0), IDLE)
  }

  function Preempt(s: State, t: Task): State
    requires RUN in s.queues
  {
    Run(Requeued(s), t)
  }

  /** Before a switch, the current task is running, or parked already. */
  ghost predicate Between(s: State) {
    && QueuesOk(s) && OthersParked(s, s.current) && s.current in s.flags && s.live == |Alive(s)|
    && if s.flags[s.current] == Running then s.current !in s.on else s.current != IDLE && Parked(s, s.current)
  }

  /** The current task runs, x is off every queue, and the rest are parked. */
  ghost predicate HandingOver(s: State, x: Task) {
    && QueuesOk(s) && s.current in s.flags && s.flags[s.current] == Running && s.current !in s.on
       && s.live == |Alive(s)|
    && forall t {:trigger Parked(s, t)} :: t in s.flags && t != IDLE && t != s.current && t != x ==> Parked(s, t)
  }

  lemma RequeuedOk(s: State, x: Task)
    requires HandingOver(s, x)
    ensures QueuesOk(Requeued(s)) && OthersParked(Requeued(s), x) && Requeued(s).live == |Alive(Requeued(s))|
  {
    var u := Requeued(s);
    if s.current != IDLE { EnqueueOk(s, RUN, s.current); }
    forall t | t in u.flags && t != IDLE && t != x ensures Parked(u, t) {
      assert t != s.current ==> Parked(s, t);
    }
    assert Alive(u) == Alive(s);
  }

  /** Every task is parked, and the one that is about to run has been taken off its queue. */
  lemma RunOk(s: State, t: Task)
    requires QueuesOk(s) && OthersParked(s, t) && t in s.flags && t !in s.on && s.flags[t] != Dead
      && s.live == |Alive(s)|
    ensures Inv(Run(s, t))
  {
    var u := Run(s, t);
    forall r | r in u.queues ensures QueueOk(u, r) {
      assert QueueOk(s, r);
      forall x ensures x in u.queues[r] <==> NamesIt(u, r, x) { assert NamesIt(s, r, x) <==> x in s.queues[r]; }
    }
    forall x | x in u.flags && x != IDLE && x != t ensures Parked(u, x) { assert Parked(s, x); }
    assert Alive(u) == Alive(s);
  }

  lemma DequeuedParked(s: State, r: Resource)
    requires QueuesOk(s) && OthersParked(s, IDLE) && r in s.queues && s.queues[r] != [] && r != REAPER
    ensures var u, t := Dequeue(s, r), s.queues[r][0];
      OthersParked(u, t) && t in u.flags && t !in u.on && u.flags[t] == Ready && t != IDLE && Alive(u) == Alive(s)
  {
    var u, t := Dequeue(s, r), s.queues[r][0];
    DequeueOk(s, r);
    assert Parked(s, t);
    forall x | x in u.flags && x != IDLE && x != t ensures Parked(u, x) { assert Parked(s, x); }
  }

  lemma SwitchOk(s: State)
    requires Between(s)
    ensures Inv(Switch(s))
  {
    if !(s.queues[RUN] == [] && s.flags[s.current] == Running) {
      var s1 := if s.flags[s.current] == Running then Requeued(s) else s;
      if s.flags[s.current] == Running { RequeuedOk(s, IDLE); } else { ParkedToo(s); }
      if s1.queues[RUN] != [] {
        DequeueOk(s1, RUN);
        DequeuedParked(s1, RUN);
        RunOk(Dequeue(s1, RUN), s1.queues[RUN][0]);
      } else {
        IdleRuns(s1, s.live == 0);
      }
    }
  }

  lemma ParkedToo(s: State)
    requires OthersParked(s, s.current) && Parked(s, s.current)
    ensures OthersParked(s, IDLE)
  {
    forall t | t in s.flags && t != IDLE ensures Parked(s, t) { assert t != s.current ==> Parked(s, t); }
  }

  lemma IdleRuns(s: State, gone: bool)
    requires QueuesOk(s) && OthersParked(s, IDLE) && s.live == |Alive(s)|
    ensures Inv(Run(s.(exited := gone), IDLE))
  {
    var u := Run(s.(exited := gone), IDLE);
    forall r | r in u.queues ensures QueueOk(u, r) {
      assert QueueOk(s, r);
      forall x ensures x in u.queues[r] <==> NamesIt(u, r, x) { assert NamesIt(s, r, x) <==> x in s.queues[r]; }
    }
    forall x | x in u.flags && x != IDLE ensures Parked(u, x) { assert Parked(s, x); }
    assert Alive(u) == Alive(s);
  }

  lemma PreemptOk(s: State, t: Task)
    requires HandingOver(s, t) && t in s.flags && t !in s.on && s.flags[t] != Dead && t != s.current
    ensures Inv(Preempt(s, t))
  {
    RequeuedOk(s, t);
    RunOk(Requeued(s), t);
  }

  // ---------------------------------------------------------------- waking

  /** Moves the first task blocked on r to the run queue, if there is one. */
  function WakeFirst(s: State, r: Resource): (u: State)
    requires r in s.queues && RUN in s.queues && r != RUN
    ensures u.queues.Keys == s.queues.Keys && s.flags.Keys <= u.flags.Keys && u.current == s.current
    ensures s.queues[r] != [] ==> u.queues[r] == s.queues[r][1..]
  {
    if s.queues[r] == [] then s else Wake(Dequeue(s, r), s.queues[r][0])
  }

  function WakeAll(s: State, r: Resource): (u: State)
    requires r in s.queues && RUN in s.queues && r != RUN
    ensures u.queues.Keys == s.queues.Keys && s.flags.Keys <= u.flags.Keys && u.current == s.current
    ensures u.queues[r] == []
    decreases |s.queues[r]|
  {
    if s.queues[r] == [] then s else WakeAll(WakeFirst(s, r), r)
  }

  /** Everything but x and y is parked; x is off every queue a task can be woken from, y off every queue. */
  ghost predicate Rest(s: State, x: Task, y: Task) {
    && QueuesOk(s) && s.live == |Alive(s) - {y}| && y !in s.on && (x in s.on ==> s.on[x] == REAPER)
    && forall t {:trigger Parked(s, t)} :: t in s.flags && t != IDLE && t != x && t != y ==> Parked(s, t)
  }

  ghost predicate SameFor(s: State, u: State, x: Task) {
    && (x in u.flags <==> x in s.flags) && (x in s.flags ==> u.flags[x] == s.flags[x])
    && (x in u.on <==> x in s.on) && (x in s.on ==> u.on[x] == s.on[x])
  }

  /** What waking the first task blocked on r does to the tables. */
  lemma Woken(s: State, r: Resource)
    requires QueuesOk(s) && r in s.queues && r != RUN && s.queues[r] != []
    ensures var u, t := WakeFirst(s, r), s.queues[r][0];
      && QueuesOk(u) && t in s.flags && t != IDLE && NamesIt(s, r, t) && u.live == s.live
      && u.flags == s.flags[t := Waiting] && u.on == s.on[t := RUN]
  {
    var d, t := Dequeue(s, r), s.queues[r][0];
    DequeueOk(s, r);
    EnqueueOk(d, RUN, t);
  }

  lemma WakeFirstOk(s: State, r: Resource, x: Task, y: Task)
    requires Rest(s, x, y) && r in s.queues && r != RUN && r != REAPER
    ensures var u := WakeFirst(s, r);
      Rest(u, x, y) && SameFor(s, u, x) && SameFor(s, u, y) && u.flags.Keys == s.flags.Keys
  {
    if s.queues[r] != [] {
      var t, u := s.queues[r][0], WakeFirst(s, r);
      Woken(s, r);
      WokenParked(s, u, t, x, y);
    }
  }

  lemma WokenParked(s: State, u: State, t: Task, x: Task, y: Task)
    requires Rest(s, x, y) && QueuesOk(u) && t in s.on && s.on[t] != REAPER && u.live == s.live && t != IDLE
      && t in s.flags
    requires u.flags == s.flags[t := Waiting] && u.on == s.on[t := RUN]
    ensures Rest(u, x, y) && SameFor(s, u, x) && SameFor(s, u, y) && u.flags.Keys == s.flags.Keys
  {
    assert Parked(s, t) || t == x || t == y;
    forall z | z in u.flags && z != IDLE && z != x && z != y ensures Parked(u, z) { assert Parked(s, z); }
    StillAlive(s, u, t);
  }

  lemma StillAlive(s: State, u: State, t: Task)
    requires t in s.flags && s.flags[t] != Dead && u.flags == s.flags[t := Waiting]
    ensures Alive(u) == Alive(s)
  {
  }

  lemma {:induction false} WakeAllOk(s: State, r: Resource, x: Task, y: Task)
    requires Rest(s, x, y) && r in s.queues && r != RUN && r != REAPER
    ensures var u := WakeAll(s, r);
      Rest(u, x, y) && SameFor(s, u, x) && SameFor(s, u, y) && u.flags.Keys == s.flags.Keys
    decreases |s.queues[r]|
  {
    if s.queues[r] != [] {
      WakeFirstOk(s, r, x, y);
      WakeAllOk(WakeFirst(s, r), r, x, y);
    }
  }

  lemma InvIsRest(s: State)
    requires Inv(s)
    ensures Rest(s, s.current, IDLE)
  {
    assert Alive(s) - {IDLE} == Alive(s);
    forall t | t in s.flags && t != IDLE && t != s.current ensures Parked(s, t) { assert Parked(s, t); }
  }

  lemma RestIsInv(s: State)
    requires Rest(s, s.current, IDLE) && s.current in s.flags && s.flags[s.current] == Running && s.current !in s.on
    ensures Inv(s)
  {
    assert Alive(s) - {IDLE} == Alive(s);
    forall t | t in s.flags && t != IDLE && t != s.current ensures Parked(s, t) { assert Parked(s, t); }
  }

  // ---------------------------------------------------------------- system calls and interrupts

  datatype Step =
    | Tick                          // the timer interrupt, or a task giving up the processor
    | Listen(n: int)                // a task asks for interrupt n
    | SleepOnIrq                    // a task that listens to an interrupt waits for it
    | Interrupt(n: int)             // interrupt n arrives
    | Wait(r: Resource)             // a call that blocks on a resource
    | Signal(r: Resource)           // a call that wakes the first task blocked on a resource
    | HandOff(r: Resource)          // a semaphore release: the first task blocked runs at once
    | Create(r: Resource)           // a resource is bound
    | Destroy(r: Resource)          // a resource is released, and everything blocked on it woken
    | Spawn(t: Task)                // a task is created
    | Terminate(deaths: Resource)   // the current task ends, and the reaper's semaphore is signalled
    | Reap                          // the reaper destroys the task that ended first

  /** A queue that tasks may block on: not one of the scheduler's own. */
  predicate Blockable(s: State, r: Resource) {
    r in s.queues && r != RUN && r != REAPER
  }

  ghost predicate Enabled(s: State, e: Step) {
    && !s.exited
    && match e
       case Tick => true
       case Interrupt(n) => true
       case Listen(n) => s.current != IDLE
       case SleepOnIrq => s.current != IDLE
       case Wait(r) => s.current != IDLE && Blockable(s, r)
       case Signal(r) => s.current != IDLE && Blockable(s, r)
       case HandOff(r) => s.current != IDLE && Blockable(s, r)
       case Create(r) => s.current != IDLE && r.Queue? && r !in s.queues
       case Destroy(r) => s.current != IDLE && Blockable(s, r) && r.Queue?
       case Spawn(t) => s.current != IDLE && t !in s.flags && EndOf(t) !in s.queues
       case Terminate(deaths) => s.current != IDLE && Blockable(s, deaths)
       case Reap => s.current != IDLE && REAPER in s.queues && s.queues[REAPER] != []
  }

  /** Wakes what is blocked on r, and drops r. */
  function Released(s: State, r: Resource): State
    requires r in s.queues && RUN in s.queues && r != RUN
  {
    var u := WakeAll(s, r);
    u.(queues := u.queues - {r})
  }

  function Spawned(s: State, t: Task): State
    requires RUN in s.queues
  {
    var made := s.(flags := s.flags[t := Ready], queues := s.queues[EndOf(t) := []], irq := s.irq - {t});
    Wake(made.(live := s.live + 1), t)
  }

  /** The first of the dead is taken off the reaper's queue, what waited for its end is woken, and it is freed. */
  function Buried(s: State): State
    requires REAPER in s.queues && RUN in s.queues && s.queues[REAPER] != [] && EndOf(s.queues[REAPER][0]) in s.queues
  {
    var t := s.queues[REAPER][0];
    var u := WakeAll(Dequeue(s, REAPER), EndOf(t));
    u.(queues := u.queues - {EndOf(t)}, flags := u.flags - {t})
  }

  function MarkedDead(s: State): State
    requires REAPER in s.queues
  {
    var s1 := Enqueue(s.(live := s.live - 1), REAPER, s.current);
    s1.(flags := s1.flags[s.current := Dead])
  }

  function Ended(s: State, deaths: Resource): (u: State)
    requires REAPER in s.queues && RUN in s.queues && Blockable(s, deaths) && EndOf(s.current) in s.queues
    ensures u.queues.Keys == s.queues.Keys && u.current == s.current && u.current in u.flags
  {
    WakeFirst(WakeAll(MarkedDead(s), EndOf(s.current)), deaths)
  }

  function Asleep(s: State): State {
    s.(flags := s.flags[s.current := SleepIrq])
  }

  predicate Listens(s: State) {
    s.current in s.irq && s.irq[s.current] != 0
  }

  ghost predicate Shaped(s: State) {
    && RUN in s.queues && REAPER in s.queues && s.current in s.flags
    && (s.current != IDLE ==> EndOf(s.current) in s.queues)
    && (s.queues[REAPER] != [] ==> EndOf(s.queues[REAPER][0]) in s.queues)
  }

  ghost function Apply(s: State, e: Step): (u: State)
    requires Shaped(s) && Enabled(s, e)
    ensures RUN in u.queues
  {
    match e
    case Tick => Switch(s)
    case Listen(n) => if 0 < n < 16 then s.(irq := s.irq[s.current := n], irqTask := s.irqTask[n := s.current]) else s
    case SleepOnIrq => Switch(if Listens(s) then Asleep(s) else s)
    case Interrupt(n) => if Answers(s, n) then Preempt(s, s.irqTask[n]) else s
    case Wait(r) => Switch(Enqueue(s, r, s.current))
    case Signal(r) => WakeFirst(s, r)
    case HandOff(r) => if s.queues[r] == [] then s else Preempt(Dequeue(s, r), s.queues[r][0])
    case Create(r) => s.(queues := s.queues[r := []])
    case Destroy(r) => Released(s, r)
    case Spawn(t) => Spawned(s, t)
    case Terminate(deaths) => Switch(Ended(s, deaths))
    case Reap => Buried(s)
  }

  /** The task that asked for the interrupt last is still there, and waits for it. */
  predicate Answers(s: State, n: int) {
    n in s.irqTask && s.irqTask[n] != IDLE && s.irqTask[n] in s.flags && s.flags[s.irqTask[n]] == SleepIrq
  }

  lemma InvShaped(s: State)
    requires Inv(s)
    ensures Shaped(s)
  {
    if s.queues[REAPER] != [] { DequeueOk(s, REAPER); }
  }

  lemma WaitBetween(s: State, r: Resource)
    requires Inv(s) && s.current != IDLE && Blockable(s, r)
    ensures Between(Enqueue(s, r, s.current))
  {
    var u := Enqueue(s, r, s.current);
    EnqueueOk(s, r, s.current);
    forall t | t in u.flags && t != IDLE && t != s.current ensures Parked(u, t) { assert Parked(s, t); }
    assert Alive(u) == Alive(s);
  }

  lemma SleepBetween(s: State)
    requires Inv(s) && s.current != IDLE
    ensures Between(Asleep(s))
  {
    var u := Asleep(s);
    SameQueues(s, u);
    forall t | t in u.flags && t != IDLE && t != s.current ensures Parked(u, t) { assert Parked(s, t); }
    assert Alive(u) == Alive(s);
  }

  lemma SameQueues(s: State, u: State)
    requires QueuesOk(s) && u.queues == s.queues && u.on == s.on && u.flags.Keys == s.flags.Keys
    ensures QueuesOk(u)
  {
    forall r | r in u.queues ensures QueueOk(u, r) {
      assert QueueOk(s, r);
      forall x ensures x in u.queues[r] <==> NamesIt(u, r, x) { assert NamesIt(s, r, x) <==> x in s.queues[r]; }
    }
  }

  lemma InterruptOk(s: State, t: Task)
    requires Inv(s) && t in s.flags && s.flags[t] == SleepIrq && t != IDLE
    ensures Inv(Preempt(s, t))
  {
    assert Parked(s, t);
    forall x | x in s.flags && x != IDLE && x != s.current && x != t ensures Parked(s, x) { assert Parked(s, x); }
    PreemptOk(s, t);
  }

  lemma HandOffOk(s: State, r: Resource)
    requires Inv(s) && Blockable(s, r) && s.queues[r] != []
    ensures Inv(Preempt(Dequeue(s, r), s.queues[r][0]))
  {
    var d, t := Dequeue(s, r), s.queues[r][0];
    DequeueOk(s, r);
    assert Parked(s, t);
    forall x | x in d.flags && x != IDLE && x != s.current && x != t ensures Parked(d, x) { assert Parked(s, x); }
    assert Alive(d) == Alive(s);
    PreemptOk(d, t);
  }

  lemma SignalOk(s: State, r: Resource)
    requires Inv(s) && Blockable(s, r)
    ensures Inv(WakeFirst(s, r))
  {
    InvIsRest(s);
    WakeFirstOk(s, r, s.current, IDLE);
    RestIsInv(WakeFirst(s, r));
  }

  lemma CreateOk(s: State, r: Resource)
    requires Inv(s) && r !in s.queues
    ensures Inv(s.(queues := s.queues[r := []]))
  {
    var u := s.(queues := s.queues[r := []]);
    forall r' | r' in u.queues ensures QueueOk(u, r') {
      assert r' != r ==> QueueOk(s, r');
      forall x ensures x in u.queues[r'] <==> NamesIt(u, r', x) {
        assert r' != r ==> (NamesIt(s, r', x) <==> x in s.queues[r']);
      }
    }
    forall t | t in u.flags && t != IDLE && t != s.current ensures Parked(u, t) { assert Parked(s, t); }
    assert Alive(u) == Alive(s);
  }

  /** Dropping an empty queue, and a task that is off every queue, from the tables. */
  lemma DropOk(s: State, r: Resource, gone: set<Task>)
    requires QueuesOk(s) && r in s.queues && s.queues[r] == [] && r != RUN && r != REAPER && IDLE !in gone
    requires forall t :: t in gone ==> t !in s.on
    requires forall t :: t in s.flags && r == EndOf(t) && t != IDLE ==> t in gone
    ensures QueuesOk(s.(queues := s.queues - {r}, flags := s.flags - gone))
  {
    var u := s.(queues := s.queues - {r}, flags := s.flags - gone);
    assert QueueOk(s, r);
    forall r' | r' in u.queues ensures QueueOk(u, r') {
      assert QueueOk(s, r');
      forall x ensures x in u.queues[r'] <==> NamesIt(u, r', x) { assert NamesIt(s, r', x) <==> x in s.queues[r']; }
    }
    forall t | t in u.on ensures t in u.flags && u.on[t] in u.queues {
      assert NamesIt(s, r, t) <==> t in s.queues[r];
    }
  }

  lemma DestroyOk(s: State, r: Resource)
    requires Inv(s) && Blockable(s, r) && r.Queue?
    ensures Inv(Released(s, r))
  {
    InvIsRest(s);
    hide Rest, WakeAll;
    WakeAllOk(s, r, s.current, IDLE);
    DroppedRest(WakeAll(s, r), r, s.current);
    RestIsInv(Released(s, r));
  }

  lemma DroppedRest(s: State, r: Resource, x: Task)
    requires Rest(s, x, IDLE) && r in s.queues && s.queues[r] == [] && r.Queue? && r != RUN && r != REAPER
    ensures Rest(s.(queues := s.queues - {r}), x, IDLE)
  {
    var u := s.(queues := s.queues - {r});
    DropOk(s, r, {});
    assert s.flags - {} == s.flags;
    forall t | t in u.flags && t != IDLE && t != x ensures Parked(u, t) { assert Parked(s, t); }
    assert Alive(u) == Alive(s);
  }

  lemma Unknown(s: State, t: Task)
    requires Inv(s) && t !in s.flags
    ensures t != IDLE && t !in s.on && RUN in s.queues
  {
  }

  lemma SpawnOk(s: State, t: Task)
    requires Inv(s) && t !in s.flags && EndOf(t) !in s.queues
    ensures Inv(Spawned(s, t))
  {
    hide QueuesOk, Alive, OthersParked;
    Unknown(s, t);
    var s1 := s.(queues := s.queues[EndOf(t) := []]);
    CreateOk(s, EndOf(t));
    var s2 := s1.(live := s.live + 1, flags := s.flags[t := Ready], irq := s.irq - {t});
    NewTask(s1, s2, t);
    EnqueueOk(s2, RUN, t);
    SpawnedParked(s, Enqueue(s2, RUN, t), t);
    assert Spawned(s, t) == Enqueue(s2, RUN, t);
  }

  lemma NewTask(s: State, u: State, t: Task)
    requires QueuesOk(s) && u.queues == s.queues && u.on == s.on && u.flags == s.flags[t := Ready]
      && EndOf(t) in s.queues
    ensures QueuesOk(u)
  {
    forall r | r in u.queues ensures QueueOk(u, r) {
      assert QueueOk(s, r);
      forall x ensures x in u.queues[r] <==> NamesIt(u, r, x) { assert NamesIt(s, r, x) <==> x in s.queues[r]; }
    }
  }

  lemma SpawnedParked(s: State, u: State, t: Task)
    requires Inv(s) && t !in s.flags && QueuesOk(u) && u.current == s.current && u.live == s.live + 1
    requires u.flags == s.flags[t := Waiting] && u.on == s.on[t := RUN]
    ensures Inv(u)
  {
    forall x | x in u.flags && x != IDLE && x != u.current ensures Parked(u, x) { assert x != t ==> Parked(s, x); }
    assert Alive(u) == Alive(s) + {t};
  }

  lemma MarkedDeadOk(s: State)
    requires Inv(s) && s.current != IDLE
    ensures Rest(MarkedDead(s), s.current, IDLE) && Parked(MarkedDead(s), s.current)
  {
    var s1 := Enqueue(s, REAPER, s.current);
    EnqueueOk(s, REAPER, s.current);
    var u := MarkedDead(s);
    SameQueues(s1, u);
    forall x | x in u.flags && x != IDLE && x != s.current ensures Parked(u, x) { assert Parked(s, x); }
    assert Alive(u) - {IDLE} == Alive(s) - {s.current};
  }

  lemma EndedOk(s: State, deaths: Resource)
    requires Inv(s) && s.current != IDLE && Blockable(s, deaths)
    ensures var u := Ended(s, deaths); Rest(u, s.current, IDLE) && SameFor(MarkedDead(s), u, s.current)
  {
    var c := s.current;
    MarkedDeadOk(s);
    var s1 := MarkedDead(s);
    WakeAllOk(s1, EndOf(c), c, IDLE);
    WakeFirstOk(WakeAll(s1, EndOf(c)), deaths, c, IDLE);
  }

  lemma RestIsBetween(u: State)
    requires Rest(u, u.current, IDLE) && u.current != IDLE && Parked(u, u.current) && u.flags[u.current] != Running
    ensures Between(u)
  {
    hide QueuesOk;
    assert Alive(u) - {IDLE} == Alive(u);
    forall t | t in u.flags && t != IDLE && t != u.current ensures Parked(u, t) { assert Parked(u, t); }
  }

  lemma EndedBetween(s: State, deaths: Resource)
    requires Inv(s) && s.current != IDLE && Blockable(s, deaths)
    ensures Between(Ended(s, deaths))
  {
    MarkedDeadOk(s);
    EndedOk(s, deaths);
    hide Ended, Rest, Between, Inv;
    RestIsBetween(Ended(s, deaths));
  }

  /** Off the reaper's queue, a dead task is counted nowhere. */
  lemma TakenFromReaper(s: State)
    requires Inv(s) && s.queues[REAPER] != []
    ensures var t := s.queues[REAPER][0];
      Rest(Dequeue(s, REAPER), s.current, t) && SameFor(s, Dequeue(s, REAPER), s.current) && t != IDLE && t != s.current
  {
    var d, t := Dequeue(s, REAPER), s.queues[REAPER][0];
    DequeueOk(s, REAPER);
    assert Parked(s, t);
    forall x | x in d.flags && x != IDLE && x != s.current && x != t ensures Parked(d, x) { assert Parked(s, x); }
    assert Alive(d) - {t} == Alive(s);
  }

  lemma FreedOk(w: State, t: Task)
    requires Rest(w, w.current, t) && EndOf(t) in w.queues && w.queues[EndOf(t)] == [] && t != IDLE && t != w.current
    requires w.current in w.flags && w.flags[w.current] == Running && w.current !in w.on
    ensures Inv(w.(queues := w.queues - {EndOf(t)}, flags := w.flags - {t}))
  {
    var u := w.(queues := w.queues - {EndOf(t)}, flags := w.flags - {t});
    DropOk(w, EndOf(t), {t});
    forall x | x in u.flags && x != IDLE && x != u.current ensures Parked(u, x) { assert Parked(w, x); }
    assert Alive(u) == Alive(w) - {t};
  }

  lemma ReapOk(s: State)
    requires Inv(s) && Shaped(s) && s.queues[REAPER] != []
    ensures Inv(Buried(s))
  {
    var d, t := Dequeue(s, REAPER), s.queues[REAPER][0];
    TakenFromReaper(s);
    WakeAllOk(d, EndOf(t), s.current, t);
    FreedOk(WakeAll(d, EndOf(t)), t);
  }

  lemma StepKeepsInv(s: State, e: Step)
    requires Inv(s) && Shaped(s) && Enabled(s, e)
    ensures Inv(Apply(s, e))
  {
    match e
    case Tick => SwitchOk(s);
    case Listen(n) => SameQueues(s, Apply(s, e)); ListenOk(s, n);
    case SleepOnIrq => if Listens(s) { SleepBetween(s); } SwitchOk(if Listens(s) then Asleep(s) else s);
    case Interrupt(n) => if Answers(s, n) { InterruptOk(s, s.irqTask[n]); }
    case Wait(r) => WaitBetween(s, r); SwitchOk(Enqueue(s, r, s.current));
    case Signal(r) => SignalOk(s, r);
    case HandOff(r) => if s.queues[r] != [] { HandOffOk(s, r); }
    case Create(r) => CreateOk(s, r);
    case Destroy(r) => DestroyOk(s, r);
    case Spawn(t) => SpawnOk(s, t);
    case Terminate(deaths) => EndedBetween(s, deaths); SwitchOk(Ended(s, deaths));
    case Reap => ReapOk(s);
  }

  lemma ListenOk(s: State, n: int)
    requires Inv(s)
    ensures Inv(s.(irq := s.irq[s.current := n], irqTask := s.irqTask[n := s.current]))
  {
    var u := s.(irq := s.irq[s.current := n], irqTask := s.irqTask[n := s.current]);
    SameQueues(s, u);
    forall t | t in u.flags && t != IDLE && t != u.current ensures Parked(u, t) { assert Parked(s, t); }
    assert Alive(u) == Alive(s);
  }

  // ---------------------------------------------------------------- whole runs

  ghost predicate Legal(s: State, run: seq<Step>)
    decreases |run|
  {
    run != [] ==> Shaped(s) && Enabled(s, run[0]) && Legal(Apply(s, run[0]), run[1..])
  }

  ghost function After(s: State, run: seq<Step>): State
    requires Legal(s, run)
    decreases |run|
  {
    if run == [] then s else After(Apply(s, run[0]), run[1..])
  }

  /** In every reachable state every task but the idle one is in one place, and idle is in no queue. */
  lemma {:induction false} RunKeepsInv(s: State, run: seq<Step>)
    requires Inv(s) && Legal(s, run)
    ensures Inv(After(s, run))
    decreases |run|
  {
    if run != [] {
      StepKeepsInv(s, run[0]);
      RunKeepsInv(Apply(s, run[0]), run[1..]);
    }
  }

  /** Whether a switch takes a task off the run queue. */
  ghost function Takes(s: State): nat
    requires RUN in s.queues
  {
    if s.queues[RUN] == [] then 0 else 1
  }

  ghost function Took(s: State, e: Step): nat
    requires Shaped(s) && Enabled(s, e)
  {
    match e
    case Tick => Takes(s)
    case SleepOnIrq => Takes(s)
    case Wait(r) => Takes(Enqueue(s, r, s.current))
    case Terminate(deaths) => Takes(Ended(s, deaths))
    case _ => 0
  }

  ghost function Taken(s: State, run: seq<Step>): nat
    requires Legal(s, run)
    decreases |run|
  {
    if run == [] then 0 else Took(s, run[0]) + Taken(Apply(s, run[0]), run[1..])
  }

  /** The run queue of s moved up by d places in u; what was taken runs. */
  ghost predicate MovedUp(s: State, u: State, d: nat) {
    && RUN in s.queues && RUN in u.queues
    && |s.queues[RUN]| <= |u.queues[RUN]| + d && d <= 1
    && (forall i {:trigger s.queues[RUN][i]} :: d <= i < |s.queues[RUN]| ==> u.queues[RUN][i - d] == s.queues[RUN][i])
    && (d == 1 && s.queues[RUN] != [] ==> u.current == s.queues[RUN][0])
  }

  lemma MovedTwice(s: State, t: State, u: State, d: nat)
    requires MovedUp(s, t, 0) && MovedUp(t, u, d)
    ensures MovedUp(s, u, d)
  {
    forall i | d <= i < |s.queues[RUN]| ensures u.queues[RUN][i - d] == s.queues[RUN][i] {
      assert t.queues[RUN][i - 0] == s.queues[RUN][i];
      assert u.queues[RUN][i - d] == t.queues[RUN][i];
    }
    assert d == 1 && s.queues[RUN] != [] ==> t.queues[RUN][0 - 0] == s.queues[RUN][0];
  }

  lemma SwitchMoves(s: State)
    requires RUN in s.queues && s.current in s.flags
    ensures MovedUp(s, Switch(s), Takes(s))
  {
  }

  lemma {:induction false} WakeAllMoves(s: State, r: Resource)
    requires r in s.queues && RUN in s.queues && r != RUN
    ensures MovedUp(s, WakeAll(s, r), 0)
    decreases |s.queues[r]|
  {
    if s.queues[r] != [] {
      WakeAllMoves(WakeFirst(s, r), r);
      MovedTwice(s, WakeFirst(s, r), WakeAll(s, r), 0);
    }
  }

  lemma EndedMoves(s: State, deaths: Resource)
    requires REAPER in s.queues && RUN in s.queues && Blockable(s, deaths) && EndOf(s.current) in s.queues
    ensures MovedUp(s, Ended(s, deaths), 0)
  {
    var s1 := MarkedDead(s);
    var s2 := WakeAll(s1, EndOf(s.current));
    WakeAllMoves(s1, EndOf(s.current));
    MovedTwice(s, s1, s2, 0);
    MovedTwice(s, s2, WakeFirst(s2, deaths), 0);
  }

  lemma WaitMoves(s: State, r: Resource)
    requires RUN in s.queues && r in s.queues && r != RUN && s.current in s.flags
    ensures var u := Enqueue(s, r, s.current); MovedUp(s, Switch(u), Takes(u))
  {
    SwitchMoves(Enqueue(s, r, s.current));
  }

  lemma SignalMoves(s: State, r: Resource)
    requires RUN in s.queues && r in s.queues && r != RUN
    ensures MovedUp(s, WakeFirst(s, r), 0)
  {
  }

  lemma HandOffMoves(s: State, r: Resource)
    requires RUN in s.queues && r in s.queues && r != RUN && s.queues[r] != []
    ensures MovedUp(s, Preempt(Dequeue(s, r), s.queues[r][0]), 0)
  {
  }

  lemma StepMoves(s: State, e: Step)
    requires Shaped(s) && Enabled(s, e)
    ensures MovedUp(s, Apply(s, e), Took(s, e))
  {
    hide Switch, Ended, WakeAll;
    match e
    case Tick => SwitchMoves(s);
    case SleepOnIrq => SwitchMoves(if Listens(s) then Asleep(s) else s);
    case Wait(r) => WaitMoves(s, r);
    case Terminate(deaths) =>
      EndedMoves(s, deaths);
      SwitchMoves(Ended(s, deaths));
      MovedTwice(s, Ended(s, deaths), Apply(s, e), Took(s, e));
    case Signal(r) => SignalMoves(s, r);
    case HandOff(r) => if s.queues[r] != [] { HandOffMoves(s, r); }
    case Destroy(r) => WakeAllMoves(s, r);
    case Reap => WakeAllMoves(Dequeue(s, REAPER), EndOf(s.queues[REAPER][0]));
    case _ =>
  }

  /** A task's rank falls by one each time a switch takes a task, and never grows. */
  lemma {:induction false} RankFalls(s: State, run: seq<Step>, rank: nat)
    requires Legal(s, run) && RUN in s.queues && rank < |s.queues[RUN]| && Taken(s, run) <= rank
    ensures var u := After(s, run);
      && RUN in u.queues && rank - Taken(s, run) < |u.queues[RUN]|
      && u.queues[RUN][rank - Taken(s, run)] == s.queues[RUN][rank]
    decreases |run|
  {
    hide Apply, Took;
    if run != [] {
      StepMoves(s, run[0]);
      var d := Took(s, run[0]);
      assert s.queues[RUN][rank] == Apply(s, run[0]).queues[RUN][rank - d];
      RankFalls(Apply(s, run[0]), run[1..], rank - d);
    }
  }

  /** A task at rank r on the run queue becomes current at the switch that takes the (r+1)-th task. */
  lemma {:induction false} Fair(s: State, run: seq<Step>, rank: nat) returns (k: nat)
    requires Legal(s, run) && RUN in s.queues && rank < |s.queues[RUN]| && Taken(s, run) > rank
    ensures k <= |run| && Legal(s, run[..k]) && Taken(s, run[..k]) == rank + 1
    ensures After(s, run[..k]).current == s.queues[RUN][rank]
    decreases |run|
  {
    hide Apply, Took;
    var s1, d := Apply(s, run[0]), Took(s, run[0]);
    StepMoves(s, run[0]);
    if d == 1 && rank == 0 {
      k := 1;
      assert run[..1][1..] == [];
    } else {
      assert s.queues[RUN][rank] == s1.queues[RUN][rank - d];
      var k' := Fair(s1, run[1..], rank - d);
      k := k' + 1;
      assert run[..k][1..] == run[1..][..k'];
    }
  }

  lemma {:induction false} WakeAllStays(s: State, r: Resource)
    requires r in s.queues && RUN in s.queues && r != RUN
    ensures WakeAll(s, r).exited == s.exited && WakeAll(s, r).live == s.live
    decreases |s.queues[r]|
  {
    if s.queues[r] != [] { WakeAllStays(WakeFirst(s, r), r); }
  }

  lemma EndedStays(s: State, deaths: Resource)
    requires REAPER in s.queues && RUN in s.queues && Blockable(s, deaths) && EndOf(s.current) in s.queues
    ensures Ended(s, deaths).exited == s.exited
  {
    hide WakeAll;
    WakeAllStays(MarkedDead(s), EndOf(s.current));
  }

  // ---------------------------------------------------------------- where every task goes

  ghost function Own(s: State): seq<Task> {
    if s.current == IDLE then [] else [s.current]
  }

  /** The tasks that run or want to, in the order of their turns; idle is not one of them. */
  ghost function Line(s: State): seq<Task>
    requires RUN in s.queues
  {
    Own(s) + s.queues[RUN]
  }

  /** The tasks that are blocked, queue by queue. */
  ghost function Blocked(s: State): map<Resource, seq<Task>> {
    s.queues - {RUN}
  }

  ghost function Sleepers(s: State): set<Task> {
    set t | t in s.flags && t != IDLE && s.flags[t] == SleepIrq
  }

  lemma PickedLine(s: State)
    requires RUN in s.queues && IDLE !in s.queues[RUN]
    ensures Line(Picked(s)) == s.queues[RUN] && Blocked(Picked(s)) == Blocked(s)
  {
    if s.queues[RUN] != [] {
      assert s.queues[RUN][0] in s.queues[RUN];
      assert s.queues[RUN] == [s.queues[RUN][0]] + s.queues[RUN][1..];
    }
  }

  lemma SwitchLine(s: State)
    requires RUN in s.queues && s.current in s.flags && IDLE !in s.queues[RUN]
    ensures var u := Switch(s);
      && Line(u) == s.queues[RUN] + (if s.flags[s.current] == Running then Own(s) else [])
      && Blocked(u) == Blocked(s)
  {
    hide Picked;
    PickedLine(s);
    PickedLine(Requeued(s));
  }

  lemma Shifted(q: map<Resource, seq<Task>>, r: Resource)
    requires r in q && RUN in q && r != RUN && q[r] != []
    ensures var w := q[r := q[r][1..]][RUN := q[RUN] + [q[r][0]]];
      w[RUN := w[RUN] + w[r]][r := []] == q[RUN := q[RUN] + q[r]][r := []]
  {
    assert q[RUN] + [q[r][0]] + q[r][1..] == q[RUN] + q[r];
  }

  /** Waking a queue moves it, in its order, behind the tasks that wanted to run already. */
  lemma {:induction false} WakeAllLine(s: State, r: Resource)
    requires r in s.queues && RUN in s.queues && r != RUN
    ensures WakeAll(s, r).queues == s.queues[RUN := s.queues[RUN] + s.queues[r]][r := []]
    decreases |s.queues[r]|
  {
    if s.queues[r] == [] {
      assert s.queues[RUN] + [] == s.queues[RUN];
    } else {
      WakeAllLine(WakeFirst(s, r), r);
      Shifted(s.queues, r);
    }
  }

  lemma NoneWoken(s: State, r: Resource)
    requires Inv(s) && r in s.queues
    ensures forall t :: t in s.queues[r] ==> t !in Sleepers(s) && t in s.flags && t != s.current
    ensures s.current !in Sleepers(s)
  {
    forall t | t in s.queues[r] ensures t !in Sleepers(s) && t in s.flags && t != s.current {
      assert QueueOk(s, r) && NamesIt(s, r, t);
      assert t == s.current || Parked(s, t);
    }
  }

  /** A switch takes turns: the others keep their order, and the task that ran goes last. */
  lemma TickLine(s: State)
    requires Inv(s) && Shaped(s) && Enabled(s, Tick)
    ensures var u := Apply(s, Tick); Line(u) == s.queues[RUN] + Own(s) && Blocked(u) == Blocked(s)
  {
    hide Switch;
    IdleNowhere(s, RUN);
    SwitchLine(s);
  }

  /** A listener that sleeps is out of the line until its interrupt comes; anyone else only yields. */
  lemma SleepLine(s: State)
    requires Inv(s) && Shaped(s) && Enabled(s, SleepOnIrq)
    ensures var u, c := Apply(s, SleepOnIrq), s.current;
      && Blocked(u) == Blocked(s)
      && if c in s.irq && s.irq[c] != 0 then Line(u) == s.queues[RUN] && Sleepers(u) == Sleepers(s) + {c}
         else Line(u) == s.queues[RUN] + [c]
  {
    IdleNowhere(s, RUN);
    NoneWoken(s, RUN);
    SwitchLine(if Listens(s) then Asleep(s) else s);
    if Listens(s) { SleptFlags(s, s.queues[RUN]); }
  }

  lemma SleptFlags(s: State, q: seq<Task>)
    requires s.current != IDLE && RUN in s.queues && q == s.queues[RUN] && s.current in s.flags
    requires forall t :: t in q ==> t !in Sleepers(s) && t in s.flags && t != s.current
    ensures Sleepers(Switch(Asleep(s))) == Sleepers(s) + {s.current}
  {
    if q != [] { assert q[0] in q; }
  }

  /** An interrupt puts the sleeping task that asked for it last in front, and the task it
      interrupts behind everyone; an interrupt nobody sleeps on changes nothing. */
  lemma InterruptLine(s: State, n: int)
    requires Inv(s) && Shaped(s) && Enabled(s, Interrupt(n))
    ensures var u := Apply(s, Interrupt(n));
      if n in s.irqTask && s.irqTask[n] in Sleepers(s) then
        var t := s.irqTask[n];
        && Line(u) == [t] + s.queues[RUN] + Own(s) && u.current == t
        && Blocked(u) == Blocked(s) && Sleepers(u) == Sleepers(s) - {t}
      else u == s
  {
    if Answers(s, n) { NoneWoken(s, RUN); }
  }

  /** A task that blocks is last on its queue and out of the line. */
  lemma WaitLine(s: State, r: Resource)
    requires Inv(s) && Shaped(s) && Enabled(s, Wait(r))
    ensures var u := Apply(s, Wait(r));
      Line(u) == s.queues[RUN] && Blocked(u) == Blocked(s)[r := s.queues[r] + [s.current]]
  {
    hide Switch, Inv;
    IdleNowhere(s, RUN);
    SwitchLine(Enqueue(s, r, s.current));
  }

  /** A signal moves the first task blocked to the end of the line. */
  lemma SignalLine(s: State, r: Resource)
    requires Inv(s) && Shaped(s) && Enabled(s, Signal(r))
    ensures var u, q := Apply(s, Signal(r)), s.queues[r];
      if q == [] then u == s else Line(u) == Line(s) + [q[0]] && Blocked(u) == Blocked(s)[r := q[1..]]
  {
    hide Inv;
  }

  /** A semaphore release moves the first task blocked to the front, and the releasing task to the end. */
  lemma HandOffLine(s: State, r: Resource)
    requires Inv(s) && Shaped(s) && Enabled(s, HandOff(r))
    ensures var u, q := Apply(s, HandOff(r)), s.queues[r];
      if q == [] then u == s
      else Line(u) == [q[0]] + s.queues[RUN] + [s.current] && Blocked(u) == Blocked(s)[r := q[1..]]
  {
    IdleNowhere(s, r);
    if s.queues[r] != [] { assert s.queues[r][0] in s.queues[r]; }
  }

  /** Releasing a resource moves everything blocked on it to the end of the line. */
  lemma DestroyLine(s: State, r: Resource)
    requires Inv(s) && Shaped(s) && Enabled(s, Destroy(r))
    ensures var u := Apply(s, Destroy(r)); Line(u) == Line(s) + s.queues[r] && Blocked(u) == Blocked(s) - {r}
  {
    hide WakeAll, Inv;
    WakeAllLine(s, r);
  }

  /** A new resource has nobody on it; asking for an interrupt moves nobody, and one there is not changes nothing. */
  lemma CreateLine(s: State, r: Resource, n: int)
    requires Inv(s) && Shaped(s) && Enabled(s, Create(r)) && Enabled(s, Listen(n))
    ensures var u := Apply(s, Create(r)); Line(u) == Line(s) && Blocked(u) == Blocked(s)[r := []]
    ensures var u := Apply(s, Listen(n));
      if 0 < n < 16 then u == s.(irq := u.irq, irqTask := u.irqTask) && n in u.irqTask && u.irqTask[n] == s.current
      else u == s
  {
    hide Inv;
  }

  lemma SpawnLine(s: State, t: Task)
    requires Inv(s) && Shaped(s) && Enabled(s, Spawn(t))
    ensures var u := Apply(s, Spawn(t));
      Line(u) == Line(s) + [t] && Blocked(u) == Blocked(s)[EndOf(t) := []] && t !in u.irq
  {
    hide Inv;
  }

  /** The task the reaper's semaphore lets go when the current task ends. */
  ghost function Told(s: State, deaths: Resource): seq<Task>
    requires deaths in s.queues
  {
    if deaths == EndOf(s.current) || s.queues[deaths] == [] then [] else [s.queues[deaths][0]]
  }

  lemma EndedLine(s: State, deaths: Resource)
    requires RUN in s.queues && REAPER in s.queues && Blockable(s, deaths) && EndOf(s.current) in s.queues
    ensures var u, c, told := Ended(s, deaths), s.current, Told(s, deaths);
      && u.queues[RUN] == s.queues[RUN] + s.queues[EndOf(c)] + told
      && Blocked(u) ==
           Blocked(s)[REAPER := s.queues[REAPER] + [c]][deaths := s.queues[deaths][|told|..]][EndOf(c) := []]
  {
    hide WakeAll, MarkedDead, WakeFirst;
    var s1, c := MarkedDead(s), s.current;
    DeadLine(s);
    WakeAllLine(s1, EndOf(c));
    var s2 := WakeAll(s1, EndOf(c));
    WakeFirstLine(s2, deaths);
    assert s2.queues[RUN] == s.queues[RUN] + s.queues[EndOf(c)];
    assert s2.queues[deaths] == if deaths == EndOf(c) then [] else s.queues[deaths];
  }

  lemma WakeFirstLine(s: State, r: Resource)
    requires r in s.queues && RUN in s.queues && r != RUN
    ensures var q, u := s.queues[r], WakeFirst(s, r);
      u.queues == if q == [] then s.queues else s.queues[r := q[1..]][RUN := s.queues[RUN] + [q[0]]]
  {
  }

  lemma DeadLine(s: State)
    requires REAPER in s.queues
    ensures var u := MarkedDead(s);
      u.queues == s.queues[REAPER := s.queues[REAPER] + [s.current]] && u.current == s.current && u.live == s.live - 1
  {
  }

  lemma EndedLive(s: State, deaths: Resource)
    requires RUN in s.queues && REAPER in s.queues && Blockable(s, deaths) && EndOf(s.current) in s.queues
    ensures Switch(Ended(s, deaths)).live == s.live - 1
  {
    hide WakeAll;
    WakeAllStays(MarkedDead(s), EndOf(s.current));
  }

  /** A task that ends is last of the dead and out of the line; those that waited for its end join the
      line in their order, and behind them the first task blocked on the reaper's semaphore. */
  ghost predicate EndsCurrent(s: State, u: State, deaths: Resource)
    requires Shaped(s) && deaths in s.queues && s.current != IDLE
  {
    var c, told := s.current, Told(s, deaths);
    && RUN in u.queues && Line(u) == s.queues[RUN] + s.queues[EndOf(c)] + told
    && Blocked(u) == Blocked(s)[REAPER := s.queues[REAPER] + [c]][deaths := s.queues[deaths][|told|..]][EndOf(c) := []]
    && c in u.flags && u.flags[c] == Dead && u.live == s.live - 1
  }

  lemma EndedGoes(s: State, deaths: Resource)
    requires Inv(s) && Shaped(s) && s.current != IDLE && Blockable(s, deaths)
    ensures EndsCurrent(s, Switch(Ended(s, deaths)), deaths)
  {
    hide Switch, Ended, Inv, Told;
    EndedBetween(s, deaths);
    EndedLine(s, deaths);
    EndedLeft(s, deaths);
    IdleStays(Ended(s, deaths));
    SwitchLine(Ended(s, deaths));
    EndedLive(s, deaths);
    SwitchOk(Ended(s, deaths));
    var u := Switch(Ended(s, deaths));
    assert Blocked(u)[REAPER] == s.queues[REAPER] + [s.current];
    ReaperDead(u, s.current);
  }

  lemma TerminateLine(s: State, deaths: Resource)
    requires Inv(s) && Shaped(s) && Enabled(s, Terminate(deaths))
    ensures EndsCurrent(s, Apply(s, Terminate(deaths)), deaths)
  {
    hide Switch, Ended, Inv, EndsCurrent;
    EndedGoes(s, deaths);
  }

  lemma EndedLeft(s: State, deaths: Resource)
    requires Inv(s) && s.current != IDLE && Blockable(s, deaths)
    ensures Ended(s, deaths).flags[s.current] == Dead
  {
    hide Ended, Inv;
    EndedOk(s, deaths);
  }

  lemma ReaperDead(s: State, t: Task)
    requires Inv(s) && t in s.queues[REAPER]
    ensures t in s.flags && s.flags[t] == Dead
  {
    assert QueueOk(s, REAPER) && NamesIt(s, REAPER, t);
    assert Parked(s, t);
  }

  lemma IdleStays(s: State)
    requires Between(s)
    ensures RUN in s.queues && IDLE !in s.queues[RUN]
  {
    assert QueueOk(s, RUN) && !NamesIt(s, RUN, IDLE);
  }

  /** Reaping frees the task that ended first; those that waited for its end join the line. */
  lemma ReapLine(s: State)
    requires Inv(s) && Shaped(s) && Enabled(s, Reap)
    ensures var u, t := Apply(s, Reap), s.queues[REAPER][0];
      && Line(u) == Line(s) + s.queues[EndOf(t)]
      && Blocked(u) == Blocked(s)[REAPER := s.queues[REAPER][1..]] - {EndOf(t)} && t !in u.flags
  {
    hide WakeAll, Inv;
    WakeAllLine(Dequeue(s, REAPER), EndOf(s.queues[REAPER][0]));
  }

  /** A task that asks for an interrupt and sleeps runs again when the interrupt comes. */
  lemma RunsAtInterrupt(s: State, n: int)
    requires Inv(s) && !s.exited && s.current != IDLE && 0 < n < 16
    ensures var run := [Listen(n), SleepOnIrq, Interrupt(n)];
      && Legal(s, run[..2]) && Legal(s, run) && s.current in Sleepers(After(s, run[..2]))
      && After(s, run).current == s.current
  {
    InvShaped(s);
    var s1 := Apply(s, Listen(n));
    StepKeepsInv(s, Listen(n));
    SleepStays(s1, n);
    var s2 := Apply(s1, SleepOnIrq);
    InterruptLine(s2, n);
    ThreeSteps(s, Listen(n), SleepOnIrq, Interrupt(n));
  }

  lemma ThreeSteps(s: State, a: Step, b: Step, c: Step)
    requires Shaped(s) && Enabled(s, a) && Shaped(Apply(s, a)) && Enabled(Apply(s, a), b)
    requires var u := Apply(Apply(s, a), b); Shaped(u) && Enabled(u, c)
    ensures var run := [a, b, c];
      && Legal(s, run[..2]) && After(s, run[..2]) == Apply(Apply(s, a), b)
      && Legal(s, run) && After(s, run) == Apply(Apply(Apply(s, a), b), c)
  {
    hide Apply, Shaped, Enabled;
    var run, s1 := [a, b, c], Apply(s, a);
    assert run[1..] == [b, c] && run[..2] == [a, b] && [a, b][1..] == [b] && [b, c][1..] == [c];
    assert [b][1..] == [] && [c][1..] == [];
    assert Legal(Apply(s1, b), [c]) && Legal(s1, [b]) && Legal(s1, [b, c]);
    assert After(s1, [b]) == Apply(s1, b) && After(Apply(s1, b), [c]) == Apply(Apply(s1, b), c);
  }

  lemma SleepStays(s: State, n: int)
    requires Inv(s) && !s.exited && s.current != IDLE && n in s.irqTask && s.irqTask[n] == s.current
    requires s.current in s.irq && s.irq[s.current] != 0
    ensures Shaped(s) && Enabled(s, SleepOnIrq)
    ensures var u := Apply(s, SleepOnIrq); Inv(u) && Shaped(u) && !u.exited && u.irqTask == s.irqTask
    ensures s.current in Sleepers(Apply(s, SleepOnIrq))
  {
    InvShaped(s);
    SleepLine(s);
    StepKeepsInv(s, SleepOnIrq);
    var u := Apply(s, SleepOnIrq);
    InvShaped(u);
    ExitsExactlyWhen(s, SleepOnIrq);
  }

  lemma SwitchStops(s: State)
    requires RUN in s.queues && s.current in s.flags && !s.exited
    ensures Switch(s).exited <==> s.queues[RUN] == [] && s.flags[s.current] != Running && s.live == 0
    ensures Switch(s).live == s.live
  {
  }

  lemma CurrentAlive(s: State)
    requires Inv(s) && s.current != IDLE
    ensures s.live > 0
  {
    assert s.current in Alive(s);
  }

  /** The kernel gives up exactly when the last task that was alive ends. */
  lemma ExitsExactlyWhen(s: State, e: Step)
    requires Inv(s) && Shaped(s) && Enabled(s, e)
    ensures Apply(s, e).exited <==> e.Terminate? && Alive(Apply(s, e)) == {}
  {
    hide Switch, Ended, WakeAll, QueuesOk, OthersParked, Alive;
    if s.current != IDLE { CurrentAlive(s); }
    match e
    case Tick => SwitchStops(s);
    case SleepOnIrq => SwitchStops(if Listens(s) then Asleep(s) else s);
    case Wait(r) => SwitchStops(Enqueue(s, r, s.current));
    case Terminate(deaths) => EndStops(s, deaths);
    case Destroy(r) => WakeAllStays(s, r);
    case Reap => WakeAllStays(Dequeue(s, REAPER), EndOf(s.queues[REAPER][0]));
    case _ =>
  }

  lemma EndStops(s: State, deaths: Resource)
    requires Inv(s) && Shaped(s) && Enabled(s, Terminate(deaths))
    ensures var u := Apply(s, Terminate(deaths)); u.exited <==> Alive(u) == {}
  {
    hide Switch, Ended, Inv;
    var w, u := Ended(s, deaths), Apply(s, Terminate(deaths));
    EndedStays(s, deaths);
    EndedBetween(s, deaths);
    EndedLeft(s, deaths);
    IdleStays(w);
    SwitchStops(w);
    SwitchLine(w);
    SwitchOk(w);
    LineAlive(u);
  }

  lemma LineAlive(s: State)
    requires Inv(s)
    ensures s.live == 0 <==> Alive(s) == {}
    ensures Line(s) != [] ==> Alive(s) != {}
  {
    if Line(s) != [] {
      var t := Line(s)[0];
      if s.current == IDLE {
        assert t in s.queues[RUN] && QueueOk(s, RUN) && NamesIt(s, RUN, t) && Parked(s, t);
      }
      assert t in Alive(s);
    }
  }

  // ---------------------------------------------------------------- the start

  /** The tables as the kernel leaves them for its first switch: the tasks made so far wait to run. */
  ghost function Booted(tasks: seq<Task>): State {
    State(IDLE, (map t | t in tasks :: Waiting)[IDLE := Ready], map t | t in tasks :: RUN,
          (map t | t in tasks :: EndOf(t) := [])[RUN := tasks][REAPER := []], map[], map[], |tasks|, false)
  }

  ghost function FirstSwitch(tasks: seq<Task>): State
    requires tasks != []
  {
    Run(Dequeue(Booted(tasks), RUN), tasks[0])
  }

  ghost function Members(q: seq<Task>): set<Task> { set t | t in q }

  lemma {:induction false} DistinctCount(q: seq<Task>)
    requires Distinct(q)
    ensures |Members(q)| == |q|
  {
    if q == [] {
      assert Members(q) == {};
    } else {
      var first, rest := q[0], q[1..];
      assert first !in Members(rest);
      DistinctCount(rest);
      assert Members(q) == {first} + Members(rest);
    }
  }

  lemma BootOk(tasks: seq<Task>)
    requires tasks != [] && Distinct(tasks) && IDLE !in tasks
    ensures Inv(FirstSwitch(tasks))
  {
    var s := Booted(tasks);
    forall r | r in s.queues ensures QueueOk(s, r) {
      forall t ensures t in s.queues[r] <==> NamesIt(s, r, t) {}
    }
    DistinctCount(tasks);
    assert Alive(s) == Members(tasks);
    assert OthersParked(s, IDLE);
    DequeueOk(s, RUN);
    DequeuedParked(s, RUN);
    RunOk(Dequeue(s, RUN), tasks[0]);
  }

  /** The tasks made before the first switch run in the order they were made, and none is blocked. */
  lemma BootLine(tasks: seq<Task>, r: Resource)
    requires tasks != [] && IDLE !in tasks
    ensures var u := FirstSwitch(tasks);
      RUN in u.queues && Line(u) == tasks && (r in u.queues && r != RUN ==> u.queues[r] == [])
  {
    assert tasks == [tasks[0]] + tasks[1..];
  }

  // ---------------------------------------------------------------- the code

  /** A task that names no queue is on none. */
  lemma NotQueued(s: State, t: Task)
    requires QueuesOk(s) && t !in s.on
    ensures InNone(s.queues, t)
  {
    forall r | r in s.queues ensures t !in s.queues[r] { assert QueueOk(s, r) && !NamesIt(s, r, t); }
  }

  datatype Found = Nobody | Found(t: Task)

  /** The kernel's scheduler tables, updated in place. The queues exist only as pointers in memory; `queues` is what
      they stand for. */
  class Kernel {
    var current: Task
    var flags: map<Task, Flag>
    var on: map<Task, Resource>
    var next: map<Node, Node>
    var prev: map<Node, Node>
    var count: map<Resource, int>
    var irq: map<Task, int>
    var irqTask: map<int, Task>
    var live: int
    var exited: bool
    ghost var queues: Queues

    ghost function View(): State
      reads this
    {
      State(current, flags, on, queues, irq, irqTask, live, exited)
    }

    /** The pointers in memory are those of the queues. */
    ghost predicate Wired()
      reads this
    {
      AllListed(Links(next, prev, count), queues) && Separate(queues)
    }

    ghost predicate Valid()
      reads this
    {
      Inv(View()) && Wired()
    }

    method ListInit(r: Resource)
      requires Wired() && r !in queues
      modifies this`next, this`prev, this`count, this`queues
      ensures Wired() && queues == old(queues)[r := []]
    {
      EmptiedListed(Links(next, prev, count), queues, r);
      next, prev, count := next[Head(r) := Head(r)], prev[Head(r) := Head(r)], count[r := 0];
      queues := queues[r := []];
    }

    /** The four pointer writes that put a node at the end of a list. */
    method ListAttachTail(r: Resource, t: Task)
      requires Wired() && r in queues && InNone(queues, t)
      modifies this`next, this`prev, this`count, this`queues
      ensures Wired() && queues == old(queues)[r := old(queues)[r] + [t]]
    {
      hide AllListed, Separate, InNone;
      AttachedListed(Links(next, prev, count), queues, r, t);
      var node, last := InTask(t), prev[Head(r)];
      prev := prev[node := last];
      next := next[last := node];
      next := next[node := Head(r)];
      prev := prev[Head(r) := node];
      count := count[r := count[r] + 1];
      queues := queues[r := queues[r] + [t]];
    }

    /** The two pointer writes that take the first node off a list, if it has one. */
    method ListDetachHead(r: Resource) returns (got: Found)
      requires Wired() && r in queues
      modifies this`next, this`prev, this`count, this`queues
      ensures Wired() && (got == Nobody <==> old(queues)[r] == []) && (got == Nobody ==> queues == old(queues))
      ensures got.Found? ==>
        got.t == old(queues)[r][0] && queues == old(queues)[r := old(queues)[r][1..]] && InNone(queues, got.t)
    {
      Ends(Links(next, prev, count), queues, r);
      hide AllListed, Separate, InNone;
      var node := next[Head(r)];
      if node == Head(r) { return Nobody; }
      DetachedListed(Links(next, prev, count), queues, r);
      got := Found(node.t);
      var before, after := prev[node], next[node];
      next := next[before := after];
      prev := prev[after := before];
      count := count[r := count[r] - 1];
      queues := queues[r := queues[r][1..]];
    }

    method RsrcEnqueue(r: Resource, t: Task)
      requires Wired() && r in queues && InNone(queues, t)
      modifies this
      ensures Wired() && View() == Enqueue(old(View()), r, t)
    {
      flags := flags[t := Waiting];
      on := on[t := r];
      ListAttachTail(r, t);
    }

    method RsrcDequeue(r: Resource) returns (got: Found)
      requires Wired() && r in queues
      modifies this
      ensures Wired() && (got == Nobody <==> old(queues)[r] == []) && (got == Nobody ==> View() == old(View()))
      ensures got.Found? ==>
        View() == Dequeue(old(View()), r) && got.t == old(queues)[r][0] && InNone(queues, got.t)
    {
      got := ListDetachHead(r);
      if got.Found? {
        on := on - {got.t};
        flags := flags[got.t := Ready];
      }
    }

    method Requeue()
      requires Wired() && RUN in queues && (current != IDLE ==> InNone(queues, current))
      modifies this
      ensures Wired() && View() == Requeued(old(View()))
    {
      if current != IDLE { RsrcEnqueue(RUN, current); }
    }

    method PickNext()
      requires Wired() && RUN in queues
      modifies this
      ensures Wired() && View() == Picked(old(View()))
    {
      var got := RsrcDequeue(RUN);
      if got.Found? {
        current := got.t;
      } else {
        exited := live == 0;
        current := IDLE;
      }
      flags := flags[current := Running];
    }

    /** The fast path, which looks at the count of the run queue, the requeueing of a running task, and the choice of
        the next one. */
    method Swtch()
      requires Wired() && Between(View())
      modifies this
      ensures Valid() && View() == Switch(old(View()))
    {
      SwitchOk(View());
      Ends(Links(next, prev, count), queues, RUN);
      if count[RUN] == 0 && flags[current] == Running { return; }
      if flags[current] == Running {
        NotQueued(View(), current);
        Requeue();
      }
      PickNext();
    }

    method PreemptBy(t: Task)
      requires Wired() && RUN in queues && (current != IDLE ==> InNone(queues, current))
      modifies this
      ensures Wired() && View() == Preempt(old(View()), t)
    {
      Requeue();
      current := t;
      flags := flags[current := Running];
    }

    /** A task blocks on a resource. */
    method WaitOn(r: Resource)
      requires Valid() && current != IDLE && Blockable(View(), r)
      modifies this
      ensures Valid() && View() == Switch(Enqueue(old(View()), r, old(current)))
    {
      WaitBetween(View(), r);
      NotQueued(View(), current);
      RsrcEnqueue(r, current);
      Swtch();
    }

    /** The end of a semaphore release, or of an interrupt: somebody runs at once. */
    method SemRelease(r: Resource)
      requires Valid() && current != IDLE && Blockable(View(), r)
      modifies this
      ensures Valid() && (old(queues)[r] == [] ==> View() == old(View()))
      ensures old(queues)[r] != [] ==> View() == Preempt(Dequeue(old(View()), r), old(queues)[r][0])
    {
      if queues[r] != [] {
        HandOffOk(View(), r);
        NotQueued(View(), current);
        StillNone(queues, r, current);
      }
      var got := RsrcDequeue(r);
      if got.Found? { PreemptBy(got.t); }
    }

    method WakeOne(r: Resource) returns (woke: bool)
      requires Wired() && RUN in queues && r in queues && r != RUN
      modifies this
      ensures Wired() && View() == WakeFirst(old(View()), r) && woke == (old(queues)[r] != [])
    {
      var got := RsrcDequeue(r);
      woke := got.Found?;
      if woke { RsrcEnqueue(RUN, got.t); }
    }

    /** Wakes everything blocked on r, first come first. */
    method WakeEvery(r: Resource)
      requires Wired() && RUN in queues && r in queues && r != RUN
      modifies this
      ensures Wired() && View() == WakeAll(old(View()), r)
    {
      hide AllListed, Separate;
      ghost var woken := WakeAll(View(), r);
      var more := true;
      while more
        invariant Wired() && RUN in queues && r in queues && WakeAll(View(), r) == woken && (!more ==> queues[r] == [])
        decreases |queues[r]|, more
      {
        more := WakeOne(r);
      }
    }

    method RsrcRelease(r: Resource)
      requires Valid() && Blockable(View(), r) && r.Queue?
      modifies this
      ensures Valid() && View() == Released(old(View()), r)
    {
      DestroyOk(View(), r);
      WakeEvery(r);
      DroppedListed(Links(next, prev, count), queues, r);
      queues := queues - {r};
    }

    method OsHandleIrq(n: int)
      requires Valid()
      modifies this
      ensures Valid() && irq == (if 0 < n < 16 then old(irq)[current := n] else old(irq))
      ensures irqTask == (if 0 < n < 16 then old(irqTask)[n := current] else old(irqTask))
      ensures View().(irq := old(irq), irqTask := old(irqTask)) == old(View())
    {
      if 0 < n < 16 {
        ListenOk(View(), n);
        irq := irq[current := n];
        irqTask := irqTask[n := current];
      }
    }

    method OsSleepIrq()
      requires Valid() && current != IDLE
      modifies this
      ensures Valid() && View() == Switch(if old(Listens(View())) then Asleep(old(View())) else old(View()))
    {
      if current in irq && irq[current] != 0 {
        SleepBetween(View());
        flags := flags[current := SleepIrq];
      }
      Swtch();
    }

    method IrqDispatch(n: int)
      requires Valid()
      modifies this
      ensures Valid()
      ensures old(Answers(View(), n)) ==> View() == Preempt(old(View()), old(irqTask)[n])
      ensures !old(Answers(View(), n)) ==> View() == old(View())
    {
      if n in irqTask && irqTask[n] != IDLE && irqTask[n] in flags && flags[irqTask[n]] == SleepIrq {
        InterruptOk(View(), irqTask[n]);
        NotQueued(View(), current);
        PreemptBy(irqTask[n]);
      }
    }

    method LeaveToReaper()
      requires Wired() && REAPER in queues && InNone(queues, current)
      modifies this
      ensures Wired() && View() == MarkedDead(old(View()))
    {
      live := live - 1;
      RsrcEnqueue(REAPER, current);
      flags := flags[current := Dead];
    }

    /** The current task ends: it is left for the reaper, and what waited for its end is woken. */
    method TerminateCurrent(deaths: Resource)
      requires Valid() && current != IDLE && Blockable(View(), deaths)
      modifies this
      ensures Valid() && Shaped(old(View())) && View() == Switch(Ended(old(View()), deaths))
      ensures EndsCurrent(old(View()), View(), deaths)
    {
      hide EndsCurrent;
      InvShaped(View());
      EndedBetween(View(), deaths);
      EndedGoes(View(), deaths);
      NotQueued(View(), current);
      var t := current;
      LeaveToReaper();
      WakeEvery(EndOf(t));
      var _ := WakeOne(deaths);
      Swtch();
    }

    /** The reaper takes the first of the dead and frees it. */
    method ReapFirst()
      requires Valid() && current != IDLE && queues[REAPER] != []
      modifies this
      ensures Valid() && Shaped(old(View())) && View() == Buried(old(View()))
    {
      InvShaped(View());
      ReapOk(View());
      assert EndOf(queues[REAPER][0]) in queues;
      hide Inv, Buried;
      FreeFirst();
    }

    method FreeFirst()
      requires Wired() && Shaped(View()) && REAPER in queues && queues[REAPER] != []
        && EndOf(queues[REAPER][0]) in queues
      modifies this
      ensures Wired() && View() == Buried(old(View()))
    {
      hide AllListed, Separate, WakeAll, InNone;
      var got := RsrcDequeue(REAPER);
      WakeEvery(EndOf(got.t));
      DroppedListed(Links(next, prev, count), queues, EndOf(got.t));
      queues := queues - {EndOf(got.t)};
      flags := flags - {got.t};
    }

    /** A new task listens to no interrupt, has an empty list of waiters, and is last on the run queue. */
    method ThrSpawn(t: Task)
      requires Valid() && t !in flags && EndOf(t) !in queues
      modifies this
      ensures Valid() && View() == Spawned(old(View()), t)
    {
      SpawnOk(View(), t);
      NotQueued(View(), t);
      NoneInEmpty(queues, EndOf(t), t);
      hide Inv, InNone, Spawned;
      Start(t);
    }

    method Start(t: Task)
      requires Wired() && RUN in queues && EndOf(t) !in queues && InNone(queues[EndOf(t) := []], t)
      modifies this
      ensures Wired() && View() == Spawned(old(View()), t)
    {
      hide AllListed, Separate, InNone;
      TaskCreate(t);
      RsrcEnqueue(RUN, t);
      live := live + 1;
    }

    method TaskCreate(t: Task)
      requires Wired() && EndOf(t) !in queues
      modifies this
      ensures Wired()
      ensures View() == old(View()).(flags := old(flags)[t := Ready], irq := old(irq) - {t},
        queues := old(queues)[EndOf(t) := []])
    {
      hide AllListed, Separate;
      irq := irq - {t};
      flags := flags[t := Ready];
      ListInit(EndOf(t));
    }
  }

  lemma NoneInEmpty(qs: Queues, r: Resource, t: Task)
    requires InNone(qs, t)
    ensures InNone(qs[r := []], t)
  {
  }

  lemma StillNone(qs: Queues, r: Resource, t: Task)
    requires r in qs && qs[r] != [] && InNone(qs, t)
    ensures InNone(qs[r := qs[r][1..]], t)
  {
  }
}
