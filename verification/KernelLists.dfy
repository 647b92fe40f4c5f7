/** The kernel's queues as they lie in memory: circular lists through a header in each resource and one node
    inside each task. */
module KernelLists {

  type Task = nat

  /** What a task can queue on: a queue of the kernel's, or the end of another task. */
  datatype Resource = Queue(id: nat) | EndOf(task: Task)

  datatype Node = Head(r: Resource) | InTask(t: Task)

  /** The pointers of all nodes, and the count each header keeps. */
  datatype Links = Links(next: map<Node, Node>, prev: map<Node, Node>, count: map<Resource, int>)

  type Queues = map<Resource, seq<Task>>

  /** The i-th node of a list; the header comes before the first and after the last. */
  ghost function NodeAt(r: Resource, q: seq<Task>, i: int): Node {
    if 0 <= i < |q| then InTask(q[i]) else Head(r)
  }

  ghost predicate LinkedAt(m: Links, r: Resource, q: seq<Task>, i: int) {
    && NodeAt(r, q, i) in m.next && m.next[NodeAt(r, q, i)] == NodeAt(r, q, i + 1)
    && NodeAt(r, q, i + 1) in m.prev && m.prev[NodeAt(r, q, i + 1)] == NodeAt(r, q, i)
  }

  /** The list of r runs through the tasks of q, forwards and backwards, and its count is right. */
  ghost predicate Listed(m: Links, r: Resource, q: seq<Task>) {
    && (forall i {:trigger LinkedAt(m, r, q, i)} :: -1 <= i < |q| ==> LinkedAt(m, r, q, i))
    && r in m.count && m.count[r] == |q|
  }

  ghost predicate AllListed(m: Links, qs: Queues) {
    forall r {:trigger Listed(m, r, qs[r])} :: r in qs ==> Listed(m, r, qs[r])
  }

  ghost predicate OneSpot(qs: Queues, r: Resource, i: int, r': Resource, j: int) {
    r in qs && r' in qs && 0 <= i < |qs[r]| && 0 <= j < |qs[r']| && qs[r][i] == qs[r'][j] ==> r == r' && i == j
  }

  /** No task is in two places of the queues. */
  ghost predicate Separate(qs: Queues) {
    forall r, i, r', j {:trigger OneSpot(qs, r, i, r', j)} :: OneSpot(qs, r, i, r', j)
  }

  ghost predicate InNone(qs: Queues, t: Task) {
    forall r {:trigger qs[r]} :: r in qs ==> t !in qs[r]
  }

  // ---------------------------------------------------------------- the list operations

  function Emptied(m: Links, r: Resource): Links {
    Links(m.next[Head(r) := Head(r)], m.prev[Head(r) := Head(r)], m.count[r := 0])
  }

  function Attached(m: Links, r: Resource, t: Task): Links
    requires Head(r) in m.prev && r in m.count
  {
    var last, node := m.prev[Head(r)], InTask(t);
    Links(m.next[last := node][node := Head(r)], m.prev[node := last][Head(r) := node], m.count[r := m.count[r] + 1])
  }

  function Detached(m: Links, r: Resource): Links
    requires Head(r) in m.next && m.next[Head(r)] in m.next && m.next[Head(r)] in m.prev && r in m.count
  {
    var node := m.next[Head(r)];
    Links(m.next[m.prev[node] := m.next[node]], m.prev[m.next[node] := m.prev[node]], m.count[r := m.count[r] - 1])
  }

  /** What the pointers of one list say about its ends. */
  lemma Ends(m: Links, qs: Queues, r: Resource)
    requires AllListed(m, qs) && r in qs
    ensures Head(r) in m.next && Head(r) in m.prev && r in m.count && m.count[r] == |qs[r]|
    ensures m.next[Head(r)] == NodeAt(r, qs[r], 0) && m.prev[Head(r)] == NodeAt(r, qs[r], |qs[r]| - 1)
    ensures m.next[Head(r)] in m.next && m.next[Head(r)] in m.prev
    ensures qs[r] != [] ==> m.prev[m.next[Head(r)]] == Head(r) && m.next[m.next[Head(r)]] == NodeAt(r, qs[r], 1)
  {
    assert Listed(m, r, qs[r]) && LinkedAt(m, r, qs[r], -1) && LinkedAt(m, r, qs[r], |qs[r]| - 1);
    if qs[r] != [] { assert LinkedAt(m, r, qs[r], 0); }
  }

  lemma EmptiedListed(m: Links, qs: Queues, r: Resource)
    requires AllListed(m, qs) && r !in qs && Separate(qs)
    ensures AllListed(Emptied(m, r), qs[r := []]) && Separate(qs[r := []])
  {
    var u, vs := Emptied(m, r), qs[r := []];
    forall r' | r' in vs ensures Listed(u, r', vs[r']) {
      if r' == r {
        assert LinkedAt(u, r, [], -1);
      } else {
        assert Listed(m, r', qs[r']);
        forall i | -1 <= i < |qs[r']| ensures LinkedAt(u, r', qs[r'], i) { assert LinkedAt(m, r', qs[r'], i); }
      }
    }
    forall a, i, b, j ensures OneSpot(vs, a, i, b, j) { assert OneSpot(qs, a, i, b, j); }
  }

  lemma AttachedOther(m: Links, qs: Queues, r: Resource, t: Task, r': Resource)
    requires AllListed(m, qs) && Separate(qs) && r in qs && InNone(qs, t) && r' in qs && r' != r
    requires Head(r) in m.prev && r in m.count
    ensures Listed(Attached(m, r, t), r', qs[r'])
  {
    var u, q, last := Attached(m, r, t), qs[r'], |qs[r]| - 1;
    Ends(m, qs, r);
    assert Listed(m, r', q);
    forall i | -1 <= i < |q| ensures LinkedAt(u, r', q, i) {
      assert LinkedAt(m, r', q, i) && OneSpot(qs, r, last, r', i) && OneSpot(qs, r, last, r', i + 1);
    }
  }

  lemma AttachedSelf(m: Links, qs: Queues, r: Resource, t: Task)
    requires AllListed(m, qs) && Separate(qs) && r in qs && InNone(qs, t) && Head(r) in m.prev && r in m.count
    ensures Listed(Attached(m, r, t), r, qs[r] + [t])
  {
    var u, q, last := Attached(m, r, t), qs[r], |qs[r]| - 1;
    Ends(m, qs, r);
    assert Listed(m, r, q);
    forall i | -1 <= i < |q| + 1 ensures LinkedAt(u, r, q + [t], i) {
      if i < last {
        assert LinkedAt(m, r, q, i) && OneSpot(qs, r, last, r, i) && OneSpot(qs, r, last, r, i + 1);
      }
    }
  }

  lemma AttachedSeparate(qs: Queues, r: Resource, t: Task)
    requires Separate(qs) && r in qs && InNone(qs, t)
    ensures Separate(qs[r := qs[r] + [t]])
  {
    var vs := qs[r := qs[r] + [t]];
    forall a, i, b, j ensures OneSpot(vs, a, i, b, j) { assert OneSpot(qs, a, i, b, j); }
  }

  /** Attaching a task that is on no list puts it last on one, and leaves every other list as it was. */
  lemma AttachedListed(m: Links, qs: Queues, r: Resource, t: Task)
    requires AllListed(m, qs) && Separate(qs) && r in qs && InNone(qs, t)
    ensures Head(r) in m.prev && r in m.count
    ensures AllListed(Attached(m, r, t), qs[r := qs[r] + [t]]) && Separate(qs[r := qs[r] + [t]])
  {
    Ends(m, qs, r);
    AttachedSeparate(qs, r, t);
    AttachedSelf(m, qs, r, t);
    forall r' | r' in qs && r' != r ensures Listed(Attached(m, r, t), r', qs[r']) { AttachedOther(m, qs, r, t, r'); }
  }

  /** One node in each task is enough exactly because a task is on one queue at most: attaching a task keeps all lists
      whole if and only if it was on none. */
  lemma AttachedExactlyWhen(m: Links, qs: Queues, r: Resource, t: Task)
    requires AllListed(m, qs) && Separate(qs) && r in qs
    ensures Head(r) in m.prev && r in m.count
    ensures AllListed(Attached(m, r, t), qs[r := qs[r] + [t]]) <==> InNone(qs, t)
  {
    Ends(m, qs, r);
    if InNone(qs, t) {
      AttachedListed(m, qs, r, t);
    } else {
      var r' :| r' in qs && t in qs[r'];
      var i :| 0 <= i < |qs[r']| && qs[r'][i] == t;
      var u, vs := Attached(m, r, t), qs[r := qs[r] + [t]];
      var q := vs[r'];
      assert u.next[InTask(t)] == Head(r) && NodeAt(r', q, i) == InTask(t) && NodeAt(r', q, i + 1) != Head(r);
      assert !LinkedAt(u, r', q, i) && !Listed(u, r', vs[r']);
    }
  }

  lemma DetachedOther(m: Links, qs: Queues, r: Resource, r': Resource)
    requires AllListed(m, qs) && Separate(qs) && r in qs && qs[r] != [] && r' in qs && r' != r
    requires Head(r) in m.next && m.next[Head(r)] in m.next && m.next[Head(r)] in m.prev && r in m.count
    ensures Listed(Detached(m, r), r', qs[r'])
  {
    var u, q := Detached(m, r), qs[r'];
    Ends(m, qs, r);
    assert Listed(m, r', q);
    forall i | -1 <= i < |q| ensures LinkedAt(u, r', q, i) {
      assert LinkedAt(m, r', q, i) && OneSpot(qs, r, 1, r', i) && OneSpot(qs, r, 1, r', i + 1);
    }
  }

  lemma DetachedSelf(m: Links, qs: Queues, r: Resource)
    requires AllListed(m, qs) && Separate(qs) && r in qs && qs[r] != []
    requires Head(r) in m.next && m.next[Head(r)] in m.next && m.next[Head(r)] in m.prev && r in m.count
    ensures Listed(Detached(m, r), r, qs[r][1..])
  {
    var u, q := Detached(m, r), qs[r];
    Ends(m, qs, r);
    assert Listed(m, r, q);
    forall i | -1 <= i < |q| - 1 ensures LinkedAt(u, r, q[1..], i) {
      if i >= 0 {
        assert LinkedAt(m, r, q, i + 1) && OneSpot(qs, r, 1, r, i + 1) && OneSpot(qs, r, 1, r, i + 2);
      }
    }
  }

  /** Detaching takes the first task off, which is then on no list; every other list is as it was. */
  lemma DetachedListed(m: Links, qs: Queues, r: Resource)
    requires AllListed(m, qs) && Separate(qs) && r in qs && qs[r] != []
    ensures Head(r) in m.next && m.next[Head(r)] == InTask(qs[r][0]) && m.next[Head(r)] in m.next
      && m.next[Head(r)] in m.prev
    ensures r in m.count && AllListed(Detached(m, r), qs[r := qs[r][1..]])
    ensures Separate(qs[r := qs[r][1..]]) && InNone(qs[r := qs[r][1..]], qs[r][0])
  {
    Ends(m, qs, r);
    DetachedSelf(m, qs, r);
    forall r' | r' in qs && r' != r ensures Listed(Detached(m, r), r', qs[r']) { DetachedOther(m, qs, r, r'); }
    var vs := qs[r := qs[r][1..]];
    forall a, i, b, j ensures OneSpot(vs, a, i, b, j) {
      assert OneSpot(qs, a, if a == r then i + 1 else i, b, if b == r then j + 1 else j);
    }
    forall r' | r' in vs ensures qs[r][0] !in vs[r'] {
      forall j | 0 <= j < |vs[r']| ensures vs[r'][j] != qs[r][0] {
        assert OneSpot(qs, r, 0, r', if r' == r then j + 1 else j);
      }
    }
  }

  lemma DroppedListed(m: Links, qs: Queues, r: Resource)
    requires AllListed(m, qs) && Separate(qs)
    ensures AllListed(m, qs - {r}) && Separate(qs - {r})
  {
    var vs := qs - {r};
    forall r' | r' in vs ensures Listed(m, r', vs[r']) { assert Listed(m, r', qs[r']); }
    forall a, i, b, j ensures OneSpot(vs, a, i, b, j) { assert OneSpot(qs, a, i, b, j); }
  }
}
