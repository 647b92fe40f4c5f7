/** Double hashing over a prime number of slots: the probe sequence of a key visits every slot. */
module Probing {
  import opened Counting

  const TWO_32 := 0x1_0000_0000

  ghost predicate Divides(d: int, n: int)
    requires d > 0
  {
    n % d == 0
  }

  ghost predicate IsPrime(p: int) {
    p > 1 && forall d {:trigger Divides(d, p)} :: 1 < d < p ==> !Divides(d, p)
  }

  /** Keys are signed but the table sizes are not, so the remainder is taken of the unsigned key. */
  function Hash(key: int, p: int): (h: int)
    requires p > 2
    ensures 0 <= h < p
  {
    (key % TWO_32) % p
  }

  function Rehash(key: int, p: int): (c: int)
    requires p > 2
    ensures 1 <= c <= p - 2
  {
    1 + (key % TWO_32) % (p - 2)
  }

  /** One step of a probe loop. */
  function Next(i: int, c: int, p: int): (j: int)
    requires 0 <= i < p && 1 <= c < p
    ensures 0 <= j < p
  {
    if i - c < 0 then i - c + p else i - c
  }

  /** The slot n steps of size c after slot h. */
  function Walk(h: int, c: int, p: int, n: nat): (i: int)
    requires 0 <= h < p && 1 <= c < p
    ensures 0 <= i < p
  {
    if n == 0 then h else Next(Walk(h, c, p, n - 1), c, p)
  }

  /** The n-th slot that is looked at for a key. */
  function Probe(key: int, p: int, n: nat): (i: int)
    requires p > 2
    ensures 0 <= i < p
  {
    Walk(Hash(key, p), Rehash(key, p), p, n)
  }

  // ---------------------------------------------------------------- modular arithmetic

  /** p divides a * b and not a, so it divides b; the quotient is returned. */
  lemma {:induction false} PrimeDivides(p: int, a: int, b: int, k: int) returns (j: int)
    requires IsPrime(p) && 1 <= a < p && a * b == k * p
    ensures b == j * p
    decreases a
  {
    if a == 1 {
      j := k;
    } else {
      var q, r := p / a, p % a;
      assert !Divides(a, p);
      assert p == q * a + r;
      calc {
        r * b;
        (p - q * a) * b;
        p * b - q * (a * b);
        p * b - q * (k * p);
        (b - q * k) * p;
      }
      j := PrimeDivides(p, r, b, b - q * k);
    }
  }

  /** Two keys start at the same slot exactly when their unsigned values differ by a multiple of the size, and go on
      by the same step exactly when they differ by a multiple of two less. */
  lemma SameSlotExactlyWhen(a: int, b: int, p: int)
    requires p > 2
    ensures var d := a % TWO_32 - b % TWO_32;
      && (Hash(a, p) == Hash(b, p) <==> Multiple(d, p))
      && (Rehash(a, p) == Rehash(b, p) <==> Multiple(d, p - 2))
  {
    SameRest(a % TWO_32, b % TWO_32, p);
    SameRest(a % TWO_32, b % TWO_32, p - 2);
  }

  ghost function Times(k: int, p: int): int { k * p }

  ghost predicate Multiple(d: int, p: int) { exists k :: d == Times(k, p) }

  lemma SameRest(x: int, y: int, p: int)
    requires p > 0
    ensures x % p == y % p <==> Multiple(x - y, p)
  {
    var q := x / p - y / p;
    assert x == x / p * p + x % p && y == y / p * p + y % p;
    assert x - y == Times(q, p) + (x % p - y % p);
    if x % p == y % p {
      assert x - y == Times(q, p);
    } else if k :| x - y == Times(k, p) {
      assert (k - q) * p == x % p - y % p && (q - k) * p == y % p - x % p;
      SmallMultiple(if x % p > y % p then k - q else q - k, p);
    }
  }

  // ---------------------------------------------------------------- the probe sequence

  lemma {:induction false} WalkClosed(h: int, c: int, p: int, n: nat) returns (k: int)
    requires 0 <= h < p && 1 <= c < p
    ensures Walk(h, c, p, n) == h - n * c + k * p
  {
    if n == 0 {
      k := 0;
    } else {
      var l := WalkClosed(h, c, p, n - 1);
      assert n * c == (n - 1) * c + c;
      if Walk(h, c, p, n - 1) - c < 0 {
        k := l + 1;
        assert k * p == l * p + p;
      } else {
        k := l;
      }
    }
  }

  lemma SmallMultiple(j: int, p: int)
    requires 0 <= j * p < p
    ensures j == 0
  {
  }

  lemma WalkInjective(h: int, c: int, p: int, m: nat, n: nat)
    requires IsPrime(p) && 0 <= h < p && 1 <= c < p && m <= n < p && Walk(h, c, p, m) == Walk(h, c, p, n)
    ensures m == n
  {
    var k := WalkClosed(h, c, p, m);
    var l := WalkClosed(h, c, p, n);
    assert c * (n - m) == (l - k) * p;
    var j := PrimeDivides(p, c, n - m, l - k);
    SmallMultiple(j, p);
  }

  ghost function Visited(h: int, c: int, p: int, n: nat): set<int>
    requires 0 <= h < p && 1 <= c < p
  {
    if n == 0 then {} else Visited(h, c, p, n - 1) + {Walk(h, c, p, n - 1)}
  }

  lemma {:induction false} VisitedIs(h: int, c: int, p: int, n: nat, i: int) returns (m: nat)
    requires 0 <= h < p && 1 <= c < p && i in Visited(h, c, p, n)
    ensures m < n && Walk(h, c, p, m) == i
  {
    if i == Walk(h, c, p, n - 1) {
      m := n - 1;
    } else {
      m := VisitedIs(h, c, p, n - 1, i);
    }
  }

  lemma {:induction false} VisitedCount(h: int, c: int, p: int, n: nat)
    requires IsPrime(p) && 0 <= h < p && 1 <= c < p && n <= p
    ensures |Visited(h, c, p, n)| == n
  {
    if n > 0 {
      VisitedCount(h, c, p, n - 1);
      if Walk(h, c, p, n - 1) in Visited(h, c, p, n - 1) {
        var m := VisitedIs(h, c, p, n - 1, Walk(h, c, p, n - 1));
        WalkInjective(h, c, p, m, n - 1);
      }
    }
  }

  /** Every slot is looked at within p steps. */
  lemma ProbeOnto(key: int, p: int, i: int) returns (n: nat)
    requires IsPrime(p) && p > 2 && 0 <= i < p
    ensures n < p && Probe(key, p, n) == i
  {
    var h, c := Hash(key, p), Rehash(key, p);
    VisitedCount(h, c, p, p);
    BelowCount(p);
    forall x | x in Visited(h, c, p, p) ensures x in Below(p) {
      var m := VisitedIs(h, c, p, p, x);
    }
    SubsetCount(Visited(h, c, p, p), Below(p));
    n := VisitedIs(h, c, p, p, i);
  }
}
