/** The index word of the bins: bit b stands for the b-th block of four bins.  The word is an
    unsigned 32-bit number; setting, clearing and testing a bit are defined on its binary digits,
    and the mask of block b is the number 1 << b. */
module BlockIndex {

  const TWO_32 := 0x1_0000_0000

  function Shl(b: nat): (m: nat)
    ensures m > 0
  {
    if b == 0 then 1 else 2 * Shl(b - 1)
  }

  /** w & (1 << b) is not zero. */
  predicate Test(w: nat, b: nat) {
    if b == 0 then w % 2 == 1 else Test(w / 2, b - 1)
  }

  /** w | (1 << b) */
  function Set(w: nat, b: nat): nat {
    if b == 0 then w - w % 2 + 1 else 2 * Set(w / 2, b - 1) + w % 2
  }

  /** w & ~(1 << b) */
  function Clear(w: nat, b: nat): nat {
    if b == 0 then w - w % 2 else 2 * Clear(w / 2, b - 1) + w % 2
  }

  lemma {:induction false} TestAfterSet(w: nat, b: nat, d: nat)
    ensures Test(Set(w, b), d) <==> d == b || Test(w, d)
  {
    if b > 0 && d > 0 { TestAfterSet(w / 2, b - 1, d - 1); }
  }

  lemma {:induction false} TestAfterClear(w: nat, b: nat, d: nat)
    ensures Test(Clear(w, b), d) <==> d != b && Test(w, d)
  {
    if b > 0 && d > 0 { TestAfterClear(w / 2, b - 1, d - 1); }
  }

  lemma {:induction false} SetBound(w: nat, b: nat, k: nat)
    requires b < k && w < Shl(k)
    ensures Set(w, b) < Shl(k) && Clear(w, b) < Shl(k)
  {
    if b > 0 { SetBound(w / 2, b - 1, k - 1); }
  }

  lemma ShlOf32()
    ensures Shl(32) == TWO_32
  {
    assert Shl(8) == 256;
    assert Shl(16) == 65536;
    assert Shl(24) == 16777216;
  }

  /** When the mask of b exceeds the word, no bit from b up is set. */
  lemma {:induction false} NoneAbove(w: nat, b: nat, d: nat)
    requires w < Shl(b) && b <= d
    ensures !Test(w, d)
  {
    if d > 0 {
      if b == 0 { ZeroHasNone(d); } else { NoneAbove(w / 2, b - 1, d - 1); }
    }
  }

  lemma {:induction false} ZeroHasNone(d: nat)
    ensures !Test(0, d)
  {
    if d > 0 { ZeroHasNone(d - 1); }
  }

  /** When it does not, and bit b itself is clear, the next mask does not exceed it either. */
  lemma {:induction false} SomeAbove(w: nat, b: nat)
    requires Shl(b) <= w && !Test(w, b)
    ensures Shl(b + 1) <= w
  {
    if b > 0 { SomeAbove(w / 2, b - 1); }
  }

  lemma {:induction false} ShlLarge(b: nat)
    ensures b < Shl(b)
  {
    if b > 0 { ShlLarge(b - 1); }
  }

  lemma {:induction false} FindAbove(w: nat, b: nat) returns (d: nat)
    requires Shl(b) <= w
    ensures d >= b && Test(w, d)
    decreases w - b
  {
    ShlLarge(b);
    if Test(w, b) {
      d := b;
    } else {
      SomeAbove(w, b);
      ShlLarge(b + 1);
      d := FindAbove(w, b + 1);
    }
  }

  ghost predicate SomeFrom(w: nat, b: nat) {
    exists d: nat :: d >= b && Test(w, d)
  }

  /** The comparison with the mask of b, which is all the search looks at, says whether a bit from b up is set. */
  lemma AnyAboveExactlyWhen(w: nat, b: nat)
    ensures SomeFrom(w, b) <==> Shl(b) <= w
  {
    if Shl(b) <= w {
      var d := FindAbove(w, b);
      assert d >= b && Test(w, d);
    } else {
      forall d: nat | d >= b ensures !Test(w, d) { NoneAbove(w, b, d); }
    }
  }

  lemma {:induction false} ShlMonotone(b: nat, k: nat)
    requires b <= k
    ensures Shl(b) <= Shl(k)
  {
    if b < k { ShlMonotone(b, k - 1); }
  }

  /** `blocks` are the blocks whose bit is set in w. */
  ghost predicate WordIs(w: nat, blocks: set<int>) {
    && w < TWO_32
    && (forall b :: b in blocks ==> 0 <= b < 32)
    && (forall b: nat {:trigger Test(w, b)} :: Test(w, b) <==> b in blocks)
  }

  lemma ZeroWord()
    ensures WordIs(0, {})
  {
    forall b: nat ensures !Test(0, b) { ZeroHasNone(b); }
  }

  method Mark(w: nat, b: nat, ghost blocks: set<int>) returns (w': nat)
    requires b < 32 && WordIs(w, blocks)
    ensures WordIs(w', blocks + {b})
  {
    w' := Set(w, b);
    ShlOf32();
    SetBound(w, b, 32);
    forall d: nat ensures Test(w', d) <==> d in blocks + {b} { TestAfterSet(w, b, d); }
  }

  method Unmark(w: nat, b: nat, ghost blocks: set<int>) returns (w': nat)
    requires b < 32 && WordIs(w, blocks)
    ensures WordIs(w', blocks - {b})
  {
    w' := Clear(w, b);
    ShlOf32();
    SetBound(w, b, 32);
    forall d: nat ensures Test(w', d) <==> d in blocks - {b} { TestAfterClear(w, b, d); }
  }

  /** The first marked block from b0 up, or 32.  The mask is shifted, as a 32-bit number, until it
      meets a set bit; it never shifts out, because it does not exceed the word. */
  method FirstMarked(w: nat, b0: nat, ghost blocks: set<int>) returns (b: nat)
    requires b0 <= 32 && WordIs(w, blocks)
    ensures b0 <= b <= 32 && (b < 32 ==> b in blocks) && forall d :: b0 <= d < b ==> d !in blocks
  {
    ShlOf32();
    b := b0;
    var block := Shl(b0) % TWO_32;
    if b0 < 32 { ShlBelow(b0); }
    if block <= w && block != 0 {
      while !Test(w, b)
        invariant b0 <= b < 32 && block == Shl(b) <= w
        invariant forall d :: b0 <= d < b ==> d !in blocks
        decreases 32 - b
      {
        SomeAbove(w, b);
        if b == 31 { assert false; }
        b, block := b + 1, 2 * block % TWO_32;
      }
    } else {
      forall d | b0 <= d < 32 ensures d !in blocks {
        NoneAbove(w, b0, d);
        assert !Test(w, d);
      }
      b := 32;
    }
  }

  lemma ShlBelow(b: nat)
    requires b < 32
    ensures Shl(b) < TWO_32
  {
    ShlMonotone(b, 31);
    ShlOf32();
  }
}
