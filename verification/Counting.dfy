/** Counting facts about finite sets of integers. */
module Counting {

  ghost function Below(p: nat): set<int> {
    if p == 0 then {} else Below(p - 1) + {p - 1}
  }

  lemma {:induction false} BelowCount(p: nat)
    ensures |Below(p)| == p && forall i :: i in Below(p) <==> 0 <= i < p
  {
    if p > 0 { BelowCount(p - 1); }
  }

  lemma SubsetCount(a: set<int>, b: set<int>)
    requires a <= b
    ensures |a| <= |b| && (|a| == |b| ==> a == b)
  {
    assert b == a + (b - a);
  }

  lemma AnElement(s: set<int>) returns (k: int)
    requires s != {}
    ensures k in s
  {
    assert exists x :: x in s by {
      assert (forall x :: x !in s) ==> s == {};
    }
    k :| k in s;
  }

  lemma {:induction false} InjectionCount(keys: set<int>, pos: map<int, int>, target: set<int>)
    requires forall k :: k in keys ==> k in pos && pos[k] in target
    requires forall k, l :: k in keys && l in keys && pos[k] == pos[l] ==> k == l
    ensures |keys| <= |target|
  {
    if keys != {} {
      var k := AnElement(keys);
      InjectionCount(keys - {k}, pos, target - {pos[k]});
    }
  }
}
