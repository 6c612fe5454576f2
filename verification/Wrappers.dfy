/** Values that may be absent. */
module Wrappers {
  datatype Option<+T> = None | Some(value: T)

  /** 1 when the value is there, 0 otherwise: the size of a ledger column. */
  function Size<T>(o: Option<T>): nat {
    if o.Some? then 1 else 0
  }

  /** What adding or removing one element does to the size of a set. */
  lemma SizeAround<T>(s: set<T>, x: T)
    ensures |s + {x}| == |s| + if x in s then 0 else 1
    ensures |s - {x}| == |s| - if x in s then 1 else 0
  {
    if x in s {
      assert s + {x} == s;
    } else {
      assert s - {x} == s;
    }
  }

  lemma SubsetSize<T>(a: set<T>, b: set<T>)
    requires a <= b
    ensures |a| <= |b| && |b - a| == |b| - |a|
  {
    assert b == a + (b - a);
  }

  /** A number above all of a set. */
  lemma {:induction false} FreshNat(s: set<nat>) returns (n: nat)
    ensures forall x :: x in s ==> x < n
  {
    if s == {} {
      n := 0;
    } else {
      var y :| y in s;
      var rest := FreshNat(s - {y});
      n := if rest <= y then y + 1 else rest;
      forall x | x in s
        ensures x < n
      {
        assert x == y || x in s - {y};
      }
    }
  }
}
