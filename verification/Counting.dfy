/** Counting the places of a list: the loops that count are tied to the size of the set of places they count. */
module Counting {
  ghost function Chosen(n: nat, p: int -> bool): (places: set<int>)
    ensures forall a :: a in places <==> 0 <= a < n && p(a)
  {
    set a | 0 <= a < n && p(a)
  }

  /** One more place; `q` may say something else only of places after it. */
  lemma ChosenNext(n: nat, next: nat, p: int -> bool, q: int -> bool)
    requires next == n + 1 && forall a :: 0 <= a < n ==> p(a) == q(a)
    ensures |Chosen(next, q)| == |Chosen(n, p)| + (if q(n) then 1 else 0)
  {
    if q(n) {
      assert Chosen(next, q) == Chosen(n, p) + {n};
    } else {
      assert Chosen(next, q) == Chosen(n, p);
    }
  }

  lemma ChosenNone(p: int -> bool)
    ensures |Chosen(0, p)| == 0
  {
    assert Chosen(0, p) == {};
  }
}
