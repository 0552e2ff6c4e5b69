// Sums over finite sets, in any order: what a count over a whole map of queues is made of.
module Sums {

  ghost function Sum<K(!new)>(keys: set<K>, f: K -> nat): nat
  {
    if keys == {} then 0 else var k :| k in keys; f(k) + Sum(keys - {k}, f)
  }

  ghost function BagSum<K(!new)>(keys: set<K>, f: K -> multiset<nat>): multiset<nat>
  {
    if keys == {} then multiset{} else var k :| k in keys; f(k) + BagSum(keys - {k}, f)
  }

  /** Any one key may be taken out of a sum first. */
  lemma {:induction false} SumWithout<K(!new)>(keys: set<K>, f: K -> nat, k: K)
    requires k in keys
    ensures Sum(keys, f) == f(k) + Sum(keys - {k}, f)
  {
    var first :| first in keys && Sum(keys, f) == f(first) + Sum(keys - {first}, f);
    if first != k {
      SumWithout(keys - {first}, f, k);
      SumWithout(keys - {k}, f, first);
      assert keys - {first} - {k} == keys - {k} - {first};
    }
  }

  lemma {:induction false} BagSumWithout<K(!new)>(keys: set<K>, f: K -> multiset<nat>, k: K)
    requires k in keys
    ensures BagSum(keys, f) == f(k) + BagSum(keys - {k}, f)
  {
    var first :| first in keys && BagSum(keys, f) == f(first) + BagSum(keys - {first}, f);
    if first != k {
      BagSumWithout(keys - {first}, f, k);
      BagSumWithout(keys - {k}, f, first);
      assert keys - {first} - {k} == keys - {k} - {first};
    }
  }

  /** Summands that agree on the keys give one sum. */
  lemma {:induction false} BagSumCongruent<K(!new)>(keys: set<K>, f: K -> multiset<nat>, g: K -> multiset<nat>)
    requires forall k :: k in keys ==> f(k) == g(k)
    ensures BagSum(keys, f) == BagSum(keys, g)
  {
    if keys != {} {
      var k :| k in keys && BagSum(keys, f) == f(k) + BagSum(keys - {k}, f);
      BagSumCongruent(keys - {k}, f, g);
      BagSumWithout(keys, g, k);
    }
  }

  /** The sizes of the bags add up to the size of their sum. */
  lemma {:induction false} SumOfSizes<K(!new)>(keys: set<K>, sizes: K -> nat, bags: K -> multiset<nat>)
    requires forall k :: k in keys ==> sizes(k) == |bags(k)|
    ensures Sum(keys, sizes) == |BagSum(keys, bags)|
  {
    if keys != {} {
      var k :| k in keys;
      SumWithout(keys, sizes, k);
      BagSumWithout(keys, bags, k);
      SumOfSizes(keys - {k}, sizes, bags);
    }
  }

  /** Each summand is inside the sum. */
  lemma BagSumContains<K(!new)>(keys: set<K>, f: K -> multiset<nat>, k: K)
    requires k in keys
    ensures f(k) <= BagSum(keys, f)
  {
    BagSumWithout(keys, f, k);
  }

  /** What two different keys hold adds up inside the sum. */
  lemma BagSumContainsTwo<K(!new)>(keys: set<K>, f: K -> multiset<nat>, j: K, k: K)
    requires j in keys && k in keys && j != k
    ensures f(j) + f(k) <= BagSum(keys, f)
  {
    BagSumWithout(keys, f, j);
    BagSumContains(keys - {j}, f, k);
  }
}
