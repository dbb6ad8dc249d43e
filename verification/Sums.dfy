/** Sums over the values of a map. */
module Sums {
  /** The sum of these weights. */
  ghost function Total<K>(weights: map<K, nat>, keys: set<K>): nat
    requires keys <= weights.Keys
  {
    if keys == {} then 0 else
    var key :| key in keys;
    weights[key] + Total(weights, keys - {key})
  }

  /** The sum does not depend on the order in which it is taken. */
  lemma {:induction false} TotalSplits<K>(weights: map<K, nat>, keys: set<K>, key: K)
    requires keys <= weights.Keys && key in keys
    ensures Total(weights, keys) == weights[key] + Total(weights, keys - {key})
  {
    var first :| first in keys && Total(weights, keys) == weights[first] + Total(weights, keys - {first});
    if first != key {
      TotalSplits(weights, keys - {first}, key);
      TotalSplits(weights, keys - {key}, first);
      assert keys - {first} - {key} == keys - {key} - {first};
    }
  }

  lemma {:induction false} TotalSame<K>(weights: map<K, nat>, others: map<K, nat>, keys: set<K>)
    requires keys <= weights.Keys && keys <= others.Keys
    requires forall key :: key in keys ==> weights[key] == others[key]
    ensures Total(weights, keys) == Total(others, keys)
  {
    if keys != {} {
      var key :| key in keys;
      TotalSplits(weights, keys, key);
      TotalSplits(others, keys, key);
      TotalSame(weights, others, keys - {key});
    }
  }

  /** One weight falls, the others stay. */
  lemma TotalFalls<K>(weights: map<K, nat>, less: map<K, nat>, key: K)
    requires weights.Keys == less.Keys && key in weights && less[key] < weights[key]
    requires forall other :: other in weights && other != key ==> less[other] == weights[other]
    ensures Total(less, less.Keys) < Total(weights, weights.Keys)
  {
    TotalSplits(weights, weights.Keys, key);
    TotalSplits(less, less.Keys, key);
    TotalSame(weights, less, weights.Keys - {key});
  }

  /** One value is another, the rest stays. */
  lemma TotalChanges<K>(weights: map<K, nat>, key: K, weight: nat)
    ensures var changed := weights[key := weight];
      Total(changed, changed.Keys) + (if key in weights then weights[key] else 0) == Total(weights, weights.Keys) + weight
  {
    var changed := weights[key := weight];
    TotalSplits(changed, changed.Keys, key);
    TotalSame(weights, changed, weights.Keys - {key});
    assert changed.Keys - {key} == weights.Keys - {key};
    if key in weights {
      TotalSplits(weights, weights.Keys, key);
    } else {
      assert weights.Keys - {key} == weights.Keys;
    }
  }

  /** One value is gone, the rest stays. */
  lemma TotalWithout<K>(weights: map<K, nat>, key: K)
    ensures var rest := weights - {key};
      Total(rest, rest.Keys) + (if key in weights then weights[key] else 0) == Total(weights, weights.Keys)
  {
    var rest := weights - {key};
    TotalSame(weights, rest, weights.Keys - {key});
    assert rest.Keys == weights.Keys - {key};
    if key in weights {
      TotalSplits(weights, weights.Keys, key);
    } else {
      assert weights.Keys - {key} == weights.Keys;
    }
  }
}
