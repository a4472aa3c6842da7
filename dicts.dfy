/**
 * Python's `d[k] = v` applied to a sequence of key/value pairs in order,
 * as in `for k, v in pairs: d[k] = v`. A later pair overrides an earlier one
 * with the same key.
 */
module Dicts {

  function Assign<K, V>(d: map<K, V>, pairs: seq<(K, V)>): map<K, V> {
    if pairs == [] then d
    else
      var last := pairs[|pairs| - 1];
      Assign(d, pairs[..|pairs| - 1])[last.0 := last.1]
  }

  /** The keys named by the pairs. */
  function KeysOf<K, V>(pairs: seq<(K, V)>): set<K> {
    set i | 0 <= i < |pairs| :: pairs[i].0
  }

  /** Index `i` holds the last pair with key `k`. */
  predicate IsLastFor<K(==), V>(pairs: seq<(K, V)>, k: K, i: int) {
    0 <= i < |pairs| && pairs[i].0 == k && forall j :: i < j < |pairs| ==> pairs[j].0 != k
  }

  /** The result holds exactly the old keys and the assigned ones. */
  lemma {:induction false} AssignKeys<K, V>(d: map<K, V>, pairs: seq<(K, V)>)
    ensures Assign(d, pairs).Keys == d.Keys + KeysOf(pairs)
  {
    if pairs != [] {
      var init := pairs[..|pairs| - 1];
      AssignKeys(d, init);
      assert KeysOf(pairs) == KeysOf(init) + {pairs[|pairs| - 1].0} by {
        forall k | k in KeysOf(pairs) ensures k in KeysOf(init) + {pairs[|pairs| - 1].0} {
          var i :| 0 <= i < |pairs| && pairs[i].0 == k;
          if i < |pairs| - 1 {
            assert init[i].0 == k;
          }
        }
        forall k | k in KeysOf(init) ensures k in KeysOf(pairs) {
          var i :| 0 <= i < |init| && init[i].0 == k;
          assert pairs[i].0 == k;
        }
      }
    }
  }

  /** A key that no pair names keeps its old value. */
  lemma {:induction false} AssignUntouched<K, V>(d: map<K, V>, pairs: seq<(K, V)>, k: K)
    requires k in d && k !in KeysOf(pairs)
    ensures k in Assign(d, pairs) && Assign(d, pairs)[k] == d[k]
  {
    if pairs != [] {
      var init := pairs[..|pairs| - 1];
      assert pairs[|pairs| - 1].0 in KeysOf(pairs);
      AssignUntouched(d, init, k);
    }
  }

  /** A key takes the value of the last pair that names it. */
  lemma {:induction false} AssignLastWins<K, V>(d: map<K, V>, pairs: seq<(K, V)>, k: K, i: int)
    requires IsLastFor(pairs, k, i)
    ensures k in Assign(d, pairs) && Assign(d, pairs)[k] == pairs[i].1
  {
    if i < |pairs| - 1 {
      var init := pairs[..|pairs| - 1];
      assert IsLastFor(init, k, i);
      AssignLastWins(d, init, k, i);
    }
  }

  /** Assigning one more pair is one more `d[k] = v` on the result so far. */
  lemma AssignSnoc<K, V>(d: map<K, V>, pairs: seq<(K, V)>, p: (K, V))
    ensures Assign(d, pairs + [p]) == Assign(d, pairs)[p.0 := p.1]
  {
    assert (pairs + [p])[..|pairs|] == pairs;
  }
}
