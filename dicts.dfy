/**
 * Python's insertion-ordered `dict`, as a sequence of key/value pairs.
 * `Put` is `d[k] = v`: an existing key keeps its position and gets the new
 * value, a new key is appended at the end.
 */
module Dicts {
  import opened Wrappers

  type Dict<K, V> = seq<(K, V)>

  /** The keys, in insertion order. */
  function Keys<K, V>(d: Dict<K, V>): (ks: seq<K>)
    ensures |ks| == |d|
    ensures forall i :: 0 <= i < |d| ==> ks[i] == d[i].0
  {
    if d == [] then [] else [d[0].0] + Keys(d[1..])
  }

  /** `d.get(k)`: the value of the first entry with key `k`. */
  function Get<K(==), V>(d: Dict<K, V>, k: K): Option<V>
  {
    if d == [] then None
    else if d[0].0 == k then Some(d[0].1)
    else Get(d[1..], k)
  }

  /** `k in d` */
  predicate HasKey<K(==), V>(d: Dict<K, V>, k: K)
  {
    Get(d, k).Some?
  }

  /** A key is present exactly when some entry carries it, and `Get` finds the first such entry. */
  lemma {:induction false} GetFirst<K, V>(d: Dict<K, V>, k: K)
    ensures HasKey(d, k) <==> exists i :: 0 <= i < |d| && d[i].0 == k
    ensures HasKey(d, k) ==> exists i :: 0 <= i < |d| && d[i] == (k, Get(d, k).value)
                                     && forall j :: 0 <= j < i ==> d[j].0 != k
  {
    if d != [] {
      GetFirst(d[1..], k);
      if d[0].0 != k {
        if i :| 0 <= i < |d| && d[i].0 == k {
          assert d[1..][i - 1].0 == k;
        }
        if HasKey(d, k) {
          var i :| 0 <= i < |d[1..]| && d[1..][i] == (k, Get(d, k).value) && forall j :: 0 <= j < i ==> d[1..][j].0 != k;
          assert d[i + 1] == (k, Get(d, k).value);
          assert forall j :: 0 <= j < i + 1 ==> d[j].0 != k by {
            forall j | 0 <= j < i + 1 ensures d[j].0 != k {
              if j > 0 { assert d[j] == d[1..][j - 1]; }
            }
          }
        }
      } else {
        assert d[0] == (k, Get(d, k).value);
      }
    }
  }

  /** `d[k] = v` */
  function Put<K(==), V>(d: Dict<K, V>, k: K, v: V): (r: Dict<K, V>)
    ensures Get(r, k) == Some(v)
    ensures |r| == if HasKey(d, k) then |d| else |d| + 1
  {
    if d == [] then [(k, v)]
    else if d[0].0 == k then [(k, v)] + d[1..]
    else [d[0]] + Put(d[1..], k, v)
  }

  /** Assignment leaves every other key's value as it was. */
  lemma {:induction false} PutOther<K, V>(d: Dict<K, V>, k: K, v: V, other: K)
    requires other != k
    ensures Get(Put(d, k, v), other) == Get(d, other)
  {
    if d != [] && d[0].0 != k {
      PutOther(d[1..], k, v, other);
      assert Put(d, k, v)[1..] == Put(d[1..], k, v);
    }
  }

  /** Assignment adds exactly its own key to the key set. */
  lemma PutHasKey<K, V>(d: Dict<K, V>, k: K, v: V, x: K)
    ensures HasKey(Put(d, k, v), x) <==> HasKey(d, x) || x == k
  {
    if x != k {
      PutOther(d, k, v, x);
    }
  }

  /** Assigning a new key appends it; assigning an existing one keeps the order of the keys. */
  lemma {:induction false} PutOrder<K, V>(d: Dict<K, V>, k: K, v: V)
    ensures !HasKey(d, k) ==> Put(d, k, v) == d + [(k, v)]
    ensures HasKey(d, k) ==> Keys(Put(d, k, v)) == Keys(d)
  {
    if d != [] && d[0].0 != k {
      PutOrder(d[1..], k, v);
      assert Put(d, k, v) == [d[0]] + Put(d[1..], k, v);
      if !HasKey(d, k) {
        assert d == [d[0]] + d[1..];
      } else {
        assert Keys(Put(d, k, v)) == [d[0].0] + Keys(Put(d[1..], k, v));
      }
    }
  }

  /** Assignment introduces no entry other than the assigned one. */
  lemma {:induction false} PutEntries<K, V>(d: Dict<K, V>, k: K, v: V)
    ensures forall e :: e in Put(d, k, v) ==> e == (k, v) || e in d
  {
    if d != [] && d[0].0 != k {
      PutEntries(d[1..], k, v);
      assert Put(d, k, v) == [d[0]] + Put(d[1..], k, v);
    }
  }
}
