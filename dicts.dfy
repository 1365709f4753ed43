/** Python's dict comprehensions and `zip`, as used by the query builder.
    A comprehension `{k: v for ...}` inserts its pairs in order, so a key that
    occurs twice keeps the value of its last occurrence. */
module Dicts {

  /** The keys of a sequence of pairs. */
  function KeysOf<K, V>(ps: seq<(K, V)>): set<K>
  {
    set i | 0 <= i < |ps| :: ps[i].0
  }

  /** The dict that inserting the pairs of `ps` one after the other builds. */
  function FromPairs<K, V>(ps: seq<(K, V)>): (m: map<K, V>)
    ensures m.Keys == KeysOf(ps)
    ensures forall k :: k in m ==> exists i :: 0 <= i < |ps| && ps[i] == (k, m[k])
  {
    if ps == [] then map[]
    else
      var init := ps[..|ps| - 1];
      var m := FromPairs(init);
      assert KeysOf(ps) == KeysOf(init) + {ps[|ps| - 1].0} by {
        forall k | k in KeysOf(ps) ensures k in KeysOf(init) + {ps[|ps| - 1].0} {
          var i :| 0 <= i < |ps| && ps[i].0 == k;
          if i < |ps| - 1 { assert init[i] == ps[i]; }
        }
      }
      var r := m[ps[|ps| - 1].0 := ps[|ps| - 1].1];
      assert forall k :: k in r ==> exists i :: 0 <= i < |ps| && ps[i] == (k, r[k]) by {
        forall k | k in r ensures exists i :: 0 <= i < |ps| && ps[i] == (k, r[k]) {
          if k == ps[|ps| - 1].0 {
            assert ps[|ps| - 1] == (k, r[k]);
          } else {
            var i :| 0 <= i < |init| && init[i] == (k, m[k]);
            assert ps[i] == init[i];
          }
        }
      }
      r
  }

  /** The value of a key is the value of its last pair: last write wins. */
  lemma {:induction false} FromPairsLastWins<K, V>(ps: seq<(K, V)>, i: nat)
    requires i < |ps|
    requires forall j :: i < j < |ps| ==> ps[j].0 != ps[i].0
    ensures ps[i].0 in FromPairs(ps) && FromPairs(ps)[ps[i].0] == ps[i].1
  {
    if i < |ps| - 1 {
      var init := ps[..|ps| - 1];
      forall j | i < j < |init| ensures init[j].0 != init[i].0 {
        assert init[j] == ps[j];
      }
      FromPairsLastWins(init, i);
    }
  }

  /** Pairs up `xs` and `ys` position by position, stopping at the end of the
      shorter one, as Python's `zip` does. */
  function Zip<A, B>(xs: seq<A>, ys: seq<B>): (r: seq<(A, B)>)
    ensures |r| == if |xs| <= |ys| then |xs| else |ys|
    ensures forall i :: 0 <= i < |r| ==> r[i] == (xs[i], ys[i])
  {
    if xs == [] || ys == [] then [] else [(xs[0], ys[0])] + Zip(xs[1..], ys[1..])
  }

  /** `{k: v for k, v in zip(keys, vals)}` */
  function ZipDict<K, V>(keys: seq<K>, vals: seq<V>): map<K, V>
  {
    FromPairs(Zip(keys, vals))
  }

  /** The keys of a zipped dict are the keys that found a partner, and each
      one holds the value paired with its last occurrence among them. */
  lemma ZipDictAt<K, V>(keys: seq<K>, vals: seq<V>, i: nat)
    requires i < |keys| && i < |vals|
    requires forall j :: i < j < |keys| && j < |vals| ==> keys[j] != keys[i]
    ensures ZipDict(keys, vals).Keys == set j | 0 <= j < |keys| && j < |vals| :: keys[j]
    ensures keys[i] in ZipDict(keys, vals) && ZipDict(keys, vals)[keys[i]] == vals[i]
  {
    var z := Zip(keys, vals);
    assert KeysOf(z) == set j | 0 <= j < |keys| && j < |vals| :: keys[j] by {
      forall k | k in KeysOf(z) ensures k in set j | 0 <= j < |keys| && j < |vals| :: keys[j] {
        var j :| 0 <= j < |z| && z[j].0 == k;
        assert z[j] == (keys[j], vals[j]);
      }
      forall k | k in set j | 0 <= j < |keys| && j < |vals| :: keys[j] ensures k in KeysOf(z) {
        var j :| 0 <= j < |keys| && j < |vals| && keys[j] == k;
        assert z[j].0 == k;
      }
    }
    FromPairsLastWins(z, i);
  }
}
