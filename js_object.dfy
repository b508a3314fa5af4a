/** Plain JavaScript objects with string keys, as lodash `fromPairs` builds
    them and `values` reads them: one entry per key, in the order the keys
    were first inserted. */
module JsObject {
  import opened Common

  /** The entries of an object, in enumeration order. */
  type Entries<V> = seq<(string, V)>

  /** No key occurs twice. */
  predicate UniqueKeys<V>(m: Entries<V>)
  {
    forall i, j :: 0 <= i < j < |m| ==> m[i].0 != m[j].0
  }

  /** Some entry has key `k`. */
  predicate HasKey<V>(m: Entries<V>, k: string)
  {
    exists i :: 0 <= i < |m| && m[i].0 == k
  }

  /** The position of the first entry with key `k`, or -1. */
  function IndexOf<V>(m: Entries<V>, k: string): (r: int)
    ensures -1 <= r < |m|
    ensures r >= 0 ==> m[r].0 == k && forall j :: 0 <= j < r ==> m[j].0 != k
    ensures r == -1 <==> !HasKey(m, k)
  {
    if m == [] then -1
    else if m[0].0 == k then 0
    else
      var r := IndexOf(m[1..], k);
      if r == -1 then -1 else r + 1
  }

  /** `obj[k]`: the value under key `k`, or nothing. */
  function Get<V>(m: Entries<V>, k: string): (r: Option<V>)
    ensures r.Some? <==> HasKey(m, k)
  {
    var i := IndexOf(m, k);
    if i >= 0 then Some(m[i].1) else None
  }

  /** `obj[k] = v`: an existing key keeps its place and takes the new
      value; a new key is added at the end. */
  function Put<V>(m: Entries<V>, k: string, v: V): Entries<V>
  {
    var i := IndexOf(m, k);
    if i >= 0 then m[i := (k, v)] else m + [(k, v)]
  }

  /** The first occurrence of a key depends only on the keys, and entries
      added at the end under other keys do not move it. */
  lemma IndexOfKeysOnly<V>(m: Entries<V>, r: Entries<V>, k: string)
    requires |m| <= |r|
    requires forall i :: 0 <= i < |m| ==> r[i].0 == m[i].0
    requires forall i :: |m| <= i < |r| ==> r[i].0 != k
    ensures IndexOf(r, k) == IndexOf(m, k)
  {
    if IndexOf(m, k) >= 0 {
      assert r[IndexOf(m, k)].0 == k;
    }
  }

  /** Put: the key reads back the new value, every other key reads what
      it read before, keys stay unique, and existing entries keep their
      positions. */
  lemma PutProperties<V>(m: Entries<V>, k: string, v: V)
    ensures Get(Put(m, k, v), k) == Some(v)
    ensures forall k' :: k' != k ==> Get(Put(m, k, v), k') == Get(m, k')
    ensures UniqueKeys(m) ==> UniqueKeys(Put(m, k, v))
    ensures HasKey(m, k) ==> |Put(m, k, v)| == |m|
    ensures !HasKey(m, k) ==> |Put(m, k, v)| == |m| + 1 && Put(m, k, v)[|m|] == (k, v)
    ensures forall i :: 0 <= i < |m| ==> Put(m, k, v)[i].0 == m[i].0
    ensures forall i :: 0 <= i < |m| && m[i].0 != k ==> Put(m, k, v)[i] == m[i]
  {
    var r := Put(m, k, v);
    var i := IndexOf(m, k);
    if i >= 0 {
      IndexOfKeysOnly(m, r, k);
    } else {
      assert r[|m|].0 == k;
    }
    forall k' | k' != k
      ensures Get(r, k') == Get(m, k')
    {
      IndexOfKeysOnly(m, r, k');
    }
    if UniqueKeys(m) && i < 0 {
      forall a, b | 0 <= a < b < |r|
        ensures r[a].0 != r[b].0
      {
        if b == |m| {
          assert r[a].0 == m[a].0;
        }
      }
    }
  }

  /** `fromPairs(pairs)`: the pairs put in one after another. */
  function FromPairs<V>(pairs: Entries<V>): Entries<V>
  {
    if pairs == [] then [] else Put(FromPairs(pairs[..|pairs| - 1]), pairs[|pairs| - 1].0, pairs[|pairs| - 1].1)
  }

  /** `values(obj)`. */
  function Values<V>(m: Entries<V>): (r: seq<V>)
    ensures |r| == |m| && forall i :: 0 <= i < |r| ==> r[i] == m[i].1
  {
    seq(|m|, i requires 0 <= i < |m| => m[i].1)
  }

  /** Deduplication: the object has one entry per distinct key of the
      pairs, and every entry is one of the pairs. */
  lemma {:induction false} FromPairsDedup<V>(pairs: Entries<V>)
    ensures UniqueKeys(FromPairs(pairs))
    ensures forall k :: HasKey(FromPairs(pairs), k) <==> HasKey(pairs, k)
    ensures forall j :: 0 <= j < |FromPairs(pairs)| ==> exists i :: 0 <= i < |pairs| && FromPairs(pairs)[j] == pairs[i]
    ensures |FromPairs(pairs)| <= |pairs|
  {
    if pairs != [] {
      var init, last := pairs[..|pairs| - 1], pairs[|pairs| - 1];
      FromPairsDedup(init);
      var m := FromPairs(init);
      var r := Put(m, last.0, last.1);
      PutProperties(m, last.0, last.1);
      forall k
        ensures HasKey(r, k) <==> HasKey(pairs, k)
      {
        assert Get(r, k).Some? <==> HasKey(r, k);
        if k != last.0 {
          if HasKey(pairs, k) {
            var i :| 0 <= i < |pairs| && pairs[i].0 == k;
            assert init[i].0 == k;
          }
          if HasKey(init, k) {
            var i :| 0 <= i < |init| && init[i].0 == k;
            assert pairs[i].0 == k;
          }
        } else {
          assert pairs[|pairs| - 1].0 == k;
        }
      }
      forall j | 0 <= j < |r|
        ensures exists i :: 0 <= i < |pairs| && r[j] == pairs[i]
      {
        if j < |m| && m[j].0 != last.0 {
          var i :| 0 <= i < |init| && m[j] == init[i];
          assert r[j] == pairs[i];
        } else {
          assert r[j] == last;
        }
      }
    }
  }

  /** Later pairs win: the value under a key is that of the last pair
      carrying the key. */
  lemma {:induction false} FromPairsLastWins<V>(pairs: Entries<V>, i: nat)
    requires i < |pairs|
    requires forall j :: i < j < |pairs| ==> pairs[j].0 != pairs[i].0
    ensures Get(FromPairs(pairs), pairs[i].0) == Some(pairs[i].1)
  {
    var init, last := pairs[..|pairs| - 1], pairs[|pairs| - 1];
    PutProperties(FromPairs(init), last.0, last.1);
    if i < |pairs| - 1 {
      FromPairsLastWins(init, i);
    }
  }

  /** Pairs whose keys are already distinct come back unchanged, in their
      order. */
  lemma {:induction false} FromPairsDistinct<V>(pairs: Entries<V>)
    requires UniqueKeys(pairs)
    ensures FromPairs(pairs) == pairs
  {
    if pairs != [] {
      var init, last := pairs[..|pairs| - 1], pairs[|pairs| - 1];
      FromPairsDistinct(init);
      assert !HasKey(init, last.0);
      assert pairs == init + [last];
    }
  }
}
