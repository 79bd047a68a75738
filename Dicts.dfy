/** Python dictionaries with string keys, as the JSON decoder builds them:
    an insertion-ordered list of entries whose keys are distinct. */
module Dicts {
  import opened Wrappers

  /** The entries of a dictionary, in insertion order. */
  type Entries<V> = seq<(string, V)>

  predicate HasKey<V>(d: Entries<V>, k: string) {
    exists i :: 0 <= i < |d| && d[i].0 == k
  }

  predicate DistinctKeys<V>(d: Entries<V>) {
    forall i, j :: 0 <= i < j < |d| ==> d[i].0 != d[j].0
  }

  /** `list(d)`: the keys in insertion order. */
  function Keys<V>(d: Entries<V>): (r: seq<string>)
    ensures |r| == |d| && forall i :: 0 <= i < |d| ==> r[i] == d[i].0
  {
    if d == [] then [] else [d[0].0] + Keys(d[1..])
  }

  /** `d.get(k)`: the value of the first entry with key `k`. */
  function Get<V>(d: Entries<V>, k: string): (r: Option<V>)
    ensures r.Some? <==> HasKey(d, k)
    ensures r.Some? ==> (k, r.value) in d
  {
    if d == [] then None
    else if d[0].0 == k then Some(d[0].1)
    else
      var r := Get(d[1..], k);
      assert HasKey(d, k) ==> HasKey(d[1..], k) by {
        if HasKey(d, k) {
          var i :| 0 <= i < |d| && d[i].0 == k;
          assert d[1..][i - 1].0 == k;
        }
      }
      assert HasKey(d[1..], k) ==> HasKey(d, k) by {
        if HasKey(d[1..], k) {
          var i :| 0 <= i < |d| - 1 && d[1..][i].0 == k;
          assert d[i + 1].0 == k;
        }
      }
      r
  }

  /** With distinct keys, the entry at index `i` is what a lookup of its
      key finds. */
  lemma {:induction false} GetEntry<V>(d: Entries<V>, i: nat)
    requires DistinctKeys(d) && i < |d|
    ensures Get(d, d[i].0) == Some(d[i].1)
    decreases i
  {
    if i > 0 {
      assert d[1..][i - 1] == d[i];
      GetEntry(d[1..], i - 1);
    }
  }

  /** `d[k] = v`: replaces the value of an existing key in place, or
      appends a new entry. */
  function Insert<V>(d: Entries<V>, k: string, v: V): (r: Entries<V>)
    ensures Get(r, k) == Some(v)
    ensures forall k' :: k' != k ==> Get(r, k') == Get(d, k')
    ensures forall k' :: HasKey(r, k') <==> HasKey(d, k') || k' == k
    ensures forall p :: p in r ==> p in d || p == (k, v)
    ensures DistinctKeys(d) ==> DistinctKeys(r)
  {
    if d == [] then [(k, v)]
    else if d[0].0 == k then
      var r := [(k, v)] + d[1..];
      assert forall k' :: k' != k ==> Get(r, k') == Get(r[1..], k') == Get(d, k');
      assert forall k' :: HasKey(r, k') <==> HasKey(d, k') by {
        forall k' ensures HasKey(r, k') <==> HasKey(d, k') {
          assert Get(r, k').Some? <==> Get(d, k').Some?;
        }
      }
      r
    else
      var t := Insert(d[1..], k, v);
      var r := [d[0]] + t;
      assert r[1..] == t;
      assert forall k' :: HasKey(r, k') <==> HasKey(d, k') || k' == k by {
        forall k' ensures HasKey(r, k') <==> HasKey(d, k') || k' == k {
          assert Get(r, k').Some? <==> (k' == d[0].0 || Get(t, k').Some?);
          assert Get(d, k').Some? <==> (k' == d[0].0 || Get(d[1..], k').Some?);
        }
      }
      assert DistinctKeys(d) ==> DistinctKeys(r) by {
        if DistinctKeys(d) {
          assert !HasKey(d[1..], d[0].0) by {
            forall i | 0 <= i < |d| - 1 ensures d[1..][i].0 != d[0].0 {
              assert d[1..][i] == d[i + 1];
            }
          }
          assert !HasKey(t, d[0].0);
          forall i, j | 0 <= i < j < |r| ensures r[i].0 != r[j].0 {
            if i == 0 {
              assert r[j] == t[j - 1];
            } else {
              assert r[i] == t[i - 1] && r[j] == t[j - 1];
            }
          }
        }
      }
      r
  }

  /** Inserting a key that is not there yet appends it at the end. */
  lemma {:induction false} InsertNew<V>(d: Entries<V>, k: string, v: V)
    requires !HasKey(d, k)
    ensures Insert(d, k, v) == d + [(k, v)]
    decreases |d|
  {
    if d != [] {
      assert d[0].0 != k;
      assert !HasKey(d[1..], k) by {
        forall i | 0 <= i < |d| - 1 ensures d[1..][i].0 != k {
          assert d[1..][i] == d[i + 1];
        }
      }
      InsertNew(d[1..], k, v);
      assert [d[0]] + (d[1..] + [(k, v)]) == d + [(k, v)];
    }
  }

  /** The value of the last pair with key `k`: the reference meaning of
      building a dictionary from a list of pairs. */
  function LastValue<V>(pairs: seq<(string, V)>, k: string): Option<V> {
    if pairs == [] then None
    else if pairs[|pairs| - 1].0 == k then Some(pairs[|pairs| - 1].1)
    else LastValue(pairs[..|pairs| - 1], k)
  }

  /** `dict(pairs)`: the decoder's object hook. A repeated key keeps the
      position of its first occurrence and the value of its last. */
  function FromPairs<V>(pairs: seq<(string, V)>): (r: Entries<V>)
    ensures DistinctKeys(r)
    ensures forall k :: Get(r, k) == LastValue(pairs, k)
    ensures forall p :: p in r ==> p in pairs
  {
    if pairs == [] then []
    else
      var init := pairs[..|pairs| - 1];
      var last := pairs[|pairs| - 1];
      var r := Insert(FromPairs(init), last.0, last.1);
      assert forall p :: p in init ==> p in pairs;
      r
  }

  /** A list of pairs whose keys are already distinct is its own dictionary. */
  lemma {:induction false} FromDistinctPairs<V>(pairs: seq<(string, V)>)
    requires DistinctKeys(pairs)
    ensures FromPairs(pairs) == pairs
    decreases |pairs|
  {
    if pairs != [] {
      var n := |pairs| - 1;
      var init := pairs[..n];
      InitDistinct(pairs);
      FromDistinctPairs(init);
      assert FromPairs(pairs) == Insert(init, pairs[n].0, pairs[n].1);
      InsertNew(init, pairs[n].0, pairs[n].1);
      assert init + [pairs[n]] == pairs;
    }
  }

  /** Dropping the last pair keeps the keys distinct, and the last key is
      not among the others. */
  lemma InitDistinct<V>(pairs: seq<(string, V)>)
    requires DistinctKeys(pairs) && pairs != []
    ensures DistinctKeys(pairs[..|pairs| - 1])
    ensures !HasKey(pairs[..|pairs| - 1], pairs[|pairs| - 1].0)
  {
    var n := |pairs| - 1;
    var init := pairs[..n];
    forall i, j | 0 <= i < j < |init| ensures init[i].0 != init[j].0 {
      assert init[i] == pairs[i] && init[j] == pairs[j];
    }
    forall i | 0 <= i < n ensures init[i].0 != pairs[n].0 {
      assert init[i] == pairs[i];
    }
  }

}
