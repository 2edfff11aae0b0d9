/** The generic lookups of src/helper/collection.rs. */
module Collection {
  import opened Wrappers

  /** `slice_get_by_index`: walks the slice like `iter().nth(index)`. */
  function SliceGetByIndex<T>(items: seq<T>, index: nat): (r: Option<T>)
    ensures index < |items| ==> r == Some(items[index])
    ensures index >= |items| ==> r == None
  {
    if |items| == 0 then None
    else if index == 0 then Some(items[0])
    else SliceGetByIndex(items[1..], index - 1)
  }

  /**
   * `hashmap_get_key_by_value`: the first key, in the map's iteration order
   * `iteration`, whose value is `seek`. The iteration order of a Rust
   * `HashMap` is not observable, so it is a parameter here.
   */
  function GetKeyByValue<K, V(==)>(m: map<K, V>, iteration: seq<K>, seek: V): (r: Option<K>)
    requires forall k :: k in iteration ==> k in m
    ensures r.Some? ==> r.value in m && m[r.value] == seek
    ensures r.None? <==> forall k :: k in iteration ==> m[k] != seek
    ensures (forall k :: k in m ==> k in iteration) ==> (r.None? <==> forall k :: k in m ==> m[k] != seek)
    ensures forall k :: (k in m && k in iteration && m[k] == seek &&
                         forall j :: j in m && m[j] == seek ==> j == k) ==> r == Some(k)
    ensures r.Some? ==> exists i :: 0 <= i < |iteration| && iteration[i] == r.value &&
                                    forall j :: 0 <= j < i ==> m[iteration[j]] != seek
  {
    if |iteration| == 0 then None
    else if m[iteration[0]] == seek then Some(iteration[0])
    else GetKeyByValue(m, iteration[1..], seek)
  }

  /** No element occurs twice in s, as with the keys of a map. */
  predicate NoDuplicates<T(==)>(s: seq<T>)
  {
    forall i, j :: 0 <= i < j < |s| ==> s[i] != s[j]
  }

  /** A sequence has no duplicates exactly when every element occurs at most once in its multiset. */
  lemma {:induction false} NoDuplicatesCounts<T>(s: seq<T>)
    ensures NoDuplicates(s) <==> forall x :: multiset(s)[x] <= 1
  {
    if |s| > 0 {
      var rest := s[1..];
      assert s == [s[0]] + rest;
      NoDuplicatesCounts(rest);
      if NoDuplicates(s) {
        assert s[0] !in rest;
        forall x ensures multiset(s)[x] <= 1 {
          assert multiset(s)[x] == multiset{s[0]}[x] + multiset(rest)[x];
        }
      }
      if forall x :: multiset(s)[x] <= 1 {
        assert multiset(s)[s[0]] == 1 + multiset(rest)[s[0]];
        assert forall x :: multiset(rest)[x] <= multiset(s)[x];
        assert s[0] !in rest;
        forall i, j | 0 <= i < j < |s| ensures s[i] != s[j] {
          if i == 0 {
            assert s[j] == rest[j - 1];
          } else {
            assert s[i] == rest[i - 1] && s[j] == rest[j - 1];
          }
        }
      }
    }
  }

  /** A sequence without duplicates has as many distinct elements as positions. */
  lemma {:induction false} NoDuplicatesLength<T>(s: seq<T>)
    requires NoDuplicates(s)
    ensures |(set x | x in s)| == |s|
  {
    if |s| > 0 {
      var rest := s[1..];
      assert NoDuplicates(rest) by {
        forall i, j | 0 <= i < j < |rest| ensures rest[i] != rest[j] {
          assert rest[i] == s[i + 1] && rest[j] == s[j + 1];
        }
      }
      NoDuplicatesLength(rest);
      assert s[0] !in rest;
      assert (set x | x in s) == {s[0]} + (set x | x in rest);
    }
  }

  /** A map with one key has no key other than the one at hand. */
  lemma OnlyKey<K, V>(m: map<K, V>, k: K)
    requires |m| == 1 && k in m
    ensures forall d :: d in m ==> d == k
  {
    var rest := m.Keys - {k};
    assert m.Keys == rest + {k};
    assert |rest| == 0;
  }

  /** A map with two keys has no key besides them. */
  lemma OnlyTwoKeys<K, V>(m: map<K, V>, x: K, y: K)
    requires |m| == 2 && x in m && y in m && x != y
    ensures forall d :: d in m ==> d == x || d == y
  {
    var rest := m.Keys - {x, y};
    assert m.Keys == rest + {x, y};
    assert |rest| == 0;
  }

  /** A map with two keys has a second key besides any one of them. */
  lemma SecondKey<K, V>(m: map<K, V>, x: K) returns (y: K)
    requires |m| == 2 && x in m
    ensures y in m && y != x
  {
    var rest := m.Keys - {x};
    assert m.Keys == rest + {x};
    assert |rest| == 1;
    y :| y in rest;
  }
}
