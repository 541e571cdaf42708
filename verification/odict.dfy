/**
 * Python's `dict` where its iteration order is observable: the keys in insertion order
 * beside the mapping. Assigning an existing key keeps its place; a new key goes last;
 * deleting a key closes the gap.
 */
module OrderedDict {

  datatype ODict<K(==,!new), V> = ODict(keys: seq<K>, entries: map<K, V>) {

    ghost predicate Valid() {
      && Distinct(keys)
      && (forall k :: k in entries <==> k in keys)
    }
  }

  function Empty<K(==,!new), V>(): (d: ODict<K, V>)
    ensures d.Valid() && d.entries == map[]
  {
    ODict([], map[])
  }

  /** `d[k] = v` */
  function Put<K(==,!new), V>(d: ODict<K, V>, k: K, v: V): (r: ODict<K, V>)
    requires d.Valid()
    ensures r.Valid()
    ensures r.entries == d.entries[k := v]
    ensures k in d.entries ==> r.keys == d.keys
    ensures k !in d.entries ==> r.keys == d.keys + [k]
  {
    if k in d.entries then ODict(d.keys, d.entries[k := v])
    else ODict(d.keys + [k], d.entries[k := v])
  }

  /** `s` without the element `x` (which occurs at most once in it). */
  function Without<K(==,!new)>(s: seq<K>, x: K): (r: seq<K>)
    ensures forall y :: y in r <==> y in s && y != x
    ensures |r| <= |s|
  {
    if s == [] then []
    else if s[0] == x then Without(s[1..], x)
    else [s[0]] + Without(s[1..], x)
  }

  ghost predicate Distinct<K>(s: seq<K>) {
    forall i, j :: 0 <= i < j < |s| ==> s[i] != s[j]
  }

  lemma {:induction false} WithoutDistinct<K(!new)>(s: seq<K>, x: K)
    requires Distinct(s)
    ensures Distinct(Without(s, x))
  {
    if s != [] {
      var t := Without(s[1..], x);
      assert Distinct(s[1..]) by {
        forall i, j | 0 <= i < j < |s[1..]| ensures s[1..][i] != s[1..][j] {
          assert s[1..][i] == s[i + 1] && s[1..][j] == s[j + 1];
        }
      }
      WithoutDistinct(s[1..], x);
      if s[0] != x {
        var r := [s[0]] + t;
        assert r == Without(s, x);
        assert s[0] !in s[1..] by {
          forall j | 0 <= j < |s[1..]| ensures s[1..][j] != s[0] {
            assert s[1..][j] == s[j + 1];
          }
        }
        assert s[0] !in t;
        forall i, j | 0 <= i < j < |r| ensures r[i] != r[j] {
          assert r[j] == t[j - 1];
          if i > 0 {
            assert r[i] == t[i - 1];
          } else {
            assert r[j] in t;
          }
        }
      }
    }
  }

  /** `del d[k]` when `k` is present, nothing otherwise. */
  function Remove<K(==,!new), V>(d: ODict<K, V>, k: K): (r: ODict<K, V>)
    requires d.Valid()
    ensures r.Valid()
    ensures r.entries == d.entries - {k}
    ensures k !in d.entries ==> r == d
    ensures k in d.entries ==> r.keys == Without(d.keys, k)
  {
    if k !in d.entries then d
    else
      WithoutDistinct(d.keys, k);
      ODict(Without(d.keys, k), d.entries - {k})
  }

  /** Without an element it does not hold, a sequence is unchanged. */
  lemma {:induction false} WithoutAbsent<K(!new)>(s: seq<K>, x: K)
    requires x !in s
    ensures Without(s, x) == s
  {
    if s != [] {
      assert x !in s[1..];
      WithoutAbsent(s[1..], x);
      assert s == [s[0]] + s[1..];
    }
  }

  /** Removing the element at `p` closes the gap: the others keep their order. */
  lemma {:induction false} WithoutAt<K(!new)>(s: seq<K>, p: nat)
    requires Distinct(s) && p < |s|
    ensures Without(s, s[p]) == s[..p] + s[p + 1..]
  {
    var x := s[p];
    if p == 0 {
      assert x !in s[1..] by {
        forall j | 0 <= j < |s[1..]| ensures s[1..][j] != x {
          assert s[1..][j] == s[j + 1];
        }
      }
      WithoutAbsent(s[1..], x);
    } else {
      assert s[0] != x;
      assert Distinct(s[1..]) by {
        forall i, j | 0 <= i < j < |s[1..]| ensures s[1..][i] != s[1..][j] {
          assert s[1..][i] == s[i + 1] && s[1..][j] == s[j + 1];
        }
      }
      assert s[1..][p - 1] == x;
      WithoutAt(s[1..], p - 1);
      assert s[..p] == [s[0]] + s[1..][..p - 1];
      assert s[p + 1..] == s[1..][p..];
    }
  }

  /** `del d[k]` keeps the order of the other keys. */
  lemma RemoveKeepsOrder<K(!new), V>(d: ODict<K, V>, p: nat)
    requires d.Valid() && p < |d.keys|
    ensures Remove(d, d.keys[p]).keys == d.keys[..p] + d.keys[p + 1..]
  {
    WithoutAt(d.keys, p);
  }
}
