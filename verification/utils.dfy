/**
 * The dictionary helpers of mindstone/_utils.py: `intersect_update`, `inner_merge`
 * and the dotted-path lookup `get_nested`.
 */
module Utils {
  import opened Common
  import opened OrderedDict

  // intersect_update
  // ~~~~~~~~~~~~~~~~

  /** `intersect_update(a, b)`: `a`'s entries, each replaced by `b`'s value where `b` has the key. */
  function IntersectUpdate<K, V>(a: map<K, V>, b: map<K, V>): (r: map<K, V>)
    ensures r.Keys == a.Keys
  {
    map k | k in a :: if k in b then b[k] else a[k]
  }

  /**
   * `intersect_update(a, b)` is `b` laid over `a` with the keys only `b` has dropped: every
   * key of `a` keeps its place, takes `b`'s value when `b` has one and keeps `a`'s otherwise.
   */
  lemma IntersectUpdateIsRestrictedUpdate<K, V>(a: map<K, V>, b: map<K, V>)
    ensures IntersectUpdate(a, b) == (a + b) - (b.Keys - a.Keys)
    ensures forall k :: k in a && k in b ==> IntersectUpdate(a, b)[k] == b[k]
    ensures forall k :: k in a && k !in b ==> IntersectUpdate(a, b)[k] == a[k]
    ensures forall k :: k in b && k !in a ==> k !in IntersectUpdate(a, b)
  {
  }

  /** Updating with the same mapping twice is updating once; an empty update changes nothing. */
  lemma IntersectUpdateIdempotent<K, V>(a: map<K, V>, b: map<K, V>)
    ensures IntersectUpdate(IntersectUpdate(a, b), b) == IntersectUpdate(a, b)
    ensures IntersectUpdate(a, map[]) == a
  {
  }

  // inner_merge
  // ~~~~~~~~~~~

  /** The value `inner_merge` stores under the key: the old dictionary updated by `mapping`, or `mapping`. */
  function Merged(old_: Option<Value>, mapping: map<string, Value>): (r: Value)
    ensures r.VDict?
    ensures forall k :: k in mapping ==> k in r.entries && r.entries[k] == mapping[k]
    ensures old_.Some? && old_.value.VDict? ==> r.entries.Keys == old_.value.entries.Keys + mapping.Keys
    ensures old_.Some? && old_.value.VDict? ==>
      forall k :: k in old_.value.entries && k !in mapping ==> r.entries[k] == old_.value.entries[k]
    ensures !(old_.Some? && old_.value.VDict?) ==> r == VDict(mapping)
  {
    match old_
    case Some(VDict(d)) => VDict(d + mapping)
    case _ => VDict(mapping)
  }

  /** Merging the same mapping twice is merging it once. */
  lemma MergedIdempotent(old_: Option<Value>, mapping: map<string, Value>)
    ensures Merged(Some(Merged(old_, mapping)), mapping) == Merged(old_, mapping)
  {
    var r := Merged(old_, mapping);
    assert r.entries + mapping == r.entries;
  }

  /** A Python dictionary whose values may themselves be dictionaries, changed in place. */
  class NestedDict {
    var entries: ODict<string, Value>

    ghost predicate Valid()
      reads this
    {
      entries.Valid()
    }

    constructor ()
      ensures Valid() && entries.entries == map[]
    {
      entries := Empty();
    }

    function Get(key: string): (r: Option<Value>)
      reads this
      ensures r.Some? <==> key in entries.entries
      ensures r.Some? ==> r.value == entries.entries[key]
    {
      if key in entries.entries then Some(entries.entries[key]) else None
    }

    /**
     * `inner_merge(to_update, key, mapping)`: a dictionary stored under `key` is updated by
     * `mapping`; anything else, or nothing, is replaced by `mapping`. The container itself
     * is returned.
     */
    method InnerMerge(key: string, mapping: map<string, Value>) returns (r: NestedDict)
      requires Valid()
      modifies this
      ensures r == this && Valid()
      ensures entries == Put(old(entries), key, Merged(old(Get(key)), mapping))
    {
      entries := Put(entries, key, Merged(Get(key), mapping));
      r := this;
    }
  }

  // get_nested
  // ~~~~~~~~~~

  /** Python's `key in s` for two strings: `key` occurs in `s`. */
  predicate Occurs(key: string, s: string) {
    key <= s || (s != [] && Occurs(key, s[1..]))
  }

  function NotIterable(typeName: string): Error {
    Error(TypeError, "argument of type '" + typeName + "' is not iterable")
  }

  /**
   * `_get_nested_util(route, mapping)`: follow `route` one key at a time. `None` or a
   * dictionary without the key ends the walk with `None`; so does a list or string that
   * does not contain the key. A list or string that does contain it cannot be indexed by a
   * string and a number or boolean does not support `in`: those raise TypeError.
   */
  function NestedUtil(route: seq<string>, m: Value): (r: Result<Value>)
    requires |route| >= 1
    ensures m == VNone ==> r == Ok(VNone)
    ensures m.VDict? && route[0] !in m.entries ==> r == Ok(VNone)
    ensures m.VDict? && route[0] in m.entries && |route| == 1 ==> r == Ok(m.entries[route[0]])
    ensures r.Err? ==> r.error.kind == TypeError
    decreases |route|
  {
    var key := route[0];
    match m
    case VNone => Ok(VNone)
    case VDict(d) =>
      if key !in d then Ok(VNone)
      else if |route| == 1 then Ok(d[key])
      else NestedUtil(route[1..], d[key])
    case VList(items) =>
      if VStr(key) in items then Err(Error(TypeError, "list indices must be integers or slices, not str"))
      else Ok(VNone)
    case VStr(s) =>
      if Occurs(key, s) then Err(Error(TypeError, "string indices must be integers"))
      else Ok(VNone)
    case VBool(_) => Err(NotIterable("bool"))
    case VInt(_) => Err(NotIterable("int"))
    case VFloat(_) => Err(NotIterable("float"))
  }

  /** `get_nested(keys, mapping)` with the default delimiter `"."`. */
  function GetNested(keys: string, m: Value): (r: Result<Value>)
    ensures m == VNone ==> r == Ok(VNone)
    ensures r.Err? ==> r.error.kind == TypeError
  {
    NestedUtil(Split(keys, '.'), m)
  }

  /** Continue a lookup from the value an earlier lookup found, passing its exception on. */
  function Then(first: Result<Value>, rest: seq<string>): Result<Value>
    requires |rest| >= 1
  {
    match first
    case Err(e) => Err(e)
    case Ok(v) => NestedUtil(rest, v)
  }

  /** Walking a route is walking its first part, then the rest from where that ended. */
  lemma {:induction false} NestedUtilAppend(r1: seq<string>, r2: seq<string>, m: Value)
    requires |r1| >= 1 && |r2| >= 1
    ensures NestedUtil(r1 + r2, m) == Then(NestedUtil(r1, m), r2)
    decreases |r1|
  {
    var route := r1 + r2;
    assert route[0] == r1[0];
    match m
    case VDict(d) =>
      if r1[0] in d {
        if |r1| == 1 {
          assert route[1..] == r2;
        } else {
          assert route[1..] == r1[1..] + r2;
          NestedUtilAppend(r1[1..], r2, d[r1[0]]);
        }
      }
    case _ =>
  }

  /**
   * `get_nested("a.b", m)` is `get_nested("b", get_nested("a", m))`: a dotted path looks
   * up its first key, then the rest of the path in what it found.
   */
  lemma GetNestedComposes(first: string, rest: string, m: Value)
    requires '.' !in first
    ensures GetNested(first + "." + rest, m) == Then(GetNested(first, m), Split(rest, '.'))
  {
    SplitJoin(first, rest, '.');
    assert Split(first, '.') == [first];
    NestedUtilAppend([first], Split(rest, '.'), m);
  }

  /** A one-key path reads the dictionary entry, and a missing key is `None` rather than an error. */
  lemma GetNestedOneKey(key: string, d: map<string, Value>)
    requires '.' !in key
    ensures GetNested(key, VDict(d)) == Ok(if key in d then d[key] else VNone)
  {
    assert Split(key, '.') == [key];
  }

  /** A value built only from dictionaries and `None` at every level. */
  predicate DictsAllTheWay(m: Value) {
    match m
    case VNone => true
    case VDict(d) => forall k :: k in d ==> DictsAllTheWay(d[k])
    case _ => false
  }

  /** Through dictionaries and `None` alone, a lookup never raises: a missing key is `None`. */
  lemma {:induction false} NestedUtilNeverRaisesOnDicts(route: seq<string>, m: Value)
    requires |route| >= 1 && DictsAllTheWay(m)
    ensures NestedUtil(route, m).Ok?
    decreases |route|
  {
    match m
    case VNone =>
    case VDict(d) =>
      if route[0] in d && |route| > 1 {
        NestedUtilNeverRaisesOnDicts(route[1..], d[route[0]]);
      }
  }
}
