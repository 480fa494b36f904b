/** The two helpers of src/utils/utils.js, and the ordered string-keyed
    `Map` that `mapToObject` reads and the reducer's write-set is. */
module Utils {
  import opened Js

  /** `toArray`: null and undefined become the empty list, an array is
      returned as it is, anything else is wrapped as a one-element list. */
  function ToArray(obj: JsValue): (r: seq<JsValue>)
    ensures IsNullish(obj) ==> r == []
    ensures obj.Arr? ==> r == obj.items
    ensures !IsNullish(obj) && !obj.Arr? ==> r == [obj]
  {
    if IsNullish(obj) then []
    else if obj.Arr? then obj.items
    else [obj]
  }

  /** Normalising an already normalised list changes nothing. */
  lemma ToArrayIdempotent(obj: JsValue)
    ensures ToArray(Arr(ToArray(obj))) == ToArray(obj)
  {
  }

  // ---------------------------------------------------------------------
  // A JavaScript `Map` with string keys: its entries in insertion order.

  predicate DistinctKeys(es: seq<(string, JsValue)>) {
    forall i, j :: 0 <= i < j < |es| ==> es[i].0 != es[j].0
  }

  type JsMap = es: seq<(string, JsValue)> | DistinctKeys(es) witness []

  function KeySet(es: seq<(string, JsValue)>): set<string> {
    set e | e in es :: e.0
  }

  /** `map.get(k)`, with `None` for a key the map does not have. */
  function Lookup(es: seq<(string, JsValue)>, k: string): (r: Option<JsValue>)
    ensures r.None? <==> k !in KeySet(es)
  {
    if es == [] then None
    else if es[0].0 == k then Some(es[0].1)
    else
      assert KeySet(es) == {es[0].0} + KeySet(es[1..]) by {
        assert forall e :: e in es <==> e == es[0] || e in es[1..];
      }
      Lookup(es[1..], k)
  }

  /** The entry at position `i` of a map is what `get` returns for its key. */
  lemma {:induction false} LookupAt(es: seq<(string, JsValue)>, i: nat)
    requires DistinctKeys(es)
    requires i < |es|
    ensures Lookup(es, es[i].0) == Some(es[i].1)
  {
    if i > 0 {
      assert es[0].0 != es[i].0;
      LookupAt(es[1..], i - 1);
    }
  }

  /** `map.set(k, v)`: a key already present keeps its position and gets
      the new value; a new key is appended. */
  function MapSet(es: seq<(string, JsValue)>, k: string, v: JsValue): (r: seq<(string, JsValue)>)
    ensures k !in KeySet(es) ==> r == es + [(k, v)]
  {
    if es == [] then [(k, v)]
    else if es[0].0 == k then [(k, v)] + es[1..]
    else [es[0]] + MapSet(es[1..], k, v)
  }

  lemma KeySetCons(e: (string, JsValue), es: seq<(string, JsValue)>)
    ensures KeySet([e] + es) == {e.0} + KeySet(es)
  {
    assert forall x :: x in [e] + es <==> x == e || x in es;
  }

  /** After `map.set(k, v)` the map has the key `k` besides its old keys,
      `get(k)` returns `v` and every other key reads as before. */
  lemma {:induction false} MapSetSpec(es: seq<(string, JsValue)>, k: string, v: JsValue)
    ensures KeySet(MapSet(es, k, v)) == KeySet(es) + {k}
    ensures Lookup(MapSet(es, k, v), k) == Some(v)
    ensures forall k' :: k' != k ==> Lookup(MapSet(es, k, v), k') == Lookup(es, k')
  {
    if es == [] {
      KeySetCons((k, v), []);
    } else {
      KeySetCons(es[0], es[1..]);
      assert es == [es[0]] + es[1..];
      if es[0].0 == k {
        KeySetCons((k, v), es[1..]);
      } else {
        MapSetSpec(es[1..], k, v);
        KeySetCons(es[0], MapSet(es[1..], k, v));
      }
    }
  }

  /** `map.set` keeps the keys of a map distinct. */
  lemma {:induction false} MapSetDistinct(es: seq<(string, JsValue)>, k: string, v: JsValue)
    requires DistinctKeys(es)
    ensures DistinctKeys(MapSet(es, k, v))
  {
    if es != [] && es[0].0 != k {
      MapSetDistinct(es[1..], k, v);
      MapSetSpec(es[1..], k, v);
      var tail := MapSet(es[1..], k, v);
      var r := [es[0]] + tail;
      forall j | 0 < j < |r| ensures r[0].0 != r[j].0 {
        assert r[j] in tail;
        assert r[j].0 in KeySet(tail);
        assert r[j].0 in KeySet(es[1..]) + {k};
        if r[j].0 in KeySet(es[1..]) {
          var e :| e in es[1..] && e.0 == r[j].0;
        }
      }
    }
  }

  /** The plain object holding exactly the map's entries. */
  function AsObject(es: seq<(string, JsValue)>): (obj: map<string, JsValue>)
    ensures obj.Keys == KeySet(es)
    ensures forall k :: k in obj ==> Lookup(es, k) == Some(obj[k])
  {
    map k | k in KeySet(es) :: Lookup(es, k).value
  }

  /** `mapToObject`: copies the entries of a map, one by one, into a fresh
      object, which then has exactly the map's keys, each bound to the
      map's value for it. */
  method MapToObject(m: JsMap) returns (obj: map<string, JsValue>)
    ensures obj.Keys == KeySet(m)
    ensures forall i :: 0 <= i < |m| ==> obj[m[i].0] == m[i].1
    ensures obj == AsObject(m)
  {
    obj := map[];
    var i := 0;
    while i < |m|
      invariant 0 <= i <= |m|
      invariant obj.Keys == KeySet(m[..i])
      invariant forall j :: 0 <= j < i ==> obj[m[j].0] == m[j].1
    {
      assert m[..i + 1] == m[..i] + [m[i]];
      assert KeySet(m[..i + 1]) == KeySet(m[..i]) + {m[i].0} by {
        assert forall e :: e in m[..i + 1] <==> e in m[..i] || e == m[i];
      }
      obj := obj[m[i].0 := m[i].1];
      i := i + 1;
    }
    assert m[..i] == m;
    forall k | k in obj ensures Lookup(m, k) == Some(obj[k]) {
      var j :| 0 <= j < |m| && m[j].0 == k;
      LookupAt(m, j);
    }
  }
}
