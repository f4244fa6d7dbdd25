/** JSON values as the Python backend and the TypeScript client see them
    once a body has been parsed, and the Python dictionary operations the
    backend applies to parsed objects.

    An object is its list of (key, value) pairs in insertion order, which is
    also the order in which Python iterates a `dict`. */
module JsonValue {
  import opened Wrappers

  datatype Json =
    | JNull
    | JBool(b: bool)
    | JNum(n: real)
    | JStr(s: string)
    | JArr(items: seq<Json>)
    | JObj(fields: seq<(string, Json)>)

  type Fields = seq<(string, Json)>

  /** The keys of an object, as a set. */
  function Keys(f: Fields): set<string> {
    set i | 0 <= i < |f| :: f[i].0
  }

  /** Python's `key in d`. */
  predicate Has(f: Fields, key: string) {
    key in Keys(f)
  }

  /** A well-formed Python dictionary holds each key once. */
  predicate UniqueKeys(f: Fields) {
    forall i, j :: 0 <= i < j < |f| ==> f[i].0 != f[j].0
  }

  /** Python's `d.get(key)`: the value stored under `key`, if any. */
  function Get(f: Fields, key: string): (r: Option<Json>)
    ensures r.Some? <==> Has(f, key)
    ensures r.Some? ==> exists i :: 0 <= i < |f| && f[i] == (key, r.value)
  {
    if |f| == 0 then None
    else if f[0].0 == key then Some(f[0].1)
    else
      var r := Get(f[1..], key);
      assert Keys(f) == {f[0].0} + Keys(f[1..]) by {
        forall k | k in Keys(f) ensures k in {f[0].0} + Keys(f[1..]) {
          var i :| 0 <= i < |f| && f[i].0 == k;
          if i > 0 { assert f[1..][i - 1].0 == k; }
        }
      }
      assert r.Some? ==> exists i :: 0 <= i < |f| && f[i] == (key, r.value) by {
        if r.Some? {
          var i :| 0 <= i < |f[1..]| && f[1..][i] == (key, r.value);
          assert f[i + 1] == (key, r.value);
        }
      }
      r
  }

  /** Python's `d[key] = value`: an existing key keeps its place and takes
      the new value; a new key goes at the end. */
  function Assign(f: Fields, key: string, value: Json): (r: Fields)
    ensures Keys(r) == Keys(f) + {key}
    ensures Get(r, key) == Some(value)
    ensures forall k :: k != key ==> Get(r, k) == Get(f, k)
    ensures |r| == if Has(f, key) then |f| else |f| + 1
    ensures UniqueKeys(f) ==> UniqueKeys(r)
  {
    if Has(f, key) then Replace(f, key, value) else
      AppendNew(f, key, value);
      f + [(key, value)]
  }

  /** Every pair stored under `key` gets `value`; the rest stay put. */
  function Replace(f: Fields, key: string, value: Json): (r: Fields)
    ensures |r| == |f|
    ensures forall i :: 0 <= i < |f| ==> r[i].0 == f[i].0
    ensures forall i :: 0 <= i < |f| && f[i].0 == key ==> r[i].1 == value
    ensures forall i :: 0 <= i < |f| && f[i].0 != key ==> r[i] == f[i]
    ensures Keys(r) == Keys(f)
    ensures Has(f, key) ==> Get(r, key) == Some(value)
    ensures forall k :: k != key ==> Get(r, k) == Get(f, k)
  {
    if |f| == 0 then []
    else
      var head := if f[0].0 == key then (key, value) else f[0];
      var r := [head] + Replace(f[1..], key, value);
      assert Keys(r) == Keys(f) by {
        KeysCons(f);
        KeysCons(r);
      }
      assert r[1..] == Replace(f[1..], key, value);
      r
  }

  lemma KeysCons(f: Fields)
    requires |f| > 0
    ensures Keys(f) == {f[0].0} + Keys(f[1..])
  {
    forall k | k in Keys(f) ensures k in {f[0].0} + Keys(f[1..]) {
      var i :| 0 <= i < |f| && f[i].0 == k;
      if i > 0 { assert f[1..][i - 1].0 == k; }
    }
  }

  /** Appending a key that is not present: the new pair is found under its
      key and every other lookup is unchanged. */
  lemma AppendNew(f: Fields, key: string, value: Json)
    requires !Has(f, key)
    ensures Keys(f + [(key, value)]) == Keys(f) + {key}
    ensures Get(f + [(key, value)], key) == Some(value)
    ensures forall k :: k != key ==> Get(f + [(key, value)], k) == Get(f, k)
    ensures UniqueKeys(f) ==> UniqueKeys(f + [(key, value)])
  {
    var g := f + [(key, value)];
    assert Keys(g) == Keys(f) + {key} by {
      forall k | k in Keys(g) ensures k in Keys(f) + {key} {
        var i :| 0 <= i < |g| && g[i].0 == k;
        if i < |f| { assert f[i].0 == k; }
      }
      forall k | k in Keys(f) ensures k in Keys(g) {
        var i :| 0 <= i < |f| && f[i].0 == k;
        assert g[i].0 == k;
      }
      assert g[|f|].0 == key;
    }
    GetAppend(f, key, value);
  }

  lemma GetAppend(f: Fields, key: string, value: Json)
    ensures forall k :: k != key ==> Get(f + [(key, value)], k) == Get(f, k)
    ensures !Has(f, key) ==> Get(f + [(key, value)], key) == Some(value)
  {
    if |f| > 0 {
      assert (f + [(key, value)])[1..] == f[1..] + [(key, value)];
      GetAppend(f[1..], key, value);
      KeysCons(f);
    } else {
      assert (f + [(key, value)])[1..] == [];
    }
  }

  /** Python's `d.setdefault(key, default)`: a present key is left alone; a
      missing one is added, at the end, with `default`. */
  function SetDefault(f: Fields, key: string, default: Json): (r: Fields)
    ensures Keys(r) == Keys(f) + {key}
    ensures Get(r, key) == if Has(f, key) then Get(f, key) else Some(default)
    ensures forall k :: k != key ==> Get(r, k) == Get(f, k)
    ensures Has(f, key) ==> r == f
    ensures !Has(f, key) ==> r == f + [(key, default)]
    ensures UniqueKeys(f) ==> UniqueKeys(r)
  {
    if Has(f, key) then f else
      AppendNew(f, key, default);
      f + [(key, default)]
  }

  /** In a dictionary without repeated keys, each pair is what its key looks
      up. */
  lemma GetAt(f: Fields, i: nat)
    requires UniqueKeys(f) && i < |f|
    ensures Has(f, f[i].0) && Get(f, f[i].0) == Some(f[i].1)
  {
    assert f[i].0 in Keys(f);
    if i > 0 {
      assert UniqueKeys(f[1..]) by {
        forall a, b | 0 <= a < b < |f[1..]| ensures f[1..][a].0 != f[1..][b].0 {
          assert f[1..][a] == f[a + 1] && f[1..][b] == f[b + 1];
        }
      }
      GetAt(f[1..], i - 1);
      assert f[1..][i - 1] == f[i];
    }
  }

  /** A key that no pair carries is absent. */
  lemma Absent(f: Fields, key: string)
    requires forall i :: 0 <= i < |f| ==> f[i].0 != key
    ensures !Has(f, key) && Get(f, key) == None
  {
  }
}
