/**
 * Decoded JSON / YAML values as the Python code handles them. A `dict` is
 * its keys in insertion order together with the map from key to value,
 * because insertion order is visible (stream slots, mask numbering, emitted
 * documents).
 */
module Json {
  import opened Wrappers
  import Seqs

  datatype JSON =
    | Null
    | Bool(b: bool)
    | Int(i: int)
    | Float(r: real)
    | Str(s: string)
    | Arr(items: seq<JSON>)
    | Obj(keys: seq<string>, values: map<string, JSON>)

  /** Python truthiness. */
  predicate Truthy(j: JSON) {
    match j
    case Null => false
    case Bool(b) => b
    case Int(i) => i != 0
    case Float(r) => r != 0.0
    case Str(s) => s != ""
    case Arr(items) => items != []
    case Obj(_, values) => values != map[]
  }

  /** `d.get(k)`. */
  function Get(j: JSON, k: string): Option<JSON> {
    if j.Obj? && k in j.values then Some(j.values[k]) else None
  }

  /** `d.get(k, default)`. */
  function GetOr(j: JSON, k: string, default: JSON): JSON {
    Get(j, k).GetOr(default)
  }

  /** `k in d`. */
  predicate Has(j: JSON, k: string) {
    j.Obj? && k in j.values
  }

  /** `d[a][b]`, or None when either level is missing. */
  function At(d: JSON, a: string, b: string): Option<JSON> {
    if Has(d, a) then Get(d.values[a], b) else None
  }

  /** A key that is absent or holds a dict: `d.get(k, {})` is then a dict. */
  predicate DictOrAbsent(d: JSON, k: string) {
    !Has(d, k) || d.values[k].Obj?
  }

  /** `d[k] = v`: an existing key keeps its position, a new key goes last. */
  function Set(j: JSON, k: string, v: JSON): JSON
    requires j.Obj?
  {
    Obj(if k in j.values then j.keys else j.keys + [k], j.values[k := v])
  }

  /** `d.pop(k, None)`: the key leaves both the order and the map. */
  function Del(j: JSON, k: string): JSON
    requires j.Obj?
  {
    Obj(Without(j.keys, k), j.values - {k})
  }

  /** `keys` with every occurrence of `k` dropped, the rest in order. */
  function Without(keys: seq<string>, k: string): (r: seq<string>)
    ensures k !in r && |r| <= |keys|
    ensures forall k' :: k' != k ==> (k' in r <==> k' in keys)
  {
    if keys == [] then []
    else if keys[0] == k then Without(keys[1..], k)
    else [keys[0]] + Without(keys[1..], k)
  }

  /** `{**a, **b}` and `a.update(b)`: `b` wins on shared keys; `a`'s keys keep their order and `b`'s new keys follow. */
  function Update(a: JSON, b: JSON): (r: JSON)
    requires a.Obj? && b.Obj?
    ensures r.Obj? && forall k :: Get(r, k) == (if Has(b, k) then Get(b, k) else Get(a, k))
  {
    Obj(a.keys + Seqs.Filter(k => k !in a.values, b.keys), a.values + b.values)
  }

  /** Merging two well-formed dicts gives a well-formed dict. */
  lemma UpdateKeepsShape(a: JSON, b: JSON)
    requires a.Obj? && b.Obj? && WellFormed(a) && WellFormed(b)
    ensures WellFormed(Update(a, b))
  {
    var r := Update(a, b);
    var added := Seqs.Filter(k => k !in a.values, b.keys);
    FilterDistinct(k => k !in a.values, b.keys);
    forall i, j | 0 <= i < j < |r.keys| ensures r.keys[i] != r.keys[j] {
      if j < |a.keys| {
        assert r.keys[i] == a.keys[i] && r.keys[j] == a.keys[j];
      } else if i < |a.keys| {
        assert r.keys[i] == a.keys[i] && r.keys[i] in a.values;
        assert r.keys[j] == added[j - |a.keys|] && r.keys[j] in added;
      } else {
        assert r.keys[i] == added[i - |a.keys|] && r.keys[j] == added[j - |a.keys|];
      }
    }
    forall k ensures k in r.values <==> k in r.keys {
      assert k in r.keys <==> k in a.keys || k in added;
    }
    forall k | k in r.values ensures WellFormed(r.values[k]) {
      if k in b.values { assert r.values[k] == b.values[k]; } else { assert r.values[k] == a.values[k]; }
    }
  }

  lemma {:induction false} FilterDistinct(keep: string -> bool, keys: seq<string>)
    requires Distinct(keys)
    ensures Distinct(Seqs.Filter(keep, keys))
  {
    if keys != [] {
      var front := keys[..|keys| - 1];
      var last := keys[|keys| - 1];
      assert Distinct(front) by {
        forall i, j | 0 <= i < j < |front| ensures front[i] != front[j] {
          assert front[i] == keys[i] && front[j] == keys[j];
        }
      }
      FilterDistinct(keep, front);
      var f := Seqs.Filter(keep, front);
      if keep(last) {
        assert last !in front by {
          forall i | 0 <= i < |front| ensures front[i] != last { assert front[i] == keys[i]; }
        }
        assert last !in f;
        var r := f + [last];
        forall i, j | 0 <= i < j < |r| ensures r[i] != r[j] {
          if j == |f| { assert r[i] == f[i] && r[i] in f; } else { assert r[i] == f[i] && r[j] == f[j]; }
        }
        assert Seqs.Filter(keep, keys) == r;
      } else {
        assert Seqs.Filter(keep, keys) == f + [];
      }
    }
  }

  /** The empty dict `{}`. */
  const Empty: JSON := Obj([], map[])

  /** A value nested in dicts, `d[k1][k2]…`, or None when some level is missing. */
  function Path(j: JSON, ks: seq<string>): Option<JSON>
    decreases |ks|
  {
    if ks == [] then Some(j)
    else match Get(j, ks[0])
      case None => None
      case Some(c) => Path(c, ks[1..])
  }

  /** No key appears twice. */
  ghost predicate Distinct(keys: seq<string>) {
    forall a, b :: 0 <= a < b < |keys| ==> keys[a] != keys[b]
  }

  /** The order lists every key of the map once and nothing else. */
  ghost predicate DictShape(keys: seq<string>, values: map<string, JSON>) {
    Distinct(keys) && forall k :: k in values <==> k in keys
  }

  /** Every dict, at every depth, is in that shape (what a decoder produces). */
  ghost predicate WellFormed(j: JSON) {
    match j
    case Arr(items) => forall x :: x in items ==> WellFormed(x)
    case Obj(keys, values) =>
      DictShape(keys, values) && forall k :: k in values ==> WellFormed(values[k])
    case _ => true
  }

  /** Setting a key keeps a dict well formed, and the new key is last when it is new. */
  lemma SetKeepsShape(j: JSON, k: string, v: JSON)
    requires j.Obj? && WellFormed(j) && WellFormed(v)
    ensures var r := Set(j, k, v);
      && WellFormed(r) && Get(r, k) == Some(v)
      && (forall k' :: k' != k ==> Get(r, k') == Get(j, k'))
      && (k !in j.values ==> r.keys == j.keys + [k]) && (k in j.values ==> r.keys == j.keys)
  {
    var r := Set(j, k, v);
    forall k' | k' in r.values ensures WellFormed(r.values[k']) {
      if k' != k { assert r.values[k'] == j.values[k']; }
    }
    forall k' ensures k' in r.values <==> k' in r.keys {
      assert k' in r.values <==> k' == k || k' in j.values;
    }
    if k !in j.values {
      forall a, b | 0 <= a < b < |r.keys| ensures r.keys[a] != r.keys[b] {
        if b == |j.keys| {
          assert r.keys[a] == j.keys[a];
          assert r.keys[a] in j.keys;
        } else {
          assert r.keys[a] == j.keys[a] && r.keys[b] == j.keys[b];
        }
      }
    }
    assert DictShape(r.keys, r.values);
  }

  /** Deleting a key keeps a dict well formed. */
  lemma DelKeepsShape(j: JSON, k: string)
    requires j.Obj? && WellFormed(j)
    ensures var r := Del(j, k);
      && WellFormed(r) && Get(r, k) == None
      && (forall k' :: k' != k ==> Get(r, k') == Get(j, k'))
  {
    var r := Del(j, k);
    WithoutDistinct(j.keys, k);
    forall k' | k' in r.values ensures WellFormed(r.values[k']) {
      assert r.values[k'] == j.values[k'];
    }
    forall k' ensures k' in r.values <==> k' in r.keys {
      assert k' in r.values <==> k' != k && k' in j.values;
      if k' != k { assert k' in r.keys <==> k' in j.keys; }
    }
    assert DictShape(r.keys, r.values);
  }

  lemma {:induction false} WithoutDistinct(keys: seq<string>, k: string)
    requires Distinct(keys)
    ensures Distinct(Without(keys, k))
  {
    if keys != [] {
      var tail := keys[1..];
      forall a, b | 0 <= a < b < |tail| ensures tail[a] != tail[b] {
        assert tail[a] == keys[a + 1] && tail[b] == keys[b + 1];
      }
      assert Distinct(tail);
      WithoutDistinct(tail, k);
      var rest := Without(tail, k);
      if keys[0] != k {
        forall i | 0 <= i < |tail| ensures tail[i] != keys[0] {
          assert tail[i] == keys[i + 1];
        }
        assert keys[0] !in tail;
        assert keys[0] !in rest;
        var r := [keys[0]] + rest;
        forall a, b | 0 <= a < b < |r| ensures r[a] != r[b] {
          if a == 0 {
            assert r[0] == keys[0];
            assert r[b] == rest[b - 1];
            assert r[b] in rest;
          } else {
            assert r[a] == rest[a - 1] && r[b] == rest[b - 1];
          }
        }
        assert Distinct(r);
        assert Without(keys, k) == r;
      } else {
        assert Without(keys, k) == rest;
      }
    }
  }

  /**
   * `json.dumps` and `json.loads`, which the model does not implement: a
   * codec is any pair of functions, and the proofs name, value by value, the
   * facts about them they rely on.
   */
  datatype Codec = Codec(dumps: JSON -> string, loads: string -> Option<JSON>)

  /** Decoding the encoding of `j` gives `j` back. */
  predicate InvertsAt(c: Codec, j: JSON) {
    c.dumps(j) != "" && c.loads(c.dumps(j)) == Some(j)
  }

  /** `json.loads("{}")` is the empty dict. */
  predicate LoadsEmptyDict(c: Codec) {
    c.loads("{}") == Some(Empty)
  }
}
