/** The values the scripts read from and write to JSON files, and Python's
    insertion-ordered `dict` with string keys. */
module Json {

  datatype Option<T> = None | Some(value: T)

  /** A Python `dict` with string keys: its items in insertion order. */
  type Dict<V> = seq<(string, V)>

  /** A decoded JSON document. Objects keep their keys in file order. */
  datatype Json =
    | JNull
    | JBool(b: bool)
    | JNum(x: real)
    | JStr(s: string)
    | JArr(items: seq<Json>)
    | JObj(fields: Dict<Json>)

  /** `list(d.keys())` */
  function Keys<V>(d: Dict<V>): (ks: seq<string>)
    ensures |ks| == |d|
    ensures forall i :: 0 <= i < |d| ==> ks[i] == d[i].0
  {
    if d == [] then [] else [d[0].0] + Keys(d[1..])
  }

  /** No key occurs twice, as in every Python `dict`. */
  predicate DistinctKeys<V>(d: Dict<V>) {
    forall i, j :: 0 <= i < j < |d| ==> d[i].0 != d[j].0
  }

  /** `d.get(k)` */
  function Get<V>(d: Dict<V>, k: string): (r: Option<V>)
    ensures r.None? <==> (forall i :: 0 <= i < |d| ==> d[i].0 != k)
    ensures r.Some? ==> exists i :: 0 <= i < |d| && d[i] == (k, r.value)
  {
    if d == [] then None else if d[0].0 == k then Some(d[0].1) else Get(d[1..], k)
  }

  /** `d[k] = v`: a key already present keeps its position and takes the new
      value; a new key goes at the end. */
  function Put<V>(d: Dict<V>, k: string, v: V): (r: Dict<V>)
    ensures (exists i :: 0 <= i < |d| && d[i].0 == k) ==> Keys(r) == Keys(d)
    ensures (forall i :: 0 <= i < |d| ==> d[i].0 != k) ==> Keys(r) == Keys(d) + [k]
  {
    if d == [] then [(k, v)]
    else if d[0].0 == k then [(k, v)] + d[1..]
    else [d[0]] + Put(d[1..], k, v)
  }

  /** After `d[k] = v`, `k` maps to `v` and every other key to what it mapped
      to before. */
  lemma {:induction false} GetPut<V>(d: Dict<V>, k: string, v: V, k': string)
    ensures Get(Put(d, k, v), k') == if k' == k then Some(v) else Get(d, k')
  {
    if d != [] && d[0].0 != k {
      GetPut(d[1..], k, v, k');
      assert Put(d, k, v)[1..] == Put(d[1..], k, v);
    } else if d != [] {
      assert Put(d, k, v)[1..] == d[1..];
    }
  }

  /** Assignment keeps the keys distinct. */
  lemma {:induction false} PutDistinct<V>(d: Dict<V>, k: string, v: V)
    requires DistinctKeys(d)
    ensures DistinctKeys(Put(d, k, v))
  {
    var r := Put(d, k, v);
    var kd, kr := Keys(d), Keys(r);
    assert forall i :: 0 <= i < |r| ==> r[i].0 == kr[i];
    assert forall i :: 0 <= i < |d| ==> d[i].0 == kd[i];
  }

  /** Every item after `d[k] = v` is the new one or an item that was there. */
  lemma {:induction false} PutItems<V>(d: Dict<V>, k: string, v: V)
    ensures forall i :: 0 <= i < |Put(d, k, v)| ==> Put(d, k, v)[i] == (k, v) || Put(d, k, v)[i] in d
  {
    if d != [] && d[0].0 != k {
      PutItems(d[1..], k, v);
      var r := Put(d, k, v);
      assert r == [d[0]] + Put(d[1..], k, v);
      forall i | 1 <= i < |r| ensures r[i] == (k, v) || r[i] in d {
        assert r[i] == Put(d[1..], k, v)[i - 1];
      }
    }
  }

  /** After `d[k] = v` the keys are the old keys and `k`. */
  lemma PutKeys<V>(d: Dict<V>, k: string, v: V)
    ensures forall k' :: k' in Keys(Put(d, k, v)) <==> k' in Keys(d) || k' == k
  {
    var kd := Keys(d);
    if exists i :: 0 <= i < |d| && d[i].0 == k {
      var i :| 0 <= i < |d| && d[i].0 == k;
      assert kd[i] == k;
    }
  }
  /** The `dict` built from an object's pairs in file order, as `json.load`
      does: each pair is assigned in turn, so a repeated key keeps its first
      position and takes its last value. */
  function FromPairs<V>(pairs: Dict<V>): (d: Dict<V>)
    ensures DistinctKeys(d)
  {
    if pairs == [] then []
    else
      var init := FromPairs(pairs[..|pairs| - 1]);
      PutDistinct(init, pairs[|pairs| - 1].0, pairs[|pairs| - 1].1);
      Put(init, pairs[|pairs| - 1].0, pairs[|pairs| - 1].1)
  }

  /** The value of the last pair with key `k`, if any. */
  function LastValue<V>(pairs: Dict<V>, k: string): (r: Option<V>)
    ensures r.None? <==> forall i :: 0 <= i < |pairs| ==> pairs[i].0 != k
  {
    if pairs == [] then None
    else if pairs[|pairs| - 1].0 == k then Some(pairs[|pairs| - 1].1)
    else
      assert forall i :: 0 <= i < |pairs| - 1 ==> pairs[..|pairs| - 1][i] == pairs[i];
      LastValue(pairs[..|pairs| - 1], k)
  }

  /** A `Some` from `LastValue` is the value of a pair with key `k` that no
      later pair overrides. */
  lemma {:induction false} LastValueMeaning<V>(pairs: Dict<V>, k: string) returns (i: nat)
    requires LastValue(pairs, k).Some?
    ensures i < |pairs| && pairs[i].0 == k && pairs[i].1 == LastValue(pairs, k).value
    ensures forall j :: i < j < |pairs| ==> pairs[j].0 != k
  {
    var n := |pairs| - 1;
    if pairs[n].0 == k {
      i := n;
    } else {
      i := LastValueMeaning(pairs[..n], k);
      assert pairs[..n][i] == pairs[i];
      assert forall j :: i < j < n ==> pairs[..n][j] == pairs[j];
    }
  }

  /** A key of the built `dict` maps to the value of its last pair; a key no
      pair has is absent. */
  lemma {:induction false} FromPairsGet<V>(pairs: Dict<V>, k: string)
    ensures Get(FromPairs(pairs), k) == LastValue(pairs, k)
  {
    if pairs != [] {
      var n := |pairs| - 1;
      FromPairsGet(pairs[..n], k);
      GetPut(FromPairs(pairs[..n]), pairs[n].0, pairs[n].1, k);
    }
  }

  /** Pairs with no repeated key build the `dict` that holds them as they are. */
  lemma {:induction false} FromPairsDistinct<V>(pairs: Dict<V>)
    requires DistinctKeys(pairs)
    ensures FromPairs(pairs) == pairs
  {
    if pairs != [] {
      var n := |pairs| - 1;
      var init := pairs[..n];
      FromPairsDistinct(init);
      assert forall i :: 0 <= i < n ==> init[i].0 != pairs[n].0;
      PutAbsent(init, pairs[n].0, pairs[n].1);
      assert init + [pairs[n]] == pairs;
    }
  }

  /** `d[k] = v` for a key `d` lacks appends the item. */
  lemma {:induction false} PutAbsent<V>(d: Dict<V>, k: string, v: V)
    requires forall i :: 0 <= i < |d| ==> d[i].0 != k
    ensures Put(d, k, v) == d + [(k, v)]
  {
    if d != [] {
      PutAbsent(d[1..], k, v);
      assert d == [d[0]] + d[1..];
    }
  }

  /** The value `json.load` returns for a parsed document: every object,
      at any depth, becomes a `dict` built by `FromPairs`. */
  function Load(j: Json): (r: Json)
    ensures r.JObj? <==> j.JObj?
    ensures r.JObj? ==> DistinctKeys(r.fields)
    ensures !j.JObj? && !j.JArr? ==> r == j
  {
    match j
    case JArr(items) => JArr(seq(|items|, i requires 0 <= i < |items| => Load(items[i])))
    case JObj(fields) =>
      JObj(FromPairs(seq(|fields|, i requires 0 <= i < |fields| => (fields[i].0, Load(fields[i].1)))))
    case _ => j
  }
}
