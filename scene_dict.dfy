/**
 * A JavaScript object used as a dictionary from instance names to nodes.
 * Assigning to a name that is present replaces its value in place; assigning
 * to a new name appends it; `delete` removes it; `for ... in` visits the names
 * in the order they were first assigned.
 */
module SceneDict {

  datatype Dict<V> = Dict(keys: seq<string>, entries: map<string, V>)

  /** No name occurs twice. */
  ghost predicate Distinct(keys: seq<string>)
  {
    forall i, j :: 0 <= i < j < |keys| ==> keys[i] != keys[j]
  }

  /** The names are distinct and are exactly the names that have values. */
  ghost predicate Valid<V>(d: Dict<V>)
  {
    && Distinct(d.keys)
    && (forall k :: k in d.entries <==> k in d.keys)
  }

  function Empty<V>(): (r: Dict<V>)
    ensures Valid(r) && r.keys == []
  {
    Dict([], map[])
  }

  /** `d[k] = v`. */
  function Put<V>(d: Dict<V>, k: string, v: V): (r: Dict<V>)
    requires Valid(d)
    ensures Valid(r)
    ensures k in r.entries && r.entries[k] == v
    ensures forall j :: j in d.entries && j != k ==> j in r.entries && r.entries[j] == d.entries[j]
    ensures forall j :: j in r.entries ==> j == k || j in d.entries
    ensures k in d.entries ==> r.keys == d.keys
    ensures k !in d.entries ==> r.keys == d.keys + [k]
  {
    if k in d.entries then Dict(d.keys, d.entries[k := v])
    else Dict(d.keys + [k], d.entries[k := v])
  }

  /** `keys` with `k` taken out, the others in their order. */
  function Without(keys: seq<string>, k: string): (r: seq<string>)
    ensures forall j :: j in r <==> j in keys && j != k
    ensures k !in keys ==> r == keys
    ensures |r| <= |keys|
  {
    if keys == [] then []
    else if keys[0] == k then Without(keys[1..], k)
    else [keys[0]] + Without(keys[1..], k)
  }

  /** A sequence without repeats stays without repeats when one name is taken out. */
  lemma {:induction false} WithoutDistinct(keys: seq<string>, k: string)
    requires Distinct(keys)
    ensures Distinct(Without(keys, k))
  {
    if keys != [] {
      WithoutDistinct(keys[1..], k);
      var rest := Without(keys[1..], k);
      if keys[0] != k {
        var r := [keys[0]] + rest;
        forall i, j | 0 <= i < j < |r| ensures r[i] != r[j] {
          if i == 0 {
            assert r[j] == rest[j - 1] && rest[j - 1] in keys[1..];
            assert forall m :: 0 <= m < |keys| - 1 ==> keys[1..][m] == keys[m + 1] != keys[0];
          } else {
            assert r[i] == rest[i - 1] && r[j] == rest[j - 1];
            assert rest[i - 1] != rest[j - 1];
          }
        }
      }
    }
  }

  /** `delete d[k]`; deleting a name that is not there changes nothing. */
  function Delete<V>(d: Dict<V>, k: string): (r: Dict<V>)
    requires Valid(d)
    ensures Valid(r)
    ensures k !in r.entries
    ensures forall j :: j != k ==> (j in r.entries <==> j in d.entries)
    ensures forall j :: j in r.entries ==> r.entries[j] == d.entries[j]
    ensures k !in d.entries ==> r == d
    ensures k in d.entries ==> |r.keys| == |d.keys| - 1
  {
    WithoutDistinct(d.keys, k);
    if k in d.entries then
      WithoutLength(d.keys, k);
      Dict(Without(d.keys, k), d.entries - {k})
    else
      Dict(Without(d.keys, k), d.entries - {k})
  }

  /** The values in visiting order. */
  function Ordered<V>(d: Dict<V>): (r: seq<V>)
    requires Valid(d)
    ensures |r| == |d.keys|
    ensures forall i :: 0 <= i < |r| ==> r[i] == d.entries[d.keys[i]]
  {
    seq(|d.keys|, i requires 0 <= i < |d.keys| => d.entries[d.keys[i]])
  }

  lemma {:induction false} WithoutAppended(keys: seq<string>, k: string)
    requires k !in keys
    ensures Without(keys + [k], k) == keys
  {
    if keys == [] {
      assert [] + [k] == [k];
    } else {
      assert (keys + [k])[0] == keys[0] && (keys + [k])[1..] == keys[1..] + [k];
      WithoutAppended(keys[1..], k);
      assert [keys[0]] + keys[1..] == keys;
    }
  }

  /** Adding a new name and deleting it again gives back the dictionary. */
  lemma PutDeleteFresh<V>(d: Dict<V>, k: string, v: V)
    requires Valid(d) && k !in d.entries
    ensures Delete(Put(d, k, v), k) == d
  {
    WithoutAppended(d.keys, k);
    assert Put(d, k, v).entries - {k} == d.entries;
  }

  /** Re-assigning a present name keeps its place in the visiting order. */
  lemma PutPresentKeepsOrder<V>(d: Dict<V>, k: string, v: V)
    requires Valid(d) && k in d.entries
    ensures Put(d, k, v).keys == d.keys
    ensures Ordered(Put(d, k, v)) == Ordered(d)[IndexOf(d.keys, k) := v]
  {
    var r := Put(d, k, v);
    var n := IndexOf(d.keys, k);
    var before, after := Ordered(d), Ordered(r);
    forall i | 0 <= i < |d.keys|
      ensures after[i] == before[n := v][i]
    {
      if i != n {
        assert d.keys[i] != d.keys[n];
      }
    }
  }

  /** Deleting a name and assigning it again moves it to the end of the visiting order. */
  lemma DeletePutMovesLast<V>(d: Dict<V>, k: string, v: V)
    requires Valid(d)
    ensures Put(Delete(d, k), k, v).keys == Without(d.keys, k) + [k]
    ensures var r := Put(Delete(d, k), k, v); Ordered(r)[|r.keys| - 1] == v
  {
  }

  /** Position of a present name. */
  function IndexOf(keys: seq<string>, k: string): (n: nat)
    requires k in keys
    ensures n < |keys| && keys[n] == k
  {
    if keys[0] == k then 0 else 1 + IndexOf(keys[1..], k)
  }

  /** Taking out a name that occurs once shortens the sequence by one. */
  lemma {:induction false} WithoutLength(keys: seq<string>, k: string)
    requires Distinct(keys)
    requires k in keys
    ensures |Without(keys, k)| == |keys| - 1
  {
    if keys[0] == k {
      assert k !in keys[1..];
    } else {
      WithoutLength(keys[1..], k);
    }
  }
}
