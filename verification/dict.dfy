/**
 Python dictionaries as insertion-ordered association lists. A dict built by
 Python never holds a key twice (`DistinctKeys`); `Put` keeps that invariant and,
 like `d[k] = v`, overwrites in place or appends at the end.
 */
module Dict {
  import opened Wrappers

  type Dict<V> = seq<(string, V)>

  /** The keys, in insertion order. */
  function Keys<V>(d: Dict<V>): (ks: seq<string>)
    ensures |ks| == |d|
    ensures forall i :: 0 <= i < |d| ==> ks[i] == d[i].0
  {
    if d == [] then [] else [d[0].0] + Keys(d[1..])
  }

  predicate DistinctKeys<V>(d: Dict<V>) {
    forall i, j :: 0 <= i < j < |d| ==> d[i].0 != d[j].0
  }

  predicate HasKey<V>(d: Dict<V>, k: string) {
    exists i :: 0 <= i < |d| && d[i].0 == k
  }

  /** `d.get(k)`: the value stored under `k`, if any. */
  function Get<V>(d: Dict<V>, k: string): (r: Option<V>)
    ensures r.None? <==> !HasKey(d, k)
    ensures r.Some? ==> exists i :: 0 <= i < |d| && d[i] == (k, r.value)
  {
    if d == [] then None
    else if d[0].0 == k then Some(d[0].1)
    else Get(d[1..], k)
  }

  /** `d.get(k, default)`. */
  function GetOr<V>(d: Dict<V>, k: string, default: V): V {
    match Get(d, k)
    case Some(v) => v
    case None => default
  }

  /** `d[k] = v`: overwrite the entry for `k` in place, or append a new one. */
  function Put<V>(d: Dict<V>, k: string, v: V): (r: Dict<V>)
    ensures Get(r, k) == Some(v)
    ensures forall k' :: k' != k ==> Get(r, k') == Get(d, k')
    ensures HasKey(d, k) ==> |r| == |d|
    ensures !HasKey(d, k) ==> r == d + [(k, v)]
  {
    if d == [] then [(k, v)]
    else if d[0].0 == k then [(k, v)] + d[1..]
    else [d[0]] + Put(d[1..], k, v)
  }

  /** Every key of `Put(d, k, v)` is `k` or a key of `d`. */
  lemma {:induction false} PutKeys<V>(d: Dict<V>, k: string, v: V, j: int)
    requires 0 <= j < |Put(d, k, v)|
    ensures Put(d, k, v)[j].0 == k || HasKey(d, Put(d, k, v)[j].0)
  {
    if d != [] && d[0].0 != k && j > 0 {
      var rest := d[1..];
      assert Put(d, k, v)[j] == Put(rest, k, v)[j - 1];
      PutKeys(rest, k, v, j - 1);
      if Put(d, k, v)[j].0 != k {
        var i :| 0 <= i < |rest| && rest[i].0 == Put(d, k, v)[j].0;
        assert d[i + 1] == rest[i];
      }
    }
  }

  /** Writing a key never introduces a duplicate key. */
  lemma {:induction false} PutDistinct<V>(d: Dict<V>, k: string, v: V)
    requires DistinctKeys(d)
    ensures DistinctKeys(Put(d, k, v))
  {
    if d != [] && d[0].0 != k {
      var rest := d[1..];
      assert DistinctKeys(rest);
      PutDistinct(rest, k, v);
      var r := Put(d, k, v);
      var r' := Put(rest, k, v);
      assert r == [d[0]] + r';
      forall i, j | 0 <= i < j < |r| ensures r[i].0 != r[j].0 {
        if i == 0 {
          assert r[j] == r'[j - 1];
          PutKeys(rest, k, v, j - 1);
          if r'[j - 1].0 != k {
            var m :| 0 <= m < |rest| && rest[m].0 == r'[j - 1].0;
            assert d[m + 1] == rest[m];
          }
        } else {
          assert r[i] == r'[i - 1] && r[j] == r'[j - 1];
        }
      }
    }
  }

  /** `d.update(other)`: `Put` every entry of `other`, in its order. */
  function Update<V>(d: Dict<V>, other: Dict<V>): (r: Dict<V>)
    ensures forall k :: !HasKey(other, k) ==> Get(r, k) == Get(d, k)
    decreases |other|
  {
    if other == [] then d
    else Update(Put(d, other[0].0, other[0].1), other[1..])
  }

  /** `d.update(other)` keeps the keys of a real dict distinct. */
  lemma {:induction false} UpdateDistinct<V>(d: Dict<V>, other: Dict<V>)
    requires DistinctKeys(d)
    ensures DistinctKeys(Update(d, other))
    decreases |other|
  {
    if other != [] {
      PutDistinct(d, other[0].0, other[0].1);
      UpdateDistinct(Put(d, other[0].0, other[0].1), other[1..]);
    }
  }

  /** `sum(d.values())`. */
  function SumValues(d: Dict<real>): real {
    if d == [] then 0.0 else d[0].1 + SumValues(d[1..])
  }

  /** The values `d` holds under the keys `ks` (0 for an absent key), added up. */
  function SumAt(d: Dict<real>, ks: seq<string>): real {
    if ks == [] then 0.0 else GetOr(d, ks[0], 0.0) + SumAt(d, ks[1..])
  }

  /** After `d.update(other)` with `other` a real dict, a key reads from `other` if `other` has it, else from `d`. */
  lemma {:induction false} UpdateGet<V>(d: Dict<V>, other: Dict<V>, k: string)
    requires DistinctKeys(other)
    ensures Get(Update(d, other), k) == (if HasKey(other, k) then Get(other, k) else Get(d, k))
    decreases |other|
  {
    if other != [] {
      var rest := other[1..];
      assert DistinctKeys(rest);
      UpdateGet(Put(d, other[0].0, other[0].1), rest, k);
      if HasKey(rest, k) {
        var i :| 0 <= i < |rest| && rest[i].0 == k;
        assert other[i + 1].0 == k;
        assert Get(other, k) == Get(rest, k);
      } else if k == other[0].0 {
        assert Get(other, k) == Some(other[0].1);
      } else {
        assert !HasKey(other, k) by {
          forall i | 0 <= i < |other| ensures other[i].0 != k {
            if i > 0 { assert rest[i - 1] == other[i]; }
          }
        }
      }
    }
  }

  /** Overwriting one entry changes the sum by the difference between the new and the old value. */
  lemma {:induction false} PutSum(d: Dict<real>, k: string, v: real)
    requires DistinctKeys(d)
    ensures SumValues(Put(d, k, v)) == SumValues(d) - GetOr(d, k, 0.0) + v
  {
    if d != [] {
      var rest := d[1..];
      assert DistinctKeys(rest);
      if d[0].0 == k {
        assert [(k, v)] + rest == Put(d, k, v);
        assert SumValues([(k, v)] + rest) == v + SumValues(rest);
      } else {
        PutSum(rest, k, v);
        assert Put(d, k, v) == [d[0]] + Put(rest, k, v);
        assert ([d[0]] + Put(rest, k, v))[1..] == Put(rest, k, v);
      }
    }
  }

  /** Writing a key outside `ks` leaves the values under `ks` unchanged. */
  lemma {:induction false} SumAtPutElsewhere(d: Dict<real>, ks: seq<string>, k: string, v: real)
    requires forall i :: 0 <= i < |ks| ==> ks[i] != k
    ensures SumAt(Put(d, k, v), ks) == SumAt(d, ks)
  {
    if ks != [] {
      SumAtPutElsewhere(d, ks[1..], k, v);
    }
  }

  /** A dict whose every value is zero contributes nothing under any keys. */
  lemma {:induction false} SumAtZero(d: Dict<real>, ks: seq<string>)
    requires forall i :: 0 <= i < |d| ==> d[i].1 == 0.0
    ensures SumAt(d, ks) == 0.0
  {
    if ks != [] {
      SumAtZero(d, ks[1..]);
    }
  }

  /** The sum after `d.update(other)`: the overwritten values leave, the values of `other` arrive. */
  lemma {:induction false} UpdateSum(d: Dict<real>, other: Dict<real>)
    requires DistinctKeys(d) && DistinctKeys(other)
    ensures SumValues(Update(d, other)) == SumValues(d) - SumAt(d, Keys(other)) + SumValues(other)
    decreases |other|
  {
    if other != [] {
      var (k, v) := other[0];
      var rest := other[1..];
      assert DistinctKeys(rest);
      var d' := Put(d, k, v);
      PutDistinct(d, k, v);
      UpdateSum(d', rest);
      PutSum(d, k, v);
      assert forall i :: 0 <= i < |Keys(rest)| ==> Keys(rest)[i] != k by {
        forall i | 0 <= i < |Keys(rest)| ensures Keys(rest)[i] != k {
          assert Keys(rest)[i] == other[i + 1].0;
        }
      }
      SumAtPutElsewhere(d, Keys(rest), k, v);
      assert Keys(other) == [k] + Keys(rest);
      assert Keys(other)[1..] == Keys(rest);
    }
  }
}
