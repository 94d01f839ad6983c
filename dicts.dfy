/**
 * Insertion-ordered dictionaries with string keys: a Python `dict` and a
 * JavaScript object both iterate their keys in the order they were first set.
 */
module Dicts {
  import opened Wrappers

  predicate Distinct<T(==)>(s: seq<T>) {
    forall i, j :: 0 <= i < j < |s| ==> s[i] != s[j]
  }

  lemma DistinctAt<T>(s: seq<T>, i: nat, j: nat)
    requires Distinct(s) && i < j < |s|
    ensures s[i] != s[j]
  {
  }

  lemma DistinctConcat<T>(a: seq<T>, b: seq<T>)
    requires Distinct(a) && Distinct(b)
    requires forall x :: x in b ==> x !in a
    ensures Distinct(a + b)
  {
    forall i, j | 0 <= i < j < |a + b|
      ensures (a + b)[i] != (a + b)[j]
    {
      if i < |a| <= j {
        assert (a + b)[i] == a[i] && (a + b)[j] == b[j - |a|];
        assert b[j - |a|] in b;
      } else if |a| <= i {
        assert (a + b)[i] == b[i - |a|] && (a + b)[j] == b[j - |a|];
      } else if j < |a| {
        assert (a + b)[i] == a[i] && (a + b)[j] == a[j];
      }
    }
  }

  lemma DistinctSplit<T>(a: seq<T>, b: seq<T>)
    requires Distinct(a + b)
    ensures Distinct(a) && Distinct(b)
    ensures forall x :: x in b ==> x !in a
  {
    forall i, j | 0 <= i < j < |a|
      ensures a[i] != a[j]
    {
      assert (a + b)[i] == a[i] && (a + b)[j] == a[j];
    }
    forall i, j | 0 <= i < j < |b|
      ensures b[i] != b[j]
    {
      assert (a + b)[|a| + i] == b[i] && (a + b)[|a| + j] == b[j];
    }
    forall x | x in b
      ensures x !in a
    {
      var j :| 0 <= j < |b| && b[j] == x;
      assert (a + b)[|a| + j] == x;
      forall i | 0 <= i < |a|
        ensures a[i] != x
      {
        assert (a + b)[i] == a[i];
      }
    }
  }

  /** The elements of `s` other than `x`, in order. */
  function Without<T(==,!new)>(s: seq<T>, x: T): (r: seq<T>)
    ensures forall y :: y in r <==> y in s && y != x
    ensures Distinct(s) ==> Distinct(r)
  {
    if s == [] then []
    else if s[0] == x then Without(s[1..], x)
    else
      var r := Without(s[1..], x);
      assert Distinct(s) ==> Distinct(s[1..]) && s[0] !in s[1..];
      [s[0]] + r
  }

  /** A dictionary: `entries` maps each key to its value and `keys` lists the
      keys in insertion order. */
  datatype Dict<V> = Dict(keys: seq<string>, entries: map<string, V>) {

    /** `keys` lists each key of `entries` once. */
    ghost predicate Valid() {
      Distinct(keys) && forall k :: k in entries <==> k in keys
    }

    /** `d[k]` when present. */
    function Get(k: string): Option<V> {
      if k in entries then Some(entries[k]) else None
    }

    /** `d[k] = v`: a new key goes last, an existing key keeps its place. */
    function Put(k: string, v: V): Dict<V>
    {
      Dict(if k in entries then keys else keys + [k], entries[k := v])
    }

    /** Deleting `k`; the other keys keep their order. */
    function Remove(k: string): (d: Dict<V>)
      ensures d.entries == entries - {k}
      ensures d.keys == Without(keys, k)
    {
      Dict(Without(keys, k), entries - {k})
    }
  }

  function Empty<V>(): (d: Dict<V>)
    ensures d.keys == [] && d.entries == map[] && d.Valid()
  {
    Dict([], map[])
  }

  /** Setting a key keeps a dictionary well formed. */
  lemma PutValid<V>(d: Dict<V>, k: string, v: V)
    requires d.Valid()
    ensures d.Put(k, v).Valid()
  {
    if k !in d.entries {
      assert k !in d.keys;
    }
  }

  lemma PutSelf<V>(d: Dict<V>, k: string, v: V)
    ensures d.Put(k, v).Get(k) == Some(v)
  {
  }

  /** Putting `k` leaves every other key as it was. */
  lemma PutOther<V>(d: Dict<V>, k: string, v: V, x: string)
    requires x != k
    ensures d.Put(k, v).Get(x) == d.Get(x)
  {
  }

  lemma PutTwice<V>(d: Dict<V>, k: string, v1: V, v2: V)
    ensures d.Put(k, v1).Put(k, v2) == d.Put(k, v2)
  {
    assert d.Put(k, v1).Put(k, v2).entries == d.Put(k, v2).entries;
  }

  /** Setting a key to the value it holds changes nothing. */
  lemma PutSame<V>(d: Dict<V>, k: string)
    requires k in d.entries
    ensures d.Put(k, d.entries[k]) == d
  {
    assert d.Put(k, d.entries[k]).entries == d.entries;
  }

  /** Deleting a key keeps a dictionary well formed. */
  lemma RemoveValid<V>(d: Dict<V>, k: string)
    requires d.Valid()
    ensures d.Remove(k).Valid()
  {
  }
}
