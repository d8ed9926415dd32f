/** Result types and order-carrying dictionaries shared by the other modules. */
module Prelude {

  datatype Option<+T> = None | Some(value: T)

  /** The result of a step that may raise.  Every way a step raises is the same Rejected. */
  datatype Outcome<+T> = Rejected | Accepted(value: T) {

    predicate IsFailure() {
      Rejected?
    }

    function PropagateFailure<U>(): Outcome<U>
      requires Rejected?
    {
      Rejected
    }

    function Extract(): T
      requires Accepted?
    {
      value
    }
  }

  predicate DistinctKeys<V>(entries: seq<(string, V)>) {
    forall i, j :: 0 <= i < j < |entries| ==> entries[i].0 != entries[j].0
  }

  /** A decoded JSON object: its entries in iteration order, no key twice. */
  type Table<V> = entries: seq<(string, V)> | DistinctKeys(entries)

  /** The dictionary a table stands for, without the order of its entries. */
  ghost function AsMap<V>(t: Table<V>): (m: map<string, V>)
    ensures forall i :: 0 <= i < |t| ==> t[i].0 in m && m[t[i].0] == t[i].1
    ensures forall k :: k in m ==> exists i :: 0 <= i < |t| && t[i].0 == k
  {
    map i | 0 <= i < |t| :: t[i].0 := t[i].1
  }

  /** The dictionary lookup `table[key]`, absent as None. */
  method Lookup<V>(t: Table<V>, key: string) returns (r: Option<V>)
    ensures r == if key in AsMap(t) then Some(AsMap(t)[key]) else None
  {
    for i := 0 to |t|
      invariant forall j :: 0 <= j < i ==> t[j].0 != key
    {
      if t[i].0 == key {
        return Some(t[i].1);
      }
    }
    return None;
  }

  predicate Distinct<T(==)>(items: seq<T>) {
    forall i, j :: 0 <= i < j < |items| ==> items[i] != items[j]
  }

  lemma DistinctJoin<T>(a: seq<T>, b: seq<T>)
    ensures Distinct(a + b) <==> Distinct(a) && Distinct(b) && forall x :: x in b ==> x !in a
  {
    if Distinct(a + b) {
      forall i, j | 0 <= i < j < |a|
        ensures a[i] != a[j]
      {
        assert (a + b)[i] != (a + b)[j];
      }
      forall i, j | 0 <= i < j < |b|
        ensures b[i] != b[j]
      {
        assert (a + b)[|a| + i] != (a + b)[|a| + j];
      }
      forall i, j | 0 <= i < |a| && 0 <= j < |b|
        ensures a[i] != b[j]
      {
        assert (a + b)[i] != (a + b)[|a| + j];
      }
    }
    if forall x :: x in b ==> x !in a {
      forall i, j | 0 <= i < |a| && 0 <= j < |b|
        ensures a[i] != b[j]
      {
        assert a[i] in a && b[j] in b;
      }
    }
  }

  lemma Inhabited<T>(items: seq<T>)
    ensures items == [] || exists x :: x in items
  {
    if items != [] {
      assert items[0] in items;
    }
  }

  lemma ProperSubsetIsSmaller<T>(a: set<T>, b: set<T>)
    requires a < b
    ensures |a| < |b|
  {
    assert b == a + (b - a);
    var x :| x in b - a;
    assert |b - a| > 0;
  }
}
