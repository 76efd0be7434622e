/** Datatypes shared by the whole model. */
module Common {
  /** A pointer, a map lookup or a search that may have nothing to return. */
  datatype Option<+T> = None | Some(value: T)

  /** A Go (value, error) pair: exactly one side is meaningful. */
  datatype Result<+T, +E> = Success(value: T) | Failure(error: E)

  /** slices.Contains. */
  predicate Contains(values: seq<string>, value: string) {
    value in values
  }

  /** The elements of s that satisfy p, in order. */
  function Filter<T(!new)>(s: seq<T>, p: T -> bool): (r: seq<T>)
    ensures forall x :: x in r <==> x in s && p(x)
    ensures |r| <= |s|
  {
    if s == [] then []
    else
      var rest := Filter(s[1..], p);
      if p(s[0]) then [s[0]] + rest else rest
  }

  /** Filtering a list that grew by one element at its end. */
  lemma {:induction false} FilterSnoc<T(!new)>(s: seq<T>, x: T, p: T -> bool)
    ensures Filter(s + [x], p) == Filter(s, p) + (if p(x) then [x] else [])
  {
    if s == [] {
      assert s + [x] == [x];
    } else {
      assert (s + [x])[1..] == s[1..] + [x];
      FilterSnoc(s[1..], x, p);
    }
  }

  function Lookup<K, V>(m: map<K, V>, k: K): Option<V> {
    if k in m then Some(m[k]) else None
  }

  function Store<K, V>(m: map<K, V>, k: K, v: Option<V>): map<K, V> {
    if v.Some? then m[k := v.value] else m - {k}
  }

  lemma Shrinks<T>(small: set<T>, large: set<T>, x: T)
    requires small <= large - {x} && x in large
    ensures |small| < |large|
  {
    SubsetCount(small, large - {x});
  }

  lemma {:induction false} SubsetCount<T>(small: set<T>, large: set<T>)
    requires small <= large
    ensures |small| <= |large|
  {
    if small != {} {
      var x :| x in small;
      SubsetCount(small - {x}, large - {x});
    }
  }

  /** What stands before the first c decides the rest. */
  lemma {:induction false} SplitsAtFirst(a: string, x: string, b: string, y: string, c: char)
    requires c !in a && c !in b && a + [c] + x == b + [c] + y
    ensures a == b && x == y
  {
    var s, t := a + [c] + x, b + [c] + y;
    if a == [] || b == [] {
      assert s[0] == t[0];
      assert a == [] && b == [];
      assert s[1..] == x && t[1..] == y;
    } else {
      assert s[1..] == a[1..] + [c] + x && t[1..] == b[1..] + [c] + y;
      assert s[0] == a[0] && t[0] == b[0];
      SplitsAtFirst(a[1..], x, b[1..], y, c);
      assert a == [a[0]] + a[1..] && b == [b[0]] + b[1..];
    }
  }
}
