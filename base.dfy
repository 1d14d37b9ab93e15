/** Small building blocks shared by the planner's modules. */
module Base {

  datatype Option<T> = None | Some(value: T)

  datatype Result<T, E> = Ok(value: T) | Err(error: E)

  /** No element of `s` occurs twice. */
  predicate Distinct<T(==)>(s: seq<T>) {
    forall i, j :: 0 <= i < j < |s| ==> s[i] != s[j]
  }

  /** The elements of `s`, as a set. */
  function Elems<T>(s: seq<T>): set<T> {
    set x | x in s
  }

  /** A list without repeats has as many elements as members. */
  lemma {:induction false} DistinctSize<T>(s: seq<T>)
    requires Distinct(s)
    ensures |Elems(s)| == |s|
  {
    if s != [] {
      var rest := s[1..];
      DistinctSize(rest);
      assert Elems(s) == {s[0]} + Elems(rest);
      assert s[0] !in Elems(rest);
    }
  }

  /** Two lists without repeats and without common members concatenate to a list without repeats. */
  lemma DistinctConcat<T>(a: seq<T>, b: seq<T>)
    requires Distinct(a) && Distinct(b)
    requires forall x :: x in a ==> x !in b
    ensures Distinct(a + b)
  {
    forall i, j | 0 <= i < j < |a + b|
      ensures (a + b)[i] != (a + b)[j]
    {
      if i < |a| && j >= |a| {
        assert (a + b)[i] in a && (a + b)[j] in b;
      }
    }
  }

  /** The image of `xs` under `f`. */
  ghost function Image<A, B>(xs: set<A>, f: A -> B): set<B> {
    set x | x in xs :: f(x)
  }

  /** An injective map takes a set to a set of the same size. */
  lemma {:induction false} InjectiveImage<A, B>(xs: set<A>, f: A -> B)
    requires forall x, y :: x in xs && y in xs && f(x) == f(y) ==> x == y
    ensures |Image(xs, f)| == |xs|
    decreases xs
  {
    if xs != {} {
      var x :| x in xs;
      var rest := xs - {x};
      InjectiveImage(rest, f);
      assert Image(xs, f) == Image(rest, f) + {f(x)};
    }
  }

  /**
   * A Python dictionary. Python dictionaries keep insertion order, and code that
   * iterates over one or indexes `list(d.keys())` sees that order, so the key
   * order is part of the value: `keys` lists the keys in insertion order.
   */
  datatype Dict<K(==), V> = Dict(keys: seq<K>, values: map<K, V>) {

    ghost predicate Valid() {
      Distinct(keys) && Elems(keys) == values.Keys
    }

    /** `d[k] = v`: a new key goes to the end, an existing key keeps its place. */
    function Put(k: K, v: V): (d: Dict<K, V>)
      ensures Valid() ==> d.Valid()
    {
      Dict(if k in values then keys else keys + [k], values[k := v])
    }
  }
}
