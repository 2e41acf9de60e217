/** Types shared by every part of the model: optional values, results that stand for a raised
    Python exception, and Python's insertion-ordered dictionaries. */
module Collections {

  datatype Option<+T> = None | Some(value: T)

  /** `Raised` stands for any Python exception. */
  datatype Result<+T> = Ok(value: T) | Raised

  ghost predicate Distinct<T>(s: seq<T>) {
    forall i, j :: 0 <= i < j < |s| ==> s[i] != s[j]
  }

  /** The sequence without the first occurrence of x. */
  function Without<T(==)>(s: seq<T>, x: T): (r: seq<T>)
    ensures forall y :: y in r ==> y in s
    ensures forall y :: y in s && y != x ==> y in r
    ensures x !in s ==> r == s
  {
    if s == [] then []
    else if s[0] == x then s[1..]
    else [s[0]] + Without(s[1..], x)
  }

  lemma DistinctTail<T>(s: seq<T>)
    requires s != [] && Distinct(s)
    ensures Distinct(s[1..]) && s[0] !in s[1..]
  {
    var tail := s[1..];
    forall i, j | 0 <= i < j < |tail| ensures tail[i] != tail[j] {
      assert tail[i] == s[i + 1] && tail[j] == s[j + 1];
    }
  }

  lemma DistinctCons<T>(x: T, tail: seq<T>)
    requires Distinct(tail) && x !in tail
    ensures Distinct([x] + tail)
  {
    var s := [x] + tail;
    forall i, j | 0 <= i < j < |s| ensures s[i] != s[j] {
      assert s[j] == tail[j - 1];
      assert i > 0 ==> s[i] == tail[i - 1];
    }
  }

  lemma DistinctAppend<T>(init: seq<T>, x: T)
    requires Distinct(init) && x !in init
    ensures Distinct(init + [x])
  {
    var s := init + [x];
    forall i, j | 0 <= i < j < |s| ensures s[i] != s[j] {
      assert s[i] == init[i];
      assert j < |init| ==> s[j] == init[j];
    }
  }

  lemma {:induction false} WithoutDistinct<T>(s: seq<T>, x: T)
    requires Distinct(s)
    ensures Distinct(Without(s, x))
    ensures x !in Without(s, x)
    ensures x in s ==> |Without(s, x)| == |s| - 1
  {
    if s != [] {
      DistinctTail(s);
      if s[0] != x {
        WithoutDistinct(s[1..], x);
        DistinctCons(s[0], Without(s[1..], x));
      }
    }
  }

  /** A Python dictionary: `order` is the insertion order of the keys, `at` the mapping. */
  datatype Dict<K(==), V> = Dict(order: seq<K>, at: map<K, V>) {

    ghost predicate WF() {
      && Distinct(order)
      && (forall k :: k in order ==> k in at)
      && (forall k :: k in at ==> k in order)
    }

    /** d[k] = v */
    function Put(k: K, v: V): (d: Dict<K, V>)
      ensures WF() ==> d.WF()
    {
      Dict(if k in at then order else order + [k], at[k := v])
    }

    /** d.pop(k, None) */
    function Drop(k: K): Dict<K, V> {
      Dict(Without(order, k), at - {k})
    }

    lemma DropWF(k: K)
      requires WF()
      ensures Drop(k).WF()
      ensures k in at ==> |Drop(k).order| == |order| - 1
    {
      WithoutDistinct(order, k);
    }
  }
}
