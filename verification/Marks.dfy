/** Counting the copies of tasks in sequences. */
module Marks {

  /** What one copy of a task counts for: a copy of its tid, a copy held for a controller, and,
      once executed, a completed run at that controller. */
  datatype Mark = Copy(tid: string) | CopyAt(owner: string, tid: string) | RunAt(owner: string, tid: string)

  function Waiting(owner: string, tid: string): multiset<Mark> {
    multiset{Copy(tid), CopyAt(owner, tid)}
  }

  function Ran(owner: string, tid: string): multiset<Mark> {
    multiset{Copy(tid), CopyAt(owner, tid), RunAt(owner, tid)}
  }

  function RemoveAt<T>(xs: seq<T>, k: nat): seq<T>
    requires k < |xs|
  {
    xs[..k] + xs[k + 1..]
  }

  ghost function Sum<T>(owner: string, xs: seq<T>, f: (string, T) -> multiset<Mark>): multiset<Mark> {
    if xs == [] then multiset{} else f(owner, xs[0]) + Sum(owner, xs[1..], f)
  }

  lemma {:induction false} SumConcat<T>(owner: string, xs: seq<T>, ys: seq<T>, f: (string, T) -> multiset<Mark>)
    ensures Sum(owner, xs + ys, f) == Sum(owner, xs, f) + Sum(owner, ys, f)
  {
    if xs == [] {
      assert xs + ys == ys;
    } else {
      SumConcat(owner, xs[1..], ys, f);
      assert (xs + ys)[1..] == xs[1..] + ys;
    }
  }

  lemma SumOne<T>(owner: string, x: T, f: (string, T) -> multiset<Mark>)
    ensures Sum(owner, [x], f) == f(owner, x)
  {
    assert [x][1..] == [];
  }

  lemma SumAppend<T>(owner: string, xs: seq<T>, x: T, f: (string, T) -> multiset<Mark>)
    ensures Sum(owner, xs + [x], f) == Sum(owner, xs, f) + f(owner, x)
  {
    SumConcat(owner, xs, [x], f);
    SumOne(owner, x, f);
  }

  lemma SumRemove<T>(owner: string, xs: seq<T>, k: nat, f: (string, T) -> multiset<Mark>)
    requires k < |xs|
    ensures Sum(owner, RemoveAt(xs, k), f) + f(owner, xs[k]) == Sum(owner, xs, f)
  {
    SumConcat(owner, xs[..k], xs[k + 1..], f);
    SumConcat(owner, xs[..k], [xs[k]] + xs[k + 1..], f);
    SumConcat(owner, [xs[k]], xs[k + 1..], f);
    SumOne(owner, xs[k], f);
    assert xs[..k] + ([xs[k]] + xs[k + 1..]) == xs;
  }

  lemma SumUpdate<T>(owner: string, xs: seq<T>, k: nat, y: T, f: (string, T) -> multiset<Mark>)
    requires k < |xs|
    ensures Sum(owner, xs[k := y], f) + f(owner, xs[k]) == Sum(owner, xs, f) + f(owner, y)
  {
    SumRemove(owner, xs, k, f);
    SumRemove(owner, xs[k := y], k, f);
    assert RemoveAt(xs[k := y], k) == RemoveAt(xs, k);
  }
}
