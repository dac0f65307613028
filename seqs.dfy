/*
 * Sequence facts shared by the generator and the renderers: the output of
 * a loop that emits one piece per item, in item order.
 */
module Seqs {

  /** The pieces `f(xs[0]) + ... + f(xs[|xs| - 1])`, in order. */
  function Concat<T, U>(xs: seq<T>, f: T -> seq<U>): seq<U> {
    if xs == [] then [] else Concat(xs[..|xs| - 1], f) + f(xs[|xs| - 1])
  }

  lemma AppendAssoc<T>(a: seq<T>, b: seq<T>, c: seq<T>)
    ensures (a + b) + c == a + (b + c)
  {
  }

  lemma AppendAssoc3<T>(t: seq<T>, a: seq<T>, b: seq<T>, c: seq<T>)
    ensures t + (a + b + c) == t + a + b + c
  {
  }

  lemma AppendAssoc4<T>(t: seq<T>, a: seq<T>, b: seq<T>, c: seq<T>, d: seq<T>)
    ensures t + (a + b + c + d) == t + a + b + c + d
  {
  }

  /** Overwriting the item that follows a prefix of length `i`. */
  lemma UpdateAfter<T>(s: seq<T>, done: seq<T>, xs: seq<T>, i: nat, x: T)
    requires i < |xs| && |done| == i && s == done + xs[i..]
    ensures s[i] == xs[i]
    ensures s[i := x] == done + [x] + xs[i + 1..]
  {
  }

  lemma TakeSnoc<T>(xs: seq<T>, i: nat)
    requires i < |xs|
    ensures xs[..i + 1] == xs[..i] + [xs[i]]
  {
  }

  /** Appending an item appends its piece. */
  lemma ConcatSnoc<T, U>(xs: seq<T>, x: T, f: T -> seq<U>)
    ensures Concat(xs + [x], f) == Concat(xs, f) + f(x)
  {
  }

  lemma {:induction false} ConcatAppend<T, U>(a: seq<T>, b: seq<T>, f: T -> seq<U>)
    ensures Concat(a + b, f) == Concat(a, f) + Concat(b, f)
    decreases |b|
  {
    if b == [] {
      assert a + b == a;
    } else {
      assert (a + b)[..|a + b| - 1] == a + b[..|b| - 1];
      ConcatAppend(a, b[..|b| - 1], f);
      AppendAssoc(Concat(a, f), Concat(b[..|b| - 1], f), f(b[|b| - 1]));
    }
  }

  /** The pieces of a list are those before item `k`, its own, and those after. */
  lemma ConcatSplit<T, U>(xs: seq<T>, f: T -> seq<U>, k: nat)
    requires k < |xs|
    ensures Concat(xs, f) == Concat(xs[..k], f) + f(xs[k]) + Concat(xs[k + 1..], f)
    ensures |Concat(xs[..k + 1], f)| == |Concat(xs[..k], f)| + |f(xs[k])|
  {
    assert xs == xs[..k + 1] + xs[k + 1..];
    assert xs[..k + 1] == xs[..k] + [xs[k]];
    ConcatSnoc(xs[..k], xs[k], f);
    ConcatAppend(xs[..k + 1], xs[k + 1..], f);
  }

  /** Where item `k`'s piece starts when the pieces are laid out from position `at` on. */
  function Start<T, U>(xs: seq<T>, f: T -> seq<U>, at: nat, k: nat): nat
    requires k <= |xs|
  {
    at + |Concat(xs[..k], f)|
  }

  /** Each item combined with the position where its piece starts: `g(xs[k], Start(xs, f, at, k))`. */
  function Positioned<T, U, V>(xs: seq<T>, f: T -> seq<U>, g: (T, nat) -> V, at: nat): (r: seq<V>)
    ensures |r| == |xs|
  {
    if xs == [] then []
    else
      var n := |xs| - 1;
      Positioned(xs[..n], f, g, at) + [g(xs[n], Start(xs, f, at, n))]
  }

  lemma PositionedSnoc<T, U, V>(xs: seq<T>, f: T -> seq<U>, g: (T, nat) -> V, at: nat, i: nat)
    requires i < |xs|
    ensures Positioned(xs[..i + 1], f, g, at) == Positioned(xs[..i], f, g, at) + [g(xs[i], Start(xs, f, at, i))]
  {
    assert xs[..i + 1][..i] == xs[..i];
  }

  lemma {:induction false} PositionedIndex<T, U, V>(xs: seq<T>, f: T -> seq<U>, g: (T, nat) -> V, at: nat, k: nat)
    requires k < |xs|
    ensures Positioned(xs, f, g, at)[k] == g(xs[k], Start(xs, f, at, k))
    decreases |xs|
  {
    var n := |xs| - 1;
    if k < n {
      PositionedIndex(xs[..n], f, g, at, k);
      assert xs[..n][..k] == xs[..k];
    }
  }

  /** The index of the first item from `from` on that satisfies `P`; `|xs|` when there is none. */
  function FirstWhere<T>(xs: seq<T>, P: T -> bool, from: nat): (r: nat)
    requires from <= |xs|
    ensures from <= r <= |xs|
    ensures r < |xs| ==> P(xs[r])
    ensures forall j :: from <= j < r ==> !P(xs[j])
    decreases |xs| - from
  {
    if from == |xs| then from
    else if P(xs[from]) then from
    else FirstWhere(xs, P, from + 1)
  }

  /** The first index is the only one satisfying `P` with none before it. */
  lemma FirstWhereIs<T>(xs: seq<T>, P: T -> bool, i: nat)
    requires i <= |xs|
    requires i < |xs| ==> P(xs[i])
    requires forall j :: 0 <= j < i ==> !P(xs[j])
    ensures FirstWhere(xs, P, 0) == i
  {
  }
}
