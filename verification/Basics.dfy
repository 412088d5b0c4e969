/** Option, bytes and concatenation, shared by every component. */
module Basics {

  datatype Option<+T> = None | Some(value: T)

  newtype byte = x: int | 0 <= x < 256

  type Bytes = seq<byte>

  const NEWLINE: byte := 10

  lemma Assoc<T>(a: seq<T>, b: seq<T>, c: seq<T>)
    ensures a + b + c == a + (b + c)
  {
  }

  /** A sequence grown by one more element of another. */
  lemma GrowsBy<T>(base: seq<T>, s: seq<T>, k: nat)
    requires k < |s|
    ensures base + s[..k] + [s[k]] == base + s[..k + 1]
  {
  }

  lemma SplitsAt<T>(s: seq<T>, k: nat)
    requires k <= |s|
    ensures s[..k] + s[k..] == s
  {
  }

  /** The bytes of a list of slices, in order. */
  function Concat<T>(parts: seq<seq<T>>): seq<T> {
    if parts == [] then [] else parts[0] + Concat(parts[1..])
  }

  lemma {:induction false} ConcatAppend<T>(a: seq<seq<T>>, b: seq<seq<T>>)
    ensures Concat(a + b) == Concat(a) + Concat(b)
  {
    if a == [] {
      assert a + b == b;
    } else {
      ConcatAppend(a[1..], b);
      assert (a + b)[0] == a[0] && (a + b)[1..] == a[1..] + b;
      Assoc(a[0], Concat(a[1..]), Concat(b));
    }
  }

  lemma ConcatPush<T>(a: seq<seq<T>>, last: seq<T>)
    ensures Concat(a + [last]) == Concat(a) + last
  {
    ConcatAppend(a, [last]);
    assert [last][1..] == [];
  }

  function Sum<A>(xs: seq<A>, f: A -> nat): nat {
    if xs == [] then 0 else f(xs[0]) + Sum(xs[1..], f)
  }

  lemma {:induction false} SumUpdate<A>(xs: seq<A>, f: A -> nat, i: nat, x: A)
    requires i < |xs|
    ensures Sum(xs[i := x], f) + f(xs[i]) == Sum(xs, f) + f(x)
  {
    if i == 0 {
      assert xs[i := x][1..] == xs[1..];
    } else {
      assert xs[i := x][1..] == xs[1..][i - 1 := x];
      SumUpdate(xs[1..], f, i - 1, x);
    }
  }

  lemma {:induction false} SumAppend<A>(a: seq<A>, b: seq<A>, f: A -> nat)
    ensures Sum(a + b, f) == Sum(a, f) + Sum(b, f)
  {
    if a == [] {
      assert a + b == b;
    } else {
      assert (a + b)[1..] == a[1..] + b;
      SumAppend(a[1..], b, f);
    }
  }

  lemma SumPush<A>(xs: seq<A>, f: A -> nat, x: A)
    ensures Sum(xs + [x], f) == Sum(xs, f) + f(x)
  {
    SumAppend(xs, [x], f);
    assert [x][1..] == [];
  }

  /** The results of `f` on the elements, joined in order. */
  function FlatMap<A, B>(xs: seq<A>, f: A -> seq<B>): seq<B> {
    if xs == [] then [] else FlatMap(xs[..|xs| - 1], f) + f(xs[|xs| - 1])
  }

  lemma {:induction false} FlatMapAppend<A, B>(a: seq<A>, b: seq<A>, f: A -> seq<B>)
    ensures FlatMap(a + b, f) == FlatMap(a, f) + FlatMap(b, f)
    decreases |b|
  {
    if b == [] {
      assert a + b == a;
    } else {
      assert (a + b)[..|a + b| - 1] == a + b[..|b| - 1];
      FlatMapAppend(a, b[..|b| - 1], f);
    }
  }

  lemma FlatMapPush<A, B>(xs: seq<A>, f: A -> seq<B>, x: A)
    ensures FlatMap(xs + [x], f) == FlatMap(xs, f) + f(x)
  {
    assert (xs + [x])[..|xs|] == xs;
  }

  lemma FlatMapOne<A, B>(f: A -> seq<B>, x: A)
    ensures FlatMap([x], f) == f(x)
  {
    assert [] + [x] == [x];
    FlatMapPush([], f, x);
  }

  lemma FlatMapTwo<A, B>(f: A -> seq<B>, x: A, y: A)
    ensures FlatMap([x, y], f) == f(x) + f(y)
  {
    assert [x] + [y] == [x, y];
    FlatMapOne(f, x);
    FlatMapPush([x], f, y);
  }

  lemma {:induction false} FlatMapNone<A, B>(xs: seq<A>, f: A -> seq<B>)
    requires forall x :: x in xs ==> f(x) == []
    ensures FlatMap(xs, f) == []
    decreases |xs|
  {
    if xs != [] {
      assert xs[|xs| - 1] in xs;
      FlatMapNone(xs[..|xs| - 1], f);
    }
  }

  function Min(a: nat, b: nat): nat {
    if a < b then a else b
  }

  /** Concatenating one slice further. */
  lemma ConcatNext(chunks: seq<Bytes>, k: nat)
    requires k < |chunks|
    ensures Concat(chunks[..k + 1]) == Concat(chunks[..k]) + chunks[k]
    ensures |Concat(chunks[..k + 1])| <= |Concat(chunks)|
  {
    assert chunks[..k + 1] == chunks[..k] + [chunks[k]];
    ConcatPush(chunks[..k], chunks[k]);
    assert chunks == chunks[..k + 1] + chunks[k + 1..];
    ConcatAppend(chunks[..k + 1], chunks[k + 1..]);
  }

  lemma ConcatPrefix(chunks: seq<Bytes>, k: nat)
    requires k <= |chunks|
    ensures Concat(chunks[..k]) <= Concat(chunks)
  {
    assert chunks == chunks[..k] + chunks[k..];
    ConcatAppend(chunks[..k], chunks[k..]);
  }

  /** The numbers from `low` up to but not including `high`. */
  function Range(low: nat, high: nat): seq<nat> {
    if low >= high then [] else seq(high - low, i => low + i)
  }

  /** Counts the occurrences of `n`, with `Sum`. */
  function Is(n: nat): nat -> nat {
    k => if k == n then 1 else 0
  }

  /** Counts how often `n` is among the numbers `f` finds in an element. */
  function Found<A>(f: A -> seq<nat>, n: nat): A -> nat {
    x => Sum(f(x), Is(n))
  }

  lemma {:induction false} SumFound<A>(xs: seq<A>, f: A -> seq<nat>, n: nat)
    ensures Sum(FlatMap(xs, f), Is(n)) == Sum(xs, Found(f, n))
    decreases |xs|
  {
    if xs != [] {
      var init, last := xs[..|xs| - 1], xs[|xs| - 1];
      SumFound(init, f, n);
      SumAppend(FlatMap(init, f), f(last), Is(n));
      assert xs == init + [last];
      SumPush(init, Found(f, n), last);
    }
  }

  lemma SumFoundAfter<A>(before: seq<nat>, xs: seq<A>, f: A -> seq<nat>, n: nat)
    ensures Sum(before + FlatMap(xs, f), Is(n)) == Sum(before, Is(n)) + Sum(xs, Found(f, n))
  {
    SumAppend(before, FlatMap(xs, f), Is(n));
    SumFound(xs, f, n);
  }
}
