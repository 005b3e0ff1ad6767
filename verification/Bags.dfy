/** Sequences as bags: arrangements of the same elements, and totals over the elements. */
module Bags {

  function Image<A, B>(f: A -> B, s: seq<A>): seq<B> {
    seq(|s|, i requires 0 <= i < |s| => f(s[i]))
  }

  function Without<A>(s: seq<A>, k: nat): seq<A>
    requires k < |s|
  {
    s[..k] + s[k + 1..]
  }

  /** Where the last element of one arrangement stands in another one. */
  lemma Locate<A>(a: seq<A>, b: seq<A>) returns (k: nat)
    requires a != [] && multiset(a) == multiset(b)
    ensures k < |b| && b[k] == a[|a| - 1]
    ensures multiset(Without(b, k)) == multiset(a[..|a| - 1])
  {
    var front, last := a[..|a| - 1], a[|a| - 1];
    assert a == front + [last];
    assert last in multiset(b);
    k :| 0 <= k < |b| && b[k] == last;
    BagWithout(b, k);
    assert multiset(Without(b, k)) == multiset(b) - multiset{last} == multiset(front);
  }

  lemma BagWithout<A>(s: seq<A>, k: nat)
    requires k < |s|
    ensures multiset(s) == multiset(Without(s, k)) + multiset{s[k]}
  {
    assert s == s[..k] + [s[k]] + s[k + 1..];
  }

  lemma {:induction false} ImagesOfArrangements<A, B>(f: A -> B, a: seq<A>, b: seq<A>)
    requires multiset(a) == multiset(b)
    ensures multiset(Image(f, a)) == multiset(Image(f, b))
  {
    if a == [] {
      assert |multiset(b)| == 0;
      assert b == [];
    } else {
      var k := Locate(a, b);
      ImagesOfArrangements(f, a[..|a| - 1], Without(b, k));
      assert Image(f, a)[..|a| - 1] == Image(f, a[..|a| - 1]);
      BagWithout(Image(f, a), |a| - 1);
      assert Without(Image(f, a), |a| - 1) == Image(f, a)[..|a| - 1];
      BagWithout(Image(f, b), k);
      assert Without(Image(f, b), k) == Image(f, Without(b, k));
    }
  }

  /** The sum of the weights of all elements. */
  function Total<A>(s: seq<A>, weight: A -> nat): nat {
    if s == [] then 0 else Total(s[..|s| - 1], weight) + weight(s[|s| - 1])
  }

  lemma {:induction false} TotalAfterUpdate<A>(s: seq<A>, weight: A -> nat, k: nat, x: A)
    requires k < |s|
    ensures Total(s[k := x], weight) + weight(s[k]) == Total(s, weight) + weight(x)
  {
    var last := |s| - 1;
    if k < last {
      TotalAfterUpdate(s[..last], weight, k, x);
      assert s[k := x][..last] == s[..last][k := x];
    } else {
      assert s[k := x][..last] == s[..last];
    }
  }

  lemma {:induction false} TotalOfNothing<A>(s: seq<A>, weight: A -> nat)
    requires forall i | 0 <= i < |s| :: weight(s[i]) == 0
    ensures Total(s, weight) == 0
  {
    if s != [] { TotalOfNothing(s[..|s| - 1], weight); }
  }

  /** A positive total has a positive contribution. */
  lemma {:induction false} SomeWeight<A>(s: seq<A>, weight: A -> nat) returns (k: nat)
    requires Total(s, weight) > 0
    ensures k < |s| && weight(s[k]) > 0
  {
    if weight(s[|s| - 1]) > 0 {
      k := |s| - 1;
    } else {
      k := SomeWeight(s[..|s| - 1], weight);
    }
  }
}
