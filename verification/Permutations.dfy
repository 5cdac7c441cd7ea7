/** Mapping and permuting sequences. */
module Permutations {

  function Map<A, B>(f: A -> B, s: seq<A>): seq<B> {
    if s == [] then [] else [f(s[0])] + Map(f, s[1..])
  }

  lemma {:induction false} MapSplit<A, B>(f: A -> B, a: seq<A>, b: seq<A>)
    ensures Map(f, a + b) == Map(f, a) + Map(f, b)
  {
    if a == [] {
      assert a + b == b;
    } else {
      assert (a + b)[1..] == a[1..] + b;
      MapSplit(f, a[1..], b);
    }
  }

  lemma {:induction false} MapAt<A, B>(f: A -> B, s: seq<A>, k: nat)
    requires k < |s|
    ensures |Map(f, s)| == |s| && Map(f, s)[k] == f(s[k])
  {
    if k > 0 {
      MapAt(f, s[1..], k - 1);
    } else if |s| > 1 {
      MapAt(f, s[1..], 0);
    }
  }

  lemma MapLength<A, B>(f: A -> B, s: seq<A>)
    ensures |Map(f, s)| == |s|
  {
  }

  function Without<T>(s: seq<T>, k: nat): seq<T>
    requires k < |s|
  {
    s[..k] + s[k + 1..]
  }

  lemma WithoutMultiset<T>(s: seq<T>, k: nat)
    requires k < |s|
    ensures multiset(s) == multiset(Without(s, k)) + multiset{s[k]}
  {
    assert s == s[..k] + ([s[k]] + s[k + 1..]);
  }

  lemma MapWithout<A, B>(f: A -> B, s: seq<A>, k: nat)
    requires k < |s|
    ensures multiset(Map(f, s)) == multiset(Map(f, Without(s, k))) + multiset{f(s[k])}
  {
    MapAround(f, s, k);
    MapSplit(f, s[..k], s[k + 1..]);
  }

  lemma MapAround<A, B>(f: A -> B, s: seq<A>, k: nat)
    requires k < |s|
    ensures Map(f, s) == Map(f, s[..k]) + ([f(s[k])] + Map(f, s[k + 1..]))
  {
    assert s == s[..k] + ([s[k]] + s[k + 1..]);
    MapSplit(f, s[..k], [s[k]] + s[k + 1..]);
    assert ([s[k]] + s[k + 1..])[1..] == s[k + 1..];
  }

  lemma Cancel<T>(a: multiset<T>, b: multiset<T>, x: T)
    requires a + multiset{x} == b + multiset{x}
    ensures a == b
  {
    assert a == (a + multiset{x}) - multiset{x} && b == (b + multiset{x}) - multiset{x};
  }

  /** A permutation of a non-empty list holds its head somewhere. */
  lemma FindHead<T>(a: seq<T>, b: seq<T>) returns (k: nat)
    requires a != [] && multiset(a) == multiset(b)
    ensures k < |b| && b[k] == a[0] && multiset(a[1..]) == multiset(Without(b, k))
  {
    assert a[0] in multiset(b);
    k :| 0 <= k < |b| && b[k] == a[0];
    WithoutMultiset(b, k);
    WithoutMultiset(a, 0);
    assert Without(a, 0) == a[1..];
    Cancel(multiset(a[1..]), multiset(Without(b, k)), a[0]);
  }

  lemma EmptyMultiset<T>(a: seq<T>, b: seq<T>)
    requires multiset(a) == multiset(b)
    ensures |a| == |b|
  {
    assert |multiset(a)| == |a| && |multiset(b)| == |b|;
  }

  lemma {:induction false} MapPermutation<A, B>(f: A -> B, a: seq<A>, b: seq<A>)
    requires multiset(a) == multiset(b)
    ensures multiset(Map(f, a)) == multiset(Map(f, b))
  {
    EmptyMultiset(a, b);
    if a != [] {
      var k := FindHead(a, b);
      MapPermutation(f, a[1..], Without(b, k));
      MapWithout(f, b, k);
    }
  }

  lemma {:induction false} FindImage<A, B>(f: A -> B, s: seq<A>, y: B) returns (k: nat)
    requires y in Map(f, s)
    ensures k < |s| && f(s[k]) == y
  {
    if f(s[0]) == y {
      k := 0;
    } else {
      k := FindImage(f, s[1..], y);
      k := k + 1;
    }
  }

  lemma ImageTail<A, B>(f: A -> B, s: seq<A>, k: nat, image: seq<B>)
    requires k < |s| && image != [] && image[0] == f(s[k])
    requires multiset(image) == multiset(Map(f, s))
    ensures multiset(image[1..]) == multiset(Map(f, Without(s, k)))
  {
    MapWithout(f, s, k);
    WithoutMultiset(image, 0);
    assert Without(image, 0) == image[1..];
    Cancel(multiset(image[1..]), multiset(Map(f, Without(s, k))), image[0]);
  }

  lemma PutBack<A, B>(f: A -> B, s: seq<A>, k: nat, q: seq<A>, image: seq<B>)
    requires k < |s| && image != [] && image[0] == f(s[k])
    requires multiset(q) == multiset(Without(s, k)) && Map(f, q) == image[1..]
    ensures multiset([s[k]] + q) == multiset(s) && Map(f, [s[k]] + q) == image
  {
    WithoutMultiset(s, k);
    assert ([s[k]] + q)[1..] == q;
    assert image == [image[0]] + image[1..];
  }

  /** A permutation of mapped items is the map of a permutation of the items. */
  lemma {:induction false} Preimage<A, B>(f: A -> B, s: seq<A>, image: seq<B>) returns (p: seq<A>)
    requires multiset(image) == multiset(Map(f, s))
    ensures Map(f, p) == image && multiset(p) == multiset(s)
  {
    EmptyMultiset(image, Map(f, s));
    if image == [] {
      p := [];
      assert s == [];
    } else {
      assert image[0] in multiset(image);
      assert image[0] in Map(f, s);
      var k := FindImage(f, s, image[0]);
      ImageTail(f, s, k, image);
      var q := Preimage(f, Without(s, k), image[1..]);
      p := [s[k]] + q;
      PutBack(f, s, k, q, image);
    }
  }
}
