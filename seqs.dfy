/**
 * Facts about the ordered, duplicate-free element list the manager keeps
 * (`observableCache` in the hook): its element set, the absence of
 * duplicates, and `Array.prototype.filter` with a "not this node" test.
 */
module Seqs {

  /** No element occurs twice. */
  ghost predicate NoDup<T>(s: seq<T>) {
    forall i, j :: 0 <= i < j < |s| ==> s[i] != s[j]
  }

  /** The set of elements of a sequence. */
  ghost function Elems<T>(s: seq<T>): set<T> {
    set x | x in s
  }

  /**
   * `a` is obtained from `b` by deleting some entries and keeping the
   * order of the rest.
   */
  ghost predicate IsSubseq<T>(a: seq<T>, b: seq<T>)
    decreases |b|
  {
    if a == [] then true
    else if b == [] then false
    else if a[0] == b[0] then IsSubseq(a[1..], b[1..])
    else IsSubseq(a, b[1..])
  }

  /**
   * `s.filter(y => y !== x)`: every occurrence of `x` is dropped, every
   * other entry is kept, in its original order.
   */
  function Without<T(==)>(s: seq<T>, x: T): (r: seq<T>)
    ensures multiset(r) == multiset(s)[x := 0]
    ensures IsSubseq(r, s)
    ensures x !in s ==> r == s
  {
    if s == [] then []
    else
      assert s == [s[0]] + s[1..];
      var rest := Without(s[1..], x);
      if s[0] == x then
        assert multiset(rest)[x] == 0;
        rest
      else
        assert ([s[0]] + rest)[1..] == rest;
        [s[0]] + rest
  }

  /** Filtering removes exactly `x` from the element set. */
  lemma WithoutElems<T>(s: seq<T>, x: T)
    ensures x !in Without(s, x)
    ensures Elems(Without(s, x)) == Elems(s) - {x}
  {
    var r := Without(s, x);
    assert multiset(r)[x] == 0;
    forall y ensures y in Elems(r) <==> y in Elems(s) - {x} {
      assert y in r <==> multiset(r)[y] > 0;
      assert y in s <==> multiset(s)[y] > 0;
      if y != x { assert multiset(r)[y] == multiset(s)[y]; }
    }
    assert Elems(r) == Elems(s) - {x};
  }

  lemma NoDupCons<T>(a: T, t: seq<T>)
    requires NoDup(t) && a !in t
    ensures NoDup([a] + t)
  {
  }

  /** Filtering a duplicate-free sequence leaves it duplicate-free. */
  lemma {:induction false} WithoutNoDup<T>(s: seq<T>, x: T)
    requires NoDup(s)
    ensures NoDup(Without(s, x))
  {
    if s != [] {
      var t := s[1..];
      assert NoDup(t) by {
        forall i, j | 0 <= i < j < |t| ensures t[i] != t[j] {
          assert t[i] == s[i + 1] && t[j] == s[j + 1];
        }
      }
      WithoutNoDup(t, x);
      if s[0] != x {
        WithoutElems(t, x);
        assert s[0] !in t by {
          forall j | 0 <= j < |t| ensures t[j] != s[0] { assert t[j] == s[j + 1]; }
        }
        assert s[0] !in Elems(Without(t, x));
        NoDupCons(s[0], Without(t, x));
      }
    }
  }

  /** Appending a new entry keeps a list duplicate-free and adds exactly that entry to its set. */
  lemma ElemsPush<T>(s: seq<T>, n: T)
    requires NoDup(s) && n !in s
    ensures NoDup(s + [n]) && Elems(s + [n]) == Elems(s) + {n}
  {
  }
}
