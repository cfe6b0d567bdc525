/**
 * The two list shapes the components use: `Array.prototype.filter`, and a
 * scan that emits zero or more items per element, in order.
 */
module Seqs {
  /** `s.filter(p)`. */
  function Filter<T>(s: seq<T>, p: T -> bool): (r: seq<T>)
    ensures |r| <= |s|
  {
    if s == [] then [] else (if p(s[0]) then [s[0]] else []) + Filter(s[1..], p)
  }

  /** An element is in the output exactly when it is in the input and passes the test. */
  lemma {:induction false} FilterMember<T>(s: seq<T>, p: T -> bool, x: T)
    ensures x in Filter(s, p) <==> x in s && p(x)
  {
    if s != [] {
      FilterMember(s[1..], p, x);
      assert s == [s[0]] + s[1..];
    }
  }

  /** `FilterMember` for every element at once. */
  lemma FilterMembers<T>(s: seq<T>, p: T -> bool)
    ensures forall x :: x in Filter(s, p) <==> x in s && p(x)
  {
    forall x
      ensures x in Filter(s, p) <==> x in s && p(x)
    {
      FilterMember(s, p, x);
    }
  }

  /** Filtering distributes over concatenation, so the output keeps the input order. */
  lemma {:induction false} FilterAppend<T>(a: seq<T>, b: seq<T>, p: T -> bool)
    ensures Filter(a + b, p) == Filter(a, p) + Filter(b, p)
  {
    if a == [] {
      assert a + b == b;
    } else {
      var c := a + b;
      assert c[0] == a[0];
      assert c[1..] == a[1..] + b;
      var head := if p(a[0]) then [a[0]] else [];
      var fa, fb := Filter(a[1..], p), Filter(b, p);
      FilterAppend(a[1..], b, p);
      assert Filter(c, p) == head + (fa + fb);
      assert Filter(a, p) == head + fa;
      assert head + (fa + fb) == (head + fa) + fb;
    }
  }

  /** When every element passes, the filter returns its input. */
  lemma {:induction false} FilterAllPass<T>(s: seq<T>, p: T -> bool)
    requires forall i :: 0 <= i < |s| ==> p(s[i])
    ensures Filter(s, p) == s
  {
    if s != [] {
      FilterAllPass(s[1..], p);
    }
  }

  /** The concatenation of `step(x)` over the elements, in order. */
  function Collect<T, U>(s: seq<T>, step: T -> seq<U>): seq<U> {
    if s == [] then [] else step(s[0]) + Collect(s[1..], step)
  }

  lemma {:induction false} CollectAppend<T, U>(a: seq<T>, b: seq<T>, step: T -> seq<U>)
    ensures Collect(a + b, step) == Collect(a, step) + Collect(b, step)
  {
    if a == [] {
      assert a + b == b;
    } else {
      assert (a + b)[0] == a[0];
      assert (a + b)[1..] == a[1..] + b;
      CollectAppend(a[1..], b, step);
    }
  }

  /** Handling one more element appends that element's items. */
  lemma CollectSnoc<T, U>(s: seq<T>, i: nat, step: T -> seq<U>)
    requires i < |s|
    ensures Collect(s[..i + 1], step) == Collect(s[..i], step) + step(s[i])
  {
    assert s[..i + 1] == s[..i] + [s[i]];
    assert [s[i]][1..] == [];
    CollectAppend(s[..i], [s[i]], step);
  }

  /** When no element emits anything, nothing comes out. */
  lemma {:induction false} CollectNone<T, U>(s: seq<T>, step: T -> seq<U>)
    requires forall i :: 0 <= i < |s| ==> step(s[i]) == []
    ensures Collect(s, step) == []
  {
    if s != [] {
      CollectNone(s[1..], step);
    }
  }

  /** When only the element at `j` emits anything, the output is its items. */
  lemma {:induction false} CollectSingle<T, U>(s: seq<T>, j: nat, step: T -> seq<U>)
    requires j < |s|
    requires forall i :: 0 <= i < |s| && i != j ==> step(s[i]) == []
    ensures Collect(s, step) == step(s[j])
  {
    var rest := s[1..];
    assert forall i :: 0 <= i < |rest| ==> rest[i] == s[i + 1];
    if j == 0 {
      CollectNone(rest, step);
      assert Collect(s, step) == step(s[0]) + [];
    } else {
      CollectSingle(rest, j - 1, step);
      assert Collect(s, step) == [] + step(s[j]);
    }
  }
}
