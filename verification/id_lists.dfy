/**
 * The two list operations the selection engine is built from
 * (src/components/TestPlanTree.tsx): "push the id unless it is already
 * included" and "filter the id out". Ids are kept in arrays, so order matters.
 */
module IdLists {

  /** Node identifiers are strings. */
  type Id = string

  /** No element occurs twice. */
  ghost predicate Distinct(xs: seq<Id>) {
    forall i, j :: 0 <= i < j < |xs| ==> xs[i] != xs[j]
  }

  /**
   * `a` can be obtained from `b` by deleting elements: the elements of `a`
   * occur in `b` in the same relative order.
   */
  ghost predicate IsSubsequence(a: seq<Id>, b: seq<Id>) {
    if b == [] then a == []
    else (a != [] && a[0] == b[0] && IsSubsequence(a[1..], b[1..])) || IsSubsequence(a, b[1..])
  }

  /** `if (!xs.includes(y)) xs.push(y)` */
  function Push(xs: seq<Id>, y: Id): (r: seq<Id>)
    ensures y in r && xs <= r
    ensures forall x :: x in r <==> x in xs || x == y
    ensures Distinct(xs) ==> Distinct(r)
  {
    if y in xs then xs else xs + [y]
  }

  /**
   * The effect of pushing every element of `ys`, in order, unless already
   * present: the result extends `xs` and holds exactly the elements of both.
   */
  function AddAll(xs: seq<Id>, ys: seq<Id>): (r: seq<Id>)
    ensures xs <= r
    ensures forall x :: x in r <==> x in xs || x in ys
    ensures Distinct(xs) ==> Distinct(r)
  {
    if ys == [] then xs else Push(AddAll(xs, ys[..|ys| - 1]), ys[|ys| - 1])
  }

  /**
   * `xs.filter(x => !ys.includes(x))`: the elements of `xs` not in `ys`, in
   * their original order.
   */
  function RemoveAll(xs: seq<Id>, ys: seq<Id>): (r: seq<Id>)
    ensures forall x :: x in r <==> x in xs && x !in ys
    ensures IsSubsequence(r, xs)
    ensures Distinct(xs) ==> Distinct(r)
  {
    if xs == [] then []
    else
      var rest := RemoveAll(xs[1..], ys);
      assert forall x :: x in rest ==> x in xs[1..];
      if xs[0] in ys then rest
      else
        var r := [xs[0]] + rest;
        assert r[1..] == rest;
        r
  }

  /** Pushing a sequence in two pieces is pushing it whole. */
  lemma {:induction false} AddAllConcat(xs: seq<Id>, a: seq<Id>, b: seq<Id>)
    ensures AddAll(AddAll(xs, a), b) == AddAll(xs, a + b)
    decreases |b|
  {
    if b == [] {
      assert a + b == a;
    } else {
      var last := |b| - 1;
      AddAllConcat(xs, a, b[..last]);
      assert (a + b)[..|a + b| - 1] == a + b[..last];
      assert (a + b)[|a + b| - 1] == b[last];
    }
  }

  /** Pushing elements that are all present already changes nothing. */
  lemma {:induction false} AddAllPresent(xs: seq<Id>, ys: seq<Id>)
    requires forall y :: y in ys ==> y in xs
    ensures AddAll(xs, ys) == xs
    decreases |ys|
  {
    if ys != [] {
      var init := ys[..|ys| - 1];
      assert forall y :: y in init ==> y in ys;
      AddAllPresent(xs, init);
      assert ys[|ys| - 1] in ys;
    }
  }

  /** Pushing distinct elements that are all new appends them. */
  lemma {:induction false} AddAllFresh(xs: seq<Id>, ys: seq<Id>)
    requires Distinct(ys)
    requires forall y :: y in ys ==> y !in xs
    ensures AddAll(xs, ys) == xs + ys
    decreases |ys|
  {
    if ys != [] {
      var init := ys[..|ys| - 1];
      FreshSplit(xs, ys);
      AddAllFresh(xs, init);
      assert init + [ys[|ys| - 1]] == ys;
    }
  }

  /** Dropping the last of distinct new elements leaves distinct new elements, none equal to it. */
  lemma FreshSplit(xs: seq<Id>, ys: seq<Id>)
    requires ys != [] && Distinct(ys)
    requires forall y :: y in ys ==> y !in xs
    ensures Distinct(ys[..|ys| - 1]) && forall y :: y in ys[..|ys| - 1] ==> y !in xs
    ensures ys[|ys| - 1] !in xs + ys[..|ys| - 1]
  {
    var init := ys[..|ys| - 1];
    assert forall k :: 0 <= k < |init| ==> init[k] == ys[k];
    assert forall y :: y in init ==> y in ys;
    assert ys[|ys| - 1] in ys;
  }

  /** An element appended and then filtered out leaves only the filter of the rest. */
  lemma {:induction false} RemoveAllOfSnoc(xs: seq<Id>, y: Id, zs: seq<Id>)
    requires y in zs
    ensures RemoveAll(xs + [y], zs) == RemoveAll(xs, zs)
    decreases |xs|
  {
    if xs == [] {
      assert RemoveAll([y], zs) == RemoveAll([], zs);
    } else {
      assert (xs + [y])[0] == xs[0] && (xs + [y])[1..] == xs[1..] + [y];
      RemoveAllOfSnoc(xs[1..], y, zs);
    }
  }

  /** Filtering out a superset of what was pushed undoes the push. */
  lemma {:induction false} RemoveAllOfAddAll(xs: seq<Id>, ys: seq<Id>, zs: seq<Id>)
    requires forall y :: y in ys ==> y in zs
    ensures RemoveAll(AddAll(xs, ys), zs) == RemoveAll(xs, zs)
    decreases |ys|
  {
    if ys != [] {
      var init, last := ys[..|ys| - 1], ys[|ys| - 1];
      assert forall y :: y in init ==> y in ys;
      RemoveAllOfAddAll(xs, init, zs);
      if last !in AddAll(xs, init) {
        assert last in ys;
        RemoveAllOfSnoc(AddAll(xs, init), last, zs);
      }
    }
  }

  /** Filtering twice is filtering by the union of both lists. */
  lemma {:induction false} RemoveAllConcat(xs: seq<Id>, a: seq<Id>, b: seq<Id>)
    ensures RemoveAll(RemoveAll(xs, a), b) == RemoveAll(xs, a + b)
    decreases |xs|
  {
    if xs != [] {
      RemoveAllConcat(xs[1..], a, b);
      var inner := RemoveAll(xs, a);
      if xs[0] !in a {
        assert inner[0] == xs[0] && inner[1..] == RemoveAll(xs[1..], a);
      }
    }
  }

  /** The filter depends only on which elements the second list holds. */
  lemma {:induction false} RemoveAllSameMembers(xs: seq<Id>, a: seq<Id>, b: seq<Id>)
    requires forall y :: y in a <==> y in b
    ensures RemoveAll(xs, a) == RemoveAll(xs, b)
    decreases |xs|
  {
    if xs != [] {
      RemoveAllSameMembers(xs[1..], a, b);
    }
  }

  /** Filtering out elements that do not occur changes nothing. */
  lemma {:induction false} RemoveAllAbsent(xs: seq<Id>, ys: seq<Id>)
    requires forall y :: y in ys ==> y !in xs
    ensures RemoveAll(xs, ys) == xs
    decreases |xs|
  {
    if xs != [] {
      assert xs[0] in xs;
      RemoveAllAbsent(xs[1..], ys);
      assert [xs[0]] + xs[1..] == xs;
    }
  }

  /** A sequence extended at its end keeps every element in order. */
  lemma {:induction false} PrefixIsSubsequence(a: seq<Id>, b: seq<Id>)
    requires a <= b
    ensures IsSubsequence(a, b)
    decreases |b|
  {
    if b != [] {
      if a == [] {
        PrefixIsSubsequence(a, b[1..]);
      } else {
        PrefixIsSubsequence(a[1..], b[1..]);
      }
    }
  }

  /** Removing exactly the ids after position `n` of a list without repeats keeps the first `n`. */
  lemma {:induction false} RemoveAllPrefixKept(xs: seq<Id>, n: nat)
    requires n <= |xs| && Distinct(xs)
    ensures RemoveAll(xs, xs[n..]) == xs[..n]
  {
    if n == 0 {
      assert xs[0..] == xs;
      RemoveAllCovered(xs, xs);
    } else {
      RemoveAllPrefixKept(xs[1..], n - 1);
      assert xs[1..][n - 1..] == xs[n..];
      assert xs[0] !in xs[n..];
      assert xs[..n] == [xs[0]] + xs[1..][..n - 1];
    }
  }

  /** Removing a list of ids that covers every element leaves nothing. */
  lemma {:induction false} RemoveAllCovered(xs: seq<Id>, ys: seq<Id>)
    requires forall x :: x in xs ==> x in ys
    ensures RemoveAll(xs, ys) == []
  {
    if xs != [] {
      assert xs[0] in xs;
      RemoveAllCovered(xs[1..], ys);
    }
  }
}
