/** Sequence helpers shared by the model: list comprehensions with a
    condition, the position of the first match, and sums of reals. */
module Seqs {

  /** The elements of `s` that satisfy `p`, in their original order
      (`[x for x in s if p(x)]`). */
  function Filter<T>(s: seq<T>, p: T -> bool): (r: seq<T>)
    ensures |r| <= |s|
    decreases |s|
  {
    if s == [] then [] else (if p(s[0]) then [s[0]] else []) + Filter(s[1..], p)
  }

  lemma {:induction false} FilterMembership<T>(s: seq<T>, p: T -> bool, x: T)
    ensures x in Filter(s, p) <==> x in s && p(x)
    decreases |s|
  {
    if s != [] {
      FilterMembership(s[1..], p, x);
      assert s == [s[0]] + s[1..];
    }
  }

  /** The same for every element at once. */
  lemma FilterMembershipAll<T>(s: seq<T>, p: T -> bool)
    ensures forall x :: x in Filter(s, p) <==> x in s && p(x)
  {
    forall x ensures x in Filter(s, p) <==> x in s && p(x) {
      FilterMembership(s, p, x);
    }
  }

  /** Filtering commutes with concatenation, so the kept elements stay in order. */
  lemma {:induction false} FilterAppend<T>(a: seq<T>, b: seq<T>, p: T -> bool)
    ensures Filter(a + b, p) == Filter(a, p) + Filter(b, p)
    decreases |a|
  {
    if a == [] {
      assert a + b == b;
    } else {
      var head := if p(a[0]) then [a[0]] else [];
      assert (a + b)[0] == a[0];
      assert (a + b)[1..] == a[1..] + b;
      FilterAppend(a[1..], b, p);
      calc {
        Filter(a + b, p);
        head + Filter(a[1..] + b, p);
        head + (Filter(a[1..], p) + Filter(b, p));
        (head + Filter(a[1..], p)) + Filter(b, p);
        Filter(a, p) + Filter(b, p);
      }
    }
  }

  /** One more step of a left-to-right scan. */
  lemma FilterSnoc<T>(s: seq<T>, i: nat, p: T -> bool)
    requires i < |s|
    ensures Filter(s[..i + 1], p) == Filter(s[..i], p) + (if p(s[i]) then [s[i]] else [])
  {
    assert s[..i + 1] == s[..i] + [s[i]];
    FilterAppend(s[..i], [s[i]], p);
    assert [s[i]][1..] == [];
  }

  /** Every element that survives the filter satisfies `p`. */
  lemma FilterAll<T>(s: seq<T>, p: T -> bool)
    ensures forall k :: 0 <= k < |Filter(s, p)| ==> p(Filter(s, p)[k])
  {
    forall k | 0 <= k < |Filter(s, p)| ensures p(Filter(s, p)[k]) {
      FilterMembership(s, p, Filter(s, p)[k]);
    }
  }

  /** The position of the first element satisfying `p`, or `|s|` when none does. */
  function FirstIndex<T>(s: seq<T>, p: T -> bool): (k: nat)
    ensures k <= |s|
    ensures k < |s| ==> p(s[k])
    ensures forall j :: 0 <= j < k ==> !p(s[j])
    decreases |s|
  {
    if s == [] then 0 else if p(s[0]) then 0 else 1 + FirstIndex(s[1..], p)
  }

  /** The filter is empty exactly when nothing matches. */
  lemma FilterEmpty<T>(s: seq<T>, p: T -> bool)
    ensures Filter(s, p) == [] <==> forall i :: 0 <= i < |s| ==> !p(s[i])
  {
    if Filter(s, p) != [] {
      FilterMembership(s, p, Filter(s, p)[0]);
    }
    forall i | 0 <= i < |s| && p(s[i]) ensures Filter(s, p) != [] {
      FilterMembership(s, p, s[i]);
    }
  }

  /** The head of the filter is the first match. */
  lemma {:induction false} FilterHead<T>(s: seq<T>, p: T -> bool)
    ensures Filter(s, p) != [] <==> FirstIndex(s, p) < |s|
    ensures Filter(s, p) != [] ==> Filter(s, p)[0] == s[FirstIndex(s, p)]
    decreases |s|
  {
    if s != [] && !p(s[0]) {
      FilterHead(s[1..], p);
    }
  }

  /** Two matching positions keep at least two elements. */
  lemma FilterTwoFromPositions<T>(s: seq<T>, p: T -> bool, i: nat, j: nat)
    requires i < j < |s| && p(s[i]) && p(s[j])
    ensures |Filter(s, p)| >= 2
  {
    assert s == s[..j] + s[j..];
    FilterAppend(s[..j], s[j..], p);
    assert s[..j][i] == s[i];
    FilterMembership(s[..j], p, s[i]);
    assert s[j..][0] == s[j];
    FilterMembership(s[j..], p, s[j]);
  }

  /** At least two kept elements come from two matching positions. */
  lemma FilterTwoGivesPositions<T>(s: seq<T>, p: T -> bool) returns (i: nat, j: nat)
    requires |Filter(s, p)| >= 2
    ensures i < j < |s| && p(s[i]) && p(s[j])
  {
    FilterHead(s, p);
    i := FirstIndex(s, p);
    assert s == s[..i] + ([s[i]] + s[i + 1..]);
    FilterAppend(s[..i], [s[i]] + s[i + 1..], p);
    FilterAppend([s[i]], s[i + 1..], p);
    FilterEmpty(s[..i], p);
    assert Filter([s[i]], p) == [s[i]];
    var rest := s[i + 1..];
    assert Filter(rest, p) != [];
    FilterEmpty(rest, p);
    var j' :| 0 <= j' < |rest| && p(rest[j']);
    j := i + 1 + j';
  }

  /** At least two elements are kept exactly when two positions match. */
  lemma FilterAtLeastTwo<T>(s: seq<T>, p: T -> bool)
    ensures |Filter(s, p)| >= 2 <==>
            exists i, j :: 0 <= i < j < |s| && p(s[i]) && p(s[j])
  {
    if exists i, j :: 0 <= i < j < |s| && p(s[i]) && p(s[j]) {
      var i, j :| 0 <= i < j < |s| && p(s[i]) && p(s[j]);
      FilterTwoFromPositions(s, p, i, j);
    }
    if |Filter(s, p)| >= 2 {
      var i, j := FilterTwoGivesPositions(s, p);
    }
  }

  /** Pre-filtering by a weaker condition changes nothing. */
  lemma {:induction false} FilterFilter<T>(s: seq<T>, p: T -> bool, q: T -> bool)
    requires forall x :: p(x) ==> q(x)
    ensures Filter(Filter(s, q), p) == Filter(s, p)
    decreases |s|
  {
    if s != [] {
      FilterFilter(s[1..], p, q);
      var fq := Filter(s, q);
      if q(s[0]) {
        assert fq == [s[0]] + Filter(s[1..], q);
        assert fq[0] == s[0] && fq[1..] == Filter(s[1..], q);
        assert Filter(fq, p) == (if p(s[0]) then [s[0]] else []) + Filter(fq[1..], p);
      } else {
        assert !p(s[0]);
        assert fq == Filter(s[1..], q);
      }
    }
  }

  /** Filtering depends only on which elements the condition accepts. */
  lemma {:induction false} FilterSameCondition<T>(s: seq<T>, p: T -> bool, q: T -> bool)
    requires forall x :: p(x) == q(x)
    ensures Filter(s, p) == Filter(s, q)
    decreases |s|
  {
    if s != [] {
      FilterSameCondition(s[1..], p, q);
    }
  }

  /** `sum(xs)` over reals, accumulated left to right. */
  function Sum(xs: seq<real>): real
  {
    if xs == [] then 0.0 else Sum(xs[..|xs| - 1]) + xs[|xs| - 1]
  }

  lemma SumSnoc(xs: seq<real>, x: real)
    ensures Sum(xs + [x]) == Sum(xs) + x
  {
    assert (xs + [x])[..|xs|] == xs;
  }
}
