/** Sequence helpers with the meaning of JavaScript's `Array.prototype.filter` and of
    `[...new Set(xs)]` (duplicates dropped, first occurrences kept in order). */
module Lists {

  /** `xs.filter(keep)`. */
  function Filter<T>(xs: seq<T>, keep: T -> bool): (r: seq<T>)
    ensures |r| <= |xs|
    ensures forall i :: 0 <= i < |r| ==> keep(r[i])
  {
    if xs == [] then []
    else Filter(xs[..|xs| - 1], keep) + (if keep(xs[|xs| - 1]) then [xs[|xs| - 1]] else [])
  }

  lemma AppendAssoc<T>(a: seq<T>, b: seq<T>, c: seq<T>)
    ensures a + b + c == a + (b + c)
  {
  }

  lemma AppendNil<T>(a: seq<T>)
    ensures a + [] == a && [] + a == a
  {
  }

  /** `a` is obtained from `b` by deleting elements, keeping the order of the rest. */
  predicate IsSubsequence<T(==)>(a: seq<T>, b: seq<T>)
    decreases |b|
  {
    a == [] || (b != [] && ((a[0] == b[0] && IsSubsequence(a[1..], b[1..])) || IsSubsequence(a, b[1..])))
  }

  lemma {:induction false} SubsequenceSnoc<T>(a: seq<T>, b: seq<T>, x: T)
    requires IsSubsequence(a, b)
    ensures IsSubsequence(a, b + [x]) && IsSubsequence(a + [x], b + [x])
    decreases |b|
  {
    if b == [] {
      assert a == [];
      assert ([x] + [])[1..] == [];
    } else {
      assert (b + [x])[1..] == b[1..] + [x];
      if a == [] {
        SubsequenceSnoc(a, b[1..], x);
      } else if a[0] == b[0] && IsSubsequence(a[1..], b[1..]) {
        SubsequenceSnoc(a[1..], b[1..], x);
        assert (a + [x])[1..] == a[1..] + [x];
      } else {
        SubsequenceSnoc(a, b[1..], x);
      }
    }
  }

  /** A subsequence stays one when the whole grows at the front, with or without
      the new element taken. */
  lemma SubsequenceCons<T>(x: T, a: seq<T>, b: seq<T>)
    requires IsSubsequence(a, b)
    ensures IsSubsequence(a, [x] + b) && IsSubsequence([x] + a, [x] + b)
  {
    assert ([x] + b)[1..] == b;
    assert ([x] + a)[1..] == a;
  }

  lemma {:induction false} SubsequenceOfSelf<T>(b: seq<T>)
    ensures IsSubsequence(b, b)
  {
    if b != [] {
      SubsequenceOfSelf(b[1..]);
    }
  }

  /** Deleting from a deletion is a deletion. */
  lemma {:induction false} SubsequenceTrans<T>(a: seq<T>, b: seq<T>, c: seq<T>)
    requires IsSubsequence(a, b) && IsSubsequence(b, c)
    ensures IsSubsequence(a, c)
    decreases |c|
  {
    if a != [] {
      if IsSubsequence(b, c[1..]) {
        SubsequenceTrans(a, b, c[1..]);
      } else if a[0] == b[0] && IsSubsequence(a[1..], b[1..]) {
        SubsequenceTrans(a[1..], b[1..], c[1..]);
      } else {
        SubsequenceTrans(a, b[1..], c[1..]);
      }
    }
  }

  /** A contiguous slice is a subsequence of the whole. */
  lemma {:induction false} SubsequenceSlice<T>(s: seq<T>, i: nat, j: nat)
    requires i <= j <= |s|
    ensures IsSubsequence(s[i..j], s)
    decreases |s|
  {
    if i > 0 {
      SubsequenceSlice(s[1..], i - 1, j - 1);
      assert s[1..][i - 1..j - 1] == s[i..j];
    } else if j > 0 {
      SubsequenceSlice(s[1..], 0, j - 1);
      assert s[i..j][1..] == s[1..][0..j - 1];
    }
  }

  /** A subsequence as long as the whole is the whole. */
  lemma {:induction false} SubsequenceFull<T>(a: seq<T>, b: seq<T>)
    requires IsSubsequence(a, b) && |a| == |b|
    ensures a == b
    decreases |b|
  {
    if a != [] {
      if a[0] == b[0] && IsSubsequence(a[1..], b[1..]) {
        SubsequenceFull(a[1..], b[1..]);
        assert a == [a[0]] + a[1..] && b == [b[0]] + b[1..];
      } else {
        SubsequenceLength(a, b[1..]);
        assert false;
      }
    }
  }

  /** Deleting never lengthens. */
  lemma {:induction false} SubsequenceLength<T>(a: seq<T>, b: seq<T>)
    requires IsSubsequence(a, b)
    ensures |a| <= |b|
    decreases |b|
  {
    if a != [] {
      if a[0] == b[0] && IsSubsequence(a[1..], b[1..]) {
        SubsequenceLength(a[1..], b[1..]);
      } else {
        SubsequenceLength(a, b[1..]);
      }
    }
  }

  /** Filtering keeps exactly the elements the predicate accepts, in their order. */
  lemma {:induction false} FilterSpec<T>(xs: seq<T>, keep: T -> bool)
    ensures forall x :: x in Filter(xs, keep) ==> x in xs && keep(x)
    ensures forall x :: x in xs && keep(x) ==> x in Filter(xs, keep)
    ensures IsSubsequence(Filter(xs, keep), xs)
  {
    if xs != [] {
      var init := xs[..|xs| - 1];
      var last := xs[|xs| - 1];
      FilterSpec(init, keep);
      assert xs == init + [last];
      if keep(last) {
        SubsequenceSnoc(Filter(init, keep), init, last);
      } else {
        SubsequenceSnoc(Filter(init, keep), init, last);
        assert Filter(xs, keep) == Filter(init, keep);
      }
    } else {
      assert Filter(xs, keep) == [];
    }
  }

  /** `[...new Set(xs)]`. */
  function Distinct<T(==)>(xs: seq<T>): (r: seq<T>)
    ensures |r| <= |xs|
  {
    if xs == [] then []
    else
      var d := Distinct(xs[..|xs| - 1]);
      if xs[|xs| - 1] in d then d else d + [xs[|xs| - 1]]
  }

  predicate NoDuplicates<T(==)>(xs: seq<T>) {
    forall i, j :: 0 <= i < j < |xs| ==> xs[i] != xs[j]
  }

  /** Index of the first occurrence of `x` in `xs`; `|xs|` when there is none. */
  function IndexOf<T(==)>(xs: seq<T>, x: T): (k: nat)
    ensures k <= |xs| && x !in xs[..k]
    ensures k < |xs| <==> x in xs
    ensures k < |xs| ==> xs[k] == x
  {
    if xs == [] then 0
    else if xs[0] == x then 0
    else
      var k := IndexOf(xs[1..], x);
      assert xs[..k + 1] == [xs[0]] + xs[1..][..k];
      assert x in xs ==> x in xs[1..];
      k + 1
  }

  lemma IndexOfPrefix<T>(xs: seq<T>, n: nat, x: T)
    requires n <= |xs| && x in xs[..n]
    ensures IndexOf(xs, x) == IndexOf(xs[..n], x) < n
  {
    var k := IndexOf(xs[..n], x);
    assert xs[k] == x;
    assert xs[..n][..k] == xs[..k];
  }

  lemma DistinctSnoc<T>(xs: seq<T>)
    requires xs != []
    ensures var d := Distinct(xs[..|xs| - 1]);
      Distinct(xs) == if xs[|xs| - 1] in d then d else d + [xs[|xs| - 1]]
  {
  }

  /** One more element: kept when new, dropped when already seen. */
  lemma DistinctAppendOne<T>(xs: seq<T>, x: T)
    ensures Distinct(xs + [x]) == if x in Distinct(xs) then Distinct(xs) else Distinct(xs) + [x]
  {
    assert (xs + [x])[..|xs|] == xs;
  }

  /** `Distinct` keeps exactly the elements of its input. */
  lemma {:induction false} DistinctMembers<T>(xs: seq<T>)
    ensures forall x :: x in Distinct(xs) ==> x in xs
    ensures forall x :: x in xs ==> x in Distinct(xs)
  {
    if xs != [] {
      var init := xs[..|xs| - 1];
      DistinctMembers(init);
      DistinctSnoc(xs);
      assert xs == init + [xs[|xs| - 1]];
    }
  }

  /** No element is kept twice. */
  lemma {:induction false} DistinctNoDuplicates<T>(xs: seq<T>)
    ensures NoDuplicates(Distinct(xs))
  {
    if xs != [] {
      var init := xs[..|xs| - 1];
      DistinctNoDuplicates(init);
      DistinctSnoc(xs);
    }
  }

  /** Positions of first occurrence do not change when the sequence grows at the end. */
  lemma IndexOfInit<T>(init: seq<T>, last: T)
    ensures forall x :: x in init ==> IndexOf(init + [last], x) == IndexOf(init, x) < |init|
  {
    forall x | x in init ensures IndexOf(init + [last], x) == IndexOf(init, x) < |init| {
      assert (init + [last])[..|init|] == init;
      IndexOfPrefix(init + [last], |init|, x);
    }
  }

  /** The kept elements are ordered by their first occurrence in the input. */
  lemma {:induction false} DistinctOrder<T>(xs: seq<T>)
    ensures forall i, j :: 0 <= i < j < |Distinct(xs)| ==>
      IndexOf(xs, Distinct(xs)[i]) < IndexOf(xs, Distinct(xs)[j])
  {
    if xs != [] {
      var init, last := xs[..|xs| - 1], xs[|xs| - 1];
      assert xs == init + [last];
      DistinctOrder(init);
      DistinctMembers(init);
      DistinctSnoc(xs);
      if last !in Distinct(init) {
        DistinctOrderSnoc(init, last);
      } else {
        DistinctOrderKeep(init, last);
      }
    }
  }

  lemma DistinctOrderKeep<T>(init: seq<T>, last: T)
    requires forall x :: x in Distinct(init) ==> x in init
    requires forall i, j :: 0 <= i < j < |Distinct(init)| ==>
      IndexOf(init, Distinct(init)[i]) < IndexOf(init, Distinct(init)[j])
    ensures forall i, j :: 0 <= i < j < |Distinct(init)| ==>
      IndexOf(init + [last], Distinct(init)[i]) < IndexOf(init + [last], Distinct(init)[j])
  {
    IndexOfInit(init, last);
  }

  lemma DistinctOrderSnoc<T>(init: seq<T>, last: T)
    requires forall x :: x in Distinct(init) ==> x in init
    requires forall x :: x in init ==> x in Distinct(init)
    requires forall i, j :: 0 <= i < j < |Distinct(init)| ==>
      IndexOf(init, Distinct(init)[i]) < IndexOf(init, Distinct(init)[j])
    requires last !in Distinct(init)
    ensures var r := Distinct(init) + [last];
      forall i, j :: 0 <= i < j < |r| ==> IndexOf(init + [last], r[i]) < IndexOf(init + [last], r[j])
  {
    var xs := init + [last];
    var d := Distinct(init);
    var r := d + [last];
    IndexOfInit(init, last);
    assert last !in init;
    assert IndexOf(xs, last) == |init| by {
      assert xs[..|init|] == init;
    }
    forall i, j | 0 <= i < j < |r| ensures IndexOf(xs, r[i]) < IndexOf(xs, r[j]) {
      assert r[i] == d[i];
      if j < |d| {
        assert r[j] == d[j];
      }
    }
  }

  /** `Distinct` keeps one copy of every element, no two equal, ordered by first occurrence. */
  lemma DistinctSpec<T>(xs: seq<T>)
    ensures forall x :: x in Distinct(xs) ==> x in xs
    ensures forall x :: x in xs ==> x in Distinct(xs)
    ensures NoDuplicates(Distinct(xs))
    ensures forall i, j :: 0 <= i < j < |Distinct(xs)| ==>
      IndexOf(xs, Distinct(xs)[i]) < IndexOf(xs, Distinct(xs)[j])
  {
    DistinctMembers(xs);
    DistinctNoDuplicates(xs);
    DistinctOrder(xs);
  }

  /** A sequence has as many distinct elements as elements exactly when no element
      repeats. */
  lemma {:induction false} DistinctLength<T>(xs: seq<T>)
    ensures |Distinct(xs)| == |xs| <==> NoDuplicates(xs)
    decreases |xs|
  {
    if xs != [] {
      var init := xs[..|xs| - 1];
      var last := xs[|xs| - 1];
      DistinctLength(init);
      DistinctMembers(init);
      assert forall i :: 0 <= i < |init| ==> init[i] == xs[i];
      if NoDuplicates(xs) {
        assert NoDuplicates(init);
        assert last !in init by {
          forall i | 0 <= i < |init| ensures init[i] != last {
            assert xs[i] != xs[|xs| - 1];
          }
        }
      }
      if |Distinct(xs)| == |xs| {
        assert last !in init;
        assert NoDuplicates(init);
        forall i, j | 0 <= i < j < |xs| ensures xs[i] != xs[j] {
          if j < |xs| - 1 {
            assert init[i] != init[j];
          } else {
            assert xs[i] == init[i];
          }
        }
      }
    }
  }
}
