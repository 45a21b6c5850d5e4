/** itertools.combinations(xs, k), which the generator uses to choose the
    attachments of a sequence of triplets or of a quad: every choice of k
    elements of xs, keeping their order in xs, listed in lexicographic order of
    their positions. */
module Choices {
  import opened Ranks

  /** [x] + c for every c of cs, in order. */
  function PrependAll<T>(x: T, cs: seq<seq<T>>): (r: seq<seq<T>>)
    ensures |r| == |cs|
    ensures forall i | 0 <= i < |cs| :: r[i] == [x] + cs[i]
  {
    seq(|cs|, i requires 0 <= i < |cs| => [x] + cs[i])
  }

  /** combinations(xs, k): the choices that take xs[0] come first, then those
      that skip it. */
  function Combinations<T>(xs: seq<T>, k: nat): (r: seq<seq<T>>)
    ensures r != [] <==> k <= |xs|
    decreases |xs|
  {
    if k == 0 then [[]]
    else if |xs| < k then []
    else PrependAll(xs[0], Combinations(xs[1..], k - 1)) + Combinations(xs[1..], k)
  }

  /** Each combination takes k elements of xs. */
  lemma {:induction false} CombinationsMembers<T>(xs: seq<T>, k: nat, c: seq<T>)
    requires c in Combinations(xs, k)
    ensures |c| == k && forall x | x in c :: x in xs
    decreases |xs|
  {
    if k > 0 {
      var rest := Combinations(xs[1..], k - 1);
      var withFirst := PrependAll(xs[0], rest);
      if c in withFirst {
        var i :| 0 <= i < |withFirst| && withFirst[i] == c;
        assert rest[i] in rest;
        CombinationsMembers(xs[1..], k - 1, rest[i]);
        assert c == [xs[0]] + rest[i];
      } else {
        CombinationsMembers(xs[1..], k, c);
      }
    }
  }

  /** a comes before b in lexicographic order. */
  predicate LexLess(a: seq<Card>, b: seq<Card>) {
    |a| > 0 && |b| > 0 && (a[0] < b[0] || (a[0] == b[0] && LexLess(a[1..], b[1..])))
  }

  predicate LexSorted(cs: seq<seq<Card>>) {
    forall i, j | 0 <= i < j < |cs| :: LexLess(cs[i], cs[j])
  }

  lemma LexLessIrreflexive(a: seq<Card>)
    ensures !LexLess(a, a)
  {
    if |a| > 0 {
      LexLessIrreflexive(a[1..]);
    }
  }

  lemma IncreasingTail(xs: seq<Card>)
    requires Increasing(xs) && |xs| > 0
    ensures Increasing(xs[1..]) && forall x | x in xs[1..] :: xs[0] < x
  {
    forall x | x in xs[1..] ensures xs[0] < x {
      var i :| 0 <= i < |xs[1..]| && xs[1..][i] == x;
      assert xs[i + 1] == x;
    }
  }

  lemma PrependIncreasing(x: Card, d: seq<Card>)
    requires Increasing(d) && forall y | y in d :: x < y
    ensures Increasing([x] + d)
  {
    var c := [x] + d;
    forall a, b | 0 <= a < b < |c| ensures c[a] < c[b] {
      assert c[b] == d[b - 1] && d[b - 1] in d;
      if a > 0 {
        assert c[a] == d[a - 1];
      }
    }
  }

  /** The head of an increasing list followed by an increasing combination of
      its tail is increasing. */
  lemma FirstThenCombination(xs: seq<Card>, k: nat, d: seq<Card>)
    requires Increasing(xs) && |xs| > 0 && k > 0
    requires d in Combinations(xs[1..], k - 1) && Increasing(d)
    ensures Increasing([xs[0]] + d)
  {
    IncreasingTail(xs);
    CombinationsMembers(xs[1..], k - 1, d);
    forall y | y in d ensures xs[0] < y {
      assert y in xs[1..];
    }
    PrependIncreasing(xs[0], d);
  }

  /** Each combination of an increasing list is increasing. */
  lemma {:induction false} CombinationsIncreasing(xs: seq<Card>, k: nat)
    requires Increasing(xs)
    ensures forall c | c in Combinations(xs, k) :: Increasing(c)
    decreases |xs|
  {
    if k == 0 {
      assert Combinations(xs, k) == [[]];
    } else if |xs| >= k {
      IncreasingTail(xs);
      CombinationsIncreasing(xs[1..], k - 1);
      CombinationsIncreasing(xs[1..], k);
      var rest := Combinations(xs[1..], k - 1);
      var withFirst := PrependAll(xs[0], rest);
      var withoutFirst := Combinations(xs[1..], k);
      assert Combinations(xs, k) == withFirst + withoutFirst;
      forall c | c in Combinations(xs, k) ensures Increasing(c) {
        if c in withFirst {
          var i :| 0 <= i < |withFirst| && withFirst[i] == c;
          var d := rest[i];
          assert d in rest;
          assert c == [xs[0]] + d;
          FirstThenCombination(xs, k, d);
        } else {
          assert c in withoutFirst;
        }
      }
    }
  }

  /** itertools' promise: the combinations of an increasing list come out in
      strictly increasing lexicographic order, so none is listed twice. */
  lemma {:induction false} CombinationsLexSorted(xs: seq<Card>, k: nat)
    requires Increasing(xs)
    ensures LexSorted(Combinations(xs, k))
    decreases |xs|
  {
    if k > 0 && |xs| >= k {
      IncreasingTail(xs);
      var rest := Combinations(xs[1..], k - 1);
      var withFirst := PrependAll(xs[0], rest);
      var withoutFirst := Combinations(xs[1..], k);
      CombinationsLexSorted(xs[1..], k - 1);
      CombinationsLexSorted(xs[1..], k);
      var all := withFirst + withoutFirst;
      forall i, j | 0 <= i < j < |all| ensures LexLess(all[i], all[j]) {
        if j < |withFirst| {
          assert all[i] == [xs[0]] + rest[i] && all[j] == [xs[0]] + rest[j];
          assert LexLess(rest[i], rest[j]);
          assert ([xs[0]] + rest[i])[1..] == rest[i];
          assert ([xs[0]] + rest[j])[1..] == rest[j];
        } else if i < |withFirst| {
          var d := withoutFirst[j - |withFirst|];
          assert d in withoutFirst;
          CombinationsMembers(xs[1..], k, d);
          assert d[0] in d;
          assert all[i][0] == xs[0] && all[j] == d;
        } else {
          assert all[i] == withoutFirst[i - |withFirst|] && all[j] == withoutFirst[j - |withFirst|];
        }
      }
    }
  }

  /** Every increasing choice of k elements of an increasing list is one of its
      combinations. */
  lemma {:induction false} CombinationsComplete(xs: seq<Card>, k: nat, c: seq<Card>)
    requires Increasing(xs) && Increasing(c) && |c| == k
    requires forall x | x in c :: x in xs
    ensures c in Combinations(xs, k)
    decreases |xs|
  {
    if k > 0 {
      assert c[0] in c;
      assert |xs| > 0;
      IncreasingTail(xs);
      IncreasingTail(c);
      if c[0] == xs[0] {
        forall x | x in c[1..] ensures x in xs[1..] {
          assert x in xs && x != xs[0];
          assert xs == [xs[0]] + xs[1..];
        }
        CombinationsComplete(xs[1..], k - 1, c[1..]);
        var rest := Combinations(xs[1..], k - 1);
        var i :| 0 <= i < |rest| && rest[i] == c[1..];
        assert PrependAll(xs[0], rest)[i] == c;
      } else {
        assert xs == [xs[0]] + xs[1..];
        assert c[0] in xs[1..];
        forall x | x in c ensures x in xs[1..] {
          var i :| 0 <= i < |c| && c[i] == x;
          assert c[0] <= x && x in xs;
        }
        CombinationsComplete(xs[1..], k, c);
      }
    }
  }
}
