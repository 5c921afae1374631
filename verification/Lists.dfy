/** Sequence and multiset facts shared by the models. */
module Lists {

  datatype Option<+T> = None | Some(value: T)

  function Min(a: int, b: int): int { if a <= b then a else b }

  function Max(a: int, b: int): int { if a >= b then a else b }

  /** Number of elements that satisfy `p`. */
  function Count<T>(p: T -> bool, s: seq<T>): nat {
    if s == [] then 0
    else Count(p, s[..|s| - 1]) + if p(s[|s| - 1]) then 1 else 0
  }

  lemma {:induction false} CountAppend<T>(p: T -> bool, s: seq<T>, x: T)
    ensures Count(p, s + [x]) == Count(p, s) + if p(x) then 1 else 0
  {
    assert (s + [x])[..|s|] == s;
  }

  lemma {:induction false} CountConcat<T>(p: T -> bool, a: seq<T>, b: seq<T>)
    ensures Count(p, a + b) == Count(p, a) + Count(p, b)
  {
    if b == [] {
      assert a + b == a;
    } else {
      var c := b[..|b| - 1];
      CountConcat(p, a, c);
      assert (a + b)[..|a + b| - 1] == a + c;
    }
  }

  lemma CountTail<T>(p: T -> bool, s: seq<T>)
    requires s != []
    ensures Count(p, s) == Count(p, s[1..]) + if p(s[0]) then 1 else 0
  {
    CountConcat(p, [s[0]], s[1..]);
    assert s == [s[0]] + s[1..];
    assert [s[0]] == [] + [s[0]];
    CountAppend(p, [], s[0]);
  }

  lemma CountRemoveAt<T>(p: T -> bool, s: seq<T>, i: nat)
    requires i < |s|
    ensures Count(p, s) == Count(p, s[..i] + s[i + 1..]) + if p(s[i]) then 1 else 0
  {
    assert s == s[..i] + s[i..];
    assert s[i..][1..] == s[i + 1..];
    CountConcat(p, s[..i], s[i..]);
    CountTail(p, s[i..]);
    CountConcat(p, s[..i], s[i + 1..]);
  }

  lemma {:induction false} CountWitness<T>(p: T -> bool, s: seq<T>) returns (i: nat)
    requires Count(p, s) > 0
    ensures i < |s| && p(s[i])
  {
    i := |s| - 1;
    if !p(s[i]) {
      i := CountWitness(p, s[..i]);
    }
  }

  lemma CountPositive<T>(p: T -> bool, q: seq<T>, i: nat)
    requires i < |q| && p(q[i])
    ensures Count(p, q) >= 1
  {
    CountRemoveAt(p, q, i);
  }

  lemma CountAtLeastTwo<T>(p: T -> bool, q: seq<T>, i: nat, j: nat)
    requires i < |q| && j < |q| && i != j && p(q[i]) && p(q[j])
    ensures Count(p, q) >= 2
  {
    var a, b := if i < j then i else j, if i < j then j else i;
    assert q == q[..b] + q[b..];
    CountConcat(p, q[..b], q[b..]);
    CountPositive(p, q[..b], a);
    CountPositive(p, q[b..], 0);
  }

  /** Replacing one element moves the count by the difference of the two elements. */
  lemma {:induction false} CountUpdate<T>(p: T -> bool, s: seq<T>, i: nat, x: T)
    requires i < |s|
    ensures Count(p, s[i := x]) + (if p(s[i]) then 1 else 0) == Count(p, s) + if p(x) then 1 else 0
  {
    var n := |s| - 1;
    if i == n {
      assert s[i := x][..n] == s[..n];
    } else {
      CountUpdate(p, s[..n], i, x);
      assert s[i := x][..n] == s[..n][i := x];
    }
  }

  lemma {:induction false} CountZero<T>(p: T -> bool, s: seq<T>)
    requires forall i :: 0 <= i < |s| ==> !p(s[i])
    ensures Count(p, s) == 0
  {
    if s == [] {
    } else {
      CountZero(p, s[..|s| - 1]);
    }
  }

  /** A predicate that implies another is met no more often. */
  lemma {:induction false} CountMonotone<T>(p: T -> bool, q: T -> bool, s: seq<T>)
    requires forall x :: x in s && p(x) ==> q(x)
    ensures Count(p, s) <= Count(q, s)
  {
    if s == [] {
    } else {
      CountMonotone(p, q, s[..|s| - 1]);
    }
  }

  /** `s` without its first occurrence of `x`: the effect of LREM key 1 x. */
  function RemoveFirst<T(==)>(s: seq<T>, x: T): seq<T> {
    if s == [] then []
    else if s[0] == x then s[1..]
    else [s[0]] + RemoveFirst(s[1..], x)
  }

  lemma {:induction false} RemoveFirstMultiset<T>(s: seq<T>, x: T)
    ensures multiset(RemoveFirst(s, x)) == multiset(s) - multiset{x}
  {
    if s == [] {
    } else {
      assert s == [s[0]] + s[1..];
      if s[0] != x {
        RemoveFirstMultiset(s[1..], x);
      }
    }
  }

  lemma {:induction false} RemoveFirstAbsent<T>(s: seq<T>, x: T)
    requires x !in s
    ensures RemoveFirst(s + [x], x) == s
  {
    if s == [] {
      assert s + [x] == [x];
    } else {
      RemoveFirstAbsent(s[1..], x);
      assert (s + [x])[1..] == s[1..] + [x];
    }
  }

  /** Appending a value and removing its first occurrence leaves the elements as they were, and a new value no trace. */
  lemma RemoveAppended<T>(s: seq<T>, x: T)
    ensures multiset(RemoveFirst(s + [x], x)) == multiset(s)
    ensures x !in s ==> RemoveFirst(s + [x], x) == s
  {
    RemoveFirstMultiset(s + [x], x);
    if x !in s {
      RemoveFirstAbsent(s, x);
    }
  }

  function Filter<T>(p: T -> bool, s: seq<T>): seq<T> {
    if s == [] then []
    else Filter(p, s[..|s| - 1]) + if p(s[|s| - 1]) then [s[|s| - 1]] else []
  }

  /** The first `n` elements, or all of them when there are fewer; none for a negative `n`. */
  function Take<T>(n: int, s: seq<T>): (r: seq<T>)
    ensures |r| == Max(0, Min(n, |s|))
  {
    s[..Max(0, Min(n, |s|))]
  }

  lemma FilterAppend<T>(p: T -> bool, s: seq<T>, x: T)
    ensures Filter(p, s + [x]) == Filter(p, s) + if p(x) then [x] else []
  {
    assert (s + [x])[..|s|] == s;
  }

  /** Filtering a prefix gives a prefix. */
  lemma {:induction false} FilterPrefix<T>(p: T -> bool, s: seq<T>, i: nat)
    requires i <= |s|
    ensures Filter(p, s[..i]) <= Filter(p, s)
  {
    if i == |s| {
      assert s[..i] == s;
    } else {
      FilterPrefix(p, s[..|s| - 1], i);
      assert s[..|s| - 1][..i] == s[..i];
    }
  }

  lemma {:induction false} FilterIn<T>(p: T -> bool, s: seq<T>)
    ensures forall x :: x in Filter(p, s) <==> x in s && p(x)
  {
    if s == [] {
    } else {
      FilterIn(p, s[..|s| - 1]);
    }
  }

  /** Predicates that agree on the elements select the same elements. */
  lemma {:induction false} FilterSame<T>(p: T -> bool, q: T -> bool, s: seq<T>)
    requires forall x :: x in s ==> p(x) == q(x)
    ensures Filter(p, s) == Filter(q, s)
  {
    if s == [] {
    } else {
      FilterSame(p, q, s[..|s| - 1]);
    }
  }

  /** A predicate and its negation split the length. */
  lemma {:induction false} FilterSplit<T>(p: T -> bool, q: T -> bool, s: seq<T>)
    requires forall x :: x in s ==> p(x) == !q(x)
    ensures |Filter(p, s)| + |Filter(q, s)| == |s|
  {
    if s == [] {
    } else {
      FilterSplit(p, q, s[..|s| - 1]);
    }
  }

  ghost predicate Distinct<T>(s: seq<T>) {
    forall i, j :: 0 <= i < j < |s| ==> s[i] != s[j]
  }

  lemma {:induction false} SetSize<T>(s: seq<T>)
    requires Distinct(s)
    ensures |set x | x in s| == |s|
  {
    if s == [] {
    } else {
      var n := |s| - 1;
      SetSize(s[..n]);
      assert (set x | x in s) == (set x | x in s[..n]) + {s[n]};
    }
  }

  lemma {:induction false} FilterNoDuplicates<T>(p: T -> bool, s: seq<T>)
    requires Distinct(s)
    ensures Distinct(Filter(p, s))
  {
    if s == [] {
    } else {
      var n := |s| - 1;
      FilterNoDuplicates(p, s[..n]);
      FilterIn(p, s[..n]);
    }
  }

  lemma SubsetSize<T>(a: set<T>, b: set<T>)
    requires a <= b
    ensures |a| <= |b|
  {
    assert b == a + (b - a);
    assert |b| == |a| + |b - a|;
  }

  lemma {:induction false} SetAtMost<T>(s: seq<T>)
    ensures |set x | x in s| <= |s|
  {
    if s == [] {
    } else {
      var n := |s| - 1;
      SetAtMost(s[..n]);
      assert (set x | x in s) == (set x | x in s[..n]) + {s[n]};
    }
  }
}
