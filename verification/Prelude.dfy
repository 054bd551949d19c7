/** Value types and sequence facts shared by every component model. */
module Prelude {

  datatype Option<+T> = None | Some(value: T)

  datatype Result<+T, +E> = Ok(value: T) | Err(error: E)

  const I64_MAX: int := 0x7FFF_FFFF_FFFF_FFFF
  const U64_MAX: int := 0xFFFF_FFFF_FFFF_FFFF

  /** No element occurs twice. */
  predicate Distinct<T(==)>(s: seq<T>) {
    forall i, j :: 0 <= i < j < |s| ==> s[i] != s[j]
  }

  function Elements<T(==)>(s: seq<T>): set<T> {
    set x | x in s
  }

  /** The concatenation of a list of sequences. */
  function Flatten<T>(parts: seq<seq<T>>): seq<T> {
    if parts == [] then [] else parts[0] + Flatten(parts[1..])
  }

  /** The elements of `s` that satisfy `p`, in order. */
  function Filter<T>(p: T -> bool, s: seq<T>): seq<T> {
    if s == [] then [] else (if p(s[0]) then [s[0]] else []) + Filter(p, s[1..])
  }

  lemma FilterFirst<T>(p: T -> bool, s: seq<T>)
    requires s != []
    ensures Filter(p, s) == (if p(s[0]) then [s[0]] else []) + Filter(p, s[1..])
  {
  }

  lemma FilterNone<T>(p: T -> bool)
    ensures Filter(p, []) == []
  {
  }

  lemma Associative<T>(a: seq<T>, b: seq<T>, c: seq<T>)
    ensures (a + b) + c == a + (b + c)
  {
  }

  lemma {:induction false} FilterAppend<T>(p: T -> bool, a: seq<T>, b: seq<T>)
    ensures Filter(p, a + b) == Filter(p, a) + Filter(p, b)
    decreases |a|
  {
    hide Filter;
    if a == [] {
      FilterNone(p);
      assert a + b == b;
      assert [] + Filter(p, b) == Filter(p, b);
    } else {
      var rest := a[1..];
      FilterFirst(p, a);
      FilterFirst(p, a + b);
      assert (a + b)[1..] == rest + b && (a + b)[0] == a[0];
      FilterAppend(p, rest, b);
      Associative(if p(a[0]) then [a[0]] else [], Filter(p, rest), Filter(p, b));
    }
  }

  lemma FilterSnoc<T>(p: T -> bool, s: seq<T>, x: T)
    ensures Filter(p, s + [x]) == Filter(p, s) + (if p(x) then [x] else [])
  {
    hide Filter;
    FilterAppend(p, s, [x]);
    FilterCons(p, x, []);
    assert [x] + [] == [x] && (if p(x) then [x] else []) + [] == if p(x) then [x] else [];
    FilterNone(p);
  }

  lemma FilterCons<T>(p: T -> bool, x: T, s: seq<T>)
    ensures Filter(p, [x] + s) == (if p(x) then [x] else []) + Filter(p, s)
  {
    hide Filter;
    FilterFirst(p, [x] + s);
    assert ([x] + s)[1..] == s && ([x] + s)[0] == x;
  }

  /** `rest` is `s` with one occurrence of `x` taken out. */
  predicate TakenOut<T(==)>(s: seq<T>, x: T, rest: seq<T>) {
    exists i :: 0 <= i < |s| && s[i] == x && rest == s[..i] + s[i + 1..]
  }

  lemma TakeOut<T>(s: seq<T>, x: T) returns (rest: seq<T>)
    requires x in s
    ensures TakenOut(s, x, rest) && |rest| < |s|
  {
    var i :| 0 <= i < |s| && s[i] == x;
    rest := s[..i] + s[i + 1..];
  }

  lemma TakenOutCounts<T>(s: seq<T>, x: T, rest: seq<T>)
    requires TakenOut(s, x, rest)
    ensures multiset(rest) == multiset(s) - multiset{x}
  {
    var i :| 0 <= i < |s| && s[i] == x && rest == s[..i] + s[i + 1..];
    assert s == s[..i] + [x] + s[i + 1..];
    assert multiset(s) == multiset(s[..i]) + multiset{x} + multiset(s[i + 1..]);
  }

  lemma TakenOutFilters<T>(p: T -> bool, s: seq<T>, x: T, rest: seq<T>)
    requires TakenOut(s, x, rest)
    ensures multiset(Filter(p, s)) == multiset(Filter(p, rest)) + (if p(x) then multiset{x} else multiset{})
  {
    hide Filter;
    var i :| 0 <= i < |s| && s[i] == x && rest == s[..i] + s[i + 1..];
    var front, back := s[..i], s[i + 1..];
    assert s == front + ([x] + back);
    FilterAppend(p, front, back);
    FilterAppend(p, front, [x] + back);
    FilterCons(p, x, back);
  }

  /** Filtering a permutation gives a permutation. */
  lemma {:induction false} FilterPermutes<T>(p: T -> bool, a: seq<T>, b: seq<T>)
    requires multiset(a) == multiset(b)
    ensures multiset(Filter(p, a)) == multiset(Filter(p, b))
    decreases |a|
  {
    hide Filter, TakenOut;
    if a == [] {
      assert |multiset(b)| == |b|;
      assert b == [];
    } else {
      var x := a[0];
      assert x in multiset(a) && x in multiset(b);
      var c := TakeOut(a, x);
      var d := TakeOut(b, x);
      TakenOutCounts(a, x, c);
      TakenOutCounts(b, x, d);
      FilterPermutes(p, c, d);
      TakenOutFilters(p, a, x, c);
      TakenOutFilters(p, b, x, d);
    }
  }

  lemma SameMembers<T>(a: seq<T>, b: seq<T>)
    requires multiset(a) == multiset(b)
    ensures |a| == |b| && forall x :: x in a <==> x in b
  {
    assert |multiset(a)| == |a| && |multiset(b)| == |b|;
    forall x ensures x in a <==> x in b {
      assert x in multiset(a) <==> x in a;
      assert x in multiset(b) <==> x in b;
    }
  }

  lemma FilterIn<T>(p: T -> bool, s: seq<T>, y: T)
    ensures y in Filter(p, s) <==> y in s && p(y)
  {
  }

  lemma DistinctSnoc<T>(s: seq<T>, x: T)
    requires Distinct(s) && x !in s
    ensures Distinct(s + [x])
  {
  }

  lemma DistinctLast<T>(s: seq<T>)
    requires Distinct(s) && s != []
    ensures Distinct(s[..|s| - 1]) && s[|s| - 1] !in s[..|s| - 1]
  {
  }

  lemma {:induction false} DistinctCount<T>(s: seq<T>)
    requires Distinct(s)
    ensures |Elements(s)| == |s|
  {
    if s != [] {
      DistinctLast(s);
      var front := s[..|s| - 1];
      DistinctCount(front);
      assert s == front + [s[|s| - 1]];
      assert Elements(s) == Elements(front) + {s[|s| - 1]};
    }
  }

  /** A list is as long as the set of its elements exactly when nothing occurs twice. */
  lemma {:induction false} DistinctIffCount<T>(s: seq<T>)
    ensures |Elements(s)| <= |s|
    ensures |Elements(s)| == |s| <==> Distinct(s)
  {
    if s != [] {
      var front, last := s[..|s| - 1], s[|s| - 1];
      DistinctIffCount(front);
      assert s == front + [last];
      assert Elements(s) == Elements(front) + {last};
      if last in front {
        assert Elements(s) == Elements(front);
        var i :| 0 <= i < |front| && front[i] == last;
        assert s[i] == s[|s| - 1];
      } else if Distinct(front) {
        DistinctSnoc(front, last);
      } else {
        assert Distinct(s) ==> Distinct(front);
      }
    }
  }

  lemma SubsetCount<T>(a: set<T>, b: set<T>)
    requires a <= b
    ensures |a| <= |b| && (|a| == |b| ==> a == b)
  {
    assert b == a + (b - a);
  }
}
