/** Sorting by a key, ordered sets, and their independence of the input order. */
module Sorting {
  import opened Prelude

  /** Keys compare by their first component, then by the second. */
  datatype Key = Key(major: int, minor: int)

  predicate Less(a: Key, b: Key) {
    a.major < b.major || (a.major == b.major && a.minor < b.minor)
  }

  function InsertBy<T>(key: T -> Key, x: T, s: seq<T>): seq<T> {
    if s == [] || !Less(key(s[0]), key(x)) then [x] + s else [s[0]] + InsertBy(key, x, s[1..])
  }

  /** A stable sort. */
  function SortBy<T>(key: T -> Key, s: seq<T>): seq<T> {
    if s == [] then [] else InsertBy(key, s[0], SortBy(key, s[1..]))
  }

  predicate UniqueBy<T>(key: T -> Key, s: seq<T>) {
    forall i, j :: 0 <= i < j < |s| ==> key(s[i]) != key(s[j])
  }

  predicate StrictlySorted<T>(key: T -> Key, s: seq<T>) {
    forall i, j :: 0 <= i < j < |s| ==> Less(key(s[i]), key(s[j]))
  }

  lemma InsertMembers<T>(key: T -> Key, x: T, s: seq<T>, y: T)
    ensures |InsertBy(key, x, s)| == |s| + 1
    ensures y in InsertBy(key, x, s) <==> y == x || y in s
  {
  }

  lemma SortMembers<T>(key: T -> Key, s: seq<T>, y: T)
    ensures |SortBy(key, s)| == |s|
    ensures y in SortBy(key, s) <==> y in s
  {
    if s != [] {
      SortMembers(key, s[1..], y);
      InsertMembers(key, s[0], SortBy(key, s[1..]), y);
    }
  }

  lemma StrictCons<T>(key: T -> Key, x: T, s: seq<T>)
    requires StrictlySorted(key, s) && forall y :: y in s ==> Less(key(x), key(y))
    ensures StrictlySorted(key, [x] + s)
  {
  }

  lemma StrictTail<T>(key: T -> Key, s: seq<T>)
    requires StrictlySorted(key, s) && s != []
    ensures StrictlySorted(key, s[1..]) && forall y :: y in s[1..] ==> Less(key(s[0]), key(y))
  {
  }

  lemma {:induction false} InsertStrict<T>(key: T -> Key, x: T, s: seq<T>)
    requires StrictlySorted(key, s) && forall y :: y in s ==> key(y) != key(x)
    ensures StrictlySorted(key, InsertBy(key, x, s))
  {
    if s == [] {
    } else {
      StrictTail(key, s);
      var rest := s[1..];
      assert s[0] in s && s == [s[0]] + rest;
      hide StrictlySorted;
      if Less(key(s[0]), key(x)) {
        InsertStrict(key, x, rest);
        forall y | y in InsertBy(key, x, rest) ensures Less(key(s[0]), key(y)) {
          InsertMembers(key, x, rest, y);
        }
        StrictCons(key, s[0], InsertBy(key, x, rest));
      } else {
        forall y | y in s ensures Less(key(x), key(y)) {
        }
        StrictCons(key, x, s);
      }
    }
  }

  lemma {:induction false} SortStrict<T>(key: T -> Key, s: seq<T>)
    requires UniqueBy(key, s)
    ensures StrictlySorted(key, SortBy(key, s))
  {
    if s != [] {
      assert UniqueBy(key, s[1..]);
      SortStrict(key, s[1..]);
      forall y | y in SortBy(key, s[1..]) ensures key(y) != key(s[0]) {
        SortMembers(key, s[1..], y);
        var i :| 0 <= i < |s[1..]| && s[1..][i] == y;
        assert s[i + 1] == y;
      }
      hide StrictlySorted, UniqueBy;
      InsertStrict(key, s[0], SortBy(key, s[1..]));
    }
  }

  /** Two strictly sorted lists with the same members are the same list. */
  lemma {:induction false} SortedEqual<T>(key: T -> Key, a: seq<T>, b: seq<T>)
    requires StrictlySorted(key, a) && StrictlySorted(key, b) && forall y :: y in a <==> y in b
    ensures a == b
  {
    assert a != [] ==> a[0] in a;
    assert b != [] ==> b[0] in b;
    if a != [] && b != [] {
      StrictTail(key, a);
      StrictTail(key, b);
      assert a == [a[0]] + a[1..] && b == [b[0]] + b[1..];
      hide StrictlySorted;
      assert a[0] in b && b[0] in a;
      assert a[0] == b[0];
      forall y ensures y in a[1..] <==> y in b[1..] {
        assert y in a <==> y == a[0] || y in a[1..];
        assert y in b <==> y == b[0] || y in b[1..];
      }
      SortedEqual(key, a[1..], b[1..]);
    }
  }

  lemma UniqueWithout<T>(key: T -> Key, s: seq<T>, k: nat, rest: seq<T>)
    requires k < |s| && rest == s[..k] + s[k + 1..] && UniqueBy(key, s)
    ensures UniqueBy(key, rest) && forall y :: y in rest ==> key(y) != key(s[k])
  {
  }

  lemma UniqueWith<T>(key: T -> Key, s: seq<T>, k: nat, rest: seq<T>)
    requires k < |s| && rest == s[..k] + s[k + 1..]
    requires UniqueBy(key, rest) && forall y :: y in rest ==> key(y) != key(s[k])
    ensures UniqueBy(key, s)
  {
    forall i, j | 0 <= i < j < |s| ensures key(s[i]) != key(s[j]) {
      var a, b := if i < k then i else i - 1, if j < k then j else j - 1;
      if i == k {
        assert s[j] == rest[b];
      } else if j == k {
        assert s[i] == rest[a];
      } else {
        assert s[i] == rest[a] && s[j] == rest[b];
      }
    }
  }

  lemma UniqueTakenOut<T>(key: T -> Key, s: seq<T>, x: T, rest: seq<T>)
    requires TakenOut(s, x, rest)
    ensures UniqueBy(key, s) <==> UniqueBy(key, rest) && forall y :: y in rest ==> key(y) != key(x)
  {
    var k :| 0 <= k < |s| && s[k] == x && rest == s[..k] + s[k + 1..];
    hide UniqueBy, TakenOut;
    if UniqueBy(key, s) {
      UniqueWithout(key, s, k, rest);
    } else if UniqueBy(key, rest) && forall y :: y in rest ==> key(y) != key(x) {
      UniqueWith(key, s, k, rest);
    }
  }

  lemma {:induction false} UniquePermutes<T>(key: T -> Key, a: seq<T>, b: seq<T>)
    requires multiset(a) == multiset(b)
    ensures UniqueBy(key, a) <==> UniqueBy(key, b)
    decreases |a|
  {
    hide TakenOut;
    SameMembers(a, b);
    if a != [] {
      var x := a[0];
      assert x in a && x in b;
      var c := TakeOut(a, x);
      var d := TakeOut(b, x);
      TakenOutCounts(a, x, c);
      TakenOutCounts(b, x, d);
      SameMembers(c, d);
      UniquePermutes(key, c, d);
      UniqueTakenOut(key, a, x, c);
      UniqueTakenOut(key, b, x, d);
      hide UniqueBy;
    }
  }

  /** With unique keys the sorted list does not depend on the order of the input. */
  lemma SortPermutes<T>(key: T -> Key, a: seq<T>, b: seq<T>)
    requires multiset(a) == multiset(b) && UniqueBy(key, a)
    ensures SortBy(key, a) == SortBy(key, b)
  {
    UniquePermutes(key, a, b);
    SortStrict(key, a);
    SortStrict(key, b);
    SameMembers(a, b);
    hide UniqueBy, StrictlySorted;
    forall y ensures y in SortBy(key, a) <==> y in SortBy(key, b) {
      SortMembers(key, a, y);
      SortMembers(key, b, y);
    }
    SortedEqual(key, SortBy(key, a), SortBy(key, b));
  }

  // ---------------------------------------------------------------------
  // Ordered sets of ids.

  lemma LeastExists(s: set<nat>)
    requires s != {}
    ensures exists m :: m in s && forall x :: x in s ==> m <= x
  {
    var y :| y in s;
    var rest := s - {y};
    if rest == {} {
      assert s == {y};
    } else {
      LeastExists(rest);
      var m :| m in rest && forall x :: x in rest ==> m <= x;
      var least := if m < y then m else y;
      assert least in s && forall x :: x in s ==> least <= x by {
        assert forall x :: x in s ==> x == y || x in rest;
      }
    }
  }

  function Least(s: set<nat>): (m: nat)
    requires s != {}
    ensures m in s && forall x :: x in s ==> m <= x
  {
    LeastExists(s);
    var m :| m in s && forall x :: x in s ==> m <= x;
    m
  }

  /** The elements of a set in ascending order. */
  function Ascending(s: set<nat>): seq<nat> {
    if s == {} then [] else [Least(s)] + Ascending(s - {Least(s)})
  }

  predicate Increasing(s: seq<nat>) {
    forall i, j :: 0 <= i < j < |s| ==> s[i] < s[j]
  }

  lemma {:induction false} AscendingIs(s: set<nat>)
    ensures Increasing(Ascending(s)) && (forall x :: x in Ascending(s) <==> x in s) && |Ascending(s)| == |s|
    decreases |s|
  {
    if s != {} {
      var m := Least(s);
      AscendingIs(s - {m});
      assert forall x :: x in Ascending(s - {m}) ==> x in s - {m};
      hide Ascending;
      AscendingStep(s);
      IncreasingCons(m, Ascending(s - {m}));
      assert |s - {m}| == |s| - 1;
      forall x ensures x in Ascending(s) <==> x in s {
        assert x in Ascending(s - {m}) <==> x in s - {m};
      }
    } else {
      assert Ascending(s) == [];
    }
  }

  lemma AscendingStep(s: set<nat>)
    requires s != {}
    ensures Ascending(s) == [Least(s)] + Ascending(s - {Least(s)})
  {
  }

  lemma IncreasingCons(m: nat, rest: seq<nat>)
    requires Increasing(rest) && forall x :: x in rest ==> m < x
    ensures Increasing([m] + rest)
  {
    var s := [m] + rest;
    forall i, j | 0 <= i < j < |s| ensures s[i] < s[j] {
      assert s[j] == rest[j - 1] && rest[j - 1] in rest;
    }
  }
}
