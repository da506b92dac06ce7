/**
 * Python's `sorted()` applied to a set of strings: the elements in
 * ascending code-point order, each once.
 */
module Sorting {
  import opened PyStr

  /** Strictly ascending under Python's string order (so also duplicate-free). */
  predicate StrictlySorted(xs: seq<string>) {
    forall i, j :: 0 <= i < j < |xs| ==> Less(xs[i], xs[j])
  }

  /** `m` is the smallest element of `hosts`. */
  predicate IsMin(m: string, hosts: set<string>) {
    m in hosts && forall y :: y in hosts ==> y == m || Less(m, y)
  }

  lemma {:induction false} MinimumExists(hosts: set<string>)
    requires hosts != {}
    ensures exists m :: IsMin(m, hosts)
    decreases hosts
  {
    var x :| x in hosts;
    if hosts != {x} {
      MinimumExists(hosts - {x});
      var m :| IsMin(m, hosts - {x});
      LessTotal(x, m);
      if Less(x, m) {
        forall y | y in hosts && y != x ensures Less(x, y) {
          if y != m { LessTransitive(x, m, y); }
        }
        assert IsMin(x, hosts);
      } else {
        assert IsMin(m, hosts);
      }
    } else {
      assert IsMin(x, hosts);
    }
  }

  lemma MinimumUnique(hosts: set<string>)
    ensures forall a, b :: IsMin(a, hosts) && IsMin(b, hosts) ==> a == b
  {
    forall a, b | IsMin(a, hosts) && IsMin(b, hosts) ensures a == b {
      LessAsymmetric(a, b);
    }
  }

  /** `sorted(hosts)`: repeatedly take the (unique) smallest remaining element. */
  function SortedList(hosts: set<string>): (r: seq<string>)
    ensures StrictlySorted(r)
    ensures forall x :: x in r <==> x in hosts
    ensures |r| == |hosts|
    decreases hosts
  {
    if hosts == {} then []
    else
      MinimumExists(hosts);
      MinimumUnique(hosts);
      var m :| IsMin(m, hosts);
      var rest := SortedList(hosts - {m});
      assert forall j :: 0 <= j < |rest| ==> Less(m, rest[j]) by {
        forall j | 0 <= j < |rest| ensures Less(m, rest[j]) {
          assert rest[j] in hosts - {m};
        }
      }
      [m] + rest
  }

  /** Two strictly sorted sequences with the same elements are equal. */
  lemma {:induction false} SortedEqual(a: seq<string>, b: seq<string>)
    requires StrictlySorted(a) && StrictlySorted(b)
    requires forall x :: x in a <==> x in b
    ensures a == b
    decreases |a|
  {
    assert b != [] ==> b[0] in b;
    assert a != [] ==> a[0] in a;
    if a != [] {
      assert a[0] == b[0] by {
        if a[0] != b[0] {
          var i :| 0 <= i < |a| && a[i] == b[0];
          var j :| 0 <= j < |b| && b[j] == a[0];
          assert Less(a[0], b[0]);
          assert Less(b[0], a[0]);
          LessAsymmetric(a[0], b[0]);
        }
      }
      forall x ensures x in a[1..] <==> x in b[1..] {
        if x in a[1..] {
          var i :| 1 <= i < |a| && a[i] == x;
          LessIrreflexive(a[0]);
          assert x in b;
          var j :| 0 <= j < |b| && b[j] == x;
          assert j != 0;
        }
        if x in b[1..] {
          var j :| 1 <= j < |b| && b[j] == x;
          LessIrreflexive(b[0]);
          assert x in a;
          var i :| 0 <= i < |a| && a[i] == x;
          assert i != 0;
        }
      }
      SortedEqual(a[1..], b[1..]);
      assert a == [a[0]] + a[1..] && b == [b[0]] + b[1..];
    }
  }

  /** Any strictly sorted listing of a set is its `sorted()` listing. */
  lemma SortedListUnique(xs: seq<string>, hosts: set<string>)
    requires StrictlySorted(xs) && forall x :: x in xs <==> x in hosts
    ensures xs == SortedList(hosts)
  {
    SortedEqual(xs, SortedList(hosts));
  }

  /** Elements of a sorted list that are kept in order stay sorted. */
  lemma SortedAppend(xs: seq<string>, h: string)
    requires StrictlySorted(xs) && forall i :: 0 <= i < |xs| ==> Less(xs[i], h)
    ensures StrictlySorted(xs + [h])
  {
  }
}
