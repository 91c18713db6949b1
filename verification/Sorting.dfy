/** Increasing sequences of integers. */
module Sorting {
  import Sets

  predicate Increasing(s: seq<int>) { forall i, j | 0 <= i < j < |s| :: s[i] < s[j] }

  function SetOf(s: seq<int>): set<int> { set x | x in s }

  /** An increasing sequence is determined by its elements. */
  lemma {:induction false} IncreasingUnique(a: seq<int>, b: seq<int>)
    requires Increasing(a) && Increasing(b) && SetOf(a) == SetOf(b)
    ensures a == b
  {
    assert a != [] ==> a[0] in SetOf(a) && a[0] in SetOf(b);
    assert b != [] ==> b[0] in SetOf(b) && b[0] in SetOf(a);
    if a != [] {
      assert a[0] == b[0];
      TailSet(a);
      TailSet(b);
      IncreasingUnique(a[1..], b[1..]);
    }
  }

  lemma TailSet(a: seq<int>)
    requires Increasing(a) && a != []
    ensures SetOf(a[1..]) == SetOf(a) - {a[0]} && Increasing(a[1..])
  {
    forall x ensures x in SetOf(a[1..]) <==> x in SetOf(a) - {a[0]} {
      if x in SetOf(a) - {a[0]} {
        var i :| 0 <= i < |a| && a[i] == x;
        assert a[1..][i - 1] == x;
      }
    }
  }

  /** sort.Ints over a map's keys. */
  method SortedKeys(keys: set<int>) returns (out: seq<int>)
    ensures Increasing(out) && SetOf(out) == keys
  {
    out := [];
    var todo := keys;
    while todo != {}
      invariant todo <= keys && SetOf(out) == keys - todo && Increasing(out)
      invariant forall x, y | x in SetOf(out) && y in todo :: x < y
      decreases todo
    {
      var k := Least(todo);
      forall i | 0 <= i < |out| ensures out[i] < k { assert out[i] in SetOf(out); }
      assert SetOf(out + [k]) == SetOf(out) + {k};
      out := out + [k];
      todo := todo - {k};
    }
  }

  method Least(s: set<int>) returns (m: int)
    requires s != {}
    ensures m in s && forall x | x in s :: m <= x
  {
    ghost var some := Sets.Member(s);
    m :| m in s;
    var todo := s - {m};
    while todo != {}
      invariant m in s && todo <= s
      invariant forall x | x in s :: x in todo || m <= x
      decreases todo
    {
      ghost var some := Sets.Member(todo);
      var x :| x in todo;
      if x < m {
        m := x;
      }
      todo := todo - {x};
    }
    forall x | x in s ensures m <= x { assert x !in {}; }
  }
}
