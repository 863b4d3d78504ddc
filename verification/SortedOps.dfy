/** What sorting keeps of a list of operations. */
module SortedOps {
  import opened Sorting
  import opened StreamTypes

  lemma {:induction false} OccursOnce(ops: seq<SentOp>, i: nat)
    requires DistinctWids(ops) && i < |ops|
    ensures multiset(ops)[ops[i]] == 1
  {
    var l, r := ops[..i], ops[i + 1..];
    assert ops == l + ([ops[i]] + r);
    assert ops[i] !in l && ops[i] !in r;
  }

  /** Reordering a list of operations does not change what it lists. */
  lemma ListsPermuted(a: seq<SentOp>, b: seq<SentOp>, m: Ops)
    requires Lists(a, m) && multiset(a) == multiset(b)
    ensures Lists(b, m)
  {
    OpMapContents(a);
    OpMapContents(b);
    forall i | 0 <= i < |b|
      ensures b[i].wid in m && m[b[i].wid] == b[i]
    {
      assert b[i] in multiset(a);
      var k :| 0 <= k < |a| && a[k] == b[i];
    }
    forall i, j | 0 <= i < j < |b|
      ensures b[i].wid != b[j].wid
    {
      if b[i].wid == b[j].wid {
        OccursTwice(b, i, j);
        assert b[i] in multiset(a);
        var k :| 0 <= k < |a| && a[k] == b[i];
        OccursOnce(a, k);
        assert false;
      }
    }
    forall w | w in m
      ensures w in OpMap(b)
    {
      var k :| 0 <= k < |a| && a[k].wid == w;
      assert a[k] in multiset(b);
    }
  }

  function Mapped<T>(f: T -> SentOp, s: seq<T>): (r: seq<SentOp>)
    ensures |r| == |s|
  {
    seq(|s|, i requires 0 <= i < |s| => f(s[i]))
  }

  lemma {:induction false} InsertMapped<T>(le: (T, T) -> bool, s: seq<T>, x: T, f: T -> SentOp)
    ensures multiset(Mapped(f, Insert(le, s, x))) == multiset(Mapped(f, s)) + multiset{f(x)}
  {
    if s == [] || le(x, s[0]) {
      assert Mapped(f, [x] + s) == [f(x)] + Mapped(f, s);
      assert s == [] ==> Mapped(f, s) == [];
      assert [x] + s == Insert(le, s, x);
    } else {
      InsertMapped(le, s[1..], x, f);
      assert Mapped(f, s) == [f(s[0])] + Mapped(f, s[1..]);
      assert Mapped(f, [s[0]] + Insert(le, s[1..], x)) == [f(s[0])] + Mapped(f, Insert(le, s[1..], x));
    }
  }

  /** Sorting commutes with turning each element into an operation, up to order. */
  lemma {:induction false} SortMapped<T>(le: (T, T) -> bool, s: seq<T>, f: T -> SentOp)
    ensures multiset(Mapped(f, SortBy(le, s))) == multiset(Mapped(f, s))
  {
    if s != [] {
      var init, x := s[..|s| - 1], s[|s| - 1];
      calc {
        multiset(Mapped(f, SortBy(le, s)));
        { InsertMapped(le, SortBy(le, init), x, f); }
        multiset(Mapped(f, SortBy(le, init))) + multiset{f(x)};
        { SortMapped(le, init, f); }
        multiset(Mapped(f, init)) + multiset{f(x)};
        { assert Mapped(f, s) == Mapped(f, init) + [f(x)]; }
        multiset(Mapped(f, s));
      }
    }
  }
}
