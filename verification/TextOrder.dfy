/** Lexicographic order, and sets in order. */
module TextOrder {
  import opened Sorting

  predicate LexLe<T(==)>(less: (T, T) -> bool, a: seq<T>, b: seq<T>) {
    a == [] || (b != [] && (less(a[0], b[0]) || (a[0] == b[0] && LexLe(less, a[1..], b[1..]))))
  }

  ghost predicate StrictOrder<T(!new)>(less: (T, T) -> bool) {
    && (forall x, y :: less(x, y) || less(y, x) || x == y)
    && (forall x, y, z :: less(x, y) && less(y, z) ==> less(x, z))
    && (forall x :: !less(x, x))
  }

  lemma {:induction false} LexOrdered<T(!new)>(less: (T, T) -> bool, a: seq<T>, b: seq<T>, c: seq<T>)
    requires StrictOrder(less)
    ensures LexLe(less, a, b) || LexLe(less, b, a)
    ensures LexLe(less, a, b) && LexLe(less, b, a) ==> a == b
    ensures LexLe(less, a, b) && LexLe(less, b, c) ==> LexLe(less, a, c)
    decreases |a|
  {
    if a != [] && b != [] {
      LexOrdered(less, a[1..], b[1..], if c == [] then [] else c[1..]);
      assert a[0] == b[0] && a[1..] == b[1..] ==> a == [a[0]] + a[1..] == b;
    }
  }

  /** An order in which a set can be listed in only one way. */
  ghost predicate Linear<T(!new)>(le: (T, T) -> bool) {
    TotalOrder(le) && forall x, y :: le(x, y) && le(y, x) ==> x == y
  }

  lemma LexIsLinear<T(!new)>(less: (T, T) -> bool, le: (seq<T>, seq<T>) -> bool)
    requires StrictOrder(less) && forall a, b :: le(a, b) <==> LexLe(less, a, b)
    ensures Linear(le)
  {
    forall a, b
      ensures le(a, b) || le(b, a)
      ensures le(a, b) && le(b, a) ==> a == b
    {
      LexOrdered(less, a, b, []);
    }
    forall a, b, c | le(a, b) && le(b, c)
      ensures le(a, c)
    {
      LexOrdered(less, a, b, c);
    }
  }

  predicate Least<T>(le: (T, T) -> bool, keys: set<T>, k: T) {
    k in keys && forall j | j in keys :: le(k, j)
  }

  lemma {:induction false} LeastExists<T(!new)>(le: (T, T) -> bool, keys: set<T>)
    requires Linear(le) && keys != {}
    ensures exists k :: Least(le, keys, k)
    decreases keys
  {
    var k :| k in keys;
    if keys == {k} {
      assert Least(le, keys, k);
    } else {
      LeastExists(le, keys - {k});
      var l :| Least(le, keys - {k}, l);
      assert Least(le, keys, if le(k, l) then k else l);
    }
  }

  /** The members of a set in order. */
  ghost function InOrder<T(!new)>(le: (T, T) -> bool, keys: set<T>): (s: seq<T>)
    requires Linear(le)
    ensures |s| == |keys| && forall k :: k in s <==> k in keys
    ensures forall i, j | 0 <= i < j < |s| :: s[i] != s[j] && le(s[i], s[j])
    decreases keys
  {
    if keys == {} then []
    else
      LeastExists(le, keys);
      var k :| Least(le, keys, k);
      [k] + InOrder(le, keys - {k})
  }

  lemma {:induction false} DistinctMultiset<T>(s: seq<T>, keys: set<T>)
    requires (forall i, j | 0 <= i < j < |s| :: s[i] != s[j]) && forall k :: k in s <==> k in keys
    ensures multiset(s) == multiset(keys)
  {
    if s != [] {
      var init, last := s[..|s| - 1], s[|s| - 1];
      forall k
        ensures k in init <==> k in keys - {last}
      {
        if k in keys - {last} {
          var i :| 0 <= i < |s| && s[i] == k;
          assert init[i] == k;
        }
      }
      DistinctMultiset(init, keys - {last});
      assert s == init + [last] && keys == (keys - {last}) + {last};
    }
  }

  lemma ListedInOrder<T(!new)>(le: (T, T) -> bool, s: seq<T>, keys: set<T>)
    requires Linear(le) && Sorted(le, s) && multiset(s) == multiset(keys)
    ensures s == InOrder(le, keys)
  {
    DistinctMultiset(InOrder(le, keys), keys);
    SortedUnique(le, s, InOrder(le, keys));
  }

  /** Walks a set in order. */
  method Walk<T(==, !new)>(le: (T, T) -> bool, keys: set<T>) returns (s: seq<T>)
    requires Linear(le)
    ensures s == InOrder(le, keys)
  {
    s := [];
    var left := keys;
    while left != {}
      invariant left <= keys && Sorted(le, s) && multiset(s) == multiset(keys - left)
      decreases |left|
    {
      var k :| k in left;
      InsertSorted(le, s, k);
      s := Insert(le, s, k);
      assert keys - (left - {k}) == (keys - left) + {k};
      left := left - {k};
    }
    assert keys - left == keys;
    ListedInOrder(le, s, keys);
  }

  // ---- Names ----

  predicate CharLess(a: char, b: char) {
    a < b
  }

  predicate NameLe(a: string, b: string) {
    LexLe(CharLess, a, b)
  }
}
