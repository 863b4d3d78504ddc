/** The order in which checkpoint providers are restored: dependencies first, or refusal. */
module RestoreOrder {
  import opened Options
  import opened Sorting
  import opened TextOrder

  datatype Provider = Provider(id: string, dependencies: seq<string>)

  predicate DistinctIds(providers: seq<Provider>) {
    forall i, j | 0 <= i < j < |providers| :: providers[i].id != providers[j].id
  }

  function Ids(providers: seq<Provider>): set<string> {
    set p | p in providers :: p.id
  }

  method Find(providers: seq<Provider>, id: string) returns (found: Option<Provider>)
    ensures found.Some? ==> found.value in providers && found.value.id == id
    ensures found == None ==> id !in Ids(providers)
  {
    for i := 0 to |providers|
      invariant forall j | 0 <= j < i :: providers[j].id != id
    {
      if providers[i].id == id {
        return Some(providers[i]);
      }
    }
    found := None;
  }

  // ---- The dependency graph ----

  predicate DependsOn(providers: seq<Provider>, a: string, b: string) {
    exists p :: p in providers && p.id == a && b in p.dependencies
  }

  /** Every dependency is registered. */
  ghost predicate Closed(providers: seq<Provider>) {
    forall p, d | p in providers && d in p.dependencies :: d in Ids(providers)
  }

  /** Each one depends on the next. */
  predicate Path(providers: seq<Provider>, path: seq<string>) {
    forall i | 0 <= i < |path| - 1 :: DependsOn(providers, path[i], path[i + 1])
  }

  ghost predicate Cyclic(providers: seq<Provider>) {
    exists path: seq<string> :: |path| > 1 && Path(providers, path) && path[0] == path[|path| - 1]
  }

  /** Every provider in `order` comes after all it depends on. */
  ghost predicate DependenciesFirst(order: seq<Provider>) {
    forall i, d | 0 <= i < |order| && d in order[i].dependencies :: exists j :: 0 <= j < i && order[j].id == d
  }

  /** What the visits so far have put in order. */
  ghost predicate Visited(providers: seq<Provider>, done: set<string>, order: seq<Provider>) {
    && (forall p | p in order :: p in providers)
    && DistinctIds(order) && Ids(order) == done && DependenciesFirst(order)
  }

  /** The providers being visited, each for the sake of the one before, down to the one that asks for `id`. */
  ghost predicate OnStack(providers: seq<Provider>, stack: seq<string>, active: set<string>) {
    && (set id | id in stack) == active
    && (forall i, j | 0 <= i < j < |stack| :: stack[i] != stack[j])
    && (forall id | id in stack :: id in Ids(providers))
    && Path(providers, stack)
  }

  /** `b` is `a`, or `a` depends on it, directly or through others. */
  ghost predicate Needs(providers: seq<Provider>, a: string, b: string) {
    exists path: seq<string> :: |path| > 0 && Path(providers, path) && path[0] == a && path[|path| - 1] == b
  }

  /** A relation that leads from each provider to itself and on to what its dependencies lead to. */
  ghost predicate Leads(providers: seq<Provider>, needs: (string, string) -> bool) {
    && (forall a :: needs(a, a))
    && (forall a, d, b | DependsOn(providers, a, d) && needs(d, b) :: needs(a, b))
  }

  /** Needing is such a relation. */
  lemma NeedsLeads(providers: seq<Provider>) returns (needs: (string, string) -> bool)
    ensures Leads(providers, needs) && forall a, b :: needs(a, b) ==> Needs(providers, a, b)
  {
    needs := NeedsOf(providers);
    forall a
      ensures needs(a, a)
    {
      var path := [a];
      assert Path(providers, path) && path[0] == a && path[|path| - 1] == a;
    }
    forall a, d, b | DependsOn(providers, a, d) && needs(d, b)
      ensures needs(a, b)
    {
      var path :| |path| > 0 && Path(providers, path) && path[0] == d && path[|path| - 1] == b;
      var longer := [a] + path;
      assert Path(providers, longer) && longer[0] == a && longer[|longer| - 1] == b;
    }
  }

  ghost function NeedsOf(providers: seq<Provider>): (string, string) -> bool {
    (a: string, b: string) => Needs(providers, a, b)
  }

  /** What was put in order from `from` on is needed by `id`. */
  ghost predicate NeededBy(needs: (string, string) -> bool, order: seq<Provider>, from: nat, id: string) {
    forall i | from <= i < |order| :: needs(id, order[i].id)
  }

  lemma NeededThrough(providers: seq<Provider>, needs: (string, string) -> bool, a: string, d: string, order: seq<Provider>, from: nat)
    requires Leads(providers, needs) && DependsOn(providers, a, d) && NeededBy(needs, order, from, d)
    ensures NeededBy(needs, order, from, a)
  {
  }

  lemma NeededJoin(needs: (string, string) -> bool, a: seq<Provider>, b: seq<Provider>, from: nat, id: string)
    requires a <= b && NeededBy(needs, a, from, id) && NeededBy(needs, b, |a|, id)
    ensures NeededBy(needs, b, from, id)
  {
  }

  ghost predicate Hopeless(providers: seq<Provider>) {
    !Closed(providers) || Cyclic(providers)
  }

  /** Visits a provider and first, in turn, whatever it depends on. */
  method Visit(providers: seq<Provider>, provider: Provider, done: set<string>, active: set<string>, order: seq<Provider>,
               ghost stack: seq<string>, ghost needs: (string, string) -> bool)
    returns (ok: bool, done': set<string>, order': seq<Provider>)
    requires DistinctIds(providers) && provider in providers && Visited(providers, done, order) && Leads(providers, needs)
    requires OnStack(providers, stack, active) && active !! done
    requires stack != [] ==> DependsOn(providers, stack[|stack| - 1], provider.id)
    ensures ok ==> Visited(providers, done', order') && provider.id in done' && order <= order' && done <= done' && active !! done'
    ensures ok ==> NeededBy(needs, order', |order|, provider.id)
    ensures !ok ==> Hopeless(providers)
    decreases Ids(providers) - active, 0
  {
    done', order' := done, order;
    if provider.id in done {
      return true, done, order;
    }
    if provider.id in active {
      CycleFound(providers, stack, provider.id);
      return false, done, order;
    }
    ghost var deeper := stack + [provider.id];
    assert provider.id in Ids(providers);
    assert (set id | id in deeper) == active + {provider.id};
    ok, done', order' := VisitAll(providers, provider, done, active + {provider.id}, order, deeper, needs);
    if ok {
      LastInOrder(providers, done', order', provider);
      done', order' := done' + {provider.id}, order' + [provider];
    }
  }

  method VisitAll(providers: seq<Provider>, provider: Provider, done: set<string>, active: set<string>, order: seq<Provider>,
                  ghost stack: seq<string>, ghost needs: (string, string) -> bool)
    returns (ok: bool, done': set<string>, order': seq<Provider>)
    requires DistinctIds(providers) && provider in providers && Visited(providers, done, order) && Leads(providers, needs)
    requires OnStack(providers, stack, active) && active !! done && stack != [] && stack[|stack| - 1] == provider.id
    ensures ok ==> Visited(providers, done', order') && order <= order' && done <= done' && active !! done'
                   && forall d | d in provider.dependencies :: d in done'
    ensures ok ==> NeededBy(needs, order', |order|, provider.id)
    ensures !ok ==> Hopeless(providers)
    decreases Ids(providers) - active, 1
  {
    ok, done', order' := true, done, order;
    for i := 0 to |provider.dependencies|
      invariant Visited(providers, done', order') && order <= order' && done <= done' && active !! done'
      invariant NeededBy(needs, order', |order|, provider.id)
      invariant forall d | d in provider.dependencies[..i] :: d in done'
    {
      var dependency := provider.dependencies[i];
      var target := Find(providers, dependency);
      if target == None {
        return false, done', order';
      }
      assert DependsOn(providers, provider.id, dependency);
      ghost var before := order';
      ok, done', order' := Visit(providers, target.value, done', active, order', stack, needs);
      if !ok {
        return;
      }
      NeededThrough(providers, needs, provider.id, dependency, order', |before|);
      NeededJoin(needs, before, order', |order|, provider.id);
    }
  }

  lemma CycleFound(providers: seq<Provider>, stack: seq<string>, id: string)
    requires Path(providers, stack) && id in stack && DependsOn(providers, stack[|stack| - 1], id)
    ensures Cyclic(providers)
  {
    var i :| 0 <= i < |stack| && stack[i] == id;
    var path := stack[i..] + [id];
    assert Path(providers, path);
  }

  lemma LastInOrder(providers: seq<Provider>, done: set<string>, order: seq<Provider>, provider: Provider)
    requires Visited(providers, done, order) && provider in providers && provider.id !in done
    requires forall d | d in provider.dependencies :: d in done
    ensures Visited(providers, done + {provider.id}, order + [provider])
  {
    var all := order + [provider];
    forall i, d | 0 <= i < |all| && d in all[i].dependencies
      ensures exists j :: 0 <= j < i && all[j].id == d
    {
      if i < |order| {
        var j :| 0 <= j < i && order[j].id == d;
        assert all[j].id == d;
      } else {
        assert d in Ids(order);
        var p :| p in order && p.id == d;
        var j :| 0 <= j < |order| && order[j] == p;
        assert all[j].id == d;
      }
    }
    forall i | 0 <= i < |order|
      ensures order[i].id != provider.id
    {
      assert order[i].id in Ids(order);
    }
    assert Ids(all) == Ids(order) + {provider.id};
  }

  predicate ById(a: Provider, b: Provider) {
    NameLe(a.id, b.id)
  }

  /** A provider comes before one with a smaller identifier only for the sake of a provider that needs it and whose identifier
      is no larger than the other's. */
  ghost predicate InIdOrder(providers: seq<Provider>, needs: (string, string) -> bool, order: seq<Provider>) {
    forall i, j | 0 <= i < j < |order| && !NameLe(order[i].id, order[j].id) ::
      exists root :: root in providers && NameLe(root.id, order[j].id) && needs(root.id, order[i].id)
  }

  /** For whose sake each one was put in order: `roots` are places among the sorted providers, and rise; each one is needed by
      its root, whose identifier is no larger. */
  ghost predicate RootsOk(needs: (string, string) -> bool, sorted: seq<Provider>, k: nat, order: seq<Provider>, roots: seq<nat>)
    requires k <= |sorted|
  {
    && |roots| == |order| && (forall i, j | 0 <= i < j < |roots| :: roots[i] <= roots[j])
    && (forall i | 0 <= i < |roots| :: roots[i] < k && needs(sorted[roots[i]].id, order[i].id) && NameLe(sorted[roots[i]].id, order[i].id))
  }

  lemma RootVisited(providers: seq<Provider>, needs: (string, string) -> bool, sorted: seq<Provider>, k: nat, done: set<string>,
                    before: seq<Provider>, order: seq<Provider>, roots: seq<nat>)
    returns (more: seq<nat>)
    requires k < |sorted| && multiset(sorted) == multiset(providers) && Sorted(ById, sorted) && before <= order
    requires Visited(providers, done, before) && (forall j | 0 <= j < k :: sorted[j].id in done)
    requires DistinctIds(order) && (forall p | p in order :: p in providers)
    requires RootsOk(needs, sorted, k, before, roots) && NeededBy(needs, order, |before|, sorted[k].id)
    ensures RootsOk(needs, sorted, k + 1, order, more)
  {
    more := roots + seq(|order| - |before|, i => k);
    forall i | 0 <= i < |order|
      ensures more[i] < k + 1 && needs(sorted[more[i]].id, order[i].id) && NameLe(sorted[more[i]].id, order[i].id)
    {
      if i < |before| {
        assert order[i] == before[i];
      } else {
        NotBefore(providers, sorted, k, done, before, order, i);
      }
    }
  }

  lemma RootsTell(providers: seq<Provider>, needs: (string, string) -> bool, sorted: seq<Provider>, k: nat, order: seq<Provider>, roots: seq<nat>)
    requires multiset(sorted) == multiset(providers) && Sorted(ById, sorted) && k <= |sorted| && RootsOk(needs, sorted, k, order, roots)
    ensures InIdOrder(providers, needs, order)
  {
    SameMembers(sorted, providers);
    forall i, j | 0 <= i < j < |order| && !NameLe(order[i].id, order[j].id)
      ensures exists root :: root in providers && NameLe(root.id, order[j].id) && needs(root.id, order[i].id)
    {
      RootsRise(sorted, roots[i], roots[j], order[j].id);
      assert sorted[roots[i]] in sorted;
    }
  }

  lemma NamesAreLinear()
    ensures Linear(NameLe)
  {
    LexIsLinear(CharLess, NameLe);
  }

  lemma IdsSort(providers: seq<Provider>)
    ensures Sorted(ById, SortBy(ById, providers))
  {
    NamesAreLinear();
    SortBySorted(ById, providers);
  }

  lemma RootsRise(sorted: seq<Provider>, m: nat, k: nat, id: string)
    requires m <= k < |sorted| && Sorted(ById, sorted) && NameLe(sorted[k].id, id)
    ensures NameLe(sorted[m].id, id)
  {
    NamesAreLinear();
    assert m < k ==> ById(sorted[m], sorted[k]);
  }

  lemma NewIsNotDone(before: seq<Provider>, order: seq<Provider>, j: nat)
    requires before <= order && DistinctIds(order) && |before| <= j < |order|
    ensures order[j].id !in Ids(before)
  {
    forall p | p in before
      ensures p.id != order[j].id
    {
      var i :| 0 <= i < |before| && before[i] == p;
      assert order[i] == p;
    }
  }

  /** What is new in order has an identifier no smaller than the root's. */
  lemma NotBefore(providers: seq<Provider>, sorted: seq<Provider>, k: nat, done: set<string>, before: seq<Provider>, order: seq<Provider>, j: nat)
    requires k < |sorted| && multiset(sorted) == multiset(providers) && Sorted(ById, sorted) && before <= order
    requires Visited(providers, done, before) && (forall i | 0 <= i < k :: sorted[i].id in done)
    requires DistinctIds(order) && (forall p | p in order :: p in providers) && |before| <= j < |order|
    ensures NameLe(sorted[k].id, order[j].id)
  {
    SameMembers(sorted, providers);
    assert order[j] in order;
    assert order[j] in sorted;
    var m :| 0 <= m < |sorted| && sorted[m] == order[j];
    NewIsNotDone(before, order, j);
    assert m >= k;
    NamesAreLinear();
    assert m > k ==> ById(sorted[k], sorted[m]);
  }

  /** The restore order: a permutation of the providers with every dependency before its dependents, and else in the order of
      their identifiers; given out exactly if every dependency is registered and none depends on itself, directly or through
      others. */
  method ProvidersInRestoreOrder(providers: seq<Provider>) returns (order: Option<seq<Provider>>)
    requires DistinctIds(providers)
    ensures order.Some? <==> Closed(providers) && !Cyclic(providers)
    ensures order.Some? ==> multiset(order.value) == multiset(providers) && DependenciesFirst(order.value)
    ensures order.Some? ==> InIdOrder(providers, NeedsOf(providers), order.value)
  {
    ghost var needs := NeedsLeads(providers);
    var sorted := SortBy(ById, providers);
    SameMembers(sorted, providers);
    IdsSort(providers);
    ghost var roots: seq<nat>;
    var ok, visited;
    ok, visited, roots := VisitRoots(providers, sorted, needs);
    if !ok {
      return None;
    }
    Complete(providers, sorted, visited);
    NotHopeless(providers, visited);
    RootsTell(providers, needs, sorted, |sorted|, visited, roots);
    NeedsTold(providers, needs, visited);
    order := Some(visited);
  }

  method VisitRoots(providers: seq<Provider>, sorted: seq<Provider>, ghost needs: (string, string) -> bool)
    returns (ok: bool, order: seq<Provider>, ghost roots: seq<nat>)
    requires DistinctIds(providers) && multiset(sorted) == multiset(providers) && Sorted(ById, sorted) && Leads(providers, needs)
    ensures ok ==> (forall p | p in order :: p in providers) && DistinctIds(order) && DependenciesFirst(order)
                   && (forall j | 0 <= j < |sorted| :: sorted[j].id in Ids(order)) && RootsOk(needs, sorted, |sorted|, order, roots)
    ensures !ok ==> Hopeless(providers)
  {
    var done := {};
    ok, order, roots := true, [], [];
    for i := 0 to |sorted|
      invariant ok && Visited(providers, done, order)
      invariant forall j | 0 <= j < i :: sorted[j].id in done
      invariant RootsOk(needs, sorted, i, order, roots)
    {
      ok, done, order, roots := VisitRoot(providers, sorted, i, done, order, needs, roots);
      if !ok {
        return;
      }
    }
  }

  method VisitRoot(providers: seq<Provider>, sorted: seq<Provider>, k: nat, done: set<string>, order: seq<Provider>,
                   ghost needs: (string, string) -> bool, ghost roots: seq<nat>)
    returns (ok: bool, done': set<string>, order': seq<Provider>, ghost roots': seq<nat>)
    requires DistinctIds(providers) && multiset(sorted) == multiset(providers) && Sorted(ById, sorted) && k < |sorted|
    requires Leads(providers, needs) && Visited(providers, done, order) && forall j | 0 <= j < k :: sorted[j].id in done
    requires RootsOk(needs, sorted, k, order, roots)
    ensures ok ==> Visited(providers, done', order') && forall j | 0 <= j < k + 1 :: sorted[j].id in done'
    ensures ok ==> RootsOk(needs, sorted, k + 1, order', roots')
    ensures !ok ==> Hopeless(providers)
  {
    RootIsProvider(providers, sorted, k);
    roots' := roots;
    ok, done', order' := VisitAlone(providers, sorted[k], done, order, needs);
    if ok {
      roots' := RootVisited(providers, needs, sorted, k, done, order, order', roots);
    }
  }

  lemma RootIsProvider(providers: seq<Provider>, sorted: seq<Provider>, k: nat)
    requires multiset(sorted) == multiset(providers) && k < |sorted|
    ensures sorted[k] in providers
  {
    SameMembers(sorted, providers);
    assert sorted[k] in sorted;
  }

  method VisitAlone(providers: seq<Provider>, root: Provider, done: set<string>, order: seq<Provider>, ghost needs: (string, string) -> bool)
    returns (ok: bool, done': set<string>, order': seq<Provider>)
    requires DistinctIds(providers) && root in providers && Visited(providers, done, order) && Leads(providers, needs)
    ensures ok ==> Visited(providers, done', order') && order <= order' && done <= done' && root.id in done'
                   && NeededBy(needs, order', |order|, root.id)
    ensures !ok ==> Hopeless(providers)
  {
    ok, done', order' := Visit(providers, root, done, {}, order, [], needs);
  }

  lemma NeedsTold(providers: seq<Provider>, needs: (string, string) -> bool, order: seq<Provider>)
    requires InIdOrder(providers, needs, order) && forall a, b :: needs(a, b) ==> Needs(providers, a, b)
    ensures InIdOrder(providers, NeedsOf(providers), order)
  {
    forall i, j | 0 <= i < j < |order| && !NameLe(order[i].id, order[j].id)
      ensures exists root :: root in providers && NameLe(root.id, order[j].id) && NeedsOf(providers)(root.id, order[i].id)
    {
      var root :| root in providers && NameLe(root.id, order[j].id) && needs(root.id, order[i].id);
      assert NeedsOf(providers)(root.id, order[i].id);
    }
  }

  lemma SameMembers<T>(a: seq<T>, b: seq<T>)
    requires multiset(a) == multiset(b)
    ensures forall x :: x in a <==> x in b
  {
    forall x
      ensures x in a <==> x in b
    {
      assert x in a <==> x in multiset(a);
      assert x in b <==> x in multiset(b);
    }
  }

  lemma UniqueById(providers: seq<Provider>, p: Provider, q: Provider)
    requires DistinctIds(providers) && p in providers && q in providers && p.id == q.id
    ensures p == q
  {
    var i :| 0 <= i < |providers| && providers[i] == p;
    var j :| 0 <= j < |providers| && providers[j] == q;
    assert i == j;
  }

  lemma {:induction false} DistinctOnce(order: seq<Provider>, p: Provider)
    requires DistinctIds(order)
    ensures multiset(order)[p] == if p in order then 1 else 0
  {
    if order != [] {
      var init, last := order[..|order| - 1], order[|order| - 1];
      DistinctOnce(init, p);
      assert order == init + [last];
      forall i | 0 <= i < |init|
        ensures init[i] != last
      {
        assert order[i].id != order[|order| - 1].id;
      }
    }
  }

  lemma Complete(providers: seq<Provider>, sorted: seq<Provider>, order: seq<Provider>)
    requires DistinctIds(providers) && multiset(sorted) == multiset(providers) && DistinctIds(order)
    requires forall p | p in order :: p in providers
    requires forall j | 0 <= j < |sorted| :: sorted[j].id in Ids(order)
    ensures multiset(order) == multiset(providers)
  {
    SameMembers(sorted, providers);
    forall p
      ensures multiset(order)[p] == multiset(providers)[p]
    {
      DistinctOnce(order, p);
      DistinctOnce(providers, p);
      if p in providers {
        var j :| 0 <= j < |sorted| && sorted[j] == p;
        var q :| q in order && q.id == p.id;
        UniqueById(providers, p, q);
      }
    }
  }

  /** An order with dependencies first leaves no room for a cycle. */
  lemma NotHopeless(providers: seq<Provider>, order: seq<Provider>)
    requires DistinctIds(providers) && multiset(order) == multiset(providers) && DependenciesFirst(order) && DistinctIds(order)
    ensures Closed(providers) && !Cyclic(providers)
  {
    SameMembers(order, providers);
    forall p, d | p in providers && d in p.dependencies
      ensures d in Ids(providers)
    {
      var i :| 0 <= i < |order| && order[i] == p;
      var j :| 0 <= j < i && order[j].id == d;
      assert order[j] in providers;
    }
    forall path: seq<string> | |path| > 1 && Path(providers, path)
      ensures path[0] != path[|path| - 1]
    {
      var positions := PathDescends(providers, order, path);
    }
  }

  /** Along a path the position in the order goes down. */
  lemma {:induction false} PathDescends(providers: seq<Provider>, order: seq<Provider>, path: seq<string>) returns (positions: (nat, nat))
    requires DistinctIds(providers) && DistinctIds(order) && DependenciesFirst(order) && (forall p | p in providers :: p in order)
    requires |path| > 1 && Path(providers, path)
    ensures positions.0 < |order| && positions.1 < positions.0
    ensures order[positions.0].id == path[0] && order[positions.1].id == path[|path| - 1]
  {
    var n := |path| - 1;
    if n == 1 {
      assert DependsOn(providers, path[0], path[1]);
      var p :| p in providers && p.id == path[0] && path[1] in p.dependencies;
      var i :| 0 <= i < |order| && order[i] == p;
      var j :| 0 <= j < i && order[j].id == path[1];
      positions := (i, j);
    } else {
      var earlier := PathDescends(providers, order, path[..n]);
      assert DependsOn(providers, path[n - 1], path[n]);
      var p :| p in providers && p.id == path[n - 1] && path[n] in p.dependencies;
      var i :| 0 <= i < |order| && order[i] == p;
      assert i == earlier.1;
      var j :| 0 <= j < i && order[j].id == path[n];
      positions := (earlier.0, j);
    }
  }
}
