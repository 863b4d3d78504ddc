/** Any number of turns from an empty world: at each, what the connection's build is given is right. */
module TurnRuns {
  import opened Options
  import opened StreamTypes
  import opened WorldModel
  import opened WorldStorage
  import opened WorldRuns
  import opened CellIndex
  import opened GlobalView
  import opened ProjectedRuns
  import opened ProjectionEngine
  import opened VisibleSet
  import opened ObservedRuns
  import opened SightRuns

  function OpsOf(turns: seq<Turn>): seq<WorldOp> {
    if turns == [] then [] else OpsOf(turns[..|turns| - 1]) + turns[|turns| - 1].ops
  }

  /** The world after some turns. */
  function WorldAfter(start: WorldValue, turns: seq<Turn>): WorldValue {
    MeantAll(start, OpsOf(turns))
  }

  lemma OpsNext(turns: seq<Turn>, k: nat)
    requires k < |turns|
    ensures OpsOf(turns[..k + 1]) == OpsOf(turns[..k]) + turns[k].ops
  {
    assert turns[..k + 1][..k] == turns[..k];
  }

  lemma AfterNext(start: WorldValue, turns: seq<Turn>, k: nat)
    requires k < |turns|
    ensures WorldAfter(start, turns[..k + 1]) == MeantAll(WorldAfter(start, turns[..k]), turns[k].ops)
  {
    OpsNext(turns, k);
    MeantConcat(start, OpsOf(turns[..k]), turns[k].ops);
  }

  lemma {:induction false} OpsPrefix(turns: seq<Turn>, k: nat)
    requires k <= |turns|
    ensures OpsOf(turns[..k]) <= OpsOf(turns)
  {
    if k < |turns| {
      OpsPrefix(turns[..|turns| - 1], k);
      assert turns[..|turns| - 1][..k] == turns[..k];
    } else {
      assert turns[..k] == turns;
    }
  }

  lemma FinePrefix(w: WorldValue, all: seq<WorldOp>, few: seq<WorldOp>)
    requires Fine(w, all) && few <= all
    ensures Fine(w, few)
  {
    assert forall i | 0 <= i < |few| :: few[i] == all[i];
  }

  lemma FineSuffix(w: WorldValue, few: seq<WorldOp>, next: seq<WorldOp>)
    requires Sane(w) && Fine(w, few + next)
    ensures Fine(MeantAll(w, few), next)
  {
    FinePrefix(w, few + next, few);
    RunTraced(w, few, 0);
    assert forall i | 0 <= i < |next| :: next[i] == (few + next)[|few| + i];
  }

  /** Each turn's operations have room after those before it. */
  lemma FineNext(start: WorldValue, turns: seq<Turn>, k: nat)
    requires Sane(start) && Fine(start, OpsOf(turns)) && k < |turns|
    ensures Fine(WorldAfter(start, turns[..k]), turns[k].ops)
  {
    OpsPrefix(turns, k + 1);
    OpsNext(turns, k);
    FinePrefix(start, OpsOf(turns), OpsOf(turns[..k + 1]));
    FineSuffix(start, OpsOf(turns[..k]), turns[k].ops);
  }

  function PolicyBefore(first: Policy, turns: seq<Turn>, k: nat): Policy
    requires k <= |turns|
  {
    if k == 0 then first else turns[k - 1].policy
  }

  /** Each policy may follow the one before. */
  ghost predicate Lawful(place: ProjectedEntity -> Place, first: Policy, turns: seq<Turn>) {
    forall k | 0 <= k < |turns| :: Follows(place)(PolicyBefore(first, turns, k), turns[k].policy)
  }

  function GlobalBefore(first: Global, shown: seq<Shown>, k: nat): Global
    requires k <= |shown|
  {
    if k == 0 then first else shown[k - 1].global
  }

  /** The visible set after a turn is what the connection asks to see of the world as it then is. */
  ghost function SeesRight(index: DynamicCellIndex, start: WorldValue, turns: seq<Turn>, k: nat): Shown -> bool
    requires k < |turns|
  {
    (now: Shown) => Sighted(index, now.global, WorldAfter(start, turns[..k + 1]).objects, Bounds(turns[k].subscription, now.global),
                            turns[k].filter, now.visible)
  }

  /** A cache hit comes without a filter; the same entities are alive as a turn before, and the same are visible, unless a
      filter was then in force. */
  predicate HitAfter(last: Turn, turn: Turn, before: Shown, now: Shown) {
    turn.filter == None && now.global.Keys == before.global.Keys && (last.filter == None ==> now.visible == before.visible)
  }

  /** What is shown after a turn: the view mirrors the world, the news are what differs from the turn before, the visible
      set is what was asked for; and a cache hit tells what it should. */
  ghost predicate TurnShown(index: DynamicCellIndex, start: WorldValue, first: Global, turns: seq<Turn>, shown: seq<Shown>, k: nat)
    requires k < |shown| <= |turns|
  {
    var before, now := GlobalBefore(first, shown, k), shown[k];
    && Shows(turns[k].policy, WorldAfter(start, turns[..k + 1]))(now.global)
    && Differences()(before, now.global, now.changed, now.removed)
    && SeesRight(index, start, turns, k)(now)
    && (k > 0 && now.hit ==> HitAfter(turns[k - 1], turns[k], shown[k - 1], now))
  }

  ghost predicate AllShown(index: DynamicCellIndex, start: WorldValue, first: Global, turns: seq<Turn>, shown: seq<Shown>) {
    |shown| <= |turns| && forall k | 0 <= k < |shown| :: TurnShown(index, start, first, turns, shown, k)
  }

  lemma OneMoreShown(index: DynamicCellIndex, start: WorldValue, first: Global, turns: seq<Turn>, shown: seq<Shown>, now: Shown)
    requires AllShown(index, start, first, turns, shown) && |shown| < |turns|
    requires TurnShown(index, start, first, turns, shown + [now], |shown|)
    ensures AllShown(index, start, first, turns, shown + [now])
  {
    forall k | 0 <= k < |shown|
      ensures TurnShown(index, start, first, turns, shown + [now], k)
    {
      assert TurnShown(index, start, first, turns, shown, k);
    }
  }

  lemma TurnIsShown(index: DynamicCellIndex, start: WorldValue, first: Global, turns: seq<Turn>, shown: seq<Shown>, now: Shown)
    requires |shown| < |turns|
    requires Shows(turns[|shown|].policy, WorldAfter(start, turns[..|shown| + 1]))(now.global)
    requires Differences()(GlobalBefore(first, shown, |shown|), now.global, now.changed, now.removed)
    requires SeesRight(index, start, turns, |shown|)(now)
    requires shown != [] && now.hit ==> HitAfter(turns[|shown| - 1], turns[|shown|], shown[|shown| - 1], now)
    ensures TurnShown(index, start, first, turns, shown + [now], |shown|)
  {
    assert GlobalBefore(first, shown + [now], |shown|) == GlobalBefore(first, shown, |shown|);
  }

  /** World, engine and cache after some turns. */
  ghost predicate Current(world: World, engine: Engine, cache: VisibleCache, policy: Policy, start: WorldValue, turns: seq<Turn>)
    reads world, Cells(world.objects), engine, engine.index, cache
  {
    && world.Valid() && world.Value() == WorldAfter(start, turns)
    && InStep(engine, world) && Shows(policy, world.Value())(engine.global) && Serves(cache, engine)
  }

  method NextTurn(world: World, engine: Engine, cache: VisibleCache, turns: seq<Turn>, shown: seq<Shown>,
                  ghost start: WorldValue, ghost global: Global, ghost first: Policy, ghost place: ProjectedEntity -> Place)
    returns (now: Shown)
    requires |shown| < |turns| && Lawful(place, first, turns) && Sane(start) && Fine(start, OpsOf(turns))
    requires Current(world, engine, cache, PolicyBefore(first, turns, |shown|), start, turns[..|shown|])
    requires engine.global == GlobalBefore(global, shown, |shown|)
    requires shown != [] && turns[|shown| - 1].filter == None ==> cache.visible == shown[|shown| - 1].visible
    modifies world, world.Private(), engine, engine.index, cache
    ensures Current(world, engine, cache, turns[|shown|].policy, start, turns[..|shown| + 1])
    ensures engine.global == now.global && (turns[|shown|].filter == None ==> cache.visible == now.visible)
    ensures TurnShown(engine.index, start, global, turns, shown + [now], |shown|)
    ensures now.hit ==> old(cache.valid)
    ensures forall c | c in world.Private() :: c in old(world.Private()) || fresh(c)
  {
    var k := |shown|;
    FineNext(start, turns, k);
    AfterNext(start, turns, k);
    now := TakeTurn(world, engine, cache, turns[k], PolicyBefore(first, turns, k), place);
    TurnIsShown(engine.index, start, global, turns, shown, now);
  }

  /** One more turn on the record. */
  method AddTurn(world: World, engine: Engine, cache: VisibleCache, turns: seq<Turn>, shown: seq<Shown>,
                 ghost start: WorldValue, ghost global: Global, ghost first: Policy, ghost place: ProjectedEntity -> Place)
    returns (more: seq<Shown>)
    requires |shown| < |turns| && Lawful(place, first, turns) && Sane(start) && Fine(start, OpsOf(turns))
    requires Current(world, engine, cache, PolicyBefore(first, turns, |shown|), start, turns[..|shown|])
    requires engine.global == GlobalBefore(global, shown, |shown|) && AllShown(engine.index, start, global, turns, shown)
    requires shown != [] && turns[|shown| - 1].filter == None ==> cache.visible == shown[|shown| - 1].visible
    modifies world, world.Private(), engine, engine.index, cache
    ensures |more| == |shown| + 1 && shown <= more && AllShown(engine.index, start, global, turns, more)
    ensures Current(world, engine, cache, PolicyBefore(first, turns, |more|), start, turns[..|more|])
    ensures engine.global == GlobalBefore(global, more, |more|)
    ensures turns[|more| - 1].filter == None ==> cache.visible == more[|more| - 1].visible
    ensures more[|more| - 1].hit ==> old(cache.valid)
    ensures forall c | c in world.Private() :: c in old(world.Private()) || fresh(c)
  {
    var now := NextTurn(world, engine, cache, turns, shown, start, global, first, place);
    OneMoreShown(engine.index, start, global, turns, shown, now);
    more := shown + [now];
  }

  /** The turns that are left. */
  method RunRest(world: World, engine: Engine, cache: VisibleCache, turns: seq<Turn>, shown: seq<Shown>,
                 ghost start: WorldValue, ghost global: Global, ghost first: Policy, ghost place: ProjectedEntity -> Place)
    returns (all: seq<Shown>)
    requires |shown| <= |turns| && Lawful(place, first, turns) && Sane(start) && Fine(start, OpsOf(turns))
    requires Current(world, engine, cache, PolicyBefore(first, turns, |shown|), start, turns[..|shown|])
    requires engine.global == GlobalBefore(global, shown, |shown|) && AllShown(engine.index, start, global, turns, shown)
    requires shown != [] && turns[|shown| - 1].filter == None ==> cache.visible == shown[|shown| - 1].visible
    modifies world, world.Private(), engine, engine.index, cache
    ensures world.Valid() && world.Value() == WorldAfter(start, turns)
    ensures |all| == |turns| && shown <= all && AllShown(engine.index, start, global, turns, all)
    ensures shown == [] && turns != [] && all[0].hit ==> old(cache.valid)
    decreases |turns| - |shown|
  {
    if |shown| == |turns| {
      assert turns[..|turns|] == turns;
      return shown;
    }
    var more := AddTurn(world, engine, cache, turns, shown, start, global, first, place);
    all := RunRest(world, engine, cache, turns, more, start, global, first, place);
  }

  /** Turn by turn, from a world the engine has seen. */
  method RunTurns(world: World, engine: Engine, cache: VisibleCache, turns: seq<Turn>, ghost first: Policy, ghost place: ProjectedEntity -> Place)
    returns (shown: seq<Shown>)
    requires Current(world, engine, cache, first, world.Value(), []) && Lawful(place, first, turns)
    requires Sane(world.Value()) && Fine(world.Value(), OpsOf(turns))
    modifies world, world.Private(), engine, engine.index, cache
    ensures world.Valid() && world.Value() == WorldAfter(old(world.Value()), turns)
    ensures |shown| == |turns| && AllShown(engine.index, old(world.Value()), old(engine.global), turns, shown)
    ensures shown != [] && shown[0].hit ==> old(cache.valid)
  {
    shown := RunRest(world, engine, cache, turns, [], world.Value(), engine.global, first, place);
  }

  lemma EmptyShown(policy: Policy)
    ensures Shows(policy, EMPTY_WORLD)(map[]) && Sane(EMPTY_WORLD)
  {
  }

  /** From nothing: an empty world, an engine that has seen nothing, a connection that has not looked yet. */
  method RunFromEmpty(grid: Grid, level: nat, floorHeight: real, turns: seq<Turn>, ghost first: Policy, ghost place: ProjectedEntity -> Place)
    returns (world: World, engine: Engine, shown: seq<Shown>)
    requires Lawful(place, first, turns) && Fine(EMPTY_WORLD, OpsOf(turns))
    ensures world.Valid() && world.Value() == WorldAfter(EMPTY_WORLD, turns)
    ensures engine.index.grid == grid && engine.index.level == level
    ensures |shown| == |turns| && AllShown(engine.index, EMPTY_WORLD, map[], turns, shown)
    ensures shown != [] ==> !shown[0].hit
  {
    world := new World();
    var index := new DynamicCellIndex(grid, level, floorHeight);
    engine := new Engine(index);
    var cache := new VisibleCache(index);
    EmptyShown(first);
    shown := RunTurns(world, engine, cache, turns, first, place);
  }
}
