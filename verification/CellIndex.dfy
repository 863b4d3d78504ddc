/** The grid of cells over the plane, and the index of which entity is in which cell. Positions are real numbers. */
module CellIndex {
  import opened Options
  import opened StreamTypes
  import opened Connection
  import opened FrameScan
  import opened TextOrder

  datatype Enu = Enu(east: real, north: real, up: real)

  datatype CellKey = CellKey(x: int, y: int, level: nat, z: int)

  function Pow2(n: nat): (p: nat)
    ensures p > 0
  {
    if n == 0 then 1 else 2 * Pow2(n - 1)
  }

  /** Cells of the base size at level zero, twice as large from level to level up to the highest. */
  datatype Grid = Grid(base: real, maxLevel: nat) {
    function Base(): (b: real)
      ensures b > 0.0
    {
      if base > 0.0 then base else 1.0
    }

    function Clamped(level: nat): nat {
      if level > maxLevel then maxLevel else level
    }

    function Size(level: nat): (size: real)
      ensures size > 0.0
    {
      Base() * (Pow2(Clamped(level)) as real)
    }

    /** The cell of a position; without floors all are on one storey. */
    function CellFor(p: Enu, level: nat, floor: real): CellKey {
      CellKey((p.east / Size(level)).Floor, (p.north / Size(level)).Floor, Clamped(level), if floor > 0.0 then (p.up / floor).Floor else 0)
    }
  }

  function Min(a: real, b: real): real {
    if a < b then a else b
  }

  function Max(a: real, b: real): real {
    if a < b then b else a
  }

  predicate Inside(p: Enu, a: Enu, b: Enu) {
    && Min(a.east, b.east) <= p.east <= Max(a.east, b.east)
    && Min(a.north, b.north) <= p.north <= Max(a.north, b.north)
    && Min(a.up, b.up) <= p.up <= Max(a.up, b.up)
  }

  /** A cell between two others, at the given level. */
  predicate Between(c: CellKey, first: CellKey, last: CellKey, level: nat) {
    first.x <= c.x <= last.x && first.y <= c.y <= last.y && first.z <= c.z <= last.z && c.level == level
  }

  function Lowest(a: Enu, b: Enu): Enu {
    Enu(Min(a.east, b.east), Min(a.north, b.north), Min(a.up, b.up))
  }

  function Highest(a: Enu, b: Enu): Enu {
    Enu(Max(a.east, b.east), Max(a.north, b.north), Max(a.up, b.up))
  }

  lemma FloorRises(a: real, b: real, size: real)
    requires a <= b && size > 0.0
    ensures (a / size).Floor <= (b / size).Floor
  {
    assert a / size <= b / size;
  }

  lemma Scaled(a: real, b: real, size: real)
    requires size > 0.0 && a <= b
    ensures a * size <= b * size
  {
  }

  lemma ScaledLess(a: real, b: real, size: real)
    requires size > 0.0 && a < b
    ensures a * size < b * size
  {
  }

  lemma OneMore(k: real, size: real)
    ensures (k + 1.0) * size == k * size + size
  {
  }

  lemma Quotient(a: real, size: real, q: real)
    requires size > 0.0 && q == a / size
    ensures q * size == a
  {
  }

  lemma FloorHolds(a: real, size: real)
    requires size > 0.0
    ensures var k := (a / size).Floor; (k as real) * size <= a < (k as real) * size + size
  {
    var q := a / size;
    var k := q.Floor as real;
    Quotient(a, size, q);
    Scaled(k, q, size);
    ScaledLess(q, k + 1.0, size);
    OneMore(k, size);
    assert a < (k + 1.0) * size;
  }

  lemma {:induction false} PowersDouble(n: nat)
    ensures Pow2(n + 1) == 2 * Pow2(n) && Pow2(0) == 1
  {
  }

  /** A cell holds exactly the positions from its edges up to the next ones; from level to level the edges are twice as long. */
  lemma CellHolds(grid: Grid, p: Enu, level: nat, floor: real)
    ensures var c, size := grid.CellFor(p, level, floor), grid.Size(level);
            && (c.x as real) * size <= p.east < (c.x as real) * size + size
            && (c.y as real) * size <= p.north < (c.y as real) * size + size
            && (if floor > 0.0 then (c.z as real) * floor <= p.up < (c.z as real) * floor + floor else c.z == 0)
            && c.level == (if level <= grid.maxLevel then level else grid.maxLevel)
    ensures grid.Size(0) == (if grid.base > 0.0 then grid.base else 1.0)
    ensures grid.Size(level + 1) == grid.Size(level) * if level < grid.maxLevel then 2.0 else 1.0
  {
    FloorHolds(p.east, grid.Size(level));
    FloorHolds(p.north, grid.Size(level));
    if floor > 0.0 {
      FloorHolds(p.up, floor);
    }
    PowersDouble(level);
  }

  lemma NotFarBelow(p: real, low: real, size: real)
    requires size > 0.0 && (low / size).Floor <= (p / size).Floor
    ensures low - size < p
  {
    var k, n := (low / size).Floor as real, (p / size).Floor as real;
    FloorHolds(p, size);
    FloorHolds(low, size);
    Scaled(k, n, size);
    EdgesTell(low, p, k * size, n * size, size);
  }

  lemma EdgesTell(low: real, p: real, a: real, b: real, size: real)
    requires low < a + size && a <= b <= p
    ensures low - size < p
  {
  }

  lemma BetweenIsNear(p: real, low: real, high: real, size: real)
    requires size > 0.0 && (low / size).Floor <= (p / size).Floor <= (high / size).Floor
    ensures low - size < p < high + size
  {
    NotFarBelow(p, low, size);
    NotFarBelow(high, p, size);
  }

  /** Whatever is in a cell between those of two corners is less than one cell away from their box. */
  lemma FoundIsNear(grid: Grid, level: nat, floor: real, p: Enu, low: Enu, high: Enu)
    requires Between(grid.CellFor(p, level, floor), grid.CellFor(low, level, floor), grid.CellFor(high, level, floor), level)
    ensures low.east - grid.Size(level) < p.east < high.east + grid.Size(level)
    ensures low.north - grid.Size(level) < p.north < high.north + grid.Size(level)
    ensures floor > 0.0 ==> low.up - floor < p.up < high.up + floor
  {
    BetweenIsNear(p.east, low.east, high.east, grid.Size(level));
    BetweenIsNear(p.north, low.north, high.north, grid.Size(level));
    if floor > 0.0 {
      BetweenIsNear(p.up, low.up, high.up, floor);
    }
  }

  /** Whatever is inside the bounds is in a cell between those of the corners, if the level is one of the grid's. */
  lemma InsideIsBetween(grid: Grid, level: nat, floor: real, p: Enu, a: Enu, b: Enu)
    requires Inside(p, a, b) && level <= grid.maxLevel
    ensures Between(grid.CellFor(p, level, floor), grid.CellFor(Lowest(a, b), level, floor), grid.CellFor(Highest(a, b), level, floor), level)
  {
    var low, high := Lowest(a, b), Highest(a, b);
    FloorRises(low.east, p.east, grid.Size(level));
    FloorRises(p.east, high.east, grid.Size(level));
    FloorRises(low.north, p.north, grid.Size(level));
    FloorRises(p.north, high.north, grid.Size(level));
    if floor > 0.0 {
      FloorRises(low.up, p.up, floor);
      FloorRises(p.up, high.up, floor);
    }
  }

  /** Which of the located entities are in the cells between two. */
  ghost function Found(locations: map<WorldId, CellKey>, first: CellKey, last: CellKey, level: nat): set<WorldId> {
    set w | w in locations && Between(locations[w], first, last, level)
  }

  /** A query finds every entity located inside its bounds exactly if its level is one of the grid's: a level too high is
      cut down when an entity is put in, and not when it is looked for. */
  lemma QueryCompleteIff(grid: Grid, level: nat, floor: real)
    ensures (forall p, a, b | Inside(p, a, b) ::
               1 in Found(map[1 := grid.CellFor(p, level, floor)], grid.CellFor(Lowest(a, b), level, floor), grid.CellFor(Highest(a, b), level, floor), level))
       <==> level <= grid.maxLevel
  {
    if level <= grid.maxLevel {
      forall p, a, b | Inside(p, a, b)
        ensures 1 in Found(map[1 := grid.CellFor(p, level, floor)], grid.CellFor(Lowest(a, b), level, floor), grid.CellFor(Highest(a, b), level, floor), level)
      {
        InsideIsBetween(grid, level, floor, p, a, b);
      }
    } else {
      var o := Enu(0.0, 0.0, 0.0);
      assert Inside(o, o, o);
      assert grid.CellFor(o, level, floor).level != level;
    }
  }

  class DynamicCellIndex {
    const grid: Grid
    const level: nat
    const floorHeight: real
    var members: map<CellKey, set<WorldId>>
    var locations: map<WorldId, CellKey>

    /** Every entity is a member of the cell it is located in, and of no other. */
    predicate Valid()
      reads this
    {
      && (forall w | w in locations :: locations[w] in members && w in members[locations[w]])
      && (forall c | c in members :: forall w | w in members[c] :: w in locations && locations[w] == c)
    }

    function Cell(p: Enu): CellKey {
      grid.CellFor(p, level, floorHeight)
    }

    constructor (grid: Grid, level: nat, floorHeight: real)
      ensures Valid() && locations == map[] && this.grid == grid && this.level == level
    {
      this.grid, this.level, this.floorHeight := grid, level, if floorHeight > 0.0 then floorHeight else 0.0;
      members, locations := map[], map[];
    }

    method Upsert(id: WorldId, position: Enu) returns (migration: Option<(CellKey, CellKey)>)
      requires Valid()
      modifies this
      ensures Valid() && locations == if id == 0 then old(locations) else old(locations)[id := Cell(position)]
      ensures migration == if id != 0 && id in old(locations) && old(locations)[id] != Cell(position)
                           then Some((old(locations)[id], Cell(position))) else None
    {
      if id == 0 {
        return None;
      }
      var current := Cell(position);
      if id !in locations {
        Join(id, current);
        locations := locations[id := current];
        return None;
      }
      var previous := locations[id];
      if previous == current {
        assert locations[id := current] == locations;
        return None;
      }
      members := members[previous := members[previous] - {id}];
      Join(id, current);
      locations := locations[id := current];
      migration := Some((previous, current));
    }

    method Join(id: WorldId, cell: CellKey)
      modifies this`members
      ensures members == old(members)[cell := (if cell in old(members) then old(members)[cell] else {}) + {id}]
    {
      members := members[cell := (if cell in members then members[cell] else {}) + {id}];
    }

    method Erase(id: WorldId) returns (erased: bool)
      requires Valid()
      modifies this
      ensures Valid() && locations == old(locations) - {id} && erased == (id in old(locations))
    {
      erased := id in locations;
      if erased {
        members := members[locations[id] := members[locations[id]] - {id}];
        locations := locations - {id};
      }
    }

    /** One row of cells. */
    method QueryRow(first: CellKey, last: CellKey, y: int, z: int, found: set<WorldId>) returns (result: set<WorldId>)
      requires Valid()
      ensures result == found + Found(locations, CellKey(first.x, y, level, z), CellKey(last.x, y, level, z), level)
    {
      result := found;
      var x := first.x;
      while x <= last.x
        invariant x <= last.x + 1 || x == first.x
        invariant result == found + Found(locations, CellKey(first.x, y, level, z), CellKey(x - 1, y, level, z), level)
      {
        var cell := CellKey(x, y, level, z);
        if cell in members {
          result := result + members[cell];
        }
        x := x + 1;
      }
    }

    /** One storey of cells. */
    method QueryStorey(first: CellKey, last: CellKey, z: int, found: set<WorldId>) returns (result: set<WorldId>)
      requires Valid()
      ensures result == found + Found(locations, CellKey(first.x, first.y, level, z), CellKey(last.x, last.y, level, z), level)
    {
      result := found;
      var y := first.y;
      while y <= last.y
        invariant y <= last.y + 1 || y == first.y
        invariant result == found + Found(locations, CellKey(first.x, first.y, level, z), CellKey(last.x, y - 1, level, z), level)
      {
        result := QueryRow(first, last, y, z, result);
        y := y + 1;
      }
    }

    method QueryCells(first: CellKey, last: CellKey) returns (result: set<WorldId>)
      requires Valid()
      ensures result == Found(locations, first, last, level)
    {
      result := {};
      var z := first.z;
      while z <= last.z
        invariant z <= last.z + 1 || z == first.z
        invariant result == Found(locations, first, last.(z := z - 1), level)
      {
        result := QueryStorey(first, last, z, result);
        z := z + 1;
      }
    }

    /** The entities in the cells that the bounds touch, in order: all those inside the bounds, and perhaps more. */
    method QueryCandidates(a: Enu, b: Enu) returns (result: seq<WorldId>)
      requires Valid()
      ensures Ascending(result) && Elements(result) == Found(locations, Cell(Lowest(a, b)), Cell(Highest(a, b)), level)
    {
      var found := QueryCells(Cell(Lowest(a, b)), Cell(Highest(a, b)));
      result := Walk(WidLe, found);
    }
  }

  predicate WidLe(a: WorldId, b: WorldId) {
    a <= b
  }
}
