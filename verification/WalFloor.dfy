/** Where the log writer goes on after recovery when a checkpoint already includes LSNs: the recovery floor. */
module WalFloor {
  import opened Integers
  import opened Options
  import opened WalCodec
  import opened SegmentNames
  import opened WalScan
  import opened WalDirectory
  import opened Recovery
  import opened Sorting

  datatype Beginning = GoesOn(next: nat) | NoLsnLeft | LogRefused(error: ScanError)

  /** The floor is the last LSN included, zero if there is none. Without segments the writer goes on after the floor, else
      after the last record, wherever that is. */
  function BeginningOf(read: FileScan, entries: seq<Entry>, floor: nat): Beginning {
    if read.verdict.Failed? then LogRefused(read.verdict.error)
    else if floor == 0 then GoesOn(read.expected)
    else if floor >= U64_MAX then NoLsnLeft
    else if entries == [] then GoesOn(floor + 1)
    else if entries[0].segment.first > floor + 1 then LogRefused(LsnDiscontinuity)
    else GoesOn(read.expected)
  }

  function FirstExpected(floor: nat): nat {
    if floor == 0 then 1 else 0
  }

  method StartWriter(f: Format, dir: Dir, listing: seq<string>, floor: nat) returns (beginning: Beginning, dir': Dir)
    ensures var entries := SortBy(Earlier, Segments(listing));
            var scan := ScanEntries(f, dir, entries, ScanStart(entries, FirstExpected(floor)), true);
            beginning == BeginningOf(scan.0, entries, floor) && dir' == scan.1
  {
    var read;
    read, dir' := ScanWalDirectory(f, dir, listing, FirstExpected(floor), true);
    if read.verdict.Failed? {
      return LogRefused(read.verdict.error), dir';
    }
    var next, segments := read.expected, SortBy(Earlier, Segments(listing));
    if floor > 0 {
      if floor >= U64_MAX {
        return NoLsnLeft, dir';
      }
      if segments == [] {
        next := floor + 1;
      } else if segments[0].segment.first > floor + 1 {
        return LogRefused(LsnDiscontinuity), dir';
      }
    }
    beginning := GoesOn(next);
  }

  function Begins(f: Format, dir: Dir, entries: seq<Entry>, floor: nat): Beginning {
    BeginningOf(ScanEntries(f, dir, entries, ScanStart(entries, FirstExpected(floor)), true).0, entries, floor)
  }

  /** Some segment is there, none holds a record, and the first one starts at or below the floor. */
  predicate BlankBelow(plan: Plan, entries: seq<Entry>, floor: nat) {
    entries != [] && plan.Plan? && plan.last == 0 && entries[0].segment.first <= floor
  }

  /** From a log that the recovery plan accepts for the checkpoint, the writer goes on, and above the floor exactly unless all
      segments are blank and the first starts at or below it. */
  lemma AboveFloorIff(f: Format, dir: Dir, entries: seq<Entry>, floor: nat)
    requires 0 < floor < U64_MAX && (forall i | 0 <= i < |entries| :: entries[i].segment.first > 0)
    requires PlanOf(f, dir, entries, Some(floor), true).Plan?
    ensures var begins := Begins(f, dir, entries, floor);
            begins.GoesOn? && (begins.next > floor <==> !BlankBelow(PlanOf(f, dir, entries, Some(floor), true), entries, floor))
  {
    EntriesNumber(f, dir, entries, ScanStart(entries, 0), true);
  }

  /** Whatever is logged at or below the floor, no plan for the checkpoint replays. */
  lemma BelowFloorIsSkipped(f: Format, dir: Dir, listing: seq<string>, floor: nat, trim: bool, r: Scanned)
    requires var plan := PlanOf(f, dir, SortBy(Earlier, Segments(listing)), Some(floor), trim); plan.Plan? && r in plan.replay
    ensures r.lsn > floor
  {
    PlanIsExact(f, dir, listing, Some(floor), trim);
  }

  /** Concretely: an empty active segment named for LSN five under a checkpoint that includes ten. The plan is accepted, and
      the writer gives LSN five again. */
  lemma FloorIsUndercut(f: Format)
    ensures var blank := [Entry(SegmentName(5, true).Text(), SegmentName(5, true))];
            && PlanOf(f, map[], blank, Some(10), true) == Plan([], 0)
            && Begins(f, map[], blank, 10) == GoesOn(5)
  {
    var e := Entry(SegmentName(5, true).Text(), SegmentName(5, true));
    assert FileOf(map[], e).bytes == [];
    ScanSingle(f, map[], e, 5);
    assert [e][1..] == [] && ScanStart([e], 0) == 5;
  }
}
