/** The recovery plan: which logged records to replay on top of a checkpoint. */
module Recovery {
  import opened Integers
  import opened Options
  import opened LeBytes
  import opened WalCodec
  import opened WalScan
  import opened WalDirectory
  import opened Sorting

  datatype Refusal = BadLog(error: ScanError) | LogStartsTooLate | LogEndsTooEarly

  datatype Plan = Plan(replay: seq<Scanned>, last: nat) | Refused(why: Refusal)

  function Above(records: seq<Scanned>, lsn: nat): seq<Scanned> {
    if records == [] then []
    else Above(records[..|records| - 1], lsn) + if records[|records| - 1].lsn > lsn then [records[|records| - 1]] else []
  }

  /** The plan for a log scanned from its first segment on; without a checkpoint it must start at the first LSN. */
  function PlanFor(read: FileScan, start: nat, segments: bool, checkpoint: Option<nat>): Plan {
    var included := if checkpoint.Some? then checkpoint.value else 0;
    var last := if read.expected > start then read.expected - 1 else 0;
    if read.verdict.Failed? then Refused(BadLog(read.verdict.error))
    else if checkpoint.Some? && segments && (included == U64_MAX || start > included + 1) then Refused(LogStartsTooLate)
    else if 0 < last < included then Refused(LogEndsTooEarly)
    else Plan(Above(read.records, included), last)
  }

  function PlanOf(f: Format, dir: Dir, entries: seq<Entry>, checkpoint: Option<nat>, trim: bool): Plan {
    var start := ScanStart(entries, if checkpoint.Some? then 0 else 1);
    PlanFor(ScanEntries(f, dir, entries, start, trim).0, start, entries != [], checkpoint)
  }

  method SelectAbove(records: seq<Scanned>, included: nat) returns (replay: seq<Scanned>)
    ensures replay == Above(records, included)
  {
    replay := [];
    for i := 0 to |records|
      invariant replay == Above(records[..i], included)
    {
      assert records[..i + 1][..i] == records[..i];
      if records[i].lsn > included {
        replay := replay + [records[i]];
      }
    }
    assert records[..|records|] == records;
  }

  method BuildPlan(f: Format, dir: Dir, listing: seq<string>, checkpoint: Option<nat>, trim: bool) returns (plan: Plan, dir': Dir)
    ensures plan == PlanOf(f, dir, SortBy(Earlier, Segments(listing)), checkpoint, trim)
  {
    var read;
    read, dir' := ScanWalDirectory(f, dir, listing, if checkpoint.Some? then 0 else 1, trim);
    var segments := SortBy(Earlier, Segments(listing));
    plan := PlanRead(read, ScanStart(segments, if checkpoint.Some? then 0 else 1), segments != [], checkpoint);
  }

  method PlanRead(read: FileScan, start: nat, segments: bool, checkpoint: Option<nat>) returns (plan: Plan)
    ensures plan == PlanFor(read, start, segments, checkpoint)
  {
    var included := if checkpoint.Some? then checkpoint.value else 0;
    if read.verdict.Failed? {
      return Refused(BadLog(read.verdict.error));
    }
    if checkpoint.Some? && segments && (included == U64_MAX || start > included + 1) {
      return Refused(LogStartsTooLate);
    }
    var last := if read.expected > start then read.expected - 1 else 0;
    if 0 < last < included {
      return Refused(LogEndsTooEarly);
    }
    var replay := SelectAbove(read.records, included);
    plan := Plan(replay, last);
  }

  // ---- Whatever is scanned is numbered without gaps ----

  predicate Consecutive(records: seq<Scanned>, first: nat) {
    forall i | 0 <= i < |records| :: records[i].lsn == first + i
  }

  /** What a scan from `first` on may return. */
  ghost predicate Numbers(read: FileScan, first: nat) {
    Consecutive(read.records, first) && (!read.verdict.Failed? ==> read.expected == first + |read.records|)
  }

  lemma OneBefore(read: FileScan, r: Scanned, first: nat)
    requires r.lsn == first && Numbers(read, first + 1)
    ensures Numbers(read.After([r]), first)
  {
  }

  lemma {:induction false} TailNumbers(f: Format, tail: seq<Byte>, offset: nat, first: nat, trimmable: bool)
    ensures Numbers(ScanTail(f, tail, offset, first, trimmable), first)
    decreases |tail|
  {
    if tail != [] {
      var d := f.decode(tail);
      if d.Decoded? && d.lsn == first && first != U64_MAX {
        TailNumbers(f, tail[d.total..], offset + d.total, first + 1, trimmable);
        OneBefore(ScanTail(f, tail[d.total..], offset + d.total, first + 1, trimmable), Scanned(d.lsn, d.record), first);
      }
    }
  }

  lemma JoinNumbers(head: FileScan, rest: FileScan, first: nat)
    requires Numbers(head, first) && !head.verdict.Failed? && Numbers(rest, head.expected)
    ensures Numbers(rest.After(head.records), first)
  {
  }

  lemma {:induction false} EntriesNumber(f: Format, dir: Dir, entries: seq<Entry>, first: nat, trim: bool)
    ensures Numbers(ScanEntries(f, dir, entries, first, trim).0, first)
    decreases |entries|
  {
    if entries != [] {
      var file := FileOf(dir, entries[0]);
      if |file.bytes| >= SEGMENT_HEADER_BYTES {
        TailNumbers(f, file.bytes[SEGMENT_HEADER_BYTES..], SEGMENT_HEADER_BYTES, first, file.active && trim);
      }
      var head := ScanFile(f, file, first, trim);
      assert Numbers(head, first);
      if !head.verdict.Failed? {
        var dir' := Trimmed(dir, entries[0], head.verdict);
        EntriesNumber(f, dir', entries[1..], head.expected, trim);
        JoinNumbers(head, ScanEntries(f, dir', entries[1..], head.expected, trim).0, first);
      }
    }
  }

  lemma {:induction false} AboveNumbered(records: seq<Scanned>, first: nat, included: nat)
    requires Consecutive(records, first)
    ensures first <= included + 1 ==> Consecutive(Above(records, included), included + 1)
    ensures |Above(records, included)| == if first + |records| > included + 1 then if first > included then |records| else first + |records| - 1 - included else 0
  {
    if records != [] {
      AboveNumbered(records[..|records| - 1], first, included);
    }
  }

  /** Of any directory whatever, in any listing order: an accepted plan replays exactly the LSNs after those the
      checkpoint includes up to the last one logged, in order, without gap or repetition. */
  lemma PlanIsExact(f: Format, dir: Dir, listing: seq<string>, checkpoint: Option<nat>, trim: bool)
    requires PlanOf(f, dir, SortBy(Earlier, Segments(listing)), checkpoint, trim).Plan?
    ensures var plan := PlanOf(f, dir, SortBy(Earlier, Segments(listing)), checkpoint, trim);
            var included := if checkpoint.Some? then checkpoint.value else 0;
            && Consecutive(plan.replay, included + 1)
            && |plan.replay| == if plan.last > included then plan.last - included else 0
  {
    var entries := SortBy(Earlier, Segments(listing));
    var start := ScanStart(entries, if checkpoint.Some? then 0 else 1);
    EntriesNumber(f, dir, entries, start, trim);
    AboveNumbered(ScanEntries(f, dir, entries, start, trim).0.records, start, if checkpoint.Some? then checkpoint.value else 0);
  }
}
