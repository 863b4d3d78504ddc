/** Removing log segments that a checkpoint covers: when the recovery plan stays the same, and when it is lost. */
module Pruning {
  import opened Integers
  import opened Options
  import opened WalCodec
  import opened SegmentNames
  import opened WalScan
  import opened WalDirectory
  import opened Recovery

  // ---- What is covered ----

  /** How many of the closed segments, in order, end at or below the LSN the checkpoint includes; a segment's end is
      known from the start of the next one only. */
  function Covered(firsts: seq<nat>, active: Option<nat>, included: nat): (n: nat)
    ensures n <= |firsts|
  {
    if firsts == [] then 0
    else
      var next := if |firsts| > 1 then Some(firsts[1]) else active;
      if next.Some? && next.value > 0 && next.value - 1 <= included then 1 + Covered(firsts[1..], active, included) else 0
  }

  predicate Rising(firsts: seq<nat>, active: Option<nat>) {
    && (forall i, j | 0 <= i < j < |firsts| :: firsts[i] < firsts[j])
    && (active.Some? ==> forall i | 0 <= i < |firsts| :: firsts[i] < active.value)
  }

  /** What pruning removes. */
  function Pruned(firsts: seq<nat>, active: Option<nat>, included: nat, removes: nat -> bool): seq<nat> {
    if included == 0 then [] else Removed(firsts[..Covered(firsts, active, included)], removes)
  }

  /** Removes what is covered, each removal possibly failing; `included` zero removes nothing. */
  method PruneCovered(firsts: seq<nat>, active: Option<nat>, included: nat, removes: nat -> bool) returns (removed: seq<nat>)
    requires Rising(firsts, active)
    ensures removed == Pruned(firsts, active, included, removes)
  {
    removed := [];
    if included == 0 {
      return;
    }
    ghost var n := Covered(firsts, active, included);
    for i := 0 to |firsts|
      invariant removed == Removed(firsts[..if i < n then i else n], removes)
    {
      CoveredIff(firsts, active, included, i);
      var next := if i + 1 < |firsts| then Some(firsts[i + 1]) else active;
      if next.Some? && next.value > 0 && next.value - 1 <= included {
        assert firsts[..i + 1][..i] == firsts[..i];
        if removes(firsts[i]) {
          removed := removed + [firsts[i]];
        }
      }
    }
  }

  function Removed(firsts: seq<nat>, removes: nat -> bool): seq<nat> {
    if firsts == [] then []
    else Removed(firsts[..|firsts| - 1], removes) + if removes(firsts[|firsts| - 1]) then [firsts[|firsts| - 1]] else []
  }

  /** What is covered is exactly an initial run of the segments: those whose successor starts at most one above. */
  lemma {:induction false} CoveredIff(firsts: seq<nat>, active: Option<nat>, included: nat, i: nat)
    requires Rising(firsts, active) && i < |firsts|
    ensures i < Covered(firsts, active, included) <==>
            (var next := if i + 1 < |firsts| then Some(firsts[i + 1]) else active; next.Some? && next.value > 0 && next.value - 1 <= included)
  {
    if i > 0 {
      CoveredIff(firsts[1..], active, included, i - 1);
      assert firsts[1..][i - 1] == firsts[i];
      assert i + 1 < |firsts| ==> firsts[1..][i] == firsts[i + 1] && firsts[1] < firsts[i + 1];
      assert firsts[0] < firsts[1] <= firsts[i] && (active.Some? ==> firsts[i] < active.value);
    }
  }

  // ---- Recovery after pruning ----

  /** Closed segments as a directory holds them: intact, one after another from `first` on, then `more`. */
  ghost predicate Intact(f: Format, dir: Dir, closed: seq<Entry>, parts: seq<Part>, first: nat) {
    && Chained(parts, first) && ClosedOnDisk(f, dir, closed, parts) && 0 < first && EndOf(parts, first) <= U64_MAX
    && AllEncodable(RecordsOf(parts)) && AllFit(RecordsOf(parts), f.limit)
  }

  lemma {:induction false} AboveOfConcat(a: seq<Scanned>, b: seq<Scanned>, lsn: nat)
    ensures Above(a + b, lsn) == Above(a, lsn) + Above(b, lsn)
  {
    if b == [] {
      assert a + b == a;
    } else {
      assert (a + b)[..|a + b| - 1] == a + b[..|b| - 1];
      AboveOfConcat(a, b[..|b| - 1], lsn);
    }
  }

  lemma {:induction false} NoneAbove(a: seq<Scanned>, first: nat, lsn: nat)
    requires Consecutive(a, first) && first + |a| <= lsn + 1
    ensures Above(a, lsn) == []
  {
    if a != [] {
      NoneAbove(a[..|a| - 1], first, lsn);
    }
  }

  lemma DropFirst(f: SoundFormat, dir: Dir, closed: seq<Entry>, parts: seq<Part>, first: nat)
    requires parts != [] && Intact(f, dir, closed, parts, first)
    ensures Intact(f, dir, closed[1..], parts[1..], parts[0].Next()) && parts[0].first == first
    ensures EndOf(parts[1..], parts[0].Next()) == EndOf(parts, first)
    ensures parts[0].Next() <= EndOf(parts, first) == first + |RecordsOf(parts)|
  {
    EndOfChain(parts[1..], parts[0].Next());
    RecordsSplit(parts, f.limit);
    ClosedSplit(f, dir, closed, parts);
  }

  /** Dropping the first `k` closed segments drops their records and nothing else. */
  lemma {:induction false} DropParts(f: SoundFormat, dir: Dir, closed: seq<Entry>, parts: seq<Part>, first: nat, k: nat)
    requires Intact(f, dir, closed, parts, first) && k <= |parts|
    ensures Intact(f, dir, closed[k..], parts[k..], EndOf(parts[..k], first))
    ensures EndOf(parts[k..], EndOf(parts[..k], first)) == EndOf(parts, first)
    decreases k
  {
    if k == 0 {
      assert parts[..0] == [] && parts[0..] == parts && closed[0..] == closed;
    } else {
      DropFirst(f, dir, closed, parts, first);
      DropParts(f, dir, closed[1..], parts[1..], parts[0].Next(), k - 1);
      DropShift(parts, first, k);
      assert closed[1..][k - 1..] == closed[k..];
    }
  }

  lemma DropShift(parts: seq<Part>, first: nat, k: nat)
    requires 0 < k <= |parts|
    ensures parts[1..][k - 1..] == parts[k..] && EndOf(parts[..k], first) == EndOf(parts[1..][..k - 1], parts[0].Next())
  {
    assert parts[..k][1..] == parts[1..][..k - 1];
  }

  lemma {:induction false} RecordsDrop(parts: seq<Part>, first: nat, k: nat)
    requires Chained(parts, first) && k <= |parts|
    ensures EndOf(parts[..k], first) == first + |RecordsOf(parts[..k])|
    ensures RecordsOf(parts) == RecordsOf(parts[..k]) + RecordsOf(parts[k..])
    decreases k
  {
    if k == 0 {
      assert parts[..0] == [] && parts[0..] == parts;
    } else {
      RecordsDrop(parts[1..], parts[0].Next(), k - 1);
      assert parts[..k][1..] == parts[1..][..k - 1] && parts[1..][k - 1..] == parts[k..] && parts[..k][0] == parts[0];
      Reassociate(parts[0].records, RecordsOf(parts[1..][..k - 1]), RecordsOf(parts[k..]));
    }
  }

  lemma Reassociate(a: seq<WalRecord>, b: seq<WalRecord>, c: seq<WalRecord>)
    ensures a + (b + c) == (a + b) + c
  {
  }

  /** The reading of `more` with the records of the closed segments in front. */
  function Before(first: nat, records: seq<WalRecord>, read: FileScan): FileScan {
    read.After(Numbered(first, records))
  }

  lemma ReadOf(f: SoundFormat, dir: Dir, closed: seq<Entry>, parts: seq<Part>, first: nat, more: seq<Entry>, trim: bool)
    requires Intact(f, dir, closed, parts, first)
    ensures ScanEntries(f, dir, closed + more, first, trim).0 ==
            Before(first, RecordsOf(parts), ScanEntries(f, dir, more, EndOf(parts, first), trim).0)
  {
    ScanClosedEntries(f, dir, closed, parts, first, more, trim);
  }

  /** The same records are to be replayed; the last LSN may have gone with the removed segments if none is. */
  predicate SameReplay(was: Plan, now: Plan) {
    was.Plan? && now.Plan? && now.replay == was.replay && (now.replay != [] ==> now.last == was.last)
  }

  /** Pruning keeps the plan. From an accepted plan, remove the first `k` of the closed segments, all of them within
      what the checkpoint includes and something left after them: recovery from that checkpoint is accepted and
      replays the same records. `more` are the entries after the closed ones, beginning at the LSN where those end. */
  lemma PruningKeepsPlan(f: SoundFormat, dir: Dir, closed: seq<Entry>, parts: seq<Part>, first: nat, more: seq<Entry>,
                         k: nat, included: nat, trim: bool)
    requires Intact(f, dir, closed, parts, first) && k <= |parts| == |closed|
    requires EndOf(parts[..k], first) <= included + 1 <= U64_MAX && closed[k..] + more != []
    requires more != [] ==> more[0].segment.first == EndOf(parts, first)
    requires forall i | 0 <= i < |closed| :: closed[i].segment.first == parts[i].first
    requires PlanOf(f, dir, closed + more, Some(included), trim).Plan?
    ensures SameReplay(PlanOf(f, dir, closed + more, Some(included), trim), PlanOf(f, dir, closed[k..] + more, Some(included), trim))
  {
    var mid, rest := EndOf(parts[..k], first), ScanEntries(f, dir, more, EndOf(parts, first), trim).0;
    DropParts(f, dir, closed, parts, first, k);
    RecordsDrop(parts, first, k);
    ReadOf(f, dir, closed, parts, first, more, trim);
    ReadOf(f, dir, closed[k..], parts[k..], mid, more, trim);
    EndOfChain(parts, first);
    EntriesNumber(f, dir, more, EndOf(parts, first), trim);
    Starts(parts, first, k);
    StartsAt(closed, parts, first, 0, more);
    StartsAt(closed, parts, mid, k, more);
    assert closed[0..] == closed && parts[0..] == parts;
    SamePlan(first, mid, RecordsOf(parts[..k]), RecordsOf(parts[k..]), rest, included);
  }

  lemma StartsAt(closed: seq<Entry>, parts: seq<Part>, start: nat, k: nat, more: seq<Entry>)
    requires k <= |parts| == |closed| && closed[k..] + more != []
    requires forall i | 0 <= i < |closed| :: closed[i].segment.first == parts[i].first
    requires if k < |parts| then parts[k].first == start else more != [] ==> more[0].segment.first == start
    ensures ScanStart(closed[k..] + more, 0) == start
  {
    var es := closed[k..] + more;
    assert es[0] == if k < |closed| then closed[k] else more[0];
  }

  /** Where the scan of the remaining segments starts. */
  lemma Starts(parts: seq<Part>, first: nat, k: nat)
    requires Chained(parts, first) && k <= |parts|
    ensures k < |parts| ==> parts[k].first == EndOf(parts[..k], first)
    ensures k == |parts| ==> EndOf(parts[..k], first) == EndOf(parts, first)
    ensures parts != [] ==> parts[0].first == first
  {
    if k < |parts| {
      StartOf(parts, first, k);
    } else {
      assert parts[..k] == parts;
    }
  }

  lemma {:induction false} StartOf(parts: seq<Part>, first: nat, k: nat)
    requires Chained(parts, first) && k < |parts|
    ensures parts[k].first == EndOf(parts[..k], first)
    decreases k
  {
    if k == 0 {
      assert parts[..0] == [];
    } else {
      StartOf(parts[1..], parts[0].Next(), k - 1);
      assert parts[..k][1..] == parts[1..][..k - 1];
    }
  }

  /** Records up to the LSN included do not matter. */
  lemma DroppedBelow(first: nat, mid: nat, dropped: seq<WalRecord>, kept: seq<WalRecord>, rest: FileScan, included: nat)
    requires mid == first + |dropped| <= included + 1
    ensures Above(Before(first, dropped + kept, rest).records, included) == Above(Before(mid, kept, rest).records, included)
  {
    var a, b := Numbered(first, dropped), Numbered(mid, kept);
    NumberedConcat(first, dropped, kept);
    assert Before(first, dropped + kept, rest).records == a + (b + rest.records);
    AboveOfConcat(a, b + rest.records, included);
    NoneAbove(a, first, included);
    assert [] + Above(b + rest.records, included) == Above(b + rest.records, included);
  }

  lemma KeptNumbers(mid: nat, kept: seq<WalRecord>, rest: FileScan, included: nat)
    requires mid <= included + 1 && Numbers(rest, mid + |kept|) && !rest.verdict.Failed?
    ensures |Above(Before(mid, kept, rest).records, included)| == if rest.expected > included + 1 then rest.expected - 1 - included else 0
  {
    JoinNumbers(FileScan(Numbered(mid, kept), mid + |kept|, Clean), rest, mid);
    AboveNumbered(Before(mid, kept, rest).records, mid, included);
  }

  lemma SamePlan(first: nat, mid: nat, dropped: seq<WalRecord>, kept: seq<WalRecord>, rest: FileScan, included: nat)
    requires mid == first + |dropped| <= included + 1 <= U64_MAX && Numbers(rest, mid + |kept|) && 0 < first
    requires PlanFor(Before(first, dropped + kept, rest), first, true, Some(included)).Plan?
    ensures var was := PlanFor(Before(first, dropped + kept, rest), first, true, Some(included));
            var now := PlanFor(Before(mid, kept, rest), mid, true, Some(included));
            SameReplay(was, now)
  {
    DroppedBelow(first, mid, dropped, kept, rest, included);
    AcceptedRead(first, dropped + kept, rest, included);
    KeptNumbers(mid, kept, rest, included);
    PlansAgree(Before(first, dropped + kept, rest), Before(mid, kept, rest), first, mid, included);
  }

  /** Two readings with the same end and the same records above the LSN included make the same plan. */
  lemma PlansAgree(was: FileScan, now: FileScan, first: nat, mid: nat, included: nat)
    requires 0 < first <= mid <= included + 1 <= U64_MAX && was.expected == now.expected && was.verdict == now.verdict
    requires Above(was.records, included) == Above(now.records, included)
    requires |Above(now.records, included)| == if now.expected > included + 1 then now.expected - 1 - included else 0
    requires PlanFor(was, first, true, Some(included)).Plan?
    ensures SameReplay(PlanFor(was, first, true, Some(included)), PlanFor(now, mid, true, Some(included)))
  {
  }

  /** Removing out of order is not safe: if a segment is kept and the next one on disk starts later than it ends, as
      when a removal failed and a later one succeeded, every recovery that reads it is refused. */
  lemma GapIsRefused(f: SoundFormat, dir: Dir, closed: seq<Entry>, parts: seq<Part>, first: nat, next: Entry, more: seq<Entry>,
                     checkpoint: Option<nat>, trim: bool)
    requires parts != [] && Intact(f, dir, closed, parts, first) && |closed| == |parts| && closed[0].segment.first == first
    requires checkpoint == None ==> first == 1
    requires |FileOf(dir, next).bytes| >= SEGMENT_HEADER_BYTES && f.headerLsn(FileOf(dir, next).bytes) > EndOf(parts, first)
    ensures PlanOf(f, dir, closed + ([next] + more), checkpoint, trim) == Refused(BadLog(LsnDiscontinuity))
  {
    ReadOf(f, dir, closed, parts, first, [next] + more, trim);
    assert ([next] + more)[0] == next;
    assert (closed + ([next] + more))[0] == closed[0];
  }

  // ---- Removals that succeed and fail ----

  function FirstsOf(parts: seq<Part>): (firsts: seq<nat>)
    ensures |firsts| == |parts|
  {
    seq(|parts|, i requires 0 <= i < |parts| => parts[i].first)
  }

  /** The first LSN of the active segment, if there is one. */
  function ActiveFirst(more: seq<Entry>): Option<nat> {
    if more == [] then None else Some(more[0].segment.first)
  }

  /** The entries whose segments were not removed. */
  function Left(closed: seq<Entry>, removed: seq<nat>): seq<Entry> {
    if closed == [] then []
    else (if closed[0].segment.first in removed then [] else [closed[0]]) + Left(closed[1..], removed)
  }

  /** No removal succeeds after one that failed. */
  predicate InitialRun(covered: seq<nat>, removes: nat -> bool) {
    forall i, j | 0 <= i < j < |covered| :: removes(covered[j]) ==> removes(covered[i])
  }

  lemma {:induction false} RemovedMembers(firsts: seq<nat>, removes: nat -> bool, x: nat)
    ensures x in Removed(firsts, removes) <==> x in firsts && removes(x)
  {
    if firsts != [] {
      RemovedMembers(firsts[..|firsts| - 1], removes, x);
      assert firsts == firsts[..|firsts| - 1] + [firsts[|firsts| - 1]];
    }
  }

  lemma {:induction false} AllLeft(closed: seq<Entry>, removed: seq<nat>)
    requires forall i | 0 <= i < |closed| :: closed[i].segment.first !in removed
    ensures Left(closed, removed) == closed
  {
    if closed != [] {
      AllLeft(closed[1..], removed);
    }
  }

  lemma {:induction false} LeftMembers(closed: seq<Entry>, removed: seq<nat>)
    requires Left(closed, removed) != []
    ensures exists m :: 0 <= m < |closed| && closed[m] == Left(closed, removed)[0] && closed[m].segment.first !in removed
  {
    if closed[0].segment.first in removed {
      LeftMembers(closed[1..], removed);
      var m :| 0 <= m < |closed[1..]| && closed[1..][m] == Left(closed[1..], removed)[0] && closed[1..][m].segment.first !in removed;
      assert closed[m + 1] == closed[1..][m];
    } else {
      assert closed[0] == Left(closed, removed)[0];
    }
  }

  /** How many of the first removals succeed in a row. */
  function RunOf(covered: seq<nat>, removes: nat -> bool): (k: nat)
    ensures k <= |covered| && (forall i | 0 <= i < k :: removes(covered[i])) && (k < |covered| ==> !removes(covered[k]))
  {
    if covered == [] || !removes(covered[0]) then 0 else 1 + RunOf(covered[1..], removes)
  }

  lemma {:induction false} ChainRises(parts: seq<Part>, first: nat, i: nat, j: nat)
    requires Chained(parts, first) && i < j <= |parts|
    ensures parts[i].first + |parts[i].records| <= if j < |parts| then parts[j].first else EndOf(parts, first)
    ensures parts[i].first < if j < |parts| then parts[j].first else EndOf(parts, first)
    decreases j
  {
    if i > 0 {
      ChainRises(parts[1..], parts[0].Next(), i - 1, j - 1);
    } else if j > 1 {
      ChainRises(parts[1..], parts[0].Next(), 0, j - 1);
    }
  }

  lemma FirstsRise(parts: seq<Part>, first: nat, active: Option<nat>)
    requires Chained(parts, first) && (active.Some? ==> active.value == EndOf(parts, first))
    ensures Rising(FirstsOf(parts), active)
  {
    forall i, j | 0 <= i < j < |parts|
      ensures parts[i].first < parts[j].first
    {
      ChainRises(parts, first, i, j);
    }
    forall i | 0 <= i < |parts|
      ensures parts[i].first < EndOf(parts, first)
    {
      ChainRises(parts, first, i, |parts|);
    }
  }

  /** A segment goes exactly if it is covered and its removal succeeds. */
  lemma GoneIff(parts: seq<Part>, first: nat, active: Option<nat>, included: nat, removes: nat -> bool, i: nat)
    requires Chained(parts, first) && 0 < first && (active.Some? ==> active.value == EndOf(parts, first)) && i < |parts|
    ensures var firsts := FirstsOf(parts);
            firsts[i] in Pruned(firsts, active, included, removes) <==> i < Covered(firsts, active, included) && removes(firsts[i])
  {
    var firsts := FirstsOf(parts);
    var n := Covered(firsts, active, included);
    FirstsRise(parts, first, active);
    RemovedMembers(firsts[..n], removes, firsts[i]);
    if firsts[i] in firsts[..n] {
      var k :| 0 <= k < n && firsts[k] == firsts[i];
    }
    if i < n {
      assert firsts[..n][i] == firsts[i];
      CoveredIff(firsts, active, included, i);
      ChainRises(parts, first, i, i + 1);
      Positive(parts, first, i);
    }
  }

  lemma Positive(parts: seq<Part>, first: nat, i: nat)
    requires Chained(parts, first) && 0 < first && i < |parts|
    ensures 0 < parts[i].first
  {
    if i > 0 {
      ChainRises(parts, first, 0, i);
    }
  }

  /** The covered segments end at or below the LSN included, and something comes after them. */
  lemma CoveredEnds(parts: seq<Part>, first: nat, active: Option<nat>, included: nat, k: nat)
    requires Chained(parts, first) && (active.Some? ==> active.value == EndOf(parts, first))
    requires 0 < k <= Covered(FirstsOf(parts), active, included)
    ensures EndOf(parts[..k], first) <= included + 1 && (k == |parts| ==> active.Some?)
  {
    FirstsRise(parts, first, active);
    CoveredIff(FirstsOf(parts), active, included, k - 1);
    Starts(parts, first, k);
  }

  /** `gone` tells which closed segments were removed. */
  ghost predicate Tells(closed: seq<Entry>, removed: seq<nat>, gone: nat -> bool) {
    forall i | 0 <= i < |closed| :: closed[i].segment.first in removed <==> gone(i)
  }

  predicate IsGone(closed: seq<Entry>, removed: seq<nat>, i: nat)
    requires i < |closed|
  {
    closed[i].segment.first in removed
  }

  lemma {:induction false} LeftWithout(closed: seq<Entry>, removed: seq<nat>, i: nat)
    requires i <= |closed| && forall k | 0 <= k < i :: IsGone(closed, removed, k)
    ensures Left(closed, removed) == Left(closed[i..], removed)
  {
    if i == 0 {
      assert closed[0..] == closed;
    } else {
      assert IsGone(closed, removed, 0);
      forall k | 0 <= k < i - 1
        ensures IsGone(closed[1..], removed, k)
      {
        assert IsGone(closed, removed, k + 1);
      }
      LeftWithout(closed[1..], removed, i - 1);
      assert closed[1..][i - 1..] == closed[i..];
    }
  }

  lemma {:induction false} LeftFromRun(closed: seq<Entry>, removed: seq<nat>, j: nat)
    requires j < |closed| && IsGone(closed, removed, j) && forall k | 0 <= k < j :: !IsGone(closed, removed, k)
    ensures Left(closed, removed) == closed[..j] + Left(closed[j + 1..], removed)
  {
    if j == 0 {
      assert closed[..0] == [];
    } else {
      assert !IsGone(closed, removed, 0);
      forall k | 0 <= k < j - 1
        ensures !IsGone(closed[1..], removed, k)
      {
        assert !IsGone(closed, removed, k + 1);
      }
      LeftFromRun(closed[1..], removed, j - 1);
      assert closed[1..][j..] == closed[j + 1..] && [closed[0]] + closed[1..][..j - 1] == closed[..j];
    }
  }

  lemma LeftAfterRun(closed: seq<Entry>, removed: seq<nat>, k: nat)
    requires k <= |closed|
    requires (forall i | 0 <= i < k :: IsGone(closed, removed, i)) && forall i | k <= i < |closed| :: !IsGone(closed, removed, i)
    ensures Left(closed, removed) == closed[k..]
  {
    LeftWithout(closed, removed, k);
    forall i | 0 <= i < |closed[k..]|
      ensures closed[k..][i].segment.first !in removed
    {
      assert !IsGone(closed, removed, k + i);
    }
    AllLeft(closed[k..], removed);
  }

  /** The first segment left, those after it up to the next one removed, and the rest. */
  lemma LeftAround(closed: seq<Entry>, removed: seq<nat>, i: nat, j: nat)
    requires i < j < |closed| && IsGone(closed, removed, j)
    requires (forall k | 0 <= k < i :: IsGone(closed, removed, k)) && forall k | i <= k < j :: !IsGone(closed, removed, k)
    ensures Left(closed, removed) == closed[i..j] + Left(closed[j + 1..], removed)
  {
    LeftWithout(closed, removed, i);
    forall k | 0 <= k < j - i
      ensures !IsGone(closed[i..], removed, k)
    {
      assert !IsGone(closed, removed, i + k);
    }
    LeftFromRun(closed[i..], removed, j - i);
    SlicesFrom(closed, i, j);
  }

  lemma SlicesFrom(closed: seq<Entry>, i: nat, j: nat)
    requires i < j < |closed|
    ensures closed[i..][..j - i] == closed[i..j] && closed[i..][j - i + 1..] == closed[j + 1..]
  {
  }

  /** `Intact` as a value. */
  ghost function Intacts(f: Format, dir: Dir): (seq<Entry>, seq<Part>, nat) -> bool {
    (closed: seq<Entry>, parts: seq<Part>, first: nat) => Intact(f, dir, closed, parts, first) && |closed| == |parts|
  }

  lemma {:induction false} TakeParts(f: SoundFormat, dir: Dir, closed: seq<Entry>, parts: seq<Part>, first: nat, k: nat)
    requires Intact(f, dir, closed, parts, first) && k <= |parts|
    ensures Intact(f, dir, closed[..k], parts[..k], first)
    decreases k
  {
    RecordsDrop(parts, first, k);
    EndOfChain(parts, first);
    ChainTakes(parts, first, k);
    var all, some := RecordsOf(parts), RecordsOf(parts[..k]);
    assert forall i | 0 <= i < |some| :: some[i] == all[i];
    forall i | 0 <= i < k
      ensures FileOf(dir, closed[..k][i]) == SegmentFile(parts[..k][i].first, false, SegmentBytes(f, parts[..k][i].first, parts[..k][i].records))
    {
      assert closed[..k][i] == closed[i] && parts[..k][i] == parts[i];
    }
  }

  lemma {:induction false} ChainTakes(parts: seq<Part>, first: nat, k: nat)
    requires Chained(parts, first) && k <= |parts|
    ensures Chained(parts[..k], first)
    decreases k
  {
    if k > 0 {
      ChainTakes(parts[1..], parts[0].Next(), k - 1);
      assert parts[..k][1..] == parts[1..][..k - 1];
    }
  }

  lemma Dropped(f: SoundFormat, dir: Dir, closed: seq<Entry>, parts: seq<Part>, first: nat, i: nat)
    requires Intacts(f, dir)(closed, parts, first) && i < |parts|
    ensures Intacts(f, dir)(closed[i..], parts[i..], parts[i].first)
  {
    StartOf(parts, first, i);
    DropParts(f, dir, closed, parts, first, i);
  }

  lemma Taken(f: SoundFormat, dir: Dir, closed: seq<Entry>, parts: seq<Part>, first: nat, k: nat)
    requires Intacts(f, dir)(closed, parts, first) && k < |parts|
    ensures |closed| == |parts| && Intacts(f, dir)(closed[..k], parts[..k], first) && EndOf(parts[..k], first) == parts[k].first
  {
    TakeParts(f, dir, closed, parts, first, k);
    StartOf(parts, first, k);
  }

  lemma Reslice<T>(s: seq<T>, i: nat, j: nat)
    requires i < j < |s|
    ensures s[i..][..j - i] == s[i..j] && s[i..][j - i] == s[j]
  {
  }

  lemma TakenWithin(f: SoundFormat, dir: Dir, later: seq<Entry>, rest: seq<Part>, first: nat, k: nat, block: seq<Entry>, part: seq<Part>)
    requires Intacts(f, dir)(later, rest, first) && k < |rest| == |later| && later[..k] == block && rest[..k] == part
    ensures Intacts(f, dir)(block, part, first) && EndOf(part, first) == rest[k].first
  {
    Taken(f, dir, later, rest, first, k);
  }

  lemma Regroup<T>(a: seq<T>, b: seq<T>, c: seq<T>)
    ensures (a + b) + c == a + (b + c) && ([] + c == c)
  {
  }

  /** The closed segments from `i` up to `j`. */
  lemma Between(f: SoundFormat, dir: Dir, closed: seq<Entry>, parts: seq<Part>, first: nat, i: nat, j: nat)
    requires Intacts(f, dir)(closed, parts, first) && i < j < |parts| == |closed|
    ensures Intacts(f, dir)(closed[i..j], parts[i..j], parts[i].first)
    ensures EndOf(parts[i..j], parts[i].first) == parts[j].first
  {
    var later, rest := closed[i..], parts[i..];
    Reslice(closed, i, j);
    Reslice(parts, i, j);
    Dropped(f, dir, closed, parts, first, i);
    TakenWithin(f, dir, later, rest, parts[i].first, j - i, closed[i..j], parts[i..j]);
  }

  lemma ClosedOrder(f: SoundFormat, dir: Dir, closed: seq<Entry>, parts: seq<Part>, first: nat, i: nat, j: nat)
    requires Intacts(f, dir)(closed, parts, first) && i < j <= |parts|
    ensures 0 < parts[i].first < if j < |parts| then parts[j].first else EndOf(parts, first)
  {
    Positive(parts, first, i);
    ChainRises(parts, first, i, j);
  }

  /** The block of segments left before a hole. */
  lemma Block(f: SoundFormat, dir: Dir, closed: seq<Entry>, parts: seq<Part>, first: nat, i: nat, j: nat)
    requires Intacts(f, dir)(closed, parts, first) && i < j < |parts| == |closed|
    ensures Intacts(f, dir)(closed[i..j], parts[i..j], parts[i].first)
    ensures EndOf(parts[i..j], parts[i].first) == parts[j].first
    ensures closed[i..j][0].segment.first == parts[i].first
  {
    Between(f, dir, closed, parts, first, i, j);
    ClosedFirst(f, dir, closed, parts, first, i);
  }

  lemma HeaderAfter(f: SoundFormat, dir: Dir, closed: seq<Entry>, parts: seq<Part>, first: nat, j: nat, m: nat)
    requires Intacts(f, dir)(closed, parts, first) && j < m < |parts| == |closed|
    ensures |FileOf(dir, closed[m]).bytes| >= SEGMENT_HEADER_BYTES && f.headerLsn(FileOf(dir, closed[m]).bytes) > parts[j].first
  {
    ClosedOrder(f, dir, closed, parts, first, j, m);
    ClosedHeader(f, dir, closed, parts, first, m);
  }

  /** With a closed segment left after the hole, the scan stops there. */
  lemma HoleBeforeClosed(f: SoundFormat, dir: Dir, closed: seq<Entry>, parts: seq<Part>, first: nat, i: nat, j: nat, m: nat,
                         rest: seq<Entry>, included: nat, trim: bool)
    requires Intacts(f, dir)(closed, parts, first) && i < j < m < |parts| == |closed| && rest != [] && rest[0] == closed[m]
    ensures !PlanOf(f, dir, closed[i..j] + rest, Some(included), trim).Plan?
  {
    Block(f, dir, closed, parts, first, i, j);
    HeaderAfter(f, dir, closed, parts, first, j, m);
    BlockStops(f, dir, closed[i..j], parts[i..j], parts[i].first, rest, included, trim);
  }

  lemma BlockStops(f: SoundFormat, dir: Dir, closed: seq<Entry>, parts: seq<Part>, first: nat, rest: seq<Entry>, included: nat, trim: bool)
    requires Intacts(f, dir)(closed, parts, first) && |closed| == |parts| && parts != [] && closed[0].segment.first == first
    requires rest != [] && |FileOf(dir, rest[0]).bytes| >= SEGMENT_HEADER_BYTES
    requires f.headerLsn(FileOf(dir, rest[0]).bytes) > EndOf(parts, first)
    ensures !PlanOf(f, dir, closed + rest, Some(included), trim).Plan?
  {
    assert rest == [rest[0]] + rest[1..];
    GapStops(f, dir, closed, parts, first, rest[0], rest[1..], included, trim);
  }

  lemma GapStops(f: SoundFormat, dir: Dir, closed: seq<Entry>, parts: seq<Part>, first: nat, next: Entry, more: seq<Entry>,
                 included: nat, trim: bool)
    requires Intacts(f, dir)(closed, parts, first) && |closed| == |parts| && parts != [] && closed[0].segment.first == first
    requires |FileOf(dir, next).bytes| >= SEGMENT_HEADER_BYTES && f.headerLsn(FileOf(dir, next).bytes) > EndOf(parts, first)
    ensures !PlanOf(f, dir, closed + ([next] + more), Some(included), trim).Plan?
  {
    GapIsRefused(f, dir, closed, parts, first, next, more, Some(included), trim);
  }

  lemma ReadAcross(f: SoundFormat, dir: Dir, closed: seq<Entry>, parts: seq<Part>, first: nat, more: seq<Entry>, trim: bool)
    requires Intacts(f, dir)(closed, parts, first)
    ensures ScanEntries(f, dir, closed + more, first, trim).0 ==
            Before(first, RecordsOf(parts), ScanEntries(f, dir, more, EndOf(parts, first), trim).0)
  {
    ReadOf(f, dir, closed, parts, first, more, trim);
  }

  lemma ClosedFirst(f: Format, dir: Dir, closed: seq<Entry>, parts: seq<Part>, first: nat, i: nat)
    requires Intacts(f, dir)(closed, parts, first) && |closed| == |parts| && i < |parts|
    ensures closed[i].segment.first == parts[i].first
  {
    assert FileOf(dir, closed[i]) == SegmentFile(parts[i].first, false, SegmentBytes(f, parts[i].first, parts[i].records));
  }

  lemma ClosedHeader(f: SoundFormat, dir: Dir, closed: seq<Entry>, parts: seq<Part>, first: nat, m: nat)
    requires Intacts(f, dir)(closed, parts, first) && |closed| == |parts| && m < |parts|
    ensures var bytes := FileOf(dir, closed[m]).bytes; |bytes| >= SEGMENT_HEADER_BYTES && f.headerLsn(bytes) == parts[m].first
  {
    Positive(parts, first, m);
    ChainRises(parts, first, m, |parts|);
    assert FileOf(dir, closed[m]) == SegmentFile(parts[m].first, false, SegmentBytes(f, parts[m].first, parts[m].records));
  }

  /** What the active segment says of itself: nothing readable, or the LSN at which it was read before. */
  lemma ActiveScan(f: Format, file: SegmentFile, e0: nat, e1: nat, trim: bool)
    requires e0 != e1 && !ScanFile(f, file, e1, trim).verdict.Failed?
    ensures var read := ScanFile(f, file, e0, trim); read.verdict.Failed? || (read.records == [] && read.expected == e0)
  {
  }

  /** With only the active segment left after the hole, the log either does not go on or ends too early. */
  lemma HoleBeforeActive(f: SoundFormat, dir: Dir, closed: seq<Entry>, parts: seq<Part>, first: nat, i: nat, j: nat, active: Entry,
                         included: nat, trim: bool)
    requires Intacts(f, dir)(closed, parts, first) && i < j < |parts| == |closed|
    requires EndOf(parts, first) <= included + 1
    requires !ScanEntries(f, dir, [active], EndOf(parts, first), trim).0.verdict.Failed?
    ensures !PlanOf(f, dir, closed[i..j] + [active], Some(included), trim).Plan?
  {
    Block(f, dir, closed, parts, first, i, j);
    ClosedOrder(f, dir, closed, parts, first, i, j);
    ClosedOrder(f, dir, closed, parts, first, j, |parts|);
    ActiveEnds(f, dir, active, parts[j].first, EndOf(parts, first), trim);
    BlockEnds(f, dir, closed[i..j], parts[i..j], parts[i].first, active, included, trim);
  }

  lemma ActiveEnds(f: Format, dir: Dir, active: Entry, e0: nat, e1: nat, trim: bool)
    requires e0 != e1 && !ScanEntries(f, dir, [active], e1, trim).0.verdict.Failed?
    ensures var read := ScanEntries(f, dir, [active], e0, trim).0; read.verdict.Failed? || read.expected == e0
  {
    assert [active][1..] == [];
    ActiveScan(f, FileOf(dir, active), e0, e1, trim);
  }

  lemma BlockEnds(f: SoundFormat, dir: Dir, closed: seq<Entry>, parts: seq<Part>, first: nat, active: Entry, included: nat, trim: bool)
    requires Intacts(f, dir)(closed, parts, first) && |closed| == |parts| && parts != [] && closed[0].segment.first == first
    requires 0 < first < EndOf(parts, first) <= included
    requires var read := ScanEntries(f, dir, [active], EndOf(parts, first), trim).0;
             read.verdict.Failed? || read.expected == EndOf(parts, first)
    ensures !PlanOf(f, dir, closed + [active], Some(included), trim).Plan?
  {
    ReadAcross(f, dir, closed, parts, first, [active], trim);
    assert (closed + [active])[0] == closed[0];
  }

  /** What is left after a hole does not help. */
  lemma HoleStops(f: SoundFormat, dir: Dir, closed: seq<Entry>, parts: seq<Part>, first: nat, more: seq<Entry>, removed: seq<nat>,
                  i: nat, j: nat, included: nat, trim: bool)
    requires Intacts(f, dir)(closed, parts, first) && i < j < |parts| == |closed| && |more| <= 1
    requires Left(closed[j + 1..], removed) == [] ==> more != [] && EndOf(parts, first) <= included + 1
    requires !ScanEntries(f, dir, more, EndOf(parts, first), trim).0.verdict.Failed?
    ensures !PlanOf(f, dir, closed[i..j] + (Left(closed[j + 1..], removed) + more), Some(included), trim).Plan?
  {
    if Left(closed[j + 1..], removed) == [] {
      Regroup([], [], more);
      HoleThenActive(f, dir, closed, parts, first, more, i, j, included, trim);
    } else {
      HoleThenClosed(f, dir, closed, parts, first, more, removed, i, j, included, trim);
    }
  }

  lemma HoleThenClosed(f: SoundFormat, dir: Dir, closed: seq<Entry>, parts: seq<Part>, first: nat, more: seq<Entry>, removed: seq<nat>,
                       i: nat, j: nat, included: nat, trim: bool)
    requires Intacts(f, dir)(closed, parts, first) && i < j < |parts| == |closed| && Left(closed[j + 1..], removed) != []
    ensures !PlanOf(f, dir, closed[i..j] + (Left(closed[j + 1..], removed) + more), Some(included), trim).Plan?
  {
    var m := NextLeft(closed, removed, j + 1);
    FirstOf(Left(closed[j + 1..], removed), more);
    HoleBeforeClosed(f, dir, closed, parts, first, i, j, m, Left(closed[j + 1..], removed) + more, included, trim);
  }

  lemma FirstOf<T>(a: seq<T>, b: seq<T>)
    requires a != []
    ensures a + b != [] && (a + b)[0] == a[0]
  {
  }

  lemma HoleThenActive(f: SoundFormat, dir: Dir, closed: seq<Entry>, parts: seq<Part>, first: nat, more: seq<Entry>,
                       i: nat, j: nat, included: nat, trim: bool)
    requires Intacts(f, dir)(closed, parts, first) && i < j < |parts| == |closed| && |more| == 1
    requires EndOf(parts, first) <= included + 1 && !ScanEntries(f, dir, more, EndOf(parts, first), trim).0.verdict.Failed?
    ensures !PlanOf(f, dir, closed[i..j] + more, Some(included), trim).Plan?
  {
    assert more == [more[0]];
    HoleBeforeActive(f, dir, closed, parts, first, i, j, more[0], included, trim);
  }

  /** A hole in what is left is fatal. */
  lemma HoleIsFatal(f: SoundFormat, dir: Dir, closed: seq<Entry>, parts: seq<Part>, first: nat, more: seq<Entry>, removed: seq<nat>,
                    gone: nat -> bool, i: nat, j: nat, included: nat, trim: bool)
    requires Intacts(f, dir)(closed, parts, first) && i < j < |parts| == |closed| && |more| <= 1 && Tells(closed, removed, gone)
    requires gone(j) && (forall k | 0 <= k < i :: gone(k)) && forall k | i <= k < j :: !gone(k)
    requires Left(closed[j + 1..], removed) == [] ==> more != [] && EndOf(parts, first) <= included + 1
    requires !ScanEntries(f, dir, more, EndOf(parts, first), trim).0.verdict.Failed?
    ensures !PlanOf(f, dir, Left(closed, removed) + more, Some(included), trim).Plan?
  {
    forall k | 0 <= k <= j
      ensures IsGone(closed, removed, k) <==> gone(k)
    {
    }
    LeftAround(closed, removed, i, j);
    Regroup(closed[i..j], Left(closed[j + 1..], removed), more);
    HoleStops(f, dir, closed, parts, first, more, removed, i, j, included, trim);
  }

  lemma NextLeft(closed: seq<Entry>, removed: seq<nat>, j: nat) returns (m: nat)
    requires j <= |closed| && Left(closed[j..], removed) != []
    ensures j <= m < |closed| && closed[m] == Left(closed[j..], removed)[0]
  {
    LeftMembers(closed[j..], removed);
    var k :| 0 <= k < |closed[j..]| && closed[j..][k] == Left(closed[j..], removed)[0] && closed[j..][k].segment.first !in removed;
    m := j + k;
  }

  lemma {:induction false} KeptStays(closed: seq<Entry>, removed: seq<nat>, m: nat)
    requires m < |closed| && closed[m].segment.first !in removed
    ensures Left(closed, removed) != []
  {
    if m > 0 {
      KeptStays(closed[1..], removed, m - 1);
    }
  }

  /** What pruning is asked to do, as a value: which closed segments go. */
  function Gone(covered: seq<nat>, removes: nat -> bool): nat -> bool {
    (i: nat) => i < |covered| && removes(covered[i])
  }

  lemma PrunedTells(f: SoundFormat, dir: Dir, closed: seq<Entry>, parts: seq<Part>, first: nat, active: Option<nat>, included: nat,
                    removes: nat -> bool)
    requires Intacts(f, dir)(closed, parts, first) && |closed| == |parts| && (active.Some? ==> active.value == EndOf(parts, first))
    ensures var firsts := FirstsOf(parts);
            Tells(closed, Pruned(firsts, active, included, removes), Gone(firsts[..Covered(firsts, active, included)], removes))
  {
    forall i | 0 <= i < |closed|
      ensures var firsts := FirstsOf(parts);
              closed[i].segment.first in Pruned(firsts, active, included, removes) <==>
              Gone(firsts[..Covered(firsts, active, included)], removes)(i)
    {
      ClosedFirst(f, dir, closed, parts, first, i);
      GoneIff(parts, first, active, included, removes, i);
    }
  }

  /** With an initial run removed, the rest is left. */
  lemma RunLeaves(closed: seq<Entry>, removed: seq<nat>, covered: seq<nat>, removes: nat -> bool)
    requires Tells(closed, removed, Gone(covered, removes)) && |covered| <= |closed| && InitialRun(covered, removes)
    ensures Left(closed, removed) == closed[RunOf(covered, removes)..]
  {
    forall i | 0 <= i < |closed|
      ensures IsGone(closed, removed, i) <==> i < RunOf(covered, removes)
    {
      assert IsGone(closed, removed, i) <==> Gone(covered, removes)(i);
    }
    LeftAfterRun(closed, removed, RunOf(covered, removes));
  }

  /** Where a removal that is not part of an initial run leaves its hole. */
  lemma HoleOf(covered: seq<nat>, removes: nat -> bool) returns (i: nat, j: nat)
    requires !InitialRun(covered, removes)
    ensures i < j < |covered| && Gone(covered, removes)(j)
    ensures (forall k | 0 <= k < i :: Gone(covered, removes)(k)) && forall k | i <= k < j :: !Gone(covered, removes)(k)
  {
    i := RunOf(covered, removes);
    var a, b :| 0 <= a < b < |covered| && removes(covered[b]) && !removes(covered[a]);
    assert i <= a;
    var kept := RunOf(covered[i..], (x: nat) => !removes(x));
    j := i + kept;
    forall k | i <= k < j
      ensures !removes(covered[k])
    {
      assert covered[i..][k - i] == covered[k];
    }
    assert j <= b;
    assert covered[i..][kept] == covered[j];
  }

  lemma LastGone(closed: seq<Entry>, removed: seq<nat>, gone: nat -> bool, j: nat)
    requires Tells(closed, removed, gone) && j < |closed| && gone(j) && Left(closed[j + 1..], removed) == []
    ensures gone(|closed| - 1)
  {
    var last := |closed| - 1;
    if !gone(last) {
      assert closed[j + 1..][last - j - 1] == closed[last];
      KeptStays(closed[j + 1..], removed, last - j - 1);
    }
  }

  lemma AcceptedRest(f: SoundFormat, dir: Dir, closed: seq<Entry>, parts: seq<Part>, first: nat, more: seq<Entry>, included: nat, trim: bool)
    requires Intacts(f, dir)(closed, parts, first) && |closed| == |parts| && closed != []
    requires PlanOf(f, dir, closed + more, Some(included), trim).Plan? && included <= U64_MAX
    ensures !ScanEntries(f, dir, more, EndOf(parts, first), trim).0.verdict.Failed? && included < U64_MAX
  {
    StartsAtFirst(f, dir, closed, parts, first, more);
    ReadAcross(f, dir, closed, parts, first, more, trim);
    AcceptedRead(first, RecordsOf(parts), ScanEntries(f, dir, more, EndOf(parts, first), trim).0, included);
  }

  lemma StartsAtFirst(f: SoundFormat, dir: Dir, closed: seq<Entry>, parts: seq<Part>, first: nat, more: seq<Entry>)
    requires Intacts(f, dir)(closed, parts, first) && |closed| == |parts| && closed != []
    ensures closed + more != [] && ScanStart(closed + more, 0) == first
  {
    ClosedFirst(f, dir, closed, parts, first, 0);
    Starts(parts, first, 0);
    FirstOf(closed, more);
  }

  lemma AcceptedRead(first: nat, records: seq<WalRecord>, rest: FileScan, included: nat)
    requires PlanFor(Before(first, records, rest), first, true, Some(included)).Plan?
    ensures !rest.verdict.Failed? && included != U64_MAX
  {
  }

  lemma RunIsSafe(f: SoundFormat, dir: Dir, closed: seq<Entry>, parts: seq<Part>, first: nat, more: seq<Entry>, k: nat, included: nat, trim: bool)
    requires Intacts(f, dir)(closed, parts, first) && |closed| == |parts| && (more != [] ==> more[0].segment.first == EndOf(parts, first))
    requires k <= Covered(FirstsOf(parts), ActiveFirst(more), included)
    requires PlanOf(f, dir, closed + more, Some(included), trim).Plan? && included <= U64_MAX
    ensures SameReplay(PlanOf(f, dir, closed + more, Some(included), trim), PlanOf(f, dir, closed[k..] + more, Some(included), trim))
  {
    if k == 0 {
      assert closed[0..] == closed;
    } else {
      CoveredEnds(parts, first, ActiveFirst(more), included, k);
      AcceptedRest(f, dir, closed, parts, first, more, included, trim);
      forall i | 0 <= i < |closed|
        ensures closed[i].segment.first == parts[i].first
      {
        ClosedFirst(f, dir, closed, parts, first, i);
      }
      PruningKeepsPlan(f, dir, closed, parts, first, more, k, included, trim);
    }
  }

  lemma HoleIsUnsafe(f: SoundFormat, dir: Dir, closed: seq<Entry>, parts: seq<Part>, first: nat, more: seq<Entry>, included: nat,
                     removed: seq<nat>, removes: nat -> bool, trim: bool)
    requires Intacts(f, dir)(closed, parts, first) && |closed| == |parts| && |more| <= 1
    requires more != [] ==> more[0].segment.first == EndOf(parts, first)
    requires var covered := FirstsOf(parts)[..Covered(FirstsOf(parts), ActiveFirst(more), included)];
             !InitialRun(covered, removes) && Tells(closed, removed, Gone(covered, removes))
    requires PlanOf(f, dir, closed + more, Some(included), trim).Plan? && included <= U64_MAX
    ensures !PlanOf(f, dir, Left(closed, removed) + more, Some(included), trim).Plan?
  {
    var covered := FirstsOf(parts)[..Covered(FirstsOf(parts), ActiveFirst(more), included)];
    var i, j := HoleOf(covered, removes);
    if Left(closed[j + 1..], removed) == [] {
      LastGone(closed, removed, Gone(covered, removes), j);
      CoveredEnds(parts, first, ActiveFirst(more), included, |parts|);
      assert parts[..|parts|] == parts;
    }
    AcceptedRest(f, dir, closed, parts, first, more, included, trim);
    HoleIsFatal(f, dir, closed, parts, first, more, removed, Gone(covered, removes), i, j, included, trim);
  }

  /** Pruning is safe exactly if no removal succeeds after one that failed. From an accepted plan for intact closed
      segments and at most one active one, whichever removals succeed: recovery from the same checkpoint replays the
      same records if and only if the successful removals are an initial run of the covered segments. */
  lemma PruningKeepsPlanIff(f: SoundFormat, dir: Dir, closed: seq<Entry>, parts: seq<Part>, first: nat, more: seq<Entry>,
                            included: nat, removes: nat -> bool, trim: bool)
    requires Intacts(f, dir)(closed, parts, first) && |closed| == |parts| && |more| <= 1
    requires more != [] ==> more[0].segment.first == EndOf(parts, first)
    requires PlanOf(f, dir, closed + more, Some(included), trim).Plan? && included <= U64_MAX
    ensures SameReplay(PlanOf(f, dir, closed + more, Some(included), trim),
                       PlanOf(f, dir, Left(closed, Pruned(FirstsOf(parts), ActiveFirst(more), included, removes)) + more, Some(included), trim))
       <==> InitialRun(FirstsOf(parts)[..Covered(FirstsOf(parts), ActiveFirst(more), included)], removes)
  {
    var firsts, active := FirstsOf(parts), ActiveFirst(more);
    var covered, removed := firsts[..Covered(firsts, active, included)], Pruned(firsts, active, included, removes);
    PrunedTells(f, dir, closed, parts, first, active, included, removes);
    if InitialRun(covered, removes) {
      RunLeaves(closed, removed, covered, removes);
      RunIsSafe(f, dir, closed, parts, first, more, RunOf(covered, removes), included, trim);
    } else {
      HoleIsUnsafe(f, dir, closed, parts, first, more, included, removed, removes, trim);
    }
  }

  // ---- A removal that fails before one that succeeds ----

  const SECOND_ONLY: nat -> bool := lsn => lsn == 2

  /** A log of two closed segments with one record each, and an active one not yet written to. */
  ghost predicate TwoSegments(f: Format, dir: Dir, r: WalRecord, a: Entry, b: Entry, active: Entry) {
    && a.segment == SegmentName(1, false) && FileOf(dir, a).bytes == SegmentBytes(f, 1, [r])
    && b.segment == SegmentName(2, false) && FileOf(dir, b).bytes == SegmentBytes(f, 2, [r])
    && active.segment == SegmentName(3, true) && FileOf(dir, active).bytes == []
  }

  lemma OneScanned(f: SoundFormat, dir: Dir, r: WalRecord, e: Entry, lsn: nat)
    requires r.Encodable() && r.BodyBytes() <= f.limit && 0 < lsn < U64_MAX
    requires e.segment == SegmentName(lsn, false) && FileOf(dir, e).bytes == SegmentBytes(f, lsn, [r])
    ensures ScanFile(f, FileOf(dir, e), lsn, true) == FileScan([Scanned(lsn, r)], lsn + 1, Clean)
  {
    ScanClosedFile(f, FileOf(dir, e), Part(lsn, [r]), true);
    assert Numbered(lsn, [r]) == [Scanned(lsn, r)];
  }

  lemma OneMoreEntry(f: Format, dir: Dir, e: Entry, more: seq<Entry>, lsn: nat, r: WalRecord, rest: FileScan)
    requires ScanFile(f, FileOf(dir, e), lsn, true) == FileScan([Scanned(lsn, r)], lsn + 1, Clean)
    requires ScanEntries(f, dir, more, lsn + 1, true).0 == rest
    ensures ScanEntries(f, dir, [e] + more, lsn, true).0 == rest.After([Scanned(lsn, r)])
  {
    assert ([e] + more)[0] == e && ([e] + more)[1..] == more;
  }

  lemma EmptyActive(f: Format, dir: Dir, active: Entry, lsn: nat)
    requires active.segment.active && FileOf(dir, active).bytes == []
    ensures ScanEntries(f, dir, [active], lsn, true).0 == FileScan([], lsn, Clean)
  {
    assert [active][1..] == [];
  }

  lemma BothRead(f: SoundFormat, dir: Dir, r: WalRecord, a: Entry, b: Entry, active: Entry)
    requires r.Encodable() && r.BodyBytes() <= f.limit && TwoSegments(f, dir, r, a, b, active)
    ensures ScanEntries(f, dir, [a, b, active], 1, true).0 == FileScan([Scanned(1, r), Scanned(2, r)], 3, Clean)
  {
    OneScanned(f, dir, r, a, 1);
    OneScanned(f, dir, r, b, 2);
    EmptyActive(f, dir, active, 3);
    OneMoreEntry(f, dir, b, [active], 2, r, FileScan([], 3, Clean));
    OneMoreEntry(f, dir, a, [b] + [active], 1, r, FileScan([Scanned(2, r)], 3, Clean));
    assert [a, b, active] == [a] + ([b] + [active]);
  }

  lemma OneRead(f: SoundFormat, dir: Dir, r: WalRecord, a: Entry, b: Entry, active: Entry)
    requires r.Encodable() && r.BodyBytes() <= f.limit && TwoSegments(f, dir, r, a, b, active)
    ensures ScanEntries(f, dir, [a, active], 1, true).0 == FileScan([Scanned(1, r)], 2, Clean)
  {
    OneScanned(f, dir, r, a, 1);
    EmptyActive(f, dir, active, 2);
    OneMoreEntry(f, dir, a, [active], 1, r, FileScan([], 2, Clean));
    assert [a, active] == [a] + [active];
  }

  /** The checkpoint includes both records. The removal of the first segment fails and that of the second succeeds;
      the log, which could be recovered before, is now refused. */
  lemma LateRemovalLosesTheLog(f: SoundFormat, dir: Dir, r: WalRecord, a: Entry, b: Entry, active: Entry)
    requires r.Encodable() && r.BodyBytes() <= f.limit && TwoSegments(f, dir, r, a, b, active)
    ensures Pruned([1, 2], Some(3), 2, SECOND_ONLY) == [2] && Left([a, b], [2]) == [a]
    ensures PlanOf(f, dir, [a, b, active], Some(2), true) == Plan([], 2)
    ensures PlanOf(f, dir, [a, active], Some(2), true) == Refused(LogEndsTooEarly)
  {
    WhatGoes(a, b);
    BothRead(f, dir, r, a, b, active);
    OneRead(f, dir, r, a, b, active);
    NoneAbove([Scanned(1, r), Scanned(2, r)], 1, 2);
  }

  lemma WhatGoes(a: Entry, b: Entry)
    requires a.segment.first == 1 && b.segment.first == 2
    ensures Pruned([1, 2], Some(3), 2, SECOND_ONLY) == [2] && Left([a, b], [2]) == [a]
  {
    assert [1, 2][1..] == [2] && [2][1..] == [];
    assert Covered([2], Some(3), 2) == 1 && Covered([1, 2], Some(3), 2) == 2;
    assert [1, 2][..2] == [1, 2] && [1, 2][..1] == [1] && [1][..0] == [];
    assert Removed([1], SECOND_ONLY) == [];
    assert [a, b][1..] == [b] && [b][1..] == [];
    assert Left([b], [2]) == [];
    assert Left([a, b], [2]) == [a] + Left([b], [2]);
  }
}
