/** Publishing checkpoints: the data file, then the manifest that commits it, then retention; any file operation
    may fail, and the machine may stop between any two. */
module CheckpointPublish {

  /** Every publication has its own generation, in the names of both its files. */
  datatype Name = DataFile(gen: nat) | ManifestFile(gen: nat, tick: nat) | TempFile(n: nat)

  datatype Content = Data(sum: nat) | Manifest(data: Name, sum: nat) | Torn

  type Dir = map<Name, Content>

  /** A checkpoint is recoverable from a manifest that matches the data file it names. */
  predicate Valid(dir: Dir, m: Name) {
    m in dir && m.ManifestFile? && dir[m].Manifest? && dir[m].data in dir && dir[dir[m].data] == Data(dir[m].sum)
  }

  datatype Job = Job(gen: nat, tick: nat, sum: nat) {
    function DataName(): Name { DataFile(gen) }
    function ManifestName(): Name { ManifestFile(gen, tick) }
  }

  /** The operations of one atomic publication, in order. */
  datatype Stage = Creating | Writing | Syncing | Renaming | SyncingDir

  datatype Phase =
    | Idle
    | PublishData(job: Job, stage: Stage)
    | PublishManifest(job: Job, stage: Stage)
    | DropData(job: Job)
    | Verifying(job: Job)
    | Retaining(job: Job, left: set<Name>, doomed: seq<Name>)

  /** `versions` are the directory since it was last synced: the first is on disk for good, the last is what the
      program sees. `temp` numbers the temporary files, `flushed` tells whether the current one is synced, `jobs`
      are the publications begun so far by generation. */
  datatype System = System(versions: seq<Dir>, phase: Phase, temp: nat, flushed: bool, jobs: map<nat, Job>) {
    function Live(): Dir
      requires versions != []
    {
      versions[|versions| - 1]
    }
  }

  datatype Event =
    | Begin(job: Job)
    | Io(ok: bool)
    | Verified(ok: bool, readable: bool)
    | Choose(victim: Name)
    | Finish
    | Crash(outcome: Dir)

  /** After a crash each name is as it was in some version. */
  ghost predicate Outcome(versions: seq<Dir>, dir: Dir) {
    forall name: Name :: SomeVersion(versions, dir, name)
  }

  predicate SomeVersion(versions: seq<Dir>, dir: Dir, name: Name) {
    exists i :: 0 <= i < |versions| && SameAt(versions[i], dir, name)
  }

  predicate SameAt(a: Dir, b: Dir, name: Name) {
    if name in a then name in b && a[name] == b[name] else name !in b
  }

  function Then(s: System, dir: Dir): System {
    s.(versions := s.versions + [dir])
  }

  /** One operation of publishing `content` under `name`; when all is done the directory is synced. */
  function PublishOp(s: System, stage: Stage, name: Name, content: Content, ok: bool): System
    requires s.versions != []
  {
    var temp := TempFile(s.temp);
    match stage
    case Creating => if ok then Then(s, s.Live()[temp := Torn]).(flushed := false) else s
    case Writing => if ok then Then(s, s.Live()[temp := content]) else s
    case Syncing => if ok then s.(flushed := true) else s
    case Renaming =>
      if !ok then s
      else if s.flushed then Then(s, (s.Live() - {temp})[name := content])
      else Then(Then(s, (s.Live() - {temp})[name := Torn]), (s.Live() - {temp})[name := content])
    case SyncingDir => if ok then s.(versions := [s.Live()]) else s
  }

  function Next(stage: Stage): Stage {
    match stage
    case Creating => Writing
    case Writing => Syncing
    case Syncing => Renaming
    case Renaming => SyncingDir
    case SyncingDir => SyncingDir
  }

  /** The temporary file goes, if it is still there. */
  function Cleaned(s: System): System
    requires s.versions != []
  {
    Then(s, s.Live() - {TempFile(s.temp)}).(temp := s.temp + 1)
  }

  function DoIo(s: System, ok: bool): System
    requires s.versions != []
  {
    match s.phase
    case PublishData(job, stage) =>
      var t := PublishOp(s, stage, job.DataName(), Data(job.sum), ok);
      if !ok then Cleaned(s).(phase := Idle)
      else if stage == SyncingDir then t.(phase := PublishManifest(job, Creating), temp := s.temp + 1)
      else t.(phase := PublishData(job, Next(stage)))
    case PublishManifest(job, stage) =>
      var t := PublishOp(s, stage, job.ManifestName(), Manifest(job.DataName(), job.sum), ok);
      if !ok then Cleaned(s).(phase := DropData(job))
      else if stage == SyncingDir then t.(phase := Verifying(job), temp := s.temp + 1)
      else t.(phase := PublishManifest(job, Next(stage)))
    case DropData(job) => (if ok then Then(s, s.Live() - {job.DataName()}) else s).(phase := Idle)
    case Retaining(job, left, doomed) =>
      if doomed == [] then s
      else (if ok then Then(s, s.Live() - {doomed[0]}) else s).(phase := Retaining(job, left, doomed[1..]))
    case _ => s
  }

  predicate IsManifest(name: Name) {
    name.ManifestFile?
  }

  function ManifestsIn(dir: Dir): set<Name> {
    set m | m in dir && IsManifest(m)
  }

  predicate Removable(phase: Phase, pinned: set<Name>, m: Name)
    requires phase.Retaining?
  {
    m in phase.left && m.ManifestFile? && m != phase.job.ManifestName() && m !in pinned
  }

  /** Retention keeps more than `keep` manifests only for want of removable ones; the new one and the pinned ones
      never are. The data file of a victim is removed first, if its manifest verifies. Without a readable directory and
      readable pins there is no retention. */
  ghost predicate Step(keep: nat, pinned: set<Name>, s: System, e: Event, t: System)
    requires s.versions != []
  {
    match e
    case Begin(job) =>
      s.phase.Idle? && job.gen !in s.jobs && t == s.(phase := PublishData(job, Creating), jobs := s.jobs[job.gen := job])
    case Io(ok) => t == DoIo(s, ok)
    case Verified(ok, readable) =>
      && s.phase.Verifying?
      && t == s.(phase := if ok && readable && Valid(s.Live(), s.phase.job.ManifestName())
                          then Retaining(s.phase.job, ManifestsIn(s.Live()), []) else Idle)
    case Choose(victim) =>
      && s.phase.Retaining? && s.phase.doomed == [] && |s.phase.left| > keep
      && Removable(s.phase, pinned, victim)
      && (forall m | Removable(s.phase, pinned, m) :: victim.tick <= m.tick)
      && t == s.(phase := Retaining(s.phase.job, s.phase.left - {victim},
                                    (if Valid(s.Live(), victim) then [s.Live()[victim].data] else []) + [victim]))
    case Finish =>
      && s.phase.Retaining? && s.phase.doomed == []
      && (|s.phase.left| <= keep || forall m :: !Removable(s.phase, pinned, m))
      && t == s.(phase := Idle)
    case Crash(outcome) => Outcome(s.versions, outcome) && t == System([outcome], Idle, s.temp + 1, false, s.jobs)
  }

  ghost predicate IsRun(keep: nat, pinned: set<Name>, states: seq<System>, events: seq<Event>) {
    && |states| == |events| + 1
    && states[0] == System([map[]], Idle, 0, false, map[])
    && (forall i | 0 <= i < |states| :: states[i].versions != [])
    && forall i | 0 <= i < |events| :: Step(keep, pinned, states[i], events[i], states[i + 1])
  }

  // ---- What every version of the directory looks like ----

  /** A file under its final name is whole, and belongs to a publication begun. */
  ghost predicate Tidy(dir: Dir, jobs: map<nat, Job>) {
    && (forall g | DataFile(g) in dir :: g in jobs && dir[DataFile(g)] == Data(jobs[g].sum))
    && (forall g, tick | ManifestFile(g, tick) in dir ::
          g in jobs && tick == jobs[g].tick && dir[ManifestFile(g, tick)] == Manifest(DataFile(g), jobs[g].sum))
  }

  ghost predicate AllTidy(versions: seq<Dir>, jobs: map<nat, Job>) {
    forall i | 0 <= i < |versions| :: Tidy(versions[i], jobs)
  }

  lemma TidyValid(dir: Dir, jobs: map<nat, Job>, m: Name)
    requires Tidy(dir, jobs)
    ensures Valid(dir, m) <==> m.ManifestFile? && m in dir && DataFile(m.gen) in dir
  {
    if m.ManifestFile? && m in dir {
      assert ManifestFile(m.gen, m.tick) in dir;
    }
  }

  predicate Everywhere(versions: seq<Dir>, name: Name) {
    forall i | 0 <= i < |versions| :: name in versions[i]
  }

  predicate Nowhere(versions: seq<Dir>, name: Name) {
    forall i | 0 <= i < |versions| :: name !in versions[i]
  }

  /** Recoverable after any crash. */
  predicate Safe(versions: seq<Dir>, m: Name) {
    m.ManifestFile? && Everywhere(versions, m) && Everywhere(versions, DataFile(m.gen))
  }

  lemma OutcomeKeeps(versions: seq<Dir>, dir: Dir, name: Name)
    requires Outcome(versions, dir)
    ensures Everywhere(versions, name) ==> name in dir
    ensures Nowhere(versions, name) ==> name !in dir
  {
    assert SomeVersion(versions, dir, name);
  }

  lemma OutcomeTidy(versions: seq<Dir>, dir: Dir, jobs: map<nat, Job>)
    requires AllTidy(versions, jobs) && Outcome(versions, dir)
    ensures Tidy(dir, jobs)
  {
    forall g | DataFile(g) in dir
      ensures g in jobs && dir[DataFile(g)] == Data(jobs[g].sum)
    {
      assert SomeVersion(versions, dir, DataFile(g));
    }
    forall g, tick | ManifestFile(g, tick) in dir
      ensures g in jobs && tick == jobs[g].tick && dir[ManifestFile(g, tick)] == Manifest(DataFile(g), jobs[g].sum)
    {
      assert SomeVersion(versions, dir, ManifestFile(g, tick));
    }
  }

  // ---- The invariant ----

  /** A publication has progressed to `stage`: the file written so far is there, and synced before it is renamed. */
  ghost predicate StageOk(s: System, stage: Stage, name: Name)
    requires s.versions != []
  {
    && (stage != SyncingDir ==> Nowhere(s.versions, name))
    && (stage == Renaming ==> s.flushed)
    && (stage == SyncingDir ==> name in s.Live())
  }

  ghost predicate PhaseOk(s: System)
    requires s.versions != []
  {
    match s.phase
    case Idle => true
    case PublishData(job, stage) =>
      job.gen in s.jobs && s.jobs[job.gen] == job && StageOk(s, stage, job.DataName()) && Nowhere(s.versions, job.ManifestName())
    case PublishManifest(job, stage) =>
      && job.gen in s.jobs && s.jobs[job.gen] == job && StageOk(s, stage, job.ManifestName())
      && Everywhere(s.versions, job.DataName()) && job.ManifestName() !in s.versions[0]
    case DropData(job) => job.gen in s.jobs && s.jobs[job.gen] == job && job.ManifestName() !in s.versions[0]
    case Verifying(job) => job.gen in s.jobs && s.jobs[job.gen] == job && Safe(s.versions, job.ManifestName())
    case Retaining(job, _, doomed) =>
      job.gen in s.jobs && s.jobs[job.gen] == job && Safe(s.versions, job.ManifestName()) && Spares(doomed, job.ManifestName())
  }

  /** Neither `m` nor its data is doomed. */
  predicate Spares(doomed: seq<Name>, m: Name)
    requires m.ManifestFile?
  {
    m !in doomed && DataFile(m.gen) !in doomed
  }

  ghost predicate Inv(s: System) {
    s.versions != [] && AllTidy(s.versions, s.jobs) && PhaseOk(s)
  }

  /** Of the final names, all but one stay where they are and away from where they are not. */
  ghost predicate KeepsOthers(before: seq<Dir>, after: seq<Dir>, except: Name) {
    forall name: Name | !name.TempFile? && name != except ::
      (Everywhere(before, name) ==> Everywhere(after, name)) && (Nowhere(before, name) ==> Nowhere(after, name))
  }

  lemma ThenTidy(s: System, dir: Dir)
    requires AllTidy(s.versions, s.jobs) && Tidy(dir, s.jobs)
    ensures AllTidy(Then(s, dir).versions, s.jobs)
  {
  }

  lemma LessIsTidy(dir: Dir, names: set<Name>, jobs: map<nat, Job>)
    requires Tidy(dir, jobs)
    ensures Tidy(dir - names, jobs)
  {
  }

  lemma WithTemp(dir: Dir, n: nat, content: Content, jobs: map<nat, Job>)
    requires Tidy(dir, jobs)
    ensures Tidy(dir[TempFile(n) := content], jobs)
  {
  }

  lemma CleanedKeeps(s: System)
    requires s.versions != [] && AllTidy(s.versions, s.jobs)
    ensures AllTidy(Cleaned(s).versions, s.jobs)
    ensures KeepsOthers(s.versions, Cleaned(s).versions, TempFile(s.temp))
    ensures Cleaned(s).versions[0] == s.versions[0]
  {
    LessIsTidy(s.Live(), {TempFile(s.temp)}, s.jobs);
    ThenTidy(s, s.Live() - {TempFile(s.temp)});
  }

  /** A successful operation of publishing the final file of a publication begun. */
  lemma PublishKeeps(s: System, stage: Stage, name: Name, content: Content)
    requires s.versions != [] && AllTidy(s.versions, s.jobs) && StageOk(s, stage, name) && !name.TempFile?
    requires name.gen in s.jobs
    requires if name.DataFile? then content == Data(s.jobs[name.gen].sum)
             else name.tick == s.jobs[name.gen].tick && content == Manifest(DataFile(name.gen), s.jobs[name.gen].sum)
    ensures var t := PublishOp(s, stage, name, content, true);
            && t.versions != [] && AllTidy(t.versions, s.jobs) && t == s.(versions := t.versions, flushed := t.flushed)
            && (stage == SyncingDir ==> t.versions == [s.Live()])
            && (stage != SyncingDir ==> StageOk(t, Next(stage), name) && t.versions[0] == s.versions[0])
            && KeepsOthers(s.versions, t.versions, name)
  {
    var temp := TempFile(s.temp);
    WithTemp(s.Live(), s.temp, Torn, s.jobs);
    WithTemp(s.Live(), s.temp, content, s.jobs);
    LessIsTidy(s.Live(), {temp}, s.jobs);
    assert Tidy((s.Live() - {temp})[name := content], s.jobs);
  }

  lemma PublishDataKeeps(s: System, ok: bool)
    requires Inv(s) && s.phase.PublishData?
    ensures Inv(DoIo(s, ok)) && KeepsOthers(s.versions, DoIo(s, ok).versions, s.phase.job.DataName())
  {
    var job, stage := s.phase.job, s.phase.stage;
    CleanedKeeps(s);
    PublishKeeps(s, stage, job.DataName(), Data(job.sum));
  }

  lemma PublishManifestKeeps(s: System, ok: bool)
    requires Inv(s) && s.phase.PublishManifest?
    ensures Inv(DoIo(s, ok)) && KeepsOthers(s.versions, DoIo(s, ok).versions, s.phase.job.ManifestName())
  {
    var job, stage := s.phase.job, s.phase.stage;
    CleanedKeeps(s);
    PublishKeeps(s, stage, job.ManifestName(), Manifest(job.DataName(), job.sum));
  }

  lemma RemovingKeeps(s: System, name: Name, ok: bool)
    requires Inv(s)
    ensures var t := if ok then Then(s, s.Live() - {name}) else s;
            t.versions != [] && AllTidy(t.versions, s.jobs) && t.versions[0] == s.versions[0] && KeepsOthers(s.versions, t.versions, name)
  {
    LessIsTidy(s.Live(), {name}, s.jobs);
    ThenTidy(s, s.Live() - {name});
  }

  lemma IoKeeps(s: System, ok: bool)
    requires Inv(s)
    ensures Inv(DoIo(s, ok))
  {
    match s.phase
    case PublishData(_, _) => PublishDataKeeps(s, ok);
    case PublishManifest(_, _) => PublishManifestKeeps(s, ok);
    case DropData(job) => RemovingKeeps(s, job.DataName(), ok);
    case Retaining(job, left, doomed) =>
      if doomed != [] {
        RemovingKeeps(s, doomed[0], ok);
      }
    case _ =>
  }

  lemma BeginKeeps(s: System, job: Job)
    requires Inv(s) && job.gen !in s.jobs
    ensures Inv(s.(phase := PublishData(job, Creating), jobs := s.jobs[job.gen := job]))
  {
    forall i | 0 <= i < |s.versions|
      ensures job.DataName() !in s.versions[i] && job.ManifestName() !in s.versions[i]
    {
      assert Tidy(s.versions[i], s.jobs);
    }
  }

  /** A victim shares nothing with another checkpoint that is recoverable. */
  lemma VictimIsAnother(s: System, victim: Name, m: Name)
    requires Inv(s) && victim.ManifestFile? && m.ManifestFile? && victim != m && m in s.Live()
    ensures Valid(s.Live(), victim) ==> s.Live()[victim].data != DataFile(m.gen)
    ensures Spares((if Valid(s.Live(), victim) then [s.Live()[victim].data] else []) + [victim], m)
  {
    TidyValid(s.Live(), s.jobs, victim);
    assert ManifestFile(m.gen, m.tick) in s.Live();
    if victim in s.Live() {
      assert ManifestFile(victim.gen, victim.tick) in s.Live();
    }
  }

  lemma StepKeeps(keep: nat, pinned: set<Name>, s: System, e: Event, t: System)
    requires Inv(s) && Step(keep, pinned, s, e, t)
    ensures Inv(t)
  {
    match e
    case Begin(job) => BeginKeeps(s, job);
    case Io(ok) => IoKeeps(s, ok);
    case Verified(_, _) =>
    case Choose(victim) => VictimIsAnother(s, victim, s.phase.job.ManifestName());
    case Finish =>
    case Crash(outcome) => OutcomeTidy(s.versions, outcome, s.jobs);
  }

  /** A recoverable checkpoint stays so through a step that does not doom it. */
  lemma StepKeepsSafe(keep: nat, pinned: set<Name>, s: System, e: Event, t: System, m: Name)
    requires Inv(s) && Step(keep, pinned, s, e, t) && Safe(s.versions, m)
    requires s.phase.Retaining? ==> Spares(s.phase.doomed, m)
    ensures Safe(t.versions, m)
    ensures t.phase.Retaining? && !e.Choose? ==> Spares(t.phase.doomed, m)
  {
    SafeIsNotNew(s, m);
    match e
    case Io(ok) =>
      match s.phase {
        case PublishData(_, _) => PublishDataKeeps(s, ok);
        case PublishManifest(_, _) => PublishManifestKeeps(s, ok);
        case DropData(job) => RemovingKeeps(s, job.DataName(), ok);
        case Retaining(job, left, doomed) => if doomed != [] { RemovingKeeps(s, doomed[0], ok); }
        case _ =>
      }
    case Crash(outcome) =>
      OutcomeKeeps(s.versions, outcome, m);
      OutcomeKeeps(s.versions, outcome, DataFile(m.gen));
    case _ =>
  }

  /** What is recoverable is not the publication under way before its commit. */
  lemma SafeIsNotNew(s: System, m: Name)
    requires Inv(s) && Safe(s.versions, m)
    ensures (s.phase.PublishData? || s.phase.PublishManifest? || s.phase.DropData?) ==> m.gen != s.phase.job.gen
  {
    assert m in s.versions[0] && Tidy(s.versions[0], s.jobs);
    assert ManifestFile(m.gen, m.tick) in s.versions[0];
  }

  // ---- Whole runs ----

  lemma {:induction false} RunKeeps(keep: nat, pinned: set<Name>, states: seq<System>, events: seq<Event>)
    requires IsRun(keep, pinned, states, events)
    ensures Inv(states[|events|])
  {
    if events != [] {
      var n := |events| - 1;
      RunKeeps(keep, pinned, states[..n + 1], events[..n]);
      StepKeeps(keep, pinned, states[n], events[n], states[n + 1]);
    }
  }

  /** The commit point. In every run, for every crash: before the manifest is renamed the new checkpoint is not
      recoverable; once the directory is synced after the rename it is, whatever the crash leaves. */
  lemma ManifestRenameCommits(keep: nat, pinned: set<Name>, states: seq<System>, events: seq<Event>, dir: Dir)
    requires IsRun(keep, pinned, states, events) && Outcome(states[|events|].versions, dir)
    ensures var s := states[|events|];
            && (s.phase.PublishData? || (s.phase.PublishManifest? && s.phase.stage != SyncingDir) ==>
                  !Valid(dir, s.phase.job.ManifestName()))
            && (s.phase.Verifying? || s.phase.Retaining? ==> Valid(dir, s.phase.job.ManifestName()))
  {
    RunKeeps(keep, pinned, states, events);
    var s := states[|events|];
    OutcomeTidy(s.versions, dir, s.jobs);
    if !s.phase.Idle? {
      var m := s.phase.job.ManifestName();
      TidyValid(dir, s.jobs, m);
      OutcomeKeeps(s.versions, dir, m);
      OutcomeKeeps(s.versions, dir, DataFile(m.gen));
    }
  }

  ghost predicate SomeSafe(s: System) {
    exists m :: Safe(s.versions, m)
  }

  lemma StepKeepsSomeSafe(keep: nat, pinned: set<Name>, s: System, e: Event, t: System)
    requires Inv(s) && Step(keep, pinned, s, e, t) && SomeSafe(s)
    ensures SomeSafe(t)
  {
    var m :| Safe(s.versions, m);
    if s.phase.Retaining? {
      m := s.phase.job.ManifestName();
    }
    StepKeepsSafe(keep, pinned, s, e, t, m);
  }

  lemma {:induction false} SafeForever(keep: nat, pinned: set<Name>, states: seq<System>, events: seq<Event>, i: nat)
    requires IsRun(keep, pinned, states, events) && i <= |events| && SomeSafe(states[i])
    ensures SomeSafe(states[|events|])
  {
    if i < |events| {
      var n := |events| - 1;
      SafeForever(keep, pinned, states[..n + 1], events[..n], i);
      RunKeeps(keep, pinned, states[..n + 1], events[..n]);
      StepKeepsSomeSafe(keep, pinned, states[n], events[n], states[n + 1]);
    }
  }

  /** Once some checkpoint would survive any crash, then at every later point of the run, through further
      publications, failures, retention and crashes, every crash leaves at least one recoverable. */
  lemma AlwaysSomeCheckpoint(keep: nat, pinned: set<Name>, states: seq<System>, events: seq<Event>, i: nat, dir: Dir) returns (m: Name)
    requires IsRun(keep, pinned, states, events) && i <= |events| && SomeSafe(states[i])
    requires Outcome(states[|events|].versions, dir)
    ensures Valid(dir, m)
  {
    SafeForever(keep, pinned, states, events, i);
    RunKeeps(keep, pinned, states, events);
    var s := states[|events|];
    m :| Safe(s.versions, m);
    OutcomeTidy(s.versions, dir, s.jobs);
    OutcomeKeeps(s.versions, dir, m);
    OutcomeKeeps(s.versions, dir, DataFile(m.gen));
    TidyValid(dir, s.jobs, m);
  }

  ghost predicate PinHeld(s: System, m: Name) {
    Safe(s.versions, m) && (s.phase.Retaining? ==> Spares(s.phase.doomed, m))
  }

  /** A pinned checkpoint, once recoverable whatever happens, stays so for the rest of the run. */
  lemma {:induction false} PinnedSurvive(keep: nat, pinned: set<Name>, states: seq<System>, events: seq<Event>, i: nat, m: Name)
    requires IsRun(keep, pinned, states, events) && i <= |events| && m in pinned && PinHeld(states[i], m)
    ensures PinHeld(states[|events|], m)
  {
    if i < |events| {
      var n := |events| - 1;
      PinnedSurvive(keep, pinned, states[..n + 1], events[..n], i, m);
      RunKeeps(keep, pinned, states[..n + 1], events[..n]);
      StepKeepsSafe(keep, pinned, states[n], events[n], states[n + 1], m);
      if events[n].Choose? {
        VictimIsAnother(states[n], events[n].victim, m);
      }
    }
  }
}
