/** Which checkpoints retention keeps: from the verification of a new one to the end, the oldest go, and no more than
    needed. */
module Retention {
  import opened CheckpointPublish

  /** The states from `from` to `to` are one retention. */
  predicate OneRetention(states: seq<System>, from: nat, to: nat) {
    from <= to < |states| && forall i | from <= i <= to :: states[i].phase.Retaining?
  }

  predicate AllRemoved(events: seq<Event>, from: nat, to: nat) {
    to <= |events| && forall i | from <= i < to && events[i].Io? :: events[i].ok
  }

  /** Of the manifests `all` found by the publication of `m`, those in `left` were kept so far: the new one, what is pinned,
      and nothing older than what went; and more went only while more than `keep` were left. */
  ghost predicate Kept(keep: nat, pinned: set<Name>, m: Name, all: set<Name>, left: set<Name>) {
    && (forall x | x in all :: x.ManifestFile?)
    && left <= all
    && (forall x | x in all && (x == m || x in pinned) :: x in left)
    && (forall gone, stays | gone in all - left && stays in left && stays != m && stays !in pinned :: gone.tick <= stays.tick)
    && (left == all || |left| >= keep)
  }

  lemma OneFewer(left: set<Name>, victim: Name)
    requires victim in left
    ensures |left - {victim}| == |left| - 1
  {
  }

  lemma ChoiceKeeps(keep: nat, pinned: set<Name>, s: System, victim: Name, t: System, all: set<Name>)
    requires s.versions != [] && Step(keep, pinned, s, Choose(victim), t)
    requires Kept(keep, pinned, s.phase.job.ManifestName(), all, s.phase.left)
    ensures Kept(keep, pinned, s.phase.job.ManifestName(), all, t.phase.left)
  {
    OneFewer(s.phase.left, victim);
    forall gone, stays | gone in all - t.phase.left && stays in t.phase.left && stays != s.phase.job.ManifestName() && stays !in pinned
      ensures gone.tick <= stays.tick
    {
      assert Removable(s.phase, pinned, stays);
    }
  }

  /** What the directory holds meanwhile: what was kept is there, with its data if it had it at the start, and if every removal
      succeeded, what went is gone but for what is just being removed. */
  ghost predicate Holds(first: Dir, dir: Dir, left: set<Name>, doomed: seq<Name>, removed: bool) {
    && left <= ManifestsIn(dir)
    && (forall x | x in left :: Spares(doomed, x) && (DataFile(x.gen) in first ==> DataFile(x.gen) in dir))
    && (removed ==> forall x | x in ManifestsIn(dir) :: x in left || x in doomed)
  }

  lemma ChoiceHolds(keep: nat, pinned: set<Name>, s: System, victim: Name, t: System, first: Dir, removed: bool)
    requires Inv(s) && Step(keep, pinned, s, Choose(victim), t)
    requires Holds(first, s.Live(), s.phase.left, [], removed)
    ensures Holds(first, t.Live(), t.phase.left, t.phase.doomed, removed)
  {
    forall x | x in t.phase.left
      ensures Spares(t.phase.doomed, x)
    {
      assert x in ManifestsIn(s.Live());
      VictimIsAnother(s, victim, x);
    }
  }

  lemma RemovalHolds(s: System, ok: bool, first: Dir, removed: bool)
    requires s.versions != [] && s.phase.Retaining? && Holds(first, s.Live(), s.phase.left, s.phase.doomed, removed)
    ensures var t := DoIo(s, ok);
            t.versions != [] && t.phase.Retaining? && t.phase.left == s.phase.left && t.phase.job == s.phase.job
            && Holds(first, t.Live(), t.phase.left, t.phase.doomed, removed && ok)
  {
    var doomed := s.phase.doomed;
    if doomed != [] {
      assert doomed == [doomed[0]] + doomed[1..];
    }
  }

  /** What holds from the verification of a checkpoint to the end of its retention. */
  ghost predicate Retained(keep: nat, pinned: set<Name>, first: System, s: System, removed: bool)
    requires first.versions != [] && s.versions != [] && first.phase.Verifying?
  {
    && s.phase.Retaining? && s.phase.job == first.phase.job && s.phase.job.ManifestName() in ManifestsIn(first.Live())
    && Kept(keep, pinned, s.phase.job.ManifestName(), ManifestsIn(first.Live()), s.phase.left)
    && Holds(first.Live(), s.Live(), s.phase.left, s.phase.doomed, removed)
  }

  lemma StepRetains(keep: nat, pinned: set<Name>, first: System, s: System, e: Event, t: System, removed: bool)
    requires first.versions != [] && first.phase.Verifying? && Inv(s) && Step(keep, pinned, s, e, t) && t.phase.Retaining?
    requires Retained(keep, pinned, first, s, removed)
    ensures Retained(keep, pinned, first, t, removed && (e.Io? ==> e.ok))
  {
    if e.Choose? {
      ChoiceKeeps(keep, pinned, s, e.victim, t, ManifestsIn(first.Live()));
      ChoiceHolds(keep, pinned, s, e.victim, t, first.Live(), removed);
    } else {
      RemovalHolds(s, e.ok, first.Live(), removed);
    }
  }

  lemma {:induction false} RunRetains(keep: nat, pinned: set<Name>, states: seq<System>, events: seq<Event>, from: nat, to: nat)
    requires IsRun(keep, pinned, states, events) && from < to <= |events| && events[from].Verified? && OneRetention(states, from + 1, to)
    ensures states[from].phase.Verifying?
    ensures Retained(keep, pinned, states[from], states[to], AllRemoved(events, from + 1, to))
  {
    assert Step(keep, pinned, states[from], events[from], states[from + 1]);
    RunKeeps(keep, pinned, states[..to], events[..to - 1]);
    assert Inv(states[to - 1]);
    assert Step(keep, pinned, states[to - 1], events[to - 1], states[to]);
    if to > from + 1 {
      RunRetains(keep, pinned, states, events, from, to - 1);
      StepRetains(keep, pinned, states[from], states[to - 1], events[to - 1], states[to], AllRemoved(events, from + 1, to - 1));
    }
  }

  /** In every run, from the verification of a new checkpoint to the end of its retention: the new one and the pinned ones stay;
      of the others the newest stay, so that every one dropped is no newer than any one kept; no more went than brought the list
      down to `keep`; and it ends with at most `keep`, or with nothing but the new one and the pinned. What was kept is in the
      directory, as recoverable as it was, and if every removal succeeded nothing else is. */
  lemma RetentionKeepsNewest(keep: nat, pinned: set<Name>, states: seq<System>, events: seq<Event>, from: nat, to: nat)
    requires IsRun(keep, pinned, states, events) && from < to < |events|
    requires events[from].Verified? && OneRetention(states, from + 1, to) && events[to].Finish?
    ensures var m, all, left := states[to].phase.job.ManifestName(), ManifestsIn(states[from].Live()), states[to].phase.left;
            && m in left && left <= all && (forall x | x in all && x in pinned :: x in left)
            && (forall x | x in all :: x.ManifestFile?)
            && (forall gone, stays | gone in all - left && stays in left - pinned - {m} :: gone.tick <= stays.tick)
            && (left != all ==> |left| >= keep) && (|left| <= keep || forall x | x in left :: x == m || x in pinned)
            && (forall x | x in left :: x in states[to].Live() && (Valid(states[from].Live(), x) ==> Valid(states[to].Live(), x)))
            && (AllRemoved(events, from + 1, to) ==> ManifestsIn(states[to].Live()) == left)
  {
    RunRetains(keep, pinned, states, events, from, to);
    assert Step(keep, pinned, states[to], events[to], states[to + 1]);
    RunKeeps(keep, pinned, states[..from + 1], events[..from]);
    RunKeeps(keep, pinned, states[..to + 1], events[..to]);
    var left := states[to].phase.left;
    forall x | x in left
      ensures x in states[to].Live() && (Valid(states[from].Live(), x) ==> Valid(states[to].Live(), x))
    {
      TidyValid(states[from].Live(), states[from].jobs, x);
      TidyValid(states[to].Live(), states[to].jobs, x);
    }
    if |left| > keep {
      forall x | x in left
        ensures x == states[to].phase.job.ManifestName() || x in pinned
      {
        assert !Removable(states[to].phase, pinned, x);
      }
    }
  }
}
