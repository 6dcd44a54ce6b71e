/** The guarded self-update cycle: apply a candidate, check health, roll back, publish
    (scripts/guarded_self_evolve.py and nanobot/runtime/autoevolve.py). */
module GuardedRelease {
  import opened Prelude

  /** `commit` stands for the content of the release archive. */
  datatype Candidate = Candidate(id: string, commit: string, clean: bool, visible: bool)

  /** One cycle's candidate and what the outside world answers. */
  datatype Cycle = Cycle(candidate: Candidate, healthy: bool, publish: bool, exported: bool, noop: bool)

  datatype Reason = DirtyWorktree | RemoteCommitNotVisible

  /** The release directories by id, the target of the `current` link, and the records written. */
  datatype State = State(
    releases: map<string, string>, current: Option<string>,
    applied: seq<Candidate>, merged: seq<string>, blocked: seq<(string, Reason)>)

  predicate Applicable(c: Candidate) {
    c.clean && c.visible
  }

  /** Replace the release directory and point the link at it; the previous target is recorded. */
  function ApplyCandidate(s: State, c: Candidate): (State, Option<string>) {
    (s.(releases := s.releases[c.id := c.commit], current := Some(c.id), applied := s.applied + [c]), s.current)
  }

  function Rollback(s: State, previous: string): State {
    s.(current := Some(previous))
  }

  predicate Merges(y: Cycle) {
    Applicable(y.candidate) && y.healthy && y.publish && y.exported && !y.noop
  }

  function Publish(s: State, y: Cycle): State {
    if y.publish && y.exported && !y.noop && y.healthy then s.(merged := s.merged + [y.candidate.id]) else s
  }

  /** A whole cycle that raises nothing. */
  function RunCycle(s: State, y: Cycle): State {
    var c := y.candidate;
    if !c.clean then s.(blocked := s.blocked + [(c.id, DirtyWorktree)])
    else if !c.visible then s.(blocked := s.blocked + [(c.id, RemoteCommitNotVisible)])
    else
      var (s1, previous) := ApplyCandidate(s, c);
      var s2 := if !y.healthy && previous.Some? then Rollback(s1, previous.value) else s1;
      Publish(s2, y)
  }

  function RunCycles(s: State, cycles: seq<Cycle>): State {
    if cycles == [] then s else RunCycle(RunCycles(s, cycles[..|cycles| - 1]), cycles[|cycles| - 1])
  }

  /** The content the link leads to. */
  function Deployed(s: State): Option<string> {
    if s.current.Some? && s.current.value in s.releases then Some(s.releases[s.current.value]) else None
  }

  /* ---------- one cycle ---------- */

  /** After a failed health check the deployed content is what it was before exactly when there was a release
      to go back to and the candidate did not overwrite its directory with something else. */
  lemma {:induction false} FailedCycleRestoresIff(s: State, y: Cycle)
    requires Applicable(y.candidate) && !y.healthy
    requires s.current.Some? ==> s.current.value in s.releases
    ensures Deployed(RunCycle(s, y)) == Deployed(s) <==>
      s.current.Some? && (s.current.value != y.candidate.id || s.releases[y.candidate.id] == y.candidate.commit)
  {
  }

  /* ---------- whole runs ---------- */

  /** The latest candidate that was applied and found healthy, or the initial release. */
  function LatestHealthy(cycles: seq<Cycle>, initial: string): string {
    if cycles == [] then initial
    else
      var y := cycles[|cycles| - 1];
      if Applicable(y.candidate) && y.healthy then y.candidate.id
      else LatestHealthy(cycles[..|cycles| - 1], initial)
  }

  function CommitOf(cycles: seq<Cycle>, initial: string): string {
    if cycles == [] then initial
    else
      var y := cycles[|cycles| - 1];
      if Applicable(y.candidate) && y.healthy then y.candidate.commit
      else CommitOf(cycles[..|cycles| - 1], initial)
  }

  /** Every candidate id is new: not a release already there, and not used by another cycle. */
  predicate FreshIds(s: State, cycles: seq<Cycle>) {
    && (forall i :: 0 <= i < |cycles| ==> cycles[i].candidate.id !in s.releases)
    && forall i, j :: 0 <= i < j < |cycles| ==> cycles[i].candidate.id != cycles[j].candidate.id
  }

  lemma {:induction false} ReleasesGrow(s: State, cycles: seq<Cycle>)
    ensures forall id :: id in RunCycles(s, cycles).releases ==>
      id in s.releases || exists i :: 0 <= i < |cycles| && cycles[i].candidate.id == id
    ensures FreshIds(s, cycles) ==> forall id :: id in s.releases ==>
      id in RunCycles(s, cycles).releases && RunCycles(s, cycles).releases[id] == s.releases[id]
  {
    if cycles == [] {
    } else {
      var last := |cycles| - 1;
      ReleasesGrow(s, cycles[..last]);
      assert forall i :: 0 <= i < last ==> cycles[..last][i] == cycles[i];
      assert RunCycles(s, cycles).releases.Keys <= RunCycles(s, cycles[..last]).releases.Keys + {cycles[last].candidate.id};
    }
  }

  /** Starting from a release, after any cycles with fresh ids, the link designates the latest candidate that
      passed the health check, or the initial release, and its content is untouched. */
  lemma {:induction false} CurrentIsLatestHealthy(s: State, cycles: seq<Cycle>)
    requires s.current.Some? && s.current.value in s.releases && FreshIds(s, cycles)
    ensures var s' := RunCycles(s, cycles);
      && s'.current == Some(LatestHealthy(cycles, s.current.value))
      && Deployed(s') == Some(CommitOf(cycles, s.releases[s.current.value]))
  {
    if cycles == [] {
    } else {
      var last := |cycles| - 1;
      var y := cycles[last];
      assert forall i :: 0 <= i < last ==> cycles[..last][i] == cycles[i];
      CurrentIsLatestHealthy(s, cycles[..last]);
      ReleasesGrow(s, cycles[..last]);
      assert y.candidate.id !in RunCycles(s, cycles[..last]).releases;
    }
  }

  function AppliedBy(cycles: seq<Cycle>): seq<Candidate> {
    if cycles == [] then []
    else
      AppliedBy(cycles[..|cycles| - 1]) +
      if Applicable(cycles[|cycles| - 1].candidate) then [cycles[|cycles| - 1].candidate] else []
  }

  function MergedBy(cycles: seq<Cycle>): seq<string> {
    if cycles == [] then []
    else
      MergedBy(cycles[..|cycles| - 1]) +
      if Merges(cycles[|cycles| - 1]) then [cycles[|cycles| - 1].candidate.id] else []
  }

  /** Exactly the clean and visible candidates are ever applied, exactly the healthy, exported and non-trivial
      cycles are ever merged, each in order. */
  lemma {:induction false} GatesHold(s: State, cycles: seq<Cycle>)
    ensures RunCycles(s, cycles).applied == s.applied + AppliedBy(cycles)
    ensures RunCycles(s, cycles).merged == s.merged + MergedBy(cycles)
  {
    if cycles == [] {
      assert s.applied + [] == s.applied && s.merged + [] == s.merged;
    } else {
      GatesHold(s, cycles[..|cycles| - 1]);
    }
  }

  /** The record a cycle leaves when its candidate is refused. */
  function Refusal(y: Cycle): seq<(string, Reason)> {
    var c := y.candidate;
    if c.clean && c.visible then [] else [(c.id, if c.clean then RemoteCommitNotVisible else DirtyWorktree)]
  }

  /** Every refused candidate is recorded with its reason, in order, and nothing else is. */
  lemma {:induction false} RefusedAreRecorded(s: State, cycles: seq<Cycle>)
    ensures RunCycles(s, cycles).blocked == s.blocked + FlatMap(Refusal, cycles)
  {
    if cycles == [] {
      assert s.blocked + [] == s.blocked;
    } else {
      hide FlatMap, Refusal, RunCycle;
      var last := |cycles| - 1;
      RefusedAreRecorded(s, cycles[..last]);
      RefusalIsRecorded(RunCycles(s, cycles[..last]), cycles[last]);
      assert cycles == cycles[..last] + [cycles[last]];
      FlatMapAppend(Refusal, cycles[..last], [cycles[last]]);
      FlatMapCons(Refusal, cycles[last], []);
    }
  }

  lemma {:induction false} RefusalIsRecorded(s: State, y: Cycle)
    ensures RunCycle(s, y).blocked == s.blocked + Refusal(y)
  {
    assert s.blocked + [] == s.blocked;
  }

  /** What a run applied beyond what was applied before is, for each entry, the candidate of some cycle that was
      clean and visible; and every such candidate is applied. */
  lemma {:induction false} AppliedWereGated(s: State, cycles: seq<Cycle>)
    ensures var applied := RunCycles(s, cycles).applied;
      && s.applied <= applied
      && (forall k :: |s.applied| <= k < |applied| ==> GatedCandidate(cycles, applied[k]))
      && forall i :: 0 <= i < |cycles| && Applicable(cycles[i].candidate) ==> cycles[i].candidate in applied
  {
    if cycles == [] {
    } else {
      var last := |cycles| - 1;
      var before := RunCycles(s, cycles[..last]).applied;
      AppliedWereGated(s, cycles[..last]);
      assert forall i :: 0 <= i < last ==> cycles[..last][i] == cycles[i];
      assert forall c :: GatedCandidate(cycles[..last], c) ==> GatedCandidate(cycles, c);
      if Applicable(cycles[last].candidate) {
        assert RunCycles(s, cycles).applied == before + [cycles[last].candidate];
        assert GatedCandidate(cycles, cycles[last].candidate);
      }
    }
  }

  predicate GatedCandidate(cycles: seq<Cycle>, c: Candidate) {
    exists i :: 0 <= i < |cycles| && cycles[i].candidate == c && c.clean && c.visible
  }

  /** The i-th cycle merged its candidate: it had been applied, was healthy, was exported with a change, and the
      link designated it, as the latest healthy candidate, when the cycle ended. */
  ghost predicate MergedAt(s: State, cycles: seq<Cycle>, i: nat, id: string)
    requires i < |cycles|
  {
    var y, after := cycles[i], RunCycles(s, cycles[..i + 1]);
    && y.candidate.id == id && y.candidate in after.applied
    && y.healthy && y.publish && y.exported && !y.noop
    && after.current == Some(id)
    && IsLatestHealthy(cycles[..i + 1], id)
  }

  ghost predicate IsLatestHealthy(cycles: seq<Cycle>, id: string) {
    forall initial :: LatestHealthy(cycles, initial) == id
  }

  /** Every merge of a run belongs to such a cycle. */
  lemma {:induction false} MergesWereGated(s: State, cycles: seq<Cycle>, k: nat)
    requires |s.merged| <= k < |RunCycles(s, cycles).merged|
    ensures exists i :: 0 <= i < |cycles| && MergedAt(s, cycles, i, RunCycles(s, cycles).merged[k])
  {
    if cycles == [] {
    } else {
      var last := |cycles| - 1;
      var before := RunCycles(s, cycles[..last]);
      var id := RunCycles(s, cycles).merged[k];
      assert cycles[..last + 1] == cycles;
      if k < |before.merged| {
        MergesWereGated(s, cycles[..last], k);
        var i :| 0 <= i < last && MergedAt(s, cycles[..last], i, id);
        assert cycles[..last][..i + 1] == cycles[..i + 1];
        assert MergedAt(s, cycles, i, id);
      } else {
        MergingCycle(before, cycles[last]);
        assert MergedAt(s, cycles, last, id);
      }
    }
  }

  lemma {:induction false} MergingCycle(s: State, y: Cycle)
    ensures var s' := RunCycle(s, y);
      if s'.merged == s.merged then true
      else
        && s'.merged == s.merged + [y.candidate.id] && y.candidate in s'.applied && s'.current == Some(y.candidate.id)
        && Applicable(y.candidate) && y.healthy && y.publish && y.exported && !y.noop
  {
  }

  /** And every healthy, exported cycle with a change whose candidate was applied is merged. */
  lemma {:induction false} GatedAreMerged(s: State, cycles: seq<Cycle>, i: nat)
    requires i < |cycles| && Merges(cycles[i])
    ensures cycles[i].candidate.id in RunCycles(s, cycles).merged
  {
    var last := |cycles| - 1;
    if i == last {
      assert RunCycles(s, cycles).merged == RunCycles(s, cycles[..last]).merged + [cycles[i].candidate.id];
    } else {
      GatedAreMerged(s, cycles[..last], i);
    }
  }

  /** Without an initial release, a first candidate that fails its health check stays in place. */
  lemma {:induction false} FirstFailureIsNotRolledBack(releases: map<string, string>, y: Cycle)
    requires Applicable(y.candidate) && !y.healthy
    ensures RunCycle(State(releases, None, [], [], []), y).current == Some(y.candidate.id)
  {
  }

  /* ---------- the script on its state directory ---------- */

  class Runtime {
    var releases: map<string, string>
    var current: Option<string>
    var applied: seq<Candidate>
    var merged: seq<string>
    var blocked: seq<(string, Reason)>

    constructor (current: Option<string>, releases: map<string, string>)
      ensures Value() == State(releases, current, [], [], [])
    {
      this.releases, this.current := releases, current;
      applied, merged, blocked := [], [], [];
    }

    function Value(): State
      reads this
    {
      State(releases, current, applied, merged, blocked)
    }

    /** apply_candidate_release refuses a candidate that is not applicable, after recording why. */
    method ApplyCandidateRelease(c: Candidate) returns (raised: bool, previous: Option<string>)
      modifies this
      ensures raised <==> !Applicable(c)
      ensures !raised ==> (Value(), previous) == ApplyCandidate(old(Value()), c)
      ensures raised ==> Value() == old(Value()).(
        blocked := old(blocked) + [(c.id, if !c.clean then DirtyWorktree else RemoteCommitNotVisible)])
    {
      previous := None;
      if !c.clean {
        blocked := blocked + [(c.id, DirtyWorktree)];
        return true, None;
      }
      if !c.visible {
        blocked := blocked + [(c.id, RemoteCommitNotVisible)];
        return true, None;
      }
      previous := current;
      releases := releases[c.id := c.commit];
      current := Some(c.id);
      applied := applied + [c];
      raised := false;
    }

    method RollbackRelease(previous: string)
      modifies this`current
      ensures Value() == Rollback(old(Value()), previous)
    {
      current := Some(previous);
    }

    method GuardedCycle(y: Cycle) returns (exitCode: int)
      modifies this
      ensures Value() == RunCycle(old(Value()), y)
      ensures exitCode == if !Applicable(y.candidate) || y.healthy || (y.publish && y.exported && y.noop) then 0 else 1
    {
      var c := y.candidate;
      if !c.clean {
        blocked := blocked + [(c.id, DirtyWorktree)];
        return 0;
      }
      if !c.visible {
        blocked := blocked + [(c.id, RemoteCommitNotVisible)];
        return 0;
      }
      var raised, previous := ApplyCandidateRelease(c);
      if !y.healthy {
        if previous.Some? {
          RollbackRelease(previous.value);
        }
      }
      if y.publish {
        if y.exported && y.noop {
          return 0;
        }
        if y.exported {
          if y.healthy {
            merged := merged + [c.id];
          }
        }
      }
      exitCode := if y.healthy then 0 else 1;
    }
  }
}
