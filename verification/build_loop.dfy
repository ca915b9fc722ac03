/** The bounded build and repair loop of one project, and the review that a
    commit must pass before it is accepted. */
module BuildLoop {
  import opened Prelude

  type Sha = nat
  type File = nat

  datatype Phase = INSTALL | LINT | BUILD | TEST | RUN

  datatype Command = Command(phase: Phase, argv: string)

  /** A recorded run; reproduced marks the phases reproduce_*. */
  datatype BuildRun = BuildRun(commit: Sha, command: Command, reproduced: bool, passed: bool)

  datatype Target = Target(
    mission: nat, id: nat,
    install: seq<string>, lint: seq<string>, build: seq<string>, test: seq<string>, run: seq<string>)

  datatype Status = COMMITTED | REPAIRED | VALIDATED | REVIEW_FAILED | FAILED_VALIDATION

  datatype ChangeSet = ChangeSet(mission: nat, target: nat, commit: Sha, files: set<File>, status: Status)

  datatype FileState = Clean | EscapesRoot | HoldsSecret

  datatype Blocker = OtherMission | OtherTarget | BadFile(file: File) | NoTestEvidence | NotValidated

  /** Why an attempt failed; CloneFailed is no verdict and ends the run. */
  datatype Reason = CommandsFailed(phases: seq<Phase>) | ReproductionFailed(phase: Phase)
      | ReviewBlocked(blockers: seq<Blocker>) | CloneFailed

  datatype Failure = NegativeRepairs | DirtyWorkspace | NoCommands | Exhausted(reason: Reason)
      | NoRepairMethod(reason: Reason) | Aborted

  /** One command in the working tree; it may move HEAD. */
  datatype Ran = Ran(passed: bool, movedTo: Option<Sha>)

  /** What Git, the shell and the implementer do at each attempt: staged is the
      commit of the work before the attempt, None when nothing was staged. */
  datatype World = World(
    dirty: bool, staged: nat -> Option<Sha>, changed: nat -> set<File>, canRepair: bool,
    ran: (nat, nat) -> Ran, cloned: nat -> bool, reran: (nat, nat) -> bool, inspect: (nat, File) -> FileState)

  function Tagged(phase: Phase, argvs: seq<string>): seq<Command> {
    seq(|argvs|, i requires 0 <= i < |argvs| => Command(phase, argvs[i]))
  }

  function Commands(t: Target): seq<Command> {
    Tagged(INSTALL, t.install) + Tagged(LINT, t.lint) + Tagged(BUILD, t.build)
    + Tagged(TEST, t.test) + Tagged(RUN, t.run)
  }

  lemma TaggedMeaning(phase: Phase, argvs: seq<string>)
    ensures |Tagged(phase, argvs)| == |argvs|
    ensures forall k :: 0 <= k < |argvs| ==> Tagged(phase, argvs)[k] == Command(phase, argvs[k])
  {
  }

  predicate Earlier(a: Phase, b: Phase) {
    match a
    case INSTALL => true
    case LINT => b != INSTALL
    case BUILD => b != INSTALL && b != LINT
    case TEST => b == TEST || b == RUN
    case RUN => b == RUN
  }

  /** Every declared command is run, each as often as declared, and phase by
      phase: install, lint, build, test, run. */
  lemma CommandsMeaning(t: Target)
    ensures |Commands(t)| == |t.install| + |t.lint| + |t.build| + |t.test| + |t.run|
    ensures forall c :: c in t.install ==> Command(INSTALL, c) in Commands(t)
    ensures forall c :: c in t.lint ==> Command(LINT, c) in Commands(t)
    ensures forall c :: c in t.build ==> Command(BUILD, c) in Commands(t)
    ensures forall c :: c in t.test ==> Command(TEST, c) in Commands(t)
    ensures forall c :: c in t.run ==> Command(RUN, c) in Commands(t)
    ensures forall i, j :: 0 <= i < j < |Commands(t)| ==> Earlier(Commands(t)[i].phase, Commands(t)[j].phase)
  {
    TaggedHolds(INSTALL, t.install);
    TaggedHolds(LINT, t.lint);
    TaggedHolds(BUILD, t.build);
    TaggedHolds(TEST, t.test);
    TaggedHolds(RUN, t.run);
    hide Tagged;
  }

  lemma TaggedHolds(phase: Phase, argvs: seq<string>)
    ensures |Tagged(phase, argvs)| == |argvs|
    ensures forall c :: c in argvs ==> Command(phase, c) in Tagged(phase, argvs)
    ensures forall k :: 0 <= k < |argvs| ==> Tagged(phase, argvs)[k].phase == phase
  {
    TaggedMeaning(phase, argvs);
    forall c | c in argvs
      ensures Command(phase, c) in Tagged(phase, argvs)
    {
      var k :| 0 <= k < |argvs| && argvs[k] == c;
      assert Tagged(phase, argvs)[k] == Command(phase, c);
    }
  }

  // ---- the review

  function AtCommit(runs: seq<BuildRun>, commit: Sha): (r: seq<BuildRun>)
    ensures forall x :: x in r <==> x in runs && x.commit == commit
  {
    var n := |runs|;
    if n == 0 then []
    else
      var rest := AtCommit(runs[..n - 1], commit);
      assert runs == runs[..n - 1] + [runs[n - 1]];
      if runs[n - 1].commit == commit then rest + [runs[n - 1]] else rest
  }

  function TestRuns(runs: seq<BuildRun>): (r: seq<BuildRun>)
    ensures forall x :: x in r <==> x in runs && x.command.phase == TEST
  {
    var n := |runs|;
    if n == 0 then []
    else
      var rest := TestRuns(runs[..n - 1]);
      assert runs == runs[..n - 1] + [runs[n - 1]];
      if runs[n - 1].command.phase == TEST then rest + [runs[n - 1]] else rest
  }

  /** The runs the review looks at: those of the commit, or all when it has none. */
  function Evidence(runs: seq<BuildRun>, commit: Sha): seq<BuildRun> {
    TestRuns(if AtCommit(runs, commit) != [] then AtCommit(runs, commit) else runs)
  }

  predicate AllPassed(runs: seq<BuildRun>) {
    forall x :: x in runs ==> x.passed
  }

  /** Some test run was recorded at the commit and none ever failed there. */
  ghost predicate Tested(runs: seq<BuildRun>, commit: Sha) {
    && (exists x :: x in runs && x.commit == commit && x.command.phase == TEST)
    && (forall x :: x in runs && x.commit == commit && x.command.phase == TEST ==> x.passed)
  }

  /** With any run of the commit on record, the evidence is the commit's own. */
  lemma EvidenceIsScoped(runs: seq<BuildRun>, commit: Sha)
    requires exists x :: x in runs && x.commit == commit
    ensures (Evidence(runs, commit) != [] && AllPassed(Evidence(runs, commit))) <==> Tested(runs, commit)
  {
    var x :| x in runs && x.commit == commit;
    assert x in AtCommit(runs, commit);
    var evidence := Evidence(runs, commit);
    assert forall y :: y in evidence <==> y in runs && y.commit == commit && y.command.phase == TEST;
    if evidence != [] {
      assert evidence[0] in evidence;
    }
  }

  /** Without any run of the commit on record, all test runs count. */
  lemma EvidenceFallsBack(runs: seq<BuildRun>, commit: Sha)
    requires forall x :: x in runs ==> x.commit != commit
    ensures forall y :: y in Evidence(runs, commit) <==> y in runs && y.command.phase == TEST
  {
    NoneAtCommit(runs, commit);
  }

  lemma {:induction false} NoneAtCommit(runs: seq<BuildRun>, commit: Sha)
    requires forall x :: x in runs ==> x.commit != commit
    ensures AtCommit(runs, commit) == []
  {
    if runs != [] {
      NoneAtCommit(runs[..|runs| - 1], commit);
    }
  }

  method ReviewProjectChange(target: Target, change: ChangeSet, runs: seq<BuildRun>, attempt: nat, w: World)
    returns (blockers: seq<Blocker>)
    ensures blockers == [] <==>
              && change.mission == target.mission && change.target == target.id && change.status == VALIDATED
              && (forall f :: f in change.files ==> w.inspect(attempt, f) == Clean)
              && Evidence(runs, change.commit) != [] && AllPassed(Evidence(runs, change.commit))
  {
    blockers := [];
    if change.mission != target.mission {
      blockers := blockers + [OtherMission];
    }
    if change.target != target.id {
      blockers := blockers + [OtherTarget];
    }
    ghost var own := change.mission == target.mission && change.target == target.id;
    var left := change.files;
    while left != {}
      invariant left <= change.files
      invariant blockers == [] <==> own && forall f :: f in change.files - left ==> w.inspect(attempt, f) == Clean
      decreases |left|
    {
      var file :| file in left;
      if w.inspect(attempt, file) != Clean {
        blockers := blockers + [BadFile(file)];
      }
      left := left - {file};
    }
    var tests := Evidence(runs, change.commit);
    if tests == [] || exists x :: x in tests && !x.passed {
      blockers := blockers + [NoTestEvidence];
    }
    if change.status != VALIDATED {
      blockers := blockers + [NotValidated];
    }
  }

  // ---- the loop

  /** No command of the project moves HEAD. */
  ghost predicate HeadStays(w: World) {
    forall a: nat, k: nat :: w.ran(a, k).movedTo.None?
  }

  /** The first n commands were run in order; only an install that failed ends
      the list early. */
  ghost predicate Recorded(runs: seq<BuildRun>, commands: seq<Command>, reproduced: bool) {
    |runs| <= |commands| && forall k :: 0 <= k < |runs| ==>
         runs[k].command == commands[k] && runs[k].reproduced == reproduced
  }

  /** Every command passed at the commit, in the given kind of run. */
  ghost predicate Passing(runs: seq<BuildRun>, commands: seq<Command>, commit: Sha, reproduced: bool) {
    forall c :: c in commands ==> BuildRun(commit, c, reproduced, true) in runs
  }

  lemma RecordedPasses(runs: seq<BuildRun>, more: seq<BuildRun>, commands: seq<Command>, commit: Sha, reproduced: bool)
    requires Recorded(more, commands, reproduced) && |more| == |commands|
    requires forall k :: 0 <= k < |more| ==> more[k].passed && more[k].commit == commit
    ensures Passing(runs + more, commands, commit, reproduced)
  {
    forall c | c in commands
      ensures BuildRun(commit, c, reproduced, true) in runs + more
    {
      var k :| 0 <= k < |commands| && commands[k] == c;
      assert more[k] == BuildRun(commit, c, reproduced, true);
      assert (runs + more)[|runs| + k] == more[k];
    }
  }

  lemma PassingPersists(runs: seq<BuildRun>, more: seq<BuildRun>, commands: seq<Command>, commit: Sha, reproduced: bool)
    requires Passing(runs, commands, commit, reproduced)
    ensures Passing(runs + more, commands, commit, reproduced)
  {
  }

  /** What an accepted change set has behind it: its commit passed every
      command in a clean clone, and in the working tree unless a command moved
      HEAD; no test run of the commit ever failed; no changed file is bad. */
  ghost predicate Accepted(runs: seq<BuildRun>, target: Target, change: ChangeSet, attempt: nat, w: World) {
    && change.status == VALIDATED && change.mission == target.mission && change.target == target.id
    && Passing(runs, Commands(target), change.commit, true)
    && (HeadStays(w) ==> Passing(runs, Commands(target), change.commit, false))
    && Tested(runs, change.commit)
    && forall f :: f in change.files ==> w.inspect(attempt, f) == Clean
  }

  /** What an attempt asks of its change set: every command passes in the tree
      and in the clone, every changed file is clean, and the commit is tested. */
  ghost predicate Acceptable(runs: seq<BuildRun>, target: Target, change: ChangeSet, attempt: nat, w: World) {
    && (forall k :: 0 <= k < |Commands(target)| ==> w.ran(attempt, k).passed)
    && w.cloned(attempt) && (forall k :: 0 <= k < |Commands(target)| ==> w.reran(attempt, k))
    && (forall f :: f in change.files ==> w.inspect(attempt, f) == Clean)
    && Tested(runs, change.commit)
  }

  class RealBuildLoop {
    var head: Sha
    var runs: seq<BuildRun>
    var change: Option<ChangeSet>
    var finalCommit: Option<Sha>

    constructor (commit: Sha)
      ensures head == commit && runs == [] && change == None && finalCommit == None
    {
      head, runs, change, finalCommit := commit, [], None, None;
    }

    /** _run_commands: the phases that failed. */
    method RunCommands(commands: seq<Command>, attempt: nat, w: World)
      returns (failed: seq<Phase>, ghost added: seq<BuildRun>)
      modifies this`runs, this`head
      ensures runs == old(runs) + added && Recorded(added, commands, false)
      ensures forall k :: 0 <= k < |added| ==> added[k].passed == w.ran(attempt, k).passed
      ensures |added| < |commands| ==>
                added != [] && added[|added| - 1].command.phase == INSTALL && !added[|added| - 1].passed
      ensures forall k :: 0 <= k < |added| - 1 && added[k].command.phase == INSTALL ==> added[k].passed
      ensures failed == [] <==> |added| == |commands| && forall k :: 0 <= k < |added| ==> added[k].passed
      ensures HeadStays(w) ==> head == old(head) && forall k :: 0 <= k < |added| ==> added[k].commit == old(head)
    {
      failed, added := [], [];
      var n := 0;
      while n < |commands|
        invariant 0 <= n <= |commands| && |added| == n
        invariant runs == old(runs) + added && Recorded(added, commands, false)
        invariant forall k :: 0 <= k < n ==> added[k].passed == w.ran(attempt, k).passed
        invariant forall k :: 0 <= k < n && added[k].command.phase == INSTALL ==> added[k].passed
        invariant failed == [] <==> forall k :: 0 <= k < n ==> added[k].passed
        invariant HeadStays(w) ==> head == old(head) && forall k :: 0 <= k < n ==> added[k].commit == old(head)
      {
        var outcome := w.ran(attempt, n);
        if outcome.movedTo.Some? {
          head := outcome.movedTo.value;
        }
        var build := BuildRun(head, commands[n], false, outcome.passed);
        runs := runs + [build];
        added := added + [build];
        if !outcome.passed {
          failed := failed + [commands[n].phase];
          if commands[n].phase == INSTALL {
            return [INSTALL], added;
          }
        }
        n := n + 1;
      }
    }

    /** _reproduce: the same commands in a clean clone of the commit. */
    method Reproduce(commit: Sha, commands: seq<Command>, attempt: nat, w: World)
      returns (r: Result<(), Reason>, ghost added: seq<BuildRun>)
      modifies this`runs
      ensures runs == old(runs) + added && Recorded(added, commands, true)
      ensures forall k :: 0 <= k < |added| ==> added[k].commit == commit && added[k].passed == w.reran(attempt, k)
      ensures forall k :: 0 <= k < |added| - 1 ==> added[k].passed
      ensures w.cloned(attempt) && |added| < |commands| ==> added != [] && !w.reran(attempt, |added| - 1)
      ensures r.Ok? <==> w.cloned(attempt) && |added| == |commands| && forall k :: 0 <= k < |added| ==> added[k].passed
      ensures r == Err(CloneFailed) <==> !w.cloned(attempt)
      ensures r.Err? ==> !r.error.ReviewBlocked?
    {
      added := [];
      if !w.cloned(attempt) {
        return Err(CloneFailed), added;
      }
      var n := 0;
      while n < |commands|
        invariant 0 <= n <= |commands| && |added| == n
        invariant runs == old(runs) + added && Recorded(added, commands, true)
        invariant forall k :: 0 <= k < n ==>
                  added[k].commit == commit && added[k].passed == w.reran(attempt, k) && added[k].passed
      {
        var passed := w.reran(attempt, n);
        var build := BuildRun(commit, commands[n], true, passed);
        runs := runs + [build];
        added := added + [build];
        if !passed {
          return Err(ReproductionFailed(commands[n].phase)), added;
        }
        n := n + 1;
      }
      return Ok(()), added;
    }

    /** One attempt on the committed change set. */
    method Attempt(target: Target, attempt: nat, w: World) returns (r: Result<(), Reason>)
      requires change.Some? && change.value.mission == target.mission && change.value.target == target.id
               && head == change.value.commit
      requires Commands(target) != []
      modifies this`runs, this`head, this`change
      ensures old(runs) <= runs
      ensures change.Some? && change.value == old(change).value.(status := change.value.status)
      ensures r.Ok? ==> Accepted(runs, target, change.value, attempt, w)
      ensures r.Ok? <==> Acceptable(runs, target, change.value, attempt, w)
      ensures r == Err(CloneFailed) ==> !w.cloned(attempt)
      ensures r.Err? && r.error.ReviewBlocked? ==>
                r.error.blockers != [] && Passing(runs, Commands(target), change.value.commit, true)
    {
      hide Commands, Evidence, AtCommit, TestRuns;
      var commands, commit := Commands(target), change.value.commit;
      var failed, ran := RunCommands(commands, attempt, w);
      if failed != [] {
        return Err(CommandsFailed(failed));
      }
      ghost var before := runs;
      if HeadStays(w) {
        RecordedPasses(old(runs), ran, commands, commit, false);
      }
      var reproduced, again := Reproduce(commit, commands, attempt, w);
      if reproduced.Err? {
        assert !(w.cloned(attempt) && forall k :: 0 <= k < |commands| ==> w.reran(attempt, k));
        return Err(reproduced.error);
      }
      RecordedPasses(before, again, commands, commit, true);
      if HeadStays(w) {
        PassingPersists(before, again, commands, commit, false);
      }
      change := Some(change.value.(status := VALIDATED));
      assert BuildRun(commit, commands[0], true, true) in runs;
      EvidenceIsScoped(runs, commit);
      var blockers := ReviewProjectChange(target, change.value, runs, attempt, w);
      if blockers != [] {
        return Err(ReviewBlocked(blockers));
      }
      return Ok(());
    }

    method Run(target: Target, w: World, maxRepairs: int) returns (r: Result<ChangeSet, Failure>, repairs: nat)
      modifies this
      ensures old(runs) <= runs
      ensures maxRepairs < 0 ==> r == Err(NegativeRepairs)
      ensures maxRepairs >= 0 && w.dirty ==> r == Err(DirtyWorkspace)
      ensures repairs <= (if maxRepairs < 0 then 0 else maxRepairs) && (!w.canRepair ==> repairs == 0)
      ensures r.Err? && (r.error == NegativeRepairs || r.error == DirtyWorkspace || r.error == NoCommands) ==>
                runs == old(runs) && change == old(change) && repairs == 0
      ensures r.Ok? ==>
                && change == Some(r.value) && finalCommit == Some(r.value.commit)
                && Accepted(runs, target, r.value, repairs, w)
      ensures r.Ok? ==> forall a :: 0 < a <= repairs ==> w.changed(a) <= r.value.files
      ensures r.Ok? && w.staged(0).Some? ==> w.changed(0) <= r.value.files
      ensures r.Ok? && w.staged(repairs).Some? ==> r.value.commit == w.staged(repairs).value
      ensures r.Err? ==> finalCommit == old(finalCommit)
      ensures r.Ok? ==> Acceptable(runs, target, r.value, repairs, w)
      ensures r.Err? && (r.error.Exhausted? || r.error.NoRepairMethod? || r.error.Aborted?) ==>
                change.Some? && !Acceptable(runs, target, change.value, repairs, w)
      ensures r.Err? && r.error.Exhausted? ==> repairs == maxRepairs
      ensures r.Err? && r.error.NoRepairMethod? ==> !w.canRepair && repairs < maxRepairs
      ensures r.Err? && r.error.Aborted? ==> !w.cloned(repairs)
      ensures r == Err(NoCommands) <==> maxRepairs >= 0 && !w.dirty && Commands(target) == []
      ensures r.Err? && (r.error.Exhausted? || r.error.NoRepairMethod?) ==>
                && change.Some?
                && change.value.status == if r.error.reason.ReviewBlocked? then REVIEW_FAILED else FAILED_VALIDATION
    {
      hide Accepted, Commands, Passing, Tested, Tagged;
      repairs := 0;
      if maxRepairs < 0 {
        return Err(NegativeRepairs), 0;
      }
      if w.dirty {
        return Err(DirtyWorkspace), 0;
      }
      if Commands(target) == [] {
        return Err(NoCommands), 0;
      }
      var first := w.staged(0);
      if first.Some? {
        head := first.value;
      }
      change := Some(ChangeSet(target.mission, target.id, head, if first.Some? then w.changed(0) else {}, COMMITTED));
      for attempt := 0 to maxRepairs + 1
        invariant repairs == attempt && (!w.canRepair ==> repairs == 0)
        invariant old(runs) <= runs && finalCommit == old(finalCommit)
        invariant attempt <= maxRepairs ==>
                    && change.Some? && head == change.value.commit
                    && change.value.mission == target.mission && change.value.target == target.id
        invariant change.Some? && (forall a :: 0 < a <= repairs ==> w.changed(a) <= change.value.files)
        invariant w.staged(0).Some? ==> w.changed(0) <= change.value.files
        invariant w.staged(repairs).Some? ==> change.value.commit == w.staged(repairs).value
        invariant attempt <= maxRepairs
      {
        var outcome := Attempt(target, attempt, w);
        if outcome.Ok? {
          finalCommit := Some(change.value.commit);
          return Ok(change.value), repairs;
        }
        var reason := outcome.error;
        if reason == CloneFailed {
          return Err(Aborted), repairs;
        }
        var status := if reason.ReviewBlocked? then REVIEW_FAILED else FAILED_VALIDATION;
        if attempt >= maxRepairs {
          change := Some(change.value.(status := status));
          return Err(Exhausted(reason)), repairs;
        }
        if !w.canRepair {
          change := Some(change.value.(status := status));
          return Err(NoRepairMethod(reason)), repairs;
        }
        repairs := repairs + 1;
        var staged := w.staged(attempt + 1);
        if staged.Some? {
          head := staged.value;
        }
        var files := change.value.files + w.changed(attempt + 1);
        change := Some(change.value.(commit := head, files := files, status := REPAIRED));
      }
      assert false;
    }
  }
}
