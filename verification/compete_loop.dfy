/** The durable competition loop of one mission. Every row of a cycle is kept
    with the cycle. The process may die before any durable write: budget is
    the number of writes it still lives to see. */
module CompeteLoop {
  import opened Prelude
  import opened Selection

  datatype Stage = OBSERVE | ASSESS | STRATEGIZE | EXECUTE | VERIFY | MEASURE | ADAPT

  function Rank(s: Stage): nat {
    match s
    case OBSERVE => 0
    case ASSESS => 1
    case STRATEGIZE => 2
    case EXECUTE => 3
    case VERIFY => 4
    case MEASURE => 5
    case ADAPT => 6
  }

  datatype MissionStatus = ACTIVE | COMPLETED | EXPIRED | STOPPED_BY_USER | IRRECOVERABLY_BLOCKED

  /** Text after strip(). */
  datatype Text = Blank | Words(content: string)

  datatype Failure =
    | Crashed
    | MissionTerminal | IncompleteCycle | WrongStage | BlankText | NoCandidates | DuplicateNames
    | NoEvidence | NotTerminalStatus
    | NoDurableObservation | NoDurableExecution | NoDurableMeasurement | DifferentObservation
    | StillRunning | NoExecutor | NoSelectedAction | CallbackFailed

  /** halted: the mission state is PAUSED or CANCELLED. */
  datatype Mission = Mission(status: MissionStatus, halted: bool, bottleneck: Option<Text>, bestAction: Option<string>)

  datatype Cycle = Cycle(
    sequence: nat, stage: Stage, completed: bool,
    observation: Option<Text>, observationEvidence: seq<nat>,
    bottleneck: Option<Text>, candidates: seq<Action>, selected: Option<Action>,
    result: Option<Text>, succeeded: Option<bool>,
    finding: Option<Text>, verified: Option<bool>, verificationEvidence: seq<nat>,
    before: Option<real>, after: Option<real>, delta: Option<real>)

  /** What was collected: state is everything its fingerprint covers. */
  datatype Sighting = Sighting(state: nat, expired: bool, summary: string)

  datatype Observation = Observation(seen: Sighting, evidence: seq<nat>)

  datatype ExecutionStatus = RUNNING | SUCCEEDED | FAILED

  datatype Execution = Execution(
    status: ExecutionStatus, summary: Option<Text>, evidence: seq<nat>, error: Option<Text>)

  /** A cycle with its rows in the other tables: observations, evidence that
      claims an observation, captured events, executions, measurement events;
      and how often the executor was called for it. */
  datatype Record = Record(
    cycle: Cycle, observations: seq<Observation>, claims: seq<nat>, captured: nat,
    executions: seq<Execution>, measurements: seq<(real, real)>, invocations: nat)

  function NewCycle(sequence: nat): Cycle {
    Cycle(sequence, OBSERVE, false, None, [], None, [], None, None, None, None, None, [], None, None, None)
  }

  function NewRecord(sequence: nat): Record {
    Record(NewCycle(sequence), [], [], 0, [], [], 0)
  }

  /** A new cycle starts at OBSERVE with nothing stored for it. */
  lemma NewRecordIsEmpty(n: nat)
    ensures var r := NewRecord(n);
            && r.cycle.sequence == n && r.cycle.stage == OBSERVE && !r.cycle.completed
            && r.observations == [] && r.claims == [] && r.captured == 0
            && r.executions == [] && r.measurements == [] && r.invocations == 0
  {
  }

  // ---- the effect of each operation on the cycle row

  function Observed(c: Cycle, text: Text, evidence: seq<nat>): Cycle {
    c.(stage := ASSESS, observation := Some(text), observationEvidence := evidence)
  }

  function Assessed(c: Cycle, bottleneck: Text, candidates: seq<Action>): Cycle {
    c.(stage := STRATEGIZE, bottleneck := Some(bottleneck), candidates := candidates)
  }

  function Strategized(c: Cycle): Cycle
    requires c.candidates != []
  {
    c.(stage := EXECUTE, selected := Some(Select(c.candidates)))
  }

  function ExecutionRecorded(c: Cycle, result: Text, succeeded: bool): Cycle {
    c.(stage := VERIFY, result := Some(result), succeeded := Some(succeeded))
  }

  function Verified(c: Cycle, verified: bool, finding: Text, evidence: seq<nat>): Cycle {
    c.(stage := MEASURE, verified := Some(verified), finding := Some(finding), verificationEvidence := evidence)
  }

  function Measured(c: Cycle, before: real, after: real): Cycle {
    c.(stage := ADAPT, before := Some(before), after := Some(after), delta := Some(after - before))
  }

  // ---- the ledger

  predicate Said(t: Option<Text>) {
    t.Some? && t.value.Words?
  }

  /** The fields of every passed stage are present, those of later stages are not. */
  ghost predicate Fields(c: Cycle) {
    && (if Rank(c.stage) > 0 then Said(c.observation) else c.observation.None? && c.observationEvidence == [])
    && (if Rank(c.stage) > 1 then Said(c.bottleneck) && c.candidates != [] && UniqueNames(c.candidates)
        else c.bottleneck.None? && c.candidates == [])
    && (if Rank(c.stage) > 2 then c.candidates != [] && c.selected == Some(Select(c.candidates)) else c.selected.None?)
    && (if Rank(c.stage) > 3 then Said(c.result) && c.succeeded.Some? else c.result.None? && c.succeeded.None?)
    && (if Rank(c.stage) > 4
        then Said(c.finding) && c.verified.Some? && (c.verified.value ==> c.verificationEvidence != [])
        else c.finding.None? && c.verified.None? && c.verificationEvidence == [])
    && (if Rank(c.stage) > 5 then c.before.Some? && c.after.Some? && c.delta == Some(c.after.value - c.before.value)
        else c.before.None? && c.after.None? && c.delta.None?)
  }

  function WithCycle(records: seq<Record>, i: nat, c: Cycle): seq<Record>
    requires i < |records|
  {
    records[i := records[i].(cycle := c)]
  }

  predicate Kept<T(==)>(a: Option<T>, b: Option<T>) {
    a.Some? ==> b == a
  }

  /** What can happen to a stored cycle: it moves forward, and what was
      written once stays. */
  ghost predicate Forward(a: Cycle, b: Cycle) {
    && b.sequence == a.sequence && Rank(a.stage) <= Rank(b.stage) && (a.completed ==> b.completed)
    && Kept(a.observation, b.observation) && (a.observation.Some? ==> b.observationEvidence == a.observationEvidence)
    && Kept(a.bottleneck, b.bottleneck) && (a.bottleneck.Some? ==> b.candidates == a.candidates)
    && Kept(a.selected, b.selected)
    && Kept(a.result, b.result) && Kept(a.succeeded, b.succeeded)
    && Kept(a.finding, b.finding) && Kept(a.verified, b.verified)
    && (a.verified.Some? ==> b.verificationEvidence == a.verificationEvidence)
    && Kept(a.before, b.before) && Kept(a.after, b.after) && Kept(a.delta, b.delta)
  }

  /** Sequences are 1..n and only the last cycle may be incomplete. */
  ghost predicate Ledger(records: seq<Record>) {
    && (forall i :: 0 <= i < |records| ==> records[i].cycle.sequence == i + 1 && Fields(records[i].cycle))
    && (forall i :: 0 <= i < |records| - 1 ==> records[i].cycle.completed)
  }

  /** Nothing is lost or rewritten between two moments. */
  ghost predicate Grows(a: seq<Record>, b: seq<Record>) {
    |a| <= |b| && forall i :: 0 <= i < |a| ==> Forward(a[i].cycle, b[i].cycle)
  }

  lemma UpdateKeepsLedger(records: seq<Record>, i: nat, r: Record)
    requires Ledger(records) && i < |records| && Fields(r.cycle) && Forward(records[i].cycle, r.cycle)
    ensures Ledger(records[i := r]) && Grows(records, records[i := r])
  {
  }

  lemma AppendKeepsLedger(records: seq<Record>)
    requires Ledger(records) && (records != [] ==> records[|records| - 1].cycle.completed)
    ensures Ledger(records + [NewRecord(|records| + 1)]) && Grows(records, records + [NewRecord(|records| + 1)])
  {
  }

  lemma GrowsTransitive(a: seq<Record>, b: seq<Record>, c: seq<Record>)
    requires Grows(a, b) && Grows(b, c)
    ensures Grows(a, c)
  {
    forall i | 0 <= i < |a|
      ensures Forward(a[i].cycle, c[i].cycle)
    {
      assert Forward(a[i].cycle, b[i].cycle) && Forward(b[i].cycle, c[i].cycle);
    }
  }

  class Store {
    var mission: Mission
    var records: seq<Record>
    var budget: nat
    var nextId: nat

    ghost predicate Valid()
      reads this
    {
      Ledger(records)
    }

    constructor (writes: nat)
      ensures Valid() && records == [] && mission == Mission(ACTIVE, false, None, None) && budget == writes
    {
      mission, records, budget, nextId := Mission(ACTIVE, false, None, None), [], writes, 0;
    }

    /** Live to see one more durable write, or not. */
    method Write() returns (r: Result<(), Failure>)
      modifies this`budget
      ensures r == if old(budget) == 0 then Err(Crashed) else Ok(())
      ensures budget == if old(budget) == 0 then 0 else old(budget) - 1
    {
      if budget == 0 {
        return Err(Crashed);
      }
      budget := budget - 1;
      return Ok(());
    }

    method SaveMission(m: Mission) returns (r: Result<(), Failure>)
      modifies this`budget, this`mission
      ensures r == if old(budget) == 0 then Err(Crashed) else Ok(())
      ensures budget == if old(budget) == 0 then 0 else old(budget) - 1
      ensures mission == if r.Ok? then m else old(mission)
    {
      var _ :- Write();
      mission := m;
      return Ok(());
    }

    method SaveRecord(i: nat, rec: Record) returns (r: Result<(), Failure>)
      requires i < |records|
      modifies this`budget, this`records
      ensures r == if old(budget) == 0 then Err(Crashed) else Ok(())
      ensures budget == if old(budget) == 0 then 0 else old(budget) - 1
      ensures records == if r.Ok? then old(records)[i := rec] else old(records)
    {
      var _ :- Write();
      records := records[i := rec];
      return Ok(());
    }

    method SaveCycle(i: nat, c: Cycle) returns (r: Result<(), Failure>)
      requires i < |records|
      modifies this`budget, this`records
      ensures r == if old(budget) == 0 then Err(Crashed) else Ok(())
      ensures budget == if old(budget) == 0 then 0 else old(budget) - 1
      ensures records == if r.Ok? then WithCycle(old(records), i, c) else old(records)
    {
      r := SaveRecord(i, records[i].(cycle := c));
    }

    method CreateCycle() returns (r: Result<nat, Failure>)
      requires Valid()
      modifies this`budget, this`records
      ensures Valid() && Grows(old(records), records)
      ensures var n := |old(records)|;
        r == if old(mission).status != ACTIVE || old(mission).halted then Err(MissionTerminal)
             else if n > 0 && !old(records)[n - 1].cycle.completed then Err(IncompleteCycle)
             else if old(budget) == 0 then Err(Crashed)
             else Ok(n)
      ensures records == if r.Ok? then old(records) + [NewRecord(|old(records)| + 1)] else old(records)
      ensures budget >= old(budget) - 1
    {
      if mission.status != ACTIVE || mission.halted {
        return Err(MissionTerminal);
      }
      if |records| > 0 && !records[|records| - 1].cycle.completed {
        return Err(IncompleteCycle);
      }
      var _ :- Write();
      AppendKeepsLedger(records);
      records := records + [NewRecord(|records| + 1)];
      return Ok(|records| - 1);
    }

    method Observe(i: nat, text: Text, evidence: seq<nat>) returns (r: Result<(), Failure>)
      requires Valid() && i < |records|
      modifies this`budget, this`records
      ensures Valid() && Grows(old(records), records)
      ensures r == if old(records)[i].cycle.stage != OBSERVE then Err(WrongStage)
                   else if text.Blank? then Err(BlankText)
                   else if old(budget) == 0 then Err(Crashed) else Ok(())
      ensures records == if r.Ok? then WithCycle(old(records), i, Observed(old(records)[i].cycle, text, evidence))
                         else old(records)
      ensures budget >= old(budget) - 1
    {
      var c := records[i].cycle;
      if c.stage != OBSERVE {
        return Err(WrongStage);
      }
      if text.Blank? {
        return Err(BlankText);
      }
      UpdateKeepsLedger(records, i, records[i].(cycle := Observed(c, text, evidence)));
      r := SaveCycle(i, c.(observation := Some(text), observationEvidence := evidence, stage := ASSESS));
    }

    method Assess(i: nat, bottleneck: Text, candidates: seq<Action>) returns (r: Result<(), Failure>)
      requires Valid() && i < |records|
      modifies this`budget, this`records, this`mission
      ensures Valid() && Grows(old(records), records)
      ensures r == if old(records)[i].cycle.stage != ASSESS then Err(WrongStage)
                   else if bottleneck.Blank? then Err(BlankText)
                   else if candidates == [] then Err(NoCandidates)
                   else if !UniqueNames(candidates) then Err(DuplicateNames)
                   else if old(budget) < 2 then Err(Crashed) else Ok(())
      ensures r.Ok? ==> records == WithCycle(old(records), i, Assessed(old(records)[i].cycle, bottleneck, candidates))
      ensures r.Err? ==> records == old(records)
      ensures mission == old(mission) || mission == old(mission).(bottleneck := Some(bottleneck))
      ensures r.Ok? ==> mission.bottleneck == Some(bottleneck)
      ensures budget >= old(budget) - 2
    {
      var c := records[i].cycle;
      if c.stage != ASSESS {
        return Err(WrongStage);
      }
      if bottleneck.Blank? {
        return Err(BlankText);
      }
      if candidates == [] {
        return Err(NoCandidates);
      }
      if exists j, k :: 0 <= j < k < |candidates| && candidates[j].name == candidates[k].name {
        return Err(DuplicateNames);
      }
      var _ :- SaveMission(mission.(bottleneck := Some(bottleneck)));
      UpdateKeepsLedger(records, i, records[i].(cycle := Assessed(c, bottleneck, candidates)));
      r := SaveCycle(i, c.(bottleneck := Some(bottleneck), candidates := candidates, stage := STRATEGIZE));
    }

    method Strategize(i: nat) returns (r: Result<(), Failure>)
      requires Valid() && i < |records|
      modifies this`budget, this`records, this`mission
      ensures Valid() && Grows(old(records), records)
      ensures r == if old(records)[i].cycle.stage != STRATEGIZE then Err(WrongStage)
                   else if old(budget) < 2 then Err(Crashed) else Ok(())
      ensures r.Ok? ==> old(records)[i].cycle.candidates != []
      ensures r.Ok? ==> records == WithCycle(old(records), i, Strategized(old(records)[i].cycle))
      ensures r.Err? ==> records == old(records)
      ensures mission.status == old(mission).status && mission.halted == old(mission).halted
      ensures r.Ok? ==> mission.bestAction == Some(records[i].cycle.selected.value.name)
      ensures budget >= old(budget) - 2
    {
      var c := records[i].cycle;
      if c.stage != STRATEGIZE {
        return Err(WrongStage);
      }
      assert Fields(c);
      if c.candidates == [] {
        return Err(NoCandidates);
      }
      var selected := Select(c.candidates);
      var _ :- SaveMission(mission.(bestAction := Some(selected.name)));
      UpdateKeepsLedger(records, i, records[i].(cycle := Strategized(c)));
      r := SaveCycle(i, c.(selected := Some(selected), stage := EXECUTE));
    }

    method RecordExecution(i: nat, result: Text, succeeded: bool) returns (r: Result<(), Failure>)
      requires Valid() && i < |records|
      modifies this`budget, this`records
      ensures Valid() && Grows(old(records), records)
      ensures r == if old(records)[i].cycle.stage != EXECUTE then Err(WrongStage)
                   else if result.Blank? then Err(BlankText)
                   else if old(budget) == 0 then Err(Crashed) else Ok(())
      ensures r.Ok? ==>
                records == WithCycle(old(records), i, ExecutionRecorded(old(records)[i].cycle, result, succeeded))
      ensures r.Err? ==> records == old(records)
      ensures budget >= old(budget) - 1
    {
      var c := records[i].cycle;
      if c.stage != EXECUTE {
        return Err(WrongStage);
      }
      if result.Blank? {
        return Err(BlankText);
      }
      UpdateKeepsLedger(records, i, records[i].(cycle := ExecutionRecorded(c, result, succeeded)));
      r := SaveCycle(i, c.(result := Some(result), succeeded := Some(succeeded), stage := VERIFY));
    }

    method Verify(i: nat, verified: bool, finding: Text, evidence: seq<nat>) returns (r: Result<(), Failure>)
      requires Valid() && i < |records|
      modifies this`budget, this`records
      ensures Valid() && Grows(old(records), records)
      ensures r == if old(records)[i].cycle.stage != VERIFY then Err(WrongStage)
                   else if finding.Blank? then Err(BlankText)
                   else if verified && evidence == [] then Err(NoEvidence)
                   else if old(budget) == 0 then Err(Crashed) else Ok(())
      ensures r.Ok? ==>
                records == WithCycle(old(records), i, Verified(old(records)[i].cycle, verified, finding, evidence))
      ensures r.Err? ==> records == old(records)
      ensures budget >= old(budget) - 1
    {
      var c := records[i].cycle;
      if c.stage != VERIFY {
        return Err(WrongStage);
      }
      if finding.Blank? {
        return Err(BlankText);
      }
      if verified && evidence == [] {
        return Err(NoEvidence);
      }
      UpdateKeepsLedger(records, i, records[i].(cycle := Verified(c, verified, finding, evidence)));
      c := c.(verified := Some(verified), finding := Some(finding), verificationEvidence := evidence, stage := MEASURE);
      r := SaveCycle(i, c);
    }

    method Measure(i: nat, before: real, after: real) returns (r: Result<(), Failure>)
      requires Valid() && i < |records|
      modifies this`budget, this`records
      ensures Valid() && Grows(old(records), records)
      ensures r == if old(records)[i].cycle.stage != MEASURE then Err(WrongStage)
                   else if old(budget) == 0 then Err(Crashed) else Ok(())
      ensures records == if r.Ok? then WithCycle(old(records), i, Measured(old(records)[i].cycle, before, after))
                         else old(records)
      ensures budget == if r.Ok? then old(budget) - 1 else old(budget)
    {
      var c := records[i].cycle;
      if c.stage != MEASURE {
        return Err(WrongStage);
      }
      UpdateKeepsLedger(records, i, records[i].(cycle := Measured(c, before, after)));
      c := c.(before := Some(before), after := Some(after), delta := Some(after - before), stage := ADAPT);
      r := SaveCycle(i, c);
    }

    /** The two writes of adapt: the mission row, then the completed cycle. */
    method Complete(i: nat, m: Mission) returns (r: Result<(), Failure>)
      requires Valid() && i < |records|
      modifies this`budget, this`records, this`mission
      ensures Valid() && Grows(old(records), records)
      ensures r == if old(budget) < 2 then Err(Crashed) else Ok(())
      ensures mission == if old(budget) == 0 then old(mission) else m
      ensures records == if r.Ok? then WithCycle(old(records), i, old(records)[i].cycle.(completed := true))
                         else old(records)
      ensures budget == if r.Ok? then old(budget) - 2 else 0
    {
      var _ :- SaveMission(m);
      UpdateKeepsLedger(records, i, records[i].(cycle := records[i].cycle.(completed := true)));
      r := SaveCycle(i, records[i].cycle.(completed := true));
    }

    /** Closes the cycle and opens the next one; does not look at completed. */
    method Adapt(i: nat, bottleneck: Option<Text>, bestAction: Option<string>, terminal: Option<MissionStatus>)
      returns (r: Result<Option<nat>, Failure>)
      requires Valid() && i < |records|
      modifies this`budget, this`records, this`mission
      ensures Valid() && Grows(old(records), records)
      ensures mission.halted == old(mission).halted
      ensures mission.status == old(mission).status || (terminal.Some? && mission.status == terminal.value != ACTIVE)
      ensures old(records)[i].cycle.stage != ADAPT ==>
                r == Err(WrongStage) && records == old(records) && mission == old(mission)
      ensures old(records)[i].cycle.stage == ADAPT && terminal == Some(ACTIVE) ==>
                r == Err(NotTerminalStatus) && records == old(records) && mission == old(mission)
      ensures || records[i] == old(records)[i]
              || records[i] == old(records)[i].(cycle := old(records)[i].cycle.(completed := true))
      ensures records[i] != old(records)[i] ==>
                mission.bottleneck == bottleneck && (terminal.Some? ==> mission.status == terminal.value)
      ensures forall k :: 0 <= k < |old(records)| && k != i ==> records[k] == old(records)[k]
      ensures forall k :: |old(records)| <= k < |records| ==> records[k] == NewRecord(k + 1)
      ensures r.Ok? ==>
                && records[i].cycle.completed
                && mission.bottleneck == bottleneck && mission.bestAction == bestAction
      ensures r.Ok? && terminal.Some? ==>
                r.value.None? && mission.status == terminal.value && |records| == |old(records)|
      ensures r.Ok? && terminal.None? ==> r.value == Some(|old(records)|) && |records| == |old(records)| + 1
      ensures r.Err? ==> (match r.error
                          case Crashed => true
                          case WrongStage => old(records)[i].cycle.stage != ADAPT
                          case NotTerminalStatus => terminal == Some(ACTIVE)
                          case MissionTerminal => old(mission).status != ACTIVE || old(mission).halted
                          case IncompleteCycle => i != |old(records)| - 1
                          case _ => false)
      ensures (old(records)[i].cycle.stage == ADAPT && terminal != Some(ACTIVE) && old(budget) >= 3
               && old(mission).status == ACTIVE && !old(mission).halted && i == |old(records)| - 1) ==> r.Ok?
      ensures budget >= old(budget) - 3
    {
      var c := records[i].cycle;
      if c.stage != ADAPT {
        return Err(WrongStage);
      }
      if terminal == Some(ACTIVE) {
        return Err(NotTerminalStatus);
      }
      var m := mission.(bottleneck := bottleneck, bestAction := bestAction);
      if terminal.Some? {
        m := m.(status := terminal.value);
      }
      var _ :- Complete(i, m);
      if terminal.Some? {
        return Ok(None);
      }
      ghost var closed := records;
      var next :- CreateCycle();
      GrowsTransitive(old(records), closed, records);
      return Ok(Some(next));
    }

    method Terminate(i: nat, status: MissionStatus, reason: Text) returns (r: Result<nat, Failure>)
      requires Valid() && i < |records|
      modifies this`budget, this`records, this`mission
      ensures Valid() && Grows(old(records), records)
      ensures r == if status == ACTIVE then Err(NotTerminalStatus) else if reason.Blank? then Err(BlankText)
                   else if old(mission).status != ACTIVE then
                     (if old(mission).status == status then Ok(i) else Err(MissionTerminal))
                   else if old(budget) < 2 then Err(Crashed) else Ok(i)
      ensures mission.halted == old(mission).halted
      ensures || mission.status == old(mission).status
              || (old(mission).status == ACTIVE && mission.status == status != ACTIVE)
      ensures r.Ok? ==> mission.status == status
      ensures r.Ok? ==> mission == if old(mission).status != ACTIVE then old(mission)
                                   else old(mission).(status := status, bestAction := None)
      ensures records == if r.Ok? && old(mission).status == ACTIVE
                         then WithCycle(old(records), i, old(records)[i].cycle.(completed := true))
                         else old(records)
      ensures budget >= old(budget) - 2
    {
      if status == ACTIVE {
        return Err(NotTerminalStatus);
      }
      if reason.Blank? {
        return Err(BlankText);
      }
      if mission.status != ACTIVE {
        if mission.status == status {
          return Ok(i);
        }
        return Err(MissionTerminal);
      }
      var _ :- Complete(i, mission.(status := status, bestAction := None));
      return Ok(i);
    }
  }
}
