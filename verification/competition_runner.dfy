/** One durable iteration: observe, decide, act, verify, measure, adapt. The
    runner may die before any write and is then simply called again. */
module CompetitionRunner {
  import opened Prelude
  import opened Selection
  import opened CompeteLoop

  datatype Outcome = Returned(summary: Text, evidence: seq<nat>) | Raised(error: string)

  datatype Adaptation = Adaptation(
    bottleneck: Option<Text>, bestAction: Option<string>, terminal: Option<MissionStatus>)

  /** What the callbacks and the liveness oracle would answer if asked;
      None is a callback that raises. */
  datatype World = World(
    sighting: Option<Sighting>,
    plan: Option<(Text, seq<Action>)>,
    ownerGone: bool,
    hasExecutor: bool,
    outcome: Outcome,
    measurement: Option<(real, real)>,
    adaptation: Option<Adaptation>)

  /** Callbacks that succeed with acceptable answers. */
  predicate Cooperative(w: World) {
    && w.sighting.Some?
    && w.plan.Some? && w.plan.value.0.Words? && w.plan.value.1 != [] && UniqueNames(w.plan.value.1)
    && w.ownerGone && w.hasExecutor
    && (w.outcome.Returned? ==> w.outcome.summary.Words?)
    && w.measurement.Some?
    && w.adaptation.Some? && w.adaptation.value.terminal != Some(ACTIVE)
  }

  // ---- what a run makes of a cycle: a is the record before, b after

  /** The stored sighting decides, or the one collected now is stored. */
  ghost predicate Seen(a: Record, b: Record, w: World) {
    && |b.observations| == 1
    && if a.observations == [] then w.sighting == Some(b.observations[0].seen)
       else b.observations[0].seen == a.observations[0].seen
  }

  /** Before STRATEGIZE the planner's answer is what is stored. */
  ghost predicate Planned(a: Record, b: Record, w: World) {
    Rank(a.cycle.stage) <= 1 ==>
      w.plan.Some? && b.cycle.bottleneck == Some(w.plan.value.0) && b.cycle.candidates == w.plan.value.1
  }

  /** One call of the executor and its outcome; or the execution that was
      there, failed if it was still RUNNING. */
  ghost predicate Dispatched(a: Record, b: Record, w: World) {
    && |b.executions| == 1
    && var e := b.executions[0];
    && if a.executions == [] then
         && b.invocations == a.invocations + 1
         && (w.outcome.Returned? ==>
               e.status == SUCCEEDED && e.summary == Some(w.outcome.summary) && w.outcome.evidence <= e.evidence)
         && (w.outcome.Raised? ==> e.status == FAILED && e.error == Some(Words(w.outcome.error)))
       else
         && b.invocations == a.invocations
         && if a.executions[0].status == RUNNING then w.ownerGone && e.status == FAILED else e == a.executions[0]
  }

  /** The finding is the execution's summary, or its error if it failed. */
  ghost predicate Judged(a: Record, b: Record) {
    && b.executions != []
    && var e := b.executions[0];
       Rank(a.cycle.stage) <= 4 ==>
         && b.cycle.verified == Some(e.status == SUCCEEDED)
         && b.cycle.finding == (if e.status == SUCCEEDED then e.summary else e.error)
         && b.cycle.verificationEvidence == (if e.status == SUCCEEDED then e.evidence else [])
  }

  /** Before ADAPT the measurer's answer is stored, as row and as event. */
  ghost predicate Gauged(a: Record, b: Record, w: World) {
    && b.measurements != []
    && (Rank(a.cycle.stage) <= 5 ==>
          && w.measurement.Some? && b.measurements == a.measurements + [w.measurement.value]
          && b.cycle.before == Some(w.measurement.value.0) && b.cycle.after == Some(w.measurement.value.1)
          && b.cycle.delta == Some(w.measurement.value.1 - w.measurement.value.0))
  }

  /** The whole iteration up to ADAPT. */
  ghost predicate Worked(a: Record, b: Record, w: World) {
    b.cycle.stage == ADAPT && Planned(a, b, w) && Dispatched(a, b, w) && Judged(a, b) && Gauged(a, b, w)
  }

  /** A run of cycle i that returns: past the deadline it ends the mission and
      does nothing else; otherwise the iteration is done, the adaptation is
      stored, and the next cycle is open unless the adaptation ends the mission. */
  ghost predicate Finished(
    a: Record, i: nat, w: World, before: Mission, m: Mission, records: seq<Record>, r: Option<nat>) {
    && i < |records|
    && var b := records[i];
    && b.cycle.completed && Seen(a, b, w)
    && if b.observations[0].seen.expired then
         && m == before.(status := EXPIRED, bestAction := None) && |records| == i + 1 && r == Some(i)
         && b.cycle.stage == (if a.cycle.stage == OBSERVE then ASSESS else a.cycle.stage)
         && b.executions == a.executions && b.invocations == a.invocations && b.measurements == a.measurements
       else
         && Worked(a, b, w) && w.adaptation.Some?
         && m.bottleneck == w.adaptation.value.bottleneck && m.bestAction == w.adaptation.value.bestAction
         && match w.adaptation.value.terminal
            case None => m.status == ACTIVE && |records| == i + 2 && r == Some(i + 1)
            case Some(status) => m.status == status != ACTIVE && |records| == i + 1 && r == None
  }

  // ---- what ties the rows of a cycle together, at every write

  /** The error text of a failed execution is "Type: message", never blank. */
  ghost predicate ExecutionOk(e: Execution) {
    match e.status
    case RUNNING => true
    case SUCCEEDED => e.summary.Some? && e.evidence != []
    case FAILED => Said(e.error)
  }

  ghost predicate ObservationsOk(r: Record) {
    && |r.observations| <= 1 && r.captured <= 1
    && (Rank(r.cycle.stage) > 0 ==> |r.observations| == 1 && FromObservation(r.cycle, r.observations[0]))
  }

  ghost predicate FromObservation(c: Cycle, o: Observation) {
    o.evidence != [] && c.observation == Some(Words(o.seen.summary)) && c.observationEvidence == o.evidence
  }

  ghost predicate ExecutionsOk(r: Record) {
    && |r.executions| <= 1 && (forall e :: e in r.executions ==> ExecutionOk(e))
    && (Rank(r.cycle.stage) < 3 ==> r.executions == [])
    && (Rank(r.cycle.stage) > 3 ==> |r.executions| == 1 && FromExecution(r.cycle, r.executions[0]))
    && (Rank(r.cycle.stage) > 4 ==> r.cycle.verified == r.cycle.succeeded)
    && r.invocations <= |r.executions|
  }

  /** The cycle succeeded iff its execution did, and quotes its summary. */
  ghost predicate FromExecution(c: Cycle, e: Execution) {
    && e.status != RUNNING && c.succeeded == Some(e.status == SUCCEEDED)
    && (e.status == SUCCEEDED ==> c.result == e.summary)
  }

  ghost predicate MeasurementsOk(r: Record) {
    forall m :: m in r.measurements ==> r.cycle.before == Some(m.0) && r.cycle.after == Some(m.1)
  }

  ghost predicate RecordOk(r: Record) {
    Fields(r.cycle) && ObservationsOk(r) && ExecutionsOk(r) && MeasurementsOk(r)
  }

  ghost predicate Good(records: seq<Record>) {
    Ledger(records) && forall i :: 0 <= i < |records| ==> RecordOk(records[i])
  }

  /** No row of a record is lost or changed in meaning. */
  ghost predicate Advances(a: Record, b: Record) {
    && Forward(a.cycle, b.cycle)
    && (a.observations != [] ==> b.observations != [] && b.observations[0].seen == a.observations[0].seen)
    && (a.executions != [] ==> b.executions != [])
  }

  ghost predicate OnlyChanges(a: seq<Record>, b: seq<Record>, i: nat) {
    i < |a| == |b| && b == a[i := b[i]] && Advances(a[i], b[i])
  }

  /** Why a run may stop short: what the process, the callbacks or the oracle cause. */
  predicate Excusable(f: Failure) {
    match f
    case Crashed | CallbackFailed | StillRunning | NoExecutor => true
    case BlankText | NoCandidates | DuplicateNames | NotTerminalStatus => true
    case _ => false
  }

  /** One durable write of the record under way. */
  method Put(db: Store, i: nat, rec: Record) returns (r: Result<(), Failure>)
    requires Good(db.records) && i < |db.records| && RecordOk(rec) && Advances(db.records[i], rec)
    modifies db`budget, db`records
    ensures r == if old(db.budget) == 0 then Err(Crashed) else Ok(())
    ensures db.budget == if old(db.budget) == 0 then 0 else old(db.budget) - 1
    ensures db.records == if r.Ok? then old(db.records)[i := rec] else old(db.records)
    ensures Good(db.records) && OnlyChanges(old(db.records), db.records, i)
  {
    UpdateKeepsLedger(db.records, i, rec);
    r := db.SaveRecord(i, rec);
  }

  /** First half of reconcile: the observation row names its evidence. */
  method NameEvidence(db: Store, i: nat) returns (r: Result<(), Failure>)
    requires Good(db.records) && i < |db.records| && |db.records[i].observations| == 1
    modifies db`budget, db`records, db`nextId
    ensures Good(db.records) && OnlyChanges(old(db.records), db.records, i)
    ensures var a, b := old(db.records)[i], db.records[i];
            && b == a.(observations := b.observations, claims := b.claims)
            && (a.claims != [] ==> b.claims == a.claims) && (a.observations[0].evidence != [] ==> b == a)
            && (r.Ok? && a.observations[0].evidence == [] ==>
                   b.claims != [] && b.observations[0].evidence == [b.claims[|b.claims| - 1]])
    ensures r.Ok? ==> db.records[i].observations[0].evidence != []
    ensures r.Err? ==> r.error == Crashed
    ensures old(db.budget) >= 2 ==> r.Ok?
    ensures db.budget >= old(db.budget) - 2
  {
    hide Ledger, Fields;
    var obs := db.records[i].observations[0];
    if obs.evidence != [] {
      return Ok(());
    }
    var id := db.nextId;
    if db.records[i].claims != [] {
      id := db.records[i].claims[|db.records[i].claims| - 1];
    } else {
      db.nextId := db.nextId + 1;
      var _ :- Put(db, i, db.records[i].(claims := [id]));
    }
    r := Put(db, i, db.records[i].(observations := [obs.(evidence := [id])]));
  }

  /** Leave OBSERVE on the strength of the stored observation. */
  method ObserveStored(db: Store, i: nat) returns (r: Result<(), Failure>)
    requires Good(db.records) && i < |db.records| && |db.records[i].observations| == 1
             && db.records[i].observations[0].evidence != []
    modifies db`budget, db`records
    ensures Good(db.records) && OnlyChanges(old(db.records), db.records, i)
    ensures r == if old(db.records)[i].cycle.stage == OBSERVE && old(db.budget) == 0 then Err(Crashed) else Ok(())
    ensures var a, b := old(db.records)[i], db.records[i];
            && b == a.(cycle := b.cycle) && b.cycle.completed == a.cycle.completed
            && (if a.cycle.stage == OBSERVE && r.Ok? then b.cycle.stage == ASSESS else b.cycle == a.cycle)
    ensures db.budget >= old(db.budget) - 1
  {
    var c, obs := db.records[i].cycle, db.records[i].observations[0];
    if c.stage == OBSERVE {
      assert RecordOk(db.records[i].(cycle := Observed(c, Words(obs.seen.summary), obs.evidence)));
      r := db.Observe(i, Words(obs.seen.summary), obs.evidence);
    } else if c.observation != Some(Words(obs.seen.summary)) || c.observationEvidence != obs.evidence {
      r := Err(DifferentObservation);
    } else {
      r := Ok(());
    }
  }

  method Reconcile(db: Store, i: nat) returns (r: Result<(), Failure>)
    requires Good(db.records) && i < |db.records| && |db.records[i].observations| == 1
    modifies db`budget, db`records, db`nextId
    ensures Good(db.records) && OnlyChanges(old(db.records), db.records, i)
    ensures var a, b := old(db.records)[i], db.records[i];
            && b.executions == a.executions && b.measurements == a.measurements && b.invocations == a.invocations
            && b.cycle.completed == a.cycle.completed
            && (Rank(a.cycle.stage) > 0 ==> b.cycle == a.cycle)
            && (Rank(a.cycle.stage) == 0 ==> Rank(b.cycle.stage) <= 1)
    ensures r.Ok? ==> Rank(db.records[i].cycle.stage) >= 1 && db.records[i].captured == 1
    ensures r.Err? ==> r.error == Crashed
    ensures old(db.budget) >= 4 ==> r.Ok?
    ensures db.budget >= old(db.budget) - 4
  {
    hide Ledger, Fields;
    var _ :- NameEvidence(db, i);
    var _ :- ObserveStored(db, i);
    if db.records[i].captured == 0 {
      var _ :- Put(db, i, db.records[i].(captured := 1));
    }
    return Ok(());
  }

  /** record: store the collected observation, then reconcile it. */
  method RecordSighting(db: Store, i: nat, sighting: Sighting) returns (r: Result<(), Failure>)
    requires Good(db.records) && i < |db.records| && db.records[i].observations == []
             && db.records[i].cycle.stage == OBSERVE
    modifies db`budget, db`records, db`nextId
    ensures Good(db.records) && OnlyChanges(old(db.records), db.records, i)
    ensures var a, b := old(db.records)[i], db.records[i];
            && b.executions == a.executions && b.measurements == a.measurements && b.invocations == a.invocations
            && b.cycle.completed == a.cycle.completed
            && (b.observations != [] ==> b.observations[0].seen == sighting)
            && (r.Ok? ==> b.cycle.stage == ASSESS && b.observations != [] && b.captured == 1)
            && (r.Err? ==> r.error == Crashed)
            && Rank(b.cycle.stage) <= 1
    ensures old(db.budget) >= 5 ==> r.Ok?
    ensures db.budget >= old(db.budget) - 5
  {
    hide Ledger, Fields;
    var _ :- Put(db, i, db.records[i].(observations := [Observation(sighting, [])]));
    r := Reconcile(db, i);
  }

  /** _observation: resume from the stored row, or capture one. */
  method ObservationOf(db: Store, i: nat, w: World) returns (r: Result<bool, Failure>)
    requires Good(db.records) && i < |db.records|
    modifies db`budget, db`records, db`nextId
    ensures Good(db.records) && OnlyChanges(old(db.records), db.records, i)
    ensures var a, b := old(db.records)[i], db.records[i];
            && b.executions == a.executions && b.measurements == a.measurements && b.invocations == a.invocations
            && b.cycle.completed == a.cycle.completed
            && (Rank(a.cycle.stage) > 0 ==> b.cycle == a.cycle)
            && (Rank(a.cycle.stage) == 0 ==> Rank(b.cycle.stage) <= 1)
    ensures r.Ok? ==> Rank(db.records[i].cycle.stage) >= 1 && r.value == db.records[i].observations[0].seen.expired
    ensures r.Ok? ==> db.records[i].captured == 1
    ensures r.Ok? ==> |db.records[i].observations| == 1 && Seen(old(db.records)[i], db.records[i], w)
    ensures r.Err? ==> r.error == Crashed || r.error == CallbackFailed
    ensures old(db.budget) >= 5 && w.sighting.Some? ==> r.Ok?
    ensures db.budget >= old(db.budget) - 5
  {
    hide Ledger, Fields;
    if db.records[i].observations == [] {
      if db.records[i].cycle.stage != OBSERVE {
        return Err(NoDurableObservation);
      }
      if w.sighting.None? {
        return Err(CallbackFailed);
      }
      var _ :- RecordSighting(db, i, w.sighting.value);
    } else {
      var _ :- Reconcile(db, i);
    }
    return Ok(db.records[i].observations[|db.records[i].observations| - 1].seen.expired);
  }

  /** A success that was stored without any words in its summary. */
  predicate BlankSuccess(r: Record) {
    && r.cycle.stage == EXECUTE && |r.executions| == 1
    && r.executions[0].status == SUCCEEDED && r.executions[0].summary == Some(Blank)
  }

  /** record_execution for an execution row that is already terminal. */
  method CloseExecution(db: Store, i: nat, result: Text, succeeded: bool) returns (r: Result<(), Failure>)
    requires Good(db.records) && i < |db.records| && db.records[i].cycle.stage == EXECUTE
    requires var e := db.records[i].executions;
             && |e| == 1 && e[0].status == (if succeeded then SUCCEEDED else FAILED)
             && (succeeded ==> e[0].summary == Some(result))
    modifies db`budget, db`records
    ensures Good(db.records) && OnlyChanges(old(db.records), db.records, i)
    ensures r == if result.Blank? then Err(BlankText) else if old(db.budget) == 0 then Err(Crashed) else Ok(())
    ensures var a, b := old(db.records)[i], db.records[i];
            b == if r.Ok? then a.(cycle := ExecutionRecorded(a.cycle, result, succeeded)) else a
    ensures db.budget >= old(db.budget) - 1
  {
    r := db.RecordExecution(i, result, succeeded);
  }

  /** The claim, the one call of the executor, and its stored outcome. */
  method ExecuteFresh(db: Store, i: nat, w: World) returns (r: Result<(), Failure>)
    requires Good(db.records) && i < |db.records| && db.records[i].cycle.stage == EXECUTE
             && db.records[i].executions == []
    modifies db`budget, db`records, db`nextId
    ensures Good(db.records) && OnlyChanges(old(db.records), db.records, i)
    ensures var a, b := old(db.records)[i], db.records[i];
            && b.observations == a.observations && b.measurements == a.measurements
            && b.cycle.completed == a.cycle.completed
            && b.cycle.stage == (if r.Ok? then VERIFY else EXECUTE)
    ensures r.Ok? ==> Dispatched(old(db.records)[i], db.records[i], w)
    ensures r.Ok? ==> db.records[i].cycle.succeeded == Some(w.outcome.Returned?)
    ensures r.Err? ==> r.error == Crashed || r.error == NoExecutor || r.error == BlankText
    ensures old(db.budget) >= 4 && w.hasExecutor && (w.outcome.Returned? ==> w.outcome.summary.Words?) ==> r.Ok?
    ensures db.budget >= old(db.budget) - 4
  {
    hide Ledger;
    if db.records[i].cycle.selected.None? {
      return Err(NoSelectedAction);
    }
    if !w.hasExecutor {
      return Err(NoExecutor);
    }
    var _ :- Put(db, i, db.records[i].(executions := [Execution(RUNNING, None, [], None)]));
    CountInvocation(db, i);
    r := StoreOutcome(db, i, w.outcome);
  }

  /** A successful call: its evidence, its row, then the cycle. */
  method StoreSuccess(db: Store, i: nat, summary: Text, evidence: seq<nat>) returns (r: Result<(), Failure>)
    requires Good(db.records) && i < |db.records| && db.records[i].cycle.stage == EXECUTE
             && |db.records[i].executions| == 1
    modifies db`budget, db`records, db`nextId
    ensures Good(db.records) && OnlyChanges(old(db.records), db.records, i)
    ensures var a, b := old(db.records)[i], db.records[i];
            && b == a.(executions := b.executions, cycle := b.cycle) && b.cycle.completed == a.cycle.completed
            && b.cycle.stage == (if r.Ok? then VERIFY else EXECUTE)
            && (r.Ok? ==> b.cycle == ExecutionRecorded(a.cycle, summary, true)
                          && b.executions == [Execution(SUCCEEDED, Some(summary), evidence + [old(db.nextId)], None)])
    ensures r == if old(db.budget) >= 2 && summary.Blank? then Err(BlankText)
                 else if old(db.budget) < 3 then Err(Crashed) else Ok(())
    ensures r == Err(BlankText) ==> BlankSuccess(db.records[i])
    ensures db.budget >= old(db.budget) - 3
  {
    hide Ledger, Fields;
    var _ :- db.Write();
    var id := db.nextId;
    db.nextId := db.nextId + 1;
    var _ :- Put(db, i, db.records[i].(executions := [Execution(SUCCEEDED, Some(summary), evidence + [id], None)]));
    r := CloseExecution(db, i, summary, true);
  }

  /** What follows the call: the outcome is stored, then the cycle closed. */
  method StoreOutcome(db: Store, i: nat, outcome: Outcome) returns (r: Result<(), Failure>)
    requires Good(db.records) && i < |db.records| && db.records[i].cycle.stage == EXECUTE
             && |db.records[i].executions| == 1
    modifies db`budget, db`records, db`nextId
    ensures Good(db.records) && OnlyChanges(old(db.records), db.records, i)
    ensures var a, b := old(db.records)[i], db.records[i];
            && b == a.(executions := b.executions, cycle := b.cycle) && b.cycle.completed == a.cycle.completed
            && b.cycle.stage == (if r.Ok? then VERIFY else EXECUTE)
    ensures r.Ok? ==> db.records[i].cycle.succeeded == Some(outcome.Returned?) && |db.records[i].executions| == 1
    ensures r.Ok? ==>
              var e := db.records[i].executions[0];
              && (outcome.Returned? ==>
                    e.status == SUCCEEDED && e.summary == Some(outcome.summary) && outcome.evidence <= e.evidence)
              && (outcome.Raised? ==> e.status == FAILED && e.error == Some(Words(outcome.error)))
    ensures r.Err? ==> r.error == Crashed || r.error == BlankText
    ensures old(db.budget) >= 3 && (outcome.Returned? ==> outcome.summary.Words?) ==> r.Ok?
    ensures old(db.budget) >= 2 && outcome.Returned? && outcome.summary.Blank? ==>
              r == Err(BlankText) && BlankSuccess(db.records[i])
    ensures db.budget >= old(db.budget) - 3
  {
    hide Ledger, Fields;
    match outcome {
      case Raised(error) =>
        var _ :- Put(db, i, db.records[i].(executions := [Execution(FAILED, None, [], Some(Words(error)))]));
        r := CloseExecution(db, i, Words(error), false);
      case Returned(summary, evidence) =>
        r := StoreSuccess(db, i, summary, evidence);
    }
  }

  /** The call itself writes nothing; it is counted when it starts. */
  method CountInvocation(db: Store, i: nat)
    requires Good(db.records) && i < |db.records| && db.records[i].invocations < |db.records[i].executions|
    modifies db`records
    ensures Good(db.records) && OnlyChanges(old(db.records), db.records, i)
    ensures db.records[i] == old(db.records)[i].(invocations := old(db.records)[i].invocations + 1)
  {
    var rec := db.records[i].(invocations := db.records[i].invocations + 1);
    UpdateKeepsLedger(db.records, i, rec);
    db.records := db.records[i := rec];
  }

  /** A RUNNING execution whose owner is gone is failed, and the cycle closed. */
  method CloseOrphan(db: Store, i: nat) returns (r: Result<(), Failure>)
    requires Good(db.records) && i < |db.records| && db.records[i].cycle.stage == EXECUTE
    requires |db.records[i].executions| == 1
    modifies db`budget, db`records
    ensures Good(db.records) && OnlyChanges(old(db.records), db.records, i)
    ensures var a, b := old(db.records)[i], db.records[i];
            && b == a.(executions := b.executions, cycle := b.cycle) && b.cycle.completed == a.cycle.completed
            && b.cycle.stage == (if r.Ok? then VERIFY else EXECUTE)
    ensures r == if old(db.budget) < 2 then Err(Crashed) else Ok(())
    ensures |db.records[i].executions| == 1
    ensures r.Ok? ==> db.records[i].executions[0].status == FAILED && db.records[i].cycle.succeeded == Some(false)
    ensures db.budget >= old(db.budget) - 2
  {
    hide Ledger, Fields;
    var lost := db.records[i].executions[0].(status := FAILED, error := Some(Words("interrupted")));
    var _ :- Put(db, i, db.records[i].(executions := [lost]));
    r := CloseExecution(db, i, Words("interrupted"), false);
  }

  /** What an execution row that is already there leads to at EXECUTE. */
  method CloseExisting(db: Store, i: nat, w: World) returns (r: Result<(), Failure>)
    requires Good(db.records) && i < |db.records| && db.records[i].cycle.stage == EXECUTE
             && db.records[i].executions != []
    modifies db`budget, db`records, db`nextId
    ensures Good(db.records) && OnlyChanges(old(db.records), db.records, i)
    ensures var a, b := old(db.records)[i], db.records[i];
            && b == a.(executions := b.executions, cycle := b.cycle) && b.cycle.completed == a.cycle.completed
            && b.cycle.stage == (if r.Ok? then VERIFY else EXECUTE)
    ensures r.Ok? ==> Dispatched(old(db.records)[i], db.records[i], w)
    ensures r.Err? ==> r.error == Crashed || r.error == BlankText || (r.error == StillRunning && !w.ownerGone)
    ensures BlankSuccess(old(db.records)[i]) ==> r == Err(BlankText) && db.records == old(db.records)
    ensures old(db.budget) >= 2 && w.ownerGone && !BlankSuccess(old(db.records)[i]) ==> r.Ok?
    ensures db.budget >= old(db.budget) - 2
  {
    hide Ledger, Fields, ObservationsOk, MeasurementsOk;
    var previous := db.records[i].executions[|db.records[i].executions| - 1];
    assert ExecutionOk(previous);
    match previous.status {
      case SUCCEEDED => r := CloseExecution(db, i, previous.summary.value, true);
      case FAILED => r := CloseExecution(db, i, previous.error.value, false);
      case RUNNING =>
        if !w.ownerGone {
          return Err(StillRunning);
        }
        r := CloseOrphan(db, i);
    }
  }

  /** execute_selected, called at any stage: only EXECUTE does anything. */
  method ExecuteSelected(db: Store, i: nat, w: World) returns (r: Result<Execution, Failure>)
    requires Good(db.records) && i < |db.records|
    modifies db`budget, db`records, db`nextId
    ensures Good(db.records) && OnlyChanges(old(db.records), db.records, i)
    ensures var a, b := old(db.records)[i], db.records[i];
            && b.observations == a.observations && b.measurements == a.measurements
            && b.cycle.completed == a.cycle.completed
            && (a.executions != [] ==> b.invocations == a.invocations) && (r.Ok? ==> b.executions == [r.value])
            && (if a.cycle.stage == EXECUTE then b.cycle.stage == (if r.Ok? then VERIFY else EXECUTE)
                else && b == a && db.budget == old(db.budget)
                     && if Rank(a.cycle.stage) < 3 then r == Err(WrongStage) else r.Ok?)
    ensures r.Ok? ==> Dispatched(old(db.records)[i], db.records[i], w)
    ensures old(db.records)[i].cycle.stage == EXECUTE && r.Err? ==>
              r.error == Crashed || r.error == NoExecutor || r.error == BlankText || r.error == StillRunning
    ensures BlankSuccess(old(db.records)[i]) ==> r == Err(BlankText) && db.records == old(db.records)
    ensures var a := old(db.records)[i];
            a.cycle.stage == EXECUTE && old(db.budget) >= 4 && Cooperative(w) && !BlankSuccess(a) ==> r.Ok?
    ensures db.budget >= old(db.budget) - 4
  {
    hide Ledger, Fields, ObservationsOk, MeasurementsOk, FromExecution;
    var executions := db.records[i].executions;
    if executions != [] {
      var previous := executions[|executions| - 1];
      if db.records[i].cycle.stage != EXECUTE {
        SettledPastExecute(db.records[i]);
        return Ok(previous);
      }
      var _ :- CloseExisting(db, i, w);
    } else {
      if db.records[i].cycle.stage != EXECUTE {
        return Err(WrongStage);
      }
      var _ :- ExecuteFresh(db, i, w);
    }
    return Ok(db.records[i].executions[|db.records[i].executions| - 1]);
  }

  /** Past EXECUTE the one execution is never still RUNNING. */
  lemma SettledPastExecute(r: Record)
    requires ExecutionsOk(r) && r.executions != [] && r.cycle.stage != EXECUTE
    ensures Rank(r.cycle.stage) > 3 && |r.executions| == 1 && r.executions[0].status != RUNNING
  {
  }

  lemma UpdateKeepsGood(records: seq<Record>, i: nat, rec: Record)
    requires Good(records) && i < |records| && RecordOk(rec) && Advances(records[i], rec)
    ensures Good(records[i := rec]) && OnlyChanges(records, records[i := rec], i)
  {
    UpdateKeepsLedger(records, i, rec);
  }

  method AssessWith(db: Store, i: nat, w: World) returns (r: Result<(), Failure>)
    requires Good(db.records) && i < |db.records| && db.records[i].cycle.stage == ASSESS
    modifies db`budget, db`records, db`mission
    ensures Good(db.records) && OnlyChanges(old(db.records), db.records, i)
    ensures db.mission.status == old(db.mission).status && db.mission.halted == old(db.mission).halted
    ensures var a, b := old(db.records)[i], db.records[i];
            && b == a.(cycle := b.cycle) && b.cycle.completed == a.cycle.completed
            && (if r.Ok? then w.plan.Some? && b.cycle == Assessed(a.cycle, w.plan.value.0, w.plan.value.1) else b == a)
    ensures r.Err? ==> Excusable(r.error)
    ensures old(db.budget) >= 2 && Cooperative(w) ==> r.Ok?
    ensures db.budget >= old(db.budget) - 2
  {
    if w.plan.None? {
      return Err(CallbackFailed);
    }
    var (bottleneck, candidates) := w.plan.value;
    if bottleneck.Words? && candidates != [] && UniqueNames(candidates) {
      UpdateKeepsGood(db.records, i, db.records[i].(cycle := Assessed(db.records[i].cycle, bottleneck, candidates)));
    }
    r := db.Assess(i, bottleneck, candidates);
  }

  method StrategizeNow(db: Store, i: nat) returns (r: Result<(), Failure>)
    requires Good(db.records) && i < |db.records| && db.records[i].cycle.stage == STRATEGIZE
    modifies db`budget, db`records, db`mission
    ensures Good(db.records) && OnlyChanges(old(db.records), db.records, i)
    ensures db.mission.status == old(db.mission).status && db.mission.halted == old(db.mission).halted
    ensures var a, b := old(db.records)[i], db.records[i];
            && b == a.(cycle := b.cycle) && b.cycle.completed == a.cycle.completed
            && (if r.Ok? then a.cycle.candidates != [] && b.cycle == Strategized(a.cycle) else b == a)
    ensures r == if old(db.budget) < 2 then Err(Crashed) else Ok(())
    ensures db.budget >= old(db.budget) - 2
  {
    UpdateKeepsGood(db.records, i, db.records[i].(cycle := Strategized(db.records[i].cycle)));
    r := db.Strategize(i);
  }

  /** The planning steps of run: ASSESS and STRATEGIZE. */
  method Deliberate(db: Store, i: nat, w: World) returns (r: Result<(), Failure>)
    requires Good(db.records) && i < |db.records| && Rank(db.records[i].cycle.stage) >= 1
    modifies db`budget, db`records, db`mission
    ensures Good(db.records) && OnlyChanges(old(db.records), db.records, i)
    ensures db.mission.status == old(db.mission).status && db.mission.halted == old(db.mission).halted
    ensures var a, b := old(db.records)[i], db.records[i];
            && b == a.(cycle := b.cycle) && b.cycle.completed == a.cycle.completed
            && (Rank(a.cycle.stage) >= 3 ==> r.Ok? && b == a && db.budget == old(db.budget))
            && (Rank(a.cycle.stage) < 3 ==> Rank(b.cycle.stage) <= 3)
            && (r.Ok? ==> Planned(a, b, w))
    ensures r.Ok? ==> Rank(db.records[i].cycle.stage) >= 3
    ensures r.Err? ==> Excusable(r.error)
    ensures old(db.budget) >= 4 && Cooperative(w) ==> r.Ok?
    ensures db.budget >= old(db.budget) - 4
  {
    hide Ledger, Fields;
    if db.records[i].cycle.stage == ASSESS {
      var _ :- AssessWith(db, i, w);
    }
    if db.records[i].cycle.stage == STRATEGIZE {
      var _ :- StrategizeNow(db, i);
    }
    return Ok(());
  }

  /** EXECUTE, or the lookup of the execution that a later stage relies on. */
  method Act(db: Store, i: nat, w: World) returns (r: Result<Execution, Failure>)
    requires Good(db.records) && i < |db.records| && Rank(db.records[i].cycle.stage) >= 3
    modifies db`budget, db`records, db`nextId
    ensures Good(db.records) && OnlyChanges(old(db.records), db.records, i)
    ensures var a, b := old(db.records)[i], db.records[i];
            && b.observations == a.observations && b.measurements == a.measurements
            && b.cycle.completed == a.cycle.completed
            && (a.cycle.stage == EXECUTE ==> b.cycle.stage == (if r.Ok? then VERIFY else EXECUTE))
            && (Rank(a.cycle.stage) > 3 ==> r.Ok? && db.records == old(db.records) && db.budget == old(db.budget))
            && (r.Ok? ==> Rank(b.cycle.stage) > 3 && b.executions == [r.value] && Dispatched(a, b, w))
    ensures r.Err? ==> Excusable(r.error)
    ensures BlankSuccess(old(db.records)[i]) ==> r == Err(BlankText) && db.records == old(db.records)
    ensures old(db.budget) >= 4 && Cooperative(w) && !BlankSuccess(old(db.records)[i]) ==> r.Ok?
    ensures db.budget >= old(db.budget) - 4
  {
    hide Ledger, Fields;
    if db.records[i].cycle.stage == EXECUTE {
      r := ExecuteSelected(db, i, w);
    } else if db.records[i].executions == [] {
      r := Err(NoDurableExecution);
    } else {
      r := Ok(db.records[i].executions[|db.records[i].executions| - 1]);
    }
  }

  /** VERIFY: the verdict is the execution's, with its evidence. */
  method VerifyExecution(db: Store, i: nat, execution: Execution) returns (r: Result<(), Failure>)
    requires Good(db.records) && i < |db.records| && db.records[i].cycle.stage == VERIFY
             && db.records[i].executions == [execution]
    modifies db`budget, db`records
    ensures Good(db.records) && OnlyChanges(old(db.records), db.records, i)
    ensures r == if old(db.budget) == 0 then Err(Crashed) else Ok(())
    ensures var a, b := old(db.records)[i], db.records[i];
            && b == a.(cycle := b.cycle) && b.cycle.completed == a.cycle.completed
            && (if r.Ok? then b.cycle.stage == MEASURE && b.cycle.verified == Some(execution.status == SUCCEEDED)
                else b == a)
            && (r.Ok? ==> b.cycle.verificationEvidence == (if execution.status == SUCCEEDED then execution.evidence
                                                           else [])
                          && b.cycle.finding == (if execution.status == SUCCEEDED then execution.summary
                                                 else execution.error)
                          && b.cycle.finding.Some?)
    ensures db.budget >= old(db.budget) - 1
  {
    assert ExecutionOk(execution);
    var succeeded := execution.status == SUCCEEDED;
    var evidence := if succeeded then execution.evidence else [];
    var finding := if succeeded then execution.summary.value else execution.error.value;
    assert RecordOk(db.records[i].(cycle := Verified(db.records[i].cycle, succeeded, finding, evidence)));
    r := db.Verify(i, succeeded, finding, evidence);
  }

  lemma Recorded(r: Record, m: (real, real))
    requires MeasurementsOk(r) && m in r.measurements
    ensures r.cycle.before.Some?
  {
  }

  lemma NotMeasuredYet(r: Record)
    requires RecordOk(r) && r.cycle.stage == MEASURE
    ensures r.measurements == []
  {
    if |r.measurements| > 0 {
      Recorded(r, r.measurements[0]);
    }
  }

  method MeasureRow(db: Store, i: nat, before: real, after: real) returns (r: Result<(), Failure>)
    requires Good(db.records) && i < |db.records| && db.records[i].cycle.stage == MEASURE
    modifies db`budget, db`records
    ensures Good(db.records) && OnlyChanges(old(db.records), db.records, i)
    ensures r == if old(db.budget) == 0 then Err(Crashed) else Ok(())
    ensures var a, b := old(db.records)[i], db.records[i];
            b == if r.Ok? then a.(cycle := Measured(a.cycle, before, after)) else a
    ensures db.budget == if r.Ok? then old(db.budget) - 1 else old(db.budget)
  {
    UpdateKeepsGood(db.records, i, db.records[i].(cycle := Measured(db.records[i].cycle, before, after)));
    r := db.Measure(i, before, after);
  }

  /** MEASURE: the row first, then the event that a later run reads back.
      Between the two writes lies the window that strands a cycle. */
  method MeasureNow(db: Store, i: nat, w: World) returns (r: Result<(), Failure>)
    requires Good(db.records) && i < |db.records| && db.records[i].cycle.stage == MEASURE
    modifies db`budget, db`records
    ensures Good(db.records) && OnlyChanges(old(db.records), db.records, i)
    ensures var a, b := old(db.records)[i], db.records[i];
            && b == a.(cycle := b.cycle, measurements := b.measurements) && b.cycle.completed == a.cycle.completed
            && (r.Ok? ==> b.cycle.stage == ADAPT && Gauged(a, b, w))
    ensures r.Err? ==> r.error == Crashed || r.error == CallbackFailed
    ensures old(db.budget) >= 2 && w.measurement.Some? ==> r.Ok?
    ensures old(db.budget) == 1 && w.measurement.Some? ==> r == Err(Crashed) && Unmeasured(db.records[i])
    ensures db.budget >= old(db.budget) - 2
  {
    hide Ledger, Fields;
    if w.measurement.None? {
      return Err(CallbackFailed);
    }
    var (before, after) := w.measurement.value;
    NotMeasuredYet(db.records[i]);
    var _ :- MeasureRow(db, i, before, after);
    r := Put(db, i, db.records[i].(measurements := db.records[i].measurements + [(before, after)]));
  }

  /** The measurement window: ADAPT was reached but no event recorded it. */
  predicate Unmeasured(r: Record) {
    r.cycle.stage == ADAPT && r.measurements == []
  }

  /** VERIFY and MEASURE, or the lookup of the recorded measurement. */
  method Judge(db: Store, i: nat, execution: Execution, w: World) returns (r: Result<(), Failure>)
    requires Good(db.records) && i < |db.records| && Rank(db.records[i].cycle.stage) > 3
             && db.records[i].executions == [execution]
    modifies db`budget, db`records
    ensures Good(db.records) && OnlyChanges(old(db.records), db.records, i)
    ensures var a, b := old(db.records)[i], db.records[i];
            && b == a.(cycle := b.cycle, measurements := b.measurements) && b.cycle.completed == a.cycle.completed
            && (Unmeasured(a) ==> r == Err(NoDurableMeasurement) && b == a)
            && (r.Ok? ==> b.cycle.stage == ADAPT && Judged(a, b) && Gauged(a, b, w))
            && (r == Err(NoDurableMeasurement) ==> Unmeasured(a))
    ensures r.Err? ==> r.error == Crashed || r.error == CallbackFailed || r.error == NoDurableMeasurement
    ensures old(db.budget) >= 3 && w.measurement.Some? && !Unmeasured(old(db.records)[i]) ==> r.Ok?
    ensures db.budget >= old(db.budget) - 3
  {
    hide Ledger, Fields;
    if db.records[i].cycle.stage == VERIFY {
      var _ :- VerifyExecution(db, i, execution);
    }
    ghost var verified := db.records[i];
    if db.records[i].cycle.stage == MEASURE {
      var _ :- MeasureNow(db, i, w);
      assert Advances(verified, db.records[i]) && Judged(old(db.records)[i], verified);
    } else if db.records[i].measurements == [] {
      return Err(NoDurableMeasurement);
    }
    if db.records[i].cycle.stage != ADAPT {
      return Err(WrongStage);
    }
    return Ok(());
  }

  // ---- the whole run

  /** Index of the cycle a run works on: the incomplete last one, or a new one. */
  function Current(records: seq<Record>): nat {
    if records != [] && !records[|records| - 1].cycle.completed then |records| - 1 else |records|
  }

  predicate ExpiredBefore(r: Record) {
    r.observations != [] && r.observations[0].seen.expired
  }

  /** The durable states from which no later run can finish the cycle. */
  predicate Stranded(r: Record) {
    !ExpiredBefore(r) && (Unmeasured(r) || BlankSuccess(r))
  }

  /** The cycle under way is stranded. */
  predicate Stuck(records: seq<Record>) {
    Current(records) < |records| && Stranded(records[|records| - 1])
  }

  predicate Open(m: Mission) {
    m.status == ACTIVE && !m.halted
  }

  lemma AppendKeepsGood(records: seq<Record>)
    requires Good(records) && Current(records) == |records|
    ensures Good(records + [NewRecord(|records| + 1)]) && Grows(records, records + [NewRecord(|records| + 1)])
  {
    AppendKeepsLedger(records);
    var after := records + [NewRecord(|records| + 1)];
    forall k | 0 <= k < |after|
      ensures RecordOk(after[k])
    {
      assert k < |records| ==> after[k] == records[k];
    }
  }

  lemma AdaptKeepsGood(a: seq<Record>, b: seq<Record>, i: nat)
    requires Good(a) && i < |a| <= |b| && a[i].cycle.stage == ADAPT && Ledger(b)
    requires b[i] == a[i] || b[i] == a[i].(cycle := a[i].cycle.(completed := true))
    requires forall k :: 0 <= k < |a| && k != i ==> b[k] == a[k]
    requires forall k :: |a| <= k < |b| ==> b[k] == NewRecord(k + 1)
    ensures Good(b)
  {
    forall k | 0 <= k < |b|
      ensures RecordOk(b[k])
    {
      if k < |a| {
        assert RecordOk(a[k]);
      }
    }
  }

  /** Only record i moved on, and what was added is untouched. */
  ghost predicate Continues(a: seq<Record>, b: seq<Record>, i: nat) {
    && i < |a| <= |b| && Advances(a[i], b[i])
    && (forall k :: 0 <= k < |a| && k != i ==> b[k] == a[k])
    && (forall k :: |a| <= k < |b| ==> b[k] == NewRecord(k + 1))
  }

  lemma ContinuesAfter(a: seq<Record>, b: seq<Record>, c: seq<Record>, i: nat)
    requires OnlyChanges(a, b, i) && Continues(b, c, i)
    ensures Continues(a, c, i)
  {
    assert Advances(a[i], b[i]) && Advances(b[i], c[i]);
  }

  /** ADAPT: closes the cycle and, unless the mission ends, opens the next. */
  method Conclude(db: Store, i: nat, w: World) returns (r: Result<Option<nat>, Failure>)
    requires Good(db.records) && i == |db.records| - 1 && db.records[i].cycle.stage == ADAPT && Open(db.mission)
    modifies db
    ensures Good(db.records) && Grows(old(db.records), db.records) && Continues(old(db.records), db.records, i)
    ensures r.Ok? ==>
              && db.records[i].cycle.completed
              && w.adaptation.Some? && db.mission.bottleneck == w.adaptation.value.bottleneck
    ensures r.Ok? ==> db.mission.bestAction == w.adaptation.value.bestAction
    ensures r.Ok? ==> db.records[i] == old(db.records)[i].(cycle := old(db.records)[i].cycle.(completed := true))
    ensures r.Ok? ==>
              match w.adaptation.value.terminal
              case None => db.mission.status == ACTIVE && |db.records| == i + 2 && r.value == Some(i + 1)
              case Some(status) => db.mission.status == status != ACTIVE && |db.records| == i + 1 && r.value == None
    ensures r.Err? ==> Excusable(r.error)
    ensures old(db.budget) >= 3 && Cooperative(w) ==> r.Ok?
    ensures db.budget >= old(db.budget) - 3
  {
    if w.adaptation.None? {
      return Err(CallbackFailed);
    }
    var plan := w.adaptation.value;
    r := db.Adapt(i, plan.bottleneck, plan.bestAction, plan.terminal);
    AdaptKeepsGood(old(db.records), db.records, i);
  }

  lemma ChangesGrow(a: seq<Record>, b: seq<Record>, i: nat)
    requires Ledger(a) && OnlyChanges(a, b, i)
    ensures Grows(a, b) && (forall k :: 0 <= k < |a| && k != i ==> b[k] == a[k])
  {
  }

  lemma ChangesCompose(a: seq<Record>, b: seq<Record>, c: seq<Record>, i: nat)
    requires OnlyChanges(a, b, i) && OnlyChanges(b, c, i)
    ensures OnlyChanges(a, c, i)
  {
    assert Advances(a[i], b[i]) && Advances(b[i], c[i]);
  }

  /** EXECUTE to MEASURE. */
  method Work(db: Store, i: nat, w: World) returns (r: Result<(), Failure>)
    requires Good(db.records) && i < |db.records| && Rank(db.records[i].cycle.stage) >= 3
    modifies db`budget, db`records, db`nextId
    ensures Good(db.records) && OnlyChanges(old(db.records), db.records, i)
    ensures db.records[i].cycle.completed == old(db.records)[i].cycle.completed
    ensures db.records[i].observations == old(db.records)[i].observations
    ensures r.Ok? ==> Worked(old(db.records)[i], db.records[i], w)
    ensures r.Err? ==> Excusable(r.error) || r.error == NoDurableMeasurement
    ensures var a, b := old(db.records)[i], db.records[i];
            && (Unmeasured(a) || BlankSuccess(a) ==> r.Err? && b == a)
            && (r == Err(NoDurableMeasurement) ==> Unmeasured(a))
    ensures var a := old(db.records)[i];
            old(db.budget) >= 7 && Cooperative(w) && !Unmeasured(a) && !BlankSuccess(a) ==> r.Ok?
    ensures db.budget >= old(db.budget) - 7
  {
    hide Ledger, Fields;
    var execution :- Act(db, i, w);
    ghost var acted := db.records;
    r := Judge(db, i, execution, w);
    ChangesCompose(old(db.records), acted, db.records, i);
  }

  /** ASSESS to MEASURE of an observed cycle. */
  method Labour(db: Store, i: nat, w: World) returns (r: Result<(), Failure>)
    requires Good(db.records) && i < |db.records| && Rank(db.records[i].cycle.stage) >= 1
    modifies db
    ensures Good(db.records) && OnlyChanges(old(db.records), db.records, i)
    ensures db.mission.status == old(db.mission).status && db.mission.halted == old(db.mission).halted
    ensures db.records[i].cycle.completed == old(db.records)[i].cycle.completed
    ensures db.records[i].observations == old(db.records)[i].observations
    ensures r.Ok? ==> Worked(old(db.records)[i], db.records[i], w)
    ensures r.Err? ==> Excusable(r.error) || r.error == NoDurableMeasurement
    ensures var a, b := old(db.records)[i], db.records[i];
            && (Unmeasured(a) || BlankSuccess(a) ==> r.Err? && b == a)
            && (r == Err(NoDurableMeasurement) ==> Unmeasured(a))
    ensures var a := old(db.records)[i];
            old(db.budget) >= 11 && Cooperative(w) && !Unmeasured(a) && !BlankSuccess(a) ==> r.Ok?
    ensures db.budget >= old(db.budget) - 11
  {
    hide Ledger, Fields;
    var _ :- Deliberate(db, i, w);
    ghost var planned := db.records;
    r := Work(db, i, w);
    ChangesCompose(old(db.records), planned, db.records, i);
  }

  /** The first part of run: up to ADAPT; true says that the deadline has
      passed instead. */
  method RunCycle(db: Store, i: nat, w: World) returns (r: Result<bool, Failure>)
    requires Good(db.records) && i < |db.records|
    modifies db
    ensures Good(db.records) && OnlyChanges(old(db.records), db.records, i)
    ensures db.mission.status == old(db.mission).status && db.mission.halted == old(db.mission).halted
    ensures db.records[i].cycle.completed == old(db.records)[i].cycle.completed
    ensures r.Ok? ==>
              var a, b := old(db.records)[i], db.records[i];
              && Seen(a, b, w) && r.value == b.observations[0].seen.expired
              && if r.value then
                   && db.mission == old(db.mission)
                   && b.cycle.stage == (if a.cycle.stage == OBSERVE then ASSESS else a.cycle.stage)
                   && b.executions == a.executions && b.invocations == a.invocations && b.measurements == a.measurements
                 else Worked(a, b, w)
    ensures r.Err? ==> Excusable(r.error) || r.error == NoDurableMeasurement
    ensures r == Err(NoDurableMeasurement) ==> Unmeasured(old(db.records)[i])
    ensures var a, b := old(db.records)[i], db.records[i]; Stranded(a) ==> r.Err? && b.cycle == a.cycle && Stranded(b)
    ensures old(db.budget) >= 16 && Cooperative(w) && !Stranded(old(db.records)[i]) ==> r.Ok?
    ensures db.budget >= old(db.budget) - 16
  {
    hide Ledger, Fields;
    var expired :- ObservationOf(db, i, w);
    if expired {
      return Ok(true);
    }
    ghost var observed := db.records;
    var done := Labour(db, i, w);
    ChangesCompose(old(db.records), observed, db.records, i);
    if done.Err? {
      return Err(done.error);
    }
    return Ok(false);
  }

  /** terminate, for a mission whose deadline has passed. */
  method Expire(db: Store, i: nat) returns (r: Result<nat, Failure>)
    requires Good(db.records) && i < |db.records| && Open(db.mission)
    modifies db
    ensures Good(db.records) && OnlyChanges(old(db.records), db.records, i)
    ensures r == if old(db.budget) < 2 then Err(Crashed) else Ok(i)
    ensures r.Ok? ==>
              && db.mission == old(db.mission).(status := EXPIRED, bestAction := None)
              && db.records[i] == old(db.records)[i].(cycle := old(db.records)[i].cycle.(completed := true))
    ensures db.budget >= old(db.budget) - 2
  {
    UpdateKeepsGood(db.records, i, db.records[i].(cycle := db.records[i].cycle.(completed := true)));
    r := db.Terminate(i, EXPIRED, Words("authoritative mission deadline elapsed"));
  }

  /** Writes that suffice for a whole run. */
  const WRITES: nat := 20

  /** The cycle to work on: the open one, or a new one. */
  method Begin(db: Store) returns (r: Result<(), Failure>)
    requires Good(db.records) && Open(db.mission)
    modifies db`budget, db`records
    ensures Good(db.records) && Grows(old(db.records), db.records)
    ensures r == if Current(old(db.records)) == |old(db.records)| && old(db.budget) == 0 then Err(Crashed) else Ok(())
    ensures r.Ok? ==> Current(db.records) == |db.records| - 1 == Current(old(db.records))
    ensures Current(old(db.records)) < |old(db.records)| ==> db.budget == old(db.budget)
    ensures var n := |old(db.records)|;
            db.records == if r.Ok? && Current(old(db.records)) == n then old(db.records) + [NewRecord(n + 1)]
                          else old(db.records)
    ensures db.budget >= old(db.budget) - 1
  {
    if db.records == [] || db.records[|db.records| - 1].cycle.completed {
      AppendKeepsGood(db.records);
      var _ :- db.CreateCycle();
    }
    return Ok(());
  }

  /** Completing the cycle leaves what the run did. */
  lemma CompletingKeepsWork(a: Record, b: Record, w: World)
    ensures var c := b.(cycle := b.cycle.(completed := true));
            && (Seen(a, b, w) ==> Seen(a, c, w)) && (Worked(a, b, w) ==> Worked(a, c, w))
  {
  }

  /** run, from the moment its cycle is known. */
  method Resume(db: Store, w: World) returns (r: Result<Option<nat>, Failure>)
    requires Good(db.records) && Current(db.records) < |db.records| && Open(db.mission)
    modifies db
    ensures Good(db.records) && Grows(old(db.records), db.records)
            && Continues(old(db.records), db.records, |old(db.records)| - 1)
    ensures r.Err? ==> Excusable(r.error) || r.error == NoDurableMeasurement
    ensures r == Err(NoDurableMeasurement) ==> Unmeasured(old(db.records)[|old(db.records)| - 1])
    ensures Stuck(old(db.records)) ==> r.Err? && |db.records| == |old(db.records)| && Stuck(db.records)
    ensures r.Ok? ==>
              var i := |old(db.records)| - 1;
              Finished(old(db.records)[i], i, w, old(db.mission), db.mission, db.records, r.value)
    ensures old(db.budget) >= 19 && Cooperative(w) && !Stuck(old(db.records)) ==>
              r.Ok? && db.records[|old(db.records)| - 1].cycle.completed
    ensures db.budget >= old(db.budget) - 19
  {
    hide Ledger, Fields, Worked, Seen, RecordOk, Advances;
    var i := |db.records| - 1;
    var expired := RunCycle(db, i, w);
    ghost var reached := db.records;
    CompletingKeepsWork(old(db.records)[i], reached[i], w);
    ChangesGrow(old(db.records), reached, i);
    if expired.Err? {
      return Err(expired.error);
    }
    if expired.value {
      var closed := Expire(db, i);
      ChangesGrow(reached, db.records, i);
      r := if closed.Ok? then Ok(Some(closed.value)) else Err(closed.error);
    } else {
      r := Conclude(db, i, w);
    }
    ContinuesAfter(old(db.records), reached, db.records, i);
    GrowsTransitive(old(db.records), reached, db.records);
  }

  method Run(db: Store, w: World) returns (r: Result<Option<nat>, Failure>)
    requires Good(db.records)
    modifies db
    ensures Good(db.records) && Grows(old(db.records), db.records)
    ensures !Open(old(db.mission)) ==> r == Ok(None) && db.records == old(db.records) && db.mission == old(db.mission)
    ensures r.Err? ==> Excusable(r.error) || r.error == NoDurableMeasurement
    ensures forall k :: 0 <= k < Current(old(db.records)) ==> db.records[k] == old(db.records)[k]
    ensures Open(old(db.mission)) && Current(old(db.records)) < |old(db.records)| ==>
              Continues(old(db.records), db.records, Current(old(db.records)))
    ensures var i, n := Current(old(db.records)), |old(db.records)|;
            r == Err(NoDurableMeasurement) ==> i < n && Unmeasured(old(db.records)[i])
    ensures Open(old(db.mission)) && r.Ok? ==>
              var i, n := Current(old(db.records)), |old(db.records)|;
              var a := if i < n then old(db.records)[i] else NewRecord(n + 1);
              Finished(a, i, w, old(db.mission), db.mission, db.records, r.value)
    ensures Stuck(old(db.records)) ==>
              |db.records| == |old(db.records)| && Stuck(db.records) && (Open(old(db.mission)) ==> r.Err?)
    ensures var i := Current(old(db.records));
            Open(old(db.mission)) && old(db.budget) >= WRITES && Cooperative(w) && !Stuck(old(db.records)) ==>
              r.Ok? && i < |db.records| && db.records[i].cycle.completed
    ensures db.budget >= old(db.budget) - WRITES
  {
    hide Ledger, Fields;
    if db.mission.status != ACTIVE || db.mission.halted {
      return Ok(None);
    }
    var _ :- Begin(db);
    ghost var before := db.records;
    r := Resume(db, w);
    GrowsTransitive(old(db.records), before, db.records);
  }

  /** One process: how many writes it lives for, its callbacks, and whether
      the mission was halted or ended from outside before it starts. */
  datatype Life = Life(writes: nat, world: World, halted: bool, ended: Option<MissionStatus>)

  /** The life of a mission over many processes. */
  method Serve(db: Store, lives: seq<Life>)
    requires Good(db.records)
    modifies db
    ensures Good(db.records) && Grows(old(db.records), db.records)
    ensures forall k :: 0 <= k < |db.records| ==> db.records[k].invocations <= 1
    ensures Stuck(old(db.records)) ==> |db.records| == |old(db.records)| && Stuck(db.records)
    ensures old(db.mission).status != ACTIVE ==>
              db.mission.status == old(db.mission).status && db.records == old(db.records)
  {
    var next := 0;
    while next < |lives|
      invariant 0 <= next <= |lives|
      invariant Good(db.records) && Grows(old(db.records), db.records)
      invariant Stuck(old(db.records)) ==> |db.records| == |old(db.records)| && Stuck(db.records)
      invariant old(db.mission).status != ACTIVE ==>
                db.mission.status == old(db.mission).status && db.records == old(db.records)
    {
      var life := lives[next];
      ghost var before := db.records;
      db.budget := life.writes;
      db.mission := db.mission.(halted := life.halted);
      if db.mission.status == ACTIVE && life.ended.Some? {
        db.mission := db.mission.(status := life.ended.value);
      }
      var _ := Run(db, life.world);
      GrowsTransitive(old(db.records), before, db.records);
      next := next + 1;
    }
    forall k | 0 <= k < |db.records|
      ensures db.records[k].invocations <= 1
    {
      assert RecordOk(db.records[k]);
    }
  }
}
