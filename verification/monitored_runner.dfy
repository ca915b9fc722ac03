/** The cron-safe gate around one iteration: backoff, lease, fingerprint and
    the iteration itself, over the stored records of the mission. */
module MonitoredRunner {
  import opened Prelude
  import opened CompeteLoop
  import opened CompetitionRunner
  import MonitorLease

  // ---- backoff

  const SCHEDULE: seq<int> := [60, 120, 300, 900, 3600]

  /** Round to the nearest integer, ties to even. */
  function Rounded(x: real): (n: int)
    ensures x - 0.5 <= n as real <= x + 0.5
  {
    var below := x.Floor;
    var rest := x - below as real;
    if rest < 0.5 || (rest == 0.5 && below % 2 == 0) then below else below + 1
  }

  function Base(failures: int): int {
    var step := (if failures < 1 then 1 else failures) - 1;
    SCHEDULE[if step < |SCHEDULE| then step else |SCHEDULE| - 1]
  }

  /** unit is the random number in [0, 1). */
  function Delay(failures: int, unit: real): (seconds: int)
    ensures seconds >= 1
  {
    var factor := 1.0 + (unit * 2.0 - 1.0) * 0.2;
    var rounded := Rounded(Base(failures) as real * factor);
    if rounded < 1 then 1 else rounded
  }

  lemma DelayNearBase(failures: int, unit: real)
    requires 0.0 <= unit < 1.0
    ensures Base(failures) == (if failures <= 1 then 60 else if failures == 2 then 120 else if failures == 3 then 300
                               else if failures == 4 then 900 else 3600)
    ensures 0.8 * Base(failures) as real - 0.5 <= Delay(failures, unit) as real <= 1.2 * Base(failures) as real + 0.5
  {
    var base := Base(failures) as real;
    assert base == 60.0 || base == 120.0 || base == 300.0 || base == 900.0 || base == 3600.0;
  }

  /** Whatever the jitter, one failure more waits longer, up to the fifth. */
  lemma BackoffGrows(f: int, g: int, u: real, v: real)
    requires 1 <= f < g <= |SCHEDULE| && 0.0 <= u < 1.0 && 0.0 <= v < 1.0
    ensures Delay(f, u) < Delay(g, v)
  {
    DelayNearBase(f, u);
    DelayNearBase(g, v);
    assert 0.8 * Base(g) as real - 0.5 > 1.2 * Base(f) as real + 0.5;
  }

  // ---- the gate

  predicate Sighted(r: Record) {
    r.observations != []
  }

  predicate Acted(r: Record) {
    r.invocations > 0
  }

  function StateOf(r: Record): nat
    requires Sighted(r)
  {
    r.observations[0].seen.state
  }

  /** Observed states of different cycles differ; a completed cycle's state is
      on record; only started cycles ever execute, and only observed ones start. */
  ghost predicate Gate(records: seq<Record>, seen: set<nat>, started: set<nat>) {
    && (forall i, j :: 0 <= i < j < |records| && Sighted(records[i]) && Sighted(records[j]) ==>
           StateOf(records[i]) != StateOf(records[j]))
    && (forall i :: 0 <= i < |records| && Sighted(records[i]) && records[i].cycle.completed ==>
           StateOf(records[i]) in seen)
    && (forall i :: i in started ==> i < |records| && Sighted(records[i]))
    && (forall i :: 0 <= i < |records| && records[i].executions != [] ==> i in started)
  }

  lemma BeginKeepsGate(a: seq<Record>, b: seq<Record>, seen: set<nat>, started: set<nat>)
    requires Gate(a, seen, started) && (b == a || b == a + [NewRecord(|a| + 1)])
    ensures Gate(b, seen, started)
  {
  }

  /** A state not on record may be recorded: earlier cycles are completed, so
      their states are. */
  lemma RecordKeepsGate(a: seq<Record>, b: seq<Record>, seen: set<nat>, started: set<nat>, s: Sighting)
    requires Gate(a, seen, started) && Ledger(a) && a != [] && s.state !in seen
    requires var i := |a| - 1;
             && !a[i].cycle.completed && !Sighted(a[i]) && OnlyChanges(a, b, i)
             && !b[i].cycle.completed && b[i].executions == a[i].executions
             && (Sighted(b[i]) ==> b[i].observations[0].seen == s)
    ensures Gate(b, seen, started)
  {
    var i := |a| - 1;
    forall k | 0 <= k < i && Sighted(a[k])
      ensures StateOf(a[k]) in seen
    {
      assert a[k].cycle.completed;
    }
    assert forall k :: 0 <= k < i ==> b[k] == a[k];
  }

  lemma RunKeepsGate(a: seq<Record>, b: seq<Record>, seen: set<nat>, started: set<nat>, i: nat)
    requires Gate(a, seen, started + {i}) && Continues(a, b, i) && Sighted(a[i]) && StateOf(a[i]) in seen
    ensures Gate(b, seen, started + {i})
  {
  }

  /** The cycle under way has a stored observation. */
  predicate Resumed(records: seq<Record>) {
    Current(records) < |records| && Sighted(records[Current(records)])
  }

  datatype MonitorOutcome = UNCHANGED | BACKING_OFF | LEASED_OUT | CHANGED | FAILED

  /** One invocation: the fresh lease token, the clock, what the collection
      finds (None: it failed), whether the mission is paused from outside on
      the way, who takes over a lapsed lease and whether a heartbeat notices
      it before the run ends, the jitter, and the callbacks. */
  datatype Tick = Tick(
    token: MonitorLease.Token, now: int, sighting: Option<Sighting>, pausedFirst: bool, pausedLater: bool,
    successor: Option<MonitorLease.Row>, heartbeatSees: bool, unit: real, world: World) {
    /** heartbeat_lost: a renewal found the row with another holder. */
    predicate LossNoticed() {
      successor.Some? && heartbeatSees
    }

    /** The collection finds a state that is not on record. */
    predicate Brings(seen: set<nat>) {
      sighting.Some? && sighting.value.state !in seen
    }
  }

  class Monitor {
    const db: Store
    const leases: MonitorLease.LeaseTable
    const key: MonitorLease.Key
    const duration: int
    var seen: set<nat>
    var failures: nat
    var nextAttempt: Option<int>
    ghost var started: set<nat>

    ghost predicate Valid()
      reads this, db
    {
      Good(db.records) && Gate(db.records, seen, started)
    }

    constructor (store: Store, table: MonitorLease.LeaseTable, leaseKey: MonitorLease.Key, leaseDuration: int)
      requires store.records == [] && leaseDuration > 0
      ensures Valid() && db == store && leases == table && key == leaseKey && duration == leaseDuration
      ensures seen == {} && started == {} && failures == 0 && nextAttempt == None
    {
      db, leases, key, duration := store, table, leaseKey, leaseDuration;
      seen, started, failures, nextAttempt := {}, {}, 0, None;
    }

    /** Another process may pause the mission before each check of the run. */
    method Pause(paused: bool)
      modifies db`mission
      ensures db.mission == if paused then old(db.mission).(halted := true) else old(db.mission)
    {
      if paused {
        db.mission := db.mission.(halted := true);
      }
    }

    method Reserve(state: nat) returns (r: Result<(), Failure>)
      modifies this`seen, db`budget
      ensures r == if old(db.budget) == 0 then Err(Crashed) else Ok(())
      ensures seen == if r.Ok? then old(seen) + {state} else old(seen)
      ensures db.budget == if r.Ok? then old(db.budget) - 1 else 0
    {
      var _ :- db.Write();
      seen := seen + {state};
      return Ok(());
    }

    method RecordSuccess() returns (r: Result<(), Failure>)
      modifies this`failures, this`nextAttempt, db`budget
      ensures r == if old(db.budget) == 0 then Err(Crashed) else Ok(())
      ensures r.Ok? ==> failures == 0 && nextAttempt == None
      ensures r.Err? ==> failures == old(failures) && nextAttempt == old(nextAttempt)
      ensures db.budget == if r.Ok? then old(db.budget) - 1 else 0
    {
      var _ :- db.Write();
      failures, nextAttempt := 0, None;
      return Ok(());
    }

    method RecordFailure(now: int, unit: real) returns (r: Result<(), Failure>)
      modifies this`failures, this`nextAttempt, db`budget
      ensures r == if old(db.budget) == 0 then Err(Crashed) else Ok(())
      ensures r.Ok? ==> failures == old(failures) + 1 && nextAttempt == Some(now + Delay(failures, unit))
      ensures r.Err? ==> failures == old(failures) && nextAttempt == old(nextAttempt)
      ensures db.budget == if r.Ok? then old(db.budget) - 1 else 0
    {
      var _ :- db.Write();
      failures := failures + 1;
      nextAttempt := Some(now + Delay(failures, unit));
      return Ok(());
    }

    /** Collect, and unless the state is on record, record and reserve it. */
    method ObserveFirst(i: nat, t: Tick) returns (r: Result<bool, Failure>)
      requires Valid() && i == |db.records| - 1 && !db.records[i].cycle.completed
      requires db.records[i].observations == [] && db.records[i].cycle.stage == OBSERVE
      modifies this`seen, this`failures, this`nextAttempt, db`budget, db`records, db`nextId
      ensures Valid() && Grows(old(db.records), db.records) && |db.records| == |old(db.records)| && old(seen) <= seen
      ensures failures == 0 || failures == old(failures)
      ensures r.Err? ==> r.error == Crashed || (r.error == CallbackFailed && t.sighting.None?)
      ensures r.Ok? ==> t.sighting.Some? && (r.value <==> t.sighting.value.state !in old(seen))
      ensures t.sighting.None? ==>
                && r == Err(CallbackFailed) && db.records == old(db.records)
                && seen == old(seen) && failures == old(failures)
      ensures r == Ok(false) ==> db.records == old(db.records) && seen == old(seen) && failures == 0
      ensures r == Ok(true) ==>
                && seen == old(seen) + {t.sighting.value.state} && failures == 0
                && Sighted(db.records[i]) && db.records[i].observations[0].seen == t.sighting.value
      ensures r == Ok(true) ==>
                Sighted(db.records[i]) && StateOf(db.records[i]) in seen && db.records[i].cycle.stage == ASSESS
      ensures !db.records[i].cycle.completed && Rank(db.records[i].cycle.stage) <= 1
      ensures old(db.budget) >= 7 && t.sighting.Some? ==> r.Ok?
      ensures db.budget >= old(db.budget) - 7
    {
      hide Good, Gate;
      GrowsReflexive(db.records);
      if t.sighting.None? {
        return Err(CallbackFailed);
      }
      var sighting := t.sighting.value;
      if sighting.state in seen {
        var _ :- RecordSuccess();
        return Ok(false);
      }
      ghost var before := db.records;
      var recorded := RecordSighting(db, i, sighting);
      assert Ledger(before) by {
        LedgerOf(before);
      }
      ChangesGrow(before, db.records, i);
      RecordKeepsGate(before, db.records, seen, started, sighting);
      if recorded.Err? {
        return Err(Crashed);
      }
      SeenKeepsGate(db.records, seen, started, sighting.state);
      var _ :- Reserve(sighting.state);
      var _ :- RecordSuccess();
      return Ok(true);
    }

    /** The cycle to gate: the open one, or a new one. */
    method TakeUp() returns (r: Result<nat, Failure>)
      requires Valid() && Open(db.mission)
      modifies db`budget, db`records
      ensures Valid() && Grows(old(db.records), db.records)
      ensures r.Ok? ==> r.value == |db.records| - 1 == Current(db.records) == Current(old(db.records))
      ensures r.Ok? ==> (Sighted(db.records[r.value]) <==> Resumed(old(db.records)))
      ensures r.Ok? && Resumed(old(db.records)) ==> db.records == old(db.records) && db.budget == old(db.budget)
      ensures r.Err? ==> r.error == Crashed && db.records == old(db.records)
      ensures Stuck(db.records) ==> Stuck(old(db.records))
      ensures old(db.budget) >= 1 ==> r.Ok?
      ensures db.budget >= old(db.budget) - 1
    {
      hide Good, Gate, Grows;
      var begun := Begin(db);
      BeginKeepsGate(old(db.records), db.records, seen, started);
      if begun.Err? {
        return Err(Crashed);
      }
      return Ok(|db.records| - 1);
    }

    /** The gate: Some(i) lets the iteration of cycle i start; None leaves the
        mission as it is, because its state is on record. */
    method Admit(t: Tick) returns (r: Result<Option<nat>, Failure>)
      requires Valid() && Open(db.mission)
      modifies this`seen, this`failures, this`nextAttempt, db`budget, db`records, db`nextId
      ensures Valid() && Grows(old(db.records), db.records) && old(seen) <= seen
      ensures failures == 0 || failures == old(failures)
      ensures r.Err? ==> r.error == Crashed || (r.error == CallbackFailed && t.sighting.None?)
      ensures r.Ok? && r.value.Some? ==>
                var i := r.value.value;
                && i == |db.records| - 1 == Current(db.records) == Current(old(db.records))
                && Sighted(db.records[i]) && StateOf(db.records[i]) in seen
      ensures Resumed(old(db.records)) ==>
                && db.records == old(db.records) && failures == old(failures) && nextAttempt == old(nextAttempt)
                && r == if old(db.budget) == 0 then Err(Crashed) else Ok(Some(Current(old(db.records))))
      ensures r == Ok(None) ==> !Resumed(old(db.records)) && t.sighting.Some? && t.sighting.value.state in old(seen)
      ensures r.Ok? && r.value.Some? && !Resumed(old(db.records)) ==>
                t.sighting.Some? && t.sighting.value.state !in old(seen)
      ensures Stuck(db.records) ==> Stuck(old(db.records))
      ensures old(db.budget) >= 8 && t.sighting.Some? ==> r.Ok?
      ensures old(db.budget) >= 8 && t.sighting.Some? && t.sighting.value.state !in old(seen) ==> r.value.Some?
      ensures db.budget >= old(db.budget) - 8
    {
      hide Good, Gate, Grows;
      ghost var start := db.records;
      var i :- TakeUp();
      ghost var begun := db.records;
      if db.records[i].observations == [] && db.records[i].cycle.stage == OBSERVE {
        var recorded := ObserveFirst(i, t);
        GrowsTransitive(start, begun, db.records);
        if recorded.Err? {
          return Err(recorded.error);
        }
        return Ok(if recorded.value then Some(i) else None);
      }
      SightedUnlessObserve(begun, i);
      if db.records[i].observations == [] {
        return Err(NoDurableObservation);
      }
      SeenKeepsGate(db.records, seen, started, StateOf(db.records[i]));
      var _ :- Reserve(StateOf(db.records[i]));
      return Ok(Some(i));
    }

    /** The iteration of an admitted cycle. */
    method Iterate(i: nat, t: Tick) returns (r: Result<(), Failure>)
      requires Valid() && Open(db.mission) && i == |db.records| - 1 == Current(db.records)
      requires Sighted(db.records[i]) && StateOf(db.records[i]) in seen
      modifies this`failures, this`nextAttempt, this`started, db
      ensures Valid() && Grows(old(db.records), db.records) && started == old(started) + {i}
      ensures if r.Ok? then failures == 0 && nextAttempt == None else failures == old(failures)
      ensures r.Err? ==> Excusable(r.error) || r.error == NoDurableMeasurement
      ensures old(db.budget) >= 21 && Cooperative(t.world) && !Stuck(old(db.records)) ==>
                r.Ok? && i < |db.records| && db.records[i].cycle.completed
      ensures db.budget >= old(db.budget) - 21
    {
      hide Good, Gate, Advances, Continues, Grows;
      ghost var before := db.records;
      started := started + {i};
      StartKeepsGate(before, seen, old(started), i);
      var outcome := CompetitionRunner.Run(db, t.world);
      RunKeepsGate(before, db.records, seen, old(started), i);
      if outcome.Err? {
        return Err(outcome.error);
      }
      r := RecordSuccess();
    }

    /** _run_acquired */
    method RunAcquired(t: Tick) returns (r: Result<MonitorOutcome, Failure>)
      requires Valid() && db.mission.status == ACTIVE
      modifies this, db
      ensures Valid() && Grows(old(db.records), db.records) && old(seen) <= seen
      ensures r.Ok? ==> r.value == CHANGED || r.value == UNCHANGED
      ensures r == Ok(CHANGED) ==> started == old(started) + {Current(old(db.records))}
      ensures r == Ok(UNCHANGED) ==> started == old(started)
      ensures r == Ok(CHANGED) ==> failures == 0 && nextAttempt == None
      ensures failures == 0 || failures == old(failures)
      ensures started == old(started) || started == old(started) + {Current(old(db.records))}
      ensures r.Err? ==> Excusable(r.error) || r.error == NoDurableMeasurement
      ensures r.Ok? ==> (r.value == CHANGED <==>
                && !old(db.mission).halted && !t.pausedFirst && !t.pausedLater
                && (Resumed(old(db.records)) || t.Brings(old(seen))))
      ensures r == Ok(UNCHANGED) && !old(db.mission).halted && !t.pausedFirst && !t.pausedLater ==>
                !Resumed(old(db.records)) && t.sighting.Some? && t.sighting.value.state in old(seen)
      ensures old(db.budget) >= 29 && !old(db.mission).halted && !t.pausedFirst && !t.pausedLater
              && Cooperative(t.world) && !Stuck(old(db.records))
              && (Resumed(old(db.records)) || t.Brings(old(seen))) ==>
                var i := Current(old(db.records));
                r == Ok(CHANGED) && i < |db.records| && db.records[i].cycle.completed
      ensures db.budget >= old(db.budget) - 29
    {
      hide Good, Gate, Grows, Stuck;
      GrowsReflexive(db.records);
      Pause(t.pausedFirst);
      if db.mission.halted {
        return Ok(UNCHANGED);
      }
      var admitted :- Admit(t);
      if admitted.None? {
        return Ok(UNCHANGED);
      }
      Pause(t.pausedLater);
      if db.mission.halted {
        return Ok(UNCHANGED);
      }
      ghost var before := db.records;
      var iterated := Iterate(admitted.value, t);
      GrowsTransitive(old(db.records), before, db.records);
      if iterated.Err? {
        return Err(iterated.error);
      }
      return Ok(CHANGED);
    }

    /** What follows the iteration: a failure, or a loss of the lease that a
        heartbeat noticed, becomes durable backoff; then the lease is given
        back. A loss that nobody noticed changes nothing. */
    method Settle(result: Result<MonitorOutcome, Failure>, t: Tick) returns (r: Result<MonitorOutcome, Failure>)
      modifies this`failures, this`nextAttempt, db`budget, leases
      ensures r.Err? ==> r.error == Crashed
      ensures r.Ok? ==> r.value == if result.Err? || t.LossNoticed() then MonitorOutcome.FAILED else result.value
      ensures old(db.budget) >= 2 ==> r.Ok?
      ensures r.Ok? && t.successor.None? ==> leases.rows == MonitorLease.Release(old(leases.rows), key, t.token)
      ensures r.Ok? && t.successor.Some? ==>
                leases.rows == MonitorLease.Release(old(leases.rows)[key := t.successor.value], key, t.token)
      ensures if r.Ok? && (result.Err? || t.LossNoticed())
              then failures == old(failures) + 1 && nextAttempt == Some(t.now + Delay(failures, t.unit))
              else r.Ok? ==> failures == old(failures) && nextAttempt == old(nextAttempt)
    {
      if t.successor.Some? {
        leases.rows := leases.rows[key := t.successor.value];
      }
      r := result;
      if result.Err? || t.LossNoticed() {
        var _ :- RecordFailure(t.now, t.unit);
        r := Ok(MonitorOutcome.FAILED);
      }
      var _ :- db.Write();
      var _ := leases.ReleaseLease(key, t.token);
    }

    /** run: a failure becomes durable backoff, and the lease is given back.
        inner is how the run under the lease ended, if there was one. */
    method Run(t: Tick)
      returns (r: Result<MonitorOutcome, Failure>, ghost inner: Option<Result<MonitorOutcome, Failure>>)
      requires Valid()
      modifies this, db, leases
      ensures Valid() && Grows(old(db.records), db.records) && old(seen) <= seen && old(started) <= started
      ensures r.Err? ==> r.error == Crashed
      ensures !Open(old(db.mission)) ==> r == Ok(UNCHANGED)
      ensures Open(old(db.mission)) && old(nextAttempt).Some? && t.now < old(nextAttempt).value <==>
                r == Ok(BACKING_OFF)
      ensures !Open(old(db.mission)) || r == Ok(BACKING_OFF) || r == Ok(LEASED_OUT) ==>
                && db.records == old(db.records) && leases.rows == old(leases.rows)
                && seen == old(seen) && failures == old(failures) && started == old(started)
      ensures r == Ok(LEASED_OUT) ==> key in old(leases.rows) && t.now < old(leases.rows)[key].expires
      ensures inner.Some? ==> key !in old(leases.rows) || old(leases.rows)[key].expires <= t.now
      ensures r == Ok(UNCHANGED) && Open(old(db.mission)) && !t.pausedFirst && !t.pausedLater ==>
                !Resumed(old(db.records)) && t.sighting.Some? && t.sighting.value.state in old(seen)
      ensures Open(old(db.mission)) && (old(nextAttempt).Some? ==> old(nextAttempt).value <= t.now)
              && (key in old(leases.rows) ==> old(leases.rows)[key].expires <= t.now)
              && old(db.budget) >= 32 && !t.pausedFirst && !t.pausedLater && Cooperative(t.world)
              && !Stuck(old(db.records)) && (Resumed(old(db.records)) || t.Brings(old(seen))) ==>
                var i := Current(old(db.records));
                && r == Ok(if t.LossNoticed() then MonitorOutcome.FAILED else CHANGED)
                && i < |db.records| && db.records[i].cycle.completed
      ensures r == Ok(CHANGED) ==> started == old(started) + {Current(old(db.records))} && !t.LossNoticed()
      ensures r == Ok(UNCHANGED) ==> started == old(started)
      ensures r == Ok(CHANGED) ==> failures == 0 && nextAttempt == None
      ensures r == Ok(MonitorOutcome.FAILED) ==>
                && (failures == 1 || failures == old(failures) + 1)
                && nextAttempt == Some(t.now + Delay(failures, t.unit)) && nextAttempt.value > t.now
      ensures r.Ok? && inner.Some? ==> (r.value.FAILED? <==> inner.value.Err? || t.LossNoticed())
      ensures r.Ok? && inner.Some? && !r.value.FAILED? ==> inner.value == r
      ensures r.Ok? && inner.None? ==> !r.value.FAILED? && !r.value.CHANGED?
      ensures r.Ok? && inner.Some? ==>
                && (t.successor.None? ==> leases.rows == old(leases.rows) - {key})
                && (t.successor.Some? && t.successor.value.holder != t.token ==>
                       leases.rows == old(leases.rows)[key := t.successor.value])
    {
      hide Good, Gate, Grows, Stuck;
      GrowsReflexive(db.records);
      inner := None;
      if !Open(db.mission) {
        return Ok(UNCHANGED), inner;
      }
      if nextAttempt.Some? && t.now < nextAttempt.value {
        return Ok(BACKING_OFF), inner;
      }
      var alive := db.Write();
      if alive.Err? {
        return Err(Crashed), inner;
      }
      var acquired := leases.AcquireLease(key, t.token, t.now, t.now + duration);
      if !acquired {
        return Ok(LEASED_OUT), inner;
      }
      var result := RunAcquired(t);
      inner := Some(result);
      if result == Err(Crashed) {
        return result, inner;
      }
      r := Settle(result, t);
    }

    /** Any number of invocations, each by a process with its own budget; the
        mission may be resumed in between. */
    method Serve(ticks: seq<(nat, bool, Tick)>)
      requires Valid()
      modifies this, db, leases
      ensures Valid() && Grows(old(db.records), db.records) && old(started) <= started
      ensures forall i, j :: 0 <= i < j < |db.records| && Acted(db.records[i]) && Acted(db.records[j]) ==>
                Sighted(db.records[i]) && Sighted(db.records[j]) && StateOf(db.records[i]) != StateOf(db.records[j])
      ensures forall i :: 0 <= i < |db.records| ==> db.records[i].invocations <= 1
    {
      var next := 0;
      while next < |ticks|
        invariant 0 <= next <= |ticks|
        invariant Valid() && Grows(old(db.records), db.records) && old(started) <= started
      {
        ghost var before := db.records;
        var (writes, halted, tick) := ticks[next];
        db.budget := writes;
        db.mission := db.mission.(halted := halted);
        var _, _ := Run(tick);
        GrowsTransitive(old(db.records), before, db.records);
        next := next + 1;
      }
      StatesActOnce(db.records, seen, started);
    }
  }

  /** An observed state triggers at most one invocation, ever. */
  lemma StatesActOnce(records: seq<Record>, seen: set<nat>, started: set<nat>)
    requires Good(records) && Gate(records, seen, started)
    ensures forall i, j :: 0 <= i < j < |records| && Acted(records[i]) && Acted(records[j]) ==>
              Sighted(records[i]) && Sighted(records[j]) && StateOf(records[i]) != StateOf(records[j])
    ensures forall i :: 0 <= i < |records| ==> records[i].invocations <= 1
  {
    forall i | 0 <= i < |records|
      ensures records[i].invocations <= 1 && (Acted(records[i]) ==> i in started && Sighted(records[i]))
    {
      assert RecordOk(records[i]);
    }
  }

  function States(records: seq<Record>): set<nat> {
    set i | 0 <= i < |records| && Sighted(records[i]) :: StateOf(records[i])
  }

  /** No more iterations start than states were observed. */
  lemma {:induction false} StartsAreBounded(records: seq<Record>, seen: set<nat>, started: set<nat>)
    requires Gate(records, seen, started)
    ensures |started| <= |States(records)|
  {
    InjectiveImage(records, started, States(records));
  }

  lemma {:induction false} InjectiveImage(records: seq<Record>, some: set<nat>, states: set<nat>)
    requires forall i :: i in some ==> i < |records| && Sighted(records[i]) && StateOf(records[i]) in states
    requires forall i, j :: i in some && j in some && i != j ==> StateOf(records[i]) != StateOf(records[j])
    ensures |some| <= |states|
    decreases |some|
  {
    if some != {} {
      var i :| i in some;
      InjectiveImage(records, some - {i}, states - {StateOf(records[i])});
    }
  }

  lemma SightedUnlessObserve(records: seq<Record>, i: nat)
    requires Good(records) && i < |records|
    ensures records[i].cycle.stage == OBSERVE || Sighted(records[i])
  {
    assert RecordOk(records[i]);
  }

  lemma StartKeepsGate(records: seq<Record>, seen: set<nat>, started: set<nat>, i: nat)
    requires Gate(records, seen, started) && i < |records| && Sighted(records[i])
    ensures Gate(records, seen, started + {i})
  {
  }

  lemma GrowsReflexive(records: seq<Record>)
    ensures Grows(records, records)
  {
  }

  lemma LedgerOf(records: seq<Record>)
    requires Good(records)
    ensures Ledger(records)
  {
  }

  lemma SeenKeepsGate(records: seq<Record>, seen: set<nat>, started: set<nat>, state: nat)
    requires Gate(records, seen, started)
    ensures Gate(records, seen + {state}, started)
  {
  }
}
