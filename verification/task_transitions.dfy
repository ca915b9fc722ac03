/** What the operations mean for one task: the transition table, and when a
    failed task may run again. */
module TaskTransitions {
  import opened Prelude
  import opened Graphs
  import opened TaskGraph
  import opened TaskTable
  import opened TaskAdmission
  import opened TaskRuns

  // ---- the transition table

  /** The failure of a RUNNING task: retried after base * 2^n seconds while
      fewer than maxRetries retries are spent. */
  function AfterFailure(row: Task, error: Reason, retryable: bool, now: int, base: nat): Task {
    var n := row.retryCount;
    if retryable && n < row.maxRetries then
      row.(status := FailedRetryable, retryCount := n + 1, finishedAt := Some(now), error := Some(error),
           retryAfter := Some(now + base * Pow2(n)))
    else
      row.(status := FailedPermanent, retryCount := n + 1, finishedAt := Some(now), error := Some(error),
           retryAfter := None)
  }

  predicate MayBePromoted(rows: Rows, row: Task, now: int) {
    && row.status in [Pending, FailedRetryable]
    && (forall d :: d in row.dependencies ==> d in rows && rows[d].status == Succeeded)
    && (row.retryAfter.Some? ==> row.retryAfter.value <= now)
    && row.retryCount <= row.maxRetries
  }

  function AfterCancellation(row: Task, now: int, error: Option<Reason>): Task {
    if row.status in [Succeeded, Cancelled] then row
    else row.(status := Cancelled, finishedAt := Some(now), error := error)
  }

  ghost predicate DependsOnRoot(rows: Rows, id: nat, root: nat) {
    Reaches(DependsOn(GraphOf(rows)), id, root)
  }

  ghost function After(t: Table, op: Op, base: nat, id: nat): Task
    requires id in t.rows
  {
    var row := t.rows[id];
    match op
    case AddBatch(_, _) => row
    case RefreshReady(now, reached) =>
      if id in reached && MayBePromoted(t.rows, row, now) then row.(status := Ready, error := None, retryAfter := None)
      else row
    case Claim(x, now) =>
      if id == x && row.status == Ready then row.(status := Running, startedAt := Some(now), finishedAt := None)
      else row
    case Succeed(x, now) =>
      if id == x && row.status == Running then
        row.(status := Succeeded, finishedAt := Some(now), error := None, retryAfter := None)
      else row
    case Fail(x, error, retryable, now) =>
      if id == x && row.status == Running then AfterFailure(row, error, retryable, now, base) else row
    case RecoverRunning(now, reached) =>
      if id in reached && row.status == Running then AfterFailure(row, WorkerStopped, true, now, base) else row
    case CancelFrom(root, now, reached) =>
      if id in reached && DependsOnRoot(t.rows, id, root) then AfterCancellation(row, now, row.error) else row
    case CancelMission(now, reached) =>
      if id in reached then AfterCancellation(row, now, Some(MissionCancelled)) else row
  }

  function Reversed(p: seq<nat>): (r: seq<nat>)
    ensures |r| == |p| && forall i :: 0 <= i < |p| ==> r[i] == p[|p| - 1 - i]
  {
    if p == [] then [] else Reversed(p[1..]) + [p[0]]
  }

  /** What lies below a root is what transitively depends on it. */
  lemma BelowIsDependents(rows: Rows, root: nat, id: nat)
    requires id in rows && forall n, d :: n in rows && d in rows[n].dependencies ==> d in rows
    ensures id in Below(rows, root) <==> DependsOnRoot(rows, id, root)
  {
    var down, up := Unlocks(rows), DependsOn(GraphOf(rows));
    assert forall a, b :: (a, b) in down <==> (b, a) in up;
    if id in Below(rows, root) {
      var p :| IsPath(down, p) && p[0] == root && p[|p| - 1] == id;
      assert IsPath(up, Reversed(p));
    }
    if DependsOnRoot(rows, id, root) {
      var p :| IsPath(up, p) && p[0] == id && p[|p| - 1] == root;
      assert IsPath(down, Reversed(p));
    }
  }

  lemma FailureFollows(row: Task, error: Reason, retryable: bool, now: int, base: nat)
    ensures FailRow(row, error, retryable, now, base) == AfterFailure(row, error, retryable, now, base)
  {
    TotalDelayClosedForm(base, row.retryCount);
  }

  /** Every operation does to every stored task what the table says. */
  lemma OperationsFollowTheTable(t: Table, op: Op, base: nat, id: nat)
    requires WellFormed(t.rows, t.rowid, t.next) && id in t.rows && !op.AddBatch?
    ensures id in Apply(t, op, base).rows && Apply(t, op, base).rows[id] == After(t, op, base, id)
  {
    hide Below, DependsOnRoot, WellFormed, FailRow, AfterFailure;
    match op {
      case Fail(_, error, retryable, now) => FailureFollows(t.rows[id], error, retryable, now, base);
      case RecoverRunning(now, _) => FailureFollows(t.rows[id], WorkerStopped, true, now, base);
      case CancelFrom(root, _, _) =>
        assert id in Below(t.rows, root) <==> DependsOnRoot(t.rows, id, root) by {
          DependenciesStored(t);
          BelowIsDependents(t.rows, root, id);
        }
      case _ =>
    }
  }

  lemma DependenciesStored(t: Table)
    requires WellFormed(t.rows, t.rowid, t.next)
    ensures forall n, d :: n in t.rows && d in t.rows[n].dependencies ==> d in t.rows
  {
  }

  // ---- what a batch adds

  lemma {:induction false} InsertAllContents(t: Table, tasks: seq<Task>)
    requires UniqueIds(tasks)
    ensures var rows := InsertAll(t, tasks).rows;
      && rows.Keys == t.rows.Keys + Ids(tasks)
      && (forall x :: x in tasks ==> rows[x.id] == x)
      && (forall id :: id in t.rows && id !in Ids(tasks) ==> rows[id] == t.rows[id])
    decreases |tasks|
  {
    InsertAllKeys(t, tasks);
    if tasks != [] {
      var n := |tasks| - 1;
      assert tasks == tasks[..n] + [tasks[n]];
      InsertAllContents(t, tasks[..n]);
    }
  }

  lemma SucceedsWhenAllReached(plan: seq<Task>, writes: nat)
    ensures Outcome(plan, writes).Ok? <==> Reached(plan, writes) == plan
    ensures Reached(plan, writes) <= plan
  {
  }

  lemma ReachedAreOfBatch(rows: Rows, batch: seq<Task>, writes: nat)
    requires Admitted(rows, batch)
    ensures Plan(batch, rows.Keys).Some?
    ensures var w := Reached(Plan(batch, rows.Keys).value, writes);
      && UniqueIds(w) && (forall x :: x in w ==> x in batch && x.id !in rows)
      && (AddResult(rows, batch, writes).Ok? ==> forall x :: x in batch ==> x in w)
      && (AddResult(rows, batch, writes).Err? ==> exists x :: x in batch && x.id !in Ids(w))
  {
    PlanOfAdmitted(rows, batch);
    var plan := Plan(batch, rows.Keys).value;
    SucceedsWhenAllReached(plan, writes);
    assert AddResult(rows, batch, writes) == Outcome(plan, writes);
    var w := Reached(plan, writes);
    hide Plan, Admitted, AddResult, Outcome, Reached;
    if w != plan {
      assert plan[|w|] in batch && plan[|w|].id !in Ids(w);
    }
  }

  /** A batch changes no stored task; what it adds are its own tasks, as given;
      and all of them are there exactly when the call succeeds. */
  lemma BatchAddsItself(t: Table, batch: seq<Task>, writes: nat)
    ensures var rows, r := Added(t, batch, writes).rows, AddResult(t.rows, batch, writes);
      && (forall id :: id in t.rows ==> id in rows && rows[id] == t.rows[id])
      && (forall id :: id in rows && id !in t.rows ==> exists x :: x in batch && x.id == id && rows[id] == x)
      && (r.Ok? ==> forall x :: x in batch ==> x.id in rows && rows[x.id] == x)
      && (r.Err? && Admitted(t.rows, batch) ==> exists x :: x in batch && x.id !in rows)
  {
    if Admitted(t.rows, batch) {
      ReachedAreOfBatch(t.rows, batch, writes);
      var w := Reached(Plan(batch, t.rows.Keys).value, writes);
      assert Added(t, batch, writes) == InsertAll(t, w);
      hide Plan, Admitted, AddResult, Reached, Added, InsertAll, UniqueIds;
      InsertAllContents(t, w);
      if AddResult(t.rows, batch, writes).Err? {
        var x :| x in batch && x.id !in Ids(w);
        NewIdIsFree(t.rows, batch, x);
      }
    } else if AddResult(t.rows, batch, writes).Ok? {
      assert batch == [];
    }
  }

  lemma NewIdIsFree(rows: Rows, batch: seq<Task>, x: Task)
    requires Admitted(rows, batch) && x in batch
    ensures x.id !in rows
  {
    PlanOfAdmitted(rows, batch);
  }

  // ---- when a failed task may run again

  lemma TimerOf(t: Table, base: nat, id: nat)
    requires Sound(t, base) && id in t.rows && t.rows[id].status == FailedRetryable
    ensures var row := t.rows[id];
      && row.finishedAt.Some? && 1 <= row.retryCount <= row.maxRetries
      && row.retryAfter == Some(row.finishedAt.value + base * Pow2(row.retryCount - 1))
  {
    assert Timed(t.rows[id], base) && Accounted(t.rows[id], t.starts[id], t.backoff[id], base);
  }

  /** A failed task promoted by a refresh: exactly when the refresh reaches it,
      its dependencies are done and the doubled delay since its failure is over. */
  lemma PromotedIffDue(t: Table, base: nat, id: nat, now: int, reached: set<nat>)
    requires Sound(t, base) && id in t.rows && t.rows[id].status == FailedRetryable
    ensures var row, rows := t.rows[id], Apply(t, RefreshReady(now, reached), base).rows;
      && row.finishedAt.Some? && row.retryCount >= 1 && id in rows
      && (rows[id].status == Ready <==>
            && id in reached
            && row.finishedAt.value + base * Pow2(row.retryCount - 1) <= now
            && forall d :: d in row.dependencies ==> d in t.rows && t.rows[d].status == Succeeded)
  {
    TimerOf(t, base, id);
    OperationsFollowTheTable(t, RefreshReady(now, reached), base, id);
    hide Lifecycle, WellFormed, Apply, Pow2;
  }

  /** Refreshes before the timer has run out. */
  predicate TooEarly(ops: seq<Op>, due: int) {
    forall op :: op in ops && op.RefreshReady? ==> op.now < due
  }

  /** Stopped for good, or still waiting as it was. */
  predicate Held(before: Task, after: Task) {
    after == before || after.status == Cancelled
  }

  /** A task that failed, and until when it has to wait. */
  predicate Holds(row: Task, until: int) {
    row.status == FailedPermanent || (row.status == FailedRetryable && row.retryAfter == Some(until))
  }

  lemma HeldInTable(t: Table, op: Op, base: nat, id: nat, row: Task, until: int)
    requires id in t.rows && Held(row, t.rows[id]) && Holds(row, until) && TooEarly([op], until)
    ensures Held(row, After(t, op, base, id))
  {
    assert op in [op];
    hide AfterFailure, DependsOnRoot;
  }

  lemma HeldThroughStep(t: Table, op: Op, base: nat, id: nat, row: Task, until: int)
    requires WellFormed(t.rows, t.rowid, t.next)
    requires id in t.rows && Held(row, t.rows[id]) && Holds(row, until) && TooEarly([op], until)
    ensures var u := Apply(t, op, base); id in u.rows && Held(row, u.rows[id])
  {
    HeldInTable(t, op, base, id, row, until);
    if op.AddBatch? {
      assert Apply(t, op, base) == Added(t, op.batch, op.writes);
      BatchAddsItself(t, op.batch, op.writes);
    } else {
      OperationsFollowTheTable(t, op, base, id);
    }
    hide WellFormed, Apply, Added, Admitted, AddResult, After, Held, Holds;
  }

  lemma SoundIsWellFormed(t: Table, base: nat)
    requires Sound(t, base)
    ensures WellFormed(t.rows, t.rowid, t.next)
  {
  }

  lemma {:induction false} HeldThroughRun(t: Table, ops: seq<Op>, base: nat, id: nat, row: Task, until: int)
    requires Sound(t, base) && (forall op :: op in ops ==> Admissible(op)) && id in t.rows && Held(row, t.rows[id])
    requires Holds(row, until) && TooEarly(ops, until)
    ensures var u := Run(t, ops, base); id in u.rows && Held(row, u.rows[id])
    decreases |ops|
  {
    hide Sound, Apply, Held, Holds, Admissible;
    if ops != [] {
      assert ops[0] in ops;
      SoundIsWellFormed(t, base);
      StepKeepsSound(t, ops[0], base);
      HeldThroughStep(t, ops[0], base, id, row, until);
      HeldThroughRun(Apply(t, ops[0], base), ops[1..], base, id, row, until);
    }
  }

  /** A RUNNING task fails at now: by a report or, when the worker was lost, by
      a recovery. */
  predicate Fails(op: Op, id: nat, retryable: bool, now: int) {
    || (op.Fail? && op.id == id && op.retryable == retryable && op.now == now)
    || (op.RecoverRunning? && id in op.reached && retryable && op.now == now)
  }

  lemma FailureStored(t: Table, op: Op, base: nat, id: nat, retryable: bool, now: int)
    requires WellFormed(t.rows, t.rowid, t.next) && Has(t, id, Running) && Fails(op, id, retryable, now)
    ensures var u, row := Apply(t, op, base), t.rows[id];
      && id in u.rows
      && if retryable && row.retryCount < row.maxRetries
         then u.rows[id].status == FailedRetryable && u.rows[id].retryAfter == Some(now + base * Pow2(row.retryCount))
         else u.rows[id].status == FailedPermanent
  {
    OperationsFollowTheTable(t, op, base, id);
    hide WellFormed, Apply, DependsOnRoot, Pow2;
  }

  /** A task that fails after n retries is not scheduled again by any run whose
      refreshes come before now + base * 2^n, and never if it has no retry
      left: it stays as the failure left it, or is cancelled. */
  lemma FailedTaskWaits(t: Table, op: Op, later: seq<Op>, base: nat, id: nat, retryable: bool, now: int)
    requires Sound(t, base) && Has(t, id, Running) && Fails(op, id, retryable, now)
    requires forall x :: x in later ==> Admissible(x)
    requires retryable && t.rows[id].retryCount < t.rows[id].maxRetries ==>
               TooEarly(later, now + base * Pow2(t.rows[id].retryCount))
    ensures var u := Run(Apply(t, op, base), later, base);
      && id in u.rows
      && if retryable && t.rows[id].retryCount < t.rows[id].maxRetries
         then u.rows[id].status in [FailedRetryable, Cancelled] else u.rows[id].status in [FailedPermanent, Cancelled]
  {
    hide Sound, Apply, Pow2, Run;
    SoundIsWellFormed(t, base);
    FailureStored(t, op, base, id, retryable, now);
    StepKeepsSound(t, op, base);
    var row := Apply(t, op, base).rows[id];
    if row.status == FailedRetryable {
      HeldThroughRun(Apply(t, op, base), later, base, id, row, now + base * Pow2(t.rows[id].retryCount));
    } else {
      FinalThroughRun(Apply(t, op, base), later, base, id, row);
    }
  }

  /** The latest refresh of a run. */
  function Latest(ops: seq<Op>): (latest: int)
    ensures TooEarly(ops, latest + 1)
  {
    if ops == [] then 0
    else
      var rest := Latest(ops[1..]);
      assert ops == [ops[0]] + ops[1..];
      if ops[0].RefreshReady? && ops[0].now > rest then ops[0].now else rest
  }

  lemma FinalThroughRun(t: Table, ops: seq<Op>, base: nat, id: nat, row: Task)
    requires Sound(t, base) && (forall op :: op in ops ==> Admissible(op)) && id in t.rows
    requires row == t.rows[id] && row.status == FailedPermanent
    ensures var u := Run(t, ops, base); id in u.rows && Held(row, u.rows[id])
  {
    HeldThroughRun(t, ops, base, id, row, Latest(ops) + 1);
  }
}
