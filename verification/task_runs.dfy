/** Whole runs of the task engine: every sequence of operations, complete or
    cut short by a crash at any write, from the empty table. */
module TaskRuns {
  import opened Prelude
  import opened Graphs
  import opened TaskGraph
  import opened TaskTable
  import opened TaskAdmission

  /** An operation that writes many rows also says how far it got: how many
      writes it still had, or which rows it reached. */
  datatype Op =
    | AddBatch(batch: seq<Task>, writes: nat)
    | RefreshReady(now: int, reached: set<nat>)
    | Claim(id: nat, now: int)
    | Succeed(id: nat, now: int)
    | Fail(id: nat, error: Reason, retryable: bool, now: int)
    | RecoverRunning(now: int, reached: set<nat>)
    | CancelFrom(root: nat, now: int, reached: set<nat>)
    | CancelMission(now: int, reached: set<nat>)

  /** task -> tasks that depend on it */
  ghost function Unlocks(rows: Rows): Edges {
    set d, id | id in rows && d in rows[id].dependencies :: (d, id)
  }

  /** The root and everything that transitively depends on it. */
  ghost function Below(rows: Rows, root: nat): set<nat> {
    set id | id in rows && Reaches(Unlocks(rows), root, id)
  }

  lemma ReachesStoredOnly(rows: Rows, root: nat, id: nat)
    requires root in rows && Reaches(Unlocks(rows), root, id)
    ensures id in rows
  {
    var p :| IsPath(Unlocks(rows), p) && p[0] == root && p[|p| - 1] == id;
    if |p| > 1 {
      assert (p[|p| - 2], p[|p| - 1]) in Unlocks(rows);
    }
  }

  /** Cancelling one more task of the set. */
  lemma CancelSetStep(rows: Rows, done: set<nat>, id: nat, now: int)
    requires id in rows
    ensures var so := CancelSet(rows, done, now);
            && (Cancellable(so[id]) <==> id !in done && Cancellable(rows[id]))
            && CancelSet(rows, done + {id}, now) == if Cancellable(so[id])
                                                    then so[id := CancelRow(so[id], now, so[id].error)]
                                                    else so
  {
  }

  /** What add_tasks tests before its first write. */
  ghost predicate Admitted(rows: Rows, batch: seq<Task>) {
    batch != [] && PreCheck(batch, rows.Keys).None? && Acyclic(DependsOn(Combined(rows, batch)))
  }

  lemma AdmittedHasPlan(rows: Rows, batch: seq<Task>)
    requires Admitted(rows, batch)
    ensures Plan(batch, rows.Keys).Some?
  {
    CombinedContents(rows, batch);
    DependencyErrorMeaning(batch, rows.Keys + Ids(batch));
    AcyclicHasPlan(batch, rows.Keys, Combined(rows, batch));
  }

  ghost function AddResult(rows: Rows, batch: seq<Task>, writes: nat): Result<(), AddError> {
    if batch == [] then Ok(())
    else if PreCheck(batch, rows.Keys).Some? then Err(PreCheck(batch, rows.Keys).value)
    else if !Acyclic(DependsOn(Combined(rows, batch))) then Err(Cyclic)
    else AdmittedHasPlan(rows, batch); Outcome(Plan(batch, rows.Keys).value, writes)
  }

  ghost function Added(t: Table, batch: seq<Task>, writes: nat): Table {
    if Admitted(t.rows, batch) then
      AdmittedHasPlan(t.rows, batch);
      InsertAll(t, Reached(Plan(batch, t.rows.Keys).value, writes))
    else t
  }

  predicate Has(t: Table, id: nat, s: Status) {
    id in t.rows && t.rows[id].status == s
  }

  ghost function Apply(t: Table, op: Op, base: nat): Table {
    match op
    case AddBatch(batch, writes) => Added(t, batch, writes)
    case RefreshReady(now, reached) => t.(rows := RefreshSome(t.rows, reached, now))
    case Claim(id, now) => if Has(t, id, Ready) then Started(t, id, now) else t
    case Succeed(id, now) => if Has(t, id, Running) then Finished(t, id, now) else t
    case Fail(id, error, retryable, now) =>
      if Has(t, id, Running) then Failed(t, id, error, retryable, now, base) else t
    case RecoverRunning(now, reached) => Recovered(t, reached, now, base)
    case CancelFrom(root, now, reached) => t.(rows := CancelSet(t.rows, Below(t.rows, root) * reached, now))
    case CancelMission(now, reached) => t.(rows := CancelSome(t.rows, reached, now))
  }

  ghost function Run(t: Table, ops: seq<Op>, base: nat): Table
    decreases |ops|
  {
    if ops == [] then t else Run(Apply(t, ops[0], base), ops[1..], base)
  }

  const EMPTY_TABLE := Table(map[], map[], 0, map[], map[])

  /** New tasks arrive PENDING or WAITING_APPROVAL with no retries spent. */
  predicate Admissible(op: Op) {
    op.AddBatch? ==> forall t :: t in op.batch ==> Fresh(t)
  }

  /** New fresh tasks, each after the tasks it depends on. */
  ghost predicate Insertable(tasks: seq<Task>, persisted: set<nat>) {
    && UniqueIds(tasks) && Ids(tasks) !! persisted && DependenciesFirst(tasks, persisted)
    && forall x :: x in tasks ==> Fresh(x) && NoRepeat(x.dependencies)
  }

  lemma LastIsInsertable(tasks: seq<Task>, persisted: set<nat>)
    requires tasks != [] && Insertable(tasks, persisted)
    ensures var init, last := tasks[..|tasks| - 1], tasks[|tasks| - 1];
      && Insertable(init, persisted) && Ids(tasks) == Ids(init) + {last.id}
      && last.id !in persisted + Ids(init) && Fresh(last)
      && NoRepeat(last.dependencies) && Within(last.dependencies, persisted + Ids(init))
  {
    var n := |tasks| - 1;
    var init, last := tasks[..n], tasks[n];
    assert tasks == init + [last] && last in tasks;
    forall i, d | 0 <= i < |init| && d in init[i].dependencies
      ensures d in persisted + Ids(init[..i])
    {
      assert init[i] == tasks[i] && init[..i] == tasks[..i];
    }
  }

  lemma {:induction false} InsertAllKeepsSound(t: Table, tasks: seq<Task>, base: nat)
    requires Sound(t, base) && Insertable(tasks, t.rows.Keys)
    ensures Sound(InsertAll(t, tasks), base) && Preserves(t.rows, InsertAll(t, tasks).rows)
    ensures InsertAll(t, tasks).rows.Keys == t.rows.Keys + Ids(tasks)
    decreases |tasks|
  {
    hide Sound, Insertable, Ids, Within, Fresh;
    if tasks == [] {
      assert Ids(tasks) == {} by {
        NoIds();
      }
    } else {
      LastIsInsertable(tasks, t.rows.Keys);
      InsertAllKeepsSound(t, tasks[..|tasks| - 1], base);
      InsertKeepsSound(InsertAll(t, tasks[..|tasks| - 1]), tasks[|tasks| - 1], base);
    }
  }

  lemma NoIds()
    ensures Ids([]) == {}
  {
  }

  /** What is written of a plan is itself a plan that the edge table accepts. */
  lemma WrittenIsPlan(plan: seq<Task>, persisted: set<nat>)
    requires DependenciesFirst(plan, persisted) && UniqueIds(plan)
    ensures var w := Written(plan);
            && DependenciesFirst(w, persisted) && UniqueIds(w)
            && forall x :: x in w ==> x in plan && NoRepeat(x.dependencies)
  {
    var w := Written(plan);
    WrittenIsClean(plan);
    assert forall i :: 0 <= i < |w| ==> w[i] == plan[i] && w[..i] == plan[..i];
  }

  lemma {:induction false} PrefixIsInsertable(tasks: seq<Task>, persisted: set<nat>, k: nat)
    requires Insertable(tasks, persisted) && k <= |tasks|
    ensures Insertable(tasks[..k], persisted)
    decreases |tasks|
  {
    if k == |tasks| {
      assert tasks[..k] == tasks;
    } else {
      LastIsInsertable(tasks, persisted);
      PrefixIsInsertable(tasks[..|tasks| - 1], persisted, k);
      assert tasks[..|tasks| - 1][..k] == tasks[..k];
    }
  }

  /** The plan of an admitted batch: the batch itself, in another order. */
  lemma PlanOfAdmitted(rows: Rows, batch: seq<Task>)
    requires Admitted(rows, batch)
    ensures Plan(batch, rows.Keys).Some?
    ensures var plan := Plan(batch, rows.Keys).value;
      && multiset(plan) == multiset(batch) && |plan| == |batch| && UniqueIds(plan) && DependenciesFirst(plan, rows.Keys)
      && forall x :: (x in plan <==> x in batch) && (x in plan ==> x.id !in rows)
  {
    AdmittedHasPlan(rows, batch);
    PlanIsExact(batch, rows.Keys);
    PlanIsUnique(batch, rows.Keys);
    var plan := Plan(batch, rows.Keys).value;
    assert |plan| == |multiset(plan)| == |multiset(batch)| == |batch|;
    forall x
      ensures x in plan <==> x in batch
    {
      assert x in plan <==> x in multiset(plan);
      assert x in batch <==> x in multiset(batch);
    }
  }

  lemma ReachedIsInsertable(rows: Rows, batch: seq<Task>, writes: nat)
    requires Admitted(rows, batch) && forall x :: x in batch ==> Fresh(x)
    ensures Plan(batch, rows.Keys).Some? && Insertable(Reached(Plan(batch, rows.Keys).value, writes), rows.Keys)
  {
    hide Admitted;
    PlanOfAdmitted(rows, batch);
    var plan := Plan(batch, rows.Keys).value;
    WrittenIsPlan(plan, rows.Keys);
    assert Insertable(Written(plan), rows.Keys);
    PrefixIsInsertable(Written(plan), rows.Keys, |Reached(plan, writes)|);
  }

  lemma AddKeepsSound(t: Table, batch: seq<Task>, writes: nat, base: nat)
    requires Sound(t, base) && forall x :: x in batch ==> Fresh(x)
    ensures Sound(Added(t, batch, writes), base) && Preserves(t.rows, Added(t, batch, writes).rows)
  {
    hide Sound, Insertable, Fresh, Admitted, Plan, Reached, InsertAll;
    if Admitted(t.rows, batch) {
      ReachedIsInsertable(t.rows, batch, writes);
      InsertAllKeepsSound(t, Reached(Plan(batch, t.rows.Keys).value, writes), base);
    }
  }

  lemma ApplyKeepsKeys(t: Table, op: Op, base: nat)
    requires !op.AddBatch?
    ensures var u := Apply(t, op, base); u.rows.Keys == t.rows.Keys && u.rowid == t.rowid && u.next == t.next
  {
  }

  lemma StepKeepsSound(t: Table, op: Op, base: nat)
    requires Sound(t, base) && Admissible(op)
    ensures Sound(Apply(t, op, base), base) && Preserves(t.rows, Apply(t, op, base).rows)
  {
    hide Lifecycle, WellFormed, Added, Below, Preserves, RefreshSome, RecoverSome, CancelSet, CancelSome;
    hide Started, Finished, Failed, Recovered;
    PreservesItself(t.rows);
    match op {
      case AddBatch(batch, writes) => AddKeepsSound(t, batch, writes, base);
      case RefreshReady(now, reached) => RefreshKeepsLifecycle(t, reached, now, base);
      case Claim(id, now) => if Has(t, id, Ready) { StartKeepsLifecycle(t, id, now, base); }
      case Succeed(id, now) => if Has(t, id, Running) { FinishKeepsLifecycle(t, id, now, base); }
      case Fail(id, error, retryable, now) =>
        if Has(t, id, Running) { FailKeepsLifecycle(t, id, error, retryable, now, base); }
      case RecoverRunning(now, reached) => RecoverKeepsLifecycle(t, reached, now, base);
      case CancelFrom(root, now, reached) => CancelKeepsLifecycle(t, Below(t.rows, root) * reached, now, base);
      case CancelMission(now, reached) => CancelSomeKeepsLifecycle(t, reached, now, base);
    }
    if !op.AddBatch? {
      ApplyKeepsKeys(t, op, base);
      PreservesShape(t, Apply(t, op, base).rows);
    }
  }

  lemma {:induction false} RunKeepsSound(t: Table, ops: seq<Op>, base: nat)
    requires Sound(t, base) && forall op :: op in ops ==> Admissible(op)
    ensures Sound(Run(t, ops, base), base) && Preserves(t.rows, Run(t, ops, base).rows)
    decreases |ops|
  {
    if ops != [] {
      StepKeepsSound(t, ops[0], base);
      RunKeepsSound(Apply(t, ops[0], base), ops[1..], base);
    }
  }

  lemma SoundTask(t: Table, base: nat, id: nat)
    requires Lifecycle(t, base) && id in t.rows
    ensures Count(t.starts, id) <= t.rows[id].maxRetries + 1
    ensures Count(t.backoff, id) <= base * (Pow2(t.rows[id].maxRetries) - 1)
    ensures t.rows[id].status in [Ready, Running, Succeeded] ==>
              forall d :: d in t.rows[id].dependencies ==> d in t.rows && t.rows[d].status == Succeeded
    ensures var row := t.rows[id];
            row.status == FailedRetryable ==>
              && row.finishedAt.Some? && row.retryCount >= 1
              && row.retryAfter == Some(row.finishedAt.value + base * Pow2(row.retryCount - 1))
  {
    assert Accounted(t.rows[id], t.starts[id], t.backoff[id], base) && Timed(t.rows[id], base);
    TotalDelayClosedForm(base, t.rows[id].maxRetries);
  }

  lemma EmptyIsSound(base: nat)
    ensures Sound(EMPTY_TABLE, base)
  {
  }

  /** The guarantees of every reachable table, spelled out per task. */
  lemma EveryReachableTask(ops: seq<Op>, t: Table, base: nat, id: nat)
    requires (forall op :: op in ops ==> Admissible(op)) && t == Run(EMPTY_TABLE, ops, base)
    requires id in t.rows
    ensures Count(t.starts, id) <= t.rows[id].maxRetries + 1
    ensures Count(t.backoff, id) <= base * (Pow2(t.rows[id].maxRetries) - 1)
    ensures t.rows[id].status in [Ready, Running, Succeeded] ==>
              forall d :: d in t.rows[id].dependencies ==> d in t.rows && t.rows[d].status == Succeeded
    ensures var row := t.rows[id];
            row.status == FailedRetryable ==>
              && row.finishedAt.Some? && row.retryCount >= 1
              && row.retryAfter == Some(row.finishedAt.value + base * Pow2(row.retryCount - 1))
  {
    EmptyIsSound(base);
    RunKeepsSound(EMPTY_TABLE, ops, base);
    SoundTask(t, base, id);
  }

  /** Once SUCCEEDED, a task row never changes again. */
  lemma SucceededIsForever(before: seq<Op>, later: seq<Op>, base: nat, id: nat)
    requires forall op :: op in before + later ==> Admissible(op)
    requires Has(Run(EMPTY_TABLE, before, base), id, Succeeded)
    ensures var t := Run(EMPTY_TABLE, before, base);
            var u := Run(t, later, base);
            id in u.rows && u.rows[id] == t.rows[id]
  {
    EmptyIsSound(base);
    forall op | op in before ensures Admissible(op) { assert op in before + later; }
    forall op | op in later ensures Admissible(op) { assert op in before + later; }
    RunKeepsSound(EMPTY_TABLE, before, base);
    RunKeepsSound(Run(EMPTY_TABLE, before, base), later, base);
  }

  // ---- all or nothing

  /** The first task of the batch that the stored tasks already satisfy: the
      first to be written. */
  function Lead(batch: seq<Task>, existing: set<nat>): Option<Task> {
    if batch == [] then None
    else if Within(batch[0].dependencies, existing) then Some(batch[0])
    else Lead(batch[1..], existing)
  }

  lemma {:induction false} ChooseStartsWithLead(batch: seq<Task>, existing: set<nat>)
    ensures var ready := Choose(batch, existing, true);
            if ready == [] then Lead(batch, existing) == None else Lead(batch, existing) == Some(ready[0])
  {
    if batch != [] {
      ChooseStartsWithLead(batch[1..], existing);
    }
  }

  ghost predicate NoneStored(rows: Rows, batch: seq<Task>) {
    forall x :: x in batch ==> x.id !in rows
  }

  ghost predicate AllStored(rows: Rows, batch: seq<Task>) {
    forall x :: x in batch ==> x.id in rows
  }

  /** Inserting the first k tasks of a plan stores those and no others. */
  lemma PrefixStored(t: Table, plan: seq<Task>, k: nat, i: nat)
    requires UniqueIds(plan) && k <= |plan| && i < |plan| && plan[i].id !in t.rows
    ensures plan[i].id in InsertAll(t, plan[..k]).rows <==> i < k
  {
    InsertAllKeys(t, plan[..k]);
    if i < k {
      assert plan[..k][i] == plan[i];
    } else {
      forall x | x in plan[..k]
        ensures x.id != plan[i].id
      {
        var j :| 0 <= j < k && plan[j] == x;
      }
    }
  }

  lemma PrefixAllOrNothing(t: Table, batch: seq<Task>, k: nat)
    requires Admitted(t.rows, batch)
    requires Plan(batch, t.rows.Keys).Some? && k <= |Plan(batch, t.rows.Keys).value|
    ensures var after := InsertAll(t, Plan(batch, t.rows.Keys).value[..k]).rows;
            (NoneStored(after, batch) <==> k == 0) && (AllStored(after, batch) <==> k == |batch|)
  {
    PlanOfAdmitted(t.rows, batch);
    var plan := Plan(batch, t.rows.Keys).value;
    var after := InsertAll(t, plan[..k]).rows;
    hide Admitted, InsertAll, UniqueIds;
    forall x | x in batch
      ensures exists i :: 0 <= i < |plan| && plan[i] == x && (x.id in after <==> i < k)
    {
      assert x in plan;
      var i :| 0 <= i < |plan| && plan[i] == x;
      PrefixStored(t, plan, k, i);
    }
    assert plan[0] in batch && plan[|plan| - 1] in batch;
    PrefixStored(t, plan, k, 0);
    PrefixStored(t, plan, k, |plan| - 1);
  }

  lemma LeadIsWrittenFirst(rows: Rows, batch: seq<Task>)
    requires Admitted(rows, batch)
    ensures Plan(batch, rows.Keys).Some? && Plan(batch, rows.Keys).value != []
    ensures Lead(batch, rows.Keys) == Some(Plan(batch, rows.Keys).value[0])
  {
    AdmittedHasPlan(rows, batch);
    ChooseStartsWithLead(batch, rows.Keys);
    hide Admitted, Lead, Ids, Choose;
  }

  /** How much of a plan a crash or a refused write leaves behind. */
  lemma HowManyReached(plan: seq<Task>, writes: nat)
    requires plan != []
    ensures var k := |Reached(plan, writes)|;
      && Reached(plan, writes) == plan[..k]
      && (k == 0 <==> writes == 0 || !NoRepeat(plan[0].dependencies))
      && (k == |plan| <==> writes >= |plan| && forall x :: x in plan ==> NoRepeat(x.dependencies))
  {
    WrittenIsClean(plan);
    assert |Written(plan)| == |plan| <==> Written(plan) == plan;
  }

  /** A batch that passes the checks is stored in full or not at all if and
      only if the process lives to make no write, or the first task to be
      written repeats a dependency, or it lives to make them all and no task
      repeats a dependency. */
  lemma AllOrNothing(t: Table, batch: seq<Task>, writes: nat)
    requires Admitted(t.rows, batch)
    ensures var after := Added(t, batch, writes).rows; var lead := Lead(batch, t.rows.Keys);
      && lead.Some?
      && (NoneStored(after, batch) || AllStored(after, batch) <==>
            || writes == 0
            || !NoRepeat(lead.value.dependencies)
            || (writes >= |batch| && forall x :: x in batch ==> NoRepeat(x.dependencies)))
  {
    LeadIsWrittenFirst(t.rows, batch);
    PlanOfAdmitted(t.rows, batch);
    var plan := Plan(batch, t.rows.Keys).value;
    HowManyReached(plan, writes);
    PrefixAllOrNothing(t, batch, |Reached(plan, writes)|);
    hide Admitted, NoneStored, AllStored, Lead, Plan, Reached, InsertAll;
  }

  function NewTask(id: nat, dependencies: seq<nat>): Task {
    Task(id, 0, 0, 0, dependencies, Pending, 0, 2, None, None, None, None)
  }

  lemma PairIsAdmitted(dependencies: seq<nat>)
    requires dependencies != [] && Within(dependencies, {1})
    ensures Admitted(map[], [NewTask(1, []), NewTask(2, dependencies)])
    ensures Lead([NewTask(1, []), NewTask(2, dependencies)], {}) == Some(NewTask(1, []))
  {
    var a, b := NewTask(1, []), NewTask(2, dependencies);
    assert a in [a, b] && b in [a, b];
    var none: Rows := map[];
    assert none.Keys == {} && none.Keys + Ids([a, b]) == Ids([a, b]) == {1, 2};
    DependencyErrorMeaning([a, b], Ids([a, b]));
    var g := Combined(map[], [a, b]);
    CombinedContents(map[], [a, b]);
    assert Deps(g, 1) == [] && Deps(g, 2) == dependencies && [1, 2][..1] == [1];
    assert Topological(g, [1, 2]);
    TopologicalIsAcyclic(g, [1, 2]);
  }

  /** Two batches that pass every check and end half stored: one because its
      second task names the first twice, one because the process dies between
      the two writes. */
  lemma TornBatches(writes: nat)
    requires writes >= 1
    ensures var after := Added(EMPTY_TABLE, [NewTask(1, []), NewTask(2, [1, 1])], writes).rows;
            && !NoneStored(after, [NewTask(1, []), NewTask(2, [1, 1])])
            && !AllStored(after, [NewTask(1, []), NewTask(2, [1, 1])])
    ensures var after := Added(EMPTY_TABLE, [NewTask(1, []), NewTask(2, [1])], 1).rows;
            && !NoneStored(after, [NewTask(1, []), NewTask(2, [1])])
            && !AllStored(after, [NewTask(1, []), NewTask(2, [1])])
  {
    var a, twice, once := NewTask(1, []), NewTask(2, [1, 1]), NewTask(2, [1]);
    PairIsAdmitted([1, 1]);
    PairIsAdmitted([1]);
    assert twice in [a, twice] && twice.dependencies[0] == twice.dependencies[1];
    assert EMPTY_TABLE.rows.Keys == {};
    hide Admitted, NoneStored, AllStored, Lead, Added;
    AllOrNothing(EMPTY_TABLE, [a, twice], writes);
    AllOrNothing(EMPTY_TABLE, [a, once], 1);
  }
}
