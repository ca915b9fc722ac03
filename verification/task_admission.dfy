/** How a batch of new tasks enters the table: the checks before the first
    write, and the rounds in which the writes then happen. */
module TaskAdmission {
  import opened Prelude
  import opened Graphs
  import opened TaskGraph
  import opened TaskTable

  datatype AddError =
    | MixedMissions | DuplicateInBatch | AlreadyExists
    | UnknownDependencies(id: nat) | SelfDependency(id: nat)
    | Cyclic | CannotPersist | IntegrityError | NotFound | WrongStatus | Crashed

  function Ids(tasks: seq<Task>): (ids: set<nat>)
    ensures forall t :: t in tasks ==> t.id in ids
  {
    set t | t in tasks :: t.id
  }

  predicate UniqueIds(tasks: seq<Task>) {
    forall i, j :: 0 <= i < j < |tasks| ==> tasks[i].id != tasks[j].id
  }

  predicate Within(s: seq<nat>, known: set<nat>) {
    forall d :: d in s ==> d in known
  }

  // ---- checks, in the order in which the engine makes them

  predicate RaisedByCheck(e: Option<AddError>) {
    e.Some? ==> !e.value.Cyclic? && !e.value.CannotPersist? && !e.value.IntegrityError? && !e.value.Crashed?
  }

  function DependencyError(tasks: seq<Task>, known: set<nat>): (e: Option<AddError>)
    ensures RaisedByCheck(e)
  {
    if tasks == [] then None
    else if !Within(tasks[0].dependencies, known) then Some(UnknownDependencies(tasks[0].id))
    else if tasks[0].id in tasks[0].dependencies then Some(SelfDependency(tasks[0].id))
    else DependencyError(tasks[1..], known)
  }

  lemma {:induction false} DependencyErrorMeaning(tasks: seq<Task>, known: set<nat>)
    ensures DependencyError(tasks, known).None? <==>
              forall t :: t in tasks ==> Within(t.dependencies, known) && t.id !in t.dependencies
  {
    if tasks != [] {
      assert tasks == [tasks[0]] + tasks[1..];
      DependencyErrorMeaning(tasks[1..], known);
    }
  }

  function PreCheck(tasks: seq<Task>, existing: set<nat>): (e: Option<AddError>)
    ensures RaisedByCheck(e)
  {
    if exists i, j :: 0 <= i < |tasks| && 0 <= j < |tasks| && tasks[i].mission != tasks[j].mission then
      Some(MixedMissions)
    else if !UniqueIds(tasks) then Some(DuplicateInBatch)
    else if exists t :: t in tasks && t.id in existing then Some(AlreadyExists)
    else DependencyError(tasks, existing + Ids(tasks))
  }

  /** Which of the checks speaks, and when none does. */
  lemma PreCheckMeaning(tasks: seq<Task>, existing: set<nat>)
    ensures var e := PreCheck(tasks, existing);
            var mixed := exists x, y :: x in tasks && y in tasks && x.mission != y.mission;
            var twice := exists i, j :: 0 <= i < j < |tasks| && tasks[i].id == tasks[j].id;
            var known := exists x :: x in tasks && x.id in existing;
            && (e == Some(MixedMissions) <==> mixed)
            && (e == Some(DuplicateInBatch) <==> !mixed && twice)
            && (e == Some(AlreadyExists) <==> !mixed && !twice && known)
            && (e.None? <==>
                  && !mixed && !twice && !known
                  && forall x, d :: x in tasks && d in x.dependencies ==>
                       d != x.id && (d in existing || d in Ids(tasks)))
  {
    DependencyErrorMeaning(tasks, existing + Ids(tasks));
    DependencyErrorKind(tasks, existing + Ids(tasks));
    hide DependencyError, Ids;
    if x, y :| x in tasks && y in tasks && x.mission != y.mission {
      var i :| 0 <= i < |tasks| && tasks[i] == x;
      var j :| 0 <= j < |tasks| && tasks[j] == y;
    }
  }

  lemma {:induction false} DependencyErrorKind(tasks: seq<Task>, known: set<nat>)
    ensures var e := DependencyError(tasks, known); e.Some? ==> e.value.UnknownDependencies? || e.value.SelfDependency?
  {
    if tasks != [] {
      DependencyErrorKind(tasks[1..], known);
    }
  }

  function Combined(rows: Rows, tasks: seq<Task>): Graph
    decreases |tasks|
  {
    if tasks == [] then GraphOf(rows)
    else Combined(rows, tasks[1..])[tasks[0].id := tasks[0].dependencies]
  }

  lemma {:induction false} CombinedContents(rows: Rows, tasks: seq<Task>)
    requires UniqueIds(tasks)
    ensures Combined(rows, tasks).Keys == rows.Keys + Ids(tasks)
    ensures forall t :: t in tasks ==> Combined(rows, tasks)[t.id] == t.dependencies
    decreases |tasks|
  {
    if tasks != [] {
      assert tasks == [tasks[0]] + tasks[1..];
      CombinedContents(rows, tasks[1..]);
      assert Ids(tasks) == {tasks[0].id} + Ids(tasks[1..]);
    }
  }

  // ---- the rounds of writes

  function Choose(pending: seq<Task>, persisted: set<nat>, ready: bool): (r: seq<Task>)
    ensures |r| <= |pending|
  {
    if pending == [] then []
    else
      var rest := Choose(pending[1..], persisted, ready);
      if Within(pending[0].dependencies, persisted) == ready then [pending[0]] + rest else rest
  }

  lemma {:induction false} ChooseSplits(pending: seq<Task>, persisted: set<nat>)
    ensures multiset(Choose(pending, persisted, true)) + multiset(Choose(pending, persisted, false)) ==
              multiset(pending)
    ensures forall t :: t in Choose(pending, persisted, true) <==> t in pending && Within(t.dependencies, persisted)
    ensures forall t :: t in Choose(pending, persisted, false) <==> t in pending && !Within(t.dependencies, persisted)
    ensures |Choose(pending, persisted, true)| + |Choose(pending, persisted, false)| == |pending|
  {
    if pending != [] {
      assert pending == [pending[0]] + pending[1..];
      ChooseSplits(pending[1..], persisted);
    }
  }

  lemma {:induction false} ChooseUnique(pending: seq<Task>, persisted: set<nat>, ready: bool)
    requires UniqueIds(pending)
    ensures UniqueIds(Choose(pending, persisted, ready))
  {
    if pending != [] {
      ChooseUnique(pending[1..], persisted, ready);
      ChooseSplits(pending[1..], persisted);
      assert forall t :: t in Choose(pending[1..], persisted, ready) ==> t in pending[1..];
    }
  }

  /** The order of the writes; None is the "cannot be persisted" raise. */
  function Plan(pending: seq<Task>, persisted: set<nat>): Option<seq<Task>>
    decreases |pending|
  {
    var ready := Choose(pending, persisted, true);
    if pending == [] then Some([])
    else if ready == [] then None
    else
      ChooseSplits(pending, persisted);
      match Plan(Choose(pending, persisted, false), persisted + Ids(ready))
      case None => None
      case Some(rest) => Some(ready + rest)
  }

  /** Every dependency is stored or comes earlier. */
  ghost predicate DependenciesFirst(plan: seq<Task>, persisted: set<nat>) {
    forall i, d :: 0 <= i < |plan| && d in plan[i].dependencies ==> d in persisted + Ids(plan[..i])
  }

  lemma DependenciesFirstConcat(ready: seq<Task>, rest: seq<Task>, persisted: set<nat>)
    requires forall t :: t in ready ==> Within(t.dependencies, persisted)
    requires DependenciesFirst(rest, persisted + Ids(ready))
    ensures DependenciesFirst(ready + rest, persisted)
  {
    var plan := ready + rest;
    forall i, d | 0 <= i < |plan| && d in plan[i].dependencies
      ensures d in persisted + Ids(plan[..i])
    {
      if i < |ready| {
        assert plan[i] in ready;
      } else {
        assert plan[..i] == ready + rest[..i - |ready|];
        assert d in persisted + Ids(ready) + Ids(rest[..i - |ready|]);
        if d in Ids(ready) {
          var t :| t in ready && t.id == d;
          assert t in plan[..i];
        } else if d in Ids(rest[..i - |ready|]) {
          var t :| t in rest[..i - |ready|] && t.id == d;
          assert t in plan[..i];
        }
      }
    }
  }

  /** A plan writes each batch task exactly once, dependencies first. */
  lemma {:induction false} PlanIsExact(pending: seq<Task>, persisted: set<nat>)
    requires Plan(pending, persisted).Some?
    ensures var plan := Plan(pending, persisted).value;
            multiset(plan) == multiset(pending) && DependenciesFirst(plan, persisted)
    decreases |pending|
  {
    if pending != [] {
      var ready, later := Choose(pending, persisted, true), Choose(pending, persisted, false);
      ChooseSplits(pending, persisted);
      PlanIsExact(later, persisted + Ids(ready));
      DependenciesFirstConcat(ready, Plan(later, persisted + Ids(ready)).value, persisted);
    }
  }

  lemma UniqueConcat(a: seq<Task>, b: seq<Task>)
    requires UniqueIds(a) && UniqueIds(b)
    requires forall x, y :: x in a && y in b ==> x.id != y.id
    ensures UniqueIds(a + b)
  {
  }

  lemma HalvesShareNoId(pending: seq<Task>, persisted: set<nat>)
    requires UniqueIds(pending)
    ensures forall x, y :: x in Choose(pending, persisted, true) && y in Choose(pending, persisted, false) ==>
              x.id != y.id
  {
    ChooseSplits(pending, persisted);
    hide Choose;
    forall x, y | x in Choose(pending, persisted, true) && y in Choose(pending, persisted, false)
      ensures x.id != y.id
    {
      var i :| 0 <= i < |pending| && pending[i] == x;
      var j :| 0 <= j < |pending| && pending[j] == y;
      assert i != j;
    }
  }

  lemma {:induction false} PlanIsUnique(pending: seq<Task>, persisted: set<nat>)
    requires Plan(pending, persisted).Some? && UniqueIds(pending)
    ensures UniqueIds(Plan(pending, persisted).value)
    decreases |pending|
  {
    hide UniqueIds, Choose, Ids, DependenciesFirst;
    if pending == [] {
      assert UniqueIds([]) by {
        NoneRepeat();
      }
    } else {
      var ready, later := Choose(pending, persisted, true), Choose(pending, persisted, false);
      ChooseSplits(pending, persisted);
      ChooseUnique(pending, persisted, true);
      ChooseUnique(pending, persisted, false);
      HalvesShareNoId(pending, persisted);
      PlanIsUnique(later, persisted + Ids(ready));
      PlanIsExact(later, persisted + Ids(ready));
      var rest := Plan(later, persisted + Ids(ready)).value;
      forall x, y | x in ready && y in rest
        ensures x.id != y.id
      {
        assert y in multiset(rest) && y in multiset(later);
      }
      UniqueConcat(ready, rest);
    }
  }

  lemma NoneRepeat()
    ensures UniqueIds([])
  {
  }

  /** A task that is not ready waits for another pending one. */
  lemma UnreadyHasNext(pending: seq<Task>, persisted: set<nat>, g: Graph, t: Task)
    requires t in pending && t.id in g && g[t.id] == t.dependencies
    requires Within(t.dependencies, persisted + Ids(pending)) && !Within(t.dependencies, persisted)
    ensures HasNext(DependsOn(g), Ids(pending), t.id)
  {
    var d :| d in t.dependencies && d !in persisted;
    assert (t.id, d) in DependsOn(g) && d in Ids(pending);
  }

  /** On an acyclic graph some pending task is always ready. */
  lemma AcyclicIsReady(pending: seq<Task>, persisted: set<nat>, g: Graph)
    requires Acyclic(DependsOn(g)) && pending != []
    requires forall t :: t in pending ==> t.id in g && g[t.id] == t.dependencies
    requires forall t :: t in pending ==> Within(t.dependencies, persisted + Ids(pending))
    ensures Choose(pending, persisted, true) != []
  {
    hide Acyclic, DependsOn, HasNext, Choose;
    ChooseSplits(pending, persisted);
    if Choose(pending, persisted, true) == [] {
      assert pending[0] in pending;
      forall n | n in Ids(pending)
        ensures HasNext(DependsOn(g), Ids(pending), n)
      {
        var t :| t in pending && t.id == n;
        UnreadyHasNext(pending, persisted, g, t);
      }
      EndlessIsCyclic(DependsOn(g), Ids(pending));
    }
  }

  /** On an acyclic graph the rounds never get stuck. */
  lemma {:induction false} AcyclicHasPlan(pending: seq<Task>, persisted: set<nat>, g: Graph)
    requires Acyclic(DependsOn(g))
    requires forall t :: t in pending ==> t.id in g && g[t.id] == t.dependencies
    requires forall t :: t in pending ==> Within(t.dependencies, persisted + Ids(pending))
    ensures Plan(pending, persisted).Some?
    decreases |pending|
  {
    if pending != [] {
      var ready, later := Choose(pending, persisted, true), Choose(pending, persisted, false);
      ChooseSplits(pending, persisted);
      AcyclicIsReady(pending, persisted, g);
      forall t, d | t in later && d in t.dependencies
        ensures d in persisted + Ids(ready) + Ids(later)
      {
        assert d in persisted + Ids(pending);
        if d in Ids(pending) {
          var u :| u in pending && u.id == d;
          assert u in ready || u in later;
        }
      }
      AcyclicHasPlan(later, persisted + Ids(ready), g);
    }
  }

  // ---- what a batch leaves behind when a write is refused

  /** The writes that happen: all of them, or those before the first task
      whose dependency list repeats an id (the edge table has a primary key). */
  function Written(plan: seq<Task>): (w: seq<Task>)
    ensures w <= plan
  {
    if plan == [] || !NoRepeat(plan[0].dependencies) then []
    else [plan[0]] + Written(plan[1..])
  }

  lemma {:induction false} WrittenConcat(a: seq<Task>, b: seq<Task>)
    ensures Written(a + b) == if Written(a) == a then a + Written(b) else Written(a)
  {
    if a == [] {
      assert a + b == b;
    } else {
      assert (a + b)[1..] == a[1..] + b && a == [a[0]] + a[1..];
      WrittenConcat(a[1..], b);
    }
  }

  lemma {:induction false} WrittenIsClean(plan: seq<Task>)
    ensures forall t :: t in Written(plan) ==> NoRepeat(t.dependencies)
    ensures Written(plan) == plan <==> forall t :: t in plan ==> NoRepeat(t.dependencies)
  {
    if plan != [] {
      assert plan == [plan[0]] + plan[1..];
      WrittenIsClean(plan[1..]);
    }
  }

  /** The writes that a process with so many of them left still makes. */
  function Reached(plan: seq<Task>, writes: nat): (w: seq<Task>)
    ensures w <= Written(plan)
  {
    Written(plan)[..if writes < |Written(plan)| then writes else |Written(plan)|]
  }

  /** How the rounds end. A refused write is one more transaction. */
  function Outcome(plan: seq<Task>, writes: nat): Result<(), AddError> {
    var w := Written(plan);
    if w == plan then (if writes < |w| then Err(Crashed) else Ok(()))
    else if writes <= |w| then Err(Crashed)
    else Err(IntegrityError)
  }

  lemma OutcomeConcat(a: seq<Task>, b: seq<Task>, writes: nat)
    ensures if Outcome(a, writes).Ok?
            then |a| <= writes && Reached(a, writes) == a && Reached(a + b, writes) == a + Reached(b, writes - |a|)
                 && Outcome(a + b, writes) == Outcome(b, writes - |a|)
            else Reached(a + b, writes) == Reached(a, writes) && Outcome(a + b, writes) == Outcome(a, writes)
  {
    WrittenConcat(a, b);
    if Written(a) != a {
      assert |Written(a)| < |a|;
      assert Written(a + b) != a + b;
    } else {
      assert Written(a + b) == a + b <==> Written(b) == b;
    }
  }

  /** Where a round that stored its first k tasks stops, if it does. */
  lemma StopAt(plan: seq<Task>, k: nat, writes: nat)
    requires k < |plan| && k <= writes && Written(plan[..k]) == plan[..k]
    ensures writes == k ==> Reached(plan, writes) == plan[..k] && Outcome(plan, writes) == Err(Crashed)
    ensures writes > k && !NoRepeat(plan[k].dependencies) ==>
              Reached(plan, writes) == plan[..k] && Outcome(plan, writes) == Err(IntegrityError)
  {
    assert plan[..k] + plan[k..] == plan;
    WrittenConcat(plan[..k], plan[k..]);
  }

  // ---- effect on the table

  function Insert(t: Table, task: Task): Table {
    t.(rows := t.rows[task.id := task], rowid := t.rowid[task.id := t.next], next := t.next + 1,
       starts := t.starts[task.id := 0], backoff := t.backoff[task.id := 0])
  }

  function InsertAll(t: Table, tasks: seq<Task>): Table
    decreases |tasks|
  {
    if tasks == [] then t else Insert(InsertAll(t, tasks[..|tasks| - 1]), tasks[|tasks| - 1])
  }

  lemma {:induction false} InsertAllConcat(t: Table, a: seq<Task>, b: seq<Task>)
    ensures InsertAll(InsertAll(t, a), b) == InsertAll(t, a + b)
    decreases |b|
  {
    if b == [] {
      assert a + b == a;
    } else {
      var n := |b| - 1;
      assert (a + b)[..|a + b| - 1] == a + b[..n];
      InsertAllConcat(t, a, b[..n]);
    }
  }

  lemma {:induction false} InsertAllKeys(t: Table, tasks: seq<Task>)
    ensures InsertAll(t, tasks).rows.Keys == t.rows.Keys + Ids(tasks)
    decreases |tasks|
  {
    if tasks != [] {
      var n := |tasks| - 1;
      assert tasks == tasks[..n] + [tasks[n]];
      assert Ids(tasks) == Ids(tasks[..n]) + {tasks[n].id};
      InsertAllKeys(t, tasks[..n]);
    }
  }

  /** One write further, or the write that is refused. */
  lemma WriteStep(t: Table, tasks: seq<Task>, k: nat)
    requires k < |tasks| && Written(tasks[..k]) == tasks[..k]
    ensures InsertAll(t, tasks[..k + 1]) == Insert(InsertAll(t, tasks[..k]), tasks[k])
    ensures if NoRepeat(tasks[k].dependencies) then Written(tasks[..k + 1]) == tasks[..k + 1]
            else Written(tasks) == tasks[..k] != tasks
  {
    assert tasks[..k + 1] == tasks[..k] + [tasks[k]] && tasks[..k] + tasks[k..] == tasks;
    assert tasks[..k + 1][..k] == tasks[..k];
    WrittenConcat(tasks[..k], [tasks[k]]);
    WrittenConcat(tasks[..k], tasks[k..]);
  }

  /** A newly created Joust task. */
  predicate Fresh(t: Task) {
    (t.status == Pending || t.status == WaitingApproval) && t.retryCount == 0
  }

  lemma FreshIsAccounted(task: Task, base: nat)
    requires Fresh(task)
    ensures Accounted(task, 0, 0, base) && Timed(task, base)
  {
  }

  lemma InsertKeepsDependencies(t: Table, task: Task)
    requires task.id !in t.rows && !Active(task.status)
    requires forall id :: id in t.rows && Active(t.rows[id].status) ==> DependenciesDone(t.rows, t.rows[id])
    ensures var rows := t.rows[task.id := task];
            forall id :: id in rows && Active(rows[id].status) ==> DependenciesDone(rows, rows[id])
  {
    var rows := t.rows[task.id := task];
    forall id | id in rows && Active(rows[id].status)
      ensures DependenciesDone(rows, rows[id])
    {
      assert DependenciesDone(t.rows, t.rows[id]);
    }
  }

  lemma InsertKeepsLifecycle(t: Table, task: Task, base: nat)
    requires Lifecycle(t, base) && task.id !in t.rows && Fresh(task)
    ensures Lifecycle(Insert(t, task), base)
  {
    hide TotalDelay;
    FreshIsAccounted(task, base);
    hide Accounted, Timed;
    InsertKeepsDependencies(t, task);
    hide DependenciesDone;
  }

  lemma InsertKeepsSound(t: Table, task: Task, base: nat)
    requires Sound(t, base) && task.id !in t.rows && Fresh(task)
    requires NoRepeat(task.dependencies) && Within(task.dependencies, t.rows.Keys)
    ensures Sound(Insert(t, task), base) && Preserves(t.rows, Insert(t, task).rows)
  {
    hide WellFormed, Lifecycle;
    InsertKeepsLifecycle(t, task, base);
    InsertKeepsWellFormed(t, task);
  }

  lemma InsertKeepsWellFormed(t: Table, task: Task)
    requires WellFormed(t.rows, t.rowid, t.next) && task.id !in t.rows
    requires NoRepeat(task.dependencies) && Within(task.dependencies, t.rows.Keys)
    ensures var u := Insert(t, task); WellFormed(u.rows, u.rowid, u.next)
  {
  }
}
