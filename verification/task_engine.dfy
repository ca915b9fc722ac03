/** The task engine over one mission's task table. The process may die before
    any durable write: budget is the number of writes it still lives to see.
    Every method states its whole effect, complete or cut short, as one
    operation of TaskRuns. */
module TaskEngine {
  import opened Prelude
  import opened Graphs
  import opened TaskGraph
  import opened TaskTable
  import opened TaskListing
  import opened TaskAdmission
  import opened TaskRuns

  /** parent -> children, as the cancellation search builds it */
  type Children = map<nat, seq<nat>>

  function Kids(children: Children, n: nat): seq<nat> {
    if n in children then children[n] else []
  }

  // ---- termination of a search without a visited set: count the walks

  /** Every node of s has rank bound or more. */
  ghost predicate Above(rank: map<nat, nat>, s: seq<nat>, bound: nat) {
    forall n :: n in s ==> n in rank && bound <= rank[n]
  }

  /** Children are younger rows, so walks are finite. */
  ghost predicate Forward(children: Children, rank: map<nat, nat>, top: nat) {
    forall n :: n in rank ==> rank[n] < top && Above(rank, Kids(children, n), rank[n] + 1)
  }

  /** Number of walks that start at a node of s; the bound on the ranks of s
      only serves termination. */
  ghost function WalksFrom(children: Children, rank: map<nat, nat>, top: nat, s: seq<nat>, bound: nat): nat
    requires Forward(children, rank, top) && bound <= top && Above(rank, s, bound)
    decreases top - bound, |s|
  {
    if s == [] then 0
    else 1 + WalksFrom(children, rank, top, Kids(children, s[0]), rank[s[0]] + 1)
           + WalksFrom(children, rank, top, s[1..], bound)
  }

  lemma {:induction false} BoundIsIrrelevant(children: Children, rank: map<nat, nat>, top: nat, s: seq<nat>, bound: nat)
    requires Forward(children, rank, top) && bound <= top && Above(rank, s, bound)
    ensures WalksFrom(children, rank, top, s, bound) == WalksFrom(children, rank, top, s, 0)
    decreases |s|
  {
    if s != [] {
      BoundIsIrrelevant(children, rank, top, s[1..], bound);
    }
  }

  lemma {:induction false} WalksConcat(children: Children, rank: map<nat, nat>, top: nat, s: seq<nat>, t: seq<nat>)
    requires Forward(children, rank, top) && Above(rank, s, 0) && Above(rank, t, 0)
    ensures WalksFrom(children, rank, top, s + t, 0) ==
              WalksFrom(children, rank, top, s, 0) + WalksFrom(children, rank, top, t, 0)
    decreases |s|
  {
    if s == [] {
      assert s + t == t;
    } else {
      assert (s + t)[1..] == s[1..] + t;
      WalksConcat(children, rank, top, s[1..], t);
    }
  }

  /** Taking one node off the queue and appending its children loses exactly
      one walk. */
  lemma QueueLosesOneWalk(children: Children, rank: map<nat, nat>, top: nat, queue: seq<nat>)
    requires Forward(children, rank, top) && queue != [] && Above(rank, queue, 0)
    ensures WalksFrom(children, rank, top, queue[1..] + Kids(children, queue[0]), 0) + 1
         == WalksFrom(children, rank, top, queue, 0)
    ensures Above(rank, queue[1..] + Kids(children, queue[0]), 0)
  {
    hide WalksFrom;
    var kids, bound := Kids(children, queue[0]), rank[queue[0]] + 1;
    WalksUnfold(children, rank, top, queue);
    BoundIsIrrelevant(children, rank, top, kids, bound);
    WalksConcat(children, rank, top, queue[1..], kids);
  }

  lemma WalksUnfold(children: Children, rank: map<nat, nat>, top: nat, queue: seq<nat>)
    requires Forward(children, rank, top) && queue != [] && Above(rank, queue, 0)
    ensures rank[queue[0]] < top && Above(rank, Kids(children, queue[0]), rank[queue[0]] + 1)
    ensures WalksFrom(children, rank, top, queue, 0)
         == 1 + WalksFrom(children, rank, top, Kids(children, queue[0]), rank[queue[0]] + 1)
            + WalksFrom(children, rank, top, queue[1..], 0)
  {
    assert Above(rank, Kids(children, queue[0]), rank[queue[0]] + 1);
  }

  /** The inner loop of the pass: one task under each of its dependencies. */
  method AddChild(before: Children, id: nat, dependencies: seq<nat>) returns (children: Children)
    ensures forall d, c :: c in Kids(children, d) <==> c in Kids(before, d) || (c == id && d in dependencies)
  {
    children := before;
    for j := 0 to |dependencies|
      invariant forall d, c :: c in Kids(children, d) <==> c in Kids(before, d) || (c == id && d in dependencies[..j])
    {
      assert dependencies[..j + 1] == dependencies[..j] + [dependencies[j]];
      var bigger := children[dependencies[j] := Kids(children, dependencies[j]) + [id]];
      assert forall d :: Kids(bigger, d) == if d == dependencies[j] then Kids(children, d) + [id]
                                            else Kids(children, d);
      children := bigger;
    }
    assert dependencies[..|dependencies|] == dependencies;
  }

  // ---- the rounds of add_tasks

  /** done is stored, pending is what the remaining rounds write. */
  ghost predicate Persisting(before: Table, current: Table, plan: seq<Task>, done: seq<Task>, pending: seq<Task>,
      writes: nat, left: nat) {
    && Plan(pending, current.rows.Keys).Some?
    && plan == done + Plan(pending, current.rows.Keys).value
    && |done| <= writes && left == writes - |done|
    && Reached(plan, writes) == done + Reached(Plan(pending, current.rows.Keys).value, left)
    && Outcome(plan, writes) == Outcome(Plan(pending, current.rows.Keys).value, left)
    && current == InsertAll(before, done)
  }

  lemma PersistRoundFits(pending: seq<Task>, persisted: set<nat>)
    requires Plan(pending, persisted).Some? && pending != []
    ensures var ready, later := Choose(pending, persisted, true), Choose(pending, persisted, false);
      && ready != [] && |later| < |pending| && (forall t :: t in ready ==> Within(t.dependencies, persisted))
      && Plan(later, persisted + Ids(ready)).Some?
      && Plan(pending, persisted).value == ready + Plan(later, persisted + Ids(ready)).value
  {
    ChooseSplits(pending, persisted);
  }

  lemma PersistStep(before: Table, current: Table, plan: seq<Task>, done: seq<Task>, pending: seq<Task>, writes: nat,
      left: nat)
    requires Persisting(before, current, plan, done, pending, writes, left) && pending != []
    ensures var keys := current.rows.Keys;
      var ready, later := Choose(pending, keys, true), Choose(pending, keys, false);
      if Outcome(ready, left).Ok?
      then && |ready| <= left && Reached(ready, left) == ready
           && InsertAll(current, ready).rows.Keys == keys + Ids(ready)
           && Persisting(before, InsertAll(current, ready), plan, done + ready, later, writes, left - |ready|)
      else && InsertAll(current, Reached(ready, left)) == InsertAll(before, Reached(plan, writes))
           && Outcome(plan, writes) == Outcome(ready, left)
  {
    hide Choose, Reached, Outcome, Written, InsertAll;
    var keys := current.rows.Keys;
    var ready, later := Choose(pending, keys, true), Choose(pending, keys, false);
    PersistRoundFits(pending, keys);
    var rest := Plan(later, keys + Ids(ready)).value;
    OutcomeConcat(ready, rest, left);
    InsertAllConcat(before, done, Reached(ready, left));
    InsertAllConcat(before, done, ready);
    InsertAllKeys(current, ready);
    assert done + (ready + rest) == (done + ready) + rest;
    if Outcome(ready, left).Ok? {
      assert done + (ready + Reached(rest, left - |ready|)) == (done + ready) + Reached(rest, left - |ready|);
    }
  }

  lemma PersistStart(t: Table, plan: seq<Task>, pending: seq<Task>, writes: nat)
    requires Plan(pending, t.rows.Keys) == Some(plan)
    ensures Persisting(t, t, plan, [], pending, writes, writes)
  {
    assert [] + plan == plan && [] + Reached(plan, writes) == Reached(plan, writes);
  }

  lemma PersistingHasPlan(before: Table, current: Table, plan: seq<Task>, done: seq<Task>, pending: seq<Task>,
      writes: nat, left: nat)
    requires Persisting(before, current, plan, done, pending, writes, left)
    ensures Plan(pending, current.rows.Keys).Some?
  {
  }

  lemma PersistEnd(before: Table, current: Table, plan: seq<Task>, done: seq<Task>, writes: nat, left: nat)
    requires Persisting(before, current, plan, done, [], writes, left)
    ensures current == InsertAll(before, Reached(plan, writes)) && Outcome(plan, writes) == Ok(())
  {
    assert done + [] == done;
  }

  // ---- a sweep over a listing that writes the chosen rows one by one

  /** The first writes of a list, as many as the process lives to make. */
  function Upto(s: seq<nat>, writes: nat): seq<nat> {
    if writes < |s| then s[..writes] else s
  }

  /** After k listed rows: the chosen ones among them were written. */
  ghost predicate Sweep(ids: seq<nat>, k: nat, chosen: set<nat>, written: seq<nat>, writes: nat, left: nat) {
    k <= |ids| && written == Filter(ids[..k], chosen) && |written| <= writes && left == writes - |written|
  }

  lemma SweepStep(ids: seq<nat>, k: nat, chosen: set<nat>, written: seq<nat>, writes: nat, left: nat)
    requires Sweep(ids, k, chosen, written, writes, left) && k < |ids|
    ensures ids[k] !in chosen ==> Sweep(ids, k + 1, chosen, written, writes, left)
    ensures ids[k] in chosen && left > 0 ==> Sweep(ids, k + 1, chosen, written + [ids[k]], writes, left - 1)
    ensures ids[k] in chosen && left == 0 ==>
              written == Upto(Filter(ids, chosen), writes) && writes < |Filter(ids, chosen)|
  {
    assert ids[..k + 1][..k] == ids[..k];
    FilterPrefix(ids, k, chosen);
  }

  lemma SweepEnd(ids: seq<nat>, chosen: set<nat>, written: seq<nat>, writes: nat, left: nat)
    requires Sweep(ids, |ids|, chosen, written, writes, left)
    ensures written == Filter(ids, chosen) == Upto(Filter(ids, chosen), writes) && writes >= |Filter(ids, chosen)|
  {
    assert ids[..|ids|] == ids;
  }

  lemma SweepStart(ids: seq<nat>, chosen: set<nat>, writes: nat)
    ensures Sweep(ids, 0, chosen, [], writes, writes)
  {
  }

  lemma NothingSwept(rows: Rows, now: int, base: nat)
    ensures RefreshSome(rows, Elements([]), now) == rows && CancelSome(rows, Elements([]), now) == rows
    ensures RecoverSome(rows, Elements([]), now, base) == rows
  {
  }

  lemma RefreshStep(rows: Rows, done: seq<nat>, id: nat, now: int)
    requires id in rows && Runnable(rows, rows[id], now)
    ensures RefreshSome(rows, Elements(done + [id]), now) ==
              RefreshSome(rows, Elements(done), now)[id := MarkReady(rows[id])]
  {
    assert Elements(done + [id]) == Elements(done) + {id};
  }

  lemma RecoverStep(rows: Rows, done: seq<nat>, id: nat, now: int, base: nat)
    requires id in rows && rows[id].status == Running
    ensures RecoverSome(rows, Elements(done + [id]), now, base)
         == RecoverSome(rows, Elements(done), now, base)[id := FailRow(rows[id], WorkerStopped, true, now, base)]
  {
    assert Elements(done + [id]) == Elements(done) + {id};
  }

  lemma CancelStep(rows: Rows, done: seq<nat>, id: nat, now: int)
    requires id in rows && Cancellable(rows[id])
    ensures CancelSome(rows, Elements(done + [id]), now)
         == CancelSome(rows, Elements(done), now)[id := CancelRow(rows[id], now, Some(MissionCancelled))]
  {
    assert Elements(done + [id]) == Elements(done) + {id};
  }

  function Due(rows: Rows, now: int): set<nat> {
    set id | id in rows && Runnable(rows, rows[id], now)
  }

  function RunningIds(rows: Rows): set<nat> {
    set id | id in rows && rows[id].status == Running
  }

  function Unfinished(rows: Rows): set<nat> {
    set id | id in rows && Cancellable(rows[id])
  }

  /** What refresh_ready returns: every due task, best first. */
  lemma ReadyAreRanked(rows: Rows, rowid: map<nat, nat>, ids: seq<nat>, now: int)
    requires Listing(rows, rowid, ids)
    ensures var ready := Filter(ids, Due(rows, now));
      && Stored(rows, ready)
      && (forall i, j :: 0 <= i < j < |Sorted(rows, ready)| ==>
            var a, b := rows[Sorted(rows, ready)[i]], rows[Sorted(rows, ready)[j]];
            a.priority > b.priority || (a.priority == b.priority && a.createdAt <= b.createdAt))
      && InOrder(rows, rowid, Sorted(rows, ready))
      && multiset(Sorted(rows, ready)) == multiset(ready) && NoRepeat(ready)
      && (forall id :: id in ready <==> id in rows && Runnable(rows, rows[id], now))
  {
    FilterKeepsOrder(rows, rowid, ids, Due(rows, now));
    SortedInOrder(rows, rowid, Filter(ids, Due(rows, now)));
    SortedContents(rows, Filter(ids, Due(rows, now)));
  }

  /** A sweep that nothing cuts short reaches every row it is about. */
  lemma CompleteSweeps(rows: Rows, rowid: map<nat, nat>, ids: seq<nat>, now: int, base: nat)
    requires Listing(rows, rowid, ids)
    ensures RefreshSome(rows, Elements(Filter(ids, Due(rows, now))), now) == Refresh(rows, now)
    ensures RecoverSome(rows, Elements(Filter(ids, RunningIds(rows))), now, base) ==
              RecoverSome(rows, rows.Keys, now, base)
    ensures CancelSome(rows, Elements(Filter(ids, Unfinished(rows))), now) == CancelSome(rows, rows.Keys, now)
  {
    hide Runnable, MarkReady, FailRow, CancelRow, Before, Filter;
  }

  /** The answer of an operation on one task that needs a given status. */
  function Changed(before: Rows, after: Rows, id: nat, needed: Status, writes: nat): Result<Task, AddError> {
    if id !in before then Err(NotFound)
    else if before[id].status != needed then Err(WrongStatus)
    else if writes == 0 || id !in after then Err(Crashed)
    else Ok(after[id])
  }

  class Engine {
    const base: nat
    var tasks: Rows
    var rowid: map<nat, nat>
    var next: nat
    var budget: nat
    ghost var starts: map<nat, nat>
    ghost var backoff: map<nat, nat>

    ghost function View(): Table
      reads this
    {
      Table(tasks, rowid, next, starts, backoff)
    }

    constructor (retryBaseSeconds: nat, writes: nat)
      ensures View() == EMPTY_TABLE && base == retryBaseSeconds && budget == writes
    {
      base, budget := retryBaseSeconds, writes;
      tasks, rowid, next, starts, backoff := map[], map[], 0, map[], map[];
    }

    /** Live to see one more durable write, or not. */
    method Write() returns (alive: bool)
      modifies this`budget
      ensures alive <==> old(budget) > 0
      ensures budget == if alive then old(budget) - 1 else 0
    {
      alive := budget > 0;
      if alive {
        budget := budget - 1;
      }
    }

    /** The stored tasks, ORDER BY priority DESC, rowid. */
    method ListTasks() returns (ids: seq<nat>)
      ensures Listing(tasks, rowid, ids)
      ensures forall i, j :: 0 <= i < j < |ids| ==>
                && ids[i] in tasks && ids[j] in tasks && tasks[ids[i]].priority >= tasks[ids[j]].priority
                && (tasks[ids[i]].priority == tasks[ids[j]].priority ==> Count(rowid, ids[i]) <= Count(rowid, ids[j]))
    {
      ids := [];
      var remaining := tasks.Keys;
      while remaining != {}
        invariant remaining <= tasks.Keys && Stored(tasks, ids)
        invariant forall id :: id in ids <==> id in tasks && id !in remaining
        invariant forall i, j :: 0 <= i < j < |ids| ==> Before(tasks, rowid, ids[i], ids[j])
        invariant forall i, id :: 0 <= i < |ids| && id in remaining ==> Before(tasks, rowid, ids[i], id)
        decreases remaining
      {
        LeastExists(tasks, rowid, remaining);
        var id :| id in remaining && forall other :: other in remaining && other != id ==>
             Before(tasks, rowid, id, other);
        remaining, ids := remaining - {id}, ids + [id];
      }
    }

    /** One transaction: the row, then its dependency edges. */
    method InsertTask(task: Task) returns (r: Result<(), AddError>)
      modifies this`tasks, this`rowid, this`next, this`starts, this`backoff, this`budget
      ensures r == if old(budget) == 0 then Err(Crashed)
                   else if NoRepeat(task.dependencies) && Within(task.dependencies, old(tasks).Keys + {task.id}) then
                     Ok(())
                   else Err(IntegrityError)
      ensures View() == if r.Ok? then Insert(old(View()), task) else old(View())
      ensures tasks == if r.Ok? then old(tasks)[task.id := task] else old(tasks)
      ensures budget == if old(budget) == 0 then 0 else old(budget) - 1
    {
      var alive := Write();
      if !alive {
        return Err(Crashed);
      }
      if !NoRepeat(task.dependencies) || !Within(task.dependencies, tasks.Keys + {task.id}) {
        return Err(IntegrityError);
      }
      tasks := tasks[task.id := task];
      rowid, next := rowid[task.id := next], next + 1;
      starts, backoff := starts[task.id := 0], backoff[task.id := 0];
      return Ok(());
    }

    method AddTasks(batch: seq<Task>) returns (r: Result<(), AddError>)
      modifies this`tasks, this`rowid, this`next, this`starts, this`backoff, this`budget
      ensures r == AddResult(old(tasks), batch, old(budget)) && r != Err(CannotPersist)
      ensures View() == Apply(old(View()), AddBatch(batch, old(budget)), base)
    {
      hide Outcome, Reached;
      if batch == [] {
        return Ok(());
      }
      var check := PreCheck(batch, tasks.Keys);
      if check.Some? {
        return Err(check.value);
      }
      var acyclic, order := RequireAcyclic(Combined(tasks, batch));
      if !acyclic {
        return Err(Cyclic);
      }
      AdmittedHasPlan(tasks, batch);
      r := Persist(batch);
    }

    /** The loop of rounds: everything that can be stored is, until nothing is left. */
    method Persist(batch: seq<Task>) returns (r: Result<(), AddError>)
      requires Plan(batch, tasks.Keys).Some?
      modifies this`tasks, this`rowid, this`next, this`starts, this`backoff, this`budget
      ensures var plan := Plan(batch, old(tasks).Keys).value;
              && View() == InsertAll(old(View()), Reached(plan, old(budget)))
              && r == Outcome(plan, old(budget)) && r != Err(CannotPersist)
    {
      hide Reached, Outcome, Written, InsertAll, Persisting, Choose, Plan;
      var pending, persisted := batch, tasks.Keys;
      ghost var plan := Plan(batch, tasks.Keys).value;
      ghost var done: seq<Task> := [];
      PersistStart(View(), plan, batch, budget);
      while pending != []
        invariant Persisting(old(View()), View(), plan, done, pending, old(budget), budget)
        invariant persisted == tasks.Keys
        decreases |pending|
      {
        assert Plan(pending, persisted).Some? by {
          PersistingHasPlan(old(View()), View(), plan, done, pending, old(budget), budget);
        }
        PersistRoundFits(pending, persisted);
        PersistStep(old(View()), View(), plan, done, pending, old(budget), budget);
        var ready := Choose(pending, persisted, true);
        if ready == [] {
          return Err(CannotPersist);
        }
        var later := Choose(pending, persisted, false);
        r := PersistRound(ready);
        if r.Err? {
          return;
        }
        pending, persisted, done := later, persisted + Ids(ready), done + ready;
      }
      PersistEnd(old(View()), View(), plan, done, old(budget), budget);
      return Ok(());
    }

    /** One round: each ready task in turn, until a write is refused or the
        process dies. */
    method PersistRound(ready: seq<Task>) returns (r: Result<(), AddError>)
      requires forall t :: t in ready ==> Within(t.dependencies, tasks.Keys)
      modifies this`tasks, this`rowid, this`next, this`starts, this`backoff, this`budget
      ensures View() == InsertAll(old(View()), Reached(ready, old(budget)))
      ensures r == Outcome(ready, old(budget)) && r != Err(CannotPersist)
      ensures r.Ok? ==> budget == old(budget) - |ready|
    {
      for k := 0 to |ready|
        invariant View() == InsertAll(old(View()), ready[..k]) && Written(ready[..k]) == ready[..k]
        invariant k <= old(budget) && budget == old(budget) - k
        invariant old(tasks).Keys <= tasks.Keys
      {
        assert ready[k] in ready;
        WriteStep(old(View()), ready, k);
        StopAt(ready, k, old(budget));
        r := InsertTask(ready[k]);
        if r.Err? {
          return;
        }
      }
      assert ready[..|ready|] == ready;
      return Ok(());
    }

    /** Promote every runnable task, judged by the statuses at the start. */
    method RefreshReady(now: int) returns (r: Result<seq<nat>, AddError>, ghost ids: seq<nat>)
      modifies this`tasks, this`budget
      ensures Listing(old(tasks), rowid, ids)
      ensures var due := Filter(ids, Due(old(tasks), now));
              && View() == Apply(old(View()), TaskRuns.RefreshReady(now, Elements(Upto(due, old(budget)))), base)
              && r == if old(budget) < |due| then Err(Crashed) else Ok(Sorted(old(tasks), due))
    {
      hide Listing, Before, Runnable, MarkReady, Filter, Upto, Sweep, RefreshSome, Added, Below, Recovered, CancelSome,
           Elements;
      var listed := ListTasks();
      ids := listed;
      ListingIsStored(tasks, rowid, ids);
      var before, ready := tasks, [];
      NothingSwept(before, now, base);
      SweepStart(ids, Due(before, now), budget);
      for k := 0 to |listed|
        invariant Sweep(ids, k, Due(before, now), ready, old(budget), budget)
        invariant tasks == RefreshSome(before, Elements(ready), now) && Stored(before, ready)
      {
        var id := listed[k];
        assert id in ids;
        SweepStep(ids, k, Due(before, now), ready, old(budget), budget);
        if Runnable(before, before[id], now) {
          var alive := Write();
          if !alive {
            return Err(Crashed), ids;
          }
          RefreshStep(before, ready, id, now);
          tasks := tasks[id := MarkReady(before[id])];
          ready := ready + [id];
        }
      }
      SweepEnd(ids, Due(before, now), ready, old(budget), budget);
      return Ok(Sorted(before, ready)), ids;
    }

    method Claim(id: nat, now: int) returns (r: Result<Task, AddError>)
      modifies this`tasks, this`starts, this`budget
      ensures View() == if r == Err(Crashed) then old(View()) else Apply(old(View()), TaskRuns.Claim(id, now), base)
      ensures r == Changed(old(tasks), tasks, id, Ready, old(budget))
    {
      if id !in tasks {
        return Err(NotFound);
      }
      if tasks[id].status != Ready {
        return Err(WrongStatus);
      }
      var alive := Write();
      if !alive {
        return Err(Crashed);
      }
      tasks := tasks[id := Start(tasks[id], now)];
      starts := starts[id := Count(starts, id) + 1];
      return Ok(tasks[id]);
    }

    method Succeed(id: nat, now: int) returns (r: Result<Task, AddError>)
      modifies this`tasks, this`budget
      ensures View() == if r == Err(Crashed) then old(View()) else Apply(old(View()), TaskRuns.Succeed(id, now), base)
      ensures r == Changed(old(tasks), tasks, id, Running, old(budget))
    {
      if id !in tasks {
        return Err(NotFound);
      }
      if tasks[id].status != Running {
        return Err(WrongStatus);
      }
      var alive := Write();
      if !alive {
        return Err(Crashed);
      }
      tasks := tasks[id := Finish(tasks[id], now)];
      return Ok(tasks[id]);
    }

    method Fail(id: nat, error: Reason, retryable: bool, now: int) returns (r: Result<Task, AddError>)
      modifies this`tasks, this`backoff, this`budget
      ensures View() == if r == Err(Crashed) then old(View())
                        else Apply(old(View()), TaskRuns.Fail(id, error, retryable, now), base)
      ensures r == Changed(old(tasks), tasks, id, Running, old(budget))
    {
      if id !in tasks {
        return Err(NotFound);
      }
      var t := tasks[id];
      if t.status != Running {
        return Err(WrongStatus);
      }
      ghost var delay := Delay(t, retryable, base);
      t := t.(retryCount := t.retryCount + 1);
      var canRetry := retryable && t.retryCount <= t.maxRetries;
      t := t.(status := if canRetry then FailedRetryable else FailedPermanent,
              finishedAt := Some(now), error := Some(error),
              retryAfter := if canRetry then Some(now + Wait(base, t.retryCount - 1)) else None);
      var alive := Write();
      if !alive {
        return Err(Crashed);
      }
      tasks := tasks[id := t];
      backoff := backoff[id := Count(backoff, id) + delay];
      return Ok(t);
    }

    /** The loop of recover_running over the listing. */
    method FailRunning(now: int) returns (r: Result<seq<nat>, AddError>, ghost ids: seq<nat>)
      modifies this`tasks, this`budget
      ensures Listing(old(tasks), rowid, ids)
      ensures var running := Filter(ids, RunningIds(old(tasks)));
              && tasks == RecoverSome(old(tasks), Elements(Upto(running, old(budget))), now, base)
              && r == if old(budget) < |running| then Err(Crashed) else Ok(running)
    {
      hide FailRow, Listing, Before, Filter, Upto, Sweep, RecoverSome, Elements;
      var listed := ListTasks();
      ids := listed;
      ListingIsStored(tasks, rowid, ids);
      var before, recovered := tasks, [];
      NothingSwept(before, now, base);
      SweepStart(ids, RunningIds(before), budget);
      for k := 0 to |listed|
        invariant Sweep(ids, k, RunningIds(before), recovered, old(budget), budget)
        invariant tasks == RecoverSome(before, Elements(recovered), now, base)
      {
        var id := listed[k];
        assert id in ids;
        SweepStep(ids, k, RunningIds(before), recovered, old(budget), budget);
        if before[id].status == Running {
          var alive := Write();
          if !alive {
            return Err(Crashed), ids;
          }
          RecoverStep(before, recovered, id, now, base);
          tasks := tasks[id := FailRow(before[id], WorkerStopped, true, now, base)];
          recovered := recovered + [id];
        }
      }
      SweepEnd(ids, RunningIds(before), recovered, old(budget), budget);
      return Ok(recovered), ids;
    }

    /** After a restart: every RUNNING task counts as a retryable failure. */
    method RecoverRunning(now: int) returns (r: Result<seq<nat>, AddError>, ghost ids: seq<nat>)
      modifies this`tasks, this`backoff, this`budget
      ensures Listing(old(tasks), rowid, ids)
      ensures var running := Filter(ids, RunningIds(old(tasks)));
              && View() == Apply(old(View()), TaskRuns.RecoverRunning(now, Elements(Upto(running, old(budget)))), base)
              && r == if old(budget) < |running| then Err(Crashed) else Ok(running)
    {
      hide Added, RecoverSome, Listing, Filter;
      r, ids := FailRunning(now);
      ghost var reached := Elements(Upto(Filter(ids, RunningIds(old(tasks))), old(budget)));
      backoff := Recovered(old(View()), reached, now, base).backoff;
    }

    method CancelMission(now: int) returns (r: Result<seq<nat>, AddError>, ghost ids: seq<nat>)
      modifies this`tasks, this`budget
      ensures Listing(old(tasks), rowid, ids)
      ensures var unfinished := Filter(ids, Unfinished(old(tasks)));
              var reached := Elements(Upto(unfinished, old(budget)));
              && View() == Apply(old(View()), TaskRuns.CancelMission(now, reached), base)
              && r == if old(budget) < |unfinished| then Err(Crashed) else Ok(unfinished)
    {
      hide CancelRow, Listing, Before, Filter, Upto, Sweep, CancelSome, Elements, Added, Below, Recovered, RefreshSome;
      var listed := ListTasks();
      ids := listed;
      ListingIsStored(tasks, rowid, ids);
      var before, cancelled := tasks, [];
      NothingSwept(before, now, base);
      SweepStart(ids, Unfinished(before), budget);
      for k := 0 to |listed|
        invariant Sweep(ids, k, Unfinished(before), cancelled, old(budget), budget)
        invariant tasks == CancelSome(before, Elements(cancelled), now)
      {
        var id := listed[k];
        assert id in ids;
        SweepStep(ids, k, Unfinished(before), cancelled, old(budget), budget);
        if Cancellable(before[id]) {
          var alive := Write();
          if !alive {
            return Err(Crashed), ids;
          }
          CancelStep(before, cancelled, id, now);
          tasks := tasks[id := CancelRow(before[id], now, Some(MissionCancelled))];
          cancelled := cancelled + [id];
        }
      }
      SweepEnd(ids, Unfinished(before), cancelled, old(budget), budget);
      return Ok(cancelled), ids;
    }

    /** dependency -> dependents, from one pass over the table. */
    method BuildChildren() returns (children: Children)
      ensures forall d, c :: c in Kids(children, d) <==> c in tasks && d in tasks[c].dependencies
    {
      var ids := ListTasks();
      children := map[];
      for k := 0 to |ids|
        invariant forall d, c :: c in Kids(children, d) <==> c in ids[..k] && d in tasks[c].dependencies
      {
        assert ids[..k + 1] == ids[..k] + [ids[k]] && ids[k] in ids;
        children := AddChild(children, ids[k], tasks[ids[k]].dependencies);
      }
      assert ids[..|ids|] == ids;
    }

    /** Breadth-first cancellation; the queue may hold a task many times, and
        nothing records which tasks were seen. reached are the tasks it took
        off the queue. */
    method CancelFrom(root: nat, now: int) returns (r: Result<seq<nat>, AddError>, ghost reached: set<nat>)
      requires WellFormed(tasks, rowid, next)
      modifies this`tasks, this`budget
      ensures root !in old(tasks) ==> r == Err(NotFound) && View() == old(View())
      ensures root in old(tasks) ==> View() == Apply(old(View()), TaskRuns.CancelFrom(root, now, reached), base)
      ensures root in old(tasks) ==> reached <= Below(old(tasks), root)
      ensures r.Ok? ==> reached == Below(old(tasks), root) && NoRepeat(r.value)
      ensures r.Ok? ==> forall id :: id in r.value <==> id in Below(old(tasks), root) && Cancellable(old(tasks)[id])
      ensures root in old(tasks) && r.Err? ==>
                r.error == Crashed && |reached * Unfinished(old(tasks))| == old(budget)
                && !(Below(old(tasks), root) * Unfinished(old(tasks)) <= reached)
    {
      hide Cancelling, Searching, Below, CancelSet, CancelRow, Above, Forward, WalksFrom, WellFormed, Added, Recovered,
           Unfinished;
      reached := {};
      if root !in tasks {
        return Err(NotFound), {};
      }
      var children := BuildChildren();
      ghost var before, rank, top := tasks, rowid, next;
      ChildrenAreYounger(children, before, rank, top);
      var queue, cancelled := [root], [];
      CancelStart(before, rank, root, now);
      while queue != []
        invariant Cancelling(before, tasks, queue, reached, cancelled, root, now)
        invariant |cancelled| <= old(budget) && budget == old(budget) - |cancelled|
        invariant Above(rank, queue, 0)
        decreases WalksFrom(children, rank, top, queue, 0)
      {
        var current := queue[0];
        QueueIsStored(before, tasks, queue, reached, cancelled, root, now);
        var task := tasks[current];
        QueueLosesOneWalk(children, rank, top, queue);
        CancelOne(before, tasks, queue, reached, cancelled, root, now, Kids(children, current));
        if Cancellable(task) {
          var alive := Write();
          if !alive {
            CancelCut(before, tasks, queue, reached, cancelled, root, now);
            return Err(Crashed), reached;
          }
          tasks := tasks[current := CancelRow(task, now, task.error)];
          cancelled := cancelled + [current];
        }
        reached := reached + {current};
        queue := queue[1..] + Kids(children, current);
      }
      CancelEnd(before, tasks, reached, cancelled, root, now);
      return Ok(cancelled), reached;
    }
  }

  /** The invariant of the cancellation loop; done holds the dequeued tasks. */
  ghost predicate Cancelling(before: Rows, tasks: Rows, queue: seq<nat>, done: set<nat>, cancelled: seq<nat>, root: nat,
      now: int) {
    && Searching(Unlocks(before), queue, done, root)
    && (forall n :: n in queue ==> n in before)
    && tasks == CancelSet(before, done, now)
    && NoRepeat(cancelled)
    && (forall id :: id in cancelled <==> id in done && id in before && Cancellable(before[id]))
  }

  lemma CancelStart(before: Rows, rank: map<nat, nat>, root: nat, now: int)
    requires root in before && rank.Keys == before.Keys
    ensures Cancelling(before, before, [root], {}, [], root, now) && Above(rank, [root], 0)
  {
    ReachesSelf(Unlocks(before), root);
  }

  lemma QueueIsStored(before: Rows, tasks: Rows, queue: seq<nat>, done: set<nat>, cancelled: seq<nat>, root: nat,
      now: int)
    requires Cancelling(before, tasks, queue, done, cancelled, root, now) && queue != []
    ensures queue[0] in tasks
  {
  }

  lemma CancelOne(before: Rows, tasks: Rows, queue: seq<nat>, done: set<nat>, cancelled: seq<nat>, root: nat, now: int,
      kids: seq<nat>)
    requires Cancelling(before, tasks, queue, done, cancelled, root, now) && queue != []
    requires forall c :: c in kids <==> c in before && queue[0] in before[c].dependencies
    ensures var n := queue[0];
      if Cancellable(tasks[n])
      then var cut := tasks[n := CancelRow(tasks[n], now, tasks[n].error)];
           Cancelling(before, cut, queue[1..] + kids, done + {n}, cancelled + [n], root, now)
      else Cancelling(before, tasks, queue[1..] + kids, done + {n}, cancelled, root, now)
  {
    SearchStep(Unlocks(before), queue, done, root, kids);
    CancelSetStep(before, done, queue[0], now);
  }

  lemma SizeOf(s: seq<nat>)
    requires NoRepeat(s)
    ensures |Elements(s)| == |s|
  {
    if s != [] {
      var n := |s| - 1;
      assert forall i :: 0 <= i < n ==> s[..n][i] == s[i];
      SizeOf(s[..n]);
      assert s == s[..n] + [s[n]] && s[n] !in s[..n];
      assert Elements(s) == Elements(s[..n]) + {s[n]};
    }
  }

  /** Dying before the write of the task at the head of the queue. */
  lemma CancelCut(before: Rows, tasks: Rows, queue: seq<nat>, done: set<nat>, cancelled: seq<nat>, root: nat, now: int)
    requires Cancelling(before, tasks, queue, done, cancelled, root, now) && root in before
    requires queue != [] && Cancellable(tasks[queue[0]])
    ensures done <= Below(before, root) && tasks == CancelSet(before, Below(before, root) * done, now)
    ensures |done * Unfinished(before)| == |cancelled| && !(Below(before, root) * Unfinished(before) <= done)
  {
    forall n | Reaches(Unlocks(before), root, n) ensures n in before { ReachesStoredOnly(before, root, n); }
    assert Below(before, root) * done == done;
    SizeOf(cancelled);
    assert Elements(cancelled) == done * Unfinished(before);
    assert queue[0] in Below(before, root) * Unfinished(before) && queue[0] !in done;
  }

  lemma CancelEnd(before: Rows, tasks: Rows, done: set<nat>, cancelled: seq<nat>, root: nat, now: int)
    requires Cancelling(before, tasks, [], done, cancelled, root, now) && root in before
    ensures NoRepeat(cancelled) && done == Below(before, root)
            && tasks == CancelSet(before, Below(before, root) * done, now)
    ensures forall id :: id in cancelled <==> id in Below(before, root) && Cancellable(before[id])
  {
    SearchDone(Unlocks(before), done, root);
    forall n | n in done ensures n in before { ReachesStoredOnly(before, root, n); }
    assert done == Below(before, root);
  }

  lemma ChildrenAreYounger(children: Children, rows: Rows, rowid: map<nat, nat>, next: nat)
    requires WellFormed(rows, rowid, next)
    requires forall d, c :: c in Kids(children, d) <==> c in rows && d in rows[c].dependencies
    ensures Forward(children, rowid, next) && rowid.Keys == rows.Keys
  {
  }
}
