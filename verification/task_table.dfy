/** The task table as a value: rows, insertion order, and two audit counters
    per task (times started, seconds of backoff scheduled). */
module TaskTable {
  import opened Prelude
  import opened Graphs
  import opened TaskGraph

  datatype Status =
    | Pending | Ready | Running | WaitingApproval | Succeeded
    | FailedRetryable | FailedPermanent | Cancelled | Skipped

  datatype Reason = WorkerStopped | MissionCancelled | Reported(text: string)

  datatype Task = Task(
    id: nat, mission: nat, priority: int, createdAt: int, dependencies: seq<nat>, status: Status,
    retryCount: nat, maxRetries: nat,
    startedAt: Option<int>, finishedAt: Option<int>, retryAfter: Option<int>, error: Option<Reason>)

  predicate Active(s: Status) {
    s == Ready || s == Running || s == Succeeded
  }

  predicate Waiting(s: Status) {
    s == Pending || s == FailedRetryable
  }

  predicate Stopped(s: Status) {
    s == WaitingApproval || s == FailedPermanent || s == Cancelled || s == Skipped
  }

  type Rows = map<nat, Task>

  datatype Table = Table(
    rows: Rows, rowid: map<nat, nat>, next: nat, starts: map<nat, nat>, backoff: map<nat, nat>)

  function Pow2(n: nat): nat {
    if n == 0 then 1 else 2 * Pow2(n - 1)
  }

  /** Delay before retry n + 1: base doubled n times. */
  function Wait(base: nat, n: nat): nat {
    if n == 0 then base else 2 * Wait(base, n - 1)
  }

  /** Seconds of backoff scheduled by the first n retries. */
  function TotalDelay(base: nat, n: nat): nat {
    if n == 0 then 0 else TotalDelay(base, n - 1) + Wait(base, n - 1)
  }

  /** Doubling delays add up to one less than the next power of two. */
  lemma {:induction false} TotalDelayClosedForm(base: nat, n: nat)
    ensures Wait(base, n) == base * Pow2(n)
    ensures TotalDelay(base, n) == Wait(base, n) - base == base * (Pow2(n) - 1)
  {
    if n > 0 {
      TotalDelayClosedForm(base, n - 1);
    }
  }

  lemma {:induction false} TotalDelayMonotone(base: nat, a: nat, b: nat)
    requires a <= b
    ensures TotalDelay(base, a) <= TotalDelay(base, b)
    decreases b
  {
    if a < b {
      TotalDelayMonotone(base, a, b - 1);
    }
  }

  function GraphOf(rows: Rows): Graph {
    map id | id in rows :: rows[id].dependencies
  }

  predicate NoRepeat(s: seq<nat>) {
    forall i, j :: 0 <= i < j < |s| ==> s[i] != s[j]
  }

  predicate DependenciesDone(rows: Rows, t: Task) {
    forall d :: d in t.dependencies ==> d in rows && rows[d].status == Succeeded
  }

  // ---- what holds of every reachable table

  /** Row numbers grow with insertion, and every dependency is an older row. */
  ghost predicate WellFormed(rows: Rows, rowid: map<nat, nat>, next: nat) {
    && rowid.Keys == rows.Keys
    && forall id :: id in rows ==>
         && rows[id].id == id && NoRepeat(rows[id].dependencies) && rowid[id] < next
         && forall d :: d in rows[id].dependencies ==> d in rows && rowid[d] < rowid[id]
  }

  /** How often a task was started and how long it was told to wait. */
  ghost predicate Accounted(t: Task, starts: nat, backoff: nat, base: nat) {
    && starts <= t.maxRetries + 1
    && backoff <= TotalDelay(base, t.maxRetries)
    && match t.status {
      case Pending | Ready | WaitingApproval | FailedRetryable =>
        starts == t.retryCount <= t.maxRetries && backoff == TotalDelay(base, t.retryCount)
      case Running | Succeeded =>
        starts == t.retryCount + 1 && t.retryCount <= t.maxRetries && backoff == TotalDelay(base, t.retryCount)
      case FailedPermanent | Cancelled | Skipped => true
    }
  }

  /** A stored retry timer doubles with every failure and runs from the last
      one; a task that was promoted has none. */
  ghost predicate Timed(t: Task, base: nat) {
    && (t.status == FailedRetryable ==>
          && t.retryCount >= 1 && t.finishedAt.Some?
          && t.retryAfter == Some(t.finishedAt.value + base * Pow2(t.retryCount - 1)))
    && (Active(t.status) ==> t.retryAfter.None?)
  }

  ghost predicate Lifecycle(t: Table, base: nat) {
    && t.starts.Keys == t.rows.Keys && t.backoff.Keys == t.rows.Keys
    && (forall id :: id in t.rows ==> Accounted(t.rows[id], t.starts[id], t.backoff[id], base))
    && (forall id :: id in t.rows ==> Timed(t.rows[id], base))
    && (forall id :: id in t.rows && Active(t.rows[id].status)
          ==> DependenciesDone(t.rows, t.rows[id]))
  }

  ghost predicate Sound(t: Table, base: nat) {
    WellFormed(t.rows, t.rowid, t.next) && Lifecycle(t, base)
  }

  /** What one operation may never do to a stored task. */
  ghost predicate Preserves(before: Rows, after: Rows) {
    forall id :: id in before ==>
      && id in after
      && after[id].id == before[id].id && after[id].dependencies == before[id].dependencies
      && after[id].maxRetries == before[id].maxRetries
      && (before[id].status == Succeeded ==> after[id] == before[id])
  }

  // ---- row updates

  predicate Runnable(rows: Rows, t: Task, now: int) {
    && Waiting(t.status)
    && DependenciesDone(rows, t)
    && (t.retryAfter.None? || t.retryAfter.value <= now)
    && t.retryCount <= t.maxRetries
  }

  function MarkReady(t: Task): Task {
    t.(status := Ready, error := None, retryAfter := None)
  }

  function Start(t: Task, now: int): Task {
    t.(status := Running, startedAt := Some(now), finishedAt := None)
  }

  function Finish(t: Task, now: int): Task {
    t.(status := Succeeded, finishedAt := Some(now), error := None, retryAfter := None)
  }

  function CanRetry(t: Task, retryable: bool): bool {
    retryable && t.retryCount + 1 <= t.maxRetries
  }

  function FailRow(t: Task, error: Reason, retryable: bool, now: int, base: nat): Task {
    var again := CanRetry(t, retryable);
    t.(retryCount := t.retryCount + 1,
       status := if again then FailedRetryable else FailedPermanent,
       finishedAt := Some(now),
       error := Some(error),
       retryAfter := if again then Some(now + Wait(base, t.retryCount)) else None)
  }

  function CancelRow(t: Task, now: int, error: Option<Reason>): Task {
    t.(status := Cancelled, finishedAt := Some(now), error := error)
  }

  predicate Cancellable(t: Task) {
    !t.status.Succeeded? && !t.status.Cancelled?
  }

  // ---- table updates

  // Each of these writes row by row; ids are the rows that were reached.

  function RefreshSome(rows: Rows, ids: set<nat>, now: int): Rows {
    map id | id in rows ::
      if id in ids && Runnable(rows, rows[id], now) then MarkReady(rows[id]) else rows[id]
  }

  function Refresh(rows: Rows, now: int): Rows {
    RefreshSome(rows, rows.Keys, now)
  }

  function RecoverSome(rows: Rows, ids: set<nat>, now: int, base: nat): Rows {
    map id | id in rows ::
      if id in ids && rows[id].status == Running then FailRow(rows[id], WorkerStopped, true, now, base) else rows[id]
  }

  function CancelSet(rows: Rows, ids: set<nat>, now: int): Rows {
    map id | id in rows ::
      if id in ids && Cancellable(rows[id]) then CancelRow(rows[id], now, rows[id].error) else rows[id]
  }

  function CancelSome(rows: Rows, ids: set<nat>, now: int): Rows {
    map id | id in rows ::
      if id in ids && Cancellable(rows[id]) then CancelRow(rows[id], now, Some(MissionCancelled)) else rows[id]
  }

  // ---- preservation

  lemma PreservesShape(t: Table, after: Rows)
    requires WellFormed(t.rows, t.rowid, t.next) && after.Keys == t.rows.Keys && Preserves(t.rows, after)
    ensures WellFormed(after, t.rowid, t.next)
  {
  }

  lemma PreservesItself(rows: Rows)
    ensures Preserves(rows, rows)
  {
  }

  /** A row update that never leaves SUCCEEDED, and enters READY, RUNNING or
      SUCCEEDED only with its dependencies done, keeps the life cycle. */
  lemma UpdateKeepsLifecycle(t: Table, u: Table, base: nat)
    requires Lifecycle(t, base) && u.rows.Keys == t.rows.Keys && Preserves(t.rows, u.rows)
    requires u.starts.Keys == u.rows.Keys && u.backoff.Keys == u.rows.Keys
    requires forall id :: id in u.rows ==> Accounted(u.rows[id], u.starts[id], u.backoff[id], base)
    requires forall id :: id in u.rows ==> Timed(u.rows[id], base)
    requires forall id :: id in u.rows && Active(u.rows[id].status)
               ==> Active(t.rows[id].status) || DependenciesDone(t.rows, t.rows[id])
    ensures Lifecycle(u, base)
  {
  }

  lemma ReadyKeepsAccount(t: Task, starts: nat, backoff: nat, base: nat)
    requires Accounted(t, starts, backoff, base) && Waiting(t.status)
    ensures Accounted(MarkReady(t), starts, backoff, base) && Timed(MarkReady(t), base)
  {
  }

  lemma RefreshKeepsLifecycle(t: Table, ids: set<nat>, now: int, base: nat)
    requires Lifecycle(t, base)
    ensures var after := RefreshSome(t.rows, ids, now); Lifecycle(t.(rows := after), base) && Preserves(t.rows, after)
  {
    hide Accounted, Timed, TotalDelay, DependenciesDone, Wait, CanRetry;
    var u := t.(rows := RefreshSome(t.rows, ids, now));
    forall id | id in u.rows
      ensures Accounted(u.rows[id], u.starts[id], u.backoff[id], base) && Timed(u.rows[id], base)
    {
      assert Accounted(t.rows[id], t.starts[id], t.backoff[id], base) && Timed(t.rows[id], base);
      if Waiting(t.rows[id].status) {
        ReadyKeepsAccount(t.rows[id], t.starts[id], t.backoff[id], base);
      }
    }
    UpdateKeepsLifecycle(t, u, base);
  }

  function Count(m: map<nat, nat>, id: nat): nat {
    if id in m then m[id] else 0
  }

  function Started(t: Table, id: nat, now: int): Table
    requires id in t.rows
  {
    t.(rows := t.rows[id := Start(t.rows[id], now)], starts := t.starts[id := Count(t.starts, id) + 1])
  }

  lemma StartKeepsLifecycle(t: Table, id: nat, now: int, base: nat)
    requires Lifecycle(t, base) && id in t.rows && t.rows[id].status == Ready
    ensures Lifecycle(Started(t, id, now), base) && Preserves(t.rows, Started(t, id, now).rows)
  {
    hide TotalDelay, DependenciesDone;
    var u := Started(t, id, now);
    assert Accounted(t.rows[id], t.starts[id], t.backoff[id], base) && Timed(t.rows[id], base);
    assert Accounted(u.rows[id], u.starts[id], u.backoff[id], base) && Timed(u.rows[id], base);
    hide Accounted, Timed;
    UpdateKeepsLifecycle(t, u, base);
  }

  function Finished(t: Table, id: nat, now: int): Table
    requires id in t.rows
  {
    t.(rows := t.rows[id := Finish(t.rows[id], now)])
  }

  lemma FinishKeepsLifecycle(t: Table, id: nat, now: int, base: nat)
    requires Lifecycle(t, base) && id in t.rows && t.rows[id].status == Running
    ensures Lifecycle(Finished(t, id, now), base) && Preserves(t.rows, Finished(t, id, now).rows)
  {
    hide TotalDelay, DependenciesDone;
    var u := Finished(t, id, now);
    assert Accounted(t.rows[id], t.starts[id], t.backoff[id], base) && Timed(t.rows[id], base);
    assert Accounted(u.rows[id], u.starts[id], u.backoff[id], base) && Timed(u.rows[id], base);
    hide Accounted, Timed;
    UpdateKeepsLifecycle(t, u, base);
  }

  function Delay(t: Task, retryable: bool, base: nat): nat {
    if CanRetry(t, retryable) then Wait(base, t.retryCount) else 0
  }

  lemma FailKeepsAccount(t: Task, starts: nat, backoff: nat, error: Reason, retryable: bool, now: int, base: nat)
    requires t.status == Running && Accounted(t, starts, backoff, base)
    ensures Accounted(FailRow(t, error, retryable, now, base), starts, backoff + Delay(t, retryable, base), base)
    ensures Timed(FailRow(t, error, retryable, now, base), base)
  {
    TotalDelayClosedForm(base, t.retryCount);
    if CanRetry(t, retryable) {
      TotalDelayMonotone(base, t.retryCount + 1, t.maxRetries);
    }
  }

  function Failed(t: Table, id: nat, error: Reason, retryable: bool, now: int, base: nat): Table
    requires id in t.rows
  {
    t.(rows := t.rows[id := FailRow(t.rows[id], error, retryable, now, base)],
       backoff := t.backoff[id := Count(t.backoff, id) + Delay(t.rows[id], retryable, base)])
  }

  lemma FailKeepsLifecycle(t: Table, id: nat, error: Reason, retryable: bool, now: int, base: nat)
    requires Lifecycle(t, base) && id in t.rows && t.rows[id].status == Running
    ensures Lifecycle(Failed(t, id, error, retryable, now, base), base)
    ensures Preserves(t.rows, Failed(t, id, error, retryable, now, base).rows)
  {
    hide Accounted, Timed, TotalDelay, DependenciesDone, Wait, CanRetry;
    assert Accounted(t.rows[id], t.starts[id], t.backoff[id], base);
    FailKeepsAccount(t.rows[id], t.starts[id], t.backoff[id], error, retryable, now, base);
    UpdateKeepsLifecycle(t, Failed(t, id, error, retryable, now, base), base);
  }

  function Recovered(t: Table, ids: set<nat>, now: int, base: nat): Table {
    t.(rows := RecoverSome(t.rows, ids, now, base),
       backoff := map id | id in t.rows ::
         Count(t.backoff, id) + if id in ids && t.rows[id].status == Running then Delay(t.rows[id], true, base) else 0)
  }

  lemma RecoverKeepsLifecycle(t: Table, ids: set<nat>, now: int, base: nat)
    requires Lifecycle(t, base)
    ensures Lifecycle(Recovered(t, ids, now, base), base) && Preserves(t.rows, Recovered(t, ids, now, base).rows)
  {
    hide Accounted, Timed, TotalDelay, DependenciesDone, Wait, CanRetry;
    var u := Recovered(t, ids, now, base);
    forall id | id in u.rows
      ensures Accounted(u.rows[id], u.starts[id], u.backoff[id], base) && Timed(u.rows[id], base)
    {
      assert Accounted(t.rows[id], t.starts[id], t.backoff[id], base) && Timed(t.rows[id], base);
      if id in ids && t.rows[id].status == Running {
        FailKeepsAccount(t.rows[id], t.starts[id], t.backoff[id], WorkerStopped, true, now, base);
      }
    }
    UpdateKeepsLifecycle(t, u, base);
  }

  lemma CancelKeepsAccount(t: Task, starts: nat, backoff: nat, error: Option<Reason>, now: int, base: nat)
    requires Accounted(t, starts, backoff, base)
    ensures Accounted(CancelRow(t, now, error), starts, backoff, base) && Timed(CancelRow(t, now, error), base)
  {
  }

  lemma CancelKeepsLifecycle(t: Table, ids: set<nat>, now: int, base: nat)
    requires Lifecycle(t, base)
    ensures Lifecycle(t.(rows := CancelSet(t.rows, ids, now)), base) && Preserves(t.rows, CancelSet(t.rows, ids, now))
  {
    hide Accounted, Timed, TotalDelay, DependenciesDone, Wait, CanRetry;
    var u := t.(rows := CancelSet(t.rows, ids, now));
    forall id | id in u.rows
      ensures Accounted(u.rows[id], u.starts[id], u.backoff[id], base) && Timed(u.rows[id], base)
    {
      assert Accounted(t.rows[id], t.starts[id], t.backoff[id], base) && Timed(t.rows[id], base);
      CancelKeepsAccount(t.rows[id], t.starts[id], t.backoff[id], t.rows[id].error, now, base);
    }
    UpdateKeepsLifecycle(t, u, base);
  }

  lemma CancelSomeKeepsLifecycle(t: Table, ids: set<nat>, now: int, base: nat)
    requires Lifecycle(t, base)
    ensures var after := CancelSome(t.rows, ids, now); Lifecycle(t.(rows := after), base) && Preserves(t.rows, after)
  {
    hide Accounted, Timed, TotalDelay, DependenciesDone, Wait, CanRetry;
    var u := t.(rows := CancelSome(t.rows, ids, now));
    forall id | id in u.rows
      ensures Accounted(u.rows[id], u.starts[id], u.backoff[id], base) && Timed(u.rows[id], base)
    {
      assert Accounted(t.rows[id], t.starts[id], t.backoff[id], base) && Timed(t.rows[id], base);
      CancelKeepsAccount(t.rows[id], t.starts[id], t.backoff[id], Some(MissionCancelled), now, base);
    }
    UpdateKeepsLifecycle(t, u, base);
  }

  // ---- an operation cut short by a crash, and repeated

  /** A second recovery fails exactly the rows the first one did not reach:
      no row is charged twice. */
  lemma RecoveryResumes(t: Table, ids: set<nat>, now: int, later: int, base: nat)
    ensures var once := Recovered(t, ids, now, base);
            var twice := Recovered(once, t.rows.Keys, later, base);
            && twice.rows.Keys == t.rows.Keys
            && forall id :: id in t.rows ==>
                 var row, time := t.rows[id], if id in ids then now else later;
                 && twice.rows[id] == (if row.status != Running then row
                                       else FailRow(row, WorkerStopped, true, time, base))
                 && twice.backoff[id] == Count(t.backoff, id)
                                         + if row.status == Running then Delay(row, true, base) else 0
  {
    hide Delay, Wait;
    var once := Recovered(t, ids, now, base);
    forall id | id in t.rows
      ensures once.rows[id].status == Running <==> t.rows[id].status == Running && id !in ids
    {
    }
  }

  /** A second cancellation stops exactly the rows the first did not reach. */
  lemma CancellationResumes(rows: Rows, some: set<nat>, all: set<nat>, now: int, later: int)
    requires some <= all
    ensures CancelSet(CancelSet(rows, some, now), all, later)
         == map id | id in rows ::
              if id in all && Cancellable(rows[id]) then
                CancelRow(rows[id], if id in some then now else later, rows[id].error)
              else rows[id]
  {
    var once := CancelSet(rows, some, now);
    forall id | id in rows
      ensures Cancellable(once[id]) <==> Cancellable(rows[id]) && id !in some
    {
    }
  }

  // ---- what the invariant says about whole runs

  /** Something this task waits for, or is, can never be scheduled. */
  ghost predicate Blocked(rows: Rows, id: nat) {
    exists b :: b in rows && Stopped(rows[b].status)
                && Reaches(DependsOn(GraphOf(rows)), id, b)
  }

  predicate Idle(rows: Rows) {
    forall id :: id in rows ==> !(rows[id].status.Ready? || rows[id].status.Running?)
  }

  predicate TimersElapsed(rows: Rows, now: int) {
    forall id :: id in rows ==> rows[id].retryAfter.None? || rows[id].retryAfter.value <= now
  }

  /** Every task still waiting to be scheduled has an unfinished dependency. */
  ghost predicate Starved(rows: Rows) {
    forall id {:trigger Waiting(rows[id].status)} ::
      id in rows && Waiting(rows[id].status) ==> !DependenciesDone(rows, rows[id])
  }

  lemma RefreshStarves(t: Table, after: Rows, now: int, base: nat)
    requires Lifecycle(t, base) && TimersElapsed(t.rows, now) && after == Refresh(t.rows, now)
    ensures Starved(after)
  {
    forall id | id in after && Waiting(after[id].status)
      ensures !DependenciesDone(after, after[id])
    {
      assert Accounted(t.rows[id], t.starts[id], t.backoff[id], base);
      var d :| d in t.rows[id].dependencies && !(d in t.rows && t.rows[d].status == Succeeded);
      assert !(d in after && after[d].status == Succeeded);
    }
  }

  lemma BlockedThrough(rows: Rows, id: nat, d: nat)
    requires (id, d) in DependsOn(GraphOf(rows)) && Blocked(rows, d)
    ensures Blocked(rows, id)
  {
    var b :| b in rows && Stopped(rows[b].status) && Reaches(DependsOn(GraphOf(rows)), d, b);
    ReachesFrom(DependsOn(GraphOf(rows)), id, d, b);
  }

  lemma {:induction false} StarvedIsBlocked(rows: Rows, rowid: map<nat, nat>, next: nat, id: nat)
    requires WellFormed(rows, rowid, next) && Starved(rows) && Idle(rows)
    requires id in rows && !rows[id].status.Succeeded?
    ensures Blocked(rows, id)
    decreases if id in rowid then rowid[id] else 0
  {
    if Waiting(rows[id].status) {
      var d :| d in rows[id].dependencies && !(d in rows && rows[d].status == Succeeded);
      StarvedIsBlocked(rows, rowid, next, d);
      assert d in GraphOf(rows)[id];
      BlockedThrough(rows, id, d);
    } else {
      ReachesSelf(DependsOn(GraphOf(rows)), id);
    }
  }

  lemma {:induction false} ActiveAboveSucceeded(t: Table, base: nat, p: seq<nat>)
    requires Lifecycle(t, base) && IsPath(DependsOn(GraphOf(t.rows)), p)
    requires p[0] in t.rows && Active(t.rows[p[0]].status)
    ensures p[|p| - 1] in t.rows && Active(t.rows[p[|p| - 1]].status)
  {
    if |p| > 1 {
      assert (p[0], p[1]) in DependsOn(GraphOf(t.rows));
      assert p[1] in t.rows[p[0]].dependencies;
      ActiveAboveSucceeded(t, base, p[1..]);
    }
  }

  /** In any reachable table a blocked task is neither scheduled nor done. */
  lemma BlockedNeverRuns(t: Table, base: nat, id: nat)
    requires Lifecycle(t, base) && id in t.rows && Blocked(t.rows, id)
    ensures !Active(t.rows[id].status)
  {
    var e := DependsOn(GraphOf(t.rows));
    var b :| b in t.rows && Stopped(t.rows[b].status) && Reaches(e, id, b);
    var p :| IsPath(e, p) && p[0] == id && p[|p| - 1] == b;
    if Active(t.rows[id].status) {
      ActiveAboveSucceeded(t, base, p);
    }
  }

  lemma IdleMeansBlocked(t: Table, now: int, base: nat, id: nat)
    requires Sound(t, base) && TimersElapsed(t.rows, now)
    requires var after := Refresh(t.rows, now); Idle(after) && id in after && after[id].status != Succeeded
    ensures Blocked(Refresh(t.rows, now), id)
  {
    var after := Refresh(t.rows, now);
    RefreshKeepsLifecycle(t, t.rows.Keys, now, base);
    RefreshStarves(t, after, now, base);
    PreservesShape(t, after);
    StarvedIsBlocked(after, t.rowid, t.next, id);
  }

  lemma BlockedMeansIdle(t: Table, now: int, base: nat, id: nat)
    requires Sound(t, base) && id in Refresh(t.rows, now) && Blocked(Refresh(t.rows, now), id)
    ensures !Active(Refresh(t.rows, now)[id].status)
  {
    RefreshKeepsLifecycle(t, t.rows.Keys, now, base);
    BlockedNeverRuns(t.(rows := Refresh(t.rows, now)), base, id);
  }

  ghost predicate DoneOrBlocked(rows: Rows) {
    forall id :: id in rows ==> rows[id].status == Succeeded || Blocked(rows, id)
  }

  /** Right after a refresh with every timer elapsed, nothing is left to run
      exactly when every task is done or blocked. */
  lemma DeadlockCharacterised(t: Table, now: int, base: nat)
    requires Sound(t, base) && TimersElapsed(t.rows, now)
    ensures Idle(Refresh(t.rows, now)) <==> DoneOrBlocked(Refresh(t.rows, now))
  {
    var after := Refresh(t.rows, now);
    if Idle(after) {
      forall id | id in after && after[id].status != Succeeded
        ensures Blocked(after, id)
      {
        IdleMeansBlocked(t, now, base, id);
      }
    }
    if DoneOrBlocked(after) {
      forall id | id in after
        ensures !(after[id].status.Ready? || after[id].status.Running?)
      {
        if after[id].status != Succeeded {
          BlockedMeansIdle(t, now, base, id);
        }
      }
    }
  }
}
