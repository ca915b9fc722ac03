/** Dispatch of the selected action: every interleaving of any number of
    workers, each of which may stop before any write. The liveness oracle is
    an arbitrary answer supplied with each read. */
module ActionDispatch {
  import opened Prelude

  datatype Stage = BeforeExecute | Execute | AfterExecute

  /** BeforeExecute stands for OBSERVE..STRATEGIZE, AfterExecute for VERIFY..ADAPT. */
  datatype Cycle = Cycle(stage: Stage, succeeded: Option<bool>)

  datatype ExecutionStatus = RUNNING | SUCCEEDED | FAILED

  datatype Execution = Execution(cycle: nat, status: ExecutionStatus)

  /** Where a worker stands inside execute_selected. */
  datatype Pc =
    | Called(cycle: nat)
    | ReadCycle(cycle: nat, stage: Stage)
    | Unclaimed(cycle: nat)
    | Claimed(cycle: nat, row: nat)
    | Executed(cycle: nat, row: nat, ok: bool)
    | Orphaned(cycle: nat, row: nat)
    | Terminal(cycle: nat, row: nat, ok: bool)

  datatype State = State(
    cycles: map<nat, Cycle>, rows: seq<Execution>, invoked: seq<nat>, workers: map<nat, Pc>)

  datatype Step =
    | NewCycle(cycle: nat)
    | Strategize(cycle: nat)
    | Call(worker: nat, cycle: nat)
    | Read(worker: nat)
    | List(worker: nat, ownerGone: bool)
    | Claim(worker: nat)
    | Invoke(worker: nat, ok: bool)
    | SaveExecution(worker: nat)
    | RecordExecution(worker: nat)
    | Stop(worker: nat)

  const EMPTY := State(map[], [], [], map[])

  function LastRow(rows: seq<Execution>, cycle: nat): (r: Option<nat>)
    ensures r.Some? ==> r.value < |rows| && rows[r.value].cycle == cycle
    ensures r.None? ==> forall i :: 0 <= i < |rows| ==> rows[i].cycle != cycle
  {
    if rows == [] then None
    else if rows[|rows| - 1].cycle == cycle then Some(|rows| - 1)
    else LastRow(rows[..|rows| - 1], cycle)
  }

  function Stopped(s: State, w: nat): State {
    s.(workers := s.workers - {w})
  }

  function Goto(s: State, w: nat, pc: Pc): State {
    s.(workers := s.workers[w := pc])
  }

  /** The decision after listing the executions of the cycle. */
  function Decide(s: State, w: nat, c: nat, stage: Stage, ownerGone: bool): State {
    match LastRow(s.rows, c)
    case Some(i) =>
      if s.rows[i].status != RUNNING then
        if stage == Execute then Goto(s, w, Terminal(c, i, s.rows[i].status == SUCCEEDED)) else Stopped(s, w)
      else if ownerGone then Goto(s, w, Orphaned(c, i))
      else Stopped(s, w)
    case None =>
      if stage == Execute then Goto(s, w, Unclaimed(c)) else Stopped(s, w)
  }

  /** CompeteLoop.record_execution: refused outside EXECUTE. */
  function Recorded(cycles: map<nat, Cycle>, c: nat, ok: bool): map<nat, Cycle> {
    if c in cycles && cycles[c].stage == Execute then cycles[c := Cycle(AfterExecute, Some(ok))] else cycles
  }

  function StatusOf(ok: bool): ExecutionStatus {
    if ok then SUCCEEDED else FAILED
  }

  /** start_action_execution: one transaction, refused if a row exists. */
  function ClaimSlot(s: State, w: nat, c: nat): State {
    if LastRow(s.rows, c).Some? then Stopped(s, w)
    else Goto(s.(rows := s.rows + [Execution(c, RUNNING)]), w, Claimed(c, |s.rows|))
  }

  function InvokeExecutor(s: State, w: nat, c: nat, i: nat, ok: bool): State {
    Goto(s.(invoked := s.invoked + [c]), w, Executed(c, i, ok))
  }

  function SaveRow(s: State, w: nat, c: nat, i: nat, ok: bool): State {
    if i < |s.rows| then
      Goto(s.(rows := s.rows[i := s.rows[i].(status := StatusOf(ok))]), w, Terminal(c, i, ok))
    else s
  }

  function CloseCycle(s: State, w: nat, c: nat, ok: bool): State {
    Stopped(s.(cycles := Recorded(s.cycles, c, ok)), w)
  }

  /** One step of a worker that is inside execute_selected. */
  function WorkerNext(s: State, w: nat, pc: Pc, step: Step): State {
    match (step, pc)
    case (Read(_), Called(c)) => if c in s.cycles then Goto(s, w, ReadCycle(c, s.cycles[c].stage)) else s
    case (List(_, ownerGone), ReadCycle(c, stage)) => Decide(s, w, c, stage, ownerGone)
    case (Claim(_), Unclaimed(c)) => ClaimSlot(s, w, c)
    case (Invoke(_, ok), Claimed(c, i)) => InvokeExecutor(s, w, c, i, ok)
    case (SaveExecution(_), Executed(c, i, ok)) => SaveRow(s, w, c, i, ok)
    case (SaveExecution(_), Orphaned(c, i)) => SaveRow(s, w, c, i, false)
    case (RecordExecution(_), Terminal(c, i, ok)) => CloseCycle(s, w, c, ok)
    case (Stop(_), _) => Stopped(s, w)
    case _ => s
  }

  function Next(s: State, step: Step): State {
    match step
    case NewCycle(c) => if c in s.cycles then s else s.(cycles := s.cycles[c := Cycle(BeforeExecute, None)])
    case Strategize(c) =>
      if c in s.cycles && s.cycles[c].stage == BeforeExecute then s.(cycles := s.cycles[c := Cycle(Execute, None)])
      else s
    case Call(w, c) => if w in s.workers || c !in s.cycles then s else Goto(s, w, Called(c))
    case _ => if step.worker in s.workers then WorkerNext(s, step.worker, s.workers[step.worker], step) else s
  }

  function Run(s: State, steps: seq<Step>): State
    decreases |steps|
  {
    if steps == [] then s else Run(Next(s, steps[0]), steps[1..])
  }

  // ---- at most once, whatever the interleaving

  ghost predicate OneRowPerCycle(rows: seq<Execution>) {
    forall i, j :: 0 <= i < j < |rows| ==> rows[i].cycle != rows[j].cycle
  }

  function CyclesOf(rows: seq<Execution>): set<nat> {
    set i | 0 <= i < |rows| :: rows[i].cycle
  }

  lemma AppendRow(rows: seq<Execution>, c: nat)
    requires OneRowPerCycle(rows) && LastRow(rows, c).None?
    ensures OneRowPerCycle(rows + [Execution(c, RUNNING)])
    ensures CyclesOf(rows + [Execution(c, RUNNING)]) == CyclesOf(rows) + {c} && c !in CyclesOf(rows)
  {
    var more := rows + [Execution(c, RUNNING)];
    assert more[..|rows|] == rows && more[|rows|].cycle == c;
  }

  lemma UpdateRow(rows: seq<Execution>, i: nat, status: ExecutionStatus)
    requires i < |rows|
    ensures var after := rows[i := rows[i].(status := status)];
            CyclesOf(after) == CyclesOf(rows) && (OneRowPerCycle(rows) ==> OneRowPerCycle(after))
  {
    var after := rows[i := rows[i].(status := status)];
    assert forall k :: 0 <= k < |rows| ==> after[k].cycle == rows[k].cycle;
    forall c | c in CyclesOf(rows)
      ensures c in CyclesOf(after)
    {
      var k :| 0 <= k < |rows| && rows[k].cycle == c;
      assert after[k].cycle == c;
    }
  }

  /** A worker between claim and call owns the slot and nobody has used it. */
  ghost predicate AtMostOnce(s: State) {
    && OneRowPerCycle(s.rows)
    && (forall i, j :: 0 <= i < j < |s.invoked| ==> s.invoked[i] != s.invoked[j])
    && (forall c :: c in s.invoked ==> c in CyclesOf(s.rows))
    && (forall w :: w in s.workers && s.workers[w].Claimed? ==>
          s.workers[w].cycle in CyclesOf(s.rows) && s.workers[w].cycle !in s.invoked)
    && (forall w, v :: w in s.workers && v in s.workers && w != v && s.workers[w].Claimed? && s.workers[v].Claimed? ==>
          s.workers[w].cycle != s.workers[v].cycle)
  }

  lemma GotoKeepsAtMostOnce(s: State, w: nat, pc: Pc)
    requires AtMostOnce(s) && !pc.Claimed?
    ensures AtMostOnce(Goto(s, w, pc)) && AtMostOnce(Stopped(s, w))
  {
  }

  lemma ClaimKeepsAtMostOnce(s: State, w: nat, c: nat)
    requires AtMostOnce(s)
    ensures AtMostOnce(ClaimSlot(s, w, c))
  {
    if LastRow(s.rows, c).None? {
      AppendRow(s.rows, c);
    }
  }

  lemma InvokeKeepsAtMostOnce(s: State, w: nat, c: nat, i: nat, ok: bool)
    requires AtMostOnce(s) && w in s.workers && s.workers[w] == Claimed(c, i)
    ensures AtMostOnce(InvokeExecutor(s, w, c, i, ok))
  {
  }

  lemma SaveKeepsAtMostOnce(s: State, w: nat, c: nat, i: nat, ok: bool)
    requires AtMostOnce(s)
    ensures AtMostOnce(SaveRow(s, w, c, i, ok))
  {
    if i < |s.rows| {
      UpdateRow(s.rows, i, StatusOf(ok));
    }
  }

  lemma StepKeepsAtMostOnce(s: State, step: Step)
    requires AtMostOnce(s)
    ensures AtMostOnce(Next(s, step))
  {
    match step {
      case NewCycle(c) =>
      case Strategize(c) =>
      case Call(w, c) => GotoKeepsAtMostOnce(s, w, Called(c));
      case _ => if step.worker in s.workers { WorkerKeepsAtMostOnce(s, step.worker, s.workers[step.worker], step); }
    }
  }

  lemma DecideKeepsAtMostOnce(s: State, w: nat, c: nat, stage: Stage, ownerGone: bool)
    requires AtMostOnce(s)
    ensures AtMostOnce(Decide(s, w, c, stage, ownerGone))
  {
    GotoKeepsAtMostOnce(s, w, Unclaimed(c));
    if LastRow(s.rows, c).Some? {
      var i := LastRow(s.rows, c).value;
      GotoKeepsAtMostOnce(s, w, Terminal(c, i, s.rows[i].status == SUCCEEDED));
      GotoKeepsAtMostOnce(s, w, Orphaned(c, i));
    }
  }

  lemma WorkerKeepsAtMostOnce(s: State, w: nat, pc: Pc, step: Step)
    requires AtMostOnce(s) && w in s.workers && s.workers[w] == pc
    ensures AtMostOnce(WorkerNext(s, w, pc, step))
  {
    match (step, pc) {
      case (Read(_), Called(c)) =>
        if c in s.cycles {
          GotoKeepsAtMostOnce(s, w, ReadCycle(c, s.cycles[c].stage));
        }
      case (List(_, ownerGone), ReadCycle(c, stage)) => DecideKeepsAtMostOnce(s, w, c, stage, ownerGone);
      case (Claim(_), Unclaimed(c)) => ClaimKeepsAtMostOnce(s, w, c);
      case (Invoke(_, ok), Claimed(c, i)) => InvokeKeepsAtMostOnce(s, w, c, i, ok);
      case (SaveExecution(_), Executed(c, i, ok)) => SaveKeepsAtMostOnce(s, w, c, i, ok);
      case (SaveExecution(_), Orphaned(c, i)) => SaveKeepsAtMostOnce(s, w, c, i, false);
      case (RecordExecution(_), Terminal(c, i, ok)) =>
        GotoKeepsAtMostOnce(s.(cycles := Recorded(s.cycles, c, ok)), w, pc);
      case (Stop(_), _) => GotoKeepsAtMostOnce(s, w, Called(0));
      case _ =>
    }
  }

  lemma {:induction false} RunKeepsAtMostOnce(s: State, steps: seq<Step>)
    requires AtMostOnce(s)
    ensures AtMostOnce(Run(s, steps))
    decreases |steps|
  {
    if steps != [] {
      StepKeepsAtMostOnce(s, steps[0]);
      RunKeepsAtMostOnce(Next(s, steps[0]), steps[1..]);
    }
  }

  /** No lease and no truthful oracle needed: the executor is called at most
      once per cycle, and at most one execution row per cycle exists. */
  lemma ActionRunsAtMostOnce(steps: seq<Step>, s: State)
    requires s == Run(EMPTY, steps)
    ensures forall i, j :: 0 <= i < j < |s.invoked| ==> s.invoked[i] != s.invoked[j]
    ensures OneRowPerCycle(s.rows)
    ensures forall c :: c in s.invoked ==> LastRow(s.rows, c).Some?
  {
    RunKeepsAtMostOnce(EMPTY, steps);
  }

  // ---- agreement of cycle and execution

  /** Between its claim and the saved outcome of its call, unless the call has
      failed already. */
  predicate InFlight(pc: Pc, c: nat) {
    (pc.Claimed? || (pc.Executed? && pc.ok)) && pc.cycle == c
  }

  /** The owner of a cycle's execution is called gone only when no worker is
      in flight on it. */
  ghost predicate Truthful(s: State, step: Step) {
    step.List? && step.ownerGone && step.worker in s.workers && s.workers[step.worker].ReadCycle? ==>
      forall v :: v in s.workers ==> !InFlight(s.workers[v], s.workers[step.worker].cycle)
  }

  /** Every run in which no owner in flight is called gone. */
  ghost predicate TruthfulRun(s: State, steps: seq<Step>)
    decreases |steps|
  {
    steps == [] || (Truthful(s, steps[0]) && TruthfulRun(Next(s, steps[0]), steps[1..]))
  }

  ghost predicate Begun(cycles: map<nat, Cycle>, c: nat) {
    c in cycles && cycles[c].stage != BeforeExecute
  }

  ghost predicate RowIs(s: State, c: nat, i: nat, status: ExecutionStatus) {
    i < |s.rows| && s.rows[i] == Execution(c, status)
  }

  ghost predicate PcAgrees(s: State, pc: Pc) {
    match pc
    case Called(c) => true
    case ReadCycle(c, stage) => stage == Execute ==> Begun(s.cycles, c)
    case Unclaimed(c) => Begun(s.cycles, c)
    case Claimed(c, i) => RowIs(s, c, i, RUNNING)
    case Executed(c, i, ok) => RowIs(s, c, i, RUNNING) || (!ok && RowIs(s, c, i, FAILED))
    case Orphaned(c, i) => RowIs(s, c, i, RUNNING) || RowIs(s, c, i, FAILED)
    case Terminal(c, i, ok) => RowIs(s, c, i, StatusOf(ok))
  }

  /** A stored execution and the cycle it belongs to tell one story. */
  ghost predicate RowAgrees(e: Execution, cycles: map<nat, Cycle>) {
    && Begun(cycles, e.cycle)
    && (cycles[e.cycle].stage == AfterExecute ==>
          e.status != RUNNING && cycles[e.cycle].succeeded == Some(e.status == SUCCEEDED))
  }

  /** One owner per cycle, and nobody takes the cycle of one in flight. */
  ghost predicate Apart(a: Pc, b: Pc) {
    && ((a.Claimed? || a.Executed?) && (b.Claimed? || b.Executed?) ==> a.cycle != b.cycle)
    && (b.Orphaned? ==> !InFlight(a, b.cycle))
  }

  ghost predicate Agreement(s: State) {
    && OneRowPerCycle(s.rows)
    && (forall i :: 0 <= i < |s.rows| ==> RowAgrees(s.rows[i], s.cycles))
    && (forall c :: c in s.cycles && s.cycles[c].stage == AfterExecute ==> c in CyclesOf(s.rows))
    && (forall w :: w in s.workers ==> PcAgrees(s, s.workers[w]))
    && (forall w, v :: w in s.workers && v in s.workers && w != v ==> Apart(s.workers[w], s.workers[v]))
  }

  lemma GotoKeepsAgreement(s: State, w: nat, pc: Pc)
    requires Agreement(s) && PcAgrees(s, pc)
    requires forall v :: v in s.workers && v != w ==> Apart(pc, s.workers[v]) && Apart(s.workers[v], pc)
    ensures Agreement(Goto(s, w, pc)) && Agreement(Stopped(s, w))
  {
  }

  lemma StopKeepsAgreement(s: State, w: nat)
    requires Agreement(s)
    ensures Agreement(Stopped(s, w))
  {
    GotoKeepsAgreement(s, w, Called(0));
  }

  lemma CyclesKeepAgreement(s: State, c: nat, stage: Stage)
    requires Agreement(s) && stage != AfterExecute
    requires if stage == BeforeExecute then c !in s.cycles else c in s.cycles && s.cycles[c].stage == BeforeExecute
    ensures Agreement(s.(cycles := s.cycles[c := Cycle(stage, None)]))
  {
    var t := s.(cycles := s.cycles[c := Cycle(stage, None)]);
    forall i | 0 <= i < |s.rows|
      ensures RowAgrees(t.rows[i], t.cycles)
    {
      assert RowAgrees(s.rows[i], s.cycles);
    }
    forall w | w in s.workers
      ensures PcAgrees(t, t.workers[w])
    {
      assert PcAgrees(s, s.workers[w]);
    }
  }

  /** No row for a cycle, no worker in flight or orphaned on it. */
  lemma NoRowNobody(s: State, c: nat, v: nat)
    requires Agreement(s) && LastRow(s.rows, c).None? && v in s.workers
    ensures Apart(Claimed(c, |s.rows|), s.workers[v]) && Apart(s.workers[v], Claimed(c, |s.rows|))
  {
    assert PcAgrees(s, s.workers[v]);
  }

  lemma ClaimKeepsAgreement(s: State, w: nat, c: nat)
    requires Agreement(s) && w in s.workers && s.workers[w] == Unclaimed(c)
    ensures Agreement(ClaimSlot(s, w, c))
  {
    if LastRow(s.rows, c).None? {
      assert PcAgrees(s, s.workers[w]);
      AppendRow(s.rows, c);
      var t := s.(rows := s.rows + [Execution(c, RUNNING)]);
      forall v | v in s.workers
        ensures PcAgrees(t, s.workers[v])
      {
        assert PcAgrees(s, s.workers[v]);
        NoRowNobody(s, c, v);
      }
      forall d | d in s.cycles && s.cycles[d].stage == AfterExecute
        ensures d != c
      {
        assert d in CyclesOf(s.rows);
      }
      forall i | 0 <= i < |t.rows|
        ensures RowAgrees(t.rows[i], t.cycles)
      {
        assert i < |s.rows| ==> RowAgrees(s.rows[i], s.cycles);
      }
      GotoKeepsAgreement(t, w, Claimed(c, |s.rows|));
    } else {
      StopKeepsAgreement(s, w);
    }
  }

  /** Saving the outcome of the one worker in flight, or a lost execution. */
  lemma SaveKeepsAgreement(s: State, w: nat, c: nat, i: nat, ok: bool)
    requires Agreement(s) && w in s.workers
    requires s.workers[w] == Executed(c, i, ok) || (s.workers[w] == Orphaned(c, i) && !ok)
    ensures Agreement(SaveRow(s, w, c, i, ok))
  {
    assert PcAgrees(s, s.workers[w]);
    UpdateRow(s.rows, i, StatusOf(ok));
    var t := s.(rows := s.rows[i := s.rows[i].(status := StatusOf(ok))], workers := s.workers - {w});
    assert RowAgrees(s.rows[i], s.cycles);
    forall k | 0 <= k < |t.rows|
      ensures RowAgrees(t.rows[k], t.cycles)
    {
      assert RowAgrees(s.rows[k], s.cycles);
    }
    forall v | v in t.workers
      ensures PcAgrees(t, t.workers[v])
    {
      assert PcAgrees(s, s.workers[v]) && Apart(s.workers[w], s.workers[v]) && Apart(s.workers[v], s.workers[w]);
    }
    GotoKeepsAgreement(t, w, Terminal(c, i, ok));
    assert t.workers[w := Terminal(c, i, ok)] == s.workers[w := Terminal(c, i, ok)];
  }

  lemma CloseKeepsAgreement(s: State, w: nat, c: nat, i: nat, ok: bool)
    requires Agreement(s) && w in s.workers && s.workers[w] == Terminal(c, i, ok)
    ensures Agreement(CloseCycle(s, w, c, ok))
  {
    assert PcAgrees(s, s.workers[w]);
    var t := s.(cycles := Recorded(s.cycles, c, ok));
    assert s.rows[i].cycle in CyclesOf(s.rows);
    forall k | 0 <= k < |t.rows|
      ensures RowAgrees(t.rows[k], t.cycles)
    {
      assert RowAgrees(s.rows[k], s.cycles);
      assert k != i ==> s.rows[k].cycle != c;
    }
    forall v | v in t.workers
      ensures PcAgrees(t, t.workers[v])
    {
      assert PcAgrees(s, s.workers[v]);
    }
    StopKeepsAgreement(t, w);
  }

  lemma DecideKeepsAgreement(s: State, w: nat, c: nat, stage: Stage, ownerGone: bool)
    requires Agreement(s) && w in s.workers && s.workers[w] == ReadCycle(c, stage)
    requires ownerGone ==> forall v :: v in s.workers ==> !InFlight(s.workers[v], c)
    ensures Agreement(Decide(s, w, c, stage, ownerGone))
  {
    assert PcAgrees(s, ReadCycle(c, stage));
    StopKeepsAgreement(s, w);
    match LastRow(s.rows, c) {
      case Some(i) =>
        if s.rows[i].status != RUNNING {
          GotoKeepsAgreement(s, w, Terminal(c, i, s.rows[i].status == SUCCEEDED));
        } else if ownerGone {
          GotoKeepsAgreement(s, w, Orphaned(c, i));
        }
      case None =>
        if stage == Execute {
          GotoKeepsAgreement(s, w, Unclaimed(c));
        }
    }
  }

  lemma WorkerKeepsAgreement(s: State, w: nat, pc: Pc, step: Step)
    requires Agreement(s) && w in s.workers && s.workers[w] == pc && Truthful(s, step)
    requires !step.NewCycle? && !step.Strategize? && !step.Call? && step.worker == w
    ensures Agreement(WorkerNext(s, w, pc, step))
  {
    match (step, pc) {
      case (Read(_), Called(c)) =>
        if c in s.cycles {
          GotoKeepsAgreement(s, w, ReadCycle(c, s.cycles[c].stage));
        }
      case (List(_, ownerGone), ReadCycle(c, stage)) => DecideKeepsAgreement(s, w, c, stage, ownerGone);
      case (Claim(_), Unclaimed(c)) => ClaimKeepsAgreement(s, w, c);
      case (Invoke(_, ok), Claimed(c, i)) =>
        assert PcAgrees(s, pc);
        GotoKeepsAgreement(s.(invoked := s.invoked + [c]), w, Executed(c, i, ok));
      case (SaveExecution(_), Executed(c, i, ok)) => SaveKeepsAgreement(s, w, c, i, ok);
      case (SaveExecution(_), Orphaned(c, i)) => SaveKeepsAgreement(s, w, c, i, false);
      case (RecordExecution(_), Terminal(c, i, ok)) => CloseKeepsAgreement(s, w, c, i, ok);
      case (Stop(_), _) => StopKeepsAgreement(s, w);
      case _ =>
    }
  }

  lemma StepKeepsAgreement(s: State, step: Step)
    requires Agreement(s) && Truthful(s, step)
    ensures Agreement(Next(s, step))
  {
    match step {
      case NewCycle(c) => if c !in s.cycles { CyclesKeepAgreement(s, c, BeforeExecute); }
      case Strategize(c) =>
        if c in s.cycles && s.cycles[c].stage == BeforeExecute { CyclesKeepAgreement(s, c, Execute); }
      case Call(w, c) => GotoKeepsAgreement(s, w, Called(c));
      case _ =>
        if step.worker in s.workers {
          WorkerKeepsAgreement(s, step.worker, s.workers[step.worker], step);
        }
    }
  }

  lemma {:induction false} RunKeepsAgreement(s: State, steps: seq<Step>)
    requires Agreement(s) && TruthfulRun(s, steps)
    ensures Agreement(Run(s, steps))
    decreases |steps|
  {
    if steps != [] {
      StepKeepsAgreement(s, steps[0]);
      RunKeepsAgreement(Next(s, steps[0]), steps[1..]);
    }
  }

  ghost predicate CycleAgrees(s: State, c: nat) {
    c in s.cycles && s.cycles[c].stage == AfterExecute ==>
      var i := LastRow(s.rows, c);
      && i.Some? && s.rows[i.value].status != RUNNING
      && s.cycles[c].succeeded == Some(s.rows[i.value].status == SUCCEEDED)
  }

  lemma AgreementAtCycle(s: State, c: nat)
    requires Agreement(s)
    ensures CycleAgrees(s, c)
  {
    if LastRow(s.rows, c).Some? {
      assert RowAgrees(s.rows[LastRow(s.rows, c).value], s.cycles);
    }
  }

  /** Any number of workers and crashes, with or without a lease: as long as
      no owner in flight is called gone, a cycle past EXECUTE has one terminal
      execution, and says it succeeded iff it did. */
  lemma ExecutionAndCycleAgree(steps: seq<Step>, c: nat)
    requires TruthfulRun(EMPTY, steps)
    ensures CycleAgrees(Run(EMPTY, steps), c)
  {
    RunKeepsAgreement(EMPTY, steps);
    AgreementAtCycle(Run(EMPTY, steps), c);
  }

  // ---- the lease makes every answer truthful

  /** A call is only made when no other worker is inside. */
  ghost predicate Serial(s: State, steps: seq<Step>)
    decreases |steps|
  {
    steps == [] || ((steps[0].Call? ==> s.workers == map[]) && Serial(Next(s, steps[0]), steps[1..]))
  }

  ghost predicate OneWorker(s: State) {
    forall w, v :: w in s.workers && v in s.workers ==> w == v
  }

  lemma StepKeepsOneWorker(s: State, step: Step)
    requires OneWorker(s) && (step.Call? ==> s.workers == map[])
    ensures OneWorker(Next(s, step)) && Truthful(s, step)
  {
  }

  /** Whatever the oracle says: with one worker inside at a time it cannot be
      wrong about an owner in flight, so agreement follows. */
  lemma {:induction false} SerialIsTruthful(s: State, steps: seq<Step>)
    requires OneWorker(s) && Serial(s, steps)
    ensures TruthfulRun(s, steps)
    decreases |steps|
  {
    if steps != [] {
      StepKeepsOneWorker(s, steps[0]);
      SerialIsTruthful(Next(s, steps[0]), steps[1..]);
    }
  }

  // ---- a worker that nobody interrupts

  lemma NextCall(s: State, w: nat, c: nat)
    requires w !in s.workers && c in s.cycles
    ensures var t := Next(Next(s, Call(w, c)), Read(w)); t == Goto(s, w, ReadCycle(c, s.cycles[c].stage))
  {
    var read := ReadCycle(c, s.cycles[c].stage);
    assert s.workers[w := Called(c)][w := read] == s.workers[w := read];
  }

  /** What it finds stored decides: a terminal execution is recorded as it is, a
      lost one is failed and recorded, a live one is left alone. */
  lemma StoredExecutionIsReconciled(s: State, w: nat, c: nat, i: nat, gone: bool)
    requires w !in s.workers && c in s.cycles && s.cycles[c].stage == Execute && OneRowPerCycle(s.rows)
    requires i < |s.rows| && s.rows[i].cycle == c
    ensures var steps := [Read(w), List(w, gone), SaveExecution(w), RecordExecution(w)];
            var t, status := Run(Next(s, Call(w, c)), steps), s.rows[i].status;
            && t.workers == s.workers && t.invoked == s.invoked
            && if status != RUNNING then
                 t.rows == s.rows && t.cycles == s.cycles[c := Cycle(AfterExecute, Some(status == SUCCEEDED))]
               else if gone then
                 && t.rows == s.rows[i := Execution(c, FAILED)]
                 && t.cycles == s.cycles[c := Cycle(AfterExecute, Some(false))]
               else t.rows == s.rows && t.cycles == s.cycles
  {
    RunFour(Next(s, Call(w, c)), Read(w), List(w, gone), SaveExecution(w), RecordExecution(w));
    NextCall(s, w, c);
    OnlyRow(s.rows, c, i);
    hide Run, LastRow, OneRowPerCycle, Next;
    var a := Goto(s, w, ReadCycle(c, Execute));
    ReconcileFrom(a, w, c, i, gone);
    assert a.workers - {w} == s.workers;
  }

  lemma ReconcileFrom(s: State, w: nat, c: nat, i: nat, gone: bool)
    requires w in s.workers && s.workers[w] == ReadCycle(c, Execute) && c in s.cycles && s.cycles[c].stage == Execute
    requires LastRow(s.rows, c) == Some(i) && i < |s.rows| && s.rows[i].cycle == c
    ensures var t, status := Next(Next(Next(s, List(w, gone)), SaveExecution(w)), RecordExecution(w)), s.rows[i].status;
            && t.workers == s.workers - {w} && t.invoked == s.invoked
            && if status != RUNNING then
                 t.rows == s.rows && t.cycles == s.cycles[c := Cycle(AfterExecute, Some(status == SUCCEEDED))]
               else if gone then
                 && t.rows == s.rows[i := Execution(c, FAILED)]
                 && t.cycles == s.cycles[c := Cycle(AfterExecute, Some(false))]
               else t.rows == s.rows && t.cycles == s.cycles
  {
    hide LastRow;
    var listed := Next(s, List(w, gone));
    var status := s.rows[i].status;
    if status != RUNNING {
      assert listed == Goto(s, w, Terminal(c, i, status == SUCCEEDED));
      assert listed.workers - {w} == s.workers - {w};
    } else if gone {
      assert listed == Goto(s, w, Orphaned(c, i));
      assert Next(listed, SaveExecution(w)).workers - {w} == s.workers - {w};
    } else {
      assert listed == Stopped(s, w);
    }
  }

  lemma ClaimThenInvoke(s: State, w: nat, c: nat, ok: bool)
    requires w !in s.workers && c in s.cycles && s.cycles[c].stage == Execute && LastRow(s.rows, c).None?
    ensures var a := Goto(s, w, ReadCycle(c, Execute));
            var t := Next(Next(Next(a, List(w, true)), Claim(w)), Invoke(w, ok));
            var u := s.(rows := s.rows + [Execution(c, RUNNING)], invoked := s.invoked + [c]);
            t == Goto(u, w, Executed(c, |s.rows|, ok))
  {
    hide LastRow;
    var a := Goto(s, w, ReadCycle(c, Execute));
    assert Next(a, List(w, true)).workers == s.workers[w := Unclaimed(c)];
    var claimed := Next(Next(a, List(w, true)), Claim(w));
    assert claimed.workers == s.workers[w := Claimed(c, |s.rows|)];
    assert Next(claimed, Invoke(w, ok)).workers == s.workers[w := Executed(c, |s.rows|, ok)];
  }

  /** Where nothing is stored it claims, calls once, and records the outcome. */
  lemma FreshExecutionIsRecorded(s: State, w: nat, c: nat, ok: bool)
    requires w !in s.workers && c in s.cycles && s.cycles[c].stage == Execute && LastRow(s.rows, c).None?
    ensures var a := Next(Next(s, Call(w, c)), Read(w));
            var called := Next(Next(Next(a, List(w, true)), Claim(w)), Invoke(w, ok));
            var t := Next(Next(called, SaveExecution(w)), RecordExecution(w));
            && t.workers == s.workers && t.invoked == s.invoked + [c]
            && t.rows == s.rows + [Execution(c, if ok then SUCCEEDED else FAILED)]
            && t.cycles == s.cycles[c := Cycle(AfterExecute, Some(ok))]
  {
    NextCall(s, w, c);
    ClaimThenInvoke(s, w, c, ok);
    hide Next, LastRow;
    var called := Goto(s.(rows := s.rows + [Execution(c, RUNNING)], invoked := s.invoked + [c]), w,
                       Executed(c, |s.rows|, ok));
    SaveStep(called, w, c, |s.rows|, ok);
    RecordStep(Next(called, SaveExecution(w)), w, c, |s.rows|, ok);
    assert (s.rows + [Execution(c, RUNNING)])[|s.rows| := Execution(c, StatusOf(ok))] ==
             s.rows + [Execution(c, StatusOf(ok))];
    assert Next(Next(called, SaveExecution(w)), RecordExecution(w)).workers == s.workers;
  }

  // ---- what one wrong answer can do

  /** A second worker takes the live owner w for dead and closes the cycle as
      failed; then w stores its success. */
  function Usurp(w: nat, v: nat): seq<Step> {
    [List(v, true), SaveExecution(v), RecordExecution(v), SaveExecution(w), RecordExecution(w)]
  }

  lemma RunFour(s: State, a: Step, b: Step, c: Step, d: Step)
    ensures Run(s, [a, b, c, d]) == Next(Next(Next(Next(s, a), b), c), d)
  {
    hide Next;
    assert [a, b, c, d][1..] == [b, c, d] && [b, c, d][1..] == [c, d] && [c, d][1..] == [d] && [d][1..] == [];
    var s2 := Next(Next(s, a), b);
    assert Run(s, [a, b, c, d]) == Run(Next(s, a), [b, c, d]) == Run(s2, [c, d]);
    assert Run(s2, [c, d]) == Run(Next(s2, c), [d]) == Run(Next(Next(s2, c), d), []);
  }

  lemma RunFive(s: State, a: Step, b: Step, c: Step, d: Step, e: Step)
    ensures Run(s, [a, b, c, d, e]) == Next(Next(Next(Next(Next(s, a), b), c), d), e)
  {
    hide Next;
    assert [a, b, c, d, e][1..] == [b, c, d, e];
    assert Run(s, [a, b, c, d, e]) == Run(Next(s, a), [b, c, d, e]);
    RunFour(Next(s, a), b, c, d, e);
  }

  lemma LostStep(s: State, v: nat, c: nat, stage: Stage, i: nat)
    requires v in s.workers && s.workers[v] == ReadCycle(c, stage)
    requires LastRow(s.rows, c) == Some(i) && s.rows[i].status == RUNNING
    ensures Next(s, List(v, true)) == Goto(s, v, Orphaned(c, i))
  {
  }

  lemma SaveStep(s: State, x: nat, c: nat, i: nat, ok: bool)
    requires x in s.workers && i < |s.rows|
    requires s.workers[x] == Executed(c, i, ok) || (s.workers[x] == Orphaned(c, i) && !ok)
    ensures Next(s, SaveExecution(x)) ==
              Goto(s.(rows := s.rows[i := s.rows[i].(status := StatusOf(ok))]), x, Terminal(c, i, ok))
  {
  }

  lemma RecordStep(s: State, x: nat, c: nat, i: nat, ok: bool)
    requires x in s.workers && s.workers[x] == Terminal(c, i, ok)
    ensures Next(s, RecordExecution(x)) == CloseCycle(s, x, c, ok)
  {
  }

  lemma OnlyRow(rows: seq<Execution>, c: nat, i: nat)
    requires i < |rows| && rows[i].cycle == c && OneRowPerCycle(rows)
    ensures LastRow(rows, c) == Some(i)
  {
  }

  /** The five steps of Usurp, from the rows and the two workers alone. */
  lemma Usurped(s: State, w: nat, v: nat, c: nat, i: nat, stage: Stage)
    requires OneRowPerCycle(s.rows) && RowIs(s, c, i, RUNNING) && c in s.cycles && s.cycles[c].stage == Execute
    requires w != v && w in s.workers && v in s.workers
    requires s.workers[w] == Executed(c, i, true) && s.workers[v] == ReadCycle(c, stage)
    ensures var t := Run(s, Usurp(w, v));
      && t.rows == s.rows[i := Execution(c, SUCCEEDED)] && c in t.cycles
      && t.cycles[c] == Cycle(AfterExecute, Some(false))
  {
    OnlyRow(s.rows, c, i);
    RunFive(s, List(v, true), SaveExecution(v), RecordExecution(v), SaveExecution(w), RecordExecution(w));
    hide Next, Run, LastRow, OneRowPerCycle;
    LostStep(s, v, c, stage, i);
    var s1 := Goto(s, v, Orphaned(c, i));
    SaveStep(s1, v, c, i, false);
    var s2 := Next(s1, SaveExecution(v));
    RecordStep(s2, v, c, i, false);
    var s3 := Next(s2, RecordExecution(v));
    assert s3.cycles[c] == Cycle(AfterExecute, Some(false));
    SaveStep(s3, w, c, i, true);
    var s4 := Next(s3, SaveExecution(w));
    RecordStep(s4, w, c, i, true);
    assert s4.rows == s.rows[i := Execution(c, SUCCEEDED)];
  }

  /** What follows the wrong answer in Usurp. */
  function Aftermath(w: nat, v: nat): seq<Step> {
    [SaveExecution(v), RecordExecution(v), SaveExecution(w), RecordExecution(w)]
  }

  lemma {:induction false} NoListIsTruthful(s: State, steps: seq<Step>)
    requires forall k :: 0 <= k < |steps| ==> !steps[k].List?
    ensures TruthfulRun(s, steps)
    decreases |steps|
  {
    if steps != [] {
      NoListIsTruthful(Next(s, steps[0]), steps[1..]);
    }
  }

  /** Wherever a worker's call has succeeded and is not yet saved, a wrong
      answer to another one can end in a cycle that failed over an execution
      that succeeded. */
  lemma WrongAnswerBreaksAgreement(s: State, w: nat, v: nat, c: nat, i: nat, stage: Stage)
    requires Agreement(s) && w != v && w in s.workers && v in s.workers
    requires s.workers[w] == Executed(c, i, true) && s.workers[v] == ReadCycle(c, stage)
    ensures !Truthful(s, List(v, true)) && !CycleAgrees(Run(s, Usurp(w, v)), c)
    ensures Run(s, Usurp(w, v)) == Run(Next(s, List(v, true)), Aftermath(w, v))
  {
    assert InFlight(s.workers[w], c);
    assert PcAgrees(s, s.workers[w]) && RowAgrees(s.rows[i], s.cycles);
    Usurped(s, w, v, c, i, stage);
    assert Usurp(w, v)[1..] == Aftermath(w, v);
    hide Run, Agreement, LastRow;
    OnlyRow(s.rows[i := Execution(c, SUCCEEDED)], c, i);
  }

  /** c can still end up disagreeing with its execution although no further
      answer is wrong. */
  ghost predicate CanDisagree(s: State, c: nat) {
    exists rest :: TruthfulRun(s, rest) && !CycleAgrees(Run(s, rest), c)
  }

  /** The answer does not see whether the call it passes by is already made. */
  lemma InvokeCommutes(s: State, w: nat, v: nat, c: nat, i: nat, stage: Stage)
    requires w != v && w in s.workers && v in s.workers
    requires s.workers[w] == Claimed(c, i) && s.workers[v] == ReadCycle(c, stage)
    requires LastRow(s.rows, c) == Some(i) && s.rows[i].status == RUNNING
    ensures Next(Next(s, List(v, true)), Invoke(w, true)) == Next(Next(s, Invoke(w, true)), List(v, true))
  {
    var t := Next(s, Invoke(w, true));
    assert t.rows == s.rows;
    LostStep(s, v, c, stage, i);
    LostStep(t, v, c, stage, i);
  }

  /** After the call of a claimed worker, the states of WrongAnswerBreaksAgreement. */
  lemma InvokedAgrees(s: State, w: nat, v: nat, c: nat, i: nat, stage: Stage)
    requires Agreement(s) && w in s.workers && v in s.workers
    requires s.workers[w] == Claimed(c, i) && s.workers[v] == ReadCycle(c, stage)
    ensures LastRow(s.rows, c) == Some(i) && s.rows[i].status == RUNNING
    ensures var t := Next(s, Invoke(w, true));
            && Agreement(t) && w in t.workers && v in t.workers
            && t.workers[w] == Executed(c, i, true) && t.workers[v] == ReadCycle(c, stage)
  {
    assert PcAgrees(s, s.workers[w]);
    OnlyRow(s.rows, c, i);
    StepKeepsAgreement(s, Invoke(w, true));
    hide Agreement, LastRow;
  }

  lemma InFlightMatters(s: State, w: nat, v: nat, c: nat, stage: Stage)
    requires Agreement(s) && w in s.workers && v in s.workers && s.workers[v] == ReadCycle(c, stage)
    requires InFlight(s.workers[w], c)
    ensures CanDisagree(Next(s, List(v, true)), c)
  {
    hide Next, Agreement, CycleAgrees, Truthful, LastRow;
    var i := s.workers[w].row;
    var rest := Aftermath(w, v);
    if s.workers[w].Executed? {
      WrongAnswerBreaksAgreement(s, w, v, c, i, stage);
    } else {
      InvokedAgrees(s, w, v, c, i, stage);
      InvokeCommutes(s, w, v, c, i, stage);
      WrongAnswerBreaksAgreement(Next(s, Invoke(w, true)), w, v, c, i, stage);
      rest := [Invoke(w, true)] + rest;
      assert rest[1..] == Aftermath(w, v);
    }
    NoListIsTruthful(Next(s, List(v, true)), rest);
  }

  /** Exactly which answers matter: calling the owner of c gone can lead to
      disagreement if and only if an owner is in flight on c. */
  lemma WrongAnswerMattersIff(s: State, v: nat, c: nat, stage: Stage)
    requires Agreement(s) && v in s.workers && s.workers[v] == ReadCycle(c, stage)
    ensures CanDisagree(Next(s, List(v, true)), c) <==> exists w :: w in s.workers && InFlight(s.workers[w], c)
  {
    if w :| w in s.workers && InFlight(s.workers[w], c) {
      InFlightMatters(s, w, v, c, stage);
    } else {
      StepKeepsAgreement(s, List(v, true));
      forall rest | TruthfulRun(Next(s, List(v, true)), rest)
        ensures CycleAgrees(Run(Next(s, List(v, true)), rest), c)
      {
        RunKeepsAgreement(Next(s, List(v, true)), rest);
        AgreementAtCycle(Run(Next(s, List(v, true)), rest), c);
      }
    }
  }

  /** Two workers enter one cycle and the first one's call succeeds. */
  function Enter(): seq<Step> {
    [NewCycle(0), Strategize(0), Call(1, 0), Call(2, 0)] + [Read(1), Read(2), List(1, false), Claim(1), Invoke(1, true)]
  }

  lemma {:induction false} RunConcat(s: State, a: seq<Step>, b: seq<Step>)
    ensures Run(s, a + b) == Run(Run(s, a), b)
    decreases |a|
  {
    if a == [] {
      assert a + b == b;
    } else {
      assert (a + b)[1..] == a[1..] + b;
      RunConcat(Next(s, a[0]), a[1..], b);
    }
  }

  const BOTH_CALLED := State(map[0 := Cycle(Execute, None)], [], [], map[1 := Called(0), 2 := Called(0)])

  const BOTH_INSIDE := State(map[0 := Cycle(Execute, None)], [Execution(0, RUNNING)], [0],
                             map[1 := Executed(0, 0, true), 2 := ReadCycle(0, Execute)])

  lemma TwoWorkersCall()
    ensures Next(Next(Next(Next(EMPTY, NewCycle(0)), Strategize(0)), Call(1, 0)), Call(2, 0)) == BOTH_CALLED
  {
    var s := Next(Next(EMPTY, NewCycle(0)), Strategize(0));
    assert s.cycles == map[0 := Cycle(Execute, None)];
  }

  const BOTH_READ := State(map[0 := Cycle(Execute, None)], [], [],
                           map[1 := ReadCycle(0, Execute), 2 := ReadCycle(0, Execute)])

  lemma TwoWorkersRead()
    ensures Next(Next(BOTH_CALLED, Read(1)), Read(2)) == BOTH_READ
  {
    hide LastRow;
    assert Next(BOTH_CALLED, Read(1)).workers == map[1 := ReadCycle(0, Execute), 2 := Called(0)];
  }

  lemma FirstWorkerInvokes()
    ensures Next(Next(Next(BOTH_READ, List(1, false)), Claim(1)), Invoke(1, true)) == BOTH_INSIDE
  {
    hide LastRow;
    var t := Next(BOTH_READ, List(1, false));
    assert t.workers == map[1 := Unclaimed(0), 2 := ReadCycle(0, Execute)];
    var u := Next(t, Claim(1));
    assert u.workers == map[1 := Claimed(0, 0), 2 := ReadCycle(0, Execute)] && u.rows == [Execution(0, RUNNING)];
  }

  lemma TwoWorkersInside()
    ensures Run(EMPTY, Enter()) == BOTH_INSIDE
  {
    TwoWorkersCall();
    TwoWorkersRead();
    FirstWorkerInvokes();
    hide Next, Run;
    RunConcat(EMPTY, [NewCycle(0), Strategize(0), Call(1, 0), Call(2, 0)],
              [Read(1), Read(2), List(1, false), Claim(1), Invoke(1, true)]);
    RunFour(EMPTY, NewCycle(0), Strategize(0), Call(1, 0), Call(2, 0));
    RunFive(BOTH_CALLED, Read(1), Read(2), List(1, false), Claim(1), Invoke(1, true));
  }

  lemma BothInsideAgree()
    ensures Agreement(BOTH_INSIDE)
  {
    var s := BOTH_INSIDE;
    assert s.rows[0].cycle in CyclesOf(s.rows);
    forall w | w in s.workers
      ensures PcAgrees(s, s.workers[w])
    {
      assert w == 1 || w == 2;
    }
    assert Apart(s.workers[1], s.workers[2]) && Apart(s.workers[2], s.workers[1]);
  }

  /** One whole run from the start that ends in disagreement. */
  lemma WrongAnswerRun()
    ensures !CycleAgrees(Run(EMPTY, Enter() + Usurp(1, 2)), 0)
  {
    hide Run, Agreement, CycleAgrees, Enter, Usurp;
    TwoWorkersInside();
    RunConcat(EMPTY, Enter(), Usurp(1, 2));
    BothInsideAgree();
    WrongAnswerBreaksAgreement(BOTH_INSIDE, 1, 2, 0, 0, Execute);
  }
}
