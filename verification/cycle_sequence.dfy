/** create_cycle without the lease: a read transaction, then an insert that
    only UNIQUE(mission_id, sequence) guards. Any number of workers. */
module CycleSequence {
  type Worker = nat
  datatype Row = Row(sequence: nat, completed: bool)

  /** seen: how many cycles a worker saw before it decided to insert. */
  datatype State = State(rows: seq<Row>, seen: map<Worker, nat>)

  /** A crash is a worker that takes no further step. */
  datatype Step = Read(worker: Worker) | Insert(worker: Worker) | Complete(index: nat)

  predicate Taken(rows: seq<Row>, sequence: nat) {
    exists i :: 0 <= i < |rows| && rows[i].sequence == sequence
  }

  function Next(s: State, step: Step): State {
    match step
    case Read(w) =>
      if s.rows != [] && !s.rows[|s.rows| - 1].completed then s.(seen := s.seen - {w})
      else s.(seen := s.seen[w := |s.rows|])
    case Insert(w) =>
      if w !in s.seen then s
      else if Taken(s.rows, s.seen[w] + 1) then s.(seen := s.seen - {w})
      else s.(rows := s.rows + [Row(s.seen[w] + 1, false)], seen := s.seen - {w})
    case Complete(i) =>
      if i < |s.rows| then s.(rows := s.rows[i := s.rows[i].(completed := true)]) else s
  }

  function Run(s: State, steps: seq<Step>): State
    decreases |steps|
  {
    if steps == [] then s else Run(Next(s, steps[0]), steps[1..])
  }

  const EMPTY := State([], map[])

  /** 1..n without gaps or repeats, and only the last may be incomplete. */
  ghost predicate Contiguous(rows: seq<Row>) {
    && (forall i :: 0 <= i < |rows| ==> rows[i].sequence == i + 1)
    && (forall i :: 0 <= i < |rows| - 1 ==> rows[i].completed)
  }

  ghost predicate Inv(s: State) {
    && Contiguous(s.rows)
    && forall w :: w in s.seen ==> s.seen[w] <= |s.rows| && (s.seen[w] > 0 ==> s.rows[s.seen[w] - 1].completed)
  }

  /** The constraint lets an insert through iff nobody inserted since the read. */
  lemma TakenIffOvertaken(s: State, w: Worker)
    requires Inv(s) && w in s.seen
    ensures Taken(s.rows, s.seen[w] + 1) <==> s.seen[w] < |s.rows|
  {
    if s.seen[w] < |s.rows| {
      assert s.rows[s.seen[w]].sequence == s.seen[w] + 1;
    }
  }

  /** An insert adds cycle n + 1 exactly if its worker saw all n cycles, and a
      worker that finds no cycle open sees them all. */
  lemma InsertAppendsIff(s: State, w: Worker)
    requires Inv(s)
    ensures Next(s, Insert(w)).rows == if w in s.seen && s.seen[w] == |s.rows| then s.rows + [Row(|s.rows| + 1, false)]
                                       else s.rows
    ensures w !in Next(s, Insert(w)).seen
    ensures var t := Next(s, Read(w));
            && t.rows == s.rows
            && (w in t.seen && t.seen[w] == |s.rows| <==> s.rows == [] || s.rows[|s.rows| - 1].completed)
  {
    if w in s.seen {
      TakenIffOvertaken(s, w);
    }
  }

  lemma StepKeepsInv(s: State, step: Step)
    requires Inv(s)
    ensures Inv(Next(s, step))
  {
    if step.Insert? && step.worker in s.seen {
      TakenIffOvertaken(s, step.worker);
    }
  }

  lemma {:induction false} RunKeepsInv(s: State, steps: seq<Step>)
    requires Inv(s)
    ensures Inv(Run(s, steps))
    decreases |steps|
  {
    if steps != [] {
      StepKeepsInv(s, steps[0]);
      RunKeepsInv(Next(s, steps[0]), steps[1..]);
    }
  }

  lemma RacesKeepLedger(steps: seq<Step>)
    ensures Contiguous(Run(EMPTY, steps).rows)
  {
    RunKeepsInv(EMPTY, steps);
  }

  /** Of two workers that read the same table, whichever inserts second fails. */
  lemma OnlyOneInserts(steps: seq<Step>, a: Worker, b: Worker)
    requires a != b
    requires var s := Run(EMPTY, steps); a in s.seen && b in s.seen && s.seen[a] == s.seen[b]
    ensures var s := Next(Run(EMPTY, steps), Insert(a)); Next(s, Insert(b)).rows == s.rows
  {
    RunKeepsInv(EMPTY, steps);
    var s := Run(EMPTY, steps);
    TakenIffOvertaken(s, a);
    var t := Next(s, Insert(a));
    StepKeepsInv(s, Insert(a));
    TakenIffOvertaken(t, b);
  }
}
